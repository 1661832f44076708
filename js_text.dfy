/** JavaScript string semantics the editor forms depend on: truthiness of an
    optional string and `String.prototype.trim`. */
module JsText {
  import opened Wrappers

  /** JavaScript truthiness of an optional string: present and not empty. */
  predicate Truthy(o: Option<string>)
  {
    o.Some? && o.value != ""
  }

  /** `a || b` on optional strings. */
  function Or(a: Option<string>, b: Option<string>): Option<string>
  {
    if Truthy(a) then a else b
  }

  /** The characters ECMAScript's `trim` removes: WhiteSpace and LineTerminator. */
  predicate IsWhiteSpace(c: char)
  {
    || c == '\t' || c == '\n' || c == '\U{000B}' || c == '\U{000C}' || c == '\r'
    || c == ' ' || c == '\U{00A0}' || c == '\U{1680}'
    || ('\U{2000}' <= c <= '\U{200A}')
    || c == '\U{2028}' || c == '\U{2029}' || c == '\U{202F}' || c == '\U{205F}'
    || c == '\U{3000}' || c == '\U{FEFF}'
  }

  /** Number of white-space characters at the start of `s`. */
  function LeadingSpace(s: string): (k: nat)
    ensures k <= |s|
    ensures forall i :: 0 <= i < k ==> IsWhiteSpace(s[i])
    ensures k < |s| ==> !IsWhiteSpace(s[k])
  {
    if s == [] || !IsWhiteSpace(s[0]) then 0 else 1 + LeadingSpace(s[1..])
  }

  /** Number of white-space characters at the end of `s`. */
  function TrailingSpace(s: string): (k: nat)
    ensures k <= |s|
    ensures forall i :: |s| - k <= i < |s| ==> IsWhiteSpace(s[i])
    ensures k < |s| ==> !IsWhiteSpace(s[|s| - 1 - k])
  {
    if s == [] || !IsWhiteSpace(s[|s| - 1]) then 0 else 1 + TrailingSpace(s[..|s| - 1])
  }

  /** Bounds `(i, j)` of what `trim` keeps: everything outside `s[i..j]` is
      white space, and the kept part neither starts nor ends with it. */
  function TrimBounds(s: string): (b: (nat, nat))
    ensures b.0 <= b.1 <= |s|
    ensures forall k :: 0 <= k < b.0 ==> IsWhiteSpace(s[k])
    ensures forall k :: b.1 <= k < |s| ==> IsWhiteSpace(s[k])
    ensures b.0 < b.1 ==> !IsWhiteSpace(s[b.0]) && !IsWhiteSpace(s[b.1 - 1])
  {
    var i := LeadingSpace(s);
    var t := s[i..];
    var n := TrailingSpace(t);
    assert forall k :: i + |t| - n <= k < |s| ==> s[k] == t[k - i];
    (i, i + |t| - n)
  }

  /** A text that neither starts nor ends with white space. */
  predicate IsTrimmed(s: string)
  {
    s == "" || (!IsWhiteSpace(s[0]) && !IsWhiteSpace(s[|s| - 1]))
  }

  /** `s.trim()`: `s` without its leading and trailing white space. */
  function Trim(s: string): (r: string)
    ensures IsTrimmed(r)
    ensures r == "" <==> forall k :: 0 <= k < |s| ==> IsWhiteSpace(s[k])
  {
    var b := TrimBounds(s);
    assert b.0 == b.1 ==> forall k :: 0 <= k < |s| ==> IsWhiteSpace(s[k]) by {
      if b.0 == b.1 {
        forall k | 0 <= k < |s| ensures IsWhiteSpace(s[k]) {
          if k < b.0 { } else { }
        }
      }
    }
    s[b.0..b.1]
  }

  /** What `trim` keeps is a slice of the text with only white space
      outside it. */
  lemma TrimIsSlice(s: string)
    ensures exists i, j :: 0 <= i <= j <= |s| && Trim(s) == s[i..j]
                           && (forall k :: 0 <= k < i ==> IsWhiteSpace(s[k]))
                           && (forall k :: j <= k < |s| ==> IsWhiteSpace(s[k]))
  {
    var b := TrimBounds(s);
    assert Trim(s) == s[b.0..b.1];
  }

  /** Trimming a trimmed text changes nothing, so trimming is idempotent. */
  lemma TrimKeepsTrimmed(s: string)
    ensures IsTrimmed(s) ==> Trim(s) == s
    ensures Trim(Trim(s)) == Trim(s)
  {
    if IsTrimmed(s) && s != "" {
      assert LeadingSpace(s) == 0;
      assert TrailingSpace(s) == 0;
      assert s[0..][..|s|] == s;
    }
    var r := Trim(s);
    if r != "" {
      assert LeadingSpace(r) == 0;
      assert TrailingSpace(r) == 0;
      assert r[0..][..|r|] == r;
    }
  }

  /** `s.trim() || undefined`: the trimmed text, or undefined when it is blank. */
  function TrimmedOrUndefined(s: string): (r: Option<string>)
    ensures r.None? <==> forall k :: 0 <= k < |s| ==> IsWhiteSpace(s[k])
    ensures r.Some? ==> r.value == Trim(s) && Truthy(r)
  {
    var t := Trim(s);
    if t == "" then None else Some(t)
  }

  /** A trimmed, non-empty text is kept as it is by `s.trim() || undefined`. */
  lemma TrimmedOrUndefinedKeeps(s: string)
    requires IsTrimmed(s) && s != ""
    ensures TrimmedOrUndefined(s) == Some(s)
  {
    TrimKeepsTrimmed(s);
  }

  /** The text a form shows for an optional field (`o || ""`), read back
      with `s.trim() || undefined`, is the field itself when the field is
      absent or trimmed and non-empty. */
  lemma OptionalFieldRoundTrip(o: Option<string>)
    requires o.None? || (IsTrimmed(o.value) && o.value != "")
    ensures TrimmedOrUndefined(if Truthy(o) then o.value else "") == o
  {
    if o.Some? {
      TrimmedOrUndefinedKeeps(o.value);
    }
  }
}
