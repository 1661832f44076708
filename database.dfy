/** The persistence layer of database.ts: a diagram is stored as a record
    whose two dates are ISO text, in a table keyed by id. The table is
    modelled as a map; the text of `toISOString` is modelled by an injective
    stand-in (an optional minus sign and the decimal digits of the time
    value) together with the parser `new Date(text)` uses on it. */
module Database {
  import opened Wrappers
  import opened DiagramTypes

  /** A diagram as stored: the same fields, with the dates as text. */
  datatype DiagramRecord = DiagramRecord(
    id: string,
    name: string,
    description: Option<string>,
    createdAt: string,
    updatedAt: string,
    actors: seq<Actor>,
    states: seq<State>,
    flows: seq<Flow>,
    conditions: seq<Condition>)

  /** The error `toISOString` throws on the invalid date. */
  const InvalidTimeValue := "RangeError: Invalid time value"

  function DigitChar(d: nat): (c: char)
    requires d < 10
    ensures '0' <= c <= '9'
  {
    (48 + d) as char
  }

  /** Decimal digits of n, most significant first, with no leading zero. */
  function Digits(n: nat): (s: string)
    ensures |s| > 0
    ensures forall i :: 0 <= i < |s| ==> '0' <= s[i] <= '9'
  {
    if n < 10 then [DigitChar(n)] else Digits(n / 10) + [DigitChar(n % 10)]
  }

  /** Reads a non-empty run of decimal digits. */
  function ParseDigits(s: string): Option<nat>
  {
    if |s| == 0 || !('0' <= s[|s| - 1] <= '9') then None
    else
      var last := (s[|s| - 1] as int - 48) as nat;
      if |s| == 1 then Some(last)
      else match ParseDigits(s[..|s| - 1])
           case None => None
           case Some(high) => Some(high * 10 + last)
  }

  /** The text of a time value. */
  function TimeText(ms: int): string
  {
    if ms < 0 then "-" + Digits(-ms) else Digits(ms)
  }

  /** Reads the text of a time value back. */
  function ParseTimeText(s: string): Option<int>
  {
    var negative := |s| > 0 && s[0] == '-';
    match ParseDigits(if negative then s[1..] else s)
    case None => None
    case Some(n) =>
      var ms: int := if negative then 0 - (n as int) else n as int;
      Some(ms)
  }

  lemma {:induction false} DigitsRoundTrip(n: nat)
    ensures ParseDigits(Digits(n)) == Some(n)
  {
    if n >= 10 {
      DigitsRoundTrip(n / 10);
      var s := Digits(n);
      assert s[..|s| - 1] == Digits(n / 10);
    }
  }

  /** Reading the text of a time value gives the time value back. */
  lemma {:induction false} TimeTextParses(ms: int)
    ensures ParseTimeText(TimeText(ms)) == Some(ms)
  {
    var t := TimeText(ms);
    if ms < 0 {
      DigitsRoundTrip(-ms);
      assert t[0] == '-' && t[1..] == Digits(-ms);
    } else {
      DigitsRoundTrip(ms);
      assert '0' <= t[0] <= '9';
    }
  }

  /** Reading the text of a time value gives the time value back, so the text
      is injective. */
  lemma TimeTextRoundTrip(ms: int, other: int)
    ensures ParseTimeText(TimeText(ms)) == Some(ms)
    ensures TimeText(ms) == TimeText(other) ==> ms == other
  {
    TimeTextParses(ms);
    TimeTextParses(other);
  }

  /** `date.toISOString()`: the text of a valid date, a RangeError otherwise. */
  function ToIsoString(d: Date): Result<string, string>
  {
    match d
    case Time(ms) => Success(TimeText(ms))
    case InvalidDate => Failure(InvalidTimeValue)
  }

  /** `new Date(text)`: the date the text denotes, or the invalid date. */
  function NewDate(text: string): Date
  {
    match ParseTimeText(text)
    case Some(ms) => Time(ms)
    case None => InvalidDate
  }

  /** `diagramToRecord`: each date becomes its text; a throw of either
      conversion is the failure. */
  function DiagramToRecord(d: Diagram): Result<DiagramRecord, string>
  {
    match ToIsoString(d.createdAt)
    case Failure(e) => Failure(e)
    case Success(created) =>
      match ToIsoString(d.updatedAt)
      case Failure(e) => Failure(e)
      case Success(updated) =>
        Success(DiagramRecord(d.id, d.name, d.description, created, updated,
                              d.actors, d.states, d.flows, d.conditions))
  }

  /** The text of a time value is not empty, and `new Date` reads it back. */
  lemma DateTextRoundTrip(ms: int)
    ensures TimeText(ms) != ""
    ensures NewDate(TimeText(ms)) == Time(ms)
  {
    TimeTextParses(ms);
  }

  /** `recordToDiagram`: each date text becomes a date. */
  function RecordToDiagram(r: DiagramRecord): Diagram
  {
    Diagram(r.id, r.name, r.description, NewDate(r.createdAt), NewDate(r.updatedAt),
            r.actors, r.states, r.flows, r.conditions)
  }

  /** The conversion to a record fails exactly on an invalid date, and
      otherwise copies every field except the two dates. */
  lemma DiagramToRecordSpec(d: Diagram)
    ensures DiagramToRecord(d).Failure? <==> d.createdAt.InvalidDate? || d.updatedAt.InvalidDate?
    ensures DiagramToRecord(d).Failure? ==> DiagramToRecord(d).error == InvalidTimeValue
    ensures DiagramToRecord(d).Success? ==>
      var r := DiagramToRecord(d).value;
      && r.id == d.id && r.name == d.name && r.description == d.description
      && r.actors == d.actors && r.states == d.states && r.flows == d.flows && r.conditions == d.conditions
      && r.createdAt == TimeText(d.createdAt.ms) && r.updatedAt == TimeText(d.updatedAt.ms)
  {
  }

  /** The conversion back only touches the two dates, and reads each of them
      with `new Date`. */
  lemma RecordToDiagramSpec(r: DiagramRecord)
    ensures var d := RecordToDiagram(r);
      && d.id == r.id && d.name == r.name && d.description == r.description
      && d.actors == r.actors && d.states == r.states && d.flows == r.flows && d.conditions == r.conditions
      && (ParseTimeText(r.createdAt).Some? ==> d.createdAt == Time(ParseTimeText(r.createdAt).value))
      && (ParseTimeText(r.createdAt).None? ==> d.createdAt == InvalidDate)
      && (ParseTimeText(r.updatedAt).Some? ==> d.updatedAt == Time(ParseTimeText(r.updatedAt).value))
      && (ParseTimeText(r.updatedAt).None? ==> d.updatedAt == InvalidDate)
  {
  }

  /** A diagram with valid dates survives the round trip through its record. */
  lemma RecordRoundTrip(d: Diagram)
    requires d.createdAt.Time? && d.updatedAt.Time?
    ensures DiagramToRecord(d).Success?
    ensures RecordToDiagram(DiagramToRecord(d).value) == d
  {
    TimeTextRoundTrip(d.createdAt.ms, d.createdAt.ms);
    TimeTextRoundTrip(d.updatedAt.ms, d.updatedAt.ms);
  }

  /** `getDiagramById` over a table's contents. */
  function LookupDiagram(records: map<string, DiagramRecord>, id: string): Option<Diagram>
  {
    if id in records then Some(RecordToDiagram(records[id])) else None
  }

  /** After a put of a diagram with valid dates, reading its id gives it
      back and every other id reads as before; after a delete, the id reads
      as missing and every other id as before. */
  lemma TableLaws(records: map<string, DiagramRecord>, d: Diagram, other: string)
    requires d.createdAt.Time? && d.updatedAt.Time?
    ensures DiagramToRecord(d).Success?
    ensures LookupDiagram(records[d.id := DiagramToRecord(d).value], d.id) == Some(d)
    ensures other != d.id ==> LookupDiagram(records[d.id := DiagramToRecord(d).value], other) == LookupDiagram(records, other)
    ensures LookupDiagram(records - {d.id}, d.id) == None
    ensures other != d.id ==> LookupDiagram(records - {d.id}, other) == LookupDiagram(records, other)
  {
    RecordRoundTrip(d);
  }

  /** The diagrams table. */
  class DiagramDatabase {
    var records: map<string, DiagramRecord>

    constructor()
      ensures records == map[]
    {
      records := map[];
    }

    /** `saveDiagram`: puts the record under the diagram's id; when a date
        cannot be converted the call fails and the table is unchanged. */
    method SaveDiagram(d: Diagram) returns (outcome: Result<(), string>)
      modifies this
      ensures DiagramToRecord(d).Success? ==> outcome.Success? && records == old(records)[d.id := DiagramToRecord(d).value]
      ensures DiagramToRecord(d).Failure? ==> outcome == Failure(DiagramToRecord(d).error) && records == old(records)
    {
      match DiagramToRecord(d)
      case Failure(e) =>
        outcome := Failure(e);
      case Success(record) =>
        records := records[record.id := record];
        outcome := Success(());
    }

    /** `getDiagramById`. */
    function GetDiagramById(id: string): Option<Diagram>
      reads this
    {
      LookupDiagram(records, id)
    }

    /** `deleteDiagram`: removes that key only. */
    method DeleteDiagram(id: string)
      modifies this
      ensures records == old(records) - {id}
    {
      records := records - {id};
    }
  }
}
