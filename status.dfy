/** The `Status` enum of the ad-group API: four named states numbered 1 to 4,
    written in JSON as their names. Two constant tables translate between
    names and numbers; every operation is a lookup in one of them. */
module StatusEnum {
  import opened Wrappers
  import Decimal

  /** Go's `type Status byte`: every byte is a `Status`, only 1 to 4 are members. */
  newtype Status = x: int | 0 <= x < 256

  const ENABLED: Status := 1
  const PAUSED: Status := 2
  const VALID: Status := 3
  const INVALID: Status := 4

  /** The four member names, in the order of their numbers. */
  const Names: seq<string> := ["ENABLED", "PAUSED", "VALID", "INVALID"]

  const NameToValue: map<string, Status> :=
    map["ENABLED" := ENABLED, "PAUSED" := PAUSED, "VALID" := VALID, "INVALID" := INVALID]

  const ValueToName: map<Status, string> :=
    map[ENABLED := "ENABLED", PAUSED := "PAUSED", VALID := "VALID", INVALID := "INVALID"]

  predicate IsMember(r: Status) {
    r in ValueToName
  }

  /** The errors the codec reports; `Message` is the text Go's `fmt.Errorf` builds. */
  datatype StatusError =
    | InvalidValue(value: Status)   // from String and MarshalJSON
    | InvalidName(name: string)     // from ParseStatus
    | UnknownName(name: string)     // from UnmarshalJSON, a string that names no member
    | NotAString(data: string)      // from UnmarshalJSON, input that is not a JSON string
  {
    function Message(): string {
      match this
      case InvalidValue(v) => "invalid Status: " + Decimal.Format(v as int)
      case InvalidName(n) => "invalid Status: " + n
      case UnknownName(n) => "invalid Status \"" + n + "\""
      case NotAString(d) => "Status should be a string, got " + d
    }
  }

  /** A JSON document handed to UnmarshalJSON, by the kind that matters to it:
      a string literal (with its decoded text), the literal `null`, or any other
      text, kept verbatim. */
  datatype Json = JString(text: string) | JNull | JOther(raw: string)

  /** The JSON text of a string that needs no escaping: the string in double quotes. */
  function Quote(s: string): string {
    "\"" + s + "\""
  }

  /** `func (r Status) String() (string, error)`: the member's name, or "" and
      an error for any other byte, 0 included. */
  function String(r: Status): (res: (string, Option<StatusError>))
    ensures res.1.None? <==> 1 <= r <= 4
    ensures res.1.None? ==> res.0 == Names[r - 1]
    ensures res.1.Some? ==> res == ("", Some(InvalidValue(r)))
  {
    if r in ValueToName then (ValueToName[r], None) else ("", Some(InvalidValue(r)))
  }

  /** `func ParseStatus(name string) (Status, error)`: exact, case-sensitive
      lookup of a member name; `Status(0)` and an error otherwise. */
  function ParseStatus(name: string): (res: (Status, Option<StatusError>))
    ensures res.1.None? <==> name in Names
    ensures res.1.None? ==> IsMember(res.0) && Names[res.0 - 1] == name
    ensures res.1.Some? ==> res == (0, Some(InvalidName(name)))
  {
    if name in NameToValue then (NameToValue[name], None) else (0, Some(InvalidName(name)))
  }

  /** `func (r Status) MarshalJSON() ([]byte, error)`: the JSON string of the
      member's name, or nil bytes and an error for a non-member. */
  function MarshalJSON(r: Status): (res: (Option<string>, Option<StatusError>))
    ensures res.1.None? <==> IsMember(r)
    ensures res.1.None? ==> res.0 == Some(Quote(String(r).0))
    ensures res.1.Some? ==> res == (None, Some(InvalidValue(r)))
  {
    if r in ValueToName then (Some(Quote(ValueToName[r])), None) else (None, Some(InvalidValue(r)))
  }

  /** What `json.Unmarshal(data, &s)` leaves in a string `s` that starts empty:
      the literal's text, "" for `null` (which Go accepts and ignores), and
      nothing (an error) for any other JSON. */
  function StringTarget(data: Json): (s: Option<string>)
  {
    match data
    case JString(t) => Some(t)
    case JNull => Some("")
    case JOther(_) => None
  }

  /** The value `UnmarshalJSON` stores, or the error it returns. */
  function DecodeJSON(data: Json): (r: Result<Status, StatusError>)
    ensures r.Success? <==> data.JString? && data.text in Names
    ensures r.Success? ==> String(r.value) == (data.text, None)
    ensures data.JOther? ==> r == Failure(NotAString(data.raw))
    ensures data.JNull? ==> r == Failure(UnknownName(""))
    ensures data.JString? && r.Failure? ==> r.error == UnknownName(data.text)
  {
    match StringTarget(data)
    case None => Failure(NotAString(data.raw))
    case Some(s) =>
      if s in NameToValue then Success(NameToValue[s]) else Failure(UnknownName(s))
  }

  /** A `*Status` receiver: the variable UnmarshalJSON writes through. */
  class StatusVar {
    var value: Status

    constructor (v: Status)
      ensures value == v
    {
      value := v;
    }

    /** `func (r *Status) UnmarshalJSON(data []byte) error`: stores the decoded
        member on success and leaves the receiver untouched on either error. */
    method UnmarshalJSON(data: Json) returns (err: Option<StatusError>)
      modifies this
      ensures err.None? <==> DecodeJSON(data).Success?
      ensures err.None? ==> value == DecodeJSON(data).value
      ensures err.Some? ==> err == Some(DecodeJSON(data).error) && value == old(value)
    {
      var s := "";
      match data {
        case JString(t) => s := t;
        case JNull =>
        case JOther(raw) => return Some(NotAString(raw));
      }
      if s !in NameToValue {
        return Some(UnknownName(s));
      }
      value := NameToValue[s];
      return None;
    }
  }

  /** The members are ENABLED=1, PAUSED=2, VALID=3, INVALID=4, and no other byte
      (0 included) is one. */
  lemma MembersAreOneToFour(r: Status)
    ensures ENABLED == 1 && PAUSED == 2 && VALID == 3 && INVALID == 4
    ensures IsMember(r) <==> 1 <= r <= 4
    ensures !IsMember(0)
  {
  }

  /** The two tables cover exactly the four members and are mutual inverses. */
  lemma TablesAreInverse()
    ensures NameToValue.Keys == set n | n in Names
    ensures ValueToName.Keys == {ENABLED, PAUSED, VALID, INVALID}
    ensures forall n | n in NameToValue :: NameToValue[n] in ValueToName && ValueToName[NameToValue[n]] == n
    ensures forall v | v in ValueToName :: ValueToName[v] in NameToValue && NameToValue[ValueToName[v]] == v
  {
  }

  /** Printing a member and parsing the name gives the member back. */
  lemma StringThenParse(r: Status)
    requires IsMember(r)
    ensures ParseStatus(String(r).0) == (r, None)
  {
  }

  /** Parsing a member name and printing the member gives the name back. */
  lemma ParseThenString(name: string)
    requires name in Names
    ensures String(ParseStatus(name).0) == (name, None)
  {
  }

  /** Example: PAUSED is 2 and marshals to the JSON text "PAUSED" in quotes;
      that string decodes to 2. */
  lemma PausedExample()
    ensures MarshalJSON(2) == (Some("\"PAUSED\""), None)
    ensures DecodeJSON(JString("PAUSED")) == Success(PAUSED)
  {
    assert Quote("PAUSED") == "\"PAUSED\"";
  }

  /** The text of an unescaped JSON string literal: a double quote, characters
      that need no escape in JSON, and a closing double quote. Only such
      literals are read; the escapes of JSON are not modelled. */
  function UnescapedLiteral(text: string): (r: Option<string>)
  {
    if |text| >= 2 && text[0] == '"' && text[|text| - 1] == '"'
       && forall i | 1 <= i < |text| - 1 :: NeedsNoEscape(text[i])
    then Some(text[1..|text| - 1])
    else None
  }

  predicate NeedsNoEscape(c: char) {
    c >= ' ' && c != '"' && c != '\\'
  }

  /** Marshalling a member and unmarshalling the resulting JSON stores that
      member: the text MarshalJSON writes is a JSON string literal whose text
      decodes to the member. */
  lemma MarshalThenUnmarshal(r: Status)
    requires IsMember(r)
    ensures MarshalJSON(r).0.Some?
    ensures UnescapedLiteral(MarshalJSON(r).0.value).Some?
    ensures DecodeJSON(JString(UnescapedLiteral(MarshalJSON(r).0.value).value)) == Success(r)
  {
    var name := ValueToName[r];
    var text := Quote(name);
    assert text[1..|text| - 1] == name;
  }

  /** The round trip through a receiver: a `Status` variable that unmarshals
      the JSON a member marshals to reports no error and holds that member. */
  method UnmarshalMarshalled(r: Status) returns (stored: Status, err: Option<StatusError>)
    requires IsMember(r)
    ensures err.None? && stored == r
  {
    var v := new StatusVar(0);
    MarshalThenUnmarshal(r);
    err := v.UnmarshalJSON(JString(UnescapedLiteral(MarshalJSON(r).0.value).value));
    stored := v.value;
  }
}
