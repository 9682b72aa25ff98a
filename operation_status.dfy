/** The `OperationStatus` enumeration of the Web Sites 2016-09-01 models and
    its two hand-written conversions: the serialiser `ToSerializedValue` (with
    its nullable overload) and the parser `ParseOperationStatus`. */
module OperationStatusCodec {
  import opened Wrappers

  datatype OperationStatus = InProgress | Failed | Succeeded | TimedOut | Created

  /** The `EnumMember` value attached to each member, in declaration order. */
  const EnumMemberValues: seq<(OperationStatus, string)> :=
    [ (InProgress, "InProgress"),
      (Failed, "Failed"),
      (Succeeded, "Succeeded"),
      (TimedOut, "TimedOut"),
      (Created, "Created") ]

  /** Serialises a (non-null) status: never null, and always the `EnumMember`
      value declared for that member. */
  function ToSerializedValue(v: OperationStatus): (s: string)
    ensures (v, s) in EnumMemberValues
  {
    match v
    case InProgress => "InProgress"
    case Failed => "Failed"
    case Succeeded => "Succeeded"
    case TimedOut => "TimedOut"
    case Created => "Created"
  }

  /** The overload on `OperationStatus?`: null stays null, anything else is
      handed to the non-nullable overload. */
  function NullableToSerializedValue(v: Option<OperationStatus>): (s: Option<string>)
    ensures s.None? <==> v.None?
    ensures v.Some? ==> s == Some(ToSerializedValue(v.value))
  {
    match v
    case None => None
    case Some(x) => Some(ToSerializedValue(x))
  }

  /** Parses a possibly-null string. It recognises exactly the five serialised
      names (compared case-sensitively) and yields null for every other string
      and for null itself. */
  function ParseOperationStatus(value: Option<string>): (r: Option<OperationStatus>)
    ensures r.Some? ==> value == Some(ToSerializedValue(r.value))
    ensures r.None? <==> forall v: OperationStatus :: value != Some(ToSerializedValue(v))
  {
    match value
    case None => None
    case Some(s) =>
      if s == "InProgress" then Some(InProgress)
      else if s == "Failed" then Some(Failed)
      else if s == "Succeeded" then Some(Succeeded)
      else if s == "TimedOut" then Some(TimedOut)
      else if s == "Created" then Some(Created)
      else None
  }

  /** Distinct statuses serialise to distinct strings. */
  lemma SerializationInjective(v: OperationStatus, w: OperationStatus)
    ensures ToSerializedValue(v) == ToSerializedValue(w) ==> v == w
  {
  }

  /** Parsing undoes serialising, for every status. */
  lemma ParseSerializeRoundTrip(v: OperationStatus)
    ensures ParseOperationStatus(Some(ToSerializedValue(v))) == Some(v)
  {
    SerializationInjective(v, ParseOperationStatus(Some(ToSerializedValue(v))).value);
  }

  /** Serialising undoes parsing, for every string that parses. */
  lemma SerializeParseRoundTrip(s: Option<string>)
    requires ParseOperationStatus(s).Some?
    ensures NullableToSerializedValue(ParseOperationStatus(s)) == s
  {
  }

  /** The round trip through the nullable overload, null included. */
  lemma NullableRoundTrip(v: Option<OperationStatus>)
    ensures ParseOperationStatus(NullableToSerializedValue(v)) == v
  {
    if v.Some? {
      ParseSerializeRoundTrip(v.value);
    }
  }

  /** The parser does not fold case: a lower-case name is not recognised. */
  lemma ParseIsCaseSensitive()
    ensures ParseOperationStatus(Some("succeeded")) == None
    ensures ParseOperationStatus(Some("Succeeded")) == Some(Succeeded)
  {
  }
}
