/** JRPeriodRequest: the request to change the indexing period of some indexers of a named river,
    and its encoding on the transport streams. The river name is held by JRMgmBaseRequest, which
    is not part of this model; its contribution is the riverName field, the rejection of a null
    name by the public constructor and one leading string in the encoding. */
module PeriodRequests {
  import opened Wrappers
  import opened Wire

  /** The state of a JRPeriodRequest. A null indexerNames array means "all indexers". */
  datatype RequestFields = RequestFields(riverName: Option<string>, indexerNames: Option<seq<string>>, period: int)

  /** What the package-private no-argument constructor leaves. */
  const EmptyFields := RequestFields(None, None, 0)

  /** The presence flag, then the names only when they are present. */
  function NamesTokens(names: Option<seq<string>>): seq<Token>
  {
    [TBool(names.Some?)] + (if names.Some? then StringArray(names.value) else [])
  }

  /** JRPeriodRequest.writeTo: the river name, the optional names, then the period. A null river
      name cannot be written. */
  function Encode(f: RequestFields): (r: Result<seq<Token>>)
    ensures r.Err? <==> f.riverName.None?
  {
    if f.riverName.None? then Err(NullPointer)
    else Ok([TString(f.riverName.value)] + NamesTokens(f.indexerNames) + [TLong(f.period)])
  }

  /** The optional names as JRPeriodRequest.readFrom reads them: when the flag is false nothing is
      read and the names keep their previous value prev. */
  function ReadNames(prev: Option<seq<string>>, input: seq<Token>): Read<Option<seq<string>>>
  {
    match ReadBool(input)
    case Err(e) => Err(e)
    case Ok((present, rest)) =>
      if !present then Ok((prev, rest))
      else
        match ReadStringArray(rest)
        case Err(e) => Err(e)
        case Ok((names, remaining)) => Ok((Some(names), remaining))
  }

  /** JRPeriodRequest.readFrom into a request whose fields are prev. */
  function Decode(prev: RequestFields, input: seq<Token>): Read<RequestFields>
  {
    match ReadString(input)
    case Err(e) => Err(e)
    case Ok((name, r1)) =>
      match ReadNames(prev.indexerNames, r1)
      case Err(e) => Err(e)
      case Ok((names, r2)) =>
        match ReadLong(r2)
        case Err(e) => Err(e)
        case Ok((period, r3)) => Ok((RequestFields(Some(name), names, period), r3))
  }

  lemma NamesRoundTrip(names: Option<seq<string>>, prev: Option<seq<string>>, rest: seq<Token>)
    ensures ReadNames(prev, NamesTokens(names) + rest) == Ok((if names.Some? then names else prev, rest))
  {
    var input := NamesTokens(names) + rest;
    if names.Some? {
      assert input == [TBool(true)] + (StringArray(names.value) + rest);
      StringArrayRoundTrip(names.value, rest);
    } else {
      assert input == [TBool(false)] + rest;
    }
  }

  /** Reading back what was written restores the river name and the period; the names come back
      when they were written, and otherwise keep the value the target request held before. */
  lemma RoundTrip(f: RequestFields, prev: RequestFields, rest: seq<Token>)
    requires f.riverName.Some?
    ensures Encode(f).Ok?
    ensures Decode(prev, Encode(f).value + rest)
         == Ok((f.(indexerNames := if f.indexerNames.Some? then f.indexerNames else prev.indexerNames), rest))
  {
    var input := Encode(f).value + rest;
    var afterNames := [TLong(f.period)] + rest;
    assert input == [TString(f.riverName.value)] + (NamesTokens(f.indexerNames) + afterNames);
    NamesRoundTrip(f.indexerNames, prev.indexerNames, afterNames);
  }

  /** A request read into a freshly constructed one equals the request written, a null names array
      included. */
  lemma RoundTripIntoEmpty(f: RequestFields, rest: seq<Token>)
    requires f.riverName.Some?
    ensures Encode(f).Ok? && Decode(EmptyFields, Encode(f).value + rest) == Ok((f, rest))
  {
    RoundTrip(f, EmptyFields, rest);
  }

  class PeriodRequest {
    var riverName: Option<string>
    var indexerNames: Option<seq<string>>
    var period: int

    function Fields(): RequestFields
      reads this
    {
      RequestFields(riverName, indexerNames, period)
    }

    /** The package-private constructor used before readFrom. */
    constructor Empty()
      ensures Fields() == EmptyFields
    {
      riverName := None;
      indexerNames := None;
      period := 0;
    }

    /** The public constructor, once the river name is known not to be null. */
    constructor (riverName: string, indexerNames: Option<seq<string>>, period: int)
      ensures Fields() == RequestFields(Some(riverName), indexerNames, period)
    {
      this.riverName := Some(riverName);
      this.indexerNames := indexerNames;
      this.period := period;
    }

    /** JRMgmBaseRequest.setRiverName. */
    method SetRiverName(name: Option<string>)
      modifies this`riverName
      ensures Fields() == old(Fields()).(riverName := name)
    {
      riverName := name;
    }

    method SetIndexerNames(names: Option<seq<string>>)
      modifies this`indexerNames
      ensures Fields() == old(Fields()).(indexerNames := names)
    {
      indexerNames := names;
    }

    method SetPeriod(p: int)
      modifies this`period
      ensures Fields() == old(Fields()).(period := p)
    {
      period := p;
    }

    /** writeTo: appends the encoding of the request, or fails on a null river name. */
    method WriteTo(out: StreamOutput) returns (r: Outcome)
      modifies out
      ensures Encode(Fields()).Err? ==> r == Fail(NullPointer) && out.tokens == old(out.tokens)
      ensures Encode(Fields()).Ok? ==> r == Done && out.tokens == old(out.tokens) + Encode(Fields()).value
    {
      if riverName.None? {
        return Fail(NullPointer);
      }
      ghost var before := out.tokens;
      out.WriteString(riverName.value);
      WriteNames(out);
      out.WriteLong(period);
      AppendAssoc(before, [TString(riverName.value)], NamesTokens(indexerNames), [TLong(period)]);
      r := Done;
    }

    /** The presence flag, then the names only when present. */
    method WriteNames(out: StreamOutput)
      modifies out
      ensures out.tokens == old(out.tokens) + NamesTokens(indexerNames)
    {
      out.WriteBoolean(indexerNames.Some?);
      if indexerNames.Some? {
        out.WriteStringArray(indexerNames.value);
      }
    }

    /** readFrom: reads the fields in the order writeTo wrote them; the names are read only when
        their flag is set. */
    method ReadFrom(input: StreamInput) returns (r: Outcome)
      modifies this, input
      ensures match Decode(old(Fields()), old(input.remaining))
              case Ok((f, rest)) => r == Done && Fields() == f && input.remaining == rest
              case Err(e) => r == Fail(e)
    {
      var name := input.ReadStringToken();
      if name.Err? {
        return Fail(name.error);
      }
      riverName := Some(name.value);
      var present := input.ReadBoolean();
      if present.Err? {
        return Fail(present.error);
      }
      if present.value {
        var names := input.ReadStringArrayTokens();
        if names.Err? {
          return Fail(names.error);
        }
        indexerNames := Some(names.value);
      }
      var p := input.ReadLongToken();
      if p.Err? {
        return Fail(p.error);
      }
      period := p.value;
      r := Done;
    }
  }

  /** new JRPeriodRequest(riverName, indexerNames, period): a null river name is rejected with an
      IllegalArgumentException, otherwise the three values are stored unchanged. */
  method NewPeriodRequest(riverName: Option<string>, indexerNames: Option<seq<string>>, period: int)
    returns (r: Result<PeriodRequest>)
    ensures riverName.None? <==> r.Err?
    ensures r.Err? ==> r.error.IllegalArgument?
    ensures r.Ok? ==> fresh(r.value) && r.value.Fields() == RequestFields(riverName, indexerNames, period)
  {
    if riverName.None? {
      return Err(IllegalArgument("riverName"));
    }
    var request := new PeriodRequest(riverName.value, indexerNames, period);
    r := Ok(request);
  }
}
