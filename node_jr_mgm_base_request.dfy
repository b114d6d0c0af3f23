/** NodeJRMgmBaseRequest, as NodeJRPeriodRequest instantiates it: a period request addressed to one
    node. The node-level header comes from ElasticSearch's NodeOperationRequest, which is not part
    of this model; its contribution is the node id, written as one leading string. */
module NodeRequests {
  import opened Wrappers
  import opened Wire
  import opened PeriodRequests

  /** writeTo: the node id, then the embedded request's encoding. A null node id, a null request or
      a request that cannot be written makes the write fail. */
  function EncodeNodeRequest(nodeId: Option<string>, request: Option<RequestFields>): (r: Result<seq<Token>>)
    ensures r.Ok? <==> nodeId.Some? && request.Some? && request.value.riverName.Some?
  {
    if nodeId.None? || request.None? || request.value.riverName.None? then Err(NullPointer)
    else Ok([TString(nodeId.value)] + Encode(request.value).value)
  }

  /** readFrom: the node id, then a request read into a freshly constructed JRPeriodRequest. */
  function DecodeNodeRequest(input: seq<Token>): Read<(string, RequestFields)>
  {
    match ReadString(input)
    case Err(e) => Err(e)
    case Ok((nodeId, rest)) =>
      match Decode(EmptyFields, rest)
      case Err(e) => Err(e)
      case Ok((f, remaining)) => Ok(((nodeId, f), remaining))
  }

  /** The node id and every field of the embedded request survive a write and a read, a null names
      array included. */
  lemma NodeRequestRoundTrip(nodeId: string, f: RequestFields, rest: seq<Token>)
    requires f.riverName.Some?
    ensures EncodeNodeRequest(Some(nodeId), Some(f)).Ok?
    ensures DecodeNodeRequest(EncodeNodeRequest(Some(nodeId), Some(f)).value + rest) == Ok(((nodeId, f), rest))
  {
    RoundTripIntoEmpty(f, rest);
    assert EncodeNodeRequest(Some(nodeId), Some(f)).value + rest == [TString(nodeId)] + (Encode(f).value + rest);
  }

  class NodePeriodRequest {
    var nodeId: Option<string>
    var request: PeriodRequest?

    /** The request's fields, or null. */
    function RequestFieldsOf(): Option<RequestFields>
      reads this, request
    {
      if request == null then None else Some(request.Fields())
    }

    /** The no-argument constructor, used before readFrom: no request yet. */
    constructor Empty()
      ensures nodeId.None? && request == null
    {
      nodeId := None;
      request := null;
    }

    /** The request to be sent to node nodeId: getRequest() is that same object. */
    constructor (nodeId: string, request: PeriodRequest)
      ensures this.nodeId == Some(nodeId) && this.request == request
    {
      this.nodeId := Some(nodeId);
      this.request := request;
    }

    method WriteTo(out: StreamOutput) returns (r: Outcome)
      modifies out
      ensures nodeId.None? || request == null || request.riverName.None? ==> r == Fail(NullPointer)
      ensures nodeId.Some? && request != null && request.riverName.Some? ==>
        r == Done && out.tokens == old(out.tokens) + [TString(nodeId.value)] + Encode(request.Fields()).value
    {
      if nodeId.None? {
        return Fail(NullPointer);
      }
      out.WriteString(nodeId.value);
      if request == null {
        return Fail(NullPointer);
      }
      r := request.WriteTo(out);
    }

    /** readFrom: reads the node id, then builds a fresh request and reads into it. */
    method ReadFrom(input: StreamInput) returns (r: Outcome)
      modifies this, input
      ensures match DecodeNodeRequest(old(input.remaining))
              case Ok(((id, f), rest)) =>
                r == Done && nodeId == Some(id) && request != null && fresh(request)
                && request.Fields() == f && input.remaining == rest
              case Err(e) => r == Fail(e)
    {
      var id := ReadNodeId(input);
      if id.Err? {
        return Fail(id.error);
      }
      nodeId := Some(id.value);
      var created := new PeriodRequest.Empty();
      request := created;
      r := created.ReadFrom(input);
    }
  }

  /** The node id of NodeOperationRequest.readFrom. */
  method ReadNodeId(input: StreamInput) returns (r: Result<string>)
    modifies input
    ensures Follows(r, input.remaining, ReadString(old(input.remaining)))
  {
    r := input.ReadStringToken();
  }
}
