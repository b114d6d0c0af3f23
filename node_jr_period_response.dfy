/** NodeJRPeriodResponse: the answer of one node to a period change. The node and the riverFound
    flag belong to NodeJRMgmBaseResponse and ElasticSearch's NodeOperationResponse, which are not
    part of this model; their contribution is the node, written as its id, then the flag. */
module NodeResponses {
  import opened Wrappers
  import opened Wire

  /** The state of a NodeJRPeriodResponse: the node that answered, whether the river runs there and
      whether any of the named indexers was found in it. */
  datatype NodeResponseFields = NodeResponseFields(node: Option<DiscoveryNode>, riverFound: bool, indexerFound: bool)

  /** writeTo: the node, riverFound, then indexerFound. A response without a node cannot be
      written. */
  function EncodeNodeResponse(f: NodeResponseFields): (r: Result<seq<Token>>)
    ensures r.Err? <==> f.node.None?
  {
    if f.node.None? then Err(NullPointer)
    else Ok(NodeTokens(f.node.value) + [TBool(f.riverFound)] + [TBool(f.indexerFound)])
  }

  /** readFrom: the node, riverFound, then indexerFound, in the positions writeTo used. */
  function DecodeNodeResponse(input: seq<Token>): Read<NodeResponseFields>
  {
    match ReadNode(input)
    case Err(e) => Err(e)
    case Ok((node, r1)) =>
      match ReadBool(r1)
      case Err(e) => Err(e)
      case Ok((riverFound, r2)) =>
        match ReadBool(r2)
        case Err(e) => Err(e)
        case Ok((indexerFound, r3)) => Ok((NodeResponseFields(Some(node), riverFound, indexerFound), r3))
  }

  /** The node id and both flags survive a write and a read. */
  lemma NodeResponseRoundTrip(f: NodeResponseFields, rest: seq<Token>)
    requires f.node.Some?
    ensures EncodeNodeResponse(f).Ok?
    ensures DecodeNodeResponse(EncodeNodeResponse(f).value + rest) == Ok((f, rest))
  {
    assert EncodeNodeResponse(f).value + rest
        == [TString(f.node.value.id)] + ([TBool(f.riverFound)] + ([TBool(f.indexerFound)] + rest));
  }

  class NodePeriodResponse {
    var node: Option<DiscoveryNode>
    var riverFound: bool
    var indexerFound: bool

    function Fields(): NodeResponseFields
      reads this
    {
      NodeResponseFields(node, riverFound, indexerFound)
    }

    /** The no-argument constructor, used before readFrom. */
    constructor Empty()
      ensures Fields() == NodeResponseFields(None, false, false)
    {
      node := None;
      riverFound := false;
      indexerFound := false;
    }

    /** The response of a node where the river was not found. */
    constructor OfNode(node: DiscoveryNode)
      ensures Fields() == NodeResponseFields(Some(node), false, false)
    {
      this.node := Some(node);
      riverFound := false;
      indexerFound := false;
    }

    constructor (node: DiscoveryNode, riverFound: bool, indexerFound: bool)
      ensures Fields() == NodeResponseFields(Some(node), riverFound, indexerFound)
    {
      this.node := Some(node);
      this.riverFound := riverFound;
      this.indexerFound := indexerFound;
    }

    method WriteTo(out: StreamOutput) returns (r: Outcome)
      modifies out
      ensures node.None? ==> r == Fail(NullPointer) && out.tokens == old(out.tokens)
      ensures node.Some? ==> r == Done && out.tokens == old(out.tokens) + EncodeNodeResponse(Fields()).value
    {
      if node.None? {
        return Fail(NullPointer);
      }
      ghost var before := out.tokens;
      WriteNode(node.value, out);
      out.WriteBoolean(riverFound);
      out.WriteBoolean(indexerFound);
      AppendAssoc(before, NodeTokens(node.value), [TBool(riverFound)], [TBool(indexerFound)]);
      r := Done;
    }

    method ReadFrom(input: StreamInput) returns (r: Outcome)
      modifies this, input
      ensures match DecodeNodeResponse(old(input.remaining))
              case Ok((f, rest)) => r == Done && Fields() == f && input.remaining == rest
              case Err(e) => r == Fail(e)
    {
      var n := ReadNodeFrom(input);
      if n.Err? {
        return Fail(n.error);
      }
      node := Some(n.value);
      var river := input.ReadBoolean();
      if river.Err? {
        return Fail(river.error);
      }
      riverFound := river.value;
      var indexer := input.ReadBoolean();
      if indexer.Err? {
        return Fail(indexer.error);
      }
      indexerFound := indexer.value;
      r := Done;
    }
  }
}
