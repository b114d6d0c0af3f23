/** JRPeriodResponse: the answers of all nodes to a period change, gathered in one response, and
    the choice of the node that answered for the river. The cluster name, the node array, their
    encoding and getSuccessNodeResponse belong to JRMgmBaseResponse and ElasticSearch's
    NodesOperationResponse, which are not part of this model; the encoding is the cluster name,
    the number of nodes, then each node response, and the success node is the first node that
    reports the river. */
module PeriodResponses {
  import opened Wrappers
  import opened Wire
  import opened NodeResponses

  /** Every node response is there and has a node, so all of them can be written. */
  predicate AllWritable(ns: seq<Option<NodeResponseFields>>)
  {
    forall k :: 0 <= k < |ns| ==> ns[k].Some? && ns[k].value.node.Some?
  }

  /** The node responses written one after another. */
  function NodesTokens(ns: seq<Option<NodeResponseFields>>): seq<Token>
    requires AllWritable(ns)
  {
    if |ns| == 0 then []
    else EncodeNodeResponse(ns[0].value).value + NodesTokens(ns[1..])
  }

  /** writeTo: the cluster name, the number of nodes, then each node response. A null cluster
      name, a null array, a null element or an element without a node cannot be written. */
  function EncodeResponse(clusterName: Option<string>, nodes: Option<seq<Option<NodeResponseFields>>>): (r: Result<seq<Token>>)
    ensures r.Ok? <==> clusterName.Some? && nodes.Some? && AllWritable(nodes.value)
  {
    if clusterName.None? || nodes.None? || !AllWritable(nodes.value) then Err(NullPointer)
    else Ok([TString(clusterName.value)] + [TVInt(|nodes.value|)] + NodesTokens(nodes.value))
  }

  /** n node responses, each read into a freshly constructed NodeJRPeriodResponse. */
  function ReadNodeResponses(n: nat, input: seq<Token>): (r: Read<seq<NodeResponseFields>>)
    ensures r.Ok? ==> |r.value.0| == n
  {
    if n == 0 then Ok(([], input))
    else
      match DecodeNodeResponse(input)
      case Err(e) => Err(e)
      case Ok((f, rest)) => Prefixed([f], ReadNodeResponses(n - 1, rest))
  }

  /** readFrom: the cluster name, the number of nodes, then that many node responses. */
  function DecodeResponse(input: seq<Token>): Read<(string, seq<NodeResponseFields>)>
  {
    match ReadString(input)
    case Err(e) => Err(e)
    case Ok((clusterName, r1)) =>
      match ReadVInt(r1)
      case Err(e) => Err(e)
      case Ok((n, r2)) =>
        match ReadNodeResponses(n, r2)
        case Err(e) => Err(e)
        case Ok((nodes, r3)) => Ok(((clusterName, nodes), r3))
  }

  /** The node responses as they are held: none of them null. */
  function Present(fs: seq<NodeResponseFields>): (r: seq<Option<NodeResponseFields>>)
    ensures |r| == |fs| && forall k :: 0 <= k < |fs| ==> r[k] == Some(fs[k])
  {
    seq(|fs|, k requires 0 <= k < |fs| => Some(fs[k]))
  }

  /** Writing one more node response appends its tokens. */
  lemma {:induction false} NodesTokensAppend(ns: seq<Option<NodeResponseFields>>, x: Option<NodeResponseFields>)
    requires AllWritable(ns) && x.Some? && x.value.node.Some?
    ensures AllWritable(ns + [x])
    ensures NodesTokens(ns + [x]) == NodesTokens(ns) + EncodeNodeResponse(x.value).value
  {
    if |ns| > 0 {
      assert (ns + [x])[1..] == ns[1..] + [x];
      NodesTokensAppend(ns[1..], x);
    } else {
      assert [] + [x] == [x];
    }
  }

  /** Node responses written one after another are read back in order, each with its node id and
      both flags. */
  lemma {:induction false} NodesRoundTrip(fs: seq<NodeResponseFields>, rest: seq<Token>)
    requires forall k :: 0 <= k < |fs| ==> fs[k].node.Some?
    ensures AllWritable(Present(fs))
    ensures ReadNodeResponses(|fs|, NodesTokens(Present(fs)) + rest) == Ok((fs, rest))
  {
    if |fs| > 0 {
      var tail := fs[1..];
      assert Present(fs)[1..] == Present(tail);
      assert fs == [fs[0]] + tail;
      NodesRoundTrip(tail, rest);
      NodeResponseRoundTrip(fs[0], NodesTokens(Present(tail)) + rest);
      assert NodesTokens(Present(fs)) + rest
          == EncodeNodeResponse(fs[0]).value + (NodesTokens(Present(tail)) + rest);
    } else {
      assert NodesTokens(Present(fs)) + rest == rest;
    }
  }

  /** A response read back has the cluster name and, in order, the node responses written. */
  lemma ResponseRoundTrip(clusterName: string, fs: seq<NodeResponseFields>, rest: seq<Token>)
    requires forall k :: 0 <= k < |fs| ==> fs[k].node.Some?
    ensures EncodeResponse(Some(clusterName), Some(Present(fs))).Ok?
    ensures DecodeResponse(EncodeResponse(Some(clusterName), Some(Present(fs))).value + rest) == Ok(((clusterName, fs), rest))
  {
    NodesRoundTrip(fs, rest);
    assert EncodeResponse(Some(clusterName), Some(Present(fs))).value + rest
        == [TString(clusterName)] + ([TVInt(|fs|)] + (NodesTokens(Present(fs)) + rest));
  }

  /** getSuccessNodeResponse over the riverFound flags of the node array, from position i on, a
      null element being None: the position of the first node that reports the river, or none. A
      null element met before it cannot be asked. */
  function FirstSuccess(flags: seq<Option<bool>>, i: nat): Result<Option<nat>>
    requires i <= |flags|
    decreases |flags| - i
  {
    if i == |flags| then Ok(None)
    else if flags[i].None? then Err(NullPointer)
    else if flags[i].value then Ok(Some(i))
    else FirstSuccess(flags, i + 1)
  }

  /** The success node reports the river and every node before it does not; there is no success
      node exactly when no node reports the river and none is null. */
  lemma {:induction false} FirstSuccessMeaning(flags: seq<Option<bool>>, i: nat)
    requires i <= |flags|
    ensures FirstSuccess(flags, i).Ok? && FirstSuccess(flags, i).value.Some? ==>
      var s := FirstSuccess(flags, i).value.value;
      i <= s < |flags| && flags[s] == Some(true) && forall j :: i <= j < s ==> flags[j] == Some(false)
    ensures FirstSuccess(flags, i) == Ok(None) <==> forall j :: i <= j < |flags| ==> flags[j] == Some(false)
    ensures FirstSuccess(flags, i).Err? ==>
      exists s :: i <= s < |flags| && flags[s].None? && forall j :: i <= j < s ==> flags[j] == Some(false)
    decreases |flags| - i
  {
    if i < |flags| && flags[i] == Some(false) {
      FirstSuccessMeaning(flags, i + 1);
    }
  }

  class PeriodResponse {
    var clusterName: Option<string>
    var nodes: Option<seq<NodePeriodResponse?>>

    /** The no-argument constructor, used before readFrom: no cluster name and no nodes. */
    constructor Empty()
      ensures clusterName.None? && nodes.None?
    {
      clusterName := None;
      nodes := None;
    }

    /** Keeps the cluster name and the very array of node responses given. */
    constructor (clusterName: Option<string>, nodes: Option<seq<NodePeriodResponse?>>)
      ensures this.clusterName == clusterName && this.nodes == nodes
    {
      this.clusterName := clusterName;
      this.nodes := nodes;
    }

    /** getSuccessNodeResponse: the first node response reporting the river, or null when there
        is no array or no such node. */
    method GetSuccessNodeResponse() returns (r: Result<NodePeriodResponse?>)
      ensures nodes.None? ==> r == Ok(null)
      ensures nodes.Some? ==>
        match FirstSuccess(FlagsOf(nodes.value), 0)
        case Ok(None) => r == Ok(null)
        case Ok(Some(s)) => s < |nodes.value| && r == Ok(nodes.value[s])
        case Err(e) => r == Err(e)
    {
      if nodes.None? {
        return Ok(null);
      }
      var list := nodes.value;
      ghost var flags := FlagsOf(list);
      var i := 0;
      while i < |list|
        invariant 0 <= i <= |list|
        invariant FirstSuccess(flags, 0) == FirstSuccess(flags, i)
      {
        var n := list[i];
        if n == null {
          return Err(NullPointer);
        }
        if n.riverFound {
          return Ok(n);
        }
        i := i + 1;
      }
      r := Ok(null);
    }

    /** writeTo: the cluster name, the number of nodes, then each node response in order. */
    method WriteTo(out: StreamOutput) returns (r: Outcome)
      modifies out
      ensures nodes.Some? ==>
        var e := EncodeResponse(clusterName, Some(ValuesOf(nodes.value)));
        (e.Err? ==> r == Fail(NullPointer)) && (e.Ok? ==> r == Done && out.tokens == old(out.tokens) + e.value)
      ensures nodes.None? ==> r == Fail(NullPointer)
    {
      if clusterName.None? || nodes.None? {
        return Fail(NullPointer);
      }
      ghost var before := out.tokens;
      out.WriteString(clusterName.value);
      out.WriteVInt(|nodes.value|);
      r := WriteNodes(nodes.value, out);
      if r.Done? {
        AppendAssoc(before, [TString(clusterName.value)], [TVInt(|nodes.value|)], NodesTokens(ValuesOf(nodes.value)));
      }
    }
    /** readFrom: reads the cluster name and the number of nodes, then builds each node response
        fresh and reads into it. */
    method ReadFrom(input: StreamInput) returns (r: Outcome)
      modifies this, input
      ensures match DecodeResponse(old(input.remaining))
              case Ok(((name, fs), rest)) =>
                r == Done && clusterName == Some(name) && input.remaining == rest
                && nodes.Some? && |nodes.value| == |fs|
                && forall k :: 0 <= k < |fs| ==>
                     nodes.value[k] != null && fresh(nodes.value[k]) && nodes.value[k].Fields() == fs[k]
              case Err(e) => r == Fail(e)
    {
      var name := input.ReadStringToken();
      if name.Err? {
        return Fail(name.error);
      }
      clusterName := Some(name.value);
      var count := input.ReadVIntToken();
      if count.Err? {
        return Fail(count.error);
      }
      var list: seq<NodePeriodResponse?>;
      list, r := ReadNodes(input, count.value);
      if r.Done? {
        nodes := Some(list);
      }
    }
  }

  /** The state of each node response of an array, a null element being None. */
  function ValuesOf(list: seq<NodePeriodResponse?>): (r: seq<Option<NodeResponseFields>>)
    reads set n: NodePeriodResponse | n in list
    ensures |r| == |list|
    ensures forall k :: 0 <= k < |list| ==> r[k] == if list[k] == null then None else Some(list[k].Fields())
  {
    seq(|list|, k reads set n: NodePeriodResponse | n in list requires 0 <= k < |list| =>
      if list[k] == null then None else Some(list[k].Fields()))
  }

  /** Writes the node responses of an array in order; a null element or one without a node makes
      the write fail. */
  method WriteNodes(list: seq<NodePeriodResponse?>, out: StreamOutput) returns (r: Outcome)
    modifies out
    ensures !AllWritable(ValuesOf(list)) ==> r == Fail(NullPointer)
    ensures AllWritable(ValuesOf(list)) ==> r == Done && out.tokens == old(out.tokens) + NodesTokens(ValuesOf(list))
  {
    ghost var values := ValuesOf(list);
    var i := 0;
    while i < |list|
      invariant 0 <= i <= |list|
      invariant ValuesOf(list) == values
      invariant AllWritable(values[..i])
      invariant out.tokens == old(out.tokens) + NodesTokens(values[..i])
    {
      var n := list[i];
      if n == null {
        return Fail(NullPointer);
      }
      r := n.WriteTo(out);
      if r.Fail? {
        return r;
      }
      assert values[..i + 1] == values[..i] + [values[i]];
      NodesTokensAppend(values[..i], values[i]);
      i := i + 1;
    }
    assert values[..|list|] == values;
    r := Done;
  }

  /** The riverFound flag of each node response of an array, a null element being None. */
  function FlagsOf(list: seq<NodePeriodResponse?>): (r: seq<Option<bool>>)
    reads set n: NodePeriodResponse | n in list
    ensures |r| == |list|
    ensures forall k :: 0 <= k < |list| ==> r[k] == if list[k] == null then None else Some(list[k].riverFound)
  {
    seq(|list|, k reads set n: NodePeriodResponse | n in list requires 0 <= k < |list| =>
      if list[k] == null then None else Some(list[k].riverFound))
  }

  /** Reads n node responses, each into a fresh NodeJRPeriodResponse. */
  method ReadNodes(input: StreamInput, n: nat) returns (list: seq<NodePeriodResponse?>, r: Outcome)
    modifies input
    ensures match ReadNodeResponses(n, old(input.remaining))
            case Ok((fs, rest)) =>
              r == Done && input.remaining == rest && |list| == |fs|
              && forall k :: 0 <= k < |fs| ==> list[k] != null && fresh(list[k]) && list[k].Fields() == fs[k]
            case Err(e) => r == Fail(e)
  {
    list := [];
    ghost var fs: seq<NodeResponseFields> := [];
    PrefixedEmpty(ReadNodeResponses(n, input.remaining));
    while |list| < n
      invariant |list| == |fs| <= n
      invariant forall k :: 0 <= k < |fs| ==> list[k] != null && fresh(list[k]) && list[k].Fields() == fs[k]
      invariant ReadNodeResponses(n, old(input.remaining)) == Prefixed(fs, ReadNodeResponses(n - |fs|, input.remaining))
    {
      var node := new NodePeriodResponse.Empty();
      var step := node.ReadFrom(input);
      if step.Fail? {
        return list, step;
      }
      PrefixedAppend(fs, node.Fields(), ReadNodeResponses(n - |fs| - 1, input.remaining));
      list := list + [node];
      fs := fs + [node.Fields()];
    }
    assert ReadNodeResponses(0, input.remaining) == Ok(([], input.remaining));
    assert fs + [] == fs;
    r := Done;
  }
}
