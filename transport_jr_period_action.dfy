/** TransportJRPeriodAction: the node-side handler of a period change and the factories the
    broadcast machinery of TransportJRMgmBaseAction (not part of this model) calls to build
    requests and responses. */
module TransportPeriodAction {
  import opened Wrappers
  import opened Wire
  import opened PeriodRequests
  import opened NodeRequests
  import opened NodeResponses
  import opened PeriodResponses

  /** A call made on the river that runs on this node (IRiverMgm). */
  datatype RiverCall = ChangeIndexerPeriod(indexerNames: Option<seq<string>>, period: int)

  /** performOperationOnRiver: asks the river found on this node to change the period of the named
      indexers, and answers that the river was found, with the river's own answer as indexerFound.
      SysinfoRiver.changeIndexerPeriod is not part of this model: what it answers is the function
      changeIndexerPeriod, and the call is returned in calls. */
  method PerformOperationOnRiver(changeIndexerPeriod: (Option<seq<string>>, int) -> bool, req: PeriodRequest, node: DiscoveryNode)
    returns (response: NodePeriodResponse, calls: seq<RiverCall>)
    ensures fresh(response)
    ensures response.Fields() == NodeResponseFields(Some(node), true, changeIndexerPeriod(req.indexerNames, req.period))
    ensures calls == [ChangeIndexerPeriod(req.indexerNames, req.period)]
  {
    var found := changeIndexerPeriod(req.indexerNames, req.period);
    calls := [ChangeIndexerPeriod(req.indexerNames, req.period)];
    response := new NodePeriodResponse(node, true, found);
  }

  /** newRequest: an empty request, to be read into. */
  method NewRequest() returns (r: PeriodRequest)
    ensures fresh(r) && r.Fields() == EmptyFields
  {
    r := new PeriodRequest.Empty();
  }

  /** newNodeRequest(): an empty node request, to be read into. */
  method NewEmptyNodeRequest() returns (r: NodePeriodRequest)
    ensures fresh(r) && r.nodeId.None? && r.request == null
  {
    r := new NodePeriodRequest.Empty();
  }

  /** newNodeRequest(nodeId, request): wraps that very request for node nodeId. */
  method NewNodeRequest(nodeId: string, request: PeriodRequest) returns (r: NodePeriodRequest)
    ensures fresh(r) && r.nodeId == Some(nodeId) && r.request == request
  {
    r := new NodePeriodRequest(nodeId, request);
  }

  /** newNodeResponse: the response of the local node, which has not found the river. */
  method NewNodeResponse(localNode: DiscoveryNode) returns (r: NodePeriodResponse)
    ensures fresh(r) && r.Fields() == NodeResponseFields(Some(localNode), false, false)
  {
    r := new NodePeriodResponse.OfNode(localNode);
  }

  /** newNodeResponseArray: len slots, none filled yet. */
  function NewNodeResponseArray(len: nat): (r: seq<NodePeriodResponse?>)
    ensures |r| == len && forall k :: 0 <= k < len ==> r[k] == null
  {
    seq(len, k => null)
  }

  /** newResponse: the cluster name and the very array of node responses. */
  method NewResponse(clusterName: Option<string>, responses: Option<seq<NodePeriodResponse?>>) returns (r: PeriodResponse)
    ensures fresh(r) && r.clusterName == clusterName && r.nodes == responses
  {
    r := new PeriodResponse(clusterName, responses);
  }

  /** The answer of the node that runs the river is the one the aggregate response selects, ahead of
      the answers of nodes that do not run it. */
  lemma OperatedNodeIsSelected(before: seq<Option<bool>>, after: seq<Option<bool>>)
    requires forall k :: 0 <= k < |before| ==> before[k] == Some(false)
    ensures FirstSuccess(before + [Some(true)] + after, 0) == Ok(Some(|before|))
  {
    var flags := before + [Some(true)] + after;
    var n := |before|;
    assert flags[n] == Some(true);
    assert forall k :: 0 <= k < n ==> flags[k] == before[k];
    FirstSuccessMeaning(flags, 0);
    match FirstSuccess(flags, 0)
    case Ok(Some(s)) =>
      if s != n {
        assert false;
      }
    case Ok(None) =>
      assert false;
    case Err(_) =>
      assert false;
  }
}
