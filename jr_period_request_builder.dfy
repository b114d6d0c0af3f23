/** JRPeriodRequestBuilder: fills a JRPeriodRequest through chained setters and hands it to the
    client. The client is not part of this model: what it is asked to execute is recorded in the
    builder's dispatched list. */
module PeriodRequestBuilders {
  import opened Wrappers
  import opened PeriodRequests

  /** The listener a caller passes to execute, as an opaque handle. */
  datatype Listener = Listener(id: nat)

  /** One client.execute(JRPeriodAction.INSTANCE, request, listener) call. */
  datatype Dispatch = Execute(request: PeriodRequest, listener: Listener)

  const RiverNameMissing := "riverName must be provided for request"

  class PeriodRequestBuilder {
    const request: PeriodRequest
    var dispatched: seq<Dispatch>

    /** A builder over a new, empty request: no river name and no indexer names. */
    constructor ()
      ensures fresh(request) && request.Fields() == EmptyFields && dispatched == []
    {
      request := new PeriodRequest.Empty();
      dispatched := [];
    }

    /** Sets the river name of the request and returns this builder. */
    method SetRiverName(riverName: Option<string>) returns (b: PeriodRequestBuilder)
      modifies request`riverName
      ensures b == this && request.Fields() == old(request.Fields()).(riverName := riverName)
    {
      request.SetRiverName(riverName);
      b := this;
    }

    /** Sets the names of the indexers to change and returns this builder. */
    method SetIndexerNames(indexerNames: Option<seq<string>>) returns (b: PeriodRequestBuilder)
      modifies request`indexerNames
      ensures b == this && request.Fields() == old(request.Fields()).(indexerNames := indexerNames)
    {
      request.SetIndexerNames(indexerNames);
      b := this;
    }

    /** Sets the new period and returns this builder. */
    method SetPeriod(period: int) returns (b: PeriodRequestBuilder)
      modifies request`period
      ensures b == this && request.Fields() == old(request.Fields()).(period := period)
    {
      request.SetPeriod(period);
      b := this;
    }

    /** doExecute: refuses a request without a river name; otherwise dispatches the request with the
        listener, once. */
    method DoExecute(listener: Listener) returns (r: Outcome)
      modifies this`dispatched
      ensures request.riverName.None? ==> r == Fail(IllegalArgument(RiverNameMissing)) && dispatched == old(dispatched)
      ensures request.riverName.Some? ==> r == Done && dispatched == old(dispatched) + [Execute(request, listener)]
    {
      if request.riverName.None? {
        return Fail(IllegalArgument(RiverNameMissing));
      }
      dispatched := dispatched + [Execute(request, listener)];
      r := Done;
    }
  }
}
