/** The Read operation of the tencentcloud_clb_instances data source: build
    the DescribeLoadBalancers request from the configured query, call the API
    under a retry loop, and record one output entry per load balancer. */
module ClbInstances {
  import opened TfTypes
  import opened DescribeRequest
  import opened DescribeResponse
  import opened DescribeAttempt

  /** The data source's state as it is handed to the framework. */
  datatype DataSourceModel = DataSourceModel(
    clientConfig: Option<ClientConfigWithZone>,
    id: TfValue<string>,
    name: TfValue<string>,
    tags: TfValue<map<string, TfValue<string>>>,
    loadBalancers: seq<LoadBalancerDetail>)

  /** Why a read fails. */
  datatype ReadError =
    | RequestFailed(cause: BuildError)
    | DescribeFailed(err: ApiError)

  /** The state being filled during one read; the describe attempt appends to
      its load balancer list in place. */
  class ReadState {
    var clientConfig: Option<ClientConfigWithZone>
    var id: TfValue<string>
    var name: TfValue<string>
    var tags: TfValue<map<string, TfValue<string>>>
    var loadBalancers: seq<LoadBalancerDetail>

    /** A fresh state: the query copied from the plan, no client_config, and
        an empty load balancer list. */
    constructor FromPlan(plan: Plan)
      ensures clientConfig == None
      ensures id == plan.id && name == plan.name && tags == plan.tags
      ensures loadBalancers == []
    {
      clientConfig := None;
      loadBalancers := [];
      id := plan.id;
      name := plan.name;
      tags := plan.tags;
    }

    /** One DescribeLoadBalancers attempt on `response`. A failed call is
        classified and appends nothing; a successful one appends the mapped
        records, in order. */
    method DescribeLb(response: ApiResponse, isRetryableCode: string -> bool)
      returns (attempt: Attempt)
      modifies this`loadBalancers
      ensures attempt == Classify(response, isRetryableCode)
      ensures response.Failure? ==> loadBalancers == old(loadBalancers)
      ensures response.Success? ==>
                loadBalancers == old(loadBalancers) + MapRecords(response.loadBalancerSet)
    {
      if response.Failure? {
        return Classify(response, isRetryableCode);
      }

      var lbs := response.loadBalancerSet;
      for i := 0 to |lbs|
        invariant loadBalancers == old(loadBalancers) + MapRecords(lbs[..i])
      {
        assert lbs[..i + 1][..i] == lbs[..i];
        var lbSet := lbs[i];
        if |lbSet.tags| < 1 {
          var clbDetail := LoadBalancerDetail(Known(lbSet.loadBalancerId), Known(lbSet.loadBalancerName), Null);
          loadBalancers := loadBalancers + [clbDetail];
        } else {
          var clbTagMap := BuildTagMap(lbSet.tags);
          var clbDetail := LoadBalancerDetail(
            Known(lbSet.loadBalancerId), Known(lbSet.loadBalancerName), Known(clbTagMap));
          loadBalancers := loadBalancers + [clbDetail];
        }
      }
      assert lbs[..|lbs|] == lbs;
      attempt := Done;
    }
  }

  /** backoff.Retry over DescribeLb: `responses` are the answers to the
      attempts the backoff budget allows, of which there is at least one. The
      loop stops at the first attempt that is done or permanent; only the
      successful attempt, if any, appends to the state. */
  method Retry(state: ReadState, responses: seq<ApiResponse>, isRetryableCode: string -> bool)
    returns (err: Option<ApiError>)
    requires |responses| > 0
    modifies state`loadBalancers
    ensures RetryOutcome(responses, isRetryableCode).Ok? <==> err.None?
    ensures RetryOutcome(responses, isRetryableCode).Err? ==>
              err == Some(RetryOutcome(responses, isRetryableCode).error)
    ensures state.loadBalancers == old(state.loadBalancers) +
              match RetryOutcome(responses, isRetryableCode)
              case Ok(lbs) => MapRecords(lbs)
              case Err(_) => []
  {
    var i := 0;
    var attempt := state.DescribeLb(responses[0], isRetryableCode);
    while attempt.Retryable? && i < |responses| - 1
      invariant 0 <= i < |responses|
      invariant attempt == Classify(responses[i], isRetryableCode)
      invariant forall j :: 0 <= j < i ==> Classify(responses[j], isRetryableCode).Retryable?
      invariant state.loadBalancers == old(state.loadBalancers) +
                  match responses[i]
                  case Success(lbs) => MapRecords(lbs)
                  case Failure(_) => []
      decreases |responses| - i
    {
      i := i + 1;
      attempt := state.DescribeLb(responses[i], isRetryableCode);
    }
    StopIndexUnique(responses, isRetryableCode, i);
    err := if attempt.Done? then None else Some(attempt.err);
  }

  /** The read: the state starts from the plan with an empty list, the request
      is built (unconvertible tags or a failed zone lookup end the read before
      any API call), the call is retried, and only a successful read yields a
      state. `sent` is the request sent to the API, if any. */
  method Read(
    plan: Plan,
    resolveZone: string -> Result<string, string>,
    isRetryableCode: string -> bool,
    responses: seq<ApiResponse>)
    returns (sent: Option<Request>, r: Result<DataSourceModel, ReadError>)
    requires |responses| > 0
    ensures !TagsConvert(plan) ==> sent == None && r == Err(RequestFailed(TagConversionFailed))
    ensures TagsConvert(plan) && ZoneName(plan) != "" && resolveZone(ZoneName(plan)).Err? ==>
              sent == None &&
              r == Err(RequestFailed(ZoneLookupFailed(resolveZone(ZoneName(plan)).error)))
    ensures TagsConvert(plan) && ZoneName(plan) == "" ==> sent.Some? && Describes(plan, None, sent.value)
    ensures TagsConvert(plan) && ZoneName(plan) != "" && resolveZone(ZoneName(plan)).Ok? ==>
              sent.Some? && Describes(plan, Some(resolveZone(ZoneName(plan)).value), sent.value)
    ensures sent.Some? ==>
              r == match RetryOutcome(responses, isRetryableCode)
                   case Ok(lbs) => Ok(DataSourceModel(None, plan.id, plan.name, plan.tags, MapRecords(lbs)))
                   case Err(e) => Err(DescribeFailed(e))
  {
    var state := new ReadState.FromPlan(plan);

    var request := BuildRequest(plan, resolveZone);
    if request.Err? {
      return None, Err(RequestFailed(request.error));
    }
    sent := Some(request.value);

    var err := Retry(state, responses, isRetryableCode);
    if err.Some? {
      return sent, Err(DescribeFailed(err.value));
    }
    ghost var lbs := RetryOutcome(responses, isRetryableCode).value;
    assert [] + MapRecords(lbs) == MapRecords(lbs);
    // resp.State.Set: the framework receives a copy of the state's fields.
    r := Ok(DataSourceModel(state.clientConfig, state.id, state.name, state.tags, state.loadBalancers));
  }
}
