/** One DescribeLoadBalancers attempt and how its outcome steers the
    exponential-backoff retry loop that wraps it. */
module DescribeAttempt {
  import opened TfTypes
  import opened DescribeResponse

  /** An error from the API call: a TencentCloudSDKError with its code, or any
      other error (a network failure, say). */
  datatype ApiError = SdkError(code: string, message: string) | OtherError(message: string)

  /** What one DescribeLoadBalancers call returns. */
  datatype ApiResponse = Success(loadBalancerSet: seq<LoadBalancer>) | Failure(err: ApiError)

  /** What one attempt tells the backoff loop: done (nil), try again (the bare
      error) or give up (the error wrapped by backoff.Permanent). */
  datatype Attempt = Done | Retryable(err: ApiError) | Permanent(err: ApiError)

  /** Classifies one attempt; `isRetryableCode` is the provider's table of
      transient SDK error codes (isRetryableErrCode). */
  function Classify(response: ApiResponse, isRetryableCode: string -> bool): (a: Attempt)
    ensures a.Done? <==> response.Success?
    ensures response.Failure? ==> !a.Done? && a.err == response.err
    ensures a.Permanent? <==>
              response.Failure? && response.err.SdkError? && !isRetryableCode(response.err.code)
    ensures response.Failure? && response.err.OtherError? ==> a.Retryable?
  {
    match response
    case Success(_) => Done
    case Failure(err) =>
      match err
      case SdkError(code, _) => if isRetryableCode(code) then Retryable(err) else Permanent(err)
      case OtherError(_) => Retryable(err)
  }

  /** The attempt at which backoff.Retry stops, given the responses of the
      attempts its time budget allows (at least one): the first attempt that
      is not retryable, or the last one allowed. */
  function StopIndex(responses: seq<ApiResponse>, isRetryableCode: string -> bool): (k: nat)
    requires |responses| > 0
    ensures k < |responses|
    ensures forall i :: 0 <= i < k ==> Classify(responses[i], isRetryableCode).Retryable?
    ensures k < |responses| - 1 ==> !Classify(responses[k], isRetryableCode).Retryable?
    decreases |responses|
  {
    if |responses| == 1 || !Classify(responses[0], isRetryableCode).Retryable? then 0
    else
      var k := StopIndex(responses[1..], isRetryableCode);
      assert forall i :: 1 <= i < k + 1 ==> responses[i] == responses[1..][i - 1];
      1 + k
  }

  /** The stop index is the only index with its two properties. */
  lemma StopIndexUnique(responses: seq<ApiResponse>, isRetryableCode: string -> bool, k: nat)
    requires k < |responses|
    requires forall i :: 0 <= i < k ==> Classify(responses[i], isRetryableCode).Retryable?
    requires k < |responses| - 1 ==> !Classify(responses[k], isRetryableCode).Retryable?
    ensures StopIndex(responses, isRetryableCode) == k
  {
  }

  /** What backoff.Retry returns: the records of the attempt it stopped at, or
      that attempt's error (backoff.Permanent unwrapped). */
  function RetryOutcome(responses: seq<ApiResponse>, isRetryableCode: string -> bool)
    : (r: Result<seq<LoadBalancer>, ApiError>)
    requires |responses| > 0
    ensures r.Ok? ==> responses[StopIndex(responses, isRetryableCode)] == Success(r.value)
    ensures r.Err? ==>
              var k := StopIndex(responses, isRetryableCode);
              Classify(responses[k], isRetryableCode) == Permanent(r.error) ||
              (k == |responses| - 1 && Classify(responses[k], isRetryableCode) == Retryable(r.error))
  {
    var k := StopIndex(responses, isRetryableCode);
    match responses[k]
    case Success(lbs) => Ok(lbs)
    case Failure(err) => Err(err)
  }

  /** N retryable failures followed by a success, within the budget: the
      retry loop returns the records of that success. */
  lemma RetrySucceedsAfterRetryables(responses: seq<ApiResponse>, isRetryableCode: string -> bool, n: nat)
    requires n < |responses|
    requires forall i :: 0 <= i < n ==> Classify(responses[i], isRetryableCode).Retryable?
    requires responses[n].Success?
    ensures RetryOutcome(responses, isRetryableCode) == Ok(responses[n].loadBalancerSet)
  {
    StopIndexUnique(responses, isRetryableCode, n);
  }

  /** A permanent error on the first attempt ends the loop with that error,
      without a second attempt. */
  lemma PermanentStopsFirstAttempt(responses: seq<ApiResponse>, isRetryableCode: string -> bool)
    requires |responses| > 0
    requires Classify(responses[0], isRetryableCode).Permanent?
    ensures StopIndex(responses, isRetryableCode) == 0
    ensures RetryOutcome(responses, isRetryableCode) == Err(responses[0].err)
  {
    StopIndexUnique(responses, isRetryableCode, 0);
  }

  /** When every attempt the budget allows is retryable, the loop fails with
      the last error observed. */
  lemma BudgetExhaustedReturnsLastError(responses: seq<ApiResponse>, isRetryableCode: string -> bool)
    requires |responses| > 0
    requires forall i :: 0 <= i < |responses| ==> Classify(responses[i], isRetryableCode).Retryable?
    ensures RetryOutcome(responses, isRetryableCode) ==
              Err(Classify(responses[|responses| - 1], isRetryableCode).err)
  {
    StopIndexUnique(responses, isRetryableCode, |responses| - 1);
  }

  /** The loop succeeds exactly when some attempt succeeds and every earlier
      attempt was retryable. */
  lemma RetrySucceedsIff(responses: seq<ApiResponse>, isRetryableCode: string -> bool)
    requires |responses| > 0
    ensures RetryOutcome(responses, isRetryableCode).Ok? <==>
              exists n :: 0 <= n < |responses| && responses[n].Success? &&
                forall i :: 0 <= i < n ==> Classify(responses[i], isRetryableCode).Retryable?
  {
    var k := StopIndex(responses, isRetryableCode);
    if exists n :: 0 <= n < |responses| && responses[n].Success? &&
         forall i :: 0 <= i < n ==> Classify(responses[i], isRetryableCode).Retryable? {
      var n :| 0 <= n < |responses| && responses[n].Success? &&
         forall i :: 0 <= i < n ==> Classify(responses[i], isRetryableCode).Retryable?;
      RetrySucceedsAfterRetryables(responses, isRetryableCode, n);
    }
  }
}
