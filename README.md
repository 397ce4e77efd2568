# tencentcloud_clb_instances data source — Dafny model

This project models the `Read` operation of the `tencentcloud_clb_instances`
Terraform data source (`tencentcloud/data_source_clb_instances.go`). The data
source lists Tencent Cloud load balancers (CLBs). A read has three parts:

- **Request builder** (module `DescribeRequest`). It turns the configured
  query into a `DescribeLoadBalancers` request. Terraform values are
  tri-state (`TfValue = Known | Null | Unknown`), and a field is set only
  when its input is known. `name` becomes `LoadBalancerName`. `id` becomes a
  one-element `LoadBalancerIds` list. A known tag map is first converted to
  plain strings; if some element is null or unknown, the read fails there.
  Each tag entry then becomes a filter `"tag:" + key` with the single value
  `[value]`. A non-empty
  `client_config.zone` is resolved to a zone id and becomes `MasterZone`; if
  resolution fails, the read stops before any API call. Go visits a map in
  no fixed order, so the tag loop picks its next key nondeterministically and
  its result is specified up to permutation (as a multiset).
- **Attempt classifier and retry** (module `DescribeAttempt`). One API
  call's outcome is `Done`, `Retryable` or `Permanent`. An SDK error is
  retryable exactly when its code is in the retryable-code table. Any other
  SDK error is permanent. A non-SDK error is retryable. `backoff.Retry` is
  modelled as a loop over the responses of the attempts the time budget
  allows. It stops at the first attempt that is done or permanent, or after
  the last allowed attempt.
- **Response mapper** (modules `DescribeResponse` and `ClbInstances`). The
  state's `load_balancers` list starts empty. A successful attempt appends
  one entry per API record, in order, with id and name copied verbatim. A
  record with zero tags gets a null tag map. Any other record gets the map
  built by writing its tags in list order, so a repeated key keeps its last
  value. A failed attempt appends nothing.

`ClbInstances.Read` puts the three together and returns the request it sent
(if any) and either the final state or the error.

The zone lookup (`getZoneId`) and the retryable-code table
(`isRetryableErrCode`) are not part of this model. They are parameters
(`resolveZone`, `isRetryableCode`) that may be any function. The
`DescribeLoadBalancers` network call is a parameter too: `responses` is the
sequence of answers the API gives in the attempts the backoff budget allows.

A response record may list the same tag key twice. The code writes each tag
into a Go map in list order, so a later duplicate overwrites an earlier one
(lines 236-240), and the model does the same.

## Model

| member | source | states |
|---|---|---|
| `DescribeRequest.BuildRequest` | tencentcloud/data_source_clb_instances.go:162-207 | Known tags with a null or unknown element fail the build with a conversion error. Otherwise: the name filter is set iff `name` is known, and then equals it. The id list is set iff `id` is known, and then is `[id]`. Filters are set iff `tags` is known, and are then a permutation of one `"tag:"+key`/`[value]` filter per entry. `MasterZone` is set iff the zone string is non-empty, to the resolved id. A failed lookup returns the lookup error. |
| `DescribeRequest.ElementsAs` | tencentcloud/data_source_clb_instances.go:174-181 | The tag map converts iff every element is known. The converted map has the same keys, each with its element's value. |
| `DescribeRequest.ZoneName` | tencentcloud/data_source_clb_instances.go:136-138 | A non-empty zone name is a known zone configured in client_config. A known configured zone is read verbatim. A missing block, a null zone and an unknown zone all give "", the value tested at line 196. |
| `DescribeRequest.TagFilter` | tencentcloud/data_source_clb_instances.go:186-189 | A tag filter's name is the `"tag:"` prefix followed by the key, which can be read back from it. Its only value is the tag's value. |
| `DescribeRequest.TagFilterListExact` | tencentcloud/data_source_clb_instances.go:173-194 | A filter list built this way has as many filters as the tag map has entries. Each entry's filter occurs exactly once, and every filter is `"tag:"+key` with `[value]` for some entry. |
| `DescribeRequest.TagFiltersCard` | tencentcloud/data_source_clb_instances.go:184-193 | The tag filters of a set of keys are exactly as many as the keys. |
| `DescribeRequest.TagFiltersAdd` | tencentcloud/data_source_clb_instances.go:185-191 | Visiting one more key adds exactly that key's filter, which was not in the list yet. |
| `DescribeRequest.TagFilterInjective` | tencentcloud/data_source_clb_instances.go:186-189 | Two tag filters are equal iff their keys and values are equal. |
| `DescribeAttempt.Classify` | tencentcloud/data_source_clb_instances.go:211-222 | An attempt is done iff the call succeeded. It is permanent iff the call failed with an SDK error whose code is not retryable. A non-SDK error is retryable. A failed attempt carries the call's error. |
| `DescribeAttempt.StopIndex` | tencentcloud/data_source_clb_instances.go:253-256 | The retry loop stops at an allowed attempt. Every earlier attempt was retryable, and the stopping attempt is not retryable unless it is the last one allowed. |
| `DescribeAttempt.RetryOutcome` | tencentcloud/data_source_clb_instances.go:256 | A successful outcome carries the records of the attempt the loop stopped at. A failed outcome carries either a permanent error, or the retryable error of the last attempt the budget allows. |
| `DescribeAttempt.StopIndexUnique` | tencentcloud/data_source_clb_instances.go:253-256 | Only one attempt index has both stopping properties. |
| `DescribeAttempt.RetrySucceedsAfterRetryables` | tencentcloud/data_source_clb_instances.go:253-256 | After N retryable failures, a success within the budget makes the loop return that success's records. |
| `DescribeAttempt.PermanentStopsFirstAttempt` | tencentcloud/data_source_clb_instances.go:209-256 | A permanent error on the first attempt stops the loop there with that error. |
| `DescribeAttempt.BudgetExhaustedReturnsLastError` | tencentcloud/data_source_clb_instances.go:253-256 | If every allowed attempt is retryable, the loop fails with the last attempt's error. |
| `DescribeAttempt.RetrySucceedsIff` | tencentcloud/data_source_clb_instances.go:253-256 | The loop succeeds iff some attempt succeeds and every attempt before it was retryable. |
| `DescribeResponse.TagMapKeys` | tencentcloud/data_source_clb_instances.go:236-240 | The tag map's keys are exactly the keys in the tag list. |
| `DescribeResponse.TagMapLastWins` | tencentcloud/data_source_clb_instances.go:236-240 | A key maps to the value of its last occurrence in the tag list. |
| `DescribeResponse.BuildTagMap` | tencentcloud/data_source_clb_instances.go:236-240 | The indexed loop builds the last-value-wins tag map. |
| `DescribeResponse.MapRecord` | tencentcloud/data_source_clb_instances.go:226-247 | The output id and name equal the record's, as known values. The tag map is null iff the record has no tags, and is never unknown. A populated map's keys are the record's tag keys. |
| `DescribeResponse.MapRecordTagValues` | tencentcloud/data_source_clb_instances.go:235-245 | In a populated output tag map, each tag key holds the value of its last occurrence. |
| `DescribeResponse.MapRecords` | tencentcloud/data_source_clb_instances.go:225-249 | The output has one entry per record. Entry i is the mapping of record i. |
| `ClbInstances.ReadState.FromPlan` | tencentcloud/data_source_clb_instances.go:155-160 | A new state copies id, name and tags from the plan. It has no client_config and an empty load balancer list. |
| `ClbInstances.ReadState.DescribeLb` | tencentcloud/data_source_clb_instances.go:209-251 | One attempt returns its classification. A failed call leaves the list unchanged. A success appends the mapped records, in order. |
| `ClbInstances.Retry` | tencentcloud/data_source_clb_instances.go:253-263 | The retry loop fails exactly when the retry outcome is an error, and then returns that error. Only the successful attempt, if any, appends to the state. |
| `ClbInstances.Read` | tencentcloud/data_source_clb_instances.go:128-270 | If the tags do not convert, or the zone lookup fails, no request is sent and the read fails with that error. Otherwise the sent request matches the plan. The read then yields the state with the mapped records of the successful attempt, or the describe error. The state handed to `resp.State.Set` (line 265) is a copy of the fields, with no client_config. |

## Left out

- Schema, Metadata, Configure and NewClbInstancesDataSource (lines 26-126): framework declarations with no behaviour.
- Reading the plan (lines 129-134) and writing the state with `resp.State.Set` (lines 265-269): framework conversion and diagnostics. The model returns the state as a value.
- Client re-initialisation through `initNewClient` and `NewClient` (lines 140-153), and its error path: calls into code that is not part of this model. Region, secret id and secret key appear only there, so `ClientConfigWithZone` keeps just the zone.
- The diagnostics that the `ElementsAs` conversion appends (lines 177-181): the model keeps only the outcome, a `TagConversionFailed` error when some tag element is null or unknown. The diagnostic text is not modelled.
- The body of `getZoneId` and the `isRetryableErrCode` table: not part of this model. They are the parameters `resolveZone` and `isRetryableCode`.
- The `DescribeLoadBalancers` network call: modelled as the input sequence `responses`, independent of the request sent.
- `ClbInstances.Retry`: does not model the exponential backoff delays or the 30-second `MaxElapsedTime` (lines 253-254), a wall-clock budget. The number of attempts the budget allows is external, given by the length of `responses`, which must be at least one because `backoff.Retry` always makes a first attempt.
- Nil pointers in API records (`*lbSet.LoadBalancerId` and similar) and the `MapValueMust` panic: the model's records always carry strings, so neither can occur.
- Idempotence of two reads: the filter order may differ between two reads, since Go visits a map in no fixed order. `BuildRequest` fixes the filters up to permutation, and every other output is a function of the inputs.
