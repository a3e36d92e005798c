# AWS operational queries — a verified Dafny model

This project models the AWS operations provider of the Pulumi engine
(`pkg/operations/operations_aws.go`): the component that answers "show me the logs
of this deployed resource" for AWS resources. It has four parts, each a module here:

- **Configuration** (`AwsConfig`, `aws_config.dfy`): the stack configuration must hold
  `aws:region`; the access key, secret key, token and profile are read from it,
  missing keys reading as `""`. When the resource was created with an explicit
  provider, all five settings come from that provider's outputs instead. An output
  that is absent or not a string reads as `""`.
- **Session cache** (`AwsSessions`, `aws_sessions.dfy`): a process-wide map
  (class `SessionCache`, field `sessions: map<string, Session>`) from the
  concatenation region+access+secret+token+profile to an AWS session. A hit returns
  the stored session. A miss builds a session and, if asked, checks it with an STS
  caller-identity call. The key is stored only when both steps succeed. The SDK is
  the oracle `Sdk`, and the pure function `GetOrCreate` states one call's effect.
- **Fan-in merge** (`LogFetch`, `log_fetch.dfy`): one goroutine per log group pages
  through `FilterLogEventsPages` and sends what it accumulated, even after an error.
  The caller then receives exactly N batches and labels the i-th received batch
  `names[i]`. The arrival order is a parameter, any permutation of the N sources.
  Times are Unix nanoseconds, converted to milliseconds with Go's truncating division.
- **Dispatch and ordering** (`LogSort`, `AwsOperations`): a Lambda function reads
  the log group `/aws/lambda/<name>`, a log group reads itself, and any other
  resource type has no logs (`None`, no error). The merged entries are stably sorted
  by timestamp. The sort is specified by `SortedByTimestamp` and `StablePermutation`,
  and `SortedStableUnique` proves that this specification has exactly one answer.

Three behaviours of the code are worth knowing:

- A log group whose paging fails still contributes the pages it received before
  the error (`Accumulated` ignores `err`).
- The cache key has no separators, so distinct settings can share a session
  (`ConcatenatedKeysCollide`).
- The batch received i-th is labelled `names[i]`, by its arrival position. With two
  or more log groups, an entry can therefore carry the name of another group
  (`MislabelWhenReversed`). The only caller, `GetLogs`, passes a single log group,
  so there the label is always right.

## Model

| member | source | states |
|---|---|---|
| `AwsConfig.GetPropertyMapStringValue` | pkg/operations/operations_aws.go:87-96 | a string output is returned unchanged; a non-empty result is exactly the string stored under the key |
| `AwsConfig.StringOutputRoundTrip` | pkg/operations/operations_aws.go:87-96 | storing a string and reading it back gives that string; a non-string or missing output reads as "" |
| `AwsConfig.ResolveSettings` | pkg/operations/operations_aws.go:45-69 | fails with "no AWS region found" iff `aws:region` is missing; with a provider all five settings are the provider's outputs; otherwise each comes from config, "" when absent |
| `AwsConfig.RegionRequiredEvenWithProvider` | pkg/operations/operations_aws.go:45-48 | the region check precedes the provider override: it fails even when the provider has a region |
| `AwsConfig.ProviderIgnoresConfigValues` | pkg/operations/operations_aws.go:61-69 | with an explicit provider, no configured value other than the region's presence affects the settings |
| `AwsSessions.OptionsFor` | pkg/operations/operations_aws.go:181-192 | static credentials are attached iff access key, secret key or token is non-empty, and carry exactly those three; region and profile are passed through |
| `AwsSessions.GetOrCreate` | pkg/operations/operations_aws.go:178-209 | hit: stored session, no SDK call, cache unchanged; miss: success iff creation succeeds and (if validating) validation passes; the identity check runs iff validation is asked for and creation succeeded; a creation error is wrapped with "failed to create AWS session: ", a validation error is returned unchanged; a failure leaves the cache unchanged; a success adds exactly that key mapped to the new session |
| `AwsSessions.SessionCache.constructor` | pkg/operations/operations_aws.go:161-162 | the cache starts empty |
| `AwsSessions.SessionCache.GetAwsSession` | pkg/operations/operations_aws.go:169-210 | the result, the new map and the SDK call trace are those of `GetOrCreate`; no existing entry is removed or replaced |
| `AwsSessions.SuccessThenHit` | pkg/operations/operations_aws.go:178-209 | after a success, any call whose settings give the same key returns the same session with no SDK call, whatever it asks for validation |
| `AwsSessions.FailureAllowsRetry` | pkg/operations/operations_aws.go:193-203 | a failed creation or validation leaves the key absent, so a later call with a working SDK stores and returns a session |
| `AwsSessions.ConcatenatedKeysCollide` | pkg/operations/operations_aws.go:178 | two different settings (token "dev" vs profile "dev") share one key and so one session |
| `LogFetch.TimeUnixMilli` | pkg/operations/operations_aws.go:221-228 | the millisecond bound is the nanosecond time divided by 10^6 rounding toward zero |
| `LogFetch.MilliBound` | pkg/operations/operations_aws.go:221-228 | an absent time gives an absent bound; a present one gives its millisecond value |
| `LogFetch.TimeUnixMilliMonotonic` | pkg/operations/operations_aws.go:221-228 | a later time never gives a smaller millisecond bound |
| `LogFetch.CollectPages` | pkg/operations/operations_aws.go:233-248 | a goroutine sends the concatenation of every page it was handed, error or not |
| `LogFetch.AppendLabelled` | pkg/operations/operations_aws.go:256-262 | one entry per received event, in order, labelled with the given name, nil fields read as "" and 0 |
| `LogFetch.GetLogsForLogGroupsConcurrently` | pkg/operations/operations_aws.go:212-266 | the result is the merge of the N batches in arrival order, the i-th labelled `names[i]` |
| `LogFetch.MergedLength` | pkg/operations/operations_aws.go:252-263 | the merge has as many entries as the received batches have events |
| `LogFetch.MergedAt` | pkg/operations/operations_aws.go:254-262 | event j of the i-th received batch sits at offset (size of batches before i) + j, labelled `names[i]` |
| `LogFetch.FetchAllContents` | pkg/operations/operations_aws.go:230-265 | for every arrival order, the messages and timestamps are exactly those of all log groups' accumulated pages, with multiplicity |
| `LogFetch.MislabelWhenReversed` | pkg/operations/operations_aws.go:254-258 | with groups gx (no pages) and gy (one event) arriving in reverse order, the one entry is labelled "x", the name of gx |
| `LogFetch.PartialFailureScenario` | pkg/operations/operations_aws.go:245-248 | sources with 2 events, a failure, and 1 event give exactly those 3 events in any arrival order |
| `LogSort.SwapNeighboursStable` | pkg/operations/operations_aws.go:132-134 | exchanging neighbours with different timestamps keeps every timestamp's entries in order |
| `LogSort.StablePermutationIsPermutation` | pkg/operations/operations_aws.go:132-134 | a stable rearrangement is a permutation |
| `LogSort.SortedStableUnique` | pkg/operations/operations_aws.go:132-134 | two sorted stable rearrangements of the same entries are equal |
| `LogSort.InsertLeft` | pkg/operations/operations_aws.go:132-134 | inserting one entry into a sorted prefix extends the sorted prefix, stably, and leaves the entries after it in place |
| `LogSort.StableSortByTimestamp` | pkg/operations/operations_aws.go:132-134 | in place, the array becomes non-decreasing by timestamp and a stable rearrangement of its old contents |
| `AwsOperations.PlanLogQuery` | pkg/operations/operations_aws.go:123-153 | Lambda function: `["/aws/lambda/" + name]` labelled `[name]`; log group: `[name]` labelled `[name]`; any other type: no query |
| `AwsOperations.OtherTypesHaveNoLogs` | pkg/operations/operations_aws.go:150-153 | a type other than the two AWS types gets no query |
| `AwsOperations.GetLogs` | pkg/operations/operations_aws.go:120-155 | nil exactly for types without logs; otherwise non-decreasing by timestamp and a stable rearrangement of the merged entries of the planned log group |
| `AwsOperations.AwsOperationsProvider` | pkg/operations/operations_aws.go:41-85 | a missing region fails before the cache is touched; otherwise the cache is updated as `GetOrCreate` with validation says, and its error or a provider on the session is returned |
| `AwsOperations.LambdaTwoPagesMerged` | pkg/operations/operations_aws.go:124-131 | a function whose log group returns page [a@100] then page [b@50] merges to [a@100, b@50] labelled with its name |
| `AwsOperations.LambdaTwoPagesScenario` | pkg/operations/operations_aws.go:124-136 | every sorted stable rearrangement of that merge is exactly [b@50, a@100] |

## Left out

- The AWS SDK is not modelled. `session.NewSessionWithOptions` and `sts.GetCallerIdentity` are the oracle `Sdk`. `cloudwatchlogs.New` is the parameter `newLogService`. `FilterLogEventsPages` is the oracle `LogService`, which returns the delivered pages and the final error.
- Concurrency is not modelled: the goroutines, the buffered channel and `awsDefaultSessionMutex`. The goroutines run one after another, and the scheduler's only effect, the arrival order, is a parameter. The cache is single-threaded.
- `logging.V(...)` diagnostics are not modelled.
- `time.Time` is modelled as its `UnixNano` value. The int64 range of `UnixNano` (years 1678 to 2262) is not modelled, and neither is the int64 range of timestamps. Integers are unbounded.
- LogSort.StableSortByTimestamp: Go's `sort.SliceStable` uses insertion sort on blocks plus in-place merging. The model uses a plain insertion sort. It meets the same specification, which `SortedStableUnique` shows has only one answer.
- AwsOperations.GetLogs: requires the `name` output to be a string for the two AWS types, where the source panics in `StringValue()`. It uses the one arrival order that exists for a single log group.
- LogFetch.GetLogsForLogGroupsConcurrently: requires `|logGroups| <= |names|`. The source only panics when a non-empty batch is received at an index past `names`. Every caller passes lists of equal length.
- The resource-provider gRPC protocol (Check, Diff, Create, Update, Delete) exists only as generated stubs and comments in `sdk/proto/go/provider.pb.go`. It has no implementation to model. The generated SDK test data under `pkg/codegen` is not part of this model.
