/** The AWS operations provider: building it from configuration
    (`AWSOperationsProvider`) and answering a log query for its resource
    (`awsOpsProvider.GetLogs`), in pkg/operations/operations_aws.go. */
module AwsOperations {
  import opened Wrappers
  import opened AwsConfig
  import opened AwsSessions
  import opened LogFetch
  import opened LogSort

  const FunctionType := "aws:lambda/function:Function"
  const LogGroupType := "aws:cloudwatch/logGroup:LogGroup"
  const LambdaLogGroupPrefix := "/aws/lambda/"

  /** The connection: a CloudWatch Logs client. */
  datatype AwsConnection = AwsConnection(logService: LogService)

  /** `awsOpsProvider`: the connection and the resource it answers for. */
  datatype OpsProvider = OpsProvider(connection: AwsConnection, component: Resource)

  /** Which log groups a query reads, and the label each one's entries get. */
  datatype LogQueryPlan = LogQueryPlan(names: seq<string>, logGroups: seq<string>)

  /** The `name` output is a string (reading it with `StringValue()` panics otherwise). */
  predicate HasStringName(state: ResourceState) {
    "name" in state.outputs && state.outputs["name"].StringValue?
  }

  /** The dispatch of `GetLogs` on the resource type: a Lambda function reads the log
      group `/aws/lambda/<name>`, a log group reads itself, both labelled with the
      name; any other type produces no logs. */
  function PlanLogQuery(state: ResourceState): (plan: Option<LogQueryPlan>)
    requires state.resourceType in {FunctionType, LogGroupType} ==> HasStringName(state)
    ensures plan.None? <==> state.resourceType !in {FunctionType, LogGroupType}
    ensures plan.Some? ==>
      && plan.value.names == [state.outputs["name"].str]
      && |plan.value.logGroups| == 1
    ensures state.resourceType == FunctionType ==>
      plan.value.logGroups == [LambdaLogGroupPrefix + state.outputs["name"].str]
    ensures state.resourceType == LogGroupType ==>
      plan.value.logGroups == [state.outputs["name"].str]
  {
    if state.resourceType == FunctionType then
      var functionName := state.outputs["name"].str;
      Some(LogQueryPlan([functionName], [LambdaLogGroupPrefix + functionName]))
    else if state.resourceType == LogGroupType then
      var name := state.outputs["name"].str;
      Some(LogQueryPlan([name], [name]))
    else
      None
  }

  /** `GetLogs`: no logs (and no error) for a resource kind without logs; otherwise
      the merged entries of the planned log group, stably sorted by timestamp. With
      one log group there is one arrival order. */
  method GetLogs(ops: OpsProvider, query: LogQuery) returns (r: Option<seq<LogEntry>>)
    requires var state := ops.component.state;
             state.resourceType in {FunctionType, LogGroupType} ==> HasStringName(state)
    ensures var plan := PlanLogQuery(ops.component.state);
            && (r.None? <==> plan.None?)
            && (r.Some? ==>
                  var merged := FetchAll(plan.value.names, plan.value.logGroups, query.startTime, query.endTime,
                                         ops.connection.logService, [0]);
                  SortedByTimestamp(r.value) && StablePermutation(r.value, merged))
  {
    var plan := PlanLogQuery(ops.component.state);
    if plan.None? {
      return None;
    }
    assert IsArrivalOrder([0], 1) by {
      assert Range(1) == [0];
    }
    var logResult := GetLogsForLogGroupsConcurrently(plan.value.names, plan.value.logGroups,
                                                     query.startTime, query.endTime,
                                                     ops.connection.logService, [0]);
    var a := new LogEntry[|logResult|](k requires 0 <= k < |logResult| => logResult[k]);
    assert a[..] == logResult;
    StableSortByTimestamp(a);
    r := Some(a[..]);
  }

  /** `AWSOperationsProvider`: resolve the settings, get a validated session from the
      cache, and wrap a CloudWatch Logs client built on it. A configuration without a
      region fails before the cache is consulted. */
  method AwsOperationsProvider(cache: SessionCache, config: ConfigMap, component: Resource,
                               sdk: Sdk, newLogService: Session -> LogService)
    returns (r: Result<OpsProvider, string>)
    modifies cache
    ensures match ResolveSettings(config, component)
            case Failure(e) => r == Failure(e) && cache.sessions == old(cache.sessions)
            case Success(s) =>
              var step := GetOrCreate(old(cache.sessions), s, true, sdk);
              && cache.sessions == step.sessions
              && (step.result.Failure? ==> r == Failure(step.result.error))
              && (step.result.Success? ==>
                    r == Success(OpsProvider(AwsConnection(newLogService(step.result.value)), component)))
  {
    var settings := ResolveSettings(config, component);
    if settings.Failure? {
      return Failure(settings.error);
    }
    var s := settings.value;
    var sess, _ := cache.GetAwsSession(s.region, s.accessKey, s.secretKey, s.token, s.profile, true, sdk);
    if sess.Failure? {
      return Failure(sess.error);
    }
    r := Success(OpsProvider(AwsConnection(newLogService(sess.value)), component));
  }

  /** A resource kind other than a Lambda function or a log group has no logs, whatever
      its outputs. */
  lemma OtherTypesHaveNoLogs(state: ResourceState)
    requires state.resourceType != FunctionType && state.resourceType != LogGroupType
    ensures PlanLogQuery(state) == None
  {
  }

  /** The merge of the scenario below, before sorting: page order. */
  lemma LambdaTwoPagesMerged(service: LogService)
    requires service(FilterRequest("/aws/lambda/foo", Some(0), Some(1000)))
             == PagedResponse([[FilteredLogEvent(Some("a"), Some(100))], [FilteredLogEvent(Some("b"), Some(50))]], None)
    ensures IsArrivalOrder([0], 1) &&
            FetchAll(["foo"], ["/aws/lambda/foo"], Some(Time(0)), Some(Time(1000 * NanosPerMilli)), service, [0])
              == [LogEntry("foo", "a", 100), LogEntry("foo", "b", 50)]
  {
    assert Range(1) == [0];
    assert MilliBound(Some(Time(1000 * NanosPerMilli))) == Some(1000);
    assert MilliBound(Some(Time(0))) == Some(0);
    var a, b := FilteredLogEvent(Some("a"), Some(100)), FilteredLogEvent(Some("b"), Some(50));
    var pages := [[a], [b]];
    assert Flatten(pages) == [a, b] by {
      assert pages[..1][..0] == [];
    }
    var batches := SourceBatches(["/aws/lambda/foo"], Some(0), Some(1000), service);
    assert batches == [[a, b]];
    var received := Received(batches, [0]);
    assert received == [[a, b]];
    assert received[..0] == [];
    assert Merged(["foo"], received) == Labelled("foo", [a, b]);
  }

  /** A Lambda function reading two pages — one event at 100 ms, then one at 50 ms —
      over the query [0 ms, 1000 ms] yields, once stably sorted, the later page's
      event first, both labelled with the function name. */
  lemma LambdaTwoPagesScenario(service: LogService)
    requires service(FilterRequest("/aws/lambda/foo", Some(0), Some(1000)))
             == PagedResponse([[FilteredLogEvent(Some("a"), Some(100))], [FilteredLogEvent(Some("b"), Some(50))]], None)
    ensures IsArrivalOrder([0], 1) &&
            forall out :: SortedByTimestamp(out) &&
                          StablePermutation(out, FetchAll(["foo"], ["/aws/lambda/foo"], Some(Time(0)),
                                                          Some(Time(1000 * NanosPerMilli)), service, [0]))
                          ==> out == [LogEntry("foo", "b", 50), LogEntry("foo", "a", 100)]
  {
    LambdaTwoPagesMerged(service);
    var merged := [LogEntry("foo", "a", 100), LogEntry("foo", "b", 50)];
    var expected := [LogEntry("foo", "b", 50), LogEntry("foo", "a", 100)];
    forall t ensures WithTimestamp(expected, t) == WithTimestamp(merged, t) {
      assert expected[1..][1..] == [] && merged[1..][1..] == [];
    }
    forall out | SortedByTimestamp(out) && StablePermutation(out, merged)
      ensures out == expected
    {
      SortedStableUnique(out, expected);
    }
  }
}
