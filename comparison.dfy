/** The Lambda-versus-EC2 comparison harness: the tester's recorded results, the statistics
    derived from them and the comparison report. The HTTP round trip of `test_endpoint` is an
    abstract `Network`: for a URL, a payload and the request's position it yields either the
    reply's status code or the exception text, together with the measured latency. */
module Comparison {
  import opened Wrappers
  import opened Json
  import opened Text
  import opened Schemas
  import opened Statistics
  import opened Tools
  import opened Gateway

  datatype Deployment = Lambda | Ec2

  /** The key a deployment has in `self.results` and in the report. */
  function DeploymentName(d: Deployment): (s: string)
    ensures s in {"lambda", "ec2"}
    ensures ParseDeployment(s) == Some(d)
  {
    match d
    case Lambda => "lambda"
    case Ec2 => "ec2"
  }

  /** `self.results[deployment]`: only the two keys the constructor creates are found; any other
      name raises `KeyError`. */
  function ParseDeployment(s: string): (d: Option<Deployment>)
    ensures d.Some? <==> s in {"lambda", "ec2"}
  {
    if s == "lambda" then Some(Lambda)
    else if s == "ec2" then Some(Ec2)
    else None
  }

  /** The two deployments have distinct keys. */
  lemma DeploymentNamesDistinct(d: Deployment, e: Deployment)
    ensures DeploymentName(d) == DeploymentName(e) ==> d == e
  {
    assert ParseDeployment(DeploymentName(d)) == Some(d);
  }

  function Other(d: Deployment): (e: Deployment)
    ensures e != d
  {
    match d
    case Lambda => Ec2
    case Ec2 => Lambda
  }

  /** `{"latencies": [...], "errors": [...]}` for one deployment. */
  datatype Bucket = Bucket(latencies: seq<real>, errors: seq<string>)

  const EmptyBucket := Bucket([], [])

  /** What `test_endpoint` learns from one request. */
  datatype EndpointResult = Reply(status: int, latencyMs: real) | Exception(message: string, latencyMs: real)

  type Network = (string, MCPRequest, nat) -> EndpointResult

  /** `result["success"]`: only an HTTP 200 reply counts. */
  predicate Succeeded(r: EndpointResult)
  {
    r.Reply? && r.status == 200
  }

  /** `result.get("error", "Unknown error")`: a failed reply carries no error text. */
  function ErrorText(r: EndpointResult): (s: string)
    requires !Succeeded(r)
    ensures r.Exception? ==> s == r.message
    ensures r.Reply? ==> s == "Unknown error"
  {
    if r.Exception? then r.message else "Unknown error"
  }

  /** Files one result under exactly one of the two lists. */
  function Record(b: Bucket, r: EndpointResult): (c: Bucket)
    ensures Succeeded(r) ==> c == Bucket(b.latencies + [r.latencyMs], b.errors)
    ensures !Succeeded(r) ==> c == Bucket(b.latencies, b.errors + [ErrorText(r)])
  {
    if Succeeded(r) then b.(latencies := b.latencies + [r.latencyMs]) else b.(errors := b.errors + [ErrorText(r)])
  }

  /** The bucket after recording every result of `rs`, in order. */
  function RecordAll(b: Bucket, rs: seq<EndpointResult>): (c: Bucket)
    ensures |c.latencies| + |c.errors| == |b.latencies| + |b.errors| + |rs|
    ensures |b.latencies| <= |c.latencies| && c.latencies[..|b.latencies|] == b.latencies
    ensures |b.errors| <= |c.errors| && c.errors[..|b.errors|] == b.errors
  {
    if rs == [] then b else Record(RecordAll(b, rs[..|rs| - 1]), rs[|rs| - 1])
  }

  /** The successful latencies among `rs`, in order. */
  function SuccessLatencies(rs: seq<EndpointResult>): (ls: seq<real>)
    ensures |ls| <= |rs|
    ensures forall x :: x in ls ==> exists r :: r in rs && Succeeded(r) && r.latencyMs == x
  {
    if rs == [] then []
    else if Succeeded(rs[0]) then [rs[0].latencyMs] + SuccessLatencies(rs[1..])
    else SuccessLatencies(rs[1..])
  }

  /** The error texts of the failures among `rs`, in order. */
  function FailureTexts(rs: seq<EndpointResult>): (es: seq<string>)
    ensures |es| <= |rs|
    ensures forall e :: e in es ==> exists r :: r in rs && !Succeeded(r) && ErrorText(r) == e
  {
    if rs == [] then []
    else if Succeeded(rs[0]) then FailureTexts(rs[1..])
    else [ErrorText(rs[0])] + FailureTexts(rs[1..])
  }

  lemma {:induction false} FilterSplit(rs: seq<EndpointResult>, r: EndpointResult)
    ensures SuccessLatencies(rs + [r]) == SuccessLatencies(rs) + (if Succeeded(r) then [r.latencyMs] else [])
    ensures FailureTexts(rs + [r]) == FailureTexts(rs) + (if Succeeded(r) then [] else [ErrorText(r)])
  {
    if rs != [] {
      assert (rs + [r])[1..] == rs[1..] + [r];
      FilterSplit(rs[1..], r);
    }
  }

  /** Recording partitions the results: the successes' latencies join one list and the
      failures' texts the other, each in order, and nothing already recorded changes. */
  lemma {:induction false} RecordAllPartitions(b: Bucket, rs: seq<EndpointResult>)
    ensures RecordAll(b, rs) == Bucket(b.latencies + SuccessLatencies(rs), b.errors + FailureTexts(rs))
  {
    if rs != [] {
      var init := rs[..|rs| - 1];
      var last := rs[|rs| - 1];
      assert rs == init + [last];
      RecordAllPartitions(b, init);
      FilterSplit(init, last);
    }
  }

  lemma RecordAllStep(b: Bucket, rs: seq<EndpointResult>, i: nat)
    requires i < |rs|
    ensures RecordAll(b, rs[..i + 1]) == Record(RecordAll(b, rs[..i]), rs[i])
  {
    assert rs[..i + 1][..i] == rs[..i];
  }

  /** Every result lands in exactly one list. */
  lemma {:induction false} PartitionSizes(rs: seq<EndpointResult>)
    ensures |SuccessLatencies(rs)| + |FailureTexts(rs)| == |rs|
  {
    if rs != [] {
      PartitionSizes(rs[1..]);
    }
  }

  /** `{"action": "invoke_tool", "data": {"tool_name": name, "parameters": parameters}}`. */
  function Invocation(name: string, parameters: map<string, Value>): MCPRequest
  {
    MCPRequest("invoke_tool", Some(map["tool_name" := Str(name), "parameters" := Obj(parameters)]))
  }

  function SearchArguments(): map<string, Value>
  {
    map["query" := Str("test query"), "limit" := Int(5)]
  }

  function DatabaseArguments(): map<string, Value>
  {
    map["operation" := Str("query"), "table" := Str("users")]
  }

  function FileOpsArguments(): map<string, Value>
  {
    map["operation" := Str("list"), "path" := Str("/tmp")]
  }

  /** `test_payloads[i % len(test_payloads)]`: every fourth request lists the tools, the
      others invoke search, database and file_ops in turn. */
  function TestPayload(i: nat): (p: MCPRequest)
    ensures p.action == "list_tools" <==> i % 4 == 0
    ensures p.action == "list_tools" ==> p.data.None?
    ensures p.action != "list_tools" ==>
      p == Invocation(if i % 4 == 1 then "search" else if i % 4 == 2 then "database" else "file_ops",
                      if i % 4 == 1 then SearchArguments() else if i % 4 == 2 then DatabaseArguments() else FileOpsArguments())
  {
    [MCPRequest("list_tools", None),
     Invocation("search", SearchArguments()),
     Invocation("database", DatabaseArguments()),
     Invocation("file_ops", FileOpsArguments())][i % 4]
  }

  /** The payload sequence repeats with period four. */
  lemma PayloadsCycle(i: nat)
    ensures TestPayload(i + 4) == TestPayload(i)
  {
    assert (i + 4) % 4 == i % 4;
  }

  /** An invocation of a registered tool whose call returns is answered with HTTP 200 and
      embeds a successful tool response. */
  lemma InvocationSucceeds(name: string, parameters: map<string, Value>, c: Catalog, toolLatencyMs: real, latencyMs: real)
    requires WellFormed(c) && name in c.tools
    requires Execute(c.tools[name], parameters).Returned?
    ensures var r := HandleMcpRequest(Invocation(name, parameters), c, toolLatencyMs, latencyMs);
      r.Answered? && r.response.success && r.response.data.Some? && Field(r.response.data.value, "success") == Bool(true)
  {
    var data := Invocation(name, parameters).data.value;
    assert ToolRequestErrors(data) == [];
    assert ParseToolRequest(data).value == ToolRequest(name, parameters, None);
  }

  /** Against a gateway holding the default tools, every request of the suite is answered with
      HTTP 200 and a successful envelope, and each tool call itself succeeds. */
  lemma SuiteRequestsSucceed(i: nat, toolLatencyMs: real, latencyMs: real)
    ensures var r := HandleMcpRequest(TestPayload(i), DefaultCatalog(), toolLatencyMs, latencyMs);
      && r.Answered? && r.response.success
      && (i % 4 != 0 ==> r.response.data.Some? && Field(r.response.data.value, "success") == Bool(true))
  {
    if i % 4 == 1 {
      SearchArgumentsAccepted();
      InvocationSucceeds("search", SearchArguments(), DefaultCatalog(), toolLatencyMs, latencyMs);
    } else if i % 4 == 2 {
      DatabaseArgumentsAccepted();
      InvocationSucceeds("database", DatabaseArguments(), DefaultCatalog(), toolLatencyMs, latencyMs);
    } else if i % 4 == 3 {
      FileOpsArgumentsAccepted();
      InvocationSucceeds("file_ops", FileOpsArguments(), DefaultCatalog(), toolLatencyMs, latencyMs);
    }
  }

  lemma SearchArgumentsAccepted()
    ensures "search" in DefaultCatalog().tools && Execute(DefaultCatalog().tools["search"], SearchArguments()).Returned?
  {
    DefaultNames();
    assert DefaultCatalog().tools["search"] == SearchTool;
    assert SearchQuery(SearchArguments()) == Str("test query") && SearchLimit(SearchArguments()) == Int(5);
  }

  lemma DatabaseArgumentsAccepted()
    ensures "database" in DefaultCatalog().tools && Execute(DefaultCatalog().tools["database"], DatabaseArguments()).Returned?
  {
    DefaultNames();
    assert DefaultCatalog().tools["database"] == DatabaseTool;
    assert Get(DatabaseArguments(), "operation", Null) == Str("query") && Get(DatabaseArguments(), "table", Null) == Str("users");
  }

  lemma FileOpsArgumentsAccepted()
    ensures "file_ops" in DefaultCatalog().tools && Execute(DefaultCatalog().tools["file_ops"], FileOpsArguments()).Returned?
  {
    DefaultNames();
    assert DefaultCatalog().tools["file_ops"] == FileOpsTool;
    var operation, path := Get(FileOpsArguments(), "operation", Null), Get(FileOpsArguments(), "path", Null);
    assert operation == Str("list") && path == Str("/tmp");
    assert Truthy(operation) && Truthy(path) && operation in FileOperations;
  }

  /** What the network answers to the `n` requests of one suite, in order. */
  function SuiteResults(url: string, numRequests: int, network: Network): (rs: seq<EndpointResult>)
    ensures |rs| == if numRequests < 0 then 0 else numRequests
    ensures forall i :: 0 <= i < |rs| ==> rs[i] == network(url, TestPayload(i), i)
  {
    seq(if numRequests < 0 then 0 else numRequests, i requires 0 <= i => network(url, TestPayload(i), i))
  }

  /** A suite of `n` requests leaves the two lists together `max(n, 0)` entries longer. */
  lemma SuiteGrowth(b: Bucket, url: string, numRequests: int, network: Network)
    ensures var c := RecordAll(b, SuiteResults(url, numRequests, network));
      |c.latencies| + |c.errors| == |b.latencies| + |b.errors| + (if numRequests < 0 then 0 else numRequests)
  {
    RecordAllPartitions(b, SuiteResults(url, numRequests, network));
    PartitionSizes(SuiteResults(url, numRequests, network));
  }

  class DeploymentTester {
    var lambdaUrl: string
    var ec2Url: string
    var results: map<Deployment, Bucket>

    ghost predicate Valid()
      reads this
    {
      Lambda in results && Ec2 in results
    }

    /** `__init__`: both URLs without trailing slashes, both result lists empty. */
    constructor(lambdaUrl: string, ec2Url: string)
      ensures Valid()
      ensures this.lambdaUrl == TrimTrailing(lambdaUrl, '/') && this.ec2Url == TrimTrailing(ec2Url, '/')
      ensures results == map[Lambda := EmptyBucket, Ec2 := EmptyBucket]
    {
      this.lambdaUrl := TrimTrailing(lambdaUrl, '/');
      this.ec2Url := TrimTrailing(ec2Url, '/');
      results := map[Lambda := EmptyBucket, Ec2 := EmptyBucket];
    }

    /** The recording loop of `run_test_suite`: request `i` sends payload `i mod 4` and its
        result is appended to one of the deployment's two lists. */
    method RunTestSuite(deployment: Deployment, url: string, numRequests: int, network: Network)
      requires Valid()
      modifies this
      ensures Valid()
      ensures results[deployment] == RecordAll(old(results[deployment]), SuiteResults(url, numRequests, network))
      ensures results[Other(deployment)] == old(results[Other(deployment)])
      ensures lambdaUrl == old(lambdaUrl) && ec2Url == old(ec2Url)
    {
      ghost var start := results[deployment];
      ghost var rs := SuiteResults(url, numRequests, network);
      var i := 0;
      while i < numRequests
        invariant 0 <= i <= |rs|
        invariant Valid()
        invariant results[deployment] == RecordAll(start, rs[..i])
        invariant results[Other(deployment)] == old(results[Other(deployment)])
        invariant lambdaUrl == old(lambdaUrl) && ec2Url == old(ec2Url)
      {
        var payload := TestPayload(i);
        var result := network(url, payload, i);
        assert result == rs[i];
        RecordAllStep(start, rs, i);
        var bucket := results[deployment];
        if Succeeded(result) {
          results := results[deployment := bucket.(latencies := bucket.latencies + [result.latencyMs])];
        } else {
          results := results[deployment := bucket.(errors := bucket.errors + [ErrorText(result)])];
        }
        i := i + 1;
      }
      assert rs[..i] == rs;
    }
  }

  /** A percentile or deviation figure: exact where the harness falls back to a plain value,
      otherwise computed by `statistics.quantiles` or `statistics.stdev`. */
  datatype Figure = Exact(value: real) | Estimated

  datatype Stats =
    | NoSuccess(totalErrors: nat)
    | Summary(total: nat, successful: nat, failed: nat, successRate: real,
              mean: real, median: real, min: real, max: real,
              p95: Figure, p99: Figure, stddev: Figure)

  /** `calculate_statistics` for one deployment's bucket: only an error count when nothing
      succeeded, otherwise the counts and the latency summary. */
  function CalculateStatistics(b: Bucket): (s: Stats)
    ensures s.NoSuccess? <==> b.latencies == []
    ensures s.NoSuccess? ==> s.totalErrors == |b.errors|
    ensures s.Summary? ==>
      s.successful == |b.latencies| && s.failed == |b.errors| && s.total == s.successful + s.failed
    ensures s.Summary? ==>
      && 0.0 < s.successRate <= 100.0
      && (s.successRate == 100.0 <==> b.errors == [])
      && s.successRate == SuccessRate(s.successful, s.total)
    ensures s.Summary? ==>
      s.mean == Mean(b.latencies) && s.median == Median(b.latencies) && s.min == Min(b.latencies) && s.max == Max(b.latencies)
    ensures s.Summary? ==>
      && (s.successful < 20 ==> s.p95 == Exact(s.max))
      && (s.successful < 100 ==> s.p99 == Exact(s.max))
      && (s.successful == 1 <==> s.stddev == Exact(0.0))
  {
    var ls := b.latencies;
    if ls == [] then NoSuccess(|b.errors|)
    else
      var n := |ls|;
      var total := n + |b.errors|;
      Summary(total, n, |b.errors|, SuccessRate(n, total),
              Mean(ls), Median(ls), Min(ls), Max(ls),
              if n >= 20 then Estimated else Exact(Max(ls)),
              if n >= 100 then Estimated else Exact(Max(ls)),
              if n > 1 then Estimated else Exact(0.0))
  }

  /** Minimum and maximum are samples that bound every sample, and the mean and the median
      lie between them. */
  lemma LatencySummaryBounds(b: Bucket)
    requires b.latencies != []
    ensures var s := CalculateStatistics(b);
      && s.min in b.latencies && s.max in b.latencies
      && (forall k :: 0 <= k < |b.latencies| ==> s.min <= b.latencies[k] <= s.max)
      && s.min <= s.mean <= s.max
      && s.min <= s.median <= s.max
  {
    MeanBounds(b.latencies);
    MedianBounds(b.latencies);
  }

  /** `successful / total * 100`: a percentage above zero, exactly 100 when nothing failed,
      and the share of successes among all requests. */
  function SuccessRate(successful: nat, total: nat): (rate: real)
    requires 0 < successful <= total
    ensures 0.0 < rate <= 100.0
    ensures rate == 100.0 <==> successful == total
    ensures rate * (total as real) == 100.0 * (successful as real)
  {
    var q := (successful as real) / (total as real);
    assert q * (total as real) == successful as real;
    QuotientBounds(0.0, successful as real, 1.0, total as real);
    assert q == 1.0 ==> successful as real == total as real;
    q * 100.0
  }

  /** `difference / base * 100`: the difference as a percentage of the base. */
  function Percentage(difference: real, base: real): (p: real)
    requires base != 0.0
    ensures p * base == difference * 100.0
  {
    assert difference / base * base == difference;
    difference / base * 100.0
  }

  datatype Comparison = Comparison(differenceMs: real, differencePercent: real,
                                   reliabilityLambda: real, reliabilityEc2: real, faster: Deployment)

  datatype Report = Report(timestamp: real, lambda: Stats, ec2: Stats, comparison: Option<Comparison>)

  /** `generate_comparison_report`; `timestamp` is the `time.time()` reading. The percentage
      divides by the EC2 mean, so an EC2 mean of zero raises `ZeroDivisionError`. */
  function GenerateComparisonReport(lambda: Bucket, ec2: Bucket, timestamp: real): (r: Result<Report, Fault>)
    ensures r.Failure? <==> lambda.latencies != [] && ec2.latencies != [] && Mean(ec2.latencies) == 0.0
    ensures r.Failure? ==> r.error == Fault("ZeroDivisionError", "float division by zero")
    ensures r.Success? ==>
      && r.value.timestamp == timestamp
      && r.value.lambda == CalculateStatistics(lambda) && r.value.ec2 == CalculateStatistics(ec2)
      && (r.value.comparison.Some? <==> lambda.latencies != [] && ec2.latencies != [])
    ensures r.Success? && r.value.comparison.Some? ==>
      var c := r.value.comparison.value;
      && c.differenceMs == Mean(lambda.latencies) - Mean(ec2.latencies)
      && c.differencePercent == Percentage(c.differenceMs, Mean(ec2.latencies))
      && c.reliabilityLambda == r.value.lambda.successRate && c.reliabilityEc2 == r.value.ec2.successRate
      && (c.faster == Ec2 <==> Mean(ec2.latencies) < Mean(lambda.latencies))
  {
    var ls := CalculateStatistics(lambda);
    var es := CalculateStatistics(ec2);
    if ls.Summary? && es.Summary? then
      if es.mean == 0.0 then Failure(Fault("ZeroDivisionError", "float division by zero"))
      else
        var difference := ls.mean - es.mean;
        Success(Report(timestamp, ls, es, Some(Comparison(difference, Percentage(difference, es.mean),
          ls.successRate, es.successRate, if es.mean < ls.mean then Ec2 else Lambda))))
    else Success(Report(timestamp, ls, es, None))
  }

  /** `faster_deployment` is the string "ec2" when the EC2 mean is strictly lower and "lambda"
      otherwise, ties included. */
  lemma FasterDeploymentName(lambda: Bucket, ec2: Bucket, timestamp: real)
    requires GenerateComparisonReport(lambda, ec2, timestamp).Success?
    requires GenerateComparisonReport(lambda, ec2, timestamp).value.comparison.Some?
    ensures lambda.latencies != [] && ec2.latencies != []
    ensures DeploymentName(GenerateComparisonReport(lambda, ec2, timestamp).value.comparison.value.faster)
      == if Mean(ec2.latencies) < Mean(lambda.latencies) then "ec2" else "lambda"
  {
  }
}
