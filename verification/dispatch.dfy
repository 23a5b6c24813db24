/** What runs for one project: the argument range checks, the `enabled` switches, the
    enabled services and regions of a project, and the probe plan of `get_gcp_resources`. */
module Dispatch {
  import opened Common
  import opened Paging
  import opened Order
  import opened Ledger

  // ---------------------------------------------------------------------------------------
  // Argument range checks

  function DigitChar(d: nat): char
    requires d < 10
  {
    "0123456789"[d]
  }

  /** The decimal digits of `n`, most significant first. */
  function Digits(n: nat): (r: string)
    ensures |r| > 0
    decreases n
  {
    if n < 10 then [DigitChar(n)] else Digits(n / 10) + [DigitChar(n % 10)]
  }

  /** `str(n)` / `f"{n}"` on an int. */
  function Decimal(n: int): string {
    if n < 0 then "-" + Digits(-n) else Digits(n)
  }

  function DigitValue(c: char): nat {
    if '0' <= c <= '9' then (c as int - '0' as int) as nat else 0
  }

  /** `int(s)` on a string of decimal digits. */
  function DigitsValue(s: string): nat
    decreases |s|
  {
    if |s| == 0 then 0 else DigitsValue(s[..|s| - 1]) * 10 + DigitValue(s[|s| - 1])
  }

  /** `int(s)` on an optionally signed string of decimal digits. */
  function DecimalValue(s: string): int {
    if |s| > 0 && s[0] == '-' then -(DigitsValue(s[1..]) as int) else DigitsValue(s)
  }

  lemma {:induction false} DigitsValueOf(n: nat)
    ensures DigitsValue(Digits(n)) == n
    ensures Digits(n)[0] != '-'
    decreases n
  {
    if n >= 10 {
      DigitsValueOf(n / 10);
      var s := Digits(n);
      assert s[..|s| - 1] == Digits(n / 10);
    }
  }

  /** The number printed in a range message reads back as the argument given. */
  lemma DecimalRoundTrip(n: int)
    ensures DecimalValue(Decimal(n)) == n
  {
    if n < 0 {
      DigitsValueOf(-n);
      assert ("-" + Digits(-n))[1..] == Digits(-n);
    } else {
      DigitsValueOf(n);
    }
  }

  predicate InRange(n: int) {
    1 <= n <= 1000
  }

  function RangeMessage(option: string, n: int): string {
    "ERROR: " + option + " " + Decimal(n) + " out of range: [1 .. 1000]"
  }

  /** The range checks after argument parsing: the message the script prints before it exits
      with status 1, or None when both arguments are accepted. `--max-image-tags` is checked
      first. */
  function ArgsError(maxImageTags: int, maxWorkers: int): (r: Option<string>)
    ensures r.None? <==> InRange(maxImageTags) && InRange(maxWorkers)
    ensures !InRange(maxImageTags) ==> r == Some(RangeMessage("--max-image-tags", maxImageTags))
    ensures InRange(maxImageTags) && !InRange(maxWorkers) ==> r == Some(RangeMessage("--max-workers", maxWorkers))
  {
    if maxImageTags < 1 || maxImageTags > 1000 then Some(RangeMessage("--max-image-tags", maxImageTags))
    else if maxWorkers < 1 || maxWorkers > 1000 then Some(RangeMessage("--max-workers", maxWorkers))
    else None
  }

  /** A rejected argument's message names the option and reads back as the value given. */
  lemma RangeMessageNamesValue(option: string, n: int)
    ensures var m := RangeMessage(option, n);
      var prefix := "ERROR: " + option + " ";
      var suffix := " out of range: [1 .. 1000]";
      && |m| == |prefix| + |Decimal(n)| + |suffix|
      && m[..|prefix|] == prefix
      && DecimalValue(m[|prefix|..|m| - |suffix|]) == n
  {
    var m := RangeMessage(option, n);
    var prefix := "ERROR: " + option + " ";
    var suffix := " out of range: [1 .. 1000]";
    assert m == prefix + Decimal(n) + suffix;
    assert m[|prefix|..|m| - |suffix|] == Decimal(n);
    DecimalRoundTrip(n);
  }

  // ---------------------------------------------------------------------------------------
  // The `enabled` switches

  /** The `enabled` dict, one switch per count. */
  datatype Switches = Switches(
    virtualMachines: bool, containerHosts: bool, serverlessFunctions: bool, serverlessContainers: bool,
    dataBuckets: bool, paasDatabases: bool, dataWarehouses: bool,
    nonOsDisks: bool, registryImages: bool,
    kubernetesSensors: bool, vmSensors: bool, containerSensors: bool)

  /** The script's `enabled`: every count is switched on except the registry images, which
      follow `--images`; `--data` switches nothing. */
  function Enabled(imagesMode: bool): (e: Switches)
    ensures e.registryImages == imagesMode
    ensures && e.virtualMachines && e.containerHosts && e.serverlessFunctions && e.serverlessContainers
            && e.dataBuckets && e.paasDatabases && e.dataWarehouses && e.nonOsDisks
            && e.kubernetesSensors && e.vmSensors && e.containerSensors
  {
    Switches(true, true, true, true, true, true, true, true, imagesMode, true, true, true)
  }

  // ---------------------------------------------------------------------------------------
  // Enabled services and regions

  function Append(names: seq<string>, name: string): Step<seq<string>> {
    Continue(names + [name])
  }

  function AppendStep(): (seq<string>, string) -> Step<seq<string>> {
    (names: seq<string>, name: string) => Append(names, name)
  }

  /** Sorting strings, as `list.sort()`. */
  function Sorted(names: seq<string>): (r: seq<string>)
    ensures multiset(r) == multiset(names)
    ensures SortedBy(r, (x: string) => x)
  {
    SortBySorted(names, (x: string) => x);
    SortBy(names, (x: string) => x)
  }

  /** The names gathered from a listing, sorted, and the error line logged when one of its
      requests raises (the names gathered up to then are kept). */
  function Gathered(listing: Listing<string>, projectId: string, caller: string): (seq<string>, seq<string>) {
    var w := Walk(listing, [], Each(AppendStep()));
    (Sorted(w.acc), if w.completed then [] else [ErrorLine(listing.error, projectId, caller)])
  }

  lemma {:induction false} AppendFold(names: seq<string>, xs: seq<string>)
    ensures Fold(names, xs, AppendStep()) == Continue(names + xs)
    decreases |xs|
  {
    if |xs| == 0 {
      assert names + [] == names;
    } else {
      assert AppendStep()(names, xs[0]) == Continue(names + [xs[0]]);
      AppendFold(names + [xs[0]], xs[1..]);
      assert (names + [xs[0]]) + xs[1..] == names + xs;
    }
  }

  /** The gathered names are every name on the pages received, each as often as listed, in
      sorted order; an error line is logged exactly when a request raised. */
  lemma GatheredExactly(listing: Listing<string>, projectId: string, caller: string)
    ensures var w := Walk(listing, [], Each(AppendStep()));
      var (names, errors) := Gathered(listing, projectId, caller);
      && multiset(names) == multiset(Received(listing, w))
      && SortedBy(names, (x: string) => x)
      && (|errors| == 0 <==> w.completed)
      && |errors| <= 1
  {
    var w := Walk(listing, [], Each(AppendStep()));
    WalkFolds(listing, [], AppendStep());
    AppendFold([], Received(listing, w));
    assert [] + Received(listing, w) == Received(listing, w);
  }

  /** `get_gcp_enabled_services` (or `get_gcp_regions`, by `caller`) after the client is
      built: gathers the names, logs the exception if a request raises, sorts. */
  method GatherNames(agg: Aggregator, listing: Listing<string>, projectId: string, caller: string) returns (names: seq<string>)
    modifies agg
    ensures names == Gathered(listing, projectId, caller).0
    ensures agg.errorsLog == old(agg.errorsLog) + Gathered(listing, projectId, caller).1
    ensures agg.totals == old(agg.totals) && agg.totalsLog == old(agg.totalsLog)
  {
    var w := Drain(listing, [], Each(AppendStep()));
    if !w.completed {
      agg.ErrorPrint(listing.error, projectId, caller);
    }
    names := Sorted(w.acc);
  }

  // ---------------------------------------------------------------------------------------
  // The probe plan

  /** A probe `get_gcp_resources` may start, with the region of a registry probe. */
  datatype Probe =
    | VirtualMachines
    | GkeClusters
    | CloudFunctions
    | CloudRunRevisions
    | Buckets
    | CloudSql
    | Spanner
    | BigQuery
    | RegistryImages(region: string)

  const ComputeApi := "compute.googleapis.com"
  const ContainerApi := "container.googleapis.com"
  const FunctionsApi := "cloudfunctions.googleapis.com"
  const RunApi := "run.googleapis.com"
  const SqlApi := "sqladmin.googleapis.com"
  const SpannerApi := "spanner.googleapis.com"
  const BigQueryApi := "bigquery.googleapis.com"
  const RegistryApi := "artifactregistry.googleapis.com"

  /** The service that gates the bucket probe: different in the two branches. */
  const DebugBucketApi := "storage.googleapis.com"
  const ParallelBucketApi := "storage-api.googleapis.com"

  /** The probes other than the registry's, in the order `get_gcp_resources` starts them. */
  const FixedOrder: seq<Probe> := [VirtualMachines, GkeClusters, CloudFunctions, CloudRunRevisions, Buckets, CloudSql, Spanner, BigQuery]

  /** The elements of `xs` that pass `gate`, in order. */
  function Keep(xs: seq<Probe>, gate: Probe -> bool): seq<Probe> {
    if |xs| == 0 then [] else (if gate(xs[0]) then [xs[0]] else []) + Keep(xs[1..], gate)
  }

  /** The service whose presence in the enabled services gates probe `p`. */
  function Api(p: Probe, bucketApi: string): string {
    match p
    case VirtualMachines => ComputeApi
    case GkeClusters => ContainerApi
    case CloudFunctions => FunctionsApi
    case CloudRunRevisions => RunApi
    case Buckets => bucketApi
    case CloudSql => SqlApi
    case Spanner => SpannerApi
    case BigQuery => BigQueryApi
    case RegistryImages(_) => RegistryApi
  }

  /** The switch that gates probe `p` (either of two for the first two probes). */
  predicate Switched(enabled: Switches, p: Probe) {
    match p
    case VirtualMachines => enabled.virtualMachines || enabled.containerHosts
    case GkeClusters => enabled.containerHosts || enabled.serverlessContainers
    case CloudFunctions => enabled.serverlessFunctions
    case CloudRunRevisions => enabled.serverlessContainers
    case Buckets => enabled.dataBuckets
    case CloudSql => enabled.paasDatabases
    case Spanner => enabled.paasDatabases
    case BigQuery => enabled.dataWarehouses
    case RegistryImages(_) => enabled.registryImages
  }

  /** When the plan schedules probe `p`: its switch is on and its service is enabled; a
      registry probe also needs its region listed. */
  predicate Scheduled(enabled: Switches, services: seq<string>, regions: seq<string>, bucketApi: string, p: Probe) {
    Switched(enabled, p) && Api(p, bucketApi) in services && (p.RegistryImages? ==> p.region in regions)
  }

  /** `for region in regions_list`: one registry probe per region, in order. */
  function RegistryProbes(regions: seq<string>): (r: seq<Probe>)
    ensures |r| == |regions|
    ensures forall i :: 0 <= i < |r| ==> r[i] == RegistryImages(regions[i])
  {
    seq(|regions|, i requires 0 <= i < |regions| => RegistryImages(regions[i]))
  }

  /** The probes of one branch of `get_gcp_resources`, in the order it starts them: each
      fixed probe whose gate holds, then, when the registry images are switched on and the
      registry service is enabled, one registry probe per region. */
  function Plan(enabled: Switches, services: seq<string>, regions: seq<string>, bucketApi: string): seq<Probe> {
    Keep(FixedOrder, Gate(enabled, services, regions, bucketApi))
    + (if enabled.registryImages && RegistryApi in services then RegistryProbes(regions) else [])
  }

  function Gate(enabled: Switches, services: seq<string>, regions: seq<string>, bucketApi: string): Probe -> bool {
    (p: Probe) => Scheduled(enabled, services, regions, bucketApi, p)
  }

  /** The probes `get_gcp_resources` starts for a project with these services and regions:
      none when no service is enabled, else the debug or the parallel branch's. */
  function ProjectPlan(debug: bool, enabled: Switches, services: seq<string>, regions: seq<string>): seq<Probe> {
    if |services| == 0 then []
    else Plan(enabled, services, regions, if debug then DebugBucketApi else ParallelBucketApi)
  }

  lemma {:induction false} KeepCount(xs: seq<Probe>, gate: Probe -> bool, p: Probe)
    ensures multiset(Keep(xs, gate))[p] == if gate(p) then multiset(xs)[p] else 0
    decreases |xs|
  {
    if |xs| > 0 {
      KeepCount(xs[1..], gate, p);
      assert xs == [xs[0]] + xs[1..];
    }
  }

  lemma FixedOrderOnce(p: Probe)
    ensures multiset(FixedOrder)[p] == if p.RegistryImages? then 0 else 1
  {
  }

  lemma {:induction false} RegistryProbesCount(regions: seq<string>, p: Probe)
    ensures multiset(RegistryProbes(regions))[p] == if p.RegistryImages? then multiset(regions)[p.region] else 0
    decreases |regions|
  {
    if |regions| > 0 {
      var r := RegistryProbes(regions);
      assert r == [RegistryImages(regions[0])] + RegistryProbes(regions[1..]);
      assert regions == [regions[0]] + regions[1..];
      RegistryProbesCount(regions[1..], p);
    }
  }

  /** A project without enabled services gets no probe, in either branch. */
  lemma NoServicesNoProbes(debug: bool, enabled: Switches, regions: seq<string>)
    ensures ProjectPlan(debug, enabled, [], regions) == []
  {
  }

  /** The fixed part of the plan holds each fixed probe once when its gate holds. */
  lemma FixedCount(enabled: Switches, services: seq<string>, regions: seq<string>, bucketApi: string, p: Probe)
    ensures multiset(Keep(FixedOrder, Gate(enabled, services, regions, bucketApi)))[p]
      == if !p.RegistryImages? && Scheduled(enabled, services, regions, bucketApi, p) then 1 else 0
  {
    KeepCount(FixedOrder, Gate(enabled, services, regions, bucketApi), p);
    FixedOrderOnce(p);
  }

  /** The plan starts each probe exactly as often as it is scheduled: a fixed probe once if
      its gate holds and never otherwise, a registry probe once per listing of its region. */
  lemma PlanCounts(enabled: Switches, services: seq<string>, regions: seq<string>, bucketApi: string, p: Probe)
    ensures multiset(Plan(enabled, services, regions, bucketApi))[p] ==
      if !p.RegistryImages? then (if Scheduled(enabled, services, regions, bucketApi, p) then 1 else 0)
      else if enabled.registryImages && RegistryApi in services then multiset(regions)[p.region]
      else 0
  {
    var on := enabled.registryImages && RegistryApi in services;
    PlanSplit(enabled, services, regions, bucketApi, p);
    FixedCount(enabled, services, regions, bucketApi, p);
    if on {
      RegistryProbesCount(regions, p);
    }
  }

  /** How often `p` occurs in the plan: in its fixed part plus in its registry part. */
  lemma PlanSplit(enabled: Switches, services: seq<string>, regions: seq<string>, bucketApi: string, p: Probe)
    ensures multiset(Plan(enabled, services, regions, bucketApi))[p] ==
      multiset(Keep(FixedOrder, Gate(enabled, services, regions, bucketApi)))[p]
      + (if enabled.registryImages && RegistryApi in services then multiset(RegistryProbes(regions))[p] else 0)
  {
    var fixed := Keep(FixedOrder, Gate(enabled, services, regions, bucketApi));
    var registry := if enabled.registryImages && RegistryApi in services then RegistryProbes(regions) else [];
    assert multiset(fixed + registry) == multiset(fixed) + multiset(registry);
  }

  /** A probe is in the plan exactly when it is scheduled. */
  lemma PlanMembership(enabled: Switches, services: seq<string>, regions: seq<string>, bucketApi: string, p: Probe)
    ensures p in Plan(enabled, services, regions, bucketApi) <==> Scheduled(enabled, services, regions, bucketApi, p)
  {
    var plan := Plan(enabled, services, regions, bucketApi);
    PlanCounts(enabled, services, regions, bucketApi, p);
    var scheduled := Scheduled(enabled, services, regions, bucketApi, p);
    assert p in plan <==> multiset(plan)[p] > 0;
    if p.RegistryImages? {
      assert Api(p, bucketApi) == RegistryApi && Switched(enabled, p) == enabled.registryImages;
      if enabled.registryImages && RegistryApi in services {
        assert scheduled <==> p.region in regions;
        assert p.region in regions <==> multiset(regions)[p.region] > 0;
      } else {
        assert !scheduled;
      }
    } else {
      assert multiset(plan)[p] == if scheduled then 1 else 0;
    }
  }

  /** The registry probes come last: the plan ends with one registry probe per region, in
      the regions' order. */
  lemma RegistryProbesLast(enabled: Switches, services: seq<string>, regions: seq<string>, bucketApi: string)
    requires enabled.registryImages && RegistryApi in services
    ensures var plan := Plan(enabled, services, regions, bucketApi);
      && |plan| >= |regions|
      && plan[|plan| - |regions|..] == RegistryProbes(regions)
  {
    var fixed := Keep(FixedOrder, Gate(enabled, services, regions, bucketApi));
    var registry := RegistryProbes(regions);
    assert Plan(enabled, services, regions, bucketApi) == fixed + registry;
    assert (fixed + registry)[|fixed|..] == registry;
  }

  /** The two branches gate the bucket probe on different services: a project with only
      `storage.googleapis.com` enabled gets the bucket probe in debug mode but not in parallel
      mode, and one with only `storage-api.googleapis.com` the other way round. */
  lemma BucketGateDiffers(imagesMode: bool)
    ensures Buckets in ProjectPlan(true, Enabled(imagesMode), [DebugBucketApi], [])
    ensures Buckets !in ProjectPlan(false, Enabled(imagesMode), [DebugBucketApi], [])
    ensures Buckets !in ProjectPlan(true, Enabled(imagesMode), [ParallelBucketApi], [])
    ensures Buckets in ProjectPlan(false, Enabled(imagesMode), [ParallelBucketApi], [])
  {
    var e := Enabled(imagesMode);
    PlanMembership(e, [DebugBucketApi], [], DebugBucketApi, Buckets);
    PlanMembership(e, [DebugBucketApi], [], ParallelBucketApi, Buckets);
    PlanMembership(e, [ParallelBucketApi], [], DebugBucketApi, Buckets);
    PlanMembership(e, [ParallelBucketApi], [], ParallelBucketApi, Buckets);
  }

  /** Under the script's switches every probe but the registry's is gated by its service
      alone, and the registry probes run only with `--images`. */
  lemma EnabledGates(imagesMode: bool, services: seq<string>, regions: seq<string>, bucketApi: string, p: Probe)
    ensures Scheduled(Enabled(imagesMode), services, regions, bucketApi, p) <==>
      Api(p, bucketApi) in services && (p.RegistryImages? ==> imagesMode && p.region in regions)
  {
  }
}
