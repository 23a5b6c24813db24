/** `get_gcp_resources` and the scanning loop of `main`: the probes a project gets, what each
    does to the totals and logs, and the `completed_count` bookkeeping. */
module Scan {
  import opened Common
  import opened Paging
  import opened Ledger
  import opened Projects
  import opened Dispatch
  import Compute
  import Serverless
  import Data
  import Registry

  /** What Google Cloud answers for one project: each listing a probe walks, the lookups the
      probes make, and the exception (if any) that `get_gcp_resources` raises outside every
      probe's handler, such as a failure to build the Service Usage client. */
  datatype Cloud = Cloud(
    services: Listing<string>,
    regions: Listing<string>,
    compute: Compute.Service,
    clusters: Listing<Serverless.Cluster>,
    functions: Listing<string>,
    revisions: Listing<Serverless.Revision>,
    buckets: Listing<string>,
    sqlInstances: Listing<string>,
    spannerInstances: Listing<Data.SpannerInstance>,
    spannerDatabases: string -> Listing<Data.Database>,
    datasets: Listing<string>,
    registry: Registry.Service,
    setupFault: Option<string>)

  /** The command line switches the scan reads. */
  datatype Options = Options(debug: bool, verbose: bool, imagesMode: bool, maxImageTags: nat)

  /** What running probe `p` for project `projectId` yields. */
  function ProbeOutcome(cloud: Cloud, projectId: string, maxTags: nat, p: Probe): Outcome {
    match p
    case VirtualMachines => Compute.Probe(cloud.compute, projectId)
    case GkeClusters =>
      Serverless.AutopilotOutcome(Walk(cloud.clusters, Serverless.Capacity(0, 0), Each(Serverless.ClusterStep())))
    case CloudFunctions => Serverless.FunctionsOutcome(Walk(cloud.functions, 0, CountItems()))
    case CloudRunRevisions =>
      Serverless.CloudRunOutcome(Walk<Serverless.Revision, nat>(cloud.revisions, 0, Each(Adding(Serverless.Healthy))))
    case Buckets => Data.BucketsOutcome(Walk(cloud.buckets, 0, CountItems()))
    case CloudSql => Data.CloudSqlOutcome(Walk(cloud.sqlInstances, 0, CountItems()))
    case Spanner => Data.Probe(cloud.spannerInstances, cloud.spannerDatabases)
    case BigQuery => Data.BigQueryOutcome(Walk(cloud.datasets, 0, CountItems()))
    case RegistryImages(region) => Registry.Probe(cloud.registry, projectId, region, maxTags)
  }

  /** Every probe reports only to keys `totals` has. */
  lemma OutcomeKnown(cloud: Cloud, projectId: string, maxTags: nat, p: Probe)
    ensures var o := ProbeOutcome(cloud, projectId, maxTags, p);
      KnownReports(if o.Finished? then o.reports else [])
  {
    match p {
      case VirtualMachines =>
        Compute.ProbeKnown(cloud.compute, projectId);
      case GkeClusters =>
        assert "Kubernetes Sensors" == TotalKeys[9] && "Serverless Containers" == TotalKeys[3];
      case CloudFunctions =>
        assert "Serverless Functions" == TotalKeys[2];
      case CloudRunRevisions =>
        assert "Serverless Containers" == TotalKeys[3];
      case Buckets =>
        assert "Data Buckets" == TotalKeys[4];
      case CloudSql =>
        assert "PaaS Databases" == TotalKeys[5];
      case Spanner =>
        assert "PaaS Databases" == TotalKeys[5];
      case BigQuery =>
        assert "Data Warehouses" == TotalKeys[6];
      case RegistryImages(_) =>
        assert "Registry Container Images" == TotalKeys[8];
    }
  }

  // ---------------------------------------------------------------------------------------
  // get_gcp_resources

  /** The state after probe `p` runs and its outcome is applied. */
  function ProbeApplied(s: State, cloud: Cloud, entry: Entry, opts: Options, p: Probe): State
    requires Valid(s)
  {
    OutcomeKnown(cloud, entry.id, opts.maxImageTags, p);
    Applied(s, ProbeOutcome(cloud, entry.id, opts.maxImageTags, p), entry.name, opts.verbose)
  }

  /** The probes of `plan` run one after the other from state `s`; with `debug` the first
      probe that raises propagates and ends the run. The flag says whether it did. */
  function Ran(s: State, cloud: Cloud, entry: Entry, plan: seq<Probe>, opts: Options): (State, bool)
    requires Valid(s)
    decreases |plan|
  {
    if |plan| == 0 then (s, false)
    else
      var o := ProbeOutcome(cloud, entry.id, opts.maxImageTags, plan[0]);
      OutcomeKnown(cloud, entry.id, opts.maxImageTags, plan[0]);
      AppliedEffect(s, o, entry.name, opts.verbose);
      var s1 := ProbeApplied(s, cloud, entry, opts, plan[0]);
      if opts.debug && o.Raised? then (s1, true) else Ran(s1, cloud, entry, plan[1..], opts)
  }

  /** The state with `errors` appended to `errors_log`. */
  function Logged(s: State, errors: seq<string>): State {
    State(s.totals, s.totalsLog, s.errorsLog + errors)
  }

  /** The enabled services and regions of a project, and the error lines their listings log. */
  function Discovered(cloud: Cloud, projectId: string): (seq<string>, seq<string>, seq<string>) {
    var (services, e1) := Gathered(cloud.services, projectId, "get_gcp_enabled_services()");
    var (regions, e2) :=
      if ComputeApi in services then Gathered(cloud.regions, projectId, "get_gcp_regions()") else ([], []);
    (services, regions, e1 + e2)
  }

  /** `get_gcp_resources(project_id, project_name)`: the state after the scan of one project,
      and whether the scan raised. */
  function Scanned(s: State, cloud: Cloud, entry: Entry, opts: Options): (State, bool)
    requires Valid(s)
  {
    if cloud.setupFault.Some? then (s, true)
    else
      var (services, regions, errors) := Discovered(cloud, entry.id);
      var plan := ProjectPlan(opts.debug, Enabled(opts.imagesMode), services, regions);
      Ran(Logged(s, errors), cloud, entry, plan, opts)
  }

  /** `t` follows from `s` by adding non-negative amounts to the same keys and appending to
      both logs. */
  ghost predicate Grows(s: State, t: State) {
    && (forall k :: k in t.totals <==> k in s.totals)
    && (forall k :: k in s.totals ==> s.totals[k] <= t.totals[k])
    && s.totalsLog <= t.totalsLog
    && s.errorsLog <= t.errorsLog
  }

  lemma GrowsTransitive(s: State, t: State, u: State)
    requires Grows(s, t) && Grows(t, u)
    ensures Grows(s, u)
  {
    assert s.totalsLog <= u.totalsLog by {
      assert u.totalsLog[..|s.totalsLog|] == t.totalsLog[..|t.totalsLog|][..|s.totalsLog|];
    }
    assert s.errorsLog <= u.errorsLog by {
      assert u.errorsLog[..|s.errorsLog|] == t.errorsLog[..|t.errorsLog|][..|s.errorsLog|];
    }
  }

  /** Running probes keeps the state valid, never lowers a total and only appends to the
      logs; outside debug mode no probe's exception leaves the run. */
  lemma {:induction false} RanGrows(s: State, cloud: Cloud, entry: Entry, plan: seq<Probe>, opts: Options)
    requires Valid(s)
    ensures var (t, raised) := Ran(s, cloud, entry, plan, opts);
      && Valid(t) && Grows(s, t)
      && (raised ==> opts.debug)
    decreases |plan|
  {
    if |plan| > 0 {
      var o := ProbeOutcome(cloud, entry.id, opts.maxImageTags, plan[0]);
      OutcomeKnown(cloud, entry.id, opts.maxImageTags, plan[0]);
      AppliedEffect(s, o, entry.name, opts.verbose);
      var s1 := ProbeApplied(s, cloud, entry, opts, plan[0]);
      assert Grows(s, s1);
      if !(opts.debug && o.Raised?) {
        RanGrows(s1, cloud, entry, plan[1..], opts);
        GrowsTransitive(s, s1, Ran(s1, cloud, entry, plan[1..], opts).0);
      }
    }
  }

  /** A project scan keeps the state valid, never lowers a total and only appends to the
      logs; outside debug mode it raises only through a fault outside the probes. */
  lemma ScannedGrows(s: State, cloud: Cloud, entry: Entry, opts: Options)
    requires Valid(s)
    ensures var (t, raised) := Scanned(s, cloud, entry, opts);
      && Valid(t) && Grows(s, t)
      && (!opts.debug ==> (raised <==> cloud.setupFault.Some?))
  {
    if cloud.setupFault.None? {
      var (services, regions, errors) := Discovered(cloud, entry.id);
      var plan := ProjectPlan(opts.debug, Enabled(opts.imagesMode), services, regions);
      var s1 := Logged(s, errors);
      assert Grows(s, s1);
      RanGrows(s1, cloud, entry, plan, opts);
      GrowsTransitive(s, s1, Ran(s1, cloud, entry, plan, opts).0);
    }
  }

  /** A project with no enabled services records nothing: the totals and `totals_log` are
      as they were, and only the listing errors are logged. */
  lemma NoServicesNoTotals(s: State, cloud: Cloud, entry: Entry, opts: Options)
    requires Valid(s)
    requires cloud.setupFault.None? && |Discovered(cloud, entry.id).0| == 0
    ensures var t := Scanned(s, cloud, entry, opts).0;
      && t.totals == s.totals && t.totalsLog == s.totalsLog
      && t.errorsLog == s.errorsLog + Discovered(cloud, entry.id).2
  {
  }

  /** Runs probe `p` for project `projectId`: the probe function the plan names. */
  method Execute(cloud: Cloud, projectId: string, maxTags: nat, p: Probe) returns (o: Outcome)
    ensures o == ProbeOutcome(cloud, projectId, maxTags, p)
  {
    match p {
      case VirtualMachines =>
        o := Compute.CountVirtualMachines(cloud.compute, projectId);
      case GkeClusters =>
        var w := Drain(cloud.clusters, Serverless.Capacity(0, 0), Each(Serverless.ClusterStep()));
        o := Serverless.AutopilotOutcome(w);
      case CloudFunctions =>
        var w := Drain(cloud.functions, 0, CountItems());
        o := Serverless.FunctionsOutcome(w);
      case CloudRunRevisions =>
        var w := Drain<Serverless.Revision, nat>(cloud.revisions, 0, Each(Adding(Serverless.Healthy)));
        o := Serverless.CloudRunOutcome(w);
      case Buckets =>
        var w := Drain(cloud.buckets, 0, CountItems());
        o := Data.BucketsOutcome(w);
      case CloudSql =>
        var w := Drain(cloud.sqlInstances, 0, CountItems());
        o := Data.CloudSqlOutcome(w);
      case Spanner =>
        var w := Drain(cloud.spannerInstances, 0, Each(Data.InstanceStep(Data.DatabaseWalks(cloud.spannerDatabases))));
        o := Data.SpannerOutcome(w);
      case BigQuery =>
        var w := Drain(cloud.datasets, 0, CountItems());
        o := Data.BigQueryOutcome(w);
      case RegistryImages(region) =>
        o := Registry.CountImages(cloud.registry, projectId, region, maxTags);
    }
  }

  /** Runs probe `p` for a project and applies its outcome to the totals and logs. */
  method RunProbe(agg: Aggregator, cloud: Cloud, entry: Entry, opts: Options, p: Probe) returns (raised: bool)
    requires Valid(agg.Snapshot())
    modifies agg
    ensures raised == ProbeOutcome(cloud, entry.id, opts.maxImageTags, p).Raised?
    ensures agg.Snapshot() == ProbeApplied(old(agg.Snapshot()), cloud, entry, opts, p)
    ensures Valid(agg.Snapshot())
  {
    OutcomeKnown(cloud, entry.id, opts.maxImageTags, p);
    var o := Execute(cloud, entry.id, opts.maxImageTags, p);
    agg.Apply(o, entry.name, opts.verbose);
    raised := o.Raised?;
  }

  /** The probe loop of `get_gcp_resources`. */
  method RunPlan(agg: Aggregator, cloud: Cloud, entry: Entry, opts: Options, plan: seq<Probe>) returns (raised: bool)
    requires Valid(agg.Snapshot())
    modifies agg
    ensures (agg.Snapshot(), raised) == Ran(old(agg.Snapshot()), cloud, entry, plan, opts)
    ensures Valid(agg.Snapshot())
  {
    for i := 0 to |plan|
      invariant Valid(agg.Snapshot())
      invariant Ran(agg.Snapshot(), cloud, entry, plan[i..], opts) == Ran(old(agg.Snapshot()), cloud, entry, plan, opts)
    {
      assert plan[i..][1..] == plan[i + 1..];
      var r := RunProbe(agg, cloud, entry, opts, plan[i]);
      if opts.debug && r {
        return true;
      }
    }
    return false;
  }

  /** The listings at the start of `get_gcp_resources`: the enabled services, then the
      regions when Compute Engine is among them. */
  method Discover(agg: Aggregator, cloud: Cloud, projectId: string) returns (services: seq<string>, regions: seq<string>)
    modifies agg
    ensures (services, regions) == (Discovered(cloud, projectId).0, Discovered(cloud, projectId).1)
    ensures agg.Snapshot() == Logged(old(agg.Snapshot()), Discovered(cloud, projectId).2)
  {
    services := GatherNames(agg, cloud.services, projectId, "get_gcp_enabled_services()");
    regions := [];
    if ComputeApi in services {
      regions := GatherNames(agg, cloud.regions, projectId, "get_gcp_regions()");
    } else {
      assert agg.errorsLog + [] == agg.errorsLog;
    }
  }

  /** `get_gcp_resources`: lists the enabled services (and the regions when Compute Engine is
      enabled), stops when there are no services, then runs the plan's probes. */
  method ScanProject(agg: Aggregator, cloud: Cloud, entry: Entry, opts: Options) returns (raised: bool)
    requires Valid(agg.Snapshot())
    modifies agg
    ensures (agg.Snapshot(), raised) == Scanned(old(agg.Snapshot()), cloud, entry, opts)
    ensures Valid(agg.Snapshot())
  {
    if cloud.setupFault.Some? {
      return true;
    }
    var services, regions := Discover(agg, cloud, entry.id);
    if |services| == 0 {
      return false;
    }
    var plan := ProjectPlan(opts.debug, Enabled(opts.imagesMode), services, regions);
    raised := RunPlan(agg, cloud, entry, opts, plan);
  }

  // ---------------------------------------------------------------------------------------
  // main

  /** The error line `main` logs for a project whose scan raised. */
  function ScanError(projectId: string, message: string): string {
    ErrorLine("Exception scanning " + projectId + ": " + message, "", "main()")
  }

  /** Debug mode: the projects are scanned in order and the first scan that raises ends the
      program. The flag says whether it did. */
  function DebugRun(s: State, projects: seq<Entry>, clouds: string -> Cloud, opts: Options): (State, bool)
    requires Valid(s)
    decreases |projects|
  {
    if |projects| == 0 then (s, false)
    else
      ScannedGrows(s, clouds(projects[0].id), projects[0], opts);
      var (s1, raised) := Scanned(s, clouds(projects[0].id), projects[0], opts);
      if raised then (s1, true) else DebugRun(s1, projects[1..], clouds, opts)
  }

  /** Parallel mode: every project is scanned, and a scan that raises is logged by `main`. */
  function ParallelRun(s: State, projects: seq<Entry>, clouds: string -> Cloud, opts: Options): State
    requires Valid(s)
    decreases |projects|
  {
    if |projects| == 0 then s
    else
      var cloud := clouds(projects[0].id);
      ScannedGrows(s, cloud, projects[0], opts);
      var (s1, raised) := Scanned(s, cloud, projects[0], opts);
      var s2 := if raised then Logged(s1, [ScanError(projects[0].id, cloud.setupFault.GetOr(""))]) else s1;
      ParallelRun(s2, projects[1..], clouds, opts)
  }

  /** The projects whose scan raises outside every probe, in order. */
  function Faulty(projects: seq<Entry>, clouds: string -> Cloud): seq<Entry> {
    if |projects| == 0 then []
    else (if clouds(projects[0].id).setupFault.Some? then [projects[0]] else []) + Faulty(projects[1..], clouds)
  }

  /** A parallel run keeps the state valid, never lowers a total and only appends to the
      logs. */
  lemma {:induction false} ParallelRunGrows(s: State, projects: seq<Entry>, clouds: string -> Cloud, opts: Options)
    requires Valid(s)
    ensures var t := ParallelRun(s, projects, clouds, opts);
      Valid(t) && Grows(s, t)
    decreases |projects|
  {
    if |projects| > 0 {
      var cloud := clouds(projects[0].id);
      ScannedGrows(s, cloud, projects[0], opts);
      var (s1, raised) := Scanned(s, cloud, projects[0], opts);
      var s2 := if raised then Logged(s1, [ScanError(projects[0].id, cloud.setupFault.GetOr(""))]) else s1;
      assert Grows(s, s2) by {
        if raised {
          assert Grows(s1, s2);
          GrowsTransitive(s, s1, s2);
        }
      }
      ParallelRunGrows(s2, projects[1..], clouds, opts);
      GrowsTransitive(s, s2, ParallelRun(s2, projects[1..], clouds, opts));
    }
  }

  /** Outside debug mode, `main` logs an `Exception scanning` line for each project whose
      scan raised outside every probe. */
  lemma {:induction false} ParallelRunLogsFaults(s: State, projects: seq<Entry>, clouds: string -> Cloud, opts: Options, e: Entry)
    requires Valid(s) && !opts.debug
    requires e in Faulty(projects, clouds)
    ensures var t := ParallelRun(s, projects, clouds, opts);
      && |s.errorsLog| <= |t.errorsLog|
      && ScanError(e.id, clouds(e.id).setupFault.GetOr("")) in t.errorsLog[|s.errorsLog|..]
    decreases |projects|
  {
    var cloud := clouds(projects[0].id);
    ScannedGrows(s, cloud, projects[0], opts);
    var (s1, raised) := Scanned(s, cloud, projects[0], opts);
    var s2 := if raised then Logged(s1, [ScanError(projects[0].id, cloud.setupFault.GetOr(""))]) else s1;
    var t := ParallelRun(s2, projects[1..], clouds, opts);
    var line := ScanError(e.id, clouds(e.id).setupFault.GetOr(""));
    assert ParallelRun(s, projects, clouds, opts) == t;
    if e in Faulty(projects[1..], clouds) {
      ParallelRunLogsFaults(s2, projects[1..], clouds, opts, e);
      assert |s.errorsLog| <= |s2.errorsLog|;
      assert t.errorsLog[|s2.errorsLog|..] == t.errorsLog[|s.errorsLog|..][|s2.errorsLog| - |s.errorsLog|..];
    } else {
      assert e == projects[0] && raised;
      ParallelRunGrows(s2, projects[1..], clouds, opts);
      assert s2.errorsLog[|s2.errorsLog| - 1] == line;
      assert t.errorsLog[|s2.errorsLog| - 1] == line;
      assert t.errorsLog[|s.errorsLog|..][|s2.errorsLog| - 1 - |s.errorsLog|] == line;
    }
  }

  /** A debug run keeps the state valid, never lowers a total and only appends to the logs;
      it ends early exactly when some project's scan raised. */
  lemma {:induction false} DebugRunGrows(s: State, projects: seq<Entry>, clouds: string -> Cloud, opts: Options)
    requires Valid(s)
    ensures var (t, crashed) := DebugRun(s, projects, clouds, opts);
      && Valid(t) && Grows(s, t)
      && (Faulty(projects, clouds) != [] && opts.debug ==> crashed)
    decreases |projects|
  {
    if |projects| > 0 {
      var cloud := clouds(projects[0].id);
      ScannedGrows(s, cloud, projects[0], opts);
      var (s1, raised) := Scanned(s, cloud, projects[0], opts);
      if !raised {
        DebugRunGrows(s1, projects[1..], clouds, opts);
        GrowsTransitive(s, s1, DebugRun(s1, projects[1..], clouds, opts).0);
      }
    }
  }

  /** The scanning loop of `main`. In debug mode the projects are scanned in order until one
      raises, and `completed_count` is never touched; in parallel mode every project is
      scanned, a raising scan is logged, and `completed_count` rises by one per project. */
  method ScanProjects(agg: Aggregator, projects: seq<Entry>, clouds: string -> Cloud, opts: Options)
    returns (completedCount: nat, crashed: bool)
    requires Valid(agg.Snapshot())
    modifies agg
    ensures opts.debug ==> (agg.Snapshot(), crashed) == DebugRun(old(agg.Snapshot()), projects, clouds, opts) && completedCount == 0
    ensures !opts.debug ==> agg.Snapshot() == ParallelRun(old(agg.Snapshot()), projects, clouds, opts) && completedCount == |projects| && !crashed
    ensures Valid(agg.Snapshot())
  {
    completedCount := 0;
    crashed := false;
    if opts.debug {
      for i := 0 to |projects|
        invariant Valid(agg.Snapshot())
        invariant DebugRun(agg.Snapshot(), projects[i..], clouds, opts) == DebugRun(old(agg.Snapshot()), projects, clouds, opts)
      {
        assert projects[i..][1..] == projects[i + 1..];
        ScannedGrows(agg.Snapshot(), clouds(projects[i].id), projects[i], opts);
        var raised := ScanProject(agg, clouds(projects[i].id), projects[i], opts);
        if raised {
          return 0, true;
        }
      }
    } else {
      for i := 0 to |projects|
        invariant Valid(agg.Snapshot())
        invariant ParallelRun(agg.Snapshot(), projects[i..], clouds, opts) == ParallelRun(old(agg.Snapshot()), projects, clouds, opts)
        invariant completedCount == i
      {
        assert projects[i..][1..] == projects[i + 1..];
        var cloud := clouds(projects[i].id);
        ScannedGrows(agg.Snapshot(), cloud, projects[i], opts);
        var raised := ScanProject(agg, cloud, projects[i], opts);
        completedCount := completedCount + 1;
        if raised {
          agg.ErrorPrint("Exception scanning " + projects[i].id + ": " + cloud.setupFault.GetOr(""), "", "main()");
        }
      }
    }
  }
}
