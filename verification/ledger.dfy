/** The run's shared state: the `totals` dict, the `totals_log` rows appended by
    `progress_print` and the `errors_log` lines appended by `error_print`, with the
    "report only if count > 0 or verbose" gate every probe applies before touching them. */
module Ledger {
  import opened Text

  /** The keys of `totals`, in the order the script declares them. */
  const TotalKeys: seq<string> := [
    "Virtual Machines", "Container Hosts", "Serverless Functions", "Serverless Containers",
    "Data Buckets", "PaaS Databases", "Data Warehouses",
    "Non-OS Disks", "Registry Container Images",
    "Kubernetes Sensors", "Virtual Machine Sensors", "Serverless Container Sensors"
  ]

  /** `totals` at start-up: every key at 0. */
  function InitialTotals(): (t: map<string, int>)
    ensures forall k :: k in t <==> k in TotalKeys
    ensures forall k :: k in t ==> t[k] == 0
  {
    map k | k in TotalKeys :: 0
  }

  /** One `totals_log` row: `[resource_type, resource_count, project, region]`. */
  datatype Row = Row(resourceType: string, count: nat, project: string, region: string)

  /** `totals[key] += amount`. */
  datatype Increment = Increment(key: string, amount: nat)

  /** One result a probe reports: the log row's type, count and region, and the totals it adds
      to when the gate lets it through. */
  datatype Report = Report(resourceType: string, count: nat, region: string, increments: seq<Increment>)

  /** What one probe run leaves behind: the error lines it logged on the way, and either the
      results it reports after its loops, or nothing more because it raised an exception. */
  datatype Outcome = Finished(errors: seq<string>, reports: seq<Report>) | Raised(errors: seq<string>)

  /** The outcome of a probe that logs nothing and reports one count under one key: raised
      when its listing raised. */
  function Single(completed: bool, resourceType: string, region: string, key: string, count: nat): Outcome {
    if completed then Finished([], [Report(resourceType, count, region, [Increment(key, count)])]) else Raised([])
  }

  /** A snapshot of `totals`, `totals_log` and `errors_log`. */
  datatype State = State(totals: map<string, int>, totalsLog: seq<Row>, errorsLog: seq<string>)

  /** The totals hold exactly the declared keys, none of them negative. */
  ghost predicate Valid(s: State) {
    && (forall k :: k in s.totals <==> k in TotalKeys)
    && (forall k :: k in s.totals ==> s.totals[k] >= 0)
  }

  /** Every declared key is present in the totals. */
  ghost predicate HasKeys(s: State) {
    forall k :: k in TotalKeys ==> k in s.totals
  }

  ghost predicate KnownKeys(incs: seq<Increment>) {
    forall i :: 0 <= i < |incs| ==> incs[i].key in TotalKeys
  }

  ghost predicate KnownReports(reports: seq<Report>) {
    forall i :: 0 <= i < |reports| ==> KnownKeys(reports[i].increments)
  }

  // ---------------------------------------------------------------------------------------
  // error_print

  /** The line `error_print(details, project)` appends, called from `caller`. */
  function ErrorLine(details: string, project: string, caller: string): string {
    "ERROR: " + (if project != "" then "Project: " + project + " " else "") + caller + " " + Scrub(details)
  }

  /** Whatever the details, an error line is a single line (the error file writes one per
      line) as long as the project id and the function name are. */
  lemma ErrorLineIsOneLine(details: string, project: string, caller: string)
    requires '\n' !in project && '\r' !in project && '\n' !in caller && '\r' !in caller
    ensures var e := ErrorLine(details, project, caller);
      '\n' !in e && '\r' !in e && e[..7] == "ERROR: "
  {
    var e := ErrorLine(details, project, caller);
    var p := if project != "" then "Project: " + project + " " else "";
    assert e == "ERROR: " + p + caller + " " + Scrub(details);
    assert '\n' !in Scrub(details) && '\r' !in Scrub(details);
    forall c | c in e ensures c != '\n' && c != '\r' {
      var i :| 0 <= i < |e| && e[i] == c;
      if i < 7 + |p| + |caller| + 1 {
        if i >= 7 + |p| + |caller| {
          assert e[i] == ' ';
        } else if i >= 7 + |p| {
          assert e[i] == caller[i - 7 - |p|];
        } else if i >= 7 {
          assert e[i] == p[i - 7];
          if project != "" {
            assert p == "Project: " + project + " ";
            if 9 <= i - 7 < 9 + |project| {
              assert p[i - 7] == project[i - 16];
            }
          }
        }
      } else {
        assert e[i] == Scrub(details)[i - (7 + |p| + |caller| + 1)];
      }
    }
  }

  // ---------------------------------------------------------------------------------------
  // totals[key] += amount

  /** The increments applied one after the other. */
  function AddAll(totals: map<string, int>, incs: seq<Increment>): (t: map<string, int>)
    requires forall i :: 0 <= i < |incs| ==> incs[i].key in totals
    ensures t.Keys == totals.Keys
    decreases |incs|
  {
    if |incs| == 0 then totals
    else
      var k := incs[0].key;
      AddAll(totals[k := totals[k] + incs[0].amount], incs[1..])
  }

  /** The sum of the amounts added to `key`. */
  function AmountFor(key: string, incs: seq<Increment>): nat {
    if |incs| == 0 then 0
    else (if incs[0].key == key then incs[0].amount else 0) + AmountFor(key, incs[1..])
  }

  /** After the increments, every key holds its old value plus what was added to it; keys
      not named are unchanged. */
  lemma {:induction false} AddAllSums(totals: map<string, int>, incs: seq<Increment>)
    requires forall i :: 0 <= i < |incs| ==> incs[i].key in totals
    ensures forall k :: k in totals ==> AddAll(totals, incs)[k] == totals[k] + AmountFor(k, incs)
    decreases |incs|
  {
    if |incs| > 0 {
      var k0 := incs[0].key;
      var t1 := totals[k0 := totals[k0] + incs[0].amount];
      AddAllSums(t1, incs[1..]);
    }
  }

  lemma {:induction false} AmountForAppend(key: string, a: seq<Increment>, b: seq<Increment>)
    ensures AmountFor(key, a + b) == AmountFor(key, a) + AmountFor(key, b)
    decreases |a|
  {
    if |a| > 0 {
      assert (a + b)[1..] == a[1..] + b;
      AmountForAppend(key, a[1..], b);
    } else {
      assert a + b == b;
    }
  }

  lemma {:induction false} AmountForRemove(key: string, s: seq<Increment>, j: nat)
    requires j < |s|
    ensures AmountFor(key, s) == AmountFor(key, s[..j] + s[j + 1..]) + (if s[j].key == key then s[j].amount else 0)
  {
    assert s == s[..j] + ([s[j]] + s[j + 1..]);
    AmountForAppend(key, s[..j], [s[j]] + s[j + 1..]);
    AmountForAppend(key, s[..j], s[j + 1..]);
    assert ([s[j]] + s[j + 1..])[1..] == s[j + 1..];
  }

  lemma MultisetRemove(b: seq<Increment>, j: nat)
    requires j < |b|
    ensures multiset(b[..j] + b[j + 1..]) == multiset(b) - multiset{b[j]}
  {
    assert b == b[..j] + [b[j]] + b[j + 1..];
  }

  lemma MultisetTail(a: seq<Increment>)
    requires |a| > 0
    ensures multiset(a[1..]) == multiset(a) - multiset{a[0]}
  {
    assert a == [a[0]] + a[1..];
  }

  /** The amount added to a key does not depend on the order the increments arrive in. */
  lemma {:induction false} AmountForPermutation(key: string, a: seq<Increment>, b: seq<Increment>)
    requires multiset(a) == multiset(b)
    ensures AmountFor(key, a) == AmountFor(key, b)
    decreases |a|
  {
    if |a| > 0 {
      assert a[0] in multiset(b);
      var j :| 0 <= j < |b| && b[j] == a[0];
      var b' := b[..j] + b[j + 1..];
      MultisetRemove(b, j);
      MultisetTail(a);
      AmountForPermutation(key, a[1..], b');
      AmountForRemove(key, b, j);
    } else {
      assert |b| == |multiset(b)| == 0;
    }
  }

  /** Applying the same increments in any order leaves the same totals. */
  lemma OrderIndependent(totals: map<string, int>, a: seq<Increment>, b: seq<Increment>)
    requires forall i :: 0 <= i < |a| ==> a[i].key in totals
    requires multiset(a) == multiset(b)
    ensures forall i :: 0 <= i < |b| ==> b[i].key in totals
    ensures AddAll(totals, a) == AddAll(totals, b)
  {
    forall i | 0 <= i < |b| ensures b[i].key in totals {
      assert b[i] in multiset(a);
    }
    AddAllSums(totals, a);
    AddAllSums(totals, b);
    forall k | k in totals ensures AddAll(totals, a)[k] == AddAll(totals, b)[k] {
      AmountForPermutation(k, a, b);
    }
  }

  // ---------------------------------------------------------------------------------------
  // progress_print and the totals update behind the gate

  predicate Passes(r: Report, verbose: bool) {
    r.count > 0 || verbose
  }

  function RowOf(r: Report, project: string): Row {
    Row(r.resourceType, r.count, project, r.region)
  }

  /** One gated report: `progress_print(...)` then the totals update, or nothing. */
  function Recorded(s: State, r: Report, project: string, verbose: bool): State
    requires forall i :: 0 <= i < |r.increments| ==> r.increments[i].key in s.totals
  {
    if Passes(r, verbose) then State(AddAll(s.totals, r.increments), s.totalsLog + [RowOf(r, project)], s.errorsLog)
    else s
  }

  function RecordedAll(s: State, reports: seq<Report>, project: string, verbose: bool): (t: State)
    requires HasKeys(s) && KnownReports(reports)
    ensures t.totals.Keys == s.totals.Keys
    decreases |reports|
  {
    if |reports| == 0 then s
    else
      assert KnownKeys(reports[0].increments);
      var s1 := Recorded(s, reports[0], project, verbose);
      assert KnownReports(reports[1..]) by {
        forall i | 0 <= i < |reports[1..]| ensures KnownKeys(reports[1..][i].increments) {
          assert reports[1..][i] == reports[i + 1];
        }
      }
      RecordedAll(s1, reports[1..], project, verbose)
  }

  /** A probe run: the error lines it logged, then its gated reports. */
  function Applied(s: State, o: Outcome, project: string, verbose: bool): State
    requires HasKeys(s) && KnownReports(if o.Finished? then o.reports else [])
  {
    var s1 := State(s.totals, s.totalsLog, s.errorsLog + o.errors);
    if o.Finished? then RecordedAll(s1, o.reports, project, verbose) else s1
  }

  /** The rows the gate lets through, in report order. */
  function PassedRows(reports: seq<Report>, project: string, verbose: bool): seq<Row> {
    if |reports| == 0 then []
    else (if Passes(reports[0], verbose) then [RowOf(reports[0], project)] else []) + PassedRows(reports[1..], project, verbose)
  }

  /** The increments of the reports the gate lets through. */
  function PassedIncrements(reports: seq<Report>, verbose: bool): seq<Increment> {
    if |reports| == 0 then []
    else (if Passes(reports[0], verbose) then reports[0].increments else []) + PassedIncrements(reports[1..], verbose)
  }

  lemma KnownTail(reports: seq<Report>)
    requires |reports| > 0 && KnownReports(reports)
    ensures KnownKeys(reports[0].increments) && KnownReports(reports[1..])
  {
    forall i | 0 <= i < |reports[1..]| ensures KnownKeys(reports[1..][i].increments) {
      assert reports[1..][i] == reports[i + 1];
    }
  }

  /** One gated report keeps the state valid, leaves the errors alone and adds its row and
      its amounts exactly when it passes the gate. */
  lemma RecordedOnce(s: State, r: Report, project: string, verbose: bool)
    requires Valid(s) && KnownKeys(r.increments)
    ensures var t := Recorded(s, r, project, verbose);
      var incs := if Passes(r, verbose) then r.increments else [];
      && Valid(t)
      && t.errorsLog == s.errorsLog
      && t.totalsLog == s.totalsLog + (if Passes(r, verbose) then [RowOf(r, project)] else [])
      && (forall k :: k in s.totals ==> t.totals[k] == s.totals[k] + AmountFor(k, incs))
  {
    AddAllSums(s.totals, r.increments);
    if !Passes(r, verbose) {
      assert s.totalsLog + [] == s.totalsLog;
    }
  }

  /** The gated reports keep the state valid, leave the errors alone and append the rows
      that pass. */
  lemma {:induction false} RecordedAllLogs(s: State, reports: seq<Report>, project: string, verbose: bool)
    requires Valid(s) && KnownReports(reports)
    ensures var t := RecordedAll(s, reports, project, verbose);
      && Valid(t)
      && t.totalsLog == s.totalsLog + PassedRows(reports, project, verbose)
      && t.errorsLog == s.errorsLog
    decreases |reports|
  {
    if |reports| == 0 {
      assert s.totalsLog + [] == s.totalsLog;
    } else {
      var r := reports[0];
      KnownTail(reports);
      var s1 := Recorded(s, r, project, verbose);
      RecordedOnce(s, r, project, verbose);
      assert RecordedAll(s, reports, project, verbose) == RecordedAll(s1, reports[1..], project, verbose);
      RecordedAllLogs(s1, reports[1..], project, verbose);
    }
  }

  /** The gated reports add, to every total, the amounts of the increments that pass. */
  lemma {:induction false} RecordedAllTotals(s: State, reports: seq<Report>, project: string, verbose: bool)
    requires Valid(s) && KnownReports(reports)
    ensures var t := RecordedAll(s, reports, project, verbose);
      forall k :: k in s.totals ==> t.totals[k] == s.totals[k] + AmountFor(k, PassedIncrements(reports, verbose))
    decreases |reports|
  {
    if |reports| > 0 {
      var r := reports[0];
      KnownTail(reports);
      var s1 := Recorded(s, r, project, verbose);
      RecordedOnce(s, r, project, verbose);
      var t := RecordedAll(s1, reports[1..], project, verbose);
      assert RecordedAll(s, reports, project, verbose) == t;
      RecordedAllTotals(s1, reports[1..], project, verbose);
      var first := if Passes(r, verbose) then r.increments else [];
      var rest := PassedIncrements(reports[1..], verbose);
      assert PassedIncrements(reports, verbose) == first + rest;
      forall k | k in s.totals ensures t.totals[k] == s.totals[k] + AmountFor(k, first + rest) {
        AmountForAppend(k, first, rest);
      }
    }
  }

  lemma RecordedAllEffect(s: State, reports: seq<Report>, project: string, verbose: bool)
    requires Valid(s) && KnownReports(reports)
    ensures var t := RecordedAll(s, reports, project, verbose);
      && Valid(t)
      && t.totalsLog == s.totalsLog + PassedRows(reports, project, verbose)
      && t.errorsLog == s.errorsLog
      && (forall k :: k in s.totals ==> t.totals[k] == s.totals[k] + AmountFor(k, PassedIncrements(reports, verbose)))
  {
    RecordedAllLogs(s, reports, project, verbose);
    RecordedAllTotals(s, reports, project, verbose);
  }

  /** A probe run appends exactly its error lines to `errors_log` and one row per report the
      gate lets through (count > 0 or verbose) to `totals_log`, in order; every total grows by
      the amounts those reports add to it, so no total decreases and keys no report names
      keep their value; the totals keep their keys and stay non-negative. */
  lemma AppliedEffect(s: State, o: Outcome, project: string, verbose: bool)
    requires Valid(s) && KnownReports(if o.Finished? then o.reports else [])
    ensures var t := Applied(s, o, project, verbose);
      var reports := if o.Finished? then o.reports else [];
      && Valid(t)
      && t.errorsLog == s.errorsLog + o.errors
      && t.totalsLog == s.totalsLog + PassedRows(reports, project, verbose)
      && (forall k :: k in s.totals ==> t.totals[k] == s.totals[k] + AmountFor(k, PassedIncrements(reports, verbose)))
      && (forall k :: k in s.totals ==> t.totals[k] >= s.totals[k])
  {
    var s1 := State(s.totals, s.totalsLog, s.errorsLog + o.errors);
    if o.Finished? {
      RecordedAllEffect(s1, o.reports, project, verbose);
    }
  }

  /** The shared state, updated in place by the probes. */
  class Aggregator {
    var totals: map<string, int>
    var totalsLog: seq<Row>
    var errorsLog: seq<string>

    constructor ()
      ensures Snapshot() == State(InitialTotals(), [], [])
    {
      totals := InitialTotals();
      totalsLog := [];
      errorsLog := [];
    }

    function Snapshot(): State
      reads this
    {
      State(totals, totalsLog, errorsLog)
    }

    /** `progress_print`: appends one row to `totals_log`. */
    method ProgressPrint(count: nat, resourceType: string, project: string, region: string)
      modifies this
      ensures totalsLog == old(totalsLog) + [Row(resourceType, count, project, region)]
      ensures totals == old(totals) && errorsLog == old(errorsLog)
    {
      totalsLog := totalsLog + [Row(resourceType, count, project, region)];
    }

    /** `error_print`: appends one line to `errors_log`. */
    method ErrorPrint(details: string, project: string, caller: string)
      modifies this
      ensures errorsLog == old(errorsLog) + [ErrorLine(details, project, caller)]
      ensures totals == old(totals) && totalsLog == old(totalsLog)
    {
      errorsLog := errorsLog + [ErrorLine(details, project, caller)];
    }

    /** `totals[key] += amount` for each increment, in order. */
    method AddToTotals(incs: seq<Increment>)
      requires forall i :: 0 <= i < |incs| ==> incs[i].key in totals
      modifies this
      ensures totals == AddAll(old(totals), incs)
      ensures totalsLog == old(totalsLog) && errorsLog == old(errorsLog)
    {
      for i := 0 to |incs|
        invariant totals.Keys == old(totals).Keys
        invariant AddAll(totals, incs[i..]) == AddAll(old(totals), incs)
        invariant totalsLog == old(totalsLog) && errorsLog == old(errorsLog)
      {
        assert incs[i..][1..] == incs[i + 1..];
        var k := incs[i].key;
        totals := totals[k := totals[k] + incs[i].amount];
      }
    }

    /** One report behind the gate. */
    method Record(r: Report, project: string, verbose: bool)
      requires forall i :: 0 <= i < |r.increments| ==> r.increments[i].key in totals
      modifies this
      ensures Snapshot() == Recorded(old(Snapshot()), r, project, verbose)
    {
      if r.count > 0 || verbose {
        ProgressPrint(r.count, r.resourceType, project, r.region);
        AddToTotals(r.increments);
      }
    }

    /** Logs a probe run's error lines, then records its reports in order. */
    method Apply(o: Outcome, project: string, verbose: bool)
      requires Valid(Snapshot()) && KnownReports(if o.Finished? then o.reports else [])
      modifies this
      ensures Snapshot() == Applied(old(Snapshot()), o, project, verbose)
      ensures Valid(Snapshot())
    {
      AppliedEffect(Snapshot(), o, project, verbose);
      LogErrors(o.errors);
      if o.Finished? {
        RecordAll(o.reports, project, verbose);
      }
    }

    /** The error lines a probe logged, appended in order. */
    method LogErrors(errors: seq<string>)
      modifies this
      ensures Snapshot() == State(old(totals), old(totalsLog), old(errorsLog) + errors)
    {
      for i := 0 to |errors|
        invariant Snapshot() == State(old(totals), old(totalsLog), old(errorsLog) + errors[..i])
      {
        errorsLog := errorsLog + [errors[i]];
        assert errors[..i + 1] == errors[..i] + [errors[i]];
      }
      assert errors[..|errors|] == errors;
    }

    /** The reports recorded one after the other. */
    method RecordAll(reports: seq<Report>, project: string, verbose: bool)
      requires Valid(Snapshot()) && KnownReports(reports)
      modifies this
      ensures Snapshot() == RecordedAll(old(Snapshot()), reports, project, verbose)
    {
      for i := 0 to |reports|
        invariant Valid(Snapshot())
        invariant RecordedAll(Snapshot(), reports[i..], project, verbose) == RecordedAll(old(Snapshot()), reports, project, verbose)
      {
        assert reports[i..][1..] == reports[i + 1..];
        KnownTail(reports[i..]);
        RecordedOnce(Snapshot(), reports[i], project, verbose);
        Record(reports[i], project, verbose);
      }
    }
  }
}
