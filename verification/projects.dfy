/** The projects to scan: `get_gcp_projects` (every ACTIVE project outside the excluded
    folders) and `get_gcp_projects_from_file` (the ids listed one per line, named by lookup). */
module Projects {
  import opened Common
  import opened Text
  import opened Paging
  import opened Order
  import opened Ledger

  /** A project of the resource manager listing: its id, `lifecycleState`, the id of its
      `parent` (None when absent) and its `name` (None when absent). */
  datatype Project = Project(projectId: string, lifecycleState: string, parent: Option<string>, name: Option<string>)

  /** A project to scan, `[project_id, project_name]`. */
  datatype Entry = Entry(id: string, name: string)

  function EntryId(e: Entry): string {
    e.id
  }

  /** Sorting by id, as `sorted(gcp_projects, key=lambda p: p[0])`. */
  function ById(entries: seq<Entry>): (r: seq<Entry>)
    ensures multiset(r) == multiset(entries)
    ensures SortedBy(r, EntryId)
  {
    SortBySorted(entries, EntryId);
    SortBy(entries, EntryId)
  }

  // ---------------------------------------------------------------------------------------
  // get_gcp_projects

  predicate Accepts(excluded: seq<string>, p: Project) {
    p.lifecycleState == "ACTIVE" && (p.parent.Some? ==> p.parent.value !in excluded)
  }

  function EntryOf(p: Project): Entry {
    Entry(p.projectId, p.name.GetOr("UNNAMED"))
  }

  function Select(excluded: seq<string>, acc: seq<Entry>, p: Project): Step<seq<Entry>> {
    if Accepts(excluded, p) then Continue(acc + [EntryOf(p)]) else Continue(acc)
  }

  function SelectStep(excluded: seq<string>): (seq<Entry>, Project) -> Step<seq<Entry>> {
    (acc: seq<Entry>, p: Project) => Select(excluded, acc, p)
  }

  /** The entries of the accepted projects, in listing order. */
  function Chosen(excluded: seq<string>, ps: seq<Project>): seq<Entry> {
    if |ps| == 0 then [] else (if Accepts(excluded, ps[0]) then [EntryOf(ps[0])] else []) + Chosen(excluded, ps[1..])
  }

  /** The projects, in id order, or None when a request of the listing raises (the script
      does not catch it). */
  function Listed(listing: Listing<Project>, excluded: seq<string>): Option<seq<Entry>> {
    var w := Walk(listing, [], Each(SelectStep(excluded)));
    if w.completed then Some(ById(w.acc)) else None
  }

  lemma {:induction false} SelectFold(excluded: seq<string>, acc: seq<Entry>, ps: seq<Project>)
    ensures Fold(acc, ps, SelectStep(excluded)) == Continue(acc + Chosen(excluded, ps))
    decreases |ps|
  {
    if |ps| == 0 {
      assert acc + [] == acc;
    } else {
      var head: seq<Entry> := if Accepts(excluded, ps[0]) then [EntryOf(ps[0])] else [];
      assert acc + [] == acc;
      assert SelectStep(excluded)(acc, ps[0]) == Continue(acc + head);
      SelectFold(excluded, acc + head, ps[1..]);
      assert (acc + head) + Chosen(excluded, ps[1..]) == acc + (head + Chosen(excluded, ps[1..]));
    }
  }

  /** Project `j` is accepted and gives the entry `e`. */
  ghost predicate Picked(excluded: seq<string>, ps: seq<Project>, j: int, e: Entry) {
    0 <= j < |ps| && Accepts(excluded, ps[j]) && e == EntryOf(ps[j])
  }

  lemma {:induction false} ChosenExactly(excluded: seq<string>, ps: seq<Project>, e: Entry)
    ensures e in Chosen(excluded, ps) <==> exists j :: Picked(excluded, ps, j, e)
    decreases |ps|
  {
    if |ps| > 0 {
      var head: seq<Entry> := if Accepts(excluded, ps[0]) then [EntryOf(ps[0])] else [];
      assert Chosen(excluded, ps) == head + Chosen(excluded, ps[1..]);
      ChosenExactly(excluded, ps[1..], e);
      if e in head {
        assert Picked(excluded, ps, 0, e);
      }
      if exists j :: Picked(excluded, ps[1..], j, e) {
        var j :| Picked(excluded, ps[1..], j, e);
        assert Picked(excluded, ps, j + 1, e);
      }
      if exists j :: Picked(excluded, ps, j, e) {
        var j :| Picked(excluded, ps, j, e);
        if j > 0 {
          assert Picked(excluded, ps[1..], j - 1, e);
        }
      }
    }
  }

  /** Once the listing completes, the result holds exactly the ACTIVE projects received whose
      parent (if any) is not an excluded folder, each as `[projectId, name or 'UNNAMED']`, each
      as often as it was listed, sorted by project id. */
  lemma ListedExactly(listing: Listing<Project>, excluded: seq<string>)
    ensures var w := Walk(listing, [], Each(SelectStep(excluded)));
      var ps := Received(listing, w);
      var r := Listed(listing, excluded);
      && (r.Some? <==> w.completed)
      && (r.Some? ==> && multiset(r.value) == multiset(Chosen(excluded, ps))
                      && SortedBy(r.value, EntryId)
                      && (forall e :: e in r.value <==> exists j :: Picked(excluded, ps, j, e)))
  {
    var w := Walk(listing, [], Each(SelectStep(excluded)));
    var ps := Received(listing, w);
    WalkFolds(listing, [], SelectStep(excluded));
    SelectFold(excluded, [], ps);
    assert [] + Chosen(excluded, ps) == Chosen(excluded, ps);
    if w.completed {
      var r := ById(w.acc);
      forall e ensures e in r <==> exists j :: Picked(excluded, ps, j, e) {
        ChosenExactly(excluded, ps, e);
        assert e in r <==> e in multiset(r);
      }
    }
  }

  /** `get_gcp_projects` after the client is built: the page loop, the filter and the sort. */
  method ListProjects(listing: Listing<Project>, excluded: seq<string>) returns (r: Option<seq<Entry>>)
    ensures r == Listed(listing, excluded)
  {
    var step := Each(SelectStep(excluded));
    var replies := listing.replies;
    var projects: seq<Entry> := [];
    var requests := 0;
    var more := true;
    while more
      invariant requests <= |replies|
      invariant more ==> WalkFrom(replies, requests, projects, step) == Walk(listing, [], step)
      invariant !more ==> Walked(projects, true, requests) == Walk(listing, [], step)
      decreases |replies| - requests
    {
      if requests >= |replies| {
        return None;
      }
      var response := replies[requests];
      requests := requests + 1;
      var items := Items(response);
      ghost var before := projects;
      for k := 0 to |items|
        invariant Fold(projects, items[k..], SelectStep(excluded)) == Fold(before, items, SelectStep(excluded))
      {
        assert items[k..][1..] == items[k + 1..];
        var p := items[k];
        if p.lifecycleState != "ACTIVE" {
          continue;
        }
        if p.parent.Some? && p.parent.value in excluded {
          continue;
        }
        projects := projects + [Entry(p.projectId, p.name.GetOr("UNNAMED"))];
      }
      more := response.nextPageToken;
    }
    r := Some(ById(projects));
  }

  // ---------------------------------------------------------------------------------------
  // get_gcp_projects_from_file

  /** What `f` gives for each id, concatenated in order. */
  function Collect<X>(ids: seq<string>, f: string -> seq<X>): seq<X> {
    if |ids| == 0 then [] else f(ids[0]) + Collect(ids[1..], f)
  }

  lemma {:induction false} CollectAppend<X>(ids: seq<string>, id: string, f: string -> seq<X>)
    ensures Collect(ids + [id], f) == Collect(ids, f) + f(id)
    decreases |ids|
  {
    var all := ids + [id];
    if |ids| == 0 {
      assert all[1..] == [];
    } else {
      assert all[0] == ids[0] && all[1..] == ids[1..] + [id];
      CollectAppend(ids[1..], id, f);
    }
  }

  /** A stripped line, kept when it is not empty. */
  function Kept(id: string): seq<string> {
    if |id| > 0 then [id] else []
  }

  /** The stripped non-blank lines, in order. */
  function NonBlank(lines: seq<string>): seq<string> {
    if |lines| == 0 then [] else Kept(Strip(lines[0])) + NonBlank(lines[1..])
  }

  /** Line `j` strips to the non-empty `id`. */
  ghost predicate LineGives(lines: seq<string>, j: int, id: string) {
    0 <= j < |lines| && Strip(lines[j]) == id && id != ""
  }

  lemma NonBlankCons(lines: seq<string>)
    requires |lines| > 0
    ensures NonBlank(lines) == Kept(Strip(lines[0])) + NonBlank(lines[1..])
  {
  }

  lemma {:induction false} NonBlankLength(lines: seq<string>)
    ensures |NonBlank(lines)| <= |lines|
    decreases |lines|
  {
    if |lines| > 0 {
      NonBlankCons(lines);
      NonBlankLength(lines[1..]);
    }
  }

  lemma {:induction false} NonBlankClean(lines: seq<string>)
    ensures var ids := NonBlank(lines);
      forall i :: 0 <= i < |ids| ==> ids[i] != "" && !IsSpace(ids[i][0]) && !IsSpace(ids[i][|ids[i]| - 1])
    decreases |lines|
  {
    if |lines| > 0 {
      var head := Kept(Strip(lines[0]));
      var rest := NonBlank(lines[1..]);
      NonBlankCons(lines);
      NonBlankClean(lines[1..]);
      forall i | 0 <= i < |head + rest|
        ensures (head + rest)[i] != "" && !IsSpace((head + rest)[i][0]) && !IsSpace((head + rest)[i][|(head + rest)[i]| - 1])
      {
        if i >= |head| {
          assert (head + rest)[i] == rest[i - |head|];
        }
      }
    }
  }

  lemma {:induction false} NonBlankMembers(lines: seq<string>, id: string)
    ensures id in NonBlank(lines) <==> exists j :: LineGives(lines, j, id)
    decreases |lines|
  {
    if |lines| > 0 {
      var head := Kept(Strip(lines[0]));
      NonBlankCons(lines);
      NonBlankMembers(lines[1..], id);
      if id in head {
        assert LineGives(lines, 0, id);
      }
      if exists j :: LineGives(lines[1..], j, id) {
        var j :| LineGives(lines[1..], j, id);
        assert LineGives(lines, j + 1, id);
      }
      if exists j :: LineGives(lines, j, id) {
        var j :| LineGives(lines, j, id);
        if j > 0 {
          assert LineGives(lines[1..], j - 1, id);
        }
      }
    }
  }

  /** The ids read are exactly the non-blank lines, stripped: none is empty or starts or ends
      with whitespace, and there are no more of them than lines. */
  lemma NonBlankIds(lines: seq<string>, id: string)
    ensures var ids := NonBlank(lines);
      && |ids| <= |lines|
      && (forall i :: 0 <= i < |ids| ==> ids[i] != "" && !IsSpace(ids[i][0]) && !IsSpace(ids[i][|ids[i]| - 1]))
      && (id in ids <==> exists j :: LineGives(lines, j, id))
  {
    NonBlankLength(lines);
    NonBlankClean(lines);
    NonBlankMembers(lines, id);
  }

  lemma {:induction false} NonBlankAppend(lines: seq<string>, line: string)
    ensures NonBlank(lines + [line]) == NonBlank(lines) + Kept(Strip(line))
    decreases |lines|
  {
    var all := lines + [line];
    if |lines| == 0 {
      assert all[1..] == [];
    } else {
      assert all[0] == lines[0] && all[1..] == lines[1..] + [line];
      NonBlankAppend(lines[1..], line);
    }
  }

  /** The `for line in f` loop: keeps each non-blank line, stripped. */
  method ReadProjectIds(lines: seq<string>) returns (ids: seq<string>)
    ensures ids == NonBlank(lines)
  {
    ids := [];
    for i := 0 to |lines|
      invariant ids == NonBlank(lines[..i])
    {
      assert lines[..i + 1] == lines[..i] + [lines[i]];
      NonBlankAppend(lines[..i], lines[i]);
      var id := Strip(lines[i]);
      if |id| > 0 {
        ids := ids + [id];
      }
    }
    assert lines[..|lines|] == lines;
  }

  /** The entry or the error line `id`'s lookup gives. */
  function NameOf(id: string, lookup: string -> Fetch<Option<string>>): seq<Entry> {
    match lookup(id)
    case Found(name) => [Entry(id, name.GetOr("UNNAMED"))]
    case Failed(_) => []
  }

  function ErrorOf(id: string, lookup: string -> Fetch<Option<string>>): seq<string> {
    match lookup(id)
    case Found(_) => []
    case Failed(m) => [ErrorLine(m, id, "get_gcp_projects_from_file()")]
  }

  function Naming(lookup: string -> Fetch<Option<string>>): string -> seq<Entry> {
    (id: string) => NameOf(id, lookup)
  }

  function Erring(lookup: string -> Fetch<Option<string>>): string -> seq<string> {
    (id: string) => ErrorOf(id, lookup)
  }

  /** The projects named by lookup, in file order; a failed lookup gives no entry. */
  function Named(ids: seq<string>, lookup: string -> Fetch<Option<string>>): seq<Entry> {
    Collect(ids, Naming(lookup))
  }

  /** The error lines of the failed lookups, in file order. */
  function NameErrors(ids: seq<string>, lookup: string -> Fetch<Option<string>>): seq<string> {
    Collect(ids, Erring(lookup))
  }

  lemma NamedAppend(ids: seq<string>, id: string, lookup: string -> Fetch<Option<string>>)
    ensures Named(ids + [id], lookup) == Named(ids, lookup) + NameOf(id, lookup)
    ensures NameErrors(ids + [id], lookup) == NameErrors(ids, lookup) + ErrorOf(id, lookup)
  {
    CollectAppend(ids, id, Naming(lookup));
    CollectAppend(ids, id, Erring(lookup));
  }

  /** Every id listed yields either an entry (named, or 'UNNAMED') or an error line, never
      both; entries keep the ids' order. */
  lemma {:induction false} NamedOrLogged(ids: seq<string>, lookup: string -> Fetch<Option<string>>)
    ensures |Named(ids, lookup)| + |NameErrors(ids, lookup)| == |ids|
    ensures forall i :: 0 <= i < |Named(ids, lookup)| ==> Named(ids, lookup)[i].id in ids
    ensures forall i :: 0 <= i < |ids| && lookup(ids[i]).Found? ==> Entry(ids[i], lookup(ids[i]).value.GetOr("UNNAMED")) in Named(ids, lookup)
    decreases |ids|
  {
    if |ids| > 0 {
      NamedOrLogged(ids[1..], lookup);
      var head: seq<Entry> := NameOf(ids[0], lookup);
      var rest: seq<Entry> := Named(ids[1..], lookup);
      var all: seq<Entry> := head + rest;
      assert Named(ids, lookup) == all;
      forall i | 0 <= i < |all| ensures all[i].id in ids {
        if i >= |head| {
          assert all[i] == rest[i - |head|];
          assert rest[i - |head|].id in ids[1..];
        }
      }
      forall i | 0 <= i < |ids| && lookup(ids[i]).Found?
        ensures Entry(ids[i], lookup(ids[i]).value.GetOr("UNNAMED")) in all
      {
        if i > 0 {
          assert ids[i] == ids[1..][i - 1];
        }
      }
    }
  }

  /** The lookup loop of `get_gcp_projects_from_file`: names each id or logs its failure. */
  method LookUpProjects(agg: Aggregator, ids: seq<string>, lookup: string -> Fetch<Option<string>>) returns (found: seq<Entry>)
    modifies agg
    ensures found == Named(ids, lookup)
    ensures agg.errorsLog == old(agg.errorsLog) + NameErrors(ids, lookup)
    ensures agg.totals == old(agg.totals) && agg.totalsLog == old(agg.totalsLog)
  {
    found := [];
    for i := 0 to |ids|
      invariant found == Named(ids[..i], lookup)
      invariant agg.errorsLog == old(agg.errorsLog) + NameErrors(ids[..i], lookup)
      invariant agg.totals == old(agg.totals) && agg.totalsLog == old(agg.totalsLog)
    {
      assert ids[..i + 1] == ids[..i] + [ids[i]];
      NamedAppend(ids[..i], ids[i], lookup);
      match lookup(ids[i]) {
        case Found(name) =>
          found := found + [Entry(ids[i], name.GetOr("UNNAMED"))];
        case Failed(m) =>
          agg.ErrorPrint(m, ids[i], "get_gcp_projects_from_file()");
      }
    }
    assert ids[..|ids|] == ids;
  }

  /** `get_gcp_projects_from_file` after the file is read: the ids, named or logged, sorted
      by id. */
  method ProjectsFromFile(agg: Aggregator, lines: seq<string>, lookup: string -> Fetch<Option<string>>) returns (entries: seq<Entry>)
    modifies agg
    ensures entries == ById(Named(NonBlank(lines), lookup))
    ensures agg.errorsLog == old(agg.errorsLog) + NameErrors(NonBlank(lines), lookup)
    ensures agg.totals == old(agg.totals) && agg.totalsLog == old(agg.totalsLog)
  {
    var ids := ReadProjectIds(lines);
    var found := LookUpProjects(agg, ids, lookup);
    entries := ById(found);
  }
}
