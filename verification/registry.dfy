/** Registry container images: `get_gcp_gcr_images`, which lists the DOCKER repositories of a
    region and then counts the images of each. */
module Registry {
  import opened Common
  import opened Text
  import opened Paging
  import opened Ledger

  /** A repository of the listing: its full resource name and its `format`. */
  datatype Repository = Repository(name: string, format: string)

  /** A Docker image: its `tags`, None when the key is absent. */
  datatype DockerImage = DockerImage(tags: Option<seq<string>>)

  /** The project's Artifact Registry: the repository listing under each region path, and the
      image listing under each repository path. */
  datatype Service = Service(repositories: string -> Listing<Repository>, images: string -> Listing<DockerImage>)

  /** The most images one repository can contribute. */
  const RepositoryCap: nat := 10000

  function RegionPath(projectId: string, region: string): string {
    "projects" + "/" + projectId + "/" + "locations" + "/" + region
  }

  function RepositoryPath(projectId: string, region: string, repository: string): string {
    RegionPath(projectId, region) + "/" + "repositories" + "/" + repository
  }

  /** Joining a part before the rest puts one separator between them. */
  lemma JoinCons(a: string, rest: seq<string>, sep: char)
    requires |rest| >= 1
    ensures Join([a] + rest, sep) == a + [sep] + Join(rest, sep)
  {
    assert ([a] + rest)[1..] == rest;
  }

  function PathParts(projectId: string, region: string, repository: string): seq<string> {
    ["projects", projectId, "locations", region, "repositories", repository]
  }

  lemma JoinSix(a: string, b: string, c: string, d: string, e: string, f: string)
    ensures Join([a, b, c, d, e, f], '/') == a + "/" + b + "/" + c + "/" + d + "/" + e + "/" + f
  {
    JoinCons(e, [f], '/');
    JoinCons(d, [e, f], '/');
    JoinCons(c, [d, e, f], '/');
    JoinCons(b, [c, d, e, f], '/');
    JoinCons(a, [b, c, d, e, f], '/');
    assert [a, b, c, d, e, f] == [a] + [b, c, d, e, f];
    assert [b, c, d, e, f] == [b] + [c, d, e, f];
    assert [c, d, e, f] == [c] + [d, e, f];
    assert [d, e, f] == [d] + [e, f];
    assert [e, f] == [e] + [f];
  }

  lemma RepositoryPathIsJoin(projectId: string, region: string, repository: string)
    ensures RepositoryPath(projectId, region, repository) == Join(PathParts(projectId, region, repository), '/')
  {
    JoinSix("projects", projectId, "locations", region, "repositories", repository);
  }

  /** The repository path splits back into the project, the region and the repository, as
      long as none of them holds a '/'. */
  lemma RepositoryPathParts(projectId: string, region: string, repository: string)
    requires '/' !in projectId && '/' !in region && '/' !in repository
    ensures Split(RepositoryPath(projectId, region, repository), '/') == PathParts(projectId, region, repository)
  {
    var parts := PathParts(projectId, region, repository);
    RepositoryPathIsJoin(projectId, region, repository);
    assert Separates(parts, '/') by {
      assert '/' !in "projects" && '/' !in "locations" && '/' !in "repositories";
    }
    SplitJoin(parts, '/');
  }

  // ---------------------------------------------------------------------------------------
  // The repositories: DOCKER only, named by the last segment of their resource name

  function Collect(ids: seq<string>, r: Repository): Step<seq<string>> {
    if r.format == "DOCKER" then Continue(ids + [LastSegment(r.name)]) else Continue(ids)
  }

  function CollectStep(): (seq<string>, Repository) -> Step<seq<string>> {
    (ids: seq<string>, r: Repository) => Collect(ids, r)
  }

  /** The short names of the DOCKER repositories, in order. */
  function DockerIds(rs: seq<Repository>): seq<string> {
    if |rs| == 0 then [] else (if rs[0].format == "DOCKER" then [LastSegment(rs[0].name)] else []) + DockerIds(rs[1..])
  }

  /** Repository `j` is a DOCKER one whose name ends in `id`. */
  ghost predicate NamedDocker(rs: seq<Repository>, j: int, id: string) {
    0 <= j < |rs| && rs[j].format == "DOCKER" && LastSegment(rs[j].name) == id
  }

  lemma {:induction false} CollectFold(ids: seq<string>, rs: seq<Repository>)
    ensures Fold(ids, rs, CollectStep()) == Continue(ids + DockerIds(rs))
    decreases |rs|
  {
    if |rs| == 0 {
      assert ids + [] == ids;
    } else {
      var head := if rs[0].format == "DOCKER" then [LastSegment(rs[0].name)] else [];
      assert Collect(ids, rs[0]).acc == ids + head;
      CollectFold(ids + head, rs[1..]);
      assert (ids + head) + DockerIds(rs[1..]) == ids + (head + DockerIds(rs[1..]));
    }
  }

  /** The scanned repositories are exactly the DOCKER ones, by the last segment of their name. */
  lemma {:induction false} DockerIdsExactly(rs: seq<Repository>, id: string)
    ensures id in DockerIds(rs) <==> exists j :: NamedDocker(rs, j, id)
    ensures |DockerIds(rs)| <= |rs|
    decreases |rs|
  {
    if |rs| > 0 {
      var head := if rs[0].format == "DOCKER" then [LastSegment(rs[0].name)] else [];
      assert DockerIds(rs) == head + DockerIds(rs[1..]);
      assert id in DockerIds(rs) <==> id in head || id in DockerIds(rs[1..]);
      DockerIdsExactly(rs[1..], id);
      if id in head {
        assert NamedDocker(rs, 0, id);
      }
      if exists j :: NamedDocker(rs[1..], j, id) {
        var j :| NamedDocker(rs[1..], j, id);
        assert NamedDocker(rs, j + 1, id);
      }
      if exists j :: NamedDocker(rs, j, id) {
        var j :| NamedDocker(rs, j, id);
        if j > 0 {
          assert NamedDocker(rs[1..], j - 1, id);
        } else {
          assert id in head;
        }
      }
    }
  }

  // ---------------------------------------------------------------------------------------
  // The images of one repository

  /** What an image adds: its number of tags up to `maxTags`, or 1 when it has no `tags`. */
  function ImageCount(maxTags: nat, image: DockerImage): nat {
    match image.tags
    case Some(tags) => Min(maxTags, |tags|)
    case None => 1
  }

  function ImageCounter(maxTags: nat): DockerImage -> nat {
    (image: DockerImage) => ImageCount(maxTags, image)
  }

  /** The image walk of each repository of the region. */
  function ImageWalks(svc: Service, projectId: string, region: string, maxTags: nat): string -> Walked<nat> {
    (repository: string) =>
      Walk<DockerImage, nat>(svc.images(RepositoryPath(projectId, region, repository)), 0, Each(Adding(ImageCounter(maxTags))))
  }

  /** What one repository contributes: its image count, capped. */
  function Capped(walks: string -> Walked<nat>): string -> nat {
    (repository: string) => Min(walks(repository).acc, RepositoryCap)
  }

  /** The `for repository in repositories` loop, adding to `total`: None when an image listing
      raises. */
  function CountFrom(walks: string -> Walked<nat>, repositories: seq<string>, total: nat): Option<nat>
    decreases |repositories|
  {
    if |repositories| == 0 then Some(total)
    else
      var w := walks(repositories[0]);
      if !w.completed then None
      else CountFrom(walks, repositories[1..], total + Min(w.acc, RepositoryCap))
  }

  /** Every image listing of the repositories completes. */
  ghost predicate AllComplete(walks: string -> Walked<nat>, repositories: seq<string>) {
    forall k :: 0 <= k < |repositories| ==> walks(repositories[k]).completed
  }

  function Probe(svc: Service, projectId: string, region: string, maxTags: nat): Outcome {
    var w := Walk(svc.repositories(RegionPath(projectId, region)), [], Each(CollectStep()));
    if !w.completed then Raised([])
    else
      match CountFrom(ImageWalks(svc, projectId, region, maxTags), w.acc, 0)
      case None => Raised([])
      case Some(n) => Finished([], [Report("Registry Container Images [GAR]", n, region, [Increment("Registry Container Images", n)])])
  }

  // ---------------------------------------------------------------------------------------
  // Properties

  /** An image adds at most `maxTags` (which is at least 1): the per-image tag cap. */
  lemma ImageCountBound(maxTags: nat, image: DockerImage)
    requires 1 <= maxTags
    ensures ImageCount(maxTags, image) <= maxTags
    ensures image.tags.Some? ==> ImageCount(maxTags, image) <= |image.tags.value|
  {
  }

  /** A repository adds what its images received add, at most `maxTags` each, and never more
      than the cap. */
  lemma RepositoryBound(svc: Service, projectId: string, region: string, maxTags: nat, repository: string)
    requires 1 <= maxTags
    ensures var listing := svc.images(RepositoryPath(projectId, region, repository));
      var w := ImageWalks(svc, projectId, region, maxTags)(repository);
      && w.acc == Sum(Received(listing, w), ImageCounter(maxTags))
      && w.acc <= maxTags * |Received(listing, w)|
      && Capped(ImageWalks(svc, projectId, region, maxTags))(repository) <= RepositoryCap
  {
    var listing := svc.images(RepositoryPath(projectId, region, repository));
    var w := ImageWalks(svc, projectId, region, maxTags)(repository);
    WalkSums(listing, ImageCounter(maxTags));
    var images := Received(listing, w);
    forall i | 0 <= i < |images| ensures ImageCounter(maxTags)(images[i]) <= maxTags {
      ImageCountBound(maxTags, images[i]);
    }
    SumBound(images, ImageCounter(maxTags), maxTags);
  }

  /** The repository loop yields a total exactly when every image listing completes, and
      then it is the sum of the capped per-repository counts: at most the cap per repository. */
  lemma {:induction false} CountFromSum(walks: string -> Walked<nat>, repositories: seq<string>, total: nat)
    ensures var r := CountFrom(walks, repositories, total);
      && (r.Some? <==> AllComplete(walks, repositories))
      && (r.Some? ==> r.value == total + Sum(repositories, Capped(walks)))
      && (r.Some? ==> r.value <= total + RepositoryCap * |repositories|)
    decreases |repositories|
  {
    if |repositories| > 0 {
      var w := walks(repositories[0]);
      var rest := repositories[1..];
      CountFromSum(walks, rest, total + Min(w.acc, RepositoryCap));
      assert AllComplete(walks, repositories) <==> w.completed && AllComplete(walks, rest) by {
        assert forall k :: 0 <= k < |rest| ==> rest[k] == repositories[k + 1];
        if w.completed && AllComplete(walks, rest) {
          forall k | 0 <= k < |repositories| ensures walks(repositories[k]).completed {
            if k > 0 {
              assert repositories[k] == rest[k - 1];
            }
          }
        }
      }
      assert RepositoryCap * |repositories| == RepositoryCap + RepositoryCap * |rest|;
    }
  }

  /** The probe scans exactly the DOCKER repositories received (by the last segment of their
      name); it reports once every listing completes, with the sum of the per-repository
      counts, each capped at 10000, so at most 10000 per DOCKER repository. */
  lemma ProbeCounted(svc: Service, projectId: string, region: string, maxTags: nat)
    ensures var listing := svc.repositories(RegionPath(projectId, region));
      var w := Walk(listing, [], Each(CollectStep()));
      var ids := DockerIds(Received(listing, w));
      var walks := ImageWalks(svc, projectId, region, maxTags);
      var o := Probe(svc, projectId, region, maxTags);
      && w.acc == ids
      && (o.Finished? <==> w.completed && AllComplete(walks, ids))
      && (o.Finished? ==> o.reports == [Report("Registry Container Images [GAR]", Sum(ids, Capped(walks)), region,
                                              [Increment("Registry Container Images", Sum(ids, Capped(walks)))])])
      && (o.Finished? ==> o.reports[0].count <= RepositoryCap * |ids|)
  {
    var listing := svc.repositories(RegionPath(projectId, region));
    var w := Walk(listing, [], Each(CollectStep()));
    WalkFolds(listing, [], CollectStep());
    CollectFold([], Received(listing, w));
    CountFromSum(ImageWalks(svc, projectId, region, maxTags), w.acc, 0);
  }

  // ---------------------------------------------------------------------------------------
  // The probe as the script runs it

  method CountImages(svc: Service, projectId: string, region: string, maxTags: nat) returns (o: Outcome)
    ensures o == Probe(svc, projectId, region, maxTags)
  {
    var listing := svc.repositories(RegionPath(projectId, region));
    var step := Each(CollectStep());
    var replies := listing.replies;
    var repositories: seq<string> := [];
    var requests := 0;
    var more := true;
    while more
      invariant requests <= |replies|
      invariant more ==> WalkFrom(replies, requests, repositories, step) == Walk(listing, [], step)
      invariant !more ==> Walked(repositories, true, requests) == Walk(listing, [], step)
      decreases |replies| - requests
    {
      if requests >= |replies| {
        return Raised([]);
      }
      var response := replies[requests];
      requests := requests + 1;
      var items := Items(response);
      ghost var before := repositories;
      for k := 0 to |items|
        invariant Fold(repositories, items[k..], CollectStep()) == Fold(before, items, CollectStep())
      {
        assert items[k..][1..] == items[k + 1..];
        if items[k].format == "DOCKER" {
          repositories := repositories + [LastSegment(items[k].name)];
        }
      }
      more := response.nextPageToken;
    }
    var walks := ImageWalks(svc, projectId, region, maxTags);
    var total: nat := 0;
    for i := 0 to |repositories|
      invariant CountFrom(walks, repositories[i..], total) == CountFrom(walks, repositories, 0)
    {
      assert repositories[i..][1..] == repositories[i + 1..];
      var images := svc.images(RepositoryPath(projectId, region, repositories[i]));
      var w := Drain<DockerImage, nat>(images, 0, Each(Adding(ImageCounter(maxTags))));
      if !w.completed {
        return Raised([]);
      }
      total := total + Min(w.acc, RepositoryCap);
    }
    o := Finished([], [Report("Registry Container Images [GAR]", total, region, [Increment("Registry Container Images", total)])]);
  }
}
