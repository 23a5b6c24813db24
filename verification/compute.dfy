/** Virtual machines and GKE nodes: `get_gce_instances_and_gke_instances` with
    `get_disk_image_details`, `tag_in_tags` and `label_in_labels`. */
module Compute {
  import opened Common
  import opened Text
  import opened Paging
  import opened Ledger

  datatype Disk = Disk(boot: bool, source: string)

  /** An instance of the aggregated list: its tags (empty when absent), the keys of its labels
      (empty when absent) and its disks (empty when absent). */
  datatype Instance = Instance(tags: map<string, string>, labels: seq<string>, disks: seq<Disk>)

  /** One zone's entry under a page's `items`: its instances (empty when absent). */
  datatype Zone = Zone(instances: seq<Instance>)

  /** A disk document, of which only `sourceImage` matters. */
  datatype DiskDetail = DiskDetail(sourceImage: Option<string>)

  /** An image document, of which only `description` and `family` matter. */
  datatype ImageDetail = ImageDetail(description: Option<string>, family: Option<string>)

  /** The project's compute service: the replies to the aggregated instance listing, and the
      answers of `disks().get(zone, disk)` and `images().get(project, image)`. */
  datatype Service = Service(
    instances: Listing<Zone>,
    disk: (string, string) -> Fetch<DiskDetail>,
    image: (string, string) -> Fetch<ImageDetail>)

  // ---------------------------------------------------------------------------------------
  // Classification

  /** `tag_in_tags`: whether the tags hold `key` with exactly `value`; no tags never match. */
  function TagInTags(key: string, value: string, tags: map<string, string>): (r: bool)
    ensures r <==> key in tags && tags[key] == value
  {
    if |tags| == 0 then false else key in tags && tags[key] == value
  }

  /** `label_in_labels`: whether `name` is one of the labels; no labels never match. */
  function LabelInLabels(name: string, labels: seq<string>): (r: bool)
    ensures r <==> name in labels
  {
    if |labels| == 0 then false else name in labels
  }

  predicate IsDatabricks(i: Instance) {
    TagInTags("Vendor", "Databricks", i.tags) || LabelInLabels("databricks", i.labels)
  }

  predicate IsGkeNode(i: Instance) {
    "goog-gke-node" in i.labels
  }

  /** A counted instance that is not a GKE node: only these have their disks examined. */
  predicate IsCompute(i: Instance) {
    !IsDatabricks(i) && !IsGkeNode(i)
  }

  // ---------------------------------------------------------------------------------------
  // get_disk_image_details

  /** The zone and name a disk is looked up by, `source.split('/')[-3]` and `[-1]`; None where
      the `[-3]` raises IndexError. */
  function DiskKey(source: string): (r: Option<(string, string)>)
    ensures r.Some? <==> |Split(source, '/')| >= 3
  {
    match PathSegment(source, 3)
    case None => None
    case Some(zone) => Some((zone, LastSegment(source)))
  }

  /** The project and name an image is looked up by, `sourceImage.split('/')[-4]` and `[-1]`;
      None where the `[-4]` raises IndexError. */
  function ImageKey(sourceImage: string): (r: Option<(string, string)>)
    ensures r.Some? <==> |Split(sourceImage, '/')| >= 4
  {
    match PathSegment(sourceImage, 4)
    case None => None
    case Some(project) => Some((project, LastSegment(sourceImage)))
  }

  /** A disk URL `.../zones/<zone>/disks/<name>` is looked up by its zone and name. */
  lemma DiskKeyOfPath(prefix: seq<string>, zone: string, name: string)
    requires Separates(prefix + [zone, "disks", name], '/')
    ensures DiskKey(Join(prefix + [zone, "disks", name], '/')) == Some((zone, name))
  {
    var parts := prefix + [zone, "disks", name];
    PathSegmentOfJoin(parts, 3);
    PathSegmentOfJoin(parts, 1);
  }

  /** An image URL `.../projects/<project>/global/images/<image>` is looked up by its project
      and image name. */
  lemma ImageKeyOfPath(prefix: seq<string>, project: string, image: string)
    requires Separates(prefix + [project, "global", "images", image], '/')
    ensures ImageKey(Join(prefix + [project, "global", "images", image], '/')) == Some((project, image))
  {
    var parts := prefix + [project, "global", "images", image];
    PathSegmentOfJoin(parts, 4);
    PathSegmentOfJoin(parts, 1);
  }

  /** What the `try` block of `get_disk_image_details` yields: the image document ({} when
      an exception was caught) and the error lines it logged. */
  datatype Lookup = Lookup(image: ImageDetail, errors: seq<string>)

  /** An exception caught by `get_disk_image_details`: {} and one error line. */
  function Caught(projectId: string, message: string): Lookup {
    Lookup(ImageDetail(None, None), [ErrorLine(message, projectId, "get_disk_image_details()")])
  }

  function LookUpImage(svc: Service, projectId: string, zone: string, name: string): Lookup {
    match svc.disk(zone, name)
    case Failed(m) => Caught(projectId, m)
    case Found(detail) =>
      match detail.sourceImage
      case None => Caught(projectId, "'sourceImage'")
      case Some(path) =>
        match ImageKey(path)
        case None => Caught(projectId, "list index out of range")
        case Some(key) =>
          match svc.image(key.0, key.1)
          case Failed(m) => Caught(projectId, m)
          case Found(image) => Lookup(image, [])
  }

  /** The Linux test: neither the description nor the family, each 'UNKNOWN' when absent,
      contains "win" once lower-cased. */
  predicate IsLinux(image: ImageDetail) {
    && !Contains(Lower(image.description.GetOr("UNKNOWN")), "win")
    && !Contains(Lower(image.family.GetOr("UNKNOWN")), "win")
  }

  /** The Linux test, stated through positions: "win" occurs nowhere in either lower-cased field. */
  lemma IsLinuxIff(image: ImageDetail)
    ensures IsLinux(image) <==>
      && (forall i :: !OccursAt(Lower(image.description.GetOr("UNKNOWN")), "win", i))
      && (forall i :: !OccursAt(Lower(image.family.GetOr("UNKNOWN")), "win", i))
  {
    ContainsOccurrence(Lower(image.description.GetOr("UNKNOWN")), "win");
    ContainsOccurrence(Lower(image.family.GetOr("UNKNOWN")), "win");
  }

  /** An image whose family mentions Windows, in any case, is not Linux. */
  lemma WindowsFamilyIsNotLinux(description: Option<string>)
    ensures !IsLinux(ImageDetail(description, Some("WINdows-2022")))
  {
    var f := Lower("WINdows-2022");
    assert f[0..3] == "win";
    assert OccursAt(f, "win", 0);
    ContainsOccurrence(f, "win");
  }

  lemma StartsOtherThanWin(s: string)
    requires |s| >= 3 && s[0] != 'w'
    ensures s[..3] != "win"
  {
    assert s[..3][0] == s[0];
  }

  /** An image document without description or family (also what a caught exception leaves)
      counts as Linux. */
  lemma UnknownIsLinux()
    ensures IsLinux(ImageDetail(None, None))
  {
    var u := Lower("UNKNOWN");
    assert u == "unknown";
    assert !Contains("wn", "win");
    assert "own"[1..] == "wn";
    StartsOtherThanWin("own");
    assert !Contains("own", "win");
    assert "nown"[1..] == "own";
    StartsOtherThanWin("nown");
    assert !Contains("nown", "win");
    assert "known"[1..] == "nown";
    StartsOtherThanWin("known");
    assert !Contains("known", "win");
    assert "nknown"[1..] == "known";
    StartsOtherThanWin("nknown");
    assert !Contains("nknown", "win");
    assert "unknown"[1..] == "nknown";
    StartsOtherThanWin("unknown");
  }

  // ---------------------------------------------------------------------------------------
  // The counting loop, as a specification

  /** `instances_count`, `gke_instances_count`, `non_os_disks_count`, `linux_instances_count`
      and the error lines logged so far. */
  datatype Tally = Tally(instances: nat, gke: nat, nonOsDisks: nat, linux: nat, errors: seq<string>)

  const Zero := Tally(0, 0, 0, 0, [])

  /** One disk of a compute instance; a boot disk whose source path is too short raises. */
  function OnDisk(svc: Service, projectId: string, t: Tally, d: Disk): Step<Tally> {
    if !d.boot then Continue(t.(nonOsDisks := t.nonOsDisks + 1))
    else
      match DiskKey(d.source)
      case None => Abort(t)
      case Some(key) =>
        var l := LookUpImage(svc, projectId, key.0, key.1);
        Continue(t.(linux := t.linux + (if IsLinux(l.image) then 1 else 0), errors := t.errors + l.errors))
  }

  function DiskStep(svc: Service, projectId: string): (Tally, Disk) -> Step<Tally> {
    (t: Tally, d: Disk) => OnDisk(svc, projectId, t, d)
  }

  function OnInstance(svc: Service, projectId: string, t: Tally, i: Instance): Step<Tally> {
    if IsDatabricks(i) then Continue(t)
    else if IsGkeNode(i) then Continue(t.(instances := t.instances + 1, gke := t.gke + 1))
    else Fold(t.(instances := t.instances + 1), i.disks, DiskStep(svc, projectId))
  }

  function InstanceStep(svc: Service, projectId: string): (Tally, Instance) -> Step<Tally> {
    (t: Tally, i: Instance) => OnInstance(svc, projectId, t, i)
  }

  function ZoneStep(svc: Service, projectId: string): (Tally, Zone) -> Step<Tally> {
    (t: Tally, z: Zone) => Fold(t, z.instances, InstanceStep(svc, projectId))
  }

  /** The outcome of the probe: raised when the listing or a disk path raised, otherwise the
      error lines and the two gated reports. */
  function VmOutcome(w: Walked<Tally>): Outcome {
    var t := w.acc;
    if !w.completed then Raised(t.errors)
    else Finished(t.errors, [
      Report("Virtual Machines [Compute]", t.instances, "",
        [Increment("Virtual Machines", t.instances), Increment("Non-OS Disks", t.nonOsDisks),
         Increment("Virtual Machine Sensors", t.linux)]),
      Report("Container Hosts [GKE]", t.gke, "",
        [Increment("Container Hosts", t.gke), Increment("Kubernetes Sensors", t.gke)])])
  }

  function Probe(svc: Service, projectId: string): Outcome {
    VmOutcome(Walk(svc.instances, Zero, Each(ZoneStep(svc, projectId))))
  }

  /** The probe reports only to keys `totals` has. */
  lemma ProbeKnown(svc: Service, projectId: string)
    ensures var o := Probe(svc, projectId);
      KnownReports(if o.Finished? then o.reports else [])
  {
    var w := Walk(svc.instances, Zero, Each(ZoneStep(svc, projectId)));
    var o := VmOutcome(w);
    if o.Finished? {
      assert "Virtual Machines" == TotalKeys[0] && "Non-OS Disks" == TotalKeys[7];
      assert "Container Hosts" == TotalKeys[1] && "Kubernetes Sensors" == TotalKeys[9];
      assert "Virtual Machine Sensors" == TotalKeys[10];
      assert KnownKeys(o.reports[0].increments);
      assert KnownKeys(o.reports[1].increments);
    }
  }

  // ---------------------------------------------------------------------------------------
  // Reference counts over the instances received

  function AllInstances(zones: seq<Zone>): seq<Instance> {
    if |zones| == 0 then [] else zones[0].instances + AllInstances(zones[1..])
  }

  function NonBoot(ds: seq<Disk>): nat {
    if |ds| == 0 then 0 else (if ds[0].boot then 0 else 1) + NonBoot(ds[1..])
  }

  /** The boot disks with a usable path whose image passes the Linux test. */
  function LinuxBoots(svc: Service, projectId: string, ds: seq<Disk>): nat {
    if |ds| == 0 then 0
    else
      var here := if ds[0].boot && DiskKey(ds[0].source).Some? then
        var key := DiskKey(ds[0].source).value;
        if IsLinux(LookUpImage(svc, projectId, key.0, key.1).image) then 1 else 0
      else 0;
      here + LinuxBoots(svc, projectId, ds[1..])
  }

  function LookupErrors(svc: Service, projectId: string, ds: seq<Disk>): seq<string> {
    if |ds| == 0 then []
    else
      var here := if ds[0].boot && DiskKey(ds[0].source).Some? then
        var key := DiskKey(ds[0].source).value;
        LookUpImage(svc, projectId, key.0, key.1).errors
      else [];
      here + LookupErrors(svc, projectId, ds[1..])
  }

  /** Some boot disk has a source path too short for `split('/')[-3]`. */
  ghost predicate Malformed(ds: seq<Disk>) {
    exists k :: 0 <= k < |ds| && ds[k].boot && DiskKey(ds[k].source).None?
  }

  function Counted(vms: seq<Instance>): nat {
    if |vms| == 0 then 0 else (if IsDatabricks(vms[0]) then 0 else 1) + Counted(vms[1..])
  }

  function Nodes(vms: seq<Instance>): nat {
    if |vms| == 0 then 0 else (if !IsDatabricks(vms[0]) && IsGkeNode(vms[0]) then 1 else 0) + Nodes(vms[1..])
  }

  function NonOsDisks(vms: seq<Instance>): nat {
    if |vms| == 0 then 0 else (if IsCompute(vms[0]) then NonBoot(vms[0].disks) else 0) + NonOsDisks(vms[1..])
  }

  function LinuxSensors(svc: Service, projectId: string, vms: seq<Instance>): nat {
    if |vms| == 0 then 0
    else (if IsCompute(vms[0]) then LinuxBoots(svc, projectId, vms[0].disks) else 0) + LinuxSensors(svc, projectId, vms[1..])
  }

  function Errors(svc: Service, projectId: string, vms: seq<Instance>): seq<string> {
    if |vms| == 0 then []
    else (if IsCompute(vms[0]) then LookupErrors(svc, projectId, vms[0].disks) else []) + Errors(svc, projectId, vms[1..])
  }

  ghost predicate AnyMalformed(vms: seq<Instance>) {
    exists k :: 0 <= k < |vms| && IsCompute(vms[k]) && Malformed(vms[k].disks)
  }

  lemma MalformedCons(ds: seq<Disk>)
    requires |ds| > 0
    ensures Malformed(ds) <==> (ds[0].boot && DiskKey(ds[0].source).None?) || Malformed(ds[1..])
  {
    if Malformed(ds) {
      var k :| 0 <= k < |ds| && ds[k].boot && DiskKey(ds[k].source).None?;
      if k > 0 {
        assert ds[1..][k - 1] == ds[k];
      }
    }
    if Malformed(ds[1..]) {
      var k :| 0 <= k < |ds[1..]| && ds[1..][k].boot && DiskKey(ds[1..][k].source).None?;
      assert ds[k + 1] == ds[1..][k];
    }
  }

  lemma AnyMalformedCons(vms: seq<Instance>)
    requires |vms| > 0
    ensures AnyMalformed(vms) <==> (IsCompute(vms[0]) && Malformed(vms[0].disks)) || AnyMalformed(vms[1..])
  {
    if AnyMalformed(vms) {
      var k :| 0 <= k < |vms| && IsCompute(vms[k]) && Malformed(vms[k].disks);
      if k > 0 {
        assert vms[1..][k - 1] == vms[k];
      }
    }
    if AnyMalformed(vms[1..]) {
      var k :| 0 <= k < |vms[1..]| && IsCompute(vms[1..][k]) && Malformed(vms[1..][k].disks);
      assert vms[k + 1] == vms[1..][k];
    }
  }

  /** The lookup errors one disk contributes. */
  function DiskErrors(svc: Service, projectId: string, d: Disk): seq<string> {
    if d.boot && DiskKey(d.source).Some? then
      var key := DiskKey(d.source).value;
      LookUpImage(svc, projectId, key.0, key.1).errors
    else []
  }

  /** The Linux sensors one disk contributes. */
  function DiskLinux(svc: Service, projectId: string, d: Disk): nat {
    if d.boot && DiskKey(d.source).Some? then
      var key := DiskKey(d.source).value;
      if IsLinux(LookUpImage(svc, projectId, key.0, key.1).image) then 1 else 0
    else 0
  }

  /** What one disk adds to the tally, and how the reference counts split at the first disk. */
  lemma DiskOnce(svc: Service, projectId: string, t: Tally, ds: seq<Disk>)
    requires |ds| > 0
    ensures var r := OnDisk(svc, projectId, t, ds[0]);
      && (r.Abort? <==> ds[0].boot && DiskKey(ds[0].source).None?)
      && NonBoot(ds) == (if ds[0].boot then 0 else 1) + NonBoot(ds[1..])
      && LinuxBoots(svc, projectId, ds) == DiskLinux(svc, projectId, ds[0]) + LinuxBoots(svc, projectId, ds[1..])
      && LookupErrors(svc, projectId, ds) == DiskErrors(svc, projectId, ds[0]) + LookupErrors(svc, projectId, ds[1..])
      && (r.Continue? ==> r.acc == t.(
            nonOsDisks := t.nonOsDisks + (if ds[0].boot then 0 else 1),
            linux := t.linux + DiskLinux(svc, projectId, ds[0]),
            errors := t.errors + DiskErrors(svc, projectId, ds[0])))
  {
    if !ds[0].boot {
      assert t.errors + [] == t.errors;
    }
  }

  /** The disk loop raises exactly when some boot disk's path is malformed. */
  lemma {:induction false} DisksAbort(svc: Service, projectId: string, t: Tally, ds: seq<Disk>)
    ensures Fold(t, ds, DiskStep(svc, projectId)).Abort? <==> Malformed(ds)
    decreases |ds|
  {
    if |ds| > 0 {
      var d := ds[0];
      var f := DiskStep(svc, projectId);
      assert f(t, d) == OnDisk(svc, projectId, t, d);
      DiskOnce(svc, projectId, t, ds);
      MalformedCons(ds);
      if !(d.boot && DiskKey(d.source).None?) {
        DisksAbort(svc, projectId, OnDisk(svc, projectId, t, d).acc, ds[1..]);
      }
    }
  }

  /** Adding disk counts in two steps adds their sums. */
  lemma DiskTallies(t: Tally, t1: Tally, n: nat, l: nat, e: seq<string>, n': nat, l': nat, e': seq<string>)
    requires t1 == t.(nonOsDisks := t.nonOsDisks + n, linux := t.linux + l, errors := t.errors + e)
    ensures t1.(nonOsDisks := t1.nonOsDisks + n', linux := t1.linux + l', errors := t1.errors + e')
      == t.(nonOsDisks := t.nonOsDisks + (n + n'), linux := t.linux + (l + l'), errors := t.errors + (e + e'))
  {
    assert t.errors + e + e' == t.errors + (e + e');
  }

  /** When the disk loop finishes, it has added the reference counts and error lines. */
  lemma {:induction false} DisksAdd(svc: Service, projectId: string, t: Tally, ds: seq<Disk>)
    ensures var r := Fold(t, ds, DiskStep(svc, projectId));
      r.Continue? ==> r.acc == t.(nonOsDisks := t.nonOsDisks + NonBoot(ds),
                                  linux := t.linux + LinuxBoots(svc, projectId, ds),
                                  errors := t.errors + LookupErrors(svc, projectId, ds))
    decreases |ds|
  {
    if |ds| == 0 {
      assert t.errors + [] == t.errors;
    } else {
      var d := ds[0];
      var f := DiskStep(svc, projectId);
      assert f(t, d) == OnDisk(svc, projectId, t, d);
      DiskOnce(svc, projectId, t, ds);
      if !(d.boot && DiskKey(d.source).None?) {
        var t1 := OnDisk(svc, projectId, t, d).acc;
        assert Fold(t, ds, f) == Fold(t1, ds[1..], f);
        DisksAdd(svc, projectId, t1, ds[1..]);
        DiskTallies(t, t1, if d.boot then 0 else 1, DiskLinux(svc, projectId, d), DiskErrors(svc, projectId, d),
          NonBoot(ds[1..]), LinuxBoots(svc, projectId, ds[1..]), LookupErrors(svc, projectId, ds[1..]));
      }
    }
  }

  lemma DisksFold(svc: Service, projectId: string, t: Tally, ds: seq<Disk>)
    ensures var r := Fold(t, ds, DiskStep(svc, projectId));
      && (r.Abort? <==> Malformed(ds))
      && (r.Continue? ==> r.acc == t.(nonOsDisks := t.nonOsDisks + NonBoot(ds),
                                      linux := t.linux + LinuxBoots(svc, projectId, ds),
                                      errors := t.errors + LookupErrors(svc, projectId, ds)))
  {
    DisksAbort(svc, projectId, t, ds);
    DisksAdd(svc, projectId, t, ds);
  }

  /** What one instance adds to the tally. */
  lemma InstanceOnce(svc: Service, projectId: string, t: Tally, i: Instance)
    ensures var r := OnInstance(svc, projectId, t, i);
      && (r.Abort? <==> IsCompute(i) && Malformed(i.disks))
      && (r.Continue? ==> r.acc == Tally(
            t.instances + (if IsDatabricks(i) then 0 else 1),
            t.gke + (if !IsDatabricks(i) && IsGkeNode(i) then 1 else 0),
            t.nonOsDisks + (if IsCompute(i) then NonBoot(i.disks) else 0),
            t.linux + (if IsCompute(i) then LinuxBoots(svc, projectId, i.disks) else 0),
            t.errors + (if IsCompute(i) then LookupErrors(svc, projectId, i.disks) else [])))
  {
    if IsCompute(i) {
      DisksFold(svc, projectId, t.(instances := t.instances + 1), i.disks);
    } else {
      assert t.errors + [] == t.errors;
    }
  }

  /** Adding instance counts in two steps adds their sums. */
  lemma InstanceTallies(t: Tally, t1: Tally, c: nat, g: nat, n: nat, l: nat, e: seq<string>,
                        c': nat, g': nat, n': nat, l': nat, e': seq<string>)
    requires t1 == Tally(t.instances + c, t.gke + g, t.nonOsDisks + n, t.linux + l, t.errors + e)
    ensures Tally(t1.instances + c', t1.gke + g', t1.nonOsDisks + n', t1.linux + l', t1.errors + e')
      == Tally(t.instances + (c + c'), t.gke + (g + g'), t.nonOsDisks + (n + n'), t.linux + (l + l'), t.errors + (e + e'))
  {
    assert t.errors + e + e' == t.errors + (e + e');
  }

  /** The instance loop raises exactly when some compute instance has a malformed boot disk. */
  lemma {:induction false} InstancesAbort(svc: Service, projectId: string, t: Tally, vms: seq<Instance>)
    ensures Fold(t, vms, InstanceStep(svc, projectId)).Abort? <==> AnyMalformed(vms)
    decreases |vms|
  {
    if |vms| > 0 {
      var f := InstanceStep(svc, projectId);
      var r0 := OnInstance(svc, projectId, t, vms[0]);
      assert f(t, vms[0]) == r0;
      InstanceOnce(svc, projectId, t, vms[0]);
      AnyMalformedCons(vms);
      if r0.Continue? {
        assert Fold(t, vms, f) == Fold(r0.acc, vms[1..], f);
        InstancesAbort(svc, projectId, r0.acc, vms[1..]);
      }
    }
  }

  /** When the instance loop finishes, it has added the reference counts and error lines. */
  lemma {:induction false} InstancesAdd(svc: Service, projectId: string, t: Tally, vms: seq<Instance>)
    ensures var r := Fold(t, vms, InstanceStep(svc, projectId));
      r.Continue? ==> r.acc == Tally(
            t.instances + Counted(vms), t.gke + Nodes(vms), t.nonOsDisks + NonOsDisks(vms),
            t.linux + LinuxSensors(svc, projectId, vms), t.errors + Errors(svc, projectId, vms))
    decreases |vms|
  {
    if |vms| == 0 {
      assert t.errors + [] == t.errors;
    } else {
      var i := vms[0];
      var f := InstanceStep(svc, projectId);
      var r0 := OnInstance(svc, projectId, t, i);
      assert f(t, i) == r0;
      InstanceOnce(svc, projectId, t, i);
      if r0.Continue? {
        var rest := vms[1..];
        assert Fold(t, vms, f) == Fold(r0.acc, rest, f);
        InstancesAdd(svc, projectId, r0.acc, rest);
        InstanceTallies(t, r0.acc,
          if IsDatabricks(i) then 0 else 1,
          if !IsDatabricks(i) && IsGkeNode(i) then 1 else 0,
          if IsCompute(i) then NonBoot(i.disks) else 0,
          if IsCompute(i) then LinuxBoots(svc, projectId, i.disks) else 0,
          if IsCompute(i) then LookupErrors(svc, projectId, i.disks) else [],
          Counted(rest), Nodes(rest), NonOsDisks(rest), LinuxSensors(svc, projectId, rest), Errors(svc, projectId, rest));
      }
    }
  }

  lemma InstancesFold(svc: Service, projectId: string, t: Tally, vms: seq<Instance>)
    ensures var r := Fold(t, vms, InstanceStep(svc, projectId));
      && (r.Abort? <==> AnyMalformed(vms))
      && (r.Continue? ==> r.acc == Tally(
            t.instances + Counted(vms), t.gke + Nodes(vms), t.nonOsDisks + NonOsDisks(vms),
            t.linux + LinuxSensors(svc, projectId, vms), t.errors + Errors(svc, projectId, vms)))
  {
    InstancesAbort(svc, projectId, t, vms);
    InstancesAdd(svc, projectId, t, vms);
  }

  lemma {:induction false} ZonesFlatten(svc: Service, projectId: string, t: Tally, zones: seq<Zone>)
    ensures Fold(t, zones, ZoneStep(svc, projectId)) == Fold(t, AllInstances(zones), InstanceStep(svc, projectId))
    decreases |zones|
  {
    if |zones| > 0 {
      var f := InstanceStep(svc, projectId);
      FoldAppend(t, zones[0].instances, AllInstances(zones[1..]), f);
      match Fold(t, zones[0].instances, f)
      case Abort(b) =>
      case Continue(b) => ZonesFlatten(svc, projectId, b, zones[1..]);
    }
  }

  lemma {:induction false} NodesBound(vms: seq<Instance>)
    ensures Nodes(vms) <= Counted(vms)
    decreases |vms|
  {
    if |vms| > 0 {
      NodesBound(vms[1..]);
    }
  }

  /** Over the instances of every page received: Databricks instances (tag Vendor=Databricks or
      label `databricks`) are never counted; every other instance is counted once, as a GKE
      node when it has the label `goog-gke-node`, so the GKE count never exceeds the instance
      count; only the other, compute, instances have their disks examined: each non-boot disk
      adds one Non-OS disk, each boot disk adds one Linux sensor exactly when its image passes
      the Linux test, and the lookup's error lines are kept in order. The walk raised from a
      disk exactly when a compute instance has a boot disk with a path too short to split. */
  lemma VmCounts(svc: Service, projectId: string)
    ensures var w := Walk(svc.instances, Zero, Each(ZoneStep(svc, projectId)));
      var vms := AllInstances(Received(svc.instances, w));
      && (AnyMalformed(vms) <==> !w.completed && w.requests <= |svc.instances.replies|)
      && (!AnyMalformed(vms) ==> w.acc == Tally(Counted(vms), Nodes(vms), NonOsDisks(vms),
                                               LinuxSensors(svc, projectId, vms), Errors(svc, projectId, vms)))
      && (!AnyMalformed(vms) ==> w.acc.gke <= w.acc.instances)
  {
    var w := Walk(svc.instances, Zero, Each(ZoneStep(svc, projectId)));
    var zones := Received(svc.instances, w);
    WalkFolds(svc.instances, Zero, ZoneStep(svc, projectId));
    ZonesFlatten(svc, projectId, Zero, zones);
    InstancesFold(svc, projectId, Zero, AllInstances(zones));
    NodesBound(AllInstances(zones));
  }

  /** A boot disk whose lookup fails is still counted as a Linux sensor, and the failure is
      logged as one error line naming the project. */
  lemma FailedLookupCountsAsLinux(svc: Service, projectId: string, t: Tally, d: Disk)
    requires d.boot && DiskKey(d.source).Some?
    requires svc.disk(DiskKey(d.source).value.0, DiskKey(d.source).value.1).Failed?
    ensures var m := svc.disk(DiskKey(d.source).value.0, DiskKey(d.source).value.1).message;
      OnDisk(svc, projectId, t, d) ==
        Continue(t.(linux := t.linux + 1, errors := t.errors + [ErrorLine(m, projectId, "get_disk_image_details()")]))
  {
    UnknownIsLinux();
  }

  /** The probe's outcome: it raises exactly when the walk did not complete; otherwise it logs
      the lookups' error lines and reports the compute instances (adding to Virtual Machines,
      Non-OS Disks and Virtual Machine Sensors) and the GKE nodes (adding to Container Hosts
      and Kubernetes Sensors), each with the count the reference definitions give. */
  lemma ProbeReports(svc: Service, projectId: string)
    ensures var w := Walk(svc.instances, Zero, Each(ZoneStep(svc, projectId)));
      var vms := AllInstances(Received(svc.instances, w));
      var o := Probe(svc, projectId);
      && (o.Finished? <==> w.completed)
      && (o.Finished? ==> && o.errors == Errors(svc, projectId, vms)
                          && |o.reports| == 2
                          && o.reports[0].count == Counted(vms)
                          && o.reports[0].increments ==
                               [Increment("Virtual Machines", Counted(vms)), Increment("Non-OS Disks", NonOsDisks(vms)),
                                Increment("Virtual Machine Sensors", LinuxSensors(svc, projectId, vms))]
                          && o.reports[1].count == Nodes(vms)
                          && o.reports[1].increments ==
                               [Increment("Container Hosts", Nodes(vms)), Increment("Kubernetes Sensors", Nodes(vms))])
  {
    VmCounts(svc, projectId);
  }

  // ---------------------------------------------------------------------------------------
  // The counting loop, as the script runs it

  /** The body of `for instance in zone_details['instances']`. */
  method CountInstance(svc: Service, projectId: string, t: Tally, i: Instance) returns (s: Step<Tally>)
    ensures s == OnInstance(svc, projectId, t, i)
  {
    if TagInTags("Vendor", "Databricks", i.tags) {
      return Continue(t);
    }
    if LabelInLabels("databricks", i.labels) {
      return Continue(t);
    }
    var acc := t.(instances := t.instances + 1);
    var isCompute := true;
    for j := 0 to |i.labels|
      invariant isCompute && "goog-gke-node" !in i.labels[..j]
      invariant acc == t.(instances := t.instances + 1)
    {
      if i.labels[j] == "goog-gke-node" {
        acc := acc.(gke := acc.gke + 1);
        isCompute := false;
        break;
      }
    }
    if isCompute {
      assert i.labels[..|i.labels|] == i.labels;
      var disks := i.disks;
      for k := 0 to |disks|
        invariant Fold(acc, disks[k..], DiskStep(svc, projectId)) == OnInstance(svc, projectId, t, i)
      {
        assert disks[k..][1..] == disks[k + 1..];
        var d := disks[k];
        if d.boot {
          var key := DiskKey(d.source);
          if key.None? {
            return Abort(acc);
          }
          var detail := LookUpImage(svc, projectId, key.value.0, key.value.1);
          if IsLinux(detail.image) {
            acc := acc.(linux := acc.linux + 1);
          }
          acc := acc.(errors := acc.errors + detail.errors);
        } else {
          acc := acc.(nonOsDisks := acc.nonOsDisks + 1);
        }
      }
    }
    return Continue(acc);
  }

  /** The body of `if 'items' in response: for item in response['items']: ...`. */
  method CountPage(svc: Service, projectId: string, t: Tally, zones: seq<Zone>) returns (s: Step<Tally>)
    ensures s == Fold(t, zones, ZoneStep(svc, projectId))
  {
    var zoneStep := ZoneStep(svc, projectId);
    var instanceStep := InstanceStep(svc, projectId);
    var acc := t;
    for z := 0 to |zones|
      invariant Fold(acc, zones[z..], zoneStep) == Fold(t, zones, zoneStep)
    {
      assert zones[z..][1..] == zones[z + 1..];
      var instances := zones[z].instances;
      for n := 0 to |instances|
        invariant Then(Fold(acc, instances[n..], instanceStep), Each(zoneStep), zones[z + 1..]) == Fold(t, zones, zoneStep)
      {
        assert instances[n..][1..] == instances[n + 1..];
        var r := CountInstance(svc, projectId, acc, instances[n]);
        if r.Abort? {
          return r;
        }
        acc := r.acc;
      }
    }
    return Continue(acc);
  }

  /** `get_gce_instances_and_gke_instances` up to the totals update: the page loop, then the
      outcome it leaves. */
  method CountVirtualMachines(svc: Service, projectId: string) returns (o: Outcome)
    ensures o == Probe(svc, projectId)
  {
    var step := Each(ZoneStep(svc, projectId));
    var replies := svc.instances.replies;
    var acc := Zero;
    var requests := 0;
    var more := true;
    while more
      invariant requests <= |replies|
      invariant more ==> WalkFrom(replies, requests, acc, step) == Walk(svc.instances, Zero, step)
      invariant !more ==> Walked(acc, true, requests) == Walk(svc.instances, Zero, step)
      decreases |replies| - requests
    {
      if requests >= |replies| {
        return VmOutcome(Walked(acc, false, requests + 1));
      }
      var response := replies[requests];
      requests := requests + 1;
      var s := CountPage(svc, projectId, acc, Items(response));
      if s.Abort? {
        return VmOutcome(Walked(s.acc, false, requests));
      }
      acc := s.acc;
      more := response.nextPageToken;
    }
    o := VmOutcome(Walked(acc, true, requests));
  }
}
