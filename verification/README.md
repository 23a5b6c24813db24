# GCP billable-resource counter, modelled in Dafny

`gcp-read.py` counts the billable resources of Google Cloud projects. It first chooses the
projects. It lists every ACTIVE project outside the excluded folders, or it reads project ids
from a file and looks each one up. For each project it lists the enabled services (and the
regions, when Compute Engine is enabled). It then runs one probe per counted resource:
virtual machines and GKE nodes, GKE Autopilot clusters, Cloud Functions, Cloud Run revisions,
buckets, Cloud SQL, Spanner, BigQuery, and one Artifact Registry probe per region. A probe
runs only when its switch is on and its service is enabled. Every probe follows the same
cursor loop: request a page, count what is on it, and follow `nextPageToken`. Each count it
reports appends a row to `totals_log` and adds to the shared `totals` dictionary. Errors go,
one line each, to `errors_log`. In debug mode the projects and probes run in order, and the
first exception ends the run. Otherwise they run in parallel: a probe's exception is only
counted, and a project's exception is logged by `main`.

The model follows the script's structure:

- `common.dfy`: `Option`, `Fetch` (a remote call that answers or raises), `Min`.
- `text.dfy`: `split('/')` with negative indexing, `strip()`, `lower()`, `in` on
  strings, and the newline scrubbing of `error_print`.
- `paging.dfy`: the cursor loop. A listing is the sequence of replies to successive requests,
  plus the exception raised by the first request past them. The `Drain` method runs the
  `while request is not None` loop and is proved equal to the function `Walk`. Lemmas then say
  what a walk ends with for counting, item-by-item and summing work.
- `order.dfy`: Python's string order and the sort by key that `sorted(...)` and
  `list.sort()` perform.
- `ledger.dfy`: `totals`, `totals_log` and `errors_log`. The `Aggregator` class holds them as
  fields and its methods update them in place. Each method is proved equal to a pure state
  function (`Recorded`, `RecordedAll`, `Applied`), and lemmas state what those functions
  append and add.
- `projects.dfy`: `get_gcp_projects` and `get_gcp_projects_from_file`.
- `dispatch.dfy`: the argument range checks, the `enabled` switches, the service and region
  listings, and the probes each branch of `get_gcp_resources` starts.
- `compute.dfy`: `get_gce_instances_and_gke_instances` with `get_disk_image_details`.
- `serverless.dfy`: Cloud Functions, Cloud Run revisions and GKE Autopilot.
- `data.dfy`: buckets, Cloud SQL, Spanner and BigQuery.
- `registry.dfy`: `get_gcp_gcr_images`.
- `scan.dfy`: `get_gcp_resources` and the project loop of `main`, in both modes.

Remote calls are parameters. A listing is a `Paging.Listing`, a single lookup is a `Fetch`,
and one project's whole view of Google Cloud is a `Scan.Cloud`.

## Model

| member | source | states |
|---|---|---|
| Text.Split | gcp-read.py:471-472 | `split` on a one-character separator always yields at least one part |
| Text.FromEnd | gcp-read.py:471-477 | `parts[-k]` exists exactly when k is at most the number of parts, and is then the k-th part from the end |
| Text.LastSegment | gcp-read.py:472 | `split('/')[-1]` always exists |
| Text.SplitWithoutSeparator | gcp-read.py:607 | a string without the separator splits into itself alone |
| Text.SplitAfterPart | gcp-read.py:607 | splitting `a + sep + rest` gives `a` followed by the parts of `rest` |
| Text.SplitJoin | gcp-read.py:471-477 | splitting a joined path gives back its parts when no part holds the separator |
| Text.JoinSplit | gcp-read.py:471-477 | joining the parts of any split gives back the original string |
| Text.PathSegmentOfJoin | gcp-read.py:471-477 | the k-th segment from the end of a joined path is the k-th part from the end |
| Text.Lower | gcp-read.py:443 | `lower()` keeps the length and maps each character through the ASCII case mapping |
| Text.ContainsOccurrence | gcp-read.py:443 | `sub in s` holds exactly when `sub` occurs at some position of `s` |
| Text.TrimLeftDrops | gcp-read.py:372-373 | left trimming removes a whitespace prefix and stops at the first other character |
| Text.TrimRightDrops | gcp-read.py:372-373 | right trimming removes a whitespace suffix and stops at the last other character |
| Text.Strip | gcp-read.py:372-373 | the stripped text is no longer than the line, and neither starts nor ends with whitespace |
| Text.StripSlice | gcp-read.py:372-373 | the stripped text is a slice of the line with only whitespace around it |
| Text.StripBlank | gcp-read.py:372 | a line strips to nothing exactly when it is all whitespace |
| Text.Scrub | gcp-read.py:235 | the details keep their length; every `\n` and `\r` becomes a space, so none is left, and every other character is unchanged |
| Paging.Drain | gcp-read.py:497-504 | the page loop ends with exactly what the reference walk over the replies gives |
| Paging.WalkStopsAtLastPage | gcp-read.py:497-504 | with work that never raises, the loop issues one request per page, stops right after the first reply without `nextPageToken`, and completes exactly when such a reply arrives |
| Paging.WalkScans | gcp-read.py:497-504 | for work that does not depend on page breaks, a walk ends with that work applied to all items received |
| Paging.CountedItems | gcp-read.py:497-500 | a counting walk ends with the initial count plus the sizes of the pages received, and completes exactly when a last page arrives |
| Paging.ThreePages | gcp-read.py:497-504 | illustration of `CountedItems`: pages of 2, 2 and 1 items, the last without `nextPageToken`, take three requests and count 5 |
| Paging.WalkFolds | gcp-read.py:410-450 | item-by-item work over a listing is that work over every item received, in order; the walk is cut short exactly where an item raises |
| Paging.WalkKeeps | gcp-read.py:410-450 | an invariant that every item preserves holds of whatever the walk ends with |
| Paging.WalkSums | gcp-read.py:525-531 | a summing walk ends with the worth of every item received, and completes exactly when some reply lacks `nextPageToken` |
| Paging.SumBound | gcp-read.py:622-628 | items each worth at most m are worth at most m per item together |
| Order.LexLeTotal | gcp-read.py:357 | any two strings are ordered one way or the other |
| Order.LexLeTransitive | gcp-read.py:357 | string order is transitive |
| Order.LexLeAntisymmetric | gcp-read.py:357 | strings ordered both ways are equal |
| Order.SortBy | gcp-read.py:390 | sorting keeps every element, each as often as before |
| Order.SortBySorted | gcp-read.py:390 | the sorted list is ordered by key |
| Ledger.InitialTotals | gcp-read.py:163-179 | the totals start with exactly the twelve declared keys, each at 0 |
| Ledger.ErrorLineIsOneLine | gcp-read.py:227-240 | an error line starts with `ERROR: ` and has no line break whatever the details hold, provided the project id and the caller have none |
| Ledger.AddAll | gcp-read.py:455-458 | adding to the totals keeps the same keys |
| Ledger.AddAllSums | gcp-read.py:455-458 | after the additions, each key holds its old value plus everything added to it |
| Ledger.AmountForPermutation | gcp-read.py:834-864 | the amount added to a key does not depend on the order in which the additions arrive |
| Ledger.OrderIndependent | gcp-read.py:834-864 | applying the same additions in any order leaves the same totals, so the order in which parallel probes finish does not change them |
| Ledger.RecordedAll | gcp-read.py:452-465 | recording reports keeps the keys of the totals |
| Ledger.RecordedAllLogs | gcp-read.py:452-465 | recording reports keeps the state valid, leaves `errors_log` alone and appends one row per report that passes the `count > 0 or verbose` gate, in order |
| Ledger.RecordedAllTotals | gcp-read.py:452-465 | recording reports adds to every total exactly the amounts of the reports that pass the gate |
| Ledger.AppliedEffect | gcp-read.py:452-465 | a probe run appends exactly its error lines to `errors_log`, then one row per report that passes the gate, and adds their amounts to the totals; a probe that raised adds no row and no amount |
| Ledger.Aggregator.constructor | gcp-read.py:163-182 | the shared state starts with the initial totals and two empty logs |
| Ledger.Aggregator.ProgressPrint | gcp-read.py:212-218 | `progress_print` appends exactly one row `[type, count, project, region]` to `totals_log` and changes nothing else |
| Ledger.Aggregator.ErrorPrint | gcp-read.py:227-240 | `error_print` appends exactly one error line to `errors_log` and changes nothing else |
| Ledger.Aggregator.AddToTotals | gcp-read.py:455-458 | the in-place additions leave the totals the reference additions give, and leave both logs alone |
| Ledger.Aggregator.Record | gcp-read.py:452-458 | one report behind the gate changes the state as the reference `Recorded` says |
| Ledger.Aggregator.LogErrors | gcp-read.py:227-240 | a probe's error lines are appended to `errors_log` in order, and nothing else changes |
| Ledger.Aggregator.RecordAll | gcp-read.py:452-465 | the reports recorded in order change the state as the reference `RecordedAll` says |
| Ledger.Aggregator.Apply | gcp-read.py:452-465 | a probe's outcome changes the state as the reference `Applied` says and keeps it valid |
| Projects.ById | gcp-read.py:357 | the projects sorted by id are a permutation of the input, ordered by id |
| Projects.ChosenExactly | gcp-read.py:343-351 | an entry is chosen exactly when some listed project is ACTIVE, is outside the excluded folders, and gives that entry (its name, else `UNNAMED`) |
| Projects.ListedExactly | gcp-read.py:341-357 | when the listing completes, the result holds exactly the accepted projects received, sorted by id; when a request raises, there is no result |
| Projects.ListProjects | gcp-read.py:341-357 | the page loop, the filter and the sort give the reference `Listed` |
| Projects.NonBlankLength | gcp-read.py:369-373 | reading keeps at most one id per line |
| Projects.NonBlankIds | gcp-read.py:369-373 | an id is read exactly when some line strips to it and it is not empty; no id read is empty or starts or ends with whitespace |
| Projects.ReadProjectIds | gcp-read.py:369-373 | the `for line in f` loop keeps each non-blank line, stripped, in order |
| Projects.NamedOrLogged | gcp-read.py:380-389 | the entries and the error lines together are as many as the ids read; each entry's id was read; every successful lookup gives its entry, named `UNNAMED` when the project has no name |
| Projects.LookUpProjects | gcp-read.py:380-389 | the lookup loop returns the named projects in file order and appends the failed lookups' error lines, and changes nothing else |
| Projects.ProjectsFromFile | gcp-read.py:369-390 | reading, looking up and sorting give the named projects of the non-blank lines, sorted by id, with one error line per failed lookup |
| Dispatch.Digits | gcp-read.py:125 | a number prints as at least one digit |
| Dispatch.DigitsValueOf | gcp-read.py:125 | the printed digits of a number read back as that number |
| Dispatch.DecimalRoundTrip | gcp-read.py:125-128 | the number printed in a range message reads back as the value given, negative ones included |
| Dispatch.ArgsError | gcp-read.py:124-129 | there is no error exactly when both values lie in [1 .. 1000]; otherwise the first offending option, `--max-image-tags` before `--max-workers`, is reported |
| Dispatch.RangeMessageNamesValue | gcp-read.py:125-128 | a range message starts with `ERROR: ` and the option, and carries the value given in a form that reads back as it |
| Dispatch.Enabled | gcp-read.py:144-161 | the eleven counts other than the registry images are switched on; the registry images follow `--images` |
| Dispatch.Sorted | gcp-read.py:296 | sorting names keeps them all and puts them in order |
| Dispatch.GatheredExactly | gcp-read.py:278-298 | the gathered names are every name on the pages received, each as often as listed, sorted; an error line is logged exactly when a request raised |
| Dispatch.GatherNames | gcp-read.py:278-298 | the service (or region) loop returns the gathered names and appends the listing's error line, and changes nothing else |
| Dispatch.RegistryProbes | gcp-read.py:829-831 | one registry probe per region, in region order |
| Dispatch.NoServicesNoProbes | gcp-read.py:799-801 | a project without enabled services gets no probe in either branch |
| Dispatch.PlanCounts | gcp-read.py:804-861 | the plan starts each fixed probe once if it is scheduled and never otherwise, and each region's registry probe as often as the region is listed |
| Dispatch.PlanMembership | gcp-read.py:804-861 | a probe is in the plan exactly when its switch is on and its service is enabled |
| Dispatch.RegistryProbesLast | gcp-read.py:858-861 | when registry images are switched on and Artifact Registry is enabled, the plan ends with one registry probe per region, in order |
| Dispatch.BucketGateDiffers | gcp-read.py:817-848 | debug mode gates buckets on `storage.googleapis.com`, the parallel branch on `storage-api.googleapis.com`, so a project with only one of them gets buckets counted in one mode only |
| Dispatch.EnabledGates | gcp-read.py:804-831 | under the script's switches, every probe but the registry's runs exactly when its service is enabled, and the registry's also needs `--images` |
| Compute.TagInTags | gcp-read.py:248-252 | the tags match exactly when they hold the key with that value; no tags never match |
| Compute.LabelInLabels | gcp-read.py:255-259 | the labels match exactly when they hold the name |
| Compute.DiskKey | gcp-read.py:471-472 | a disk's zone and name exist exactly when its source path has at least three segments |
| Compute.ImageKey | gcp-read.py:476-477 | an image's project and name exist exactly when its path has at least four segments |
| Compute.DiskKeyOfPath | gcp-read.py:471-472 | a disk URL `.../<zone>/disks/<name>` is looked up by its zone and name |
| Compute.ImageKeyOfPath | gcp-read.py:476-477 | an image URL `.../<project>/global/images/<image>` is looked up by its project and name |
| Compute.IsLinuxIff | gcp-read.py:439-444 | an image is Linux exactly when `win` occurs nowhere in its lower-cased description or family, each `UNKNOWN` when absent |
| Compute.WindowsFamilyIsNotLinux | gcp-read.py:443 | an image whose family mentions Windows, in any case, is not Linux |
| Compute.UnknownIsLinux | gcp-read.py:439-444 | an image without description or family is counted as Linux |
| Compute.ProbeKnown | gcp-read.py:452-465 | the probe adds only to keys that `totals` declares |
| Compute.DisksAbort | gcp-read.py:432-444 | the disk loop raises exactly when some boot disk's source path is too short for `split('/')[-3]` |
| Compute.DisksFold | gcp-read.py:432-444 | a finished disk loop adds the non-boot disks, the Linux boot disks and the lookup error lines to the tally |
| Compute.InstancesAbort | gcp-read.py:416-444 | the instance loop raises exactly when some counted non-GKE instance has a malformed boot disk |
| Compute.InstancesFold | gcp-read.py:416-444 | a finished instance loop adds the counted instances, GKE nodes, non-OS disks, Linux sensors and error lines of the reference counts |
| Compute.ZonesFlatten | gcp-read.py:412-417 | going zone by zone is the same as going over all instances of the page in order |
| Compute.NodesBound | gcp-read.py:424-431 | the GKE nodes are never more than the instances counted |
| Compute.VmCounts | gcp-read.py:410-450 | over every instance received, Databricks instances (by tag or label) are skipped, the rest counted; the GKE nodes among them are counted apart; only the others' disks are examined; and the loop raises exactly when such an instance has a boot disk whose path is too short |
| Compute.FailedLookupCountsAsLinux | gcp-read.py:468-482 | a boot disk whose lookup fails logs one error line and is still counted as a Linux sensor |
| Compute.ProbeReports | gcp-read.py:452-465 | the probe raises exactly when the walk did not complete; otherwise it logs the lookup errors and reports the VM count (adding VMs, non-OS disks and Linux sensors) and the GKE node count (adding container hosts and Kubernetes sensors) |
| Compute.CountInstance | gcp-read.py:416-444 | the body of the instance loop gives what the reference step gives |
| Compute.CountPage | gcp-read.py:411-444 | the body of the zone loop gives what the reference fold gives |
| Compute.CountVirtualMachines | gcp-read.py:398-450 | the probe's loops give the reference probe outcome |
| Serverless.FunctionsCounted | gcp-read.py:497-510 | the Cloud Functions probe reports every function on the pages received under Serverless Functions, and raises when a request raises |
| Serverless.HealthyInBounds | gcp-read.py:527-530 | the healthy count is at most the number of conditions, and is 0 exactly when no condition is `ContainerHealthy` with status `True` |
| Serverless.CloudRunCounted | gcp-read.py:525-532 | the Cloud Run probe counts, over every revision received, the healthy conditions, never more than the conditions listed |
| Serverless.AutopilotCounted | gcp-read.py:556-567 | only pools of clusters whose `autopilot.enabled` is exactly true count: nodes as `currentNodeCount`, else `initialNodeCount`, else 0, and containers as nodes times `maxPodsPerNode` (0 when absent) |
| Serverless.StandardClustersIgnored | gcp-read.py:561-562 | clusters whose `autopilot.enabled` is missing or false add nothing, whatever their pools |
| Serverless.OnePool | gcp-read.py:563-567 | illustration of `AutopilotCounted`: a pool of 3 current nodes (5 initially) at 32 pods per node adds 3 nodes and 96 containers |
| Data.BucketsCapped | gcp-read.py:662-676 | the bucket probe reports the buckets on the pages received, capped at 10000, and raises when a request raises |
| Data.CloudSqlCounted | gcp-read.py:691-704 | the Cloud SQL probe reports every instance on the pages received under PaaS Databases |
| Data.SpannerCounted | gcp-read.py:719-755 | the Spanner probe sums, over every instance received, the databases listed for it, and raises when any listing raises |
| Data.BigQueryCounted | gcp-read.py:770-783 | the BigQuery probe reports every dataset on the pages received under Data Warehouses |
| Registry.RepositoryPathParts | gcp-read.py:616 | the repository path splits back into the project, the region and the repository |
| Registry.DockerIdsExactly | gcp-read.py:603-608 | the repositories scanned are exactly the DOCKER ones, by the last segment of their name, and are no more than those listed |
| Registry.ImageCountBound | gcp-read.py:625-628 | an image adds at most `--max-image-tags`, and never more than its tags |
| Registry.RepositoryBound | gcp-read.py:620-637 | a repository adds what its images received add, at most `--max-image-tags` each, and once capped never more than 10000 |
| Registry.CountFromSum | gcp-read.py:613-638 | the repository loop gives a total exactly when every image listing completes, and that total is the sum of the capped repository counts |
| Registry.ProbeCounted | gcp-read.py:591-645 | the probe scans exactly the DOCKER repositories received; it reports exactly when every listing completes, with the sum of their capped counts under Registry Container Images and the region, so at most 10000 per repository |
| Registry.CountImages | gcp-read.py:591-645 | the probe's loops give the reference probe outcome |
| Scan.OutcomeKnown | gcp-read.py:804-831 | every probe adds only to keys that `totals` declares |
| Scan.RanGrows | gcp-read.py:804-864 | running probes keeps the state valid, never lowers a total and only appends to the logs |
| Scan.ScannedGrows | gcp-read.py:791-866 | scanning a project keeps the state valid, never lowers a total and only appends to the logs |
| Scan.NoServicesNoTotals | gcp-read.py:799-801 | a project without enabled services leaves the totals and `totals_log` unchanged and logs only the listing errors |
| Scan.Execute | gcp-read.py:804-831 | the probe the plan names runs the matching probe function |
| Scan.RunProbe | gcp-read.py:804-831 | running a probe applies its outcome to the shared state and says whether it raised |
| Scan.RunPlan | gcp-read.py:804-864 | the probe loop gives the reference `Ran`: in debug mode the first raise stops it, otherwise every probe runs |
| Scan.Discover | gcp-read.py:796-798 | the service listing, then the region listing only when Compute Engine is enabled, give the reference names and error lines |
| Scan.ScanProject | gcp-read.py:791-866 | `get_gcp_resources` gives the reference `Scanned` state and raise flag, and keeps the state valid |
| Scan.ParallelRunGrows | gcp-read.py:998-1025 | a parallel run keeps the state valid, never lowers a total and only appends to the logs |
| Scan.ParallelRunLogsFaults | gcp-read.py:1021-1025 | in parallel mode, each project whose scan raises gets an `Exception scanning <id>: <message>` line from `main()` |
| Scan.DebugRunGrows | gcp-read.py:993-997 | a debug run keeps the state valid, never lowers a total and only appends to the logs |
| Scan.ScanProjects | gcp-read.py:989-1025 | debug mode scans in order and stops at the first raise, leaving `completed_count` at 0; parallel mode scans every project, logs each failed scan, and counts all of them as completed |

## Left out

- Building and closing API clients is not modelled. A probe whose client fails to build logs
  one line and returns; here every probe's client is taken to build. That covers, for
  example, the `dockerImages().list` construction at gcp-read.py:615-619 and the Spanner
  database request at gcp-read.py:742-746.
- Scan.Scanned: an exception raised outside every probe's handler is an input
  (`Cloud.setupFault`). It is modelled as raising before anything is logged. Because
  `client.close()` at gcp-read.py:295 sits outside the `try`, a Service Usage client that
  fails to build logs one line and then raises. That line is not modelled.
- Threads, locks and `concurrent.futures`: parallel mode runs the probes and projects one
  after the other, in submission order. `Ledger.OrderIndependent` shows that the totals do
  not depend on that order. The order of rows and error lines in the logs is not modelled.
- The `exceptions` counter of `get_gcp_resources`: it is local and never read, so a probe
  that raises in parallel mode records nothing.
- Console output, the rate and ETA of `main`, `output_results` (the CSV files and the summary
  table) and `verbose_print` are left out. They only print or write files from the totals and
  logs modelled here.
- `argparse`, `input()`, the SIGINT handler, reading `projects.txt` and the excluded-folders
  file, `os.path.isfile` and `sys.exit` are left out. The file's lines and the excluded folders
  are parameters, and a rejected argument is the message `Dispatch.ArgsError` returns.
- The caller name that `error_print` takes from `inspect.stack()` is a parameter.
- Registry.Probe: the retry at gcp-read.py:630-634 is not modelled. When `list_next` raises, it
  logs a line and repeats the same request. The model takes `list_next` to succeed.
- Text.Lower: only ASCII letters are lower-cased. Python's Unicode case mapping is not
  modelled.
- Order.SortBy: the sort is stable, but stability is not proved. Only the permutation and
  the order are.
- Compute.Probe: documents are assumed to have the keys the script indexes without `.get`
  (`boot`, `source`, `sourceImage`, `name`, `format`, `status.conditions`). The `KeyError`
  each missing key would raise is not modelled. The one `IndexError` path, a disk source path
  too short for `split('/')[-3]`, is modelled.
- `--data` is shown in the banner and switches nothing, both in the script and in the model.
- Integers are unbounded, as in Python.
