/** Data probes: `get_gcp_buckets`, `get_gcp_cloudsql_instances`,
    `get_gcp_spanner_instances` with `get_gcp_spanner_databases`, and
    `get_gcp_bigquery_datasets`. */
module Data {
  import opened Common
  import opened Paging
  import opened Ledger

  /** The most buckets a project contributes. */
  const BucketCap: nat := 10000

  // ---------------------------------------------------------------------------------------
  // Buckets, Cloud SQL instances and BigQuery datasets: `count += len(response[key])`

  function BucketsOutcome(w: Walked<nat>): Outcome {
    Single(w.completed, "Data Buckets", "", "Data Buckets", Min(w.acc, BucketCap))
  }

  function CloudSqlOutcome(w: Walked<nat>): Outcome {
    Single(w.completed, "PaaS Databases [Cloud SQL]", "", "PaaS Databases", w.acc)
  }

  function BigQueryOutcome(w: Walked<nat>): Outcome {
    Single(w.completed, "Data Warehouses [BigQuery]", "", "Data Warehouses", w.acc)
  }

  /** The bucket probe reports the number of buckets listed on the pages received, capped at
      10000, under Data Buckets; it reports nothing and raises when a request raises. */
  lemma BucketsCapped<T(!new)>(listing: Listing<T>)
    ensures var w := Walk(listing, 0, CountItems());
      var n := Min(PageSizes(listing.replies[..Consumed(listing, w)]), BucketCap);
      && n <= BucketCap
      && BucketsOutcome(w) == if w.completed
           then Finished([], [Report("Data Buckets", n, "", [Increment("Data Buckets", n)])])
           else Raised([])
  {
    CountedItems(listing, 0);
  }

  /** The Cloud SQL probe reports every instance listed on the pages received under PaaS
      Databases. */
  lemma CloudSqlCounted<T(!new)>(listing: Listing<T>)
    ensures var w := Walk(listing, 0, CountItems());
      var n := PageSizes(listing.replies[..Consumed(listing, w)]);
      CloudSqlOutcome(w) == if w.completed
        then Finished([], [Report("PaaS Databases [Cloud SQL]", n, "", [Increment("PaaS Databases", n)])])
        else Raised([])
  {
    CountedItems(listing, 0);
  }

  /** The BigQuery probe reports every dataset listed on the pages received under Data
      Warehouses. */
  lemma BigQueryCounted<T(!new)>(listing: Listing<T>)
    ensures var w := Walk(listing, 0, CountItems());
      var n := PageSizes(listing.replies[..Consumed(listing, w)]);
      BigQueryOutcome(w) == if w.completed
        then Finished([], [Report("Data Warehouses [BigQuery]", n, "", [Increment("Data Warehouses", n)])])
        else Raised([])
  {
    CountedItems(listing, 0);
  }

  // ---------------------------------------------------------------------------------------
  // Spanner: the databases of every instance

  /** A Spanner instance, of which only its resource `name` matters. */
  datatype SpannerInstance = SpannerInstance(name: string)

  /** A Spanner database, of which nothing but its presence matters. */
  datatype Database = Database(name: string)

  /** `get_gcp_spanner_databases` for each instance name: the database listing's walk. */
  function DatabaseWalks(databases: string -> Listing<Database>): string -> Walked<nat> {
    (instance: string) => Walk(databases(instance), 0, CountItems())
  }

  /** One instance: add its database count, or raise with the database listing. */
  function OnInstance(walks: string -> Walked<nat>, count: nat, instance: SpannerInstance): Step<nat> {
    var w := walks(instance.name);
    if w.completed then Continue(count + w.acc) else Abort(count)
  }

  function InstanceStep(walks: string -> Walked<nat>): (nat, SpannerInstance) -> Step<nat> {
    (count: nat, instance: SpannerInstance) => OnInstance(walks, count, instance)
  }

  function SpannerOutcome(w: Walked<nat>): Outcome {
    Single(w.completed, "PaaS Databases [Spanner]", "", "PaaS Databases", w.acc)
  }

  function Probe(instances: Listing<SpannerInstance>, databases: string -> Listing<Database>): Outcome {
    SpannerOutcome(Walk(instances, 0, Each(InstanceStep(DatabaseWalks(databases)))))
  }

  /** The database count of an instance. */
  function DatabasesOf(walks: string -> Walked<nat>): SpannerInstance -> nat {
    (instance: SpannerInstance) => walks(instance.name).acc
  }

  ghost predicate AllListed(walks: string -> Walked<nat>, instances: seq<SpannerInstance>) {
    forall k :: 0 <= k < |instances| ==> walks(instances[k].name).completed
  }

  lemma {:induction false} InstancesFold(walks: string -> Walked<nat>, count: nat, instances: seq<SpannerInstance>)
    ensures var r := Fold(count, instances, InstanceStep(walks));
      && (r.Continue? <==> AllListed(walks, instances))
      && (r.Continue? ==> r.acc == count + Sum(instances, DatabasesOf(walks)))
    decreases |instances|
  {
    if |instances| > 0 {
      var w := walks(instances[0].name);
      var rest := instances[1..];
      if w.completed {
        InstancesFold(walks, count + w.acc, rest);
      }
      assert AllListed(walks, instances) <==> w.completed && AllListed(walks, rest) by {
        assert forall k :: 0 <= k < |rest| ==> rest[k] == instances[k + 1];
        if w.completed && AllListed(walks, rest) {
          forall k | 0 <= k < |instances| ensures walks(instances[k].name).completed {
            if k > 0 {
              assert instances[k] == rest[k - 1];
            }
          }
        }
      }
    }
  }

  /** The Spanner probe sums, over every instance received, the databases listed for it; it
      raises when any listing, of instances or of one instance's databases, raises. */
  lemma SpannerCounted(instances: Listing<SpannerInstance>, databases: string -> Listing<Database>)
    ensures var walks := DatabaseWalks(databases);
      var w := Walk(instances, 0, Each(InstanceStep(walks)));
      var received := Received(instances, w);
      var o := Probe(instances, databases);
      && (o.Finished? <==> w.completed)
      && (o.Finished? ==> AllListed(walks, received))
      && (AllListed(walks, received) ==> w.acc == Sum(received, DatabasesOf(walks)))
  {
    var walks := DatabaseWalks(databases);
    var w := Walk(instances, 0, Each(InstanceStep(walks)));
    WalkFolds(instances, 0, InstanceStep(walks));
    InstancesFold(walks, 0, Received(instances, w));
  }
}
