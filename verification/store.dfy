/** The REST data store, reduced to ordered collections of records, and the
    lookup-then-post ("get or create") pattern the system uses on it. */
module Store {
  import opened Wrappers

  /** Index of the first element satisfying `p`, if any. */
  function FirstMatch<T>(xs: seq<T>, p: T -> bool): (r: Option<nat>)
    ensures r.Some? ==> r.value < |xs| && p(xs[r.value])
    ensures r.Some? ==> forall j :: 0 <= j < r.value ==> !p(xs[j])
    ensures r.None? <==> forall j :: 0 <= j < |xs| ==> !p(xs[j])
  {
    if |xs| == 0 then None
    else if p(xs[0]) then Some(0)
    else match FirstMatch(xs[1..], p)
      case None => None
      case Some(k) => Some(k + 1)
  }

  /** Look the record up; post `created` only when nothing matches. Returns the
      updated collection and the record the caller goes on with. */
  function GetOrCreate<T>(xs: seq<T>, p: T -> bool, created: T): (r: (seq<T>, T))
    ensures (exists j :: 0 <= j < |xs| && p(xs[j])) ==>
              r.0 == xs && r.1 == xs[FirstMatch(xs, p).value]
    ensures (forall j :: 0 <= j < |xs| ==> !p(xs[j])) ==> r == (xs + [created], created)
  {
    match FirstMatch(xs, p)
    case Some(k) => (xs, xs[k])
    case None => (xs + [created], created)
  }

  /** Once a matching record exists, a second get-or-create changes nothing and
      returns the same record: the pattern creates at most one record. */
  lemma GetOrCreateIdempotent<T>(xs: seq<T>, p: T -> bool, created: T)
    requires p(created)
    ensures GetOrCreate(GetOrCreate(xs, p, created).0, p, created) == GetOrCreate(xs, p, created)
  {
    var ys := GetOrCreate(xs, p, created).0;
    if FirstMatch(xs, p).None? {
      assert p(ys[|xs|]);
      assert FirstMatch(ys, p) == Some(|xs|);
    } else {
      assert ys == xs;
    }
  }

  // ---------------------------------------------------------------------------
  // Clusters

  /** A cluster record: its id, name, type (`trad`, `newt`, …) and configured host. */
  datatype Cluster = Cluster(id: nat, name: string, kind: string, host: string)

  predicate IsCori(c: Cluster) {
    c.kind == "newt" && c.name == "cori"
  }

  /** The body posted when no `cori` cluster exists yet, with the id the store assigns. */
  function NewCori(id: nat): Cluster {
    Cluster(id, "cori", "newt", "cori")
  }

  /** Fetch the `newt` cluster named `cori`, creating it when it is missing.
      The store numbers new records by position. */
  function GetCori(clusters: seq<Cluster>): (r: (seq<Cluster>, Cluster))
    ensures IsCori(r.1)
    ensures (exists j :: 0 <= j < |clusters| && IsCori(clusters[j])) ==>
              r.0 == clusters && r.1 in clusters
    ensures (forall j :: 0 <= j < |clusters| ==> !IsCori(clusters[j])) ==>
              r.0 == clusters + [r.1] && r.1.host == "cori" && r.1.id == |clusters|
  {
    GetOrCreate(clusters, IsCori, NewCori(|clusters|))
  }

  /** The first matching cluster in store order is the one returned. */
  lemma GetCoriReturnsFirst(clusters: seq<Cluster>, j: nat)
    requires j < |clusters| && IsCori(clusters[j])
    requires forall k :: 0 <= k < j ==> !IsCori(clusters[k])
    ensures GetCori(clusters) == (clusters, clusters[j])
  {
    assert FirstMatch(clusters, IsCori).Some?;
  }

  /** A second call after the first finds the cluster the first one returned. */
  lemma GetCoriIdempotent(clusters: seq<Cluster>)
    ensures GetCori(GetCori(clusters).0).1 == GetCori(clusters).1
    ensures GetCori(GetCori(clusters).0).0 == GetCori(clusters).0
  {
    var (ys, c) := GetCori(clusters);
    if forall j :: 0 <= j < |clusters| ==> !IsCori(clusters[j]) {
      GetCoriReturnsFirst(ys, |clusters|);
    } else {
      assert ys == clusters;
    }
  }

  /** The cluster a taskflow task is started with: its `name` and `_id`, if any. */
  datatype ClusterArg = ClusterArg(name: Option<string>, id: Option<nat>)

  /** The opening of the tasks that run on a cluster: a cluster named `cori`
      is replaced by the store's `cori` cluster, fetched or created; any
      other cluster without an `_id` is an invalid configuration (`None`).
      The result is the store afterwards and the id of the cluster. */
  function ResolveCluster(clusters: seq<Cluster>, cluster: ClusterArg): (r: Option<(seq<Cluster>, nat)>)
    ensures r.None? <==> cluster.name != Some("cori") && cluster.id.None?
    ensures cluster.name == Some("cori") ==> r == Some((GetCori(clusters).0, GetCori(clusters).1.id))
    ensures cluster.name != Some("cori") && cluster.id.Some? ==> r == Some((clusters, cluster.id.value))
  {
    if cluster.name == Some("cori") then
      var (after, cori) := GetCori(clusters);
      Some((after, cori.id))
    else if cluster.id.None? then None
    else Some((clusters, cluster.id.value))
  }

  /** Resolving again against the store the first resolution left behind
      gives the same cluster and posts nothing more. */
  lemma ResolveClusterStable(clusters: seq<Cluster>, cluster: ClusterArg)
    requires ResolveCluster(clusters, cluster).Some?
    ensures ResolveCluster(ResolveCluster(clusters, cluster).value.0, cluster) == ResolveCluster(clusters, cluster)
  {
    if cluster.name == Some("cori") {
      GetCoriIdempotent(clusters);
    }
  }

  // ---------------------------------------------------------------------------
  // Queues

  /** A job queue record. */
  datatype Queue = Queue(id: nat, name: string, maxRunning: nat)

  const QueueName := "oc_queue"
  const DefaultMaxRunning: nat := 5

  predicate IsOcQueue(q: Queue) {
    q.name == QueueName
  }

  /** Fetch the `oc_queue`, creating it with at most five running jobs when missing. */
  function FetchOrCreateQueue(queues: seq<Queue>): (r: (seq<Queue>, Queue))
    ensures r.1.name == QueueName
    ensures (exists j :: 0 <= j < |queues| && IsOcQueue(queues[j])) ==>
              r.0 == queues && r.1 in queues
    ensures (forall j :: 0 <= j < |queues| ==> !IsOcQueue(queues[j])) ==>
              r.0 == queues + [r.1] && r.1.maxRunning == 5
  {
    GetOrCreate(queues, IsOcQueue, Queue(|queues|, QueueName, DefaultMaxRunning))
  }

  // ---------------------------------------------------------------------------
  // Items and files

  /** An item in a folder: its id, its name and the ids of the files under it. */
  datatype Item = Item(id: string, name: string, files: seq<string>)

  /** Why looking up a job's output file failed. */
  datatype LookupError =
    | FileMissing(name: string)
    | FileCount(found: nat)

  /** The file of the first item called `name`, which must hold exactly one. */
  function SingleFile(items: seq<Item>, name: string): Result<string, LookupError>
  {
    match FirstMatch(items, (it: Item) => it.name == name)
    case None => Err(FileMissing(name))
    case Some(j) => if |items[j].files| == 1 then Ok(items[j].files[0]) else Err(FileCount(|items[j].files|))
  }

  /** The first item with the name decides: a missing name is reported as
      missing, exactly one file is the answer, and any other count is
      reported with the count. */
  lemma SingleFileRule(items: seq<Item>, name: string)
    ensures SingleFile(items, name) == Err(FileMissing(name)) <==> forall j :: 0 <= j < |items| ==> items[j].name != name
    ensures SingleFile(items, name).Ok? <==>
              exists j :: 0 <= j < |items| && items[j].name == name && |items[j].files| == 1
                          && forall k :: 0 <= k < j ==> items[k].name != name
    ensures SingleFile(items, name).Ok? ==>
              exists j :: 0 <= j < |items| && items[j].name == name && items[j].files == [SingleFile(items, name).value]
    ensures SingleFile(items, name).Err? && SingleFile(items, name).error.FileCount? ==>
              exists j :: 0 <= j < |items| && items[j].name == name
                          && |items[j].files| == SingleFile(items, name).error.found
                          && SingleFile(items, name).error.found != 1 && forall k :: 0 <= k < j ==> items[k].name != name
  {
    var m := FirstMatch(items, (it: Item) => it.name == name);
    if m.Some? && |items[m.value].files| == 1 {
      assert items[m.value].files == [items[m.value].files[0]];
    }
  }

  /** Scan the folder's items for the first one called `name` and stop there;
      it must hold exactly one file, whose id is returned. */
  method FindSingleFile(items: seq<Item>, name: string) returns (r: Result<string, LookupError>)
    ensures r == SingleFile(items, name)
  {
    var i := 0;
    while i < |items|
      invariant 0 <= i <= |items|
      invariant forall k :: 0 <= k < i ==> items[k].name != name
    {
      if items[i].name == name {
        FirstMatchAt(items, (it: Item) => it.name == name, i);
        if |items[i].files| != 1 {
          return Err(FileCount(|items[i].files|));
        }
        return Ok(items[i].files[0]);
      }
      i := i + 1;
    }
    return Err(FileMissing(name));
  }

  /** The first match is the one no earlier element satisfies. */
  lemma FirstMatchAt<T>(xs: seq<T>, p: T -> bool, i: nat)
    requires i < |xs| && p(xs[i])
    requires forall k :: 0 <= k < i ==> !p(xs[k])
    ensures FirstMatch(xs, p) == Some(i)
  {
    assert FirstMatch(xs, p).Some?;
  }
}
