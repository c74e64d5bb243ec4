/** The client's calculation requests: parameter seeding for the three task
    shortcuts, the 3D-coordinate gate, the lookup query for an existing
    calculation, the submission of the pending ones, and the fetch-or-submit
    pass that ties them together. */
module Calculations {
  import opened Wrappers
  import opened Text
  import opened Lists
  import opened Images
  import opened Store

  // ---------------------------------------------------------------------------
  // energy / optimize / frequencies

  datatype Task = Energy | Optimize | Frequencies

  function TaskName(t: Task): string {
    match t
    case Energy => "energy"
    case Optimize => "optimize"
    case Frequencies => "frequencies"
  }

  /** `{'task': <task>}` updated with the caller's parameters: the task is a
      default the caller may override, and nothing the caller gives is lost. */
  function SeedTask(t: Task, params: map<string, Json>): (r: map<string, Json>)
    ensures r.Keys == params.Keys + {"task"}
    ensures forall k :: k in params ==> r[k] == params[k]
    ensures "task" !in params ==> r["task"] == JStr(TaskName(t))
  {
    map["task" := JStr(TaskName(t))] + params
  }

  /** Seeding twice keeps the first seed: a task already present is never
      replaced. */
  lemma SeedTaskKeepsGivenTask(t1: Task, t2: Task, params: map<string, Json>)
    ensures SeedTask(t1, SeedTask(t2, params)) == SeedTask(t2, params)
  {
  }

  // ---------------------------------------------------------------------------
  // The 3D-coordinate gate

  /** The programs whose images need 3D coordinates. */
  const Programs3d: seq<string> := ["psi4", "nwchem"]

  /** `_3d_coords_required`: some listed program occurs in the image name. */
  function Needs3dCoords(imageName: string): (b: bool)
    ensures b <==> exists k :: 0 <= k < |Programs3d| && Contains(imageName, Programs3d[k])
  {
    AnyOccurs(imageName, Programs3d)
  }

  function AnyOccurs(s: string, programs: seq<string>): (b: bool)
    ensures b <==> exists k :: 0 <= k < |programs| && Contains(s, programs[k])
  {
    if |programs| == 0 then false
    else if Contains(s, programs[0]) then true
    else
      assert forall k :: 1 <= k < |programs| ==> programs[k] == programs[1..][k - 1];
      AnyOccurs(s, programs[1..])
  }

  /** What `_check_required_coords` does: the molecules it asks to generate
      coordinates for, in order, and whether it then raises. */
  datatype CoordCheck = CoordCheck(generate: seq<string>, raises: bool)

  function Lacks3d(has3d: string -> bool): string -> bool {
    (m: string) => !has3d(m)
  }

  /** Every molecule without 3D coordinates gets a generation request, and the
      check raises once afterwards; an image that needs no 3D coordinates asks
      for nothing and never raises. */
  function CheckRequiredCoords(molIds: seq<string>, imageName: string, has3d: string -> bool)
    : (r: CoordCheck)
    ensures !Needs3dCoords(imageName) ==> r == CoordCheck([], false)
    ensures Needs3dCoords(imageName) ==> forall m :: m in r.generate <==> m in molIds && !has3d(m)
    ensures r.raises <==> |r.generate| > 0
  {
    if !Needs3dCoords(imageName) then CoordCheck([], false)
    else
      var generate := Filter(molIds, Lacks3d(has3d));
      FilterKeepsAll(molIds, Lacks3d(has3d));
      assert forall m :: m in generate <==> multiset(generate)[m] > 0;
      assert forall m :: m in molIds <==> multiset(molIds)[m] > 0;
      CoordCheck(generate, |generate| > 0)
  }

  // ---------------------------------------------------------------------------
  // _fetch_calculation

  datatype CalcError =
    | BadImageName(name: string)
    | NoClusterConfigured

  /** The query for an existing calculation: the molecule, the hash of the
      parameters, the normalised image name, and the hash of the geometry when
      one is given and not empty. `hash` is the digest of a JSON value. */
  function FetchQuery(moleculeId: string, params: Json, imageName: string, geometry: Option<Json>,
                      hash: Json -> string)
    : (r: Result<map<string, string>, CalcError>)
    ensures r.Err? <==> ParseImageName(imageName).Err?
    ensures r.Err? ==> r.error == BadImageName(imageName)
    ensures r.Ok? ==> r.value.Keys == {"moleculeId", "inputParametersHash", "imageName"}
                                      + (if geometry.Some? && Truthy(geometry.value)
                                         then {"inputGeometryHash"} else {})
    ensures r.Ok? ==> r.value["moleculeId"] == moleculeId && r.value["inputParametersHash"] == hash(params)
    ensures r.Ok? && geometry.Some? && Truthy(geometry.value) ==>
              r.value["inputGeometryHash"] == hash(geometry.value)
    ensures r.Ok? ==> ParseImageName(r.value["imageName"]) == ParseImageName(imageName)
  {
    match ParseImageName(imageName)
    case Err(_) => Err(BadImageName(imageName))
    case Ok((repository, tag)) =>
      ParseImageNameInverse(repository, tag);
      var q := map["moleculeId" := moleculeId, "inputParametersHash" := hash(params),
                   "imageName" := ImageName(repository, tag)];
      Ok(if geometry.Some? && Truthy(geometry.value) then q["inputGeometryHash" := hash(geometry.value)] else q)
  }

  /** `latest` is spelled out: a bare repository and its `:latest` name query
      the same calculations. */
  lemma FetchQueryDefaultTag(moleculeId: string, params: Json, repository: string, geometry: Option<Json>,
                             hash: Json -> string)
    requires ':' !in repository
    ensures FetchQuery(moleculeId, params, repository, geometry, hash)
         == FetchQuery(moleculeId, params, ImageName(repository, DefaultTag), geometry, hash)
  {
    ParseImageNameInverse(repository, DefaultTag);
  }

  // ---------------------------------------------------------------------------
  // _submit_calculations

  /** How the start request names the cluster: by id, or `cori` by name. */
  datatype ClusterRef = ClusterById(id: string) | ClusterByName(name: string)

  /** The environment of a submission: the client's configured cluster id,
      whether the site is NERSC, the ids of the `trad` clusters, the queues,
      and the id the server gives the new taskflow. */
  datatype SubmitContext = SubmitContext(clusterId: Option<string>, nersc: bool, tradClusters: seq<string>,
                                         queues: seq<Queue>, taskflowId: string)

  /** What a submission posts: the taskflow's metadata, the start request on
      the queue, and the queue store afterwards. */
  datatype Submission = Submission(taskflowId: string, metaCalculationIds: seq<string>,
                                   repository: string, tag: string, inputCalculations: seq<string>,
                                   runParameters: map<string, Json>, cluster: ClusterRef,
                                   queues: seq<Queue>, queueId: nat)

  /** The cluster the start request names: the configured id; else `cori` by
      name on NERSC; else the first `trad` cluster, failing when there is
      none. */
  function SubmitCluster(clusterId: Option<string>, nersc: bool, tradClusters: seq<string>)
    : (r: Result<ClusterRef, CalcError>)
    ensures r.Err? <==> clusterId.None? && !nersc && |tradClusters| == 0
    ensures r.Err? ==> r.error == NoClusterConfigured
    ensures clusterId.Some? ==> r == Ok(ClusterById(clusterId.value))
    ensures clusterId.None? && nersc ==> r == Ok(ClusterByName("cori"))
    ensures clusterId.None? && !nersc && |tradClusters| > 0 ==> r == Ok(ClusterById(tradClusters[0]))
  {
    if clusterId.Some? then Ok(ClusterById(clusterId.value))
    else if !nersc then
      if |tradClusters| > 0 then Ok(ClusterById(tradClusters[0])) else Err(NoClusterConfigured)
    else Ok(ClusterByName("cori"))
  }

  /** `_submit_calculations`: choose the cluster, parse the image name, fetch or
      create the queue, and post the taskflow and its start request, both
      listing the pending calculations. */
  function SubmitCalculations(ctx: SubmitContext, pendingIds: seq<string>, imageName: string,
                              runParameters: Option<map<string, Json>>)
    : (r: Result<Submission, CalcError>)
    ensures r.Err? <==> SubmitCluster(ctx.clusterId, ctx.nersc, ctx.tradClusters).Err?
                        || ParseImageName(imageName).Err?
    ensures SubmitCluster(ctx.clusterId, ctx.nersc, ctx.tradClusters).Err? ==> r == Err(NoClusterConfigured)
    ensures r.Ok? ==> r.value.metaCalculationIds == pendingIds && r.value.inputCalculations == pendingIds
    ensures r.Ok? ==> r.value.taskflowId == ctx.taskflowId
    ensures r.Ok? ==> Ok((r.value.repository, r.value.tag)) == ParseImageName(imageName)
    ensures r.Ok? ==> r.value.runParameters == runParameters.GetOr(map[])
    ensures r.Ok? ==> r.value.cluster == SubmitCluster(ctx.clusterId, ctx.nersc, ctx.tradClusters).value
    ensures r.Ok? ==> (r.value.queues, r.value.queueId) == (FetchOrCreateQueue(ctx.queues).0,
                                                            FetchOrCreateQueue(ctx.queues).1.id)
  {
    var cluster :- SubmitCluster(ctx.clusterId, ctx.nersc, ctx.tradClusters);
    match ParseImageName(imageName)
    case Err(_) => Err(BadImageName(imageName))
    case Ok((repository, tag)) =>
      var (queues, queue) := FetchOrCreateQueue(ctx.queues);
      Ok(Submission(ctx.taskflowId, pendingIds, repository, tag, pendingIds,
                    runParameters.GetOr(map[]), cluster, queues, queue.id))
  }

  // ---------------------------------------------------------------------------
  // _fetch_or_submit_calculations

  /** A calculation as the client holds it. */
  datatype Calc = Calc(id: string, moleculeId: string, pending: bool, taskFlowId: Option<string>)

  /** The store as the pass sees it, request by request: the answer of the
      lookup made for the k-th pair, and the pending calculation posted for
      the k-th pair. Every lookup is a fresh read, so its answer may already
      include calculations posted for earlier pairs. */
  datatype CalcStore = CalcStore(existing: (nat, string, Option<Json>) -> Option<Calc>,
                                 create: (nat, string, Option<Json>) -> Calc)

  /** Every post yields a fresh calculation: the posts made for two different
      pairs never share an id. */
  ghost predicate FreshCreations(store: CalcStore) {
    forall i: nat, j: nat, m: string, m': string, g: Option<Json>, g': Option<Json> ::
      i != j ==> store.create(i, m, g).id != store.create(j, m', g').id
  }

  /** `zip(molecule_ids, input_geometries)`: as long as the shorter list; a
      missing geometry list pairs every molecule with no geometry. */
  function Pairs(molIds: seq<string>, geoms: Option<seq<Option<Json>>>): (ps: seq<(string, Option<Json>)>)
    ensures geoms.None? ==> |ps| == |molIds|
    ensures geoms.Some? ==> |ps| == if |molIds| <= |geoms.value| then |molIds| else |geoms.value|
    ensures forall i :: 0 <= i < |ps| ==> ps[i].0 == molIds[i]
    ensures forall i :: 0 <= i < |ps| ==> ps[i].1 == if geoms.None? then None else geoms.value[i]
  {
    var n := if geoms.None? then |molIds| else if |molIds| <= |geoms.value| then |molIds| else |geoms.value|;
    seq(n, i requires 0 <= i < n => (molIds[i], if geoms.None? then None else geoms.value[i]))
  }

  /** Whether the pair gets a new pending calculation: none exists, or the
      caller forces one. */
  predicate Creates(store: CalcStore, force: bool, k: nat, pair: (string, Option<Json>)) {
    store.existing(k, pair.0, pair.1).None? || force
  }

  /** The calculation of a pair before any taskflow id is attached. */
  function Chosen(store: CalcStore, force: bool, k: nat, pair: (string, Option<Json>)): Calc {
    if Creates(store, force, k, pair) then store.create(k, pair.0, pair.1) else store.existing(k, pair.0, pair.1).value
  }

  /** The ids of the pending calculations, in order. */
  function PendingIds(store: CalcStore, force: bool, pairs: seq<(string, Option<Json>)>): seq<string>
  {
    if |pairs| == 0 then []
    else PendingIds(store, force, pairs[..|pairs| - 1]) + NewId(store, force, |pairs| - 1, pairs[|pairs| - 1])
  }

  /** At most one pending id per pair, and none exactly when no pair is new. */
  lemma {:induction false} PendingIdsCount(store: CalcStore, force: bool, pairs: seq<(string, Option<Json>)>)
    ensures |PendingIds(store, force, pairs)| <= |pairs|
    ensures |PendingIds(store, force, pairs)| == 0 <==> forall i :: 0 <= i < |pairs| ==> !Creates(store, force, i, pairs[i])
    decreases |pairs|
  {
    if |pairs| > 0 {
      var init := pairs[..|pairs| - 1];
      PendingIdsCount(store, force, init);
      assert forall i :: 0 <= i < |init| ==> init[i] == pairs[i];
    }
  }

  /** The outcome of the pass: the calculations, in molecule order, and the
      submission when there was one. */
  datatype Fetched = Fetched(calcs: seq<Calc>, submission: Option<Submission>)

  /** `_fetch_or_submit_calculations`. When the coordinate check raises the
      result is empty. Otherwise each pair keeps its existing calculation or
      gets a new pending one; when at least one is new, one taskflow is
      submitted for all of them and each new calculation carries its id. The
      image name is parsed by the first lookup. */
  function FetchOrSubmit(molIds: seq<string>, imageName: string, geoms: Option<seq<Option<Json>>>,
                         force: bool, has3d: string -> bool, store: CalcStore, ctx: SubmitContext,
                         runParameters: Option<map<string, Json>>)
    : (r: Result<Fetched, CalcError>)
    ensures CheckRequiredCoords(molIds, imageName, has3d).raises ==> r == Ok(Fetched([], None))
    ensures r.Ok? && !CheckRequiredCoords(molIds, imageName, has3d).raises ==>
              |r.value.calcs| == |Pairs(molIds, geoms)|
    ensures r.Ok? && r.value.submission.Some? ==>
              r.value.submission.value.inputCalculations
              == PendingIds(store, force, Pairs(molIds, geoms))
  {
    if CheckRequiredCoords(molIds, imageName, has3d).raises then Ok(Fetched([], None))
    else
      var pairs := Pairs(molIds, geoms);
      if |pairs| > 0 && ParseImageName(imageName).Err? then Err(BadImageName(imageName))
      else
        var pending := PendingIds(store, force, pairs);
        if |pending| == 0 then Ok(Fetched(ChosenAll(store, force, pairs), None))
        else
          var submission :- SubmitCalculations(ctx, pending, imageName, runParameters);
          Ok(Fetched(TaggedAll(store, force, pairs, submission.taskflowId), Some(submission)))
  }

  /** The calculation of every pair, before submission. */
  function ChosenAll(store: CalcStore, force: bool, pairs: seq<(string, Option<Json>)>): (cs: seq<Calc>)
    ensures |cs| == |pairs| && forall k :: 0 <= k < |pairs| ==> cs[k] == Chosen(store, force, k, pairs[k])
  {
    seq(|pairs|, k requires 0 <= k < |pairs| => Chosen(store, force, k, pairs[k]))
  }

  /** The calculation of every pair, the new ones carrying the taskflow id. */
  function TaggedAll(store: CalcStore, force: bool, pairs: seq<(string, Option<Json>)>, taskflowId: string)
    : (cs: seq<Calc>)
    ensures |cs| == |pairs|
    ensures forall k :: 0 <= k < |pairs| ==>
              cs[k] == Tagged(Chosen(store, force, k, pairs[k]), Creates(store, force, k, pairs[k]), taskflowId)
  {
    seq(|pairs|, k requires 0 <= k < |pairs| =>
          Tagged(Chosen(store, force, k, pairs[k]), Creates(store, force, k, pairs[k]), taskflowId))
  }

  /** A new calculation after its properties are updated with the taskflow id. */
  function Tagged(c: Calc, created: bool, taskflowId: string): Calc {
    if created then c.(taskFlowId := Some(taskflowId)) else c
  }

  /** Every position keeps the existing calculation when there is one and it
      is not forced; every new calculation carries the one taskflow id. */
  lemma FetchOrSubmitPositions(molIds: seq<string>, imageName: string, geoms: Option<seq<Option<Json>>>,
                               force: bool, has3d: string -> bool, store: CalcStore, ctx: SubmitContext,
                               runParameters: Option<map<string, Json>>, i: nat)
    requires !CheckRequiredCoords(molIds, imageName, has3d).raises
    requires FetchOrSubmit(molIds, imageName, geoms, force, has3d, store, ctx, runParameters).Ok?
    requires i < |Pairs(molIds, geoms)|
    ensures var r := FetchOrSubmit(molIds, imageName, geoms, force, has3d, store, ctx, runParameters).value;
            var pair := (molIds[i], if geoms.None? then None else geoms.value[i]);
            (!Creates(store, force, i, pair) ==> r.calcs[i] == store.existing(i, pair.0, pair.1).value)
            && (Creates(store, force, i, pair) ==>
                  r.submission.Some?
                  && r.calcs[i] == store.create(i, pair.0, pair.1).(taskFlowId := Some(ctx.taskflowId)))
  {
    var pairs := Pairs(molIds, geoms);
    if Creates(store, force, i, pairs[i]) {
      PendingNonEmpty(store, force, pairs, i);
    }
  }

  lemma PendingNonEmpty(store: CalcStore, force: bool, pairs: seq<(string, Option<Json>)>, i: nat)
    requires i < |pairs| && Creates(store, force, i, pairs[i])
    ensures |PendingIds(store, force, pairs)| > 0
  {
    PendingIdsCount(store, force, pairs);
  }

  /** A taskflow is submitted exactly when some calculation is new. */
  lemma SubmitsIffPending(molIds: seq<string>, imageName: string, geoms: Option<seq<Option<Json>>>,
                          force: bool, has3d: string -> bool, store: CalcStore, ctx: SubmitContext,
                          runParameters: Option<map<string, Json>>)
    requires !CheckRequiredCoords(molIds, imageName, has3d).raises
    requires FetchOrSubmit(molIds, imageName, geoms, force, has3d, store, ctx, runParameters).Ok?
    ensures FetchOrSubmit(molIds, imageName, geoms, force, has3d, store, ctx, runParameters).value.submission.Some?
        <==> exists i :: 0 <= i < |Pairs(molIds, geoms)| && Creates(store, force, i, Pairs(molIds, geoms)[i])
  {
    PendingIdsCount(store, force, Pairs(molIds, geoms));
  }

  /** Forcing creates a pending calculation for every molecule, the k-th
      pending id being the one posted for the k-th pair; when posts yield
      fresh calculations, a molecule listed twice gets two of them. */
  lemma {:induction false} ForceCreatesAll(store: CalcStore, pairs: seq<(string, Option<Json>)>)
    ensures |PendingIds(store, true, pairs)| == |pairs|
    ensures forall k :: 0 <= k < |pairs| ==>
              PendingIds(store, true, pairs)[k] == store.create(k, pairs[k].0, pairs[k].1).id
    ensures FreshCreations(store) ==>
              forall i, j :: 0 <= i < j < |pairs| ==> PendingIds(store, true, pairs)[i] != PendingIds(store, true, pairs)[j]
    decreases |pairs|
  {
    if |pairs| > 0 {
      var init := pairs[..|pairs| - 1];
      ForceCreatesAll(store, init);
      assert forall k :: 0 <= k < |init| ==> init[k] == pairs[k];
    }
  }

  /** With no geometry list and no coordinate trouble, there is one result per
      molecule; with no molecules there is nothing to parse, submit or fail. */
  lemma FetchOrSubmitEmpty(imageName: string, geoms: Option<seq<Option<Json>>>, force: bool,
                           has3d: string -> bool, store: CalcStore, ctx: SubmitContext,
                           runParameters: Option<map<string, Json>>)
    ensures FetchOrSubmit([], imageName, geoms, force, has3d, store, ctx, runParameters) == Ok(Fetched([], None))
  {
  }

  /** The pass as the client runs it: a first loop that looks up or creates a
      calculation per pair and collects the new ones, then one submission and
      a second loop that attaches its taskflow id to each new calculation. */
  method FetchOrSubmitCalculations(molIds: seq<string>, imageName: string, geoms: Option<seq<Option<Json>>>,
                                   force: bool, has3d: string -> bool, store: CalcStore,
                                   ctx: SubmitContext, runParameters: Option<map<string, Json>>)
    returns (r: Result<Fetched, CalcError>)
    ensures r == FetchOrSubmit(molIds, imageName, geoms, force, has3d, store, ctx, runParameters)
  {
    if CheckRequiredCoords(molIds, imageName, has3d).raises {
      return Ok(Fetched([], None));
    }
    var pairs := Pairs(molIds, geoms);
    if |pairs| > 0 && ParseImageName(imageName).Err? {
      return Err(BadImageName(imageName));
    }
    var calcs, created, pending := LookUpOrCreate(store, force, pairs);
    if |pending| == 0 {
      return Ok(Fetched(calcs, None));
    }
    var submitted := SubmitCalculations(ctx, pending, imageName, runParameters);
    if submitted.Err? {
      return Err(submitted.error);
    }
    var submission := submitted.value;
    calcs := AttachTaskflow(store, force, pairs, calcs, created, submission.taskflowId);
    return Ok(Fetched(calcs, Some(submission)));
  }

  /** The first loop: one calculation per pair, which ones are new, and the
      ids of the new ones. */
  method LookUpOrCreate(store: CalcStore, force: bool, pairs: seq<(string, Option<Json>)>)
    returns (calcs: seq<Calc>, created: seq<bool>, pending: seq<string>)
    ensures calcs == ChosenAll(store, force, pairs)
    ensures |created| == |pairs| && forall k :: 0 <= k < |pairs| ==> created[k] == Creates(store, force, k, pairs[k])
    ensures pending == PendingIds(store, force, pairs)
  {
    calcs, created, pending := [], [], [];
    var i := 0;
    while i < |pairs|
      invariant 0 <= i <= |pairs|
      invariant |calcs| == i && |created| == i
      invariant forall k :: 0 <= k < i ==> calcs[k] == Chosen(store, force, k, pairs[k])
      invariant forall k :: 0 <= k < i ==> created[k] == Creates(store, force, k, pairs[k])
      invariant pending == PendingIds(store, force, pairs[..i])
    {
      ghost var next := PendingIds(store, force, pairs[..i + 1]);
      assert next == pending + NewId(store, force, i, pairs[i]) by {
        PendingIdsSnoc(store, force, pairs[..i], pairs[i]);
        assert pairs[..i + 1] == pairs[..i] + [pairs[i]];
      }
      var found := store.existing(i, pairs[i].0, pairs[i].1);
      if found.None? || force {
        var c := store.create(i, pairs[i].0, pairs[i].1);
        assert c == Chosen(store, force, i, pairs[i]) && Creates(store, force, i, pairs[i]);
        calcs, created, pending := calcs + [c], created + [true], pending + [c.id];
      } else {
        assert found.value == Chosen(store, force, i, pairs[i]) && !Creates(store, force, i, pairs[i]);
        calcs, created := calcs + [found.value], created + [false];
        assert pending + [] == pending;
      }
      assert pending == next;
      i := i + 1;
    }
    assert pairs[..i] == pairs;
  }

  /** The id a pair contributes to the pending list. */
  function NewId(store: CalcStore, force: bool, k: nat, pair: (string, Option<Json>)): seq<string> {
    if Creates(store, force, k, pair) then [store.create(k, pair.0, pair.1).id] else []
  }

  /** Appending a pair appends its id when it is new. */
  lemma PendingIdsSnoc(store: CalcStore, force: bool, pairs: seq<(string, Option<Json>)>,
                                          pair: (string, Option<Json>))
    ensures PendingIds(store, force, pairs + [pair]) == PendingIds(store, force, pairs) + NewId(store, force, |pairs|, pair)
  {
    assert (pairs + [pair])[..|pairs|] == pairs;
  }

  /** The second loop: each new calculation gets the taskflow id, the others
      are left as they are. */
  method AttachTaskflow(store: CalcStore, force: bool, pairs: seq<(string, Option<Json>)>, calcs0: seq<Calc>,
                        created: seq<bool>, taskflowId: string)
    returns (calcs: seq<Calc>)
    requires calcs0 == ChosenAll(store, force, pairs)
    requires |created| == |pairs| && forall k :: 0 <= k < |pairs| ==> created[k] == Creates(store, force, k, pairs[k])
    ensures calcs == TaggedAll(store, force, pairs, taskflowId)
  {
    calcs := calcs0;
    var j := 0;
    while j < |calcs|
      invariant 0 <= j <= |calcs| == |pairs|
      invariant forall k :: 0 <= k < j ==>
                  calcs[k] == Tagged(Chosen(store, force, k, pairs[k]), Creates(store, force, k, pairs[k]), taskflowId)
      invariant forall k :: j <= k < |calcs| ==> calcs[k] == Chosen(store, force, k, pairs[k])
    {
      if created[j] {
        calcs := calcs[j := calcs[j].(taskFlowId := Some(taskflowId))];
      }
      j := j + 1;
    }
  }
}
