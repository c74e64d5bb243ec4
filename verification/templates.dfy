/** The template taskflows of both plug-in packages: set up the input of one
    calculation (choose the geometry, build the parameter dictionary), create
    the job for the kind of cluster the name says, and ingest the output files
    the code's plug-in selects. */
module Templates {
  import opened Wrappers
  import opened Text
  import opened Lists
  import opened Store
  import opened Scheduling
  import opened Plugins
  import opened Xyz

  // ---------------------------------------------------------------------------
  // Cluster dispatch and job bodies

  const CoriName := "cori"
  const DemoClusterName := "demo_cluster"

  /** `_nersc` and `_demo` on `cluster.get('name')`, tested in that order;
      every other cluster gets the ec2 job. */
  function TemplateClass(name: Option<string>): (cls: ClusterClass)
    ensures cls == Nersc <==> name == Some(CoriName)
    ensures cls == Demo <==> name == Some(DemoClusterName)
  {
    if name == Some(CoriName) then Nersc
    else if name == Some(DemoClusterName) then Demo
    else Baremetal
  }

  /** The job body the template posts; it has no `uploadOutput` entry. */
  datatype TemplateJob = TemplateJob(name: string, commands: seq<string>, input: seq<Binding>,
                                     output: seq<Binding>, params: JobParams)

  /** `_create_job`: the job runs the plug-in's commands for the cluster on the
      input folder bound at `.`, has no output binding, and carries the NERSC
      scheduler fields exactly on `cori`. Plug-ins without NERSC commands fail
      there. */
  function CreateJob(p: Plugin, clusterName: Option<string>, inputName: string, inputFolderId: string,
                     taskFlowId: string, account: Option<string>, nwchemPath: Option<string>)
    : (r: Result<TemplateJob, CommandError>)
    ensures r.Err? <==> clusterName == Some(CoriName) && p != NwChemCjson
    ensures r.Err? ==> r.error == NotConfiguredForNersc(CodeLabel(p))
    ensures r.Ok? ==>
              r.value.name == CodeLabel(p) + "_run"
              && r.value.commands == JobCommands(p, TemplateClass(clusterName), inputName, nwchemPath).value
              && r.value.input == [Binding(inputFolderId, ".", [])]
              && r.value.output == []
              && r.value.params.taskFlowId == taskFlowId
    ensures r.Ok? ==> (r.value.params.nersc.Some? <==> clusterName == Some(CoriName))
    ensures r.Ok? && clusterName == Some(CoriName) ==>
              r.value.params.nersc.value == NerscFields(1, "debug", "haswell", account)
  {
    var cls := TemplateClass(clusterName);
    var commands :- JobCommands(p, cls, inputName, nwchemPath);
    Ok(TemplateJob(CodeLabel(p) + "_run", commands, SameFolder(inputFolderId), [],
                   JobParameters(cls, taskFlowId, account)))
  }

  /** For the cjson plug-ins a cluster that is neither `cori` nor `demo_cluster`
      gets exactly the job the demo cluster gets. */
  lemma Ec2JobIsDemoJob(p: Plugin, clusterName: Option<string>, inputName: string, inputFolderId: string,
                        taskFlowId: string, account: Option<string>, nwchemPath: Option<string>)
    requires !TakesXyz(p)
    requires clusterName != Some(CoriName) && clusterName != Some(DemoClusterName)
    ensures CreateJob(p, clusterName, inputName, inputFolderId, taskFlowId, account, nwchemPath)
         == CreateJob(p, Some(DemoClusterName), inputName, inputFolderId, taskFlowId, account, nwchemPath)
  {
    Ec2RunsDemoCommands(p, inputName, nwchemPath);
  }

  // ---------------------------------------------------------------------------
  // Choosing the input geometry

  /** `properties.input.calculationId` of the calculation: missing, present
      but null, or an id. */
  datatype InputRef = NoInputRef | NullInputRef | InputRef(calculationId: string)

  /** The calculation properties the template reads. */
  datatype Properties = Properties(calculationTypes: Option<seq<string>>, basisName: Option<string>,
                                   functional: Option<string>, theory: Option<string>, input: InputRef)

  /** Where the geometry comes from: an existing calculation or the molecule. */
  datatype GeometrySource = FromCalculation(id: string) | FromMolecule

  /** The nested tests of `setup_input_template`: an explicit input
      calculation; else, when asked to optimize, the first optimization the
      query found; else the best stored geometry; else the molecule itself.
      `optimized` are the ids the optimization query returned and `best` the
      id `_fetch_best_geometry` returned. A null input id skips the
      optimization query. */
  function GeometrySourceOf(input: InputRef, optimize: bool, optimized: seq<string>, best: Option<string>)
    : (src: GeometrySource)
  {
    var chosen :=
      match input
      case InputRef(id) => Some(id)
      case NullInputRef => None
      case NoInputRef => if optimize && |optimized| > 0 then Some(optimized[0]) else None;
    if chosen.Some? then FromCalculation(chosen.value)
    else if best.Some? then FromCalculation(best.value)
    else FromMolecule
  }

  /** The candidates in order of precedence. */
  function Candidates(input: InputRef, optimize: bool, optimized: seq<string>, best: Option<string>)
    : seq<Option<string>>
  {
    [if input.InputRef? then Some(input.calculationId) else None,
     if input.NoInputRef? && optimize && |optimized| > 0 then Some(optimized[0]) else None,
     best]
  }

  function FirstSome(xs: seq<Option<string>>): Option<string> {
    if |xs| == 0 then None else if xs[0].Some? then xs[0] else FirstSome(xs[1..])
  }

  /** The geometry comes from the first candidate present, in precedence
      order, and from the molecule only when there is none. */
  lemma GeometryPrecedence(input: InputRef, optimize: bool, optimized: seq<string>, best: Option<string>)
    ensures var first := FirstSome(Candidates(input, optimize, optimized, best));
            GeometrySourceOf(input, optimize, optimized, best)
            == (if first.Some? then FromCalculation(first.value) else FromMolecule)
  {
    var cs := Candidates(input, optimize, optimized, best);
    assert FirstSome([cs[2]]) == cs[2] by {
      assert [cs[2]][1..] == [];
    }
    assert FirstSome([cs[1], cs[2]]) == if cs[1].Some? then cs[1] else cs[2] by {
      assert [cs[1], cs[2]][1..] == [cs[2]];
    }
    assert cs[1..] == [cs[1], cs[2]];
  }

  /** An explicit input calculation wins over everything else. */
  lemma ExplicitInputWins(id: string, optimize: bool, optimized: seq<string>, best: Option<string>)
    ensures GeometrySourceOf(InputRef(id), optimize, optimized, best) == FromCalculation(id)
  {
  }

  /** The query for an existing optimization: the molecule, the `optimizations`
      type, and the basis as given with the functional and theory lowercased,
      each only when the calculation has it. */
  function OptimizedQuery(moleculeId: string, props: Properties): (q: map<string, string>)
    ensures q.Keys == {"moleculeId", "calculationType"}
                      + (if props.basisName.Some? then {"basis"} else {})
                      + (if props.functional.Some? then {"functional"} else {})
                      + (if props.theory.Some? then {"theory"} else {})
    ensures q["moleculeId"] == moleculeId && q["calculationType"] == "optimizations"
  {
    var q := map["moleculeId" := moleculeId, "calculationType" := "optimizations"];
    var q := if props.basisName.Some? then q["basis" := props.basisName.value] else q;
    var q := if props.functional.Some? then q["functional" := Lower(props.functional.value)] else q;
    if props.theory.Some? then q["theory" := Lower(props.theory.value)] else q
  }

  // ---------------------------------------------------------------------------
  // The parameter dictionary

  const Optimization := "optimization"

  /** `calculationTypes.append('optimization')` unless it is already there. */
  function WithOptimization(types: seq<string>): (r: seq<string>)
    ensures Optimization in r
    ensures Optimization in types ==> r == types
    ensures Optimization !in types ==> r == types + [Optimization]
  {
    if Optimization in types then types else types + [Optimization]
  }

  /** Adding the step a second time changes nothing. */
  lemma WithOptimizationIdempotent(types: seq<string>)
    ensures WithOptimization(WithOptimization(types)) == WithOptimization(types)
    ensures multiset(WithOptimization(types))[Optimization] == if Optimization in types
                                                               then multiset(types)[Optimization] else 1
  {
  }

  /** One `True` flag per calculation type. */
  function TypeFlags(types: seq<string>): (flags: map<string, Json>)
    ensures forall k :: k in flags <==> k in types
    ensures forall k :: k in flags ==> flags[k] == JBool(true)
  {
    if |types| == 0 then map[]
    else TypeFlags(types[..|types| - 1])[types[|types| - 1] := JBool(true)]
  }

  /** The parameters handed to the input generator: the type flags, the forced
      optimization flag, the basis as given, the functional and theory
      lowercased. */
  function SetupParams(types: seq<string>, forceOptimization: bool, props: Properties)
    : (params: map<string, Json>)
    ensures forall k :: k in params <==>
              k in types || (k == Optimization && forceOptimization)
              || (k == "basis" && props.basisName.Some?)
              || (k == "functional" && props.functional.Some?)
              || (k == "theory" && props.theory.Some?)
    ensures props.basisName.Some? ==> params["basis"] == JStr(props.basisName.value)
    ensures props.functional.Some? ==> params["functional"] == JStr(Lower(props.functional.value))
    ensures props.theory.Some? ==> params["theory"] == JStr(Lower(props.theory.value))
    ensures forall k :: k in params && k != "basis" && k != "functional" && k != "theory" ==>
              params[k] == JBool(true)
  {
    var flags := TypeFlags(types);
    var forced := PutIf(flags, forceOptimization, Optimization, JBool(true));
    var withBasis := PutIf(forced, props.basisName.Some?, "basis", JStr(props.basisName.GetOr("")));
    var withFunctional := PutIf(withBasis, props.functional.Some?, "functional", JStr(Lower(props.functional.GetOr(""))));
    PutIf(withFunctional, props.theory.Some?, "theory", JStr(Lower(props.theory.GetOr(""))))
  }

  /** The map with `k` set to `v` when `cond` holds, unchanged otherwise. */
  function PutIf(m: map<string, Json>, cond: bool, k: string, v: Json): (r: map<string, Json>)
    ensures forall x :: x in r <==> x in m || (cond && x == k)
    ensures cond ==> r[k] == v
    ensures forall x :: x in m && x != k ==> r[x] == m[x]
    ensures !cond ==> r == m
  {
    if cond then m[k := v] else m
  }

  /** The job is asked for the basis, functional and theory the optimization
      query filtered on. */
  lemma QueryAgreesWithParams(moleculeId: string, types: seq<string>, force: bool, props: Properties)
    ensures var q := OptimizedQuery(moleculeId, props);
            var params := SetupParams(types, force, props);
            forall k :: k in q && k in {"basis", "functional", "theory"} ==>
              k in params && params[k] == JStr(q[k])
  {
  }

  // ---------------------------------------------------------------------------
  // setup_input_template

  datatype SetupError =
    | InvalidCluster
    | NoCalculationId
    | NoCalculationTypes

  /** What a code receives: the cjson document or the indented xyz block. */
  datatype Geometry = CjsonGeometry(doc: Json) | XyzGeometry(text: string)

  /** The outcome of `setup_input_template`: the cluster store and cluster id
      the job goes to, the geometry source, the input calculation recorded on
      the calculation, the parameters and geometry handed to the generator, and
      the input file name. */
  datatype Setup = Setup(clusters: seq<Cluster>, clusterId: nat, source: GeometrySource,
                         recorded: Option<string>, params: map<string, Json>, geometry: Geometry,
                         inputName: string)

  /** The calculation types after the molecule fallback: `optimization` is
      appended when the geometry is not an existing calculation's. A missing
      list fails there and is read as empty elsewhere. */
  function TypesUsed(source: GeometrySource, types: Option<seq<string>>): Result<seq<string>, SetupError> {
    if source.FromMolecule? then
      if types.None? then Err(NoCalculationTypes) else Ok(WithOptimization(types.value))
    else Ok(types.GetOr([]))
  }

  /** `setup_input_template` up to the upload. `cjsonOf` and `xyzOf` are the
      geometry downloads for a source. */
  function SetupInputTemplate(p: Plugin, clusters: seq<Cluster>, cluster: ClusterArg, optimize: bool,
                              calculationId: Option<string>, props: Properties, optimized: seq<string>,
                              best: Option<string>, cjsonOf: GeometrySource -> Json,
                              xyzOf: GeometrySource -> string)
    : (r: Result<Setup, SetupError>)
    ensures r == Err(InvalidCluster) <==> cluster.name != Some(CoriName) && cluster.id.None?
    ensures r == Err(NoCalculationId) <==>
              (cluster.name == Some(CoriName) || cluster.id.Some?) && calculationId.None?
    ensures r.Ok? ==> cluster.name == Some(CoriName) ==>
              (r.value.clusters, r.value.clusterId) == (GetCori(clusters).0, GetCori(clusters).1.id)
    ensures r.Ok? ==> cluster.name != Some(CoriName) ==>
              r.value.clusters == clusters && Some(r.value.clusterId) == cluster.id
    ensures r.Ok? ==> r.value.source == GeometrySourceOf(props.input, optimize, optimized, best)
    ensures r.Ok? ==> (r.value.recorded.Some? <==> r.value.source.FromCalculation?)
    ensures r.Ok? && r.value.source.FromCalculation? ==> r.value.recorded == Some(r.value.source.id)
    ensures r.Ok? ==> TypesUsed(r.value.source, props.calculationTypes).Ok?
    ensures r.Ok? ==> r.value.params == SetupParams(TypesUsed(r.value.source, props.calculationTypes).value,
                                                    optimize && r.value.source.FromMolecule?, props)
    ensures r.Ok? ==> r.value.inputName == "oc." + CodeLabel(p) + ".in"
    ensures r.Ok? ==> r.value.geometry == if TakesXyz(p) then XyzGeometry(XyzBody(xyzOf(r.value.source)))
                                          else CjsonGeometry(cjsonOf(r.value.source))
  {
    var (clusters', clusterId) :- match ResolveCluster(clusters, cluster)
                                  case None => Err(InvalidCluster)
                                  case Some(resolved) => Ok(resolved);
    if calculationId.None? then Err(NoCalculationId)
    else
      var source := GeometrySourceOf(props.input, optimize, optimized, best);
      var types :- TypesUsed(source, props.calculationTypes);
      var recorded := if source.FromCalculation? then Some(source.id) else None;
      var geometry := if TakesXyz(p) then XyzGeometry(XyzBody(xyzOf(source)))
                      else CjsonGeometry(cjsonOf(source));
      Ok(Setup(clusters', clusterId, source, recorded,
               SetupParams(types, optimize && source.FromMolecule?, props), geometry,
               "oc." + CodeLabel(p) + ".in"))
  }

  /** A calculation computed on the molecule's own geometry always optimizes it
      first, whether or not optimization was asked for: the type is appended
      and becomes a flag, so the forced flag only repeats it. */
  lemma MoleculeGeometryIsOptimized(p: Plugin, clusters: seq<Cluster>, cluster: ClusterArg, optimize: bool,
                                    calculationId: Option<string>, props: Properties,
                                    optimized: seq<string>, best: Option<string>,
                                    cjsonOf: GeometrySource -> Json, xyzOf: GeometrySource -> string)
    requires SetupInputTemplate(p, clusters, cluster, optimize, calculationId, props, optimized, best,
                                cjsonOf, xyzOf).Ok?
    requires SetupInputTemplate(p, clusters, cluster, optimize, calculationId, props, optimized, best,
                                cjsonOf, xyzOf).value.source == FromMolecule
    ensures var s := SetupInputTemplate(p, clusters, cluster, optimize, calculationId, props, optimized, best,
                                        cjsonOf, xyzOf).value;
            Optimization in s.params && s.params[Optimization] == JBool(true)
            && s.params == SetupParams(WithOptimization(props.calculationTypes.value), false, props)
  {
    var s := SetupInputTemplate(p, clusters, cluster, optimize, calculationId, props, optimized, best,
                                cjsonOf, xyzOf).value;
    var types := WithOptimization(props.calculationTypes.value);
    assert s.params == SetupParams(types, optimize, props);
    ForcedFlagRepeats(types, props);
  }

  /** When the types already hold `optimization`, forcing the flag adds nothing. */
  lemma ForcedFlagRepeats(types: seq<string>, props: Properties)
    requires Optimization in types
    ensures SetupParams(types, true, props) == SetupParams(types, false, props)
    ensures Optimization in SetupParams(types, false, props)
    ensures SetupParams(types, false, props)[Optimization] == JBool(true)
  {
    var flags := TypeFlags(types);
    assert flags[Optimization := JBool(true)] == flags;
  }

  /** So psi4, handed those parameters, runs a geometry optimization. */
  lemma MoleculeGeometryRunsPsi4Optimize(types: seq<string>, force: bool, props: Properties)
    requires Psi4Input(SetupParams(WithOptimization(types), force, props)).Ok?
    ensures Psi4Input(SetupParams(WithOptimization(types), force, props)).value.task == "optimize"
  {
    var params := SetupParams(WithOptimization(types), force, props);
    assert Optimization in params && params[Optimization] == JBool(true);
  }

  /** The theory psi4 sees is the calculation's theory, lowercased; a DFT
      calculation of any capitalisation is rendered with its functional. */
  lemma SetupTheoryReachesPsi4(types: seq<string>, force: bool, props: Properties)
    requires props.theory.Some? && Lower(props.theory.value) == "dft"
    ensures var params := SetupParams(types, force, props);
            Psi4Input(params).Ok?
            && Psi4Input(params).value.theory
               == (if props.functional.Some? then JStr(Lower(props.functional.value))
                   else if "functional" in types then JBool(true) else JStr("b3lyp"))
  {
    var params := SetupParams(types, force, props);
    var theory := Lower(props.theory.value);
    assert Get(params, "theory", JStr("scf")) == JStr(theory);
    LowerIdempotent(props.theory.value);
    Psi4Dft(params, theory);
    assert Get(params, "functional", JStr("b3lyp"))
        == (if props.functional.Some? then JStr(Lower(props.functional.value))
            else if "functional" in types then JBool(true) else JStr("b3lyp"));
  }

  // ---------------------------------------------------------------------------
  // postprocess_template

  /** An ingested file is PUT on the calculation with `public` set. */
  datatype FilePut = FilePut(calculationId: string, fileId: string, public: bool)

  /** A selected item without exactly one file stops the ingestion. */
  datatype IngestError = WrongFileCount(item: string, found: nat)

  /** A selected output item that does not hold exactly one file. */
  predicate BadOutput(p: Plugin, it: Item) {
    Selected(p, it.name) && |it.files| != 1
  }

  function IsBad(p: Plugin): Item -> bool {
    (it: Item) => BadOutput(p, it)
  }

  /** The file a selected item with exactly one file contributes. */
  function SingleOf(p: Plugin, it: Item): Option<string> {
    if Selected(p, it.name) && |it.files| == 1 then Some(it.files[0]) else None
  }

  function Pick(p: Plugin): Item -> Option<string> {
    (it: Item) => SingleOf(p, it)
  }

  /** The ingestion over the output items in listing order: the file of every
      selected item before the first bad one, and the error that bad item
      raises, if there is one. */
  function Ingest(p: Plugin, items: seq<Item>): (r: (seq<string>, Option<IngestError>))
    ensures r.1.None? <==> forall i :: 0 <= i < |items| ==> !BadOutput(p, items[i])
    ensures r.1.None? ==> r.0 == FilterMap(items, Pick(p))
    ensures r.1.Some? ==> exists j :: 0 <= j < |items| && BadOutput(p, items[j])
                                      && (forall i :: 0 <= i < j ==> !BadOutput(p, items[i]))
                                      && r.1.value == WrongFileCount(items[j].name, |items[j].files|)
                                      && r.0 == FilterMap(items[..j], Pick(p))
  {
    match FirstMatch(items, IsBad(p))
    case None => (FilterMap(items, Pick(p)), None)
    case Some(j) => (FilterMap(items[..j], Pick(p)), Some(WrongFileCount(items[j].name, |items[j].files|)))
  }

  /** `postprocess_template` after the upload: flag the listed items with the
      plug-in's `select_output_files`, then PUT the one file of each flagged
      item on the calculation, stopping at the first flagged item that does
      not hold exactly one file. */
  method PostprocessTemplate(p: Plugin, items: seq<Item>, calculationId: string)
    returns (puts: seq<FilePut>, err: Option<IngestError>)
    ensures Files(puts) == Ingest(p, items).0 && err == Ingest(p, items).1
    ensures forall k :: 0 <= k < |puts| ==> puts[k].calculationId == calculationId && puts[k].public
  {
    var names := Names(items);
    var doCopy := SelectOutputFiles(p, names);
    var stop;
    puts, err, stop := IngestLoop(items, doCopy, calculationId);
    FlagsAreSelection(p, items, names, doCopy, stop);
    if err.Some? {
      IngestStopsAt(p, items, stop);
    } else {
      assert items[..stop] == items;
      IngestCompletes(p, items);
    }
  }

  /** A flagged item that does not hold exactly one file. */
  predicate BadAt(items: seq<Item>, flags: seq<bool>, j: nat)
    requires j < |items| && j < |flags|
  {
    flags[j] && |items[j].files| != 1
  }

  /** The files of the first `n` items that are flagged and hold one file. */
  function Flagged(items: seq<Item>, flags: seq<bool>, n: nat): seq<string>
    requires n <= |items| && |flags| == |items|
  {
    if n == 0 then []
    else Flagged(items, flags, n - 1) + Contribution(flags[n - 1], items[n - 1])
  }

  /** The file an item contributes when flagged and holding exactly one. */
  function Contribution(flag: bool, it: Item): seq<string> {
    if flag && |it.files| == 1 then [it.files[0]] else []
  }

  /** The loop of `postprocess_template` over the flags `select_output_files`
      returned: `stop` is where it ended, at the first bad item or after the
      last one. */
  method IngestLoop(items: seq<Item>, flags: seq<bool>, calculationId: string)
    returns (puts: seq<FilePut>, err: Option<IngestError>, stop: nat)
    requires |flags| == |items|
    ensures stop <= |items| && forall j :: 0 <= j < stop ==> !BadAt(items, flags, j)
    ensures Files(puts) == Flagged(items, flags, stop)
    ensures err.None? ==> stop == |items|
    ensures err.Some? ==> stop < |items| && BadAt(items, flags, stop)
                          && err == Some(WrongFileCount(items[stop].name, |items[stop].files|))
    ensures forall k :: 0 <= k < |puts| ==> puts[k].calculationId == calculationId && puts[k].public
  {
    puts := [];
    err := None;
    stop := 0;
    while stop < |items|
      invariant 0 <= stop <= |items|
      invariant forall j :: 0 <= j < stop ==> !BadAt(items, flags, j)
      invariant Files(puts) == Flagged(items, flags, stop)
      invariant forall k :: 0 <= k < |puts| ==> puts[k].calculationId == calculationId && puts[k].public
    {
      if flags[stop] {
        var files := items[stop].files;
        if |files| != 1 {
          err := Some(WrongFileCount(items[stop].name, |files|));
          return;
        }
        FilesAppend(puts, FilePut(calculationId, files[0], true));
        puts := puts + [FilePut(calculationId, files[0], true)];
      }
      stop := stop + 1;
    }
  }

  /** Flags set exactly for the selected names make the flagged files the
      selected ones, and a bad flagged item a bad output. */
  lemma FlagsAreSelection(p: Plugin, items: seq<Item>, names: seq<string>, flags: seq<bool>, n: nat)
    requires |names| == |items| && |flags| == |items| && n <= |items|
    requires forall k :: 0 <= k < |items| ==> names[k] == items[k].name
    requires forall k :: 0 <= k < |names| ==> (flags[k] <==> Selected(p, names[k]))
    ensures Flagged(items, flags, n) == FilterMap(items[..n], Pick(p))
    ensures forall j :: 0 <= j < |items| ==> (BadAt(items, flags, j) <==> BadOutput(p, items[j]))
  {
    forall j | 0 <= j < |items|
      ensures BadAt(items, flags, j) <==> BadOutput(p, items[j])
    {
      assert flags[j] <==> Selected(p, names[j]);
    }
    FlaggedAreSelected(p, items, flags, n);
  }

  /** The flagged files of a prefix are the files the selection picks from it. */
  lemma {:induction false} FlaggedAreSelected(p: Plugin, items: seq<Item>, flags: seq<bool>, n: nat)
    requires |flags| == |items| && n <= |items|
    requires forall k :: 0 <= k < |items| ==> (flags[k] <==> Selected(p, items[k].name))
    ensures Flagged(items, flags, n) == FilterMap(items[..n], Pick(p))
  {
    if n == 0 {
      assert items[..0] == [];
    } else {
      FlaggedAreSelected(p, items, flags, n - 1);
      TakeOne(p, items, n - 1);
      assert flags[n - 1] == Selected(p, items[n - 1].name);
    }
  }

  lemma IngestCompletes(p: Plugin, items: seq<Item>)
    requires forall j :: 0 <= j < |items| ==> !BadOutput(p, items[j])
    ensures Ingest(p, items).0 == FilterMap(items, Pick(p)) && Ingest(p, items).1 == None
  {
    assert forall j :: 0 <= j < |items| ==> !IsBad(p)(items[j]);
  }

  function Names(items: seq<Item>): (names: seq<string>)
    ensures |names| == |items| && forall k :: 0 <= k < |items| ==> names[k] == items[k].name
  {
    seq(|items|, k requires 0 <= k < |items| => items[k].name)
  }

  lemma TakeOne(p: Plugin, items: seq<Item>, i: nat)
    requires i < |items|
    ensures FilterMap(items[..i + 1], Pick(p))
         == FilterMap(items[..i], Pick(p)) + Contribution(Selected(p, items[i].name), items[i])
  {
    assert items[..i + 1] == items[..i] + [items[i]];
    FilterMapAppend(items[..i], items[i], Pick(p));
  }

  lemma IngestStopsAt(p: Plugin, items: seq<Item>, i: nat)
    requires i < |items| && BadOutput(p, items[i])
    requires forall j :: 0 <= j < i ==> !BadOutput(p, items[j])
    ensures Ingest(p, items).0 == FilterMap(items[..i], Pick(p))
    ensures Ingest(p, items).1 == Some(WrongFileCount(items[i].name, |items[i].files|))
  {
    var m := FirstMatch(items, IsBad(p));
    assert IsBad(p)(items[i]);
    assert m.Some?;
  }

  lemma FilesAppend(puts: seq<FilePut>, put: FilePut)
    ensures Files(puts + [put]) == Files(puts) + [put.fileId]
  {
  }

  /** The file ids of a sequence of PUTs. */
  function Files(puts: seq<FilePut>): (ids: seq<string>)
    ensures |ids| == |puts| && forall k :: 0 <= k < |puts| ==> ids[k] == puts[k].fileId
  {
    if |puts| == 0 then [] else [puts[0].fileId] + Files(puts[1..])
  }
}
