/** The container calculation taskflow: the job that asks an image to describe
    itself, the staging of the calculations' input, the job that runs them
    together, and the ingestion of what it produced. */
module CalculationJob {
  import opened Wrappers
  import opened Text
  import opened Lists
  import opened Store
  import opened Images
  import opened Scheduling

  /** The image a run uses; the digest is looked up when it is not given. */
  datatype Image = Image(repository: string, tag: string, digest: Option<string>)

  /** An image record on the server: its identity and the runtimes (`docker`,
      `singularity`, `shifter`, …) it has been registered for. */
  datatype ServerImage = ServerImage(repository: string, tag: string, digest: string,
                                     runtimes: set<string>)

  /** The run parameters the taskflow reads: the runtime, when given, and
      whether the scratch folder is kept. */
  datatype RunParameters = RunParameters(container: Option<string>, keepScratch: bool)

  /** Why a stage of the taskflow gives up. */
  datatype JobError =
    | ImageNotFound
    | InvalidClusterConfig
    | MissingRuntime(container: string)
    | UnknownRuntime(container: string)
    | NoCalculationIds
    | NoCalculations
    | ParametersDiffer
    | GeometryUnavailable(format: string)
    | OutputLookup(index: nat, lookup: LookupError)

  /** What `_get_job_parameters` hands on. */
  datatype Settings = Settings(container: string, repository: string, tag: string, digest: string,
                               hostDir: string, guestDir: string, jobDir: string,
                               setupCommands: seq<string>, params: JobParams)

  const GuestDir := "/data"

  // ---------------------------------------------------------------------------
  // Image queries

  /** The `images` query by repository and tag returns the matching records in
      server order; the digest is that of the first one. */
  function GetDigest(server: seq<ServerImage>, repository: string, tag: string): (r: Result<string, JobError>)
    ensures r.Err? <==> forall j :: 0 <= j < |server| ==> !(server[j].repository == repository && server[j].tag == tag)
    ensures r.Err? ==> r.error == ImageNotFound
    ensures r.Ok? ==> exists j :: 0 <= j < |server| && server[j].repository == repository
                                  && server[j].tag == tag && server[j].digest == r.value
                                  && forall k :: 0 <= k < j ==> !(server[k].repository == repository && server[k].tag == tag)
  {
    var p := (im: ServerImage) => im.repository == repository && im.tag == tag;
    var results := Filter(server, p);
    FilterFirst(server, p);
    if |results| < 1 then Err(ImageNotFound) else Ok(results[0].digest)
  }

  /** `_ensure_image_on_server`: some record must match repository, tag and
      digest, and the first one must be registered for the runtime. */
  function EnsureImageOnServer(server: seq<ServerImage>, repository: string, tag: string, digest: string,
                               container: string): (r: Result<(), JobError>)
    ensures r == Err(ImageNotFound) <==>
              forall j :: 0 <= j < |server| ==> !Identifies(server[j], repository, tag, digest)
    ensures r.Err? && r != Err(ImageNotFound) ==> r == Err(MissingRuntime(container))
  {
    var p := (im: ServerImage) => Identifies(im, repository, tag, digest);
    var results := Filter(server, p);
    FilterFirst(server, p);
    if |results| < 1 then Err(ImageNotFound)
    else if container !in results[0].runtimes then Err(MissingRuntime(container))
    else Ok(())
  }

  /** The check passes exactly when the first record of the image offers the
      runtime. */
  lemma EnsureImageFirstMatch(server: seq<ServerImage>, repository: string, tag: string, digest: string,
                              container: string)
    ensures EnsureImageOnServer(server, repository, tag, digest, container).Ok?
        <==> exists j :: 0 <= j < |server| && Identifies(server[j], repository, tag, digest)
                         && container in server[j].runtimes
                         && forall k :: 0 <= k < j ==> !Identifies(server[k], repository, tag, digest)
  {
    var p := (im: ServerImage) => Identifies(im, repository, tag, digest);
    FilterFirst(server, p);
    var m := FirstMatch(server, p);
    if m.Some? {
      var i := m.value;
      forall j | 0 <= j < |server| && Identifies(server[j], repository, tag, digest)
                 && forall k :: 0 <= k < j ==> !Identifies(server[k], repository, tag, digest)
        ensures j == i
      {
        assert p(server[i]) && p(server[j]);
      }
    }
  }

  /** The record is the image with this repository, tag and digest. */
  predicate Identifies(im: ServerImage, repository: string, tag: string, digest: string) {
    im.repository == repository && im.tag == tag && im.digest == digest
  }

  /** The head of a filtered sequence is the first element passing the test. */
  lemma FilterFirst<T>(xs: seq<T>, p: T -> bool)
    ensures |Filter(xs, p)| > 0 <==> exists j :: 0 <= j < |xs| && p(xs[j])
    ensures |Filter(xs, p)| > 0 ==> FirstMatch(xs, p).Some? && Filter(xs, p)[0] == xs[FirstMatch(xs, p).value]
    decreases |xs|
  {
    if |xs| > 0 && !p(xs[0]) {
      FilterFirst(xs[1..], p);
      if exists j :: 0 <= j < |xs| && p(xs[j]) {
        var j :| 0 <= j < |xs| && p(xs[j]);
        assert p(xs[1..][j - 1]);
      }
    }
  }

  // ---------------------------------------------------------------------------
  // Job parameters

  /** `_get_job_parameters`: the runtime defaults to docker; NERSC forces
      shifter and adds the scheduler fields; the demo deployment mounts
      `dev_job_data`, runs in the job's own directory and adds one setup
      command; a bare-metal cluster mounts the working directory. */
  function GetJobParameters(cls: ClusterClass, image: Image, run: RunParameters, server: seq<ServerImage>,
                            taskFlowId: string, account: Option<string>): (r: Result<Settings, JobError>)
    ensures r.Ok? <==> image.digest.Some? || GetDigest(server, image.repository, image.tag).Ok?
    ensures r.Err? ==> r.error == ImageNotFound
    ensures r.Ok? ==> r.value.digest == (if image.digest.Some? then image.digest.value
                                         else GetDigest(server, image.repository, image.tag).value)
    ensures r.Ok? ==> r.value.repository == image.repository && r.value.tag == image.tag
    ensures r.Ok? ==> r.value.container == (if cls == Nersc then "shifter" else run.container.GetOr("docker"))
    ensures r.Ok? ==> r.value.guestDir == "/data" && r.value.params.taskFlowId == taskFlowId
    ensures r.Ok? ==> (r.value.params.nersc.Some? <==> cls == Nersc)
    ensures r.Ok? && cls == Nersc ==> r.value.params.nersc.value == NerscFields(1, "debug", "haswell", account)
    ensures r.Ok? && cls == Demo ==>
              r.value.hostDir == "dev_job_data" && r.value.jobDir == "{{job._id}}"
              && r.value.setupCommands == ["source scl_source enable python27"]
    ensures r.Ok? && cls != Demo ==>
              r.value.hostDir == "$(pwd)" && r.value.jobDir == "" && r.value.setupCommands == []
  {
    var digest :- if image.digest.Some? then Ok(image.digest.value)
                  else GetDigest(server, image.repository, image.tag);
    var container := if cls == Nersc then Shifter else run.container.GetOr(Docker);
    var hostDir := if cls == Demo then "dev_job_data" else "$(pwd)";
    var jobDir := if cls == Demo then "{{job._id}}" else "";
    Ok(Settings(container, image.repository, image.tag, digest, hostDir, GuestDir, jobDir,
                SetupCommands(cls), JobParameters(cls, taskFlowId, account)))
  }

  /** How the job addresses the image: singularity by the sif file of the
      digest, every other runtime by `repository:tag`. */
  function ImageString(s: Settings, digestToSif: string -> string): string {
    if s.container == Singularity then digestToSif(s.digest) else ImageName(s.repository, s.tag)
  }

  // ---------------------------------------------------------------------------
  // The description job

  const DescriptionOutput := "description.json"

  function DescriptionRun(container: string): string {
    if container == Shifter then "shifter --image=$IMAGE_NAME --entrypoint --"
    else container + " run $IMAGE_NAME"
  }

  /** `_create_description_job`: the image must be on the server for the
      runtime; the job sets `IMAGE_NAME` and runs the image with `-d`, saving
      its description; one folder is both input and output. */
  function CreateDescriptionJob(cls: ClusterClass, image: Image, run: RunParameters, server: seq<ServerImage>,
                                taskFlowId: string, account: Option<string>, folderId: string,
                                digestToSif: string -> string): (r: Result<JobBody, JobError>)
    ensures r.Ok? <==> GetJobParameters(cls, image, run, server, taskFlowId, account).Ok?
                       && (var s := GetJobParameters(cls, image, run, server, taskFlowId, account).value;
                           EnsureImageOnServer(server, s.repository, s.tag, s.digest, s.container).Ok?)
    ensures r.Ok? ==>
              var s := GetJobParameters(cls, image, run, server, taskFlowId, account).value;
              && r.value.commands == s.setupCommands + ["IMAGE_NAME=" + ImageString(s, digestToSif),
                                                        DescriptionRun(s.container) + " -d > " + DescriptionOutput]
              && r.value.name == "desc_" + Sanitize(image.repository)
              && r.value.input == [Binding(folderId, ".", [])] && r.value.output == r.value.input
              && !r.value.uploadOutput && r.value.params == s.params
  {
    var s :- GetJobParameters(cls, image, run, server, taskFlowId, account);
    var _ :- EnsureImageOnServer(server, s.repository, s.tag, s.digest, s.container);
    var commands := s.setupCommands + ["IMAGE_NAME=" + ImageString(s, digestToSif),
                                       DescriptionRun(s.container) + " -d > " + DescriptionOutput];
    Ok(JobBody("desc_" + Sanitize(s.repository), commands, SameFolder(folderId), SameFolder(folderId),
               false, s.params))
  }

  // ---------------------------------------------------------------------------
  // Staging the input

  /** A calculation record as the taskflow reads it: the molecule, the
      geometry when one is set, and `input.parameters` when present. */
  datatype Calculation = Calculation(moleculeId: string, geometryId: Option<string>,
                                     parameters: Option<Json>)

  /** The parameters of a calculation; a missing entry counts as `{}`. */
  function Parameters(c: Calculation): Json {
    c.parameters.GetOr(JObj(map[]))
  }

  /** Where the starting geometry of a calculation is fetched from: the
      geometry when the calculation names a non-empty one, else the molecule. */
  function GeometryPath(c: Calculation, format: string): string {
    "molecules/" + c.moleculeId + "/"
    + (if c.geometryId.Some? && c.geometryId.value != "" then "geometries/" + c.geometryId.value + "/" else "")
    + format
  }

  const ParametersFile := "input_parameters.json"

  /** The name the i-th starting geometry (counting from 0) is uploaded under. */
  function GeometryName(i: nat, format: string): string {
    "geometry_" + NatToString(i + 1) + "." + format
  }

  /** The name the job writes the i-th result (counting from 0) under. */
  function OutputName(i: nat, format: string): string {
    "output_" + NatToString(i + 1) + "." + format
  }

  /** The staged input: the shared parameters and the named geometry files. */
  datatype StagedInput = StagedInput(parameters: Json, geometries: seq<(string, string)>)

  /** Fetch every starting geometry in order; `fetch` yields the content of a
      path when the server answers 200. The first failure stops the stage. */
  function FetchGeometries(cs: seq<Calculation>, format: string, fetch: string -> Option<string>)
    : (r: Result<seq<string>, JobError>)
    ensures r.Ok? <==> forall i :: 0 <= i < |cs| ==> fetch(GeometryPath(cs[i], format)).Some?
    ensures r.Err? ==> r.error == GeometryUnavailable(format)
    ensures r.Ok? ==> |r.value| == |cs|
                      && forall i :: 0 <= i < |cs| ==> r.value[i] == fetch(GeometryPath(cs[i], format)).value
    decreases |cs|
  {
    if |cs| == 0 then Ok([])
    else match fetch(GeometryPath(cs[0], format))
      case None => Err(GeometryUnavailable(format))
      case Some(data) =>
        match FetchGeometries(cs[1..], format, fetch)
        case Err(e) => Err(e)
        case Ok(rest) =>
          assert forall i :: 1 <= i < |cs| ==> cs[i] == cs[1..][i - 1];
          Ok([data] + rest)
  }

  /** `setup_input`: the calculation ids must be present and non-empty, every
      calculation's parameters must equal the first's, and every starting
      geometry must be available; the i-th geometry is staged as
      `geometry_<i+1>.<format>`. */
  function SetupInput(calculations: Option<seq<Calculation>>, format: string, fetch: string -> Option<string>)
    : (r: Result<StagedInput, JobError>)
    ensures calculations.None? ==> r == Err(NoCalculationIds)
    ensures calculations == Some([]) ==> r == Err(NoCalculations)
    ensures calculations.Some? && |calculations.value| > 0 ==>
              (r == Err(ParametersDiffer) <==>
                 exists i :: 0 <= i < |calculations.value|
                             && Parameters(calculations.value[i]) != Parameters(calculations.value[0]))
    ensures r.Ok? <==> calculations.Some? && |calculations.value| > 0
                       && (forall i :: 0 <= i < |calculations.value| ==>
                             Parameters(calculations.value[i]) == Parameters(calculations.value[0]))
                       && (forall i :: 0 <= i < |calculations.value| ==>
                             fetch(GeometryPath(calculations.value[i], format)).Some?)
    ensures r.Ok? ==>
              var cs := calculations.value;
              && (forall i :: 0 <= i < |cs| ==> Parameters(cs[i]) == r.value.parameters)
              && |r.value.geometries| == |cs|
              && forall i :: 0 <= i < |cs| ==>
                   r.value.geometries[i] == (GeometryName(i, format), fetch(GeometryPath(cs[i], format)).value)
  {
    match calculations
    case None => Err(NoCalculationIds)
    case Some(cs) =>
      if exists i :: 0 <= i < |cs| && Parameters(cs[i]) != Parameters(cs[0]) then Err(ParametersDiffer)
      else if |cs| == 0 then Err(NoCalculations)
      else
        var data :- FetchGeometries(cs, format, fetch);
        Ok(StagedInput(Parameters(cs[0]), seq(|cs|, i requires 0 <= i < |cs| => (GeometryName(i, format), data[i]))))
  }

  /** `setup_input` as a whole: the cluster is resolved first (a `cori`
      cluster fetched or created, any other one needing an `_id`), then the
      input is staged. The result is the store afterwards, the cluster id and
      the staged input. */
  function SetupInputOnCluster(clusters: seq<Cluster>, cluster: ClusterArg, calculations: Option<seq<Calculation>>,
                               format: string, fetch: string -> Option<string>)
    : (r: Result<(seq<Cluster>, nat, StagedInput), JobError>)
    ensures r == Err(InvalidClusterConfig) <==> ResolveCluster(clusters, cluster).None?
    ensures ResolveCluster(clusters, cluster).Some? ==>
              (r.Ok? <==> SetupInput(calculations, format, fetch).Ok?)
              && (r.Err? ==> r.error == SetupInput(calculations, format, fetch).error)
    ensures r.Ok? ==> (r.value.0, r.value.1) == ResolveCluster(clusters, cluster).value
                      && r.value.2 == SetupInput(calculations, format, fetch).value
  {
    match ResolveCluster(clusters, cluster)
    case None => Err(InvalidClusterConfig)
    case Some((after, clusterId)) =>
      var staged :- SetupInput(calculations, format, fetch);
      Ok((after, clusterId, staged))
  }

  // ---------------------------------------------------------------------------
  // The calculation job

  /** The formats the image's description declares for its input and output. */
  datatype Formats = Formats(input: string, output: string)

  /** The four folders staged for a run. */
  datatype Folders = Folders(input: string, output: string, scratch: string, run: string)

  function InputDir(s: Settings): string { PathJoin([s.guestDir, s.jobDir, "input"]) }
  function OutputDir(s: Settings): string { PathJoin([s.guestDir, s.jobDir, "output"]) }
  function ScratchDir(s: Settings): string { PathJoin([s.guestDir, s.jobDir, "scratch"]) }

  function GeometryPaths(s: Settings, n: nat, format: string): (ps: seq<string>)
    ensures |ps| == n
  {
    seq(n, i requires 0 <= i < n => PathJoin([InputDir(s), GeometryName(i, format)]))
  }

  function OutputPaths(s: Settings, n: nat, format: string): (ps: seq<string>)
    ensures |ps| == n
  {
    seq(n, i requires 0 <= i < n => PathJoin([OutputDir(s), OutputName(i, format)]))
  }

  /** The ` -g <geometry> -o <output>` pairs, in order. */
  function PairArgs(gs: seq<string>, os: seq<string>): string
    requires |gs| == |os|
    decreases |gs|
  {
    if |gs| == 0 then "" else " -g " + gs[0] + " -o " + os[0] + PairArgs(gs[1..], os[1..])
  }

  /** The container's arguments: the parameters file, the scratch directory
      and one geometry/output pair per calculation. */
  function ContainerArgs(s: Settings, formats: Formats, n: nat): string {
    "-p " + PathJoin([InputDir(s), ParametersFile]) + " -s " + ScratchDir(s)
    + PairArgs(GeometryPaths(s, n, formats.input), OutputPaths(s, n, formats.output))
  }

  /** The flag each runtime uses to mount a directory; no other runtime has one. */
  function BindFlag(container: string): Option<string> {
    if container == Docker then Some("-v")
    else if container == Singularity then Some("-B")
    else if container == Shifter then Some("-V")
    else None
  }

  function Mount(flag: string, s: Settings): string {
    flag + " " + s.hostDir + ":" + s.guestDir
  }

  /** The command that runs the image; shifter takes the image as an option
      and needs an explicit entry point. */
  function RunCommand(s: Settings, flag: string, image: string, args: string): string {
    if s.container != Shifter then s.container + " run " + Mount(flag, s) + " " + image + " " + args
    else "shifter " + Mount(flag, s) + " --image=" + image + " --entrypoint -- " + args
  }

  /** What the job uploads: its outputs, its run directory without the staged
      folders, and the scratch directory only when it is kept. */
  function OutputBindings(folders: Folders, keepScratch: bool): (bs: seq<Binding>)
    ensures |bs| == (if keepScratch then 3 else 2)
    ensures bs[0] == Binding(folders.output, "./output", [])
    ensures bs[1] == Binding(folders.run, ".", ["input", "output", "scratch"])
    ensures keepScratch ==> bs[2] == Binding(folders.scratch, "./scratch", [])
  {
    [Binding(folders.output, "./output", []), Binding(folders.run, ".", ["input", "output", "scratch"])]
    + (if keepScratch then [Binding(folders.scratch, "./scratch", [])] else [])
  }

  /** `_create_job` for `n` calculations. */
  function CreateRunJob(cls: ClusterClass, image: Image, run: RunParameters, server: seq<ServerImage>,
                        taskFlowId: string, account: Option<string>, formats: Formats, n: nat,
                        folders: Folders, digestToSif: string -> string): (r: Result<JobBody, JobError>)
    ensures r.Ok? <==> GetJobParameters(cls, image, run, server, taskFlowId, account).Ok?
                       && GetJobParameters(cls, image, run, server, taskFlowId, account).value.container
                          in {"docker", "singularity", "shifter"}
    ensures r.Err? && GetJobParameters(cls, image, run, server, taskFlowId, account).Ok? ==>
              r.error == UnknownRuntime(GetJobParameters(cls, image, run, server, taskFlowId, account).value.container)
    ensures r.Ok? ==>
              var s := GetJobParameters(cls, image, run, server, taskFlowId, account).value;
              && |r.value.commands| == 3
              && r.value.commands[..2] == ["mkdir output", "mkdir scratch"]
              && r.value.commands[2] == RunCommand(s, BindFlag(s.container).value, ImageString(s, digestToSif),
                                                   ContainerArgs(s, formats, n))
              && r.value.input == [Binding(folders.input, "./input", [])]
              && r.value.output == OutputBindings(folders, run.keepScratch)
              && r.value.name == "run_" + Sanitize(image.repository)
              && !r.value.uploadOutput && r.value.params == s.params
  {
    var s :- GetJobParameters(cls, image, run, server, taskFlowId, account);
    match BindFlag(s.container)
    case None => Err(UnknownRuntime(s.container))
    case Some(flag) =>
      var command := RunCommand(s, flag, ImageString(s, digestToSif), ContainerArgs(s, formats, n));
      Ok(JobBody("run_" + Sanitize(s.repository), ["mkdir output", "mkdir scratch", command],
                 [Binding(folders.input, "./input", [])], OutputBindings(folders, run.keepScratch),
                 false, s.params))
  }

  // ---------------------------------------------------------------------------
  // The command line the cluster runs

  /** The words of the geometry/output pairs. */
  function PairTokens(gs: seq<string>, os: seq<string>): (ts: seq<string>)
    requires |gs| == |os|
    ensures |ts| == 4 * |gs|
    decreases |gs|
  {
    if |gs| == 0 then [] else ["-g", gs[0], "-o", os[0]] + PairTokens(gs[1..], os[1..])
  }

  /** The words of the container's arguments. */
  function ArgTokens(s: Settings, formats: Formats, n: nat): seq<string> {
    ["-p", PathJoin([InputDir(s), ParametersFile]), "-s", ScratchDir(s)]
    + PairTokens(GeometryPaths(s, n, formats.input), OutputPaths(s, n, formats.output))
  }

  /** The words before the container's arguments. */
  function RunHead(s: Settings, flag: string, image: string): seq<string> {
    if s.container != Shifter then [s.container, "run", flag, s.hostDir + ":" + s.guestDir, image]
    else ["shifter", flag, s.hostDir + ":" + s.guestDir, "--image=" + image, "--entrypoint", "--"]
  }

  /** The words of the whole run command. */
  function RunWords(s: Settings, flag: string, image: string, formats: Formats, n: nat): seq<string> {
    RunHead(s, flag, image) + ArgTokens(s, formats, n)
  }

  lemma JoinFour(a: string, b: string, c: string, d: string)
    ensures Join([a, b, c, d], " ") == a + " " + b + " " + c + " " + d
  {
    JoinCons(c, [d], " ");
    assert [c, d] == [c] + [d];
    JoinCons(b, [c, d], " ");
    assert [b, c, d] == [b] + [c, d];
    JoinCons(a, [b, c, d], " ");
    assert [a, b, c, d] == [a] + [b, c, d];
  }

  /** The pairs as the loop appends them are the pair words joined by spaces. */
  lemma {:induction false} PairArgsJoin(gs: seq<string>, os: seq<string>)
    requires |gs| == |os| && |gs| > 0
    ensures PairArgs(gs, os) == " " + Join(PairTokens(gs, os), " ")
    decreases |gs|
  {
    var head := ["-g", gs[0], "-o", os[0]];
    var unit := " -g " + gs[0] + " -o " + os[0];
    JoinFour("-g", gs[0], "-o", os[0]);
    assert unit == " " + Join(head, " ");
    var rest := PairArgs(gs[1..], os[1..]);
    assert PairArgs(gs, os) == unit + rest;
    var rt := PairTokens(gs[1..], os[1..]);
    assert PairTokens(gs, os) == head + rt;
    if |gs| == 1 {
      assert rest == "" && rt == [];
      assert head + rt == head;
    } else {
      PairArgsJoin(gs[1..], os[1..]);
      JoinAppend(head, rt, " ");
    }
  }

  /** The argument string is its words joined by single spaces. */
  lemma ContainerArgsJoin(s: Settings, formats: Formats, n: nat)
    ensures ContainerArgs(s, formats, n) == Join(ArgTokens(s, formats, n), " ")
  {
    var p := PathJoin([InputDir(s), ParametersFile]);
    var gs := GeometryPaths(s, n, formats.input);
    var os := OutputPaths(s, n, formats.output);
    var head := ["-p", p, "-s", ScratchDir(s)];
    var h := "-p " + p + " -s " + ScratchDir(s);
    ArgHeadJoin(p, ScratchDir(s));
    assert ContainerArgs(s, formats, n) == h + PairArgs(gs, os);
    assert ArgTokens(s, formats, n) == head + PairTokens(gs, os);
    if n == 0 {
      assert PairArgs(gs, os) == "" && PairTokens(gs, os) == [];
      assert head + [] == head && h + "" == h;
    } else {
      PairArgsJoin(gs, os);
      JoinAppend(head, PairTokens(gs, os), " ");
      AppendAssoc(h, " ", Join(PairTokens(gs, os), " "));
    }
  }

  lemma ArgHeadJoin(p: string, scratch: string)
    ensures Join(["-p", p, "-s", scratch], " ") == "-p " + p + " -s " + scratch
  {
    JoinFour("-p", p, "-s", scratch);
    assert "-p" + " " == "-p ";
    var x := "-p " + p;
    AppendAssoc(x, " ", "-s");
    AppendAssoc(x, " " + "-s", " ");
    assert " " + "-s" + " " == " -s ";
  }

  lemma {:induction false} PairTokensAt(gs: seq<string>, os: seq<string>, i: nat)
    requires |gs| == |os| && i < |gs|
    ensures PairTokens(gs, os)[4 * i..4 * i + 4] == ["-g", gs[i], "-o", os[i]]
    decreases i
  {
    if i > 0 {
      var head := ["-g", gs[0], "-o", os[0]];
      var rest := PairTokens(gs[1..], os[1..]);
      assert PairTokens(gs, os) == head + rest;
      SliceAfterPrefix(head, rest, 4 * i, 4 * i + 4);
      PairTokensAt(gs[1..], os[1..], i - 1);
      assert gs[1..][i - 1] == gs[i] && os[1..][i - 1] == os[i];
    }
  }

  /** For `n` calculations the container receives `-p <parameters> -s <scratch>`
      followed by exactly `n` pairs `-g <input dir>/geometry_<i>.<in>
      -o <output dir>/output_<i>.<out>`, for i = 1..n in order. */
  lemma ArgumentLayout(s: Settings, formats: Formats, n: nat)
    ensures |ArgTokens(s, formats, n)| == 4 + 4 * n
    ensures ArgTokens(s, formats, n)[..4]
         == ["-p", PathJoin([PathJoin([s.guestDir, s.jobDir, "input"]), "input_parameters.json"]),
             "-s", PathJoin([s.guestDir, s.jobDir, "scratch"])]
    ensures forall i :: 0 <= i < n ==>
              ArgTokens(s, formats, n)[4 + 4 * i..8 + 4 * i]
              == ["-g", PathJoin([PathJoin([s.guestDir, s.jobDir, "input"]), GeometryName(i, formats.input)]),
                  "-o", PathJoin([PathJoin([s.guestDir, s.jobDir, "output"]), OutputName(i, formats.output)])]
  {
    var gs := GeometryPaths(s, n, formats.input);
    var os := OutputPaths(s, n, formats.output);
    var ts := ArgTokens(s, formats, n);
    forall i | 0 <= i < n
      ensures ts[4 + 4 * i..8 + 4 * i]
              == ["-g", PathJoin([PathJoin([s.guestDir, s.jobDir, "input"]), GeometryName(i, formats.input)]),
                  "-o", PathJoin([PathJoin([s.guestDir, s.jobDir, "output"]), OutputName(i, formats.output)])]
    {
      PairTokensAt(gs, os, i);
      assert ts[4 + 4 * i..8 + 4 * i] == PairTokens(gs, os)[4 * i..4 * i + 4];
      assert gs[i] == PathJoin([InputDir(s), GeometryName(i, formats.input)]);
      assert os[i] == PathJoin([OutputDir(s), OutputName(i, formats.output)]);
    }
  }

  /** The run command is its words joined by single spaces. */
  lemma RunCommandJoin(s: Settings, flag: string, image: string, formats: Formats, n: nat)
    ensures RunCommand(s, flag, image, ContainerArgs(s, formats, n)) == Join(RunWords(s, flag, image, formats, n), " ")
  {
    var hg := s.hostDir + ":" + s.guestDir;
    var args := ArgTokens(s, formats, n);
    var a := ContainerArgs(s, formats, n);
    ContainerArgsJoin(s, formats, n);
    MountJoin(flag, s);
    var head := RunHead(s, flag, image);
    assert RunWords(s, flag, image, formats, n) == head + args;
    JoinAppend(head, args, " ");
    if s.container != Shifter {
      var j := RunHeadJoin(s.container, flag, hg, image);
      assert RunCommand(s, flag, image, a) == s.container + " run " + Mount(flag, s) + " " + image + " " + a;
    } else {
      var j := ShifterHeadJoin(flag, hg, image);
      ShifterCommandJoin(Mount(flag, s), image, a);
    }
  }

  /** A mount option: the flag, a space and `host:guest`. */
  lemma MountJoin(flag: string, s: Settings)
    ensures Mount(flag, s) == flag + " " + (s.hostDir + ":" + s.guestDir)
  {
    AppendAssoc(flag + " ", s.hostDir, ":");
    AppendAssoc(flag + " ", s.hostDir + ":", s.guestDir);
  }

  lemma ShifterCommandJoin(mount: string, image: string, a: string)
    ensures "shifter " + mount + " --image=" + image + " --entrypoint -- " + a
         == ("shifter " + mount + " --image=" + image + " --entrypoint --") + " " + a
  {
    var x := "shifter " + mount + " --image=" + image;
    AppendAssoc(x, " --entrypoint --", " ");
    assert " --entrypoint --" + " " == " --entrypoint -- ";
  }

  lemma RunHeadJoin(container: string, flag: string, hg: string, image: string) returns (j: string)
    ensures j == Join([container, "run", flag, hg, image], " ")
    ensures j == container + " run " + (flag + " " + hg) + " " + image
  {
    JoinFour("run", flag, hg, image);
    JoinCons(container, ["run", flag, hg, image], " ");
    assert [container, "run", flag, hg, image] == [container] + ["run", flag, hg, image];
    assert " run " == " " + "run" + " ";
    j := Join([container, "run", flag, hg, image], " ");
  }

  /** The last three words of the shifter command. */
  lemma ShifterTail(q: string)
    ensures Join([q, "--entrypoint", "--"], " ") == q + " --entrypoint --"
  {
    var j2 := Join(["--entrypoint", "--"], " ");
    assert j2 == "--entrypoint --";
    assert Join([q, "--entrypoint", "--"], " ") == (q + " ") + j2;
    AppendAssoc(q, " ", j2);
  }

  lemma ShifterHeadJoin(flag: string, hg: string, image: string) returns (j: string)
    ensures j == Join(["shifter", flag, hg, "--image=" + image, "--entrypoint", "--"], " ")
    ensures j == "shifter " + (flag + " " + hg) + " --image=" + image + " --entrypoint --"
  {
    var q := "--image=" + image;
    var lit := " --entrypoint --";
    var t := Join([q, "--entrypoint", "--"], " ");
    ShifterTail(q);
    var j4 := Join([hg, q, "--entrypoint", "--"], " ");
    JoinCons(hg, [q, "--entrypoint", "--"], " ");
    assert [hg] + [q, "--entrypoint", "--"] == [hg, q, "--entrypoint", "--"];
    AppendAssoc(hg, " ", t);
    var j5 := Join([flag, hg, q, "--entrypoint", "--"], " ");
    JoinCons(flag, [hg, q, "--entrypoint", "--"], " ");
    assert [flag] + [hg, q, "--entrypoint", "--"] == [flag, hg, q, "--entrypoint", "--"];
    j := Join(["shifter", flag, hg, q, "--entrypoint", "--"], " ");
    JoinCons("shifter", [flag, hg, q, "--entrypoint", "--"], " ");
    assert ["shifter"] + [flag, hg, q, "--entrypoint", "--"] == ["shifter", flag, hg, q, "--entrypoint", "--"];
    assert "shifter" + " " == "shifter ";
    // j == "shifter " + ((flag + " ") + (hg + (" " + t)))
    var m := flag + " " + hg;
    AppendAssoc(flag + " ", hg, " " + t);
    // j == "shifter " + (m + (" " + t))
    AppendAssoc(q, lit, "");
    AppendAssoc("--image=", image, lit);
    AppendAssoc(" ", "--image=", image + lit);
    assert " " + "--image=" == " --image=";
    var z := " --image=" + (image + lit);
    assert " " + t == z;
    AppendAssoc("shifter " + m + " --image=", image, lit);
    AppendAssoc("shifter " + m, " --image=", image + lit);
    AppendAssoc("shifter ", m, z);
  }

  /** Numbered file names hold no whitespace or path separator when the format
      holds none. */
  lemma NumberedNamePlain(prefix: string, i: nat, format: string)
    requires NoSpace(prefix) && '/' !in prefix && NoSpace(format) && '/' !in format
    ensures NoSpace(prefix + NatToString(i + 1) + "." + format)
    ensures '/' !in prefix + NatToString(i + 1) + "." + format
  {
    NatToStringPlain(i + 1);
  }

  /** A file under a staged directory is one word. */
  lemma StagedPathPlain(s: Settings, dir: string, name: string)
    requires NoSpace(s.guestDir) && NoSpace(s.jobDir) && NoSpace(dir) && NoSpace(name) && |name| > 0
    ensures NoSpace(PathJoin([PathJoin([s.guestDir, s.jobDir, dir]), name]))
    ensures |PathJoin([PathJoin([s.guestDir, s.jobDir, dir]), name])| > 0
  {
    PathJoinNoSpace([s.guestDir, s.jobDir, dir]);
    PathJoinNoSpace([PathJoin([s.guestDir, s.jobDir, dir]), name]);
  }

  /** The fixed words and name parts of the run command. */
  lemma ArgLiteralsPlain()
    ensures NoSpace("-g") && NoSpace("-o") && NoSpace("-p") && NoSpace("-s")
    ensures NoSpace("input") && NoSpace("output") && NoSpace("scratch")
  {
    VisibleNoSpace("-g");
    VisibleNoSpace("-o");
    VisibleNoSpace("-p");
    VisibleNoSpace("-s");
    VisibleNoSpace("input");
    VisibleNoSpace("output");
    VisibleNoSpace("scratch");
  }

  lemma FileLiteralsPlain()
    ensures NoSpace("geometry_") && '/' !in "geometry_" && NoSpace("output_") && '/' !in "output_"
    ensures NoSpace(ParametersFile)
  {
    VisibleNoSpace("geometry_");
    VisibleNoSpace("output_");
    VisibleNoSpace(ParametersFile);
  }

  lemma {:induction false} PairTokensPlain(gs: seq<string>, os: seq<string>)
    requires |gs| == |os| && Plain(gs) && Plain(os)
    ensures Plain(PairTokens(gs, os))
    decreases |gs|
  {
    if |gs| > 0 {
      PlainTail(gs);
      PlainTail(os);
      PairTokensPlain(gs[1..], os[1..]);
      ArgLiteralsPlain();
      PlainFour("-g", gs[0], "-o", os[0]);
      PlainConcat(["-g", gs[0], "-o", os[0]], PairTokens(gs[1..], os[1..]));
    }
  }

  lemma GeometryPathsPlain(s: Settings, format: string, n: nat)
    requires NoSpace(s.guestDir) && NoSpace(s.jobDir)
    requires NoSpace(format) && '/' !in format
    ensures Plain(GeometryPaths(s, n, format))
  {
    ArgLiteralsPlain();
    FileLiteralsPlain();
    var gs := GeometryPaths(s, n, format);
    forall i | 0 <= i < n
      ensures |gs[i]| > 0 && NoSpace(gs[i])
    {
      NumberedNamePlain("geometry_", i, format);
      StagedPathPlain(s, "input", GeometryName(i, format));
    }
  }

  lemma OutputPathsPlain(s: Settings, format: string, n: nat)
    requires NoSpace(s.guestDir) && NoSpace(s.jobDir)
    requires NoSpace(format) && '/' !in format
    ensures Plain(OutputPaths(s, n, format))
  {
    ArgLiteralsPlain();
    FileLiteralsPlain();
    var os := OutputPaths(s, n, format);
    forall i | 0 <= i < n
      ensures |os[i]| > 0 && NoSpace(os[i])
    {
      NumberedNamePlain("output_", i, format);
      StagedPathPlain(s, "output", OutputName(i, format));
    }
  }

  lemma ArgHeadPlain(s: Settings)
    requires NoSpace(s.guestDir) && NoSpace(s.jobDir)
    ensures Plain(["-p", PathJoin([InputDir(s), ParametersFile]), "-s", ScratchDir(s)])
  {
    ArgLiteralsPlain();
    FileLiteralsPlain();
    StagedPathPlain(s, "input", ParametersFile);
    PathJoinNoSpace([s.guestDir, s.jobDir, "scratch"]);
    assert |ScratchDir(s)| > 0 by {
      assert |ScratchDir(s)| >= |"scratch"|;
    }
    PlainFour("-p", PathJoin([InputDir(s), ParametersFile]), "-s", ScratchDir(s));
  }

  /** Every argument word is non-empty and free of whitespace when the mounted
      directories and the formats are. */
  lemma ArgTokensPlain(s: Settings, formats: Formats, n: nat)
    requires NoSpace(s.guestDir) && NoSpace(s.jobDir)
    requires NoSpace(formats.input) && '/' !in formats.input
    requires NoSpace(formats.output) && '/' !in formats.output
    ensures Plain(ArgTokens(s, formats, n))
  {
    GeometryPathsPlain(s, formats.input, n);
    OutputPathsPlain(s, formats.output, n);
    PairTokensPlain(GeometryPaths(s, n, formats.input), OutputPaths(s, n, formats.output));
    ArgHeadPlain(s);
    PlainConcat(["-p", PathJoin([InputDir(s), ParametersFile]), "-s", ScratchDir(s)],
                PairTokens(GeometryPaths(s, n, formats.input), OutputPaths(s, n, formats.output)));
  }

  /** The words of the run command's head are plain when its parts are. */
  lemma RunHeadPlain(s: Settings, flag: string, image: string)
    requires |s.container| > 0 && NoSpace(s.container) && |flag| > 0 && NoSpace(flag)
    requires |s.hostDir + ":" + s.guestDir| > 0 && NoSpace(s.hostDir + ":" + s.guestDir)
    requires |image| > 0 && NoSpace(image)
    ensures Plain(RunHead(s, flag, image))
  {
    var hg := s.hostDir + ":" + s.guestDir;
    if s.container != Shifter {
      VisibleNoSpace("run");
      PlainTwo(s.container, "run");
      PlainThree(flag, hg, image);
      PlainConcat([s.container, "run"], [flag, hg, image]);
      assert [s.container, "run"] + [flag, hg, image] == RunHead(s, flag, image);
    } else {
      ShifterWordsPlain();
      VisibleNoSpace("--image=");
      NoSpaceConcat("--image=", image);
      PlainThree("shifter", flag, hg);
      PlainThree("--image=" + image, "--entrypoint", "--");
      PlainConcat(["shifter", flag, hg], ["--image=" + image, "--entrypoint", "--"]);
      assert ["shifter", flag, hg] + ["--image=" + image, "--entrypoint", "--"] == RunHead(s, flag, image);
    }
  }

  lemma ShifterWordsPlain()
    ensures NoSpace("shifter") && NoSpace("--entrypoint") && NoSpace("--")
  {
    VisibleNoSpace("shifter");
    VisibleNoSpace("--entrypoint");
    VisibleNoSpace("--");
  }

  /** Each runtime the job knows and its bind flag are single words. */
  lemma RuntimePlain(s: Settings)
    requires BindFlag(s.container).Some?
    ensures |s.container| > 0 && NoSpace(s.container)
    ensures |BindFlag(s.container).value| > 0 && NoSpace(BindFlag(s.container).value)
  {
    RuntimeNamesPlain();
  }

  lemma RuntimeNamesPlain()
    ensures NoSpace(Docker) && NoSpace(Singularity) && NoSpace(Shifter)
    ensures NoSpace("-v") && NoSpace("-B") && NoSpace("-V")
  {
    VisibleNoSpace(Docker);
    VisibleNoSpace(Singularity);
    VisibleNoSpace(Shifter);
    VisibleNoSpace("-v");
    VisibleNoSpace("-B");
    VisibleNoSpace("-V");
  }

  /** The shell reads the run command of a created job as exactly its words:
      the runtime's head followed by the argument words laid out above, when
      the formats and the image string hold no whitespace. */
  lemma RunJobCommandWords(cls: ClusterClass, image: Image, run: RunParameters, server: seq<ServerImage>,
                           taskFlowId: string, account: Option<string>, formats: Formats, n: nat,
                           folders: Folders, digestToSif: string -> string)
    requires CreateRunJob(cls, image, run, server, taskFlowId, account, formats, n, folders, digestToSif).Ok?
    requires NoSpace(formats.input) && '/' !in formats.input
    requires NoSpace(formats.output) && '/' !in formats.output
    requires var s := GetJobParameters(cls, image, run, server, taskFlowId, account).value;
             |ImageString(s, digestToSif)| > 0 && NoSpace(ImageString(s, digestToSif))
    ensures var s := GetJobParameters(cls, image, run, server, taskFlowId, account).value;
            Words(CreateRunJob(cls, image, run, server, taskFlowId, account, formats, n, folders, digestToSif)
                    .value.commands[2])
            == RunWords(s, BindFlag(s.container).value, ImageString(s, digestToSif), formats, n)
  {
    var s := GetJobParameters(cls, image, run, server, taskFlowId, account).value;
    var flag := BindFlag(s.container).value;
    var im := ImageString(s, digestToSif);
    assert CreateRunJob(cls, image, run, server, taskFlowId, account, formats, n, folders, digestToSif).value.commands[2]
        == RunCommand(s, flag, im, ContainerArgs(s, formats, n));
    RunCommandJoin(s, flag, im, formats, n);
    SettingsPlain(cls, image, run, server, taskFlowId, account);
    ArgTokensPlain(s, formats, n);
    RuntimePlain(s);
    RunHeadPlain(s, flag, im);
    PlainConcat(RunHead(s, flag, im), ArgTokens(s, formats, n));
    WordsOfUnwords(RunWords(s, flag, im, formats, n));
  }

  /** The directories every cluster mounts are single words. */
  lemma SettingsPlain(cls: ClusterClass, image: Image, run: RunParameters, server: seq<ServerImage>,
                      taskFlowId: string, account: Option<string>)
    requires GetJobParameters(cls, image, run, server, taskFlowId, account).Ok?
    ensures var s := GetJobParameters(cls, image, run, server, taskFlowId, account).value;
            && NoSpace(s.guestDir) && NoSpace(s.jobDir)
            && |s.hostDir + ":" + s.guestDir| > 0 && NoSpace(s.hostDir + ":" + s.guestDir)
  {
    DirsPlain(GetJobParameters(cls, image, run, server, taskFlowId, account).value);
  }

  /** Either pair of mount directories a cluster can have is made of single
      words. */
  lemma DirsPlain(s: Settings)
    requires s.guestDir == "/data"
    requires (s.hostDir == "dev_job_data" && s.jobDir == "{{job._id}}") || (s.hostDir == "$(pwd)" && s.jobDir == "")
    ensures NoSpace(s.guestDir) && NoSpace(s.jobDir)
    ensures |s.hostDir + ":" + s.guestDir| > 0 && NoSpace(s.hostDir + ":" + s.guestDir)
  {
    VisibleNoSpace("/data");
    VisibleNoSpace(":");
    if s.hostDir == "dev_job_data" {
      VisibleNoSpace("dev_job_data");
      VisibleNoSpace("{{job._id}}");
    } else {
      VisibleNoSpace("$(pwd)");
    }
    NoSpaceConcat(s.hostDir, ":");
    NoSpaceConcat(s.hostDir + ":", s.guestDir);
  }

  // ---------------------------------------------------------------------------
  // File names shared by staging, the command line and ingestion

  /** The i-th `-g` argument names the geometry staged for calculation i, and
      the i-th `-o` argument names the item ingested for it. */
  lemma ArgumentsNameStagedFiles(s: Settings, formats: Formats, cs: seq<Calculation>,
                                 fetch: string -> Option<string>, i: nat)
    requires SetupInput(Some(cs), formats.input, fetch).Ok? && i < |cs|
    requires '/' !in formats.input && '/' !in formats.output
    ensures Basename(ArgTokens(s, formats, |cs|)[5 + 4 * i])
         == SetupInput(Some(cs), formats.input, fetch).value.geometries[i].0
    ensures Basename(ArgTokens(s, formats, |cs|)[7 + 4 * i]) == OutputName(i, formats.output)
  {
    StagedGeometryName(cs, formats.input, fetch, i);
    PairArgsAt(s, formats, |cs|, i);
    NumberedNameNoSlash("geometry_", i, formats.input);
    NumberedNameNoSlash("output_", i, formats.output);
    BasenamePathJoin(InputDir(s), GeometryName(i, formats.input));
    BasenamePathJoin(OutputDir(s), OutputName(i, formats.output));
  }

  lemma StagedGeometryName(cs: seq<Calculation>, format: string, fetch: string -> Option<string>, i: nat)
    requires SetupInput(Some(cs), format, fetch).Ok? && i < |cs|
    ensures SetupInput(Some(cs), format, fetch).value.geometries[i].0 == GeometryName(i, format)
  {
  }

  /** The i-th pair of arguments names the i-th geometry and output paths. */
  lemma PairArgsAt(s: Settings, formats: Formats, n: nat, i: nat)
    requires i < n
    ensures |ArgTokens(s, formats, n)| > 7 + 4 * i
    ensures ArgTokens(s, formats, n)[5 + 4 * i] == PathJoin([InputDir(s), GeometryName(i, formats.input)])
    ensures ArgTokens(s, formats, n)[7 + 4 * i] == PathJoin([OutputDir(s), OutputName(i, formats.output)])
  {
    var gs := GeometryPaths(s, n, formats.input);
    var os := OutputPaths(s, n, formats.output);
    var ts := ArgTokens(s, formats, n);
    var pt := PairTokens(gs, os);
    var head := ["-p", PathJoin([InputDir(s), ParametersFile]), "-s", ScratchDir(s)];
    assert ts == head + pt;
    PairTokensIndex(gs, os, i);
    var k := 4 * i;
    assert ts[5 + k] == pt[k + 1];
    assert ts[7 + k] == pt[k + 3];
    StagedPathsAt(s, formats, n, i);
  }

  lemma PairTokensIndex(gs: seq<string>, os: seq<string>, i: nat)
    requires |gs| == |os| && i < |gs|
    ensures PairTokens(gs, os)[4 * i + 1] == gs[i] && PairTokens(gs, os)[4 * i + 3] == os[i]
  {
    PairTokensAt(gs, os, i);
    var quad := PairTokens(gs, os)[4 * i..4 * i + 4];
    assert quad[1] == PairTokens(gs, os)[4 * i + 1];
    assert quad[3] == PairTokens(gs, os)[4 * i + 3];
  }

  lemma StagedPathsAt(s: Settings, formats: Formats, n: nat, i: nat)
    requires i < n
    ensures GeometryPaths(s, n, formats.input)[i] == PathJoin([InputDir(s), GeometryName(i, formats.input)])
    ensures OutputPaths(s, n, formats.output)[i] == PathJoin([OutputDir(s), OutputName(i, formats.output)])
  {
  }

  lemma NumberedNameNoSlash(prefix: string, i: nat, format: string)
    requires '/' !in prefix && '/' !in format
    ensures '/' !in prefix + NatToString(i + 1) + "." + format
  {
    NatToStringPlain(i + 1);
  }

  /** Numbered names of distinct positions differ, so no two calculations share
      a geometry file or an output item. */
  lemma NumberedNamesDistinct(prefix: string, i: nat, j: nat, format: string)
    requires prefix + NatToString(i + 1) + "." + format == prefix + NatToString(j + 1) + "." + format
    ensures i == j
  {
    var a := NatToString(i + 1);
    var b := NatToString(j + 1);
    var x := prefix + a + "." + format;
    assert |a| == |b|;
    assert a == x[|prefix|..|prefix| + |a|] == b;
    NatToStringInjective(i + 1, j + 1);
  }

  // ---------------------------------------------------------------------------
  // Ingesting the results

  /** The PUT sent for one calculation: the `detectBonds` query parameter
      and the body's fields. */
  datatype CalculationUpdate = CalculationUpdate(calculationId: string, detectBonds: bool, fileId: string,
                                                 format: string, public: bool, image: Image,
                                                 scratchFolderId: Option<string>, code: Json)

  /** The code recorded on the calculations, from what the taskflow's
      metadata holds under `code`: a dictionary is unwrapped to its own
      `code` entry (`None` when it has none); anything else is sent as it is. */
  function RecordedCode(metadata: Json): (r: Json)
    ensures metadata.JObj? && "code" in metadata.fields ==> r == metadata.fields["code"]
    ensures metadata.JObj? && "code" !in metadata.fields ==> r == JNull
    ensures !metadata.JObj? ==> r == metadata
  {
    if metadata.JObj? then (if "code" in metadata.fields then metadata.fields["code"] else JNull) else metadata
  }

  /** The folders removed, in order, and the updates, or why ingestion stopped. */
  datatype Ingestion = Ingestion(deleted: seq<string>, updates: Result<seq<CalculationUpdate>, JobError>)

  /** The output file of each of `n` calculations, looked up in order; the
      first calculation without one stops the lookup. */
  method CollectOutputs(items: seq<Item>, n: nat, format: string) returns (r: Result<seq<string>, JobError>)
    ensures r.Ok? <==> forall i :: 0 <= i < n ==> SingleFile(items, OutputName(i, format)).Ok?
    ensures r.Err? ==>
              exists i :: 0 <= i < n && SingleFile(items, OutputName(i, format)).Err?
                          && r.error == OutputLookup(i, SingleFile(items, OutputName(i, format)).error)
                          && forall k :: 0 <= k < i ==> SingleFile(items, OutputName(k, format)).Ok?
    ensures r.Ok? ==> |r.value| == n
                      && forall i :: 0 <= i < n ==> SingleFile(items, OutputName(i, format)) == Ok(r.value[i])
  {
    var files: seq<string> := [];
    var i := 0;
    while i < n
      invariant 0 <= i <= n && |files| == i
      invariant forall k :: 0 <= k < i ==> SingleFile(items, OutputName(k, format)) == Ok(files[k])
    {
      var found := FindSingleFile(items, OutputName(i, format));
      if found.Err? {
        assert SingleFile(items, OutputName(i, format)).Err?;
        return Err(OutputLookup(i, found.error));
      }
      files := files + [found.value];
      i := i + 1;
    }
    return Ok(files);
  }

  /** `postprocess_job`: remove the input folder, and the scratch folder unless
      it is kept; assign calculation i the single file of the first item named
      `output_<i+1>.<format>`; once every calculation has one, remove the run
      folder and update each calculation with its file. */
  method PostprocessJob(items: seq<Item>, calculationIds: seq<string>, keepScratch: bool, folders: Folders,
                        format: string, image: Image, codeMetadata: Json) returns (r: Ingestion)
    ensures r.deleted == [folders.input] + (if keepScratch then [] else [folders.scratch])
                         + (if r.updates.Ok? then [folders.run] else [])
    ensures r.updates.Ok? <==>
              forall i :: 0 <= i < |calculationIds| ==> SingleFile(items, OutputName(i, format)).Ok?
    ensures r.updates.Err? ==>
              exists i :: 0 <= i < |calculationIds| && SingleFile(items, OutputName(i, format)).Err?
                          && r.updates.error == OutputLookup(i, SingleFile(items, OutputName(i, format)).error)
                          && forall k :: 0 <= k < i ==> SingleFile(items, OutputName(k, format)).Ok?
    ensures r.updates.Ok? ==>
              |r.updates.value| == |calculationIds|
              && forall i :: 0 <= i < |calculationIds| ==>
                   r.updates.value[i]
                   == CalculationUpdate(calculationIds[i], true, SingleFile(items, OutputName(i, format)).value,
                                        format, true, image, if keepScratch then Some(folders.scratch) else None,
                                        RecordedCode(codeMetadata))
  {
    var deleted := [folders.input] + (if keepScratch then [] else [folders.scratch]);
    var scratchId := if keepScratch then Some(folders.scratch) else None;
    var found := CollectOutputs(items, |calculationIds|, format);
    if found.Err? {
      return Ingestion(deleted, Err(found.error));
    }
    var files := found.value;
    assert forall i :: 0 <= i < |calculationIds| ==> files[i] == SingleFile(items, OutputName(i, format)).value;
    var updates := BuildUpdates(calculationIds, files, format, image, scratchId, RecordedCode(codeMetadata));
    return Ingestion(deleted + [folders.run], Ok(updates));
  }

  /** One update per calculation, pairing it with its output file. */
  method BuildUpdates(calculationIds: seq<string>, files: seq<string>, format: string, image: Image,
                      scratchId: Option<string>, code: Json) returns (updates: seq<CalculationUpdate>)
    requires |files| == |calculationIds|
    ensures |updates| == |calculationIds|
    ensures forall k :: 0 <= k < |updates| ==>
              updates[k] == CalculationUpdate(calculationIds[k], true, files[k], format, true, image, scratchId, code)
  {
    updates := [];
    var j := 0;
    while j < |files|
      invariant 0 <= j <= |files| && |updates| == j
      invariant forall k :: 0 <= k < j ==>
                  updates[k] == CalculationUpdate(calculationIds[k], true, files[k], format, true, image, scratchId, code)
    {
      updates := updates + [CalculationUpdate(calculationIds[j], true, files[j], format, true, image, scratchId, code)];
      j := j + 1;
    }
  }
}
