/** The per-code plug-ins of the two template taskflow packages: which output
    files each code's postprocessing ingests, the job commands each code runs
    on every kind of cluster, and the psi4 input-template decision table. */
module Plugins {
  import opened Wrappers
  import opened Text
  import opened Images
  import opened Scheduling

  /** The plug-in classes: psi4, NWChem and ChemML of the package that hands a
      code a cjson document, psi4 and ChemML of the one that hands it xyz text. */
  datatype Plugin = Psi4Cjson | NwChemCjson | ChemmlCjson | Psi4Xyz | ChemmlXyz

  predicate TakesXyz(p: Plugin) {
    p == Psi4Xyz || p == ChemmlXyz
  }

  /** `code_label`. */
  function CodeLabel(p: Plugin): string {
    match p
    case Psi4Cjson | Psi4Xyz => "psi4"
    case NwChemCjson => "nwchem"
    case ChemmlCjson | ChemmlXyz => "chemml"
  }

  /** `docker_image`, and for the xyz plug-ins the image their commands name. */
  function DockerImage(p: Plugin): string {
    match p
    case Psi4Cjson | Psi4Xyz => "openchemistry/psi4:latest"
    case NwChemCjson => "openchemistry/nwchem-json:latest"
    case ChemmlCjson | ChemmlXyz => "openchemistry/chemml:latest"
  }

  /** The repository each plug-in's image comes from. */
  function Repository(p: Plugin): string {
    match p
    case Psi4Cjson | Psi4Xyz => "openchemistry/psi4"
    case NwChemCjson => "openchemistry/nwchem-json"
    case ChemmlCjson | ChemmlXyz => "openchemistry/chemml"
  }

  /** Every plug-in runs the `latest` tag of the openchemistry repository
      named after its code. */
  lemma ImageOfCode(p: Plugin)
    ensures ParseImageName(DockerImage(p)) == Ok((Repository(p), DefaultTag))
  {
    ImageSpelling(p);
    ParseImageNameInverse(Repository(p), DefaultTag);
  }

  /** Each image name is its repository with the `latest` tag. */
  lemma ImageSpelling(p: Plugin)
    ensures ':' !in Repository(p)
    ensures DockerImage(p) == ImageName(Repository(p), DefaultTag)
  {
    if p == Psi4Cjson || p == Psi4Xyz {
      Psi4Image();
    } else if p == NwChemCjson {
      NwchemImage();
    } else {
      ChemmlImage();
    }
  }

  lemma Psi4Image()
    ensures ':' !in "openchemistry/psi4" && NoSpace("openchemistry/psi4:latest")
    ensures "openchemistry/psi4:latest" == ImageName("openchemistry/psi4", DefaultTag)
  {
    VisibleNoSpace("openchemistry/psi4:latest");
  }

  lemma NwchemImage()
    ensures ':' !in "openchemistry/nwchem-json" && NoSpace("openchemistry/nwchem-json:latest")
    ensures "openchemistry/nwchem-json:latest" == ImageName("openchemistry/nwchem-json", DefaultTag)
  {
    VisibleNoSpace("openchemistry/nwchem-json:latest");
  }

  lemma ChemmlImage()
    ensures ':' !in "openchemistry/chemml" && NoSpace("openchemistry/chemml:latest")
    ensures "openchemistry/chemml:latest" == ImageName("openchemistry/chemml", DefaultTag)
  {
    VisibleNoSpace("openchemistry/chemml:latest");
  }

  // ---------------------------------------------------------------------------
  // select_output_files

  /** The suffix of the files a code's postprocessing ingests. */
  function OutputSuffix(p: Plugin): string {
    if p == NwChemCjson then ".json" else ".out"
  }

  predicate Selected(p: Plugin, name: string) {
    EndsWith(name, OutputSuffix(p))
  }

  /** `select_output_files`: one flag per file name, set exactly for the names
      ending in the code's output suffix. */
  method SelectOutputFiles(p: Plugin, filenames: seq<string>) returns (doCopy: seq<bool>)
    ensures |doCopy| == |filenames|
    ensures forall i :: 0 <= i < |filenames| ==> (doCopy[i] <==> Selected(p, filenames[i]))
  {
    doCopy := seq(|filenames|, _ => false);
    for i := 0 to |filenames|
      invariant |doCopy| == |filenames|
      invariant forall k :: 0 <= k < i ==> (doCopy[k] <==> Selected(p, filenames[k]))
      invariant forall k :: i <= k < |filenames| ==> !doCopy[k]
    {
      if EndsWith(filenames[i], OutputSuffix(p)) {
        doCopy := doCopy[i := true];
      }
    }
  }

  // ---------------------------------------------------------------------------
  // Job commands

  datatype CommandError = NotConfiguredForNersc(code: string)

  const MountDir := "/data"
  const JobDirTemplate := "{{job._id}}"
  const Volume := "dev_job_data:/data"
  const DefaultNwchem := "nwchem"

  /** `ec2_job_commands`, `demo_job_commands` and `nersc_job_commands`, chosen by
      the kind of cluster (ec2 is the bare-metal class): pull the image, then
      run it. `nwchemPath` is the `OC_NWCHEM_PATH` environment variable,
      absent when unset. */
  function JobCommands(p: Plugin, cls: ClusterClass, inputName: string, nwchemPath: Option<string>)
    : (r: Result<seq<string>, CommandError>)
    ensures r.Err? <==> cls == Nersc && p != NwChemCjson
    ensures r.Err? ==> r.error == NotConfiguredForNersc(CodeLabel(p))
    ensures r.Ok? && cls != Nersc ==> |r.value| == 2
    ensures r.Ok? && cls == Nersc ==> |r.value| == 1
  {
    if cls == Nersc then
      if p == NwChemCjson then Ok([SrunCommand(nwchemPath.GetOr(DefaultNwchem), inputName)])
      else Err(NotConfiguredForNersc(CodeLabel(p)))
    else
      Ok([Join(["docker", "pull", DockerImage(p)], " "), Join(RunWords(p, cls, inputName), " ")])
  }

  /** `docker run` with the options each plug-in writes, its image, and the
      input file. */
  function RunWords(p: Plugin, cls: ClusterClass, inputName: string): seq<string> {
    ["docker", "run"] + MountArgs(p, cls) + [DockerImage(p), RunInput(p, inputName)]
  }

  function MountArgs(p: Plugin, cls: ClusterClass): seq<string> {
    match p
    case Psi4Cjson | ChemmlCjson => ["-v", Volume]
    case NwChemCjson => ["-w", PathJoin([MountDir, JobDirTemplate]), "-v", Volume]
    case Psi4Xyz | ChemmlXyz =>
      if cls == Demo then ["--rm", "-w", "$(pwd)", "-v", Volume] else ["--rm", "-v", "$(pwd):/data"]
  }

  /** The default commands of the cjson package join the input name onto the
      job directory of the shared volume; every other plug-in runs in it. */
  function RunInput(p: Plugin, inputName: string): string {
    if p == Psi4Cjson || p == ChemmlCjson then PathJoin([MountDir, JobDirTemplate, inputName]) else inputName
  }

  /** NWChem's NERSC command, with the double space written between `-N 1`
      and `-n 32`. */
  function SrunCommand(bin: string, inputName: string): string {
    Join(["/usr/bin/srun", "-N", "1"], " ") + "  " + Join(["-n", "32", bin, inputName], " ")
  }

  /** A plain input file name: one shell word and no directory part. */
  predicate PlainName(name: string) {
    |name| > 0 && NoSpace(name) && '/' !in name
  }

  /** Off NERSC every plug-in pulls its image and then runs that same image on
      the input file; the cjson package's default commands reach the file in
      the job's directory of the shared volume. */
  lemma RunCommandWords(p: Plugin, cls: ClusterClass, inputName: string, nwchemPath: Option<string>)
    requires cls != Nersc && PlainName(inputName)
    ensures var cmds := JobCommands(p, cls, inputName, nwchemPath).value;
            var pull := Words(cmds[0]);
            var run := Words(cmds[1]);
            pull == ["docker", "pull", DockerImage(p)]
            && run == RunWords(p, cls, inputName)
            && run[..2] == ["docker", "run"]
            && run[|run| - 2] == pull[2]
            && Basename(run[|run| - 1]) == inputName
            && (p == Psi4Cjson || p == ChemmlCjson <==> run[|run| - 1] == "/data/{{job._id}}/" + inputName)
  {
    var cmds := JobCommands(p, cls, inputName, nwchemPath).value;
    assert cmds == [Join(["docker", "pull", DockerImage(p)], " "), Join(RunWords(p, cls, inputName), " ")];
    PullWords(p);
    RunWordsRoundTrip(p, cls, inputName);
    RunWordsShape(p, cls, inputName);
    RunInputName(p, inputName);
  }

  lemma PullWords(p: Plugin)
    ensures Words(Join(["docker", "pull", DockerImage(p)], " ")) == ["docker", "pull", DockerImage(p)]
  {
    ImagePlain(p);
    CommandWordsPlain();
    WordsOfUnwords(["docker", "pull", DockerImage(p)]);
  }

  lemma RunWordsRoundTrip(p: Plugin, cls: ClusterClass, inputName: string)
    requires PlainName(inputName)
    ensures Words(Join(RunWords(p, cls, inputName), " ")) == RunWords(p, cls, inputName)
  {
    RunWordsPlain(p, cls, inputName);
    WordsOfUnwords(RunWords(p, cls, inputName));
  }

  /** `docker run` first, then the options, the image and the input. */
  lemma RunWordsShape(p: Plugin, cls: ClusterClass, inputName: string)
    ensures var run := RunWords(p, cls, inputName);
            |run| >= 4 && run[..2] == ["docker", "run"]
            && run[|run| - 2] == DockerImage(p) && run[|run| - 1] == RunInput(p, inputName)
  {
  }

  /** Where the run command finds the input file. */
  lemma RunInputName(p: Plugin, inputName: string)
    requires PlainName(inputName)
    ensures Basename(RunInput(p, inputName)) == inputName
    ensures p == Psi4Cjson || p == ChemmlCjson <==> RunInput(p, inputName) == "/data/{{job._id}}/" + inputName
  {
    if p == Psi4Cjson || p == ChemmlCjson {
      JobPath(inputName);
      JobInputBasename(inputName);
    } else {
      BareInputBasename(inputName);
    }
  }

  lemma JobInputBasename(inputName: string)
    requires PlainName(inputName)
    ensures Basename("/data/{{job._id}}/" + inputName) == inputName
  {
    BasenamePathJoin("/data/{{job._id}}", inputName);
    assert PathJoin(["/data/{{job._id}}", inputName]) == "/data/{{job._id}}/" + inputName by {
      assert ["/data/{{job._id}}", inputName][..1] == ["/data/{{job._id}}"];
      assert ["/data/{{job._id}}"][..0] == [];
    }
  }

  lemma BareInputBasename(inputName: string)
    requires PlainName(inputName)
    ensures Basename(inputName) == inputName
    ensures inputName != "/data/{{job._id}}/" + inputName
  {
    BasenamePathJoin("", inputName);
    assert PathJoin(["", inputName]) == inputName by {
      assert ["", inputName][..1] == [""];
      assert [""][..0] == [];
    }
    assert |inputName| < |"/data/{{job._id}}/" + inputName|;
  }

  /** On the cjson package the default ec2 commands are the demo commands. */
  lemma Ec2RunsDemoCommands(p: Plugin, inputName: string, nwchemPath: Option<string>)
    requires !TakesXyz(p)
    ensures JobCommands(p, Baremetal, inputName, nwchemPath) == JobCommands(p, Demo, inputName, nwchemPath)
  {
  }

  /** On the xyz package ec2 and demo pull and run the same image on the same
      input file; they differ only in the options between `docker run --rm`
      and the image. */
  lemma Ec2AndDemoShareImageAndInput(p: Plugin, inputName: string, nwchemPath: Option<string>)
    requires TakesXyz(p) && PlainName(inputName)
    ensures JobCommands(p, Baremetal, inputName, nwchemPath).value[0]
         == JobCommands(p, Demo, inputName, nwchemPath).value[0]
    ensures Words(JobCommands(p, Baremetal, inputName, nwchemPath).value[1])
         == ["docker", "run", "--rm", "-v", "$(pwd):/data", DockerImage(p), inputName]
    ensures Words(JobCommands(p, Demo, inputName, nwchemPath).value[1])
         == ["docker", "run", "--rm", "-w", "$(pwd)", "-v", "dev_job_data:/data", DockerImage(p), inputName]
  {
    RunWordsRoundTrip(p, Baremetal, inputName);
    RunWordsRoundTrip(p, Demo, inputName);
    assert JobCommands(p, Baremetal, inputName, nwchemPath).value[1] == Join(RunWords(p, Baremetal, inputName), " ");
    assert JobCommands(p, Demo, inputName, nwchemPath).value[1] == Join(RunWords(p, Demo, inputName), " ");
    XyzRunWords(p, inputName);
  }

  lemma XyzRunWords(p: Plugin, inputName: string)
    requires TakesXyz(p)
    ensures RunWords(p, Baremetal, inputName) == ["docker", "run", "--rm", "-v", "$(pwd):/data", DockerImage(p), inputName]
    ensures RunWords(p, Demo, inputName)
         == ["docker", "run", "--rm", "-w", "$(pwd)", "-v", "dev_job_data:/data", DockerImage(p), inputName]
  {
    var tail := [DockerImage(p), inputName];
    assert RunWords(p, Baremetal, inputName) == ["docker", "run"] + ["--rm", "-v", "$(pwd):/data"] + tail;
    assert RunWords(p, Demo, inputName) == ["docker", "run"] + ["--rm", "-w", "$(pwd)", "-v", "dev_job_data:/data"] + tail;
  }

  /** The NERSC command of NWChem runs the configured binary, `nwchem` by
      default, on the input file; the double space in it is not a word. */
  lemma NerscCommandWords(inputName: string, nwchemPath: Option<string>)
    requires PlainName(inputName)
    requires nwchemPath.Some? ==> |nwchemPath.value| > 0 && NoSpace(nwchemPath.value)
    ensures Words(JobCommands(NwChemCjson, Nersc, inputName, nwchemPath).value[0])
         == ["/usr/bin/srun", "-N", "1", "-n", "32", nwchemPath.GetOr(DefaultNwchem), inputName]
  {
    var bin := nwchemPath.GetOr(DefaultNwchem);
    if nwchemPath.None? {
      VisibleNoSpace(DefaultNwchem);
    }
    SrunWords(bin, inputName);
  }

  lemma SrunWords(bin: string, inputName: string)
    requires |bin| > 0 && NoSpace(bin) && |inputName| > 0 && NoSpace(inputName)
    ensures Words(SrunCommand(bin, inputName)) == ["/usr/bin/srun", "-N", "1", "-n", "32", bin, inputName]
  {
    var head := ["/usr/bin/srun", "-N", "1"];
    var tail := ["-n", "32", bin, inputName];
    SrunWordsPlain(bin, inputName);
    var t := Join(tail, " ");
    var rest := " " + (" " + t);
    assert SrunCommand(bin, inputName) == Join(head, " ") + rest;
    WordsPrefix(head, rest);
    SkipSpace(" " + t);
    SkipSpace(t);
    WordsOfUnwords(tail);
  }

  lemma SkipSpace(t: string)
    ensures Words(" " + t) == Words(t)
  {
    assert (" " + t)[1..] == t;
  }

  lemma SrunWordsPlain(bin: string, inputName: string)
    requires |bin| > 0 && NoSpace(bin) && |inputName| > 0 && NoSpace(inputName)
    ensures Plain(["/usr/bin/srun", "-N", "1"]) && Plain(["-n", "32", bin, inputName])
  {
    VisibleNoSpace("/usr/bin/srun");
    VisibleNoSpace("-N");
    VisibleNoSpace("1");
    VisibleNoSpace("-n");
    VisibleNoSpace("32");
  }

  // ---------------------------------------------------------------------------
  // Helpers for the command-line lemmas

  lemma ImagePlain(p: Plugin)
    ensures |DockerImage(p)| > 0 && NoSpace(DockerImage(p))
  {
    if p == Psi4Cjson || p == Psi4Xyz {
      Psi4Image();
    } else if p == NwChemCjson {
      NwchemImage();
    } else {
      ChemmlImage();
    }
  }

  /** The fixed words of the docker commands. */
  lemma CommandWordsPlain()
    ensures NoSpace("docker") && NoSpace("pull") && NoSpace("run")
  {
    VisibleNoSpace("docker");
    VisibleNoSpace("pull");
    VisibleNoSpace("run");
  }

  lemma JobPath(inputName: string)
    requires |inputName| == 0 || inputName[0] != '/'
    ensures PathJoin([MountDir, JobDirTemplate, inputName]) == "/data/{{job._id}}/" + inputName
  {
    var three := [MountDir, JobDirTemplate, inputName];
    assert three[..2] == [MountDir, JobDirTemplate];
    JobDir();
  }

  /** The job's directory on the shared volume. */
  lemma JobDir()
    ensures PathJoin([MountDir, JobDirTemplate]) == "/data/{{job._id}}"
  {
    assert [MountDir, JobDirTemplate][..1] == [MountDir];
    assert [MountDir][..0] == [];
    assert PathJoin([MountDir]) == "/data";
  }

  lemma MountArgsPlain(p: Plugin, cls: ClusterClass)
    ensures Plain(MountArgs(p, cls))
  {
    if p == NwChemCjson {
      NwchemMountPlain(cls);
    } else if TakesXyz(p) {
      XyzMountPlain();
    } else {
      VolumeArgsPlain();
    }
  }

  lemma NwchemMountPlain(cls: ClusterClass)
    ensures Plain(MountArgs(NwChemCjson, cls))
  {
    JobDir();
    WorkdirPlain();
    VolumeArgsPlain();
    PlainConcat(["-w", "/data/{{job._id}}"], ["-v", Volume]);
    assert MountArgs(NwChemCjson, cls) == ["-w", "/data/{{job._id}}"] + ["-v", Volume];
  }

  lemma VolumeArgsPlain()
    ensures Plain(["-v", Volume])
  {
    VisibleNoSpace("-v");
    VisibleNoSpace(Volume);
    PlainTwo("-v", Volume);
  }

  lemma WorkdirPlain()
    ensures Plain(["-w", "/data/{{job._id}}"])
  {
    VisibleNoSpace("-w");
    VisibleNoSpace("/data/{{job._id}}");
    PlainTwo("-w", "/data/{{job._id}}");
  }

  lemma XyzMountPlain()
    ensures Plain(["--rm", "-w", "$(pwd)", "-v", Volume]) && Plain(["--rm", "-v", "$(pwd):/data"])
  {
    VisibleNoSpace("--rm");
    VisibleNoSpace("-w");
    VisibleNoSpace("$(pwd)");
    VisibleNoSpace("-v");
    VisibleNoSpace("$(pwd):/data");
    PlainThree("--rm", "-w", "$(pwd)");
    VolumeArgsPlain();
    PlainConcat(["--rm", "-w", "$(pwd)"], ["-v", Volume]);
    assert ["--rm", "-w", "$(pwd)"] + ["-v", Volume] == ["--rm", "-w", "$(pwd)", "-v", Volume];
    PlainThree("--rm", "-v", "$(pwd):/data");
  }

  lemma RunWordsPlain(p: Plugin, cls: ClusterClass, inputName: string)
    requires PlainName(inputName)
    ensures Plain(RunWords(p, cls, inputName))
  {
    ImagePlain(p);
    MountArgsPlain(p, cls);
    CommandWordsPlain();
    var arg := RunInput(p, inputName);
    if p == Psi4Cjson || p == ChemmlCjson {
      JobPath(inputName);
      VisibleNoSpace("/data/{{job._id}}/");
      NoSpaceConcat("/data/{{job._id}}/", inputName);
    }
    PlainConcat(["docker", "run"], MountArgs(p, cls));
    PlainConcat(["docker", "run"] + MountArgs(p, cls), [DockerImage(p), arg]);
  }

  /** Leading plain words joined by spaces, then text starting with a space. */
  lemma {:induction false} WordsPrefix(ws: seq<string>, rest: string)
    requires |ws| >= 1 && Plain(ws)
    requires |rest| == 0 || IsSpace(rest[0])
    ensures Words(Join(ws, " ") + rest) == ws + Words(rest)
    decreases |ws|
  {
    if |ws| == 1 {
      WordsWordFirst(ws[0], rest);
    } else {
      var tail := ws[1..];
      var j := Join(tail, " ");
      var r := " " + (j + rest);
      JoinHead(ws, rest);
      WordsWordFirst(ws[0], r);
      SkipSpace(j + rest);
      PlainTail(ws);
      WordsPrefix(tail, rest);
      assert ws == [ws[0]] + tail;
      AppendAssoc([ws[0]], tail, Words(rest));
    }
  }

  lemma JoinHead(ws: seq<string>, rest: string)
    requires |ws| >= 2
    ensures Join(ws, " ") + rest == ws[0] + (" " + (Join(ws[1..], " ") + rest))
  {
    var j := Join(ws[1..], " ");
    AppendAssoc(ws[0], " ", j);
    assert Join(ws, " ") == ws[0] + (" " + j);
    AppendAssoc(ws[0], " " + j, rest);
    AppendAssoc(" ", j, rest);
  }


  // ---------------------------------------------------------------------------
  // The psi4 input template

  /** What the psi4 input template is rendered with. */
  datatype Psi4Context = Psi4Context(task: string, theory: Json, reference: string,
                                     charge: Json, multiplicity: Json, basis: Json)

  /** `theory.lower()` fails on a theory that is not text. */
  datatype Psi4Error = TheoryNotText(theory: Json)

  /** `params.get(key, default)`. */
  function Get(params: map<string, Json>, key: string, default: Json): Json {
    if key in params then params[key] else default
  }

  /** `params.get(key, None) is not None`. */
  predicate Given(params: map<string, Json>, key: string) {
    key in params && params[key] != JNull
  }

  /** `multiplicity == 1` in Python, where `1.0` and `True` equal 1 too. */
  predicate IsOne(j: Json) {
    j == JInt(1) || j == JReal(1.0) || j == JBool(true)
  }

  /** `input_generator` of both psi4 plug-ins, up to the template rendering. */
  function Psi4Input(params: map<string, Json>): (r: Result<Psi4Context, Psi4Error>)
    ensures r.Err? <==> !Get(params, "theory", JStr("scf")).JStr?
    ensures r.Ok? ==> r.value.task in {"optimize", "frequency", "energy"}
    ensures r.Ok? ==> (r.value.task == "optimize" <==> Given(params, "optimization"))
    ensures r.Ok? ==> (r.value.task == "frequency"
                       <==> !Given(params, "optimization") && Given(params, "vibrational"))
    ensures r.Ok? ==> |r.value.reference| == 3
    ensures r.Ok? ==> (r.value.reference[0] == 'r' <==> IsOne(Get(params, "multiplicity", JInt(1))))
    ensures r.Ok? ==> r.value.reference[0] in {'r', 'u'}
    ensures r.Ok? ==> (r.value.reference[1..] == "ks" <==> Lower(Get(params, "theory", JStr("scf")).s) == "dft")
    ensures r.Ok? ==> r.value.reference[1..] in {"ks", "hf"}
    ensures r.Ok? && r.value.reference[1..] == "ks" ==> r.value.theory == Get(params, "functional", JStr("b3lyp"))
    ensures r.Ok? && r.value.reference[1..] == "hf" ==> r.value.theory == Get(params, "theory", JStr("scf"))
    ensures r.Ok? ==> r.value.charge == Get(params, "charge", JInt(0))
                      && r.value.multiplicity == Get(params, "multiplicity", JInt(1))
                      && r.value.basis == Get(params, "basis", JStr("cc-pvdz"))
  {
    var multiplicity := Get(params, "multiplicity", JInt(1));
    var theory := Get(params, "theory", JStr("scf"));
    var functional := Get(params, "functional", JStr("b3lyp"));
    var task := if Given(params, "optimization") then "optimize"
                else if Given(params, "vibrational") then "frequency"
                else "energy";
    match theory
    case JStr(t) =>
      var (used, base) := if Lower(t) == "dft" then (functional, "ks") else (theory, "hf");
      var prefix := if IsOne(multiplicity) then "r" else "u";
      Ok(Psi4Context(task, used, prefix + base, Get(params, "charge", JInt(0)), multiplicity,
                     Get(params, "basis", JStr("cc-pvdz"))))
    case _ => Err(TheoryNotText(theory))
  }

  /** With no parameters psi4 computes a restricted Hartree-Fock energy with
      the cc-pVDZ basis for a neutral singlet. */
  lemma Psi4Defaults()
    ensures Psi4Input(map[]) == Ok(Psi4Context("energy", JStr("scf"), "rhf", JInt(0), JInt(1), JStr("cc-pvdz")))
  {
    assert Lower("scf") == "scf" != "dft";
    assert IsOne(JInt(1));
    assert "r" + "hf" == "rhf";
  }

  /** A DFT request of any capitalisation is rendered with the functional and a
      Kohn-Sham reference, restricted exactly for singlets. */
  lemma Psi4Dft(params: map<string, Json>, theory: string)
    requires Get(params, "theory", JStr("scf")) == JStr(theory) && Lower(theory) == "dft"
    ensures Psi4Input(params).Ok?
    ensures Psi4Input(params).value.theory == Get(params, "functional", JStr("b3lyp"))
    ensures Psi4Input(params).value.reference
         == (if IsOne(Get(params, "multiplicity", JInt(1))) then "rks" else "uks")
  {
  }
}
