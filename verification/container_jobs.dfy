/** The two housekeeping taskflows that run a helper script on a cluster: one
    pulls an image and registers it, the other lists the images a cluster holds
    and registers those on the allow-list. */
module ContainerJobs {
  import opened Wrappers
  import opened Text
  import opened Lists
  import opened Store
  import opened Images
  import opened ImageListing
  import opened Scheduling

  /** What `_get_job_parameters` of the pull taskflow hands on. */
  datatype PullSettings = PullSettings(container: string, repository: string, tag: string,
                                       digest: Option<string>, setupCommands: seq<string>,
                                       params: JobParams)

  /** The pull taskflow's job parameters: the runtime is passed through as given
      (no cluster overrides it), NERSC adds the scheduler fields and the demo
      deployment one setup command. */
  function PullJobParameters(cls: ClusterClass, repository: string, tag: string, digest: Option<string>,
                             container: string, taskFlowId: string, account: Option<string>)
    : (s: PullSettings)
    ensures s.container == container
    ensures s.repository == repository && s.tag == tag && s.digest == digest
    ensures s.params.taskFlowId == taskFlowId
    ensures s.params.nersc.Some? <==> cls == Nersc
    ensures cls == Nersc ==> s.params.nersc.value == NerscFields(1, "debug", "haswell", account)
    ensures s.setupCommands == (if cls == Demo then ["source scl_source enable python27"] else [])
  {
    PullSettings(container, repository, tag, digest, SetupCommands(cls),
                 JobParameters(cls, taskFlowId, account))
  }

  function PullRunCommand(repository: string, tag: string, container: string): string {
    "python pull.py -r " + repository + " -t " + tag + " -c " + container
  }

  /** The pull job: run the script, then remove it; the folder holding the
      script is both the job's input and its output, bound at `.`. */
  function PullJob(s: PullSettings, folderId: string): (job: JobBody)
    ensures job.commands == s.setupCommands + [PullRunCommand(s.repository, s.tag, s.container), "rm pull.py"]
    ensures job.name == "desc_" + Sanitize(PullRunCommand(s.repository, s.tag, s.container))
    ensures job.input == [Binding(folderId, ".", [])] && job.output == job.input
    ensures !job.uploadOutput && job.params == s.params
  {
    var run := PullRunCommand(s.repository, s.tag, s.container);
    JobBody("desc_" + Sanitize(run), s.setupCommands + [run, "rm pull.py"],
            SameFolder(folderId), SameFolder(folderId), false, s.params)
  }

  /** The pull script receives the repository, tag and runtime as its `-r`,
      `-t` and `-c` arguments when none of them is empty or holds whitespace. */
  lemma PullCommandArguments(repository: string, tag: string, container: string)
    requires Plain([repository, tag, container])
    ensures Words(PullRunCommand(repository, tag, container))
         == ["python", "pull.py", "-r", repository, "-t", tag, "-c", container]
  {
    var ws := ["python", "pull.py", "-r", repository, "-t", tag, "-c", container];
    PullRunJoin(repository, tag, container);
    LiteralWords();
    assert [repository, tag, container][0] == repository;
    assert [repository, tag, container][1] == tag;
    assert [repository, tag, container][2] == container;
    assert Plain(ws);
    WordsOfUnwords(ws);
  }

  /** The pull command is its eight words joined by single spaces. */
  lemma PullRunJoin(repository: string, tag: string, container: string)
    ensures Join(["python", "pull.py", "-r", repository, "-t", tag, "-c", container], " ")
         == PullRunCommand(repository, tag, container)
  {
    var c := " -c " + container;
    JoinCons("-c", [container], " ");
    FlagSpaced("-c", container);
    assert " " + Join(["-c", container], " ") == c;
    SpacedCons(tag, ["-c", container]);
    var t := " -t " + (tag + c);
    FlagSpaced("-t", tag + c);
    JoinCons("-t", [tag, "-c", container], " ");
    assert " " + Join(["-t", tag, "-c", container], " ") == t;
    SpacedCons(repository, ["-t", tag, "-c", container]);
    var r := repository + t;
    JoinCons("-r", [repository, "-t", tag, "-c", container], " ");
    JoinCons("pull.py", ["-r", repository, "-t", tag, "-c", container], " ");
    JoinCons("python", ["pull.py", "-r", repository, "-t", tag, "-c", container], " ");
    AppendAssoc("pull.py" + " ", "-r" + " ", r);
    AppendAssoc("python" + " ", "pull.py" + " " + ("-r" + " "), r);
    assert "python" + " " + ("pull.py" + " " + ("-r" + " ")) == "python pull.py -r ";
    AppendAssoc("python pull.py -r ", repository, t);
    AppendAssoc("python pull.py -r " + repository, " -t ", tag + c);
    AppendAssoc("python pull.py -r " + repository + " -t ", tag, c);
    AppendAssoc("python pull.py -r " + repository + " -t " + tag, " -c ", container);
  }

  /** A flag joined to what follows, after a space. */
  lemma FlagSpaced(flag: string, rest: string)
    ensures " " + (flag + " " + rest) == " " + flag + " " + rest
  {
    AppendAssoc(" ", flag + " ", rest);
    AppendAssoc(" ", flag, " ");
  }

  /** Joining a word in front of more words: the word, then a space and the rest. */
  lemma SpacedCons(word: string, rest: seq<string>)
    requires |rest| >= 1
    ensures Join([word] + rest, " ") == word + (" " + Join(rest, " "))
  {
    JoinCons(word, rest, " ");
    AppendAssoc(word, " ", Join(rest, " "));
  }

  /** The fixed words of the helper commands hold no whitespace. */
  lemma LiteralWords()
    ensures NoSpace("python") && NoSpace("pull.py") && NoSpace("list.py")
    ensures NoSpace("-r") && NoSpace("-t") && NoSpace("-c")
  {
  }

  // ---------------------------------------------------------------------------
  // Reading back what the pull job wrote

  const PullOutput := "pull.json"
  const ListOutput := "list.json"

  /** Why postprocessing a pull or list job failed. */
  datatype HousekeepingError =
    | OutputLookup(lookup: LookupError)
    | BadUri(uri: UriError)

  /** The image the pull taskflow registers; its size is left out. */
  datatype Registration = Registration(container: string, repository: string, tag: string, digest: string)

  /** The pull postprocessing: find `pull.json`, remove the job folder once it
      is downloaded, check the URI the script reported and register the
      digest read from it. `uriOf` is the `imageUri` of the downloaded file. */
  function PullPostprocess(items: seq<Item>, folderId: string, container: string,
                           repository: string, tag: string, uriOf: string -> Option<string>)
    : (r: (Result<Registration, HousekeepingError>, seq<string>))
    ensures SingleFile(items, PullOutput).Err? ==>
              r == (Err(OutputLookup(SingleFile(items, PullOutput).error)), [])
    ensures SingleFile(items, PullOutput).Ok? ==> r.1 == [folderId]
    ensures r.0.Ok? <==> (SingleFile(items, PullOutput).Ok?
                          && CheckImageUri(container, uriOf(SingleFile(items, PullOutput).value)).Ok?)
    ensures r.0.Ok? ==>
              var uri := uriOf(SingleFile(items, PullOutput).value).value;
              r.0.value == Registration(container, repository, tag, ExtractDigest(container, uri).value)
  {
    match SingleFile(items, PullOutput)
    case Err(e) => (Err(OutputLookup(e)), [])
    case Ok(fileId) =>
      match CheckImageUri(container, uriOf(fileId))
      case Err(e) => (Err(BadUri(e)), [folderId])
      case Ok(uri) =>
        CheckedUriHasDigest(container, uri);
        (Ok(Registration(container, repository, tag, ExtractDigest(container, uri).value)), [folderId])
  }

  /** Pulling a docker image and reading back the reported URI registers the hex
      part of the digest that was pulled. */
  lemma DockerPullRegistersDigest(items: seq<Item>, folderId: string, repository: string, tag: string,
                                  digest: string, host: PullHost, uriOf: string -> Option<string>)
    requires ':' !in repository && ':' in digest
    requires SingleFile(items, PullOutput).Ok?
    requires uriOf(SingleFile(items, PullOutput).value)
          == Some(Pull(Docker, repository, tag, digest, host).value.imageUri)
    ensures PullPostprocess(items, folderId, Docker, repository, tag, uriOf).0
         == Ok(Registration(Docker, repository, tag, Before(After(digest, ':'), ':')))
  {
    DockerDigestRoundTrip(repository, tag, digest, host);
  }

  /** The same for singularity: the sif file name reads back as the hex part. */
  lemma SingularityPullRegistersDigest(items: seq<Item>, folderId: string, repository: string, tag: string,
                                       digest: string, host: PullHost, uriOf: string -> Option<string>)
    requires ':' in digest
    requires '.' !in Before(After(digest, ':'), ':') && '/' !in Before(After(digest, ':'), ':')
    requires SingleFile(items, PullOutput).Ok?
    requires uriOf(SingleFile(items, PullOutput).value)
          == Some(Pull(Singularity, repository, tag, digest, host).value.imageUri)
    ensures PullPostprocess(items, folderId, Singularity, repository, tag, uriOf).0
         == Ok(Registration(Singularity, repository, tag, Before(After(digest, ':'), ':')))
  {
    SingularityDigestRoundTrip(repository, tag, digest, host);
  }

  // ---------------------------------------------------------------------------
  // The list taskflow

  /** What `_get_job_parameters` of the list taskflow hands on. */
  datatype ListSettings = ListSettings(container: string, setupCommands: seq<string>, params: JobParams)

  function ListJobParameters(cls: ClusterClass, container: string, taskFlowId: string,
                             account: Option<string>): (s: ListSettings)
    ensures s.container == container
    ensures s.params.taskFlowId == taskFlowId
    ensures s.params.nersc.Some? <==> cls == Nersc
    ensures cls == Nersc ==> s.params.nersc.value == NerscFields(1, "debug", "haswell", account)
    ensures s.setupCommands == (if cls == Demo then ["source scl_source enable python27"] else [])
  {
    ListSettings(container, SetupCommands(cls), JobParameters(cls, taskFlowId, account))
  }

  function ListRunCommand(container: string): string {
    "python list.py -c " + container
  }

  /** The list job: run the script, then remove it, in one folder bound at `.`. */
  function ListJob(s: ListSettings, folderId: string): (job: JobBody)
    ensures job.commands == s.setupCommands + [ListRunCommand(s.container), "rm list.py"]
    ensures job.name == "desc_" + Sanitize(ListRunCommand(s.container))
    ensures job.input == [Binding(folderId, ".", [])] && job.output == job.input
    ensures !job.uploadOutput && job.params == s.params
  {
    var run := ListRunCommand(s.container);
    JobBody("desc_" + Sanitize(run), s.setupCommands + [run, "rm list.py"],
            SameFolder(folderId), SameFolder(folderId), false, s.params)
  }

  /** The list script receives the runtime as its `-c` argument. */
  lemma ListCommandArguments(container: string)
    requires Plain([container])
    ensures Words(ListRunCommand(container)) == ["python", "list.py", "-c", container]
  {
    var ws := ["python", "list.py", "-c", container];
    JoinCons("-c", [container], " ");
    FlagSpaced("-c", container);
    SpacedCons("list.py", ["-c", container]);
    JoinCons("python", ["list.py", "-c", container], " ");
    AppendAssoc("python" + " ", "list.py", " -c " + container);
    AppendAssoc("python list.py", " -c ", container);
    assert "python" + " " + "list.py" + " -c " == "python list.py -c ";
    assert Join(ws, " ") == ListRunCommand(container);
    LiteralWords();
    assert [container][0] == container;
    PlainFour("python", "list.py", "-c", container);
    WordsOfUnwords(ws);
  }

  /** The list postprocessing: find `list.json`, remove the job folder and
      register the allow-listed images of the downloaded list in order.
      `imagesOf` is the content of the downloaded file. */
  function ListPostprocess(items: seq<Item>, folderId: string,
                           imagesOf: string -> seq<ImageRecord>)
    : (r: (Result<seq<ImageRecord>, HousekeepingError>, seq<string>))
    ensures SingleFile(items, ListOutput).Err? ==>
              r == (Err(OutputLookup(SingleFile(items, ListOutput).error)), [])
    ensures SingleFile(items, ListOutput).Ok? ==>
              r.1 == [folderId]
              && r.0 == Ok(Filter(imagesOf(SingleFile(items, ListOutput).value), Registered))
  {
    match SingleFile(items, ListOutput)
    case Err(e) => (Err(OutputLookup(e)), [])
    case Ok(fileId) => (Ok(Filter(imagesOf(fileId), Registered)), [folderId])
  }

  /** The registered images are exactly the allow-listed ones the job listed,
      each as often as it was listed. */
  lemma ListRegistersAllowListed(items: seq<Item>, folderId: string, imagesOf: string -> seq<ImageRecord>)
    requires SingleFile(items, ListOutput).Ok?
    ensures var listed := imagesOf(SingleFile(items, ListOutput).value);
            var posted := ListPostprocess(items, folderId, imagesOf).0.value;
            (forall im :: im in posted ==> im.repository in RepositoriesToRegister)
            && (forall im :: Registered(im) ==> multiset(posted)[im] == multiset(listed)[im])
  {
    FilterKeepsAll(imagesOf(SingleFile(items, ListOutput).value), Registered);
  }
}
