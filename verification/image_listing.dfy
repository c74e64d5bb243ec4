/** The listing script that reports the images a cluster already holds, and
    the allow-list the listing taskflow applies before registering them. */
module ImageListing {
  import opened Wrappers
  import opened Text
  import opened Lists
  import opened Images

  /** One image the listing script reports. */
  datatype ImageRecord = ImageRecord(repository: string, tag: string, digest: string, size: int)

  // ---------------------------------------------------------------------------
  // docker

  /** What `docker inspect <id>` reports, reduced to the fields the script reads;
      a missing `RepoTags` or `RepoDigests` is an empty list. */
  datatype DockerInfo = DockerInfo(repoTags: seq<string>, repoDigests: seq<string>, size: int)

  /** The image one line of `docker image ls` yields, if any. */
  function DockerLine(line: string, inspect: string -> seq<DockerInfo>): (r: Option<ImageRecord>)
    ensures |Words(line)| < 5 ==> r.None?
    ensures r.Some? <==> |Words(line)| >= 5 && |inspect(Words(line)[2])| > 0
                         && |inspect(Words(line)[2])[0].repoTags| > 0
                         && |inspect(Words(line)[2])[0].repoDigests| > 0
    ensures r.Some? ==>
              var info := inspect(Words(line)[2])[0];
              r.value.repository == Before(info.repoTags[0], ':')
              && r.value.digest == SplitImage(info.repoDigests[0]).1
              && r.value.size == info.size
  {
    var tokens := Words(line);
    if |tokens| < 5 then None
    else
      var infos := inspect(tokens[2]);
      if |infos| == 0 then None
      else
        var info := infos[0];
        if |info.repoTags| == 0 then None
        else
          var (repository, tag) := SplitImage(info.repoTags[0]);
          if |info.repoDigests| == 0 then None
          else
            var (_, digest) := SplitImage(info.repoDigests[0]);
            Some(ImageRecord(repository, tag, digest, info.size))
  }

  /** `docker()`: the header line is dropped and every other line is read in order. */
  method ListDocker(output: string, inspect: string -> seq<DockerInfo>) returns (images: seq<ImageRecord>)
    ensures images == FilterMap(Split(output, "\n")[1..], (line: string) => DockerLine(line, inspect))
    ensures |images| <= |Split(output, "\n")| - 1
  {
    var lines := Split(output, "\n")[1..];
    ghost var f := (line: string) => DockerLine(line, inspect);
    images := [];
    var i := 0;
    while i < |lines|
      invariant 0 <= i <= |lines|
      invariant images == FilterMap(lines[..i], f)
    {
      var line := lines[i];
      var tokens := Words(line);
      assert lines[..i + 1] == lines[..i] + [line];
      FilterMapAppend(lines[..i], line, f);
      if |tokens| >= 5 {
        var infos := inspect(tokens[2]);
        if |infos| > 0 {
          var info := infos[0];
          if |info.repoTags| > 0 {
            var (repository, tag) := SplitImage(info.repoTags[0]);
            if |info.repoDigests| > 0 {
              var (_, digest) := SplitImage(info.repoDigests[0]);
              images := images + [ImageRecord(repository, tag, digest, info.size)];
            }
          }
        }
      }
      i := i + 1;
    }
    assert lines[..|lines|] == lines;
  }

  /** The digest docker reports is the text after the first `:` of the first
      repo digest, which never contains a `:` itself. */
  lemma DockerDigestIsHex(line: string, inspect: string -> seq<DockerInfo>)
    requires DockerLine(line, inspect).Some?
    ensures ':' !in DockerLine(line, inspect).value.digest
  {
    var info := inspect(Words(line)[2])[0];
    var d := info.repoDigests[0];
    if ':' !in d {
      assert SplitImage(d).1 == DefaultTag;
    }
  }

  // ---------------------------------------------------------------------------
  // singularity

  const FromLabel := "org.label-schema.usage.singularity.deffile.from"

  /** What `singularity inspect` and the file system say about one sif file:
      the image's `from` label, if it has one, and the file size. */
  datatype SifInfo = SifInfo(fromLabel: Option<string>, size: int)

  /** The image one file of `~/.oc/singularity` yields, if any. */
  function SingularityFile(dir: string, name: string, inspect: string -> SifInfo): (r: Option<ImageRecord>)
    ensures !EndsWith(name, ".sif") ==> r.None?
    ensures r.Some? <==> EndsWith(name, ".sif") && inspect(PathJoin([dir, name])).fromLabel.Some?
    ensures r.Some? ==> r.value.digest == RemoveAll(name, ".sif")
    ensures r.Some? ==> (r.value.repository, r.value.tag)
                        == SplitImage(inspect(PathJoin([dir, name])).fromLabel.value)
  {
    if !EndsWith(name, ".sif") then None
    else
      var info := inspect(PathJoin([dir, name]));
      match info.fromLabel
      case None => None
      case Some(from) =>
        var (repository, tag) := SplitImage(from);
        Some(ImageRecord(repository, tag, RemoveAll(name, ".sif"), info.size))
  }

  function SifOf(dir: string, inspect: string -> SifInfo): string -> Option<ImageRecord> {
    (name: string) => SingularityFile(dir, name, inspect)
  }

  /** `singularity()`: every directory entry in listing order; the k-th image
      is the one of the k-th entry that yields an image. */
  function ListSingularity(dir: string, names: seq<string>, inspect: string -> SifInfo)
    : (images: seq<ImageRecord>)
    ensures PicksInOrder(names, SifOf(dir, inspect), Positions(names, SifOf(dir, inspect)), images)
    ensures |images| <= |names|
  {
    FilterMapPicks(names, SifOf(dir, inspect));
    FilterMap(names, SifOf(dir, inspect))
  }

  /** A sif file the pull script wrote for a digest is listed under the same
      digest the pull taskflow extracted from its path. */
  lemma ListedSifMatchesPull(home: string, digest: string, inspect: string -> SifInfo)
    requires ':' in digest
    requires '.' !in Before(After(digest, ':'), ':') && '/' !in Before(After(digest, ':'), ':')
    requires inspect(PathJoin([SingularityDir(home), Before(After(digest, ':'), ':') + ".sif"])).fromLabel.Some?
    ensures SingularityFile(SingularityDir(home), Before(After(digest, ':'), ':') + ".sif", inspect).Some?
    ensures SingularityFile(SingularityDir(home), Before(After(digest, ':'), ':') + ".sif", inspect).value.digest
         == ExtractDigest(Singularity, SifPath(home, digest).value).value
  {
    var hex := Before(After(digest, ':'), ':');
    var name := hex + ".sif";
    assert name[|name| - 4..] == ".sif";
    RemoveAllSuffix(hex, ".sif");
    SifPathBasename(home, digest);
  }

  // ---------------------------------------------------------------------------
  // shifter

  /** The image one line of `shifterimg images` yields, if any; `lookup` is the
      raw output of `shifterimg lookup`. */
  function ShifterLine(line: string, lookup: string -> string): (r: Option<ImageRecord>)
    ensures r.Some? <==> |Words(line)| >= 6
    ensures r.Some? ==> (r.value.repository, r.value.tag) == SplitImage(Words(line)[5])
    ensures r.Some? ==> r.value.digest == lookup(Words(line)[5]) && r.value.size == 0
  {
    var tokens := Words(line);
    if |tokens| < 6 then None
    else
      var (repository, tag) := SplitImage(tokens[5]);
      Some(ImageRecord(repository, tag, lookup(tokens[5]), 0))
  }

  function ShifterOf(lookup: string -> string): string -> Option<ImageRecord> {
    (line: string) => ShifterLine(line, lookup)
  }

  /** `shifter()`: every output line in order, with no header to drop; the
      k-th image is the one of the k-th line that yields an image. */
  function ListShifter(output: string, lookup: string -> string): (images: seq<ImageRecord>)
    ensures PicksInOrder(Split(output, "\n"), ShifterOf(lookup), Positions(Split(output, "\n"), ShifterOf(lookup)),
                         images)
    ensures |images| <= |Split(output, "\n")|
  {
    FilterMapPicks(Split(output, "\n"), ShifterOf(lookup));
    FilterMap(Split(output, "\n"), ShifterOf(lookup))
  }

  /** argparse rejects a `-c` value outside its choices and exits. */
  datatype ListError = NotAChoice(container: string)

  /** `main`: the `-c` option only accepts docker, singularity and shifter;
      each is listed its own way. */
  method ListImages(container: string, output: string, sifDir: string, sifNames: seq<string>,
                    dockerInspect: string -> seq<DockerInfo>, sifInspect: string -> SifInfo,
                    shifterLookup: string -> string)
    returns (r: Result<seq<ImageRecord>, ListError>)
    ensures r.Err? <==> !RuntimeChoice(container)
    ensures r.Err? ==> r.error == NotAChoice(container)
    ensures container == Singularity ==> r == Ok(ListSingularity(sifDir, sifNames, sifInspect))
    ensures container == Shifter ==> r == Ok(ListShifter(output, shifterLookup))
    ensures container == Docker ==>
              r == Ok(FilterMap(Split(output, "\n")[1..], (line: string) => DockerLine(line, dockerInspect)))
  {
    if container == Singularity {
      r := Ok(ListSingularity(sifDir, sifNames, sifInspect));
    } else if container == Shifter {
      r := Ok(ListShifter(output, shifterLookup));
    } else if container == Docker {
      var images := ListDocker(output, dockerInspect);
      r := Ok(images);
    } else {
      r := Err(NotAChoice(container));
    }
  }

  // ---------------------------------------------------------------------------
  // Registration

  /** The repositories the listing taskflow registers automatically. */
  const RepositoriesToRegister: seq<string> := [
    "openchemistry/chemml",
    "openchemistry/cp2k",
    "openchemistry/nwchem",
    "openchemistry/psi4",
    "openchemistry/torchani"
  ]

  predicate Registered(im: ImageRecord) {
    im.repository in RepositoriesToRegister
  }

  /** The images the listing taskflow posts, in listing order: each entry outside
      the allow-list is skipped and the loop carries on. */
  method ImagesToRegister(listed: seq<ImageRecord>) returns (posted: seq<ImageRecord>)
    ensures posted == Filter(listed, Registered)
    ensures forall im :: im in posted ==> im.repository in RepositoriesToRegister
    ensures forall im :: Registered(im) ==> multiset(posted)[im] == multiset(listed)[im]
  {
    posted := [];
    var i := 0;
    while i < |listed|
      invariant 0 <= i <= |listed|
      invariant posted == Filter(listed[..i], Registered)
    {
      assert listed[..i + 1] == listed[..i] + [listed[i]];
      FilterAppend(listed[..i], listed[i], Registered);
      if listed[i].repository !in RepositoriesToRegister {
        i := i + 1;
        continue;
      }
      posted := posted + [listed[i]];
      i := i + 1;
    }
    assert listed[..|listed|] == listed;
    FilterKeepsAll(listed, Registered);
  }
}
