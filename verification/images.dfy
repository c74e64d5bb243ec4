/** Container image references: `repository[:tag]` names, the URIs the pull
    script reports, and the digest read back from them. */
module Images {
  import opened Wrappers
  import opened Text

  const Docker := "docker"
  const Singularity := "singularity"
  const Shifter := "shifter"
  const DefaultTag := "latest"

  /** `repository:tag`, the normalised image name. */
  function ImageName(repository: string, tag: string): string {
    repository + ":" + tag
  }

  // ---------------------------------------------------------------------------
  // Image names

  /** `split_image` of the listing script: the text before the first `:` and
      the segment after it, `latest` when there is no `:`. Never fails. */
  function SplitImage(img: string): (r: (string, string))
    ensures r.0 == Before(img, ':') && ':' !in r.0
    ensures ':' !in img ==> r.1 == DefaultTag
    ensures ':' in img ==> r.1 == Before(After(img, ':'), ':') && ':' !in r.1
  {
    SplitFirstChar(img, ':');
    SplitFirstChar(After(img, ':'), ':');
    var parts := Split(img, ":");
    (parts[0], if |parts| > 1 then parts[1] else DefaultTag)
  }

  /** `parse_image_name` of the client rejects names with two or more colons. */
  datatype ImageNameError = InvalidImageName(name: string)

  /** `parse_image_name`: `name` → (name, latest), `repo:tag` → (repo, tag). */
  function ParseImageName(name: string): (r: Result<(string, string), ImageNameError>)
    ensures r.Err? <==> Occurrences(name, ":") >= 2
    ensures r.Err? ==> r.error.name == name
    ensures ':' !in name ==> r == Ok((name, DefaultTag))
    ensures r.Ok? && ':' in name ==> ImageName(r.value.0, r.value.1) == name
    ensures r.Ok? ==> ':' !in r.value.0 && ':' !in r.value.1
  {
    SplitCount(name, ":");
    SplitFirstChar(name, ':');
    SplitFirstChar(After(name, ':'), ':');
    var parts := Split(name, ":");
    if |parts| > 2 then Err(InvalidImageName(name))
    else if |parts| == 1 then Ok((parts[0], DefaultTag))
    else Ok((parts[0], parts[1]))
  }

  /** Formatting a repository and tag and parsing the result gives them back. */
  lemma ParseImageNameInverse(repository: string, tag: string)
    requires ':' !in repository && ':' !in tag
    ensures ParseImageName(ImageName(repository, tag)) == Ok((repository, tag))
  {
    var s := ImageName(repository, tag);
    assert s[|repository|] == ':';
    assert IndexOf(s, ':') == |repository| by {
      assert s[..|repository|] == repository;
      IndexOfFirst(s, ':', |repository|);
    }
    assert After(s, ':') == tag;
    SplitFirstChar(s, ':');
    SplitFirstChar(tag, ':');
  }

  /** The first occurrence is the one with none before it. */
  lemma {:induction false} IndexOfFirst(s: string, c: char, k: nat)
    requires k < |s| && s[k] == c && c !in s[..k]
    ensures IndexOf(s, c) == k
    decreases k
  {
    if k > 0 {
      assert s[..k][0] == s[0];
      assert s[1..][..k - 1] == s[1..k];
      assert s[1..k] == s[..k][1..];
      IndexOfFirst(s[1..], c, k - 1);
    }
  }

  // ---------------------------------------------------------------------------
  // The URI the pull job reports

  datatype UriError = EmptyUri | InvalidUri(uri: string)

  /** `_ensure_image_uri_is_valid`: a missing or empty URI is rejected; a
      singularity URI must contain `.sif`, any other must contain `:`. */
  function CheckImageUri(container: string, uri: Option<string>): (r: Result<string, UriError>)
    ensures r == Err(EmptyUri) <==> uri.None? || uri.value == ""
    ensures r.Ok? <==> uri.Some? && uri.value != ""
                       && (if container == Singularity then Contains(uri.value, ".sif")
                           else ':' in uri.value)
    ensures r.Ok? ==> r.value == uri.value
    ensures r.Err? && r != Err(EmptyUri) ==> r == Err(InvalidUri(uri.value))
  {
    match uri
    case None => Err(EmptyUri)
    case Some(u) =>
      if u == "" then Err(EmptyUri)
      else if container == Singularity then
        if Contains(u, ".sif") then Ok(u) else Err(InvalidUri(u))
      else if ':' in u then Ok(u) else Err(InvalidUri(u))
  }

  /** `image_uri.split(':')[1]` raises IndexError on a URI without `:`. */
  datatype DigestError = NoSecondSegment(uri: string)

  /** `_extract_digest`: the sif file name without `.sif` for singularity,
      otherwise the second `:`-separated segment. */
  function ExtractDigest(container: string, uri: string): (r: Result<string, DigestError>)
    ensures container == Singularity ==> r.Ok? && '/' !in r.value
    ensures container != Singularity ==> (r.Ok? <==> ':' in uri)
    ensures container != Singularity && r.Ok? ==> r.value == Before(After(uri, ':'), ':')
  {
    if container == Singularity then
      RemoveAllKeepsAbsence(Basename(uri), ".sif", '/');
      Ok(RemoveAll(Basename(uri), ".sif"))
    else
      SplitFirstChar(uri, ':');
      SplitFirstChar(After(uri, ':'), ':');
      var parts := Split(uri, ":");
      if |parts| < 2 then Err(NoSecondSegment(uri)) else Ok(parts[1])
  }

  /** A URI that passed the check always yields a digest. */
  lemma CheckedUriHasDigest(container: string, uri: string)
    requires CheckImageUri(container, Some(uri)).Ok?
    ensures ExtractDigest(container, uri).Ok?
  {
  }

  // ---------------------------------------------------------------------------
  // The pull script

  /** The runtimes the `-c` option of the pull and list scripts accepts. */
  predicate RuntimeChoice(container: string) {
    container == Docker || container == Singularity || container == Shifter
  }

  /** What the pull script needs from the machine it runs on. */
  datatype PullHost = PullHost(home: string, sifExists: bool, sifSize: int, dockerSize: int)

  /** A pulled image: the URI and size the script reports and the commands it runs. */
  datatype Pulled = Pulled(imageUri: string, size: int, commands: seq<seq<string>>)

  /** `digest.split(':')[1]` raises IndexError on a digest without `:`. */
  datatype PullError =
    | DigestWithoutColon(digest: string)
    | RuntimeNotAChoice(container: string)   // argparse rejects the `-c` value and exits

  /** `ensure_singularity_dir`: `~/.oc/singularity`. */
  function SingularityDir(home: string): string {
    PathJoin([home, ".oc", "singularity"])
  }

  /** The sif file of a digest: `<hex after ':'>.sif` in the singularity directory. */
  function SifPath(home: string, digest: string): (r: Result<string, PullError>)
    ensures r.Ok? <==> ':' in digest
    ensures r.Ok? ==> r.value == PathJoin([SingularityDir(home), Before(After(digest, ':'), ':') + ".sif"])
  {
    SplitFirstChar(digest, ':');
    SplitFirstChar(After(digest, ':'), ':');
    var parts := Split(digest, ":");
    if |parts| < 2 then Err(DigestWithoutColon(digest))
    else
      assert parts[1] == Before(After(digest, ':'), ':');
      Ok(PathJoin([SingularityDir(home), parts[1] + ".sif"]))
  }

  /** The sif file's base name is the hex part of the digest plus `.sif`. */
  lemma SifPathBasename(home: string, digest: string)
    requires ':' in digest && '/' !in Before(After(digest, ':'), ':')
    ensures Basename(SifPath(home, digest).value) == Before(After(digest, ':'), ':') + ".sif"
  {
    BasenamePathJoin(SingularityDir(home), Before(After(digest, ':'), ':') + ".sif");
  }

  /** `singularity(repo, digest)`: builds from `docker://repo@digest` only when
      the sif file is not there yet. */
  function PullSingularity(repository: string, digest: string, host: PullHost)
    : (r: Result<Pulled, PullError>)
    ensures r.Ok? <==> ':' in digest
    ensures r.Ok? ==> r.value.imageUri == SifPath(host.home, digest).value
    ensures r.Ok? ==> (|r.value.commands| == 1 <==> !host.sifExists)
    ensures r.Ok? && !host.sifExists ==>
              r.value.commands[0] == ["singularity", "build", r.value.imageUri,
                                      "docker://" + repository + "@" + digest]
  {
    var path :- SifPath(host.home, digest);
    var build := if host.sifExists then []
                 else [["singularity", "build", path, "docker://" + repository + "@" + digest]];
    Ok(Pulled(path, host.sifSize, build))
  }

  /** `docker(repo, digest)`: the image is addressed as `repo@digest`. */
  function PullDocker(repository: string, digest: string, host: PullHost): (r: Pulled)
    ensures r.imageUri == repository + "@" + digest
    ensures |r.commands| == 2 && r.commands[0] == ["docker", "pull", r.imageUri]
  {
    var name := repository + "@" + digest;
    Pulled(name, host.dockerSize,
           [["docker", "pull", name], ["docker", "inspect", name, "--format=\"{{.Size}}\""]])
  }

  /** `shifter(repo, tag)`: the image is addressed as `repo:tag` and its size is 0. */
  function PullShifter(repository: string, tag: string): (r: Pulled)
    ensures r.imageUri == ImageName(repository, tag) && r.size == 0
  {
    var name := ImageName(repository, tag);
    Pulled(name, 0, [["shifterimg", "pull", name]])
  }

  /** `main`: the `-c` option only accepts docker, singularity and shifter;
      each is pulled its own way. */
  function Pull(container: string, repository: string, tag: string, digest: string, host: PullHost)
    : (r: Result<Pulled, PullError>)
    ensures r == Err(RuntimeNotAChoice(container)) <==> !RuntimeChoice(container)
    ensures container == Singularity ==> r == PullSingularity(repository, digest, host)
    ensures container == Shifter ==> r == Ok(PullShifter(repository, tag))
    ensures container == Docker ==> r == Ok(PullDocker(repository, digest, host))
  {
    if container == Singularity then PullSingularity(repository, digest, host)
    else if container == Shifter then Ok(PullShifter(repository, tag))
    else if container == Docker then Ok(PullDocker(repository, digest, host))
    else Err(RuntimeNotAChoice(container))
  }

  /** `write_descriptor`: the five fields of `pull.json`. */
  function Descriptor(repository: string, tag: string, digest: string, imageUri: string, size: int)
    : (d: map<string, Json>)
    ensures d.Keys == {"repository", "tag", "digest", "imageUri", "size"}
    ensures d["repository"] == JStr(repository) && d["tag"] == JStr(tag)
    ensures d["digest"] == JStr(digest) && d["imageUri"] == JStr(imageUri)
    ensures d["size"] == JInt(size)
  {
    map["repository" := JStr(repository), "tag" := JStr(tag), "digest" := JStr(digest),
        "imageUri" := JStr(imageUri), "size" := JInt(size)]
  }

  // ---------------------------------------------------------------------------
  // What the taskflow reads back from what the script wrote

  /** The sif file the pull script writes passes the URI check, and the digest
      read back from it is the hex part of the registry digest. */
  lemma SingularityDigestRoundTrip(repository: string, tag: string, digest: string, host: PullHost)
    requires ':' in digest
    requires '.' !in Before(After(digest, ':'), ':') && '/' !in Before(After(digest, ':'), ':')
    ensures Pull(Singularity, repository, tag, digest, host).Ok?
    ensures CheckImageUri(Singularity, Some(Pull(Singularity, repository, tag, digest, host).value.imageUri)).Ok?
    ensures ExtractDigest(Singularity, Pull(Singularity, repository, tag, digest, host).value.imageUri)
         == Ok(Before(After(digest, ':'), ':'))
  {
    SifPathBasename(host.home, digest);
    SifUriReadsBack(Pull(Singularity, repository, tag, digest, host).value.imageUri, Before(After(digest, ':'), ':'));
  }

  /** A path whose base name is `hex.sif` passes the singularity check and
      reads back as `hex`. */
  lemma SifUriReadsBack(uri: string, hex: string)
    requires Basename(uri) == hex + ".sif" && '.' !in hex && '/' !in hex
    ensures CheckImageUri(Singularity, Some(uri)).Ok?
    ensures ExtractDigest(Singularity, uri) == Ok(hex)
  {
    RemoveAllSuffix(hex, ".sif");
    SuffixContained(uri, hex + ".sif", ".sif");
  }

  lemma SuffixContained(s: string, suffix: string, pat: string)
    requires EndsWith(s, suffix) && EndsWith(suffix, pat)
    ensures Contains(s, pat)
  {
    var t := s[|s| - |pat|..];
    assert t == pat;
    assert Contains(t, pat);
    ContainsPrepend(s[..|s| - |pat|], t, pat);
    assert s[..|s| - |pat|] + t == s;
  }

  /** The docker URI `repo@digest` reads back as the same hex part, as long as
      the repository has no `:`. */
  lemma DockerDigestRoundTrip(repository: string, tag: string, digest: string, host: PullHost)
    requires ':' !in repository && ':' in digest
    ensures Pull(Docker, repository, tag, digest, host).Ok?
    ensures CheckImageUri(Docker, Some(Pull(Docker, repository, tag, digest, host).value.imageUri)).Ok?
    ensures ExtractDigest(Docker, Pull(Docker, repository, tag, digest, host).value.imageUri)
         == Ok(Before(After(digest, ':'), ':'))
  {
    var uri := repository + "@" + digest;
    var k := IndexOf(digest, ':');
    assert uri[|repository| + 1 + k] == ':';
    assert uri[..|repository| + 1 + k] == repository + "@" + digest[..k];
    IndexOfFirst(uri, ':', |repository| + 1 + k);
    assert After(uri, ':') == After(digest, ':');
  }

  /** A shifter URI is `repo:tag`, so the value recorded as its digest is the tag. */
  lemma ShifterRecordsTag(repository: string, tag: string, digest: string, host: PullHost)
    requires ':' !in repository && ':' !in tag
    ensures ExtractDigest(Shifter, Pull(Shifter, repository, tag, digest, host).value.imageUri) == Ok(tag)
  {
    var s := ImageName(repository, tag);
    assert s[..|repository|] == repository;
    IndexOfFirst(s, ':', |repository|);
    assert After(s, ':') == tag;
    assert Before(tag, ':') == tag;
    assert Shifter != Singularity;
  }
}
