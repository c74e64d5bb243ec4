/** What every taskflow adds to a job for the kind of cluster it runs on, and
    the shape of the job body posted to the job store. */
module Scheduling {
  import opened Wrappers
  import opened Text

  /** The outcome of the `is_nersc` / `is_demo` tests, made in that order:
      a NERSC cluster, the demo deployment, or a bare-metal cluster. */
  datatype ClusterClass = Nersc | Demo | Baremetal

  /** The scheduler fields a NERSC job carries; `account` is the `OC_ACCOUNT`
      environment variable, absent when it is unset. */
  datatype NerscFields = NerscFields(numberOfNodes: nat, queue: string, constraint: string,
                                     account: Option<string>)

  /** The `params` of a job body: always the taskflow id, plus the NERSC fields
      on NERSC only. */
  datatype JobParams = JobParams(taskFlowId: string, nersc: Option<NerscFields>)

  const NerscNodes: nat := 1
  const NerscQueue := "debug"
  const NerscConstraint := "haswell"

  /** The one setup command the demo deployment prepends to every job. */
  const DemoSetup: seq<string> := ["source scl_source enable python27"]

  /** The `jobParameters` of a job: every job carries its taskflow id, and only
      a NERSC cluster adds scheduler fields, one debug haswell node charged to
      `account`. */
  function JobParameters(cls: ClusterClass, taskFlowId: string, account: Option<string>): (p: JobParams)
    ensures p.taskFlowId == taskFlowId
    ensures p.nersc.Some? <==> cls == Nersc
    ensures p.nersc.Some? ==> p.nersc.value.numberOfNodes == 1 && p.nersc.value.queue == "debug"
                              && p.nersc.value.constraint == "haswell" && p.nersc.value.account == account
  {
    if cls == Nersc
    then JobParams(taskFlowId, Some(NerscFields(NerscNodes, NerscQueue, NerscConstraint, account)))
    else JobParams(taskFlowId, None)
  }

  /** The `setupCommands` of a job: only the demo deployment prepends a setup
      command, and then exactly one. */
  function SetupCommands(cls: ClusterClass): (cmds: seq<string>)
    ensures |cmds| <= 1
    ensures cmds != [] <==> cls == Demo
    ensures cls == Demo ==> cmds[0] == "source scl_source enable python27"
  {
    if cls == Demo then DemoSetup else []
  }

  /** A folder binding of a job: the folder, where it appears in the job
      directory, and the entries left out when it is uploaded. */
  datatype Binding = Binding(folderId: string, path: string, exclude: seq<string>)

  /** The body posted to `jobs`. */
  datatype JobBody = JobBody(name: string, commands: seq<string>, input: seq<Binding>,
                             output: seq<Binding>, uploadOutput: bool, params: JobParams)

  /** Both directions of one folder bound at the job directory itself. */
  function SameFolder(folderId: string): seq<Binding> {
    [Binding(folderId, ".", [])]
  }

  // ---------------------------------------------------------------------------
  // Command lines

  /** Words separated by single spaces are what a shell reads back as words. */
  predicate Plain(ws: seq<string>) {
    forall k :: 0 <= k < |ws| ==> |ws[k]| > 0 && NoSpace(ws[k])
  }

  lemma PlainTwo(a: string, b: string)
    requires |a| > 0 && NoSpace(a) && |b| > 0 && NoSpace(b)
    ensures Plain([a, b])
  {
  }

  lemma PlainThree(a: string, b: string, c: string)
    requires |a| > 0 && NoSpace(a) && |b| > 0 && NoSpace(b) && |c| > 0 && NoSpace(c)
    ensures Plain([a, b, c])
  {
  }

  lemma PlainFour(a: string, b: string, c: string, d: string)
    requires |a| > 0 && NoSpace(a) && |b| > 0 && NoSpace(b) && |c| > 0 && NoSpace(c) && |d| > 0 && NoSpace(d)
    ensures Plain([a, b, c, d])
  {
  }

  lemma PlainTail(ws: seq<string>)
    requires |ws| >= 1 && Plain(ws)
    ensures Plain(ws[1..])
  {
    forall k | 0 <= k < |ws| - 1 ensures |ws[1..][k]| > 0 && NoSpace(ws[1..][k]) {
      assert ws[1..][k] == ws[k + 1];
    }
  }

  /** Plain word lists stay plain when concatenated. */
  lemma PlainConcat(a: seq<string>, b: seq<string>)
    requires Plain(a) && Plain(b)
    ensures Plain(a + b)
  {
    assert forall k :: |a| <= k < |a| + |b| ==> (a + b)[k] == b[k - |a|];
  }
}
