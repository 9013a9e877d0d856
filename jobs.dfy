/** The deployment executor: one brigadier job per deployment request, whose
    second task is a `helm upgrade` of the gateway release of that environment. */
module Jobs {

  const JOB_NAME := "ditc-gateway"
  const WORKER_IMAGE := "jakubborys/ditc-brigade-worker:latest"
  const CHECKOUT_TASK := "cd /src"

  /** What a backslash-newline inside the command's template literal leaves
      behind: the space before the backslash and the four spaces that indent
      the next source line. */
  const CONTINUATION := "     "

  /** The Helm command for a release of the gateway into `env` at image tag `sha`,
      as the single string the job's shell receives. */
  function HelmUpgradeCommand(env: string, sha: string): string
  {
    "helm" + " " + "upgrade" + " " + (env + "-gateway") + CONTINUATION
    + "charts/gateway" + " " + "--install" + CONTINUATION
    + ("--namespace=" + env) + CONTINUATION
    + "--set" + " " + ("image.tag=" + sha) + CONTINUATION
    + "--set" + " " + "replicaCount=1"
  }

  /** The argument vector the Helm command is meant to produce. */
  function HelmUpgradeArgs(env: string, sha: string): seq<string>
  {
    ["helm", "upgrade", env + "-gateway", "charts/gateway", "--install",
     "--namespace=" + env, "--set", "image.tag=" + sha, "--set", "replicaCount=1"]
  }

  /** The runs of spaces between the command's arguments. */
  function HelmUpgradeGaps(): seq<string>
  {
    [" ", " ", CONTINUATION, " ", CONTINUATION, CONTINUATION, " ", CONTINUATION, " "]
  }

  /** The job's task list: change into the checkout, then upgrade. */
  function DeploymentTasks(env: string, sha: string): seq<string>
  {
    [CHECKOUT_TASK, HelmUpgradeCommand(env, sha)]
  }

  /** A brigadier job; the fields are the ones the deployer sets after construction. */
  class Job {
    const name: string
    const image: string
    var storageEnabled: bool
    var imageForcePull: bool
    var tasks: seq<string>

    // brigadier's defaults for storage and image pulling are not part of this model.
    constructor (name: string, image: string)
      ensures this.name == name && this.image == image && tasks == []
    {
      this.name := name;
      this.image := image;
      tasks := [];
    }
  }

  /** Builds the job that deploys image tag `sha` into environment `env`: no
      shared storage, the worker image pulled afresh, and the two tasks. */
  method Deploy(env: string, sha: string) returns (job: Job)
    ensures fresh(job)
    ensures job.name == JOB_NAME && job.image == WORKER_IMAGE
    ensures !job.storageEnabled && job.imageForcePull
    ensures job.tasks == DeploymentTasks(env, sha)
    ensures NoSpace(env) && NoSpace(sha) ==> Words(job.tasks[1]) == HelmUpgradeArgs(env, sha)
  {
    job := new Job(JOB_NAME, WORKER_IMAGE);
    job.storageEnabled := false;
    job.imageForcePull := true;
    job.tasks := DeploymentTasks(env, sha);
    if NoSpace(env) && NoSpace(sha) {
      HelmUpgradeWords(env, sha);
    }
  }

  // ---------------------------------------------------------------------------
  // How a shell splits the command into words (spaces only).

  predicate NoSpace(s: string)
  {
    ' ' !in s
  }

  predicate AllSpaces(s: string)
  {
    forall i :: 0 <= i < |s| ==> s[i] == ' '
  }

  /** The length of the run of non-space characters that starts `s`. */
  function WordLength(s: string): (n: nat)
    ensures n <= |s| && NoSpace(s[..n])
    ensures n < |s| ==> s[n] == ' '
    ensures s != [] && s[0] != ' ' ==> n > 0
  {
    if s == [] || s[0] == ' ' then 0
    else
      var n := 1 + WordLength(s[1..]);
      assert s[..n] == [s[0]] + s[1..][..n - 1];
      n
  }

  /** The words of `s`: its maximal runs of non-space characters, in order. */
  function Words(s: string): seq<string>
    decreases |s|
  {
    if s == [] then []
    else if s[0] == ' ' then Words(s[1..])
    else
      var n := WordLength(s);
      [s[..n]] + Words(s[n..])
  }

  /** A space at the end of `p` or at the start of `q` ends the first word of
      `p` inside `p`, whatever follows. */
  lemma {:induction false} WordLengthConcat(p: string, q: string)
    requires q == [] || q[0] == ' ' || (p != [] && p[|p| - 1] == ' ')
    ensures WordLength(p + q) == WordLength(p)
    decreases |p|
  {
    if p == [] {
      assert p + q == q;
    } else if p[0] != ' ' {
      assert (p + q)[1..] == p[1..] + q;
      WordLengthConcat(p[1..], q);
    }
  }

  /** Splitting is compositional at a boundary that has a space on one side. */
  lemma {:induction false} WordsConcat(p: string, q: string)
    requires p == [] || q == [] || p[|p| - 1] == ' ' || q[0] == ' '
    ensures Words(p + q) == Words(p) + Words(q)
    decreases |p|
  {
    if p == [] {
      assert p + q == q;
    } else if p[0] == ' ' {
      assert (p + q)[1..] == p[1..] + q;
      WordsConcat(p[1..], q);
    } else {
      var n := WordLength(p);
      WordLengthConcat(p, q);
      assert (p + q)[..n] == p[..n];
      assert (p + q)[n..] == p[n..] + q;
      WordsConcat(p[n..], q);
    }
  }

  /** A run of spaces holds no word. */
  lemma {:induction false} WordsOfGap(gap: string)
    requires AllSpaces(gap)
    ensures Words(gap) == []
    decreases |gap|
  {
    if gap != [] {
      assert AllSpaces(gap[1..]);
      WordsOfGap(gap[1..]);
    }
  }

  /** A non-empty run of non-space characters is a single word. */
  lemma WordsOfWord(w: string)
    requires w != [] && NoSpace(w)
    ensures Words(w) == [w]
  {
    WordLengthOfWord(w);
    assert w[..|w|] == w;
    assert w[|w|..] == [];
  }

  lemma WordLengthOfWord(w: string)
    requires NoSpace(w)
    ensures WordLength(w) == |w|
  {
  }

  /** A gap of spaces and a word appended to any text add that one word. */
  lemma WordsSnoc(p: string, gap: string, w: string)
    requires gap != [] && AllSpaces(gap)
    requires w != [] && NoSpace(w)
    ensures Words(p + gap + w) == Words(p) + [w]
  {
    WordsConcat(p, gap);
    WordsOfGap(gap);
    assert Words(p) + [] == Words(p);
    WordsConcat(p + gap, w);
    WordsOfWord(w);
  }

  /** The words `w` written out left to right with `g[i]` between `w[i]` and `w[i + 1]`. */
  function Line(w: seq<string>, g: seq<string>): string
    requires |w| == |g| + 1
    decreases |g|
  {
    if g == [] then w[0]
    else Line(w[..|w| - 1], g[..|g| - 1]) + g[|g| - 1] + w[|w| - 1]
  }

  /** Words with gaps of spaces between them split back into those words. */
  lemma {:induction false} WordsOfLine(w: seq<string>, g: seq<string>)
    requires |w| == |g| + 1
    requires forall i :: 0 <= i < |w| ==> w[i] != [] && NoSpace(w[i])
    requires forall i :: 0 <= i < |g| ==> g[i] != [] && AllSpaces(g[i])
    ensures Words(Line(w, g)) == w
    decreases |g|
  {
    if g == [] {
      WordsOfWord(w[0]);
    } else {
      var w', g' := w[..|w| - 1], g[..|g| - 1];
      WordsOfLine(w', g');
      WordsSnoc(Line(w', g'), g[|g| - 1], w[|w| - 1]);
      assert w' + [w[|w| - 1]] == w;
    }
  }

  lemma LineStep(w: seq<string>, g: seq<string>, k: nat)
    requires |w| == |g| + 1 && 1 <= k <= |g|
    ensures Line(w[..k + 1], g[..k]) == Line(w[..k], g[..k - 1]) + g[k - 1] + w[k]
  {
    assert w[..k + 1][..k] == w[..k];
    assert g[..k][..k - 1] == g[..k - 1];
  }

  /** The Helm command is its ten arguments laid out with the source's gaps. */
  lemma HelmUpgradeLine(env: string, sha: string)
    ensures HelmUpgradeCommand(env, sha) == Line(HelmUpgradeArgs(env, sha), HelmUpgradeGaps())
  {
    var w, g := HelmUpgradeArgs(env, sha), HelmUpgradeGaps();
    assert Line(w[..1], g[..0]) == "helm";
    LineStep(w, g, 1);
    LineStep(w, g, 2);
    LineStep(w, g, 3);
    LineStep(w, g, 4);
    LineStep(w, g, 5);
    LineStep(w, g, 6);
    LineStep(w, g, 7);
    LineStep(w, g, 8);
    LineStep(w, g, 9);
    assert w[..10] == w && g[..9] == g;
  }

  /** The shell splits the Helm command into exactly the intended arguments,
      whatever runs of spaces the line continuations leave between them, as long
      as the environment name and the sha hold no space. */
  lemma HelmUpgradeWords(env: string, sha: string)
    requires NoSpace(env) && NoSpace(sha)
    ensures Words(HelmUpgradeCommand(env, sha)) == HelmUpgradeArgs(env, sha)
  {
    var w, g := HelmUpgradeArgs(env, sha), HelmUpgradeGaps();
    assert forall i :: 0 <= i < 10 ==> w[i] != [] && NoSpace(w[i]);
    assert forall i :: 0 <= i < 9 ==> g[i] != [] && AllSpaces(g[i]);
    HelmUpgradeLine(env, sha);
    WordsOfLine(w, g);
  }

  /** Two deployments whose commands split into the same words deploy the same
      environment at the same sha: the command determines the request. */
  lemma HelmUpgradeDeterminesRequest(env1: string, sha1: string, env2: string, sha2: string)
    requires NoSpace(env1) && NoSpace(sha1) && NoSpace(env2) && NoSpace(sha2)
    requires Words(HelmUpgradeCommand(env1, sha1)) == Words(HelmUpgradeCommand(env2, sha2))
    ensures env1 == env2 && sha1 == sha2
  {
    HelmUpgradeWords(env1, sha1);
    HelmUpgradeWords(env2, sha2);
    var a, b := HelmUpgradeArgs(env1, sha1), HelmUpgradeArgs(env2, sha2);
    assert a[5] == b[5];
    assert a[7] == b[7];
    assert env1 == a[5][12..] == b[5][12..] == env2;
    assert sha1 == a[7][10..] == b[7][10..] == sha2;
  }
}
