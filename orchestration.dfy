/** The tag-triggered deployment: list the preview-environment config maps, and
    for each one that tracks the gateway at the event's tag, in list order,
    resolve the tag to a commit and deploy that commit into the environment.
    Every step is awaited before the next, and the first failure ends the run. */
module Orchestration {
  import opened Errors
  import opened EnvironmentMatcher
  import opened TagResolver
  import Jobs

  /** What one deployment needs: the environment and the commit to deploy. */
  datatype Request = Request(environmentName: string, gitSha: string)

  /** How a deployment job ends. */
  datatype JobOutcome = Succeeded | Failed(reason: string)

  /** The calls into the outside world, in the order they are made. */
  datatype Effect =
    | ListConfigMaps            // the one query of the config store
    | GetTagRef(url: string)    // a GET of the GitHub ref of the tag
    | RunJob(request: Request, tasks: seq<string>)  // a deployment job, with its tasks, run to completion

  /** The run of the job that `Jobs.Deploy` builds for `request`. */
  function Deployment(request: Request): Effect
  {
    RunJob(request, Jobs.DeploymentTasks(request.environmentName, request.gitSha))
  }

  /** What the config-store query answers: the listed config maps, or a
      rejection carrying the body of the answer. */
  datatype Listing = Items(maps: seq<ConfigMap>) | Rejected(body: string)

  /** How a run ends and the calls it made. */
  datatype Run = Run(outcome: Result<()>, trace: seq<Effect>)

  /** The GitHub API: the answer to the `n`-th tag lookup of a run, made for `url`. */
  type GitHub = (string, nat) -> Response

  /** The cluster: how the `n`-th deployment job of a run ends. */
  type Cluster = (Request, nat) -> JobOutcome

  function Prepend(effects: seq<Effect>, r: Run): Run
  {
    Run(r.outcome, effects + r.trace)
  }

  /** The run over the config maps `maps`, `n` matches having been deployed
      before them. */
  function Walk(maps: seq<ConfigMap>, tag: string, github: GitHub, cluster: Cluster, n: nat): Run
    decreases |maps|
  {
    if maps == [] then Run(Ok(()), [])
    else
      match Match(maps[0], tag)
      case Err(e) => Run(Err(e), [])
      case Ok(matched) =>
        if !matched then Walk(maps[1..], tag, github, cluster, n)
        else
          var url := TagUrl(tag);
          match CommitOf(github(url, n))
          case Err(e) => Run(Err(e), [GetTagRef(url)])
          case Ok(sha) =>
            var request := Request(maps[0].environmentName, sha);
            match cluster(request, n)
            case Failed(reason) => Run(Err(DeploymentFailed(reason)), [GetTagRef(url), Deployment(request)])
            case Succeeded => Prepend([GetTagRef(url), Deployment(request)], Walk(maps[1..], tag, github, cluster, n + 1))
  }

  /** The whole tag-triggered deployment, given what the config-store query returns. */
  function DeployToEnvironmentsRun(tag: string, listing: Listing, github: GitHub, cluster: Cluster): Run
  {
    match listing
    case Rejected(body) => Run(Err(ConfigStoreFailed(body)), [ListConfigMaps])
    case Items(maps) =>
      if maps == [] then Run(Err(NoEnvironments), [ListConfigMaps])
      else Prepend([ListConfigMaps], Walk(maps, tag, github, cluster, 0))
  }

  /** The deployment loop, one awaited step after another. */
  method DeployToEnvironments(tag: string, listing: Listing, github: GitHub, cluster: Cluster)
    returns (outcome: Result<()>, trace: seq<Effect>)
    ensures Run(outcome, trace) == DeployToEnvironmentsRun(tag, listing, github, cluster)
    ensures listing.Rejected? ==> outcome == Err(ConfigStoreFailed(listing.body)) && trace == [ListConfigMaps]
    ensures listing == Items([]) ==> outcome == Err(NoEnvironments) && trace == [ListConfigMaps]
    ensures |trace| >= 1 && trace[0] == ListConfigMaps
  {
    trace := [ListConfigMaps];
    if listing.Rejected? {
      outcome := Err(ConfigStoreFailed(listing.body));
      return;
    }
    var maps := listing.maps;
    if |maps| == 0 {
      outcome := Err(NoEnvironments);
      return;
    }
    var i, n := 0, 0;
    while i < |maps|
      invariant 0 <= i <= |maps|
      invariant |trace| >= 1 && trace[0] == ListConfigMaps
      invariant Prepend(trace, Walk(maps[i..], tag, github, cluster, n))
             == DeployToEnvironmentsRun(tag, listing, github, cluster)
    {
      var configMap := maps[i];
      assert maps[i..][0] == configMap && maps[i..][1..] == maps[i + 1..];
      var matched := Match(configMap, tag);
      if matched.Err? {
        outcome := Err(matched.error);
        return;
      }
      if matched.value {
        var url := TagUrl(tag);
        trace := trace + [GetTagRef(url)];
        var sha := CommitOf(github(url, n));
        if sha.Err? {
          outcome := Err(sha.error);
          return;
        }
        var request := Request(configMap.environmentName, sha.value);
        var job := Jobs.Deploy(request.environmentName, request.gitSha);
        trace := trace + [RunJob(request, job.tasks)];
        var ran := cluster(request, n);
        if ran.Failed? {
          outcome := Err(DeploymentFailed(ran.reason));
          return;
        }
        n := n + 1;
      }
      i := i + 1;
    }
    outcome := Ok(());
  }

  // ---------------------------------------------------------------------------
  // What a run promises.

  /** The lookup of `url` made as the i-th of a run returns a sha, and the
      deployment of that sha into the environment of `m` succeeds. */
  predicate Succeeds(m: ConfigMap, url: string, github: GitHub, cluster: Cluster, i: nat)
  {
    CommitOf(github(url, i)).Ok? &&
    cluster(Request(m.environmentName, CommitOf(github(url, i)).value), i) == Succeeded
  }

  /** The k-th pair of effects of `trace` is a lookup of `url` immediately
      followed by the deployment, into the environment of `m`, of the sha that
      lookup returned, both made as the i-th of their kind and both succeeding. */
  predicate DeployedAt(trace: seq<Effect>, k: nat, m: ConfigMap, url: string, github: GitHub, cluster: Cluster, i: nat)
  {
    2 * k + 1 < |trace| && Succeeds(m, url, github, cluster, i) &&
    trace[2 * k] == GetTagRef(url) &&
    trace[2 * k + 1] == Deployment(Request(m.environmentName, CommitOf(github(url, i)).value))
  }

  lemma DeployedAtShift(step: seq<Effect>, trace: seq<Effect>, k: nat, m: ConfigMap, url: string,
                        github: GitHub, cluster: Cluster, i: nat)
    requires |step| == 2 && DeployedAt(trace, k, m, url, github, cluster, i)
    ensures DeployedAt(step + trace, k + 1, m, url, github, cluster, i)
  {
  }

  /** A run that ends normally found every document loadable and made, for the
      k-th config map that tracks the tag and for no other, one lookup of the
      tag immediately followed by one deployment of the sha that lookup returned
      into that map's environment: as many lookups and deployments as matches,
      in list order. */
  lemma {:induction false} WalkSucceeded(maps: seq<ConfigMap>, tag: string, github: GitHub, cluster: Cluster, n: nat)
    requires Walk(maps, tag, github, cluster, n).outcome.Ok?
    ensures AllLoad(maps)
    ensures |Walk(maps, tag, github, cluster, n).trace| == 2 * |Selected(maps, tag)|
    ensures forall k :: 0 <= k < |Selected(maps, tag)| ==>
      DeployedAt(Walk(maps, tag, github, cluster, n).trace, k, Selected(maps, tag)[k], TagUrl(tag), github, cluster, n + k)
    decreases |maps|
  {
    if maps != [] {
      var r, url := Walk(maps, tag, github, cluster, n), TagUrl(tag);
      var m, rest := maps[0], maps[1..];
      var sel, sel' := Selected(maps, tag), Selected(rest, tag);
      assert Match(m, tag).Ok?;
      if Match(m, tag) == Ok(false) {
        WalkSucceeded(rest, tag, github, cluster, n);
        assert sel == sel';
      } else {
        WalkSucceeded(rest, tag, github, cluster, n + 1);
        var r' := Walk(rest, tag, github, cluster, n + 1);
        assert sel == [m] + sel';
        var step := r.trace[..2];
        assert r.trace == step + r'.trace;
        forall k | 0 <= k < |sel|
          ensures DeployedAt(r.trace, k, sel[k], url, github, cluster, n + k)
        {
          if k > 0 {
            assert sel[k] == sel'[k - 1];
            assert n + k == (n + 1) + (k - 1);
            DeployedAtShift(step, r'.trace, k - 1, sel[k], url, github, cluster, n + k);
          }
        }
      }
      assert AllLoad(maps) by {
        forall i | 0 <= i < |maps| ensures Loads(maps[i].environment) {
          if i > 0 { assert maps[i] == rest[i - 1]; }
        }
      }
    }
  }

  /** Conversely, a run ends normally when every document loads and every
      lookup and every deployment for the tracking config maps succeeds. */
  lemma {:induction false} WalkSucceedsWhen(maps: seq<ConfigMap>, tag: string, github: GitHub, cluster: Cluster, n: nat)
    requires AllLoad(maps)
    requires forall k :: 0 <= k < |Selected(maps, tag)| ==>
      Succeeds(Selected(maps, tag)[k], TagUrl(tag), github, cluster, n + k)
    ensures Walk(maps, tag, github, cluster, n).outcome.Ok?
    decreases |maps|
  {
    if maps != [] {
      var m, rest := maps[0], maps[1..];
      var sel, sel', url := Selected(maps, tag), Selected(rest, tag), TagUrl(tag);
      assert Loads(m.environment);
      AllLoadTail(maps);
      if Match(m, tag) == Ok(false) {
        assert sel == sel';
        WalkSucceedsWhen(rest, tag, github, cluster, n);
      } else {
        assert sel == [m] + sel';
        assert Succeeds(m, url, github, cluster, n) by {
          assert Succeeds(sel[0], url, github, cluster, n + 0);
        }
        forall k | 0 <= k < |sel'|
          ensures Succeeds(sel'[k], url, github, cluster, n + 1 + k)
        {
          assert sel'[k] == sel[k + 1];
          assert n + 1 + k == n + (k + 1);
        }
        WalkSucceedsWhen(rest, tag, github, cluster, n + 1);
      }
    }
  }

  lemma AllLoadTail(maps: seq<ConfigMap>)
    requires maps != [] && AllLoad(maps)
    ensures AllLoad(maps[1..])
  {
  }

  /** A run over maps that all end normally continues, on the maps after them,
      as a run of its own that starts after their trace and counts their
      matches: a run is the concatenation of the runs of its parts. */
  lemma {:induction false} WalkConcat(a: seq<ConfigMap>, b: seq<ConfigMap>, tag: string,
                                     github: GitHub, cluster: Cluster, n: nat)
    requires Walk(a, tag, github, cluster, n).outcome.Ok?
    ensures Walk(a + b, tag, github, cluster, n)
         == Prepend(Walk(a, tag, github, cluster, n).trace, Walk(b, tag, github, cluster, n + |Selected(a, tag)|))
    decreases |a|
  {
    if a == [] {
      assert a + b == b;
    } else {
      var m, rest := a[0], a[1..];
      assert (a + b)[0] == m && (a + b)[1..] == rest + b;
      if Match(m, tag) == Ok(false) {
        WalkConcat(rest, b, tag, github, cluster, n);
      } else {
        var r' := Walk(rest, tag, github, cluster, n + 1);
        var step := Walk(a, tag, github, cluster, n).trace[..2];
        assert Walk(a, tag, github, cluster, n) == Prepend(step, r');
        WalkConcat(rest, b, tag, github, cluster, n + 1);
        assert |Selected(a, tag)| == 1 + |Selected(rest, tag)|;
        var rb := Walk(b, tag, github, cluster, n + |Selected(a, tag)|);
        assert step + (r'.trace + rb.trace) == (step + r'.trace) + rb.trace;
      }
    }
  }

  /** The run over the one config map `maps[j]`, as the run over `maps` reaches
      it: after the matches of the maps before it. */
  function StepAt(maps: seq<ConfigMap>, j: nat, tag: string, github: GitHub, cluster: Cluster, n: nat): Run
    requires j < |maps|
  {
    Walk([maps[j]], tag, github, cluster, n + |Selected(maps[..j], tag)|)
  }

  /** The config map a failed run fails at: the run over the maps before it
      ends normally, and the run up to and including it is the whole run. */
  lemma {:induction false} FailingIndex(maps: seq<ConfigMap>, tag: string, github: GitHub, cluster: Cluster, n: nat)
      returns (j: nat)
    requires Walk(maps, tag, github, cluster, n).outcome.Err?
    ensures j < |maps|
    ensures Walk(maps[..j], tag, github, cluster, n).outcome.Ok?
    ensures Walk(maps[..j + 1], tag, github, cluster, n) == Walk(maps, tag, github, cluster, n)
    decreases |maps|
  {
    var m, rest := maps[0], maps[1..];
    if Match(m, tag) == Ok(false) {
      var j' := FailingIndex(rest, tag, github, cluster, n);
      j := j' + 1;
      assert maps[..j][1..] == rest[..j'] && maps[..j][0] == m;
      assert maps[..j + 1][1..] == rest[..j' + 1] && maps[..j + 1][0] == m;
    } else if Match(m, tag).Err? || CommitOf(github(TagUrl(tag), n)).Err?
              || cluster(Request(m.environmentName, CommitOf(github(TagUrl(tag), n)).value), n).Failed? {
      j := 0;
      assert maps[..1][0] == m && maps[..1][1..] == [];
    } else {
      var j' := FailingIndex(rest, tag, github, cluster, n + 1);
      j := j' + 1;
      assert maps[..j][1..] == rest[..j'] && maps[..j][0] == m;
      assert maps[..j + 1][1..] == rest[..j' + 1] && maps[..j + 1][0] == m;
    }
  }

  /** A run fails at one config map: the run over the maps before it ends
      normally, and the whole run is that run's trace followed by what was done
      for the failing map, ending in that map's own error. No later config map
      is examined, resolved or deployed, and nothing already deployed is undone. */
  lemma WalkFailsAt(maps: seq<ConfigMap>, tag: string, github: GitHub, cluster: Cluster, n: nat)
      returns (j: nat)
    requires Walk(maps, tag, github, cluster, n).outcome.Err?
    ensures j < |maps|
    ensures Walk(maps[..j], tag, github, cluster, n).outcome.Ok?
    ensures Walk(maps[..j + 1], tag, github, cluster, n) == Walk(maps, tag, github, cluster, n)
    ensures StepAt(maps, j, tag, github, cluster, n).outcome.Err?
    ensures Walk(maps, tag, github, cluster, n)
         == Run(StepAt(maps, j, tag, github, cluster, n).outcome,
                Walk(maps[..j], tag, github, cluster, n).trace + StepAt(maps, j, tag, github, cluster, n).trace)
  {
    j := FailingIndex(maps, tag, github, cluster, n);
    assert maps[..j + 1] == maps[..j] + [maps[j]];
    WalkConcat(maps[..j], [maps[j]], tag, github, cluster, n);
  }

  /** The three ways the step for one config map fails: its document cannot be
      read, and nothing is called; the tag lookup fails, and no job is built;
      or the deployment job fails, after the lookup. A map that does not track
      the tag never fails. */
  lemma WalkStepFails(m: ConfigMap, tag: string, github: GitHub, cluster: Cluster, i: nat)
    requires Walk([m], tag, github, cluster, i).outcome.Err?
    ensures Match(m, tag) != Ok(false)
    ensures Match(m, tag).Err? ==> Walk([m], tag, github, cluster, i) == Run(Err(Match(m, tag).error), [])
    ensures Match(m, tag) == Ok(true) && CommitOf(github(TagUrl(tag), i)).Err? ==>
      Walk([m], tag, github, cluster, i) == Run(Err(CommitOf(github(TagUrl(tag), i)).error), [GetTagRef(TagUrl(tag))])
    ensures Match(m, tag) == Ok(true) && CommitOf(github(TagUrl(tag), i)).Ok? ==>
      cluster(Request(m.environmentName, CommitOf(github(TagUrl(tag), i)).value), i).Failed? &&
      Walk([m], tag, github, cluster, i) ==
        Run(Err(DeploymentFailed(cluster(Request(m.environmentName, CommitOf(github(TagUrl(tag), i)).value), i).reason)),
            [GetTagRef(TagUrl(tag)), Deployment(Request(m.environmentName, CommitOf(github(TagUrl(tag), i)).value))])
  {
    assert [m][1..] == [];
  }

  /** Config maps after the one a run failed at change nothing. */
  lemma {:induction false} WalkIgnoresRestAfterFailure(maps: seq<ConfigMap>, more: seq<ConfigMap>, tag: string,
                                                      github: GitHub, cluster: Cluster, n: nat)
    requires Walk(maps, tag, github, cluster, n).outcome.Err?
    ensures Walk(maps + more, tag, github, cluster, n) == Walk(maps, tag, github, cluster, n)
    decreases |maps|
  {
    var m, rest := maps[0], maps[1..];
    assert (maps + more)[0] == m && (maps + more)[1..] == rest + more;
    if Match(m, tag) == Ok(false) {
      WalkIgnoresRestAfterFailure(rest, more, tag, github, cluster, n);
    } else if Match(m, tag) == Ok(true) && CommitOf(github(TagUrl(tag), n)).Ok?
              && cluster(Request(m.environmentName, CommitOf(github(TagUrl(tag), n)).value), n) == Succeeded {
      WalkIgnoresRestAfterFailure(rest, more, tag, github, cluster, n + 1);
    }
  }

  /** When every document loads and none tracks the tag, the run ends normally
      without any lookup or deployment. */
  lemma {:induction false} WalkWithoutMatches(maps: seq<ConfigMap>, tag: string, github: GitHub, cluster: Cluster, n: nat)
    requires AllLoad(maps) && Selected(maps, tag) == []
    ensures Walk(maps, tag, github, cluster, n) == Run(Ok(()), [])
    decreases |maps|
  {
    if maps != [] {
      assert Loads(maps[0].environment);
      assert Match(maps[0], tag) == Ok(false);
      AllLoadTail(maps);
      WalkWithoutMatches(maps[1..], tag, github, cluster, n);
    }
  }

  /** An empty config-store answer is an error before any lookup or deployment;
      a non-empty one in which nothing tracks the tag is a normal end after the
      query alone. */
  lemma NoEnvironmentsVersusNoMatches(tag: string, maps: seq<ConfigMap>, github: GitHub, cluster: Cluster)
    ensures maps == [] ==>
      DeployToEnvironmentsRun(tag, Items(maps), github, cluster) == Run(Err(NoEnvironments), [ListConfigMaps])
    ensures maps != [] && AllLoad(maps) && Selected(maps, tag) == [] ==>
      DeployToEnvironmentsRun(tag, Items(maps), github, cluster) == Run(Ok(()), [ListConfigMaps])
  {
    if maps != [] && AllLoad(maps) && Selected(maps, tag) == [] {
      WalkWithoutMatches(maps, tag, github, cluster, 0);
    }
  }
}
