# ditc-gateway deployer, modelled in Dafny

A model of the Brigade script `brigade.js` that deploys the gateway service
with Helm. The script answers two events:

- `exec` (a `brig run`): the payload names one environment, which is deployed
  at the commit the event runner is building;
- `create` (the GitHub webhook): when the created ref is a tag, every
  preview-environment config map whose `environment` document says the
  `gateway` project tracks that tag gets one deployment of the `object.sha` of
  the tag's ref, in the order the config store lists them.

A deployment is a brigadier job running `cd /src` and then a
`helm upgrade <env>-gateway charts/gateway --install --namespace=<env>
--set image.tag=<sha> --set replicaCount=1`.

The outside world is replaced by inputs. The config-store query's answer is a
`Listing`: the config maps, or a rejection carrying the body of the answer. The GitHub API is a function from (URL, number of the
lookup within the run) to a `Response`. The cluster is a function from
(deployment request, number of the job within the run) to how the job ends.
Each run returns its outcome (`Ok(())` or the error the handler raises) and
the trace of calls it made: `ListConfigMaps`, `GetTagRef(url)` and
`RunJob(request, tasks)`, the job's tasks being the ones `Jobs.Deploy` set.

Files, one module each:

- `errors.dfy` (`Errors`): the error kinds and the `Result` type.
- `jobs.dfy` (`Jobs`): the `Job` class, `Deploy`, the Helm command, and how a
  shell splits it into words.
- `tag_resolver.dfy` (`TagResolver`): the tag URL and the answer to the lookup.
- `matcher.dfy` (`EnvironmentMatcher`): config maps, their documents, and the
  match test.
- `orchestration.dfy` (`Orchestration`): the deployment loop as a method, the
  run it must produce (`Walk`, `DeployToEnvironmentsRun`), and the lemmas about
  that run.
- `dispatcher.dfy` (`Dispatcher`): the `exec` and `create` handlers.
- `scenarios.dfy` (`Scenarios`): whole-handler runs on concrete events.

## Model

| member | source | states |
|---|---|---|
| `Jobs.Deploy` | brigade.js:13-28 | The job is new and named `ditc-gateway` on the worker image. Shared storage is off and image pulling is forced. The tasks are `cd /src` and then the Helm command for (env, sha). When neither value holds a space, that command splits into exactly the intended Helm arguments. |
| `Jobs.HelmUpgradeWords` | brigade.js:23-27 | Split on spaces, the Helm command gives exactly `helm upgrade <env>-gateway charts/gateway --install --namespace=<env> --set image.tag=<sha> --set replicaCount=1`. The runs of five spaces left by the backslash-newline continuations do not matter. |
| `Jobs.HelmUpgradeDeterminesRequest` | brigade.js:23-27 | Two Helm commands that split into the same words deploy the same environment at the same sha. |
| `TagResolver.TagUrl` | brigade.js:38 | The tag URL is the repository's API URL, then `/git/refs/tags/`, then the tag verbatim, so the tag can be read back from the URL. |
| `TagResolver.TagUrlRoundTrip` | brigade.js:38 | Stripping the fixed prefix from a tag URL gives back the tag. |
| `TagResolver.CommitOf` | brigade.js:48-52 | A 2xx answer whose body carries `object.sha` yields that sha. A 2xx answer without it is an error. Any other answer is an error carrying the body text. |
| `EnvironmentMatcher.Match` | brigade.js:65-67 | A document that does not load is an error carrying the loader's reason. A document that loads to null or nothing is an error too, because reading its `gateway` entry throws. A config map matches iff its document is a mapping whose `gateway` entry is truthy and has a string `tag` equal to the event tag. |
| `EnvironmentMatcher.MatchIsExact` | brigade.js:67 | A config map that matches one tag matches no other tag, so there is no prefix or version normalisation. |
| `EnvironmentMatcher.MissingProjectIsNoMatch` | brigade.js:66-67 | A document with no `gateway` entry gives no match, and no error. |
| `EnvironmentMatcher.NonMappingIsNoMatch` | brigade.js:65-67 | A document that loads to a scalar or a sequence gives no match for any tag, and no error. |
| `EnvironmentMatcher.Selected` | brigade.js:64-67 | Every config map in the result is in the list and matches, every matching config map of the list is in the result, and the result is no longer than the list. |
| `EnvironmentMatcher.SelectedConcat` | brigade.js:64-67 | Selecting from two lists joined is selecting from each and joining the results, so the order of the list is kept. |
| `EnvironmentMatcher.SelectedSingle` | brigade.js:66-67 | A one-map list selects that map once if it matches and nothing otherwise. With `SelectedConcat` this fixes both the order and the number of the selected maps. |
| `Orchestration.DeployToEnvironments` | brigade.js:55-73 | The loop produces exactly the outcome and trace of the specification run. A rejected query gives `ConfigStoreFailed` with the body of the answer, after the query and nothing else. An empty listing gives `NoEnvironments` after the query and nothing else. Every trace starts with the config-store query. Each job the trace records carries the tasks `Jobs.Deploy` set. |
| `Orchestration.WalkSucceeded` | brigade.js:64-72 | A run that ends normally had every document load. Its trace holds two effects per matching config map, in list order: a lookup of the tag URL, then the deployment into that map's environment of the sha this lookup returned. Every lookup and deployment succeeded. |
| `Orchestration.WalkSucceedsWhen` | brigade.js:64-72 | The converse: if every document loads and every lookup and deployment for the matching maps succeeds, the run ends normally. |
| `Orchestration.WalkConcat` | brigade.js:64-72 | When the run over a first part of the list ends normally, the run over the whole list is that run's trace followed by the run over the rest, which counts lookups and jobs on from the first part's matches. |
| `Orchestration.WalkFailsAt` | brigade.js:64-72 | A failed run fails at one config map j. The run over the maps before j ends normally. The run up to and including j is already the whole run. The failed run's trace is the trace of the maps before j, whose deployments are kept, followed by what was done for map j. Its error is the error of map j's own step. |
| `Orchestration.WalkStepFails` | brigade.js:65-71 | The step for one config map fails in one of three ways. An unreadable document gives its error with no call. A failed tag lookup gives that lookup's error after the lookup alone, so no job is built. A failed job gives `DeploymentFailed` after the lookup and that job. A map that does not track the tag never fails. |
| `Orchestration.WalkIgnoresRestAfterFailure` | brigade.js:64-72 | Appending config maps to a list whose run fails changes neither the outcome nor the trace: no later map is examined, resolved or deployed. |
| `Orchestration.WalkWithoutMatches` | brigade.js:64-73 | If every document loads and none tracks the tag, the run ends normally with no lookup and no deployment. |
| `Orchestration.NoEnvironmentsVersusNoMatches` | brigade.js:61-73 | An empty listing is the `NoEnvironments` error after the query alone. A non-empty listing with no match ends normally after the query alone. |
| `Dispatcher.Decide` | brigade.js:92-114 | An exec payload is provisioned iff it has a non-empty `name`, which names the environment. A missing or empty name is `MissingEnvironmentName`. A create payload starts the tag deployment with its `ref` iff `ref_type` is exactly `tag`; otherwise it is skipped. A payload that is not JSON is rejected. |
| `Dispatcher.ProvisionEnvironment` | brigade.js:32-34 | Direct provisioning runs exactly one job, the deployment of (name, commit being built) with the tasks `Jobs.Deploy` set, and succeeds iff that job does. |
| `Dispatcher.Handle` | brigade.js:87-121 | The handler's run is the specification run. A skipped event does nothing and raises nothing. A rejected event raises its error with an empty trace. Provisioning runs one job. The config store is queried iff the event is a tag creation. |
| `Scenarios.TagDeploysTrackingEnvironment` | brigade.js:55-73 | Tag `v1.2.3`, tracked by `staging`, resolving to `abc123`: the query, one lookup of that tag, one deployment of (`staging`, `abc123`), and a normal end. |
| `Scenarios.UnresolvedTagDeploysNothing` | brigade.js:48-52 | The same event with GitHub answering 404 `Not Found`: the run fails with `TagNotResolved("Not Found")` after the lookup, and nothing is deployed. |
| `Scenarios.BranchIsSkipped` | brigade.js:111-114 | A `create` event for a branch ends normally without any call. |
| `Scenarios.EmptyNameIsRejected` | brigade.js:93-96 | An `exec` event with an empty name fails with `MissingEnvironmentName`, whose message is `Environment name must be specified`, without any call. |
| `Scenarios.EmptyStoreIsReported` | brigade.js:61-63 | A tag event with no config maps listed fails after the query with `NoEnvironments`, whose message is `No environment configMaps found`. |
| `Scenarios.RejectedQueryIsReported` | brigade.js:57-60 | A tag event whose config-store query is rejected fails after the query with `ConfigStoreFailed`, reporting the body of the answer. |

## Left out

- The Kubernetes client's `listNamespacedConfigMap` call (brigade.js:57-60) is network I/O. Its answer, or its rejection with the body `logError` prints, is the `listing` input. The namespace `brigade` and the label selector are not modelled.
- The `node-fetch` GET and reading of the body (brigade.js:39-52) are network I/O. An answer is a status, the body text and the body's `object.sha`. The `Authorization` and `Content-Type` headers are not modelled, so the token read from `process.env` is not either.
- GitHub's tag objects are not modelled. The sha deployed is the `object.sha` of the tag's ref. That is the commit for a lightweight tag, but for an annotated tag it is the sha of the tag object, and the model does not tell the two apart.
- `TagResolver.CommitOf`: a 2xx body whose `object` exists without a `sha` makes the source deploy the string `undefined`. The model treats every 2xx answer without a sha as the `MalformedTagRef` error.
- `yaml.safeLoad` (brigade.js:65) is a library. Its result is a `Document`: a load error with its reason, nothing or null, a value that is not a mapping, or the mapping of project names to entries. Only the first two make the source throw. How a config map without `data.environment` loads is not modelled: each config map comes with its `Document`.
- The `labels.environmentName` of a config map is always a string here. A config map without labels, which the source rejects, is not modelled.
- Event payload fields hold strings or are missing. A non-string JSON `name`, such as a number, is not modelled, nor is a webhook payload without `ref`.
- brigadier's `Job.run` (brigade.js:29) is modelled by the `cluster` input. The `events.on` subscription (brigade.js:87, 105) is modelled by `Dispatcher.Handle` taking the event. brigadier's defaults for a new job are not modelled.
- `Jobs.HelmUpgradeWords`: word splitting is on spaces only. Quoting, other whitespace and shell metacharacters in an environment name or a sha are not modelled.
- Promise chaining and logging are not modelled: `logError` (brigade.js:75-85) logs every error and rethrows it, and all `console.log` output is left out. An error outcome stands for the error `logError` receives. For an error from the asynchronous chain (brigade.js:97-99, 115-117) that rethrow happens inside a `.catch` callback, so it becomes a rejected promise that nothing awaits; the model does not say how the event runner sees it.
- `process.env.BRIGADE_COMMIT_ID` (brigade.js:33) is the `commitId` parameter.
- The tag is looked up once per matching config map, as the source does. Keeping one answer for all the matches of an event is not modelled.
- setup.py is Python packaging metadata with no logic. It is not part of this model.
