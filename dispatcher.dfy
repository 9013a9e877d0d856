/** The event dispatcher: an `exec` event (from `brig run`) provisions the named
    environment at the commit being built; a `create` event (the GitHub webhook)
    for a tag deploys that tag to every environment that tracks it, and for any
    other kind of ref is skipped. */
module Dispatcher {
  import opened Errors
  import opened Orchestration
  import Jobs

  /** The outcome of `JSON.parse` on an event payload. */
  datatype Json<T> = Unparsable | Decoded(value: T)

  /** The payload of an `exec` event; `name` is None when it is missing. */
  datatype ExecPayload = ExecPayload(name: Option<string>)

  /** The payload of a `create` webhook: the kind of ref created and its name. */
  datatype WebhookPayload = WebhookPayload(refType: Option<string>, ref: string)

  datatype Event =
    | Exec(execPayload: Json<ExecPayload>)
    | Create(createPayload: Json<WebhookPayload>)

  /** What a handler goes on to do once the payload is read. */
  datatype Action =
    | Provision(environmentName: string)  // deploy one named environment
    | DeployTag(tag: string)              // the tag-triggered deployment
    | Skip                                // nothing, and no error
    | Reject(error: Error)                // raise at once

  const TAG_REF_TYPE := "tag"

  /** JavaScript truthiness of a string field: present and non-empty. */
  predicate IsTruthy(field: Option<string>)
  {
    field.Some? && field.value != ""
  }

  /** The handlers' branch decisions. */
  function Decide(e: Event): (a: Action)
    ensures a.Provision? <==> e.Exec? && e.execPayload.Decoded? && IsTruthy(e.execPayload.value.name)
    ensures a.Provision? ==> a.environmentName == e.execPayload.value.name.value
    ensures a == Reject(MissingEnvironmentName) <==>
      e.Exec? && e.execPayload.Decoded? && !IsTruthy(e.execPayload.value.name)
    ensures a.DeployTag? <==> e.Create? && e.createPayload.Decoded? && e.createPayload.value.refType == Some(TAG_REF_TYPE)
    ensures a.DeployTag? ==> a.tag == e.createPayload.value.ref
    ensures a.Skip? <==> e.Create? && e.createPayload.Decoded? && e.createPayload.value.refType != Some(TAG_REF_TYPE)
    ensures a == Reject(InvalidPayload) <==> (e.Exec? && e.execPayload.Unparsable?) || (e.Create? && e.createPayload.Unparsable?)
  {
    match e
    case Exec(Unparsable) => Reject(InvalidPayload)
    case Exec(Decoded(payload)) =>
      if !IsTruthy(payload.name) then Reject(MissingEnvironmentName) else Provision(payload.name.value)
    case Create(Unparsable) => Reject(InvalidPayload)
    case Create(Decoded(payload)) =>
      if payload.refType != Some(TAG_REF_TYPE) then Skip else DeployTag(payload.ref)
  }

  /** The run of the direct provisioning of one environment at `commitId`. */
  function ProvisionRun(environmentName: string, commitId: string, cluster: Cluster): Run
  {
    var request := Request(environmentName, commitId);
    match cluster(request, 0)
    case Succeeded => Run(Ok(()), [Deployment(request)])
    case Failed(reason) => Run(Err(DeploymentFailed(reason)), [Deployment(request)])
  }

  /** The run of a handler on event `e`. `commitId` is the commit the event
      runner is building; `listing`, `github` and `cluster` stand for the config
      store, the GitHub API and the cluster. */
  function HandleRun(e: Event, commitId: string, listing: Listing, github: GitHub, cluster: Cluster): Run
  {
    match Decide(e)
    case Reject(error) => Run(Err(error), [])
    case Skip => Run(Ok(()), [])
    case Provision(environmentName) => ProvisionRun(environmentName, commitId, cluster)
    case DeployTag(tag) => DeployToEnvironmentsRun(tag, listing, github, cluster)
  }

  /** Direct provisioning: one deployment job, awaited. */
  method ProvisionEnvironment(environmentName: string, commitId: string, cluster: Cluster)
    returns (outcome: Result<()>, trace: seq<Effect>)
    ensures Run(outcome, trace) == ProvisionRun(environmentName, commitId, cluster)
    ensures trace == [Deployment(Request(environmentName, commitId))]
    ensures outcome.Ok? <==> cluster(Request(environmentName, commitId), 0) == Succeeded
  {
    var request := Request(environmentName, commitId);
    var job := Jobs.Deploy(environmentName, commitId);
    trace := [RunJob(request, job.tasks)];
    var ran := cluster(request, 0);
    if ran.Failed? {
      outcome := Err(DeploymentFailed(ran.reason));
    } else {
      outcome := Ok(());
    }
  }

  /** One event handler run to the end; an error outcome is the error that
      `logError` logs and rethrows. */
  method Handle(e: Event, commitId: string, listing: Listing, github: GitHub, cluster: Cluster)
    returns (outcome: Result<()>, trace: seq<Effect>)
    ensures Run(outcome, trace) == HandleRun(e, commitId, listing, github, cluster)
    ensures Decide(e).Skip? ==> outcome == Ok(()) && trace == []
    ensures Decide(e).Reject? ==> outcome == Err(Decide(e).error) && trace == []
    ensures Decide(e).Provision? ==> trace == [Deployment(Request(Decide(e).environmentName, commitId))]
    ensures ListConfigMaps in trace <==> Decide(e).DeployTag?
  {
    var action := Decide(e);
    match action {
      case Reject(error) =>
        outcome, trace := Err(error), [];
      case Skip =>
        outcome, trace := Ok(()), [];
      case Provision(environmentName) =>
        outcome, trace := ProvisionEnvironment(environmentName, commitId, cluster);
      case DeployTag(tag) =>
        outcome, trace := DeployToEnvironments(tag, listing, github, cluster);
    }
  }
}
