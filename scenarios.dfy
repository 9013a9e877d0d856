/** Whole-handler runs on concrete events, worked out from the model. */
module Scenarios {
  import opened Errors
  import opened EnvironmentMatcher
  import opened TagResolver
  import opened Orchestration
  import opened Dispatcher

  const STAGING := ConfigMap("staging", Mapping(map[PROJECT_NAME := Truthy(Text("v1.2.3"))]))

  /** GitHub answering every lookup with the ref of commit abc123. */
  function TagAtAbc123(url: string, n: nat): Response
  {
    Response(200, "{}", Some("abc123"))
  }

  /** GitHub answering every lookup with 404. */
  function NotFound(url: string, n: nat): Response
  {
    Response(404, "Not Found", None)
  }

  /** A cluster on which every job completes. */
  function AllJobsSucceed(request: Request, n: nat): JobOutcome
  {
    Succeeded
  }

  function TagCreated(refType: string, ref: string): Event
  {
    Create(Decoded(WebhookPayload(Some(refType), ref)))
  }

  /** A tag tracked by one environment: one lookup of that tag, then one
      deployment of the sha it resolves to into that environment. */
  lemma TagDeploysTrackingEnvironment(commitId: string)
    ensures HandleRun(TagCreated("tag", "v1.2.3"), commitId, Items([STAGING]), TagAtAbc123, AllJobsSucceed)
         == Run(Ok(()), [ListConfigMaps, GetTagRef(TagUrl("v1.2.3")), Deployment(Request("staging", "abc123"))])
  {
    assert Match(STAGING, "v1.2.3") == Ok(true);
    assert [STAGING][1..] == [];
    assert Walk([], "v1.2.3", TagAtAbc123, AllJobsSucceed, 1) == Run(Ok(()), []);
  }

  /** A lookup answered 404 fails the run with the body of the answer, and
      nothing is deployed. */
  lemma UnresolvedTagDeploysNothing(commitId: string)
    ensures HandleRun(TagCreated("tag", "v1.2.3"), commitId, Items([STAGING]), NotFound, AllJobsSucceed)
         == Run(Err(TagNotResolved("Not Found")), [ListConfigMaps, GetTagRef(TagUrl("v1.2.3"))])
  {
  }

  /** A branch is skipped before the config store is queried. */
  lemma BranchIsSkipped(commitId: string, listing: Listing, github: GitHub, cluster: Cluster)
    ensures HandleRun(TagCreated("branch", "v1.2.3"), commitId, listing, github, cluster) == Run(Ok(()), [])
  {
  }

  /** An exec event with an empty name is rejected before any deployment, with
      the handler's own message. */
  lemma EmptyNameIsRejected(commitId: string, listing: Listing, github: GitHub, cluster: Cluster)
    ensures HandleRun(Exec(Decoded(ExecPayload(Some("")))), commitId, listing, github, cluster)
         == Run(Err(MissingEnvironmentName), [])
    ensures Message(MissingEnvironmentName) == Some("Environment name must be specified")
  {
  }

  /** A tag event meeting an empty config store fails after the query, with
      the handler's own message. */
  lemma EmptyStoreIsReported(commitId: string, github: GitHub, cluster: Cluster)
    ensures HandleRun(TagCreated("tag", "v1.2.3"), commitId, Items([]), github, cluster)
         == Run(Err(NoEnvironments), [ListConfigMaps])
    ensures Message(NoEnvironments) == Some("No environment configMaps found")
  {
  }

  /** A rejected config-store query fails the run with the body of its answer. */
  lemma RejectedQueryIsReported(commitId: string, github: GitHub, cluster: Cluster)
    ensures HandleRun(TagCreated("tag", "v1.2.3"), commitId, Rejected("forbidden"), github, cluster)
         == Run(Err(ConfigStoreFailed("forbidden")), [ListConfigMaps])
    ensures Message(ConfigStoreFailed("forbidden")) == Some("forbidden")
  {
  }
}
