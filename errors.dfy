/** The failures a handler of the deployer can end in, and the result type that
    carries them. Every failure reaches the handler's error-reporting path,
    `logError`, which logs it and rethrows it. */
module Errors {

  datatype Option<+T> = None | Some(value: T)

  datatype Error =
    | InvalidPayload                      // the event payload is not JSON
    | MissingEnvironmentName              // an exec event without a (non-empty) name
    | ConfigStoreFailed(body: string)     // the config-map listing call was rejected, with the body of its answer
    | NoEnvironments                      // the listing returned no config maps
    | MalformedDocument(reason: string)   // a config map's environment document did not load
    | EmptyDocument                       // a document loaded to null or nothing, so reading its project entry throws
    | TagNotResolved(body: string)        // a non-2xx answer to the tag lookup, with its body text
    | MalformedTagRef                     // a 2xx answer whose body has no object.sha
    | DeploymentFailed(reason: string)    // a deployment job failed

  datatype Result<+T> = Ok(value: T) | Err(error: Error)

  // The two failures the handler raises with a fixed message of its own.
  const NO_ENVIRONMENTS_MESSAGE := "No environment configMaps found"
  const MISSING_NAME_MESSAGE := "Environment name must be specified"

  /** The text `logError` reports for an error: the handler's own fixed message,
      the body of a rejected answer, or the reason of a failure raised
      elsewhere; None for the errors whose text comes from a library. */
  function Message(e: Error): Option<string>
  {
    match e
    case NoEnvironments => Some(NO_ENVIRONMENTS_MESSAGE)
    case MissingEnvironmentName => Some(MISSING_NAME_MESSAGE)
    case ConfigStoreFailed(body) => Some(body)
    case TagNotResolved(body) => Some(body)
    case DeploymentFailed(reason) => Some(reason)
    case _ => None
  }
}
