/** The tag resolver: one GET of the GitHub ref of a tag, whose answer is either
    the `object.sha` of the tag's ref (a commit for a lightweight tag, the tag
    object for an annotated one) or an error carrying the answer's body. */
module TagResolver {
  import opened Errors

  const GITHUB_API_URL := "https://api.github.com/repos/kooba/ditc-gateway"
  const TAG_REFS_PATH := "/git/refs/tags/"

  /** Everything of the tag URL before the tag itself. */
  function TagUrlPrefix(): string
  {
    GITHUB_API_URL + TAG_REFS_PATH
  }

  /** The URL of the ref of `tag`; the tag is inserted verbatim, so it can be
      read back from the URL. */
  function TagUrl(tag: string): (url: string)
    ensures |url| == |TagUrlPrefix()| + |tag|
    ensures url[..|TagUrlPrefix()|] == TagUrlPrefix()
    ensures url[|TagUrlPrefix()|..] == tag
  {
    GITHUB_API_URL + TAG_REFS_PATH + tag
  }

  /** The tag a tag URL names, if `url` is one. */
  function TagOfUrl(url: string): Option<string>
  {
    var n := |TagUrlPrefix()|;
    if n <= |url| && url[..n] == TagUrlPrefix() then Some(url[n..]) else None
  }

  lemma TagUrlRoundTrip(tag: string)
    ensures TagOfUrl(TagUrl(tag)) == Some(tag)
  {
  }

  /** An answer from the GitHub API: its HTTP status, its body as text, and the
      `object.sha` of the body read as JSON (None when the body is not JSON or
      has no such field). */
  datatype Response = Response(status: nat, text: string, objectSha: Option<string>)

  /** `response.ok` of the fetch API: a 2xx status. */
  predicate IsOk(r: Response)
  {
    200 <= r.status <= 299
  }

  /** The sha a tag lookup yields, deployed as the image tag: the `object.sha`
      of an ok answer, or an error that carries the body of any other answer. */
  function CommitOf(r: Response): (res: Result<string>)
    ensures res.Ok? <==> IsOk(r) && r.objectSha.Some?
    ensures res.Ok? ==> res.value == r.objectSha.value
    ensures !IsOk(r) ==> res == Err(TagNotResolved(r.text))
    ensures IsOk(r) && r.objectSha.None? ==> res == Err(MalformedTagRef)
  {
    if IsOk(r) then
      match r.objectSha
      case Some(sha) => Ok(sha)
      case None => Err(MalformedTagRef)
    else
      Err(TagNotResolved(r.text))
  }
}
