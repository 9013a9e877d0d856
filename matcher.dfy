/** The environment matcher: decides whether one preview-environment config map
    tracks the gateway project at the tag of the current event. */
module EnvironmentMatcher {
  import opened Errors

  /** The key of this project in every environment document. */
  const PROJECT_NAME := "gateway"

  /** The `tag` field of a project entry, as the loaded YAML gives it: absent,
      a string, or a value of another type (a number, a boolean, null, ...),
      which never equals a string under strict equality. */
  datatype TagField = Absent | Text(s: string) | NonText

  /** A project entry, by JavaScript truthiness: a falsy value (null, false, 0,
      the empty string) or a truthy one, which may carry a tag. */
  datatype ProjectEntry = Falsy | Truthy(tag: TagField)

  /** What loading a config map's `environment` document gives: a load error,
      nothing or null (an empty or `~` document), a value that is not a mapping
      (a string, a number, a boolean or a sequence), or the mapping from
      project names to entries. */
  datatype Document =
    | LoadError(reason: string)
    | Empty
    | NotAMapping
    | Mapping(projects: map<string, ProjectEntry>)

  /** Whether the project entry can be read from the loaded document; reading a
      property of null or undefined throws, reading one of any other value does
      not. */
  predicate Loads(d: Document)
  {
    d.NotAMapping? || d.Mapping?
  }

  /** A preview-environment config map: the `environmentName` label of its
      metadata and its loaded `environment` document. */
  datatype ConfigMap = ConfigMap(environmentName: string, environment: Document)

  /** The entry of `name`, reading a missing key as undefined, which is falsy. */
  function Lookup(projects: map<string, ProjectEntry>, name: string): ProjectEntry
  {
    if name in projects then projects[name] else Falsy
  }

  /** Whether the config map tracks this project at `tag`; a document whose
      project entry cannot be read is an error, not a mismatch. */
  function Match(cm: ConfigMap, tag: string): (r: Result<bool>)
    ensures r.Err? <==> !Loads(cm.environment)
    ensures cm.environment.LoadError? ==> r == Err(MalformedDocument(cm.environment.reason))
    ensures cm.environment.Empty? ==> r == Err(EmptyDocument)
    ensures r == Ok(true) <==>
      cm.environment.Mapping? && PROJECT_NAME in cm.environment.projects &&
      cm.environment.projects[PROJECT_NAME] == Truthy(Text(tag))
  {
    match cm.environment
    case LoadError(reason) => Err(MalformedDocument(reason))
    case Empty => Err(EmptyDocument)
    case NotAMapping => Ok(false)
    case Mapping(projects) =>
      var config := Lookup(projects, PROJECT_NAME);
      Ok(config.Truthy? && config.tag == Text(tag))
  }

  /** The tag comparison is exact: a config map that matches one tag matches
      no other, so no prefix, case or version normalisation takes place. */
  lemma MatchIsExact(cm: ConfigMap, tag: string, other: string)
    requires Match(cm, tag) == Ok(true) && other != tag
    ensures Match(cm, other) == Ok(false)
  {
  }

  /** A document without an entry for this project is a mismatch, not an error. */
  lemma MissingProjectIsNoMatch(cm: ConfigMap, tag: string)
    requires cm.environment.Mapping? && PROJECT_NAME !in cm.environment.projects
    ensures Match(cm, tag) == Ok(false)
  {
  }

  /** A document that loads to a scalar or a sequence has no project entries:
      a mismatch for every tag, not an error. */
  lemma NonMappingIsNoMatch(cm: ConfigMap, tag: string)
    requires cm.environment.NotAMapping?
    ensures Match(cm, tag) == Ok(false)
  {
  }

  /** The config maps of `maps` that track this project at `tag`, in order. */
  function Selected(maps: seq<ConfigMap>, tag: string): (sel: seq<ConfigMap>)
    ensures |sel| <= |maps|
    ensures forall m :: m in sel ==> m in maps && Match(m, tag) == Ok(true)
    ensures forall m :: m in maps && Match(m, tag) == Ok(true) ==> m in sel
  {
    if maps == [] then []
    else if Match(maps[0], tag) == Ok(true) then [maps[0]] + Selected(maps[1..], tag)
    else Selected(maps[1..], tag)
  }

  /** Selecting from a concatenation selects from each part, in order. */
  lemma {:induction false} SelectedConcat(a: seq<ConfigMap>, b: seq<ConfigMap>, tag: string)
    ensures Selected(a + b, tag) == Selected(a, tag) + Selected(b, tag)
    decreases |a|
  {
    if a == [] {
      assert a + b == b;
    } else {
      assert (a + b)[0] == a[0] && (a + b)[1..] == a[1..] + b;
      SelectedConcat(a[1..], b, tag);
    }
  }

  /** One config map is selected iff it tracks the tag, and then exactly once. */
  lemma SelectedSingle(m: ConfigMap, tag: string)
    ensures Selected([m], tag) == if Match(m, tag) == Ok(true) then [m] else []
  {
    assert [m][1..] == [];
  }

  /** Whether the project entry of every document in `maps` can be read. */
  predicate AllLoad(maps: seq<ConfigMap>)
  {
    forall i :: 0 <= i < |maps| ==> Loads(maps[i].environment)
  }
}
