/** The two calls into GitHub's GraphQL API and their classification of the
    outcome. The transport is abstracted: a call is modelled by the
    `Outcome` the client library hands back. */
module GitHub {
  import opened Wrappers
  import opened Thrown

  /** `first:` arguments of the two queries. */
  const TopRepositoriesLimit := 10
  const TopicsLimit := 6
  const SearchLimit := 5

  datatype Language = Language(color: Option<string>, name: string)
  datatype License = License(name: string)

  /** One node of `topRepositories`; `topics` lists `repositoryTopics` in order. */
  datatype Repository = Repository(
    description: Option<string>,
    forkCount: nat,
    licenseInfo: Option<License>,
    name: string,
    primaryLanguage: Option<Language>,
    topics: seq<string>,
    stargazerCount: nat,
    updatedAt: string,
    url: string)

  /** The `user` field of the profile query. */
  datatype User = User(
    avatarUrl: string,
    bio: Option<string>,
    company: Option<string>,
    createdAt: string,
    email: string,
    followers: nat,
    following: nat,
    location: Option<string>,
    login: string,
    name: Option<string>,
    pronouns: Option<string>,
    repositories: nat,
    topRepositories: seq<Repository>,
    twitterUsername: Option<string>,
    url: string,
    websiteUrl: Option<string>)

  /** One node of the search query. Nodes that are not users (organisations)
      match no fragment and arrive with every field absent. */
  datatype SearchNode = SearchNode(avatarUrl: Option<string>, login: Option<string>, name: Option<string>)

  /** One entry of a GraphQL response's `errors` list. */
  datatype GraphqlError = GraphqlError(errorType: Option<string>, message: string)

  /** What awaiting the client gives: the response data, a
      `GraphqlResponseError` (whose `errors` may be missing), or any other
      thrown value (network failure, bad credentials, ...). */
  datatype Outcome<T> = Ok(data: T) | GqlError(errors: Option<seq<GraphqlError>>) | Other(thrown: ErrorValue)

  /** The profile query as the remote honours it: at most 10 repositories,
      each with at most 6 topics. */
  predicate WithinRequestedBounds(user: User) {
    && |user.topRepositories| <= TopRepositoriesLimit
    && forall i :: 0 <= i < |user.topRepositories| ==> |user.topRepositories[i].topics| <= TopicsLimit
  }

  /** JavaScript truthiness of an optional string. */
  predicate Truthy(s: Option<string>) {
    s.Some? && s.value != ""
  }

  predicate IsNotFound(e: GraphqlError) {
    e.errorType == Some("NOT_FOUND")
  }

  predicate HasNotFound(errors: Option<seq<GraphqlError>>) {
    errors.Some? && exists i :: 0 <= i < |errors.value| && IsNotFound(errors.value[i])
  }

  /** `errors.find((error) => error.type === "NOT_FOUND")`: the first entry
      of type NOT_FOUND, if there is one. */
  function FindNotFound(errors: seq<GraphqlError>): (r: Option<GraphqlError>)
    ensures r.Some? <==> exists i :: 0 <= i < |errors| && IsNotFound(errors[i])
    ensures r.Some? ==> exists i :: 0 <= i < |errors| && errors[i] == r.value && IsNotFound(r.value)
                                    && forall j :: 0 <= j < i ==> !IsNotFound(errors[j])
  {
    if errors == [] then None
    else if IsNotFound(errors[0]) then Some(errors[0])
    else
      var r := FindNotFound(errors[1..]);
      assert forall i :: 0 < i < |errors| ==> errors[i] == errors[1..][i - 1];
      r
  }

  /** `throw new Error(error.errors?.[0].message)`: with no `errors` the
      optional chain yields `undefined` and the Error's message is ""; with an
      empty list, reading `.message` of `undefined` throws a TypeError. */
  function FirstErrorThrown(errors: Option<seq<GraphqlError>>): (r: ErrorValue)
    ensures r.ObjectValue? && r.message.Some? && r.message.value.StringProperty?
    ensures errors.None? ==> r == ErrorObject("")
    ensures errors == Some([]) ==> r == ErrorObject(TypeErrorMessage)
    ensures errors.Some? && |errors.value| > 0 ==> r == ErrorObject(errors.value[0].message)
  {
    match errors
    case None => ErrorObject("")
    case Some(es) => if |es| == 0 then ErrorObject(TypeErrorMessage) else ErrorObject(es[0].message)
  }

  /** `getUserByLogin`: the user, `null` (here `None`) for a NOT_FOUND
      error, or a thrown error. */
  function GetUserByLogin(outcome: Outcome<User>): (r: Result<Option<User>, ErrorValue>)
    ensures outcome.Ok? ==> r == Success(Some(outcome.data))
    ensures outcome.GqlError? && HasNotFound(outcome.errors) ==> r == Success(None)
    ensures outcome.GqlError? && !HasNotFound(outcome.errors) ==> r == Failure(FirstErrorThrown(outcome.errors))
    ensures outcome.GqlError? && outcome.errors.Some? && |outcome.errors.value| > 0 && !HasNotFound(outcome.errors)
            ==> r == Failure(ErrorObject(outcome.errors.value[0].message))
    ensures outcome.Other? ==> r == Failure(outcome.thrown)
    ensures r == Success(None) <==> outcome.GqlError? && HasNotFound(outcome.errors)
  {
    match outcome
    case Ok(user) => Success(Some(user))
    case GqlError(errors) =>
      var notFoundError := if errors.Some? then FindNotFound(errors.value) else None;
      if notFoundError.Some? then Success(None) else Failure(FirstErrorThrown(errors))
    case Other(e) => Failure(e)
  }

  /** `nodes.filter((node) => node.login)`. */
  function FilterLogin(nodes: seq<SearchNode>): (r: seq<SearchNode>)
    ensures |r| <= |nodes|
    ensures forall k :: 0 <= k < |r| ==> Truthy(r[k].login)
    ensures forall n :: n in nodes && Truthy(n.login) ==> n in r
    ensures forall n :: n in r ==> n in nodes
    ensures IsSubsequence(r, nodes)
  {
    if nodes == [] then []
    else if Truthy(nodes[0].login) then [nodes[0]] + FilterLogin(nodes[1..])
    else FilterLogin(nodes[1..])
  }

  /** Each node with a login is kept as often as it occurs; the others are
      dropped. */
  lemma {:induction false} FilterMultiplicity(nodes: seq<SearchNode>)
    ensures forall n :: multiset(FilterLogin(nodes))[n] == if Truthy(n.login) then multiset(nodes)[n] else 0
  {
    if nodes != [] {
      FilterMultiplicity(nodes[1..]);
      assert nodes == [nodes[0]] + nodes[1..];
      assert multiset(nodes) == multiset([nodes[0]]) + multiset(nodes[1..]);
    }
  }

  /** `a` is `b` with some elements removed, the others kept in order. */
  predicate IsSubsequence<T(==)>(a: seq<T>, b: seq<T>)
    decreases |b|
  {
    if a == [] then true
    else if b == [] then false
    else (a[0] == b[0] && IsSubsequence(a[1..], b[1..])) || IsSubsequence(a, b[1..])
  }

  /** Filtering twice is filtering once. */
  lemma {:induction false} FilterIdempotent(nodes: seq<SearchNode>)
    ensures FilterLogin(FilterLogin(nodes)) == FilterLogin(nodes)
  {
    if nodes != [] {
      FilterIdempotent(nodes[1..]);
      if Truthy(nodes[0].login) {
        assert ([nodes[0]] + FilterLogin(nodes[1..]))[1..] == FilterLogin(nodes[1..]);
      }
    }
  }

  /** The filter keeps every node exactly when every node has a login. */
  lemma {:induction false} FilterKeepsAllIffAllTruthy(nodes: seq<SearchNode>)
    ensures FilterLogin(nodes) == nodes <==> forall k :: 0 <= k < |nodes| ==> Truthy(nodes[k].login)
  {
    if nodes != [] {
      FilterKeepsAllIffAllTruthy(nodes[1..]);
      if !Truthy(nodes[0].login) {
        assert |FilterLogin(nodes)| < |nodes|;
      } else if forall k :: 0 <= k < |nodes| ==> Truthy(nodes[k].login) {
        assert forall k :: 0 <= k < |nodes[1..]| ==> nodes[1..][k] == nodes[k + 1];
      } else {
        var k :| 0 <= k < |nodes| && !Truthy(nodes[k].login);
        assert nodes[k] !in FilterLogin(nodes);
      }
    }
  }

  /** `getUsersByQuery`: the search nodes that have a login, or a thrown
      error. Unlike `getUserByLogin` no error means "not found". */
  function GetUsersByQuery(outcome: Outcome<seq<SearchNode>>): (r: Result<seq<SearchNode>, ErrorValue>)
    ensures outcome.Ok? ==> r.Success? && IsSubsequence(r.value, outcome.data)
    ensures outcome.Ok? ==> forall n :: n in r.value <==> n in outcome.data && Truthy(n.login)
    ensures outcome.Ok? ==> forall n :: multiset(r.value)[n] == if Truthy(n.login) then multiset(outcome.data)[n] else 0
    ensures outcome.Ok? && |outcome.data| <= SearchLimit ==> |r.value| <= SearchLimit
    ensures outcome.GqlError? ==> r == Failure(FirstErrorThrown(outcome.errors))
    ensures outcome.GqlError? && outcome.errors.Some? && |outcome.errors.value| > 0
            ==> r == Failure(ErrorObject(outcome.errors.value[0].message))
    ensures outcome.Other? ==> r == Failure(outcome.thrown)
  {
    match outcome
    case Ok(nodes) =>
      FilterMultiplicity(nodes);
      Success(FilterLogin(nodes))
    case GqlError(errors) => Failure(FirstErrorThrown(errors))
    case Other(e) => Failure(e)
  }
}
