/** The index route's `loader` (the same code appears in the newer
    search-result route and the older results route): trim `q`, redirect to
    the default login when it is blank, otherwise look the login up. */
module ProfileLoader {
  import opened Wrappers
  import opened Thrown
  import opened Text
  import opened GitHub
  import opened ErrorBoundary

  const DefaultLogin := "kentcdodds"
  const NotFoundStatus := 404

  /** The `searchParams` of a freshly parsed URL, one value per name. */
  class SearchParams {
    var entries: map<string, string>

    constructor (init: map<string, string>)
      ensures entries == init
    {
      entries := init;
    }

    /** `searchParams.get(name)`, `null` when absent. */
    function Get(name: string): (r: Option<string>)
      reads this
      ensures r.Some? <==> name in entries
      ensures r.Some? ==> r.value == entries[name]
    {
      if name in entries then Some(entries[name]) else None
    }

    /** `searchParams.set(name, value)`. */
    method Set(name: string, value: string)
      modifies this
      ensures entries == old(entries)[name := value]
    {
      entries := entries[name := value];
    }
  }

  /** How a load ends: a thrown redirect to the same path with these
      parameters, a thrown 404 response, the loader data `{ user }`, or an
      error propagating out of the lookup. */
  datatype LoaderResult =
    | Redirect(params: map<string, string>)
    | NotFound(status: int, message: string)
    | Found(user: User)
    | Failed(error: ErrorValue)

  const NotFoundPrefix := "No user with the login \""
  const NotFoundSuffix := "\" exists."

  /** `No user with the login "<login>" exists.`: the login sits, unaltered,
      between the fixed prefix and suffix. */
  function NotFoundMessage(login: string): (r: string)
    ensures |r| == |NotFoundPrefix| + |login| + |NotFoundSuffix|
    ensures r[..|NotFoundPrefix|] == NotFoundPrefix
    ensures r[|NotFoundPrefix|..|NotFoundPrefix| + |login|] == login
    ensures r[|NotFoundPrefix| + |login|..] == NotFoundSuffix
  {
    NotFoundPrefix + login + NotFoundSuffix
  }

  /** The 404 message names the login it was built from. */
  lemma {:induction false} NotFoundMessageInjective(a: string, b: string)
    requires NotFoundMessage(a) == NotFoundMessage(b)
    ensures a == b
  {
    assert |a| == |b|;
  }

  /** `url.searchParams.get("q")?.trim()` when it is truthy, `None` when the
      loader redirects. */
  function ProfileQuery(params: map<string, string>): (r: Option<string>)
    ensures r.None? <==> "q" !in params || AllWhitespace(params["q"])
    ensures r.Some? ==> r.value == Trim(params["q"]) && r.value != "" && Trimmed(r.value)
  {
    if "q" in params then
      TrimEmptyIffAllWhitespace(params["q"]);
      TrimTrimmed(params["q"]);
      if Trim(params["q"]) != "" then Some(Trim(params["q"])) else None
    else None
  }

  /** The loader as a function of the request's parameters and of the
      remote's answer to each login. */
  function Load(params: map<string, string>, remote: string -> Outcome<User>): (r: LoaderResult)
    ensures r.Redirect? <==> "q" !in params || AllWhitespace(params["q"])
    ensures r.Redirect? ==> r.params == params["q" := DefaultLogin]
    ensures !r.Redirect? ==>
      var q := Trim(params["q"]);
      && (remote(q).Ok? ==> r == Found(remote(q).data))
      && (remote(q).GqlError? && HasNotFound(remote(q).errors) ==> r == NotFound(NotFoundStatus, NotFoundMessage(q)))
      && (remote(q).GqlError? && !HasNotFound(remote(q).errors) ==> r == Failed(FirstErrorThrown(remote(q).errors)))
      && (remote(q).Other? ==> r == Failed(remote(q).thrown))
    ensures r.NotFound? ==> r.status == NotFoundStatus
  {
    match ProfileQuery(params)
    case None => Redirect(params["q" := DefaultLogin])
    case Some(q) =>
      match GetUserByLogin(remote(q))
      case Failure(e) => Failed(e)
      case Success(None) => NotFound(NotFoundStatus, NotFoundMessage(q))
      case Success(Some(user)) => Found(user)
  }

  /** `loader`: parses the URL afresh, sets `q` in place before throwing the
      redirect, otherwise awaits `getUserByLogin` on the trimmed `q`. */
  method Loader(request: map<string, string>, remote: string -> Outcome<User>) returns (r: LoaderResult)
    ensures r == Load(request, remote)
  {
    var url := new SearchParams(request);
    var raw := url.Get("q");
    var q := if raw.Some? then Some(Trim(raw.value)) else None;
    if q.None? || q.value == "" {
      url.Set("q", DefaultLogin);
      return Redirect(url.entries);
    }
    var user := GetUserByLogin(remote(q.value));
    if user.Failure? {
      return Failed(user.error);
    }
    if user.value.None? {
      return NotFound(NotFoundStatus, NotFoundMessage(q.value));
    }
    return Found(user.value.value);
  }

  /** Loading the redirect target looks up the default login, so a load
      redirects at most once. */
  lemma {:induction false} NoRedirectLoop(params: map<string, string>, remote: string -> Outcome<User>)
    requires Load(params, remote).Redirect?
    ensures ProfileQuery(Load(params, remote).params) == Some(DefaultLogin)
    ensures forall remote' :: !Load(Load(params, remote).params, remote').Redirect?
  {
    var target := Load(params, remote).params;
    assert target == params["q" := DefaultLogin];
    DefaultIsLookedUp(params);
    forall remote' ensures !Load(target, remote').Redirect? {
      assert ProfileQuery(target).Some?;
    }
  }

  lemma {:induction false} DefaultIsLookedUp(params: map<string, string>)
    ensures ProfileQuery(params["q" := DefaultLogin]) == Some(DefaultLogin)
  {
    assert Trimmed(DefaultLogin) by {
      assert DefaultLogin[0] == 'k' && DefaultLogin[|DefaultLogin| - 1] == 's';
    }
    TrimOfTrimmed(DefaultLogin);
  }

  /** A well-formed login (no whitespace at either end, not empty) passed
      as `q` is looked up exactly as given. */
  lemma {:induction false} LookupUsesLogin(login: string, params: map<string, string>)
    requires Trimmed(login) && login != ""
    requires "q" in params && params["q"] == login
    ensures ProfileQuery(params) == Some(login)
  {
    TrimOfTrimmed(login);
  }

  /** The message the route's error boundary renders for a load that throws:
      a 404's own text, or `getErrorMessage` of the thrown value. */
  function BoundaryMessage(r: LoaderResult): (m: Option<string>)
    ensures m.Some? <==> r.NotFound? || r.Failed?
    ensures r.NotFound? ==> m == Some(r.message)
    ensures r.Failed? ==> m == Some(GetErrorMessage(r.error))
  {
    match r
    case NotFound(status, message) => Some(GeneralErrorMessage(RouteErrorResponse(status, message)))
    case Failed(e) => Some(GeneralErrorMessage(ThrownError(e)))
    case _ => None
  }

  /** End to end: a NOT_FOUND lookup shows the 404 message naming the trimmed
      login; any other GraphQL error shows its first message, or
      "Unknown Error" when that message is empty or the list is missing, and
      the TypeError's text when the list is empty; any other thrown value
      shows `getErrorMessage` of it; a found user shows no message. */
  lemma {:induction false} BoundaryShowsRemoteMessage(params: map<string, string>, remote: string -> Outcome<User>)
    requires ProfileQuery(params).Some?
    ensures var q := ProfileQuery(params).value;
      remote(q).GqlError? && HasNotFound(remote(q).errors) ==>
        BoundaryMessage(Load(params, remote)) == Some(NotFoundMessage(q))
    ensures var q := ProfileQuery(params).value;
      remote(q).GqlError? && !HasNotFound(remote(q).errors) && remote(q).errors.Some? && |remote(q).errors.value| > 0 ==>
        var m := remote(q).errors.value[0].message;
        BoundaryMessage(Load(params, remote)) == Some(if m == "" then FallbackMessage else m)
    ensures var q := ProfileQuery(params).value;
      remote(q).GqlError? && remote(q).errors.None? ==>
        BoundaryMessage(Load(params, remote)) == Some(FallbackMessage)
    ensures var q := ProfileQuery(params).value;
      remote(q) == GqlError(Some([])) ==>
        BoundaryMessage(Load(params, remote)) == Some(TypeErrorMessage)
    ensures var q := ProfileQuery(params).value;
      remote(q).Other? ==>
        BoundaryMessage(Load(params, remote)) == Some(GetErrorMessage(remote(q).thrown))
    ensures var q := ProfileQuery(params).value;
      remote(q).Ok? ==> BoundaryMessage(Load(params, remote)).None?
  {
    var q := ProfileQuery(params).value;
    var outcome := remote(q);
    if outcome.GqlError? && !HasNotFound(outcome.errors) {
      var thrown := FirstErrorThrown(outcome.errors);
      assert Load(params, remote) == Failed(thrown);
      assert HasStringMessage(thrown);
    }
  }
}
