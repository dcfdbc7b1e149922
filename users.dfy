/** The user-search resource route and the `UserCombobox` widget that
    queries it. */
module UsersResource {
  import opened Wrappers
  import opened Thrown
  import opened Text
  import opened GitHub
  import ProfileLoader

  /** tiny-invariant's message for the missing `query` parameter. */
  const InvariantMessage := "Invariant failed: query is required"

  /** `loader`: `query` must be present (the empty string is accepted); it is
      passed untrimmed to `getUsersByQuery`, whose result is the data's
      `users`. */
  function Loader(params: map<string, string>, remote: string -> Outcome<seq<SearchNode>>): (r: Result<seq<SearchNode>, ErrorValue>)
    ensures "query" !in params ==> r == Failure(ErrorObject(InvariantMessage))
    ensures "query" in params ==> r == GetUsersByQuery(remote(params["query"]))
    ensures r.Success? ==> forall k :: 0 <= k < |r.value| ==> Truthy(r.value[k].login)
  {
    if "query" in params then GetUsersByQuery(remote(params["query"]))
    else Failure(ErrorObject(InvariantMessage))
  }

  /** `userFetcher.data?.users ?? []`. */
  function UsersOf(data: Option<seq<SearchNode>>): (r: seq<SearchNode>)
    ensures data.None? ==> r == []
    ensures data.Some? ==> r == data.value
  {
    data.GetOr([])
  }

  /** The option list is rendered: it sits in the dialog's panel, which is
      mounted only while the dialog is open. */
  predicate OptionsShown(isOpen: bool, users: seq<SearchNode>)
    ensures OptionsShown(isOpen, users) ==> isOpen
    ensures !OptionsShown(isOpen, users) <==> !isOpen || users == []
  {
    isOpen && |users| > 0
  }

  /** The "No people found." message is rendered, inside the same panel. */
  predicate NoPeopleFoundShown(isOpen: bool, query: string, users: seq<SearchNode>)
    ensures NoPeopleFoundShown(isOpen, query, users) ==> isOpen && !OptionsShown(isOpen, users)
  {
    isOpen && query != "" && |users| == 0
  }

  /** The two never appear together; a closed dialog shows neither; an open
      dialog with an empty query and no users shows neither; an open dialog
      with a non-empty query shows exactly one. Before any data arrives the
      list is empty, so only "No people found." can show, for a non-empty
      query. */
  lemma DisplayStates(isOpen: bool, query: string, users: seq<SearchNode>)
    ensures !(OptionsShown(isOpen, users) && NoPeopleFoundShown(isOpen, query, users))
    ensures !isOpen ==> !OptionsShown(isOpen, users) && !NoPeopleFoundShown(isOpen, query, users)
    ensures query == "" && users == [] ==> !OptionsShown(isOpen, users) && !NoPeopleFoundShown(isOpen, query, users)
    ensures isOpen && query != "" ==> (OptionsShown(isOpen, users) || NoPeopleFoundShown(isOpen, query, users))
    ensures !OptionsShown(isOpen, UsersOf(None))
    ensures NoPeopleFoundShown(isOpen, query, UsersOf(None)) <==> isOpen && query != ""
  {
  }

  /** An option's label: the name when truthy, else `@login`, and a
      secondary `@login` only beside a truthy name. */
  datatype OptionLabel = OptionLabel(primary: string, secondary: Option<string>)

  function LabelOf(user: SearchNode): (r: OptionLabel)
    requires Truthy(user.login)
    ensures Truthy(user.name) ==> r.primary == user.name.value
    ensures !Truthy(user.name) ==> r.primary == "@" + user.login.value
    ensures r.secondary.Some? <==> Truthy(user.name)
    ensures r.secondary.Some? ==> r.secondary.value == "@" + user.login.value
    ensures r.primary != ""
  {
    OptionLabel(if Truthy(user.name) then user.name.value else "@" + user.login.value,
                if Truthy(user.name) then Some("@" + user.login.value) else None)
  }

  /** A client-side navigation target: a path and its query parameters. */
  datatype Location = Location(path: string, params: map<string, string>)

  /** The combobox's `onChange` as written: `/?login=<login>`. */
  function SelectionTarget(user: Option<SearchNode>): (r: Option<Location>)
    requires user.Some? ==> Truthy(user.value.login)
    ensures r.Some? <==> user.Some?
    ensures r.Some? ==> r.value.path == "/" && r.value.params == map["login" := user.value.login.value]
  {
    match user
    case None => None
    case Some(u) => Some(Location("/", map["login" := u.login.value]))
  }

  /** The index route reads `q`, not `login`: whatever user is selected, the
      profile loader redirects to the default login and shows that profile. */
  lemma {:induction false} SelectionIgnoredByProfileLoader(user: SearchNode, remote: string -> Outcome<User>)
    requires Truthy(user.login)
    ensures var target := SelectionTarget(Some(user)).value;
      ProfileLoader.Load(target.params, remote)
        == ProfileLoader.Redirect(map["login" := user.login.value, "q" := ProfileLoader.DefaultLogin])
  {
    var target := SelectionTarget(Some(user)).value;
    assert "q" !in target.params;
  }

  /** Selecting "octocat" lands on the default login's profile lookup. */
  lemma OctocatSelectionShowsDefault(remote: string -> Outcome<User>)
    ensures var r := ProfileLoader.Load(SelectionTarget(Some(SearchNode(None, Some("octocat"), None))).value.params, remote);
      r.Redirect? && ProfileLoader.ProfileQuery(r.params) == Some(ProfileLoader.DefaultLogin) && r.params["login"] == "octocat"
  {
    var user := SearchNode(None, Some("octocat"), None);
    SelectionIgnoredByProfileLoader(user, remote);
    ProfileLoader.NoRedirectLoop(SelectionTarget(Some(user)).value.params, remote);
  }

  /** The evidently intended navigation: `/?q=<login>`, the parameter the
      index route's loader reads. */
  function CorrectedSelectionTarget(user: Option<SearchNode>): (r: Option<Location>)
    requires user.Some? ==> Truthy(user.value.login)
    ensures r.Some? <==> user.Some?
    ensures r.Some? ==> r.value.path == "/" && r.value.params == map["q" := user.value.login.value]
  {
    match user
    case None => None
    case Some(u) => Some(Location("/", map["q" := u.login.value]))
  }

  /** With the corrected target, the profile loader looks up exactly the
      selected login (logins never start or end with whitespace). */
  lemma {:induction false} CorrectedSelectionLoadsLogin(user: SearchNode, remote: string -> Outcome<User>)
    requires Truthy(user.login) && Trimmed(user.login.value)
    ensures var target := CorrectedSelectionTarget(Some(user)).value;
      && ProfileLoader.ProfileQuery(target.params) == Some(user.login.value)
      && !ProfileLoader.Load(target.params, remote).Redirect?
  {
    var target := CorrectedSelectionTarget(Some(user)).value;
    ProfileLoader.LookupUsesLogin(user.login.value, target.params);
  }

  /** `UserCombobox`'s two state cells and its event handlers. The fetched
      users are an input of the display predicates, not state of the widget. */
  class UserCombobox {
    var isOpen: bool
    var query: string

    constructor ()
      ensures !isOpen && query == ""
    {
      isOpen := false;
      query := "";
    }

    /** "mod+k": the hotkey is enabled only while the dialog is closed;
        `handled` says whether it fired (and prevented the default). */
    method PressShortcut() returns (handled: bool)
      modifies this
      ensures handled == !old(isOpen)
      ensures isOpen && query == old(query)
    {
      handled := !isOpen;
      if handled {
        isOpen := true;
      }
    }

    /** The trigger button's `onClick`. */
    method ClickButton()
      modifies this
      ensures isOpen && query == old(query)
    {
      isOpen := true;
    }

    /** The dialog's `onClose`: closes and clears the query, so nothing is
        shown below the input afterwards. */
    method CloseDialog()
      modifies this
      ensures !isOpen && query == ""
      ensures forall users :: !OptionsShown(isOpen, users) && !NoPeopleFoundShown(isOpen, query, users)
    {
      isOpen := false;
      query := "";
    }

    /** The input's `onChange`: submits one search for the new value (the
        returned parameters of the GET to the resource route) and stores it. */
    method ChangeInput(value: Option<string>) returns (submission: map<string, string>)
      modifies this
      ensures query == value.GetOr("") && isOpen == old(isOpen)
      ensures submission == map["query" := query]
      ensures forall remote :: Loader(submission, remote) == GetUsersByQuery(remote(query))
    {
      var q := value.GetOr("");
      submission := map["query" := q];
      query := q;
    }

    /** The input's `onBlur`: closes and, unlike `onClose`, keeps the query;
        nothing below the input is rendered while closed. */
    method Blur()
      modifies this
      ensures !isOpen && query == old(query)
      ensures forall users :: !OptionsShown(isOpen, users) && !NoPeopleFoundShown(isOpen, query, users)
    {
      isOpen := false;
    }

    /** The combobox's `onChange`: a selected user navigates, a null
        selection does nothing. The widget's state is left as it is. */
    method Select(user: Option<SearchNode>) returns (navigation: Option<Location>)
      requires user.Some? ==> Truthy(user.value.login)
      ensures navigation == SelectionTarget(user)
    {
      navigation := None;
      if user.Some? {
        navigation := Some(Location("/", map["login" := user.value.login.value]));
      }
    }
  }
}
