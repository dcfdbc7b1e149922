/** The display rules of the search-result route: the page title, the card's
    name line, the repository list or its empty state, each repository's
    unit words and licence, and the selected tab. */
module ProfileDisplay {
  import opened Wrappers
  import opened GitHub

  const TitleSuffix := " | DevFinder"
  const NotFoundTitle := "Not Found"

  /** What `meta` receives: an error, or loader data holding the user. */
  datatype MetaArgs = Errored | Loaded(user: User)

  /** `user.name ?? `@${user.login}``: only a missing name falls back; an
      empty name is shown as it is. */
  function DisplayName(user: User): (r: string)
    ensures user.name.Some? ==> r == user.name.value
    ensures user.name.None? ==> r == "@" + user.login
    ensures r != "" <==> user.name != Some("")
  {
    user.name.GetOr("@" + user.login)
  }

  /** `meta`'s title. */
  function Title(args: MetaArgs): (r: string)
    ensures args.Errored? ==> r == NotFoundTitle + TitleSuffix
    ensures args.Loaded? ==> r == DisplayName(args.user) + TitleSuffix
    ensures |r| >= |TitleSuffix| && r[|r| - |TitleSuffix|..] == TitleSuffix
  {
    (if args.Errored? then NotFoundTitle else DisplayName(args.user)) + TitleSuffix
  }

  /** `count === 1 ? singular : plural`. */
  function UnitWord(count: nat, singular: string, plural: string): (r: string)
    requires singular != plural
    ensures r == singular <==> count == 1
    ensures r == plural <==> count != 1
  {
    if count == 1 then singular else plural
  }

  function StarWord(count: nat): (r: string)
    ensures r == "star" <==> count == 1
    ensures r == "stars" <==> count != 1
  {
    UnitWord(count, "star", "stars")
  }

  function ForkWord(count: nat): (r: string)
    ensures r == "fork" <==> count == 1
    ensures r == "forks" <==> count != 1
  {
    UnitWord(count, "fork", "forks")
  }

  /** The licence name shown after the counts: present and not "Other". */
  function ShownLicense(repository: Repository): (r: Option<string>)
    ensures r.Some? <==> repository.licenseInfo.Some? && repository.licenseInfo.value.name != "Other"
    ensures r.Some? ==> r.value == repository.licenseInfo.value.name
  {
    match repository.licenseInfo
    case None => None
    case Some(license) => if license.name != "Other" then Some(license.name) else None
  }

  /** The decided parts of one rendered repository row. */
  datatype RepositoryItem = RepositoryItem(name: string, url: string, starWord: string, forkWord: string, license: Option<string>, topics: seq<string>)

  function ItemOf(repository: Repository): RepositoryItem {
    RepositoryItem(repository.name, repository.url, StarWord(repository.stargazerCount),
                   ForkWord(repository.forkCount), ShownLicense(repository), repository.topics)
  }

  const EmptyRepositoriesTitle := "No repositories found"

  function EmptyRepositoriesDescription(login: string): string {
    login + " doesn't have any public repositories yet."
  }

  /** What the repositories panel renders. */
  datatype RepositoriesPanel = EmptyRepositories(title: string, description: string) | RepositoryList(items: seq<RepositoryItem>)

  /** `UserRepositories`: the empty state when there are no top
      repositories, otherwise one row per repository in the remote's order. */
  function UserRepositories(user: User): (r: RepositoriesPanel)
    ensures r.EmptyRepositories? <==> |user.topRepositories| == 0
    ensures r.EmptyRepositories? ==>
      r.title == EmptyRepositoriesTitle && r.description == EmptyRepositoriesDescription(user.login)
    ensures r.RepositoryList? ==> |r.items| == |user.topRepositories|
    ensures r.RepositoryList? ==> forall i :: 0 <= i < |r.items| ==> r.items[i] == ItemOf(user.topRepositories[i])
  {
    if |user.topRepositories| == 0 then
      EmptyRepositories(EmptyRepositoriesTitle, EmptyRepositoriesDescription(user.login))
    else
      RepositoryList(seq(|user.topRepositories|, i requires 0 <= i < |user.topRepositories| => ItemOf(user.topRepositories[i])))
  }

  /** When the remote honours the query's bounds the list has at most 10
      rows of at most 6 topics each. */
  lemma UserRepositoriesBounded(user: User)
    requires WithinRequestedBounds(user)
    ensures UserRepositories(user).RepositoryList? ==>
      && |UserRepositories(user).items| <= TopRepositoriesLimit
      && forall i :: 0 <= i < |UserRepositories(user).items| ==> |UserRepositories(user).items[i].topics| <= TopicsLimit
  {
  }

  const Tabs := ["Top Repositories", "Profile"]

  /** `selectedTabIndex`, a state cell starting at the first tab; every
      update names one of `Tabs`. */
  class TabSelection {
    var selectedTabIndex: nat

    constructor ()
      ensures selectedTabIndex == 0
    {
      selectedTabIndex := 0;
    }

    /** The tab group's `onChange`, and the small-screen select's `onChange`
        once its option value is converted back to an index. */
    method Change(index: nat)
      requires index < |Tabs|
      modifies this
      ensures selectedTabIndex == index
    {
      selectedTabIndex := index;
    }
  }
}
