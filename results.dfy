/** The older results route. Its loader, pluralisation and licence rules are
    the same code as the search-result route's and are modelled there; what
    differs is the title and where the empty-state decision is made. */
module Results {
  import opened GitHub
  import ProfileDisplay

  /** `meta`'s title in this revision: no site suffix. */
  function Title(args: ProfileDisplay.MetaArgs): (r: string)
    ensures args.Errored? ==> r == ProfileDisplay.NotFoundTitle
    ensures args.Loaded? ==> r == ProfileDisplay.DisplayName(args.user)
  {
    if args.Errored? then ProfileDisplay.NotFoundTitle else ProfileDisplay.DisplayName(args.user)
  }

  /** The newer revision's title is this one followed by " | DevFinder". */
  lemma TitleGainsSuffix(args: ProfileDisplay.MetaArgs)
    ensures ProfileDisplay.Title(args) == Title(args) + ProfileDisplay.TitleSuffix
  {
  }

  /** The page body's repositories section: the list when there is at least
      one top repository, the empty state otherwise. */
  function RepositoriesSection(user: User): (r: ProfileDisplay.RepositoriesPanel)
    ensures r.RepositoryList? <==> |user.topRepositories| > 0
    ensures r == ProfileDisplay.UserRepositories(user)
  {
    if |user.topRepositories| > 0 then
      ProfileDisplay.RepositoryList(seq(|user.topRepositories|, i requires 0 <= i < |user.topRepositories| => ProfileDisplay.ItemOf(user.topRepositories[i])))
    else
      ProfileDisplay.EmptyRepositories(ProfileDisplay.EmptyRepositoriesTitle, ProfileDisplay.EmptyRepositoriesDescription(user.login))
  }
}
