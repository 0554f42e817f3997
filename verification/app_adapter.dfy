/** The launcher's presentation list: an object adapter that holds a list of
    apps and offers in-place search, three stable sorts and a favourites view.
    Every operation that changes the list goes through `UpdateApps`, so the
    list it leaves behind is also the starting point of the next operation. */
module Adapter {
  import opened Text
  import opened Sorting
  import opened Model

  /** The search rule of `filterApps`: the query occurs, ignoring case, in the
      app's label or in its package name. The empty query matches every app;
      a query longer than both names matches none. */
  function MatchesQuery(query: string, a: AppInfo): (matches: bool)
    ensures query == [] ==> matches
    ensures matches ==> |query| <= |a.appName| || |query| <= |a.packageName|
  {
    ContainsIgnoreCase(a.appName, query) || ContainsIgnoreCase(a.packageName, query)
  }

  function QueryMatch(query: string): AppInfo -> bool
  {
    (a: AppInfo) => MatchesQuery(query, a)
  }

  /** An app that matches both queries. */
  function BothMatch(first: string, second: string): AppInfo -> bool
  {
    (a: AppInfo) => MatchesQuery(first, a) && MatchesQuery(second, a)
  }

  predicate IsFavorite(a: AppInfo)
  {
    a.isFavorite
  }

  class AppAdapter {
    /** The list last handed to `updateApps` (the private property `apps`). */
    var apps: seq<AppInfo>
    /** The rows of the inherited `ArrayObjectAdapter`, in display order. */
    var items: seq<AppInfo>

    /** The primary constructor stores the list and its `init` block shows it. */
    constructor (apps: seq<AppInfo>)
      ensures this.apps == apps && items == apps
    {
      this.apps := apps;
      items := [];
      new;
      UpdateApps(apps);
    }

    /** Replaces the list, then clears the rows and inserts the whole list at
        position 0. */
    method UpdateApps(newApps: seq<AppInfo>)
      modifies this
      ensures apps == newApps && items == newApps
      ensures GetApps() == newApps
    {
      apps := newApps;
      items := [];
      items := items[..0] + apps + items[0..];
    }

    /** The rows show exactly the stored list; every operation keeps this. */
    predicate Shown()
      reads this
    {
      items == apps
    }

    /** `getApps`: while the rows show the stored list, the list it answers is
        the one on screen. */
    function GetApps(): (current: seq<AppInfo>)
      reads this
      ensures Shown() ==> current == items
    {
      apps
    }

    /** An empty query keeps the current list; any other query keeps, in
        order, the apps of the CURRENT list that match it. */
    method FilterApps(query: string)
      modifies this
      ensures query == [] ==> apps == old(apps)
      ensures query != [] ==> apps == Filter(old(apps), QueryMatch(query))
      ensures items == apps
    {
      var filteredApps := if query == [] then apps else Filter(apps, QueryMatch(query));
      UpdateApps(filteredApps);
    }

    method SortByAppName()
      modifies this
      ensures apps == SortBy(old(apps), ByAppName) && items == apps
    {
      var sortedApps := SortBy(apps, ByAppName);
      UpdateApps(sortedApps);
    }

    method SortByInstallTime()
      modifies this
      ensures apps == SortBy(old(apps), ByInstallTimeDescending) && items == apps
    {
      var sortedApps := SortBy(apps, ByInstallTimeDescending);
      UpdateApps(sortedApps);
    }

    method SortByCategory()
      modifies this
      ensures apps == SortBy(old(apps), ByCategory) && items == apps
    {
      var sortedApps := SortBy(apps, ByCategory);
      UpdateApps(sortedApps);
    }

    /** The favourites of the current list, in list order. */
    function GetFavorites(): (favorites: seq<AppInfo>)
      reads this
      ensures Subsequence(favorites, apps)
      ensures forall a | a in favorites :: a.isFavorite
      ensures forall a | a in apps && a.isFavorite :: a in favorites
    {
      FilterSubsequence(apps, IsFavorite);
      Filter(apps, IsFavorite)
    }
  }

  // ---------------------------------------------------------------------------
  // What the operations promise

  /** A search keeps exactly the matching apps, in their original order, and
      never lengthens the list. */
  lemma FilterKeepsMatches(s: seq<AppInfo>, query: string)
    ensures Subsequence(Filter(s, QueryMatch(query)), s)
    ensures |Filter(s, QueryMatch(query))| <= |s|
    ensures forall a | a in Filter(s, QueryMatch(query)) :: MatchesQuery(query, a)
    ensures forall a | a in s && MatchesQuery(query, a) :: a in Filter(s, QueryMatch(query))
  {
    FilterSubsequence(s, QueryMatch(query));
  }

  /** Searching twice keeps the apps that match both queries: the second search
      starts from what the first one left. */
  lemma SuccessiveFiltersNarrow(s: seq<AppInfo>, first: string, second: string)
    ensures Filter(Filter(s, QueryMatch(first)), QueryMatch(second)) == Filter(s, BothMatch(first, second))
  {
    FilterFilter(s, QueryMatch(first), QueryMatch(second), BothMatch(first, second));
  }

  /** The empty query occurs in every string, so the early return for an empty
      query gives the same list a search for it would. */
  lemma EmptyQueryKeepsAll(s: seq<AppInfo>)
    ensures Filter(s, QueryMatch([])) == s
  {
    forall a | a in s ensures QueryMatch([])(a) {
      assert MatchesAt(a.appName, [], 0);
    }
    FilterKeepsAll(s, QueryMatch([]));
  }

  /** `sortByAppName` rearranges the list into non-decreasing label order, and
      apps with the same label keep their relative order. */
  lemma SortByAppNameOrders(s: seq<AppInfo>)
    ensures Sorted(SortBy(s, ByAppName), ByAppName)
    ensures multiset(SortBy(s, ByAppName)) == multiset(s)
    ensures forall z :: Peers(SortBy(s, ByAppName), z, ByAppName) == Peers(s, z, ByAppName)
  {
    ByAppNamePreorder(s);
    SortBySorted(s, ByAppName);
    forall z ensures Peers(SortBy(s, ByAppName), z, ByAppName) == Peers(s, z, ByAppName) {
      ByAppNamePreorder(s + [z]);
      SortByStable(s, z, ByAppName);
    }
  }

  /** `sortByInstallTime` puts the most recently installed apps first, and apps
      installed at the same time keep their relative order. */
  lemma SortByInstallTimeOrders(s: seq<AppInfo>)
    ensures Sorted(SortBy(s, ByInstallTimeDescending), ByInstallTimeDescending)
    ensures multiset(SortBy(s, ByInstallTimeDescending)) == multiset(s)
    ensures forall z :: Peers(SortBy(s, ByInstallTimeDescending), z, ByInstallTimeDescending)
                     == Peers(s, z, ByInstallTimeDescending)
  {
    ByInstallTimeDescendingPreorder(s);
    SortBySorted(s, ByInstallTimeDescending);
    forall z ensures Peers(SortBy(s, ByInstallTimeDescending), z, ByInstallTimeDescending)
                  == Peers(s, z, ByInstallTimeDescending)
    {
      ByInstallTimeDescendingPreorder(s + [z]);
      SortByStable(s, z, ByInstallTimeDescending);
    }
  }

  /** `sortByCategory` groups the list by category in non-decreasing order,
      keeping the order of the apps within each category. */
  lemma SortByCategoryOrders(s: seq<AppInfo>)
    ensures Sorted(SortBy(s, ByCategory), ByCategory)
    ensures multiset(SortBy(s, ByCategory)) == multiset(s)
    ensures forall z :: Peers(SortBy(s, ByCategory), z, ByCategory) == Peers(s, z, ByCategory)
  {
    ByCategoryPreorder(s);
    SortBySorted(s, ByCategory);
    forall z ensures Peers(SortBy(s, ByCategory), z, ByCategory) == Peers(s, z, ByCategory) {
      ByCategoryPreorder(s + [z]);
      SortByStable(s, z, ByCategory);
    }
  }

  /** A search followed by a sort leaves the adapter showing the sorted matches;
      the original list is gone from the adapter. */
  method SearchThenSortByName(adapter: AppAdapter, query: string)
    modifies adapter
    ensures adapter.apps == SortBy(Filter(old(adapter.apps), QueryMatch(query)), ByAppName)
    ensures adapter.items == adapter.apps
    ensures forall a | a in adapter.apps :: MatchesQuery(query, a)
  {
    if query == [] {
      EmptyQueryKeepsAll(adapter.apps);
    }
    adapter.FilterApps(query);
    ghost var matches := adapter.apps;
    FilterKeepsMatches(old(adapter.apps), query);
    adapter.SortByAppName();
    forall a | a in adapter.apps ensures MatchesQuery(query, a) {
      assert a in multiset(matches);
    }
  }
}
