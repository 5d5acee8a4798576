/** The active-route matcher of the application sidebar: the pathname is
    matched against an ordered route table and the first matching entry's
    key is the active route. */
module Routes {
  import opened Wrappers
  import Text

  datatype RouteKey = Home | Helm | Deployments | Rke2 | Github | Docker

  datatype RouteEntry = RouteEntry(key: RouteKey, path: string, exact: bool)

  /** The route table, in declaration (and scan) order. */
  const RouteConfig: seq<RouteEntry> := [
    RouteEntry(Home, "/", true),
    RouteEntry(Helm, "/cluster/helm", false),
    RouteEntry(Deployments, "/cluster/deployments", false),
    RouteEntry(Rke2, "/cluster/rke2", false),
    RouteEntry(Github, "/repositories/github", false),
    RouteEntry(Docker, "/repositories/docker", false)
  ]

  /** An exact entry matches only its own path; any other entry matches its
      path and everything below it (`path + "/"` as a prefix). */
  predicate Matches(e: RouteEntry, pathname: string)
    ensures pathname == e.path ==> Matches(e, pathname)
    ensures e.exact && pathname != e.path ==> !Matches(e, pathname)
    ensures !e.exact && Text.IsPrefix(e.path + "/", pathname) ==> Matches(e, pathname)
  {
    if e.exact then pathname == e.path
    else pathname == e.path || Text.IsPrefix(e.path + "/", pathname)
  }

  /** The first entry of `table` that matches, as a key. */
  function FirstMatch(table: seq<RouteEntry>, pathname: string): (r: Option<RouteKey>)
    ensures r.None? <==> forall i :: 0 <= i < |table| ==> !Matches(table[i], pathname)
    ensures r.Some? ==> exists i :: 0 <= i < |table| && table[i].key == r.value
                                    && Matches(table[i], pathname)
                                    && forall j :: 0 <= j < i ==> !Matches(table[j], pathname)
  {
    if |table| == 0 then None
    else if Matches(table[0], pathname) then Some(table[0].key)
    else
      var r := FirstMatch(table[1..], pathname);
      assert forall i :: 1 <= i < |table| ==> table[i] == table[1..][i - 1];
      r
  }

  /** The loop inside the memo `activeRoute()`: scan the table in order,
      return the first matching entry's key, and nothing when none matches. */
  method ScanRoutes(table: seq<RouteEntry>, pathname: string) returns (r: Option<RouteKey>)
    ensures r == FirstMatch(table, pathname)
    ensures r.Some? ==> exists i :: 0 <= i < |table| && table[i].key == r.value
                                    && Matches(table[i], pathname)
  {
    var i := 0;
    while i < |table|
      invariant 0 <= i <= |table|
      invariant FirstMatch(table, pathname) == FirstMatch(table[i..], pathname)
    {
      var e := table[i];
      assert table[i..][0] == e;
      if e.exact {
        if pathname == e.path {
          return Some(e.key);
        }
      } else {
        if pathname == e.path || Text.IsPrefix(e.path + "/", pathname) {
          return Some(e.key);
        }
      }
      assert table[i..][1..] == table[i + 1..];
      i := i + 1;
    }
    return None;
  }

  /** `activeRoute()` over the configured table. */
  method ActiveRoute(pathname: string) returns (r: Option<RouteKey>)
    ensures forall k :: r == Some(k) <==> Matches(EntryOf(k), pathname)
  {
    r := ScanRoutes(RouteConfig, pathname);
    forall k
      ensures r == Some(k) <==> Matches(EntryOf(k), pathname)
    {
      ActiveIffMatches(pathname, k);
    }
  }

  /** The configured table's entry for a key. */
  function EntryOf(k: RouteKey): (e: RouteEntry)
    ensures e in RouteConfig && e.key == k
  {
    match k
    case Home => RouteConfig[0]
    case Helm => RouteConfig[1]
    case Deployments => RouteConfig[2]
    case Rke2 => RouteConfig[3]
    case Github => RouteConfig[4]
    case Docker => RouteConfig[5]
  }

  /** Keys in the table are distinct, so a key names one entry. */
  lemma KeysDistinct(i: nat, j: nat)
    requires i < |RouteConfig| && j < |RouteConfig|
    requires RouteConfig[i].key == RouteConfig[j].key
    ensures i == j
  {
  }

  /** No two configured entries match the same pathname. */
  lemma {:induction false} EntriesDisjoint(i: nat, j: nat, pathname: string)
    requires i < j < |RouteConfig|
    ensures !(Matches(RouteConfig[i], pathname) && Matches(RouteConfig[j], pathname))
  {
    if i > 0 {
      // Both are prefix routes: their `path + "/"` texts part at index 1
      // (cluster against repositories), 9 (within /cluster/) or 14 (within
      // /repositories/), so neither is a prefix of the other.
      var pa := RouteConfig[i].path + "/";
      var pb := RouteConfig[j].path + "/";
      var k: nat := if (i <= 3) != (j <= 3) then 1 else if i <= 3 then 9 else 14;
      Text.DifferAt(pa, pb, k);
      if |pa| <= |pb| {
        if Text.IsPrefix(pa, pathname) && Text.IsPrefix(pb, pathname) {
          Text.PrefixesAreComparable(pa, pb, pathname);
        }
      } else {
        if Text.IsPrefix(pa, pathname) && Text.IsPrefix(pb, pathname) {
          Text.PrefixesAreComparable(pb, pa, pathname);
        }
      }
    }
  }

  /** Index of each key's entry in the table. */
  function IndexOf(k: RouteKey): (i: nat)
    ensures i < |RouteConfig| && RouteConfig[i] == EntryOf(k)
  {
    match k
    case Home => 0
    case Helm => 1
    case Deployments => 2
    case Rke2 => 3
    case Github => 4
    case Docker => 5
  }

  lemma AtMostOneEntryMatches(i: nat, j: nat, pathname: string)
    requires i < |RouteConfig| && j < |RouteConfig|
    requires Matches(RouteConfig[i], pathname) && Matches(RouteConfig[j], pathname)
    ensures i == j
  {
    if i < j {
      EntriesDisjoint(i, j, pathname);
    } else if j < i {
      EntriesDisjoint(j, i, pathname);
    }
  }

  /** A key is the active route exactly when its own entry matches: the
      scan order of the table does not decide anything. */
  lemma ActiveIffMatches(pathname: string, k: RouteKey)
    ensures FirstMatch(RouteConfig, pathname) == Some(k) <==> Matches(EntryOf(k), pathname)
  {
    var r := FirstMatch(RouteConfig, pathname);
    if Matches(EntryOf(k), pathname) {
      assert Matches(RouteConfig[IndexOf(k)], pathname);
      var i :| 0 <= i < |RouteConfig| && RouteConfig[i].key == r.value && Matches(RouteConfig[i], pathname);
      AtMostOneEntryMatches(i, IndexOf(k), pathname);
    }
    if r == Some(k) {
      var i :| 0 <= i < |RouteConfig| && RouteConfig[i].key == k && Matches(RouteConfig[i], pathname);
      KeysDistinct(i, IndexOf(k));
    }
  }

  /** A key found by scanning any table of configured entries names an
      entry that matches. */
  lemma FoundKeyMatches(table: seq<RouteEntry>, pathname: string)
    requires forall e :: e in table ==> e in RouteConfig
    requires FirstMatch(table, pathname).Some?
    ensures Matches(EntryOf(FirstMatch(table, pathname).value), pathname)
  {
    var k := FirstMatch(table, pathname).value;
    var i :| 0 <= i < |table| && table[i].key == k && Matches(table[i], pathname);
    assert table[i] in RouteConfig;
    var j :| 0 <= j < |RouteConfig| && RouteConfig[j] == table[i];
    KeysDistinct(j, IndexOf(k));
  }

  /** Scanning the same entries in any other order gives the same answer. */
  lemma ScanOrderIrrelevant(table: seq<RouteEntry>, pathname: string)
    requires forall e :: e in table <==> e in RouteConfig
    ensures FirstMatch(table, pathname) == FirstMatch(RouteConfig, pathname)
  {
    var r := FirstMatch(table, pathname);
    var c := FirstMatch(RouteConfig, pathname);
    if r.Some? {
      FoundKeyMatches(table, pathname);
      ActiveIffMatches(pathname, r.value);
    } else if c.Some? {
      ActiveIffMatches(pathname, c.value);
    }
  }

  const MenuKeys: set<RouteKey> := {Home, Helm, Deployments, Rke2, Github, Docker}

  /** The menu items marked active for a pathname: each item compares
      `activeRoute()` with its own key. */
  function ActiveItems(pathname: string): set<RouteKey> {
    set k | k in MenuKeys && FirstMatch(RouteConfig, pathname) == Some(k)
  }

  /** An item is active exactly when its own route matches, so at most one
      item is active. */
  lemma ActiveItemsAtMostOne(pathname: string)
    ensures |ActiveItems(pathname)| <= 1
    ensures forall k :: k in ActiveItems(pathname) <==> Matches(EntryOf(k), pathname)
  {
    var r := FirstMatch(RouteConfig, pathname);
    forall k
      ensures k in ActiveItems(pathname) <==> Matches(EntryOf(k), pathname)
    {
      ActiveIffMatches(pathname, k);
    }
    if r.Some? {
      assert ActiveItems(pathname) == {r.value};
    } else {
      assert ActiveItems(pathname) == {};
    }
  }

  /** A page below a prefix route activates that route, as does the
      route's own path. */
  lemma PageBelowPrefixRoute()
    ensures FirstMatch(RouteConfig, "/cluster/helm/x") == Some(Helm)
    ensures FirstMatch(RouteConfig, "/cluster/helm") == Some(Helm)
  {
    assert Text.IsPrefix("/cluster/helm/", "/cluster/helm/x");
    ActiveIffMatches("/cluster/helm/x", Helm);
    ActiveIffMatches("/cluster/helm", Helm);
  }

  /** A path that extends a prefix route's path by anything other than a
      `/` does not activate that route. */
  lemma ExtensionWithoutSlashInactive(k: RouteKey, pathname: string)
    requires k != Home
    requires |pathname| > |EntryOf(k).path| && Text.IsPrefix(EntryOf(k).path, pathname)
    requires pathname[|EntryOf(k).path|] != '/'
    ensures FirstMatch(RouteConfig, pathname) != Some(k)
  {
    var e := EntryOf(k);
    assert (e.path + "/")[|e.path|] == '/';
    Text.DifferAt(e.path + "/", pathname, |e.path|);
    ActiveIffMatches(pathname, k);
  }

  /** A sibling path that merely shares characters, such as `/cluster/helmet`,
      activates nothing. */
  lemma SiblingPathInactive(pathname: string)
    requires pathname == "/cluster/helmet"
    ensures FirstMatch(RouteConfig, pathname) == None
  {
    SiblingMatchesNothing(pathname);
    NoneIffNothingMatches(pathname);
  }

  lemma SiblingMatchesNothing(pathname: string)
    requires pathname == "/cluster/helmet"
    ensures forall k :: !Matches(EntryOf(k), pathname)
  {
    forall k
      ensures !Matches(EntryOf(k), pathname)
    {
      match k
      case Helm => Text.DifferAt("/cluster/helm/", pathname, 13);
      case Rke2 => Text.DifferAt("/cluster/rke2/", pathname, 9);
      case Github => Text.DifferAt("/repositories/github/", pathname, 1);
      case Docker => Text.DifferAt("/repositories/docker/", pathname, 1);
      case _ =>
    }
  }

  /** No route is active exactly when no configured entry matches. */
  lemma NoneIffNothingMatches(pathname: string)
    ensures FirstMatch(RouteConfig, pathname) == None <==> forall k :: !Matches(EntryOf(k), pathname)
  {
    var r := FirstMatch(RouteConfig, pathname);
    if r.Some? {
      ActiveIffMatches(pathname, r.value);
    } else {
      forall k
        ensures !Matches(EntryOf(k), pathname)
      {
        ActiveIffMatches(pathname, k);
      }
    }
  }

  /** `home` is active only on the root itself. */
  lemma HomeOnlyAtRoot(pathname: string)
    ensures FirstMatch(RouteConfig, pathname) == Some(Home) <==> pathname == "/"
  {
    ActiveIffMatches(pathname, Home);
  }
}
