/** The navigation bar (components/Nav.tsx): its link table and which link is highlighted. */
module Nav {
  import opened Strings

  datatype NavLink = NavLink(href: string, name: string)

  /** The six links, in the order the bar shows them. */
  const Links: seq<NavLink> := [
    NavLink("/", "Dashboard"),
    NavLink("/work", "Work"),
    NavLink("/budgets", "Budgets"),
    NavLink("/subscriptions", "Subscriptions"),
    NavLink("/reports", "Reports"),
    NavLink("/settings", "Settings")
  ]

  /** The table holds six entries: Dashboard, Work, Budgets, Subscriptions, Reports, Settings. */
  lemma LinkTable()
    ensures |Links| == 6
    ensures forall i, j :: 0 <= i < j < |Links| ==> Links[i].href != Links[j].href
    ensures Links[0].name == "Dashboard" && Links[1].name == "Work" && Links[2].name == "Budgets"
            && Links[3].name == "Subscriptions" && Links[4].name == "Reports" && Links[5].name == "Settings"
  {
  }

  /**
   * `isActivePath(pathname, href)`: the root link only on the root; any other link on its own
   * path and on every path below it.
   */
  predicate IsActivePath(pathname: string, href: string) {
    if href == "/" then pathname == "/" else pathname == href || StartsWith(pathname, href + "/")
  }

  /** A nested path is active for the link it sits under. */
  lemma NestedPathActive(href: string, rest: string)
    requires href != "/"
    ensures IsActivePath(href + "/" + rest, href)
  {
    assert (href + "/" + rest)[..|href + "/"|] == href + "/";
  }

  /** A path that only shares a prefix with a link, without the '/' boundary, is not active. */
  lemma PrefixWithoutBoundaryInactive(href: string, c: char, rest: string)
    requires href != "/" && c != '/'
    ensures !IsActivePath(href + [c] + rest, href)
  {
    var p := href + [c] + rest;
    var q := href + "/";
    assert q[|href|] == '/' && p[|href|] == c;
    assert |q| <= |p| ==> p[..|q|][|href|] == c;
  }

  /** The root link is active on the root alone. */
  lemma RootOnlyOnRoot(pathname: string)
    ensures IsActivePath(pathname, "/") <==> pathname == "/"
  {
  }

  /** A non-root active link is a prefix of the path. */
  lemma ActiveIsPrefix(pathname: string, href: string)
    requires href != "/"
    ensures IsActivePath(pathname, href) ==> |href| <= |pathname| && pathname[..|href|] == href
  {
    if IsActivePath(pathname, href) && pathname != href {
      assert pathname[..|href|] == pathname[..|href + "/"|][..|href|];
      assert (href + "/")[..|href|] == href;
    }
  }

  /** Whatever the path, at most one of the six links is highlighted. */
  lemma AtMostOneActive(pathname: string, i: int, j: int)
    requires 0 <= i < j < |Links|
    ensures !(IsActivePath(pathname, Links[i].href) && IsActivePath(pathname, Links[j].href))
  {
    var hi, hj := Links[i].href, Links[j].href;
    ActiveIsPrefix(pathname, hj);
    assert |hj| >= 5;
    if i != 0 {
      ActiveIsPrefix(pathname, hi);
      var k := if hi[1] == hj[1] then 2 else 1;
      assert hi[k] != hj[k];
    }
  }
}
