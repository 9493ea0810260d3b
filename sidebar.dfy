/** The side navigation (`Sidebar`): which links a user sees, and the confirmed logout. */
module SidebarModel {
  import opened Common
  import opened Records
  import Seqs
  import AuthContextModel

  /** One `nav` entry: `{ to, label, role }`; an entry without a role is for everyone. */
  datatype NavItem = NavItem(to: string, tag: string, role: Option<string>)

  /** The three role-tagged dashboard links that open the `nav` array. */
  const DashboardLinks: seq<NavItem> := [
    NavItem("/super", "Super Dashboard", Some("SUPER_ADMIN")),
    NavItem("/owner", "Owner Dashboard", Some("BUSINESS_OWNER")),
    NavItem("/staff", "Staff Dashboard", Some("STAFF"))
  ]

  /** The five links without a role that close it. */
  const OpenLinks: seq<NavItem> := [
    NavItem("/payments", "Payments", None),
    NavItem("/sessions", "Sessions", None),
    NavItem("/routers", "Routers", None),
    NavItem("/pricing", "Pricing", None),
    NavItem("/settings", "Settings", None)
  ]

  /** The `nav` array, in its order. */
  const Nav: seq<NavItem> := DashboardLinks + OpenLinks

  /** `if (n.role && (!user || user.role !== n.role)) return null` */
  predicate VisibleTo(n: NavItem, user: Option<User>)
  {
    n.role.None? || (user.Some? && user.value.role == n.role)
  }

  /** The links rendered: a subsequence of the list, keeping exactly the items the user may see. */
  function VisibleItems(nav: seq<NavItem>, user: Option<User>): (r: seq<NavItem>)
    ensures Seqs.Subsequence(r, nav)
    ensures forall i :: 0 <= i < |r| ==> VisibleTo(r[i], user)
    ensures forall i :: 0 <= i < |nav| && VisibleTo(nav[i], user) ==> nav[i] in r
  {
    var keep := (n: NavItem) => VisibleTo(n, user);
    Seqs.FilterIsSubsequence(nav, keep);
    Seqs.Filter(nav, keep)
  }

  /** The role-tagged links among those shown. */
  function Dashboards(items: seq<NavItem>): seq<NavItem>
  {
    Seqs.Filter(items, (n: NavItem) => n.role.Some?)
  }

  /** None of the five open links carries a role. */
  lemma OpenLinksUntagged()
    ensures forall i :: 0 <= i < |OpenLinks| ==> OpenLinks[i].role.None?
  {
  }

  /** Links without a role that follow others are all kept, after the visible ones before them. */
  lemma UntaggedKept(tagged: seq<NavItem>, open: seq<NavItem>, user: Option<User>)
    requires forall i :: 0 <= i < |open| ==> open[i].role.None?
    ensures VisibleItems(tagged + open, user) == Seqs.Filter(tagged, (n: NavItem) => VisibleTo(n, user)) + open
  {
    var keep := (n: NavItem) => VisibleTo(n, user);
    Seqs.FilterKeepsAll(open, keep);
    Seqs.FilterConcat(tagged, open, keep);
  }

  /** The shown links: the visible dashboard links, then all five open ones. */
  lemma VisibleSplit(user: Option<User>)
    ensures VisibleItems(Nav, user) == Seqs.Filter(DashboardLinks, (n: NavItem) => VisibleTo(n, user)) + OpenLinks
  {
    OpenLinksUntagged();
    UntaggedKept(DashboardLinks, OpenLinks, user);
  }

  /** Only the dashboard links among those shown carry a role. */
  lemma DashboardsSplit(shown: seq<NavItem>)
    requires forall i :: 0 <= i < |shown| ==> shown[i].role.Some?
    ensures Dashboards(shown + OpenLinks) == shown
  {
    var dash := (n: NavItem) => n.role.Some?;
    Seqs.FilterConcat(shown, OpenLinks, dash);
    Seqs.FilterKeepsAll(shown, dash);
    Seqs.FilterDropsAll(OpenLinks, dash);
  }

  /** Filtering three links keeps each one that passes, in order. */
  lemma FilterThree(a: NavItem, b: NavItem, c: NavItem, keep: NavItem -> bool)
    ensures Seqs.Filter([a, b, c], keep)
            == (if keep(a) then [a] else []) + (if keep(b) then [b] else []) + (if keep(c) then [c] else [])
  {
    assert [a, b, c][1..] == [b, c];
    assert [b, c][1..] == [c];
    assert [c][1..] == [];
    var fc := if keep(c) then [c] else [];
    assert Seqs.Filter([c], keep) == fc + Seqs.Filter([], keep) == fc;
    assert Seqs.Filter([b, c], keep) == (if keep(b) then [b] else []) + fc;
    assert Seqs.Filter([a, b, c], keep) == (if keep(a) then [a] else []) + Seqs.Filter([b, c], keep);
  }

  /** Each known role sees its own dashboard link and no other; the untagged links are shown to all. */
  lemma OneDashboardPerKnownRole(user: User)
    requires user.role in {Some("SUPER_ADMIN"), Some("BUSINESS_OWNER"), Some("STAFF")}
    ensures |Dashboards(VisibleItems(Nav, Some(user)))| == 1
    ensures Dashboards(VisibleItems(Nav, Some(user)))[0].role == user.role
    ensures |VisibleItems(Nav, Some(user))| == 6
  {
    var keep := (n: NavItem) => VisibleTo(n, Some(user));
    var shown := Seqs.Filter(DashboardLinks, keep);
    FilterThree(DashboardLinks[0], DashboardLinks[1], DashboardLinks[2], keep);
    assert DashboardLinks == [DashboardLinks[0], DashboardLinks[1], DashboardLinks[2]];
    assert |shown| == 1 && shown[0].role == user.role;
    VisibleSplit(Some(user));
    DashboardsSplit(shown);
  }

  /** Without a user, or with an unknown role, no dashboard link is shown; the five untagged ones are. */
  lemma NoDashboardOtherwise(user: Option<User>)
    requires user.Some? ==> user.value.role !in {Some("SUPER_ADMIN"), Some("BUSINESS_OWNER"), Some("STAFF")}
    ensures Dashboards(VisibleItems(Nav, user)) == []
    ensures |VisibleItems(Nav, user)| == 5
  {
    var keep := (n: NavItem) => VisibleTo(n, user);
    FilterThree(DashboardLinks[0], DashboardLinks[1], DashboardLinks[2], keep);
    assert DashboardLinks == [DashboardLinks[0], DashboardLinks[1], DashboardLinks[2]];
    assert Seqs.Filter(DashboardLinks, keep) == [];
    VisibleSplit(user);
    DashboardsSplit([]);
  }

  /** `handleLogout`: only after the prompt is accepted, log out and then go to '/'. */
  method HandleLogout(auth: AuthContextModel.AuthState, confirmed: bool) returns (navigation: Option<string>)
    modifies auth
    ensures confirmed ==>
              && navigation == Some("/")
              && auth.token == None && auth.user == None
              && auth.storage == old(auth.storage) - {AuthContextModel.TokenKey, AuthContextModel.UserKey}
    ensures !confirmed ==>
              navigation == None && auth.token == old(auth.token) && auth.user == old(auth.user)
              && auth.storage == old(auth.storage)
    ensures auth.loading == old(auth.loading)
  {
    navigation := None;
    if confirmed {
      auth.Logout();
      navigation := Some("/");
    }
  }
}
