/** The sidebar's navigation list: a "Dashboard" entry for the role's route, then
    the role-specific entries pushed one by one in a fixed order. */
module Sidebar {
  import opened Types
  import opened Permissions

  /** The seven entries the sidebar knows, in push order. */
  datatype Entry = Dashboard | UploadDocs | AuditQueue | Approvals | Investments | Analytics | Accounting

  datatype NavItem = NavItem(entry: Entry, href: string)

  /** The sub-route each entry links to under the role's dashboard. */
  function Suffix(e: Entry): string {
    match e
    case Dashboard => ""
    case UploadDocs => "/upload"
    case AuditQueue => "/audit"
    case Approvals => "/approval"
    case Investments => "/investments"
    case Analytics => "/analytics"
    case Accounting => "/accounting"
  }

  /** The position of each entry in the push order. */
  function Rank(e: Entry): nat {
    match e
    case Dashboard => 0
    case UploadDocs => 1
    case AuditQueue => 2
    case Approvals => 3
    case Investments => 4
    case Analytics => 5
    case Accounting => 6
  }

  /** Which roles each entry is pushed for. */
  predicate Shows(r: Role, e: Entry) {
    match e
    case Dashboard => true
    case UploadDocs => r == Article
    case AuditQueue => r == Audit
    case Approvals => r == SeniorCA || r == PracticeHead
    case Investments => r == Investor || r == Owner || r == PracticeHead
    case Analytics => r == Owner || r == PracticeHead || HasPermission(r, ViewAnalytics)
    case Accounting => r == Owner
  }

  const PushOrder: seq<Entry> :=
    [Dashboard, UploadDocs, AuditQueue, Approvals, Investments, Analytics, Accounting]

  /** The entries of a list, in order. */
  function Entries(items: seq<NavItem>): (es: seq<Entry>)
    ensures |es| == |items|
    ensures forall i :: 0 <= i < |items| ==> es[i] == items[i].entry
  {
    seq(|items|, i requires 0 <= i < |items| => items[i].entry)
  }

  /** The entries of `es` that are shown to role `r`, in their order; defined from
      the back, as the sidebar pushes them. */
  function Visible(r: Role, es: seq<Entry>): seq<Entry> {
    if es == [] then []
    else Visible(r, es[..|es| - 1]) + (if Shows(r, es[|es| - 1]) then [es[|es| - 1]] else [])
  }

  /** Strictly increasing push position: no entry twice, none out of order. */
  predicate InPushOrder(es: seq<Entry>) {
    forall i, j :: 0 <= i < j < |es| ==> Rank(es[i]) < Rank(es[j])
  }

  /** The list that links each entry of `es` to its sub-route of `base`. */
  function Linked(es: seq<Entry>, base: string): (items: seq<NavItem>)
    ensures |items| == |es|
    ensures forall i :: 0 <= i < |es| ==> items[i] == NavItem(es[i], base + Suffix(es[i]))
  {
    seq(|es|, i requires 0 <= i < |es| => NavItem(es[i], base + Suffix(es[i])))
  }

  /** The single item pushed for `e`, linked below `base`, if the role is shown it. */
  function Push(r: Role, base: string, e: Entry): seq<NavItem> {
    if Shows(r, e) then [NavItem(e, base + Suffix(e))] else []
  }

  /** The role-specific pushes, in order. */
  function RoleSpecific(r: Role, base: string): seq<NavItem> {
    Push(r, base, UploadDocs) + Push(r, base, AuditQueue) + Push(r, base, Approvals)
      + Push(r, base, Investments) + Push(r, base, Analytics) + Push(r, base, Accounting)
  }

  /** Considering one more entry of the push order extends the linked list by that
      entry's push. */
  lemma LinkedSnoc(r: Role, base: string, es: seq<Entry>, e: Entry)
    ensures Linked(Visible(r, es + [e]), base) == Linked(Visible(r, es), base) + Push(r, base, e)
  {
    assert (es + [e])[..|es|] == es;
  }

  /** Concatenation regrouped: the front item, then the six pushes. */
  lemma Regroup<T>(d: seq<T>, a1: seq<T>, a2: seq<T>, a3: seq<T>, a4: seq<T>, a5: seq<T>, a6: seq<T>)
    ensures d + a1 + a2 + a3 + a4 + a5 + a6 == d + (a1 + a2 + a3 + a4 + a5 + a6)
  {
  }

  /** The reference list, spelled out as the seven conditional pushes in order. */
  lemma LinkedPushOrder(r: Role, base: string)
    ensures Linked(Visible(r, PushOrder), base)
      == [NavItem(Dashboard, base)] + RoleSpecific(r, base)
  {
    var p1 := [Dashboard];
    var p2 := p1 + [UploadDocs];
    var p3 := p2 + [AuditQueue];
    var p4 := p3 + [Approvals];
    var p5 := p4 + [Investments];
    var p6 := p5 + [Analytics];
    assert p6 + [Accounting] == PushOrder;
    assert Visible(r, p1) == [Dashboard] by {
      assert p1[..0] == [];
    }
    assert Linked(Visible(r, p1), base) == [NavItem(Dashboard, base)] by {
      assert base + Suffix(Dashboard) == base;
    }
    LinkedSnoc(r, base, p1, UploadDocs);
    LinkedSnoc(r, base, p2, AuditQueue);
    LinkedSnoc(r, base, p3, Approvals);
    LinkedSnoc(r, base, p4, Investments);
    LinkedSnoc(r, base, p5, Analytics);
    LinkedSnoc(r, base, p6, Accounting);
    Regroup([NavItem(Dashboard, base)], Push(r, base, UploadDocs), Push(r, base, AuditQueue),
      Push(r, base, Approvals), Push(r, base, Investments), Push(r, base, Analytics),
      Push(r, base, Accounting));
  }

  /** Builds the navigation list for the signed-in user, if any: the entries shown to
      the role, in push order, each linked below the role's dashboard route. */
  method NavItems(user: Option<User>) returns (items: seq<NavItem>)
    ensures user.None? ==> items == []
    ensures user.Some? ==> items == Linked(Visible(user.value.role, PushOrder), DashboardPath(user.value.role))
  {
    if user.None? {
      return [];
    }
    var role := user.value.role;
    items := RoleNavItems(role, "/dashboard/" + Segment(RoleName(role)));
  }

  /** The list itself, for a role and the route prefix the component recomputes inside
      every href: the dashboard item, then the six conditional pushes. */
  method RoleNavItems(role: Role, base: string) returns (items: seq<NavItem>)
    ensures items == Linked(Visible(role, PushOrder), base)
  {
    var baseNavItems := [NavItem(Dashboard, base)];
    var roleSpecificItems: seq<NavItem> := [];
    if role == Article {
      roleSpecificItems := roleSpecificItems + [NavItem(UploadDocs, base + "/upload")];
    }
    assert roleSpecificItems == Push(role, base, UploadDocs);
    if role == Audit {
      roleSpecificItems := roleSpecificItems + [NavItem(AuditQueue, base + "/audit")];
    }
    assert roleSpecificItems == Push(role, base, UploadDocs) + Push(role, base, AuditQueue);
    if role == SeniorCA || role == PracticeHead {
      roleSpecificItems := roleSpecificItems + [NavItem(Approvals, base + "/approval")];
    }
    assert roleSpecificItems == Push(role, base, UploadDocs) + Push(role, base, AuditQueue) + Push(role, base, Approvals);
    if role == Investor || role == Owner || role == PracticeHead {
      roleSpecificItems := roleSpecificItems + [NavItem(Investments, base + "/investments")];
    }
    assert roleSpecificItems == Push(role, base, UploadDocs) + Push(role, base, AuditQueue) + Push(role, base, Approvals) + Push(role, base, Investments);
    if role == Owner || role == PracticeHead || HasPermission(role, ViewAnalytics) {
      roleSpecificItems := roleSpecificItems + [NavItem(Analytics, base + "/analytics")];
    }
    assert roleSpecificItems == Push(role, base, UploadDocs) + Push(role, base, AuditQueue) + Push(role, base, Approvals) + Push(role, base, Investments) + Push(role, base, Analytics);
    if role == Owner {
      roleSpecificItems := roleSpecificItems + [NavItem(Accounting, base + "/accounting")];
    }
    items := baseNavItems + roleSpecificItems;
    LinkedPushOrder(role, base);
  }

  /** An entry survives the filter exactly when it was there and is shown. */
  lemma {:induction false} VisibleMembers(r: Role, es: seq<Entry>, e: Entry)
    ensures e in Visible(r, es) <==> e in es && Shows(r, e)
  {
    if es != [] {
      var init := es[..|es| - 1];
      VisibleMembers(r, init, e);
      assert es == init + [es[|es| - 1]];
    }
  }

  /** Filtering keeps the push order. */
  lemma {:induction false} VisibleInOrder(r: Role, es: seq<Entry>)
    requires InPushOrder(es)
    ensures InPushOrder(Visible(r, es))
  {
    if es != [] {
      var init := es[..|es| - 1];
      var last := es[|es| - 1];
      var front := Visible(r, init);
      VisibleInOrder(r, init);
      forall k | 0 <= k < |front| ensures Rank(front[k]) < Rank(last) {
        VisibleMembers(r, init, front[k]);
        var j :| 0 <= j < |init| && init[j] == front[k];
        assert es[j] == init[j];
      }
      var v := front + (if Shows(r, last) then [last] else []);
      assert Visible(r, es) == v;
      forall i, j | 0 <= i < j < |v| ensures Rank(v[i]) < Rank(v[j]) {
        if j == |front| {
          assert v[i] == front[i];
        }
      }
    }
  }

  /** The sidebar's list always starts with the dashboard entry, linked to the
      role's own route. */
  lemma SidebarStartsAtDashboard(r: Role, base: string, items: seq<NavItem>)
    requires items == Linked(Visible(r, PushOrder), base)
    ensures |items| > 0 && items[0] == NavItem(Dashboard, base)
  {
    LinkedPushOrder(r, base);
  }

  /** The sidebar shows every entry the role is shown and no other. */
  lemma SidebarEntries(r: Role, base: string, items: seq<NavItem>)
    requires items == Linked(Visible(r, PushOrder), base)
    ensures forall e :: e in Entries(items) <==> Shows(r, e)
  {
    var es := Visible(r, PushOrder);
    assert Entries(items) == es;
    forall e ensures e in es <==> Shows(r, e) {
      VisibleMembers(r, PushOrder, e);
    }
  }

  /** The entries appear in push order, none twice. */
  lemma SidebarOrder(r: Role, base: string, items: seq<NavItem>)
    requires items == Linked(Visible(r, PushOrder), base)
    ensures InPushOrder(Entries(items))
  {
    assert Entries(items) == Visible(r, PushOrder);
    VisibleInOrder(r, PushOrder);
  }

  /** Whether an item is highlighted for the current path. */
  predicate IsActive(pathname: string, item: NavItem) {
    pathname == item.href
  }

  /** Distinct entries link to distinct routes, so at most one item is highlighted
      whatever the current path. */
  lemma AtMostOneActive(r: Role, base: string, items: seq<NavItem>, pathname: string)
    requires items == Linked(Visible(r, PushOrder), base)
    ensures forall i, j :: 0 <= i < j < |items| && IsActive(pathname, items[i]) ==> !IsActive(pathname, items[j])
  {
    SidebarOrder(r, base, items);
    forall i, j | 0 <= i < j < |items| && IsActive(pathname, items[i])
      ensures !IsActive(pathname, items[j])
    {
      assert Entries(items)[i] == items[i].entry && Entries(items)[j] == items[j].entry;
    }
  }

  /** Per role: "Upload Documents" only for the article, "Audit Queue" only for audit,
      "Approvals" for the senior CA and the practice head, "Investments" for the
      investor, the owner and the practice head, "Accounting" only for the owner. */
  lemma Audiences(r: Role)
    ensures Shows(r, UploadDocs) <==> r == Article
    ensures Shows(r, AuditQueue) <==> r == Audit
    ensures Shows(r, Approvals) <==> r in {SeniorCA, PracticeHead}
    ensures Shows(r, Investments) <==> r in {Investor, Owner, PracticeHead}
    ensures Shows(r, Accounting) <==> r == Owner
  {
  }

  /** "Analytics" goes exactly to the owner, the practice head and the investor (the
      one other role holding view_analytics). */
  lemma AnalyticsAudience(r: Role)
    ensures Shows(r, Analytics) <==> r in {Owner, PracticeHead, Investor}
  {
  }
}
