/** The role guard every dashboard page is wrapped in: it renders its children only
    for a signed-in user whose role is on the page's list, and otherwise sends the
    browser to the login page or to the user's own dashboard. */
module RoleGuard {
  import opened Types
  import opened Permissions

  /** What the guard reads from the session. */
  datatype Session = Session(isAuthenticated: bool, user: Option<User>)

  /** The guard's redirect (the router push is left abstract as its target). */
  function RedirectTarget(s: Session, allowedRoles: seq<Role>): (target: Option<string>)
    ensures !s.isAuthenticated ==> target == Some("/login")
    ensures s.isAuthenticated && s.user.Some? && s.user.value.role !in allowedRoles
      ==> target == Some(DashboardPath(s.user.value.role))
    ensures s.isAuthenticated && (s.user.None? || s.user.value.role in allowedRoles) ==> target == None
  {
    if !s.isAuthenticated then Some("/login")
    else if s.user.Some? && s.user.value.role !in allowedRoles then
      Some("/dashboard/" + Segment(RoleName(s.user.value.role)))
    else None
  }

  /** Whether the children are rendered (otherwise the guard renders nothing). */
  function Renders(s: Session, allowedRoles: seq<Role>): (b: bool)
    ensures b <==> RedirectTarget(s, allowedRoles).None? && s.user.Some?
  {
    s.isAuthenticated && s.user.Some? && s.user.value.role in allowedRoles
  }

  /** The guard renders exactly when it does not redirect, except for a session that
      claims to be signed in without a user, which gets neither. The authentication
      context derives `isAuthenticated` from the user's presence, so that session never
      reaches the guard: the clause only shows that the guard's two checks do not
      cover it on their own. */
  lemma RenderOrRedirect(s: Session, allowedRoles: seq<Role>)
    ensures Renders(s, allowedRoles) ==> RedirectTarget(s, allowedRoles) == None
    ensures !Renders(s, allowedRoles) && RedirectTarget(s, allowedRoles) == None
      <==> s.isAuthenticated && s.user.None?
    ensures Renders(s, allowedRoles) <==>
      s.isAuthenticated && s.user.Some? && s.user.value.role in allowedRoles
  {
  }

  // ---------------------------------------------------------------------------
  // The six dashboard pages and their role lists

  datatype Page = OwnerPage | PracticeHeadPage | SeniorCAPage | ArticlePage | AuditPage | InvestorPage

  /** The allowedRoles each page hands its guard. */
  function PageRoles(p: Page): (roles: seq<Role>)
    ensures Owner in roles
    ensures forall r :: HomePage(r) == p ==> r in roles
  {
    match p
    case OwnerPage => [Owner]
    case PracticeHeadPage => [PracticeHead, Owner]
    case SeniorCAPage => [SeniorCA, Owner]
    case ArticlePage => [Article, Owner]
    case AuditPage => [Audit, Owner]
    case InvestorPage => [Investor, Owner, PracticeHead]
  }

  /** The page served at a role's dashboard route. */
  function HomePage(r: Role): Page {
    match r
    case Owner => OwnerPage
    case PracticeHead => PracticeHeadPage
    case SeniorCA => SeniorCAPage
    case Article => ArticlePage
    case Audit => AuditPage
    case Investor => InvestorPage
  }

  /** Every page admits the owner. */
  lemma OwnerAdmittedEverywhere(p: Page, u: User)
    requires u.role == Owner
    ensures Owner in PageRoles(p)
    ensures Renders(Session(true, Some(u)), PageRoles(p))
  {
  }

  /** A redirected user lands on their home page, and that page admits them: the
      guard never redirects twice. */
  lemma RedirectLandsHome(s: Session, p: Page)
    requires s.isAuthenticated && s.user.Some?
    requires RedirectTarget(s, PageRoles(p)).Some?
    ensures RedirectTarget(s, PageRoles(p)).value == DashboardPath(s.user.value.role)
    ensures Renders(s, PageRoles(HomePage(s.user.value.role)))
  {
  }

  /** Pages are gated by role lists, not by the permission table: the senior CA is
      admitted to the approvals page without holding approve_filing, and the practice
      head, who holds it, is not. */
  lemma GatingIgnoresPermissions(u: User)
    ensures u.role == SeniorCA ==>
      Renders(Session(true, Some(u)), PageRoles(SeniorCAPage)) && !HasPermission(SeniorCA, ApproveFiling)
    ensures u.role == PracticeHead ==>
      !Renders(Session(true, Some(u)), PageRoles(SeniorCAPage)) && HasPermission(PracticeHead, ApproveFiling)
  {
  }
}
