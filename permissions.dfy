/** The permission registry: the static role-to-permission table with the owner's
    wildcard, the `HasPermission` query over it, the role-to-dashboard path rule and
    the display labels. */
module Permissions {
  import opened Types

  /** The role-to-permission table. Only the owner's entry is the wildcard. */
  function RolePermissions(r: Role): (ps: seq<Permission>)
    ensures Wildcard in ps <==> r == Owner
    ensures r == Owner ==> ps == [Wildcard]
    ensures |ps| > 0
  {
    match r
    case Owner => [Wildcard]
    case PracticeHead => [ViewAllClients, ApproveFiling, ViewInvestmentSummary]
    case SeniorCA => [ViewAssignedClients]
    case Article => [UploadDocuments]
    case Audit => [UploadAuditDocs]
    case Investor => [ViewPortfolio, AddInvestment, UpdatePortfolio, ViewAnalytics, UploadBrokerStatement]
  }

  /** Whether a role may perform an action: a wildcard entry short-circuits to true,
      otherwise the action must be listed for the role. */
  function HasPermission(r: Role, action: Permission): (b: bool)
    ensures r == Owner ==> b
    ensures r != Owner ==> (b <==> action in RolePermissions(r))
  {
    var ps := RolePermissions(r);
    if Wildcard in ps then true else action in ps
  }

  /** The roles holding a permission, read off the table. */
  lemma PermissionHolders(r: Role)
    ensures HasPermission(r, ApproveFiling) <==> r in {Owner, PracticeHead}
    ensures HasPermission(r, ViewAnalytics) <==> r in {Owner, Investor}
    ensures HasPermission(r, AddInvestment) <==> r in {Owner, Investor}
    ensures HasPermission(r, UploadDocuments) <==> r in {Owner, Article}
  {
  }

  /** Concrete facts of the table: the senior CA cannot approve filings while the
      practice head can; the investor sees analytics; the article only uploads. */
  lemma TableFacts()
    ensures !HasPermission(SeniorCA, ApproveFiling)
    ensures HasPermission(PracticeHead, ApproveFiling)
    ensures HasPermission(Investor, ViewAnalytics)
    ensures RolePermissions(Article) == [UploadDocuments]
    ensures forall a :: HasPermission(Article, a) <==> a == UploadDocuments
  {
  }

  // ---------------------------------------------------------------------------
  // Dashboard path: "/dashboard/" + role lower-cased, first '_' replaced by '-'

  /** ASCII lower-casing of one character; every role name is ASCII. */
  function LowerChar(c: char): (l: char)
    ensures 'A' <= c <= 'Z' ==> 'a' <= l <= 'z'
    ensures !('A' <= c <= 'Z') ==> l == c
  {
    if 'A' <= c <= 'Z' then (c as int + 32) as char else c
  }

  /** ASCII lower-casing of a string, character by character. */
  function ToLower(s: string): (l: string)
    ensures |l| == |s|
    ensures forall i :: 0 <= i < |s| ==> l[i] == LowerChar(s[i])
  {
    seq(|s|, i requires 0 <= i < |s| => LowerChar(s[i]))
  }

  /** String.replace with a one-character pattern: only the first occurrence changes. */
  function ReplaceFirst(s: string, from: char, to: char): (r: string)
    ensures |r| == |s|
  {
    if s == [] then []
    else if s[0] == from then [to] + s[1..]
    else [s[0]] + ReplaceFirst(s[1..], from, to)
  }

  /** Position by position: the first occurrence of the pattern becomes the
      replacement, and every other character is kept. */
  lemma {:induction false} ReplaceFirstPointwise(s: string, from: char, to: char)
    ensures forall i :: 0 <= i < |s| ==>
      ReplaceFirst(s, from, to)[i] == (if s[i] == from && from !in s[..i] then to else s[i])
  {
    if s == [] {
    } else if s[0] == from {
      assert forall i :: 0 < i < |s| ==> s[..i][0] == from;
    } else {
      ReplaceFirstPointwise(s[1..], from, to);
      forall i | 0 < i < |s| ensures from in s[..i] <==> from in s[1..][..i - 1] {
        assert s[..i] == [s[0]] + s[1..][..i - 1];
      }
    }
  }

  /** `c` occurs in `s` at most once. */
  predicate AtMostOnce(s: string, c: char) {
    forall i, j :: 0 <= i < j < |s| && s[i] == c ==> s[j] != c
  }

  lemma ToLowerAppend(a: string, b: string)
    ensures ToLower(a + b) == ToLower(a) + ToLower(b)
  {
    assert forall i :: 0 <= i < |a| ==> (a + b)[i] == a[i];
    assert forall i :: |a| <= i < |a + b| ==> (a + b)[i] == b[i - |a|];
  }

  /** A string free of the pattern is left unchanged. */
  lemma {:induction false} ReplaceFirstAbsent(s: string, from: char, to: char)
    requires from !in s
    ensures ReplaceFirst(s, from, to) == s
  {
    if s != [] {
      ReplaceFirstAbsent(s[1..], from, to);
    }
  }

  /** A prefix free of the pattern is copied unchanged. */
  lemma {:induction false} ReplaceFirstAppend(a: string, b: string, from: char, to: char)
    requires from !in a
    ensures ReplaceFirst(a + b, from, to) == a + ReplaceFirst(b, from, to)
  {
    if a == [] {
      assert a + b == b;
    } else {
      var ab := a + b;
      assert ab[0] == a[0] != from;
      assert ab[1..] == a[1..] + b;
      assert ReplaceFirst(ab, from, to) == [a[0]] + ReplaceFirst(ab[1..], from, to);
      ReplaceFirstAppend(a[1..], b, from, to);
      assert a == [a[0]] + a[1..];
    }
  }

  /** Replacing the first occurrence of a character that occurs at most once leaves
      none of it behind. */
  lemma {:induction false} ReplaceFirstRemovesSole(s: string, from: char, to: char)
    requires AtMostOnce(s, from) && from != to
    ensures from !in ReplaceFirst(s, from, to)
  {
    if s == [] {
    } else if s[0] == from {
      forall k | 0 <= k < |s| - 1 ensures s[1..][k] != from {
        assert s[1..][k] == s[k + 1];
      }
    } else {
      assert AtMostOnce(s[1..], from) by {
        forall i, j | 0 <= i < j < |s[1..]| && s[1..][i] == from ensures s[1..][j] != from {
          assert s[i + 1] == from;
        }
      }
      ReplaceFirstRemovesSole(s[1..], from, to);
    }
  }

  /** Lower-casing keeps every non-letter, so an underscore that occurred at most
      once still does. */
  lemma ToLowerKeepsSingleUnderscore(s: string)
    requires AtMostOnce(s, '_')
    ensures AtMostOnce(ToLower(s), '_')
  {
  }

  /** Two underscore-free words joined by one underscore hold exactly one. */
  lemma JoinedAtMostOnce(first: string, second: string)
    requires '_' !in first && '_' !in second
    ensures AtMostOnce(first + "_" + second, '_')
  {
    var s := first + "_" + second;
    forall i, j | 0 <= i < j < |s| && s[i] == '_' ensures s[j] != '_' {
      assert i == |first|;
      assert s[j] == second[j - |first| - 1];
    }
  }

  /** No role name has more than one underscore. */
  lemma RoleNameUnderscores(r: Role)
    ensures AtMostOnce(RoleName(r), '_')
  {
    match r
    case PracticeHead =>
      assert RoleName(r) == "PRACTICE" + "_" + "HEAD";
      JoinedAtMostOnce("PRACTICE", "HEAD");
    case SeniorCA =>
      assert RoleName(r) == "SENIOR" + "_" + "CA";
      JoinedAtMostOnce("SENIOR", "CA");
    case _ =>
      assert '_' !in RoleName(r);
  }

  /** The path segment of a role name: lower-cased, first underscore made a hyphen. */
  function Segment(name: string): (seg: string)
    ensures |seg| == |name|
  {
    ReplaceFirst(ToLower(name), '_', '-')
  }

  /** Position by position: the first underscore becomes a hyphen and every other
      character is lower-cased. */
  lemma SegmentPointwise(name: string)
    ensures forall i :: 0 <= i < |name| ==>
      Segment(name)[i] == (if name[i] == '_' && '_' !in name[..i] then '-' else LowerChar(name[i]))
  {
    var lower := ToLower(name);
    ReplaceFirstPointwise(lower, '_', '-');
    forall i | 0 <= i <= |name| ensures '_' in lower[..i] <==> '_' in name[..i] {
      if '_' in lower[..i] {
        var k :| 0 <= k < i && lower[..i][k] == '_';
        assert name[..i][k] == name[k];
      }
      if '_' in name[..i] {
        var k :| 0 <= k < i && name[..i][k] == '_';
        assert lower[..i][k] == lower[k];
      }
    }
  }

  /** The dashboard route of a role: "/dashboard/" followed by the segment of its
      name. Since no role name has a second underscore, no route contains one. */
  function DashboardPath(r: Role): (p: string)
    ensures |p| > 11 && p[..11] == "/dashboard/"
    ensures '_' !in p
  {
    var name := RoleName(r);
    RoleNameUnderscores(r);
    ToLowerKeepsSingleUnderscore(name);
    ReplaceFirstRemovesSole(ToLower(name), '_', '-');
    "/dashboard/" + Segment(name)
  }

  /** The literal route segment of each role, as the routes under app/dashboard spell it. */
  function RouteSegment(r: Role): string {
    match r
    case Owner => "owner"
    case PracticeHead => "practice-head"
    case SeniorCA => "senior-ca"
    case Article => "article"
    case Audit => "audit"
    case Investor => "investor"
  }

  /** The segment of a one-word name is that name lower-cased. */
  lemma OneWordSegment(name: string, lower: string)
    requires '_' !in name && ToLower(name) == lower
    ensures Segment(name) == lower
  {
    ReplaceFirstAbsent(lower, '_', '-');
  }

  /** The segment of a two-word name: the lower-cased words joined by a hyphen. */
  lemma TwoWordSegment(name: string, first: string, second: string, lower1: string, lower2: string)
    requires name == first + "_" + second
    requires ToLower(first) == lower1 && ToLower(second) == lower2 && '_' !in lower1
    ensures Segment(name) == lower1 + "-" + lower2
  {
    var tail := ['_'] + second;
    assert name == first + tail;
    ToLowerAppend(first, tail);
    ToLowerAppend(['_'], second);
    var lowTail := ToLower(tail);
    assert lowTail == ['_'] + lower2;
    ReplaceFirstAppend(lower1, lowTail, '_', '-');
    assert ReplaceFirst(lowTail, '_', '-') == ['-'] + lower2;
  }

  /** The segment of each role name is its literal route segment (one lemma per
      role keeps each proof small). */
  lemma OwnerSegment()
    ensures Segment(RoleName(Owner)) == RouteSegment(Owner)
  {
    assert ToLower("OWNER") == "owner" by {}
    OneWordSegment(RoleName(Owner), "owner");
  }

  lemma PracticeHeadSegment()
    ensures Segment(RoleName(PracticeHead)) == RouteSegment(PracticeHead)
  {
    assert ToLower("PRACTICE") == "practice" by {}
    assert ToLower("HEAD") == "head" by {}
    TwoWordSegment(RoleName(PracticeHead), "PRACTICE", "HEAD", "practice", "head");
  }

  lemma SeniorCASegment()
    ensures Segment(RoleName(SeniorCA)) == RouteSegment(SeniorCA)
  {
    assert ToLower("SENIOR") == "senior" by {}
    assert ToLower("CA") == "ca" by {}
    TwoWordSegment(RoleName(SeniorCA), "SENIOR", "CA", "senior", "ca");
  }

  lemma ArticleSegment()
    ensures Segment(RoleName(Article)) == RouteSegment(Article)
  {
    assert ToLower("ARTICLE") == "article" by {}
    OneWordSegment(RoleName(Article), "article");
  }

  lemma AuditSegment()
    ensures Segment(RoleName(Audit)) == RouteSegment(Audit)
  {
    assert ToLower("AUDIT") == "audit" by {}
    OneWordSegment(RoleName(Audit), "audit");
  }

  lemma InvestorSegment()
    ensures Segment(RoleName(Investor)) == RouteSegment(Investor)
  {
    assert ToLower("INVESTOR") == "investor" by {}
    OneWordSegment(RoleName(Investor), "investor");
  }

  /** The computed route of every role is "/dashboard/" and its literal segment,
      e.g. "/dashboard/practice-head". */
  lemma DashboardPathIsRoute(r: Role)
    ensures DashboardPath(r) == "/dashboard/" + RouteSegment(r)
  {
    match r
    case Owner => OwnerSegment();
    case PracticeHead => PracticeHeadSegment();
    case SeniorCA => SeniorCASegment();
    case Article => ArticleSegment();
    case Audit => AuditSegment();
    case Investor => InvestorSegment();
  }

  /** Distinct roles have distinct dashboards. */
  lemma DashboardPathInjective(r1: Role, r2: Role)
    ensures DashboardPath(r1) == DashboardPath(r2) ==> r1 == r2
  {
    DashboardPathIsRoute(r1);
    DashboardPathIsRoute(r2);
  }

  /** Human-readable role names, one per role: each spells its role's name with the
      underscore as a space, in mixed case. */
  function RoleLabel(r: Role): (l: string)
    ensures |l| == |RoleName(r)|
    ensures forall i :: 0 <= i < |l| ==>
      LowerChar(l[i]) == LowerChar(if RoleName(r)[i] == '_' then ' ' else RoleName(r)[i])
  {
    match r
    case Owner => "Owner"
    case PracticeHead => "Practice Head"
    case SeniorCA => "Senior CA"
    case Article => "Article"
    case Audit => "Audit"
    case Investor => "Investor"
  }

  /** Both tables are total over the six roles, and labels tell roles apart. */
  lemma TablesTotal(r1: Role, r2: Role)
    ensures |RolePermissions(r1)| > 0 && |RoleLabel(r1)| > 0
    ensures r1 != r2 ==> RoleLabel(r1) != RoleLabel(r2)
  {
  }
}
