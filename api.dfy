/** The API client's pure parts: the endpoint path builders, the base URL, the
    header dictionary built from a session token, and the composition of a request's
    URL, method, headers and body. Sending it is outside the model. */
module Api {
  import opened Types

  // ---------------------------------------------------------------------------
  // Endpoints

  /** Every endpoint the client names; the ones taking an id carry it. */
  datatype Endpoint =
    | AuthLogin | AuthLogout | AuthMe | AuthRefresh
    | DocumentsList | DocumentsUpload | DocumentsGet(id: string)
    | DocumentsUpdateStatus(id: string) | DocumentsOcr(id: string)
    | AuditQueue | AuditVerify(id: string) | AuditFlag(id: string)
    | ApprovalsPending | ApprovalsApprove(id: string) | ApprovalsReject(id: string)
    | InvestmentsList | InvestmentsCreate | InvestmentsGet(id: string) | InvestmentsPortfolio
    | AnalyticsOverview | AnalyticsGst | AnalyticsFinancials
    | ClientsList | ClientsGet(id: string)

  /** The seven groups the endpoints are declared in. */
  datatype Group = Auth | Documents | AuditGroup | Approvals | Investments | Analytics | Clients

  function GroupOf(e: Endpoint): Group {
    match e
    case AuthLogin | AuthLogout | AuthMe | AuthRefresh => Auth
    case DocumentsList | DocumentsUpload | DocumentsGet(_) | DocumentsUpdateStatus(_) | DocumentsOcr(_) => Documents
    case AuditQueue | AuditVerify(_) | AuditFlag(_) => AuditGroup
    case ApprovalsPending | ApprovalsApprove(_) | ApprovalsReject(_) => Approvals
    case InvestmentsList | InvestmentsCreate | InvestmentsGet(_) | InvestmentsPortfolio => Investments
    case AnalyticsOverview | AnalyticsGst | AnalyticsFinancials => Analytics
    case ClientsList | ClientsGet(_) => Clients
  }

  /** The path segment every endpoint of a group starts with. */
  function GroupPrefix(g: Group): string {
    match g
    case Auth => "/auth"
    case Documents => "/documents"
    case AuditGroup => "/audit"
    case Approvals => "/approvals"
    case Investments => "/investments"
    case Analytics => "/analytics"
    case Clients => "/clients"
  }

  /** The path of an endpoint, relative to the base URL. */
  function Path(e: Endpoint): string {
    match e
    case AuthLogin => "/auth/login"
    case AuthLogout => "/auth/logout"
    case AuthMe => "/auth/me"
    case AuthRefresh => "/auth/refresh"
    case DocumentsList => "/documents"
    case DocumentsUpload => "/documents/upload"
    case DocumentsGet(id) => "/documents/" + id
    case DocumentsUpdateStatus(id) => "/documents/" + id + "/status"
    case DocumentsOcr(id) => "/documents/" + id + "/ocr"
    case AuditQueue => "/audit/queue"
    case AuditVerify(id) => "/audit/" + id + "/verify"
    case AuditFlag(id) => "/audit/" + id + "/flag"
    case ApprovalsPending => "/approvals/pending"
    case ApprovalsApprove(id) => "/approvals/" + id + "/approve"
    case ApprovalsReject(id) => "/approvals/" + id + "/reject"
    case InvestmentsList => "/investments"
    case InvestmentsCreate => "/investments"
    case InvestmentsGet(id) => "/investments/" + id
    case InvestmentsPortfolio => "/investments/portfolio"
    case AnalyticsOverview => "/analytics/overview"
    case AnalyticsGst => "/analytics/gst"
    case AnalyticsFinancials => "/analytics/financials"
    case ClientsList => "/clients"
    case ClientsGet(id) => "/clients/" + id
  }

  /** The first four characters name the group: no two groups share them. */
  function GroupKey(g: Group): (k: string)
    ensures |k| == 4 && k == GroupPrefix(g)[..4]
  {
    match g
    case Auth => "/aut"
    case Documents => "/doc"
    case AuditGroup => "/aud"
    case Approvals => "/app"
    case Investments => "/inv"
    case Analytics => "/ana"
    case Clients => "/cli"
  }

  /** The paths of one group begin with its prefix. */
  lemma PathsOfGroup(e: Endpoint, g: Group)
    requires GroupOf(e) == g
    ensures |GroupPrefix(g)| <= |Path(e)| && Path(e)[..|GroupPrefix(g)|] == GroupPrefix(g)
  {
  }

  /** Every path begins with its group's prefix. */
  lemma PathInGroup(e: Endpoint)
    ensures |GroupPrefix(GroupOf(e))| <= |Path(e)|
    ensures Path(e)[..|GroupPrefix(GroupOf(e))|] == GroupPrefix(GroupOf(e))
  {
    match GroupOf(e)
    case Auth => PathsOfGroup(e, Auth);
    case Documents => PathsOfGroup(e, Documents);
    case AuditGroup => PathsOfGroup(e, AuditGroup);
    case Approvals => PathsOfGroup(e, Approvals);
    case Investments => PathsOfGroup(e, Investments);
    case Analytics => PathsOfGroup(e, Analytics);
    case Clients => PathsOfGroup(e, Clients);
  }

  /** Endpoints of different groups never share a path. */
  lemma CrossGroupDistinct(e1: Endpoint, e2: Endpoint)
    requires GroupOf(e1) != GroupOf(e2)
    ensures Path(e1) != Path(e2)
  {
    PathInGroup(e1);
    PathInGroup(e2);
    var g1, g2 := GroupOf(e1), GroupOf(e2);
    assert Path(e1)[..4] == GroupKey(g1) by {
      assert Path(e1)[..4] == Path(e1)[..|GroupPrefix(g1)|][..4];
    }
    assert Path(e2)[..4] == GroupKey(g2) by {
      assert Path(e2)[..4] == Path(e2)[..|GroupPrefix(g2)|][..4];
    }
    assert GroupKey(g1) != GroupKey(g2);
  }

  /** Cancelling a fixed prefix and suffix. */
  lemma Cancel(prefix: string, a: string, b: string, suffix: string)
    requires prefix + a + suffix == prefix + b + suffix
    ensures a == b
  {
    var s := prefix + a + suffix;
    assert |a| == |b|;
    assert a == s[|prefix|..|prefix| + |a|];
    assert b == (prefix + b + suffix)[|prefix|..|prefix| + |b|];
  }

  /** The nine builders that take an id. */
  datatype IdBuilder =
    | GetDocument | UpdateDocumentStatus | DocumentOcr | VerifyAudit | FlagAudit
    | ApproveApproval | RejectApproval | GetInvestment | GetClient

  function Build(b: IdBuilder, id: string): Endpoint {
    match b
    case GetDocument => DocumentsGet(id)
    case UpdateDocumentStatus => DocumentsUpdateStatus(id)
    case DocumentOcr => DocumentsOcr(id)
    case VerifyAudit => AuditVerify(id)
    case FlagAudit => AuditFlag(id)
    case ApproveApproval => ApprovalsApprove(id)
    case RejectApproval => ApprovalsReject(id)
    case GetInvestment => InvestmentsGet(id)
    case GetClient => ClientsGet(id)
  }

  /** Each id-taking builder is one-to-one: the path determines the id. */
  lemma IdRecoverable(b: IdBuilder, id1: string, id2: string)
    requires Path(Build(b, id1)) == Path(Build(b, id2))
    ensures id1 == id2
  {
    match b
    case GetDocument => Cancel("/documents/", id1, id2, "");
    case UpdateDocumentStatus => Cancel("/documents/", id1, id2, "/status");
    case DocumentOcr => Cancel("/documents/", id1, id2, "/ocr");
    case VerifyAudit => Cancel("/audit/", id1, id2, "/verify");
    case FlagAudit => Cancel("/audit/", id1, id2, "/flag");
    case ApproveApproval => Cancel("/approvals/", id1, id2, "/approve");
    case RejectApproval => Cancel("/approvals/", id1, id2, "/reject");
    case GetInvestment => Cancel("/investments/", id1, id2, "");
    case GetClient => Cancel("/clients/", id1, id2, "");
  }

  /** Paths that coincide: listing and creating investments share one path, and an id
      spelled like a fixed segment reaches that segment's path. */
  lemma PathCollisions()
    ensures Path(InvestmentsList) == Path(InvestmentsCreate)
    ensures Path(DocumentsGet("upload")) == Path(DocumentsUpload)
    ensures Path(InvestmentsGet("portfolio")) == Path(InvestmentsPortfolio)
    ensures Path(DocumentsGet("x/ocr")) == Path(DocumentsOcr("x"))
  {
  }

  // ---------------------------------------------------------------------------
  // Configuration and headers

  const DefaultBaseURL: string := "http://localhost:8000/api"

  /** `NEXT_PUBLIC_API_URL || default`: an unset or empty variable falls back. */
  function BaseURL(env: Option<string>): string {
    if env.Some? && env.value != "" then env.value else DefaultBaseURL
  }

  /** A token is used only when present and non-empty. */
  predicate Truthy(token: Option<string>) {
    token.Some? && token.value != ""
  }

  /** The header dictionary: the JSON content type always, a bearer authorization
      exactly when the token is truthy. */
  function AuthHeaders(token: Option<string>): (h: map<string, string>)
    ensures "Content-Type" in h && h["Content-Type"] == "application/json"
    ensures "Authorization" in h <==> Truthy(token)
    ensures Truthy(token) ==> h["Authorization"] == "Bearer " + token.value
    ensures h.Keys <= {"Content-Type", "Authorization"}
  {
    var base := map["Content-Type" := "application/json"];
    if Truthy(token) then base["Authorization" := "Bearer " + token.value] else base
  }

  /** getAuthHeaders: start from the content type and add the authorization in place. */
  method GetAuthHeaders(token: Option<string>) returns (headers: map<string, string>)
    ensures headers == AuthHeaders(token)
  {
    headers := map["Content-Type" := "application/json"];
    if token.Some? && token.value != "" {
      headers := headers["Authorization" := "Bearer " + token.value];
    }
  }

  // ---------------------------------------------------------------------------
  // Request composition

  datatype HttpMethod = GET | POST | PATCH | PUT | DELETE

  /** What the client would hand to fetch. */
  datatype Request = Request(
    url: string, verb: HttpMethod, headers: map<string, string>, body: Option<string>)

  /** apiRequest before the fetch. The URL is the base followed by the endpoint; the
      method defaults to GET; the caller's headers are spread over the auth headers;
      a present body (already serialised) is attached. */
  function BuildRequest(baseURL: string, endpoint: string, verb: Option<HttpMethod>,
                        body: Option<string>, token: Option<string>,
                        headers: map<string, string>): (r: Request)
    ensures r.url == baseURL + endpoint
    ensures r.verb == (if verb.Some? then verb.value else GET)
    ensures r.headers.Keys == AuthHeaders(token).Keys + headers.Keys
    ensures forall k :: k in headers ==> r.headers[k] == headers[k]
    ensures forall k :: k in AuthHeaders(token) && k !in headers ==> r.headers[k] == AuthHeaders(token)[k]
    ensures r.body == body
  {
    Request(baseURL + endpoint, if verb.Some? then verb.value else GET,
            AuthHeaders(token) + headers, body)
  }

  /** A caller-supplied header wins over the one derived from the token: a caller can
      replace the bearer token or the content type. Without caller headers, the
      request carries exactly the auth headers. */
  lemma CallerHeadersWin(baseURL: string, endpoint: string, token: Option<string>, headers: map<string, string>)
    ensures "Authorization" in headers ==>
      BuildRequest(baseURL, endpoint, None, None, token, headers).headers["Authorization"] == headers["Authorization"]
    ensures "Authorization" !in headers && Truthy(token) ==>
      BuildRequest(baseURL, endpoint, None, None, token, headers).headers["Authorization"] == "Bearer " + token.value
    ensures "Content-Type" in BuildRequest(baseURL, endpoint, None, None, token, headers).headers
    ensures BuildRequest(baseURL, endpoint, None, None, token, map[]).headers == AuthHeaders(token)
  {
  }

  /** The request for an endpoint of the API: its URL is the configured base URL
      followed by the endpoint's path, the base being the environment's value when it
      is set and non-empty and the local default otherwise. */
  lemma EndpointRequestURL(env: Option<string>, e: Endpoint, token: Option<string>)
    ensures env.Some? && env.value != "" ==>
      BuildRequest(BaseURL(env), Path(e), None, None, token, map[]).url == env.value + Path(e)
    ensures env.None? || env.value == "" ==>
      BuildRequest(BaseURL(env), Path(e), None, None, token, map[]).url == DefaultBaseURL + Path(e)
    ensures BuildRequest(BaseURL(env), Path(e), None, None, token, map[]).url[..|BaseURL(env)|] == BaseURL(env)
    ensures BuildRequest(BaseURL(env), Path(e), None, None, token, map[]).url[|BaseURL(env)|..] == Path(e)
  {
  }

  /** uploadFile's request: a POST to the upload path whose only header is the bearer
      token, which is sent even when the token is empty, and with no content type. */
  function UploadRequest(baseURL: string, token: string, form: string): (r: Request)
    ensures r.url == baseURL + Path(DocumentsUpload) && r.verb == POST
    ensures r.headers == map["Authorization" := "Bearer " + token]
    ensures "Content-Type" !in r.headers
    ensures r.body == Some(form)
  {
    Request(baseURL + Path(DocumentsUpload), POST, map["Authorization" := "Bearer " + token], Some(form))
  }

  /** Unlike apiRequest, the upload sends an authorization header for an empty token. */
  lemma UploadIgnoresTruthiness(baseURL: string, form: string)
    ensures "Authorization" in UploadRequest(baseURL, "", form).headers
    ensures "Authorization" !in BuildRequest(baseURL, Path(DocumentsUpload), Some(POST), Some(form), Some(""), map[]).headers
  {
  }
}
