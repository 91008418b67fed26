# KiroTax console: role gating and document workflow, in Dafny

KiroTax is a tax-practice console. Users with one of six roles (owner, practice
head, senior CA, article, audit, investor) sign in and land on their own dashboard.
Documents (purchase, sales, expense and import invoices) are uploaded by article
staff. Auditors check and correct the extracted OCR fields, and a senior CA approves
the documents or sends them back. Investors keep a list of investments.

This project models the part of the console that decides who sees what and how the
dashboards change their documents:

- `types.dfy`: the closed enumerations and the records (user, document, OCR data,
  investment). The string spellings are closed, with parse round trips.
- `permissions.dfy`: the role-to-permission table, `hasPermission` with the owner's
  wildcard, the dashboard route of a role (lower-case, first underscore made a
  hyphen) and the role labels.
- `role_guard.dfy`: the guard that renders a page or redirects. It also holds the
  role list each dashboard page hands it.
- `sidebar.dfy`: the navigation list, built by the code's conditional pushes and
  proved equal to a filter of the seven entries.
- `status_badge.dfy`: the badge class and the capitalised text.
- `ocr_fields.dfy`: the extracted-fields panel's one-field edits.
- `upload_card.dfy`: the upload form's state (file, tag, preview) as a class.
- `audit_page.dfy`, `senior_ca_page.dfy`, `article_page.dfy`, `investor_page.dfy`:
  each dashboard's state as a class. The list updates are functions, and lemmas
  relate them.
- `api.dfy`: the endpoint path builders, the base URL, the auth headers and the
  composition of a request before it is sent.

Dashboard state is modelled as a class whose fields the handlers reassign, as React
state setters do. Handlers that find nothing to act on do nothing, as in the code.

### What the code does not check

- Pages admit roles by a literal role list, never by `hasPermission`.
  - The senior CA reaches the approval page without `approve_filing`.
  - The practice head holds `approve_filing` but is not admitted
    (`RoleGuard.GatingIgnoresPermissions`).
- The audit page's verify sets the status to approved without setting an approver
  (`AuditPage.VerifyLeavesNoApprover`).
- The senior CA's approve looks only at the id: a flagged document is approved like
  any other (`SeniorCAPage.ApproveIgnoresStatus`).
- No handler reports an error. A handler on a missing selection or id changes
  nothing.
- Amounts are not sign-checked (`InvestorPage.AddChangesTotal`). The investor form's
  only check is the browser's: every input is marked required.

## Model

| member | source | states |
|---|---|---|
| Types.ParseRole | types/index.ts:1-7 | a parsed role spells back to the input string |
| Types.ParseTag | types/index.ts:23 | a parsed tag spells back to the input string |
| Types.ParseStatus | types/index.ts:25 | a parsed status spells back to the input string |
| Types.RoleIsClosed | types/index.ts:1-7 | exactly six distinct roles; every role round-trips through its name |
| Types.TagIsClosed | types/index.ts:23 | exactly four distinct tags; every tag round-trips through its name |
| Types.StatusIsClosed | types/index.ts:25 | exactly three distinct statuses; every status round-trips through its name |
| Types.DocumentOptionalsIndependent | types/index.ts:35-47 | the status and the four optional fields of a document can be set independently, and the other fields stay |
| Permissions.RolePermissions | lib/permissions.ts:3-20 | only the owner's entry holds the wildcard, and then it is the whole entry; no entry is empty |
| Permissions.HasPermission | lib/permissions.ts:22-31 | the owner may do everything; any other role may do exactly what its entry lists |
| Permissions.PermissionHolders | lib/permissions.ts:3-31 | the exact holders of approve_filing, view_analytics, add_investment and upload_documents |
| Permissions.TableFacts | lib/permissions.ts:3-31 | the senior CA lacks approve_filing; the practice head holds it; the article may do only upload_documents |
| Permissions.ToLower | lib/permissions.ts:34 | same length; each character is lower-cased in place |
| Permissions.ReplaceFirstPointwise | lib/permissions.ts:34 | position by position, the first occurrence of the pattern character becomes the replacement, every other character is kept |
| Permissions.SegmentPointwise | lib/permissions.ts:34 | position by position, the first underscore becomes a hyphen and every other character is lower-cased |
| Permissions.ReplaceFirstRemovesSole | lib/permissions.ts:34 | replacing the first occurrence of a character that occurs at most once removes it |
| Permissions.DashboardPath | lib/permissions.ts:33-35 | every route is "/dashboard/" followed by a non-empty segment with no underscore |
| Permissions.OneWordSegment | lib/permissions.ts:34 | a name without an underscore maps to itself lower-cased |
| Permissions.TwoWordSegment | lib/permissions.ts:34 | a name "A_B" maps to lower(A) + "-" + lower(B) |
| Permissions.OwnerSegment | lib/permissions.ts:33-35 | OWNER maps to the route segment "owner" |
| Permissions.PracticeHeadSegment | lib/permissions.ts:33-35 | PRACTICE_HEAD maps to "practice-head" |
| Permissions.SeniorCASegment | lib/permissions.ts:33-35 | SENIOR_CA maps to "senior-ca" |
| Permissions.ArticleSegment | lib/permissions.ts:33-35 | ARTICLE maps to "article" |
| Permissions.AuditSegment | lib/permissions.ts:33-35 | AUDIT maps to "audit" |
| Permissions.InvestorSegment | lib/permissions.ts:33-35 | INVESTOR maps to "investor" |
| Permissions.DashboardPathIsRoute | lib/permissions.ts:33-35 | each role's computed route is its dashboard page's route |
| Permissions.DashboardPathInjective | lib/permissions.ts:33-35 | distinct roles get distinct routes |
| Permissions.RoleLabel | lib/permissions.ts:37-44 | each label spells its role's name, case aside, with the underscore as a space |
| Permissions.TablesTotal | lib/permissions.ts:37-44 | both tables cover every role; distinct roles have distinct labels |
| StatusBadge.StylesFor | components/StatusBadge.tsx:9-20 | every class, the default included, starts with "status-badge" |
| StatusBadge.StatusStyles | components/StatusBadge.tsx:9-20 | a status's class is "status-badge status-" followed by its name |
| StatusBadge.Capitalize | components/StatusBadge.tsx:23 | same length; the first character upper-cased, the rest kept; "" stays "" |
| StatusBadge.StylesPerStatus | components/StatusBadge.tsx:9-20 | each status gets its own class, and a status never falls to the default arm |
| StatusBadge.TextPerStatus | components/StatusBadge.tsx:22-24 | the texts are "Pending", "Flagged" and "Approved", all distinct |
| StatusBadge.StatusText | components/StatusBadge.tsx:22-24 | the text is as long as the status name, has an upper-case first letter, and keeps the rest of the name |
| RoleGuard.RedirectTarget | components/RoleGuard.tsx:17-26 | unauthenticated goes to /login; a signed-in user of a role not listed goes to their own dashboard; otherwise there is no redirect |
| RoleGuard.Renders | components/RoleGuard.tsx:28-30 | the children render iff there is no redirect and a user is signed in |
| RoleGuard.PageRoles | app/dashboard/investor/page.tsx:57 | every page's role list admits the owner and the roles whose home it is (the other five lists are at owner/page.tsx:27, practice-head/page.tsx:10, senior-ca/page.tsx:89, article/page.tsx:29 and audit/page.tsx:92) |
| RoleGuard.RenderOrRedirect | components/RoleGuard.tsx:17-30 | the guard renders iff authenticated with a user of a listed role; rendering excludes redirecting; the one state that does neither is authenticated without a user, which the authentication context never produces (lib/auth-context.tsx:51 derives `isAuthenticated` from the user) |
| RoleGuard.OwnerAdmittedEverywhere | components/RoleGuard.tsx:28-32 | every dashboard page lists and renders for the owner |
| RoleGuard.RedirectLandsHome | components/RoleGuard.tsx:23-25 | a redirected user is sent to their own dashboard's route, and that page admits them |
| RoleGuard.GatingIgnoresPermissions | app/dashboard/senior-ca/page.tsx:89 | the senior CA is admitted without approve_filing; the practice head holds it and is refused |
| Sidebar.LinkedSnoc | components/Sidebar.tsx:42-88 | considering one more entry appends exactly its conditional push |
| Sidebar.LinkedPushOrder | components/Sidebar.tsx:31-90 | the filtered, linked entry list equals the dashboard item followed by the six conditional pushes |
| Sidebar.NavItems | components/Sidebar.tsx:25-90 | no user gives no items; otherwise the items are the entries shown to the role, in order, linked under its dashboard route |
| Sidebar.RoleNavItems | components/Sidebar.tsx:31-90 | the base item and the six pushes give the filtered, linked entry list |
| Sidebar.VisibleMembers | components/Sidebar.tsx:42-88 | an entry survives the filter iff it was present and is shown to the role |
| Sidebar.VisibleInOrder | components/Sidebar.tsx:39-90 | filtering keeps the push order |
| Sidebar.SidebarStartsAtDashboard | components/Sidebar.tsx:31-37 | the first item is Dashboard, linked to the role's route |
| Sidebar.SidebarEntries | components/Sidebar.tsx:42-90 | the list holds exactly the entries shown to the role |
| Sidebar.SidebarOrder | components/Sidebar.tsx:39-90 | entries appear in push order with none repeated |
| Sidebar.AtMostOneActive | components/Sidebar.tsx:100-101 | at most one item is highlighted for any pathname |
| Sidebar.Audiences | components/Sidebar.tsx:42-88 | the exact roles shown Upload Documents, Audit Queue, Approvals, Investments and Accounting |
| Sidebar.AnalyticsAudience | components/Sidebar.tsx:74-80 | Analytics goes to exactly the owner, the practice head and the investor |
| OCRFieldsPanel.Apply | components/OCRFieldsPanel.tsx:13 | the edited field reads back the new value; every other field and the items are unchanged |
| OCRFieldsPanel.HandleFieldChange | components/OCRFieldsPanel.tsx:11-15 | emits iff a callback is given, and then the one-field edit of the data |
| OCRFieldsPanel.PanelEdit | components/OCRFieldsPanel.tsx:24-30 | a read-only panel never emits; an editable one emits iff a callback is given |
| OCRFieldsPanel.ApplyIdempotent | components/OCRFieldsPanel.tsx:13 | typing the same value twice equals typing it once |
| OCRFieldsPanel.LastEditWins | components/OCRFieldsPanel.tsx:11-15 | a later edit of the same field overrides the earlier one |
| OCRFieldsPanel.EditsCommute | components/OCRFieldsPanel.tsx:11-15 | edits of different fields commute |
| OCRFieldsPanel.RetypeIsIdentity | components/OCRFieldsPanel.tsx:13 | re-typing a field's current value gives back the same record |
| UploadCard.StartsWith | components/UploadCard.tsx:22 | true iff the prefix is an initial segment of the string |
| UploadCard.TagOptionsAreTags | components/UploadCard.tsx:56-59 | the select offers exactly the four tags, in order |
| UploadCard.ImageTypes | components/UploadCard.tsx:22-30 | a PDF gets no preview; an image/png does |
| UploadCard.UploadCardState.constructor | components/UploadCard.tsx:12-14 | no file, the purchase tag, an empty preview |
| UploadCard.UploadCardState.FileChange | components/UploadCard.tsx:16-32 | choosing nothing changes nothing; a chosen file is selected; a non-image clears the preview; an image keeps the old preview until its read completes |
| UploadCard.UploadCardState.PreviewLoaded | components/UploadCard.tsx:24-26 | the read result becomes the preview, and nothing else changes |
| UploadCard.UploadCardState.SelectTag | components/UploadCard.tsx:53 | the tag is set, and nothing else changes |
| UploadCard.UploadCardState.Submit | components/UploadCard.tsx:34-42 | something is uploaded iff the button was enabled; with no file nothing happens; otherwise the file and tag are handed over once and the card is reset |
| UploadCard.ChooseAndSubmit | components/UploadCard.tsx:34-42 | choosing then submitting uploads exactly that file with the chosen tag, and leaves the submit button disabled |
| AuditPage.FlagById | app/dashboard/audit/page.tsx:67-71 | documents with the id become flagged with the notes, their OCR data and approver fields kept; every other document is untouched |
| AuditPage.VerifyById | app/dashboard/audit/page.tsx:80-84 | documents with the id become approved with the edited data and notes, approver fields untouched; every other document is untouched |
| AuditPage.PendingQueue | app/dashboard/audit/page.tsx:105 | the queue holds exactly the pending documents and is no longer than the list |
| AuditPage.PendingQueueCounts | app/dashboard/audit/page.tsx:105 | each pending document is queued exactly as often as it is listed, and nothing else is queued |
| AuditPage.PendingQueueAppend | app/dashboard/audit/page.tsx:105 | the queue of two joined lists is the two queues joined, so pending documents keep their list order |
| AuditPage.UpdateLeavesQueue | app/dashboard/audit/page.tsx:105 | after an update to a non-pending status, no document with the id is queued, and the queue is unchanged for every other id |
| AuditPage.UpdateShortensQueue | app/dashboard/audit/page.tsx:105 | the queue never grows, and shrinks when a pending document had the id |
| AuditPage.FlagAndVerifyLeaveQueue | app/dashboard/audit/page.tsx:65-89 | after a flag or a verify, the selected id is out of the queue and the queue has not grown |
| AuditPage.VerifyLeavesNoApprover | app/dashboard/audit/page.tsx:80-84 | a verified document reads approved while its approver is still unset |
| AuditPage.AuditDashboard.constructor | app/dashboard/audit/page.tsx:54-57 | the page starts with its list, no selection, no edited data, empty notes |
| AuditPage.AuditDashboard.SelectDocument | app/dashboard/audit/page.tsx:59-63 | selects the document and loads its OCR data and its notes ("" when none) |
| AuditPage.AuditDashboard.EditField | app/dashboard/audit/page.tsx:123-129 | while reviewing, the edited data becomes the panel's one-field edit; otherwise nothing changes |
| AuditPage.AuditDashboard.SetNotes | app/dashboard/audit/page.tsx:133-135 | the notes become the typed text, and nothing else changes |
| AuditPage.AuditDashboard.FlagMismatch | app/dashboard/audit/page.tsx:65-76 | with a selection, the list is the flag update and the selection is cleared; without one nothing changes; edited data and notes stay |
| AuditPage.AuditDashboard.Approve | app/dashboard/audit/page.tsx:78-89 | with a selection and edited data, the list is the verify update and the selection is cleared; otherwise nothing changes |
| SeniorCAPage.CountId | app/dashboard/senior-ca/page.tsx:71 | the count of documents carrying the id is at most the list length, and zero iff none carries it |
| SeniorCAPage.FindById | app/dashboard/senior-ca/page.tsx:63 | none iff no document has the id; otherwise the first document with it |
| SeniorCAPage.RemoveById | app/dashboard/senior-ca/page.tsx:71 | keeps exactly the documents with another id; the length drops by the number carrying the id |
| SeniorCAPage.RemoveByIdCounts | app/dashboard/senior-ca/page.tsx:71 | each document with another id is kept exactly as often as it occurs, and no document with the id is kept |
| SeniorCAPage.RemoveByIdAppend | app/dashboard/senior-ca/page.tsx:71 | filtering two joined lists joins the two filtered lists, so the kept documents keep their order |
| SeniorCAPage.ApprovedCopy | app/dashboard/senior-ca/page.tsx:65-70 | status approved, approver "senior-ca@kirotax.com" and the time set; every other field kept |
| SeniorCAPage.ReplaceById | app/dashboard/senior-ca/page.tsx:82 | same length; each document with the id is replaced by the copy, the rest are kept in place |
| SeniorCAPage.FlaggedCount | app/dashboard/senior-ca/page.tsx:109 | the flagged counter never exceeds the queue length |
| SeniorCAPage.ApproveTotals | app/dashboard/senior-ca/page.tsx:62-76 | the page's document total drops by the number of duplicates of the id; it is conserved iff the id is unique |
| SeniorCAPage.SendBackCountsOne | app/dashboard/senior-ca/page.tsx:78-86 | sending back a unique, unflagged document raises the flagged counter by exactly one |
| SeniorCAPage.SendBackUntouched | app/dashboard/senior-ca/page.tsx:82 | with no document carrying the id, the map changes nothing |
| SeniorCAPage.ApproveIgnoresStatus | app/dashboard/senior-ca/page.tsx:62-76 | a flagged document with a unique id is found, approved and removed from the queue |
| SeniorCAPage.SendBackSetsNoApprover | app/dashboard/senior-ca/page.tsx:78-86 | a sent-back document is flagged and keeps its approver field |
| SeniorCAPage.SeniorCADashboard.constructor | app/dashboard/senior-ca/page.tsx:58-60 | the two lists, nothing selected |
| SeniorCAPage.SeniorCADashboard.Select | app/dashboard/senior-ca/page.tsx:122 | selects the document; the lists are unchanged |
| SeniorCAPage.SeniorCADashboard.Approve | app/dashboard/senior-ca/page.tsx:62-76 | an unknown id changes nothing; otherwise the id leaves the queue, the approved copy heads the approved list and the selection is cleared |
| SeniorCAPage.SeniorCADashboard.SendBack | app/dashboard/senior-ca/page.tsx:78-86 | an unknown id changes nothing; otherwise the documents with the id are flagged in place and the selection is cleared; the approved list never changes |
| ArticlePage.NewDocument | app/dashboard/article/page.tsx:14-22 | pending, uploaded by "current-user", with the given name, tag, URL and time; no OCR data, notes or approval |
| ArticlePage.RecentUploads | app/dashboard/article/page.tsx:46 | the first min(5, n) uploads, a prefix of the list |
| ArticlePage.ArticleDashboard.constructor | app/dashboard/article/page.tsx:11 | the page starts with no uploads |
| ArticlePage.ArticleDashboard.Upload | app/dashboard/article/page.tsx:13-26 | the new pending document goes to the front of the list, and the empty message is gone |
| ArticlePage.RecentAfterUpload | app/dashboard/article/page.tsx:42-46 | the new upload heads the recent panel, followed by the earlier panel less its oldest entry when it was full |
| InvestorPage.FieldsDetermine | app/dashboard/investor/page.tsx:31-36 | two forms with the same text in all four inputs are equal |
| InvestorPage.ApplyEdit | app/dashboard/investor/page.tsx:100-141 | the edited input reads the new text; every other input keeps its text |
| InvestorPage.LastEditWins | app/dashboard/investor/page.tsx:100-141 | typing twice into one input leaves only the second text |
| InvestorPage.EditsCommute | app/dashboard/investor/page.tsx:100-141 | edits of different inputs give the same form in either order |
| InvestorPage.Sum | app/dashboard/investor/page.tsx:38 | the total of non-negative amounts is non-negative |
| InvestorPage.SumSnoc | app/dashboard/investor/page.tsx:38 | adding a record at the back adds its amount to the total |
| InvestorPage.SumAppend | app/dashboard/investor/page.tsx:38 | the total of two lists joined is the sum of their totals |
| InvestorPage.SumBoundsEach | app/dashboard/investor/page.tsx:38 | with no negative amount, the total is at least each amount |
| InvestorPage.TotalInvested | app/dashboard/investor/page.tsx:38 | the reduce loop returns the sum of the amounts |
| InvestorPage.NewInvestment | app/dashboard/investor/page.tsx:42-49 | filed under "inv-001" with the given id and parsed amount and the form's date, type and description |
| InvestorPage.InvestorDashboard.constructor | app/dashboard/investor/page.tsx:29-36 | the two sample records; the form is hidden and empty |
| InvestorPage.InvestorDashboard.ToggleAddForm | app/dashboard/investor/page.tsx:66 | flips the form's visibility, and nothing else changes |
| InvestorPage.InvestorDashboard.EditForm | app/dashboard/investor/page.tsx:100-141 | the form takes the edit; the list and visibility are unchanged |
| InvestorPage.InvestorDashboard.AddInvestment | app/dashboard/investor/page.tsx:40-54 | the new record goes first, and the form is emptied and hidden |
| InvestorPage.InvestorDashboard.SubmitForm | app/dashboard/investor/page.tsx:96-146 | a hidden or incomplete form submits nothing and changes nothing; otherwise the submit handler runs |
| InvestorPage.InvestorDashboard.CancelForm | app/dashboard/investor/page.tsx:149-155 | the form is hidden; the list and the typed text are kept |
| InvestorPage.AddChangesTotal | app/dashboard/investor/page.tsx:38-50 | adding a record moves the total by exactly its amount, down for a negative one |
| InvestorPage.InitialTotal | app/dashboard/investor/page.tsx:9-38 | the page opens with a total of 750000 |
| InvestorPage.AddAndTotal | app/dashboard/investor/page.tsx:38-54 | after a submit, the total is the old total plus the parsed amount |
| InvestorPage.EditDateThenSubmit | app/dashboard/investor/page.tsx:40-146 | typing a date into an otherwise filled, shown form and submitting files a record with that date, the typed kind and description and the parsed amount, ahead of the old list |
| Api.PathInGroup | lib/api.ts:21-73 | every endpoint path starts with its group's prefix |
| Api.CrossGroupDistinct | lib/api.ts:21-73 | endpoints of different groups never share a path |
| Api.IdRecoverable | lib/api.ts:34-71 | each id-taking builder is one-to-one: the path determines the id |
| Api.PathCollisions | lib/api.ts:32-58 | list and create of investments share a path; the ids "upload", "portfolio" and "x/ocr" reach fixed or other builders' paths |
| Api.AuthHeaders | lib/api.ts:78-88 | the JSON content type always; Authorization iff the token is non-empty, and then "Bearer " + token; no other key |
| Api.GetAuthHeaders | lib/api.ts:78-88 | the dictionary built in place equals the functional header definition: the JSON content type, plus the bearer token when it is non-empty |
| Api.BuildRequest | lib/api.ts:124-138 | the URL is base + endpoint; the method defaults to GET; the header keys are the union; the caller's values win, the auth values fill the rest; the body is passed on |
| Api.CallerHeadersWin | lib/api.ts:128-134 | a caller's Authorization replaces the token's; without one a non-empty token's bearer is used; the content type is always present; with no caller headers the headers are the auth headers |
| Api.EndpointRequestURL | lib/api.ts:8-126 | an endpoint's request URL is a non-empty environment value followed by the path, or, when the value is unset or empty, the local default followed by the path |
| Api.UploadRequest | lib/api.ts:189-201 | a POST to base + "/documents/upload" whose only header is the bearer token, with no content type |
| Api.UploadIgnoresTruthiness | lib/api.ts:193-201 | for an empty token, the upload still sends Authorization, while apiRequest does not |

## Left out

- Network I/O is not modelled: `fetch`, `response.json`, the error wrapping into `APIError`, and the request and response logging in `apiRequest` (lib/api.ts:141, 159). Only the request each would send is modelled.
- `JSON.stringify` and `FormData` are not modelled. A body is taken as already serialised. Falsy non-string bodies (0, false) are not distinguished from a missing one.
- The authentication context, the login page and the session store are not modelled. The guard and the sidebar take the session and the user as inputs.
- The router push is not modelled. The guard returns its redirect target instead.
- `alert()` confirmations are not modelled. They have no effect on state.
- Random ids, `URL.createObjectURL`, `new Date().toISOString()` and the `FileReader` result are parameters. `PreviewLoaded` may arrive after a later file change, as the asynchronous read allows.
- Amounts are integers. Floating point, `parseFloat` (its NaN included), `toLocaleString`, date formatting and the investor page's projected value (`total * 1.12`) are not modelled. The parsed amount is a parameter.
- The audit and senior-CA pages' sample documents are not spelled out. Each page's class is constructed from its initial lists.
- Icons, layout, the sidebar items' display names, CSS classes other than the status badge's, and rendering are not modelled. A sidebar item is identified by its entry and its link. So are the owner and practice-head dashboards, which hold static content.
- The sidebar's per-item route is computed once per list. Each push in the code recomputes the same string.
- `getRoleDashboardPath`, the sidebar and the guard lower-case ASCII only. Role names are ASCII, so nothing is lost.
- StatusBadge.Capitalize: upper-cases ASCII letters only (`UpperChar`), where `toUpperCase` maps all of Unicode and can lengthen a string ('ß' gives "SS"). The badge is only ever given the three ASCII status names.
- The investor form's `required` check is modelled as "every input is non-empty". The browser's further rejection of a non-numeric amount is folded into the parsed amount, which is a parameter.
- Concurrency is not modelled. React state updates are single-threaded, and the code has no locking.
