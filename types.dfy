/** The shared data model: the closed enumerations (role, permission, document tag,
    document status) and the records that the dashboards pass around (documents,
    extracted OCR data, investment records, users). Every enumeration carries the
    string spelling the front end uses, with a parser that is its exact inverse, so
    that "closed set" is a statement about strings too. */
module Types {

  datatype Option<+T> = None | Some(value: T)

  /** The six organisational roles. */
  datatype Role = Owner | PracticeHead | SeniorCA | Article | Audit | Investor

  /** Capability tokens; Wildcard is the owner's '*'. */
  datatype Permission =
    | Wildcard
    | ViewAllClients
    | ApproveFiling
    | ViewInvestmentSummary
    | ViewAssignedClients
    | UploadDocuments
    | UploadAuditDocs
    | ViewPortfolio
    | AddInvestment
    | UpdatePortfolio
    | ViewAnalytics
    | UploadBrokerStatement

  datatype DocumentTag = Purchase | Sales | Expense | Import

  datatype DocumentStatus = Pending | Flagged | Approved

  /** A signed-in user; `token` is optional. */
  datatype User = User(id: string, email: string, name: string, role: Role, token: Option<string>)

  /** One extracted line item. Numbers are integers in this model. */
  datatype OCRItem = OCRItem(description: string, quantity: int, rate: int, amount: int)

  /** Extracted invoice fields; `items` keeps the invoice's line order. */
  datatype OCRData = OCRData(
    vendorName: string,
    gst: string,
    amount: int,
    date: string,
    invoiceNo: string,
    items: seq<OCRItem>)

  /** A document. The four optional fields are independent of each other and of
      `status`: nothing in the type ties approval metadata to the approved status. */
  datatype Document = Document(
    id: string,
    fileName: string,
    fileUrl: string,
    tag: DocumentTag,
    status: DocumentStatus,
    uploadedBy: string,
    uploadedAt: string,
    ocrData: Option<OCRData>,
    auditNotes: Option<string>,
    approvedBy: Option<string>,
    approvedAt: Option<string>)

  /** An investment entry; `kind` is the record's `type` label. */
  datatype InvestmentRecord = InvestmentRecord(
    id: string,
    investorId: string,
    date: string,
    kind: string,
    amount: int,
    description: string,
    brokerStatement: Option<string>)

  // ---------------------------------------------------------------------------
  // Closed enumerations and their string spellings

  const AllRoles: seq<Role> := [Owner, PracticeHead, SeniorCA, Article, Audit, Investor]
  const AllTags: seq<DocumentTag> := [Purchase, Sales, Expense, Import]
  const AllStatuses: seq<DocumentStatus> := [Pending, Flagged, Approved]

  function RoleName(r: Role): string {
    match r
    case Owner => "OWNER"
    case PracticeHead => "PRACTICE_HEAD"
    case SeniorCA => "SENIOR_CA"
    case Article => "ARTICLE"
    case Audit => "AUDIT"
    case Investor => "INVESTOR"
  }

  /** The role a string spells, if any: the string-typed union is closed. */
  function ParseRole(s: string): (r: Option<Role>)
    ensures r.Some? ==> RoleName(r.value) == s
  {
    if s == "OWNER" then Some(Owner)
    else if s == "PRACTICE_HEAD" then Some(PracticeHead)
    else if s == "SENIOR_CA" then Some(SeniorCA)
    else if s == "ARTICLE" then Some(Article)
    else if s == "AUDIT" then Some(Audit)
    else if s == "INVESTOR" then Some(Investor)
    else None
  }

  function TagName(t: DocumentTag): string {
    match t
    case Purchase => "purchase"
    case Sales => "sales"
    case Expense => "expense"
    case Import => "import"
  }

  function ParseTag(s: string): (t: Option<DocumentTag>)
    ensures t.Some? ==> TagName(t.value) == s
  {
    if s == "purchase" then Some(Purchase)
    else if s == "sales" then Some(Sales)
    else if s == "expense" then Some(Expense)
    else if s == "import" then Some(Import)
    else None
  }

  function StatusName(st: DocumentStatus): string {
    match st
    case Pending => "pending"
    case Flagged => "flagged"
    case Approved => "approved"
  }

  function ParseStatus(s: string): (st: Option<DocumentStatus>)
    ensures st.Some? ==> StatusName(st.value) == s
  {
    if s == "pending" then Some(Pending)
    else if s == "flagged" then Some(Flagged)
    else if s == "approved" then Some(Approved)
    else None
  }

  /** Role is a closed set of exactly six values, each spelled by exactly one string. */
  lemma RoleIsClosed(r: Role)
    ensures r in AllRoles
    ensures |AllRoles| == 6
    ensures forall i, j :: 0 <= i < j < |AllRoles| ==> AllRoles[i] != AllRoles[j]
    ensures ParseRole(RoleName(r)) == Some(r)
  {
  }

  /** DocumentTag has exactly the four values, each round-tripping through its name. */
  lemma TagIsClosed(t: DocumentTag)
    ensures t in AllTags
    ensures |AllTags| == 4
    ensures forall i, j :: 0 <= i < j < |AllTags| ==> AllTags[i] != AllTags[j]
    ensures ParseTag(TagName(t)) == Some(t)
  {
  }

  /** DocumentStatus has exactly pending, flagged and approved. */
  lemma StatusIsClosed(st: DocumentStatus)
    ensures st in AllStatuses
    ensures |AllStatuses| == 3
    ensures forall i, j :: 0 <= i < j < |AllStatuses| ==> AllStatuses[i] != AllStatuses[j]
    ensures ParseStatus(StatusName(st)) == Some(st)
  {
  }

  /** The optional fields of a document are independent of one another and of the
      status: every combination is a well-typed document. */
  lemma DocumentOptionalsIndependent(
    d: Document, st: DocumentStatus,
    o: Option<OCRData>, notes: Option<string>, approver: Option<string>, when: Option<string>)
    ensures var e := d.(status := st, ocrData := o, auditNotes := notes, approvedBy := approver, approvedAt := when);
      e.status == st && e.ocrData == o && e.auditNotes == notes && e.approvedBy == approver && e.approvedAt == when
      && e.id == d.id && e.tag == d.tag
  {
  }
}
