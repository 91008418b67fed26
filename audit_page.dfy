/** The audit dashboard: a document list, the selected document, the OCR data being
    edited and the audit notes; flagging or verifying rewrites the one document whose
    id is the selected one. */
module AuditPage {
  import opened Types
  import OCRFieldsPanel

  /** Two documents agree on everything an audit does not touch. */
  predicate SameExceptReview(a: Document, b: Document) {
    a.id == b.id && a.fileName == b.fileName && a.fileUrl == b.fileUrl && a.tag == b.tag
    && a.uploadedBy == b.uploadedBy && a.uploadedAt == b.uploadedAt
    && a.approvedBy == b.approvedBy && a.approvedAt == b.approvedAt
  }

  /** The flag update: every document with the id becomes flagged with the notes and
      keeps its OCR data; every other document is left as it was. */
  function FlagById(docs: seq<Document>, id: string, notes: string): (r: seq<Document>)
    ensures |r| == |docs|
    ensures forall i :: 0 <= i < |docs| && docs[i].id != id ==> r[i] == docs[i]
    ensures forall i :: 0 <= i < |docs| && docs[i].id == id ==>
      SameExceptReview(r[i], docs[i]) && r[i].status == Flagged
      && r[i].auditNotes == Some(notes) && r[i].ocrData == docs[i].ocrData
  {
    seq(|docs|, i requires 0 <= i < |docs| =>
      if docs[i].id == id then docs[i].(status := Flagged, auditNotes := Some(notes)) else docs[i])
  }

  /** The verify update: every document with the id becomes approved, takes the
      edited OCR data and the notes, and keeps whatever approver fields it had (none
      are set here); every other document is left as it was. */
  function VerifyById(docs: seq<Document>, id: string, data: OCRData, notes: string): (r: seq<Document>)
    ensures |r| == |docs|
    ensures forall i :: 0 <= i < |docs| && docs[i].id != id ==> r[i] == docs[i]
    ensures forall i :: 0 <= i < |docs| && docs[i].id == id ==>
      SameExceptReview(r[i], docs[i]) && r[i].status == Approved
      && r[i].ocrData == Some(data) && r[i].auditNotes == Some(notes)
  {
    seq(|docs|, i requires 0 <= i < |docs| =>
      if docs[i].id == id then docs[i].(status := Approved, ocrData := Some(data), auditNotes := Some(notes))
      else docs[i])
  }

  /** The "Pending Verification" list: the pending documents, in list order. */
  function PendingQueue(docs: seq<Document>): (q: seq<Document>)
    ensures |q| <= |docs|
    ensures forall d :: d in q <==> d in docs && d.status == Pending
  {
    if docs == [] then []
    else (if docs[0].status == Pending then [docs[0]] else []) + PendingQueue(docs[1..])
  }

  /** The queue holds every pending document as often as the list does, and nothing
      else. */
  lemma {:induction false} PendingQueueCounts(docs: seq<Document>)
    ensures forall d :: multiset(PendingQueue(docs))[d] == if d.status == Pending then multiset(docs)[d] else 0
  {
    if docs != [] {
      assert docs == [docs[0]] + docs[1..];
      PendingQueueCounts(docs[1..]);
    }
  }

  /** The queue is built list by list: the queue of a concatenation is the
      concatenation of the queues, so pending documents keep their order. */
  lemma {:induction false} PendingQueueAppend(a: seq<Document>, b: seq<Document>)
    ensures PendingQueue(a + b) == PendingQueue(a) + PendingQueue(b)
  {
    if a == [] {
      assert a + b == b;
    } else {
      assert (a + b)[0] == a[0];
      assert (a + b)[1..] == a[1..] + b;
      PendingQueueAppend(a[1..], b);
    }
  }

  /** A document with the selected id is no longer queued after either update, and
      every document with another id is queued exactly as before. */
  lemma {:induction false} UpdateLeavesQueue(docs: seq<Document>, id: string, r: seq<Document>, newStatus: DocumentStatus)
    requires newStatus != Pending
    requires |r| == |docs|
    requires forall i :: 0 <= i < |docs| && docs[i].id != id ==> r[i] == docs[i]
    requires forall i :: 0 <= i < |docs| && docs[i].id == id ==> r[i].id == id && r[i].status == newStatus
    ensures forall d :: d in PendingQueue(r) ==> d.id != id
    ensures forall d: Document :: d.id != id ==> (d in PendingQueue(r) <==> d in PendingQueue(docs))
  {
    forall d | d in r && d.status == Pending ensures d.id != id {
      var i :| 0 <= i < |r| && r[i] == d;
    }
    forall d: Document | d.id != id ensures d in r <==> d in docs {
      if d in r {
        var i :| 0 <= i < |r| && r[i] == d;
      }
      if d in docs {
        var i :| 0 <= i < |docs| && docs[i] == d;
      }
    }
  }

  /** Updating the queue strictly shortens it when a pending document has the id. */
  lemma {:induction false} UpdateShortensQueue(docs: seq<Document>, id: string, r: seq<Document>)
    requires |r| == |docs|
    requires forall i :: 0 <= i < |docs| && docs[i].id != id ==> r[i] == docs[i]
    requires forall i :: 0 <= i < |docs| && docs[i].id == id ==> r[i].status != Pending
    ensures |PendingQueue(r)| <= |PendingQueue(docs)|
    ensures (exists i :: 0 <= i < |docs| && docs[i].id == id && docs[i].status == Pending)
      ==> |PendingQueue(r)| < |PendingQueue(docs)|
  {
    if docs != [] {
      UpdateShortensQueue(docs[1..], id, r[1..]);
      assert forall i :: 1 <= i < |docs| ==> docs[1..][i - 1] == docs[i];
      if exists i :: 0 <= i < |docs| && docs[i].id == id && docs[i].status == Pending {
        var i :| 0 <= i < |docs| && docs[i].id == id && docs[i].status == Pending;
        if i > 0 {
          assert docs[1..][i - 1] == docs[i];
        }
      }
    }
  }

  /** Both updates take the touched documents out of the queue. */
  lemma FlagAndVerifyLeaveQueue(docs: seq<Document>, id: string, data: OCRData, notes: string)
    ensures forall d :: d in PendingQueue(FlagById(docs, id, notes)) ==> d.id != id
    ensures forall d :: d in PendingQueue(VerifyById(docs, id, data, notes)) ==> d.id != id
    ensures |PendingQueue(FlagById(docs, id, notes))| <= |PendingQueue(docs)|
    ensures |PendingQueue(VerifyById(docs, id, data, notes))| <= |PendingQueue(docs)|
  {
    UpdateLeavesQueue(docs, id, FlagById(docs, id, notes), Flagged);
    UpdateLeavesQueue(docs, id, VerifyById(docs, id, data, notes), Approved);
    UpdateShortensQueue(docs, id, FlagById(docs, id, notes));
    UpdateShortensQueue(docs, id, VerifyById(docs, id, data, notes));
  }

  /** Verifying marks a document approved without an approver: a document that had
      no approver fields still has none, though its status reads approved. */
  lemma VerifyLeavesNoApprover(docs: seq<Document>, id: string, data: OCRData, notes: string, i: int)
    requires 0 <= i < |docs| && docs[i].id == id && docs[i].approvedBy.None?
    ensures VerifyById(docs, id, data, notes)[i].status == Approved
    ensures VerifyById(docs, id, data, notes)[i].approvedBy.None?
  {
  }

  class AuditDashboard {
    var documents: seq<Document>
    var selectedDoc: Option<Document>
    var editedData: Option<OCRData>
    var auditNotes: string

    /** The page starts with its document list, nothing selected, no notes. */
    constructor (initial: seq<Document>)
      ensures documents == initial && selectedDoc == None && editedData == None && auditNotes == ""
    {
      documents := initial;
      selectedDoc := None;
      editedData := None;
      auditNotes := "";
    }

    /** Whether the review panel (OCR fields, notes, buttons) is shown. */
    predicate Reviewing()
      reads this
    {
      selectedDoc.Some? && editedData.Some?
    }

    /** Selecting a document loads its OCR data (or none) and its notes (or ""). */
    method SelectDocument(doc: Document)
      modifies this
      ensures selectedDoc == Some(doc)
      ensures editedData == doc.ocrData
      ensures auditNotes == (if doc.auditNotes.Some? then doc.auditNotes.value else "")
      ensures documents == old(documents)
    {
      selectedDoc := Some(doc);
      editedData := doc.ocrData;
      auditNotes := if doc.auditNotes.Some? then doc.auditNotes.value else "";
    }

    /** An edit in the OCR panel, which is only shown while reviewing: the edited
        data becomes the panel's copy with that field replaced. */
    method EditField(e: OCRFieldsPanel.FieldEdit)
      modifies this
      ensures old(Reviewing()) ==> editedData == Some(OCRFieldsPanel.Apply(old(editedData).value, e))
      ensures !old(Reviewing()) ==> editedData == old(editedData)
      ensures documents == old(documents) && selectedDoc == old(selectedDoc) && auditNotes == old(auditNotes)
    {
      if Reviewing() {
        var emitted := OCRFieldsPanel.HandleFieldChange(editedData.value, true, e);
        editedData := emitted;
      }
    }

    /** Typing in the notes box. */
    method SetNotes(notes: string)
      modifies this
      ensures auditNotes == notes
      ensures documents == old(documents) && selectedDoc == old(selectedDoc) && editedData == old(editedData)
    {
      auditNotes := notes;
    }

    /** Flag mismatch: with a selection, the documents with its id are flagged with
        the current notes and the selection is cleared (the edited data and notes
        stay); without one, nothing happens. */
    method FlagMismatch()
      modifies this
      ensures old(selectedDoc).None? ==> documents == old(documents) && selectedDoc == None
      ensures old(selectedDoc).Some? ==>
        documents == FlagById(old(documents), old(selectedDoc).value.id, old(auditNotes))
        && selectedDoc == None
      ensures editedData == old(editedData) && auditNotes == old(auditNotes)
    {
      if selectedDoc.Some? {
        var updated := FlagById(documents, selectedDoc.value.id, auditNotes);
        documents := updated;
        selectedDoc := None;
      }
    }

    /** Verify: with a selection and edited data, the documents with its id become
        approved with that data and the notes, and the selection is cleared;
        otherwise nothing happens. */
    method Approve()
      modifies this
      ensures !old(Reviewing()) ==> documents == old(documents) && selectedDoc == old(selectedDoc)
      ensures old(Reviewing()) ==>
        documents == VerifyById(old(documents), old(selectedDoc).value.id, old(editedData).value, old(auditNotes))
        && selectedDoc == None
      ensures editedData == old(editedData) && auditNotes == old(auditNotes)
    {
      if selectedDoc.Some? && editedData.Some? {
        var updated := VerifyById(documents, selectedDoc.value.id, editedData.value, auditNotes);
        documents := updated;
        selectedDoc := None;
      }
    }
  }
}
