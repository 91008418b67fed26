/** The senior CA dashboard: an approval queue and an approved list. Approving moves
    the document with the given id from the queue to the front of the approved list
    with the approver's name and time; sending back flags it where it stands. */
module SeniorCAPage {
  import opened Types

  /** The approver recorded on every approval from this page. */
  const Approver: string := "senior-ca@kirotax.com"

  /** How many documents carry the id. */
  function CountId(docs: seq<Document>, id: string): (n: nat)
    ensures n <= |docs|
    ensures n == 0 <==> forall d :: d in docs ==> d.id != id
  {
    if docs == [] then 0 else (if docs[0].id == id then 1 else 0) + CountId(docs[1..], id)
  }

  /** Array.find on the id: the first document carrying it, if any. */
  function FindById(docs: seq<Document>, id: string): (found: Option<Document>)
    ensures found.None? <==> forall d :: d in docs ==> d.id != id
    ensures found.Some? ==> found.value.id == id
    ensures found.Some? ==>
      exists i :: 0 <= i < |docs| && docs[i] == found.value && forall j :: 0 <= j < i ==> docs[j].id != id
  {
    if docs == [] then None
    else if docs[0].id == id then Some(docs[0])
    else
      var rest := FindById(docs[1..], id);
      if rest.Some? then
        assert forall j :: 1 <= j < |docs| ==> docs[j] == docs[1..][j - 1];
        rest
      else None
  }

  /** Array.filter dropping the id: every document with another id, in order. */
  function RemoveById(docs: seq<Document>, id: string): (r: seq<Document>)
    ensures |r| == |docs| - CountId(docs, id)
    ensures forall d :: d in r <==> d in docs && d.id != id
  {
    if docs == [] then []
    else (if docs[0].id == id then [] else [docs[0]]) + RemoveById(docs[1..], id)
  }

  /** The filter keeps every document with another id as often as it occurs, and no
      copy of a document with the id. */
  lemma {:induction false} RemoveByIdCounts(docs: seq<Document>, id: string)
    ensures forall d :: multiset(RemoveById(docs, id))[d] == if d.id == id then 0 else multiset(docs)[d]
  {
    if docs != [] {
      assert docs == [docs[0]] + docs[1..];
      RemoveByIdCounts(docs[1..], id);
    }
  }

  /** The filter works list by list: filtering a concatenation concatenates the
      filtered parts, so the kept documents stay in their order. */
  lemma {:induction false} RemoveByIdAppend(a: seq<Document>, b: seq<Document>, id: string)
    ensures RemoveById(a + b, id) == RemoveById(a, id) + RemoveById(b, id)
  {
    if a == [] {
      assert a + b == b;
    } else {
      assert (a + b)[0] == a[0];
      assert (a + b)[1..] == a[1..] + b;
      RemoveByIdAppend(a[1..], b, id);
    }
  }

  /** The approved copy: status approved, approver and time set, all else kept. */
  function ApprovedCopy(doc: Document, now: string): (a: Document)
    ensures a.status == Approved && a.approvedBy == Some(Approver) && a.approvedAt == Some(now)
    ensures a.(status := doc.status, approvedBy := doc.approvedBy, approvedAt := doc.approvedAt) == doc
  {
    doc.(status := Approved, approvedBy := Some(Approver), approvedAt := Some(now))
  }

  /** Array.map replacing every document with the id by the one flagged copy. */
  function ReplaceById(docs: seq<Document>, id: string, copy: Document): (r: seq<Document>)
    ensures |r| == |docs|
    ensures forall i :: 0 <= i < |docs| ==> r[i] == (if docs[i].id == id then copy else docs[i])
  {
    seq(|docs|, i requires 0 <= i < |docs| => if docs[i].id == id then copy else docs[i])
  }

  /** The "Flagged" counter: queued documents whose status is flagged. */
  function FlaggedCount(docs: seq<Document>): (n: nat)
    ensures n <= |docs|
  {
    if docs == [] then 0 else (if docs[0].status == Flagged then 1 else 0) + FlaggedCount(docs[1..])
  }

  /** Moving a document conserves the total number of documents on the page exactly
      when its id is unique in the queue; with duplicated ids, every copy leaves the
      queue but only one enters the approved list. */
  lemma ApproveTotals(pending: seq<Document>, approved: seq<Document>, id: string, now: string)
    requires FindById(pending, id).Some?
    ensures |RemoveById(pending, id)| + |[ApprovedCopy(FindById(pending, id).value, now)] + approved|
      == |pending| + |approved| + 1 - CountId(pending, id)
    ensures CountId(pending, id) == 1 <==>
      |RemoveById(pending, id)| + |[ApprovedCopy(FindById(pending, id).value, now)] + approved|
        == |pending| + |approved|
  {
  }

  /** Sending back a uniquely-identified document that was not flagged raises the
      flagged counter by one. */
  lemma {:induction false} SendBackCountsOne(docs: seq<Document>, id: string, copy: Document)
    requires CountId(docs, id) == 1 && copy.status == Flagged
    requires forall d :: d in docs && d.id == id ==> d.status != Flagged
    ensures FlaggedCount(ReplaceById(docs, id, copy)) == FlaggedCount(docs) + 1
  {
    var r := ReplaceById(docs, id, copy);
    assert r == [r[0]] + ReplaceById(docs[1..], id, copy);
    if docs[0].id == id {
      assert CountId(docs[1..], id) == 0;
      SendBackUntouched(docs[1..], id, copy);
    } else {
      SendBackCountsOne(docs[1..], id, copy);
    }
  }

  /** Where no document carries the id, the map changes nothing. */
  lemma SendBackUntouched(docs: seq<Document>, id: string, copy: Document)
    requires CountId(docs, id) == 0
    ensures ReplaceById(docs, id, copy) == docs
  {
  }

  class SeniorCADashboard {
    var pendingDocs: seq<Document>
    var approvedDocs: seq<Document>
    var selectedDoc: Option<Document>

    /** The page starts with its two lists and nothing selected. */
    constructor (pending: seq<Document>, approved: seq<Document>)
      ensures pendingDocs == pending && approvedDocs == approved && selectedDoc == None
    {
      pendingDocs := pending;
      approvedDocs := approved;
      selectedDoc := None;
    }

    /** Clicking a queued document selects it. */
    method Select(doc: Document)
      modifies this
      ensures selectedDoc == Some(doc)
      ensures pendingDocs == old(pendingDocs) && approvedDocs == old(approvedDocs)
    {
      selectedDoc := Some(doc);
    }

    /** Approve: if some queued document has the id, every document with it leaves
        the queue, the approved copy of the first goes to the front of the approved
        list and the selection is cleared. Its status is not looked at. Otherwise
        nothing happens. */
    method Approve(docId: string, now: string)
      modifies this
      ensures FindById(old(pendingDocs), docId).None? ==>
        pendingDocs == old(pendingDocs) && approvedDocs == old(approvedDocs) && selectedDoc == old(selectedDoc)
      ensures FindById(old(pendingDocs), docId).Some? ==>
        pendingDocs == RemoveById(old(pendingDocs), docId)
        && approvedDocs == [ApprovedCopy(FindById(old(pendingDocs), docId).value, now)] + old(approvedDocs)
        && selectedDoc == None
    {
      var doc := FindById(pendingDocs, docId);
      if doc.Some? {
        var approved := ApprovedCopy(doc.value, now);
        pendingDocs := RemoveById(pendingDocs, docId);
        approvedDocs := [approved] + approvedDocs;
        selectedDoc := None;
      }
    }

    /** Send back: if some queued document has the id, every document with it is
        replaced, in place, by the first one with its status set to flagged, and the
        selection is cleared. Otherwise nothing happens. */
    method SendBack(docId: string)
      modifies this
      ensures FindById(old(pendingDocs), docId).None? ==>
        pendingDocs == old(pendingDocs) && selectedDoc == old(selectedDoc)
      ensures FindById(old(pendingDocs), docId).Some? ==>
        pendingDocs == ReplaceById(old(pendingDocs), docId, FindById(old(pendingDocs), docId).value.(status := Flagged))
        && selectedDoc == None
      ensures approvedDocs == old(approvedDocs)
    {
      var doc := FindById(pendingDocs, docId);
      if doc.Some? {
        var flagged := doc.value.(status := Flagged);
        pendingDocs := ReplaceById(pendingDocs, docId, flagged);
        selectedDoc := None;
      }
    }
  }

  /** A flagged document still in the queue is approved like any other: approval
      looks only at the id. */
  lemma ApproveIgnoresStatus(pending: seq<Document>, i: int, now: string)
    requires 0 <= i < |pending| && pending[i].status == Flagged
    requires forall j :: 0 <= j < |pending| && j != i ==> pending[j].id != pending[i].id
    ensures FindById(pending, pending[i].id) == Some(pending[i])
    ensures ApprovedCopy(pending[i], now).status == Approved
    ensures pending[i] !in RemoveById(pending, pending[i].id)
  {
  }

  /** Sending back keeps the approver fields of the document it flags: none are set. */
  lemma SendBackSetsNoApprover(pending: seq<Document>, id: string, i: int)
    requires FindById(pending, id).Some? && 0 <= i < |pending| && pending[i].id == id
    ensures ReplaceById(pending, id, FindById(pending, id).value.(status := Flagged))[i].approvedBy
      == FindById(pending, id).value.approvedBy
    ensures ReplaceById(pending, id, FindById(pending, id).value.(status := Flagged))[i].status == Flagged
  {
  }
}
