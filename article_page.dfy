/** The article dashboard: a list of the documents uploaded in this session, newest
    first, with a five-item "Recent Uploads" panel beside the full table. */
module ArticlePage {
  import opened Types

  /** The uploader recorded on every document uploaded from this page. */
  const Uploader: string := "current-user"

  /** How many documents the "Recent Uploads" panel shows at most. */
  const RecentLimit: nat := 5

  /** The document built for an upload: pending, uploaded by the placeholder user, with
      no OCR data, notes or approval. The id, object URL and time are the caller's. */
  function NewDocument(id: string, fileName: string, fileUrl: string, tag: DocumentTag, now: string): (d: Document)
    ensures d.id == id && d.fileName == fileName && d.fileUrl == fileUrl && d.tag == tag
    ensures d.status == Pending && d.uploadedBy == Uploader && d.uploadedAt == now
    ensures d.ocrData.None? && d.auditNotes.None? && d.approvedBy.None? && d.approvedAt.None?
  {
    Document(id, fileName, fileUrl, tag, Pending, Uploader, now, None, None, None, None)
  }

  /** `slice(0, 5)`: the first five documents, or all of them when there are fewer. */
  function RecentUploads(docs: seq<Document>): (recent: seq<Document>)
    ensures |recent| == if |docs| < RecentLimit then |docs| else RecentLimit
    ensures recent <= docs
  {
    if |docs| < RecentLimit then docs else docs[..RecentLimit]
  }

  /** Both the panel and the table show "No documents uploaded yet" exactly when the
      list is empty. */
  predicate ShowsEmptyMessage(docs: seq<Document>) {
    |docs| == 0
  }

  class ArticleDashboard {
    var uploadedDocs: seq<Document>

    /** The page starts with no uploads. */
    constructor ()
      ensures uploadedDocs == []
    {
      uploadedDocs := [];
    }

    /** The upload callback: the new pending document goes to the front of the list,
        so the empty message is gone. */
    method Upload(fileName: string, tag: DocumentTag, id: string, fileUrl: string, now: string)
      modifies this
      ensures uploadedDocs == [NewDocument(id, fileName, fileUrl, tag, now)] + old(uploadedDocs)
      ensures !ShowsEmptyMessage(uploadedDocs)
    {
      var newDoc := NewDocument(id, fileName, fileUrl, tag, now);
      uploadedDocs := [newDoc] + uploadedDocs;
    }
  }

  /** The newest upload heads the recent panel, which then shows the previous recent
      panel minus its oldest entry once it was full. */
  lemma {:induction false} RecentAfterUpload(docs: seq<Document>, d: Document)
    ensures RecentUploads([d] + docs)[0] == d
    ensures RecentUploads([d] + docs)[1..] == RecentUploads(docs)[..|RecentUploads([d] + docs)| - 1]
  {
    var all := [d] + docs;
    assert all[1..] == docs;
    if |docs| >= RecentLimit {
      assert RecentUploads(all)[1..] == all[1..RecentLimit];
      assert all[1..RecentLimit] == docs[..RecentLimit - 1];
    } else {
      assert RecentUploads(all) == all;
    }
  }
}
