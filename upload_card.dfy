/** The upload card's form state: the chosen file, the chosen tag and the image
    preview, updated by the file input, the tag select and the submit button. */
module UploadCard {
  import opened Types

  /** The part of a browser File the card looks at. */
  datatype FileRef = FileRef(name: string, mimeType: string)

  /** String.startsWith, character by character. */
  function StartsWith(s: string, prefix: string): (b: bool)
    ensures b <==> |prefix| <= |s| && s[..|prefix|] == prefix
  {
    if prefix == [] then true
    else if s == [] then false
    else s[0] == prefix[0] && StartsWith(s[1..], prefix[1..])
  }

  /** Images get a preview; any other type (a PDF) does not. */
  predicate IsImage(f: FileRef) {
    StartsWith(f.mimeType, "image/")
  }

  /** The values of the tag select's four options. */
  const TagOptions: seq<string> := ["purchase", "sales", "expense", "import"]

  /** The select offers exactly the four document tags, in declaration order. */
  lemma TagOptionsAreTags()
    ensures |TagOptions| == |AllTags|
    ensures forall i :: 0 <= i < |TagOptions| ==> ParseTag(TagOptions[i]) == Some(AllTags[i])
    ensures forall t: DocumentTag :: TagName(t) in TagOptions
  {
  }

  class UploadCardState {
    var selectedFile: Option<FileRef>
    var selectedTag: DocumentTag
    var preview: string

    /** A fresh card: no file, the purchase tag, no preview. */
    constructor ()
      ensures selectedFile == None && selectedTag == Purchase && preview == ""
    {
      selectedFile := None;
      selectedTag := Purchase;
      preview := "";
    }

    /** The submit button is disabled exactly while no file is chosen. */
    predicate SubmitDisabled()
      reads this
    {
      selectedFile.None?
    }

    /** The file input's change event. Choosing nothing changes nothing; choosing a
        file selects it and clears the preview unless it is an image, whose preview
        is only filled in when its read completes (`PreviewLoaded`), so until then
        the previous preview stays. */
    method FileChange(chosen: Option<FileRef>)
      modifies this
      ensures chosen.None? ==> selectedFile == old(selectedFile) && preview == old(preview)
      ensures chosen.Some? ==> selectedFile == chosen
      ensures chosen.Some? && !IsImage(chosen.value) ==> preview == ""
      ensures chosen.Some? && IsImage(chosen.value) ==> preview == old(preview)
      ensures selectedTag == old(selectedTag)
    {
      if chosen.Some? {
        selectedFile := chosen;
        if !IsImage(chosen.value) {
          preview := "";
        }
      }
    }

    /** The reader's completion callback: the data URL becomes the preview. */
    method PreviewLoaded(dataUrl: string)
      modifies this
      ensures preview == dataUrl
      ensures selectedFile == old(selectedFile) && selectedTag == old(selectedTag)
    {
      preview := dataUrl;
    }

    /** The tag select's change event. */
    method SelectTag(t: DocumentTag)
      modifies this
      ensures selectedTag == t
      ensures selectedFile == old(selectedFile) && preview == old(preview)
    {
      selectedTag := t;
    }

    /** The form's submit: with no file, nothing happens; otherwise the file and tag
        are handed to the upload callback once (returned here) and the card is reset
        to its initial state. */
    method Submit() returns (uploaded: Option<(FileRef, DocumentTag)>)
      modifies this
      ensures uploaded.None? <==> old(SubmitDisabled())
      ensures old(selectedFile).None? ==>
        uploaded.None? && selectedFile == old(selectedFile) && selectedTag == old(selectedTag)
        && preview == old(preview)
      ensures old(selectedFile).Some? ==>
        uploaded == Some((old(selectedFile).value, old(selectedTag)))
        && selectedFile == None && selectedTag == Purchase && preview == ""
    {
      uploaded := None;
      if selectedFile.Some? {
        uploaded := Some((selectedFile.value, selectedTag));
        selectedFile := None;
        preview := "";
        selectedTag := Purchase;
      }
    }
  }

  /** A PDF never gets a preview, and an image type does. */
  lemma ImageTypes()
    ensures !IsImage(FileRef("invoice.pdf", "application/pdf"))
    ensures IsImage(FileRef("bill.png", "image/png"))
  {
    assert "application/pdf"[..6] != "image/" by {
      assert "application/pdf"[0] == 'a';
    }
    assert "image/png"[..6] == "image/";
  }

  /** Choose a file, then submit: exactly that file goes up with the tag chosen before
      it, and the card is back in its initial state, its submit button disabled. */
  method ChooseAndSubmit(card: UploadCardState, f: FileRef, t: DocumentTag)
    returns (uploaded: Option<(FileRef, DocumentTag)>)
    modifies card
    ensures uploaded == Some((f, t))
    ensures card.selectedFile == None && card.selectedTag == Purchase && card.preview == ""
    ensures card.SubmitDisabled()
  {
    card.SelectTag(t);
    card.FileChange(Some(f));
    uploaded := card.Submit();
  }
}
