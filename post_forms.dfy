/**
 * The community post forms: the edit form, which validates the trimmed text
 * against a length window and sends it with the post's images, and the write
 * form, which only refuses blank text and sends the text as typed. The
 * network call behind each submit is a parameter: whether it succeeded.
 */
module PostForms {
  import opened Wrappers
  import opened Text
  import opened MediaUpload
  import opened MediaHook

  const MinContentLength: nat := 10
  const MaxContentLength: nat := 200
  const EditMaxImages: nat := 10

  const EmptyMessage: string := "내용을 입력해주세요."
  const TooShortMessage: string := "내용은 최소 10글자 이상 입력해주세요."
  const TooLongMessage: string := "내용은 최대 200글자까지 입력 가능합니다."
  const UpdatedMessage: string := "게시글이 수정되었습니다."
  const UpdateFailedMessage: string := "글 수정에 실패했습니다."
  const WriteFailedMessage: string := "글 작성에 실패했습니다."

  /** The edit form's verdict on the text, checks taken in the form's order. */
  datatype EditVerdict = Empty | TooShort | TooLong | Accepted(content: string)

  /**
   * The edit form accepts exactly the texts whose trimmed form has 10 to 200
   * characters, and sends that trimmed form; a blank text is reported as
   * empty before any length check.
   */
  function CheckEdit(content: string): (r: EditVerdict)
    ensures r == Empty <==> IsBlank(content)
    ensures r == TooShort <==> 0 < |Trim(content)| < MinContentLength
    ensures r == TooLong <==> |Trim(content)| > MaxContentLength
    ensures r.Accepted? <==> MinContentLength <= |Trim(content)| <= MaxContentLength
    ensures r.Accepted? ==> r.content == Trim(content)
  {
    TrimBlank(content);
    var trimmed := Trim(content);
    if trimmed == [] then Empty
    else if |trimmed| < MinContentLength then TooShort
    else if |trimmed| > MaxContentLength then TooLong
    else Accepted(trimmed)
  }

  /** The error toast for a refused edit. */
  function VerdictMessage(v: EditVerdict): (r: Option<string>)
    ensures r.None? <==> v.Accepted?
    ensures r.Some? ==> r.value != ""
  {
    match v
    case Empty => Some(EmptyMessage)
    case TooShort => Some(TooShortMessage)
    case TooLong => Some(TooLongMessage)
    case Accepted(_) => None
  }

  /** Validation looks only at the trimmed text: trimming first changes no verdict. */
  lemma CheckEditAfterTrim(content: string)
    ensures CheckEdit(Trim(content)) == CheckEdit(content)
  {
    TrimIdempotent(content);
    TrimBlank(content);
    TrimBlank(Trim(content));
  }

  /** The text an accepted edit sends is within the window and carries no outer whitespace. */
  lemma AcceptedContentShape(content: string)
    requires CheckEdit(content).Accepted?
    ensures var c := CheckEdit(content).content;
      && MinContentLength <= |c| <= MaxContentLength
      && !IsSpace(c[0]) && !IsSpace(c[|c| - 1])
      && Trim(c) == c
  {
    TrimIdempotent(content);
  }

  /** The post's stored image URLs as media entries, numbered by position. */
  function ExistingImages(urls: seq<string>): (r: seq<MediaInfo>)
    ensures |r| == |urls|
    ensures forall i :: 0 <= i < |urls| ==> r[i] == MediaInfo(i, urls[i])
  {
    seq(|urls|, i requires 0 <= i < |urls| => MediaInfo(i, urls[i]))
  }

  /** The previews of the imported images are the stored URLs themselves. */
  lemma ExistingImagesPreview(urls: seq<string>)
    ensures Previews(ExistingImages(urls)) == urls
  {
    var p := Previews(ExistingImages(urls));
    assert |p| == |urls|;
    assert forall i :: 0 <= i < |urls| ==> p[i] == urls[i];
  }

  /** What the update call receives. */
  datatype UpdateRequest = UpdateRequest(postId: int, content: string, mediaInfos: seq<MediaInfo>)

  /** How a submit of the edit form ends. */
  datatype EditOutcome =
    | Refused(message: string)
    | Updated(request: UpdateRequest)
    | UpdateFailed(request: UpdateRequest)
  {
    /** The toast the form shows for this outcome, and whether it is an error. */
    function Toast(): (bool, string)
    {
      match this
      case Refused(m) => (true, m)
      case Updated(_) => (false, UpdatedMessage)
      case UpdateFailed(_) => (true, UpdateFailedMessage)
    }

    /** Whether the form asks its parent to close. */
    predicate Closes()
    {
      Updated?
    }
  }

  /** The edit form's state: the text being edited, the submit flag and the image list of its upload hook. */
  class PostEditor {
    const postId: int
    const postContent: string
    const media: MediaUploader
    var content: string
    var isSubmitting: bool

    /** The form opens on the post's text with an empty image list limited to ten. */
    constructor(postId: int, postContent: string)
      ensures this.postId == postId && this.postContent == postContent
      ensures content == postContent && !isSubmitting
      ensures fresh(media) && media.imageInfos == [] && media.maxImages == EditMaxImages
    {
      this.postId := postId;
      this.postContent := postContent;
      media := new MediaUploader(Some(EditMaxImages), None);
      content := postContent;
      isSubmitting := false;
    }

    /** The import effect: a post with stored images replaces the list; one without leaves it. */
    method ImportExisting(imageUrls: seq<string>)
      modifies media
      ensures |imageUrls| > 0 ==> media.imageInfos == ExistingImages(imageUrls)
      ensures |imageUrls| == 0 ==> media.imageInfos == old(media.imageInfos)
      ensures media.videoInfo == old(media.videoInfo)
    {
      if |imageUrls| > 0 {
        media.SetImageInfos(ExistingImages(imageUrls));
      }
    }

    /** `handleClose`: the text goes back to the post's. */
    method Close()
      modifies this
      ensures content == postContent && isSubmitting == old(isSubmitting)
    {
      content := postContent;
    }

    /**
     * `handleUpdate`: a refused text leaves everything as it was; an accepted
     * one is sent trimmed with the current images, and on success the form
     * resets its text and closes. The submit flag ends down either way.
     */
    method Submit(succeeded: bool) returns (outcome: EditOutcome)
      modifies this
      ensures var v := CheckEdit(old(content));
        !v.Accepted? ==>
          && outcome == Refused(VerdictMessage(v).value)
          && content == old(content) && isSubmitting == old(isSubmitting)
      ensures var v := CheckEdit(old(content));
        v.Accepted? ==>
          var request := UpdateRequest(postId, Trim(old(content)), media.imageInfos);
          && outcome == (if succeeded then Updated(request) else UpdateFailed(request))
          && content == (if succeeded then postContent else old(content))
          && !isSubmitting
    {
      var verdict := CheckEdit(content);
      if !verdict.Accepted? {
        return Refused(VerdictMessage(verdict).value);
      }
      isSubmitting := true;
      var request := UpdateRequest(postId, verdict.content, media.imageInfos);
      if succeeded {
        outcome := Updated(request);
        Close();
      } else {
        outcome := UpdateFailed(request);
      }
      isSubmitting := false;
    }
  }

  /** How a submit of the write form ends. */
  datatype WriteOutcome = Blank | Posted(content: string) | PostFailed(content: string)

  /** The write form refuses only blank text. */
  function WriteAccepts(content: string): (b: bool)
    ensures b <==> !IsBlank(content)
  {
    TrimBlank(content);
    Trim(content) != []
  }

  /** Everything the edit form accepts the write form accepts too. */
  lemma EditStricterThanWrite(content: string)
    ensures CheckEdit(content).Accepted? ==> WriteAccepts(content)
  {
  }

  /** A one-letter post is accepted by the write form and refused by the edit form. */
  lemma WriteLooserThanEdit()
    ensures WriteAccepts("a") && CheckEdit("a") == TooShort
  {
    TrimUntrimmed("a");
  }

  /** The write form's state. */
  class PostWriter {
    var content: string
    var isSubmitting: bool

    constructor()
      ensures content == [] && !isSubmitting
    {
      content := [];
      isSubmitting := false;
    }

    /**
     * `handleSubmit`: blank text is refused with nothing else changed; other
     * text is sent exactly as typed, cleared on success and kept on failure;
     * the submit flag ends down.
     */
    method Submit(succeeded: bool) returns (outcome: WriteOutcome)
      modifies this
      ensures !WriteAccepts(old(content)) ==>
        outcome == Blank && content == old(content) && isSubmitting == old(isSubmitting)
      ensures WriteAccepts(old(content)) && succeeded ==>
        outcome == Posted(old(content)) && content == [] && !isSubmitting
      ensures WriteAccepts(old(content)) && !succeeded ==>
        outcome == PostFailed(old(content)) && content == old(content) && !isSubmitting
    {
      if !WriteAccepts(content) {
        return Blank;
      }
      isSubmitting := true;
      if succeeded {
        outcome := Posted(content);
        content := [];
      } else {
        outcome := PostFailed(content);
      }
      isSubmitting := false;
    }
  }

  /** The alert the write form shows for an outcome, if any. */
  function WriteAlert(o: WriteOutcome): (r: Option<string>)
    ensures r.None? <==> o.Posted?
    ensures r.Some? ==> r.value != ""
  {
    match o
    case Blank => Some(EmptyMessage)
    case Posted(_) => None
    case PostFailed(_) => Some(WriteFailedMessage)
  }
}
