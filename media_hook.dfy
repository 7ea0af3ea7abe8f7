/**
 * The media upload hook behind the post forms: the list of uploaded images
 * with its size limit, the single video slot, removal by position and the
 * preview URLs. The file pickers that run the uploads are outside the model;
 * their callbacks are the methods here.
 */
module MediaHook {
  import opened Wrappers
  import opened Text
  import opened MediaUpload

  const DefaultMaxImages: nat := 10
  const DefaultEnableVideo: bool := true

  const LimitHead: string := "이미지는 최대 "
  const LimitMiddle: string := "장까지 업로드할 수 있습니다. (현재 "
  const LimitTail: string := "장)"

  /** The toast shown when a batch would exceed the limit. */
  function LimitMessage(max: nat, current: nat): (r: string)
    ensures LimitHead <= r && |r| >= |LimitHead| + |LimitMiddle| + |LimitTail| + 2
    ensures r[|r| - |LimitTail|..] == LimitTail
  {
    LimitHead + Decimal(max) + LimitMiddle + Decimal(current) + LimitTail
  }

  /**
   * The message writes the limit and the current count out in decimal at
   * fixed places, so both can be read back from it.
   */
  lemma LimitMessageNumbers(max: nat, current: nat)
    ensures var m := LimitMessage(max, current);
      var a := |LimitHead|;
      var b := a + |Decimal(max)| + |LimitMiddle|;
      && m[..a] == LimitHead
      && m[a..a + |Decimal(max)|] == Decimal(max)
      && m[b..b + |Decimal(current)|] == Decimal(current)
      && DigitsValue(Decimal(max)) == max && DigitsValue(Decimal(current)) == current
  {
    NumbersAt(LimitHead, LimitMiddle, LimitTail, Decimal(max), Decimal(current));
    DecimalValue(max);
    DecimalValue(current);
  }

  /** Two texts written between fixed texts sit at fixed positions. */
  lemma NumbersAt(head: string, middle: string, tail: string, dx: string, dy: string)
    ensures var m := head + dx + middle + dy + tail;
      var a := |head|;
      var b := a + |dx| + |middle|;
      && m[..a] == head
      && m[a..a + |dx|] == dx
      && m[b..b + |dy|] == dy
  {
    var m := head + dx + middle + dy + tail;
    var a := |head|;
    var b := a + |dx| + |middle|;
    SliceOfPrefix(head + dx + middle + dy, tail, a, a + |dx|);
    SliceOfPrefix(head + dx + middle, dy, a, a + |dx|);
    SliceOfPrefix(head + dx, middle, a, a + |dx|);
    assert (head + dx)[a..a + |dx|] == dx;
    SliceOfPrefix(head + dx + middle + dy, tail, b, b + |dy|);
    assert (head + dx + middle + dy)[b..b + |dy|] == dy;
    SliceOfPrefix(head + dx + middle + dy, tail, 0, a);
    SliceOfPrefix(head + dx + middle, dy, 0, a);
    SliceOfPrefix(head + dx, middle, 0, a);
    assert (head + dx)[0..a] == head;
    assert m[..a] == m[0..a];
  }

  /** A slice that lies inside the first part of a concatenation. */
  lemma SliceOfPrefix(p: string, q: string, i: nat, j: nat)
    requires i <= j <= |p|
    ensures (p + q)[i..j] == p[i..j]
  {
  }

  /** `imageInfos.filter((_, i) => i !== index)`, position by position from `k`. */
  function KeepOthers(s: seq<MediaInfo>, index: int, k: nat): seq<MediaInfo>
    requires k <= |s|
    decreases |s| - k
  {
    if k == |s| then []
    else (if k != index then [s[k]] else []) + KeepOthers(s, index, k + 1)
  }

  /** `removeImage`'s filter: one entry fewer for an index in range, the same count otherwise. */
  function RemoveImageAt(s: seq<MediaInfo>, index: int): (r: seq<MediaInfo>)
    ensures 0 <= index < |s| ==> |r| == |s| - 1
    ensures !(0 <= index < |s|) ==> |r| == |s|
  {
    KeepOthersFrom(s, index, 0);
    KeepOthers(s, index, 0)
  }

  lemma {:induction false} KeepOthersFrom(s: seq<MediaInfo>, index: int, k: nat)
    requires k <= |s|
    ensures index < k || index >= |s| ==> KeepOthers(s, index, k) == s[k..]
    ensures k <= index < |s| ==> KeepOthers(s, index, k) == s[k..index] + s[index + 1..]
    decreases |s| - k
  {
    if k < |s| {
      KeepOthersFrom(s, index, k + 1);
      assert s[k..] == [s[k]] + s[k + 1..];
      if k < index < |s| {
        assert s[k..index] == [s[k]] + s[k + 1..index];
      }
    }
  }

  /** Removal deletes exactly position `index` and keeps the rest in order; any other index changes nothing. */
  lemma RemoveImageMeaning(s: seq<MediaInfo>, index: int)
    ensures 0 <= index < |s| ==> RemoveImageAt(s, index) == s[..index] + s[index + 1..]
    ensures !(0 <= index < |s|) ==> RemoveImageAt(s, index) == s
  {
    KeepOthersFrom(s, index, 0);
    assert s[0..] == s;
    if 0 <= index < |s| {
      assert s[0..index] == s[..index];
    }
  }

  /** The preview URLs: each info's URL, in order. */
  function Previews(infos: seq<MediaInfo>): (r: seq<string>)
    ensures |r| == |infos|
    ensures forall i :: 0 <= i < |infos| ==> r[i] == infos[i].presignedUrl
  {
    if infos == [] then [] else [infos[0].presignedUrl] + Previews(infos[1..])
  }

  /** The hook's state. */
  class MediaUploader {
    var imageInfos: seq<MediaInfo>
    var videoInfo: Option<MediaInfo>
    const maxImages: nat
    const enableVideo: bool

    /**
     * The image list holds no more than the limit. The pickers keep this;
     * only a direct `setImageInfos` can break it.
     */
    ghost predicate Valid()
      reads this
    {
      |imageInfos| <= maxImages
    }

    /** Options left out take their defaults: ten images, video enabled. */
    constructor(maxImagesOption: Option<nat>, enableVideoOption: Option<bool>)
      ensures Valid()
      ensures imageInfos == [] && videoInfo == None
      ensures maxImages == maxImagesOption.GetOr(DefaultMaxImages)
      ensures enableVideo == enableVideoOption.GetOr(DefaultEnableVideo)
    {
      maxImages := maxImagesOption.GetOr(DefaultMaxImages);
      enableVideo := enableVideoOption.GetOr(DefaultEnableVideo);
      imageInfos := [];
      videoInfo := None;
    }

    /** Whether the hook offers a video picker at all. */
    predicate HasVideoPicker()
      reads this
    {
      enableVideo
    }

    /**
     * The image picker's callback: a batch that would take the list over the
     * limit is refused whole with the limit message; otherwise it is appended
     * after the images already there, in order.
     */
    method OnImagesUploaded(uploaded: seq<MediaInfo>) returns (error: Option<string>)
      modifies this
      ensures error == None ==> Valid()
      ensures |old(imageInfos)| + |uploaded| > maxImages ==>
        error == Some(LimitMessage(maxImages, |old(imageInfos)|)) && imageInfos == old(imageInfos)
      ensures |old(imageInfos)| + |uploaded| <= maxImages ==>
        error == None && imageInfos == old(imageInfos) + uploaded
      ensures videoInfo == old(videoInfo)
    {
      var currentLength := |imageInfos|;
      var newTotal := currentLength + |uploaded|;
      if newTotal > maxImages {
        return Some(LimitMessage(maxImages, currentLength));
      }
      imageInfos := imageInfos + uploaded;
      error := None;
    }

    /** The video picker's callback: the upload takes the single video slot. */
    method OnVideoUploaded(uploaded: MediaInfo)
      requires HasVideoPicker()
      modifies this
      ensures videoInfo == Some(uploaded) && imageInfos == old(imageInfos)
    {
      videoInfo := Some(uploaded);
    }

    /** `removeImage`. */
    method RemoveImage(index: int)
      modifies this
      ensures old(Valid()) ==> Valid()
      ensures imageInfos == RemoveImageAt(old(imageInfos), index)
      ensures videoInfo == old(videoInfo)
    {
      RemoveImageMeaning(imageInfos, index);
      imageInfos := RemoveImageAt(imageInfos, index);
    }

    /** `setImageInfos`: the list is replaced as given, with no limit check. */
    method SetImageInfos(infos: seq<MediaInfo>)
      modifies this
      ensures imageInfos == infos && videoInfo == old(videoInfo)
      ensures Valid() <==> |infos| <= maxImages
    {
      imageInfos := infos;
    }

    /** `imagePreviews`. */
    function ImagePreviews(): (r: seq<string>)
      reads this
      ensures |r| == |imageInfos|
    {
      Previews(imageInfos)
    }
  }
}
