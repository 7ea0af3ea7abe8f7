/**
 * The liked-vouchers screen: an infinite list of pages of vouchers the member
 * liked, and the optimistic like and unlike handlers. A handler marks the
 * voucher in the cached pages at once, keeps the voucher's id in an in-flight
 * set while the request runs, and on failure puts the saved original back.
 *
 * Each handler is split at its `await`: `Begin…` is the part that runs on the
 * click, `Finish` the part that runs when the request settles.
 */
module LikedVouchers {
  import opened Wrappers
  import opened VoucherApi

  /** A liked voucher as the server lists it: the voucher plus its like state. */
  datatype LikedVoucher = LikedVoucher(item: VoucherItem, myLike: bool, likeCnt: int)

  /** One page of the liked list (the other paging fields are carried along untouched). */
  datatype LikedPage = LikedPage(content: seq<LikedVoucher>, number: nat, last: bool)

  const LikedPageSize: nat := 10

  /** The error toasts shown when a like or an unlike request fails. */
  const LikeFailedToast := "좋아요에 실패했습니다."
  const UnlikeFailedToast := "좋아요 취소에 실패했습니다."

  /** `getNextPageParam`: no next page after the last one, else the next number. */
  function NextPageParam(lastPage: LikedPage): (r: Option<nat>)
    ensures r.None? <==> lastPage.last
    ensures r.Some? ==> r.value == lastPage.number + 1
  {
    if lastPage.last then None else Some(lastPage.number + 1)
  }

  /** The optimistic like: marked as liked, one more like. */
  function Liked(v: LikedVoucher): (r: LikedVoucher)
    ensures r.(myLike := v.myLike, likeCnt := v.likeCnt) == v
    ensures r.myLike && r.likeCnt == v.likeCnt + 1
  {
    v.(myLike := true, likeCnt := v.likeCnt + 1)
  }

  /** The optimistic unlike: not liked, one like fewer but never below zero. */
  function Unliked(v: LikedVoucher): (r: LikedVoucher)
    ensures r.likeCnt >= 0
  {
    v.(myLike := false, likeCnt := if 0 < v.likeCnt - 1 then v.likeCnt - 1 else 0)
  }

  /** Unliking right after a like gives back the like count, for any count that is not negative. */
  lemma UnlikeUndoesLike(v: LikedVoucher)
    requires v.likeCnt >= 0
    ensures Unliked(Liked(v)) == v.(myLike := false)
  {
  }

  /** One page's content with `f` applied to every voucher with the id. */
  function UpdateContent(c: seq<LikedVoucher>, id: int, f: LikedVoucher -> LikedVoucher): (r: seq<LikedVoucher>)
    ensures |r| == |c|
  {
    seq(|c|, j requires 0 <= j < |c| => if c[j].item.id == id then f(c[j]) else c[j])
  }

  /** Every page with `f` applied to every voucher with the id. */
  function UpdatePages(pages: seq<LikedPage>, id: int, f: LikedVoucher -> LikedVoucher): (r: seq<LikedPage>)
    ensures |r| == |pages|
  {
    seq(|pages|, i requires 0 <= i < |pages| => pages[i].(content := UpdateContent(pages[i].content, id, f)))
  }

  /** `setQueryData` with an updater that leaves absent data absent. */
  function UpdateData(data: Option<seq<LikedPage>>, id: int, f: LikedVoucher -> LikedVoucher)
    : (r: Option<seq<LikedPage>>)
    ensures r.None? <==> data.None?
  {
    match data
    case None => None
    case Some(pages) => Some(UpdatePages(pages, id, f))
  }

  /**
   * An update by id touches exactly the vouchers with that id: the page
   * count, every page's length, number and last flag stay, and every other
   * voucher is unchanged.
   */
  lemma UpdateShape(pages: seq<LikedPage>, id: int, f: LikedVoucher -> LikedVoucher)
    ensures var r := UpdatePages(pages, id, f);
      && |r| == |pages|
      && (forall i :: 0 <= i < |pages| ==>
            && |r[i].content| == |pages[i].content|
            && r[i].number == pages[i].number && r[i].last == pages[i].last)
      && (forall i, j :: 0 <= i < |pages| && 0 <= j < |pages[i].content| ==>
            r[i].content[j] == if pages[i].content[j].item.id == id then f(pages[i].content[j]) else pages[i].content[j])
  {
  }

  /** After a like, every copy of the voucher is liked with one more like, and nothing else moved. */
  lemma LikeEffect(pages: seq<LikedPage>, id: int, i: nat, j: nat)
    requires i < |pages| && j < |pages[i].content|
    ensures var v := pages[i].content[j];
      var w := UpdatePages(pages, id, Liked)[i].content[j];
      && (v.item.id == id ==> w.myLike && w.likeCnt == v.likeCnt + 1 && w.item == v.item)
      && (v.item.id != id ==> w == v)
  {
    var v := pages[i].content[j];
    assert UpdatePages(pages, id, Liked)[i].content == UpdateContent(pages[i].content, id, Liked);
    assert UpdateContent(pages[i].content, id, Liked)[j] == if v.item.id == id then Liked(v) else v;
  }

  /** After an unlike, every copy of the voucher is unliked with max(0, likeCnt - 1) likes. */
  lemma UnlikeEffect(pages: seq<LikedPage>, id: int, i: nat, j: nat)
    requires i < |pages| && j < |pages[i].content|
    ensures var v := pages[i].content[j];
      var w := UpdatePages(pages, id, Unliked)[i].content[j];
      && (v.item.id == id ==> !w.myLike && w.likeCnt == (if v.likeCnt >= 1 then v.likeCnt - 1 else 0) && w.item == v.item)
      && (v.item.id != id ==> w == v)
  {
    var v := pages[i].content[j];
    assert UpdatePages(pages, id, Unliked)[i].content == UpdateContent(pages[i].content, id, Unliked);
    assert UpdateContent(pages[i].content, id, Unliked)[j] == if v.item.id == id then Unliked(v) else v;
  }

  /** `content.find`: the first voucher of a page with the id. */
  function FirstInPage(c: seq<LikedVoucher>, id: int): Option<LikedVoucher>
  {
    if c == [] then None
    else if c[0].item.id == id then Some(c[0])
    else FirstInPage(c[1..], id)
  }

  /** The first voucher with the id, scanning pages in order. */
  function FirstWithId(pages: seq<LikedPage>, id: int): Option<LikedVoucher>
  {
    if pages == [] then None
    else match FirstInPage(pages[0].content, id)
      case Some(v) => Some(v)
      case None => FirstWithId(pages[1..], id)
  }

  /** Whether a voucher with the id sits at page `i`, position `j`. */
  predicate At(pages: seq<LikedPage>, id: int, i: int, j: int)
  {
    0 <= i < |pages| && 0 <= j < |pages[i].content| && pages[i].content[j].item.id == id
  }

  lemma {:induction false} FirstInPageMeaning(c: seq<LikedVoucher>, id: int)
    ensures FirstInPage(c, id).None? <==> forall j :: 0 <= j < |c| ==> c[j].item.id != id
    ensures FirstInPage(c, id).Some? ==>
      exists j :: 0 <= j < |c| && c[j] == FirstInPage(c, id).value && c[j].item.id == id
        && forall k :: 0 <= k < j ==> c[k].item.id != id
  {
    if c != [] && c[0].item.id != id {
      FirstInPageMeaning(c[1..], id);
      if FirstInPage(c, id).Some? {
        var j :| 0 <= j < |c[1..]| && c[1..][j] == FirstInPage(c, id).value && c[1..][j].item.id == id
          && forall k :: 0 <= k < j ==> c[1..][k].item.id != id;
        assert c[j + 1] == c[1..][j];
        assert forall k :: 1 <= k < j + 1 ==> c[k] == c[1..][k - 1];
      }
    }
  }

  /**
   * The saved original is the first voucher with the id in page order: it is
   * absent exactly when no page holds the id, and otherwise it sits at a
   * position with no copy of the id on any earlier page or earlier in its page.
   */
  lemma {:induction false} FirstWithIdMeaning(pages: seq<LikedPage>, id: int)
    ensures FirstWithId(pages, id).None? <==> forall i, j :: !At(pages, id, i, j)
    ensures FirstWithId(pages, id).Some? ==>
      exists i, j :: At(pages, id, i, j) && pages[i].content[j] == FirstWithId(pages, id).value
        && (forall i0, j0 :: 0 <= i0 < i ==> !At(pages, id, i0, j0))
        && (forall j0 :: 0 <= j0 < j ==> !At(pages, id, i, j0))
    decreases |pages|, 1
  {
    if pages != [] {
      FirstInPageMeaning(pages[0].content, id);
      if FirstInPage(pages[0].content, id).None? {
        FirstWithIdSkip(pages, id);
      } else {
        var j :| 0 <= j < |pages[0].content| && pages[0].content[j] == FirstWithId(pages, id).value
          && pages[0].content[j].item.id == id && forall k :: 0 <= k < j ==> pages[0].content[k].item.id != id;
        assert At(pages, id, 0, j);
      }
    }
  }

  /** When the first page has no voucher with the id, the search is the search of the later pages, one page on. */
  lemma {:induction false} FirstWithIdSkip(pages: seq<LikedPage>, id: int)
    requires pages != [] && forall j :: !At(pages, id, 0, j)
    ensures FirstWithId(pages, id) == FirstWithId(pages[1..], id)
    ensures FirstWithId(pages, id).None? <==> forall i, j :: !At(pages, id, i, j)
    ensures FirstWithId(pages, id).Some? ==>
      exists i, j :: At(pages, id, i, j) && pages[i].content[j] == FirstWithId(pages, id).value
        && (forall i0, j0 :: 0 <= i0 < i ==> !At(pages, id, i0, j0))
        && (forall j0 :: 0 <= j0 < j ==> !At(pages, id, i, j0))
    decreases |pages|, 0
  {
    FirstInPageMeaning(pages[0].content, id);
    if FirstInPage(pages[0].content, id).Some? {
      var j :| 0 <= j < |pages[0].content| && pages[0].content[j] == FirstInPage(pages[0].content, id).value
        && pages[0].content[j].item.id == id;
      assert At(pages, id, 0, j);
    }
    var rest := pages[1..];
    FirstWithIdMeaning(rest, id);
    assert forall i, j :: 1 <= i ==> (At(pages, id, i, j) <==> At(rest, id, i - 1, j));
    if FirstWithId(pages, id).Some? {
      var i, j :| At(rest, id, i, j) && rest[i].content[j] == FirstWithId(rest, id).value
        && (forall i0, j0 :: 0 <= i0 < i ==> !At(rest, id, i0, j0))
        && (forall j0 :: 0 <= j0 < j ==> !At(rest, id, i, j0));
      assert At(pages, id, i + 1, j);
      forall i0, j0 | 0 <= i0 < i + 1
        ensures !At(pages, id, i0, j0)
      {
        if i0 > 0 {
          assert !At(rest, id, i0 - 1, j0);
        }
      }
      var i1 := i + 1;
      forall j0 | 0 <= j0 < j
        ensures !At(pages, id, i1, j0)
      {
        assert !At(rest, id, i, j0);
      }
    } else {
      forall i, j
        ensures !At(pages, id, i, j)
      {
        if i > 0 {
          assert !At(rest, id, i - 1, j);
        }
      }
    }
  }

  /**
   * The original-voucher scan: pages in order, the first page whose `find`
   * returns a voucher ends the loop.
   */
  method FindOriginal(pages: seq<LikedPage>, id: int) returns (found: Option<LikedVoucher>)
    ensures found == FirstWithId(pages, id)
  {
    found := None;
    var p := 0;
    while p < |pages|
      invariant 0 <= p <= |pages|
      invariant FirstWithId(pages, id) == FirstWithId(pages[p..], id)
    {
      assert pages[p..][0] == pages[p] && pages[p..][1..] == pages[p + 1..];
      var hit := FirstInPage(pages[p].content, id);
      if hit.Some? {
        found := hit;
        return;
      }
      p := p + 1;
    }
  }

  /** All copies of the voucher are the same value. */
  ghost predicate Uniform(pages: seq<LikedPage>, id: int, v: LikedVoucher)
  {
    forall i, j :: At(pages, id, i, j) ==> pages[i].content[j] == v
  }

  /**
   * A rollback right after an optimistic update gives the pages back, as
   * long as every copy of the voucher was equal to the saved original.
   */
  lemma RollbackUndoes(pages: seq<LikedPage>, id: int, f: LikedVoucher -> LikedVoucher)
    requires FirstWithId(pages, id).Some?
    requires Uniform(pages, id, FirstWithId(pages, id).value)
    requires forall v :: f(v).item == v.item
    ensures var original := FirstWithId(pages, id).value;
      UpdatePages(UpdatePages(pages, id, f), id, _ => original) == pages
  {
    var original := FirstWithId(pages, id).value;
    var once := UpdatePages(pages, id, f);
    var back := UpdatePages(once, id, _ => original);
    forall i | 0 <= i < |pages|
      ensures back[i] == pages[i]
    {
      forall j | 0 <= j < |pages[i].content|
        ensures back[i].content[j] == pages[i].content[j]
      {
        var v := pages[i].content[j];
        assert once[i].content == UpdateContent(pages[i].content, id, f);
        assert back[i].content == UpdateContent(once[i].content, id, _ => original);
        if v.item.id == id {
          assert At(pages, id, i, j);
          assert once[i].content[j] == f(v);
        } else {
          assert once[i].content[j] == v;
        }
      }
    }
  }

  /** What the click did: nothing (already in flight), or started with the saved original. */
  datatype Started = AlreadyInFlight | Started(original: Option<LikedVoucher>)

  /** The cached liked pages and the ids with a request in flight. */
  class LikedList {
    var data: Option<seq<LikedPage>>
    var likingIds: set<int>

    constructor()
      ensures data == None && likingIds == {}
    {
      data := None;
      likingIds := {};
    }

    /** The saved original for `id` in the cached pages, if any. */
    function Original(id: int): Option<LikedVoucher>
      reads this
    {
      match data
      case None => None
      case Some(pages) => FirstWithId(pages, id)
    }

    /**
     * The click part of like (`f` is `Liked`) and unlike (`f` is `Unliked`):
     * a click on an id in flight does nothing; otherwise the id joins the
     * in-flight set, the first copy is saved and every copy is updated.
     */
    method Begin(id: int, f: LikedVoucher -> LikedVoucher) returns (s: Started)
      modifies this
      ensures old(id in likingIds) ==> s == AlreadyInFlight && data == old(data) && likingIds == old(likingIds)
      ensures old(id !in likingIds) ==>
        && s == Started(old(Original(id)))
        && data == UpdateData(old(data), id, f)
        && likingIds == old(likingIds) + {id}
    {
      if id in likingIds {
        return AlreadyInFlight;
      }
      likingIds := likingIds + {id};
      var original: Option<LikedVoucher> := None;
      if data.Some? {
        original := FindOriginal(data.value, id);
      }
      data := UpdateData(data, id, f);
      s := Started(original);
    }

    method BeginLike(id: int) returns (s: Started)
      modifies this
      ensures old(id in likingIds) ==> s == AlreadyInFlight && data == old(data) && likingIds == old(likingIds)
      ensures old(id !in likingIds) ==>
        s == Started(old(Original(id))) && data == UpdateData(old(data), id, Liked) && likingIds == old(likingIds) + {id}
    {
      s := Begin(id, Liked);
    }

    method BeginUnlike(id: int) returns (s: Started)
      modifies this
      ensures old(id in likingIds) ==> s == AlreadyInFlight && data == old(data) && likingIds == old(likingIds)
      ensures old(id !in likingIds) ==>
        s == Started(old(Original(id))) && data == UpdateData(old(data), id, Unliked) && likingIds == old(likingIds) + {id}
    {
      s := Begin(id, Unliked);
    }

    /**
     * The settle part: on failure every copy of the voucher is put back to
     * the saved original (nothing when none was saved); on every path the id
     * leaves the in-flight set. A failure also yields the error toast of the
     * request that failed (`liking` tells a like from an unlike).
     */
    method Finish(id: int, original: Option<LikedVoucher>, succeeded: bool, liking: bool)
      returns (toast: Option<string>)
      modifies this
      ensures likingIds == old(likingIds) - {id}
      ensures succeeded || original.None? ==> data == old(data)
      ensures !succeeded && original.Some? ==> data == UpdateData(old(data), id, _ => original.value)
      ensures toast.Some? <==> !succeeded
      ensures !succeeded ==> toast == Some(if liking then LikeFailedToast else UnlikeFailedToast)
    {
      toast := None;
      if !succeeded {
        if original.Some? {
          var o := original.value;
          data := UpdateData(data, id, _ => o);
        }
        toast := Some(if liking then LikeFailedToast else UnlikeFailedToast);
      }
      likingIds := likingIds - {id};
    }
  }
}
