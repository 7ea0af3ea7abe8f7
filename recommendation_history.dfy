/**
 * The recommendation history screen: past voucher recommendations, enriched
 * with the member's like state, the like and unlike handlers that update the
 * like state once the server has answered, and the small derived views (mood
 * tags, the number of workout videos).
 *
 * Each handler is split at its `await`: `Begin` runs on the click, `FinishLike`
 * and `FinishUnlike` when the request settles.
 */
module RecommendationHistory {
  import opened Wrappers
  import opened Text

  /** A recommended voucher. The like fields may be missing (None). */
  datatype RecVoucher = RecVoucher(id: int, name: string, myLike: Option<bool>, likeCnt: Option<int>)

  /** One past recommendation. */
  /** The error toasts of the screen: the history failed to load, a like failed, an unlike failed. */
  const LoadFailedToast := "추천 기록을 불러오는데 실패했습니다."
  const LikeFailedToast := "좋아요에 실패했습니다."
  const UnlikeFailedToast := "좋아요 취소에 실패했습니다."

  datatype Recommendation = Recommendation(id: int, moodTags: Option<string>, vouchers: Option<seq<RecVoucher>>)

  /** One entry of the member's liked-voucher list. */
  datatype LikedEntry = LikedEntry(id: int, likeCnt: Option<int>)

  /** One past home-workout recommendation; only its video lists matter here. */
  datatype Workout = Workout(warmupVideos: Option<seq<string>>, mainVideos: Option<seq<string>>,
                             coolDownVideos: Option<seq<string>>)

  // ---------------------------------------------------------------------------
  // Enrichment
  // ---------------------------------------------------------------------------

  function LikedIds(liked: seq<LikedEntry>): set<int>
  {
    set e | e in liked :: e.id
  }

  /** `likedVoucherLikeCntMap`: each id with a count, the later entry winning. */
  function LikeCntMap(liked: seq<LikedEntry>): map<int, int>
  {
    if liked == [] then map[]
    else
      var e := liked[|liked| - 1];
      var m := LikeCntMap(liked[..|liked| - 1]);
      if e.likeCnt.Some? then m[e.id := e.likeCnt.value] else m
  }

  /** The `forEach` that fills the count map. */
  method BuildLikeCntMap(liked: seq<LikedEntry>) returns (m: map<int, int>)
    ensures m == LikeCntMap(liked)
  {
    m := map[];
    for k := 0 to |liked|
      invariant m == LikeCntMap(liked[..k])
    {
      assert liked[..k + 1][..k] == liked[..k];
      var e := liked[k];
      if e.likeCnt.Some? {
        m := m[e.id := e.likeCnt.value];
      }
    }
    assert liked[..|liked|] == liked;
  }

  /**
   * An id has a count exactly when some entry with that id has one, and the
   * count is that of the last such entry.
   */
  lemma {:induction false} LikeCntMapMeaning(liked: seq<LikedEntry>, id: int)
    ensures id in LikeCntMap(liked) <==> exists k :: 0 <= k < |liked| && liked[k].id == id && liked[k].likeCnt.Some?
    ensures id in LikeCntMap(liked) ==>
      exists k :: 0 <= k < |liked| && liked[k].id == id && liked[k].likeCnt == Some(LikeCntMap(liked)[id])
        && forall k' :: k < k' < |liked| && liked[k'].id == id ==> liked[k'].likeCnt.None?
  {
    if liked != [] {
      var n := |liked| - 1;
      var init := liked[..n];
      LikeCntMapMeaning(init, id);
      assert forall k :: 0 <= k < n ==> liked[k] == init[k];
      var e := liked[n];
      if e.likeCnt.Some? && e.id == id {
        assert liked[n].likeCnt == Some(LikeCntMap(liked)[id]);
      } else if id in LikeCntMap(init) {
        var k :| 0 <= k < n && init[k].id == id && init[k].likeCnt == Some(LikeCntMap(init)[id])
          && forall k' :: k < k' < n && init[k'].id == id ==> init[k'].likeCnt.None?;
        assert liked[k] == init[k];
      }
    }
  }

  /** One voucher with the member's like state filled in. */
  function EnrichVoucher(v: RecVoucher, ids: set<int>, counts: map<int, int>): RecVoucher
  {
    var count := if v.likeCnt.Some? then v.likeCnt.value
                 else if v.id in counts then counts[v.id]
                 else 0;
    v.(myLike := Some(v.id in ids), likeCnt := Some(count))
  }

  function EnrichRecs(recs: seq<Recommendation>, ids: set<int>, counts: map<int, int>): (r: seq<Recommendation>)
    ensures |r| == |recs|
  {
    seq(|recs|, i requires 0 <= i < |recs| =>
      recs[i].(vouchers :=
        match recs[i].vouchers
        case None => None
        case Some(vs) => Some(seq(|vs|, j requires 0 <= j < |vs| => EnrichVoucher(vs[j], ids, counts)))))
  }

  /**
   * Enrichment: a voucher is liked exactly when the liked list holds its id;
   * its count is its own when present, else the liked list's count for that
   * id when there is one, else 0. Recommendations without a voucher list
   * stay without one.
   */
  lemma EnrichMeaning(recs: seq<Recommendation>, liked: seq<LikedEntry>, i: nat, j: nat)
    requires i < |recs|
    ensures var r := EnrichRecs(recs, LikedIds(liked), LikeCntMap(liked))[i];
      r.vouchers.None? <==> recs[i].vouchers.None?
    ensures var r := EnrichRecs(recs, LikedIds(liked), LikeCntMap(liked))[i];
      recs[i].vouchers.Some? && j < |recs[i].vouchers.value| ==>
        var v := recs[i].vouchers.value[j];
        var w := r.vouchers.value[j];
        && |r.vouchers.value| == |recs[i].vouchers.value|
        && w.id == v.id && w.name == v.name
        && (w.myLike == Some(true) <==> exists e :: e in liked && e.id == v.id)
        && w.myLike.Some?
        && (v.likeCnt.Some? ==> w.likeCnt == v.likeCnt)
        && (v.likeCnt.None? && (exists k :: 0 <= k < |liked| && liked[k].id == v.id && liked[k].likeCnt.Some?) ==>
              exists k :: 0 <= k < |liked| && liked[k].id == v.id && liked[k].likeCnt == w.likeCnt
                && forall k' :: k < k' < |liked| && liked[k'].id == v.id ==> liked[k'].likeCnt.None?)
        && (v.likeCnt.None? && (forall k :: 0 <= k < |liked| && liked[k].id == v.id ==> liked[k].likeCnt.None?) ==>
              w.likeCnt == Some(0))
  {
    if recs[i].vouchers.Some? && j < |recs[i].vouchers.value| {
      var v := recs[i].vouchers.value[j];
      LikeCntMapMeaning(liked, v.id);
      if v.id in LikedIds(liked) {
        var e :| e in liked && e.id == v.id;
      }
    }
  }

  /**
   * What the load effect stores as voucher data: the enriched list for a
   * signed-in member whose liked list loaded, the list as fetched otherwise
   * (also when the liked list failed to load).
   */
  function VoucherDataAfterLoad(signedIn: bool, vouchers: Option<seq<Recommendation>>,
                                liked: Option<seq<LikedEntry>>): (r: Option<seq<Recommendation>>)
    ensures !signedIn || vouchers.None? || liked.None? ==> r == vouchers
    ensures signedIn && vouchers.Some? && liked.Some? ==>
      r == Some(EnrichRecs(vouchers.value, LikedIds(liked.value), LikeCntMap(liked.value)))
  {
    if signedIn && vouchers.Some? then
      match liked
      case None => vouchers
      case Some(l) => Some(EnrichRecs(vouchers.value, LikedIds(l), LikeCntMap(l)))
    else vouchers
  }

  // ---------------------------------------------------------------------------
  // Like and unlike updates
  // ---------------------------------------------------------------------------

  /** `c || d` for a count that may be missing: a missing count and 0 both give `d`. */
  function OrDefault(c: Option<int>, d: int): int
  {
    if c.Some? && c.value != 0 then c.value else d
  }

  /** Liked, with `(likeCnt || 0) + 1` likes. */
  function Bumped(v: RecVoucher): (r: RecVoucher)
    ensures r.(myLike := v.myLike, likeCnt := v.likeCnt) == v
    ensures r.myLike == Some(true)
    ensures v.likeCnt.Some? && v.likeCnt.value != 0 ==> r.likeCnt == Some(v.likeCnt.value + 1)
    ensures v.likeCnt.None? || v.likeCnt == Some(0) ==> r.likeCnt == Some(1)
  {
    v.(myLike := Some(true), likeCnt := Some(OrDefault(v.likeCnt, 0) + 1))
  }

  /** Not liked, with `max((likeCnt || 1) - 1, 0)` likes. */
  function Dropped(v: RecVoucher): (r: RecVoucher)
    ensures r.likeCnt.Some? && r.likeCnt.value >= 0
  {
    var c := OrDefault(v.likeCnt, 1) - 1;
    v.(myLike := Some(false), likeCnt := Some(if c > 0 then c else 0))
  }

  /** A drop right after a bump gives the count back, for a present count that is not negative. */
  lemma DropUndoesBump(v: RecVoucher)
    requires v.likeCnt.Some? && v.likeCnt.value >= 0
    ensures Dropped(Bumped(v)) == v.(myLike := Some(false))
  {
  }

  /** A bump right after a drop gives the count back, for a present count of at least one. */
  lemma BumpUndoesDrop(v: RecVoucher)
    requires v.likeCnt.Some? && v.likeCnt.value >= 1
    ensures Bumped(Dropped(v)) == v.(myLike := Some(true))
  {
  }

  function UpdateVouchers(vs: seq<RecVoucher>, id: int, f: RecVoucher -> RecVoucher): (r: seq<RecVoucher>)
    ensures |r| == |vs|
  {
    seq(|vs|, j requires 0 <= j < |vs| => if vs[j].id == id then f(vs[j]) else vs[j])
  }

  /** `setVoucherData(prev => …)`: data that is not a list is left as it is. */
  function UpdateData(data: Option<seq<Recommendation>>, id: int, f: RecVoucher -> RecVoucher)
    : (r: Option<seq<Recommendation>>)
    ensures r.None? <==> data.None?
    ensures r.Some? ==> |r.value| == |data.value|
  {
    match data
    case None => None
    case Some(recs) =>
      Some(seq(|recs|, i requires 0 <= i < |recs| =>
        recs[i].(vouchers :=
          match recs[i].vouchers
          case None => None
          case Some(vs) => Some(UpdateVouchers(vs, id, f)))))
  }

  /** An update touches exactly the vouchers with the id, wherever they are listed. */
  lemma UpdateMeaning(recs: seq<Recommendation>, id: int, f: RecVoucher -> RecVoucher, i: nat, j: nat)
    requires i < |recs|
    ensures var r := UpdateData(Some(recs), id, f).value[i];
      && r.id == recs[i].id && r.moodTags == recs[i].moodTags
      && (r.vouchers.None? <==> recs[i].vouchers.None?)
      && (recs[i].vouchers.Some? ==> |r.vouchers.value| == |recs[i].vouchers.value|)
      && (recs[i].vouchers.Some? && j < |recs[i].vouchers.value| ==>
            var v := recs[i].vouchers.value[j];
            r.vouchers.value[j] == if v.id == id then f(v) else v)
  {
  }

  /** How a like or unlike request settled. */
  datatype Outcome =
    | Conflict        // 409: the server already had that state
    | RequestFailed   // the request failed or came back with another error status
    | Succeeded

  /** The voucher data after a like request settles, as the handler is written. */
  function SettleLike(data: Option<seq<Recommendation>>, id: int, outcome: Outcome): (r: Option<seq<Recommendation>>)
    ensures outcome != RequestFailed ==> r == SettleLikeIntended(data, id, outcome)
    ensures outcome == RequestFailed ==> r == UpdateData(data, id, Dropped)
  {
    match outcome
    case Conflict => data
    case Succeeded => UpdateData(data, id, Bumped)
    case RequestFailed => UpdateData(data, id, Dropped)
  }

  /** The voucher data after an unlike request settles, as the handler is written. */
  function SettleUnlike(data: Option<seq<Recommendation>>, id: int, outcome: Outcome): (r: Option<seq<Recommendation>>)
    ensures outcome != RequestFailed ==> r == SettleUnlikeIntended(data, id, outcome)
    ensures outcome == RequestFailed ==> r == UpdateData(data, id, Bumped)
  {
    match outcome
    case Conflict => data
    case Succeeded => UpdateData(data, id, Dropped)
    case RequestFailed => UpdateData(data, id, Bumped)
  }

  /**
   * The handlers update the data only after the server has answered, yet on
   * failure they still undo an update: a failed like takes a like away and a
   * failed unlike adds one, though nothing had been applied.
   */
  lemma FailedRequestsMoveCount()
    ensures var v := RecVoucher(7, "", Some(false), Some(5));
      SettleLike(Some([Recommendation(1, None, Some([v]))]), 7, RequestFailed)
        == Some([Recommendation(1, None, Some([v.(likeCnt := Some(4))]))])
    ensures var v := RecVoucher(7, "", Some(true), Some(5));
      SettleUnlike(Some([Recommendation(1, None, Some([v]))]), 7, RequestFailed)
        == Some([Recommendation(1, None, Some([v.(likeCnt := Some(6))]))])
  {
    var v := RecVoucher(7, "", Some(false), Some(5));
    assert UpdateVouchers([v], 7, Dropped) == [Dropped(v)];
    assert UpdateData(Some([Recommendation(1, None, Some([v]))]), 7, Dropped).value
      == [Recommendation(1, None, Some([Dropped(v)]))];
    var u := RecVoucher(7, "", Some(true), Some(5));
    assert UpdateVouchers([u], 7, Bumped) == [Bumped(u)];
    assert UpdateData(Some([Recommendation(1, None, Some([u]))]), 7, Bumped).value
      == [Recommendation(1, None, Some([Bumped(u)]))];
  }

  /** The like settle with the failure path leaving the data as it was. */
  function SettleLikeIntended(data: Option<seq<Recommendation>>, id: int, outcome: Outcome)
    : (r: Option<seq<Recommendation>>)
    ensures outcome != Succeeded ==> r == data
    ensures outcome == Succeeded ==> r == UpdateData(data, id, Bumped)
  {
    if outcome == Succeeded then UpdateData(data, id, Bumped) else data
  }

  /** The unlike settle with the failure path leaving the data as it was. */
  function SettleUnlikeIntended(data: Option<seq<Recommendation>>, id: int, outcome: Outcome)
    : (r: Option<seq<Recommendation>>)
    ensures outcome != Succeeded ==> r == data
    ensures outcome == Succeeded ==> r == UpdateData(data, id, Dropped)
  {
    if outcome == Succeeded then UpdateData(data, id, Dropped) else data
  }

  /**
   * With the intended settle, only a request the server accepted changes a
   * count, and a like that is then unliked gives back every present,
   * non-negative count.
   */
  lemma IntendedLikeThenUnlike(recs: seq<Recommendation>, id: int, i: nat, j: nat)
    requires i < |recs| && recs[i].vouchers.Some? && j < |recs[i].vouchers.value|
    requires recs[i].vouchers.value[j].likeCnt.Some? && recs[i].vouchers.value[j].likeCnt.value >= 0
    ensures var after := SettleUnlikeIntended(SettleLikeIntended(Some(recs), id, Succeeded), id, Succeeded);
      after.value[i].vouchers.value[j].likeCnt == recs[i].vouchers.value[j].likeCnt
  {
    var v := recs[i].vouchers.value[j];
    var once := UpdateData(Some(recs), id, Bumped).value;
    UpdateMeaning(recs, id, Bumped, i, j);
    UpdateMeaning(once, id, Dropped, i, j);
    if v.id == id {
      DropUndoesBump(v);
    }
  }

  // ---------------------------------------------------------------------------
  // Derived views
  // ---------------------------------------------------------------------------

  /** The mood tags shown for `moodTags`: split on ',' with each tag trimmed. */
  function MoodTags(s: string): (r: seq<string>)
    ensures |r| == |Split(s, ',')|
  {
    var pieces := Split(s, ',');
    seq(|pieces|, i requires 0 <= i < |pieces| => Trim(pieces[i]))
  }

  /** The tags shown for a recommendation: none when `moodTags` is missing or empty. */
  function ShownTags(r: Recommendation): seq<string>
  {
    if r.moodTags.Some? && r.moodTags.value != "" then MoodTags(r.moodTags.value) else []
  }

  /** Tags written as `a,b,c` with no comma inside and no whitespace at the ends come back as written. */
  lemma MoodTagsRoundTrip(tags: seq<string>)
    requires |tags| >= 1
    requires forall k :: 0 <= k < |tags| ==> tags[k] != [] && ',' !in tags[k]
    requires forall k :: 0 <= k < |tags| ==> !IsSpace(tags[k][0]) && !IsSpace(tags[k][|tags[k]| - 1])
    ensures MoodTags(Join(tags, ',')) == tags
  {
    SplitJoin(tags, ',');
    forall k | 0 <= k < |tags|
      ensures Trim(tags[k]) == tags[k]
    {
      TrimUntrimmed(tags[k]);
    }
  }

  function LengthOrZero(o: Option<seq<string>>): nat
  {
    if o.Some? then |o.value| else 0
  }

  /** Whether the workout card shows the video note. */
  predicate ShowsVideos(w: Workout)
  {
    (w.warmupVideos.Some? && |w.warmupVideos.value| > 0)
    || (w.mainVideos.Some? && |w.mainVideos.value| > 0)
    || (w.coolDownVideos.Some? && |w.coolDownVideos.value| > 0)
  }

  /** The number of videos: the three list lengths added, a missing list counting 0; shown exactly when positive. */
  function VideoCount(w: Workout): (n: nat)
    ensures n == LengthOrZero(w.warmupVideos) + LengthOrZero(w.mainVideos) + LengthOrZero(w.coolDownVideos)
    ensures n > 0 <==> ShowsVideos(w)
  {
    LengthOrZero(w.warmupVideos) + LengthOrZero(w.mainVideos) + LengthOrZero(w.coolDownVideos)
  }

  // ---------------------------------------------------------------------------
  // Screen state
  // ---------------------------------------------------------------------------

  /** The history screen's state. */
  class History {
    var voucherData: Option<seq<Recommendation>>
    var workoutData: Option<seq<Workout>>
    var isLoading: bool
    var likingIds: set<int>

    constructor()
      ensures voucherData == None && workoutData == None && !isLoading && likingIds == {}
    {
      voucherData := None;
      workoutData := None;
      isLoading := false;
      likingIds := {};
    }

    /**
     * The load effect. `fetched` is None when either history request failed
     * (nothing is stored); `liked` is None when the liked list failed to load.
     */
    method Load(signedIn: bool, fetched: Option<(Option<seq<Recommendation>>, seq<Workout>)>,
                liked: Option<seq<LikedEntry>>)
      returns (toast: Option<string>)
      modifies this
      ensures !isLoading && likingIds == old(likingIds)
      ensures toast.Some? <==> fetched.None?
      ensures fetched.None? ==> toast == Some(LoadFailedToast)
      ensures fetched.None? ==> voucherData == old(voucherData) && workoutData == old(workoutData)
      ensures fetched.Some? ==>
        && voucherData == VoucherDataAfterLoad(signedIn, fetched.value.0, liked)
        && workoutData == Some(fetched.value.1)
    {
      isLoading := true;
      toast := Some(LoadFailedToast);
      if fetched.Some? {
        toast := None;
        var vouchers := fetched.value.0;
        if signedIn && vouchers.Some? {
          if liked.Some? {
            var ids := LikedIds(liked.value);
            var counts := BuildLikeCntMap(liked.value);
            voucherData := Some(EnrichRecs(vouchers.value, ids, counts));
          } else {
            voucherData := vouchers;
          }
        } else {
          voucherData := vouchers;
        }
        workoutData := Some(fetched.value.1);
      }
      isLoading := false;
    }

    /** The click: an id already in flight is ignored; otherwise it joins the in-flight set. */
    method Begin(id: int) returns (started: bool)
      modifies this
      ensures started <==> old(id !in likingIds)
      ensures likingIds == old(likingIds) + {id}
      ensures voucherData == old(voucherData) && workoutData == old(workoutData) && isLoading == old(isLoading)
    {
      if id in likingIds {
        return false;
      }
      likingIds := likingIds + {id};
      started := true;
    }

    /**
     * A like request settled: the data follows `SettleLike`, and the id leaves the in-flight set on every path.
     * A failed request yields the like-failure toast; a 409 answer yields none.
     */
    method FinishLike(id: int, outcome: Outcome) returns (toast: Option<string>)
      modifies this
      ensures voucherData == SettleLike(old(voucherData), id, outcome)
      ensures toast.Some? <==> outcome == RequestFailed
      ensures outcome == RequestFailed ==> toast == Some(LikeFailedToast)
      ensures likingIds == old(likingIds) - {id}
      ensures workoutData == old(workoutData) && isLoading == old(isLoading)
    {
      toast := None;
      if outcome == Succeeded {
        voucherData := UpdateData(voucherData, id, Bumped);
      } else if outcome == RequestFailed {
        voucherData := UpdateData(voucherData, id, Dropped);
        toast := Some(LikeFailedToast);
      }
      likingIds := likingIds - {id};
    }

    /**
     * An unlike request settled: the data follows `SettleUnlike`, and the id leaves the in-flight set.
     * A failed request yields the unlike-failure toast; a 409 answer yields none.
     */
    method FinishUnlike(id: int, outcome: Outcome) returns (toast: Option<string>)
      modifies this
      ensures voucherData == SettleUnlike(old(voucherData), id, outcome)
      ensures toast.Some? <==> outcome == RequestFailed
      ensures outcome == RequestFailed ==> toast == Some(UnlikeFailedToast)
      ensures likingIds == old(likingIds) - {id}
      ensures workoutData == old(workoutData) && isLoading == old(isLoading)
    {
      toast := None;
      if outcome == Succeeded {
        voucherData := UpdateData(voucherData, id, Dropped);
      } else if outcome == RequestFailed {
        voucherData := UpdateData(voucherData, id, Bumped);
        toast := Some(UnlikeFailedToast);
      }
      likingIds := likingIds - {id};
    }
  }
}
