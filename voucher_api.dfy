/**
 * The voucher list request (`fetchVouchers`) and its development fallback
 * (`useMockData`): the query it sends, and the page of the five built-in
 * vouchers that stands in for the server's answer when the request fails.
 * The network is a parameter: the outcome of the request.
 */
module VoucherApi {
  import opened Wrappers
  import opened Text

  /** One voucher of the list, as the server sends it. */
  datatype VoucherItem = VoucherItem(
    id: int,
    name: string,
    area: string,
    areaCode: int,
    facilityName: string,
    sports: string,
    sportsCode: int,
    sigunguCode: int,
    sigunguName: string,
    addr1: string,
    addr2: string,
    zipCode: string,
    telephone: string,
    memberCount: int,
    price: int)

  /** One page of vouchers, in the server's paging format. */
  datatype VoucherResponse = VoucherResponse(
    totalElements: nat,
    totalPages: nat,
    first: bool,
    last: bool,
    size: nat,
    content: seq<VoucherItem>,
    number: nat,
    numberOfElements: nat,
    empty: bool)

  /** The built-in vouchers the fallback pages through. */
  const MockVouchers: seq<VoucherItem> := [
    VoucherItem(1, "강남 헬스클럽 A", "서울", 11, "강남 스포츠센터", "헬스", 1, 11680, "강남구",
      "서울특별시 강남구 테헤란로 123", "2층", "06234", "02-1234-5678", 150, 50000),
    VoucherItem(2, "송파 수영장", "서울", 11, "송파 아쿠아센터", "수영", 2, 11710, "송파구",
      "서울특별시 송파구 올림픽로 456", "", "05555", "02-9876-5432", 200, 60000),
    VoucherItem(3, "부산 요가센터", "부산", 26, "해운대 웰니스", "요가", 3, 26350, "해운대구",
      "부산광역시 해운대구 해운대로 789", "3층", "48099", "051-1111-2222", 80, 45000),
    VoucherItem(4, "대전 탁구장", "대전", 30, "유성 스포츠플라자", "탁구", 4, 30200, "유성구",
      "대전광역시 유성구 대학로 101", "", "34141", "042-3333-4444", 50, 30000),
    VoucherItem(5, "인천 배드민턴장", "인천", 28, "송도 배드민턴 클럽", "배드민턴", 5, 28185, "연수구",
      "인천광역시 연수구 송도과학로 202", "1층", "21984", "032-5555-6666", 120, 40000)
  ]

  const DefaultPage: nat := 0
  const DefaultSize: nat := 5

  /** A filter argument counts when it is given and not empty (JavaScript truthiness). */
  predicate Given(o: Option<string>) {
    o.Some? && o.value != ""
  }

  /** The query `fetchVouchers` sends, as ordered name/value pairs. */
  function QueryParams(area: Option<string>, sports: Option<string>, page: nat, size: nat): (q: seq<(string, string)>)
    ensures |q| >= 2 && q[|q| - 2] == ("page", Decimal(page)) && q[|q| - 1] == ("size", Decimal(size))
    ensures Given(area) ==> q[0] == ("area", area.value)
    ensures |q| == 2 + (if Given(area) then 1 else 0) + (if Given(sports) then 1 else 0)
    ensures Given(sports) ==> q[|q| - 3] == ("sports", sports.value)
  {
    (if Given(area) then [("area", area.value)] else [])
    + (if Given(sports) then [("sports", sports.value)] else [])
    + [("page", Decimal(page)), ("size", Decimal(size))]
  }

  /** A filter is sent exactly when it is given. */
  lemma QueryFilterKeys(area: Option<string>, sports: Option<string>, page: nat, size: nat)
    ensures var q := QueryParams(area, sports, page, size);
      && ((exists k :: 0 <= k < |q| && q[k].0 == "area") <==> Given(area))
      && ((exists k :: 0 <= k < |q| && q[k].0 == "sports") <==> Given(sports))
  {
    var q := QueryParams(area, sports, page, size);
    var names := ["area", "sports", "page", "size"];
    assert "area" != "page" && "area" != "size" && "area" != "sports";
    assert "sports" != "page" && "sports" != "size";
    if Given(area) {
      assert q[0].0 == "area";
    }
    if Given(sports) {
      assert q[|q| - 3].0 == "sports";
    }
    assert forall k :: 0 <= k < |q| ==> q[k].0 in names;
    if Given(area) {
      assert forall k :: 0 < k < |q| ==> q[k].0 != "area";
    } else {
      assert forall k :: 0 <= k < |q| ==> q[k].0 != "area";
    }
    assert forall k :: 0 <= k < |q| && k != |q| - 3 ==> q[k].0 != "sports";
  }

  /** The page and size can be read back from the query: the numbers are sent exactly. */
  lemma QueryNumbersRoundTrip(area: Option<string>, sports: Option<string>, page: nat, size: nat)
    ensures var q := QueryParams(area, sports, page, size);
      DigitsValue(q[|q| - 2].1) == page && DigitsValue(q[|q| - 1].1) == size
  {
    DecimalValue(page);
    DecimalValue(size);
  }

  /** `filtered`: the vouchers of the given area, then of the given sport. */
  function FilterVouchers(items: seq<VoucherItem>, area: Option<string>, sports: Option<string>): (r: seq<VoucherItem>)
    ensures |r| <= |items|
    ensures forall v :: v in r ==>
      v in items && (Given(area) ==> v.area == area.value) && (Given(sports) ==> v.sports == sports.value)
  {
    var byArea := if Given(area) then FilterArea(items, area.value) else items;
    if Given(sports) then FilterSports(byArea, sports.value) else byArea
  }

  /**
   * `filter(v => v.area === area)`: the vouchers of the area;
   * `FilterAreaCount` gives their multiplicity, `FilterAreaAppend` their order.
   */
  function FilterArea(items: seq<VoucherItem>, area: string): (r: seq<VoucherItem>)
    ensures |r| <= |items|
    ensures forall v :: v in r <==> v in items && v.area == area
  {
    if items == [] then []
    else (if items[0].area == area then [items[0]] else []) + FilterArea(items[1..], area)
  }

  /**
   * `filter(v => v.sports === sports)`: the vouchers of the sport;
   * `FilterSportsCount` gives their multiplicity, `FilterSportsAppend` their order.
   */
  function FilterSports(items: seq<VoucherItem>, sports: string): (r: seq<VoucherItem>)
    ensures |r| <= |items|
    ensures forall v :: v in r <==> v in items && v.sports == sports
  {
    if items == [] then []
    else (if items[0].sports == sports then [items[0]] else []) + FilterSports(items[1..], sports)
  }

  /** Each voucher of the area is kept as often as it occurs; no other is kept. */
  lemma {:induction false} FilterAreaCount(items: seq<VoucherItem>, area: string, v: VoucherItem)
    ensures multiset(FilterArea(items, area))[v] == if v.area == area then multiset(items)[v] else 0
    decreases |items|
  {
    if items != [] {
      assert items == [items[0]] + items[1..];
      FilterAreaCount(items[1..], area, v);
    }
  }

  /** Each voucher of the sport is kept as often as it occurs; no other is kept. */
  lemma {:induction false} FilterSportsCount(items: seq<VoucherItem>, sports: string, v: VoucherItem)
    ensures multiset(FilterSports(items, sports))[v] == if v.sports == sports then multiset(items)[v] else 0
    decreases |items|
  {
    if items != [] {
      assert items == [items[0]] + items[1..];
      FilterSportsCount(items[1..], sports, v);
    }
  }

  /** Each voucher matching every given filter is listed as often as it occurs. */
  lemma FilterVouchersCount(items: seq<VoucherItem>, area: Option<string>, sports: Option<string>, v: VoucherItem)
    ensures multiset(FilterVouchers(items, area, sports))[v] ==
      if (Given(area) ==> v.area == area.value) && (Given(sports) ==> v.sports == sports.value)
      then multiset(items)[v] else 0
  {
    var byArea := if Given(area) then FilterArea(items, area.value) else items;
    if Given(area) { FilterAreaCount(items, area.value, v); }
    if Given(sports) { FilterSportsCount(byArea, sports.value, v); }
  }

  /**
   * The filters keep list order: filtering two lists end to end gives the
   * two filtered lists end to end, so a kept voucher stays before every
   * kept voucher that followed it.
   */
  lemma {:induction false} FilterAreaAppend(a: seq<VoucherItem>, b: seq<VoucherItem>, area: string)
    ensures FilterArea(a + b, area) == FilterArea(a, area) + FilterArea(b, area)
    decreases |a|
  {
    if a == [] {
      assert a + b == b;
    } else {
      assert (a + b)[0] == a[0] && (a + b)[1..] == a[1..] + b;
      FilterAreaAppend(a[1..], b, area);
    }
  }

  lemma {:induction false} FilterSportsAppend(a: seq<VoucherItem>, b: seq<VoucherItem>, sports: string)
    ensures FilterSports(a + b, sports) == FilterSports(a, sports) + FilterSports(b, sports)
    decreases |a|
  {
    if a == [] {
      assert a + b == b;
    } else {
      assert (a + b)[0] == a[0] && (a + b)[1..] == a[1..] + b;
      FilterSportsAppend(a[1..], b, sports);
    }
  }

  /** A voucher is listed exactly when it matches every given filter. */
  lemma FilterMeaning(items: seq<VoucherItem>, area: Option<string>, sports: Option<string>, v: VoucherItem)
    ensures v in FilterVouchers(items, area, sports) <==>
      v in items && (Given(area) ==> v.area == area.value) && (Given(sports) ==> v.sports == sports.value)
  {
  }

  /** `s.slice(start, end)` for `0 <= start <= end`. */
  function Slice<T>(s: seq<T>, start: nat, end: nat): (r: seq<T>)
    requires start <= end
    ensures |r| <= end - start
    ensures start < |s| ==> r == s[start..if end < |s| then end else |s|]
    ensures start >= |s| ==> r == []
  {
    if start >= |s| then [] else s[start..if end < |s| then end else |s|]
  }

  /** `Math.ceil(n / size)` for a positive size. */
  function CeilDiv(n: nat, size: nat): (c: nat)
    requires size > 0
    ensures c * size >= n && (c == 0 || (c - 1) * size < n)
  {
    (n + size - 1) / size
  }

  /** The page `page` of `filtered`, in the server's paging format. */
  function PageOf(filtered: seq<VoucherItem>, page: nat, size: nat): (r: VoucherResponse)
    requires size > 0
    ensures r.content == Slice(filtered, page * size, page * size + size)
    ensures r.totalElements == |filtered| && r.number == page && r.size == size
    ensures r.totalPages == CeilDiv(|filtered|, size)
    ensures r.numberOfElements == |r.content| <= size
    ensures r.first <==> page == 0
    ensures r.empty <==> r.content == []
  {
    var start := page * size;
    var content := Slice(filtered, start, start + size);
    var totalPages := CeilDiv(|filtered|, size);
    VoucherResponse(
      |filtered|, totalPages, page == 0, page >= totalPages - 1, size,
      content, page, |content|, |content| == 0)
  }

  /**
   * `useMockData`: the requested page of the built-in vouchers after
   * filtering. The half-second delay is not modelled.
   */
  function UseMockData(area: Option<string>, sports: Option<string>, page: nat, size: nat): (r: VoucherResponse)
    requires size > 0
    ensures r.totalElements <= |MockVouchers|
    ensures forall v :: v in r.content ==>
      v in MockVouchers && (Given(area) ==> v.area == area.value) && (Given(sports) ==> v.sports == sports.value)
  {
    PageWithinFilter(MockVouchers, area, sports, page, size);
    PageOf(FilterVouchers(MockVouchers, area, sports), page, size)
  }

  /** A page of a filtered list holds only listed vouchers that match every given filter. */
  lemma PageWithinFilter(items: seq<VoucherItem>, area: Option<string>, sports: Option<string>, page: nat, size: nat)
    requires size > 0
    ensures var r := PageOf(FilterVouchers(items, area, sports), page, size);
      r.totalElements <= |items| &&
      forall v :: v in r.content ==>
        v in items && (Given(area) ==> v.area == area.value) && (Given(sports) ==> v.sports == sports.value)
  {
    var f := FilterVouchers(items, area, sports);
    var r := PageOf(f, page, size);
    forall v | v in r.content
      ensures v in f
    {
      var i :| 0 <= i < |r.content| && r.content[i] == v;
      assert r.content[i] == f[page * size + i];
    }
  }

  /** `last` is set exactly when the page after this one is empty. */
  lemma LastMeansNextEmpty(filtered: seq<VoucherItem>, page: nat, size: nat)
    requires size > 0
    ensures PageOf(filtered, page, size).last <==> PageOf(filtered, page + 1, size).empty
  {
    var n := |filtered|;
    var c := CeilDiv(n, size);
    if page + 1 >= c {
      MulMono(c, page + 1, size);
    } else {
      MulMono(page + 1, c - 1, size);
    }
  }

  lemma MulMono(a: nat, b: nat, s: nat)
    requires a <= b
    ensures a * s <= b * s
  {
  }

  /** Every page before `totalPages` holds at least one voucher. */
  lemma PagesBeforeTotalNonEmpty(filtered: seq<VoucherItem>, page: nat, size: nat)
    requires size > 0
    requires page < PageOf(filtered, 0, size).totalPages
    ensures !PageOf(filtered, page, size).empty
  {
    var c := CeilDiv(|filtered|, size);
    MulMono(page, c - 1, size);
  }

  /** The pages 0..k-1 laid end to end. */
  function PagesUpTo(filtered: seq<VoucherItem>, size: nat, k: nat): seq<VoucherItem>
    requires size > 0
  {
    if k == 0 then [] else PagesUpTo(filtered, size, k - 1) + PageOf(filtered, k - 1, size).content
  }

  lemma {:induction false} PagesUpToPrefix(filtered: seq<VoucherItem>, size: nat, k: nat)
    requires size > 0
    ensures PagesUpTo(filtered, size, k) == filtered[..if k * size < |filtered| then k * size else |filtered|]
  {
    if k > 0 {
      PagesUpToPrefix(filtered, size, k - 1);
      var n := |filtered|;
      var lo := (k - 1) * size;
      assert k * size == lo + size;
      var page := PageOf(filtered, k - 1, size).content;
      assert page == Slice(filtered, lo, lo + size);
      if lo < n {
        var hi := if k * size < n then k * size else n;
        assert page == filtered[lo..hi];
        assert filtered[..lo] + filtered[lo..hi] == filtered[..hi];
      } else {
        assert page == [];
      }
    }
  }

  /** Paging loses nothing and repeats nothing: all pages together are the filtered list. */
  lemma AllPagesAreFiltered(filtered: seq<VoucherItem>, size: nat)
    requires size > 0
    ensures PagesUpTo(filtered, size, PageOf(filtered, 0, size).totalPages) == filtered
  {
    var c := CeilDiv(|filtered|, size);
    PagesUpToPrefix(filtered, size, c);
    assert filtered[..|filtered|] == filtered;
  }

  /** What the request to the server came back with. */
  datatype FetchOutcome =
    | Answered(body: VoucherResponse)   // an ok response whose body parses
    | BadBody                           // an ok response whose body is not valid JSON
    | NotOk                             // a response outside 200..299
    | NetworkError                      // `fetch` itself rejected

  /**
   * `fetchVouchers` (page 0 and size 5 unless given): the server's page when
   * it answers; the built-in page when the request fails or is answered
   * with a bad status. The body's JSON is returned without being awaited
   * inside the `try`, so a body that does not parse rejects the call instead
   * of falling back.
   */
  function FetchVouchers(area: Option<string>, sports: Option<string>, page: nat, size: nat,
                         outcome: FetchOutcome): (r: Result<VoucherResponse, string>)
    requires size > 0
    ensures outcome.Answered? ==> r == Success(outcome.body)
    ensures (outcome.NotOk? || outcome.NetworkError?) ==> r == Success(UseMockData(area, sports, page, size))
    ensures r.Failure? <==> outcome.BadBody?
  {
    match outcome
    case Answered(body) => Success(body)
    case BadBody => Failure("SyntaxError")
    case NotOk => Success(UseMockData(area, sports, page, size))
    case NetworkError => Success(UseMockData(area, sports, page, size))
  }
}
