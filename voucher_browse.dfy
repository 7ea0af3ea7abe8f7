/**
 * The voucher screen's own logic (`VoucherContent`, `VoucherListContent`):
 * the region guessed from the user's coordinates, the infinite list's next
 * page parameter and flattening, and the list view's pager and filters.
 *
 * Coordinates are `real`. The source compares IEEE doubles with decimal
 * literals, so a point lying exactly on a box edge may be classified
 * differently; nothing here depends on those edge points.
 */
module VoucherBrowse {
  import opened Wrappers
  import opened Text
  import opened VoucherApi

  // ---------------------------------------------------------------------------
  // Region lookup

  /** The regions the lookup knows, in the order it tries them. */
  datatype Region =
    | Seoul
    | Busan
    | Daegu
    | Incheon
    | Gwangju
    | Daejeon
    | Ulsan
    | Sejong
    | GyeonggiDo
    | Gangwon
    | Chungbuk
    | Chungnam
    | Jeonbuk
    | Jeonnam
    | Gyeongbuk
    | Gyeongnam
    | Jeju

  /** A latitude/longitude box with inclusive bounds and the region it stands for. */
  datatype Box = Box(latMin: real, latMax: real, lngMin: real, lngMax: real, region: Region)

  predicate InBox(b: Box, lat: real, lng: real) {
    b.latMin <= lat <= b.latMax && b.lngMin <= lng <= b.lngMax
  }

  /**
   * The region's name as the lookup returns it. The Gyeonggi name carries
   * two trailing spaces; every other name is bare.
   */
  function RegionNameAsWritten(r: Region): (name: string)
    ensures r != GyeonggiDo ==> name == RegionName(r)
    ensures r == GyeonggiDo ==> name == RegionName(r) + "  "
  {
    if r == GyeonggiDo then "경기도  " else RegionName(r)
  }

  /** The region's name, without padding. */
  function RegionName(r: Region): (name: string)
    ensures name != [] && !IsSpace(name[0]) && !IsSpace(name[|name| - 1])
  {
    match r
    case Seoul => "서울특별시"
    case Busan => "부산광역시"
    case Daegu => "대구광역시"
    case Incheon => "인천광역시"
    case Gwangju => "광주광역시"
    case Daejeon => "대전광역시"
    case Ulsan => "울산광역시"
    case Sejong => "세종특별자치시"
    case GyeonggiDo => "경기도"
    case Gangwon => "강원도"
    case Chungbuk => "충청북도"
    case Chungnam => "충청남도"
    case Jeonbuk => "전라북도"
    case Jeonnam => "전라남도"
    case Gyeongbuk => "경상북도"
    case Gyeongnam => "경상남도"
    case Jeju => "제주특별자치도"
  }

  /** The region boxes in the order the lookup tries them. */
  const RegionBoxes: seq<Box> := [
    Box(37.4, 37.7, 126.8, 127.2, Seoul),
    Box(35.0, 35.3, 128.9, 129.3, Busan),
    Box(35.7, 36.0, 128.5, 128.8, Daegu),
    Box(37.3, 37.6, 126.6, 126.8, Incheon),
    Box(35.1, 35.2, 126.8, 127.0, Gwangju),
    Box(36.3, 36.4, 127.3, 127.5, Daejeon),
    Box(35.5, 35.6, 129.3, 129.4, Ulsan),
    Box(36.4, 36.6, 127.2, 127.3, Sejong),
    Box(36.9, 38.3, 126.4, 127.5, GyeonggiDo),
    Box(37.0, 38.6, 127.5, 129.4, Gangwon),
    Box(36.3, 37.3, 127.4, 128.5, Chungbuk),
    Box(36.0, 37.0, 126.3, 127.5, Chungnam),
    Box(35.6, 36.0, 126.7, 127.7, Jeonbuk),
    Box(34.2, 35.4, 126.2, 127.5, Jeonnam),
    Box(35.9, 37.2, 128.1, 129.6, Gyeongbuk),
    Box(34.7, 35.9, 127.7, 129.3, Gyeongnam),
    Box(33.2, 33.6, 126.1, 126.9, Jeju)
  ]

  /**
   * Reference reading of a lookup table: scanning from position `k`, the
   * region of the first box that holds the point, if any.
   */
  function FirstMatch(boxes: seq<Box>, k: nat, lat: real, lng: real): Option<Region>
    decreases |boxes| - k
  {
    if k >= |boxes| then None
    else if InBox(boxes[k], lat, lng) then Some(boxes[k].region)
    else FirstMatch(boxes, k + 1, lat, lng)
  }

  /** The scan finds the first box holding the point, and nothing when there is none. */
  lemma {:induction false} FirstMatchMeaning(boxes: seq<Box>, k: nat, lat: real, lng: real)
    ensures (forall i :: k <= i < |boxes| ==> !InBox(boxes[i], lat, lng)) ==> FirstMatch(boxes, k, lat, lng) == None
    ensures forall i :: (k <= i < |boxes| && InBox(boxes[i], lat, lng) &&
      forall j :: k <= j < i ==> !InBox(boxes[j], lat, lng)) ==> FirstMatch(boxes, k, lat, lng) == Some(boxes[i].region)
    decreases |boxes| - k
  {
    if k < |boxes| {
      FirstMatchMeaning(boxes, k + 1, lat, lng);
      forall i | k < i < |boxes| && InBox(boxes[i], lat, lng) && forall j :: k <= j < i ==> !InBox(boxes[j], lat, lng)
        ensures FirstMatch(boxes, k, lat, lng) == Some(boxes[i].region)
      {
        assert !InBox(boxes[k], lat, lng);
      }
    }
  }

  /** The if-chain of `estimateRegionFromCoords`, bounds inclusive, nothing outside every box. */
  function Locate(lat: real, lng: real): (r: Option<Region>)
    ensures r.Some? ==> 33.2 <= lat <= 38.6 && 126.1 <= lng <= 129.6
  {
    if 37.4 <= lat <= 37.7 && 126.8 <= lng <= 127.2 then Some(Seoul)
    else if 35.0 <= lat <= 35.3 && 128.9 <= lng <= 129.3 then Some(Busan)
    else if 35.7 <= lat <= 36.0 && 128.5 <= lng <= 128.8 then Some(Daegu)
    else if 37.3 <= lat <= 37.6 && 126.6 <= lng <= 126.8 then Some(Incheon)
    else if 35.1 <= lat <= 35.2 && 126.8 <= lng <= 127.0 then Some(Gwangju)
    else if 36.3 <= lat <= 36.4 && 127.3 <= lng <= 127.5 then Some(Daejeon)
    else if 35.5 <= lat <= 35.6 && 129.3 <= lng <= 129.4 then Some(Ulsan)
    else if 36.4 <= lat <= 36.6 && 127.2 <= lng <= 127.3 then Some(Sejong)
    else if 36.9 <= lat <= 38.3 && 126.4 <= lng <= 127.5 then Some(GyeonggiDo)
    else if 37.0 <= lat <= 38.6 && 127.5 <= lng <= 129.4 then Some(Gangwon)
    else if 36.3 <= lat <= 37.3 && 127.4 <= lng <= 128.5 then Some(Chungbuk)
    else if 36.0 <= lat <= 37.0 && 126.3 <= lng <= 127.5 then Some(Chungnam)
    else if 35.6 <= lat <= 36.0 && 126.7 <= lng <= 127.7 then Some(Jeonbuk)
    else if 34.2 <= lat <= 35.4 && 126.2 <= lng <= 127.5 then Some(Jeonnam)
    else if 35.9 <= lat <= 37.2 && 128.1 <= lng <= 129.6 then Some(Gyeongbuk)
    else if 34.7 <= lat <= 35.9 && 127.7 <= lng <= 129.3 then Some(Gyeongnam)
    else if 33.2 <= lat <= 33.6 && 126.1 <= lng <= 126.9 then Some(Jeju)
    else None
  }

  /** `estimateRegionFromCoords` as written: the located region's name, Gyeonggi padded, or "". */
  function EstimateRegionAsWritten(lat: real, lng: real): (name: string)
    ensures name == "" <==> Locate(lat, lng).None?
    ensures Locate(lat, lng) == Some(GyeonggiDo) ==> name == EstimateRegion(lat, lng) + "  "
    ensures Locate(lat, lng) != Some(GyeonggiDo) ==> name == EstimateRegion(lat, lng)
  {
    match Locate(lat, lng)
    case None => ""
    case Some(r) => RegionNameAsWritten(r)
  }

  /** `estimateRegionFromCoords` with the Gyeonggi name bare like every other region's. */
  function EstimateRegion(lat: real, lng: real): (name: string)
    ensures name == "" <==> Locate(lat, lng).None?
    ensures name != "" ==> !IsSpace(name[0]) && !IsSpace(name[|name| - 1])
  {
    match Locate(lat, lng)
    case None => ""
    case Some(r) => RegionName(r)
  }

  /** The if-chain is the first-match reading of the box table, in table order. */
  lemma LocateIsFirstMatch(lat: real, lng: real)
    ensures Locate(lat, lng) == FirstMatch(RegionBoxes, 0, lat, lng)
  {
    if InBox(RegionBoxes[0], lat, lng) ||
       InBox(RegionBoxes[1], lat, lng) ||
       InBox(RegionBoxes[2], lat, lng) ||
       InBox(RegionBoxes[3], lat, lng) ||
       InBox(RegionBoxes[4], lat, lng) ||
       InBox(RegionBoxes[5], lat, lng) ||
       InBox(RegionBoxes[6], lat, lng) ||
       InBox(RegionBoxes[7], lat, lng) ||
       InBox(RegionBoxes[8], lat, lng) {
      LocateEarlyBoxes(lat, lng);
    } else {
      LocateLateBoxes(lat, lng);
    }
  }

  lemma LocateEarlyBoxes(lat: real, lng: real)
    requires InBox(RegionBoxes[0], lat, lng) ||
      InBox(RegionBoxes[1], lat, lng) ||
      InBox(RegionBoxes[2], lat, lng) ||
      InBox(RegionBoxes[3], lat, lng) ||
      InBox(RegionBoxes[4], lat, lng) ||
      InBox(RegionBoxes[5], lat, lng) ||
      InBox(RegionBoxes[6], lat, lng) ||
      InBox(RegionBoxes[7], lat, lng) ||
      InBox(RegionBoxes[8], lat, lng)
    ensures Locate(lat, lng) == FirstMatch(RegionBoxes, 0, lat, lng)
  {
    var b := RegionBoxes;
    if InBox(b[0], lat, lng) {
    } else if InBox(b[1], lat, lng) {
      assert FirstMatch(b, 0, lat, lng) == FirstMatch(b, 1, lat, lng);
    } else if InBox(b[2], lat, lng) {
      assert FirstMatch(b, 0, lat, lng) == FirstMatch(b, 1, lat, lng);
      assert FirstMatch(b, 1, lat, lng) == FirstMatch(b, 2, lat, lng);
    } else if InBox(b[3], lat, lng) {
      assert FirstMatch(b, 0, lat, lng) == FirstMatch(b, 1, lat, lng);
      assert FirstMatch(b, 1, lat, lng) == FirstMatch(b, 2, lat, lng);
      assert FirstMatch(b, 2, lat, lng) == FirstMatch(b, 3, lat, lng);
    } else if InBox(b[4], lat, lng) {
      assert FirstMatch(b, 0, lat, lng) == FirstMatch(b, 1, lat, lng);
      assert FirstMatch(b, 1, lat, lng) == FirstMatch(b, 2, lat, lng);
      assert FirstMatch(b, 2, lat, lng) == FirstMatch(b, 3, lat, lng);
      assert FirstMatch(b, 3, lat, lng) == FirstMatch(b, 4, lat, lng);
    } else if InBox(b[5], lat, lng) {
      assert FirstMatch(b, 0, lat, lng) == FirstMatch(b, 1, lat, lng);
      assert FirstMatch(b, 1, lat, lng) == FirstMatch(b, 2, lat, lng);
      assert FirstMatch(b, 2, lat, lng) == FirstMatch(b, 3, lat, lng);
      assert FirstMatch(b, 3, lat, lng) == FirstMatch(b, 4, lat, lng);
      assert FirstMatch(b, 4, lat, lng) == FirstMatch(b, 5, lat, lng);
    } else if InBox(b[6], lat, lng) {
      assert FirstMatch(b, 0, lat, lng) == FirstMatch(b, 1, lat, lng);
      assert FirstMatch(b, 1, lat, lng) == FirstMatch(b, 2, lat, lng);
      assert FirstMatch(b, 2, lat, lng) == FirstMatch(b, 3, lat, lng);
      assert FirstMatch(b, 3, lat, lng) == FirstMatch(b, 4, lat, lng);
      assert FirstMatch(b, 4, lat, lng) == FirstMatch(b, 5, lat, lng);
      assert FirstMatch(b, 5, lat, lng) == FirstMatch(b, 6, lat, lng);
    } else if InBox(b[7], lat, lng) {
      assert FirstMatch(b, 0, lat, lng) == FirstMatch(b, 1, lat, lng);
      assert FirstMatch(b, 1, lat, lng) == FirstMatch(b, 2, lat, lng);
      assert FirstMatch(b, 2, lat, lng) == FirstMatch(b, 3, lat, lng);
      assert FirstMatch(b, 3, lat, lng) == FirstMatch(b, 4, lat, lng);
      assert FirstMatch(b, 4, lat, lng) == FirstMatch(b, 5, lat, lng);
      assert FirstMatch(b, 5, lat, lng) == FirstMatch(b, 6, lat, lng);
      assert FirstMatch(b, 6, lat, lng) == FirstMatch(b, 7, lat, lng);
    } else if InBox(b[8], lat, lng) {
      assert FirstMatch(b, 0, lat, lng) == FirstMatch(b, 1, lat, lng);
      assert FirstMatch(b, 1, lat, lng) == FirstMatch(b, 2, lat, lng);
      assert FirstMatch(b, 2, lat, lng) == FirstMatch(b, 3, lat, lng);
      assert FirstMatch(b, 3, lat, lng) == FirstMatch(b, 4, lat, lng);
      assert FirstMatch(b, 4, lat, lng) == FirstMatch(b, 5, lat, lng);
      assert FirstMatch(b, 5, lat, lng) == FirstMatch(b, 6, lat, lng);
      assert FirstMatch(b, 6, lat, lng) == FirstMatch(b, 7, lat, lng);
      assert FirstMatch(b, 7, lat, lng) == FirstMatch(b, 8, lat, lng);
    }
  }

  lemma LocateLateBoxes(lat: real, lng: real)
    requires !(InBox(RegionBoxes[0], lat, lng) ||
      InBox(RegionBoxes[1], lat, lng) ||
      InBox(RegionBoxes[2], lat, lng) ||
      InBox(RegionBoxes[3], lat, lng) ||
      InBox(RegionBoxes[4], lat, lng) ||
      InBox(RegionBoxes[5], lat, lng) ||
      InBox(RegionBoxes[6], lat, lng) ||
      InBox(RegionBoxes[7], lat, lng) ||
      InBox(RegionBoxes[8], lat, lng))
    ensures Locate(lat, lng) == FirstMatch(RegionBoxes, 0, lat, lng)
  {
    var b := RegionBoxes;
    assert FirstMatch(b, 0, lat, lng) == FirstMatch(b, 1, lat, lng);
    assert FirstMatch(b, 1, lat, lng) == FirstMatch(b, 2, lat, lng);
    assert FirstMatch(b, 2, lat, lng) == FirstMatch(b, 3, lat, lng);
    assert FirstMatch(b, 3, lat, lng) == FirstMatch(b, 4, lat, lng);
    assert FirstMatch(b, 4, lat, lng) == FirstMatch(b, 5, lat, lng);
    assert FirstMatch(b, 5, lat, lng) == FirstMatch(b, 6, lat, lng);
    assert FirstMatch(b, 6, lat, lng) == FirstMatch(b, 7, lat, lng);
    assert FirstMatch(b, 7, lat, lng) == FirstMatch(b, 8, lat, lng);
    assert FirstMatch(b, 8, lat, lng) == FirstMatch(b, 9, lat, lng);
    if InBox(b[9], lat, lng) {
    } else if InBox(b[10], lat, lng) {
      assert FirstMatch(b, 9, lat, lng) == FirstMatch(b, 10, lat, lng);
    } else if InBox(b[11], lat, lng) {
      assert FirstMatch(b, 9, lat, lng) == FirstMatch(b, 10, lat, lng);
      assert FirstMatch(b, 10, lat, lng) == FirstMatch(b, 11, lat, lng);
    } else if InBox(b[12], lat, lng) {
      assert FirstMatch(b, 9, lat, lng) == FirstMatch(b, 10, lat, lng);
      assert FirstMatch(b, 10, lat, lng) == FirstMatch(b, 11, lat, lng);
      assert FirstMatch(b, 11, lat, lng) == FirstMatch(b, 12, lat, lng);
    } else if InBox(b[13], lat, lng) {
      assert FirstMatch(b, 9, lat, lng) == FirstMatch(b, 10, lat, lng);
      assert FirstMatch(b, 10, lat, lng) == FirstMatch(b, 11, lat, lng);
      assert FirstMatch(b, 11, lat, lng) == FirstMatch(b, 12, lat, lng);
      assert FirstMatch(b, 12, lat, lng) == FirstMatch(b, 13, lat, lng);
    } else if InBox(b[14], lat, lng) {
      assert FirstMatch(b, 9, lat, lng) == FirstMatch(b, 10, lat, lng);
      assert FirstMatch(b, 10, lat, lng) == FirstMatch(b, 11, lat, lng);
      assert FirstMatch(b, 11, lat, lng) == FirstMatch(b, 12, lat, lng);
      assert FirstMatch(b, 12, lat, lng) == FirstMatch(b, 13, lat, lng);
      assert FirstMatch(b, 13, lat, lng) == FirstMatch(b, 14, lat, lng);
    } else if InBox(b[15], lat, lng) {
      assert FirstMatch(b, 9, lat, lng) == FirstMatch(b, 10, lat, lng);
      assert FirstMatch(b, 10, lat, lng) == FirstMatch(b, 11, lat, lng);
      assert FirstMatch(b, 11, lat, lng) == FirstMatch(b, 12, lat, lng);
      assert FirstMatch(b, 12, lat, lng) == FirstMatch(b, 13, lat, lng);
      assert FirstMatch(b, 13, lat, lng) == FirstMatch(b, 14, lat, lng);
      assert FirstMatch(b, 14, lat, lng) == FirstMatch(b, 15, lat, lng);
    } else if InBox(b[16], lat, lng) {
      assert FirstMatch(b, 9, lat, lng) == FirstMatch(b, 10, lat, lng);
      assert FirstMatch(b, 10, lat, lng) == FirstMatch(b, 11, lat, lng);
      assert FirstMatch(b, 11, lat, lng) == FirstMatch(b, 12, lat, lng);
      assert FirstMatch(b, 12, lat, lng) == FirstMatch(b, 13, lat, lng);
      assert FirstMatch(b, 13, lat, lng) == FirstMatch(b, 14, lat, lng);
      assert FirstMatch(b, 14, lat, lng) == FirstMatch(b, 15, lat, lng);
      assert FirstMatch(b, 15, lat, lng) == FirstMatch(b, 16, lat, lng);
    } else {
      assert FirstMatch(b, 9, lat, lng) == FirstMatch(b, 10, lat, lng);
      assert FirstMatch(b, 10, lat, lng) == FirstMatch(b, 11, lat, lng);
      assert FirstMatch(b, 11, lat, lng) == FirstMatch(b, 12, lat, lng);
      assert FirstMatch(b, 12, lat, lng) == FirstMatch(b, 13, lat, lng);
      assert FirstMatch(b, 13, lat, lng) == FirstMatch(b, 14, lat, lng);
      assert FirstMatch(b, 14, lat, lng) == FirstMatch(b, 15, lat, lng);
      assert FirstMatch(b, 15, lat, lng) == FirstMatch(b, 16, lat, lng);
      assert FirstMatch(b, 16, lat, lng) == FirstMatch(b, 17, lat, lng);
    }
  }

  /** Seoul is tried first: a point in both the Seoul and the Gyeonggi box is Seoul. */
  lemma SeoulBeforeGyeonggi(lat: real, lng: real)
    requires InBox(RegionBoxes[0], lat, lng)
    ensures InBox(RegionBoxes[8], lat, lng)
    ensures EstimateRegion(lat, lng) == "서울특별시"
  {
  }

  /** As written, a point of the Gyeonggi box (in no earlier box) gets a name that is not its own trim. */
  lemma GyeonggiPadded()
    ensures var r := EstimateRegionAsWritten(37.0, 127.0);
      r == "경기도  " && IsSpace(r[|r| - 1]) && Trim(r) != r
  {
    var r := EstimateRegionAsWritten(37.0, 127.0);
    assert r == "경기도  ";
    assert r[|r| - 1] == ' ';
  }

  /** What the browser's geolocation request did. */
  datatype GeoOutcome = Unsupported | Failed | Position(lat: real, lng: real)

  /** The state the detection effect leaves: area filter, user position, detection flag. */
  datatype Detection = Detection(area: string, userLocation: Option<(real, real)>, isLocationDetected: bool)

  /**
   * The location effect as written: detection always completes; the area
   * filter takes the guessed name, Gyeonggi padded, only when a region was
   * found, and the position is kept whenever there is one.
   */
  function DetectLocation(area: string, outcome: GeoOutcome): (d: Detection)
    ensures d.isLocationDetected
    ensures outcome.Position? ==> d.userLocation == Some((outcome.lat, outcome.lng))
    ensures !outcome.Position? ==> d.userLocation.None?
    ensures outcome.Position? && Locate(outcome.lat, outcome.lng).Some?
      ==> d.area == RegionNameAsWritten(Locate(outcome.lat, outcome.lng).value)
    ensures !(outcome.Position? && Locate(outcome.lat, outcome.lng).Some?) ==> d.area == area
  {
    match outcome
    case Unsupported => Detection(area, None, true)
    case Failed => Detection(area, None, true)
    case Position(lat, lng) =>
      var detected := EstimateRegionAsWritten(lat, lng);
      Detection(if detected != "" then detected else area, Some((lat, lng)), true)
  }

  /** The location effect with the bare region names: a detected area never has outer spaces. */
  function DetectLocationIntended(area: string, outcome: GeoOutcome): (d: Detection)
    ensures d.isLocationDetected
    ensures outcome.Position? ==> d.userLocation == Some((outcome.lat, outcome.lng))
    ensures !outcome.Position? ==> d.userLocation.None?
    ensures outcome.Position? && Locate(outcome.lat, outcome.lng).Some?
      ==> d.area == RegionName(Locate(outcome.lat, outcome.lng).value) && Trim(d.area) == d.area
    ensures !(outcome.Position? && Locate(outcome.lat, outcome.lng).Some?) ==> d.area == area
  {
    match outcome
    case Unsupported => Detection(area, None, true)
    case Failed => Detection(area, None, true)
    case Position(lat, lng) =>
      var detected := EstimateRegion(lat, lng);
      Detection(if detected != "" then (TrimUntrimmed(detected); detected) else area, Some((lat, lng)), true)
  }

  /** The two effects differ only on Gyeonggi: there the written one sets the padded name. */
  lemma DetectionDiffersOnGyeonggi(area: string, lat: real, lng: real)
    ensures var written := DetectLocation(area, Position(lat, lng));
      var intended := DetectLocationIntended(area, Position(lat, lng));
      if Locate(lat, lng) == Some(GyeonggiDo)
      then written.area == intended.area + "  " && Trim(written.area) != written.area
      else written == intended
  {
    var loc := Locate(lat, lng);
    var w := DetectLocation(area, Position(lat, lng));
    var d := DetectLocationIntended(area, Position(lat, lng));
    if loc == Some(GyeonggiDo) {
      var t := w.area;
      assert t == RegionName(GyeonggiDo) + "  ";
      assert t[|t| - 1] == ' ';
    } else if loc.Some? {
      assert w.area == d.area;
    }
  }

  // ---------------------------------------------------------------------------
  // The infinite list

  const ListPageSize: nat := 10

  /** `getNextPageParam`: no next page after a last page, else the number of pages loaded. */
  function NextPageParam(lastPage: VoucherResponse, loadedPages: nat): (r: Option<nat>)
    ensures r.None? <==> lastPage.last
    ensures r.Some? ==> r.value == loadedPages
  {
    if lastPage.last then None else Some(loadedPages)
  }

  /** `listVouchers`: every loaded page's vouchers, page after page; none without data. */
  function ListVouchers(data: Option<seq<VoucherResponse>>): (r: seq<VoucherItem>)
    ensures data.None? ==> r == []
    ensures data.Some? ==> forall v :: v in r <==> exists p :: p in data.value && v in p.content
  {
    match data
    case None => []
    case Some(pages) => FlattenMembers(pages); Flatten(pages)
  }

  function Flatten(pages: seq<VoucherResponse>): seq<VoucherItem> {
    if pages == [] then [] else Flatten(pages[..|pages| - 1]) + pages[|pages| - 1].content
  }

  /** A voucher is in the flattened list exactly when some page holds it. */
  lemma {:induction false} FlattenMembers(pages: seq<VoucherResponse>)
    ensures forall v :: v in Flatten(pages) <==> exists p :: p in pages && v in p.content
  {
    if pages != [] {
      var init := pages[..|pages| - 1];
      FlattenMembers(init);
      forall v
        ensures v in Flatten(pages) <==> exists p :: p in pages && v in p.content
      {
        if v in Flatten(init) {
          var p :| p in init && v in p.content;
          assert p in pages;
        }
        if v in pages[|pages| - 1].content {
          assert pages[|pages| - 1] in pages;
        }
        if exists p :: p in pages && v in p.content {
          var p :| p in pages && v in p.content;
          if p != pages[|pages| - 1] {
            assert p in init;
          }
        }
      }
    }
  }

  /** The pages 0..k-1 of a list, as the infinite query loads them. */
  function LoadedPages(filtered: seq<VoucherItem>, size: nat, k: nat): seq<VoucherResponse>
    requires size > 0
  {
    seq(k, i requires 0 <= i < k => PageOf(filtered, i, size))
  }

  /**
   * Loading page after page, the flattened list is the list's first pages
   * end to end.
   */
  lemma {:induction false} LoadedPagesFlatten(filtered: seq<VoucherItem>, size: nat, k: nat)
    requires size > 0
    ensures Flatten(LoadedPages(filtered, size, k)) == PagesUpTo(filtered, size, k)
  {
    if k > 0 {
      LoadedPagesFlatten(filtered, size, k - 1);
      var ps := LoadedPages(filtered, size, k);
      LoadedPagesSnoc(filtered, size, k);
      assert Flatten(ps) == Flatten(ps[..k - 1]) + ps[k - 1].content;
    }
  }

  /** Loading one more page appends it. */
  lemma LoadedPagesSnoc(filtered: seq<VoucherItem>, size: nat, k: nat)
    requires size > 0 && k > 0
    ensures LoadedPages(filtered, size, k)[..k - 1] == LoadedPages(filtered, size, k - 1)
    ensures LoadedPages(filtered, size, k)[k - 1] == PageOf(filtered, k - 1, size)
  {
  }

  /** While the last loaded page is not the last one, the parameter asked for is the next page number. */
  lemma NextPageIsNextNumber(filtered: seq<VoucherItem>, size: nat, k: nat)
    requires size > 0 && k > 0
    ensures var ps := LoadedPages(filtered, size, k);
      NextPageParam(ps[k - 1], k) == if PageOf(filtered, k - 1, size).last then None else Some(k)
  {
    assert LoadedPages(filtered, size, k)[k - 1] == PageOf(filtered, k - 1, size);
  }

  /** When the query stops asking for pages, the list holds every matching voucher exactly once, in order. */
  lemma ListCompleteAtLast(filtered: seq<VoucherItem>, size: nat, k: nat)
    requires size > 0 && k > 0
    requires PageOf(filtered, k - 1, size).last
    ensures ListVouchers(Some(LoadedPages(filtered, size, k))) == filtered
  {
    LoadedPagesFlatten(filtered, size, k);
    LastMeansNextEmpty(filtered, k - 1, size);
    var n := k * size;
    assert PageOf(filtered, k, size).content == [];
    assert n >= |filtered|;
    PagesUpToPrefix(filtered, size, k);
    assert PagesUpTo(filtered, size, k) == filtered[..|filtered|];
  }

  /** `mapVouchers`: the single map page's vouchers, none without data. */
  function MapVouchers(data: Option<VoucherResponse>): (r: seq<VoucherItem>)
    ensures data.Some? ==> r == data.value.content
    ensures data.None? ==> r == []
  {
    if data.Some? then data.value.content else []
  }

  // ---------------------------------------------------------------------------
  // The list view's pager and filters

  /** The page props a view may be handed: the current page and the page count. */
  datatype PageProps = PageProps(page: int, totalPages: int)

  /**
   * The filter props a view is handed: the filter values, and the page
   * props when the parent passes them (`None`: `page`, `setPage` and
   * `totalPages` are all `undefined`).
   */
  datatype FilterProps = FilterProps(area: string, sports: string, pager: Option<PageProps>)

  /** `filterProps` as the voucher page builds it for the list view: no page props at all. */
  function ListViewProps(area: string, sports: string): (p: FilterProps)
    ensures p.area == area && p.sports == sports && p.pager.None?
  {
    FilterProps(area, sports, None)
  }

  /** The map view's props: page 0 of 0 pages, with a setter that does nothing. */
  function MapViewProps(area: string, sports: string): (p: FilterProps)
    ensures p.area == area && p.sports == sports && p.pager == Some(PageProps(0, 0))
  {
    FilterProps(area, sports, Some(PageProps(0, 0)))
  }

  /**
   * The list view's props with the page props passed along, as its props
   * type declares them.
   */
  function ListViewPropsIntended(area: string, sports: string, page: int, totalPages: int): (p: FilterProps)
    ensures p.area == area && p.sports == sports && p.pager == Some(PageProps(page, totalPages))
  {
    FilterProps(area, sports, Some(PageProps(page, totalPages)))
  }

  /**
   * What a filter change handler leaves: the filter values after the
   * setter ran, the page it asked for (`None` when `setPage(0)` could not
   * run), and whether the handler threw.
   */
  datatype FilterChange = FilterChange(area: string, sports: string, pageRequest: Option<int>, threw: bool)

  /**
   * The area select's handler: `setArea` runs first, then `setPage(0)`,
   * which throws a `TypeError` when `setPage` is `undefined`.
   */
  function SelectArea(p: FilterProps, area: string): (c: FilterChange)
    ensures c.area == area && c.sports == p.sports
    ensures c.threw <==> p.pager.None?
    ensures !c.threw ==> c.pageRequest == Some(0)
    ensures c.threw ==> c.pageRequest.None?
  {
    if p.pager.Some? then FilterChange(area, p.sports, Some(0), false)
    else FilterChange(area, p.sports, None, true)
  }

  /** The sport select's handler: `setSports`, then `setPage(0)`, the same way. */
  function SelectSports(p: FilterProps, sports: string): (c: FilterChange)
    ensures c.sports == sports && c.area == p.area
    ensures c.threw <==> p.pager.None?
    ensures !c.threw ==> c.pageRequest == Some(0)
    ensures c.threw ==> c.pageRequest.None?
  {
    if p.pager.Some? then FilterChange(p.area, sports, Some(0), false)
    else FilterChange(p.area, sports, None, true)
  }

  /** The page controls are shown only for more than one page. */
  predicate ShowPager(totalPages: int) {
    totalPages > 1
  }

  /** `totalPages > 1` on the props: `undefined > 1` is false, so no page props means no pager. */
  predicate PagerShown(p: FilterProps) {
    p.pager.Some? && ShowPager(p.pager.value.totalPages)
  }

  /**
   * As written, neither view ever shows the pager, and every filter change
   * in the list view sets the new value and then throws before the page
   * is reset.
   */
  lemma PagerUnreachableAsWritten(area: string, sports: string, a: string, s: string)
    ensures !PagerShown(ListViewProps(area, sports)) && !PagerShown(MapViewProps(area, sports))
    ensures var c := SelectArea(ListViewProps(area, sports), a);
      c.threw && c.area == a && c.sports == sports && c.pageRequest.None?
    ensures var c := SelectSports(ListViewProps(area, sports), s);
      c.threw && c.sports == s && c.area == area && c.pageRequest.None?
  {
  }

  /**
   * With the page props passed, a filter change goes back to the first page
   * without throwing, and the pager shows exactly for more than one page.
   */
  lemma FilterChangeResetsPageIntended(area: string, sports: string, page: int, totalPages: int, a: string, s: string)
    ensures var p := ListViewPropsIntended(area, sports, page, totalPages);
      PagerShown(p) <==> totalPages > 1
    ensures var c := SelectArea(ListViewPropsIntended(area, sports, page, totalPages), a);
      !c.threw && c.area == a && c.sports == sports && c.pageRequest == Some(0)
    ensures var c := SelectSports(ListViewPropsIntended(area, sports, page, totalPages), s);
      !c.threw && c.sports == s && c.area == area && c.pageRequest == Some(0)
  {
  }

  /** "이전": one page back, never below the first. */
  function PreviousPage(page: int): (p: int)
    ensures p >= 0 && (page >= 0 ==> p <= page)
    ensures page > 0 ==> p == page - 1
  {
    if page - 1 > 0 then page - 1 else 0
  }

  predicate PreviousDisabled(page: int) {
    page == 0
  }

  /** "다음": one page forward, never past the last. */
  function NextPage(page: int, totalPages: int): (p: int)
    ensures p <= totalPages - 1
    ensures page + 1 <= totalPages - 1 ==> p == page + 1
  {
    if totalPages - 1 < page + 1 then totalPages - 1 else page + 1
  }

  predicate NextDisabled(page: int, totalPages: int) {
    page == totalPages - 1
  }

  /** The pager label, "page+1 / totalPages". */
  function PagerLabel(page: nat, totalPages: nat): string {
    Decimal(page + 1) + " / " + Decimal(totalPages)
  }

  /**
   * The label reads back: the text before the first slash is the one-based
   * page number and a space, the text after it a space and the page count.
   */
  lemma PagerLabelReadsBack(page: nat, totalPages: nat)
    ensures var shown := PagerLabel(page, totalPages);
      var i := IndexOf(shown, '/');
      2 <= i <= |shown| - 3 && shown[i - 1] == ' ' && shown[i + 1] == ' ' &&
      DigitsValue(shown[..i - 1]) == page + 1 && DigitsValue(shown[i + 2..]) == totalPages
  {
    var a := Decimal(page + 1);
    var b := Decimal(totalPages);
    var shown := PagerLabel(page, totalPages);
    assert shown == a + " / " + b;
    var i := IndexOf(shown, '/');
    assert shown[|a| + 1] == '/';
    assert shown[..|a| + 1] == a + " ";
    assert '/' !in a + " ";
    assert i == |a| + 1;
    assert shown[..|a|] == a;
    assert shown[|a| + 3..] == b;
    DecimalValue(page + 1);
    DecimalValue(totalPages);
  }

  /**
   * On a page in range, each button moves to a page in range, and a button
   * is disabled exactly when pressing it would leave the page where it is.
   */
  lemma PagerStaysInRange(page: int, totalPages: int)
    requires ShowPager(totalPages) && 0 <= page < totalPages
    ensures 0 <= PreviousPage(page) < totalPages && 0 <= NextPage(page, totalPages) < totalPages
    ensures PreviousDisabled(page) <==> PreviousPage(page) == page
    ensures NextDisabled(page, totalPages) <==> NextPage(page, totalPages) == page
  {
  }

  /** Back then forward returns to the page, except from the first page. */
  lemma NextUndoesPrevious(page: int, totalPages: int)
    requires 0 < page < totalPages
    ensures NextPage(PreviousPage(page), totalPages) == page
  {
  }
}
