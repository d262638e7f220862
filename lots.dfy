/** The lots page: a list of lots, each holding zones, each holding spots,
    kept in page state and refreshed piece by piece from the API. */
module Lots {
  import opened Common
  import opened Seqs
  import opened Text

  /** A spot as the page stores it. */
  datatype Spot = Spot(id: string, name: string, floor: string, zoneId: string,
                       number: int, status: string, price: int,
                       createdAt: string, updatedAt: string, occupationType: string)

  datatype Zone = Zone(id: string, name: string, capacity: int, vehicleType: string,
                       spots: seq<Spot>)

  /** A lot as the page stores it (its map position is not modelled). */
  datatype Lot = Lot(id: string, name: string, zones: seq<Zone>, capacity: int)

  /** The `floor` of a spot as the API sends it. */
  datatype FloorValue = NoFloor | FloorNumber(n: int) | FloorText(text: string)

  datatype RawSpot = RawSpot(id: string, name: string, floor: FloorValue, zoneId: string,
                             number: int, status: string, price: int,
                             createdAt: string, updatedAt: string, occupationType: string)

  /** A zone as `fetchZones` returns it; its `spots` may be missing. */
  datatype RawZone = RawZone(id: string, name: string, capacity: int, vehicleType: string,
                             spots: Option<seq<RawSpot>>)

  /** A lot as `fetchLots` and `createLot` return it. */
  datatype RawLot = RawLot(id: string, name: string, capacity: int)

  /** The body of `fetchSpots`: a flat array of spots, an array whose
      elements are arrays of spots, or a value that is not an array. */
  datatype SpotsBody = NotAnArray | FlatArray(spots: seq<RawSpot>) | NestedArray(groups: seq<seq<RawSpot>>)

  /** A picked image file; `handle` tells apart two File objects that have
      the same name and size. */
  datatype ImageFile = ImageFile(name: string, size: nat, handle: nat)

  /** Which lot the page shows and which zone tab is active. */
  datatype Selection = Selection(lotId: string, activeZone: Option<string>)

  const NoTokenNotice := "No auth token found. Please log in again."
  const CreateZoneFailed := "Failed to create zone. Please try again."
  const AddSpotFailed := "Failed to create spot. Please try again."
  const EditSpotFailed := "Failed to update spot. Please try again."
  const CreateLotFailed := "Failed to create lot. Please try again."

  // ---------------------------------------------------------------------
  // Normalising API responses

  /** `s.floor?.toString() ?? ""`. */
  function FloorString(f: FloorValue): (r: string)
    ensures f.NoFloor? ==> r == ""
    ensures f.FloorText? ==> r == f.text
    ensures f.FloorNumber? && f.n >= 0 ==> DecimalValue(r) == Some(f.n)
    ensures f.FloorNumber? && f.n < 0 ==> |r| > 1 && r[0] == '-' && DecimalValue(r[1..]) == Some(-f.n)
  {
    match f
    case NoFloor => ""
    case FloorNumber(n) =>
      if n >= 0 then DecimalRoundTrip(n); IntToString(n)
      else DecimalRoundTrip(-n); assert IntToString(n)[1..] == NatToString(-n); IntToString(n)
    case FloorText(t) => t
  }

  /** One fetched spot: every field copied, the floor as text. */
  function ToSpot(s: RawSpot): (r: Spot)
    ensures r.id == s.id && r.name == s.name && r.zoneId == s.zoneId && r.number == s.number
    ensures r.status == s.status && r.price == s.price && r.occupationType == s.occupationType
    ensures r.createdAt == s.createdAt && r.updatedAt == s.updatedAt
    ensures r.floor == FloorString(s.floor)
  {
    Spot(s.id, s.name, FloorString(s.floor), s.zoneId, s.number, s.status, s.price,
         s.createdAt, s.updatedAt, s.occupationType)
  }

  function ToSpots(ss: seq<RawSpot>): (r: seq<Spot>)
    ensures |r| == |ss|
    ensures forall k :: 0 <= k < |ss| ==> r[k] == ToSpot(ss[k])
  {
    seq(|ss|, i requires 0 <= i < |ss| => ToSpot(ss[i]))
  }

  /** The zone mapping used after every zones fetch. */
  function ToZone(z: RawZone): (r: Zone)
    ensures r.id == z.id && r.name == z.name && r.capacity == z.capacity && r.vehicleType == z.vehicleType
    ensures z.spots.None? ==> r.spots == []
    ensures z.spots.Some? ==> |r.spots| == |z.spots.value|
    ensures z.spots.Some? ==> forall k :: 0 <= k < |r.spots| ==> r.spots[k] == ToSpot(z.spots.value[k])
  {
    Zone(z.id, z.name, z.capacity, z.vehicleType, ToSpots(z.spots.GetOr([])))
  }

  function ToZones(zs: seq<RawZone>): seq<Zone> {
    seq(|zs|, i requires 0 <= i < |zs| => ToZone(zs[i]))
  }

  /** The spot list the page takes from a `fetchSpots` body. */
  function NormaliseSpots(body: SpotsBody): (r: seq<RawSpot>)
    ensures body.NotAnArray? ==> r == []
    ensures body.FlatArray? ==> r == body.spots
    ensures body.NestedArray? && body.groups != [] ==> r == body.groups[0]
    ensures body.NestedArray? && body.groups == [] ==> r == []
  {
    match body
    case NotAnArray => []
    case FlatArray(ss) => ss
    case NestedArray(gs) => if gs == [] then [] else gs[0]
  }

  /** A nested response and a flat response carrying the same first group
      of spots give the page the same spots. */
  lemma NestedAgreesWithFlat(g: seq<RawSpot>, rest: seq<seq<RawSpot>>)
    ensures ToSpots(NormaliseSpots(NestedArray([g] + rest))) == ToSpots(NormaliseSpots(FlatArray(g)))
  {
  }

  /** The mapping of `fetchLots` results on mount and after an edit: zones start empty. */
  function LoadedLots(raw: seq<RawLot>): (r: seq<Lot>)
    ensures |r| == |raw|
    ensures forall i :: 0 <= i < |raw| ==>
      r[i].id == raw[i].id && r[i].name == raw[i].name && r[i].capacity == raw[i].capacity && r[i].zones == []
  {
    seq(|raw|, i requires 0 <= i < |raw| => Lot(raw[i].id, raw[i].name, [], raw[i].capacity))
  }

  // ---------------------------------------------------------------------
  // Updating one part of the nested lots list

  /** `lots.find(lot => lot.id === lotId)`. */
  function FindLot(lots: seq<Lot>, lotId: string): Option<Lot> {
    Find(lots, (l: Lot) => l.id == lotId)
  }

  /** Every lot whose id is `lotId` gets `zones`; all other lots are kept. */
  function WithZones(lots: seq<Lot>, lotId: string, zones: seq<Zone>): (r: seq<Lot>)
    ensures |r| == |lots|
    ensures forall i :: 0 <= i < |lots| ==>
      r[i].id == lots[i].id && r[i].name == lots[i].name && r[i].capacity == lots[i].capacity
    ensures forall i :: 0 <= i < |lots| && lots[i].id != lotId ==> r[i] == lots[i]
    ensures forall i :: 0 <= i < |lots| && lots[i].id == lotId ==> r[i].zones == zones
  {
    seq(|lots|, i requires 0 <= i < |lots| =>
      if lots[i].id == lotId then lots[i].(zones := zones) else lots[i])
  }

  /** The zones updater: the lots with the selected id get the fetched
      zones, mapped with their defaults; no other lot changes. */
  function RefreshZones(lots: seq<Lot>, lotId: string, fetched: seq<RawZone>): (r: seq<Lot>)
    ensures |r| == |lots|
    ensures forall i :: 0 <= i < |lots| && lots[i].id != lotId ==> r[i] == lots[i]
    ensures forall i :: 0 <= i < |lots| && lots[i].id == lotId ==>
      r[i].id == lots[i].id && r[i].name == lots[i].name && r[i].capacity == lots[i].capacity &&
      |r[i].zones| == |fetched| &&
      forall j :: 0 <= j < |fetched| ==> r[i].zones[j] == ToZone(fetched[j])
  {
    WithZones(lots, lotId, ToZones(fetched))
  }

  function MapZoneSpots(zones: seq<Zone>, zoneId: string, f: seq<Spot> -> seq<Spot>): (r: seq<Zone>)
    ensures |r| == |zones|
    ensures forall j :: 0 <= j < |zones| ==>
      r[j] == if zones[j].id == zoneId then zones[j].(spots := f(zones[j].spots)) else zones[j]
  {
    seq(|zones|, j requires 0 <= j < |zones| =>
      if zones[j].id == zoneId then zones[j].(spots := f(zones[j].spots)) else zones[j])
  }

  /** Apply `f` to the spots of the zones with id `zoneId` inside the lots
      with id `lotId`, leaving everything else alone. */
  function UpdateSpots(lots: seq<Lot>, lotId: string, zoneId: string, f: seq<Spot> -> seq<Spot>): (r: seq<Lot>)
    ensures |r| == |lots|
    ensures forall i :: 0 <= i < |lots| && lots[i].id != lotId ==> r[i] == lots[i]
    ensures forall i :: 0 <= i < |lots| && lots[i].id == lotId ==>
      r[i].id == lots[i].id && r[i].name == lots[i].name && r[i].capacity == lots[i].capacity &&
      |r[i].zones| == |lots[i].zones|
    ensures forall i, j :: 0 <= i < |lots| && lots[i].id == lotId && 0 <= j < |lots[i].zones| ==>
      r[i].zones[j] == if lots[i].zones[j].id == zoneId
                       then lots[i].zones[j].(spots := f(lots[i].zones[j].spots))
                       else lots[i].zones[j]
  {
    seq(|lots|, i requires 0 <= i < |lots| =>
      if lots[i].id == lotId then lots[i].(zones := MapZoneSpots(lots[i].zones, zoneId, f)) else lots[i])
  }

  lemma {:induction false} UpdateSpotsTwice(lots: seq<Lot>, lotId: string, zoneId: string, f: seq<Spot> -> seq<Spot>)
    requires forall ss :: f(f(ss)) == f(ss)
    ensures UpdateSpots(UpdateSpots(lots, lotId, zoneId, f), lotId, zoneId, f) == UpdateSpots(lots, lotId, zoneId, f)
  {
    var once := UpdateSpots(lots, lotId, zoneId, f);
    var twice := UpdateSpots(once, lotId, zoneId, f);
    forall i | 0 <= i < |lots|
      ensures twice[i] == once[i]
    {
      if lots[i].id == lotId {
        assert |twice[i].zones| == |once[i].zones|;
        forall j | 0 <= j < |once[i].zones|
          ensures twice[i].zones[j] == once[i].zones[j]
        {
          var z := lots[i].zones[j];
          if z.id == zoneId {
            assert once[i].zones[j] == z.(spots := f(z.spots));
            assert f(f(z.spots)) == f(z.spots);
          }
        }
        assert twice[i].zones == once[i].zones;
      }
    }
  }

  /** The filter `handleDeleteSpot` applies to one zone's spots. */
  function KeepOther(spotId: string): Spot -> bool {
    (s: Spot) => s.id != spotId
  }

  /** The updater `handleDeleteSpot` applies to the target zone's spots:
      it keeps every other spot, each as often as before, in order. */
  function DropSpot(spotId: string): (f: seq<Spot> -> seq<Spot>)
    ensures forall ss :: IsSubsequence(f(ss), ss)
    ensures forall ss, x :: multiset(f(ss))[x] == if x.id != spotId then multiset(ss)[x] else 0
  {
    FilterLaws(KeepOther(spotId));
    (ss: seq<Spot>) => Filter(ss, KeepOther(spotId))
  }

  /** `handleDeleteSpot`: in the selected lot, the zone `zoneId` loses its
      spots with id `spotId`; numbers of lots and zones do not change, and
      other lots, other zones and the zone's other fields are untouched. */
  function DeleteSpot(lots: seq<Lot>, lotId: string, zoneId: string, spotId: string): (r: seq<Lot>)
    ensures |r| == |lots|
    ensures forall i :: 0 <= i < |lots| ==> |r[i].zones| == |lots[i].zones| && r[i].id == lots[i].id
    ensures forall i :: 0 <= i < |lots| && lots[i].id != lotId ==> r[i] == lots[i]
    ensures forall i, j :: (0 <= i < |lots| && lots[i].id == lotId && 0 <= j < |lots[i].zones| &&
                            lots[i].zones[j].id != zoneId) ==> r[i].zones[j] == lots[i].zones[j]
    ensures forall i, j :: (0 <= i < |lots| && lots[i].id == lotId && 0 <= j < |lots[i].zones| &&
                            lots[i].zones[j].id == zoneId) ==>
        r[i].zones[j].(spots := lots[i].zones[j].spots) == lots[i].zones[j] &&
        r[i].zones[j].spots == Filter(lots[i].zones[j].spots, KeepOther(spotId))
  {
    UpdateSpots(lots, lotId, zoneId, DropSpot(spotId))
  }

  /** What is left of a zone's spots after a delete: no spot with the
      deleted id, every other spot, in the original order. */
  lemma DeletedSpotsRemainder(spots: seq<Spot>, spotId: string)
    ensures forall k :: 0 <= k < |Filter(spots, KeepOther(spotId))| ==> Filter(spots, KeepOther(spotId))[k].id != spotId
    ensures forall k :: 0 <= k < |spots| && spots[k].id != spotId ==> spots[k] in Filter(spots, KeepOther(spotId))
    ensures IsSubsequence(Filter(spots, KeepOther(spotId)), spots)
    ensures forall x ::
      multiset(Filter(spots, KeepOther(spotId)))[x] == if x.id != spotId then multiset(spots)[x] else 0
  {
    FilterIsSubsequence(spots, KeepOther(spotId));
    FilterCounts(spots, KeepOther(spotId));
  }

  /** Deleting the same spot twice is the same as deleting it once. */
  lemma DeleteSpotIdempotent(lots: seq<Lot>, lotId: string, zoneId: string, spotId: string)
    ensures DeleteSpot(DeleteSpot(lots, lotId, zoneId, spotId), lotId, zoneId, spotId) == DeleteSpot(lots, lotId, zoneId, spotId)
  {
    var f := DropSpot(spotId);
    forall ss
      ensures f(f(ss)) == f(ss)
    {
      FilterIdempotent(ss, KeepOther(spotId));
    }
    UpdateSpotsTwice(lots, lotId, zoneId, f);
  }

  /** The edit-spot updater: in the selected lot, the zone of the edited
      spot gets `spots`; nothing else changes. */
  function ReplaceZoneSpots(lots: seq<Lot>, lotId: string, zoneId: string, spots: seq<Spot>): (r: seq<Lot>)
    ensures |r| == |lots|
    ensures forall i :: 0 <= i < |lots| && lots[i].id != lotId ==> r[i] == lots[i]
    ensures forall i :: 0 <= i < |lots| && lots[i].id == lotId ==>
      r[i].id == lots[i].id && r[i].name == lots[i].name && r[i].capacity == lots[i].capacity &&
      |r[i].zones| == |lots[i].zones|
    ensures forall i, j :: 0 <= i < |lots| && lots[i].id == lotId && 0 <= j < |lots[i].zones| ==>
      (lots[i].zones[j].id != zoneId ==> r[i].zones[j] == lots[i].zones[j]) &&
      (lots[i].zones[j].id == zoneId ==> r[i].zones[j] == lots[i].zones[j].(spots := spots))
  {
    UpdateSpots(lots, lotId, zoneId, _ => spots)
  }

  /** The spots refetched after an edit, flattened and mapped. */
  function EditedSpots(body: SpotsBody): seq<Spot> {
    ToSpots(NormaliseSpots(body))
  }

  /** The effect that refetches the spots of every zone of the selected
      lot: a zone whose fetch failed gets no spots. */
  function WithFetchedSpots(zones: seq<Zone>, results: seq<Call<SpotsBody>>): (r: seq<Zone>)
    requires |results| == |zones|
    ensures |r| == |zones|
    ensures forall j :: 0 <= j < |zones| ==> r[j].(spots := zones[j].spots) == zones[j]
    ensures forall j :: 0 <= j < |zones| && results[j].Err? ==> r[j].spots == []
    ensures forall j :: 0 <= j < |zones| && results[j].Ok? ==>
      r[j].spots == ToSpots(NormaliseSpots(results[j].value))
  {
    seq(|zones|, j requires 0 <= j < |zones| =>
      zones[j].(spots := if results[j].Ok? then ToSpots(NormaliseSpots(results[j].value)) else []))
  }

  // ---------------------------------------------------------------------
  // Search, images, selection, creation

  /** The sidebar's search test: a non-empty name containing the search
      text, both lowercased. */
  predicate LotMatches(search: string, lot: Lot)
    ensures LotMatches(search, lot) <==>
      lot.name != "" && exists i :: OccursAt(Lower(lot.name), Lower(search), i)
    ensures lot.name != "" && search == "" ==> LotMatches(search, lot)
  {
    ContainsAt(Lower(lot.name), Lower(search));
    lot.name != "" && Contains(Lower(lot.name), Lower(search))
  }

  function LotMatcher(search: string): Lot -> bool {
    (l: Lot) => LotMatches(search, l)
  }

  /** The lots listed in the sidebar for a search text: exactly the
      matching lots. */
  function SearchLots(lots: seq<Lot>, search: string): (r: seq<Lot>)
    ensures forall i :: 0 <= i < |r| ==> r[i] in lots && LotMatches(search, r[i])
    ensures forall i :: 0 <= i < |lots| && LotMatches(search, lots[i]) ==> lots[i] in r
    ensures forall x :: multiset(r)[x] == if LotMatches(search, x) then multiset(lots)[x] else 0
  {
    FilterCounts(lots, LotMatcher(search));
    Filter(lots, LotMatcher(search))
  }

  lemma SearchLotsKeepsOrder(lots: seq<Lot>, search: string)
    ensures IsSubsequence(SearchLots(lots, search), lots)
  {
    FilterIsSubsequence(lots, LotMatcher(search));
  }

  /** The search ignores case: texts that lowercase alike list the same lots. */
  lemma SearchIgnoresCase(lots: seq<Lot>, a: string, b: string)
    requires Lower(a) == Lower(b)
    ensures SearchLots(lots, a) == SearchLots(lots, b)
  {
    FilterCongruent(lots, LotMatcher(a), LotMatcher(b));
  }

  /** With an empty search every lot that has a name is listed, in order. */
  lemma EmptySearchListsNamedLots(lots: seq<Lot>)
    requires forall i :: 0 <= i < |lots| ==> lots[i].name != ""
    ensures SearchLots(lots, "") == lots
  {
    forall i | 0 <= i < |lots|
      ensures LotMatcher("")(lots[i])
    {
      assert [] <= Lower(lots[i].name);
    }
    FilterKeepsAll(lots, LotMatcher(""));
  }

  predicate SameFile(a: ImageFile, b: ImageFile) {
    a.name == b.name && a.size == b.size
  }

  /** Some previously picked file has the same name and size as `f`. */
  predicate AlreadyPicked(prev: seq<ImageFile>, f: ImageFile) {
    exists i :: 0 <= i < |prev| && SameFile(prev[i], f)
  }

  function NotPickedIn(prev: seq<ImageFile>): ImageFile -> bool {
    (f: ImageFile) => !AlreadyPicked(prev, f)
  }

  /** The file input's change handler: the previous files stay as a
      prefix, followed by the new files that match no previous file by
      name and size. */
  function AddImages(prev: seq<ImageFile>, batch: seq<ImageFile>): (r: seq<ImageFile>)
    ensures |prev| <= |r| && r[..|prev|] == prev
    ensures forall i :: |prev| <= i < |r| ==> r[i] in batch && !AlreadyPicked(prev, r[i])
    ensures forall i :: 0 <= i < |batch| && !AlreadyPicked(prev, batch[i]) ==> batch[i] in r[|prev|..]
  {
    var added := Filter(batch, NotPickedIn(prev));
    assert (prev + added)[|prev|..] == added;
    prev + added
  }

  /** The added files keep the order they had in the batch. */
  lemma AddImagesKeepsBatchOrder(prev: seq<ImageFile>, batch: seq<ImageFile>)
    ensures IsSubsequence(AddImages(prev, batch)[|prev|..], batch)
  {
    var added := Filter(batch, NotPickedIn(prev));
    assert AddImages(prev, batch)[|prev|..] == added;
    FilterIsSubsequence(batch, NotPickedIn(prev));
  }

  /** Picking the same batch a second time adds nothing. */
  lemma PickingAgainAddsNothing(prev: seq<ImageFile>, batch: seq<ImageFile>)
    ensures AddImages(AddImages(prev, batch), batch) == AddImages(prev, batch)
  {
    var once := AddImages(prev, batch);
    forall i | 0 <= i < |batch|
      ensures !NotPickedIn(once)(batch[i])
    {
      var f := batch[i];
      if AlreadyPicked(prev, f) {
        var k :| 0 <= k < |prev| && SameFile(prev[k], f);
        assert once[k] == prev[k];
      } else {
        assert f in once[|prev|..];
        var k :| |prev| <= k < |once| && once[k] == f;
        assert SameFile(once[k], f);
      }
    }
    FilterDropsAll(batch, NotPickedIn(once));
    assert once + [] == once;
  }

  /** Repeats inside one batch are not removed. */
  lemma RepeatsInBatchKept(a: ImageFile, b: ImageFile)
    requires SameFile(a, b)
    ensures AddImages([], [a, b]) == [a, b]
  {
    assert !AlreadyPicked([], a) && !AlreadyPicked([], b);
    FilterKeepsAll([a, b], NotPickedIn([]));
  }

  function FirstZoneId(lot: Lot): Option<string> {
    if lot.zones != [] then Some(lot.zones[0].id) else None
  }

  /** The effect run when the lots change: with lots present and no lot
      selected, the first lot and its first zone become selected. */
  function AutoSelect(lots: seq<Lot>, current: Selection): (r: Selection)
    ensures lots != [] && current.lotId == "" ==> r.lotId == lots[0].id && r.activeZone == FirstZoneId(lots[0])
    ensures lots == [] || current.lotId != "" ==> r == current
  {
    if lots != [] && current.lotId == "" then Selection(lots[0].id, FirstZoneId(lots[0])) else current
  }

  /** `handleCreateLot` on success: the created lot is appended, without zones. */
  function AppendLot(lots: seq<Lot>, created: RawLot): (r: seq<Lot>)
    ensures |r| == |lots| + 1 && r[..|lots|] == lots
    ensures r[|lots|].id == created.id && r[|lots|].name == created.name &&
            r[|lots|].capacity == created.capacity && r[|lots|].zones == []
  {
    lots + [Lot(created.id, created.name, [], created.capacity)]
  }

  /** A lot created into an empty page becomes the selected lot. */
  lemma FirstCreatedLotIsSelected(created: RawLot)
    requires created.id != ""
    ensures AutoSelect(AppendLot([], created), Selection("", None)) == Selection(created.id, None)
  {
  }

  // ---------------------------------------------------------------------
  // The page state

  class LotsPage {
    var lots: seq<Lot>
    var selectedLotId: string
    var activeZone: Option<string>
    var selectedSpot: Option<Spot>
    var lotImages: seq<ImageFile>
    /** The text of the last notification or alert shown. */
    var notice: string

    constructor ()
      ensures lots == [] && selectedLotId == "" && activeZone == None
      ensures selectedSpot == None && lotImages == [] && notice == ""
    {
      lots := [];
      selectedLotId := "";
      activeZone := None;
      selectedSpot := None;
      lotImages := [];
      notice := "";
    }

    /** The mount effect: load the lots, each without zones. */
    method LoadLots(hasToken: bool, fetched: Call<seq<RawLot>>)
      modifies this`lots
      ensures lots == if hasToken && fetched.Ok? then LoadedLots(fetched.value) else old(lots)
    {
      if hasToken && fetched.Ok? {
        lots := LoadedLots(fetched.value);
      }
    }

    /** The effect that selects the first lot once lots are present. */
    method SelectFirstLot()
      modifies this`selectedLotId, this`activeZone
      ensures Selection(selectedLotId, activeZone) ==
              AutoSelect(lots, Selection(old(selectedLotId), old(activeZone)))
    {
      if |lots| > 0 && selectedLotId == "" {
        selectedLotId := lots[0].id;
        activeZone := FirstZoneId(lots[0]);
      }
    }

    /** The edit icon of a spot: that spot becomes the one being edited. */
    method SelectSpot(spot: Spot)
      modifies this`selectedSpot
      ensures selectedSpot == Some(spot)
    {
      selectedSpot := Some(spot);
    }

    /** A click on a lot in the sidebar. */
    method SelectLot(lot: Lot)
      modifies this`selectedLotId, this`activeZone
      ensures selectedLotId == lot.id && activeZone == FirstZoneId(lot)
    {
      selectedLotId := lot.id;
      activeZone := FirstZoneId(lot);
    }

    /** The effect that fetches the zones of the selected lot; a failed
        fetch is ignored. */
    method FetchAndSetZones(hasToken: bool, fetched: Call<seq<RawZone>>)
      modifies this`lots
      ensures lots == if selectedLotId != "" && hasToken && fetched.Ok?
                      then RefreshZones(old(lots), selectedLotId, fetched.value) else old(lots)
    {
      if selectedLotId == "" || !hasToken {
        return;
      }
      if fetched.Ok? {
        lots := RefreshZones(lots, selectedLotId, fetched.value);
      }
    }

    /** The effect that fetches the spots of every zone of the selected lot. */
    method FetchAllSpots(hasToken: bool, results: seq<Call<SpotsBody>>)
      requires FindLot(lots, selectedLotId).Some? ==> |results| == |FindLot(lots, selectedLotId).value.zones|
      modifies this`lots
      ensures var found := FindLot(old(lots), selectedLotId);
              lots == if hasToken && found.Some? && found.value.zones != []
                      then WithZones(old(lots), selectedLotId, WithFetchedSpots(found.value.zones, results))
                      else old(lots)
    {
      var found := FindLot(lots, selectedLotId);
      if found.None? || found.value.zones == [] || !hasToken {
        return;
      }
      lots := WithZones(lots, selectedLotId, WithFetchedSpots(found.value.zones, results));
    }

    /** `handleCreateZone`: create the zone, then refetch the selected lot's zones. */
    method HandleCreateZone(hasToken: bool, created: Call<()>, fetched: Call<seq<RawZone>>)
      modifies this`lots, this`notice
      ensures !hasToken ==> lots == old(lots) && notice == NoTokenNotice
      ensures hasToken && created.Err? ==> lots == old(lots) && notice == DataMessage(created.error, CreateZoneFailed)
      ensures hasToken && created.Ok? && fetched.Err? ==>
        lots == old(lots) && notice == DataMessage(fetched.error, CreateZoneFailed)
      ensures hasToken && created.Ok? && fetched.Ok? ==>
        lots == RefreshZones(old(lots), selectedLotId, fetched.value) && notice == "Zone created successfully."
    {
      if !hasToken {
        notice := NoTokenNotice;
        return;
      }
      if created.Err? {
        notice := DataMessage(created.error, CreateZoneFailed);
        return;
      }
      notice := "Zone created successfully.";
      if fetched.Err? {
        notice := DataMessage(fetched.error, CreateZoneFailed);
        return;
      }
      lots := RefreshZones(lots, selectedLotId, fetched.value);
    }

    /** `handleAddSpot`: create the spot, then refetch the selected lot's zones. */
    method HandleAddSpot(hasToken: bool, created: Call<()>, fetched: Call<seq<RawZone>>)
      modifies this`lots, this`notice
      ensures !hasToken ==> lots == old(lots) && notice == NoTokenNotice
      ensures hasToken && created.Err? ==> lots == old(lots) && notice == DataMessage(created.error, AddSpotFailed)
      ensures hasToken && created.Ok? && fetched.Err? ==>
        lots == old(lots) && notice == DataMessage(fetched.error, AddSpotFailed)
      ensures hasToken && created.Ok? && fetched.Ok? ==>
        lots == RefreshZones(old(lots), selectedLotId, fetched.value) && notice == "Spot created successfully."
    {
      if !hasToken {
        notice := NoTokenNotice;
        return;
      }
      if created.Err? {
        notice := DataMessage(created.error, AddSpotFailed);
        return;
      }
      notice := "Spot created successfully.";
      if fetched.Err? {
        notice := DataMessage(fetched.error, AddSpotFailed);
        return;
      }
      lots := RefreshZones(lots, selectedLotId, fetched.value);
    }

    /** `handleEditSpot`: patch the selected spot, then replace the spots of
        its zone with the refetched ones. */
    method HandleEditSpot(hasToken: bool, updated: Call<()>, fetched: Call<SpotsBody>)
      modifies this`lots, this`selectedSpot, this`notice
      ensures !hasToken ==> lots == old(lots) && selectedSpot == old(selectedSpot) && notice == NoTokenNotice
      ensures hasToken && old(selectedSpot).None? ==>
        lots == old(lots) && selectedSpot == None && notice == EditSpotFailed
      ensures hasToken && old(selectedSpot).Some? && updated.Err? ==>
        lots == old(lots) && selectedSpot == old(selectedSpot) && notice == DataMessage(updated.error, EditSpotFailed)
      ensures hasToken && old(selectedSpot).Some? && updated.Ok? && fetched.Err? ==>
        lots == old(lots) && selectedSpot == old(selectedSpot) && notice == DataMessage(fetched.error, EditSpotFailed)
      ensures hasToken && old(selectedSpot).Some? && updated.Ok? && fetched.Ok? ==>
        lots == ReplaceZoneSpots(old(lots), selectedLotId, old(selectedSpot).value.zoneId, EditedSpots(fetched.value)) &&
        selectedSpot == None && notice == "Spot updated successfully."
    {
      if !hasToken {
        notice := NoTokenNotice;
        return;
      }
      if selectedSpot.None? {
        // `new Error("No spot selected")` carries no response message
        notice := EditSpotFailed;
        return;
      }
      if updated.Err? {
        notice := DataMessage(updated.error, EditSpotFailed);
        return;
      }
      notice := "Spot updated successfully.";
      if fetched.Err? {
        notice := DataMessage(fetched.error, EditSpotFailed);
        return;
      }
      lots := ReplaceZoneSpots(lots, selectedLotId, selectedSpot.value.zoneId, EditedSpots(fetched.value));
      selectedSpot := None;
    }

    /** `handleDeleteSpot`: a local update, no API call. */
    method HandleDeleteSpot(zoneId: string, spotId: string)
      modifies this`lots
      ensures lots == DeleteSpot(old(lots), selectedLotId, zoneId, spotId)
    {
      lots := DeleteSpot(lots, selectedLotId, zoneId, spotId);
    }

    /** `handleCreateLot`: on success append the lot and clear the picked images. */
    method HandleCreateLot(hasToken: bool, created: Call<RawLot>)
      modifies this`lots, this`lotImages, this`notice
      ensures !hasToken ==> lots == old(lots) && lotImages == old(lotImages) && notice == NoTokenNotice
      ensures hasToken && created.Err? ==>
        lots == old(lots) && lotImages == old(lotImages) && notice == CreateLotFailed
      ensures hasToken && created.Ok? ==>
        lots == AppendLot(old(lots), created.value) && lotImages == [] && notice == old(notice)
    {
      if !hasToken {
        notice := NoTokenNotice;
        return;
      }
      if created.Err? {
        notice := CreateLotFailed;
        return;
      }
      lots := AppendLot(lots, created.value);
      lotImages := [];
    }

    /** The image input's change handler. */
    method PickImages(batch: seq<ImageFile>)
      modifies this`lotImages
      ensures lotImages == AddImages(old(lotImages), batch)
    {
      lotImages := AddImages(lotImages, batch);
    }
  }
}
