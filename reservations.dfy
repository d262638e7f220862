/** The reservations list: status badges, the spot cells, the names of the
    reserved spots, loading and deleting. */
module Reservations {
  import opened Common
  import opened Seqs

  datatype ZoneRef = ZoneRef(id: string, name: string)

  /** A reservation's `spot`: absent, an array (only the id of each element
      matters), or a spot object with its zone. */
  datatype SpotField =
    | NoSpot
    | SpotArray(ids: seq<string>)
    | SpotObject(name: string, zone: Option<ZoneRef>)

  datatype Reservation = Reservation(id: string, licensePlate: string, status: string,
                                     spotId: string, spot: SpotField)

  /** The body of `fetchReservations`; `reservations` may be missing. */
  datatype ReservationsResponse = ReservationsResponse(reservations: Option<seq<Reservation>>)

  /** The body of `fetchSpotById`. */
  datatype SpotInfo = SpotInfo(name: string)

  // ---------------------------------------------------------------------
  // Badges and cells

  /** The colour of each status that has one of its own. */
  const BadgeColors: map<string, string> :=
    map["ACTIVE" := "blue", "COMPLETED" := "green", "CANCELLED" := "red", "PENDING" := "yellow"]

  /** The status badge's colour switch. */
  function BadgeColor(status: string): (color: string)
    ensures status in BadgeColors ==> color == BadgeColors[status]
    ensures status !in BadgeColors ==> color == "gray"
  {
    match status
    case "ACTIVE" => "blue"
    case "COMPLETED" => "green"
    case "CANCELLED" => "red"
    case "PENDING" => "yellow"
    case _ => "gray"
  }

  /** The switch compares exactly, so a lowercase status is gray. */
  lemma LowercaseStatusIsGray()
    ensures BadgeColor("active") == "gray" && BadgeColor("pending") == "gray"
  {
  }

  /** `value || "-"`. */
  function OrDash(s: string): (r: string)
    ensures r != ""
    ensures s != "" ==> r == s
    ensures s == "" ==> r == "-"
  {
    if s != "" then s else "-"
  }

  /** `reservation.spot?.name || "-"`; an array has no `name`. The table
      reads the name from the reservation itself, not from `spotNames`. */
  function SpotNameCell(r: Reservation): (cell: string)
    ensures r.spot.SpotObject? ==> cell == OrDash(r.spot.name)
    ensures !r.spot.SpotObject? ==> cell == "-"
  {
    if r.spot.SpotObject? then OrDash(r.spot.name) else "-"
  }

  /** `reservation.spot?.zone?.id || "-"`, computed into each row's
      `zoneId`; the table's "Zone Id" column shows `ZoneNameCell` instead,
      so this value is never rendered. */
  function ZoneIdCell(r: Reservation): (cell: string)
    ensures r.spot.SpotObject? && r.spot.zone.Some? ==> cell == OrDash(r.spot.zone.value.id)
    ensures !(r.spot.SpotObject? && r.spot.zone.Some?) ==> cell == "-"
  {
    if r.spot.SpotObject? && r.spot.zone.Some? then OrDash(r.spot.zone.value.id) else "-"
  }

  /** `reservation.spot?.zone?.name || "-"`. */
  function ZoneNameCell(r: Reservation): (cell: string)
    ensures r.spot.SpotObject? && r.spot.zone.Some? ==> cell == OrDash(r.spot.zone.value.name)
    ensures !(r.spot.SpotObject? && r.spot.zone.Some?) ==> cell == "-"
  {
    if r.spot.SpotObject? && r.spot.zone.Some? then OrDash(r.spot.zone.value.name) else "-"
  }

  // ---------------------------------------------------------------------
  // The spot ids to look up

  /** The id one reservation contributes: the first array element's id
      when `spot` is a non-empty array, otherwise `spotId`. */
  function CandidateSpotId(r: Reservation): string {
    if r.spot.SpotArray? && r.spot.ids != [] then r.spot.ids[0] else r.spotId
  }

  function CandidateSpotIds(rs: seq<Reservation>): (ids: seq<string>)
    ensures |ids| == |rs|
    ensures forall i :: 0 <= i < |rs| ==> ids[i] == CandidateSpotId(rs[i])
  {
    seq(|rs|, i requires 0 <= i < |rs| => CandidateSpotId(rs[i]))
  }

  predicate NoDuplicates<T(==)>(s: seq<T>) {
    forall i, j :: 0 <= i < j < |s| ==> s[i] != s[j]
  }

  /** `Array.from(new Set(s))`: each element once, at its first occurrence. */
  function Dedup(s: seq<string>): (r: seq<string>)
    ensures NoDuplicates(r)
    ensures forall x :: x in r <==> x in s
    decreases |s|
  {
    if s == [] then []
    else
      var init := s[..|s| - 1];
      var last := s[|s| - 1];
      assert s == init + [last];
      var p := Dedup(init);
      if last in init then p else p + [last]
  }

  function NonEmpty(): string -> bool {
    (id: string) => id != ""
  }

  /** `uniqueSpotIds`: every non-empty candidate id, once each. */
  function UniqueSpotIds(rs: seq<Reservation>): (ids: seq<string>)
    ensures NoDuplicates(ids)
    ensures forall i :: 0 <= i < |ids| ==> ids[i] != ""
    ensures forall id :: id in ids <==> id != "" && id in CandidateSpotIds(rs)
  {
    var d := Dedup(CandidateSpotIds(rs));
    var r := Filter(d, NonEmpty());
    FilterKeepsDistinct(d, NonEmpty());
    r
  }

  lemma {:induction false} FilterKeepsDistinct(s: seq<string>, p: string -> bool)
    requires NoDuplicates(s)
    ensures NoDuplicates(Filter(s, p))
    decreases |s|
  {
    if s != [] {
      FilterKeepsDistinct(s[1..], p);
      assert s[0] !in s[1..];
      assert s[0] !in Filter(s[1..], p);
    }
  }

  // ---------------------------------------------------------------------
  // The spot-name map

  /** The name shown for a looked-up spot: its name, `"-"` when it has
      none or the lookup failed. */
  function SpotLabel(lookup: Call<SpotInfo>): (shown: string)
    ensures shown != ""
    ensures lookup.Err? ==> shown == "-"
    ensures lookup.Ok? ==> shown == OrDash(lookup.value.name)
  {
    if lookup.Ok? then OrDash(lookup.value.name) else "-"
  }

  /** The map built from the lookups, in order. */
  function SpotNameMap(ids: seq<string>, lookups: seq<Call<SpotInfo>>): (r: map<string, string>)
    requires |lookups| == |ids|
    ensures forall id :: id in r <==> id in ids && id != ""
    decreases |ids|
  {
    if ids == [] then map[]
    else
      var n := |ids| - 1;
      var m := SpotNameMap(ids[..n], lookups[..n]);
      if ids[n] == "" then m else m[ids[n] := SpotLabel(lookups[n])]
  }

  /** Every non-empty unique id maps to its spot's label, and nothing else is in the map. */
  lemma {:induction false} SpotNameMapContents(ids: seq<string>, lookups: seq<Call<SpotInfo>>)
    requires |lookups| == |ids| && NoDuplicates(ids)
    ensures forall id :: id in SpotNameMap(ids, lookups) <==> id in ids && id != ""
    ensures forall i :: 0 <= i < |ids| && ids[i] != "" ==> SpotNameMap(ids, lookups)[ids[i]] == SpotLabel(lookups[i])
    ensures forall id :: id in SpotNameMap(ids, lookups) ==> SpotNameMap(ids, lookups)[id] != ""
    decreases |ids|
  {
    if ids != [] {
      var n := |ids| - 1;
      SpotNameMapContents(ids[..n], lookups[..n]);
      assert ids == ids[..n] + [ids[n]];
      forall i | 0 <= i < n
        ensures ids[..n][i] == ids[i] && lookups[..n][i] == lookups[i] && ids[i] != ids[n]
      {
      }
    }
  }

  /** The loop that fills `spotNameMap`. */
  method BuildSpotNames(ids: seq<string>, lookups: seq<Call<SpotInfo>>) returns (names: map<string, string>)
    requires |lookups| == |ids| && NoDuplicates(ids)
    ensures names == SpotNameMap(ids, lookups)
    ensures forall id :: id in names <==> id in ids && id != ""
    ensures forall i :: 0 <= i < |ids| && ids[i] != "" ==> names[ids[i]] == SpotLabel(lookups[i])
  {
    names := map[];
    var i := 0;
    while i < |ids|
      invariant 0 <= i <= |ids|
      invariant names == SpotNameMap(ids[..i], lookups[..i])
    {
      assert ids[..i + 1][..i] == ids[..i] && lookups[..i + 1][..i] == lookups[..i];
      if ids[i] != "" {
        names := names[ids[i] := SpotLabel(lookups[i])];
      }
      i := i + 1;
    }
    assert ids[..i] == ids && lookups[..i] == lookups;
    SpotNameMapContents(ids, lookups);
  }

  /** After a load, every spot id the listed reservations use maps to a
      non-empty label. */
  lemma LoadedNamesCoverSpots(resp: ReservationsResponse, lookups: seq<Call<SpotInfo>>, r: Reservation)
    requires |lookups| == |UniqueSpotIds(Listed(resp))|
    requires r in Listed(resp) && CandidateSpotId(r) != ""
    ensures CandidateSpotId(r) in SpotNameMap(UniqueSpotIds(Listed(resp)), lookups)
    ensures SpotNameMap(UniqueSpotIds(Listed(resp)), lookups)[CandidateSpotId(r)] != ""
  {
    var rs := Listed(resp);
    var k :| 0 <= k < |rs| && rs[k] == r;
    assert CandidateSpotIds(rs)[k] == CandidateSpotId(r);
    SpotNameMapContents(UniqueSpotIds(rs), lookups);
  }

  // ---------------------------------------------------------------------
  // The page state

  const NotAuthenticated := "Not authenticated. Please log in again."
  const FetchFailed := "Failed to fetch reservations."
  const DeleteFailed := "Failed to delete reservation."
  const AlreadyRemoved := "Reservation was already cancelled or not found. It has been removed from the list."

  /** The reservations a response lists: `data.reservations || []`. */
  function Listed(resp: ReservationsResponse): seq<Reservation> {
    resp.reservations.GetOr([])
  }

  class ReservationsPage {
    var reservations: seq<Reservation>
    var loading: bool
    var error: string
    /** Stored by `fetchData` but read by no cell: the spot column uses
        `SpotNameCell`. */
    var spotNames: map<string, string>
    var confirmDeleteOpen: bool
    var reservationToDelete: Option<Reservation>

    constructor ()
      ensures reservations == [] && !loading && error == "" && spotNames == map[]
      ensures !confirmDeleteOpen && reservationToDelete == None
    {
      reservations := [];
      loading := false;
      error := "";
      spotNames := map[];
      confirmDeleteOpen := false;
      reservationToDelete := None;
    }

    /** The delete icon of a row: remember the reservation and open the
        confirmation modal. */
    method AskDelete(r: Reservation)
      modifies this`reservationToDelete, this`confirmDeleteOpen
      ensures reservationToDelete == Some(r) && confirmDeleteOpen
    {
      reservationToDelete := Some(r);
      confirmDeleteOpen := true;
    }

    /** `fetchData`: the reservations, then the name of every spot they use. */
    method FetchData(hasToken: bool, result: Call<ReservationsResponse>, lookups: seq<Call<SpotInfo>>)
      requires result.Ok? ==> |lookups| == |UniqueSpotIds(Listed(result.value))|
      modifies this`reservations, this`loading, this`error, this`spotNames
      ensures !loading
      ensures !hasToken ==>
        error == NotAuthenticated && reservations == old(reservations) && spotNames == old(spotNames)
      ensures hasToken && result.Err? ==>
        error == ServerMessage(result.error, FetchFailed) &&
        reservations == old(reservations) && spotNames == old(spotNames)
      ensures hasToken && result.Ok? ==>
        error == "" && reservations == Listed(result.value) &&
        spotNames == SpotNameMap(UniqueSpotIds(Listed(result.value)), lookups)
    {
      loading := true;
      error := "";
      if !hasToken {
        error := NotAuthenticated;
        loading := false;
        return;
      }
      if result.Err? {
        error := ServerMessage(result.error, FetchFailed);
        loading := false;
        return;
      }
      reservations := Listed(result.value);
      var ids := UniqueSpotIds(reservations);
      spotNames := BuildSpotNames(ids, lookups);
      loading := false;
    }

    /** The confirm button of the delete modal; a successful or 404 delete
        reloads the list through `fetchData`. */
    method ConfirmDelete(hasToken: bool, deleted: Call<()>,
                         refetch: Call<ReservationsResponse>, lookups: seq<Call<SpotInfo>>)
      requires refetch.Ok? ==> |lookups| == |UniqueSpotIds(Listed(refetch.value))|
      modifies this`reservations, this`loading, this`error, this`spotNames
      modifies this`confirmDeleteOpen, this`reservationToDelete
      ensures old(reservationToDelete).None? ==>
        reservations == old(reservations) && error == old(error) && spotNames == old(spotNames) &&
        confirmDeleteOpen == old(confirmDeleteOpen) && reservationToDelete == None
      ensures old(reservationToDelete).Some? && !hasToken ==>
        error == NotAuthenticated && !confirmDeleteOpen && reservationToDelete == old(reservationToDelete) &&
        reservations == old(reservations) && spotNames == old(spotNames)
      ensures old(reservationToDelete).Some? && hasToken ==> !confirmDeleteOpen && reservationToDelete == None
      ensures old(reservationToDelete).Some? && hasToken && (deleted.Ok? || deleted.error.status == 404) ==>
        (refetch.Ok? ==> reservations == Listed(refetch.value) &&
                         spotNames == SpotNameMap(UniqueSpotIds(Listed(refetch.value)), lookups)) &&
        (refetch.Err? ==> reservations == old(reservations) && spotNames == old(spotNames))
      ensures old(reservationToDelete).Some? && hasToken && deleted.Ok? ==>
        error == if refetch.Ok? then "" else ServerMessage(refetch.error, FetchFailed)
      ensures old(reservationToDelete).Some? && hasToken && deleted.Err? && deleted.error.status == 404 ==>
        error == AlreadyRemoved
      ensures old(reservationToDelete).Some? && hasToken && deleted.Err? && deleted.error.status != 404 ==>
        error == ServerMessage(deleted.error, DeleteFailed) &&
        reservations == old(reservations) && spotNames == old(spotNames)
      ensures old(reservationToDelete).None? || !hasToken || (deleted.Err? && deleted.error.status != 404) ==>
        loading == old(loading)
      ensures old(reservationToDelete).Some? && hasToken && (deleted.Ok? || deleted.error.status == 404) ==>
        !loading
    {
      if reservationToDelete.None? {
        return;
      }
      if !hasToken {
        error := NotAuthenticated;
        confirmDeleteOpen := false;
        return;
      }
      if deleted.Ok? {
        FetchData(hasToken, refetch, lookups);
      } else if deleted.error.status == 404 {
        FetchData(hasToken, refetch, lookups);
        error := AlreadyRemoved;
      } else {
        error := ServerMessage(deleted.error, DeleteFailed);
      }
      confirmDeleteOpen := false;
      reservationToDelete := None;
    }
  }
}
