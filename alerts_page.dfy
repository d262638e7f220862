/** The alerts page: the search and status filter over the polled alerts,
    the pager, and the lot selector that feeds the polling hook. */
module AlertsPage {
  import opened Common
  import opened Seqs
  import opened Text
  import opened AlertsApi

  const InitialPerPage := 10
  const NoAlertsText := "No alerts found."

  /** `a.value?.reservationNumber?.toString()`. */
  function ReservationText(a: Alert): (r: Option<string>)
    ensures a.value.None? || a.value.value.reservationNumber.NoRef? ==> r.None?
    ensures a.value.Some? && a.value.value.reservationNumber.RefText? ==> r == Some(a.value.value.reservationNumber.text)
    ensures a.value.Some? && a.value.value.reservationNumber.RefNumber? && a.value.value.reservationNumber.n >= 0 ==>
      r.Some? && DecimalValue(r.value) == Some(a.value.value.reservationNumber.n)
  {
    if a.value.None? then None
    else match a.value.value.reservationNumber
      case NoRef => None
      case RefNumber(n) => if n >= 0 then DecimalRoundTrip(n); Some(IntToString(n)) else Some(IntToString(n))
      case RefText(t) => Some(t)
  }

  /** `a.value?.customerName`. */
  function CustomerName(a: Alert): Option<string> {
    if a.value.None? then None else a.value.value.customerName
  }

  /** The search test: an empty search, the reservation number containing
      the text as typed, or the customer name containing it in any case. */
  predicate MatchesSearch(search: string, a: Alert)
    ensures search == "" ==> MatchesSearch(search, a)
    ensures MatchesSearch(search, a) <==>
      (search == "" ||
       (ReservationText(a).Some? && exists i :: OccursAt(ReservationText(a).value, search, i)) ||
       (CustomerName(a).Some? && exists i :: OccursAt(Lower(CustomerName(a).value), Lower(search), i)))
  {
    ContainsAt(ReservationText(a).GetOr(""), search);
    ContainsAt(Lower(CustomerName(a).GetOr("")), Lower(search));
    search == "" ||
    (ReservationText(a).Some? && Contains(ReservationText(a).value, search)) ||
    (CustomerName(a).Some? && Contains(Lower(CustomerName(a).value), Lower(search)))
  }

  /** The status test: "all", or the alert's type equal to the status in any case. */
  predicate MatchesStatus(status: string, a: Alert)
    ensures status == "all" || a.kind == status ==> MatchesStatus(status, a)
    ensures MatchesStatus(status, a) && status != "all" ==> Lower(a.kind) == Lower(status)
  {
    status == "all" || Lower(a.kind) == Lower(status)
  }

  function Keep(search: string, status: string): Alert -> bool {
    (a: Alert) => MatchesSearch(search, a) && MatchesStatus(status, a)
  }

  /** `filtered`; `alerts` is `None` when the hook's value is not an array. */
  function Filtered(alerts: Option<seq<Alert>>, search: string, status: string): (r: seq<Alert>)
    ensures alerts.None? ==> r == []
    ensures alerts.Some? ==> forall i :: 0 <= i < |r| ==>
      r[i] in alerts.value && MatchesSearch(search, r[i]) && MatchesStatus(status, r[i])
    ensures alerts.Some? ==> forall i :: (0 <= i < |alerts.value| &&
      MatchesSearch(search, alerts.value[i]) && MatchesStatus(status, alerts.value[i])) ==> alerts.value[i] in r
    ensures alerts.Some? ==> forall x ::
      multiset(r)[x] == if MatchesSearch(search, x) && MatchesStatus(status, x) then multiset(alerts.value)[x] else 0
  {
    if alerts.None? then []
    else
      FilterCounts(alerts.value, Keep(search, status));
      Filter(alerts.value, Keep(search, status))
  }

  /** The filtered alerts keep their order. */
  lemma FilteredKeepsOrder(alerts: seq<Alert>, search: string, status: string)
    ensures IsSubsequence(Filtered(Some(alerts), search, status), alerts)
  {
    FilterIsSubsequence(alerts, Keep(search, status));
  }

  /** With no search text and status "all" every alert is listed. */
  lemma NoFilterKeepsAll(alerts: seq<Alert>)
    ensures Filtered(Some(alerts), "", "all") == alerts
  {
    FilterKeepsAll(alerts, Keep("", "all"));
  }

  /** The status filter ignores case. */
  lemma StatusIgnoresCase(alerts: seq<Alert>, search: string, s1: string, s2: string)
    requires Lower(s1) == Lower(s2)
    requires s1 == "all" <==> s2 == "all"
    ensures Filtered(Some(alerts), search, s1) == Filtered(Some(alerts), search, s2)
  {
    FilterCongruent(alerts, Keep(search, s1), Keep(search, s2));
  }

  /** The customer-name search ignores case. */
  lemma CustomerSearchIgnoresCase(a: Alert, s1: string, s2: string)
    requires ReservationText(a).None? && s1 != "" && s2 != ""
    requires Lower(s1) == Lower(s2)
    ensures MatchesSearch(s1, a) == MatchesSearch(s2, a)
  {
  }

  /** The reservation-number search is case-sensitive. */
  lemma ReservationSearchIsCaseSensitive()
    ensures var a := Alert("1", "active", "", Some(AlertValue(RefText("AB1"), None, "")), "", "", "");
            MatchesSearch("AB", a) && !MatchesSearch("ab", a)
  {
    var hay := "AB1";
    assert "AB" <= hay;
    var needle := "ab";
    assert needle[0] == 'a' && hay[0] == 'A' && hay[1..][0] == 'B' && hay[2..][0] == '1';
    assert !(needle <= hay) && !(needle <= hay[1..]) && !(needle <= hay[2..]);
    assert hay[1..][1..] == hay[2..] && hay[2..][1..] == [];
    assert !Contains(hay[2..][1..], "ab");
  }

  /** `paginated`: page `page` of `perPage` items, clipped to the list. */
  function Paginate(filtered: seq<Alert>, page: int, perPage: int): (r: seq<Alert>)
    requires page >= 1 && perPage >= 1
    ensures |r| <= perPage
    ensures r == filtered[Min((page - 1) * perPage, |filtered|)..Min(page * perPage, |filtered|)]
  {
    Slice(filtered, (page - 1) * perPage, page * perPage)
  }

  /** `Math.ceil(filtered.length / perPage)`. */
  function PageCount(n: nat, perPage: int): (r: nat)
    requires perPage >= 1
    ensures (r - 1) * perPage < n <= r * perPage || (n == 0 && r == 0)
    ensures n <= r * perPage
  {
    (n + perPage - 1) / perPage
  }

  /** Pages 1 to `count` laid end to end. */
  function PagesUpTo(filtered: seq<Alert>, perPage: int, count: nat): seq<Alert>
    requires perPage >= 1
    decreases count
  {
    if count == 0 then [] else PagesUpTo(filtered, perPage, count - 1) + Paginate(filtered, count, perPage)
  }

  lemma {:induction false} PagesUpToArePrefix(filtered: seq<Alert>, perPage: int, count: nat)
    requires perPage >= 1
    ensures PagesUpTo(filtered, perPage, count) == filtered[..Min(count * perPage, |filtered|)]
    decreases count
  {
    if count > 0 {
      PagesUpToArePrefix(filtered, perPage, count - 1);
      var lo := Min((count - 1) * perPage, |filtered|);
      var hi := Min(count * perPage, |filtered|);
      assert filtered[..lo] + filtered[lo..hi] == filtered[..hi];
    }
  }

  /** The pager's pages together hold exactly the filtered alerts, in order. */
  lemma PagesCoverFiltered(filtered: seq<Alert>, perPage: int)
    requires perPage >= 1
    ensures PagesUpTo(filtered, perPage, PageCount(|filtered|, perPage)) == filtered
  {
    PagesUpToArePrefix(filtered, perPage, PageCount(|filtered|, perPage));
  }

  /** What the table body shows. */
  datatype TableView = Spinner | NoAlertsRow | AlertRows(rows: seq<Alert>)

  function Render(loading: bool, paginated: seq<Alert>): (v: TableView)
    ensures loading <==> v.Spinner?
    ensures v.NoAlertsRow? <==> !loading && paginated == []
    ensures v.AlertRows? ==> v.rows == paginated && v.rows != []
  {
    if loading then Spinner else if paginated == [] then NoAlertsRow else AlertRows(paginated)
  }

  /** The lot argument passed to the polling hook. */
  function HookLotFilter(selectedLot: string): (r: Option<string>)
    ensures r.None? <==> selectedLot == "all"
    ensures r.Some? ==> r.value == selectedLot
  {
    if selectedLot == "all" then None else Some(selectedLot)
  }

  /** The lot selector's `onChange`: `val || "all"`. */
  function OnLotChange(val: Option<string>): (r: string)
    ensures val.None? || val.value == "" ==> r == "all"
    ensures val.Some? && val.value != "" ==> r == val.value
  {
    if val.Some? && val.value != "" then val.value else "all"
  }

  /** The polled request carries a lot query exactly when a real lot is chosen. */
  lemma LotQueryIffLotChosen(val: Option<string>)
    ensures HasLotFilter(HookLotFilter(OnLotChange(val))) <==> val.Some? && val.value != "" && val.value != "all"
  {
  }
}
