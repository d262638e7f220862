/** The pricing page: one price row per lot, one cost row per cost entry,
    and the handlers that load, edit, add and delete them. */
module Pricing {
  import opened Common
  import opened Seqs
  import opened Text

  /** A JavaScript number restricted to integers, or `NaN`. */
  datatype Num = NaN | Num(value: int)

  /** A value the backend sends where the page expects a number. */
  datatype RawNumber = Missing | NumberValue(n: int) | TextValue(text: string)

  /** `Number(x)`: `undefined` is `NaN`, the empty string is 0, a decimal
      numeral is its value, and any other string is `NaN`. */
  function ToNumber(x: RawNumber): (r: Num)
    ensures x.Missing? ==> r == NaN
    ensures x.NumberValue? ==> r == Num(x.n)
    ensures x.TextValue? && x.text == "" ==> r == Num(0)
    ensures x.TextValue? && DecimalValue(x.text).Some? ==> r == Num(DecimalValue(x.text).value)
  {
    match x
    case Missing => NaN
    case NumberValue(n) => Num(n)
    case TextValue(t) =>
      if t == "" then Num(0)
      else if DecimalValue(t).Some? then Num(DecimalValue(t).value)
      else NaN
  }

  /** A lot as `fetchLots` returns it (its location is not modelled). */
  datatype LotInfo = LotInfo(id: string, name: string)

  // ---------------------------------------------------------------------
  // Price rows

  datatype PriceRow = PriceRow(id: string, name: string, minimumPrice: Num, maximumPrice: Num,
                               valetPrice: Num, currency: string)

  datatype PriceFields = PriceFields(minPrice: RawNumber, maxPrice: RawNumber, valetPrice: RawNumber)

  /** The body of `getLotPrice`: top-level price fields, a currency, and an
      optional nested `data` object with price fields of its own. */
  datatype PriceBody = PriceBody(minPrice: RawNumber, maxPrice: RawNumber, valetPrice: RawNumber,
                                 currency: string, data: Option<PriceFields>)

  /** The row of a lot whose price could not be read. */
  function ZeroRow(lot: LotInfo): (r: PriceRow)
    ensures r.id == lot.id && r.name == lot.name && r.currency == "USD"
    ensures r.minimumPrice == r.maximumPrice == r.valetPrice == Num(0)
  {
    PriceRow(lot.id, lot.name, Num(0), Num(0), Num(0), "USD")
  }

  function Currency(body: PriceBody): string {
    if body.currency != "" then body.currency else "USD"
  }

  /** The row built on first load from `price.data.*`; a failed call, or a
      body without `data` (reading through it throws), gives the zero row. */
  function LoadedPriceRow(lot: LotInfo, result: Call<PriceBody>): (r: PriceRow)
    ensures r.id == lot.id && r.name == lot.name
    ensures result.Err? || result.value.data.None? ==> r == ZeroRow(lot)
    ensures result.Ok? && result.value.data.Some? ==>
      r.minimumPrice == ToNumber(result.value.data.value.minPrice) &&
      r.maximumPrice == ToNumber(result.value.data.value.maxPrice) &&
      r.valetPrice == ToNumber(result.value.data.value.valetPrice)
    ensures result.Ok? && result.value.data.Some? ==>
      r.currency == if result.value.currency != "" then result.value.currency else "USD"
  {
    if result.Err? || result.value.data.None? then ZeroRow(lot)
    else
      var f := result.value.data.value;
      PriceRow(lot.id, lot.name, ToNumber(f.minPrice), ToNumber(f.maxPrice), ToNumber(f.valetPrice),
               Currency(result.value))
  }

  /** The row built by the refetch after adding a price, which reads the
      top-level `price.*` fields instead. */
  function RefetchedPriceRow(lot: LotInfo, result: Call<PriceBody>): (r: PriceRow)
    ensures r.id == lot.id && r.name == lot.name
    ensures result.Err? ==> r == ZeroRow(lot)
    ensures result.Ok? ==>
      r.minimumPrice == ToNumber(result.value.minPrice) &&
      r.maximumPrice == ToNumber(result.value.maxPrice) &&
      r.valetPrice == ToNumber(result.value.valetPrice)
  {
    if result.Err? then ZeroRow(lot)
    else
      var b := result.value;
      PriceRow(lot.id, lot.name, ToNumber(b.minPrice), ToNumber(b.maxPrice), ToNumber(b.valetPrice), Currency(b))
  }

  /** A body shaped as the first load expects gives real prices on load
      and `NaN` prices after an add. */
  lemma PriceRefetchDisagreesWithLoad(lot: LotInfo)
    ensures var body := PriceBody(Missing, Missing, Missing, "USD",
                                  Some(PriceFields(NumberValue(5), NumberValue(20), NumberValue(8))));
            LoadedPriceRow(lot, Ok(body)).minimumPrice == Num(5) &&
            RefetchedPriceRow(lot, Ok(body)).minimumPrice == NaN
  {
  }

  /** All price rows for a list of lots, one call result per lot. */
  function PriceRows(lots: seq<LotInfo>, results: seq<Call<PriceBody>>): (r: seq<PriceRow>)
    requires |results| == |lots|
    ensures |r| == |lots|
    ensures forall i :: 0 <= i < |lots| ==> r[i] == LoadedPriceRow(lots[i], results[i])
  {
    seq(|lots|, i requires 0 <= i < |lots| => LoadedPriceRow(lots[i], results[i]))
  }

  /** After adding a price, the corrected refetch gives the rows a fresh
      load of the page gives, so the prices the backend reports under
      `data` are shown in both cases. */
  lemma CorrectedRefetchShowsReportedPrices(lots: seq<LotInfo>, results: seq<Call<PriceBody>>, i: int)
    requires |results| == |lots| && 0 <= i < |lots|
    requires results[i].Ok? && results[i].value.data.Some?
    ensures PriceRows(lots, results)[i].minimumPrice == ToNumber(results[i].value.data.value.minPrice)
    ensures PriceRows(lots, results)[i].maximumPrice == ToNumber(results[i].value.data.value.maxPrice)
    ensures PriceRows(lots, results)[i].valetPrice == ToNumber(results[i].value.data.value.valetPrice)
  {
  }

  /** The edit form; `None` is an `undefined` field. */
  datatype PriceForm = PriceForm(minimumPrice: Option<Num>, maximumPrice: Option<Num>, valetPrice: Option<Num>)

  predicate FormComplete(f: PriceForm) {
    f.minimumPrice.Some? && f.maximumPrice.Some? && f.valetPrice.Some?
  }

  /** The guard of `handleEditSave`: a lot id and all three prices. */
  predicate EditGuard(editLotId: Option<string>, f: PriceForm)
    ensures EditGuard(editLotId, f) <==>
      editLotId.Some? && editLotId.value != "" &&
      f.minimumPrice != None && f.maximumPrice != None && f.valetPrice != None
  {
    editLotId.Some? && editLotId.value != "" && FormComplete(f)
  }

  /** The guard tests for `undefined`, so zero prices are accepted. */
  lemma ZeroPricesPassGuard(id: string)
    requires id != ""
    ensures EditGuard(Some(id), PriceForm(Some(Num(0)), Some(Num(0)), Some(Num(0))))
  {
  }

  /** The price update sent to the backend. */
  datatype PricePayload = PricePayload(lotId: string, minPrice: Num, maxPrice: Num, valetPrice: Num)

  function PricePayloadOf(lotId: string, f: PriceForm): (p: PricePayload)
    requires FormComplete(f)
    ensures p.lotId == lotId
    ensures p.minPrice == f.minimumPrice.value && p.maxPrice == f.maximumPrice.value && p.valetPrice == f.valetPrice.value
  {
    PricePayload(lotId, f.minimumPrice.value, f.maximumPrice.value, f.valetPrice.value)
  }

  /** The table update after a saved edit: rows with id `lotId` take the
      three new prices, and nothing else changes. */
  function ApplyPriceEdit(rows: seq<PriceRow>, lotId: string, f: PriceForm): (r: seq<PriceRow>)
    requires FormComplete(f)
    ensures |r| == |rows|
    ensures forall i :: 0 <= i < |rows| && rows[i].id != lotId ==> r[i] == rows[i]
    ensures forall i :: 0 <= i < |rows| && rows[i].id == lotId ==>
      r[i].minimumPrice == f.minimumPrice.value && r[i].maximumPrice == f.maximumPrice.value &&
      r[i].valetPrice == f.valetPrice.value &&
      r[i].id == rows[i].id && r[i].name == rows[i].name && r[i].currency == rows[i].currency
  {
    seq(|rows|, i requires 0 <= i < |rows| =>
      if rows[i].id == lotId
      then rows[i].(minimumPrice := f.minimumPrice.value, maximumPrice := f.maximumPrice.value,
                    valetPrice := f.valetPrice.value)
      else rows[i])
  }

  /** Saving the same edit twice gives the table of saving it once. */
  lemma ApplyPriceEditIdempotent(rows: seq<PriceRow>, lotId: string, f: PriceForm)
    requires FormComplete(f)
    ensures ApplyPriceEdit(ApplyPriceEdit(rows, lotId, f), lotId, f) == ApplyPriceEdit(rows, lotId, f)
  {
  }

  /** The add form; its lot id is a plain string. */
  datatype AddForm = AddForm(lotId: string, prices: PriceForm)

  /** The guard of `handleAddSave`. */
  predicate AddGuard(f: AddForm)
    ensures AddGuard(f) <==>
      f.lotId != "" && f.prices.minimumPrice != None && f.prices.maximumPrice != None && f.prices.valetPrice != None
  {
    f.lotId != "" && FormComplete(f.prices)
  }

  // ---------------------------------------------------------------------
  // Cost rows

  const MonthNames: seq<string> := ["", "Jan", "Feb", "Mar", "Apr", "May", "Jun",
                                     "Jul", "Aug", "Sep", "Oct", "Nov", "Dec"]

  /** A cost's `month` as the backend sends it. */
  datatype MonthField = NoMonth | MonthNumber(n: int) | MonthText(text: string)

  /** The month shown for a cost; `None` is `undefined`. A number indexes
      the month names; a string is looked up by its numeric value and kept
      as it is when that gives no name. */
  function MonthLabel(m: MonthField): (r: Option<string>)
    ensures m.MonthNumber? && 1 <= m.n <= 12 ==> r == Some(MonthNames[m.n]) && r.value != ""
    ensures m.MonthNumber? && (m.n < 0 || m.n > 12) ==> r == None
    ensures m.MonthText? ==> r.Some?
    ensures m.MonthText? && DecimalValue(m.text).None? && m.text != "" ==> r == Some(m.text)
    ensures m.MonthNumber? && m.n == 0 ==> r == Some("")
    ensures m.MonthText? && DecimalValue(m.text).Some? && 1 <= DecimalValue(m.text).value <= 12 ==>
      r == Some(MonthNames[DecimalValue(m.text).value])
    ensures m.MonthText? && !(DecimalValue(m.text).Some? && 1 <= DecimalValue(m.text).value <= 12) ==>
      r == Some(m.text)
    ensures m.NoMonth? ==> r == None
  {
    match m
    case NoMonth => None
    case MonthNumber(n) => if 0 <= n <= 12 then Some(MonthNames[n]) else None
    case MonthText(t) =>
      var k := ToNumber(TextValue(t));
      if k.Num? && 1 <= k.value <= 12 then Some(MonthNames[k.value]) else Some(t)
  }

  /** A month sent as the numeral "n" shows the same name as the number n. */
  lemma MonthTextAgreesWithNumber(n: nat)
    requires 1 <= n <= 12
    ensures MonthLabel(MonthText(NatToString(n))) == MonthLabel(MonthNumber(n))
  {
    DecimalRoundTrip(n);
  }

  /** The names are the twelve months in calendar order. */
  lemma MonthNamesInOrder()
    ensures |MonthNames| == 13 && MonthNames[1] == "Jan" && MonthNames[12] == "Dec"
    ensures forall i, j :: 1 <= i < j <= 12 ==> MonthNames[i] != MonthNames[j]
  {
  }

  datatype RawCost = RawCost(id: string, lotId: string, month: MonthField, year: int, amount: RawNumber)

  /** The body of `getAllCosts`: an array, or an object whose `data` may be one. */
  datatype CostsBody = CostList(costs: seq<RawCost>) | Wrapped(data: Option<seq<RawCost>>)

  /** The unwrapping of the first cost load: `.data` when that is an array,
      otherwise the body as it is; `None` when the result is not an array. */
  function UnwrapCosts(body: CostsBody): (r: Option<seq<RawCost>>)
    ensures body.CostList? ==> r == Some(body.costs)
    ensures body.Wrapped? ==> r == body.data
  {
    match body
    case CostList(cs) => Some(cs)
    case Wrapped(d) => d
  }

  datatype CostRow = CostRow(id: string, lotId: string, lotName: string, month: Option<string>,
                             year: int, amount: Num)

  /** `lots.find(l => l.id === lotId)`. */
  function FindLot(lots: seq<LotInfo>, lotId: string): Option<LotInfo> {
    Find(lots, (l: LotInfo) => l.id == lotId)
  }

  /** A cost row on first load: the lot's name, else the lot id. */
  function CostRowOf(c: RawCost, lots: seq<LotInfo>): (r: CostRow)
    ensures r.id == c.id && r.lotId == c.lotId && r.year == c.year
    ensures r.month == MonthLabel(c.month) && r.amount == ToNumber(c.amount)
    ensures FindLot(lots, c.lotId).Some? ==> r.lotName == FindLot(lots, c.lotId).value.name
    ensures FindLot(lots, c.lotId).None? ==> r.lotName == c.lotId
  {
    var lot := FindLot(lots, c.lotId);
    CostRow(c.id, c.lotId, if lot.Some? then lot.value.name else c.lotId, MonthLabel(c.month),
            c.year, ToNumber(c.amount))
  }

  function CostRows(costs: seq<RawCost>, lots: seq<LotInfo>): (r: seq<CostRow>)
    ensures |r| == |costs|
    ensures forall i :: 0 <= i < |costs| ==> r[i] == CostRowOf(costs[i], lots)
  {
    seq(|costs|, i requires 0 <= i < |costs| => CostRowOf(costs[i], lots))
  }

  /** The `month` field shown unmapped, as the cost refetch leaves it. */
  function RawMonthText(m: MonthField): Option<string> {
    match m
    case NoMonth => None
    case MonthNumber(n) => Some(IntToString(n))
    case MonthText(t) => Some(t)
  }

  /** A row of the refetch after saving a cost: the month unmapped, the
      lot's name or `""` when the lot is unknown. The source spreads the
      amount unconverted; a row here holds numbers, so it goes through
      `ToNumber`, which shows a numeric amount the same way. */
  function RefetchedCostRow(c: RawCost, lots: seq<LotInfo>): (r: CostRow)
    ensures r.id == c.id && r.lotId == c.lotId && r.year == c.year
    ensures r.month == RawMonthText(c.month) && r.amount == ToNumber(c.amount)
    ensures FindLot(lots, c.lotId).Some? ==> r.lotName == FindLot(lots, c.lotId).value.name
    ensures FindLot(lots, c.lotId).None? ==> r.lotName == ""
  {
    var lot := FindLot(lots, c.lotId);
    CostRow(c.id, c.lotId, if lot.Some? then lot.value.name else "", RawMonthText(c.month),
            c.year, ToNumber(c.amount))
  }

  /** The same cost is shown as "Mar" under its lot id on load, and as "3"
      with no lot name after the refetch. */
  lemma CostRefetchDisagreesWithLoad()
    ensures var c := RawCost("c1", "L9", MonthNumber(3), 2025, NumberValue(100));
            CostRowOf(c, []).month == Some("Mar") && CostRowOf(c, []).lotName == "L9" &&
            RefetchedCostRow(c, []).month == Some("3") && RefetchedCostRow(c, []).lotName == ""
  {
    assert NatToString(3) == "3";
  }

  /** The refetch after saving a cost calls `.map` on the body as it is:
      a wrapped body is an object, `.map` throws, and no rows come back. */
  function RefetchedCosts(body: CostsBody, lots: seq<LotInfo>): (r: Option<seq<CostRow>>)
    ensures r.None? <==> body.Wrapped?
    ensures body.CostList? ==> |r.value| == |body.costs|
    ensures body.CostList? ==>
      forall i :: 0 <= i < |body.costs| ==> r.value[i] == RefetchedCostRow(body.costs[i], lots)
  {
    match body
    case CostList(cs) =>
      Some(seq(|cs|, i requires 0 <= i < |cs| => RefetchedCostRow(cs[i], lots)))
    case Wrapped(_) => None
  }

  /** A `{data: [...]}` body, which the first load lists, makes the
      refetch after a save throw instead. */
  lemma WrappedCostsFailOnRefetch(cs: seq<RawCost>, lots: seq<LotInfo>)
    ensures UnwrapCosts(Wrapped(Some(cs))) == Some(cs)
    ensures RefetchedCosts(Wrapped(Some(cs)), lots).None?
  {
  }

  /** With the load mapping reused after a save, every cost row shows a
      month name for months 1 to 12 and never an empty lot label for a
      cost that has a lot id, known or not. */
  lemma CorrectedCostRefetchLabels(costs: seq<RawCost>, lots: seq<LotInfo>, i: int)
    requires 0 <= i < |costs|
    requires costs[i].lotId != ""
    requires forall k :: 0 <= k < |lots| ==> lots[k].name != ""
    ensures CostRows(costs, lots)[i].lotName != ""
    ensures costs[i].month.MonthNumber? && 1 <= costs[i].month.n <= 12 ==>
      CostRows(costs, lots)[i].month == Some(MonthNames[costs[i].month.n])
  {
  }

  /** `prev.filter(c => c.id !== id)`. */
  function RemoveCost(rows: seq<CostRow>, id: string): (r: seq<CostRow>)
    ensures forall k :: 0 <= k < |r| ==> r[k].id != id && r[k] in rows
    ensures forall k :: 0 <= k < |rows| && rows[k].id != id ==> rows[k] in r
    ensures forall x :: multiset(r)[x] == if x.id != id then multiset(rows)[x] else 0
  {
    FilterCounts(rows, (c: CostRow) => c.id != id);
    Filter(rows, (c: CostRow) => c.id != id)
  }

  /** A delete removes exactly the rows with that id and keeps the others in order. */
  lemma RemoveCostKeepsOrder(rows: seq<CostRow>, id: string)
    ensures IsSubsequence(RemoveCost(rows, id), rows)
    ensures (forall k :: 0 <= k < |rows| ==> rows[k].id != id) ==> RemoveCost(rows, id) == rows
  {
    FilterIsSubsequence(rows, (c: CostRow) => c.id != id);
    if forall k :: 0 <= k < |rows| ==> rows[k].id != id {
      FilterKeepsAll(rows, (c: CostRow) => c.id != id);
    }
  }

  const PastMonthsServerText := "Cannot delete costs for past months"
  const PastMonthsNotice := "You cannot delete costs for past months."

  /** The notification after a failed delete. */
  function DeleteFailureNotice(msg: string): (r: string)
    ensures Contains(msg, PastMonthsServerText) ==> r == PastMonthsNotice
    ensures !Contains(msg, PastMonthsServerText) ==> r == msg
  {
    if Contains(msg, PastMonthsServerText) then PastMonthsNotice else msg
  }

  /** The server's message shown with any surrounding text is replaced by
      the fixed notice. */
  lemma PastMonthsNoticeAnywhere(prefix: string, suffix: string)
    ensures DeleteFailureNotice(prefix + PastMonthsServerText + suffix) == PastMonthsNotice
  {
    var msg := prefix + PastMonthsServerText + suffix;
    assert OccursAt(msg, PastMonthsServerText, |prefix|) by {
      assert msg[|prefix|..|prefix| + |PastMonthsServerText|] == PastMonthsServerText;
    }
    ContainsAt(msg, PastMonthsServerText);
  }

  /** `getMonth()`: 0 for January to 11 for December. */
  newtype MonthIndex = m: int | 0 <= m < 12

  datatype CostForm = CostForm(lotId: string, date: Option<(int, MonthIndex)>, amount: Option<Num>, margin: Option<Num>)

  /** The guard of `handleCostSave`: a lot, a date, an amount and a margin. */
  predicate CostGuard(f: CostForm)
    ensures CostGuard(f) <==> f.lotId != "" && f.date != None && f.amount != None && f.margin != None
  {
    f.lotId != "" && f.date.Some? && f.amount.Some? && f.margin.Some?
  }

  /** The new cost sent to the backend; the margin is passed through
      unscaled. */
  datatype CostPayload = CostPayload(month: int, year: int, amount: Num, margin: Num, lotId: string)

  function CostPayloadOf(f: CostForm): (p: CostPayload)
    requires CostGuard(f)
    ensures 1 <= p.month <= 12
    ensures p.month == f.date.value.1 as int + 1 && p.year == f.date.value.0
    ensures p.lotId == f.lotId && p.amount == f.amount.value
    ensures MonthLabel(MonthNumber(p.month)).Some? && MonthLabel(MonthNumber(p.month)).value != ""
  {
    CostPayload(f.date.value.1 as int + 1, f.date.value.0, f.amount.value, f.margin.value, f.lotId)
  }

  // ---------------------------------------------------------------------
  // The page state

  const LoadFailed := "Failed to fetch lots or prices"
  const CostsFailed := "Failed to fetch costs"
  const UpdateFailed := "Failed to update price"
  const AddFailed := "Failed to add price"
  const AddCostFailed := "Failed to add cost"
  const DeleteCostFailed := "Failed to delete cost"

  class PricingPage {
    var lots: seq<LotInfo>
    var pricingData: seq<PriceRow>
    var costData: seq<CostRow>
    var error: string
    /** The message of the last notification shown. */
    var notice: string
    var editLotId: Option<string>
    var editForm: PriceForm
    var editModalOpen: bool
    var addForm: AddForm
    var addModalOpen: bool
    var costForm: CostForm
    var costModalOpen: bool

    constructor ()
      ensures lots == [] && pricingData == [] && costData == [] && error == "" && notice == ""
      ensures editLotId == None && !editModalOpen && !addModalOpen && !costModalOpen
      ensures editForm == PriceForm(None, None, None)
      ensures addForm == AddForm("", PriceForm(None, None, None))
      ensures costForm == CostForm("", None, None, None)
    {
      lots := [];
      pricingData := [];
      costData := [];
      error := "";
      notice := "";
      editLotId := None;
      editForm := PriceForm(None, None, None);
      editModalOpen := false;
      addForm := AddForm("", PriceForm(None, None, None));
      addModalOpen := false;
      costForm := CostForm("", None, None, None);
      costModalOpen := false;
    }

    /** The mount effect: the lots, then one price call per lot. */
    method LoadAll(lotsResult: Call<seq<LotInfo>>, prices: seq<Call<PriceBody>>)
      requires lotsResult.Ok? ==> |prices| == |lotsResult.value|
      modifies this`lots, this`pricingData, this`error
      ensures lotsResult.Ok? ==>
        lots == lotsResult.value && pricingData == PriceRows(lotsResult.value, prices) && error == ""
      ensures lotsResult.Err? ==>
        lots == old(lots) && pricingData == old(pricingData) && error == PlainMessage(lotsResult.error, LoadFailed)
    {
      error := "";
      if lotsResult.Err? {
        error := PlainMessage(lotsResult.error, LoadFailed);
        return;
      }
      lots := lotsResult.value;
      pricingData := PriceRows(lotsResult.value, prices);
    }

    /** The effect on `lots`: load the costs once lots are known. A body
        that is not an array makes `.map` throw; `typeErrorMessage` is the
        message of that error. */
    method FetchCosts(result: Call<CostsBody>, typeErrorMessage: string)
      requires typeErrorMessage != ""
      modifies this`costData, this`error
      ensures lots == [] ==> costData == old(costData) && error == old(error)
      ensures lots != [] && result.Ok? && UnwrapCosts(result.value).Some? ==>
        costData == CostRows(UnwrapCosts(result.value).value, lots) && error == old(error)
      ensures lots != [] && result.Ok? && UnwrapCosts(result.value).None? ==>
        costData == old(costData) && error == typeErrorMessage
      ensures lots != [] && result.Err? ==>
        costData == old(costData) && error == PlainMessage(result.error, CostsFailed)
    {
      if lots == [] {
        return;
      }
      if result.Err? {
        error := PlainMessage(result.error, CostsFailed);
        return;
      }
      var costs := UnwrapCosts(result.value);
      if costs.None? {
        error := typeErrorMessage;
        return;
      }
      costData := CostRows(costs.value, lots);
    }

    method OpenEditModal(row: PriceRow)
      modifies this`editLotId, this`editForm, this`editModalOpen
      ensures editLotId == Some(row.id) && editModalOpen
      ensures editForm == PriceForm(Some(row.minimumPrice), Some(row.maximumPrice), Some(row.valetPrice))
    {
      editLotId := Some(row.id);
      editForm := PriceForm(Some(row.minimumPrice), Some(row.maximumPrice), Some(row.valetPrice));
      editModalOpen := true;
    }

    /** `handleEditSave`; `sent` is the update sent, if any. */
    method HandleEditSave(result: Call<()>) returns (sent: Option<PricePayload>)
      modifies this`pricingData, this`editModalOpen, this`error
      ensures sent.Some? <==> EditGuard(editLotId, editForm)
      ensures !EditGuard(editLotId, editForm) ==>
        pricingData == old(pricingData) && editModalOpen == old(editModalOpen) && error == old(error)
      ensures EditGuard(editLotId, editForm) ==> sent.value == PricePayloadOf(editLotId.value, editForm)
      ensures EditGuard(editLotId, editForm) && result.Ok? ==>
        pricingData == ApplyPriceEdit(old(pricingData), editLotId.value, editForm) && !editModalOpen && error == ""
      ensures EditGuard(editLotId, editForm) && result.Err? ==>
        pricingData == old(pricingData) && editModalOpen == old(editModalOpen) &&
        error == ServerMessage(result.error, UpdateFailed)
    {
      if !EditGuard(editLotId, editForm) {
        return None;
      }
      error := "";
      sent := Some(PricePayloadOf(editLotId.value, editForm));
      if result.Err? {
        error := ServerMessage(result.error, UpdateFailed);
        return;
      }
      pricingData := ApplyPriceEdit(pricingData, editLotId.value, editForm);
      editModalOpen := false;
    }

    /** `openAddModal`: the first lot preselected, prices empty. */
    method OpenAddModal()
      modifies this`addForm, this`addModalOpen
      ensures addForm == AddForm(if lots != [] then lots[0].id else "", PriceForm(None, None, None))
      ensures addModalOpen
    {
      addForm := AddForm(if lots != [] then lots[0].id else "", PriceForm(None, None, None));
      addModalOpen := true;
    }

    /** `handleAddSave`: save, close, then reload the lots and their
        prices, mapped as on first load. */
    method HandleAddSave(saved: Call<()>, lotsResult: Call<seq<LotInfo>>, prices: seq<Call<PriceBody>>)
      returns (sent: Option<PricePayload>)
      requires lotsResult.Ok? ==> |prices| == |lotsResult.value|
      modifies this`lots, this`pricingData, this`addModalOpen, this`error
      ensures sent.Some? <==> AddGuard(addForm)
      ensures !AddGuard(addForm) ==>
        lots == old(lots) && pricingData == old(pricingData) && addModalOpen == old(addModalOpen) && error == old(error)
      ensures AddGuard(addForm) ==> sent.value == PricePayloadOf(addForm.lotId, addForm.prices)
      ensures AddGuard(addForm) && saved.Err? ==>
        lots == old(lots) && pricingData == old(pricingData) && addModalOpen == old(addModalOpen) &&
        error == ServerMessage(saved.error, AddFailed)
      ensures AddGuard(addForm) && saved.Ok? && lotsResult.Err? ==>
        lots == old(lots) && pricingData == old(pricingData) && !addModalOpen &&
        error == ServerMessage(lotsResult.error, AddFailed)
      ensures AddGuard(addForm) && saved.Ok? && lotsResult.Ok? ==>
        lots == lotsResult.value && pricingData == PriceRows(lotsResult.value, prices) && !addModalOpen && error == ""
    {
      if !AddGuard(addForm) {
        return None;
      }
      error := "";
      sent := Some(PricePayloadOf(addForm.lotId, addForm.prices));
      if saved.Err? {
        error := ServerMessage(saved.error, AddFailed);
        return;
      }
      addModalOpen := false;
      if lotsResult.Err? {
        error := ServerMessage(lotsResult.error, AddFailed);
        return;
      }
      lots := lotsResult.value;
      pricingData := PriceRows(lotsResult.value, prices);
    }

    /** `openCostModal`. */
    method OpenCostModal()
      modifies this`costForm, this`costModalOpen
      ensures costForm == CostForm(if lots != [] then lots[0].id else "", None, None, None)
      ensures costModalOpen
    {
      costForm := CostForm(if lots != [] then lots[0].id else "", None, None, None);
      costModalOpen := true;
    }

    /** `handleCostSave`: save, close, then reload the costs, mapped as on
        first load. */
    method HandleCostSave(saved: Call<()>, refetched: Call<CostsBody>, typeErrorMessage: string)
      returns (sent: Option<CostPayload>)
      requires typeErrorMessage != ""
      modifies this`costData, this`costModalOpen, this`error
      ensures sent.Some? <==> CostGuard(costForm)
      ensures !CostGuard(costForm) ==>
        costData == old(costData) && costModalOpen == old(costModalOpen) && error == old(error)
      ensures CostGuard(costForm) ==> sent.value == CostPayloadOf(costForm)
      ensures CostGuard(costForm) && saved.Err? ==>
        costData == old(costData) && costModalOpen == old(costModalOpen) &&
        error == ServerMessage(saved.error, AddCostFailed)
      ensures CostGuard(costForm) && saved.Ok? && refetched.Err? ==>
        costData == old(costData) && !costModalOpen && error == ServerMessage(refetched.error, AddCostFailed)
      ensures CostGuard(costForm) && saved.Ok? && refetched.Ok? && UnwrapCosts(refetched.value).None? ==>
        costData == old(costData) && !costModalOpen && error == typeErrorMessage
      ensures CostGuard(costForm) && saved.Ok? && refetched.Ok? && UnwrapCosts(refetched.value).Some? ==>
        costData == CostRows(UnwrapCosts(refetched.value).value, lots) && !costModalOpen && error == ""
    {
      if !CostGuard(costForm) {
        return None;
      }
      error := "";
      sent := Some(CostPayloadOf(costForm));
      if saved.Err? {
        error := ServerMessage(saved.error, AddCostFailed);
        return;
      }
      costModalOpen := false;
      if refetched.Err? {
        error := ServerMessage(refetched.error, AddCostFailed);
        return;
      }
      var costs := UnwrapCosts(refetched.value);
      if costs.None? {
        error := typeErrorMessage;
        return;
      }
      costData := CostRows(costs.value, lots);
    }

    /** `handleDeleteCost`: on success drop the rows with that id; on
        failure keep the list and show the message. */
    method HandleDeleteCost(id: string, result: Call<()>)
      modifies this`costData, this`error, this`notice
      ensures result.Ok? ==> costData == RemoveCost(old(costData), id) && error == "" && notice == old(notice)
      ensures result.Err? ==>
        costData == old(costData) &&
        error == ServerMessage(result.error, DeleteCostFailed) &&
        notice == DeleteFailureNotice(ServerMessage(result.error, DeleteCostFailed))
    {
      error := "";
      if result.Ok? {
        costData := RemoveCost(costData, id);
        return;
      }
      var msg := ServerMessage(result.error, DeleteCostFailed);
      error := msg;
      notice := DeleteFailureNotice(msg);
    }
  }
}
