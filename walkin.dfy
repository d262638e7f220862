/** The walk-in entry and exit form: plate formatting, validation, the
    choice of API call, the failure rule for its reply, and the list of
    recent submissions. */
module WalkIn {
  import opened Common
  import opened Seqs
  import opened Text

  // ---------------------------------------------------------------------
  // formatLicensePlate

  function AlnumTest(): char -> bool {
    (c: char) => IsAlphanumeric(c)
  }

  predicate IsPlateChar(c: char) {
    IsUpperLetter(c) || IsDigit(c)
  }

  /** `value.replace(/[^A-Z0-9]/gi, "").toUpperCase()`: the ASCII letters
      and digits of `value`, uppercased, in order. */
  function Clean(value: string): (r: string)
    ensures |r| <= |value|
    ensures forall i :: 0 <= i < |r| ==> IsPlateChar(r[i])
  {
    Upper(Filter(value, AlnumTest()))
  }

  /** `formatLicensePlate`: up to three characters stay as they are,
      otherwise a hyphen follows the third and at most eight characters
      are kept. */
  function FormatLicensePlate(value: string): (r: string)
    ensures |r| <= 9
    ensures forall i :: 0 <= i < |r| && i != 3 ==> IsPlateChar(r[i])
    ensures |Clean(value)| <= 3 ==> r == Clean(value)
    ensures |Clean(value)| > 3 ==> |r| > 3 && r[3] == '-' && r[..3] == Clean(value)[..3]
  {
    var c := Clean(value);
    if |c| <= 3 then c
    else if |c| <= 6 then c[..3] + "-" + c[3..]
    else c[..3] + "-" + c[3..6] + Slice(c, 6, 8)
  }

  /** Only index 3 can hold a hyphen, and only when there are more than
      three characters. */
  lemma PlateHyphenOnlyAtThree(value: string)
    ensures forall i :: 0 <= i < |FormatLicensePlate(value)| ==>
      (FormatLicensePlate(value)[i] == '-' <==> i == 3)
  {
  }

  /** Four to six characters: the first three, a hyphen, the rest. */
  lemma PlateMiddleLengths(value: string)
    requires 4 <= |Clean(value)| <= 6
    ensures FormatLicensePlate(value) == Clean(value)[..3] + "-" + Clean(value)[3..]
  {
  }

  lemma UpperAppend(a: string, b: string)
    ensures Upper(a + b) == Upper(a) + Upper(b)
  {
  }

  lemma CleanAppend(a: string, b: string)
    ensures Clean(a + b) == Clean(a) + Clean(b)
  {
    FilterAppend(a, b, AlnumTest());
    UpperAppend(Filter(a, AlnumTest()), Filter(b, AlnumTest()));
  }

  /** Cleaning an already clean string changes nothing. */
  lemma CleanOfPlateChars(s: string)
    requires forall i :: 0 <= i < |s| ==> IsPlateChar(s[i])
    ensures Clean(s) == s
  {
    FilterKeepsAll(s, AlnumTest());
  }

  lemma CleanAroundHyphen(a: string, b: string)
    requires forall i :: 0 <= i < |a| ==> IsPlateChar(a[i])
    requires forall i :: 0 <= i < |b| ==> IsPlateChar(b[i])
    ensures Clean(a + "-" + b) == a + b
  {
    assert Clean("-") == [];
    CleanOfPlateChars(a);
    CleanOfPlateChars(b);
    CleanAppend(a, "-");
    CleanAppend(a + "-", b);
  }

  /** The formatted plate carries exactly the first eight characters of the
      cleaned input: formatting loses nothing else. */
  lemma {:induction false} CleanOfFormatted(value: string)
    ensures Clean(FormatLicensePlate(value)) == Clean(value)[..Min(8, |Clean(value)|)]
  {
    var c := Clean(value);
    if |c| <= 3 {
      CleanOfPlateChars(c);
      assert c[..Min(8, |c|)] == c;
    } else if |c| <= 6 {
      CleanAroundHyphen(c[..3], c[3..]);
      assert c[..3] + c[3..] == c[..Min(8, |c|)];
    } else {
      var tail := c[3..6] + Slice(c, 6, 8);
      assert Slice(c, 6, 8) == c[6..Min(8, |c|)];
      assert tail == c[3..Min(8, |c|)];
      assert FormatLicensePlate(value) == c[..3] + "-" + tail;
      CleanAroundHyphen(c[..3], tail);
      assert c[..3] + tail == c[..Min(8, |c|)];
    }
  }

  /** Formatting a formatted plate gives the same plate. */
  lemma {:induction false} FormatIdempotent(value: string)
    ensures FormatLicensePlate(FormatLicensePlate(value)) == FormatLicensePlate(value)
  {
    var c := Clean(value);
    CleanOfFormatted(value);
    var c2 := Clean(FormatLicensePlate(value));
    assert c2 == c[..Min(8, |c|)];
    if |c| > 6 {
      assert c2[..3] == c[..3] && c2[3..6] == c[3..6];
      assert Slice(c2, 6, 8) == Slice(c, 6, 8);
    }
  }

  // ---------------------------------------------------------------------
  // validateForm, the dispatch and the failure rule

  const SelectLotError := "Please select a parking lot"
  const SubmitFallback := "Submission failed. Please try again."

  /** The lot error `validateForm` records; the form is valid iff there is none. */
  function ValidateForm(selectedLot: string): (lotError: Option<string>)
    ensures lotError.None? <==> selectedLot != ""
    ensures lotError.Some? ==> lotError.value == SelectLotError
  {
    if selectedLot == "" then Some(SelectLotError) else None
  }

  datatype ReservationType = Entry | Exit

  /** The four backend calls the form can make. */
  datatype Endpoint = WalkInEntry | ReservationEntry | WalkInExit | ReservationExit

  /** Which call `handleSubmit` makes. */
  function ChooseEndpoint(kind: ReservationType, showVehicleDetails: bool, exitIsWalkIn: bool): (r: Endpoint)
    ensures r == WalkInEntry <==> kind == Entry && showVehicleDetails
    ensures r == ReservationEntry <==> kind == Entry && !showVehicleDetails
    ensures r == WalkInExit <==> kind == Exit && exitIsWalkIn
    ensures r == ReservationExit <==> kind == Exit && !exitIsWalkIn
  {
    match kind
    case Entry => if showVehicleDetails then WalkInEntry else ReservationEntry
    case Exit => if exitIsWalkIn then WalkInExit else ReservationExit
  }

  /** The fixed message of each branch when the reply carries none. */
  function FailureText(e: Endpoint): (r: string)
    ensures r != ""
  {
    match e
    case WalkInEntry => "Walk-in entry failed."
    case ReservationEntry => "Reservation entry failed."
    case WalkInExit => "Walk-in exit failed."
    case ReservationExit => "Reservation exit failed."
  }

  /** Each branch has its own text, so a failure message names the operation. */
  lemma FailureTextIdentifiesBranch(e1: Endpoint, e2: Endpoint)
    ensures FailureText(e1) == FailureText(e2) <==> e1 == e2
  {
  }

  /** What the call gave back: nothing (the entry wrappers swallow their
      errors), a body with its `error`, `success` and `message` fields, or
      a thrown error (the exit wrappers rethrow). */
  datatype Reply =
    | NoReply
    | Body(hasError: bool, success: Option<bool>, message: string)
    | Threw(error: HttpError)

  datatype Outcome = Succeeded | Failed(message: string)

  /** The message of the `catch` block: `err.message`, then
      `err.response.data.message`, then the fixed text. */
  function CatchMessage(e: HttpError): (r: string)
    ensures e.message != "" ==> r == e.message
    ensures e.message == "" && e.dataMessage != "" ==> r == e.dataMessage
    ensures e.message == "" && e.dataMessage == "" ==> r == SubmitFallback
    ensures r != ""
  {
    if e.message != "" then e.message else DataMessage(e, SubmitFallback)
  }

  /** How `handleSubmit` judges the reply. */
  function SubmitOutcome(e: Endpoint, reply: Reply): (r: Outcome)
    ensures r.Succeeded? <==> reply.Body? && !reply.hasError && reply.success != Some(false)
    ensures reply.NoReply? ==> r == Failed(FailureText(e))
    ensures reply.Body? && r.Failed? ==>
      r.message == if reply.message != "" then reply.message else FailureText(e)
    ensures reply.Threw? ==> r == Failed(CatchMessage(reply.error))
    ensures r.Failed? ==> r.message != ""
  {
    match reply
    case NoReply => Failed(FailureText(e))
    case Body(hasError, success, message) =>
      if hasError || success == Some(false)
      then Failed(if message != "" then message else FailureText(e))
      else Succeeded
    case Threw(err) => Failed(CatchMessage(err))
  }

  // ---------------------------------------------------------------------
  // The record of a successful submission and the recent list

  datatype Vehicle = Vehicle(make: string, model: string, color: string)
  const EmptyVehicle := Vehicle("", "", "")

  datatype LotOption = LotOption(id: string, name: string)

  datatype EntryDetails = EntryDetails(vehicle: Vehicle, zoneId: string)

  datatype Record = Record(id: string, licensePlate: string, lotId: string, lotName: string,
                           kind: ReservationType, details: Option<EntryDetails>)

  /** `lots.find(lot => lot.id === id)?.name || ""`. */
  function LotName(lots: seq<LotOption>, id: string): (r: string)
    ensures r != "" ==> exists i :: 0 <= i < |lots| && lots[i].id == id && lots[i].name == r
    ensures (forall i :: 0 <= i < |lots| ==> lots[i].id != id) ==> r == ""
    ensures forall i :: (0 <= i < |lots| && lots[i].id == id &&
                        (forall j :: 0 <= j < i ==> lots[j].id != id)) ==> r == lots[i].name
  {
    var lot := Find(lots, (o: LotOption) => o.id == id);
    if lot.Some? then lot.value.name else ""
  }

  /** The record added after a successful submission; `now` stands for `Date.now()`. */
  function NewRecord(now: nat, plate: string, lotId: string, lots: seq<LotOption>, kind: ReservationType,
                     showVehicleDetails: bool, vehicle: Vehicle, zoneId: string): (r: Record)
    ensures r.id == "RES" + NatToString(now)
    ensures r.licensePlate == plate && r.lotId == lotId && r.kind == kind
    ensures r.lotName == LotName(lots, lotId)
    ensures r.details.Some? <==> kind == Entry && showVehicleDetails
    ensures r.details.Some? ==> r.details.value == EntryDetails(vehicle, zoneId)
  {
    Record("RES" + NatToString(now), plate, lotId, LotName(lots, lotId), kind,
           if showVehicleDetails && kind == Entry then Some(EntryDetails(vehicle, zoneId)) else None)
  }

  /** `[newReservation, ...prev.slice(0, 4)]`. */
  function PushRecent(recent: seq<Record>, r: Record): (out: seq<Record>)
    ensures 1 <= |out| <= 5
    ensures out[0] == r
    ensures out[1..] == recent[..Min(4, |recent|)]
  {
    [r] + Slice(recent, 0, 4)
  }

  /** Records pushed one after another, oldest first. */
  function PushAll(recent: seq<Record>, rs: seq<Record>): seq<Record>
    decreases |rs|
  {
    if rs == [] then recent else PushAll(PushRecent(recent, rs[0]), rs[1..])
  }

  lemma TakeThroughPrefix(a: seq<Record>, x: Record, b: seq<Record>)
    requires |b| <= 5
    ensures (a + PushRecent(b, x))[..Min(5, |a| + |PushRecent(b, x)|)] ==
            (a + [x] + b)[..Min(5, |a| + 1 + |b|)]
  {
    var p := PushRecent(b, x);
    assert p == ([x] + b)[..Min(5, 1 + |b|)];
    var n := Min(5, |a| + |p|);
    assert n == Min(5, |a| + 1 + |b|);
    forall k | 0 <= k < n
      ensures (a + p)[k] == (a + [x] + b)[k]
    {
      if k >= |a| {
        assert (a + p)[k] == p[k - |a|];
        assert (a + [x] + b)[k] == ([x] + b)[k - |a|];
      }
    }
  }

  /** The recent list always holds the five newest records, newest first. */
  lemma {:induction false} RecentAreNewestFirst(recent: seq<Record>, rs: seq<Record>)
    requires |recent| <= 5
    ensures PushAll(recent, rs) == (Reverse(rs) + recent)[..Min(5, |rs| + |recent|)]
    decreases |rs|
  {
    if rs == [] {
      assert Reverse(rs) + recent == recent;
    } else {
      var p := PushRecent(recent, rs[0]);
      RecentAreNewestFirst(p, rs[1..]);
      assert Reverse(rs) == Reverse(rs[1..]) + [rs[0]];
      TakeThroughPrefix(Reverse(rs[1..]), rs[0], recent);
      assert Reverse(rs[1..]) + [rs[0]] + recent == Reverse(rs) + recent;
    }
  }

  // ---------------------------------------------------------------------
  // The form state

  /** The values `handleSubmit` sees when it starts, and the call it makes. */
  datatype Request = Request(endpoint: Endpoint, plate: string, lotId: string, lots: seq<LotOption>,
                             kind: ReservationType, showVehicleDetails: bool,
                             vehicle: Vehicle, zoneId: string)

  class WalkInForm {
    var reservationType: ReservationType
    var licensePlate: string
    var selectedLot: string
    var isSubmitting: bool
    var showSuccess: bool
    /** `errors.lot`. */
    var lotError: Option<string>
    var recent: seq<Record>
    var lots: seq<LotOption>
    var showVehicleDetails: bool
    var vehicle: Vehicle
    var zoneId: string
    var exitIsWalkIn: bool

    constructor ()
      ensures reservationType == Entry && licensePlate == "" && selectedLot == ""
      ensures !isSubmitting && !showSuccess && lotError == None && recent == [] && lots == []
      ensures !showVehicleDetails && vehicle == EmptyVehicle && zoneId == "" && exitIsWalkIn
    {
      reservationType := Entry;
      licensePlate := "";
      selectedLot := "";
      isSubmitting := false;
      showSuccess := false;
      lotError := None;
      recent := [];
      lots := [];
      showVehicleDetails := false;
      vehicle := EmptyVehicle;
      zoneId := "";
      exitIsWalkIn := true;
    }

    /** `handleSubmit` up to its await: validate, then mark the form as
        submitting and clear the errors. No request without a lot. */
    method BeginSubmit() returns (req: Option<Request>)
      modifies this`lotError, this`isSubmitting
      ensures req.None? <==> selectedLot == ""
      ensures selectedLot == "" ==> lotError == Some(SelectLotError) && isSubmitting == old(isSubmitting)
      ensures selectedLot != "" ==> (lotError == None && isSubmitting &&
        req.value == Request(ChooseEndpoint(reservationType, showVehicleDetails, exitIsWalkIn),
                             licensePlate, selectedLot, lots, reservationType, showVehicleDetails,
                             vehicle, zoneId))
    {
      lotError := ValidateForm(selectedLot);
      if lotError.Some? {
        return None;
      }
      isSubmitting := true;
      lotError := None;
      req := Some(Request(ChooseEndpoint(reservationType, showVehicleDetails, exitIsWalkIn),
                          licensePlate, selectedLot, lots, reservationType, showVehicleDetails,
                          vehicle, zoneId));
    }

    /** `handleSubmit` after its await: on success record the submission
        and reset the fields, on failure show the message; either way the
        form stops submitting. */
    method FinishSubmit(req: Request, reply: Reply, now: nat)
      modifies this`recent, this`showSuccess, this`licensePlate, this`selectedLot, this`vehicle
      modifies this`zoneId, this`showVehicleDetails, this`lotError, this`isSubmitting
      ensures !isSubmitting
      ensures SubmitOutcome(req.endpoint, reply).Succeeded? ==>
        recent == PushRecent(old(recent), NewRecord(now, req.plate, req.lotId, req.lots, req.kind,
                                                   req.showVehicleDetails, req.vehicle, req.zoneId)) &&
        showSuccess && licensePlate == "" && selectedLot == "" && vehicle == EmptyVehicle &&
        zoneId == "" && !showVehicleDetails && lotError == old(lotError)
      ensures SubmitOutcome(req.endpoint, reply).Failed? ==>
        lotError == Some(SubmitOutcome(req.endpoint, reply).message) &&
        recent == old(recent) && showSuccess == old(showSuccess) && licensePlate == old(licensePlate) &&
        selectedLot == old(selectedLot) && vehicle == old(vehicle) && zoneId == old(zoneId) &&
        showVehicleDetails == old(showVehicleDetails)
    {
      var outcome := SubmitOutcome(req.endpoint, reply);
      if outcome.Succeeded? {
        var record := NewRecord(now, req.plate, req.lotId, req.lots, req.kind,
                                req.showVehicleDetails, req.vehicle, req.zoneId);
        recent := PushRecent(recent, record);
        showSuccess := true;
        licensePlate := "";
        selectedLot := "";
        vehicle := EmptyVehicle;
        zoneId := "";
        showVehicleDetails := false;
      } else {
        lotError := Some(outcome.message);
      }
      isSubmitting := false;
    }

    /** The timer that hides the success banner. */
    method SuccessTimeout()
      modifies this`showSuccess
      ensures !showSuccess
    {
      showSuccess := false;
    }
  }
}
