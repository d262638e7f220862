/** The alerts API: extracting alerts from a response, building the
    request URL, and the polling hook's loop, as an event-driven state
    machine. */
module AlertsApi {
  import opened Common
  import opened Text

  /** A `reservationNumber` as the backend sends it. */
  datatype RefValue = NoRef | RefNumber(n: int) | RefText(text: string)

  /** The free-form `value` object of an alert, reduced to the fields the pages read. */
  datatype AlertValue = AlertValue(reservationNumber: RefValue, customerName: Option<string>, message: string)

  /** An alert; `kind` is the `type` field. */
  datatype Alert = Alert(id: string, kind: string, createdAt: string, value: Option<AlertValue>,
                         customerId: string, vehicleId: string, reservationId: string)

  /** `response.data.data`; `alerts` is `None` when it is not an array. */
  datatype AlertsPayload = AlertsPayload(alerts: Option<seq<Alert>>)

  /** `response.data`, which may be missing or lack its `data` field. */
  datatype ResponseBody = NoBody | Body(data: Option<AlertsPayload>)

  const DefaultIntervalMs := 60000

  /** The response carries an array of alerts. */
  predicate WellFormed(body: ResponseBody) {
    body.Body? && body.data.Some? && body.data.value.alerts.Some?
  }

  /** `fetchAlerts`: the alerts array when there is one, otherwise `[]`. */
  function ExtractAlerts(body: ResponseBody): (r: seq<Alert>)
    ensures WellFormed(body) ==> r == body.data.value.alerts.value
    ensures !WellFormed(body) ==> r == []
  {
    if WellFormed(body) then body.data.value.alerts.value else []
  }

  /** `lotId && lotId !== "all"`. */
  predicate HasLotFilter(lotId: Option<string>) {
    lotId.Some? && lotId.value != "" && lotId.value != "all"
  }

  /** The URL `poll` requests; `encode` stands for `encodeURIComponent`. */
  function AlertsUrl(base: string, lotId: Option<string>, encode: string -> string): (url: string)
    ensures HasLotFilter(lotId) ==> url == base + "/alerts?lotId=" + encode(lotId.value)
    ensures !HasLotFilter(lotId) ==> url == base + "/alerts"
  {
    if HasLotFilter(lotId) then base + "/alerts?lotId=" + encode(lotId.value) else base + "/alerts"
  }

  /** When neither the base URL nor an encoded value holds a `?`, the URL
      has a query exactly when a lot filter applies. */
  lemma QueryIffLotFilter(base: string, lotId: Option<string>, encode: string -> string)
    requires '?' !in base
    requires forall s :: '?' !in encode(s)
    ensures '?' in AlertsUrl(base, lotId, encode) <==> HasLotFilter(lotId)
  {
    var tail := "/alerts";
    assert '?' !in tail;
    if HasLotFilter(lotId) {
      var url := AlertsUrl(base, lotId, encode);
      assert url[|base| + 7] == '?';
    } else {
      assert forall i :: 0 <= i < |base + tail| ==> (base + tail)[i] == if i < |base| then base[i] else tail[i - |base|];
    }
  }

  // ---------------------------------------------------------------------
  // The polling loop of one effect run

  /** The hook's state (`alerts`, `loading`), the effect's `isMounted`
      flag, whether the effect has started, the requests still awaited,
      whether `timer.current` holds a pending timer, and how many requests
      have been issued so far. */
  datatype PollState = PollState(alerts: seq<Alert>, loading: bool, mounted: bool, started: bool,
                                 inFlight: nat, timerArmed: bool, issued: nat)

  datatype Event =
    | Mount                                // the effect runs and calls `poll()`
    | Completed(result: Call<ResponseBody>) // an awaited request settles
    | TimerFired                           // the pending timer (`DefaultIntervalMs` unless
                                           // the caller passes another interval) calls `poll()`
    | Cleanup                              // the effect's cleanup runs

  /** `useState([])`, `useState(true)`, before the effect has run. */
  function Initial(): (s: PollState)
    ensures s.alerts == [] && s.loading && !s.mounted && !s.started
    ensures s.inFlight == 0 && !s.timerArmed && s.issued == 0
  {
    PollState([], true, false, false, 0, false, 0)
  }

  /** `poll()` up to its await: `setLoading(true)` (not guarded) and one request. */
  function StartPoll(s: PollState): PollState {
    s.(loading := true, inFlight := s.inFlight + 1, issued := s.issued + 1)
  }

  /** One event, as the hook is written: after the await only the state
      writes check `isMounted`; the timer is re-armed either way. */
  function Step(s: PollState, e: Event): (r: PollState)
    ensures s.issued <= r.issued <= s.issued + 1
    ensures r.issued == s.issued + 1 <==> (e.Mount? && !s.started) || (e.TimerFired? && s.timerArmed)
    ensures e.Completed? && s.inFlight > 0 ==> r.timerArmed
    ensures !s.mounted ==> r.alerts == s.alerts
    ensures e.Cleanup? && s.started ==> !r.mounted && !r.timerArmed
  {
    match e
    case Mount =>
      if s.started then s else StartPoll(s.(mounted := true, started := true))
    case Completed(result) =>
      if s.inFlight == 0 then s
      else
        var s1 := s.(inFlight := s.inFlight - 1, timerArmed := true);
        if s.mounted
        then s1.(alerts := if result.Ok? then ExtractAlerts(result.value) else [], loading := false)
        else s1
    case TimerFired =>
      if s.timerArmed then StartPoll(s.(timerArmed := false)) else s
    case Cleanup =>
      if s.started then s.(mounted := false, timerArmed := false) else s
  }

  function Run(s: PollState, events: seq<Event>): (r: PollState)
    ensures s.issued <= r.issued <= s.issued + |events|
    decreases |events|
  {
    if events == [] then s else Run(Step(s, events[0]), events[1..])
  }

  /** What settles a request while mounted: the alerts of a well-formed
      body, `[]` for a malformed one or a failure, and loading ends. */
  lemma CompletionWhileMounted(s: PollState, result: Call<ResponseBody>)
    requires s.mounted && s.inFlight > 0
    ensures Step(s, Completed(result)).alerts ==
            if result.Ok? && WellFormed(result.value) then result.value.data.value.alerts.value else []
    ensures !Step(s, Completed(result)).loading
    ensures Step(s, Completed(result)).timerArmed
  {
  }

  /** One loop: a request and a pending timer never coexist, and at most
      one request is awaited. */
  predicate SingleLoop(s: PollState) {
    s.inFlight + (if s.timerArmed then 1 else 0) <= (if s.started then 1 else 0) &&
    (!s.started ==> !s.mounted)
  }

  lemma StepKeepsSingleLoop(s: PollState, e: Event)
    requires SingleLoop(s)
    ensures SingleLoop(Step(s, e))
  {
  }

  /** From the initial state no event sequence ever has two requests in
      flight at once. */
  lemma {:induction false} RunKeepsSingleLoop(s: PollState, events: seq<Event>)
    requires SingleLoop(s)
    ensures SingleLoop(Run(s, events))
    ensures Run(s, events).inFlight <= 1
    decreases |events|
  {
    if events != [] {
      StepKeepsSingleLoop(s, events[0]);
      RunKeepsSingleLoop(Step(s, events[0]), events[1..]);
    }
  }

  /** After cleanup the loop never writes `alerts` again and never sets
      `loading` back to false. */
  lemma {:induction false} AfterCleanupStateFrozen(s: PollState, events: seq<Event>)
    requires s.started && !s.mounted
    ensures Run(s, events).alerts == s.alerts
    ensures s.loading ==> Run(s, events).loading
    ensures !Run(s, events).mounted
    decreases |events|
  {
    if events != [] {
      AfterCleanupStateFrozen(Step(s, events[0]), events[1..]);
    }
  }

  /** A request awaited at cleanup re-arms the timer when it settles, and
      that timer issues another request. */
  lemma InFlightAtCleanupPollsAgain(s: PollState, result: Call<ResponseBody>)
    requires s.started && s.inFlight > 0
    ensures var t := Step(Step(s, Cleanup), Completed(result));
            !t.mounted && t.timerArmed && Step(t, TimerFired).issued == s.issued + 1
  {
  }

  /** Mount, cleanup while the first request is awaited, the request
      fails, the timer fires: a second request goes out after cleanup. */
  lemma ZombiePoll(e: HttpError)
    ensures var t := Run(Initial(), [Mount, Cleanup, Completed(Err(e)), TimerFired]);
            !t.mounted && t.issued == 2 && t.inFlight == 1
  {
    var l4 := [Mount, Cleanup, Completed(Err(e)), TimerFired];
    var l3 := [Cleanup, Completed(Err(e)), TimerFired];
    var l2 := [Completed(Err(e)), TimerFired];
    var l1 := [TimerFired];
    assert l4[1..] == l3 && l3[1..] == l2 && l2[1..] == l1 && l1[1..] == [];
    var s1 := Step(Initial(), Mount);
    var s2 := Step(s1, Cleanup);
    var s3 := Step(s2, Completed(Err(e)));
    var s4 := Step(s3, TimerFired);
    assert Run(Initial(), l4) == Run(s1, l3);
    assert Run(s1, l3) == Run(s2, l2);
    assert Run(s2, l2) == Run(s3, l1);
    assert Run(s3, l1) == s4;
  }

  /** The loop with the re-arm also guarded by `isMounted`. */
  function GuardedStep(s: PollState, e: Event): (r: PollState)
    ensures !e.Completed? ==> r == Step(s, e)
    ensures e.Completed? && !s.mounted ==>
      r.timerArmed == s.timerArmed && r.alerts == s.alerts && r.issued == s.issued
    ensures e.Completed? && s.inFlight > 0 ==> r.inFlight == s.inFlight - 1
  {
    match e
    case Completed(result) =>
      if s.inFlight == 0 then s
      else if s.mounted
      then s.(inFlight := s.inFlight - 1, timerArmed := true,
              alerts := if result.Ok? then ExtractAlerts(result.value) else [], loading := false)
      else s.(inFlight := s.inFlight - 1)
    case _ => Step(s, e)
  }

  function GuardedRun(s: PollState, events: seq<Event>): PollState
    decreases |events|
  {
    if events == [] then s else GuardedRun(GuardedStep(s, events[0]), events[1..])
  }

  /** While mounted the guarded loop behaves exactly as the hook. */
  lemma GuardedAgreesWhileMounted(s: PollState, e: Event)
    requires s.mounted
    ensures GuardedStep(s, e) == Step(s, e)
  {
  }

  /** With the guard, cleanup with no pending timer stops the loop: no
      request is issued afterwards, whatever happens. */
  lemma {:induction false} GuardedLoopStops(s: PollState, events: seq<Event>)
    requires s.started && !s.mounted && !s.timerArmed
    ensures GuardedRun(s, events).issued == s.issued
    ensures !GuardedRun(s, events).timerArmed
    decreases |events|
  {
    if events != [] {
      GuardedLoopStops(GuardedStep(s, events[0]), events[1..]);
    }
  }

  /** Cleanup always clears the pending timer, so after it the guarded
      loop issues nothing more. */
  lemma GuardedCleanupStops(s: PollState, events: seq<Event>)
    requires s.started
    ensures GuardedRun(GuardedStep(s, Cleanup), events).issued == s.issued
  {
    GuardedLoopStops(GuardedStep(s, Cleanup), events);
  }

  /** The hook's state, one effect run's worth, updated as the code does. */
  class AlertsPolling {
    var alerts: seq<Alert>
    var loading: bool
    var mounted: bool
    var started: bool
    var inFlight: nat
    var timerArmed: bool
    var issued: nat

    function State(): PollState
      reads this
    {
      PollState(alerts, loading, mounted, started, inFlight, timerArmed, issued)
    }

    constructor ()
      ensures State() == Initial()
    {
      alerts := [];
      loading := true;
      mounted := false;
      started := false;
      inFlight := 0;
      timerArmed := false;
      issued := 0;
    }

    /** `poll()` up to the await. */
    method Poll()
      modifies this
      ensures State() == StartPoll(old(State()))
    {
      loading := true;
      inFlight := inFlight + 1;
      issued := issued + 1;
    }

    /** The effect body: `isMounted = true; poll();`. */
    method Mount()
      modifies this
      ensures State() == Step(old(State()), Event.Mount)
    {
      if started {
        return;
      }
      mounted := true;
      started := true;
      Poll();
    }

    /** `poll()` after the await. */
    method Complete(result: Call<ResponseBody>)
      modifies this
      ensures State() == Step(old(State()), Completed(result))
    {
      if inFlight == 0 {
        return;
      }
      inFlight := inFlight - 1;
      if mounted {
        alerts := if result.Ok? then ExtractAlerts(result.value) else [];
      }
      if mounted {
        loading := false;
      }
      timerArmed := true;
    }

    /** The pending `setTimeout(poll, intervalMs)` fires. */
    method TimerFire()
      modifies this
      ensures State() == Step(old(State()), TimerFired)
    {
      if !timerArmed {
        return;
      }
      timerArmed := false;
      Poll();
    }

    /** The cleanup: `isMounted = false` and `clearTimeout(timer.current)`. */
    method Cleanup()
      modifies this
      ensures State() == Step(old(State()), Event.Cleanup)
    {
      if !started {
        return;
      }
      mounted := false;
      timerArmed := false;
    }
  }
}
