/** The page layout: the notification bell fed by the polling hook, and
    the modal that invites an employee. */
module Layout {
  import opened Common
  import opened Text
  import opened AlertsApi

  // ---------------------------------------------------------------------
  // Notifications

  /** `latestNotifications`: the first three alerts, `[]` when the hook's
      value is not an array. */
  function LatestNotifications(alerts: Option<seq<Alert>>): (r: seq<Alert>)
    ensures |r| <= 3
    ensures alerts.None? ==> r == []
    ensures alerts.Some? ==> r == alerts.value[..Min(3, |alerts.value|)]
  {
    if alerts.None? then [] else alerts.value[..Min(3, |alerts.value|)]
  }

  /** The number on the bell, shown only when there is something to show. */
  function BellBadge(latest: seq<Alert>): (r: Option<nat>)
    ensures r.Some? <==> latest != []
    ensures r.Some? ==> r.value == |latest| && 1 <= r.value
  {
    if latest != [] then Some(|latest|) else None
  }

  /** The bell never shows a number above three. */
  lemma BellCountAtMostThree(alerts: Option<seq<Alert>>)
    ensures BellBadge(LatestNotifications(alerts)).Some? ==> BellBadge(LatestNotifications(alerts)).value <= 3
    ensures BellBadge(LatestNotifications(alerts)).Some? <==> alerts.Some? && alerts.value != []
  {
  }

  /** `notif.value?.message || notif.type + " alert"`. */
  function NotificationLabel(a: Alert): (r: string)
    ensures a.value.Some? && a.value.value.message != "" ==> r == a.value.value.message
    ensures a.value.None? || a.value.value.message == "" ==> r == a.kind + " alert"
  {
    if a.value.Some? && a.value.value.message != "" then a.value.value.message else a.kind + " alert"
  }

  // ---------------------------------------------------------------------
  // The invite payload

  /** `role.charAt(0).toUpperCase() + role.slice(1).toLowerCase()`. */
  function CapitaliseRole(role: string): (r: string)
    ensures |r| == |role|
    ensures role != "" ==> r[0] == UpperChar(role[0]) && r[1..] == Lower(role[1..])
  {
    if role == "" then "" else [UpperChar(role[0])] + Lower(role[1..])
  }

  /** The two roles the form offers, in any case, become their display names. */
  lemma RoleNames()
    ensures CapitaliseRole("valet") == "Valet" && CapitaliseRole("admin") == "Admin"
    ensures CapitaliseRole("VALET") == "Valet"
  {
  }

  lemma UpperCharIgnoresCase(c1: char, c2: char)
    requires LowerChar(c1) == LowerChar(c2)
    ensures UpperChar(c1) == UpperChar(c2)
  {
  }

  /** The role sent depends only on the role's letters, not on their case. */
  lemma CapitaliseIgnoresCase(a: string, b: string)
    requires Lower(a) == Lower(b)
    ensures CapitaliseRole(a) == CapitaliseRole(b)
  {
    if a != "" {
      assert LowerChar(a[0]) == Lower(a)[0] == Lower(b)[0] == LowerChar(b[0]);
      UpperCharIgnoresCase(a[0], b[0]);
      assert Lower(a[1..]) == Lower(a)[1..] == Lower(b)[1..] == Lower(b[1..]);
    }
  }

  /** Capitalising a capitalised role changes nothing. */
  lemma CapitaliseIdempotent(role: string)
    ensures CapitaliseRole(CapitaliseRole(role)) == CapitaliseRole(role)
  {
    if role != "" {
      var r := CapitaliseRole(role);
      assert r[0] == UpperChar(role[0]);
      assert UpperChar(UpperChar(role[0])) == UpperChar(role[0]);
      LowerIdempotent(role[1..]);
    }
  }

  /** A lot offered in the invite form's lot selector. */
  datatype LotChoice = LotChoice(id: string, name: string)

  datatype InviteForm = InviteForm(email: string, role: string, lot: string)
  const EmptyForm := InviteForm("", "", "")

  datatype InvitePayload = InvitePayload(email: string, role: string, lot: Option<string>)

  /** The payload of `handleInviteSubmit`: the lot is included only when one was chosen. */
  function InvitePayloadOf(form: InviteForm): (p: InvitePayload)
    ensures p.email == form.email && p.role == CapitaliseRole(form.role)
    ensures p.lot.Some? <==> form.lot != ""
    ensures p.lot.Some? ==> p.lot.value == form.lot
  {
    InvitePayload(form.email, CapitaliseRole(form.role), if form.lot != "" then Some(form.lot) else None)
  }

  // ---------------------------------------------------------------------
  // The invite status machine

  datatype InviteStatus = Idle | Sending | Sent | Failed

  /** The form's inputs and its submit button are disabled in these states. */
  predicate InputsDisabled(status: InviteStatus) {
    status == Sending || status == Sent
  }

  const NotAuthenticated := "Not authenticated. Please log in again."
  const InviteFailed := "Failed to send invite."

  class InviteModal {
    var open: bool
    var form: InviteForm
    var status: InviteStatus
    var error: string
    var lots: seq<LotChoice>

    constructor ()
      ensures !open && form == EmptyForm && status == Idle && error == "" && lots == []
    {
      lots := [];
      open := false;
      form := EmptyForm;
      status := Idle;
      error := "";
    }

    /** Opening or closing the modal; closing runs the effect that resets
        the status and clears the error. */
    method SetOpen(v: bool)
      modifies this`open, this`status, this`error
      ensures open == v
      ensures old(open) && !v ==> status == Idle && error == ""
      ensures !(old(open) && !v) ==> status == old(status) && error == old(error)
    {
      var wasOpen := open;
      open := v;
      if wasOpen && !v {
        status := Idle;
        error := "";
      }
    }

    /** The effect that loads the lot selector while the modal is open:
        nothing without a token, the fetched lots, or `[]` when the fetch fails. */
    method FetchLots(hasToken: bool, fetched: Call<seq<LotChoice>>)
      modifies this`lots
      ensures !open || !hasToken ==> lots == old(lots)
      ensures open && hasToken && fetched.Ok? ==> lots == fetched.value
      ensures open && hasToken && fetched.Err? ==> lots == []
    {
      if !open || !hasToken {
        return;
      }
      lots := if fetched.Ok? then fetched.value else [];
    }

    /** `handleInviteSubmit` up to its await; `req` is the payload sent. */
    method Submit(hasToken: bool) returns (req: Option<InvitePayload>)
      modifies this`status, this`error
      ensures req.Some? <==> hasToken
      ensures !hasToken ==> status == Failed && error == NotAuthenticated
      ensures hasToken ==> status == Sending && error == "" && req.value == InvitePayloadOf(form)
      ensures InputsDisabled(status) <==> hasToken
    {
      status := Sending;
      error := "";
      if !hasToken {
        status := Failed;
        error := NotAuthenticated;
        return None;
      }
      req := Some(InvitePayloadOf(form));
    }

    /** `handleInviteSubmit` after its await. */
    method Finish(result: Call<()>)
      modifies this`status, this`error
      ensures result.Ok? ==> status == Sent && error == old(error)
      ensures result.Err? ==> status == Failed && error == ServerMessage(result.error, InviteFailed)
    {
      if result.Ok? {
        status := Sent;
      } else {
        status := Failed;
        error := ServerMessage(result.error, InviteFailed);
      }
    }

    /** The timer set after a successful invite: close, reset, idle. */
    method SentTimeout()
      modifies this`open, this`form, this`status, this`error
      ensures !open && form == EmptyForm && status == Idle
      ensures error == if old(open) then "" else old(error)
    {
      SetOpen(false);
      form := EmptyForm;
      status := Idle;
    }

    /** The timer set after a failure: back to idle, the message stays. */
    method FailedTimeout()
      modifies this`status
      ensures status == Idle
    {
      status := Idle;
    }
  }
}
