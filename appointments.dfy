/** The appointments screen: the list of appointments the admin sees, the
    approve / reject / reschedule handlers that update it after the booking
    service answers, the three filters over it, and the rule deciding which
    rows still offer actions.

    The clock (`Date.now()`), the user's answer to the confirmation dialog
    and the outcome of each service call are parameters. Times the user picks
    are given as an `Instant`: the millisecond instant `new Date(...)` denotes
    together with its `toISOString()` text. */
module Appointments {
  import opened Wrappers
  import opened Lists
  import opened Text

  /** `userId` and `providerId` come either as a bare id string or as an
      embedded summary `{ name }`; `Missing` is a null or absent reference. */
  datatype Party = IdText(id: string) | Summary(name: string) | Missing

  datatype Appointment = Appointment(
    id: string,
    user: Party,
    provider: Party,
    start: string,   // ISO-8601 text as the service returns it
    end: string,
    status: string)

  /** A time the admin picked in a `datetime-local` field, once parsed. */
  datatype Instant = Instant(ms: int, iso: string)

  datatype Filters = Filters(provider: string, status: string, startDate: string)

  /** Why a reschedule was not sent to the service. */
  datatype Refusal = MissingTimes | TooSoon | EndNotAfterStart | Declined

  datatype RescheduleOutcome = Refused(why: Refusal) | ServiceFailed | Rescheduled

  /** What the Actions cell of a row shows. */
  datatype RowActions = Editor | StatusOnly | Buttons

  /** The response of `GET /appointment`: `Failed` when the request throws,
      otherwise `res.data.appointments` when it is an array (`None` when not). */
  datatype FetchResult = Failed | Body(appointments: Option<seq<Appointment>>)

  /** Thirty minutes, the least lead time of a new start, in milliseconds. */
  const MinLeadMs: int := 30 * 60 * 1000

  /* ---------------- list updates ---------------- */

  /** `prev.map(appt => appt._id === id ? { ...appt, status } : appt)`. */
  function WithStatus(list: seq<Appointment>, id: string, status: string): (r: seq<Appointment>)
    ensures |r| == |list|
  {
    Map(list, (a: Appointment) => if a.id == id then a.(status := status) else a)
  }

  /** The list update after a successful reschedule of appointment `id`. */
  function WithTimes(list: seq<Appointment>, id: string, start: string, end: string): (r: seq<Appointment>)
    ensures |r| == |list|
  {
    Map(list, (a: Appointment) => if a.id == id then a.(start := start, end := end) else a)
  }

  function Ids(list: seq<Appointment>): seq<string> {
    Map(list, (a: Appointment) => a.id)
  }

  /** `updateStatus` sets the status of exactly the entries with that id and
      touches no other field and no other entry. */
  lemma WithStatusAt(list: seq<Appointment>, id: string, status: string, i: nat)
    requires i < |list|
    ensures |WithStatus(list, id, status)| == |list|
    ensures var a, b := list[i], WithStatus(list, id, status)[i];
      if a.id == id then b == a.(status := status) && b.status == status else b == a
  {
    MapAt(list, (a: Appointment) => if a.id == id then a.(status := status) else a, i);
  }

  /** A successful reschedule replaces start and end on exactly the entries
      with that id; ids, parties and statuses stay as they were. */
  lemma WithTimesAt(list: seq<Appointment>, id: string, start: string, end: string, i: nat)
    requires i < |list|
    ensures |WithTimes(list, id, start, end)| == |list|
    ensures var a, b := list[i], WithTimes(list, id, start, end)[i];
      b.id == a.id && b.user == a.user && b.provider == a.provider && b.status == a.status
      && (if a.id == id then b.start == start && b.end == end else b == a)
  {
    MapAt(list, (a: Appointment) => if a.id == id then a.(start := start, end := end) else a, i);
  }

  /** Neither update changes which appointments are listed, nor their order. */
  lemma UpdatesKeepIds(list: seq<Appointment>, id: string, status: string, start: string, end: string)
    ensures Ids(WithStatus(list, id, status)) == Ids(list)
    ensures Ids(WithTimes(list, id, start, end)) == Ids(list)
  {
    var s := WithStatus(list, id, status);
    var t := WithTimes(list, id, start, end);
    forall i | 0 <= i < |list|
      ensures Ids(s)[i] == Ids(list)[i] && Ids(t)[i] == Ids(list)[i]
    {
      WithStatusAt(list, id, status, i);
      WithTimesAt(list, id, start, end, i);
      MapAt(s, (a: Appointment) => a.id, i);
      MapAt(t, (a: Appointment) => a.id, i);
      MapAt(list, (a: Appointment) => a.id, i);
    }
  }

  /** Setting the same status twice is setting it once. */
  lemma WithStatusIdempotent(list: seq<Appointment>, id: string, status: string)
    ensures WithStatus(WithStatus(list, id, status), id, status) == WithStatus(list, id, status)
  {
    var once := WithStatus(list, id, status);
    forall i | 0 <= i < |list|
      ensures WithStatus(once, id, status)[i] == once[i]
    {
      WithStatusAt(list, id, status, i);
      WithStatusAt(once, id, status, i);
    }
  }

  /** Updating an id that is not listed changes nothing. */
  lemma WithStatusAbsentId(list: seq<Appointment>, id: string, status: string)
    requires forall i :: 0 <= i < |list| ==> list[i].id != id
    ensures WithStatus(list, id, status) == list
  {
    forall i | 0 <= i < |list| ensures WithStatus(list, id, status)[i] == list[i] {
      WithStatusAt(list, id, status, i);
    }
  }

  /* ---------------- reschedule validation ---------------- */

  /** The checks `handleRescheduleSave` runs before calling the service, in
      their order: both fields filled in, a start at least thirty minutes
      after `now`, an end after the start, then the confirmation dialog.
      `None` means the request is sent. */
  function RescheduleRefusal(newStart: string, newEnd: string, start: int, end: int,
                             now: int, confirmed: bool): (r: Option<Refusal>)
    ensures r.None? ==> newStart != "" && newEnd != "" && now + MinLeadMs <= start < end && confirmed
  {
    if newStart == "" || newEnd == "" then Some(MissingTimes)
    else if start < now + MinLeadMs then Some(TooSoon)
    else if end <= start then Some(EndNotAfterStart)
    else if !confirmed then Some(Declined)
    else None
  }

  /** The request is sent exactly when every check passes. */
  lemma RescheduleSentIff(newStart: string, newEnd: string, start: int, end: int, now: int, confirmed: bool)
    ensures RescheduleRefusal(newStart, newEnd, start, end, now, confirmed) == None
      <==> newStart != "" && newEnd != "" && now + 30 * 60000 <= start < end && confirmed
  {
  }

  /** A start exactly thirty minutes away is accepted; one millisecond
      earlier is refused as too soon. */
  lemma RescheduleLeadBoundary(newStart: string, newEnd: string, now: int, end: int)
    requires newStart != "" && newEnd != ""
    requires end > now + 1800000
    ensures RescheduleRefusal(newStart, newEnd, now + 1800000, end, now, true) == None
    ensures RescheduleRefusal(newStart, newEnd, now + 1799999, end, now, true) == Some(TooSoon)
  {
  }

  /** The reason reported is the first check that fails: an empty field wins
      over everything, a too-early start over a bad end, and the dialog is
      only shown once the times are acceptable. */
  lemma RescheduleCheckOrder(newStart: string, newEnd: string, start: int, end: int, now: int, confirmed: bool)
    ensures var r := RescheduleRefusal(newStart, newEnd, start, end, now, confirmed);
      && (r == Some(MissingTimes) <==> newStart == "" || newEnd == "")
      && (r == Some(TooSoon) <==> newStart != "" && newEnd != "" && start < now + MinLeadMs)
      && (r == Some(EndNotAfterStart) <==> newStart != "" && newEnd != "" && start >= now + MinLeadMs && end <= start)
      && (r == Some(Declined) <==> newStart != "" && newEnd != "" && start >= now + MinLeadMs && end > start && !confirmed)
  {
  }

  /* ---------------- filters ---------------- */

  /** The name the provider filter compares against: a bare id string is its
      own name, a summary gives its name, a missing reference gives "". */
  function ProviderName(p: Party): string {
    match p
    case IdText(id) => id
    case Summary(name) => name
    case Missing => ""
  }

  /** An appointment survives the filters when every non-empty filter matches. */
  predicate MatchesFilters(a: Appointment, f: Filters) {
    && (f.provider == "" || ProviderName(a.provider) == f.provider)
    && (f.status == "" || a.status == f.status)
    && (f.startDate == "" || Prefix(a.start, 10) == f.startDate)
  }

  /** `filteredAppointments`. */
  function FilterAppointments(list: seq<Appointment>, f: Filters): (r: seq<Appointment>)
    ensures |r| <= |list|
  {
    Filter(list, (a: Appointment) => MatchesFilters(a, f))
  }

  /** What the filters return is an order-preserving subsequence of the list,
      an appointment is in it exactly when it is listed and matches, and a
      matching one appears as often as in the list. */
  lemma FilterAppointmentsSpec(list: seq<Appointment>, f: Filters, a: Appointment)
    ensures IsSubsequence(FilterAppointments(list, f), list)
    ensures a in FilterAppointments(list, f) <==> a in list && MatchesFilters(a, f)
    ensures multiset(FilterAppointments(list, f))[a] == if MatchesFilters(a, f) then multiset(list)[a] else 0
  {
    var keep := (a: Appointment) => MatchesFilters(a, f);
    FilterIsSubsequence(list, keep);
    FilterMultiset(list, keep, a);
    if a in FilterAppointments(list, f) {
      FilterSound(list, keep, a);
    }
    if a in list && MatchesFilters(a, f) {
      FilterComplete(list, keep, a);
    }
  }

  /** With every filter empty the whole list is shown, in order. */
  lemma NoFiltersShowAll(list: seq<Appointment>)
    ensures FilterAppointments(list, Filters("", "", "")) == list
  {
    FilterKeepsAll(list, (a: Appointment) => MatchesFilters(a, Filters("", "", "")));
  }

  /** The date filter compares the first ten characters of the stored start,
      the calendar date of an ISO-8601 timestamp. */
  lemma DateFilterOnIsoPrefix(a: Appointment, date: string, rest: string)
    requires |date| == 10 && a.start == date + rest
    ensures MatchesFilters(a, Filters("", "", date))
  {
    assert a.start[..10] == date;
  }

  /* ---------------- actions gate ---------------- */

  /** A row whose lower-cased status is approved, rejected or cancelled. */
  predicate IsFinal(status: string) {
    var s := ToLower(status);
    s == "approved" || s == "rejected" || s == "cancelled"
  }

  /** The Actions cell: the editor while this row is being rescheduled,
      otherwise only the status for a final row, otherwise the three buttons. */
  function ActionsFor(a: Appointment, rescheduleId: Option<string>): (r: RowActions)
    ensures r == Buttons ==> !IsFinal(a.status)
  {
    if rescheduleId == Some(a.id) then Editor
    else if IsFinal(a.status) then StatusOnly
    else Buttons
  }

  /** Approve, Reject and Reschedule are offered exactly on rows that are not
      final and not being edited. */
  lemma ButtonsIff(a: Appointment, rescheduleId: Option<string>)
    ensures ActionsFor(a, rescheduleId) == Buttons
      <==> rescheduleId != Some(a.id) && ToLower(a.status) != "approved"
           && ToLower(a.status) != "rejected" && ToLower(a.status) != "cancelled"
  {
  }

  /** The gate ignores letter case. */
  lemma IsFinalIgnoresCase(status: string)
    ensures IsFinal(status) == IsFinal(ToLower(status))
  {
    ToLowerIdempotent(status);
  }

  /** On a status without capitals the gate is a plain comparison: such a
      status is final exactly when it is approved, rejected or cancelled, so
      "pending" keeps its buttons. */
  lemma FinalWithoutCapitals(status: string)
    requires forall i :: 0 <= i < |status| ==> !('A' <= status[i] <= 'Z')
    ensures IsFinal(status) <==> status == "approved" || status == "rejected" || status == "cancelled"
  {
    ToLowerFixesLower(status);
  }

  /** A status the service returns capitalised is final all the same. */
  lemma CapitalisedStatusIsFinal()
    ensures IsFinal("Rejected")
  {
    var status, lower := "Rejected", "rejected";
    assert |status| == |lower| && status[0] == 'R' && lower[0] == 'r';
    assert forall i :: 1 <= i < |status| ==> status[i] == lower[i];
    assert ToLower(status) == lower;
    IsFinalIgnoresCase(status);
    FinalWithoutCapitals(lower);
  }

  /** Once approve or reject has succeeded for an id, no row with that id
      offers actions any more unless it is being edited. */
  lemma FinalAfterDecision(list: seq<Appointment>, id: string, approve: bool, rescheduleId: Option<string>, i: nat)
    requires i < |list| && list[i].id == id && rescheduleId != Some(id)
    ensures var after := WithStatus(list, id, if approve then "approved" else "rejected");
      ActionsFor(after[i], rescheduleId) == StatusOnly
  {
    var s := if approve then "approved" else "rejected";
    WithStatusAt(list, id, s, i);
    ToLowerFixesLower(s);
  }

  /* ---------------- the component's state ---------------- */

  class AppointmentTable {
    var appointments: seq<Appointment>
    var rescheduleId: Option<string>
    var newStart: string
    var newEnd: string

    constructor ()
      ensures appointments == [] && rescheduleId == None && newStart == "" && newEnd == ""
    {
      appointments, rescheduleId, newStart, newEnd := [], None, "", "";
    }

    /** `fetchAppointments`: the returned array, or an empty list when the
        request fails or the payload holds no array. */
    method FetchAppointments(res: FetchResult)
      modifies this`appointments
      ensures appointments == (if res.Body? && res.appointments.Some? then res.appointments.value else [])
    {
      match res
      case Body(Some(list)) => appointments := list;
      case _ => appointments := [];
    }

    /** `updateStatus`. */
    method UpdateStatus(id: string, status: string)
      modifies this`appointments
      ensures appointments == WithStatus(old(appointments), id, status)
    {
      appointments := WithStatus(appointments, id, status);
    }

    /** `handleApprove`: the status changes only after the service accepted. */
    method HandleApprove(id: string, serviceOk: bool)
      modifies this`appointments
      ensures appointments == if serviceOk then WithStatus(old(appointments), id, "approved") else old(appointments)
    {
      if serviceOk {
        UpdateStatus(id, "approved");
      }
    }

    /** `handleReject`: the status changes only after the service accepted. */
    method HandleReject(id: string, serviceOk: bool)
      modifies this`appointments
      ensures appointments == if serviceOk then WithStatus(old(appointments), id, "rejected") else old(appointments)
    {
      if serviceOk {
        UpdateStatus(id, "rejected");
      }
    }

    /** The Reschedule button opens the editor on that row. */
    method OpenReschedule(id: string)
      modifies this`rescheduleId
      ensures rescheduleId == Some(id)
    {
      rescheduleId := Some(id);
    }

    /** The Cancel button closes the editor and keeps the typed times. */
    method CancelReschedule()
      modifies this`rescheduleId
      ensures rescheduleId == None
    {
      rescheduleId := None;
    }

    method SetNewStart(value: string)
      modifies this`newStart
      ensures newStart == value
    {
      newStart := value;
    }

    method SetNewEnd(value: string)
      modifies this`newEnd
      ensures newEnd == value
    {
      newEnd := value;
    }

    /** `handleRescheduleSave(appt)`: `start` and `end` are the parsed values
        of `newStart` and `newEnd`. A refused request leaves every field as it
        was and never reaches the service; a failed call leaves them too; a
        successful one moves only that appointment and closes the editor. */
    method HandleRescheduleSave(apptId: string, start: Instant, end: Instant, now: int,
                                confirmed: bool, serviceOk: bool)
      returns (outcome: RescheduleOutcome)
      modifies this
      ensures var refusal := RescheduleRefusal(old(newStart), old(newEnd), start.ms, end.ms, now, confirmed);
        outcome == (if refusal.Some? then Refused(refusal.value)
                    else if serviceOk then Rescheduled else ServiceFailed)
      ensures outcome == Rescheduled ==>
        appointments == WithTimes(old(appointments), apptId, start.iso, end.iso)
        && rescheduleId == None && newStart == "" && newEnd == ""
      ensures outcome != Rescheduled ==>
        appointments == old(appointments) && rescheduleId == old(rescheduleId)
        && newStart == old(newStart) && newEnd == old(newEnd)
    {
      var refusal := RescheduleRefusal(newStart, newEnd, start.ms, end.ms, now, confirmed);
      if refusal.Some? {
        return Refused(refusal.value);
      }
      if !serviceOk {
        return ServiceFailed;
      }
      appointments := WithTimes(appointments, apptId, start.iso, end.iso);
      rescheduleId := None;
      newStart := "";
      newEnd := "";
      outcome := Rescheduled;
    }
  }
}
