/** The appointment writes (src/data/DataContext.tsx): the local conflict
    check, then the remote call, then the confirmed local update, with the
    `{ok, reason}` outcome returned to the caller.

    The step records the request that was sent to the service (`sent`), so
    that "no remote call was made" is a property of the result. */
module Booking {
  import opened Wrappers
  import opened Types
  import opened Remote
  import opened Collections
  import opened Schedule
  import opened EntityStore

  /** The `{ ok, reason? }` value handed back to the caller. */
  datatype WriteOutcome = WriteOutcome(ok: bool, reason: Option<string>)

  /** The result of one appointment write: the new store, the caller's
      outcome, and the payload sent to the service (None: no call made). */
  datatype Step = Step(store: Store, outcome: WriteOutcome, sent: Option<Appointment>)

  /** The message for a double booking, found locally or reported by the
      service. */
  const OverlapReason := "Traslape con una cita existente."
  /** Fallback messages when the failure carries no message of its own. */
  const CreateFailed := "Error al crear cita"
  const UpdateFailed := "Error al actualizar cita"

  const Accepted := WriteOutcome(true, None)

  /** The caller-facing reason for a failed remote write: a conflict status
      reads as a double booking; any other failure shows its message, or the
      fallback when it has none. */
  function FailureReason(e: RemoteError, fallback: string): (reason: string)
    ensures e.HttpError? && e.status == Some(ConflictStatus) ==> reason == OverlapReason
    ensures e.HttpError? && e.status != Some(ConflictStatus) ==> reason == e.message
    ensures e.NonError? ==> reason == fallback
  {
    if e.HttpError? && e.status == Some(ConflictStatus) then OverlapReason
    else Message(e, fallback)
  }

  /** Some appointment of the same doctor overlaps the proposal; on an
      update the record carrying the proposal's id is not counted. */
  predicate DoubleBooks(appointments: seq<Appointment>, proposed: Appointment, isUpdate: bool) {
    exists i :: 0 <= i < |appointments| && Blocks(appointments[i], proposed, isUpdate)
  }

  /** Create an appointment. With double booking forbidden, a proposal that
      overlaps a booking of the same doctor is refused locally: no request
      is sent and the store is untouched. Otherwise the proposal is sent; on
      success the record the service returned is appended, on failure the
      store is untouched and the reason is reported. */
  function AddAppointment(st: Store, proposed: Appointment, reply: Reply<Appointment>): (r: Step)
    ensures st.constraints.allowOverlap ==> r.sent == Some(proposed)
    ensures !st.constraints.allowOverlap ==>
              (r.sent.None? <==> DoubleBooks(st.appointments, proposed, false))
    ensures r.sent.None? ==> r.store == st && r.outcome == WriteOutcome(false, Some(OverlapReason))
    ensures r.sent.Some? ==> r.sent == Some(proposed)
    ensures r.sent.Some? && reply.Ok? ==>
              && r.outcome == Accepted
              && Appended(r.store.appointments, st.appointments, reply.value)
              && r.store == st.(appointments := r.store.appointments)
    ensures r.sent.Some? && reply.Err? ==>
              r.store == st && r.outcome == WriteOutcome(false, Some(FailureReason(reply.error, CreateFailed)))
    ensures r.outcome.ok <==> r.sent.Some? && reply.Ok?
  {
    if !st.constraints.allowOverlap && ConflictScan(st.appointments, proposed, false) then
      Step(st, WriteOutcome(false, Some(OverlapReason)), None)
    else
      match reply
      case Ok(created) =>
        Step(st.(appointments := st.appointments + [created]), Accepted, Some(proposed))
      case Err(e) =>
        Step(st, WriteOutcome(false, Some(FailureReason(e, CreateFailed))), Some(proposed))
  }

  /** Reschedule or edit an appointment. The conflict check is the one of
      AddAppointment except that the appointment's own current record is
      skipped. On success every record carrying the returned record's id is
      replaced by it and every other record is left where it was. */
  function UpdateAppointment(st: Store, proposed: Appointment, reply: Reply<Appointment>): (r: Step)
    ensures st.constraints.allowOverlap ==> r.sent == Some(proposed)
    ensures !st.constraints.allowOverlap ==>
              (r.sent.None? <==> DoubleBooks(st.appointments, proposed, true))
    ensures r.sent.None? ==> r.store == st && r.outcome == WriteOutcome(false, Some(OverlapReason))
    ensures r.sent.Some? ==> r.sent == Some(proposed)
    ensures r.sent.Some? && reply.Ok? ==>
              && r.outcome == Accepted
              && ReplacedByKey(r.store.appointments, st.appointments, (a: Appointment) => a.id, reply.value)
              && r.store == st.(appointments := r.store.appointments)
    ensures r.sent.Some? && reply.Err? ==>
              r.store == st && r.outcome == WriteOutcome(false, Some(FailureReason(reply.error, UpdateFailed)))
    ensures r.outcome.ok <==> r.sent.Some? && reply.Ok?
  {
    if !st.constraints.allowOverlap && ConflictScan(st.appointments, proposed, true) then
      Step(st, WriteOutcome(false, Some(OverlapReason)), None)
    else
      match reply
      case Ok(updated) =>
        Step(st.(appointments := ReplaceByKey(st.appointments, (a: Appointment) => a.id, updated)),
             Accepted, Some(proposed))
      case Err(e) =>
        Step(st, WriteOutcome(false, Some(FailureReason(e, UpdateFailed))), Some(proposed))
  }

  /** Once the policy permits double booking, neither write is ever refused
      locally, whatever the doctor's calendar holds. */
  lemma PermissivePolicyNeverRefusesLocally(st: Store, next: Constraints, proposed: Appointment, reply: Reply<Appointment>)
    requires next.allowOverlap
    ensures AddAppointment(UpdateConstraints(st, next), proposed, reply).sent.Some?
    ensures UpdateAppointment(UpdateConstraints(st, next), proposed, reply).sent.Some?
  {
  }

  /** A conflict the service reports on a proposal the local check let
      through surfaces exactly like a local conflict, and leaves the store
      untouched. */
  lemma RemoteConflictReadsAsLocalConflict(st: Store, proposed: Appointment, message: string)
    ensures var r := AddAppointment(st, proposed, Err(HttpError(Some(ConflictStatus), message)));
            r.store == st && r.outcome == WriteOutcome(false, Some(OverlapReason))
  {
  }

  /** Editing an appointment the store does not hold, once past the local
      check, reports success while changing nothing: the replace-by-id finds
      no record to replace. */
  lemma UpdateOfUnknownAppointmentReportsSuccess(st: Store, proposed: Appointment)
    requires KeyAbsent(st.appointments, (a: Appointment) => a.id, proposed.id)
    requires st.constraints.allowOverlap || !DoubleBooks(st.appointments, proposed, true)
    ensures var r := UpdateAppointment(st, proposed, Ok(proposed));
            r.outcome == Accepted && r.store == st
  {
  }
}
