/** The scheduling invariant: with double booking forbidden, no two
    appointments of the same doctor overlap. The lemmas show which store
    operations keep it, under which assumptions about what the service
    returns, and that a permissive policy does not keep it. */
module DoubleBooking {
  import opened Wrappers
  import opened Types
  import opened Remote
  import opened Collections
  import opened Schedule
  import opened EntityStore
  import opened Booking

  /** Two appointments may coexist: different doctors, or no overlap. */
  predicate Compatible(a: Appointment, b: Appointment) {
    a.doctorId != b.doctorId || !Overlaps(a, b)
  }

  /** No doctor is booked twice at the same time. */
  predicate NoDoubleBooking(appointments: seq<Appointment>) {
    Pairwise(appointments, Compatible)
  }

  /** No two appointments share an id. */
  predicate UniqueIds(appointments: seq<Appointment>) {
    forall i, j :: 0 <= i < j < |appointments| ==> appointments[i].id != appointments[j].id
  }

  /** The service kept the proposal's doctor and time span. */
  predicate EchoesSlot(proposed: Appointment, stored: Appointment) {
    stored.doctorId == proposed.doctorId && stored.start == proposed.start && stored.end == proposed.end
  }

  /** A create accepted under a strict policy keeps the calendar free of
      double bookings, provided the service stores the slot it was sent. */
  lemma AddKeepsNoDoubleBooking(st: Store, proposed: Appointment, reply: Reply<Appointment>)
    requires !st.constraints.allowOverlap
    requires NoDoubleBooking(st.appointments)
    requires reply.Ok? ==> EchoesSlot(proposed, reply.value)
    ensures NoDoubleBooking(AddAppointment(st, proposed, reply).store.appointments)
  {
  }

  /** An edit accepted under a strict policy keeps the calendar free of
      double bookings and keeps ids unique, provided ids were unique and the
      service returns the record under its own id with the slot it was
      sent. */
  lemma UpdateKeepsNoDoubleBooking(st: Store, proposed: Appointment, reply: Reply<Appointment>)
    requires !st.constraints.allowOverlap
    requires NoDoubleBooking(st.appointments) && UniqueIds(st.appointments)
    requires reply.Ok? ==> EchoesSlot(proposed, reply.value) && reply.value.id == proposed.id
    ensures NoDoubleBooking(UpdateAppointment(st, proposed, reply).store.appointments)
    ensures UniqueIds(UpdateAppointment(st, proposed, reply).store.appointments)
  {
  }

  /** Every removal that touches appointments only drops records, so the
      invariant survives all of them. */
  lemma RemovalsKeepNoDoubleBooking(st: Store, id: Id, reply: Reply<()>)
    requires NoDoubleBooking(st.appointments)
    ensures NoDoubleBooking(RemoveAppointment(st, id, reply).appointments)
    ensures NoDoubleBooking(RemovePatient(st, id, reply).appointments)
    ensures NoDoubleBooking(RemoveDoctor(st, id, reply).appointments)
    ensures NoDoubleBooking(RemoveUnit(st, id, reply).appointments)
  {
    var affected := DoctorIdsOfUnit(st.doctors, id);
    FilterKeepsPairwise(st.appointments, (a: Appointment) => a.id != id, Compatible);
    FilterKeepsPairwise(st.appointments, (a: Appointment) => a.patientId != id, Compatible);
    FilterKeepsPairwise(st.appointments, (a: Appointment) => a.doctorId != id, Compatible);
    FilterKeepsPairwise(st.appointments, (a: Appointment) => a.doctorId !in affected, Compatible);
  }

  /** With double booking permitted the invariant is not kept: a doctor
      booked 09:00-09:30 can be booked again 09:15-09:45. */
  lemma PermissivePolicyCanDoubleBook()
    ensures var first := Appointment("a1", "d1", "p1", "", 540, 570);
            var second := Appointment("a2", "d1", "p2", "", 555, 585);
            var st := Initial().(appointments := [first], constraints := Constraints(8, 20, 30, true));
            && NoDoubleBooking(st.appointments)
            && !NoDoubleBooking(AddAppointment(st, second, Ok(second)).store.appointments)
  {
    var first := Appointment("a1", "d1", "p1", "", 540, 570);
    var second := Appointment("a2", "d1", "p2", "", 555, 585);
    var st := Initial().(appointments := [first], constraints := Constraints(8, 20, 30, true));
    var s := AddAppointment(st, second, Ok(second)).store.appointments;
    assert s == [first, second];
    assert !Compatible(s[0], s[1]);
  }
}
