/** Concrete runs of the store on small calendars, stated as lemmas.
    Times are minutes since midnight. */
module Scenarios {
  import opened Wrappers
  import opened Types
  import opened Remote
  import opened EntityStore
  import opened Booking

  /** A calendar holding one booking of doctor d1 from 09:00 to 09:30. */
  function OneBooking(allowOverlap: bool): Store {
    Initial().(appointments := [Appointment("a1", "d1", "p1", "", 540, 570)],
               constraints := Constraints(8, 20, 30, allowOverlap))
  }

  /** 09:15-09:45 overlaps the 09:00-09:30 booking: refused locally with
      the double-booking message, no request sent. */
  lemma OverlappingProposalIsRefused(reply: Reply<Appointment>)
    ensures var r := AddAppointment(OneBooking(false), Appointment("a2", "d1", "p2", "", 555, 585), reply);
            r.sent.None? && r.outcome == WriteOutcome(false, Some(OverlapReason))
            && r.store == OneBooking(false)
  {
  }

  /** 09:30-10:00 only touches the 09:00-09:30 booking: the request is
      sent, and the returned record is appended. */
  lemma TouchingProposalIsSent()
    ensures var p := Appointment("a2", "d1", "p2", "", 570, 600);
            var r := AddAppointment(OneBooking(false), p, Ok(p));
            r.sent == Some(p) && r.outcome.ok
            && r.store.appointments == OneBooking(false).appointments + [p]
  {
  }

  /** Removing unit u1 removes its doctor d1, d1's patient p1, and p1's
      appointment and visit. */
  lemma UnitRemovalCascades()
    ensures var st := Initial().(
              units := [Unit("u1", "Centro", Clinic, None, None, None)],
              doctors := [Doctor("d1", "Ana", None, "u1", None, None, None, None, None)],
              patients := [Patient("p1", "d1", "Luis", None, None, None)],
              appointments := [Appointment("a1", "d1", "p1", "", 540, 570)],
              visits := [VisitEntry("v1", "d1", "p1", "2024-01-01", "t1", map[])]);
            var r := RemoveUnit(st, "u1", Ok(()));
            r.units == [] && r.doctors == [] && r.patients == [] && r.appointments == [] && r.visits == []
  {
  }

  /** Removing specialty s1 removes its template t1 but keeps visit v1,
      whose template id now names nothing. */
  lemma SpecialtyRemovalKeepsVisits()
    ensures var v := VisitEntry("v1", "d1", "p1", "2024-01-01", "t1", map["f1" := "ok"]);
            var st := Initial().(
              specialties := [Specialty("s1", "Cardiology")],
              templates := [SpecialtyTemplate("t1", "s1", [SpecialtyField("f1", "Notes", TextArea, Some(true))])],
              visits := [v]);
            var r := RemoveSpecialty(st, "s1", Ok(()));
            r.specialties == [] && r.templates == [] && r.visits == [v]
  {
  }
}
