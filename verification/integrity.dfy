/** Referential integrity of the store and the cascades that keep it. The
    store validates no reference when records are added or edited; what it
    does guarantee is that removals never leave an owner reference dangling.
    Two references are outside that guarantee because removal does not
    cascade to them: a visit's template id and a doctor's specialty id. */
module Integrity {
  import opened Types
  import opened Remote
  import opened Collections
  import opened EntityStore

  predicate UnitExists(st: Store, id: Id) {
    exists u :: u in st.units && u.id == id
  }

  predicate DoctorExists(st: Store, id: Id) {
    exists d :: d in st.doctors && d.id == id
  }

  predicate SpecialtyExists(st: Store, id: Id) {
    exists s :: s in st.specialties && s.id == id
  }

  /** The patient `patientId` exists and is a patient of `doctorId`. */
  predicate PatientOf(st: Store, patientId: Id, doctorId: Id) {
    exists p :: p in st.patients && p.id == patientId && p.doctorId == doctorId
  }

  predicate DoctorsResolve(st: Store) {
    forall d :: d in st.doctors ==> UnitExists(st, d.unitId)
  }

  predicate ReceptionistsResolve(st: Store) {
    forall x :: x in st.receptionists ==> UnitExists(st, x.unitId)
  }

  predicate PatientsResolve(st: Store) {
    forall p :: p in st.patients ==> DoctorExists(st, p.doctorId)
  }

  predicate AppointmentsResolve(st: Store) {
    forall a :: a in st.appointments ==> PatientOf(st, a.patientId, a.doctorId)
  }

  predicate VisitsResolve(st: Store) {
    forall v :: v in st.visits ==> PatientOf(st, v.patientId, v.doctorId)
  }

  predicate TemplatesResolve(st: Store) {
    forall t :: t in st.templates ==> SpecialtyExists(st, t.specialtyId)
  }

  /** Every owner reference resolves: doctors and receptionists to a unit,
      patients to a doctor, appointments and visits to a patient of their
      own doctor, templates to a specialty. */
  predicate Consistent(st: Store) {
    && DoctorsResolve(st)
    && ReceptionistsResolve(st)
    && PatientsResolve(st)
    && AppointmentsResolve(st)
    && VisitsResolve(st)
    && TemplatesResolve(st)
  }

  /** Removing a unit leaves no dangling owner reference: everything that
      hung off the unit went with it. */
  lemma RemoveUnitKeepsConsistent(st: Store, id: Id, reply: Reply<()>)
    requires Consistent(st)
    ensures Consistent(RemoveUnit(st, id, reply))
  {
  }

  /** Removing a doctor takes its patients, appointments and visits along,
      so nothing is left pointing at it. */
  lemma RemoveDoctorKeepsConsistent(st: Store, id: Id, reply: Reply<()>)
    requires Consistent(st)
    ensures Consistent(RemoveDoctor(st, id, reply))
  {
  }

  /** Removing a patient takes its appointments and visits along. */
  lemma RemovePatientKeepsConsistent(st: Store, id: Id, reply: Reply<()>)
    requires Consistent(st)
    ensures Consistent(RemovePatient(st, id, reply))
  {
  }

  /** Removing a specialty takes its templates along. */
  lemma RemoveSpecialtyKeepsConsistent(st: Store, id: Id, reply: Reply<()>)
    requires Consistent(st)
    ensures Consistent(RemoveSpecialty(st, id, reply))
  {
  }

  /** Removing a receptionist needs no cascade: nothing refers to one. */
  lemma RemoveReceptionistKeepsConsistent(st: Store, id: Id, reply: Reply<()>)
    requires Consistent(st)
    ensures Consistent(RemoveReceptionist(st, id, reply))
  {
  }

  /** Removing an appointment needs no cascade: nothing refers to one. */
  lemma RemoveAppointmentKeepsConsistent(st: Store, id: Id, reply: Reply<()>)
    requires Consistent(st)
    ensures Consistent(RemoveAppointment(st, id, reply))
  {
  }

  /** Removing a template needs no cascade for consistency: visits may keep
      a dangling template id. */
  lemma RemoveSpecialtyTemplateKeepsConsistent(st: Store, id: Id, reply: Reply<()>)
    requires Consistent(st)
    ensures Consistent(RemoveSpecialtyTemplate(st, id, reply))
  {
  }

  /** Removing a specialty keeps every visit, including the ones filled
      from a template that is now gone: a visit's template id may dangle. */
  lemma RemoveSpecialtyKeepsVisitHistory(st: Store, id: Id, reply: Reply<()>)
    ensures RemoveSpecialty(st, id, reply).visits == st.visits
    ensures forall v :: v in st.visits ==> v in RemoveSpecialty(st, id, reply).visits
  {
  }

  /** The cascade of several doctor removals, one after the other. */
  function DropDoctors(st: Store, ids: seq<Id>): Store
    decreases |ids|
  {
    if |ids| == 0 then st else DropDoctors(DropDoctor(st, ids[0]), ids[1..])
  }

  /** Removing doctors one at a time removes exactly the patients of any
      of them. */
  lemma {:induction false} DropDoctorsPatients(st: Store, ids: seq<Id>)
    ensures DropDoctors(st, ids).patients == Filter(st.patients, (p: Patient) => p.doctorId !in ids)
    decreases |ids|
  {
    if |ids| == 0 {
      FilterKeepAll(st.patients, (p: Patient) => p.doctorId !in ids);
    } else {
      var d, rest := ids[0], ids[1..];
      DropDoctorsPatients(DropDoctor(st, d), rest);
      FilterFilter(st.patients, (p: Patient) => p.doctorId != d, (p: Patient) => p.doctorId !in rest,
                   (p: Patient) => p.doctorId !in ids);
    }
  }

  /** Removing doctors one at a time removes exactly the appointments of
      any of them. */
  lemma {:induction false} DropDoctorsAppointments(st: Store, ids: seq<Id>)
    ensures DropDoctors(st, ids).appointments == Filter(st.appointments, (a: Appointment) => a.doctorId !in ids)
    decreases |ids|
  {
    if |ids| == 0 {
      FilterKeepAll(st.appointments, (a: Appointment) => a.doctorId !in ids);
    } else {
      var d, rest := ids[0], ids[1..];
      DropDoctorsAppointments(DropDoctor(st, d), rest);
      FilterFilter(st.appointments, (a: Appointment) => a.doctorId != d, (a: Appointment) => a.doctorId !in rest,
                   (a: Appointment) => a.doctorId !in ids);
    }
  }

  /** Removing doctors one at a time removes exactly the visits of any of
      them. */
  lemma {:induction false} DropDoctorsVisits(st: Store, ids: seq<Id>)
    ensures DropDoctors(st, ids).visits == Filter(st.visits, (v: VisitEntry) => v.doctorId !in ids)
    decreases |ids|
  {
    if |ids| == 0 {
      FilterKeepAll(st.visits, (v: VisitEntry) => v.doctorId !in ids);
    } else {
      var d, rest := ids[0], ids[1..];
      DropDoctorsVisits(DropDoctor(st, d), rest);
      FilterFilter(st.visits, (v: VisitEntry) => v.doctorId != d, (v: VisitEntry) => v.doctorId !in rest,
                   (v: VisitEntry) => v.doctorId !in ids);
    }
  }

  /** Removing a unit does to patients, appointments and visits exactly
      what removing each of its doctors in turn would do: the single-pass
      cascade over the pre-removal doctor list is complete. */
  lemma RemoveUnitIsPerDoctorCascade(st: Store, id: Id)
    ensures var affected := DoctorIdsOfUnit(st.doctors, id);
            && DropUnit(st, id).patients == DropDoctors(st, affected).patients
            && DropUnit(st, id).appointments == DropDoctors(st, affected).appointments
            && DropUnit(st, id).visits == DropDoctors(st, affected).visits
  {
    var affected := DoctorIdsOfUnit(st.doctors, id);
    DropDoctorsPatients(st, affected);
    DropDoctorsAppointments(st, affected);
    DropDoctorsVisits(st, affected);
  }
}
