/** The entity store (src/data/DataContext.tsx): eight collections, the
    scheduling policy, and the loading/error flags, with the add, update and
    remove operation of each collection and the cascades on removal.

    Every mutating operation takes the settled reply of its remote call and
    changes local state only when that reply is `Ok`: add appends the record
    the service returned, update replaces by the returned record's id, and
    remove filters (with its cascade). A failed call leaves the store exactly
    as it was. The appointment writes, which run the conflict check first,
    are in module Booking. */
module EntityStore {
  import opened Wrappers
  import opened Types
  import opened Remote
  import opened Collections

  datatype Store = Store(
    units: seq<Unit>,
    doctors: seq<Doctor>,
    patients: seq<Patient>,
    receptionists: seq<Receptionist>,
    specialties: seq<Specialty>,
    templates: seq<SpecialtyTemplate>,
    appointments: seq<Appointment>,
    visits: seq<VisitEntry>,
    constraints: Constraints,
    loading: bool,
    error: Option<string>)

  /** The store before its first load: empty collections, the default
      policy, loading in progress, no error. */
  function Initial(): (st: Store)
    ensures st.units == [] && st.doctors == [] && st.patients == []
    ensures st.receptionists == [] && st.specialties == [] && st.templates == []
    ensures st.appointments == [] && st.visits == []
    ensures st.constraints == Constraints(8, 20, 30, false)
    ensures st.loading && st.error.None?
  {
    Store([], [], [], [], [], [], [], [], DefaultConstraints, true, None)
  }

  // ---------------------------------------------------------------------
  // Specialties
  // ---------------------------------------------------------------------

  function AddSpecialty(st: Store, reply: Reply<Specialty>): (r: Store)
    ensures reply.Err? ==> r == st
    ensures reply.Ok? ==> Appended(r.specialties, st.specialties, reply.value)
    ensures r == st.(specialties := r.specialties)
  {
    match reply
    case Ok(created) => st.(specialties := st.specialties + [created])
    case Err(_) => st
  }

  function UpdateSpecialty(st: Store, reply: Reply<Specialty>): (r: Store)
    ensures reply.Err? ==> r == st
    ensures reply.Ok? ==> ReplacedByKey(r.specialties, st.specialties, (s: Specialty) => s.id, reply.value)
    ensures r == st.(specialties := r.specialties)
  {
    match reply
    case Ok(updated) => st.(specialties := ReplaceByKey(st.specialties, (s: Specialty) => s.id, updated))
    case Err(_) => st
  }

  /** Removing a specialty removes its templates as well; visits filled
      from those templates are kept, and so are doctors that name the
      specialty. */
  function RemoveSpecialty(st: Store, id: Id, reply: Reply<()>): (r: Store)
    ensures reply.Err? ==> r == st
    ensures reply.Ok? ==> forall s :: s in r.specialties <==> s in st.specialties && s.id != id
    ensures reply.Ok? ==> r.specialties == Filter(st.specialties, (s: Specialty) => s.id != id)
    ensures reply.Ok? ==> forall t :: t in r.templates <==> t in st.templates && t.specialtyId != id
    ensures reply.Ok? ==> r.templates == Filter(st.templates, (t: SpecialtyTemplate) => t.specialtyId != id)
    ensures r == st.(specialties := r.specialties, templates := r.templates)
  {
    match reply
    case Ok(_) =>
      st.(specialties := Filter(st.specialties, (s: Specialty) => s.id != id),
          templates := Filter(st.templates, (t: SpecialtyTemplate) => t.specialtyId != id))
    case Err(_) => st
  }

  // ---------------------------------------------------------------------
  // Units
  // ---------------------------------------------------------------------

  function AddUnit(st: Store, reply: Reply<Unit>): (r: Store)
    ensures reply.Err? ==> r == st
    ensures reply.Ok? ==> Appended(r.units, st.units, reply.value)
    ensures r == st.(units := r.units)
  {
    match reply
    case Ok(created) => st.(units := st.units + [created])
    case Err(_) => st
  }

  function UpdateUnit(st: Store, reply: Reply<Unit>): (r: Store)
    ensures reply.Err? ==> r == st
    ensures reply.Ok? ==> ReplacedByKey(r.units, st.units, (u: Unit) => u.id, reply.value)
    ensures r == st.(units := r.units)
  {
    match reply
    case Ok(updated) => st.(units := ReplaceByKey(st.units, (u: Unit) => u.id, updated))
    case Err(_) => st
  }

  /** The ids of the doctors assigned to unit `unitId`, in list order. */
  function DoctorIdsOfUnit(doctors: seq<Doctor>, unitId: Id): (r: seq<Id>)
    ensures forall d :: d in r <==> exists i :: 0 <= i < |doctors| && doctors[i].unitId == unitId && doctors[i].id == d
    decreases |doctors|
  {
    if |doctors| == 0 then []
    else
      var rest := DoctorIdsOfUnit(doctors[1..], unitId);
      assert forall i :: 1 <= i < |doctors| ==> doctors[i] == doctors[1..][i - 1];
      if doctors[0].unitId == unitId then [doctors[0].id] + rest else rest
  }

  /** The local effect of removing a unit. The affected doctors are taken
      from the collection as it was before the removal; the unit, its
      doctors and receptionists go, and so do the patients, appointments and
      visits of every affected doctor. */
  function DropUnit(st: Store, id: Id): Store {
    var affected := DoctorIdsOfUnit(st.doctors, id);
    st.(units := Filter(st.units, (u: Unit) => u.id != id),
        doctors := Filter(st.doctors, (d: Doctor) => d.unitId != id),
        patients := Filter(st.patients, (p: Patient) => p.doctorId !in affected),
        appointments := Filter(st.appointments, (a: Appointment) => a.doctorId !in affected),
        receptionists := Filter(st.receptionists, (x: Receptionist) => x.unitId != id),
        visits := Filter(st.visits, (v: VisitEntry) => v.doctorId !in affected))
  }

  /** The doctor `d` belongs to unit `u` in the store's current list. */
  predicate DoctorOfUnit(st: Store, d: Id, u: Id) {
    exists i :: 0 <= i < |st.doctors| && st.doctors[i].unitId == u && st.doctors[i].id == d
  }

  function RemoveUnit(st: Store, id: Id, reply: Reply<()>): (r: Store)
    ensures reply.Err? ==> r == st
    ensures reply.Ok? ==> forall u :: u in r.units <==> u in st.units && u.id != id
    ensures reply.Ok? ==> r.units == Filter(st.units, (u: Unit) => u.id != id)
    ensures reply.Ok? ==> forall d :: d in r.doctors <==> d in st.doctors && d.unitId != id
    ensures reply.Ok? ==> r.doctors == Filter(st.doctors, (d: Doctor) => d.unitId != id)
    ensures reply.Ok? ==> forall x :: x in r.receptionists <==> x in st.receptionists && x.unitId != id
    ensures reply.Ok? ==> r.receptionists == Filter(st.receptionists, (x: Receptionist) => x.unitId != id)
    ensures reply.Ok? ==> forall p :: p in r.patients <==> p in st.patients && !DoctorOfUnit(st, p.doctorId, id)
    ensures reply.Ok? ==> r.patients == Filter(st.patients, (p: Patient) => p.doctorId !in DoctorIdsOfUnit(st.doctors, id))
    ensures reply.Ok? ==> forall a :: a in r.appointments <==> a in st.appointments && !DoctorOfUnit(st, a.doctorId, id)
    ensures reply.Ok? ==> r.appointments == Filter(st.appointments, (a: Appointment) => a.doctorId !in DoctorIdsOfUnit(st.doctors, id))
    ensures reply.Ok? ==> forall v :: v in r.visits <==> v in st.visits && !DoctorOfUnit(st, v.doctorId, id)
    ensures reply.Ok? ==> r.visits == Filter(st.visits, (v: VisitEntry) => v.doctorId !in DoctorIdsOfUnit(st.doctors, id))
    ensures r.specialties == st.specialties && r.templates == st.templates
    ensures r == st.(units := r.units, doctors := r.doctors, patients := r.patients,
                     appointments := r.appointments, receptionists := r.receptionists,
                     visits := r.visits)
  {
    match reply
    case Ok(_) => DropUnit(st, id)
    case Err(_) => st
  }

  // ---------------------------------------------------------------------
  // Receptionists
  // ---------------------------------------------------------------------

  function AddReceptionist(st: Store, reply: Reply<Receptionist>): (r: Store)
    ensures reply.Err? ==> r == st
    ensures reply.Ok? ==> Appended(r.receptionists, st.receptionists, reply.value)
    ensures r == st.(receptionists := r.receptionists)
  {
    match reply
    case Ok(created) => st.(receptionists := st.receptionists + [created])
    case Err(_) => st
  }

  function UpdateReceptionist(st: Store, reply: Reply<Receptionist>): (r: Store)
    ensures reply.Err? ==> r == st
    ensures reply.Ok? ==> ReplacedByKey(r.receptionists, st.receptionists, (x: Receptionist) => x.id, reply.value)
    ensures r == st.(receptionists := r.receptionists)
  {
    match reply
    case Ok(updated) => st.(receptionists := ReplaceByKey(st.receptionists, (x: Receptionist) => x.id, updated))
    case Err(_) => st
  }

  function RemoveReceptionist(st: Store, id: Id, reply: Reply<()>): (r: Store)
    ensures reply.Err? ==> r == st
    ensures reply.Ok? ==> forall x :: x in r.receptionists <==> x in st.receptionists && x.id != id
    ensures reply.Ok? ==> r.receptionists == Filter(st.receptionists, (x: Receptionist) => x.id != id)
    ensures r == st.(receptionists := r.receptionists)
  {
    match reply
    case Ok(_) => st.(receptionists := Filter(st.receptionists, (x: Receptionist) => x.id != id))
    case Err(_) => st
  }

  // ---------------------------------------------------------------------
  // Visits (add only)
  // ---------------------------------------------------------------------

  /** Unlike every other add, a new visit goes to the FRONT of the list. */
  function AddVisit(st: Store, reply: Reply<VisitEntry>): (r: Store)
    ensures reply.Err? ==> r == st
    ensures reply.Ok? ==> |r.visits| == |st.visits| + 1 && r.visits[0] == reply.value && r.visits[1..] == st.visits
    ensures r == st.(visits := r.visits)
  {
    match reply
    case Ok(created) => st.(visits := [created] + st.visits)
    case Err(_) => st
  }

  // ---------------------------------------------------------------------
  // Specialty templates
  // ---------------------------------------------------------------------

  function AddSpecialtyTemplate(st: Store, reply: Reply<SpecialtyTemplate>): (r: Store)
    ensures reply.Err? ==> r == st
    ensures reply.Ok? ==> Appended(r.templates, st.templates, reply.value)
    ensures r == st.(templates := r.templates)
  {
    match reply
    case Ok(created) => st.(templates := st.templates + [created])
    case Err(_) => st
  }

  /** Editing a template never touches the visits already filled from it. */
  function UpdateSpecialtyTemplate(st: Store, reply: Reply<SpecialtyTemplate>): (r: Store)
    ensures reply.Err? ==> r == st
    ensures reply.Ok? ==> ReplacedByKey(r.templates, st.templates, (t: SpecialtyTemplate) => t.id, reply.value)
    ensures r == st.(templates := r.templates)
  {
    match reply
    case Ok(updated) => st.(templates := ReplaceByKey(st.templates, (t: SpecialtyTemplate) => t.id, updated))
    case Err(_) => st
  }

  /** No cascade: visits that used the template keep its id. */
  function RemoveSpecialtyTemplate(st: Store, id: Id, reply: Reply<()>): (r: Store)
    ensures reply.Err? ==> r == st
    ensures reply.Ok? ==> forall t :: t in r.templates <==> t in st.templates && t.id != id
    ensures reply.Ok? ==> r.templates == Filter(st.templates, (t: SpecialtyTemplate) => t.id != id)
    ensures r == st.(templates := r.templates)
  {
    match reply
    case Ok(_) => st.(templates := Filter(st.templates, (t: SpecialtyTemplate) => t.id != id))
    case Err(_) => st
  }

  // ---------------------------------------------------------------------
  // Doctors
  // ---------------------------------------------------------------------

  function AddDoctor(st: Store, reply: Reply<Doctor>): (r: Store)
    ensures reply.Err? ==> r == st
    ensures reply.Ok? ==> Appended(r.doctors, st.doctors, reply.value)
    ensures r == st.(doctors := r.doctors)
  {
    match reply
    case Ok(created) => st.(doctors := st.doctors + [created])
    case Err(_) => st
  }

  function UpdateDoctor(st: Store, reply: Reply<Doctor>): (r: Store)
    ensures reply.Err? ==> r == st
    ensures reply.Ok? ==> ReplacedByKey(r.doctors, st.doctors, (d: Doctor) => d.id, reply.value)
    ensures r == st.(doctors := r.doctors)
  {
    match reply
    case Ok(updated) => st.(doctors := ReplaceByKey(st.doctors, (d: Doctor) => d.id, updated))
    case Err(_) => st
  }

  /** The local effect of removing a doctor: the doctor and its patients,
      appointments and visits. */
  function DropDoctor(st: Store, id: Id): Store {
    st.(doctors := Filter(st.doctors, (d: Doctor) => d.id != id),
        patients := Filter(st.patients, (p: Patient) => p.doctorId != id),
        appointments := Filter(st.appointments, (a: Appointment) => a.doctorId != id),
        visits := Filter(st.visits, (v: VisitEntry) => v.doctorId != id))
  }

  function RemoveDoctor(st: Store, id: Id, reply: Reply<()>): (r: Store)
    ensures reply.Err? ==> r == st
    ensures reply.Ok? ==> forall d :: d in r.doctors <==> d in st.doctors && d.id != id
    ensures reply.Ok? ==> r.doctors == Filter(st.doctors, (d: Doctor) => d.id != id)
    ensures reply.Ok? ==> forall p :: p in r.patients <==> p in st.patients && p.doctorId != id
    ensures reply.Ok? ==> r.patients == Filter(st.patients, (p: Patient) => p.doctorId != id)
    ensures reply.Ok? ==> forall a :: a in r.appointments <==> a in st.appointments && a.doctorId != id
    ensures reply.Ok? ==> r.appointments == Filter(st.appointments, (a: Appointment) => a.doctorId != id)
    ensures reply.Ok? ==> forall v :: v in r.visits <==> v in st.visits && v.doctorId != id
    ensures reply.Ok? ==> r.visits == Filter(st.visits, (v: VisitEntry) => v.doctorId != id)
    ensures r.units == st.units && r.receptionists == st.receptionists && r.templates == st.templates
    ensures r == st.(doctors := r.doctors, patients := r.patients,
                     appointments := r.appointments, visits := r.visits)
  {
    match reply
    case Ok(_) => DropDoctor(st, id)
    case Err(_) => st
  }

  // ---------------------------------------------------------------------
  // Patients
  // ---------------------------------------------------------------------

  function AddPatient(st: Store, reply: Reply<Patient>): (r: Store)
    ensures reply.Err? ==> r == st
    ensures reply.Ok? ==> Appended(r.patients, st.patients, reply.value)
    ensures r == st.(patients := r.patients)
  {
    match reply
    case Ok(created) => st.(patients := st.patients + [created])
    case Err(_) => st
  }

  function UpdatePatient(st: Store, reply: Reply<Patient>): (r: Store)
    ensures reply.Err? ==> r == st
    ensures reply.Ok? ==> ReplacedByKey(r.patients, st.patients, (p: Patient) => p.id, reply.value)
    ensures r == st.(patients := r.patients)
  {
    match reply
    case Ok(updated) => st.(patients := ReplaceByKey(st.patients, (p: Patient) => p.id, updated))
    case Err(_) => st
  }

  /** Removing a patient removes the appointments and visits that name it. */
  function RemovePatient(st: Store, id: Id, reply: Reply<()>): (r: Store)
    ensures reply.Err? ==> r == st
    ensures reply.Ok? ==> forall p :: p in r.patients <==> p in st.patients && p.id != id
    ensures reply.Ok? ==> r.patients == Filter(st.patients, (p: Patient) => p.id != id)
    ensures reply.Ok? ==> forall a :: a in r.appointments <==> a in st.appointments && a.patientId != id
    ensures reply.Ok? ==> r.appointments == Filter(st.appointments, (a: Appointment) => a.patientId != id)
    ensures reply.Ok? ==> forall v :: v in r.visits <==> v in st.visits && v.patientId != id
    ensures reply.Ok? ==> r.visits == Filter(st.visits, (v: VisitEntry) => v.patientId != id)
    ensures r.units == st.units && r.receptionists == st.receptionists && r.templates == st.templates
    ensures r == st.(patients := r.patients, appointments := r.appointments, visits := r.visits)
  {
    match reply
    case Ok(_) =>
      st.(patients := Filter(st.patients, (p: Patient) => p.id != id),
          appointments := Filter(st.appointments, (a: Appointment) => a.patientId != id),
          visits := Filter(st.visits, (v: VisitEntry) => v.patientId != id))
    case Err(_) => st
  }

  // ---------------------------------------------------------------------
  // Appointments (removal; writes are in module Booking)
  // ---------------------------------------------------------------------

  function RemoveAppointment(st: Store, id: Id, reply: Reply<()>): (r: Store)
    ensures reply.Err? ==> r == st
    ensures reply.Ok? ==> forall a :: a in r.appointments <==> a in st.appointments && a.id != id
    ensures reply.Ok? ==> r.appointments == Filter(st.appointments, (a: Appointment) => a.id != id)
    ensures r == st.(appointments := r.appointments)
  {
    match reply
    case Ok(_) => st.(appointments := Filter(st.appointments, (a: Appointment) => a.id != id))
    case Err(_) => st
  }

  // ---------------------------------------------------------------------
  // Constraints
  // ---------------------------------------------------------------------

  /** The policy is replaced wholesale, locally and without a remote call,
      and without any validation: every value is accepted as given. */
  function UpdateConstraints(st: Store, next: Constraints): (r: Store)
    ensures r.constraints == next
    ensures r == st.(constraints := r.constraints)
  {
    st.(constraints := next)
  }

  /** An update whose returned record carries an id the collection does not
      hold is silently dropped: the store is unchanged, and the caller is
      not told. */
  lemma UpdateOfUnknownIdIsDropped(st: Store, updated: Specialty)
    requires KeyAbsent(st.specialties, (s: Specialty) => s.id, updated.id)
    ensures UpdateSpecialty(st, Ok(updated)) == st
  {
  }
}
