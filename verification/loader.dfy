/** The bulk reload (`refresh` in src/data/DataContext.tsx): the eight
    collections are fetched together and replaced all at once, or not at
    all. */
module Loader {
  import opened Wrappers
  import opened Types
  import opened Remote
  import opened EntityStore

  /** The settled replies of the eight fetches. */
  datatype Fetched = Fetched(
    units: Reply<seq<Unit>>,
    doctors: Reply<seq<Doctor>>,
    patients: Reply<seq<Patient>>,
    receptionists: Reply<seq<Receptionist>>,
    specialties: Reply<seq<Specialty>>,
    templates: Reply<seq<SpecialtyTemplate>>,
    appointments: Reply<seq<Appointment>>,
    visits: Reply<seq<VisitEntry>>)

  /** The message shown when a fetch fails without a message of its own. */
  const LoadFailed := "Error al cargar datos"

  predicate AllLoaded(f: Fetched) {
    && f.units.Ok? && f.doctors.Ok? && f.patients.Ok? && f.receptionists.Ok?
    && f.specialties.Ok? && f.templates.Ok? && f.appointments.Ok? && f.visits.Ok?
  }

  function ErrorOf<T>(reply: Reply<T>): seq<RemoteError> {
    match reply
    case Ok(_) => []
    case Err(e) => [e]
  }

  /** The errors of the failed fetches, in the order the fetches are listed. */
  function Failures(f: Fetched): (errs: seq<RemoteError>)
    ensures |errs| == 0 <==> AllLoaded(f)
  {
    ErrorOf(f.units) + ErrorOf(f.doctors) + ErrorOf(f.patients) + ErrorOf(f.receptionists)
    + ErrorOf(f.specialties) + ErrorOf(f.templates) + ErrorOf(f.appointments) + ErrorOf(f.visits)
  }

  /** Reload everything. When all eight fetches succeed, all eight
      collections take the fetched lists and the error is cleared; when any
      fails, no collection changes and a single error, the message of one of
      the failed fetches, is surfaced. Loading is over either way, and the
      scheduling policy is never touched. */
  function Refresh(st: Store, f: Fetched): (r: Store)
    ensures !r.loading
    ensures r.constraints == st.constraints
    ensures AllLoaded(f) ==>
              && r.units == f.units.value && r.doctors == f.doctors.value
              && r.patients == f.patients.value && r.receptionists == f.receptionists.value
              && r.specialties == f.specialties.value && r.templates == f.templates.value
              && r.appointments == f.appointments.value && r.visits == f.visits.value
              && r.error.None?
    ensures !AllLoaded(f) ==>
              && r == st.(loading := false, error := r.error)
              && exists e :: e in Failures(f) && r.error == Some(Message(e, LoadFailed))
  {
    if AllLoaded(f) then
      st.(units := f.units.value, doctors := f.doctors.value, patients := f.patients.value,
          receptionists := f.receptionists.value, specialties := f.specialties.value,
          templates := f.templates.value, appointments := f.appointments.value,
          visits := f.visits.value, loading := false, error := None)
    else
      var e := Failures(f)[0];
      st.(loading := false, error := Some(Message(e, LoadFailed)))
  }

  /** One failed fetch is enough to keep every collection as it was, even
      when the other seven came back. */
  lemma OneFailureKeepsAllCollections(st: Store, f: Fetched, e: RemoteError)
    requires f.visits == Err(e)
    ensures var r := Refresh(st, f);
            && r.units == st.units && r.doctors == st.doctors && r.patients == st.patients
            && r.receptionists == st.receptionists && r.specialties == st.specialties
            && r.templates == st.templates && r.appointments == st.appointments
            && r.visits == st.visits
            && r.error.Some? && !r.loading
  {
  }

  /** A fully successful reload depends on the prior store only through its
      policy: whatever the collections, loading flag or error were before,
      the result is the same. */
  lemma RefreshSuccessForgetsPriorState(st1: Store, st2: Store, f: Fetched)
    requires AllLoaded(f)
    requires st1.constraints == st2.constraints
    ensures Refresh(st1, f) == Refresh(st2, f)
  {
  }

  /** A failed reload followed by a successful one ends where the
      successful one alone would have. */
  lemma FailedRefreshLeavesNoTrace(st: Store, failed: Fetched, f: Fetched)
    requires !AllLoaded(failed) && AllLoaded(f)
    ensures Refresh(Refresh(st, failed), f) == Refresh(st, f)
  {
  }
}
