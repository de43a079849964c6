# Clinic entity store and appointment conflict check, in Dafny

This project models the data layer of the clinic-operations client: the
`DataProvider` in `src/data/DataContext.tsx` and the record shapes in
`src/data/types.tsx`. The provider holds eight collections: units, doctors,
patients, receptionists, specialties, specialty templates, appointments and
visits. It also holds the scheduling policy (`Constraints`) and the
`loading`/`error` flags.

The model covers:

- the half-open overlap test between two appointments;
- the local conflict scan that `addAppointment` and `updateAppointment` run
  before calling the service, and the `{ok, reason}` outcome they return;
- the confirmed-write protocol. Local state changes only after the remote
  call has succeeded. Add appends the returned record (a visit goes to the
  front instead). Update replaces records by the returned record's id.
  Remove filters;
- the cascades on removal: unit, doctor, patient and specialty;
- the all-or-nothing `refresh`, and `updateConstraints`, which replaces the
  policy without validation.

Each operation is a pure function. It takes the store before the call, plus
the settled reply of its remote call, and returns the store after the call.
A reply is `Reply<T> = Ok(value) | Err(error)`. The error is either an
`Error` with an optional HTTP status and a message, or a thrown value that
is not an `Error`. The service itself is not modelled. An appointment write
also reports which payload it sent, or that it sent nothing.

Modules:

| file | module | content |
|---|---|---|
| wrappers.dfy | Wrappers | `Option` for optional fields and nullable values |
| types.dfy | Types | one datatype per record of `types.tsx`; timestamps are `int` |
| remote.dfy | Remote | `Reply`, `RemoteError`, the conflict status 409 |
| collections.dfy | Collections | append / replace-by-key / filter on lists, and their lemmas |
| schedule.dfy | Schedule | `Overlaps`, the conflict scan |
| store.dfy | EntityStore | the `Store` datatype and every add/update/remove |
| booking.dfy | Booking | `AddAppointment`, `UpdateAppointment` and their outcomes |
| double_booking.dfy | DoubleBooking | the no-double-booking invariant and what keeps it |
| integrity.dfy | Integrity | referential integrity kept by the cascades |
| loader.dfy | Loader | `Refresh` |
| scenarios.dfy | Scenarios | lemmas about the operations on concrete calendars |

Three behaviours of the code worth knowing:

- `addVisit` puts the new visit at the front of the list, not at the end
  (`src/data/DataContext.tsx:210`).
- `Constraints` values are never validated, not even a non-positive
  `slotMinutes`.
- `start < end` is never checked for appointments.

## Model

| member | source | states |
|---|---|---|
| Collections.Filter | src/data/DataContext.tsx:175-180 | a removal keeps a record exactly when the predicate accepts it and was in the list; it never grows the list |
| Collections.FilterAppend | src/data/DataContext.tsx:175-180 | filtering a concatenation is the concatenation of the filtered parts, so survivors keep their relative order |
| Collections.FilterKeepsOrder | src/data/DataContext.tsx:175-180 | two surviving records at positions i < j appear in the result in the same order |
| Collections.FilterCounts | src/data/DataContext.tsx:175-180 | a removal keeps every accepted record as many times as it occurred and no rejected one, so the result is fixed up to order |
| Collections.ReplaceByKey | src/data/DataContext.tsx:147 | update-by-id: every record with the returned id becomes the returned record; every other record stays at its position; the length is unchanged |
| Collections.ReplaceAbsentKeyIsIdentity | src/data/DataContext.tsx:147 | updating an id that is not in the list leaves the list unchanged |
| Collections.FilterFilter | src/data/DataContext.tsx:175-180 | two successive filters equal one filter by the conjunction, so a cascade's result does not depend on how its passes are split |
| Collections.FilterKeepsPairwise | src/data/DataContext.tsx:333 | removing records never breaks a property that held for every pair of records |
| Schedule.Overlaps | src/data/DataContext.tsx:55-57 | spans that only touch (one ends where the other starts) never overlap; two empty or inverted spans never overlap |
| Schedule.OverlapsSymmetric | src/data/DataContext.tsx:55-57 | the overlap test gives the same answer with its arguments swapped |
| Schedule.OverlapsIffCommonInstant | src/data/DataContext.tsx:55-57 | for spans with start < end, overlapping means sharing at least one instant, in both directions |
| Schedule.InvertedSpanStillOverlaps | src/data/DataContext.tsx:55-57 | an inverted span such as [5,3) covers no instant yet overlaps [0,10); the store does not reject such spans |
| Schedule.ConflictScan | src/data/DataContext.tsx:303-308 | the scan is true exactly when some existing appointment of the same doctor overlaps the proposal, skipping the proposal's own id on an update |
| Schedule.ScanIgnoresOtherDoctors | src/data/DataContext.tsx:280-283 | adding another doctor's appointment to the list never changes the scan's answer |
| EntityStore.Initial | src/data/DataContext.tsx:60-75 | the store starts with empty collections, the policy 8/20/30 with double booking forbidden, loading in progress and no error |
| EntityStore.AddSpecialty | src/data/DataContext.tsx:134-139 | on success the returned specialty is appended and nothing else changes; on failure the store is unchanged |
| EntityStore.UpdateSpecialty | src/data/DataContext.tsx:140-149 | on success specialties are replaced by the returned record's id and nothing else changes; on failure the store is unchanged |
| EntityStore.RemoveSpecialty | src/data/DataContext.tsx:150-156 | on success specialties and templates are exactly the order-preserving filters "id differs" and "specialty differs"; nothing else changes (visits included); on failure the store is unchanged |
| EntityStore.AddUnit | src/data/DataContext.tsx:157-162 | on success the returned unit is appended and nothing else changes; on failure the store is unchanged |
| EntityStore.UpdateUnit | src/data/DataContext.tsx:163-168 | on success units are replaced by the returned record's id and nothing else changes; on failure the store is unchanged |
| EntityStore.DoctorIdsOfUnit | src/data/DataContext.tsx:172-174 | an id is listed exactly when some doctor of the given unit carries it |
| EntityStore.RemoveUnit | src/data/DataContext.tsx:169-182 | on success the unit and its doctors and receptionists are removed. Patients, appointments and visits are removed exactly when their doctor belonged to the unit in the pre-removal list. Each result is the order-preserving filter of its collection. Specialties and templates stay. On failure the store is unchanged |
| EntityStore.AddReceptionist | src/data/DataContext.tsx:183-188 | on success the returned receptionist is appended and nothing else changes; on failure the store is unchanged |
| EntityStore.UpdateReceptionist | src/data/DataContext.tsx:189-200 | on success receptionists are replaced by the returned record's id and nothing else changes; on failure the store is unchanged |
| EntityStore.RemoveReceptionist | src/data/DataContext.tsx:201-206 | on success the receptionists are the order-preserving filter "id differs", with no cascade; on failure the store is unchanged |
| EntityStore.AddVisit | src/data/DataContext.tsx:207-212 | on success the returned visit goes to the front and the old visits follow in order; on failure the store is unchanged |
| EntityStore.AddSpecialtyTemplate | src/data/DataContext.tsx:213-218 | on success the returned template is appended and nothing else changes; on failure the store is unchanged |
| EntityStore.UpdateSpecialtyTemplate | src/data/DataContext.tsx:219-228 | on success templates are replaced by the returned record's id and visits are untouched; on failure the store is unchanged |
| EntityStore.RemoveSpecialtyTemplate | src/data/DataContext.tsx:229-234 | on success the templates are the order-preserving filter "id differs" and visits keep their template ids; on failure the store is unchanged |
| EntityStore.AddDoctor | src/data/DataContext.tsx:237-242 | on success the returned doctor is appended and nothing else changes; on failure the store is unchanged |
| EntityStore.UpdateDoctor | src/data/DataContext.tsx:243-248 | on success doctors are replaced by the returned record's id and nothing else changes; on failure the store is unchanged |
| EntityStore.RemoveDoctor | src/data/DataContext.tsx:249-257 | on success the doctor and exactly its patients, appointments and visits are gone, each collection being the order-preserving filter of the old one. Units, receptionists and templates stay. On failure the store is unchanged |
| EntityStore.AddPatient | src/data/DataContext.tsx:258-263 | on success the returned patient is appended and nothing else changes; on failure the store is unchanged |
| EntityStore.UpdatePatient | src/data/DataContext.tsx:264-269 | on success patients are replaced by the returned record's id and nothing else changes; on failure the store is unchanged |
| EntityStore.RemovePatient | src/data/DataContext.tsx:270-277 | on success the patient and exactly the appointments and visits naming it are gone, each collection being the order-preserving filter of the old one. Units, receptionists and templates stay. On failure the store is unchanged |
| EntityStore.RemoveAppointment | src/data/DataContext.tsx:330-335 | on success the appointments are the order-preserving filter "id differs"; on failure the store is unchanged |
| EntityStore.UpdateConstraints | src/data/DataContext.tsx:336-338 | any policy value is accepted as given, with no remote call, and nothing else changes |
| EntityStore.UpdateOfUnknownIdIsDropped | src/data/DataContext.tsx:140-149 | a successful update whose returned id is not held leaves the whole store unchanged |
| Remote.Message | src/data/DataContext.tsx:293 | the surfaced text is the error's own message when the thrown value is an `Error`, and the caller's fallback text otherwise (also lines 111 and 322) |
| Booking.FailureReason | src/data/DataContext.tsx:292-298 | status 409 reads as the double-booking message; any other `Error` shows its message; a non-`Error` shows the fallback text |
| Booking.AddAppointment | src/data/DataContext.tsx:278-300 | with a permissive policy the proposal is always sent. With a strict policy it is refused, with no request and an unchanged store, exactly when a same-doctor appointment overlaps it. Otherwise success appends the returned record, and failure leaves the store unchanged with the mapped reason. ok holds exactly on remote success |
| Booking.UpdateAppointment | src/data/DataContext.tsx:301-329 | the same as AddAppointment, except that the appointment's own id is skipped in the check and a success replaces by the returned id, leaving every other appointment in place |
| Booking.PermissivePolicyNeverRefusesLocally | src/data/DataContext.tsx:279 | after the policy is set to allow overlap, neither write is refused locally |
| Booking.RemoteConflictReadsAsLocalConflict | src/data/DataContext.tsx:294-296 | a 409 from the service gives the same outcome as a local conflict, with the store unchanged |
| Booking.UpdateOfUnknownAppointmentReportsSuccess | src/data/DataContext.tsx:313-320 | an edit of an id the store does not hold reports ok while changing nothing |
| DoubleBooking.AddKeepsNoDoubleBooking | src/data/DataContext.tsx:279-291 | under a strict policy a create keeps "no doctor booked twice at once", provided the service stores the slot it was sent |
| DoubleBooking.UpdateKeepsNoDoubleBooking | src/data/DataContext.tsx:302-320 | under a strict policy, with unique ids and the service echoing id and slot, an edit keeps both no double booking and id uniqueness |
| DoubleBooking.RemovalsKeepNoDoubleBooking | src/data/DataContext.tsx:249-277 | removing an appointment, a patient, a doctor or a unit keeps no double booking |
| DoubleBooking.PermissivePolicyCanDoubleBook | src/data/DataContext.tsx:278-291 | with double booking allowed, 09:15-09:45 is accepted next to 09:00-09:30 for the same doctor, and the invariant is lost |
| Integrity.RemoveUnitKeepsConsistent | src/data/DataContext.tsx:169-182 | removing a unit leaves every owner reference resolving |
| Integrity.RemoveDoctorKeepsConsistent | src/data/DataContext.tsx:249-257 | removing a doctor leaves every owner reference resolving |
| Integrity.RemovePatientKeepsConsistent | src/data/DataContext.tsx:270-277 | removing a patient leaves every owner reference resolving |
| Integrity.RemoveSpecialtyKeepsConsistent | src/data/DataContext.tsx:150-156 | removing a specialty leaves every owner reference resolving |
| Integrity.RemoveReceptionistKeepsConsistent | src/data/DataContext.tsx:201-206 | removing a receptionist needs no cascade to stay consistent |
| Integrity.RemoveAppointmentKeepsConsistent | src/data/DataContext.tsx:330-335 | removing an appointment needs no cascade to stay consistent |
| Integrity.RemoveSpecialtyTemplateKeepsConsistent | src/data/DataContext.tsx:229-234 | removing a template needs no cascade to stay consistent |
| Integrity.RemoveSpecialtyKeepsVisitHistory | src/data/DataContext.tsx:150-156 | removing a specialty keeps every visit, including those whose template is gone |
| Integrity.DropDoctorsPatients | src/data/DataContext.tsx:253 | removing doctors one by one removes exactly the patients of any of them |
| Integrity.DropDoctorsAppointments | src/data/DataContext.tsx:254 | removing doctors one by one removes exactly the appointments of any of them |
| Integrity.DropDoctorsVisits | src/data/DataContext.tsx:255 | removing doctors one by one removes exactly the visits of any of them |
| Integrity.RemoveUnitIsPerDoctorCascade | src/data/DataContext.tsx:172-180 | the unit cascade on patients, appointments and visits equals removing each of the unit's doctors in turn |
| Loader.Refresh | src/data/DataContext.tsx:77-116 | if all eight fetches succeed, all eight collections take the fetched lists and the error is cleared. Otherwise no collection changes and the error is the message of one failed fetch. Loading ends either way and the policy is untouched |
| Loader.RefreshSuccessForgetsPriorState | src/data/DataContext.tsx:101-109 | a fully successful reload gives the same store from any two prior stores with the same policy |
| Loader.FailedRefreshLeavesNoTrace | src/data/DataContext.tsx:77-116 | a failed reload followed by a successful one ends exactly where the successful one alone would |
| Loader.OneFailureKeepsAllCollections | src/data/DataContext.tsx:91-111 | a failing visits fetch keeps all eight collections as they were and sets the error |
| Scenarios.OverlappingProposalIsRefused | src/data/DataContext.tsx:279-286 | 09:15-09:45 next to 09:00-09:30 is refused with the double-booking message, without a request |
| Scenarios.TouchingProposalIsSent | src/data/DataContext.tsx:288-291 | 09:30-10:00 next to 09:00-09:30 is sent and appended |
| Scenarios.UnitRemovalCascades | src/data/DataContext.tsx:169-182 | removing a unit removes its doctor, that doctor's patient, and the patient's appointment and visit |
| Scenarios.SpecialtyRemovalKeepsVisits | src/data/DataContext.tsx:150-156 | removing a specialty removes its template and keeps the visit that used it |

## Left out

- Network I/O, `src/api/client.ts`: each remote call is an abstract settled `Reply`. With the client as written, every thrown error is a plain `Error` without a status, so the 409 branch is not reachable. The model keeps the 409 mapping abstract and claims no more. The client also parses a JSON body from every successful response, including a body-less delete; how that behaves depends on the service, so removals are modelled on the reply alone.
- Asynchrony: every operation is one atomic step from a pre-state. Left out are fire-and-forget promises whose failures go unobserved, out-of-order `refresh` completions, and stale render closures. Examples of stale closures are the doctor list read by `removeUnit` and the appointment list read by the conflict scan. The model reads both from the pre-state.
- Loader.Refresh: the contract promises only that the surfaced error belongs to one failed fetch. The model picks the first failure in listing order. `Promise.all` reports the failure that settles first in time, which the model does not track.
- Loader.Refresh: the intermediate state (loading set, error cleared while the fetches are in flight) is not modelled, only the settled result.
- Date parsing: timestamps are integers. `new Date(...)` on an unparsable string, which gives NaN and makes every comparison false, is left out.
- Integer width: the JavaScript numbers in `Constraints` are unbounded integers here; fractional values are left out.
- Referential checks on add and update: the source performs none, so adds and updates are not claimed to keep `Integrity.Consistent`.
- Pages, routing, authentication and session storage: presentation and I/O around the store, outside this model.
