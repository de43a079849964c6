/** The record shapes the entity store holds (src/data/types.tsx).
    Identifiers are opaque strings; optional fields become Option values;
    appointment timestamps are integers so that the overlap test is a
    comparison of integers. */
module Types {
  import opened Wrappers

  type Id = string

  /** A unit is either a clinic or an individual practice, nothing else. */
  datatype UnitType = Clinic | Individual

  datatype Unit = Unit(
    id: Id,
    name: string,
    kind: UnitType,
    address: Option<string>,
    phone: Option<string>,
    adminName: Option<string>)

  datatype Doctor = Doctor(
    id: Id,
    name: string,
    email: Option<string>,
    unitId: Id,
    specialtyId: Option<Id>,
    phone: Option<string>,
    licenseNumber: Option<string>,
    canEditPatients: Option<bool>,
    canManageVisits: Option<bool>)

  datatype Patient = Patient(
    id: Id,
    doctorId: Id,
    name: string,
    phone: Option<string>,
    address: Option<string>,
    historyDate: Option<string>)

  /** The four input kinds a consultation-form field may have. */
  datatype FieldType = Text | TextArea | Number | Date

  /** One form field; `labelText` is the field's label (`label` is a Dafny
      keyword). */
  datatype SpecialtyField = SpecialtyField(
    id: Id,
    labelText: string,
    fieldType: FieldType,
    required: Option<bool>)

  /** An ordered list of form fields tied to exactly one specialty. */
  datatype SpecialtyTemplate = SpecialtyTemplate(
    id: Id,
    specialtyId: Id,
    fields: seq<SpecialtyField>)

  /** A completed consultation: the template it was filled from and the
      answer given for each field id. */
  datatype VisitEntry = VisitEntry(
    id: Id,
    doctorId: Id,
    patientId: Id,
    date: string,
    templateId: Id,
    responses: map<Id, string>)

  datatype Specialty = Specialty(id: Id, name: string)

  datatype Receptionist = Receptionist(
    id: Id,
    name: string,
    email: Option<string>,
    address: string,
    phone: string,
    unitId: Id)

  /** A booking of one doctor for one patient over the half-open time span
      [start, end). */
  datatype Appointment = Appointment(
    id: Id,
    doctorId: Id,
    patientId: Id,
    title: string,
    start: int,
    end: int)

  /** The scheduling policy. Nothing constrains the numbers: the store
      accepts whatever the administrator submits. */
  datatype Constraints = Constraints(
    startHour: int,
    endHour: int,
    slotMinutes: int,
    allowOverlap: bool)

  /** The policy the store starts with: 08:00 to 20:00, 30-minute slots,
      double booking forbidden. */
  const DefaultConstraints := Constraints(8, 20, 30, false)
}
