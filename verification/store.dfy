/** The record store: the two collections in natural (insertion) order. */
module Store {
  import opened Types
  import opened PatientModel
  import opened AppointmentModel

  datatype Db = Db(patients: seq<PatientDoc>, appointments: seq<AppointmentDoc>)

  predicate UniquePatientIds(ps: seq<PatientDoc>)
  {
    forall i, j :: 0 <= i < j < |ps| ==> ps[i].id != ps[j].id
  }

  predicate UniqueAppointmentIds(xs: seq<AppointmentDoc>)
  {
    forall i, j :: 0 <= i < j < |xs| ==> xs[i].id != xs[j].id
  }

  /** The store's unique `_id` index on each collection. */
  predicate Valid(db: Db)
  {
    UniquePatientIds(db.patients) && UniqueAppointmentIds(db.appointments)
  }

  predicate HasPatient(db: Db, id: Id)
  {
    exists i :: 0 <= i < |db.patients| && db.patients[i].id == id
  }

  predicate HasAppointment(db: Db, id: Id)
  {
    exists i :: 0 <= i < |db.appointments| && db.appointments[i].id == id
  }

  /** The `_id` match of a lookup by id. */
  function PatientWithId(id: Id): PatientDoc -> bool
  {
    (d: PatientDoc) => d.id == id
  }

  function AppointmentWithId(id: Id): AppointmentDoc -> bool
  {
    (a: AppointmentDoc) => a.id == id
  }
}
