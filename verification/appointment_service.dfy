/** Appointment CRUD and the three plain queries over the store. */
module AppointmentService {
  import opened Wrappers
  import opened Types
  import opened Errors
  import opened Collections
  import opened AppointmentModel
  import opened Store

  /** Position of the appointment with id `id` (the lookup `findById` does). */
  function AppointmentIndex(db: Db, id: Id): Option<nat>
  {
    FirstIndex(db.appointments, AppointmentWithId(id))
  }

  lemma AppointmentIndexSpec(db: Db, id: Id)
    ensures AppointmentIndex(db, id).Some? <==> HasAppointment(db, id)
    ensures AppointmentIndex(db, id).Some? ==>
      AppointmentIndex(db, id).value < |db.appointments| && db.appointments[AppointmentIndex(db, id).value].id == id
  {
  }

  /** Under unique ids the lookup finds the only document with that id. */
  lemma AppointmentIndexUnique(db: Db, i: nat)
    requires Valid(db) && i < |db.appointments|
    ensures AppointmentIndex(db, db.appointments[i].id) == Some(i)
  {
  }

  /** `addAppointment`: validate, then insert. The patient lookup the source
      starts is neither awaited nor consulted, so a missing patient never
      blocks the insert; the 'could not create appointment' branch is never
      reached either, because the un-awaited create is a promise and hence
      always truthy. Failures are the store's validation or duplicate-id
      errors. */
  function AddAppointment(db: Db, body: AppointmentBody, id: Id, createdDefault: int, now: int)
    : (r: Result<(Db, AppointmentDoc), ServiceError>)
    ensures r.Success? <==> NewAppointment(body, id, createdDefault, now).Success? && !HasAppointment(db, id)
    ensures r.Failure? ==> !r.error.Raised?
    ensures NewAppointment(body, id, createdDefault, now).Failure? ==>
      r == Failure(ValidationFailed("appointment", NewAppointment(body, id, createdDefault, now).error))
    ensures NewAppointment(body, id, createdDefault, now).Success? && HasAppointment(db, id) ==>
      r == Failure(DuplicateKey(id))
    ensures r.Success? ==>
      && r.value.1 == NewAppointment(body, id, createdDefault, now).value
      && r.value.0 == db.(appointments := db.appointments + [r.value.1])
    ensures r.Success? && Valid(db) ==> Valid(r.value.0)
  {
    match NewAppointment(body, id, createdDefault, now)
    case Failure(paths) => Failure(ValidationFailed("appointment", paths))
    case Success(doc) =>
      AppointmentIndexSpec(db, id);
      if AppointmentIndex(db, id).Some? then Failure(DuplicateKey(id))
      else Success((db.(appointments := db.appointments + [doc]), doc))
  }

  /** An appointment for a patient id no patient has is stored all the same. */
  lemma AddAppointmentSkipsPatientCheck(db: Db, body: AppointmentBody, id: Id, createdDefault: int, now: int)
    requires NewAppointment(body, id, createdDefault, now).Success? && !HasAppointment(db, id)
    requires !HasPatient(db, body.patient.value)
    ensures AddAppointment(db, body, id, createdDefault, now).Success?
    ensures !HasPatient(AddAppointment(db, body, id, createdDefault, now).value.0, body.patient.value)
  {
  }

  /** The query filters, as predicates on one appointment. */
  function ForPatient(patient: Id): AppointmentDoc -> bool
  {
    (a: AppointmentDoc) => a.patient == patient
  }

  const IsUnpaid: AppointmentDoc -> bool := (a: AppointmentDoc) => a.feePaidBy == UNPAID

  function StartsWithin(start: int, end: int): AppointmentDoc -> bool
  {
    (a: AppointmentDoc) => start <= a.startTime <= end
  }

  /** `fetchPatientsAppointments`: `find({ patient })`. */
  function FetchPatientsAppointments(db: Db, patient: Id): (r: seq<AppointmentDoc>)
    ensures forall a :: multiset(r)[a] == if a.patient == patient then multiset(db.appointments)[a] else 0
    ensures forall a :: a in r <==> a in db.appointments && a.patient == patient
  {
    Filter(db.appointments, ForPatient(patient))
  }

  /** `unpaidAppointments`: `find({ feePaidBy: 'UNPAID' })`. */
  function UnpaidAppointments(db: Db): (r: seq<AppointmentDoc>)
    ensures forall a :: multiset(r)[a] == if a.feePaidBy == UNPAID then multiset(db.appointments)[a] else 0
    ensures forall a :: a in r <==> a in db.appointments && a.feePaidBy == UNPAID
  {
    Filter(db.appointments, IsUnpaid)
  }

  /** `getAppointmentsForDay`: appointments starting between the first and
      the last instant of the day, both included. The calendar arithmetic
      that turns the day string into those instants is a parameter. */
  function GetAppointmentsForDay(db: Db, startOfDay: int, endOfDay: int): (r: seq<AppointmentDoc>)
    ensures forall a ::
      multiset(r)[a] == if startOfDay <= a.startTime <= endOfDay then multiset(db.appointments)[a] else 0
    ensures forall a :: a in r <==> a in db.appointments && startOfDay <= a.startTime <= endOfDay
  {
    Filter(db.appointments, StartsWithin(startOfDay, endOfDay))
  }

  const InvalidAppointmentId: string := "invalid appointment id"

  /** `updateAppointmentById`: merge the supplied fields into the stored
      document and return the new version; an unknown id throws
      BAD_REQUEST 'invalid appointment id'. No validator and no save hook
      run, so `updatedAt` keeps its value. */
  function UpdateAppointmentById(db: Db, id: Id, patch: AppointmentPatch)
    : (r: Result<(Db, AppointmentDoc), CustomError>)
    ensures r.Failure? <==> !HasAppointment(db, id)
    ensures r.Failure? ==> r.error == NewCustomError(BadRequest, InvalidAppointmentId)
    ensures r.Success? ==>
      exists i :: 0 <= i < |db.appointments| && db.appointments[i].id == id
        && r.value.1 == ApplyPatch(db.appointments[i], patch)
        && r.value.1.updatedAt == db.appointments[i].updatedAt
        && r.value.0 == db.(appointments := db.appointments[i := r.value.1])
    ensures r.Success? && Valid(db) ==> Valid(r.value.0)
  {
    AppointmentIndexSpec(db, id);
    match AppointmentIndex(db, id)
    case None => Failure(NewCustomError(BadRequest, InvalidAppointmentId))
    case Some(i) =>
      var updated := ApplyPatch(db.appointments[i], patch);
      var db' := db.(appointments := db.appointments[i := updated]);
      assert Valid(db) ==> Valid(db') by {
        if Valid(db) {
          forall a, b | 0 <= a < b < |db'.appointments|
            ensures db'.appointments[a].id != db'.appointments[b].id
          {
            assert db'.appointments[a].id == db.appointments[a].id;
            assert db'.appointments[b].id == db.appointments[b].id;
          }
        }
      }
      Success((db', updated))
  }

  /** `deleteAppointmentById`: remove the document with that id, if any;
      unknown ids are a no-op. */
  function DeleteAppointmentById(db: Db, id: Id): (r: Db)
    ensures r.patients == db.patients
    ensures !HasAppointment(db, id) ==> r == db
    ensures HasAppointment(db, id) ==> |r.appointments| == |db.appointments| - 1
    ensures forall a :: a in r.appointments ==> a in db.appointments
    ensures forall a :: a in db.appointments && a.id != id ==> a in r.appointments
    ensures Valid(db) ==> Valid(r) && !HasAppointment(r, id)
  {
    AppointmentIndexSpec(db, id);
    match AppointmentIndex(db, id)
    case None => db
    case Some(i) =>
      RemoveAppointmentAt(db, i);
      db.(appointments := RemoveAt(db.appointments, i))
  }

  lemma RemoveAppointmentAt(db: Db, i: nat)
    requires i < |db.appointments|
    ensures var r := db.(appointments := RemoveAt(db.appointments, i));
      && (forall a :: a in r.appointments ==> a in db.appointments)
      && (forall a :: a in db.appointments && a.id != db.appointments[i].id ==> a in r.appointments)
      && (Valid(db) ==> Valid(r) && !HasAppointment(r, db.appointments[i].id))
  {
    var r := db.(appointments := RemoveAt(db.appointments, i));
    RemoveAtMembers(db.appointments, i);
    if Valid(db) {
      forall a, b | 0 <= a < b < |r.appointments|
        ensures r.appointments[a].id != r.appointments[b].id
      {
        var a' := if a < i then a else a + 1;
        var b' := if b < i then b else b + 1;
        assert r.appointments[a] == db.appointments[a'] && r.appointments[b] == db.appointments[b'];
      }
      forall k | 0 <= k < |r.appointments|
        ensures r.appointments[k].id != db.appointments[i].id
      {
        var k' := if k < i then k else k + 1;
        assert r.appointments[k] == db.appointments[k'];
      }
    }
    assert forall a :: a in db.appointments && a.id != db.appointments[i].id ==> a in r.appointments by {
      forall a | a in db.appointments && a.id != db.appointments[i].id
        ensures a in r.appointments
      {
        var k :| 0 <= k < |db.appointments| && db.appointments[k] == a;
      }
    }
  }

  /** Deleting an appointment twice is the same as deleting it once. */
  lemma DeleteIdempotent(db: Db, id: Id)
    requires Valid(db)
    ensures DeleteAppointmentById(DeleteAppointmentById(db, id), id) == DeleteAppointmentById(db, id)
  {
  }

  /** Update, then look up: the stored record is the old one with exactly
      the supplied fields replaced. */
  lemma UpdateThenLookup(db: Db, id: Id, patch: AppointmentPatch)
    requires Valid(db) && HasAppointment(db, id)
    ensures var r := UpdateAppointmentById(db, id, patch);
      && r.Success?
      && AppointmentIndex(r.value.0, id).Some?
      && r.value.0.appointments[AppointmentIndex(r.value.0, id).value]
         == ApplyPatch(db.appointments[AppointmentIndex(db, id).value], patch)
  {
    AppointmentIndexSpec(db, id);
    var i := AppointmentIndex(db, id).value;
    var db' := UpdateAppointmentById(db, id, patch).value.0;
    assert db'.appointments == db.appointments[i := ApplyPatch(db.appointments[i], patch)];
    AppointmentIndexUnique(db', i);
  }

  /** Adding an appointment appends it to its patient's appointment list and
      leaves every other patient's list as it was. */
  lemma AddThenFetchPatientsAppointments(db: Db, body: AppointmentBody, id: Id, createdDefault: int, now: int, patient: Id)
    requires AddAppointment(db, body, id, createdDefault, now).Success?
    ensures var (db', doc) := AddAppointment(db, body, id, createdDefault, now).value;
      FetchPatientsAppointments(db', patient)
      == FetchPatientsAppointments(db, patient) + (if doc.patient == patient then [doc] else [])
  {
    var r := AddAppointment(db, body, id, createdDefault, now);
    var doc := r.value.1;
    assert r.value.0.appointments == db.appointments + [doc];
    FilterAppend(db.appointments, [doc], ForPatient(patient));
    assert [doc][1..] == [];
    assert Filter([doc], ForPatient(patient)) == if doc.patient == patient then [doc] else [];
  }
}
