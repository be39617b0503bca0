/** Patient CRUD over the store. */
module PatientService {
  import opened Wrappers
  import opened Types
  import opened Errors
  import opened Collections
  import opened PatientModel
  import opened Store

  /** Position of the patient with id `id` (the lookup `findById` does). */
  function PatientIndex(db: Db, id: Id): Option<nat>
  {
    FirstIndex(db.patients, PatientWithId(id))
  }

  lemma PatientIndexSpec(db: Db, id: Id)
    ensures PatientIndex(db, id).Some? <==> HasPatient(db, id)
    ensures PatientIndex(db, id).Some? ==>
      PatientIndex(db, id).value < |db.patients| && db.patients[PatientIndex(db, id).value].id == id
  {
  }

  /** Under unique ids the lookup finds the only document with that id. */
  lemma PatientIndexUnique(db: Db, i: nat)
    requires Valid(db) && i < |db.patients|
    ensures PatientIndex(db, db.patients[i].id) == Some(i)
  {
  }

  /** `createPatient`: validate, then insert. A validation failure or a taken
      id is the store's error; the service's own 'could not create patient'
      is never reached, because the awaited create either returns a document
      or throws. */
  function CreatePatient(db: Db, body: PatientBody, id: Id, createdDefault: int, now: int)
    : (r: Result<(Db, PatientDoc), ServiceError>)
    ensures r.Success? <==> NewPatient(body, id, createdDefault, now).Success? && !HasPatient(db, id)
    ensures r.Failure? ==> !r.error.Raised?
    ensures NewPatient(body, id, createdDefault, now).Failure? ==>
      r == Failure(ValidationFailed("patient", NewPatient(body, id, createdDefault, now).error))
    ensures NewPatient(body, id, createdDefault, now).Success? && HasPatient(db, id) ==>
      r == Failure(DuplicateKey(id))
    ensures r.Success? ==>
      && r.value.1 == NewPatient(body, id, createdDefault, now).value
      && r.value.0 == db.(patients := db.patients + [r.value.1])
    ensures r.Success? && Valid(db) ==> Valid(r.value.0)
  {
    match NewPatient(body, id, createdDefault, now)
    case Failure(paths) => Failure(ValidationFailed("patient", paths))
    case Success(doc) =>
      PatientIndexSpec(db, id);
      if PatientIndex(db, id).Some? then Failure(DuplicateKey(id))
      else Success((db.(patients := db.patients + [doc]), doc))
  }

  /** `fetchPatients`: every stored patient, in store order. */
  function FetchPatients(db: Db): (r: seq<PatientDoc>)
    ensures |r| == |db.patients|
    ensures forall d :: d in r <==> d in db.patients
  {
    db.patients
  }

  /** `fetchPatientById`: the stored document, or `null` for an unknown id.
      The `CustomError` the source builds for a missing patient is never
      thrown, so there is no failure case. */
  function FetchPatientById(db: Db, id: Id): (r: Option<PatientDoc>)
    ensures r.None? <==> !HasPatient(db, id)
    ensures r.Some? ==> r.value in db.patients && r.value.id == id
  {
    PatientIndexSpec(db, id);
    match PatientIndex(db, id)
    case None => None
    case Some(i) => Some(db.patients[i])
  }

  const InvalidPatientId: string := "invalid patient id"

  /** `updatePatientById`: merge the supplied fields into the stored
      document and return the new version; an unknown id throws
      BAD_REQUEST 'invalid patient id'. */
  function UpdatePatientById(db: Db, id: Id, patch: PatientPatch)
    : (r: Result<(Db, PatientDoc), CustomError>)
    ensures r.Failure? <==> !HasPatient(db, id)
    ensures r.Failure? ==> r.error == NewCustomError(BadRequest, InvalidPatientId)
    ensures r.Success? ==>
      && FetchPatientById(db, id).Some?
      && r.value.1 == ApplyPatch(FetchPatientById(db, id).value, patch)
      && r.value.0.appointments == db.appointments
      && |r.value.0.patients| == |db.patients|
      && forall j :: 0 <= j < |db.patients| && db.patients[j].id != id ==> r.value.0.patients[j] == db.patients[j]
    ensures r.Success? && Valid(db) ==> Valid(r.value.0)
  {
    PatientIndexSpec(db, id);
    match PatientIndex(db, id)
    case None => Failure(NewCustomError(BadRequest, InvalidPatientId))
    case Some(i) =>
      var updated := ApplyPatch(db.patients[i], patch);
      var db' := db.(patients := db.patients[i := updated]);
      assert Valid(db) ==> Valid(db') by {
        if Valid(db) {
          forall a, b | 0 <= a < b < |db'.patients|
            ensures db'.patients[a].id != db'.patients[b].id
          {
            assert db'.patients[a].id == db.patients[a].id;
            assert db'.patients[b].id == db.patients[b].id;
          }
        }
      }
      Success((db', updated))
  }

  /** `deletePatientById`: remove the document with that id, if any. Unknown
      ids are a no-op, and the patient's appointments stay in the store. */
  function DeletePatientById(db: Db, id: Id): (r: Db)
    ensures r.appointments == db.appointments
    ensures !HasPatient(db, id) ==> r == db
    ensures HasPatient(db, id) ==> |r.patients| == |db.patients| - 1
    ensures forall d :: d in r.patients ==> d in db.patients
    ensures forall d :: d in db.patients && d.id != id ==> d in r.patients
    ensures Valid(db) ==> Valid(r) && !HasPatient(r, id)
  {
    PatientIndexSpec(db, id);
    match PatientIndex(db, id)
    case None => db
    case Some(i) =>
      RemovePatientAt(db, i);
      db.(patients := RemoveAt(db.patients, i))
  }

  lemma RemovePatientAt(db: Db, i: nat)
    requires i < |db.patients|
    ensures var r := db.(patients := RemoveAt(db.patients, i));
      && (forall d :: d in r.patients ==> d in db.patients)
      && (forall d :: d in db.patients && d.id != db.patients[i].id ==> d in r.patients)
      && (Valid(db) ==> Valid(r) && !HasPatient(r, db.patients[i].id))
  {
    var r := db.(patients := RemoveAt(db.patients, i));
    RemoveAtMembers(db.patients, i);
    if Valid(db) {
      forall a, b | 0 <= a < b < |r.patients|
        ensures r.patients[a].id != r.patients[b].id
      {
        var a' := if a < i then a else a + 1;
        var b' := if b < i then b else b + 1;
        assert r.patients[a] == db.patients[a'] && r.patients[b] == db.patients[b'];
      }
      forall k | 0 <= k < |r.patients|
        ensures r.patients[k].id != db.patients[i].id
      {
        var k' := if k < i then k else k + 1;
        assert r.patients[k] == db.patients[k'];
      }
    }
    assert forall d :: d in db.patients && d.id != db.patients[i].id ==> d in r.patients by {
      forall d | d in db.patients && d.id != db.patients[i].id
        ensures d in r.patients
      {
        var k :| 0 <= k < |db.patients| && db.patients[k] == d;
      }
    }
  }

  /** Create, then fetch by the new id: the stored document carries the
      input fields. */
  lemma CreateThenFetch(db: Db, body: PatientBody, id: Id, createdDefault: int, now: int)
    requires Valid(db)
    requires CreatePatient(db, body, id, createdDefault, now).Success?
    ensures var (db', doc) := CreatePatient(db, body, id, createdDefault, now).value;
      && FetchPatientById(db', id) == Some(doc)
      && doc.name == body.name.value
      && PetTypeName(doc.petType) == body.petType.value
      && forall d :: d in FetchPatients(db') <==> d in FetchPatients(db) || d == doc
  {
    var (db', doc) := CreatePatient(db, body, id, createdDefault, now).value;
    PatientIndexUnique(db', |db.patients|);
  }

  /** Update, then fetch: the record is the old one with exactly the
      supplied fields replaced, and its timestamps are untouched. */
  lemma UpdateThenFetch(db: Db, id: Id, patch: PatientPatch)
    requires Valid(db) && HasPatient(db, id)
    ensures var r := UpdatePatientById(db, id, patch);
      var before := FetchPatientById(db, id).value;
      && r.Success?
      && FetchPatientById(r.value.0, id) == Some(ApplyPatch(before, patch))
      && r.value.1.updatedAt == before.updatedAt
  {
    PatientIndexSpec(db, id);
    var i := PatientIndex(db, id).value;
    var db' := UpdatePatientById(db, id, patch).value.0;
    assert db'.patients == db.patients[i := ApplyPatch(db.patients[i], patch)];
    PatientIndexUnique(db', i);
  }

  /** Deleting twice is the same as deleting once, and the deleted id is
      no longer found. */
  lemma DeleteIdempotent(db: Db, id: Id)
    requires Valid(db)
    ensures DeletePatientById(DeletePatientById(db, id), id) == DeletePatientById(db, id)
    ensures FetchPatientById(DeletePatientById(db, id), id).None?
  {
  }
}
