/** The patient schema: required fields, the `type` enum, the `createdAt`
    default and the save hook that stamps `updatedAt`. */
module PatientModel {
  import opened Wrappers
  import opened Types

  /** A stored patient document. */
  datatype PatientDoc = PatientDoc(
    id: Id,
    name: string,
    petType: PetType,
    ownerName: string,
    ownerAddress: string,
    ownerPhoneNumber: string,
    createdAt: int,
    updatedAt: int)

  /** A creation body as received: any field may be missing, and `type` is
      whatever string the client sent. */
  datatype PatientBody = PatientBody(
    name: Option<string>,
    petType: Option<string>,
    ownerName: Option<string>,
    ownerAddress: Option<string>,
    ownerPhoneNumber: Option<string>)

  /** A partial update: the fields to replace. */
  datatype PatientPatch = PatientPatch(
    name: Option<string>,
    petType: Option<PetType>,
    ownerName: Option<string>,
    ownerAddress: Option<string>,
    ownerPhoneNumber: Option<string>)

  const SchemaPaths: set<string> := {"name", "type", "ownerName", "ownerAddress", "ownerPhoneNumber"}

  /** `type` is present and one of the enum values. */
  predicate ValidPetType(v: Option<string>)
  {
    v.Some? && ParsePetType(v.value).Some?
  }

  /** The paths whose validators fail on `b`. */
  function InvalidPaths(b: PatientBody): set<string>
  {
    (if RequiredString(b.name) then {} else {"name"})
    + (if ValidPetType(b.petType) then {} else {"type"})
    + (if RequiredString(b.ownerName) then {} else {"ownerName"})
    + (if RequiredString(b.ownerAddress) then {} else {"ownerAddress"})
    + (if RequiredString(b.ownerPhoneNumber) then {} else {"ownerPhoneNumber"})
  }

  /** Building and saving a new document: validation first; on success the
      document gets the id, the schema's `createdAt` default (a single value
      fixed when the schema was built) and, from the save hook, `updatedAt`
      set to the current time. */
  function NewPatient(b: PatientBody, id: Id, createdDefault: int, now: int): (r: Result<PatientDoc, set<string>>)
    ensures r.Success? <==>
      RequiredString(b.name) && ValidPetType(b.petType) && RequiredString(b.ownerName)
      && RequiredString(b.ownerAddress) && RequiredString(b.ownerPhoneNumber)
    ensures r.Success? ==>
      && r.value.id == id
      && r.value.name == b.name.value
      && PetTypeName(r.value.petType) == b.petType.value
      && r.value.ownerName == b.ownerName.value
      && r.value.ownerAddress == b.ownerAddress.value
      && r.value.ownerPhoneNumber == b.ownerPhoneNumber.value
      && r.value.createdAt == createdDefault
      && r.value.updatedAt == now
    ensures r.Failure? ==> r.error != {} && r.error <= SchemaPaths
    ensures r.Failure? ==> ("type" in r.error <==> !ValidPetType(b.petType))
    ensures r.Failure? ==> ("name" in r.error <==> !RequiredString(b.name))
    ensures r.Failure? ==> ("ownerName" in r.error <==> !RequiredString(b.ownerName))
    ensures r.Failure? ==> ("ownerAddress" in r.error <==> !RequiredString(b.ownerAddress))
    ensures r.Failure? ==> ("ownerPhoneNumber" in r.error <==> !RequiredString(b.ownerPhoneNumber))
  {
    var bad := InvalidPaths(b);
    if bad != {} then Failure(bad)
    else
      var doc := PatientDoc(id, b.name.value, ParsePetType(b.petType.value).value,
                            b.ownerName.value, b.ownerAddress.value, b.ownerPhoneNumber.value,
                            createdDefault, 0);
      Success(SaveHook(doc, now))
  }

  /** The `pre('save')` hook: stamp `updatedAt` with the current time. */
  function SaveHook(d: PatientDoc, now: int): (r: PatientDoc)
    ensures r.updatedAt == now
    ensures r.(updatedAt := d.updatedAt) == d
  {
    d.(updatedAt := now)
  }

  /** A record with only `name` is rejected on every other path (and on
      `name` too when it is empty). */
  lemma NameOnlyRejected(name: string, id: Id, createdDefault: int, now: int)
    ensures NewPatient(PatientBody(Some(name), None, None, None, None), id, createdDefault, now)
         == Failure({"type", "ownerName", "ownerAddress", "ownerPhoneNumber"} + (if name == "" then {"name"} else {}))
  {
    var b := PatientBody(Some(name), None, None, None, None);
    var expected := {"type", "ownerName", "ownerAddress", "ownerPhoneNumber"} + (if name == "" then {"name"} else {});
    assert !ValidPetType(b.petType) && !RequiredString(b.ownerName);
    assert InvalidPaths(b) == expected;
    assert "type" in InvalidPaths(b);
    assert NewPatient(b, id, createdDefault, now) == Failure(InvalidPaths(b));
  }

  /** Two patients created at different times share the same `createdAt`. */
  lemma CreatedAtIsShared(b1: PatientBody, b2: PatientBody, id1: Id, id2: Id, createdDefault: int, now1: int, now2: int)
    requires NewPatient(b1, id1, createdDefault, now1).Success?
    requires NewPatient(b2, id2, createdDefault, now2).Success?
    ensures NewPatient(b1, id1, createdDefault, now1).value.createdAt
         == NewPatient(b2, id2, createdDefault, now2).value.createdAt
  {
  }

  /** `findByIdAndUpdate` with a partial body: the supplied fields are
      replaced; id, `createdAt` and `updatedAt` are kept, because an update
      query does not run the save hook. */
  function ApplyPatch(d: PatientDoc, p: PatientPatch): (r: PatientDoc)
    ensures r.id == d.id && r.createdAt == d.createdAt && r.updatedAt == d.updatedAt
    ensures r.name == (if p.name.Some? then p.name.value else d.name)
    ensures r.petType == (if p.petType.Some? then p.petType.value else d.petType)
    ensures r.ownerName == (if p.ownerName.Some? then p.ownerName.value else d.ownerName)
    ensures r.ownerAddress == (if p.ownerAddress.Some? then p.ownerAddress.value else d.ownerAddress)
    ensures r.ownerPhoneNumber == (if p.ownerPhoneNumber.Some? then p.ownerPhoneNumber.value else d.ownerPhoneNumber)
  {
    d.(name := p.name.GetOr(d.name),
       petType := p.petType.GetOr(d.petType),
       ownerName := p.ownerName.GetOr(d.ownerName),
       ownerAddress := p.ownerAddress.GetOr(d.ownerAddress),
       ownerPhoneNumber := p.ownerPhoneNumber.GetOr(d.ownerPhoneNumber))
  }
}
