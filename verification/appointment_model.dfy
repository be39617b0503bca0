/** The appointment schema: six required fields, the `feePaidBy` enum, the
    `createdAt` default and the save hook that stamps `updatedAt`. */
module AppointmentModel {
  import opened Wrappers
  import opened Types

  /** A stored appointment document. `patient` holds a patient id by value;
      nothing keeps it pointing at an existing patient. Times are instants
      in milliseconds; `amount` is in the currency named by `feePaidBy`. */
  datatype AppointmentDoc = AppointmentDoc(
    id: Id,
    patient: Id,
    startTime: int,
    endTime: int,
    description: string,
    feePaidBy: PaidBy,
    amount: real,
    createdAt: int,
    updatedAt: int)

  /** A creation body as received: any field may be missing, and `feePaidBy`
      is whatever string the client sent. */
  datatype AppointmentBody = AppointmentBody(
    patient: Option<Id>,
    startTime: Option<int>,
    endTime: Option<int>,
    description: Option<string>,
    feePaidBy: Option<string>,
    amount: Option<real>)

  /** A partial update: the fields to replace. */
  datatype AppointmentPatch = AppointmentPatch(
    patient: Option<Id>,
    startTime: Option<int>,
    endTime: Option<int>,
    description: Option<string>,
    feePaidBy: Option<PaidBy>,
    amount: Option<real>)

  const SchemaPaths: set<string> := {"patient", "startTime", "endTime", "description", "feePaidBy", "amount"}

  /** `feePaidBy` is present and one of the enum values. */
  predicate ValidPaidBy(v: Option<string>)
  {
    v.Some? && ParsePaidBy(v.value).Some?
  }

  /** The paths whose validators fail on `b`. */
  function InvalidPaths(b: AppointmentBody): set<string>
  {
    (if b.patient.Some? then {} else {"patient"})
    + (if b.startTime.Some? then {} else {"startTime"})
    + (if b.endTime.Some? then {} else {"endTime"})
    + (if RequiredString(b.description) then {} else {"description"})
    + (if ValidPaidBy(b.feePaidBy) then {} else {"feePaidBy"})
    + (if b.amount.Some? then {} else {"amount"})
  }

  /** Building and saving a new document: validation first; on success the
      document gets the id, the schema's `createdAt` default (a single value
      fixed when the schema was built) and, from the save hook, `updatedAt`
      set to the current time. Nothing relates `startTime` to `endTime`,
      nothing bounds `amount`, and the referenced patient is not looked up. */
  function NewAppointment(b: AppointmentBody, id: Id, createdDefault: int, now: int)
    : (r: Result<AppointmentDoc, set<string>>)
    ensures r.Success? <==>
      b.patient.Some? && b.startTime.Some? && b.endTime.Some?
      && RequiredString(b.description) && ValidPaidBy(b.feePaidBy) && b.amount.Some?
    ensures r.Success? ==>
      && r.value.id == id
      && r.value.patient == b.patient.value
      && r.value.startTime == b.startTime.value
      && r.value.endTime == b.endTime.value
      && r.value.description == b.description.value
      && PaidByName(r.value.feePaidBy) == b.feePaidBy.value
      && r.value.amount == b.amount.value
      && r.value.createdAt == createdDefault
      && r.value.updatedAt == now
    ensures r.Failure? ==> r.error != {} && r.error <= SchemaPaths
    ensures r.Failure? ==> ("feePaidBy" in r.error <==> !ValidPaidBy(b.feePaidBy))
    ensures r.Failure? ==> ("description" in r.error <==> !RequiredString(b.description))
    ensures r.Failure? ==> ("patient" in r.error <==> b.patient.None?)
    ensures r.Failure? ==> ("startTime" in r.error <==> b.startTime.None?)
    ensures r.Failure? ==> ("endTime" in r.error <==> b.endTime.None?)
    ensures r.Failure? ==> ("amount" in r.error <==> b.amount.None?)
  {
    var bad := InvalidPaths(b);
    if bad != {} then Failure(bad)
    else
      var doc := AppointmentDoc(id, b.patient.value, b.startTime.value, b.endTime.value,
                                b.description.value, ParsePaidBy(b.feePaidBy.value).value,
                                b.amount.value, createdDefault, 0);
      Success(SaveHook(doc, now))
  }

  /** The `pre('save')` hook: stamp `updatedAt` with the current time. */
  function SaveHook(d: AppointmentDoc, now: int): (r: AppointmentDoc)
    ensures r.updatedAt == now
    ensures r.(updatedAt := d.updatedAt) == d
  {
    d.(updatedAt := now)
  }

  /** The schema accepts an appointment that ends before it starts and has
      a negative amount. */
  lemma NoOrderingOrSignConstraint(patient: Id, start: int, end: int, description: string, amount: real,
                                   id: Id, createdDefault: int, now: int)
    requires end < start && amount < 0.0 && description != ""
    ensures NewAppointment(AppointmentBody(Some(patient), Some(start), Some(end), Some(description),
                                           Some("UNPAID"), Some(amount)), id, createdDefault, now).Success?
  {
  }

  /** Two appointments created at different times share the same `createdAt`. */
  lemma CreatedAtIsShared(b1: AppointmentBody, b2: AppointmentBody, id1: Id, id2: Id,
                          createdDefault: int, now1: int, now2: int)
    requires NewAppointment(b1, id1, createdDefault, now1).Success?
    requires NewAppointment(b2, id2, createdDefault, now2).Success?
    ensures NewAppointment(b1, id1, createdDefault, now1).value.createdAt
         == NewAppointment(b2, id2, createdDefault, now2).value.createdAt
  {
  }

  /** `findByIdAndUpdate` with a partial body: the supplied fields are
      replaced; id, `createdAt` and `updatedAt` are kept, because an update
      query does not run the save hook. */
  function ApplyPatch(d: AppointmentDoc, p: AppointmentPatch): (r: AppointmentDoc)
    ensures r.id == d.id && r.createdAt == d.createdAt && r.updatedAt == d.updatedAt
    ensures r.patient == (if p.patient.Some? then p.patient.value else d.patient)
    ensures r.startTime == (if p.startTime.Some? then p.startTime.value else d.startTime)
    ensures r.endTime == (if p.endTime.Some? then p.endTime.value else d.endTime)
    ensures r.description == (if p.description.Some? then p.description.value else d.description)
    ensures r.feePaidBy == (if p.feePaidBy.Some? then p.feePaidBy.value else d.feePaidBy)
    ensures r.amount == (if p.amount.Some? then p.amount.value else d.amount)
  {
    d.(patient := p.patient.GetOr(d.patient),
       startTime := p.startTime.GetOr(d.startTime),
       endTime := p.endTime.GetOr(d.endTime),
       description := p.description.GetOr(d.description),
       feePaidBy := p.feePaidBy.GetOr(d.feePaidBy),
       amount := p.amount.GetOr(d.amount))
  }
}
