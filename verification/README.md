# Vet clinic records and reports, modelled in Dafny

This project models the core of a small veterinary-clinic service. The service keeps
**patients** (a pet of type cat, dog or bird, plus its owner's details) and
**appointments** (a patient reference, start and end times, a description, an amount
and how the fee was paid: `USD`, `EUR`, `BTC` or `UNPAID`) in a document store.
On top of that data it computes four reports:

- the unpaid bill of one patient;
- the paid or unpaid total of the current week or month, converted at fixed rates;
- the most popular pet type;
- the total earned from one pet type.

Modules. `Wrappers`, `Collections` and `Store` are supporting modules that match no single source file; `Types` holds the enumerations of the shared type declarations:

| module | file | contents |
|---|---|---|
| `Wrappers` | `wrappers.dfy` | `Option` and `Result` |
| `Collections` | `collections.dfy` | filter, sum, count, first index and remove-at over sequences, with their algebra (append, nested filters, pointwise split and negation) |
| `Types` | `types.dfy` | the pet-type, fee and error-name enumerations, and the literal strings of the first two |
| `Utils` | `utils.dfy` | the exchange rates and the `isDocument` guard |
| `Errors` | `errors.dfy` | `CustomError`, its status-code table and `handleError` |
| `PatientModel`, `AppointmentModel` | `patient_model.dfy`, `appointment_model.dfy` | the two schemas: required paths, enum checks, the `createdAt` default, the save hook and partial updates |
| `Store` | `store.dfy` | the two collections in natural order, and the unique-id invariant |
| `PatientService` | `patient_service.dfy` | patient CRUD |
| `AppointmentService` | `appointment_service.dfy` | appointment CRUD and the three plain queries |
| `AppointmentReports` | `appointment_reports.dfy` | the four aggregation pipelines and the controller's balance |

Each aggregation pipeline is read as a fold over the store's sequence:

- `$match` is `Filter`;
- `$group` with `$sum` is `SumOf` or `CountOf`;
- `$lookup` followed by `$unwind` is a join that drops appointments whose patient is
  missing.

The clock, the calendar arithmetic (start and end of a day, week or month) and the
generation of fresh ids come in as parameters. Services that write return the new
store together with their result.

Behaviour of the code that differs from what its names and messages suggest, modelled as written:

- `fetchPatientById` builds a `CustomError` for an unknown id but never throws it. It
  returns `null`, which is `None` here.
- `updatePatientById` and `updateAppointmentById` throw `BAD_REQUEST`, not a not-found
  error.
- An update runs neither the validators nor the save hook, so `updatedAt` is not
  refreshed by an update.
- `addAppointment` starts a patient lookup but neither awaits it nor uses its result.
  An appointment for a missing patient is therefore stored.
- `addAppointment` can never reach its 'could not create appointment' branch: the
  un-awaited create is a promise, and a promise is always truthy. The same holds for
  'could not create patient' in `createPatient`, because the awaited create either
  returns a document or throws. Store rejections surface as the store's own errors
  (`ValidationFailed`, `DuplicateKey`).
- Nothing keeps `amount` non-negative or `startTime <= endTime`.
- `generateReports` returns `undefined` (`None`) when nothing matches or when the total
  is negative. It throws nothing.
- `totalByPet` zero-weights appointments of other pet types instead of filtering them
  out. So with any appointment in the store it returns a number, `0` when no
  appointment matches the pet type. It throws only for an empty collection or a
  negative total.
- `getPopularPet` fails when no appointment has an existing patient. A store holding
  only orphaned appointments is enough.

## Model

| member | source | states |
|---|---|---|
| Types.ParsePetType | src/models/patient.model.ts:14-18 | the `type` enum accepts exactly "cat", "dog" and "bird", and an accepted value names the parsed type |
| Types.PetTypeRoundTrip | src/types/index.d.ts:9 | each pet type's literal parses back to that type |
| Types.ParsePaidBy | src/models/appointment.model.ts:26-30 | the `feePaidBy` enum accepts exactly "USD", "EUR", "BTC" and "UNPAID", and an accepted value names the parsed fee kind |
| Types.PaidByRoundTrip | src/types/index.d.ts:33 | each fee kind's literal parses back to that kind |
| Utils.IsDocument | src/utils.ts:3-12 | true exactly for records and arrays, empty ones included; false for every string and for `undefined` |
| Errors.StatusCode | src/config/error.ts:3-9 | every error name maps to a 4xx code or 500, and only `INTERNAL_SERVER` maps to 500 |
| Errors.NameOfStatus | src/config/error.ts:3-9 | a code found in the table maps back to a name with that code |
| Errors.StatusCodeRoundTrip | src/config/error.ts:3-9 | reverse lookup recovers every name, so the table is one-to-one |
| Errors.StatusCodeInjective | src/config/error.ts:3-9 | two names with the same status code are the same name |
| Errors.NewCustomError | src/config/error.ts:11-24 | the error keeps the given name and description, and its status code is the table's code for the name |
| Errors.HandleError | src/config/error.ts:26-45 | the response always has `status: false`; a `CustomError` passes its code, name and message through; any other `Error` gives 500 `INTERNAL_SERVER` with its own message; a non-`Error` gives 500 with 'Something went wrong' |
| Errors.HandleCustomError | src/config/error.ts:15-23 | a constructed `CustomError` reaches the client with its name's code, its name and its description |
| Errors.HandleServiceError | src/config/error.ts:36-42 | only a service's own `CustomError` keeps its status; validation and duplicate-key failures of the store are reported as 500 `INTERNAL_SERVER` |
| PatientModel.NewPatient | src/models/patient.model.ts:9-43 | creation succeeds exactly when all four strings are present and non-empty and `type` is in the enum. The stored document copies the body, takes the schema's `createdAt` default, and `updatedAt` is the save time. A failure names exactly the failing schema paths: `type` when the type is missing or outside the enum, and each of the four strings when it is missing or empty |
| PatientModel.SaveHook | src/models/patient.model.ts:40-43 | the hook sets `updatedAt` to the current time and changes nothing else |
| PatientModel.NameOnlyRejected | src/tests/unit/patient.test.ts:34-43 | a body with only a name is rejected on exactly `type`, `ownerName`, `ownerAddress` and `ownerPhoneNumber`, plus `name` when the name is empty |
| PatientModel.CreatedAtIsShared | src/models/patient.model.ts:31-34 | the `createdAt` default is evaluated once, so two patients created at different times get the same `createdAt` |
| PatientModel.ApplyPatch | src/services/patient.service.ts:17-18 | a partial update replaces exactly the supplied fields and keeps id, `createdAt` and `updatedAt` |
| AppointmentModel.NewAppointment | src/models/appointment.model.ts:8-47 | creation succeeds exactly when all six paths are present, the description is non-empty and `feePaidBy` is in the enum. The stored document copies the body, takes the `createdAt` default and is stamped by the save hook. A failure names exactly the failing schema paths: each of `patient`, `startTime`, `endTime` and `amount` when missing, `description` when missing or empty, and `feePaidBy` when missing or outside the enum |
| AppointmentModel.SaveHook | src/models/appointment.model.ts:44-47 | the hook sets `updatedAt` to the current time and changes nothing else |
| AppointmentModel.NoOrderingOrSignConstraint | src/models/appointment.model.ts:14-34 | the schema accepts an appointment that ends before it starts and has a negative amount |
| AppointmentModel.CreatedAtIsShared | src/models/appointment.model.ts:35-38 | two appointments created at different times get the same `createdAt` |
| AppointmentModel.ApplyPatch | src/services/appointment.service.ts:27-29 | a partial update replaces exactly the supplied fields and keeps id, `createdAt` and `updatedAt` |
| PatientService.PatientIndexSpec | src/services/patient.service.ts:28 | the by-id lookup finds a position exactly when a patient with that id is stored, and the document there has that id |
| PatientService.PatientIndexUnique | src/services/patient.service.ts:28 | with unique ids the lookup of a stored patient's id finds that patient's position |
| PatientService.CreatePatient | src/services/patient.service.ts:4-11 | creation succeeds exactly when the body validates and the id is free. It appends the new document and keeps ids unique. An invalid body fails with the validation error and its failing paths before any insert; a valid body with a taken id fails with the duplicate-key error. It never fails with a `CustomError` of its own |
| PatientService.FetchPatients | src/services/patient.service.ts:13-15 | returns every stored patient and nothing else |
| PatientService.FetchPatientById | src/services/patient.service.ts:27-34 | returns no document exactly when no patient has the id; otherwise a stored document with that id. Never fails |
| PatientService.UpdatePatientById | src/services/patient.service.ts:17-25 | fails exactly for an unknown id, with BAD_REQUEST 'invalid patient id'. Otherwise it returns the patched document, changes no other patient and no appointment, and keeps ids unique |
| PatientService.DeletePatientById | src/services/patient.service.ts:36-38 | removes one document with that id: an unknown id changes nothing, and the patient's appointments stay. Under unique ids no other patient is lost and the id is gone afterwards |
| PatientService.RemovePatientAt | src/services/patient.service.ts:36-38 | removing one position keeps every other patient and, under unique ids, keeps ids unique and leaves none with the removed id |
| PatientService.CreateThenFetch | src/tests/unit/patient.test.ts:27-32 | after a successful create, fetching the new id returns the created document, which carries the body's fields; the patient list gains exactly that document |
| PatientService.UpdateThenFetch | src/tests/unit/patient.test.ts:63-69 | updating a stored patient succeeds, fetching it afterwards gives the old document with the supplied fields replaced, and `updatedAt` is unchanged |
| PatientService.DeleteIdempotent | src/services/patient.service.ts:36-38 | deleting twice equals deleting once, and the deleted id is no longer found |
| AppointmentService.AppointmentIndexSpec | src/services/appointment.service.ts:27 | the by-id lookup finds a position exactly when an appointment with that id is stored |
| AppointmentService.AppointmentIndexUnique | src/services/appointment.service.ts:27 | with unique ids the lookup of a stored appointment's id finds its position |
| AppointmentService.AddAppointment | src/services/appointment.service.ts:8-17 | creation succeeds exactly when the body validates and the id is free. It appends the new document and keeps ids unique. An invalid body fails with the validation error and its failing paths before any insert; a valid body with a taken id fails with the duplicate-key error. It never fails with a `CustomError` of its own |
| AppointmentService.AddAppointmentSkipsPatientCheck | src/services/appointment.service.ts:9-11 | an appointment referring to a patient id no patient has is stored anyway |
| AppointmentService.FetchPatientsAppointments | src/services/appointment.service.ts:19-21 | returns exactly the patient's appointments, each with its multiplicity in the store |
| AppointmentService.UnpaidAppointments | src/services/appointment.service.ts:51-53 | returns exactly the `UNPAID` appointments, each with its multiplicity in the store |
| AppointmentService.GetAppointmentsForDay | src/services/appointment.service.ts:42-49 | returns exactly the appointments starting between the day's first and last instant, both included |
| AppointmentService.UpdateAppointmentById | src/services/appointment.service.ts:23-36 | fails exactly for an unknown id, with BAD_REQUEST 'invalid appointment id'. Otherwise it replaces that one document with its patched version, keeping `updatedAt`, and keeps ids unique |
| AppointmentService.DeleteAppointmentById | src/services/appointment.service.ts:38-40 | removes one document with that id and changes no patient; an unknown id changes nothing. Under unique ids no other appointment is lost and the id is gone afterwards |
| AppointmentService.RemoveAppointmentAt | src/services/appointment.service.ts:38-40 | removing one position keeps every other appointment and, under unique ids, keeps ids unique |
| AppointmentService.DeleteIdempotent | src/services/appointment.service.ts:38-40 | deleting an appointment twice equals deleting it once |
| AppointmentService.UpdateThenLookup | src/services/appointment.service.ts:23-36 | after an update the stored appointment with that id is the old one with exactly the supplied fields replaced |
| AppointmentService.AddThenFetchPatientsAppointments | src/services/appointment.service.ts:8-21 | adding an appointment appends it to its own patient's list and leaves every other patient's list unchanged |
| AppointmentReports.OwedBy | src/services/appointment.service.ts:56-62 | the `$match` of `remainingBillForPatient`. Its contract: it selects exactly the appointments that are both in the unpaid query and in the patient's query |
| AppointmentReports.RemainingBillForPatient | src/services/appointment.service.ts:55-77 | the bill is the sum of the patient's unpaid amounts, and 0 when the patient has no unpaid appointment |
| AppointmentReports.RemainingBillFromQueries | src/services/appointment.service.ts:55-77 | the bill equals the unpaid part of the patient's appointments and equally the patient's part of the unpaid appointments |
| AppointmentReports.AddUnpaidRaisesBill | src/services/appointment.service.ts:55-77 | adding an unpaid appointment raises its patient's bill by exactly its amount, whether or not the patient exists |
| AppointmentReports.TwoUnpaidBill | src/tests/unit/appointment.test.ts:176-196 | two unpaid appointments of one patient bill their sum |
| AppointmentReports.DeletePatientKeepsBill | src/services/patient.service.ts:36-38 | deleting a patient does not change that patient's bill |
| AppointmentReports.ReportRate | src/services/appointment.service.ts:100-116 | the rate is positive and is 1 exactly for USD and UNPAID; EUR and BTC use the fixed rates |
| AppointmentReports.InReport | src/services/appointment.service.ts:85-94 | the `$match` of `generateReports`. Its contract: it selects exactly the appointments starting within the period, both bounds included, that are unpaid for the unpaid report and paid for the paid one; `GenerateReports` and `UnpaidReportIsPlainSum` build on it |
| AppointmentReports.GenerateReports | src/services/appointment.service.ts:79-134 | a total is returned exactly when some appointment of the selected side starts within the period and the converted sum is not negative. The total is that converted sum |
| AppointmentReports.UnpaidReportIsPlainSum | src/tests/unit/appointment.test.ts:219-237 | the unpaid report is the plain sum of the unpaid amounts starting within the period |
| AppointmentReports.PaidWeekExample | src/tests/unit/appointment.test.ts:199-217 | a paid EUR amount `a` and a paid USD amount `b` in the week report `a * 1.09 + b` |
| AppointmentReports.Balance | src/controllers/appointment.controller.ts:183-200 | the balance exists exactly when both reports do. It is the sum over the period of converted paid amounts minus unpaid amounts |
| AppointmentReports.SignedSum | src/controllers/appointment.controller.ts:191-196 | paid total minus unpaid total equals the single sum in which unpaid appointments count negatively |
| AppointmentReports.LookupPatients | src/services/appointment.service.ts:138-145 | the `$lookup` of one appointment. Its contract: it yields exactly the stored patients whose id is the appointment's `patient`; `LookupIsFindById` narrows this to the one patient under unique ids |
| AppointmentReports.JoinedTypes | src/services/appointment.service.ts:137-148 | the `$lookup` then `$unwind`, keeping each joined patient's type. Its contract: a type occurs exactly when some appointment in the list has a stored patient of that type; `JoinedCount` and `UnwindDropsOrphans` give the multiplicities |
| AppointmentReports.JoinedHead | src/services/appointment.service.ts:138-148 | the types one appointment contributes to the join are exactly the types of the stored patients with its patient id |
| AppointmentReports.LookupIsFindById | src/services/appointment.service.ts:138-145 | with unique ids the `$lookup` yields exactly the patient `fetchPatientById` finds, or nothing |
| AppointmentReports.JoinedCount | src/services/appointment.service.ts:137-154 | after the join, the count for a pet type is the number of appointments whose patient exists and has that type |
| AppointmentReports.UnwindDropsOrphans | src/services/appointment.service.ts:146-148 | the joined list has one entry per appointment whose patient exists |
| AppointmentReports.TallyTypes | src/services/appointment.service.ts:149-154 | the three group counts are the number of each type, and they add up to the joined list's length |
| AppointmentReports.GetPopularPet | src/services/appointment.service.ts:136-165 | fails exactly when the join is empty, with BAD_REQUEST 'could not fetch popular pet'. Otherwise the type returned has a positive count no other type exceeds |
| AppointmentReports.BirdExample | src/tests/unit/appointment.test.ts:240-259 | with two appointments of one bird, birds count 2 and cats and dogs count 0 |
| AppointmentReports.PopularCountsLivePatients | src/services/appointment.service.ts:136-159 | the popularity count of a type counts only appointments whose patient exists and has that type |
| AppointmentReports.PetRate | src/services/appointment.service.ts:200-241 | the four-branch `$switch` of `totalByPet`, each branch also requiring a matched patient, with default 0. Its contract: it equals the report rate (`ReportRate`) on a matched appointment and is 0 otherwise |
| AppointmentReports.TotalByPet | src/services/appointment.service.ts:167-263 | fails exactly on an empty collection or a negative total, with BAD_REQUEST 'could not fetch total for <pet>'. A returned total is never negative |
| AppointmentReports.TotalByPetFailsOnlyWhenEmpty | src/services/appointment.service.ts:257-262 | with non-negative amounts, only an empty collection fails |
| AppointmentReports.MatchedPatient | src/services/appointment.service.ts:177-194 | the `$addFields` stage: the first joined patient of the requested type. Its contract: a result is a stored patient with the appointment's patient id and that type, and there is none exactly when no such patient is stored; `MatchedPatientSpec` restates this through `fetchPatientById` |
| AppointmentReports.PetWeightNonNegative | src/services/appointment.service.ts:196-247 | a non-negative amount contributes a non-negative weight |
| AppointmentReports.PetWeightOfOne | src/services/appointment.service.ts:177-247 | an appointment contributes its converted amount when its patient exists with the requested type, and 0 otherwise |
| AppointmentReports.PetAmountSpec | src/services/appointment.service.ts:244 | the projected amount is the converted amount when matched and 0 otherwise |
| AppointmentReports.MatchedPatientSpec | src/services/appointment.service.ts:177-194 | with unique ids, the first joined patient of the requested type exists exactly when the appointment's patient exists with that type |
| AppointmentReports.TotalByPetIsFilteredSum | src/services/appointment.service.ts:167-263 | the zero-weighted total equals the converted sum over only the appointments whose patient has the requested type |
| AppointmentReports.TwoUnpaidBirdTotal | src/tests/unit/appointment.test.ts:262-281 | with two unpaid appointments of one bird, the bird total is their plain sum |
| AppointmentReports.BirdFilteredSum | src/tests/unit/appointment.test.ts:262-281 | the converted sum over the bird's two unpaid appointments is their plain sum |

## Left out

- The HTTP layer is not modelled: routes, controllers other than the balance, the success envelope, and request parsing.
- Logging (`console.log`) is not modelled.
- Calendar arithmetic (`dayjs` start and end of a day, week or month) is left out. The bounds of the day or period are parameters, and the clock is a parameter.
- Fresh `ObjectId` generation is left out: the new id is a parameter. An insert whose id is already taken fails with `DuplicateKey`, as the store's unique `_id` index would.
- Casting of id strings to `ObjectId` is not modelled. The source throws a cast error on a malformed id, including in `new Types.ObjectId(patientId)` of `remainingBillForPatient`. Here ids are compared as strings.
- Floating point is not modelled: amounts and rates are exact reals, so rounding in sums and products is absent.
- Concurrency and interleaving of requests are not modelled. The store is a value threaded through the calls.
- The un-awaited `fetchPatientById` in `addAppointment` is dropped. Its result never affects the returned value. A rejection of it would be unhandled, and under Node's default unhandled-rejection mode that ends the process. A rejection comes from a malformed id, which is out of scope as the `ObjectId` casting line above says.
- AppointmentService.AddAppointment: a body without `patient`, or with `patient: null`, reaches `findById` as the malformed id `"undefined"` or `"null"`, because the source passes `String(body.patient)` to the lookup. The lookup's cast fails and its rejection ends the process. The model answers such a body with `ValidationFailed` on `patient` alone and does not model the crash.
- Mongoose's exact validation messages are not modelled. A validation failure carries the set of failing paths instead.
- Updates are not validated by the source. The typed patches (`PatientPatch`, `AppointmentPatch`) can only set values of the right type, so an update that writes an out-of-enum `type` or `feePaidBy` is not modelled.
- A creation body that sets `createdAt` or `updatedAt` itself is not modelled. Bodies carry only the schema's six or five business fields.
- AppointmentReports.GetPopularPet: does not fix which type wins a tie. The source leaves the order of equal counts to the store's sort, so the contract states only that the result has the largest count.
- Mongo's typed comparison rules for `$gt: ['$patient', null]` are not modelled. They are taken to be true exactly when a patient of the requested type was matched.
