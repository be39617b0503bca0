/** The reporting queries of the appointment service, each an aggregation
    pipeline read as a fold over the store: the unpaid bill of a patient,
    the paid or unpaid total of a period, the most popular pet type and the
    total earned from one pet type. */
module AppointmentReports {
  import opened Wrappers
  import opened Types
  import opened Utils
  import opened Errors
  import opened Collections
  import opened PatientModel
  import opened AppointmentModel
  import opened Store
  import opened PatientService
  import opened AppointmentService

  // ---------------------------------------------------------------------
  // remainingBillForPatient
  // ---------------------------------------------------------------------

  /** `$match: { feePaidBy: 'UNPAID', patient }`. */
  function OwedBy(patient: Id): (owed: AppointmentDoc -> bool)
    ensures forall a :: owed(a) <==> IsUnpaid(a) && ForPatient(patient)(a)
  {
    (a: AppointmentDoc) => a.feePaidBy == UNPAID && a.patient == patient
  }

  /** What one appointment adds to a patient's bill. */
  function OwedAmount(patient: Id): AppointmentDoc -> real
  {
    (a: AppointmentDoc) => if a.feePaidBy == UNPAID && a.patient == patient then a.amount else 0.0
  }

  const Amount: AppointmentDoc -> real := (a: AppointmentDoc) => a.amount

  /** `remainingBillForPatient`: the group sum of the matching amounts, and
      0 when the pipeline yields no group or a zero sum. */
  function RemainingBillForPatient(db: Db, patient: Id): (r: real)
    ensures r == SumOf(db.appointments, OwedAmount(patient))
    ensures (forall a :: a in db.appointments ==> !OwedBy(patient)(a)) ==> r == 0.0
  {
    var matched := Filter(db.appointments, OwedBy(patient));
    var sum := SumOf(matched, Amount);
    SumOfFilter(db.appointments, OwedBy(patient), Amount, OwedAmount(patient));
    // `result[0]?.sum` is falsy both when no group came back and when the sum is 0
    if |matched| > 0 && sum != 0.0 then sum else 0.0
  }

  /** The bill is the unpaid part of the patient's appointments, and equally
      the patient's part of the unpaid appointments. */
  lemma RemainingBillFromQueries(db: Db, patient: Id)
    ensures RemainingBillForPatient(db, patient)
         == SumOf(Filter(FetchPatientsAppointments(db, patient), IsUnpaid), Amount)
    ensures RemainingBillForPatient(db, patient)
         == SumOf(Filter(UnpaidAppointments(db), ForPatient(patient)), Amount)
  {
    FilterFilter(db.appointments, ForPatient(patient), IsUnpaid, OwedBy(patient));
    FilterFilter(db.appointments, IsUnpaid, ForPatient(patient), OwedBy(patient));
    SumOfFilter(db.appointments, OwedBy(patient), Amount, OwedAmount(patient));
  }

  /** Adding an unpaid appointment for a patient raises the bill by exactly
      its amount, whether or not the patient exists. */
  lemma AddUnpaidRaisesBill(db: Db, body: AppointmentBody, id: Id, createdDefault: int, now: int)
    requires AddAppointment(db, body, id, createdDefault, now).Success?
    requires body.feePaidBy == Some("UNPAID")
    ensures var db' := AddAppointment(db, body, id, createdDefault, now).value.0;
      RemainingBillForPatient(db', body.patient.value)
      == RemainingBillForPatient(db, body.patient.value) + body.amount.value
  {
    var (db', doc) := AddAppointment(db, body, id, createdDefault, now).value;
    SumOfAppend(db.appointments, [doc], OwedAmount(body.patient.value));
    assert [doc][1..] == [];
  }

  /** Two unpaid appointments of one patient: the bill is their sum. */
  lemma TwoUnpaidBill(x: AppointmentDoc, y: AppointmentDoc, others: seq<PatientDoc>)
    requires x.feePaidBy == UNPAID && y.feePaidBy == UNPAID && x.patient == y.patient
    ensures RemainingBillForPatient(Db(others, [x, y]), x.patient) == x.amount + y.amount
  {
    var w := OwedAmount(x.patient);
    assert [x, y][1..] == [y] && [y][1..] == [];
    assert SumOf([x, y], w) == w(x) + (w(y) + SumOf([y][1..], w));
  }

  /** Deleting a patient leaves the patient's bill as it was. */
  lemma DeletePatientKeepsBill(db: Db, patient: Id)
    ensures RemainingBillForPatient(DeletePatientById(db, patient), patient)
         == RemainingBillForPatient(db, patient)
  {
  }

  // ---------------------------------------------------------------------
  // generateReports
  // ---------------------------------------------------------------------

  /** The rate `$switch` of `generateReports`: EUR and BTC at their fixed
      rates, anything else (USD and UNPAID) at 1. */
  function ReportRate(p: PaidBy): (rate: real)
    ensures rate > 0.0
    ensures rate == 1.0 <==> p == USD || p == UNPAID
    ensures p == EUR ==> rate == EurRate
    ensures p == BTC ==> rate == BtcRate
  {
    match p
    case EUR => EurRate
    case BTC => BtcRate
    case _ => 1.0
  }

  /** An amount converted to the reporting currency. */
  const Normalized: AppointmentDoc -> real := (a: AppointmentDoc) => a.amount * ReportRate(a.feePaidBy)

  /** `$match` of `generateReports`: start inside the period, both bounds
      included, and the paid/unpaid side selected by `kind`. */
  function InReport(start: int, end: int, kind: ReportType): (selected: AppointmentDoc -> bool)
    ensures forall a :: selected(a) <==> StartsWithin(start, end)(a) && (IsUnpaid(a) <==> kind == Unpaid)
  {
    (a: AppointmentDoc) =>
      start <= a.startTime <= end && (if kind == Paid then a.feePaidBy != UNPAID else a.feePaidBy == UNPAID)
  }

  /** What one appointment adds to the report. */
  function ReportWeight(start: int, end: int, kind: ReportType): AppointmentDoc -> real
  {
    (a: AppointmentDoc) => if InReport(start, end, kind)(a) then a.amount * ReportRate(a.feePaidBy) else 0.0
  }

  /** `generateReports` for the period `[start, end]`: the sum of the
      converted amounts of the matching appointments; `None` (JavaScript
      `undefined`, nothing thrown) when nothing matches or the sum is
      negative. */
  function GenerateReports(db: Db, start: int, end: int, kind: ReportType): (r: Option<real>)
    ensures r.Some? <==>
      (exists a :: a in db.appointments && InReport(start, end, kind)(a))
      && SumOf(db.appointments, ReportWeight(start, end, kind)) >= 0.0
    ensures r.Some? ==> r.value == SumOf(db.appointments, ReportWeight(start, end, kind))
  {
    var matched := Filter(db.appointments, InReport(start, end, kind));
    SumOfFilter(db.appointments, InReport(start, end, kind), Normalized, ReportWeight(start, end, kind));
    assert |matched| > 0 ==> matched[0] in multiset(matched);
    if |matched| == 0 then None
    else
      var total := SumOf(matched, Normalized);
      if total >= 0.0 then Some(total) else None
  }

  /** The unpaid report is the plain sum of the unpaid amounts in the
      period: UNPAID falls to the rate-1 default. */
  lemma UnpaidReportIsPlainSum(db: Db, start: int, end: int)
    requires GenerateReports(db, start, end, Unpaid).Some?
    ensures GenerateReports(db, start, end, Unpaid).value
         == SumOf(Filter(UnpaidAppointments(db), StartsWithin(start, end)), Amount)
  {
    var inReport := InReport(start, end, Unpaid);
    forall a: AppointmentDoc
      ensures inReport(a) == (IsUnpaid(a) && StartsWithin(start, end)(a))
    {
    }
    FilterFilter(db.appointments, IsUnpaid, StartsWithin(start, end), inReport);
    var weight := ReportWeight(start, end, Unpaid);
    forall a: AppointmentDoc
      ensures weight(a) == if inReport(a) then Amount(a) else 0.0
    {
      if inReport(a) {
        assert ReportRate(a.feePaidBy) == 1.0;
      }
    }
    SumOfFilter(db.appointments, inReport, Amount, weight);
  }

  /** A paid EUR appointment and a paid USD appointment inside the week
      report `a * 1.09 + b`. */
  lemma PaidWeekExample(x: AppointmentDoc, y: AppointmentDoc, start: int, end: int)
    requires x.feePaidBy == EUR && y.feePaidBy == USD
    requires start <= x.startTime <= end && start <= y.startTime <= end
    requires x.amount >= 0.0 && y.amount >= 0.0
    ensures GenerateReports(Db([], [x, y]), start, end, Paid) == Some(x.amount * 1.09 + y.amount)
  {
    var db := Db([], [x, y]);
    var w := ReportWeight(start, end, Paid);
    assert db.appointments[1..] == [y];
    assert [y][1..] == [];
    assert InReport(start, end, Paid)(x) && InReport(start, end, Paid)(y);
    assert ReportRate(x.feePaidBy) == 1.09 && ReportRate(y.feePaidBy) == 1.0;
    assert w(x) == x.amount * 1.09;
    assert w(y) == y.amount;
    assert SumOf(db.appointments, w) == w(x) + (w(y) + SumOf([y][1..], w));
    assert x in db.appointments && InReport(start, end, Paid)(x);
  }

  /** `balanceInAPeriod`: `paid - unpaid`, which is `NaN` (here `None`)
      when either report is `undefined`. */
  function Balance(db: Db, start: int, end: int): (r: Option<real>)
    ensures r.Some? <==> GenerateReports(db, start, end, Paid).Some? && GenerateReports(db, start, end, Unpaid).Some?
    ensures r.Some? ==> r.value == SumOf(db.appointments, SignedWeight(start, end))
  {
    var paid := GenerateReports(db, start, end, Paid);
    var unpaid := GenerateReports(db, start, end, Unpaid);
    if paid.Some? && unpaid.Some? then
      SignedSum(db, start, end);
      Some(paid.value - unpaid.value)
    else None
  }

  /** Inside the period a paid appointment counts its converted amount and an
      unpaid one counts against the balance; outside it counts nothing. */
  function SignedWeight(start: int, end: int): AppointmentDoc -> real
  {
    (a: AppointmentDoc) =>
      if !(start <= a.startTime <= end) then 0.0
      else if a.feePaidBy == UNPAID then -a.amount
      else a.amount * ReportRate(a.feePaidBy)
  }

  lemma SignedSum(db: Db, start: int, end: int)
    ensures SumOf(db.appointments, ReportWeight(start, end, Paid)) - SumOf(db.appointments, ReportWeight(start, end, Unpaid))
         == SumOf(db.appointments, SignedWeight(start, end))
  {
    var negUnpaid := (a: AppointmentDoc) => -ReportWeight(start, end, Unpaid)(a);
    forall a: AppointmentDoc
      ensures SignedWeight(start, end)(a) == ReportWeight(start, end, Paid)(a) + negUnpaid(a)
    {
      var signed := SignedWeight(start, end)(a);
      var paid := ReportWeight(start, end, Paid)(a);
      var unpaid := ReportWeight(start, end, Unpaid)(a);
      assert negUnpaid(a) == -unpaid;
      if !(start <= a.startTime <= end) {
        assert !InReport(start, end, Unpaid)(a) && !InReport(start, end, Paid)(a);
        assert signed == 0.0 && paid == 0.0 && unpaid == 0.0;
      } else if a.feePaidBy == UNPAID {
        assert InReport(start, end, Unpaid)(a) && !InReport(start, end, Paid)(a);
        assert ReportRate(a.feePaidBy) == 1.0;
        assert signed == -a.amount && paid == 0.0 && unpaid == a.amount;
      } else {
        assert !InReport(start, end, Unpaid)(a) && InReport(start, end, Paid)(a);
        assert signed == a.amount * ReportRate(a.feePaidBy) && unpaid == 0.0 && paid == signed;
      }
    }
    SumOfSplit(db.appointments, SignedWeight(start, end), ReportWeight(start, end, Paid), negUnpaid);
    SumOfNegate(db.appointments, ReportWeight(start, end, Unpaid), negUnpaid);
  }

  // ---------------------------------------------------------------------
  // The appointment-to-patient join
  // ---------------------------------------------------------------------

  /** `$lookup` of an appointment's patient: every patient whose id is the
      appointment's `patient` field. */
  function LookupPatients(db: Db, a: AppointmentDoc): (r: seq<PatientDoc>)
    ensures forall d :: d in r <==> d in db.patients && d.id == a.patient
  {
    FilterIn(db.patients, PatientWithId(a.patient));
    Filter(db.patients, PatientWithId(a.patient))
  }

  function TypesOf(ps: seq<PatientDoc>): (r: seq<PetType>)
    ensures |r| == |ps|
    ensures forall i :: 0 <= i < |ps| ==> r[i] == ps[i].petType
  {
    seq(|ps|, i requires 0 <= i < |ps| => ps[i].petType)
  }

  /** `$lookup` then `$unwind`, keeping the joined pet type: one entry per
      (appointment, matching patient) pair, so an appointment whose patient
      does not exist contributes nothing. */
  function JoinedTypes(db: Db, apps: seq<AppointmentDoc>): (r: seq<PetType>)
    ensures forall t :: t in r <==> exists a :: a in apps && HasJoinedType(db, a, t)
  {
    if |apps| == 0 then []
    else
      var head := TypesOf(LookupPatients(db, apps[0]));
      var rest := JoinedTypes(db, apps[1..]);
      JoinedHead(db, apps[0]);
      assert forall a :: a in apps <==> a == apps[0] || a in apps[1..] by {
        assert apps == [apps[0]] + apps[1..];
      }
      head + rest
  }

  /** The types one appointment contributes to the join are the types of the
      stored patients carrying its patient id. */
  lemma JoinedHead(db: Db, a: AppointmentDoc)
    ensures forall t :: t in TypesOf(LookupPatients(db, a)) <==> HasJoinedType(db, a, t)
  {
    var ps := LookupPatients(db, a);
    var head := TypesOf(ps);
    forall t
      ensures t in head <==> HasJoinedType(db, a, t)
    {
      if t in head {
        var k :| 0 <= k < |head| && head[k] == t;
        assert ps[k] in ps;
      }
      if HasJoinedType(db, a, t) {
        var d :| d in db.patients && d.id == a.patient && d.petType == t;
        var k :| 0 <= k < |ps| && ps[k] == d;
        assert head[k] == t;
      }
    }
  }

  /** Some stored patient with the appointment's patient id has type `t`. */
  predicate HasJoinedType(db: Db, a: AppointmentDoc, t: PetType)
  {
    exists d :: d in db.patients && d.id == a.patient && d.petType == t
  }

  /** The type of the patient an appointment refers to, if that patient exists. */
  function PatientTypeOf(db: Db, a: AppointmentDoc): Option<PetType>
  {
    match FetchPatientById(db, a.patient)
    case None => None
    case Some(d) => Some(d.petType)
  }

  /** With unique ids the lookup yields the one patient `findById` finds,
      or nothing. */
  lemma LookupIsFindById(db: Db, a: AppointmentDoc)
    requires Valid(db)
    ensures FetchPatientById(db, a.patient).None? ==> LookupPatients(db, a) == []
    ensures FetchPatientById(db, a.patient).Some? ==> LookupPatients(db, a) == [FetchPatientById(db, a.patient).value]
  {
    var p := PatientWithId(a.patient);
    PatientIndexSpec(db, a.patient);
    match PatientIndex(db, a.patient)
    case None =>
      FilterNone(db.patients, p);
    case Some(i) =>
      forall j | 0 <= j < |db.patients| && j != i
        ensures !p(db.patients[j])
      {
        if j < i {
          assert db.patients[j].id != db.patients[i].id;
        } else {
          assert db.patients[i].id != db.patients[j].id;
        }
      }
      FilterUnique(db.patients, p, i);
  }

  /** The `$group` key of a counted appointment. */
  function IsType(t: PetType): PetType -> bool
  {
    (u: PetType) => u == t
  }

  function HasPatientOfType(db: Db, t: PetType): AppointmentDoc -> bool
  {
    (a: AppointmentDoc) => PatientTypeOf(db, a) == Some(t)
  }

  /** After the join, the appointments counted for a pet type are exactly the
      appointments whose patient exists and has that type. */
  lemma {:induction false} JoinedCount(db: Db, apps: seq<AppointmentDoc>, t: PetType)
    requires Valid(db)
    ensures CountOf(JoinedTypes(db, apps), IsType(t)) == CountOf(apps, HasPatientOfType(db, t))
  {
    if |apps| > 0 {
      var a := apps[0];
      LookupIsFindById(db, a);
      var head := TypesOf(LookupPatients(db, a));
      CountOfAppend(head, JoinedTypes(db, apps[1..]), IsType(t));
      JoinedCount(db, apps[1..], t);
      if FetchPatientById(db, a.patient).Some? {
        assert head == [FetchPatientById(db, a.patient).value.petType];
        assert head[1..] == [];
      }
    }
  }

  function HasLivePatient(db: Db): AppointmentDoc -> bool
  {
    (a: AppointmentDoc) => PatientTypeOf(db, a).Some?
  }

  /** `$unwind` drops the appointments whose patient does not exist: the
      join has one entry per appointment with a live patient. */
  lemma {:induction false} UnwindDropsOrphans(db: Db, apps: seq<AppointmentDoc>)
    requires Valid(db)
    ensures |JoinedTypes(db, apps)| == |Filter(apps, HasLivePatient(db))|
  {
    if |apps| > 0 {
      LookupIsFindById(db, apps[0]);
      UnwindDropsOrphans(db, apps[1..]);
    }
  }

  // ---------------------------------------------------------------------
  // getPopularPet
  // ---------------------------------------------------------------------

  const CouldNotFetchPopularPet: string := "could not fetch popular pet"

  /** How many joined appointments a pet type has. */
  function PetCount(db: Db, t: PetType): nat
  {
    CountOf(JoinedTypes(db, db.appointments), IsType(t))
  }

  /** The `$group` stage on the joined pet types: one count per type. */
  method TallyTypes(types: seq<PetType>) returns (cats: nat, dogs: nat, birds: nat)
    ensures cats == CountOf(types, IsType(Cat))
    ensures dogs == CountOf(types, IsType(Dog))
    ensures birds == CountOf(types, IsType(Bird))
    ensures cats + dogs + birds == |types|
  {
    cats, dogs, birds := 0, 0, 0;
    var i := 0;
    while i < |types|
      invariant 0 <= i <= |types|
      invariant cats == CountOf(types[..i], IsType(Cat))
      invariant dogs == CountOf(types[..i], IsType(Dog))
      invariant birds == CountOf(types[..i], IsType(Bird))
      invariant cats + dogs + birds == i
    {
      assert types[..i + 1] == types[..i] + [types[i]];
      assert [types[i]][1..] == [];
      CountOfAppend(types[..i], [types[i]], IsType(Cat));
      CountOfAppend(types[..i], [types[i]], IsType(Dog));
      CountOfAppend(types[..i], [types[i]], IsType(Bird));
      match types[i] {
        case Cat => cats := cats + 1;
        case Dog => dogs := dogs + 1;
        case Bird => birds := birds + 1;
      }
      i := i + 1;
    }
    assert types[..i] == types;
  }

  /** `getPopularPet`: group the joined appointments by pet type, count,
      sort by count descending and take the first. Ties are left to the
      sort, so any type with the largest count is a correct answer. With no
      joined appointment the pipeline is empty and BAD_REQUEST is thrown. */
  method GetPopularPet(db: Db) returns (r: Result<PetType, CustomError>)
    ensures r.Failure? <==> JoinedTypes(db, db.appointments) == []
    ensures r.Failure? ==> r.error == NewCustomError(BadRequest, CouldNotFetchPopularPet)
    ensures r.Success? ==> PetCount(db, r.value) > 0
    ensures r.Success? ==> forall t :: PetCount(db, t) <= PetCount(db, r.value)
  {
    var joined := JoinedTypes(db, db.appointments);
    var cats, dogs, birds := TallyTypes(joined);
    if cats + dogs + birds == 0 {
      return Failure(NewCustomError(BadRequest, CouldNotFetchPopularPet));
    }
    var best: PetType;
    if cats >= dogs && cats >= birds {
      best := Cat;
    } else if dogs >= birds {
      best := Dog;
    } else {
      best := Bird;
    }
    assert forall t :: PetCount(db, t) == match t case Cat => cats case Dog => dogs case Bird => birds;
    r := Success(best);
  }

  /** Two appointments of one bird: birds lead with two, the other types
      have none, so the popular pet is `bird`. */
  lemma BirdExample(bird: PatientDoc, x: AppointmentDoc, y: AppointmentDoc)
    requires bird.petType == Bird && x.patient == bird.id && y.patient == bird.id && x.id != y.id
    ensures PetCount(Db([bird], [x, y]), Bird) == 2
    ensures PetCount(Db([bird], [x, y]), Cat) == 0 && PetCount(Db([bird], [x, y]), Dog) == 0
  {
    var db := Db([bird], [x, y]);
    JoinedCount(db, db.appointments, Bird);
    JoinedCount(db, db.appointments, Cat);
    JoinedCount(db, db.appointments, Dog);
    PatientIndexUnique(db, 0);
    assert PatientTypeOf(db, x) == Some(Bird) && PatientTypeOf(db, y) == Some(Bird);
    assert [x, y][1..] == [y] && [y][1..] == [];
    forall t: PetType
      ensures CountOf([x, y], HasPatientOfType(db, t)) == if t == Bird then 2 else 0
    {
      assert CountOf([x, y], HasPatientOfType(db, t))
          == (if HasPatientOfType(db, t)(x) then 1 else 0)
             + ((if HasPatientOfType(db, t)(y) then 1 else 0) + CountOf([y][1..], HasPatientOfType(db, t)));
    }
  }

  /** The popular pet is the type with the most appointments whose patient
      exists; appointments of deleted patients are not counted. */
  lemma PopularCountsLivePatients(db: Db, t: PetType)
    requires Valid(db)
    ensures PetCount(db, t) == CountOf(db.appointments, HasPatientOfType(db, t))
  {
    JoinedCount(db, db.appointments, t);
  }

  // ---------------------------------------------------------------------
  // totalByPet
  // ---------------------------------------------------------------------

  /** `$arrayElemAt [ $filter(type == pet), 0 ]`: the first joined patient of
      the requested type, if any. */
  function MatchedPatient(db: Db, a: AppointmentDoc, t: PetType): (r: Option<PatientDoc>)
    ensures r.Some? ==> r.value in db.patients && r.value.id == a.patient && r.value.petType == t
    ensures r.None? <==> !HasJoinedType(db, a, t)
  {
    FilterIn(LookupPatients(db, a), PatientOfType(t));
    var ofType := Filter(LookupPatients(db, a), PatientOfType(t));
    assert |ofType| > 0 ==> ofType[0] in ofType;
    if |ofType| == 0 then None else Some(ofType[0])
  }

  function PatientOfType(t: PetType): PatientDoc -> bool
  {
    (d: PatientDoc) => d.petType == t
  }

  /** The rate `$switch` of `totalByPet`: four explicit branches, each also
      requiring a matched patient (`$gt: ['$patient', null]`), and 0 by
      default. */
  function PetRate(p: PaidBy, matched: bool): (rate: real)
    ensures rate == if matched then ReportRate(p) else 0.0
  {
    if p == EUR && matched then EurRate
    else if p == BTC && matched then BtcRate
    else if p == USD && matched then 1.0
    else if p == UNPAID && matched then 1.0
    else 0.0
  }

  /** `$multiply: ['$amount', '$$rate']` with the `totalByPet` rate. */
  function PetAmount(a: AppointmentDoc, matched: bool): real
  {
    a.amount * PetRate(a.feePaidBy, matched)
  }

  /** What one appointment adds to `totalByPet`. */
  function PetWeight(db: Db, t: PetType): AppointmentDoc -> real
  {
    (a: AppointmentDoc) => PetAmount(a, MatchedPatient(db, a, t).Some?)
  }

  function CouldNotFetchTotal(t: PetType): string
  {
    "could not fetch total for " + PetTypeName(t)
  }

  /** `totalByPet`: every appointment goes through the pipeline and the
      ones not matched contribute 0, so the single group exists whenever
      there is any appointment at all. BAD_REQUEST is thrown only for an
      empty collection or a negative total. */
  function TotalByPet(db: Db, t: PetType): (r: Result<real, CustomError>)
    ensures r.Failure? <==> |db.appointments| == 0 || SumOf(db.appointments, PetWeight(db, t)) < 0.0
    ensures r.Failure? ==> r.error == NewCustomError(BadRequest, CouldNotFetchTotal(t))
    ensures r.Success? ==> r.value >= 0.0
  {
    if |db.appointments| == 0 then Failure(NewCustomError(BadRequest, CouldNotFetchTotal(t)))
    else
      var total := SumOf(db.appointments, PetWeight(db, t));
      if total >= 0.0 then Success(total)
      else Failure(NewCustomError(BadRequest, CouldNotFetchTotal(t)))
  }

  /** With non-negative amounts the only failure is an empty collection. */
  lemma TotalByPetFailsOnlyWhenEmpty(db: Db, t: PetType)
    requires forall i :: 0 <= i < |db.appointments| ==> db.appointments[i].amount >= 0.0
    ensures TotalByPet(db, t).Failure? <==> |db.appointments| == 0
  {
    forall i | 0 <= i < |db.appointments|
      ensures PetWeight(db, t)(db.appointments[i]) >= 0.0
    {
      PetWeightNonNegative(db, t, db.appointments[i]);
    }
    SumOfNonNegative(db.appointments, PetWeight(db, t));
  }

  lemma PetWeightNonNegative(db: Db, t: PetType, a: AppointmentDoc)
    requires a.amount >= 0.0
    ensures PetWeight(db, t)(a) >= 0.0
  {
    var matched := MatchedPatient(db, a, t).Some?;
    assert PetWeight(db, t)(a) == PetAmount(a, matched);
    PetAmountNonNegative(a, matched);
  }

  lemma PetAmountNonNegative(a: AppointmentDoc, matched: bool)
    requires a.amount >= 0.0
    ensures PetAmount(a, matched) >= 0.0
  {
    assert PetRate(a.feePaidBy, matched) >= 0.0;
  }

  /** One appointment's weight in `totalByPet`: its converted amount when its
      patient exists and has the requested type, and 0 otherwise. */
  lemma PetWeightOfOne(db: Db, t: PetType, a: AppointmentDoc)
    requires Valid(db)
    ensures PetWeight(db, t)(a) == if HasPatientOfType(db, t)(a) then Normalized(a) else 0.0
  {
    var matched := MatchedPatient(db, a, t).Some?;
    MatchedPatientSpec(db, a, t);
    PetAmountSpec(a, matched);
    assert PetWeight(db, t)(a) == PetAmount(a, matched);
  }

  lemma PetAmountSpec(a: AppointmentDoc, matched: bool)
    ensures PetAmount(a, matched) == if matched then Normalized(a) else 0.0
  {
  }

  /** With unique ids an appointment is matched exactly when its patient
      exists and has the requested type. */
  lemma MatchedPatientSpec(db: Db, a: AppointmentDoc, t: PetType)
    requires Valid(db)
    ensures MatchedPatient(db, a, t).Some? <==> PatientTypeOf(db, a) == Some(t)
  {
    LookupIsFindById(db, a);
    var isType := PatientOfType(t);
    match FetchPatientById(db, a.patient)
    case Some(d) =>
      if d.petType == t {
        FilterUnique([d], isType, 0);
      } else {
        FilterNone([d], isType);
      }
    case None =>
      FilterNone([], isType);
  }

  /** The zero-weighted total equals the converted sum over just the
      appointments whose patient exists and has the requested type. */
  lemma TotalByPetIsFilteredSum(db: Db, t: PetType)
    requires Valid(db) && TotalByPet(db, t).Success?
    ensures TotalByPet(db, t).value == SumOf(Filter(db.appointments, HasPatientOfType(db, t)), Normalized)
  {
    forall a: AppointmentDoc
      ensures PetWeight(db, t)(a) == if HasPatientOfType(db, t)(a) then Normalized(a) else 0.0
    {
      PetWeightOfOne(db, t, a);
    }
    SumOfFilter(db.appointments, HasPatientOfType(db, t), Normalized, PetWeight(db, t));
  }

  /** Two unpaid appointments of one bird: the bird total is their plain sum. */
  lemma TwoUnpaidBirdTotal(bird: PatientDoc, x: AppointmentDoc, y: AppointmentDoc)
    requires bird.petType == Bird && x.patient == bird.id && y.patient == bird.id && x.id != y.id
    requires x.feePaidBy == UNPAID && y.feePaidBy == UNPAID && x.amount >= 0.0 && y.amount >= 0.0
    ensures TotalByPet(Db([bird], [x, y]), Bird) == Success(x.amount + y.amount)
  {
    var db := Db([bird], [x, y]);
    var r := TotalByPet(db, Bird);
    TotalByPetFailsOnlyWhenEmpty(db, Bird);
    assert r.Success?;
    TotalByPetIsFilteredSum(db, Bird);
    assert r.value == SumOf(Filter([x, y], HasPatientOfType(db, Bird)), Normalized);
    BirdFilteredSum(bird, x, y);
  }

  lemma BirdFilteredSum(bird: PatientDoc, x: AppointmentDoc, y: AppointmentDoc)
    requires bird.petType == Bird && x.patient == bird.id && y.patient == bird.id && x.id != y.id
    requires x.feePaidBy == UNPAID && y.feePaidBy == UNPAID
    ensures SumOf(Filter([x, y], HasPatientOfType(Db([bird], [x, y]), Bird)), Normalized) == x.amount + y.amount
  {
    var db := Db([bird], [x, y]);
    PatientIndexUnique(db, 0);
    var live := HasPatientOfType(db, Bird);
    assert live(x) && live(y);
    assert [x, y][1..] == [y] && [y][1..] == [];
    assert Filter([x, y], live) == [x, y];
    assert ReportRate(UNPAID) == 1.0;
    assert Normalized(x) == x.amount && Normalized(y) == y.amount;
    assert SumOf([x, y], Normalized) == Normalized(x) + (Normalized(y) + SumOf([y][1..], Normalized));
  }
}
