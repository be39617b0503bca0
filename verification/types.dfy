/** The enumerations shared by the records, the reports and the error
    handling, with the literal strings the store and the HTTP layer use. */
module Types {
  import opened Wrappers

  /** A store-assigned document id, treated as an opaque string. */
  type Id = string

  /** Mongoose's `required` check on a `String` path rejects a missing value
      and the empty string. */
  predicate RequiredString(v: Option<string>)
  {
    v.Some? && v.value != ""
  }

  datatype PetType = Cat | Dog | Bird

  function PetTypeName(t: PetType): string
  {
    match t
    case Cat => "cat"
    case Dog => "dog"
    case Bird => "bird"
  }

  /** The schema's `enum` check on a patient's `type`: only the three literal
      names are accepted. */
  function ParsePetType(s: string): (r: Option<PetType>)
    ensures r.Some? <==> s == "cat" || s == "dog" || s == "bird"
    ensures r.Some? ==> PetTypeName(r.value) == s
  {
    if s == "cat" then Some(Cat)
    else if s == "dog" then Some(Dog)
    else if s == "bird" then Some(Bird)
    else None
  }

  lemma PetTypeRoundTrip(t: PetType)
    ensures ParsePetType(PetTypeName(t)) == Some(t)
  {
  }

  /** How an appointment's fee was settled; `UNPAID` means not yet. */
  datatype PaidBy = USD | EUR | BTC | UNPAID

  function PaidByName(p: PaidBy): string
  {
    match p
    case USD => "USD"
    case EUR => "EUR"
    case BTC => "BTC"
    case UNPAID => "UNPAID"
  }

  /** The schema's `enum` check on an appointment's `feePaidBy`. */
  function ParsePaidBy(s: string): (r: Option<PaidBy>)
    ensures r.Some? <==> s == "USD" || s == "EUR" || s == "BTC" || s == "UNPAID"
    ensures r.Some? ==> PaidByName(r.value) == s
  {
    if s == "USD" then Some(USD)
    else if s == "EUR" then Some(EUR)
    else if s == "BTC" then Some(BTC)
    else if s == "UNPAID" then Some(UNPAID)
    else None
  }

  lemma PaidByRoundTrip(p: PaidBy)
    ensures ParsePaidBy(PaidByName(p)) == Some(p)
  {
  }

  /** Which side of the ledger a period report totals. */
  datatype ReportType = Paid | Unpaid

  datatype ErrorName = NotFound | Forbidden | BadRequest | Unauthorized | InternalServer
}
