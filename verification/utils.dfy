/** The fixed exchange rates and the `isDocument` type guard. */
module Utils {

  /** Units of the reporting currency (USD) per euro. */
  const EurRate: real := 1.09

  /** Units of the reporting currency (USD) per bitcoin. */
  const BtcRate: real := 41205.5

  /** The JavaScript values `isDocument` may be handed: a string, a record,
      an array of strings or of records, or `undefined`. */
  datatype JsValue =
    | Undefined
    | Str(text: string)
    | Record(fields: map<string, JsValue>)
    | Array(items: seq<JsValue>)

  /** JavaScript truthiness on these values: `undefined` and the empty string
      are falsy, every object and array (even an empty one) is truthy. */
  predicate Truthy(v: JsValue)
  {
    match v
    case Undefined => false
    case Str(s) => s != ""
    case Record(_) => true
    case Array(_) => true
  }

  /** JavaScript's `typeof` on these values. */
  function TypeOf(v: JsValue): string
  {
    match v
    case Undefined => "undefined"
    case Str(_) => "string"
    case Record(_) => "object"
    case Array(_) => "object"
  }

  /** `data && typeof data !== 'string' ? true : false`. */
  function IsDocument(v: JsValue): (r: bool)
    ensures r <==> v.Record? || v.Array?
    ensures v.Str? || v.Undefined? ==> !r
  {
    Truthy(v) && TypeOf(v) != "string"
  }
}
