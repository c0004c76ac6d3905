/** JSON values as the Windows.Data.Json types expose them, the failures the
    client can raise, and the named-value accessors of JsonObject. */
module Json {

  /** A JSON value. Numbers are kept as integers: the client only ever reads
      integral quantities (ids, counts, status codes). An object is a
      dictionary, as JsonObject is: a name occurs at most once. */
  datatype Json =
    | JNull
    | JBool(b: bool)
    | JNumber(n: int)
    | JString(s: string)
    | JArray(items: seq<Json>)
    | JObject(fields: map<string, Json>)

  type Object = map<string, Json>

  /** Every way an operation of the client can fail. */
  datatype Error =
    | InvalidConfiguration(message: string)  // InvalidConfigurationException
    | FieldError(name: string)               // a GetNamed* accessor found the name absent or of another type
    | WrongType                              // JsonValue.GetObject on a value that is not an object
    | FormatError                            // int.Parse on text that is not an integer
    | OverflowError                          // int.Parse on an integer outside 32 bits
    | NoElement                              // First() on an empty sequence
    | NoResponse                             // the transport produced no response

  datatype Option<+T> = None | Some(value: T)

  datatype Result<+T> = Success(value: T) | Failure(error: Error) {
    predicate IsFailure() { Failure? }
    function PropagateFailure<U>(): Result<U>
      requires Failure?
    {
      Failure(error)
    }
    function Extract(): T
      requires Success?
    {
      value
    }
  }

  /** JsonValue.GetObject */
  function AsObject(v: Json): Result<Object> {
    if v.JObject? then Success(v.fields) else Failure(WrongType)
  }

  /** JsonObject.GetNamedValue */
  function GetNamedValue(o: Object, name: string): Result<Json> {
    if name in o then Success(o[name]) else Failure(FieldError(name))
  }

  /** JsonObject.GetNamedNumber */
  function GetNamedNumber(o: Object, name: string): Result<int> {
    if name in o && o[name].JNumber? then Success(o[name].n) else Failure(FieldError(name))
  }

  /** JsonObject.GetNamedString */
  function GetNamedString(o: Object, name: string): Result<string> {
    if name in o && o[name].JString? then Success(o[name].s) else Failure(FieldError(name))
  }

  /** JsonObject.GetNamedBoolean */
  function GetNamedBoolean(o: Object, name: string): Result<bool> {
    if name in o && o[name].JBool? then Success(o[name].b) else Failure(FieldError(name))
  }

  /** JsonObject.GetNamedBoolean with a default: an absent name gives the
      default, a value of another type is still an error. */
  function GetNamedBooleanOr(o: Object, name: string, default: bool): Result<bool> {
    if name !in o then Success(default) else GetNamedBoolean(o, name)
  }

  /** JsonObject.GetNamedObject */
  function GetNamedObject(o: Object, name: string): Result<Object> {
    if name in o && o[name].JObject? then Success(o[name].fields) else Failure(FieldError(name))
  }

  /** JsonObject.GetNamedArray */
  function GetNamedArray(o: Object, name: string): Result<seq<Json>> {
    if name in o && o[name].JArray? then Success(o[name].items) else Failure(FieldError(name))
  }
}
