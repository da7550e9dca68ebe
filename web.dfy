/** The web boundary of the backend: request payload fields, responses with
    their HTTP status, and the JSON values that the marshmallow schemas emit. */
module Web {

  datatype Option<+T> = None | Some(value: T)

  /** One key of a JSON request body. `Absent` is a missing key, `Null` is an
      explicit JSON null, `Text` is a string value. */
  datatype Field = Absent | Null | Text(text: string) {

    /** Python truthiness of `request.json.get(key)`: a missing key and null
        give None, and the empty string is falsy. */
    predicate Truthy() {
      Text? && text != ""
    }

    /** `request.json.get(key, None)`: the string, or None when the key is
        missing or null. */
    function Value(): Option<string> {
      if Text? then Some(text) else None
    }
  }

  /** The error statuses the handlers return: HTTP 400, 401, 404 and 500. */
  datatype Status = BadRequest | Unauthorized | NotFound | ServerError

  /** A handler's response: a body with status 200, or an error status with
      the `message` of the error body. */
  datatype Response<+T> = Ok(body: T) | Err(status: Status, message: string)

  /** The error raised when a commit violates a NOT NULL column, or when a
      missing password reaches the hashing primitive; Flask answers it with 500. */
  const InternalErrorMessage := "Internal Server Error"

  /** JSON values as serialised by the schemas. */
  datatype Json =
    | JNull
    | JBool(b: bool)
    | JInt(i: int)
    | JStr(s: string)
    | JList(items: seq<Json>)
    | JObj(fields: map<string, Json>)

  function OptionalString(o: Option<string>): Json {
    match o
    case None => JNull
    case Some(s) => JStr(s)
  }

  /** Keeps the keys of `m` that are in `keep`: marshmallow's `only`, and,
      with the complement, its `exclude`. */
  function Project(m: map<string, Json>, keep: set<string>): (r: map<string, Json>)
    ensures r.Keys == m.Keys * keep
    ensures forall k :: k in r ==> r[k] == m[k]
  {
    map k | k in m && k in keep :: m[k]
  }
}
