/**
 * The values both API clients pass around: request parameters, the resource
 * kinds responses are decoded into, the errors they raise, and Python's
 * truthiness of optional arguments.
 */
module Values {
  import opened Wrappers

  /** A request parameter value; `Null` is a parameter passed as None. */
  datatype Value = Null | Int(n: int) | Bool(b: bool) | Str(s: string) | Strs(items: seq<string>)

  /** A parameter (or request body) dictionary. Entries whose value is None are kept as `Null`. */
  type Params = map<string, Value>

  /** The resource classes a response is decoded into. */
  datatype Resource =
    | Stream | StreamMetadata | Game | Clip | Video | Follow | User | Tag
    | Community | Channel | Team

  /** The errors the client raises itself or lets Python raise while reading a response. */
  datatype Error =
    | AttributeError(message: string)       // TwitchAttributeException(message)
    | OAuthError(detail: Option<string>)    // TwitchOAuthException, with or without a message
    | KeyError(key: string)                 // response["key"] on a body without that field
    | TypeError(key: string)                // iterating a field that is not a list

  /** `bool(x)` for an optional string argument: None and "" are false. */
  predicate TruthyStr(x: Option<string>)
  {
    x.Some? && x.value != ""
  }

  /** `bool(xs)` for an optional list argument: None and [] are false. */
  predicate TruthyList(xs: Option<seq<string>>)
  {
    xs.Some? && xs.value != []
  }

  /** The parameter value of an optional string argument. */
  function OptStr(x: Option<string>): Value
  {
    match x
    case None => Null
    case Some(s) => Str(s)
  }

  /** The parameter value of an optional list argument. */
  function OptStrs(xs: Option<seq<string>>): Value
  {
    match xs
    case None => Null
    case Some(items) => Strs(items)
  }

  /** The parameter value of an optional boolean argument. */
  function OptBool(x: Option<bool>): Value
  {
    match x
    case None => Null
    case Some(b) => Bool(b)
  }
}
