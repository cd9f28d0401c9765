/**
 * The parts of zod the two form schemas use: string length bounds, the email check,
 * closed enums, `optional()` and `or(literal(""))`, over a parsed JSON body.
 * The email shape is left abstract: callers pass it as `isEmail`.
 */
module Schema {
  import opened Wrappers

  /** A parsed JSON value, as far as the schemas look at it: `JOther` is a number, boolean, null or array. */
  datatype Json = JString(str: string) | JObject(fields: map<string, Json>) | JOther

  /** The issue a check reports. */
  datatype Issue =
    | Required          // the key is absent (`undefined`)
    | ExpectedString    // present, but not a string
    | TooSmall(minimum: nat)
    | TooBig(maximum: nat)
    | InvalidEmail
    | InvalidEnumValue
    | InvalidLiteral
    | InvalidUnion      // no alternative of an `or` accepted the value
    | ExpectedObject    // the body itself is not an object

  /** `error.flatten()`: issues about the whole body, and one issue per failing field. */
  datatype Details = Details(formErrors: seq<Issue>, fieldErrors: map<string, Issue>)

  /** The value under `key`, None when the key is absent. */
  function Field(fields: map<string, Json>, key: string): (r: Option<Json>)
    ensures r.Some? <==> key in fields
    ensures r.Some? ==> r.value == fields[key]
  {
    if key in fields then Some(fields[key]) else None
  }

  /** The string a present string-valued field holds. */
  predicate IsString(v: Option<Json>) {
    v.Some? && v.value.JString?
  }

  /** `z.string().min(lo)`, followed by `.max(hi)` when `hi` is given. */
  function StringCheck(v: Option<Json>, lo: nat, hi: Option<nat>): (r: Result<string, Issue>)
    ensures r.Ok? <==> IsString(v) && lo <= |v.value.str| && (hi.Some? ==> |v.value.str| <= hi.value)
    ensures r.Ok? ==> v == Some(JString(r.value))
    ensures r.Err? ==> (r.error == Required <==> v.None?) && (r.error == ExpectedString <==> v.Some? && !v.value.JString?)
    ensures IsString(v) && |v.value.str| < lo ==> r == Err(TooSmall(lo))
    ensures IsString(v) && lo <= |v.value.str| && hi.Some? && |v.value.str| > hi.value ==> r == Err(TooBig(hi.value))
  {
    match v
    case None => Err(Required)
    case Some(JString(s)) =>
      if |s| < lo then Err(TooSmall(lo))
      else if hi.Some? && |s| > hi.value then Err(TooBig(hi.value))
      else Ok(s)
    case Some(_) => Err(ExpectedString)
  }

  /** `z.string().email()`, with the email shape given by `isEmail`. */
  function EmailCheck(v: Option<Json>, isEmail: string -> bool): (r: Result<string, Issue>)
    ensures r.Ok? <==> IsString(v) && isEmail(v.value.str)
    ensures r.Ok? ==> v == Some(JString(r.value))
    ensures r.Err? ==> (r.error == Required <==> v.None?)
    ensures v.Some? && !v.value.JString? ==> r == Err(ExpectedString)
    ensures IsString(v) && !isEmail(v.value.str) ==> r == Err(InvalidEmail)
  {
    match v
    case None => Err(Required)
    case Some(JString(s)) => if isEmail(s) then Ok(s) else Err(InvalidEmail)
    case Some(_) => Err(ExpectedString)
  }

  /** `z.enum([...])`: `parse` maps each allowed label to its value and every other string to None. */
  function EnumCheck<E>(v: Option<Json>, parse: string -> Option<E>): (r: Result<E, Issue>)
    ensures r.Ok? <==> IsString(v) && parse(v.value.str).Some?
    ensures r.Ok? ==> r.value == parse(v.value.str).value
    ensures r.Err? ==> (r.error == Required <==> v.None?)
    ensures v.Some? && !v.value.JString? ==> r == Err(ExpectedString)
    ensures IsString(v) && parse(v.value.str).None? ==> r == Err(InvalidEnumValue)
  {
    match v
    case None => Err(Required)
    case Some(JString(s)) => if parse(s).Some? then Ok(parse(s).value) else Err(InvalidEnumValue)
    case Some(_) => Err(ExpectedString)
  }

  /** `z.string().max(hi).optional()`: an absent key is accepted as `undefined` (None). */
  function OptionalMaxCheck(v: Option<Json>, hi: nat): (r: Result<Option<string>, Issue>)
    ensures r.Ok? <==> v.None? || (v.value.JString? && |v.value.str| <= hi)
    ensures r.Ok? ==> (r.value.None? <==> v.None?) && (r.value.Some? ==> v == Some(JString(r.value.value)))
  {
    if v.None? then Ok(None)
    else match StringCheck(v, 0, Some(hi))
      case Ok(s) => Ok(Some(s))
      case Err(e) => Err(e)
  }

  /** `z.literal("")`. */
  function EmptyLiteralCheck(v: Option<Json>): (r: Result<Option<string>, Issue>)
    ensures r.Ok? <==> v == Some(JString(""))
    ensures r.Ok? ==> r.value == Some("")
    ensures r.Err? ==> r.error == InvalidLiteral
  {
    if v == Some(JString("")) then Ok(Some("")) else Err(InvalidLiteral)
  }

  /** An issue after which zod keeps the value as "dirty" rather than aborting its parse. */
  predicate NonFatal(i: Issue) {
    i.TooSmall? || i.TooBig? || i == InvalidEmail
  }

  /**
   * `a.or(b)`: the first alternative that accepts; when none does, the issues of the first
   * alternative that only went dirty, otherwise a union issue.
   */
  function Union<T>(a: Result<T, Issue>, b: Result<T, Issue>): (r: Result<T, Issue>)
    ensures r.Ok? <==> a.Ok? || b.Ok?
    ensures a.Ok? ==> r == a
    ensures !a.Ok? && b.Ok? ==> r == b
    ensures r.Err? ==>
      (NonFatal(a.error) ==> r == a) &&
      (!NonFatal(a.error) && NonFatal(b.error) ==> r == b) &&
      (!NonFatal(a.error) && !NonFatal(b.error) ==> r.error == InvalidUnion)
  {
    if a.Ok? then a
    else if b.Ok? then b
    else if NonFatal(a.error) then a
    else if NonFatal(b.error) then b
    else Err(InvalidUnion)
  }

  /** The issue of a failed check, None when it passed. */
  function IssueIn<T>(r: Result<T, Issue>): (i: Option<Issue>)
    ensures i.Some? <==> r.Err?
    ensures i.Some? ==> i.value == r.error
  {
    if r.Err? then Some(r.error) else None
  }
}
