/** Values shared by every layer of the API: optional values, handler results,
    the error envelope, the three states of a JSON request field, and the
    JavaScript truthiness rules the controllers apply to them. */
module Common {

  datatype Option<+T> = None | Some(value: T)

  /** The error envelope `{message, ...extra}` with its HTTP status. */
  datatype HttpError =
    | Error(code: nat, message: string)
      /** 403 with `requiresMembership: true` (the membership gate) */
    | MembershipRequired
      /** 400 with `techniqueCount` (a category that is still referenced) */
    | CategoryInUse(techniqueCount: nat)
  {
    function Status(): nat
    {
      match this
      case Error(code, _) => code
      case MembershipRequired => 403
      case CategoryInUse(_) => 400
    }

    function Message(): string
    {
      match this
      case Error(_, message) => message
      case MembershipRequired => "Active membership required to access this content"
      case CategoryInUse(_) => "Cannot delete category that is in use"
    }
  }

  /** What a handler sends: a success body or an error envelope. */
  datatype Result<+T> = Ok(value: T) | Err(error: HttpError)

  /** A field of a JSON request body as Express parses it: left out
      (`undefined`), sent as `null`, or sent with a value. */
  datatype Field<+T> = Absent | Null | Given(value: T)

  /** `f !== undefined` */
  predicate Defined<T>(f: Field<T>)
  {
    !f.Absent?
  }

  /** Truthiness of a string field: `undefined`, `null` and `""` are falsy. */
  predicate TruthyStr(f: Field<string>)
  {
    f.Given? && f.value != ""
  }

  /** Truthiness of a numeric field: `undefined`, `null` and `0` are falsy. */
  predicate TruthyInt(f: Field<int>)
  {
    f.Given? && f.value != 0
  }

  /** Truthiness of an id field: `undefined`, `null` and `0` are falsy. */
  predicate TruthyId(f: Field<nat>)
  {
    f.Given? && f.value != 0
  }

  /** `f || fallback` for a string field over a non-null column. */
  function OrStr(f: Field<string>, fallback: string): string
  {
    if TruthyStr(f) then f.value else fallback
  }

  /** `f || fallback` for a string field over a nullable column. */
  function OrOptStr(f: Field<string>, fallback: Option<string>): Option<string>
  {
    if TruthyStr(f) then Some(f.value) else fallback
  }

  /** `f || fallback` for an enumerated field: every enum word is a non-empty
      string, so only `undefined` and `null` are falsy. */
  function OrEnum<T>(f: Field<T>, fallback: T): T
  {
    if f.Given? then f.value else fallback
  }

  /** `f !== undefined ? f : fallback` over a nullable column: `null` clears it. */
  function IfDefined<T>(f: Field<T>, fallback: Option<T>): Option<T>
  {
    match f
    case Absent => fallback
    case Null => None
    case Given(v) => Some(v)
  }

  /** The value a nullable column receives from `create({column: f})`. */
  function ToColumn<T>(f: Field<T>): Option<T>
  {
    if f.Given? then Some(f.value) else None
  }

  /** Whether a nullable boolean column is truthy in JavaScript terms. */
  predicate IsTrue(b: Option<bool>)
  {
    b == Some(true)
  }

  /** Query-string truthiness: a parameter that is missing or empty is falsy. */
  predicate Present(q: Option<string>)
  {
    q.Some? && q.value != ""
  }

  /** `findByPk`-style lookup in a table. */
  function Get<K, V>(m: map<K, V>, k: K): Option<V>
  {
    if k in m then Some(m[k]) else None
  }

  function Min(a: int, b: int): int
  {
    if a <= b then a else b
  }
}
