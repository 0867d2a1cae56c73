/**
 * How a declared record field is read from the keyword arguments of a model
 * constructor: the declarative side (`HasKind`, `Required`, `Optional`, ...)
 * says which JSON shapes a field declaration accepts, and the readers
 * (`GetInt`, `GetOptionalStr`, ...) do the reading with typed results.
 *
 * Three kinds of declaration occur in the records:
 *   `x: T`                         required: the key must be present and hold a T;
 *   `x: T | None = None`           optional: an absent key or `null` reads as None;
 *   `x: T = Field(..., alias=K)`   required, read from the key K (a `T` that admits
 *                                  None, such as `Any | None`, accepts `null` there).
 * Keys a record does not declare are ignored.
 */
module Fields {
  import opened Wrappers
  import opened Json

  /** A step of the path to where a validation error arose: a key, or a position in a list. */
  datatype Loc = Key(key: string) | Index(index: nat)

  /** What was wrong there: the key was absent, or its value had the wrong shape. */
  datatype Problem = Missing | WrongType

  /** One entry of a validation error, as pydantic reports it: where it arose and why. */
  datatype FieldError = FieldError(loc: seq<Loc>, problem: Problem)

  /** A `datetime` field, kept as an opaque token: an ISO text or a Unix time in seconds. */
  datatype DateTime = Iso(text: string) | Epoch(seconds: real)

  /** A `str | datetime` field: a JSON string stays text, a JSON number is a Unix time. */
  datatype TextOrDateTime = Text(text: string) | EpochTime(seconds: real)

  /** The field types that occur in the records, as the JSON shapes they accept. */
  datatype Kind =
    | IntKind
    | StrKind
    | BoolKind
    | DateTimeKind
    | FloatKind
    | AnyKind
    | StrListKind
    | TextOrDateTimeKind
    | CodeTextListKind

  /** A `tuple[int, str]`: a JSON array of exactly an integer and a string. */
  predicate IsCodeText(v: Value) {
    v.Array? && |v.items| == 2 && v.items[0].Int? && v.items[1].String?
  }

  predicate HasKind(v: Value, k: Kind) {
    match k
    case IntKind => v.Int?
    case StrKind => v.String?
    case BoolKind => v.Bool?
    case DateTimeKind => v.String? || v.Int? || v.Float?
    case FloatKind => v.Int? || v.Float?
    case AnyKind => true
    case StrListKind => v.Array? && forall i :: 0 <= i < |v.items| ==> v.items[i].String?
    case TextOrDateTimeKind => v.String? || v.Int? || v.Float?
    case CodeTextListKind => v.Array? && forall i :: 0 <= i < |v.items| ==> IsCodeText(v.items[i])
  }

  /** A field declared without a default (or with `Field(...)`): present, of its kind. */
  predicate Required(m: map<string, Value>, key: string, k: Kind) {
    key in m && HasKind(m[key], k)
  }

  /** A field declared `T | None = None`: absent, `null`, or of its kind. */
  predicate Optional(m: map<string, Value>, key: string, k: Kind) {
    key !in m || m[key] == Null || HasKind(m[key], k)
  }

  /** A required field whose type is another record, described by `valid`. */
  predicate RequiredRecord(m: map<string, Value>, key: string, valid: map<string, Value> -> bool) {
    key in m && m[key].Object? && valid(m[key].fields)
  }

  /** A field declared `list[R] | None = None` for a record R described by `valid`. */
  predicate OptionalRecords(m: map<string, Value>, key: string, valid: map<string, Value> -> bool) {
    key !in m || m[key] == Null ||
    (m[key].Array? &&
     forall i :: 0 <= i < |m[key].items| ==> m[key].items[i].Object? && valid(m[key].items[i].fields))
  }

  // Checks: the errors one declared field contributes, empty exactly when it is valid.

  /** The errors of a required field: one when it is absent or of the wrong shape. */
  function CheckRequired(m: map<string, Value>, key: string, k: Kind): (e: seq<FieldError>)
    ensures e == [] <==> Required(m, key, k)
    ensures key !in m ==> e == [FieldError([Key(key)], Missing)]
    ensures |e| <= 1
  {
    if key !in m then [FieldError([Key(key)], Missing)]
    else if !HasKind(m[key], k) then [FieldError([Key(key)], WrongType)]
    else []
  }

  /** The errors of a field declared `T | None = None`: none when absent or `null`. */
  function CheckOptional(m: map<string, Value>, key: string, k: Kind): (e: seq<FieldError>)
    ensures e == [] <==> Optional(m, key, k)
    ensures key !in m ==> e == []
    ensures |e| <= 1
  {
    if key !in m || m[key] == Null || HasKind(m[key], k) then []
    else [FieldError([Key(key)], WrongType)]
  }

  /** The errors `errors` of a nested record, relocated under `loc`. */
  function Under(loc: seq<Loc>, errors: seq<FieldError>): (e: seq<FieldError>)
    ensures |e| == |errors|
    ensures forall i :: 0 <= i < |errors| ==> e[i] == FieldError(loc + errors[i].loc, errors[i].problem)
  {
    seq(|errors|, i requires 0 <= i < |errors| => FieldError(loc + errors[i].loc, errors[i].problem))
  }

  /** The errors of a required field whose type is a record with error function `check`. */
  function CheckRecord(m: map<string, Value>, key: string, check: map<string, Value> -> seq<FieldError>): (e: seq<FieldError>)
    ensures e == [] <==> key in m && m[key].Object? && check(m[key].fields) == []
    ensures key !in m ==> e == [FieldError([Key(key)], Missing)]
    ensures key in m && m[key].Object? ==> e == Under([Key(key)], check(m[key].fields))
  {
    if key !in m then [FieldError([Key(key)], Missing)]
    else if !m[key].Object? then [FieldError([Key(key)], WrongType)]
    else Under([Key(key)], check(m[key].fields))
  }

  /** The errors of a field declared `list[R] | None = None`, R having error function `check`. */
  function CheckRecords(m: map<string, Value>, key: string, check: map<string, Value> -> seq<FieldError>): (e: seq<FieldError>)
    ensures e == [] <==>
              || key !in m
              || m[key] == Null
              || (m[key].Array? && forall i :: 0 <= i < |m[key].items| ==> m[key].items[i].Object? && check(m[key].items[i].fields) == [])
    ensures key !in m ==> e == []
  {
    if key !in m || m[key] == Null then []
    else if !m[key].Array? then [FieldError([Key(key)], WrongType)]
    else ItemErrors(key, m[key].items, 0, check)
  }

  /** The errors of `items`, the elements from position `start` on of the list under `key`. */
  function ItemErrors(key: string, items: seq<Value>, start: nat, check: map<string, Value> -> seq<FieldError>): (e: seq<FieldError>)
    ensures e == [] <==> forall i :: 0 <= i < |items| ==> items[i].Object? && check(items[i].fields) == []
    decreases |items|
  {
    if items == [] then []
    else
      var here := if items[0].Object? then Under([Key(key), Index(start)], check(items[0].fields))
                  else [FieldError([Key(key), Index(start)], WrongType)];
      here + ItemErrors(key, items[1..], start + 1, check)
  }

  // Readers: the typed value of a field already known to be valid.

  function GetInt(m: map<string, Value>, key: string): (x: int)
    requires Required(m, key, IntKind)
    ensures m[key] == Int(x)
  {
    m[key].i
  }

  function GetStr(m: map<string, Value>, key: string): (x: string)
    requires Required(m, key, StrKind)
    ensures m[key] == String(x)
  {
    m[key].s
  }

  function GetBool(m: map<string, Value>, key: string): (x: bool)
    requires Required(m, key, BoolKind)
    ensures m[key] == Bool(x)
  {
    m[key].b
  }

  /** A JSON string is an ISO text; a JSON number is a Unix time. */
  function ToDateTime(v: Value): (d: DateTime)
    requires HasKind(v, DateTimeKind)
    ensures v.String? <==> d.Iso?
    ensures v.String? ==> d == Iso(v.s)
    ensures v.Int? ==> d == Epoch(v.i as real)
    ensures v.Float? ==> d == Epoch(v.r)
  {
    match v
    case String(s) => Iso(s)
    case Int(i) => Epoch(i as real)
    case Float(x) => Epoch(x)
  }

  function GetDateTime(m: map<string, Value>, key: string): (x: DateTime)
    requires Required(m, key, DateTimeKind)
    ensures x == ToDateTime(m[key])
  {
    ToDateTime(m[key])
  }

  /** The value of a field declared `Any | None`, exactly as given (`null` included). */
  function GetAny(m: map<string, Value>, key: string): (x: Value)
    requires Required(m, key, AnyKind)
    ensures x == m[key]
  {
    m[key]
  }

  function GetStrList(m: map<string, Value>, key: string): (x: seq<string>)
    requires Required(m, key, StrListKind)
    ensures |x| == |m[key].items|
    ensures forall i :: 0 <= i < |x| ==> m[key].items[i] == String(x[i])
  {
    var items := m[key].items;
    seq(|items|, i requires 0 <= i < |items| => items[i].s)
  }

  /** A `str | datetime` field: a JSON string stays text, a JSON number is a Unix time. */
  function GetTextOrDateTime(m: map<string, Value>, key: string): (x: TextOrDateTime)
    requires Required(m, key, TextOrDateTimeKind)
    ensures m[key].String? <==> x.Text?
    ensures m[key].String? ==> x == Text(m[key].s)
    ensures m[key].Int? ==> x == EpochTime(m[key].i as real)
    ensures m[key].Float? ==> x == EpochTime(m[key].r)
  {
    match m[key]
    case String(s) => Text(s)
    case Int(i) => EpochTime(i as real)
    case Float(r) => EpochTime(r)
  }

  function GetOptionalStr(m: map<string, Value>, key: string): (x: Option<string>)
    requires Optional(m, key, StrKind)
    ensures key !in m || m[key] == Null <==> x == None
    ensures x.Some? ==> m[key] == String(x.value)
  {
    if key !in m || m[key] == Null then None else Some(m[key].s)
  }

  function GetOptionalInt(m: map<string, Value>, key: string): (x: Option<int>)
    requires Optional(m, key, IntKind)
    ensures key !in m || m[key] == Null <==> x == None
    ensures x.Some? ==> m[key] == Int(x.value)
  {
    if key !in m || m[key] == Null then None else Some(m[key].i)
  }

  function GetOptionalDateTime(m: map<string, Value>, key: string): (x: Option<DateTime>)
    requires Optional(m, key, DateTimeKind)
    ensures key !in m || m[key] == Null <==> x == None
    ensures x.Some? ==> x.value == ToDateTime(m[key])
  {
    if key !in m || m[key] == Null then None else Some(ToDateTime(m[key]))
  }

  /** A `float | None` field: a JSON integer is taken as the equal real. */
  function GetOptionalFloat(m: map<string, Value>, key: string): (x: Option<real>)
    requires Optional(m, key, FloatKind)
    ensures key !in m || m[key] == Null <==> x == None
    ensures x.Some? && m[key].Float? ==> x.value == m[key].r
    ensures x.Some? && m[key].Int? ==> x.value == m[key].i as real
  {
    if key !in m || m[key] == Null then None
    else if m[key].Int? then Some(m[key].i as real)
    else Some(m[key].r)
  }

  /** A `list[tuple[int, str]] | None` field. */
  function GetOptionalCodeTexts(m: map<string, Value>, key: string): (x: Option<seq<(int, string)>>)
    requires Optional(m, key, CodeTextListKind)
    ensures key !in m || m[key] == Null <==> x == None
    ensures x.Some? ==>
              && |x.value| == |m[key].items|
              && forall i :: 0 <= i < |x.value| ==> m[key].items[i] == Array([Int(x.value[i].0), String(x.value[i].1)])
  {
    if key !in m || m[key] == Null then None
    else
      var items := m[key].items;
      Some(seq(|items|, i requires 0 <= i < |items| => (items[i].items[0].i, items[i].items[1].s)))
  }

  /** The value of a field declared `Any | None = None`: `null` when absent. */
  function GetOptionalAny(m: map<string, Value>, key: string): (x: Value)
    ensures key !in m ==> x == Null
    ensures key in m ==> x == m[key]
  {
    if key in m then m[key] else Null
  }

  /** The records held by a valid field declared `list[R] | None = None`, in list order. */
  function GetRecords<T, E>(m: map<string, Value>, key: string, decode: map<string, Value> -> Result<T, E>): (x: Option<seq<T>>)
    requires
      || key !in m
      || m[key] == Null
      || (m[key].Array? && forall i :: 0 <= i < |m[key].items| ==> m[key].items[i].Object? && decode(m[key].items[i].fields).Success?)
    ensures key !in m || m[key] == Null <==> x == None
    ensures x.Some? ==>
              && |x.value| == |m[key].items|
              && forall i :: 0 <= i < |m[key].items| ==> decode(m[key].items[i].fields) == Success(x.value[i])
  {
    if key !in m || m[key] == Null then None
    else
      var items := m[key].items;
      Some(seq(|items|, i requires 0 <= i < |items| => decode(items[i].fields).value))
  }
}
