# Victor smart-kill trap API: records and facade

A model of the data layer of the Python client for the Victor smart-kill
rodent-trap cloud service: the nine pydantic record classes the service's
JSON is decoded into, the two derived read-only properties of those records,
and the `VictorApi` facade that fetches a path, checks the status, picks the
list out of the response envelope and decodes it record by record. The
packages `victor_smart_kill` and `victor_mouse_trap` hold identical copies of
`_models.py` and `_api.py`; every line cited below under
`victor_smart_kill/` is the same line under `victor_mouse_trap/`.

Modules, one per file:

- `Wrappers` (`wrappers.dfy`): `Option` and `Result`.
- `Json` (`json.dfy`): the document `response.json()` returns, and Python truthiness of it.
- `Fields` (`fields.dfy`): how one declared field is validated and read: a
  required field `x: T`, an optional field `x: T | None = None`, and a field
  `Field(..., alias=K)` that is required under the key `K`, where null is
  accepted when the type admits None. It also covers nested records and lists
  of records, and the validation errors with their locations.
- `Models` (`models.dfy`): one datatype per record class (fields renamed to
  camelCase). For each record it defines:
  - `Matches<Record>`, the arguments the record accepts, one conjunct per field;
  - `<Record>Errors`, the collected errors in field order;
  - `Decode<Record>`, which is `Record(**m)`.

  The models also hold `temperature_celcius` and `corruption_status_verbose`.
- `Carrying` (`carrying.dfy`): the inverse direction. `Carries<Record>(m, x)`
  says `m` holds every field of `x` in the form the server sends it, and
  `Decode<Record>Carried` proves such arguments decode to exactly `x`.
- `Urls` (`urls.dfy`): the member paths `f"<collection>/{id}/"`, with
  `str(int)` as a decimal numeral that reads back to the id.
- `Api` (`api.dfy`): the facade. The client is the function from requests to
  responses, so every accessor is a function of it. `ListOutcome` and
  `RecordOutcome` state an endpoint's meaning:
  - when the status is not 2xx, the status error and nothing else;
  - otherwise success with exactly the records the body's items decode to.

Temperatures are counted in tenths of a degree. A raw reading `t` is in
twentieths of a degree, so `round(t / 20, 1)` is `t / 2` tenths when `t` is
even. When `t` is odd it lies half-way between two tenths, and the model
records only that pair (`Reading.Between`).

## Model

| member | source | states |
|---|---|---|
| Fields.CheckRequired | victor_smart_kill/_models.py:12-26 | a required field contributes no error exactly when its key is present with a value of its type, one Missing error when the key is absent, at most one error |
| Fields.CheckOptional | victor_smart_kill/_models.py:37-42 | a `T \| None = None` field contributes no error exactly when absent, null or of its type, and never an error when absent |
| Fields.CheckRecord | victor_smart_kill/_models.py:126 | a nested record field has no error exactly when it is an object that validates; its errors are the inner ones relocated under the key; Missing when absent |
| Fields.CheckRecords | victor_smart_kill/_models.py:154 | a `list[R] \| None = None` field has no error exactly when absent, null, or an array of objects that all validate |
| Fields.ItemErrors | victor_smart_kill/_models.py:154 | the errors of a list of records are empty exactly when every item is an object that validates |
| Fields.GetRecords | victor_smart_kill/_models.py:109 | a valid list-of-records field reads as None exactly when absent or null, otherwise as the records of its items, in order and of the same length |
| Models.DecodeActivity | victor_smart_kill/_models.py:9-43 | `Activity(**m)` succeeds exactly when every declared field is valid (`MatchesActivity`: required keys present with their type, `= None` keys absent, null or typed, nested records valid); on failure the error list is `ActivityErrors(m)`; an absent `= None` key reads as None |
| Models.ActivityErrors | victor_smart_kill/_models.py:9-43 | the collected validation errors are empty exactly when `MatchesActivity(m)` holds |
| Models.ActivityMissingKeyReported | victor_smart_kill/_models.py:9-43 | a required (or `Field(...)`-aliased) key that is absent fails the decode with a Missing error at that key |
| Carrying.DecodeActivityCarried | victor_smart_kill/_models.py:9-43 | keyword arguments holding every field of a record `x` under its key or alias (extra keys allowed) decode to exactly `x` |
| Models.DecodeMobileApp | victor_smart_kill/_models.py:51-62 | `MobileApp(**m)` succeeds exactly when every declared field is valid (`MatchesMobileApp`: required keys present with their type, `= None` keys absent, null or typed, nested records valid); on failure the error list is `MobileAppErrors(m)`; an absent `= None` key reads as None |
| Models.MobileAppErrors | victor_smart_kill/_models.py:51-62 | the collected validation errors are empty exactly when `MatchesMobileApp(m)` holds |
| Models.MobileAppMissingKeyReported | victor_smart_kill/_models.py:51-62 | a required (or `Field(...)`-aliased) key that is absent fails the decode with a Missing error at that key |
| Carrying.DecodeMobileAppCarried | victor_smart_kill/_models.py:51-62 | keyword arguments holding every field of a record `x` under its key or alias (extra keys allowed) decode to exactly `x` |
| Models.DecodeProfileTermsAndConditions | victor_smart_kill/_models.py:65-72 | `ProfileTermsAndConditions(**m)` succeeds exactly when every declared field is valid (`MatchesProfileTermsAndConditions`: required keys present with their type, `= None` keys absent, null or typed, nested records valid); on failure the error list is `ProfileTermsAndConditionsErrors(m)`; an absent `= None` key reads as None |
| Models.ProfileTermsAndConditionsErrors | victor_smart_kill/_models.py:65-72 | the collected validation errors are empty exactly when `MatchesProfileTermsAndConditions(m)` holds |
| Models.ProfileTermsAndConditionsMissingKeyReported | victor_smart_kill/_models.py:65-72 | a required (or `Field(...)`-aliased) key that is absent fails the decode with a Missing error at that key |
| Carrying.DecodeProfileTermsAndConditionsCarried | victor_smart_kill/_models.py:65-72 | keyword arguments holding every field of a record `x` under its key or alias (extra keys allowed) decode to exactly `x` |
| Models.DecodeProfile | victor_smart_kill/_models.py:75-109 | `Profile(**m)` succeeds exactly when every declared field is valid (`MatchesProfile`: required keys present with their type, `= None` keys absent, null or typed, nested records valid); on failure the error list is `ProfileErrors(m)`; an absent `= None` key reads as None |
| Models.ProfileErrors | victor_smart_kill/_models.py:75-109 | the collected validation errors are empty exactly when `MatchesProfile(m)` holds |
| Models.ProfileMissingKeyReported | victor_smart_kill/_models.py:75-109 | a required (or `Field(...)`-aliased) key that is absent fails the decode with a Missing error at that key |
| Carrying.DecodeProfileCarried | victor_smart_kill/_models.py:75-109 | keyword arguments holding every field of a record `x` under its key or alias (extra keys allowed) decode to exactly `x` |
| Models.DecodeUser | victor_smart_kill/_models.py:112-126 | `User(**m)` succeeds exactly when every declared field is valid (`MatchesUser`: required keys present with their type, `= None` keys absent, null or typed, nested records valid); on failure the error list is `UserErrors(m)`; an absent `= None` key reads as None |
| Models.UserErrors | victor_smart_kill/_models.py:112-126 | the collected validation errors are empty exactly when `MatchesUser(m)` holds |
| Models.UserMissingKeyReported | victor_smart_kill/_models.py:112-126 | a required (or `Field(...)`-aliased) key that is absent fails the decode with a Missing error at that key |
| Models.UserNestedProfileFailure | victor_smart_kill/_models.py:126 | a `Profile` under `profile` that fails to decode fails the `User` decode, each inner error reported with `profile` prefixed to its location |
| Carrying.DecodeUserCarried | victor_smart_kill/_models.py:112-126 | keyword arguments holding every field of a record `x` under its key or alias (extra keys allowed) decode to exactly `x` |
| Models.DecodeOperatorTermsAndConditions | victor_smart_kill/_models.py:129-136 | `OperatorTermsAndConditions(**m)` succeeds exactly when every declared field is valid (`MatchesOperatorTermsAndConditions`: required keys present with their type, `= None` keys absent, null or typed, nested records valid); on failure the error list is `OperatorTermsAndConditionsErrors(m)`; an absent `= None` key reads as None |
| Models.OperatorTermsAndConditionsErrors | victor_smart_kill/_models.py:129-136 | the collected validation errors are empty exactly when `MatchesOperatorTermsAndConditions(m)` holds |
| Models.OperatorTermsAndConditionsMissingKeyReported | victor_smart_kill/_models.py:129-136 | a required (or `Field(...)`-aliased) key that is absent fails the decode with a Missing error at that key |
| Carrying.DecodeOperatorTermsAndConditionsCarried | victor_smart_kill/_models.py:129-136 | keyword arguments holding every field of a record `x` under its key or alias (extra keys allowed) decode to exactly `x` |
| Models.DecodeOperator | victor_smart_kill/_models.py:139-154 | `Operator(**m)` succeeds exactly when every declared field is valid (`MatchesOperator`: required keys present with their type, `= None` keys absent, null or typed, nested records valid); on failure the error list is `OperatorErrors(m)`; an absent `= None` key reads as None |
| Models.OperatorErrors | victor_smart_kill/_models.py:139-154 | the collected validation errors are empty exactly when `MatchesOperator(m)` holds |
| Models.OperatorMissingKeyReported | victor_smart_kill/_models.py:139-154 | a required (or `Field(...)`-aliased) key that is absent fails the decode with a Missing error at that key |
| Models.OperatorNestedUserFailure | victor_smart_kill/_models.py:153 | a `User` under `contact` that fails to decode fails the `Operator` decode, each inner error reported with `contact` prefixed to its location |
| Carrying.DecodeOperatorCarried | victor_smart_kill/_models.py:139-154 | keyword arguments holding every field of a record `x` under its key or alias (extra keys allowed) decode to exactly `x` |
| Models.DecodeTrapStatistics | victor_smart_kill/_models.py:157-187 | `TrapStatistics(**m)` succeeds exactly when every declared field is valid (`MatchesTrapStatistics`: required keys present with their type, `= None` keys absent, null or typed, nested records valid); on failure the error list is `TrapStatisticsErrors(m)`; an absent `= None` key reads as None |
| Models.TrapStatisticsErrors | victor_smart_kill/_models.py:157-187 | the collected validation errors are empty exactly when `MatchesTrapStatistics(m)` holds |
| Models.TrapStatisticsMissingKeyReported | victor_smart_kill/_models.py:157-187 | a required (or `Field(...)`-aliased) key that is absent fails the decode with a Missing error at that key |
| Carrying.DecodeTrapStatisticsCarried | victor_smart_kill/_models.py:157-187 | keyword arguments holding every field of a record `x` under its key or alias (extra keys allowed) decode to exactly `x` |
| Models.DecodeTrap | victor_smart_kill/_models.py:195-226 | `Trap(**m)` succeeds exactly when every declared field is valid (`MatchesTrap`: required keys present with their type, `= None` keys absent, null or typed, nested records valid); on failure the error list is `TrapErrors(m)`; an absent `= None` key reads as None |
| Models.TrapErrors | victor_smart_kill/_models.py:195-226 | the collected validation errors are empty exactly when `MatchesTrap(m)` holds |
| Models.TrapMissingKeyReported | victor_smart_kill/_models.py:195-226 | a required (or `Field(...)`-aliased) key that is absent fails the decode with a Missing error at that key |
| Models.TrapNestedTrapStatisticsFailure | victor_smart_kill/_models.py:226 | a `TrapStatistics` under `trapstatistics` that fails to decode fails the `Trap` decode, each inner error reported with `trapstatistics` prefixed to its location |
| Carrying.DecodeTrapCarried | victor_smart_kill/_models.py:195-226 | keyword arguments holding every field of a record `x` under its key or alias (extra keys allowed) decode to exactly `x` |
| Models.RoundedTenths | victor_smart_kill/_models.py:48 | `round(raw / 20, 1)` in tenths lies within the bracket `[Low, High]` around `raw / 2`, of width at most one, and is exact exactly when `raw` is even |
| Models.Activity.TemperatureCelsius | victor_smart_kill/_models.py:45-48 | always defined (0 gives 0 tenths); within the bracket around `temperature / 2` tenths, exactly `temperature / 2` tenths when even |
| Models.TrapStatistics.TemperatureCelsius | victor_smart_kill/_models.py:189-192 | None exactly when the temperature is absent or 0 (truthiness test); otherwise bracketed, exactly `t / 2` tenths for even `t` |
| Models.FirstMatch | victor_smart_kill/_models.py:232-236 | the position found holds the code and no earlier position does; none is found only when no position holds the code |
| Models.Trap.CorruptionStatusVerbose | victor_smart_kill/_models.py:228-237 | None when the options are absent or empty; with options, succeeds exactly when some option has the status code, and then is the text of the first such option (never None); StopIteration otherwise |
| Urls.NatDecimal | victor_smart_kill/_api.py:71 | the numeral of a natural number is a non-empty string of digits without a leading zero |
| Urls.Decimal | victor_smart_kill/_api.py:71 | `str(n)`: non-empty, starts with `-` exactly for negative `n` and with a digit otherwise, digits after the first character, contains no `/` |
| Urls.DecimalRoundTrip | victor_smart_kill/_api.py:71 | `int(str(n)) == n`: the numeral reads back to the id |
| Urls.MemberUrl | victor_smart_kill/_api.py:71 | `f"<collection>/{id}/"` starts with `<collection>/`, ends with `/`, and the part between reads back to the id |
| Urls.MemberUrlInjective | victor_smart_kill/_api.py:71 | two ids give the same member path of a collection only when they are equal |
| Urls.CollectionUrl | victor_smart_kill/_api.py:59 | a collection path `"<collection>/"` is the collection name followed by exactly one `/`; the list accessors request these paths |
| Urls.TrapHistoryUrl | victor_smart_kill/_api.py:115 | `f"traps/{trap_id}/history/"` starts with `traps/`, ends with `/history/`, and the part between reads back to the trap id |
| Urls.TrapHistoryUrlInjective | victor_smart_kill/_api.py:115 | two trap ids give the same history path only when they are equal |
| Api.NewVictorApi | victor_smart_kill/_api.py:21-25 | a falsy client is rejected with ValueError; otherwise the facade holds exactly the given client |
| Api.CheckedBody | victor_smart_kill/_api.py:29-31 | `raise_for_status()` then `json()`: the body exactly when the status is 2xx, the status error otherwise |
| Api.Envelope | victor_smart_kill/_api.py:33-40 | an array body is returned unchanged; an object gives its `results` exactly when that is truthy, else "Unexpected response content"; any other document fails with AttributeError (no `.get`) |
| Api.GetJsonList | victor_smart_kill/_api.py:28-40 | the list request's status is checked before the envelope is looked at |
| Api.Construct | victor_smart_kill/_api.py:44 | `model(**x)` succeeds exactly when `x` is an object that decodes; a non-object is a TypeError; decoding errors surface as ValidationError |
| Api.ConstructAll | victor_smart_kill/_api.py:44 | the comprehension succeeds exactly when every item constructs, with one record per item in order; otherwise it fails with the error of the first failing item; items that decode to `xs` give exactly `xs` |
| Api.DecodesToCons | victor_smart_kill/_api.py:44 | records decoded from a list are the decoded head followed by those decoded from the tail |
| Api.ListBySchema | victor_smart_kill/_api.py:42-45 | the list endpoint's outcome (`ListOutcome`); a truthy non-array `results` fails with TypeError; an array is decoded item by item |
| Api.GetJson | victor_smart_kill/_api.py:47-50 | the single request's body exactly when its status is 2xx, the status error otherwise |
| Api.BySchema | victor_smart_kill/_api.py:52-54 | the record endpoint's outcome (`RecordOutcome`); a non-object body is a TypeError; a failing decode surfaces its errors as ValidationError |
| Api.GetActivityLogs | victor_smart_kill/_api.py:57-59 | the outcome of the list endpoint `activitylogs/` decoded as Activity |
| Api.GetActivityLogRecord | victor_smart_kill/_api.py:61-63 | the outcome of the record endpoint `activitylogs/<id>/` decoded as Activity |
| Api.GetMobileApps | victor_smart_kill/_api.py:65-67 | the outcome of the list endpoint `mobileapps/` decoded as MobileApp |
| Api.GetMobileAppById | victor_smart_kill/_api.py:69-71 | equals the by-url accessor at `mobileapps/<id>/`, the outcome of that record endpoint |
| Api.GetMobileAppByUrl | victor_smart_kill/_api.py:73-75 | the outcome of the record endpoint at the given path decoded as MobileApp |
| Api.GetOperators | victor_smart_kill/_api.py:77-79 | the outcome of the list endpoint `operators/` decoded as Operator |
| Api.GetOperatorById | victor_smart_kill/_api.py:81-83 | equals the by-url accessor at `operators/<id>/`, the outcome of that record endpoint |
| Api.GetOperatorByUrl | victor_smart_kill/_api.py:85-87 | the outcome of the record endpoint at the given path decoded as Operator |
| Api.GetProfiles | victor_smart_kill/_api.py:89-91 | the outcome of the list endpoint `profiles/` decoded as Profile |
| Api.GetProfileById | victor_smart_kill/_api.py:93-95 | equals the by-url accessor at `profiles/<id>/`, the outcome of that record endpoint |
| Api.GetProfileByUrl | victor_smart_kill/_api.py:97-99 | the outcome of the record endpoint at the given path decoded as Profile |
| Api.GetTraps | victor_smart_kill/_api.py:101-103 | the outcome of the list endpoint `traps/` decoded as Trap |
| Api.GetTrapById | victor_smart_kill/_api.py:105-107 | equals the by-url accessor at `traps/<id>/`, the outcome of that record endpoint |
| Api.GetTrapByUrl | victor_smart_kill/_api.py:109-111 | the outcome of the record endpoint at the given path decoded as Trap |
| Api.GetTrapHistory | victor_smart_kill/_api.py:113-115 | the outcome of the list endpoint `traps/<id>/history/` decoded as Activity |
| Api.GetUsers | victor_smart_kill/_api.py:117-119 | the outcome of the list endpoint `users/` decoded as User |
| Api.GetUserById | victor_smart_kill/_api.py:121-123 | as written: equals the as-written by-url accessor at `users/<id>/`, so always a ValidationError listing every required User field as Missing |
| Api.GetUserByIdFixed | victor_smart_kill/_api.py:121-123 | over the corrected by-url accessor: equals it at `users/<id>/`, the outcome of that record endpoint decoded as User |
| Api.UserWithoutArgumentsFails | victor_smart_kill/_api.py:127 | `User()` fails validation, every required User field reported Missing |
| Api.GetUserByUrl | victor_smart_kill/_api.py:125-127 | as written: always a ValidationError listing every required User field as Missing, whatever the server would answer |
| Api.GetUserByUrlFixed | victor_smart_kill/_api.py:125-127 | with the class `User` passed: the outcome of the record endpoint decoded as User |
| Api.GetUserByUrlRejectsServedUser | victor_smart_kill/_api.py:125-127 | when the server serves a valid user, the corrected accessor returns it and the as-written one still fails |
| Api.GetUserByIdRejectsServedUser | victor_smart_kill/_api.py:121-127 | when the server serves a valid user at `users/<id>/`, the corrected by-id accessor returns it, while the as-written one fails and so differs from it |
| Api.EmptyResultsRejected | victor_smart_kill/_api.py:33-40 | with a 2xx status, `[]` decodes to no records while `{"results": []}` fails with "Unexpected response content" |
| Api.GetTrapsCarried | victor_smart_kill/_api.py:101-103 | a `traps/` response whose array items carry the fields of `traps` gives exactly `traps`, in order |

## Left out

- The transport client is not part of this model, and neither is its
  source file. The model leaves out login, the bearer token, the session,
  base-URL resolution and retries. A client is the function from a request
  (path and timeout) to a response (status and parsed body). The timeout is
  recorded in the request, but what a timeout does is not modelled.
- The model assumes `raise_for_status` passes exactly the 2xx statuses, as
  the client library does.
- Async and await: each accessor is one sequential fetch followed by a decode.
- `response.json()` failing on a body that is not JSON is not modelled: a
  response carries an already parsed document.
- pydantic's lax coercion is not modelled. Strings that look like numbers are
  not turned into numbers, numbers are not turned into strings or booleans,
  and so on. A value is accepted only in its own JSON type; a float field also
  takes integers, as in JSON.
- Datetimes are opaque tokens, not parsed. A `datetime` field takes a string
  (ISO text) or a number (Unix time). The `str | datetime` field
  `last_maintenance_date` keeps a string as text.
- Models.RoundedTenths: for an odd raw temperature it states only the two
  tenths between which `round` lands. Which one is chosen depends on binary
  floating point, which is not modelled.
- `lat`, `long` and the `Any | None` payloads are kept as uninspected values.
- Validation errors keep pydantic's location and kind (missing or wrong type),
  but not its messages or error codes. A wrong-typed item does not report the
  finer nested error pydantic would give, such as a tuple of the wrong length.
- The `unknown` argument of `VictorApi.__init__` is unused in the source, and
  the model has no counterpart for it.
- A falsy client is modelled as `None`. Other falsy objects are not told apart.
- `utils/listtraps.py` (configuration, token file, argument parsing, printing)
  is command-line glue and is not part of this model.
- The model follows the code as written in these cases:
  - A document that is neither an array nor an object fails `_get_json_list`
    with AttributeError, because it has no `.get`. It does not fail with
    "Unexpected response content".
  - A truthy `results` that is not an array is accepted by `_get_json_list`
    and then fails in the comprehension with TypeError.
  - `{"results": []}` is rejected.

## Findings

| source | as written | input that shows it | evidently intended | confidence | as-written member | corrected member |
|---|---|---|---|---|---|---|
| victor_smart_kill/_api.py:127 | `get_user_by_url` passes `User()`, an instance built from no arguments, where every other accessor passes the class; `User()` raises a validation error for its required fields before any request is made | any call, e.g. `get_user_by_url("users/1/")` against a server that answers with a valid user object | `self._get_by_schema(User, url)` | not executed | Api.GetUserByUrl | Api.GetUserByUrlFixed |
| victor_smart_kill/_api.py:121-123 | `get_user_by_id` delegates to `get_user_by_url`, so it inherits the `User()` failure: it fails for every id | any call, e.g. `get_user_by_id(1)` against a server that answers `users/1/` with a valid user object | the user served at `users/<id>/` | not executed | Api.GetUserById | Api.GetUserByIdFixed |

`Api.GetUserByUrlRejectsServedUser` and `Api.GetUserByIdRejectsServedUser`
exhibit the two discrepancies.
