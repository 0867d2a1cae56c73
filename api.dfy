/**
 * The API facade: a `VictorApi` holds the transport client and turns the
 * answers to GET requests into records. A list request asks for a 5-second
 * timeout and accepts either a bare JSON array or an object whose `results`
 * is truthy; a single request uses the client's default timeout. Every
 * response has its status checked before its body is looked at.
 *
 * The transport is modelled by what it answers: a client is the function from
 * requests to responses, so each accessor is a function of the client.
 */
module Api {
  import opened Wrappers
  import opened Json
  import opened Fields
  import opened Models
  import opened Urls
  import opened Carrying

  /** The timeout, in seconds, that every list request asks for. */
  const ListTimeout: nat := 5

  /** A GET request for a path relative to the service's base URL; no timeout leaves the client's default. */
  datatype Request = Request(url: string, timeout: Option<nat>)

  /** The server's answer: the status code and the document `response.json()` parses from the body. */
  datatype Response = Response(statusCode: int, body: Value)

  /** The authenticated transport client, as the answers it gives. */
  datatype Client = Client(send: Request -> Response)

  datatype VictorApi = VictorApi(client: Client)

  /** The exceptions the facade lets through. */
  datatype ApiError =
    | ClientRequired                       // ValueError("Victor client is required.")
    | HttpStatusError(statusCode: int)     // from `raise_for_status`
    | UnexpectedResponseContent            // Exception("Unexpected response content")
    | AttributeError                       // `.get` on a list body that is neither an array nor an object
    | TypeError                            // `model(**x)` on a non-mapping, or iterating a non-list
    | ValidationError(errors: seq<FieldError>)

  /** `VictorApi(victor_client)`; `None` stands for any falsy client. */
  function NewVictorApi(victorClient: Option<Client>): (r: Result<VictorApi, ApiError>)
    ensures victorClient.None? <==> r == Failure(ClientRequired)
    ensures victorClient.Some? ==> r.Success? && r.value.client == victorClient.value
  {
    match victorClient
    case None => Failure(ClientRequired)
    case Some(c) => Success(VictorApi(c))
  }

  /** The statuses `raise_for_status` lets pass. */
  predicate IsSuccessStatus(statusCode: int) {
    200 <= statusCode < 300
  }

  /** `response.raise_for_status()` followed by `response.json()`. */
  function CheckedBody(resp: Response): (r: Result<Value, ApiError>)
    ensures r.Success? <==> IsSuccessStatus(resp.statusCode)
    ensures r.Success? ==> r.value == resp.body
    ensures r.Failure? ==> r.error == HttpStatusError(resp.statusCode)
  {
    if IsSuccessStatus(resp.statusCode) then Success(resp.body) else Failure(HttpStatusError(resp.statusCode))
  }

  /**
   * The list a list response carries: an array is taken as it is; an object
   * gives its `results` when that is truthy and is rejected otherwise; any
   * other document has no `.get`.
   */
  function Envelope(body: Value): (r: Result<Value, ApiError>)
    ensures body.Array? ==> r == Success(body)
    ensures body.Object? ==> (r.Success? <==> "results" in body.fields && Truthy(body.fields["results"]))
    ensures body.Object? && r.Success? ==> r.value == body.fields["results"]
    ensures body.Object? && r.Failure? ==> r.error == UnexpectedResponseContent
    ensures !body.Array? && !body.Object? ==> r == Failure(AttributeError)
  {
    match body
    case Array(_) => Success(body)
    case Object(fields) =>
      var result := if "results" in fields then fields["results"] else Null;
      if Truthy(result) then Success(result) else Failure(UnexpectedResponseContent)
    case _ => Failure(AttributeError)
  }

  /** The response to the list request for `url`. */
  function ListResponse(api: VictorApi, url: string): Response {
    api.client.send(Request(url, Some(ListTimeout)))
  }

  /** `_get_json_list(url)`. */
  function GetJsonList(api: VictorApi, url: string): (r: Result<Value, ApiError>)
    ensures !IsSuccessStatus(ListResponse(api, url).statusCode) ==> r == Failure(HttpStatusError(ListResponse(api, url).statusCode))
    ensures IsSuccessStatus(ListResponse(api, url).statusCode) ==> r == Envelope(ListResponse(api, url).body)
  {
    var body :- CheckedBody(ListResponse(api, url));
    Envelope(body)
  }

  /** `model(**x)` for a record decoded by `decode`. */
  function Construct<T>(decode: map<string, Value> -> Result<T, seq<FieldError>>, x: Value): (r: Result<T, ApiError>)
    ensures r.Success? <==> x.Object? && decode(x.fields).Success?
    ensures r.Success? ==> decode(x.fields) == Success(r.value)
    ensures !x.Object? ==> r == Failure(TypeError)
    ensures x.Object? && r.Failure? ==> r.error == ValidationError(decode(x.fields).error)
  {
    match x
    case Object(fields) =>
      (match decode(fields)
       case Success(v) => Success(v)
       case Failure(e) => Failure(ValidationError(e)))
    case _ => Failure(TypeError)
  }

  /** `j` is the first position of `data` whose item `model(**x)` rejects. */
  predicate IsFirstFailure<T>(decode: map<string, Value> -> Result<T, seq<FieldError>>, data: seq<Value>, j: int) {
    && 0 <= j < |data|
    && Construct(decode, data[j]).Failure?
    && forall i :: 0 <= i < j ==> Construct(decode, data[i]).Success?
  }

  /** `[model(**x) for x in data]`: in order, stopping at the first item that fails. */
  function ConstructAll<T(!new)>(decode: map<string, Value> -> Result<T, seq<FieldError>>, data: seq<Value>): (r: Result<seq<T>, ApiError>)
    ensures r.Success? <==> forall i :: 0 <= i < |data| ==> Construct(decode, data[i]).Success?
    ensures r.Success? ==> |r.value| == |data|
    ensures r.Success? ==> forall i :: 0 <= i < |data| ==> Construct(decode, data[i]) == Success(r.value[i])
    ensures r.Failure? ==> exists j :: IsFirstFailure(decode, data, j) && r.error == Construct(decode, data[j]).error
    ensures forall xs :: DecodesTo(data, decode, xs) ==> r == Success(xs)
    decreases |data|
  {
    if data == [] then Success([])
    else
      match Construct(decode, data[0])
      case Failure(e) =>
        assert IsFirstFailure(decode, data, 0);
        Failure(e)
      case Success(x) =>
        match ConstructAll(decode, data[1..])
        case Failure(e) =>
          var j :| IsFirstFailure(decode, data[1..], j) && e == Construct(decode, data[1..][j]).error;
          assert IsFirstFailure(decode, data, j + 1);
          Failure(e)
        case Success(xs) =>
          assert forall i :: 1 <= i < |data| ==> data[i] == data[1..][i - 1];
          DecodesToCons(decode, data, x, xs);
          Success([x] + xs)
  }

  /** `items` decode, position by position, to the records `xs`. */
  ghost predicate DecodesTo<T>(items: seq<Value>, decode: map<string, Value> -> Result<T, seq<FieldError>>, xs: seq<T>) {
    && |items| == |xs|
    && forall i :: 0 <= i < |items| ==> items[i].Object? && decode(items[i].fields) == Success(xs[i])
  }

  /** Records decoded from a list are the decoded head followed by the records decoded from its tail. */
  lemma DecodesToCons<T>(decode: map<string, Value> -> Result<T, seq<FieldError>>, data: seq<Value>, x: T, xs: seq<T>)
    requires |data| > 0 && Construct(decode, data[0]) == Success(x)
    requires forall ys :: DecodesTo(data[1..], decode, ys) ==> xs == ys
    ensures forall ys :: DecodesTo(data, decode, ys) ==> [x] + xs == ys
  {
    forall ys | DecodesTo(data, decode, ys)
      ensures [x] + xs == ys
    {
      assert DecodesTo(data[1..], decode, ys[1..]);
      assert ys == [ys[0]] + ys[1..];
    }
  }

  /**
   * A list response that yields `xs`: a success status and either an array
   * body, or an object body whose `results` is a non-empty array, whose items
   * decode to `xs`.
   */
  ghost predicate ListServed<T>(resp: Response, decode: map<string, Value> -> Result<T, seq<FieldError>>, xs: seq<T>) {
    && IsSuccessStatus(resp.statusCode)
    && (|| (resp.body.Array? && DecodesTo(resp.body.items, decode, xs))
        || (&& resp.body.Object?
            && "results" in resp.body.fields
            && resp.body.fields["results"].Array?
            && resp.body.fields["results"].items != []
            && DecodesTo(resp.body.fields["results"].items, decode, xs)))
  }

  /** `r` is what a list endpoint at `url` gives: the status first, then exactly the served records. */
  ghost predicate ListOutcome<T(!new)>(api: VictorApi, url: string, decode: map<string, Value> -> Result<T, seq<FieldError>>, r: Result<seq<T>, ApiError>) {
    var resp := ListResponse(api, url);
    && (!IsSuccessStatus(resp.statusCode) ==> r == Failure(HttpStatusError(resp.statusCode)))
    && (r.Success? ==> ListServed(resp, decode, r.value))
    && (forall xs :: ListServed(resp, decode, xs) ==> r == Success(xs))
  }

  /** `_get_list_by_schema(model, url)`. */
  function ListBySchema<T(!new)>(api: VictorApi, decode: map<string, Value> -> Result<T, seq<FieldError>>, url: string): (r: Result<seq<T>, ApiError>)
    ensures ListOutcome(api, url, decode, r)
    ensures GetJsonList(api, url).Success? && !GetJsonList(api, url).value.Array? ==> r == Failure(TypeError)
    ensures GetJsonList(api, url).Success? && GetJsonList(api, url).value.Array? ==> r == ConstructAll(decode, GetJsonList(api, url).value.items)
  {
    var data :- GetJsonList(api, url);
    if data.Array? then ConstructAll(decode, data.items) else Failure(TypeError)
  }

  /** The response to the single-record request for `url`. */
  function RecordResponse(api: VictorApi, url: string): Response {
    api.client.send(Request(url, None))
  }

  /** `_get_json(url)`. */
  function GetJson(api: VictorApi, url: string): (r: Result<Value, ApiError>)
    ensures r.Success? <==> IsSuccessStatus(RecordResponse(api, url).statusCode)
    ensures r.Success? ==> r.value == RecordResponse(api, url).body
    ensures r.Failure? ==> r.error == HttpStatusError(RecordResponse(api, url).statusCode)
  {
    CheckedBody(RecordResponse(api, url))
  }

  /** A single-record response that yields `x`: a success status and an object body that decodes to `x`. */
  ghost predicate RecordServed<T>(resp: Response, decode: map<string, Value> -> Result<T, seq<FieldError>>, x: T) {
    && IsSuccessStatus(resp.statusCode)
    && resp.body.Object?
    && decode(resp.body.fields) == Success(x)
  }

  /** `r` is what a single-record endpoint at `url` gives: the status first, then exactly the served record. */
  ghost predicate RecordOutcome<T(!new)>(api: VictorApi, url: string, decode: map<string, Value> -> Result<T, seq<FieldError>>, r: Result<T, ApiError>) {
    var resp := RecordResponse(api, url);
    && (!IsSuccessStatus(resp.statusCode) ==> r == Failure(HttpStatusError(resp.statusCode)))
    && (r.Success? ==> RecordServed(resp, decode, r.value))
    && (forall x :: RecordServed(resp, decode, x) ==> r == Success(x))
  }

  /** `_get_by_schema(model, url)`. */
  function BySchema<T(!new)>(api: VictorApi, decode: map<string, Value> -> Result<T, seq<FieldError>>, url: string): (r: Result<T, ApiError>)
    ensures RecordOutcome(api, url, decode, r)
    ensures IsSuccessStatus(RecordResponse(api, url).statusCode) && !RecordResponse(api, url).body.Object? ==> r == Failure(TypeError)
    ensures
      var resp := RecordResponse(api, url);
      IsSuccessStatus(resp.statusCode) && resp.body.Object? && decode(resp.body.fields).Failure? ==>
        r == Failure(ValidationError(decode(resp.body.fields).error))
  {
    var data :- GetJson(api, url);
    Construct(decode, data)
  }

  function GetActivityLogs(api: VictorApi): (r: Result<seq<Activity>, ApiError>)
    ensures ListOutcome(api, CollectionUrl("activitylogs"), DecodeActivity, r)
  {
    ListBySchema(api, DecodeActivity, CollectionUrl("activitylogs"))
  }

  function GetActivityLogRecord(api: VictorApi, logRecordId: int): (r: Result<Activity, ApiError>)
    ensures RecordOutcome(api, MemberUrl("activitylogs", logRecordId), DecodeActivity, r)
  {
    BySchema(api, DecodeActivity, MemberUrl("activitylogs", logRecordId))
  }

  function GetMobileApps(api: VictorApi): (r: Result<seq<MobileApp>, ApiError>)
    ensures ListOutcome(api, CollectionUrl("mobileapps"), DecodeMobileApp, r)
  {
    ListBySchema(api, DecodeMobileApp, CollectionUrl("mobileapps"))
  }

  function GetMobileAppByUrl(api: VictorApi, url: string): (r: Result<MobileApp, ApiError>)
    ensures RecordOutcome(api, url, DecodeMobileApp, r)
  {
    BySchema(api, DecodeMobileApp, url)
  }

  function GetMobileAppById(api: VictorApi, appId: int): (r: Result<MobileApp, ApiError>)
    ensures r == GetMobileAppByUrl(api, MemberUrl("mobileapps", appId))
    ensures RecordOutcome(api, MemberUrl("mobileapps", appId), DecodeMobileApp, r)
  {
    GetMobileAppByUrl(api, MemberUrl("mobileapps", appId))
  }

  function GetOperators(api: VictorApi): (r: Result<seq<Operator>, ApiError>)
    ensures ListOutcome(api, CollectionUrl("operators"), DecodeOperator, r)
  {
    ListBySchema(api, DecodeOperator, CollectionUrl("operators"))
  }

  function GetOperatorByUrl(api: VictorApi, url: string): (r: Result<Operator, ApiError>)
    ensures RecordOutcome(api, url, DecodeOperator, r)
  {
    BySchema(api, DecodeOperator, url)
  }

  function GetOperatorById(api: VictorApi, operatorId: int): (r: Result<Operator, ApiError>)
    ensures r == GetOperatorByUrl(api, MemberUrl("operators", operatorId))
    ensures RecordOutcome(api, MemberUrl("operators", operatorId), DecodeOperator, r)
  {
    GetOperatorByUrl(api, MemberUrl("operators", operatorId))
  }

  function GetProfiles(api: VictorApi): (r: Result<seq<Profile>, ApiError>)
    ensures ListOutcome(api, CollectionUrl("profiles"), DecodeProfile, r)
  {
    ListBySchema(api, DecodeProfile, CollectionUrl("profiles"))
  }

  function GetProfileByUrl(api: VictorApi, url: string): (r: Result<Profile, ApiError>)
    ensures RecordOutcome(api, url, DecodeProfile, r)
  {
    BySchema(api, DecodeProfile, url)
  }

  function GetProfileById(api: VictorApi, profileId: int): (r: Result<Profile, ApiError>)
    ensures r == GetProfileByUrl(api, MemberUrl("profiles", profileId))
    ensures RecordOutcome(api, MemberUrl("profiles", profileId), DecodeProfile, r)
  {
    GetProfileByUrl(api, MemberUrl("profiles", profileId))
  }

  function GetTraps(api: VictorApi): (r: Result<seq<Trap>, ApiError>)
    ensures ListOutcome(api, CollectionUrl("traps"), DecodeTrap, r)
  {
    ListBySchema(api, DecodeTrap, CollectionUrl("traps"))
  }

  function GetTrapByUrl(api: VictorApi, url: string): (r: Result<Trap, ApiError>)
    ensures RecordOutcome(api, url, DecodeTrap, r)
  {
    BySchema(api, DecodeTrap, url)
  }

  function GetTrapById(api: VictorApi, trapId: int): (r: Result<Trap, ApiError>)
    ensures r == GetTrapByUrl(api, MemberUrl("traps", trapId))
    ensures RecordOutcome(api, MemberUrl("traps", trapId), DecodeTrap, r)
  {
    GetTrapByUrl(api, MemberUrl("traps", trapId))
  }

  function GetTrapHistory(api: VictorApi, trapId: int): (r: Result<seq<Activity>, ApiError>)
    ensures ListOutcome(api, TrapHistoryUrl(trapId), DecodeActivity, r)
  {
    ListBySchema(api, DecodeActivity, TrapHistoryUrl(trapId))
  }

  function GetUsers(api: VictorApi): (r: Result<seq<User>, ApiError>)
    ensures ListOutcome(api, CollectionUrl("users"), DecodeUser, r)
  {
    ListBySchema(api, DecodeUser, CollectionUrl("users"))
  }

  /** `User()` with no keyword arguments: rejected, every required field reported missing. */
  lemma UserWithoutArgumentsFails()
    ensures DecodeUser(map[]).Failure?
    ensures forall k :: k in UserRequiredKeys ==> FieldError([Key(k)], Missing) in DecodeUser(map[]).error
  {
    forall k | k in UserRequiredKeys
      ensures FieldError([Key(k)], Missing) in DecodeUser(map[]).error
    {
      UserMissingKeyReported(map[], k);
    }
  }

  /**
   * `get_user_by_url(url)` as written: it evaluates `User()` where the other
   * accessors pass the class, so validation fails before any request is sent,
   * whatever the server would answer.
   */
  function GetUserByUrl(api: VictorApi, url: string): (r: Result<User, ApiError>)
    ensures r.Failure? && r.error.ValidationError?
    ensures forall k :: k in UserRequiredKeys ==> FieldError([Key(k)], Missing) in r.error.errors
  {
    UserWithoutArgumentsFails();
    Failure(ValidationError(DecodeUser(map[]).error))
  }

  /** `get_user_by_url(url)` passing the class `User`, as every other accessor does. */
  function GetUserByUrlFixed(api: VictorApi, url: string): (r: Result<User, ApiError>)
    ensures RecordOutcome(api, url, DecodeUser, r)
  {
    BySchema(api, DecodeUser, url)
  }

  /**
   * `get_user_by_id(user_id)` as written: it delegates to `get_user_by_url`,
   * so it fails with the validation error of `User()` for every id.
   */
  function GetUserById(api: VictorApi, userId: int): (r: Result<User, ApiError>)
    ensures r == GetUserByUrl(api, MemberUrl("users", userId))
    ensures r.Failure? && r.error.ValidationError?
    ensures forall k :: k in UserRequiredKeys ==> FieldError([Key(k)], Missing) in r.error.errors
  {
    GetUserByUrl(api, MemberUrl("users", userId))
  }

  /** `get_user_by_id(user_id)` over the corrected `get_user_by_url`. */
  function GetUserByIdFixed(api: VictorApi, userId: int): (r: Result<User, ApiError>)
    ensures r == GetUserByUrlFixed(api, MemberUrl("users", userId))
    ensures RecordOutcome(api, MemberUrl("users", userId), DecodeUser, r)
  {
    GetUserByUrlFixed(api, MemberUrl("users", userId))
  }

  /** A server that serves a valid user still gets a failure from `get_user_by_url` as written. */
  lemma GetUserByUrlRejectsServedUser(api: VictorApi, url: string, u: User)
    requires RecordServed(RecordResponse(api, url), DecodeUser, u)
    ensures GetUserByUrlFixed(api, url) == Success(u)
    ensures GetUserByUrl(api, url).Failure?
  {
  }

  /** The same for `get_user_by_id`: the served user at `users/<id>/` is lost as written and returned once corrected. */
  lemma GetUserByIdRejectsServedUser(api: VictorApi, userId: int, u: User)
    requires RecordServed(RecordResponse(api, MemberUrl("users", userId)), DecodeUser, u)
    ensures GetUserByIdFixed(api, userId) == Success(u)
    ensures GetUserById(api, userId).Failure?
    ensures GetUserById(api, userId) != GetUserByIdFixed(api, userId)
  {
  }

  /** `[]` is an empty list of records, but `{"results": []}` is rejected. */
  lemma EmptyResultsRejected<T(!new)>(api: VictorApi, url: string, decode: map<string, Value> -> Result<T, seq<FieldError>>)
    requires IsSuccessStatus(ListResponse(api, url).statusCode)
    ensures ListResponse(api, url).body == Array([]) ==> ListBySchema(api, decode, url) == Success([])
    ensures ListResponse(api, url).body == Object(map["results" := Array([])]) ==>
              ListBySchema(api, decode, url) == Failure(UnexpectedResponseContent)
  {
  }

  /** A list response whose items carry the fields of `traps` gives exactly `traps`, in order. */
  lemma GetTrapsCarried(api: VictorApi, traps: seq<Trap>)
    requires IsSuccessStatus(ListResponse(api, CollectionUrl("traps")).statusCode)
    requires ListResponse(api, CollectionUrl("traps")).body.Array?
    requires |ListResponse(api, CollectionUrl("traps")).body.items| == |traps|
    requires forall i :: 0 <= i < |traps| ==>
               && ListResponse(api, CollectionUrl("traps")).body.items[i].Object?
               && CarriesTrap(ListResponse(api, CollectionUrl("traps")).body.items[i].fields, traps[i])
    ensures GetTraps(api) == Success(traps)
  {
    var items := ListResponse(api, CollectionUrl("traps")).body.items;
    forall i | 0 <= i < |traps|
      ensures DecodeTrap(items[i].fields) == Success(traps[i])
    {
      DecodeTrapCarried(items[i].fields, traps[i]);
    }
    assert ListServed(ListResponse(api, CollectionUrl("traps")), DecodeTrap, traps);
  }
}
