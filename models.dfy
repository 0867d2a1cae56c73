/**
 * The record schemas of the trap service: each record is a `datatype` with
 * its fields as declared, a predicate `Matches<Record>` that lists, one
 * conjunct per declared field, the keyword arguments the record accepts, and a
 * decoder `Decode<Record>` from keyword arguments to the record, proved to
 * succeed exactly on the arguments that match. The two derived, read-only
 * properties (`temperature_celcius`, `corruption_status_verbose`) are member
 * functions of their records.
 */
module Models {
  import opened Wrappers
  import opened Json
  import opened Fields

  /**
   * The value of `round(raw / 20, 1)` in tenths of a degree Celsius. An even raw
   * reading gives an exact number of tenths; an odd one lies half-way between
   * two tenths, and which of the two `round` picks depends on the binary
   * floating-point value of `raw / 20`, so only the pair is recorded.
   */
  datatype Reading = Exact(tenths: int) | Between(lowTenths: int)

  function LowTenths(c: Reading): int {
    match c
    case Exact(t) => t
    case Between(low) => low
  }

  function HighTenths(c: Reading): int {
    match c
    case Exact(t) => t
    case Between(low) => low + 1
  }

  /** `round(raw / 20, 1)`: raw device units are twentieths of a degree, i.e. half-tenths. */
  function RoundedTenths(raw: int): (c: Reading)
    ensures LowTenths(c) as real <= raw as real / 2.0 <= HighTenths(c) as real
    ensures HighTenths(c) - LowTenths(c) <= 1
    ensures c.Exact? <==> raw % 2 == 0
  {
    if raw % 2 == 0 then Exact(raw / 2) else Between(raw / 2)
  }

  /** The error `next` raises when the generator it is given yields nothing. */
  datatype LookupError = StopIteration

  /** `i` is the position of the first option whose code is `code`. */
  predicate IsFirstMatch(options: seq<(int, string)>, code: int, i: int) {
    && 0 <= i < |options|
    && options[i].0 == code
    && forall j :: 0 <= j < i ==> options[j].0 != code
  }

  /** The position of the first option whose code is `code`, searching from the front. */
  function FirstMatch(options: seq<(int, string)>, code: int): (r: Option<nat>)
    ensures r.Some? ==> IsFirstMatch(options, code, r.value)
    ensures r.None? ==> forall i :: 0 <= i < |options| ==> options[i].0 != code
  {
    if options == [] then None
    else if options[0].0 == code then Some(0)
    else match FirstMatch(options[1..], code)
      case None => None
      case Some(k) => Some(k + 1)
  }

  /** One logged event of a trap. */
  datatype Activity = Activity(
    id: int,
    url: string,
    trap: string,
    trapName: string,
    timeStamp: DateTime,
    timeStampUnix: DateTime,
    sequenceNumber: int,
    activityType: int,
    activityTypeText: string,
    killsPresent: int,
    totalKillsReported: int,
    batteryLevel: int,
    wirelessNetworkRssi: int,
    firmwareVersionString: string,
    temperature: int,
    boardType: string,
    errorCode: int,
    active: bool,
    isRatKill: bool,
    sexKillDetail: Value,
    ageKillDetail: Value,
    speciesKillDetail: Value,
    replacedAttractant: bool,
    replacedBattery: bool,
    cleanedTrap: bool,
    note: Value,
    siteId: Value,
    buildingId: Value,
    floorId: Value,
    floorPlanX: Value,
    floorPlanY: Value,
    trapTypeText: string
  ) {

    /** `temperature_celcius`: the raw reading in degrees Celsius; defined for every reading, 0 included. */
    function TemperatureCelsius(): (c: Reading)
      ensures LowTenths(c) as real <= temperature as real / 2.0 <= HighTenths(c) as real
      ensures temperature % 2 == 0 ==> c == Exact(temperature / 2)
    {
      RoundedTenths(temperature)
    }
  }

  /** The keyword arguments that `Activity(**m)` accepts, one conjunct per declared field. */
  predicate MatchesActivity(m: map<string, Value>) {
    && Required(m, "id", IntKind)
    && Required(m, "url", StrKind)
    && Required(m, "trap", StrKind)
    && Required(m, "trap_name", StrKind)
    && Required(m, "time_stamp", DateTimeKind)
    && Required(m, "time_stamp_unix", DateTimeKind)
    && Required(m, "sequence_number", IntKind)
    && Required(m, "activity_type", IntKind)
    && Required(m, "activity_type_text", StrKind)
    && Required(m, "kills_present", IntKind)
    && Required(m, "total_kills_reported", IntKind)
    && Required(m, "battery_level", IntKind)
    && Required(m, "wireless_network_rssi", IntKind)
    && Required(m, "firmware_version_string", StrKind)
    && Required(m, "temperature", IntKind)
    && Required(m, "board_type", StrKind)
    && Required(m, "error_code", IntKind)
    && Required(m, "active", BoolKind)
    && Required(m, "isRatKill", BoolKind)
    && Required(m, "sexKillDetail", AnyKind)
    && Required(m, "ageKillDetail", AnyKind)
    && Required(m, "speciesKillDetail", AnyKind)
    && Required(m, "replacedAttractant", BoolKind)
    && Required(m, "replacedBattery", BoolKind)
    && Required(m, "cleanedTrap", BoolKind)
    && Optional(m, "note", AnyKind)
    && Optional(m, "site_id", AnyKind)
    && Optional(m, "building_id", AnyKind)
    && Optional(m, "floor_id", AnyKind)
    && Optional(m, "floor_plan_x", AnyKind)
    && Optional(m, "floor_plan_y", AnyKind)
    && Required(m, "trap_type_text", StrKind)
  }

  /** The keys of the fields of `Activity` declared without a default. */
  const ActivityRequiredKeys: set<string> := {
    "id", "url", "trap", "trap_name",
    "time_stamp", "time_stamp_unix", "sequence_number", "activity_type",
    "activity_type_text", "kills_present", "total_kills_reported", "battery_level",
    "wireless_network_rssi", "firmware_version_string", "temperature", "board_type",
    "error_code", "active", "isRatKill", "sexKillDetail",
    "ageKillDetail", "speciesKillDetail", "replacedAttractant", "replacedBattery",
    "cleanedTrap", "trap_type_text"
  }

  /** The validation errors of `Activity(**m)`, field by field in declaration order. */
  function ActivityErrors(m: map<string, Value>): (e: seq<FieldError>)
    ensures e == [] ==> MatchesActivity(m)
    ensures MatchesActivity(m) ==> e == []
  {
    CheckRequired(m, "id", IntKind)
    + CheckRequired(m, "url", StrKind)
    + CheckRequired(m, "trap", StrKind)
    + CheckRequired(m, "trap_name", StrKind)
    + CheckRequired(m, "time_stamp", DateTimeKind)
    + CheckRequired(m, "time_stamp_unix", DateTimeKind)
    + CheckRequired(m, "sequence_number", IntKind)
    + CheckRequired(m, "activity_type", IntKind)
    + CheckRequired(m, "activity_type_text", StrKind)
    + CheckRequired(m, "kills_present", IntKind)
    + CheckRequired(m, "total_kills_reported", IntKind)
    + CheckRequired(m, "battery_level", IntKind)
    + CheckRequired(m, "wireless_network_rssi", IntKind)
    + CheckRequired(m, "firmware_version_string", StrKind)
    + CheckRequired(m, "temperature", IntKind)
    + CheckRequired(m, "board_type", StrKind)
    + CheckRequired(m, "error_code", IntKind)
    + CheckRequired(m, "active", BoolKind)
    + CheckRequired(m, "isRatKill", BoolKind)
    + CheckRequired(m, "sexKillDetail", AnyKind)
    + CheckRequired(m, "ageKillDetail", AnyKind)
    + CheckRequired(m, "speciesKillDetail", AnyKind)
    + CheckRequired(m, "replacedAttractant", BoolKind)
    + CheckRequired(m, "replacedBattery", BoolKind)
    + CheckRequired(m, "cleanedTrap", BoolKind)
    + CheckOptional(m, "note", AnyKind)
    + CheckOptional(m, "site_id", AnyKind)
    + CheckOptional(m, "building_id", AnyKind)
    + CheckOptional(m, "floor_id", AnyKind)
    + CheckOptional(m, "floor_plan_x", AnyKind)
    + CheckOptional(m, "floor_plan_y", AnyKind)
    + CheckRequired(m, "trap_type_text", StrKind)
  }

  /** `Activity(**m)`: the record when every declared field is valid, else all the errors. */
  function DecodeActivity(m: map<string, Value>): (r: Result<Activity, seq<FieldError>>)
    ensures r.Success? <==> MatchesActivity(m)
    ensures r.Failure? ==> r.error == ActivityErrors(m)
    ensures r.Success? && "note" !in m ==> r.value.note == Null
    ensures r.Success? && "site_id" !in m ==> r.value.siteId == Null
    ensures r.Success? && "building_id" !in m ==> r.value.buildingId == Null
    ensures r.Success? && "floor_id" !in m ==> r.value.floorId == Null
    ensures r.Success? && "floor_plan_x" !in m ==> r.value.floorPlanX == Null
    ensures r.Success? && "floor_plan_y" !in m ==> r.value.floorPlanY == Null
  {
    var e := ActivityErrors(m);
    if e != [] then Failure(e)
    else Success(Activity(
      GetInt(m, "id"),
      GetStr(m, "url"),
      GetStr(m, "trap"),
      GetStr(m, "trap_name"),
      GetDateTime(m, "time_stamp"),
      GetDateTime(m, "time_stamp_unix"),
      GetInt(m, "sequence_number"),
      GetInt(m, "activity_type"),
      GetStr(m, "activity_type_text"),
      GetInt(m, "kills_present"),
      GetInt(m, "total_kills_reported"),
      GetInt(m, "battery_level"),
      GetInt(m, "wireless_network_rssi"),
      GetStr(m, "firmware_version_string"),
      GetInt(m, "temperature"),
      GetStr(m, "board_type"),
      GetInt(m, "error_code"),
      GetBool(m, "active"),
      GetBool(m, "isRatKill"),
      GetAny(m, "sexKillDetail"),
      GetAny(m, "ageKillDetail"),
      GetAny(m, "speciesKillDetail"),
      GetBool(m, "replacedAttractant"),
      GetBool(m, "replacedBattery"),
      GetBool(m, "cleanedTrap"),
      GetOptionalAny(m, "note"),
      GetOptionalAny(m, "site_id"),
      GetOptionalAny(m, "building_id"),
      GetOptionalAny(m, "floor_id"),
      GetOptionalAny(m, "floor_plan_x"),
      GetOptionalAny(m, "floor_plan_y"),
      GetStr(m, "trap_type_text")
    ))
  }

  lemma ActivityMissingKeyError1(m: map<string, Value>, k: string)
    requires k in {"id", "url", "trap", "trap_name", "time_stamp", "time_stamp_unix"} && k !in m
    ensures FieldError([Key(k)], Missing) in ActivityErrors(m)
  {
  }

  lemma ActivityMissingKeyError2(m: map<string, Value>, k: string)
    requires k in {"sequence_number", "activity_type", "activity_type_text", "kills_present", "total_kills_reported", "battery_level"} && k !in m
    ensures FieldError([Key(k)], Missing) in ActivityErrors(m)
  {
  }

  lemma ActivityMissingKeyError3(m: map<string, Value>, k: string)
    requires k in {"wireless_network_rssi", "firmware_version_string", "temperature", "board_type", "error_code", "active"} && k !in m
    ensures FieldError([Key(k)], Missing) in ActivityErrors(m)
  {
  }

  lemma ActivityMissingKeyError4(m: map<string, Value>, k: string)
    requires k in {"isRatKill", "sexKillDetail", "ageKillDetail", "speciesKillDetail", "replacedAttractant", "replacedBattery"} && k !in m
    ensures FieldError([Key(k)], Missing) in ActivityErrors(m)
  {
  }

  lemma ActivityMissingKeyError5(m: map<string, Value>, k: string)
    requires k in {"cleanedTrap", "trap_type_text"} && k !in m
    ensures FieldError([Key(k)], Missing) in ActivityErrors(m)
  {
  }

  lemma ActivityMissingKeyError(m: map<string, Value>, k: string)
    requires k in ActivityRequiredKeys && k !in m
    ensures FieldError([Key(k)], Missing) in ActivityErrors(m)
  {
    if k in {"id", "url", "trap", "trap_name", "time_stamp", "time_stamp_unix"} {
      ActivityMissingKeyError1(m, k);
    } else if k in {"sequence_number", "activity_type", "activity_type_text", "kills_present", "total_kills_reported", "battery_level"} {
      ActivityMissingKeyError2(m, k);
    } else if k in {"wireless_network_rssi", "firmware_version_string", "temperature", "board_type", "error_code", "active"} {
      ActivityMissingKeyError3(m, k);
    } else if k in {"isRatKill", "sexKillDetail", "ageKillDetail", "speciesKillDetail", "replacedAttractant", "replacedBattery"} {
      ActivityMissingKeyError4(m, k);
    } else {
      ActivityMissingKeyError5(m, k);
    }
  }

  /** A required field whose key is absent fails the decode and is reported missing. */
  lemma ActivityMissingKeyReported(m: map<string, Value>, k: string)
    requires k in ActivityRequiredKeys && k !in m
    ensures DecodeActivity(m).Failure? && FieldError([Key(k)], Missing) in DecodeActivity(m).error
  {
    ActivityMissingKeyError(m, k);
  }

  /** Version requirements of the mobile apps. */
  datatype MobileApp = MobileApp(
    url: string,
    minAndroidVersion: int,
    idealAndroidVersion: int,
    minIosVersion: string,
    idealIosVersion: string,
    commercialMinAndroidVersion: int,
    commercialIdealAndroidVersion: int,
    commercialMinIosVersion: string,
    commercialIdealIosVersion: string
  )

  /** The keyword arguments that `MobileApp(**m)` accepts, one conjunct per declared field. */
  predicate MatchesMobileApp(m: map<string, Value>) {
    && Required(m, "url", StrKind)
    && Required(m, "min_android_version", IntKind)
    && Required(m, "ideal_android_version", IntKind)
    && Required(m, "min_ios_version", StrKind)
    && Required(m, "ideal_ios_version", StrKind)
    && Required(m, "commercial_min_android_version", IntKind)
    && Required(m, "commercial_ideal_android_version", IntKind)
    && Required(m, "commercial_min_ios_version", StrKind)
    && Required(m, "commercial_ideal_ios_version", StrKind)
  }

  /** The keys of the fields of `MobileApp` declared without a default. */
  const MobileAppRequiredKeys: set<string> := {
    "url", "min_android_version", "ideal_android_version", "min_ios_version",
    "ideal_ios_version", "commercial_min_android_version", "commercial_ideal_android_version", "commercial_min_ios_version",
    "commercial_ideal_ios_version"
  }

  /** The validation errors of `MobileApp(**m)`, field by field in declaration order. */
  function MobileAppErrors(m: map<string, Value>): (e: seq<FieldError>)
    ensures e == [] ==> MatchesMobileApp(m)
    ensures MatchesMobileApp(m) ==> e == []
  {
    CheckRequired(m, "url", StrKind)
    + CheckRequired(m, "min_android_version", IntKind)
    + CheckRequired(m, "ideal_android_version", IntKind)
    + CheckRequired(m, "min_ios_version", StrKind)
    + CheckRequired(m, "ideal_ios_version", StrKind)
    + CheckRequired(m, "commercial_min_android_version", IntKind)
    + CheckRequired(m, "commercial_ideal_android_version", IntKind)
    + CheckRequired(m, "commercial_min_ios_version", StrKind)
    + CheckRequired(m, "commercial_ideal_ios_version", StrKind)
  }

  /** `MobileApp(**m)`: the record when every declared field is valid, else all the errors. */
  function DecodeMobileApp(m: map<string, Value>): (r: Result<MobileApp, seq<FieldError>>)
    ensures r.Success? <==> MatchesMobileApp(m)
    ensures r.Failure? ==> r.error == MobileAppErrors(m)
  {
    var e := MobileAppErrors(m);
    if e != [] then Failure(e)
    else Success(MobileApp(
      GetStr(m, "url"),
      GetInt(m, "min_android_version"),
      GetInt(m, "ideal_android_version"),
      GetStr(m, "min_ios_version"),
      GetStr(m, "ideal_ios_version"),
      GetInt(m, "commercial_min_android_version"),
      GetInt(m, "commercial_ideal_android_version"),
      GetStr(m, "commercial_min_ios_version"),
      GetStr(m, "commercial_ideal_ios_version")
    ))
  }

  lemma MobileAppMissingKeyError1(m: map<string, Value>, k: string)
    requires k in {"url", "min_android_version", "ideal_android_version", "min_ios_version", "ideal_ios_version", "commercial_min_android_version"} && k !in m
    ensures FieldError([Key(k)], Missing) in MobileAppErrors(m)
  {
  }

  lemma MobileAppMissingKeyError2(m: map<string, Value>, k: string)
    requires k in {"commercial_ideal_android_version", "commercial_min_ios_version", "commercial_ideal_ios_version"} && k !in m
    ensures FieldError([Key(k)], Missing) in MobileAppErrors(m)
  {
  }

  lemma MobileAppMissingKeyError(m: map<string, Value>, k: string)
    requires k in MobileAppRequiredKeys && k !in m
    ensures FieldError([Key(k)], Missing) in MobileAppErrors(m)
  {
    if k in {"url", "min_android_version", "ideal_android_version", "min_ios_version", "ideal_ios_version", "commercial_min_android_version"} {
      MobileAppMissingKeyError1(m, k);
    } else {
      MobileAppMissingKeyError2(m, k);
    }
  }

  /** A required field whose key is absent fails the decode and is reported missing. */
  lemma MobileAppMissingKeyReported(m: map<string, Value>, k: string)
    requires k in MobileAppRequiredKeys && k !in m
    ensures DecodeMobileApp(m).Failure? && FieldError([Key(k)], Missing) in DecodeMobileApp(m).error
  {
    MobileAppMissingKeyError(m, k);
  }

  /** A profile's acceptance of one version of the terms. */
  datatype ProfileTermsAndConditions = ProfileTermsAndConditions(
    id: int,
    timeStamp: DateTime,
    profileId: int,
    termId: int,
    termsVersion: string
  )

  /** The keyword arguments that `ProfileTermsAndConditions(**m)` accepts, one conjunct per declared field. */
  predicate MatchesProfileTermsAndConditions(m: map<string, Value>) {
    && Required(m, "id", IntKind)
    && Required(m, "time_stamp", DateTimeKind)
    && Required(m, "profile_id", IntKind)
    && Required(m, "term_id", IntKind)
    && Required(m, "terms_version", StrKind)
  }

  /** The keys of the fields of `ProfileTermsAndConditions` declared without a default. */
  const ProfileTermsAndConditionsRequiredKeys: set<string> := {
    "id", "time_stamp", "profile_id", "term_id",
    "terms_version"
  }

  /** The validation errors of `ProfileTermsAndConditions(**m)`, field by field in declaration order. */
  function ProfileTermsAndConditionsErrors(m: map<string, Value>): (e: seq<FieldError>)
    ensures e == [] ==> MatchesProfileTermsAndConditions(m)
    ensures MatchesProfileTermsAndConditions(m) ==> e == []
  {
    CheckRequired(m, "id", IntKind)
    + CheckRequired(m, "time_stamp", DateTimeKind)
    + CheckRequired(m, "profile_id", IntKind)
    + CheckRequired(m, "term_id", IntKind)
    + CheckRequired(m, "terms_version", StrKind)
  }

  /** `ProfileTermsAndConditions(**m)`: the record when every declared field is valid, else all the errors. */
  function DecodeProfileTermsAndConditions(m: map<string, Value>): (r: Result<ProfileTermsAndConditions, seq<FieldError>>)
    ensures r.Success? <==> MatchesProfileTermsAndConditions(m)
    ensures r.Failure? ==> r.error == ProfileTermsAndConditionsErrors(m)
  {
    var e := ProfileTermsAndConditionsErrors(m);
    if e != [] then Failure(e)
    else Success(ProfileTermsAndConditions(
      GetInt(m, "id"),
      GetDateTime(m, "time_stamp"),
      GetInt(m, "profile_id"),
      GetInt(m, "term_id"),
      GetStr(m, "terms_version")
    ))
  }

  lemma ProfileTermsAndConditionsMissingKeyError(m: map<string, Value>, k: string)
    requires k in ProfileTermsAndConditionsRequiredKeys && k !in m
    ensures FieldError([Key(k)], Missing) in ProfileTermsAndConditionsErrors(m)
  {
  }

  /** A required field whose key is absent fails the decode and is reported missing. */
  lemma ProfileTermsAndConditionsMissingKeyReported(m: map<string, Value>, k: string)
    requires k in ProfileTermsAndConditionsRequiredKeys && k !in m
    ensures DecodeProfileTermsAndConditions(m).Failure? && FieldError([Key(k)], Missing) in DecodeProfileTermsAndConditions(m).error
  {
    ProfileTermsAndConditionsMissingKeyError(m, k);
  }

  /** Notification preferences and contact channels of a user. */
  datatype Profile = Profile(
    id: int,
    url: string,
    user: string,
    name: Option<string>,
    operator: Option<string>,
    operatorName: Option<string>,
    client: Option<string>,
    clientName: Option<string>,
    telephoneNumber: Option<string>,
    phoneNames: Value,
    phoneNumbers: Value,
    emailAddresses: Value,
    emailNotificationsEnabled: bool,
    notificationsEnabled: bool,
    termsVersion: int,
    notifyWifiConnection: bool,
    notifyLowBattery: bool,
    notifyKillAlerts: bool,
    notifyNewProducts: bool,
    textNotificationsEnabled: bool,
    notifyEmptyTrap: bool,
    fcmTokens: Value,
    apnsTokens: Value,
    fcmArns: Value,
    apnsArns: Value,
    fcmTokensPro: Value,
    apnsTokensPro: Value,
    fcmArnsPro: Value,
    apnsArnsPro: Value,
    favoriteSites: Value,
    notifyFalseTrigger: bool,
    acceptedTermsAndConditions: Option<seq<ProfileTermsAndConditions>>
  )

  /** The keyword arguments that `Profile(**m)` accepts, one conjunct per declared field. */
  predicate MatchesProfile(m: map<string, Value>) {
    && Required(m, "id", IntKind)
    && Required(m, "url", StrKind)
    && Required(m, "user", StrKind)
    && Optional(m, "name", StrKind)
    && Optional(m, "operator", StrKind)
    && Optional(m, "operator_name", StrKind)
    && Optional(m, "client", StrKind)
    && Optional(m, "client_name", StrKind)
    && Optional(m, "telephone_number", StrKind)
    && Required(m, "phoneNames", AnyKind)
    && Required(m, "phoneNumbers", AnyKind)
    && Required(m, "emailAddresses", AnyKind)
    && Required(m, "email_notifications_enabled", BoolKind)
    && Required(m, "notifications_enabled", BoolKind)
    && Required(m, "terms_version", IntKind)
    && Required(m, "notify_wifi_connection", BoolKind)
    && Required(m, "notify_low_battery", BoolKind)
    && Required(m, "notify_kill_alerts", BoolKind)
    && Required(m, "notify_new_products", BoolKind)
    && Required(m, "text_notifications_enabled", BoolKind)
    && Required(m, "notify_empty_trap", BoolKind)
    && Required(m, "fcmTokens", AnyKind)
    && Required(m, "apnsTokens", AnyKind)
    && Required(m, "fcmARNs", AnyKind)
    && Required(m, "apnsARNs", AnyKind)
    && Required(m, "fcmTokensPro", AnyKind)
    && Required(m, "apnsTokensPro", AnyKind)
    && Required(m, "fcmARNsPro", AnyKind)
    && Required(m, "apnsARNsPro", AnyKind)
    && Optional(m, "favorite_sites", AnyKind)
    && Required(m, "notify_false_trigger", BoolKind)
    && OptionalRecords(m, "accepted_terms_and_conditions", MatchesProfileTermsAndConditions)
  }

  /** The keys of the fields of `Profile` declared without a default. */
  const ProfileRequiredKeys: set<string> := {
    "id", "url", "user", "phoneNames",
    "phoneNumbers", "emailAddresses", "email_notifications_enabled", "notifications_enabled",
    "terms_version", "notify_wifi_connection", "notify_low_battery", "notify_kill_alerts",
    "notify_new_products", "text_notifications_enabled", "notify_empty_trap", "fcmTokens",
    "apnsTokens", "fcmARNs", "apnsARNs", "fcmTokensPro",
    "apnsTokensPro", "fcmARNsPro", "apnsARNsPro", "notify_false_trigger"
  }

  /** The validation errors of `Profile(**m)`, field by field in declaration order. */
  function ProfileErrors(m: map<string, Value>): (e: seq<FieldError>)
    ensures e == [] ==> MatchesProfile(m)
    ensures MatchesProfile(m) ==> e == []
  {
    CheckRequired(m, "id", IntKind)
    + CheckRequired(m, "url", StrKind)
    + CheckRequired(m, "user", StrKind)
    + CheckOptional(m, "name", StrKind)
    + CheckOptional(m, "operator", StrKind)
    + CheckOptional(m, "operator_name", StrKind)
    + CheckOptional(m, "client", StrKind)
    + CheckOptional(m, "client_name", StrKind)
    + CheckOptional(m, "telephone_number", StrKind)
    + CheckRequired(m, "phoneNames", AnyKind)
    + CheckRequired(m, "phoneNumbers", AnyKind)
    + CheckRequired(m, "emailAddresses", AnyKind)
    + CheckRequired(m, "email_notifications_enabled", BoolKind)
    + CheckRequired(m, "notifications_enabled", BoolKind)
    + CheckRequired(m, "terms_version", IntKind)
    + CheckRequired(m, "notify_wifi_connection", BoolKind)
    + CheckRequired(m, "notify_low_battery", BoolKind)
    + CheckRequired(m, "notify_kill_alerts", BoolKind)
    + CheckRequired(m, "notify_new_products", BoolKind)
    + CheckRequired(m, "text_notifications_enabled", BoolKind)
    + CheckRequired(m, "notify_empty_trap", BoolKind)
    + CheckRequired(m, "fcmTokens", AnyKind)
    + CheckRequired(m, "apnsTokens", AnyKind)
    + CheckRequired(m, "fcmARNs", AnyKind)
    + CheckRequired(m, "apnsARNs", AnyKind)
    + CheckRequired(m, "fcmTokensPro", AnyKind)
    + CheckRequired(m, "apnsTokensPro", AnyKind)
    + CheckRequired(m, "fcmARNsPro", AnyKind)
    + CheckRequired(m, "apnsARNsPro", AnyKind)
    + CheckOptional(m, "favorite_sites", AnyKind)
    + CheckRequired(m, "notify_false_trigger", BoolKind)
    + CheckRecords(m, "accepted_terms_and_conditions", ProfileTermsAndConditionsErrors)
  }

  /** `Profile(**m)`: the record when every declared field is valid, else all the errors. */
  function DecodeProfile(m: map<string, Value>): (r: Result<Profile, seq<FieldError>>)
    ensures r.Success? <==> MatchesProfile(m)
    ensures r.Failure? ==> r.error == ProfileErrors(m)
    ensures r.Success? && "name" !in m ==> r.value.name == None
    ensures r.Success? && "operator" !in m ==> r.value.operator == None
    ensures r.Success? && "operator_name" !in m ==> r.value.operatorName == None
    ensures r.Success? && "client" !in m ==> r.value.client == None
    ensures r.Success? && "client_name" !in m ==> r.value.clientName == None
    ensures r.Success? && "telephone_number" !in m ==> r.value.telephoneNumber == None
    ensures r.Success? && "favorite_sites" !in m ==> r.value.favoriteSites == Null
    ensures r.Success? && "accepted_terms_and_conditions" !in m ==> r.value.acceptedTermsAndConditions == None
  {
    var e := ProfileErrors(m);
    if e != [] then Failure(e)
    else Success(Profile(
      GetInt(m, "id"),
      GetStr(m, "url"),
      GetStr(m, "user"),
      GetOptionalStr(m, "name"),
      GetOptionalStr(m, "operator"),
      GetOptionalStr(m, "operator_name"),
      GetOptionalStr(m, "client"),
      GetOptionalStr(m, "client_name"),
      GetOptionalStr(m, "telephone_number"),
      GetAny(m, "phoneNames"),
      GetAny(m, "phoneNumbers"),
      GetAny(m, "emailAddresses"),
      GetBool(m, "email_notifications_enabled"),
      GetBool(m, "notifications_enabled"),
      GetInt(m, "terms_version"),
      GetBool(m, "notify_wifi_connection"),
      GetBool(m, "notify_low_battery"),
      GetBool(m, "notify_kill_alerts"),
      GetBool(m, "notify_new_products"),
      GetBool(m, "text_notifications_enabled"),
      GetBool(m, "notify_empty_trap"),
      GetAny(m, "fcmTokens"),
      GetAny(m, "apnsTokens"),
      GetAny(m, "fcmARNs"),
      GetAny(m, "apnsARNs"),
      GetAny(m, "fcmTokensPro"),
      GetAny(m, "apnsTokensPro"),
      GetAny(m, "fcmARNsPro"),
      GetAny(m, "apnsARNsPro"),
      GetOptionalAny(m, "favorite_sites"),
      GetBool(m, "notify_false_trigger"),
      GetRecords(m, "accepted_terms_and_conditions", DecodeProfileTermsAndConditions)
    ))
  }

  lemma ProfileMissingKeyError1(m: map<string, Value>, k: string)
    requires k in {"id", "url", "user", "phoneNames", "phoneNumbers", "emailAddresses"} && k !in m
    ensures FieldError([Key(k)], Missing) in ProfileErrors(m)
  {
  }

  lemma ProfileMissingKeyError2(m: map<string, Value>, k: string)
    requires k in {"email_notifications_enabled", "notifications_enabled", "terms_version", "notify_wifi_connection", "notify_low_battery", "notify_kill_alerts"} && k !in m
    ensures FieldError([Key(k)], Missing) in ProfileErrors(m)
  {
  }

  lemma ProfileMissingKeyError3(m: map<string, Value>, k: string)
    requires k in {"notify_new_products", "text_notifications_enabled", "notify_empty_trap", "fcmTokens", "apnsTokens", "fcmARNs"} && k !in m
    ensures FieldError([Key(k)], Missing) in ProfileErrors(m)
  {
  }

  lemma ProfileMissingKeyError4(m: map<string, Value>, k: string)
    requires k in {"apnsARNs", "fcmTokensPro", "apnsTokensPro", "fcmARNsPro", "apnsARNsPro", "notify_false_trigger"} && k !in m
    ensures FieldError([Key(k)], Missing) in ProfileErrors(m)
  {
  }

  lemma ProfileMissingKeyError(m: map<string, Value>, k: string)
    requires k in ProfileRequiredKeys && k !in m
    ensures FieldError([Key(k)], Missing) in ProfileErrors(m)
  {
    if k in {"id", "url", "user", "phoneNames", "phoneNumbers", "emailAddresses"} {
      ProfileMissingKeyError1(m, k);
    } else if k in {"email_notifications_enabled", "notifications_enabled", "terms_version", "notify_wifi_connection", "notify_low_battery", "notify_kill_alerts"} {
      ProfileMissingKeyError2(m, k);
    } else if k in {"notify_new_products", "text_notifications_enabled", "notify_empty_trap", "fcmTokens", "apnsTokens", "fcmARNs"} {
      ProfileMissingKeyError3(m, k);
    } else {
      ProfileMissingKeyError4(m, k);
    }
  }

  /** A required field whose key is absent fails the decode and is reported missing. */
  lemma ProfileMissingKeyReported(m: map<string, Value>, k: string)
    requires k in ProfileRequiredKeys && k !in m
    ensures DecodeProfile(m).Failure? && FieldError([Key(k)], Missing) in DecodeProfile(m).error
  {
    ProfileMissingKeyError(m, k);
  }

  /** An account, with its embedded profile. */
  datatype User = User(
    id: int,
    url: string,
    username: string,
    password: Option<string>,
    email: string,
    groups: seq<string>,
    groupNames: seq<string>,
    dateJoined: DateTime,
    lastLogin: DateTime,
    firstName: string,
    lastName: string,
    profile: Profile
  )

  /** The keyword arguments that `User(**m)` accepts, one conjunct per declared field. */
  predicate MatchesUser(m: map<string, Value>) {
    && Required(m, "id", IntKind)
    && Required(m, "url", StrKind)
    && Required(m, "username", StrKind)
    && Optional(m, "password", StrKind)
    && Required(m, "email", StrKind)
    && Required(m, "groups", StrListKind)
    && Required(m, "group_names", StrListKind)
    && Required(m, "date_joined", DateTimeKind)
    && Required(m, "last_login", DateTimeKind)
    && Required(m, "first_name", StrKind)
    && Required(m, "last_name", StrKind)
    && RequiredRecord(m, "profile", MatchesProfile)
  }

  /** The keys of the fields of `User` declared without a default. */
  const UserRequiredKeys: set<string> := {
    "id", "url", "username", "email",
    "groups", "group_names", "date_joined", "last_login",
    "first_name", "last_name", "profile"
  }

  /** The validation errors of `User(**m)`, field by field in declaration order. */
  function UserErrors(m: map<string, Value>): (e: seq<FieldError>)
    ensures e == [] ==> MatchesUser(m)
    ensures MatchesUser(m) ==> e == []
  {
    CheckRequired(m, "id", IntKind)
    + CheckRequired(m, "url", StrKind)
    + CheckRequired(m, "username", StrKind)
    + CheckOptional(m, "password", StrKind)
    + CheckRequired(m, "email", StrKind)
    + CheckRequired(m, "groups", StrListKind)
    + CheckRequired(m, "group_names", StrListKind)
    + CheckRequired(m, "date_joined", DateTimeKind)
    + CheckRequired(m, "last_login", DateTimeKind)
    + CheckRequired(m, "first_name", StrKind)
    + CheckRequired(m, "last_name", StrKind)
    + CheckRecord(m, "profile", ProfileErrors)
  }

  /** `User(**m)`: the record when every declared field is valid, else all the errors. */
  function DecodeUser(m: map<string, Value>): (r: Result<User, seq<FieldError>>)
    ensures r.Success? <==> MatchesUser(m)
    ensures r.Failure? ==> r.error == UserErrors(m)
    ensures r.Success? && "password" !in m ==> r.value.password == None
  {
    var e := UserErrors(m);
    if e != [] then Failure(e)
    else Success(User(
      GetInt(m, "id"),
      GetStr(m, "url"),
      GetStr(m, "username"),
      GetOptionalStr(m, "password"),
      GetStr(m, "email"),
      GetStrList(m, "groups"),
      GetStrList(m, "group_names"),
      GetDateTime(m, "date_joined"),
      GetDateTime(m, "last_login"),
      GetStr(m, "first_name"),
      GetStr(m, "last_name"),
      DecodeProfile(m["profile"].fields).value
    ))
  }

  lemma UserMissingKeyError1(m: map<string, Value>, k: string)
    requires k in {"id", "url", "username", "email", "groups", "group_names"} && k !in m
    ensures FieldError([Key(k)], Missing) in UserErrors(m)
  {
  }

  lemma UserMissingKeyError2(m: map<string, Value>, k: string)
    requires k in {"date_joined", "last_login", "first_name", "last_name", "profile"} && k !in m
    ensures FieldError([Key(k)], Missing) in UserErrors(m)
  {
  }

  lemma UserMissingKeyError(m: map<string, Value>, k: string)
    requires k in UserRequiredKeys && k !in m
    ensures FieldError([Key(k)], Missing) in UserErrors(m)
  {
    if k in {"id", "url", "username", "email", "groups", "group_names"} {
      UserMissingKeyError1(m, k);
    } else {
      UserMissingKeyError2(m, k);
    }
  }

  /** A required field whose key is absent fails the decode and is reported missing. */
  lemma UserMissingKeyReported(m: map<string, Value>, k: string)
    requires k in UserRequiredKeys && k !in m
    ensures DecodeUser(m).Failure? && FieldError([Key(k)], Missing) in DecodeUser(m).error
  {
    UserMissingKeyError(m, k);
  }

  /** A `Profile` under `profile` that fails to decode fails the decode, its errors reported under `profile`. */
  lemma UserNestedProfileFailure(m: map<string, Value>)
    requires "profile" in m && m["profile"].Object? && DecodeProfile(m["profile"].fields).Failure?
    ensures DecodeUser(m).Failure?
    ensures forall e :: e in DecodeProfile(m["profile"].fields).error ==>
              FieldError([Key("profile")] + e.loc, e.problem) in DecodeUser(m).error
  {
  }

  /** An operator's acceptance of one version of the terms. */
  datatype OperatorTermsAndConditions = OperatorTermsAndConditions(
    id: int,
    operatorId: int,
    timeStamp: DateTime,
    termsAndConditions: string,
    termsVersion: string
  )

  /** The keyword arguments that `OperatorTermsAndConditions(**m)` accepts, one conjunct per declared field. */
  predicate MatchesOperatorTermsAndConditions(m: map<string, Value>) {
    && Required(m, "id", IntKind)
    && Required(m, "operator_id", IntKind)
    && Required(m, "time_stamp", DateTimeKind)
    && Required(m, "terms_and_conditions", StrKind)
    && Required(m, "terms_version", StrKind)
  }

  /** The keys of the fields of `OperatorTermsAndConditions` declared without a default. */
  const OperatorTermsAndConditionsRequiredKeys: set<string> := {
    "id", "operator_id", "time_stamp", "terms_and_conditions",
    "terms_version"
  }

  /** The validation errors of `OperatorTermsAndConditions(**m)`, field by field in declaration order. */
  function OperatorTermsAndConditionsErrors(m: map<string, Value>): (e: seq<FieldError>)
    ensures e == [] ==> MatchesOperatorTermsAndConditions(m)
    ensures MatchesOperatorTermsAndConditions(m) ==> e == []
  {
    CheckRequired(m, "id", IntKind)
    + CheckRequired(m, "operator_id", IntKind)
    + CheckRequired(m, "time_stamp", DateTimeKind)
    + CheckRequired(m, "terms_and_conditions", StrKind)
    + CheckRequired(m, "terms_version", StrKind)
  }

  /** `OperatorTermsAndConditions(**m)`: the record when every declared field is valid, else all the errors. */
  function DecodeOperatorTermsAndConditions(m: map<string, Value>): (r: Result<OperatorTermsAndConditions, seq<FieldError>>)
    ensures r.Success? <==> MatchesOperatorTermsAndConditions(m)
    ensures r.Failure? ==> r.error == OperatorTermsAndConditionsErrors(m)
  {
    var e := OperatorTermsAndConditionsErrors(m);
    if e != [] then Failure(e)
    else Success(OperatorTermsAndConditions(
      GetInt(m, "id"),
      GetInt(m, "operator_id"),
      GetDateTime(m, "time_stamp"),
      GetStr(m, "terms_and_conditions"),
      GetStr(m, "terms_version")
    ))
  }

  lemma OperatorTermsAndConditionsMissingKeyError(m: map<string, Value>, k: string)
    requires k in OperatorTermsAndConditionsRequiredKeys && k !in m
    ensures FieldError([Key(k)], Missing) in OperatorTermsAndConditionsErrors(m)
  {
  }

  /** A required field whose key is absent fails the decode and is reported missing. */
  lemma OperatorTermsAndConditionsMissingKeyReported(m: map<string, Value>, k: string)
    requires k in OperatorTermsAndConditionsRequiredKeys && k !in m
    ensures DecodeOperatorTermsAndConditions(m).Failure? && FieldError([Key(k)], Missing) in DecodeOperatorTermsAndConditions(m).error
  {
    OperatorTermsAndConditionsMissingKeyError(m, k);
  }

  /** An account and billing identity, with its embedded contact user. */
  datatype Operator = Operator(
    id: int,
    url: string,
    accountNumber: string,
    name: string,
    address: string,
    operatorType: int,
    numberSites: int,
    numberBuildings: int,
    numberTraps: int,
    termsVersion: int,
    terms: string,
    contact: User,
    termsAndConditions: Option<seq<OperatorTermsAndConditions>>
  )

  /** The keyword arguments that `Operator(**m)` accepts, one conjunct per declared field. */
  predicate MatchesOperator(m: map<string, Value>) {
    && Required(m, "id", IntKind)
    && Required(m, "url", StrKind)
    && Required(m, "account_number", StrKind)
    && Required(m, "name", StrKind)
    && Required(m, "address", StrKind)
    && Required(m, "type", IntKind)
    && Required(m, "number_sites", IntKind)
    && Required(m, "number_buildings", IntKind)
    && Required(m, "number_traps", IntKind)
    && Required(m, "terms_version", IntKind)
    && Required(m, "terms", StrKind)
    && RequiredRecord(m, "contact", MatchesUser)
    && OptionalRecords(m, "terms_and_conditions", MatchesOperatorTermsAndConditions)
  }

  /** The keys of the fields of `Operator` declared without a default. */
  const OperatorRequiredKeys: set<string> := {
    "id", "url", "account_number", "name",
    "address", "type", "number_sites", "number_buildings",
    "number_traps", "terms_version", "terms", "contact"
  }

  /** The validation errors of `Operator(**m)`, field by field in declaration order. */
  function OperatorErrors(m: map<string, Value>): (e: seq<FieldError>)
    ensures e == [] ==> MatchesOperator(m)
    ensures MatchesOperator(m) ==> e == []
  {
    CheckRequired(m, "id", IntKind)
    + CheckRequired(m, "url", StrKind)
    + CheckRequired(m, "account_number", StrKind)
    + CheckRequired(m, "name", StrKind)
    + CheckRequired(m, "address", StrKind)
    + CheckRequired(m, "type", IntKind)
    + CheckRequired(m, "number_sites", IntKind)
    + CheckRequired(m, "number_buildings", IntKind)
    + CheckRequired(m, "number_traps", IntKind)
    + CheckRequired(m, "terms_version", IntKind)
    + CheckRequired(m, "terms", StrKind)
    + CheckRecord(m, "contact", UserErrors)
    + CheckRecords(m, "terms_and_conditions", OperatorTermsAndConditionsErrors)
  }

  /** `Operator(**m)`: the record when every declared field is valid, else all the errors. */
  function DecodeOperator(m: map<string, Value>): (r: Result<Operator, seq<FieldError>>)
    ensures r.Success? <==> MatchesOperator(m)
    ensures r.Failure? ==> r.error == OperatorErrors(m)
    ensures r.Success? && "terms_and_conditions" !in m ==> r.value.termsAndConditions == None
  {
    var e := OperatorErrors(m);
    if e != [] then Failure(e)
    else Success(Operator(
      GetInt(m, "id"),
      GetStr(m, "url"),
      GetStr(m, "account_number"),
      GetStr(m, "name"),
      GetStr(m, "address"),
      GetInt(m, "type"),
      GetInt(m, "number_sites"),
      GetInt(m, "number_buildings"),
      GetInt(m, "number_traps"),
      GetInt(m, "terms_version"),
      GetStr(m, "terms"),
      DecodeUser(m["contact"].fields).value,
      GetRecords(m, "terms_and_conditions", DecodeOperatorTermsAndConditions)
    ))
  }

  lemma OperatorMissingKeyError1(m: map<string, Value>, k: string)
    requires k in {"id", "url", "account_number", "name", "address", "type"} && k !in m
    ensures FieldError([Key(k)], Missing) in OperatorErrors(m)
  {
  }

  lemma OperatorMissingKeyError2(m: map<string, Value>, k: string)
    requires k in {"number_sites", "number_buildings", "number_traps", "terms_version", "terms", "contact"} && k !in m
    ensures FieldError([Key(k)], Missing) in OperatorErrors(m)
  {
  }

  lemma OperatorMissingKeyError(m: map<string, Value>, k: string)
    requires k in OperatorRequiredKeys && k !in m
    ensures FieldError([Key(k)], Missing) in OperatorErrors(m)
  {
    if k in {"id", "url", "account_number", "name", "address", "type"} {
      OperatorMissingKeyError1(m, k);
    } else {
      OperatorMissingKeyError2(m, k);
    }
  }

  /** A required field whose key is absent fails the decode and is reported missing. */
  lemma OperatorMissingKeyReported(m: map<string, Value>, k: string)
    requires k in OperatorRequiredKeys && k !in m
    ensures DecodeOperator(m).Failure? && FieldError([Key(k)], Missing) in DecodeOperator(m).error
  {
    OperatorMissingKeyError(m, k);
  }

  /** A `User` under `contact` that fails to decode fails the decode, its errors reported under `contact`. */
  lemma OperatorNestedUserFailure(m: map<string, Value>)
    requires "contact" in m && m["contact"].Object? && DecodeUser(m["contact"].fields).Failure?
    ensures DecodeOperator(m).Failure?
    ensures forall e :: e in DecodeUser(m["contact"].fields).error ==>
              FieldError([Key("contact")] + e.loc, e.problem) in DecodeOperator(m).error
  {
  }

  /** Counters and the last readings of a trap. */
  datatype TrapStatistics = TrapStatistics(
    id: int,
    url: string,
    trap: string,
    trapName: string,
    killsPresent: int,
    installDate: Option<DateTime>,
    ownerName: string,
    ownerEmail: string,
    lastReportDate: DateTime,
    lastKillDate: Option<DateTime>,
    temperature: Option<int>,
    batteryLevel: int,
    totalKills: Option<int>,
    totalEscapes: Option<int>,
    rxPowerLevel: int,
    firmwareVersion: string,
    trapProvisioned: bool,
    lastSequenceNumber: Option<int>,
    totalRetreats: Option<int>,
    wirelessNetworkRssi: int,
    errorCode: int,
    sendConnLostNt: bool,
    sendEmptyTrapNt: bool,
    boardType: string,
    lastMaintenanceDate: TextOrDateTime,
    baitLevel: Value,
    currentBait: Value,
    lastBaitQuantity: Option<int>
  ) {

    /**
     * `temperature_celcius`: absent when the raw reading is absent and also when
     * it is 0, because the source tests the reading's truthiness.
     */
    function TemperatureCelsius(): (c: Option<Reading>)
      ensures c.None? <==> temperature == None || temperature == Some(0)
      ensures c.Some? ==> LowTenths(c.value) as real <= temperature.value as real / 2.0 <= HighTenths(c.value) as real
      ensures c.Some? && temperature.value % 2 == 0 ==> c.value == Exact(temperature.value / 2)
    {
      if temperature.Some? && temperature.value != 0 then Some(RoundedTenths(temperature.value)) else None
    }
  }

  /** The keyword arguments that `TrapStatistics(**m)` accepts, one conjunct per declared field. */
  predicate MatchesTrapStatistics(m: map<string, Value>) {
    && Required(m, "id", IntKind)
    && Required(m, "url", StrKind)
    && Required(m, "trap", StrKind)
    && Required(m, "trap_name", StrKind)
    && Required(m, "kills_present", IntKind)
    && Optional(m, "install_date", DateTimeKind)
    && Required(m, "owner_name", StrKind)
    && Required(m, "owner_email", StrKind)
    && Required(m, "last_report_date", DateTimeKind)
    && Optional(m, "last_kill_date", DateTimeKind)
    && Optional(m, "temperature", IntKind)
    && Required(m, "battery_level", IntKind)
    && Optional(m, "total_kills", IntKind)
    && Optional(m, "total_escapes", IntKind)
    && Required(m, "rx_power_level", IntKind)
    && Required(m, "firmware_version", StrKind)
    && Required(m, "trap_provisioned", BoolKind)
    && Optional(m, "last_sequence_number", IntKind)
    && Optional(m, "total_retreats", IntKind)
    && Required(m, "wireless_network_rssi", IntKind)
    && Required(m, "error_code", IntKind)
    && Required(m, "send_conn_lost_nt", BoolKind)
    && Required(m, "send_empty_trap_nt", BoolKind)
    && Required(m, "board_type", StrKind)
    && Required(m, "last_maintenance_date", TextOrDateTimeKind)
    && Optional(m, "bait_level", AnyKind)
    && Optional(m, "current_bait", AnyKind)
    && Optional(m, "last_bait_quantity", IntKind)
  }

  /** The keys of the fields of `TrapStatistics` declared without a default. */
  const TrapStatisticsRequiredKeys: set<string> := {
    "id", "url", "trap", "trap_name",
    "kills_present", "owner_name", "owner_email", "last_report_date",
    "battery_level", "rx_power_level", "firmware_version", "trap_provisioned",
    "wireless_network_rssi", "error_code", "send_conn_lost_nt", "send_empty_trap_nt",
    "board_type", "last_maintenance_date"
  }

  /** The validation errors of `TrapStatistics(**m)`, field by field in declaration order. */
  function TrapStatisticsErrors(m: map<string, Value>): (e: seq<FieldError>)
    ensures e == [] ==> MatchesTrapStatistics(m)
    ensures MatchesTrapStatistics(m) ==> e == []
  {
    CheckRequired(m, "id", IntKind)
    + CheckRequired(m, "url", StrKind)
    + CheckRequired(m, "trap", StrKind)
    + CheckRequired(m, "trap_name", StrKind)
    + CheckRequired(m, "kills_present", IntKind)
    + CheckOptional(m, "install_date", DateTimeKind)
    + CheckRequired(m, "owner_name", StrKind)
    + CheckRequired(m, "owner_email", StrKind)
    + CheckRequired(m, "last_report_date", DateTimeKind)
    + CheckOptional(m, "last_kill_date", DateTimeKind)
    + CheckOptional(m, "temperature", IntKind)
    + CheckRequired(m, "battery_level", IntKind)
    + CheckOptional(m, "total_kills", IntKind)
    + CheckOptional(m, "total_escapes", IntKind)
    + CheckRequired(m, "rx_power_level", IntKind)
    + CheckRequired(m, "firmware_version", StrKind)
    + CheckRequired(m, "trap_provisioned", BoolKind)
    + CheckOptional(m, "last_sequence_number", IntKind)
    + CheckOptional(m, "total_retreats", IntKind)
    + CheckRequired(m, "wireless_network_rssi", IntKind)
    + CheckRequired(m, "error_code", IntKind)
    + CheckRequired(m, "send_conn_lost_nt", BoolKind)
    + CheckRequired(m, "send_empty_trap_nt", BoolKind)
    + CheckRequired(m, "board_type", StrKind)
    + CheckRequired(m, "last_maintenance_date", TextOrDateTimeKind)
    + CheckOptional(m, "bait_level", AnyKind)
    + CheckOptional(m, "current_bait", AnyKind)
    + CheckOptional(m, "last_bait_quantity", IntKind)
  }

  /** `TrapStatistics(**m)`: the record when every declared field is valid, else all the errors. */
  function DecodeTrapStatistics(m: map<string, Value>): (r: Result<TrapStatistics, seq<FieldError>>)
    ensures r.Success? <==> MatchesTrapStatistics(m)
    ensures r.Failure? ==> r.error == TrapStatisticsErrors(m)
    ensures r.Success? && "install_date" !in m ==> r.value.installDate == None
    ensures r.Success? && "last_kill_date" !in m ==> r.value.lastKillDate == None
    ensures r.Success? && "temperature" !in m ==> r.value.temperature == None
    ensures r.Success? && "total_kills" !in m ==> r.value.totalKills == None
    ensures r.Success? && "total_escapes" !in m ==> r.value.totalEscapes == None
    ensures r.Success? && "last_sequence_number" !in m ==> r.value.lastSequenceNumber == None
    ensures r.Success? && "total_retreats" !in m ==> r.value.totalRetreats == None
    ensures r.Success? && "bait_level" !in m ==> r.value.baitLevel == Null
    ensures r.Success? && "current_bait" !in m ==> r.value.currentBait == Null
    ensures r.Success? && "last_bait_quantity" !in m ==> r.value.lastBaitQuantity == None
  {
    var e := TrapStatisticsErrors(m);
    if e != [] then Failure(e)
    else Success(TrapStatistics(
      GetInt(m, "id"),
      GetStr(m, "url"),
      GetStr(m, "trap"),
      GetStr(m, "trap_name"),
      GetInt(m, "kills_present"),
      GetOptionalDateTime(m, "install_date"),
      GetStr(m, "owner_name"),
      GetStr(m, "owner_email"),
      GetDateTime(m, "last_report_date"),
      GetOptionalDateTime(m, "last_kill_date"),
      GetOptionalInt(m, "temperature"),
      GetInt(m, "battery_level"),
      GetOptionalInt(m, "total_kills"),
      GetOptionalInt(m, "total_escapes"),
      GetInt(m, "rx_power_level"),
      GetStr(m, "firmware_version"),
      GetBool(m, "trap_provisioned"),
      GetOptionalInt(m, "last_sequence_number"),
      GetOptionalInt(m, "total_retreats"),
      GetInt(m, "wireless_network_rssi"),
      GetInt(m, "error_code"),
      GetBool(m, "send_conn_lost_nt"),
      GetBool(m, "send_empty_trap_nt"),
      GetStr(m, "board_type"),
      GetTextOrDateTime(m, "last_maintenance_date"),
      GetOptionalAny(m, "bait_level"),
      GetOptionalAny(m, "current_bait"),
      GetOptionalInt(m, "last_bait_quantity")
    ))
  }

  lemma TrapStatisticsMissingKeyError1(m: map<string, Value>, k: string)
    requires k in {"id", "url", "trap", "trap_name", "kills_present", "owner_name"} && k !in m
    ensures FieldError([Key(k)], Missing) in TrapStatisticsErrors(m)
  {
  }

  lemma TrapStatisticsMissingKeyError2(m: map<string, Value>, k: string)
    requires k in {"owner_email", "last_report_date", "battery_level", "rx_power_level", "firmware_version", "trap_provisioned"} && k !in m
    ensures FieldError([Key(k)], Missing) in TrapStatisticsErrors(m)
  {
  }

  lemma TrapStatisticsMissingKeyError3(m: map<string, Value>, k: string)
    requires k in {"wireless_network_rssi", "error_code", "send_conn_lost_nt", "send_empty_trap_nt", "board_type", "last_maintenance_date"} && k !in m
    ensures FieldError([Key(k)], Missing) in TrapStatisticsErrors(m)
  {
  }

  lemma TrapStatisticsMissingKeyError(m: map<string, Value>, k: string)
    requires k in TrapStatisticsRequiredKeys && k !in m
    ensures FieldError([Key(k)], Missing) in TrapStatisticsErrors(m)
  {
    if k in {"id", "url", "trap", "trap_name", "kills_present", "owner_name"} {
      TrapStatisticsMissingKeyError1(m, k);
    } else if k in {"owner_email", "last_report_date", "battery_level", "rx_power_level", "firmware_version", "trap_provisioned"} {
      TrapStatisticsMissingKeyError2(m, k);
    } else {
      TrapStatisticsMissingKeyError3(m, k);
    }
  }

  /** A required field whose key is absent fails the decode and is reported missing. */
  lemma TrapStatisticsMissingKeyReported(m: map<string, Value>, k: string)
    requires k in TrapStatisticsRequiredKeys && k !in m
    ensures DecodeTrapStatistics(m).Failure? && FieldError([Key(k)], Missing) in DecodeTrapStatistics(m).error
  {
    TrapStatisticsMissingKeyError(m, k);
  }

  /** A trap, with its embedded statistics. */
  datatype Trap = Trap(
    id: int,
    url: string,
    corruptionStatus: int,
    corruptionStatusOptions: Option<seq<(int, string)>>,
    operator: Option<string>,
    operatorName: Option<string>,
    name: string,
    ssid: string,
    serialNumber: string,
    autoUpgrade: bool,
    status: int,
    location: Option<string>,
    lat: Option<real>,
    long: Option<real>,
    upgradeFirmware: Option<string>,
    commercialGateway: Option<string>,
    commercialMonitorModeEnabled: bool,
    lorawanAppKey: string,
    siteName: Option<string>,
    floorPlanX: Option<int>,
    floorPlanY: Option<int>,
    buildingName: Option<string>,
    floorName: Option<string>,
    room: Option<string>,
    roomName: Option<string>,
    trapType: int,
    trapTypeVerbose: string,
    alerts: int,
    trapstatistics: TrapStatistics
  ) {

    /**
     * `corruption_status_verbose`: without options (absent or empty) there is no
     * text; otherwise the text of the first option whose code is the status, and
     * `StopIteration` when no option has that code.
     */
    function CorruptionStatusVerbose(): (r: Result<Option<string>, LookupError>)
      ensures corruptionStatusOptions == None || corruptionStatusOptions == Some([]) ==> r == Success(None)
      ensures corruptionStatusOptions.Some? && corruptionStatusOptions.value != [] ==>
                (r.Success? <==> exists i :: 0 <= i < |corruptionStatusOptions.value| && corruptionStatusOptions.value[i].0 == corruptionStatus)
      ensures corruptionStatusOptions.Some? ==>
                forall i :: IsFirstMatch(corruptionStatusOptions.value, corruptionStatus, i) ==>
                  r == Success(Some(corruptionStatusOptions.value[i].1))
    {
      match corruptionStatusOptions
      case None => Success(None)
      case Some(options) =>
        if options == [] then Success(None)
        else match FirstMatch(options, corruptionStatus)
          case Some(i) => Success(Some(options[i].1))
          case None => Failure(StopIteration)
    }
  }

  /** The keyword arguments that `Trap(**m)` accepts, one conjunct per declared field. */
  predicate MatchesTrap(m: map<string, Value>) {
    && Required(m, "id", IntKind)
    && Required(m, "url", StrKind)
    && Required(m, "corruption_status", IntKind)
    && Optional(m, "corruption_status_options", CodeTextListKind)
    && Optional(m, "operator", StrKind)
    && Optional(m, "operator_name", StrKind)
    && Required(m, "name", StrKind)
    && Required(m, "ssid", StrKind)
    && Required(m, "serial_number", StrKind)
    && Required(m, "auto_upgrade", BoolKind)
    && Required(m, "status", IntKind)
    && Optional(m, "location", StrKind)
    && Optional(m, "lat", FloatKind)
    && Optional(m, "long", FloatKind)
    && Optional(m, "upgrade_firmware", StrKind)
    && Optional(m, "commercial_gateway", StrKind)
    && Required(m, "commercial_monitor_mode_enabled", BoolKind)
    && Required(m, "lorawan_app_key", StrKind)
    && Optional(m, "site_name", StrKind)
    && Optional(m, "floor_plan_x", IntKind)
    && Optional(m, "floor_plan_y", IntKind)
    && Optional(m, "building_name", StrKind)
    && Optional(m, "floor_name", StrKind)
    && Optional(m, "room", StrKind)
    && Optional(m, "room_name", StrKind)
    && Required(m, "trap_type", IntKind)
    && Required(m, "trap_type_verbose", StrKind)
    && Required(m, "alerts", IntKind)
    && RequiredRecord(m, "trapstatistics", MatchesTrapStatistics)
  }

  /** The keys of the fields of `Trap` declared without a default. */
  const TrapRequiredKeys: set<string> := {
    "id", "url", "corruption_status", "name",
    "ssid", "serial_number", "auto_upgrade", "status",
    "commercial_monitor_mode_enabled", "lorawan_app_key", "trap_type", "trap_type_verbose",
    "alerts", "trapstatistics"
  }

  /** The validation errors of `Trap(**m)`, field by field in declaration order. */
  function TrapErrors(m: map<string, Value>): (e: seq<FieldError>)
    ensures e == [] ==> MatchesTrap(m)
    ensures MatchesTrap(m) ==> e == []
  {
    CheckRequired(m, "id", IntKind)
    + CheckRequired(m, "url", StrKind)
    + CheckRequired(m, "corruption_status", IntKind)
    + CheckOptional(m, "corruption_status_options", CodeTextListKind)
    + CheckOptional(m, "operator", StrKind)
    + CheckOptional(m, "operator_name", StrKind)
    + CheckRequired(m, "name", StrKind)
    + CheckRequired(m, "ssid", StrKind)
    + CheckRequired(m, "serial_number", StrKind)
    + CheckRequired(m, "auto_upgrade", BoolKind)
    + CheckRequired(m, "status", IntKind)
    + CheckOptional(m, "location", StrKind)
    + CheckOptional(m, "lat", FloatKind)
    + CheckOptional(m, "long", FloatKind)
    + CheckOptional(m, "upgrade_firmware", StrKind)
    + CheckOptional(m, "commercial_gateway", StrKind)
    + CheckRequired(m, "commercial_monitor_mode_enabled", BoolKind)
    + CheckRequired(m, "lorawan_app_key", StrKind)
    + CheckOptional(m, "site_name", StrKind)
    + CheckOptional(m, "floor_plan_x", IntKind)
    + CheckOptional(m, "floor_plan_y", IntKind)
    + CheckOptional(m, "building_name", StrKind)
    + CheckOptional(m, "floor_name", StrKind)
    + CheckOptional(m, "room", StrKind)
    + CheckOptional(m, "room_name", StrKind)
    + CheckRequired(m, "trap_type", IntKind)
    + CheckRequired(m, "trap_type_verbose", StrKind)
    + CheckRequired(m, "alerts", IntKind)
    + CheckRecord(m, "trapstatistics", TrapStatisticsErrors)
  }

  /** `Trap(**m)`: the record when every declared field is valid, else all the errors. */
  function DecodeTrap(m: map<string, Value>): (r: Result<Trap, seq<FieldError>>)
    ensures r.Success? <==> MatchesTrap(m)
    ensures r.Failure? ==> r.error == TrapErrors(m)
    ensures r.Success? && "corruption_status_options" !in m ==> r.value.corruptionStatusOptions == None
    ensures r.Success? && "operator" !in m ==> r.value.operator == None
    ensures r.Success? && "operator_name" !in m ==> r.value.operatorName == None
    ensures r.Success? && "location" !in m ==> r.value.location == None
    ensures r.Success? && "lat" !in m ==> r.value.lat == None
    ensures r.Success? && "long" !in m ==> r.value.long == None
    ensures r.Success? && "upgrade_firmware" !in m ==> r.value.upgradeFirmware == None
    ensures r.Success? && "commercial_gateway" !in m ==> r.value.commercialGateway == None
    ensures r.Success? && "site_name" !in m ==> r.value.siteName == None
    ensures r.Success? && "floor_plan_x" !in m ==> r.value.floorPlanX == None
    ensures r.Success? && "floor_plan_y" !in m ==> r.value.floorPlanY == None
    ensures r.Success? && "building_name" !in m ==> r.value.buildingName == None
    ensures r.Success? && "floor_name" !in m ==> r.value.floorName == None
    ensures r.Success? && "room" !in m ==> r.value.room == None
    ensures r.Success? && "room_name" !in m ==> r.value.roomName == None
  {
    var e := TrapErrors(m);
    if e != [] then Failure(e)
    else Success(Trap(
      GetInt(m, "id"),
      GetStr(m, "url"),
      GetInt(m, "corruption_status"),
      GetOptionalCodeTexts(m, "corruption_status_options"),
      GetOptionalStr(m, "operator"),
      GetOptionalStr(m, "operator_name"),
      GetStr(m, "name"),
      GetStr(m, "ssid"),
      GetStr(m, "serial_number"),
      GetBool(m, "auto_upgrade"),
      GetInt(m, "status"),
      GetOptionalStr(m, "location"),
      GetOptionalFloat(m, "lat"),
      GetOptionalFloat(m, "long"),
      GetOptionalStr(m, "upgrade_firmware"),
      GetOptionalStr(m, "commercial_gateway"),
      GetBool(m, "commercial_monitor_mode_enabled"),
      GetStr(m, "lorawan_app_key"),
      GetOptionalStr(m, "site_name"),
      GetOptionalInt(m, "floor_plan_x"),
      GetOptionalInt(m, "floor_plan_y"),
      GetOptionalStr(m, "building_name"),
      GetOptionalStr(m, "floor_name"),
      GetOptionalStr(m, "room"),
      GetOptionalStr(m, "room_name"),
      GetInt(m, "trap_type"),
      GetStr(m, "trap_type_verbose"),
      GetInt(m, "alerts"),
      DecodeTrapStatistics(m["trapstatistics"].fields).value
    ))
  }

  lemma TrapMissingKeyError1(m: map<string, Value>, k: string)
    requires k in {"id", "url", "corruption_status", "name", "ssid", "serial_number"} && k !in m
    ensures FieldError([Key(k)], Missing) in TrapErrors(m)
  {
  }

  lemma TrapMissingKeyError2(m: map<string, Value>, k: string)
    requires k in {"auto_upgrade", "status", "commercial_monitor_mode_enabled", "lorawan_app_key", "trap_type", "trap_type_verbose"} && k !in m
    ensures FieldError([Key(k)], Missing) in TrapErrors(m)
  {
  }

  lemma TrapMissingKeyError3(m: map<string, Value>, k: string)
    requires k in {"alerts", "trapstatistics"} && k !in m
    ensures FieldError([Key(k)], Missing) in TrapErrors(m)
  {
  }

  lemma TrapMissingKeyError(m: map<string, Value>, k: string)
    requires k in TrapRequiredKeys && k !in m
    ensures FieldError([Key(k)], Missing) in TrapErrors(m)
  {
    if k in {"id", "url", "corruption_status", "name", "ssid", "serial_number"} {
      TrapMissingKeyError1(m, k);
    } else if k in {"auto_upgrade", "status", "commercial_monitor_mode_enabled", "lorawan_app_key", "trap_type", "trap_type_verbose"} {
      TrapMissingKeyError2(m, k);
    } else {
      TrapMissingKeyError3(m, k);
    }
  }

  /** A required field whose key is absent fails the decode and is reported missing. */
  lemma TrapMissingKeyReported(m: map<string, Value>, k: string)
    requires k in TrapRequiredKeys && k !in m
    ensures DecodeTrap(m).Failure? && FieldError([Key(k)], Missing) in DecodeTrap(m).error
  {
    TrapMissingKeyError(m, k);
  }

  /** A `TrapStatistics` under `trapstatistics` that fails to decode fails the decode, its errors reported under `trapstatistics`. */
  lemma TrapNestedTrapStatisticsFailure(m: map<string, Value>)
    requires "trapstatistics" in m && m["trapstatistics"].Object? && DecodeTrapStatistics(m["trapstatistics"].fields).Failure?
    ensures DecodeTrap(m).Failure?
    ensures forall e :: e in DecodeTrapStatistics(m["trapstatistics"].fields).error ==>
              FieldError([Key("trapstatistics")] + e.loc, e.problem) in DecodeTrap(m).error
  {
  }
}
