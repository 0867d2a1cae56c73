/**
 * What the decoders keep: keyword arguments that carry the fields of a record
 * decode to exactly that record.
 */
module Carrying {
  import opened Wrappers
  import opened Json
  import opened Fields
  import opened Models

  predicate Has(m: map<string, Value>, key: string, v: Value) {
    key in m && m[key] == v
  }

  /** An optional field: `Null` stands for an absent key as well as for a null value. */
  predicate HasOptional(m: map<string, Value>, key: string, v: Value) {
    if key in m then m[key] == v else v == Null
  }

  predicate HasRecord<T>(m: map<string, Value>, key: string, x: T, carries: (map<string, Value>, T) -> bool) {
    key in m && m[key].Object? && carries(m[key].fields, x)
  }

  predicate HasRecords<T>(m: map<string, Value>, key: string, xs: Option<seq<T>>, carries: (map<string, Value>, T) -> bool) {
    match xs
    case None => key !in m || m[key] == Null
    case Some(s) =>
      && key in m && m[key].Array? && |m[key].items| == |s|
      && forall i :: 0 <= i < |s| ==> m[key].items[i].Object? && carries(m[key].items[i].fields, s[i])
  }

  function DateTimeValue(d: DateTime): Value {
    match d
    case Iso(t) => String(t)
    case Epoch(s) => Float(s)
  }

  function TextOrDateTimeValue(d: TextOrDateTime): Value {
    match d
    case Text(t) => String(t)
    case EpochTime(s) => Float(s)
  }

  function StrListValue(xs: seq<string>): Value {
    Array(seq(|xs|, i requires 0 <= i < |xs| => String(xs[i])))
  }

  function OptStrValue(x: Option<string>): Value {
    match x
    case None => Null
    case Some(s) => String(s)
  }

  function OptIntValue(x: Option<int>): Value {
    match x
    case None => Null
    case Some(i) => Int(i)
  }

  function OptDateTimeValue(x: Option<DateTime>): Value {
    match x
    case None => Null
    case Some(d) => DateTimeValue(d)
  }

  function OptFloatValue(x: Option<real>): Value {
    match x
    case None => Null
    case Some(r) => Float(r)
  }

  function OptCodeTextsValue(x: Option<seq<(int, string)>>): Value {
    match x
    case None => Null
    case Some(s) => Array(seq(|s|, i requires 0 <= i < |s| => Array([Int(s[i].0), String(s[i].1)])))
  }


  // One lemma per field kind: a field carried in canonical form is valid and reads back as given.

  lemma IntCarried(m: map<string, Value>, key: string, v: int)
    requires Has(m, key, Int(v))
    ensures Required(m, key, IntKind) && GetInt(m, key) == v
  {
  }

  lemma StrCarried(m: map<string, Value>, key: string, v: string)
    requires Has(m, key, String(v))
    ensures Required(m, key, StrKind) && GetStr(m, key) == v
  {
  }

  lemma BoolCarried(m: map<string, Value>, key: string, v: bool)
    requires Has(m, key, Bool(v))
    ensures Required(m, key, BoolKind) && GetBool(m, key) == v
  {
  }

  lemma AnyCarried(m: map<string, Value>, key: string, v: Value)
    requires Has(m, key, v)
    ensures Required(m, key, AnyKind) && GetAny(m, key) == v
  {
  }

  lemma DateTimeCarried(m: map<string, Value>, key: string, v: DateTime)
    requires Has(m, key, DateTimeValue(v))
    ensures Required(m, key, DateTimeKind) && GetDateTime(m, key) == v
  {
  }

  lemma StrListCarried(m: map<string, Value>, key: string, v: seq<string>)
    requires Has(m, key, StrListValue(v))
    ensures Required(m, key, StrListKind) && GetStrList(m, key) == v
  {
  }

  lemma TextOrDateTimeCarried(m: map<string, Value>, key: string, v: TextOrDateTime)
    requires Has(m, key, TextOrDateTimeValue(v))
    ensures Required(m, key, TextOrDateTimeKind) && GetTextOrDateTime(m, key) == v
  {
  }

  lemma OptStrCarried(m: map<string, Value>, key: string, v: Option<string>)
    requires HasOptional(m, key, OptStrValue(v))
    ensures Optional(m, key, StrKind) && GetOptionalStr(m, key) == v
  {
  }

  lemma OptIntCarried(m: map<string, Value>, key: string, v: Option<int>)
    requires HasOptional(m, key, OptIntValue(v))
    ensures Optional(m, key, IntKind) && GetOptionalInt(m, key) == v
  {
  }

  lemma OptDateTimeCarried(m: map<string, Value>, key: string, v: Option<DateTime>)
    requires HasOptional(m, key, OptDateTimeValue(v))
    ensures Optional(m, key, DateTimeKind) && GetOptionalDateTime(m, key) == v
  {
  }

  lemma OptFloatCarried(m: map<string, Value>, key: string, v: Option<real>)
    requires HasOptional(m, key, OptFloatValue(v))
    ensures Optional(m, key, FloatKind) && GetOptionalFloat(m, key) == v
  {
  }

  lemma OptCodeTextsCarried(m: map<string, Value>, key: string, v: Option<seq<(int, string)>>)
    requires HasOptional(m, key, OptCodeTextsValue(v))
    ensures Optional(m, key, CodeTextListKind) && GetOptionalCodeTexts(m, key) == v
  {
    if v.Some? {
      var items := m[key].items;
      assert forall i :: 0 <= i < |items| ==> items[i] == Array([Int(v.value[i].0), String(v.value[i].1)]);
      assert GetOptionalCodeTexts(m, key).value == v.value;
    }
  }

  lemma OptAnyCarried(m: map<string, Value>, key: string, v: Value)
    requires HasOptional(m, key, v)
    ensures Optional(m, key, AnyKind) && GetOptionalAny(m, key) == v
  {
  }

  /** `m` carries the fields of `x`, each under its key or alias, in the form the API sends it. */
  predicate CarriesActivity(m: map<string, Value>, x: Activity) {
    && Has(m, "id", Int(x.id))
    && Has(m, "url", String(x.url))
    && Has(m, "trap", String(x.trap))
    && Has(m, "trap_name", String(x.trapName))
    && Has(m, "time_stamp", DateTimeValue(x.timeStamp))
    && Has(m, "time_stamp_unix", DateTimeValue(x.timeStampUnix))
    && Has(m, "sequence_number", Int(x.sequenceNumber))
    && Has(m, "activity_type", Int(x.activityType))
    && Has(m, "activity_type_text", String(x.activityTypeText))
    && Has(m, "kills_present", Int(x.killsPresent))
    && Has(m, "total_kills_reported", Int(x.totalKillsReported))
    && Has(m, "battery_level", Int(x.batteryLevel))
    && Has(m, "wireless_network_rssi", Int(x.wirelessNetworkRssi))
    && Has(m, "firmware_version_string", String(x.firmwareVersionString))
    && Has(m, "temperature", Int(x.temperature))
    && Has(m, "board_type", String(x.boardType))
    && Has(m, "error_code", Int(x.errorCode))
    && Has(m, "active", Bool(x.active))
    && Has(m, "isRatKill", Bool(x.isRatKill))
    && Has(m, "sexKillDetail", x.sexKillDetail)
    && Has(m, "ageKillDetail", x.ageKillDetail)
    && Has(m, "speciesKillDetail", x.speciesKillDetail)
    && Has(m, "replacedAttractant", Bool(x.replacedAttractant))
    && Has(m, "replacedBattery", Bool(x.replacedBattery))
    && Has(m, "cleanedTrap", Bool(x.cleanedTrap))
    && HasOptional(m, "note", x.note)
    && HasOptional(m, "site_id", x.siteId)
    && HasOptional(m, "building_id", x.buildingId)
    && HasOptional(m, "floor_id", x.floorId)
    && HasOptional(m, "floor_plan_x", x.floorPlanX)
    && HasOptional(m, "floor_plan_y", x.floorPlanY)
    && Has(m, "trap_type_text", String(x.trapTypeText))
  }

  lemma ActivityCarriedValid(m: map<string, Value>, x: Activity)
    requires CarriesActivity(m, x)
    ensures MatchesActivity(m)
  {
    IntCarried(m, "id", x.id);
    StrCarried(m, "url", x.url);
    StrCarried(m, "trap", x.trap);
    StrCarried(m, "trap_name", x.trapName);
    DateTimeCarried(m, "time_stamp", x.timeStamp);
    DateTimeCarried(m, "time_stamp_unix", x.timeStampUnix);
    IntCarried(m, "sequence_number", x.sequenceNumber);
    IntCarried(m, "activity_type", x.activityType);
    StrCarried(m, "activity_type_text", x.activityTypeText);
    IntCarried(m, "kills_present", x.killsPresent);
    IntCarried(m, "total_kills_reported", x.totalKillsReported);
    IntCarried(m, "battery_level", x.batteryLevel);
    IntCarried(m, "wireless_network_rssi", x.wirelessNetworkRssi);
    StrCarried(m, "firmware_version_string", x.firmwareVersionString);
    IntCarried(m, "temperature", x.temperature);
    StrCarried(m, "board_type", x.boardType);
    IntCarried(m, "error_code", x.errorCode);
    BoolCarried(m, "active", x.active);
    BoolCarried(m, "isRatKill", x.isRatKill);
    AnyCarried(m, "sexKillDetail", x.sexKillDetail);
    AnyCarried(m, "ageKillDetail", x.ageKillDetail);
    AnyCarried(m, "speciesKillDetail", x.speciesKillDetail);
    BoolCarried(m, "replacedAttractant", x.replacedAttractant);
    BoolCarried(m, "replacedBattery", x.replacedBattery);
    BoolCarried(m, "cleanedTrap", x.cleanedTrap);
    OptAnyCarried(m, "note", x.note);
    OptAnyCarried(m, "site_id", x.siteId);
    OptAnyCarried(m, "building_id", x.buildingId);
    OptAnyCarried(m, "floor_id", x.floorId);
    OptAnyCarried(m, "floor_plan_x", x.floorPlanX);
    OptAnyCarried(m, "floor_plan_y", x.floorPlanY);
    StrCarried(m, "trap_type_text", x.trapTypeText);
  }

  lemma ActivityCarriedFields1(m: map<string, Value>, x: Activity)
    requires CarriesActivity(m, x) && MatchesActivity(m)
    ensures DecodeActivity(m).Success?
    ensures DecodeActivity(m).value.id == x.id
    ensures DecodeActivity(m).value.url == x.url
    ensures DecodeActivity(m).value.trap == x.trap
    ensures DecodeActivity(m).value.trapName == x.trapName
    ensures DecodeActivity(m).value.timeStamp == x.timeStamp
    ensures DecodeActivity(m).value.timeStampUnix == x.timeStampUnix
    ensures DecodeActivity(m).value.sequenceNumber == x.sequenceNumber
    ensures DecodeActivity(m).value.activityType == x.activityType
  {
    IntCarried(m, "id", x.id);
    StrCarried(m, "url", x.url);
    StrCarried(m, "trap", x.trap);
    StrCarried(m, "trap_name", x.trapName);
    DateTimeCarried(m, "time_stamp", x.timeStamp);
    DateTimeCarried(m, "time_stamp_unix", x.timeStampUnix);
    IntCarried(m, "sequence_number", x.sequenceNumber);
    IntCarried(m, "activity_type", x.activityType);
  }

  lemma ActivityCarriedFields2(m: map<string, Value>, x: Activity)
    requires CarriesActivity(m, x) && MatchesActivity(m)
    ensures DecodeActivity(m).Success?
    ensures DecodeActivity(m).value.activityTypeText == x.activityTypeText
    ensures DecodeActivity(m).value.killsPresent == x.killsPresent
    ensures DecodeActivity(m).value.totalKillsReported == x.totalKillsReported
    ensures DecodeActivity(m).value.batteryLevel == x.batteryLevel
    ensures DecodeActivity(m).value.wirelessNetworkRssi == x.wirelessNetworkRssi
    ensures DecodeActivity(m).value.firmwareVersionString == x.firmwareVersionString
    ensures DecodeActivity(m).value.temperature == x.temperature
    ensures DecodeActivity(m).value.boardType == x.boardType
  {
    StrCarried(m, "activity_type_text", x.activityTypeText);
    IntCarried(m, "kills_present", x.killsPresent);
    IntCarried(m, "total_kills_reported", x.totalKillsReported);
    IntCarried(m, "battery_level", x.batteryLevel);
    IntCarried(m, "wireless_network_rssi", x.wirelessNetworkRssi);
    StrCarried(m, "firmware_version_string", x.firmwareVersionString);
    IntCarried(m, "temperature", x.temperature);
    StrCarried(m, "board_type", x.boardType);
  }

  lemma ActivityCarriedFields3(m: map<string, Value>, x: Activity)
    requires CarriesActivity(m, x) && MatchesActivity(m)
    ensures DecodeActivity(m).Success?
    ensures DecodeActivity(m).value.errorCode == x.errorCode
    ensures DecodeActivity(m).value.active == x.active
    ensures DecodeActivity(m).value.isRatKill == x.isRatKill
    ensures DecodeActivity(m).value.sexKillDetail == x.sexKillDetail
    ensures DecodeActivity(m).value.ageKillDetail == x.ageKillDetail
    ensures DecodeActivity(m).value.speciesKillDetail == x.speciesKillDetail
    ensures DecodeActivity(m).value.replacedAttractant == x.replacedAttractant
    ensures DecodeActivity(m).value.replacedBattery == x.replacedBattery
  {
    IntCarried(m, "error_code", x.errorCode);
    BoolCarried(m, "active", x.active);
    BoolCarried(m, "isRatKill", x.isRatKill);
    AnyCarried(m, "sexKillDetail", x.sexKillDetail);
    AnyCarried(m, "ageKillDetail", x.ageKillDetail);
    AnyCarried(m, "speciesKillDetail", x.speciesKillDetail);
    BoolCarried(m, "replacedAttractant", x.replacedAttractant);
    BoolCarried(m, "replacedBattery", x.replacedBattery);
  }

  lemma ActivityCarriedFields4(m: map<string, Value>, x: Activity)
    requires CarriesActivity(m, x) && MatchesActivity(m)
    ensures DecodeActivity(m).Success?
    ensures DecodeActivity(m).value.cleanedTrap == x.cleanedTrap
    ensures DecodeActivity(m).value.note == x.note
    ensures DecodeActivity(m).value.siteId == x.siteId
    ensures DecodeActivity(m).value.buildingId == x.buildingId
    ensures DecodeActivity(m).value.floorId == x.floorId
    ensures DecodeActivity(m).value.floorPlanX == x.floorPlanX
    ensures DecodeActivity(m).value.floorPlanY == x.floorPlanY
    ensures DecodeActivity(m).value.trapTypeText == x.trapTypeText
  {
    BoolCarried(m, "cleanedTrap", x.cleanedTrap);
    OptAnyCarried(m, "note", x.note);
    OptAnyCarried(m, "site_id", x.siteId);
    OptAnyCarried(m, "building_id", x.buildingId);
    OptAnyCarried(m, "floor_id", x.floorId);
    OptAnyCarried(m, "floor_plan_x", x.floorPlanX);
    OptAnyCarried(m, "floor_plan_y", x.floorPlanY);
    StrCarried(m, "trap_type_text", x.trapTypeText);
  }

  /** Keyword arguments that carry the fields of `x` decode to `x`, whatever other keys they hold. */
  lemma {:induction false} DecodeActivityCarried(m: map<string, Value>, x: Activity)
    requires CarriesActivity(m, x)
    ensures DecodeActivity(m) == Success(x)
  {
    ActivityCarriedValid(m, x);
    ActivityCarriedFields1(m, x);
    ActivityCarriedFields2(m, x);
    ActivityCarriedFields3(m, x);
    ActivityCarriedFields4(m, x);
  }

  /** `m` carries the fields of `x`, each under its key or alias, in the form the API sends it. */
  predicate CarriesMobileApp(m: map<string, Value>, x: MobileApp) {
    && Has(m, "url", String(x.url))
    && Has(m, "min_android_version", Int(x.minAndroidVersion))
    && Has(m, "ideal_android_version", Int(x.idealAndroidVersion))
    && Has(m, "min_ios_version", String(x.minIosVersion))
    && Has(m, "ideal_ios_version", String(x.idealIosVersion))
    && Has(m, "commercial_min_android_version", Int(x.commercialMinAndroidVersion))
    && Has(m, "commercial_ideal_android_version", Int(x.commercialIdealAndroidVersion))
    && Has(m, "commercial_min_ios_version", String(x.commercialMinIosVersion))
    && Has(m, "commercial_ideal_ios_version", String(x.commercialIdealIosVersion))
  }

  /** Keyword arguments that carry the fields of `x` decode to `x`, whatever other keys they hold. */
  lemma {:induction false} DecodeMobileAppCarried(m: map<string, Value>, x: MobileApp)
    requires CarriesMobileApp(m, x)
    ensures DecodeMobileApp(m) == Success(x)
  {
    StrCarried(m, "url", x.url);
    IntCarried(m, "min_android_version", x.minAndroidVersion);
    IntCarried(m, "ideal_android_version", x.idealAndroidVersion);
    StrCarried(m, "min_ios_version", x.minIosVersion);
    StrCarried(m, "ideal_ios_version", x.idealIosVersion);
    IntCarried(m, "commercial_min_android_version", x.commercialMinAndroidVersion);
    IntCarried(m, "commercial_ideal_android_version", x.commercialIdealAndroidVersion);
    StrCarried(m, "commercial_min_ios_version", x.commercialMinIosVersion);
    StrCarried(m, "commercial_ideal_ios_version", x.commercialIdealIosVersion);
  }

  /** A list field of `ProfileTermsAndConditions` records, carried in canonical form, is valid and reads back as given. */
  lemma ProfileTermsAndConditionsListCarried(m: map<string, Value>, key: string, xs: Option<seq<ProfileTermsAndConditions>>)
    requires HasRecords(m, key, xs, CarriesProfileTermsAndConditions)
    ensures OptionalRecords(m, key, MatchesProfileTermsAndConditions)
    ensures GetRecords(m, key, DecodeProfileTermsAndConditions) == xs
  {
    if xs.Some? {
      var items := m[key].items;
      forall i | 0 <= i < |items|
        ensures DecodeProfileTermsAndConditions(items[i].fields) == Success(xs.value[i])
      {
        assert CarriesProfileTermsAndConditions(items[i].fields, xs.value[i]);
        DecodeProfileTermsAndConditionsCarried(items[i].fields, xs.value[i]);
      }
      assert GetRecords(m, key, DecodeProfileTermsAndConditions).value == xs.value;
    }
  }

  /** `m` carries the fields of `x`, each under its key or alias, in the form the API sends it. */
  predicate CarriesProfileTermsAndConditions(m: map<string, Value>, x: ProfileTermsAndConditions) {
    && Has(m, "id", Int(x.id))
    && Has(m, "time_stamp", DateTimeValue(x.timeStamp))
    && Has(m, "profile_id", Int(x.profileId))
    && Has(m, "term_id", Int(x.termId))
    && Has(m, "terms_version", String(x.termsVersion))
  }

  /** Keyword arguments that carry the fields of `x` decode to `x`, whatever other keys they hold. */
  lemma {:induction false} DecodeProfileTermsAndConditionsCarried(m: map<string, Value>, x: ProfileTermsAndConditions)
    requires CarriesProfileTermsAndConditions(m, x)
    ensures DecodeProfileTermsAndConditions(m) == Success(x)
  {
    IntCarried(m, "id", x.id);
    DateTimeCarried(m, "time_stamp", x.timeStamp);
    IntCarried(m, "profile_id", x.profileId);
    IntCarried(m, "term_id", x.termId);
    StrCarried(m, "terms_version", x.termsVersion);
  }

  /** `m` carries the fields of `x`, each under its key or alias, in the form the API sends it. */
  predicate CarriesProfile(m: map<string, Value>, x: Profile) {
    && Has(m, "id", Int(x.id))
    && Has(m, "url", String(x.url))
    && Has(m, "user", String(x.user))
    && HasOptional(m, "name", OptStrValue(x.name))
    && HasOptional(m, "operator", OptStrValue(x.operator))
    && HasOptional(m, "operator_name", OptStrValue(x.operatorName))
    && HasOptional(m, "client", OptStrValue(x.client))
    && HasOptional(m, "client_name", OptStrValue(x.clientName))
    && HasOptional(m, "telephone_number", OptStrValue(x.telephoneNumber))
    && Has(m, "phoneNames", x.phoneNames)
    && Has(m, "phoneNumbers", x.phoneNumbers)
    && Has(m, "emailAddresses", x.emailAddresses)
    && Has(m, "email_notifications_enabled", Bool(x.emailNotificationsEnabled))
    && Has(m, "notifications_enabled", Bool(x.notificationsEnabled))
    && Has(m, "terms_version", Int(x.termsVersion))
    && Has(m, "notify_wifi_connection", Bool(x.notifyWifiConnection))
    && Has(m, "notify_low_battery", Bool(x.notifyLowBattery))
    && Has(m, "notify_kill_alerts", Bool(x.notifyKillAlerts))
    && Has(m, "notify_new_products", Bool(x.notifyNewProducts))
    && Has(m, "text_notifications_enabled", Bool(x.textNotificationsEnabled))
    && Has(m, "notify_empty_trap", Bool(x.notifyEmptyTrap))
    && Has(m, "fcmTokens", x.fcmTokens)
    && Has(m, "apnsTokens", x.apnsTokens)
    && Has(m, "fcmARNs", x.fcmArns)
    && Has(m, "apnsARNs", x.apnsArns)
    && Has(m, "fcmTokensPro", x.fcmTokensPro)
    && Has(m, "apnsTokensPro", x.apnsTokensPro)
    && Has(m, "fcmARNsPro", x.fcmArnsPro)
    && Has(m, "apnsARNsPro", x.apnsArnsPro)
    && HasOptional(m, "favorite_sites", x.favoriteSites)
    && Has(m, "notify_false_trigger", Bool(x.notifyFalseTrigger))
    && HasRecords(m, "accepted_terms_and_conditions", x.acceptedTermsAndConditions, CarriesProfileTermsAndConditions)
  }

  lemma ProfileCarriedValid(m: map<string, Value>, x: Profile)
    requires CarriesProfile(m, x)
    ensures MatchesProfile(m)
  {
    IntCarried(m, "id", x.id);
    StrCarried(m, "url", x.url);
    StrCarried(m, "user", x.user);
    OptStrCarried(m, "name", x.name);
    OptStrCarried(m, "operator", x.operator);
    OptStrCarried(m, "operator_name", x.operatorName);
    OptStrCarried(m, "client", x.client);
    OptStrCarried(m, "client_name", x.clientName);
    OptStrCarried(m, "telephone_number", x.telephoneNumber);
    AnyCarried(m, "phoneNames", x.phoneNames);
    AnyCarried(m, "phoneNumbers", x.phoneNumbers);
    AnyCarried(m, "emailAddresses", x.emailAddresses);
    BoolCarried(m, "email_notifications_enabled", x.emailNotificationsEnabled);
    BoolCarried(m, "notifications_enabled", x.notificationsEnabled);
    IntCarried(m, "terms_version", x.termsVersion);
    BoolCarried(m, "notify_wifi_connection", x.notifyWifiConnection);
    BoolCarried(m, "notify_low_battery", x.notifyLowBattery);
    BoolCarried(m, "notify_kill_alerts", x.notifyKillAlerts);
    BoolCarried(m, "notify_new_products", x.notifyNewProducts);
    BoolCarried(m, "text_notifications_enabled", x.textNotificationsEnabled);
    BoolCarried(m, "notify_empty_trap", x.notifyEmptyTrap);
    AnyCarried(m, "fcmTokens", x.fcmTokens);
    AnyCarried(m, "apnsTokens", x.apnsTokens);
    AnyCarried(m, "fcmARNs", x.fcmArns);
    AnyCarried(m, "apnsARNs", x.apnsArns);
    AnyCarried(m, "fcmTokensPro", x.fcmTokensPro);
    AnyCarried(m, "apnsTokensPro", x.apnsTokensPro);
    AnyCarried(m, "fcmARNsPro", x.fcmArnsPro);
    AnyCarried(m, "apnsARNsPro", x.apnsArnsPro);
    OptAnyCarried(m, "favorite_sites", x.favoriteSites);
    BoolCarried(m, "notify_false_trigger", x.notifyFalseTrigger);
    ProfileTermsAndConditionsListCarried(m, "accepted_terms_and_conditions", x.acceptedTermsAndConditions);
  }

  lemma ProfileCarriedFields1(m: map<string, Value>, x: Profile)
    requires CarriesProfile(m, x) && MatchesProfile(m)
    ensures DecodeProfile(m).Success?
    ensures DecodeProfile(m).value.id == x.id
    ensures DecodeProfile(m).value.url == x.url
    ensures DecodeProfile(m).value.user == x.user
    ensures DecodeProfile(m).value.name == x.name
    ensures DecodeProfile(m).value.operator == x.operator
    ensures DecodeProfile(m).value.operatorName == x.operatorName
    ensures DecodeProfile(m).value.client == x.client
    ensures DecodeProfile(m).value.clientName == x.clientName
  {
    IntCarried(m, "id", x.id);
    StrCarried(m, "url", x.url);
    StrCarried(m, "user", x.user);
    OptStrCarried(m, "name", x.name);
    OptStrCarried(m, "operator", x.operator);
    OptStrCarried(m, "operator_name", x.operatorName);
    OptStrCarried(m, "client", x.client);
    OptStrCarried(m, "client_name", x.clientName);
  }

  lemma ProfileCarriedFields2(m: map<string, Value>, x: Profile)
    requires CarriesProfile(m, x) && MatchesProfile(m)
    ensures DecodeProfile(m).Success?
    ensures DecodeProfile(m).value.telephoneNumber == x.telephoneNumber
    ensures DecodeProfile(m).value.phoneNames == x.phoneNames
    ensures DecodeProfile(m).value.phoneNumbers == x.phoneNumbers
    ensures DecodeProfile(m).value.emailAddresses == x.emailAddresses
    ensures DecodeProfile(m).value.emailNotificationsEnabled == x.emailNotificationsEnabled
    ensures DecodeProfile(m).value.notificationsEnabled == x.notificationsEnabled
    ensures DecodeProfile(m).value.termsVersion == x.termsVersion
    ensures DecodeProfile(m).value.notifyWifiConnection == x.notifyWifiConnection
  {
    OptStrCarried(m, "telephone_number", x.telephoneNumber);
    AnyCarried(m, "phoneNames", x.phoneNames);
    AnyCarried(m, "phoneNumbers", x.phoneNumbers);
    AnyCarried(m, "emailAddresses", x.emailAddresses);
    BoolCarried(m, "email_notifications_enabled", x.emailNotificationsEnabled);
    BoolCarried(m, "notifications_enabled", x.notificationsEnabled);
    IntCarried(m, "terms_version", x.termsVersion);
    BoolCarried(m, "notify_wifi_connection", x.notifyWifiConnection);
  }

  lemma ProfileCarriedFields3(m: map<string, Value>, x: Profile)
    requires CarriesProfile(m, x) && MatchesProfile(m)
    ensures DecodeProfile(m).Success?
    ensures DecodeProfile(m).value.notifyLowBattery == x.notifyLowBattery
    ensures DecodeProfile(m).value.notifyKillAlerts == x.notifyKillAlerts
    ensures DecodeProfile(m).value.notifyNewProducts == x.notifyNewProducts
    ensures DecodeProfile(m).value.textNotificationsEnabled == x.textNotificationsEnabled
    ensures DecodeProfile(m).value.notifyEmptyTrap == x.notifyEmptyTrap
    ensures DecodeProfile(m).value.fcmTokens == x.fcmTokens
    ensures DecodeProfile(m).value.apnsTokens == x.apnsTokens
    ensures DecodeProfile(m).value.fcmArns == x.fcmArns
  {
    BoolCarried(m, "notify_low_battery", x.notifyLowBattery);
    BoolCarried(m, "notify_kill_alerts", x.notifyKillAlerts);
    BoolCarried(m, "notify_new_products", x.notifyNewProducts);
    BoolCarried(m, "text_notifications_enabled", x.textNotificationsEnabled);
    BoolCarried(m, "notify_empty_trap", x.notifyEmptyTrap);
    AnyCarried(m, "fcmTokens", x.fcmTokens);
    AnyCarried(m, "apnsTokens", x.apnsTokens);
    AnyCarried(m, "fcmARNs", x.fcmArns);
  }

  lemma ProfileCarriedFields4(m: map<string, Value>, x: Profile)
    requires CarriesProfile(m, x) && MatchesProfile(m)
    ensures DecodeProfile(m).Success?
    ensures DecodeProfile(m).value.apnsArns == x.apnsArns
    ensures DecodeProfile(m).value.fcmTokensPro == x.fcmTokensPro
    ensures DecodeProfile(m).value.apnsTokensPro == x.apnsTokensPro
    ensures DecodeProfile(m).value.fcmArnsPro == x.fcmArnsPro
    ensures DecodeProfile(m).value.apnsArnsPro == x.apnsArnsPro
    ensures DecodeProfile(m).value.favoriteSites == x.favoriteSites
    ensures DecodeProfile(m).value.notifyFalseTrigger == x.notifyFalseTrigger
    ensures DecodeProfile(m).value.acceptedTermsAndConditions == x.acceptedTermsAndConditions
  {
    AnyCarried(m, "apnsARNs", x.apnsArns);
    AnyCarried(m, "fcmTokensPro", x.fcmTokensPro);
    AnyCarried(m, "apnsTokensPro", x.apnsTokensPro);
    AnyCarried(m, "fcmARNsPro", x.fcmArnsPro);
    AnyCarried(m, "apnsARNsPro", x.apnsArnsPro);
    OptAnyCarried(m, "favorite_sites", x.favoriteSites);
    BoolCarried(m, "notify_false_trigger", x.notifyFalseTrigger);
    ProfileTermsAndConditionsListCarried(m, "accepted_terms_and_conditions", x.acceptedTermsAndConditions);
  }

  /** Keyword arguments that carry the fields of `x` decode to `x`, whatever other keys they hold. */
  lemma {:induction false} DecodeProfileCarried(m: map<string, Value>, x: Profile)
    requires CarriesProfile(m, x)
    ensures DecodeProfile(m) == Success(x)
  {
    ProfileCarriedValid(m, x);
    ProfileCarriedFields1(m, x);
    ProfileCarriedFields2(m, x);
    ProfileCarriedFields3(m, x);
    ProfileCarriedFields4(m, x);
  }

  /** `m` carries the fields of `x`, each under its key or alias, in the form the API sends it. */
  predicate CarriesUser(m: map<string, Value>, x: User) {
    && Has(m, "id", Int(x.id))
    && Has(m, "url", String(x.url))
    && Has(m, "username", String(x.username))
    && HasOptional(m, "password", OptStrValue(x.password))
    && Has(m, "email", String(x.email))
    && Has(m, "groups", StrListValue(x.groups))
    && Has(m, "group_names", StrListValue(x.groupNames))
    && Has(m, "date_joined", DateTimeValue(x.dateJoined))
    && Has(m, "last_login", DateTimeValue(x.lastLogin))
    && Has(m, "first_name", String(x.firstName))
    && Has(m, "last_name", String(x.lastName))
    && HasRecord(m, "profile", x.profile, CarriesProfile)
  }

  /** Keyword arguments that carry the fields of `x` decode to `x`, whatever other keys they hold. */
  lemma {:induction false} DecodeUserCarried(m: map<string, Value>, x: User)
    requires CarriesUser(m, x)
    ensures DecodeUser(m) == Success(x)
  {
    IntCarried(m, "id", x.id);
    StrCarried(m, "url", x.url);
    StrCarried(m, "username", x.username);
    OptStrCarried(m, "password", x.password);
    StrCarried(m, "email", x.email);
    StrListCarried(m, "groups", x.groups);
    StrListCarried(m, "group_names", x.groupNames);
    DateTimeCarried(m, "date_joined", x.dateJoined);
    DateTimeCarried(m, "last_login", x.lastLogin);
    StrCarried(m, "first_name", x.firstName);
    StrCarried(m, "last_name", x.lastName);
    DecodeProfileCarried(m["profile"].fields, x.profile);
  }

  /** A list field of `OperatorTermsAndConditions` records, carried in canonical form, is valid and reads back as given. */
  lemma OperatorTermsAndConditionsListCarried(m: map<string, Value>, key: string, xs: Option<seq<OperatorTermsAndConditions>>)
    requires HasRecords(m, key, xs, CarriesOperatorTermsAndConditions)
    ensures OptionalRecords(m, key, MatchesOperatorTermsAndConditions)
    ensures GetRecords(m, key, DecodeOperatorTermsAndConditions) == xs
  {
    if xs.Some? {
      var items := m[key].items;
      forall i | 0 <= i < |items|
        ensures DecodeOperatorTermsAndConditions(items[i].fields) == Success(xs.value[i])
      {
        assert CarriesOperatorTermsAndConditions(items[i].fields, xs.value[i]);
        DecodeOperatorTermsAndConditionsCarried(items[i].fields, xs.value[i]);
      }
      assert GetRecords(m, key, DecodeOperatorTermsAndConditions).value == xs.value;
    }
  }

  /** `m` carries the fields of `x`, each under its key or alias, in the form the API sends it. */
  predicate CarriesOperatorTermsAndConditions(m: map<string, Value>, x: OperatorTermsAndConditions) {
    && Has(m, "id", Int(x.id))
    && Has(m, "operator_id", Int(x.operatorId))
    && Has(m, "time_stamp", DateTimeValue(x.timeStamp))
    && Has(m, "terms_and_conditions", String(x.termsAndConditions))
    && Has(m, "terms_version", String(x.termsVersion))
  }

  /** Keyword arguments that carry the fields of `x` decode to `x`, whatever other keys they hold. */
  lemma {:induction false} DecodeOperatorTermsAndConditionsCarried(m: map<string, Value>, x: OperatorTermsAndConditions)
    requires CarriesOperatorTermsAndConditions(m, x)
    ensures DecodeOperatorTermsAndConditions(m) == Success(x)
  {
    IntCarried(m, "id", x.id);
    IntCarried(m, "operator_id", x.operatorId);
    DateTimeCarried(m, "time_stamp", x.timeStamp);
    StrCarried(m, "terms_and_conditions", x.termsAndConditions);
    StrCarried(m, "terms_version", x.termsVersion);
  }

  /** `m` carries the fields of `x`, each under its key or alias, in the form the API sends it. */
  predicate CarriesOperator(m: map<string, Value>, x: Operator) {
    && Has(m, "id", Int(x.id))
    && Has(m, "url", String(x.url))
    && Has(m, "account_number", String(x.accountNumber))
    && Has(m, "name", String(x.name))
    && Has(m, "address", String(x.address))
    && Has(m, "type", Int(x.operatorType))
    && Has(m, "number_sites", Int(x.numberSites))
    && Has(m, "number_buildings", Int(x.numberBuildings))
    && Has(m, "number_traps", Int(x.numberTraps))
    && Has(m, "terms_version", Int(x.termsVersion))
    && Has(m, "terms", String(x.terms))
    && HasRecord(m, "contact", x.contact, CarriesUser)
    && HasRecords(m, "terms_and_conditions", x.termsAndConditions, CarriesOperatorTermsAndConditions)
  }

  lemma OperatorCarriedValid(m: map<string, Value>, x: Operator)
    requires CarriesOperator(m, x)
    ensures MatchesOperator(m)
  {
    IntCarried(m, "id", x.id);
    StrCarried(m, "url", x.url);
    StrCarried(m, "account_number", x.accountNumber);
    StrCarried(m, "name", x.name);
    StrCarried(m, "address", x.address);
    IntCarried(m, "type", x.operatorType);
    IntCarried(m, "number_sites", x.numberSites);
    IntCarried(m, "number_buildings", x.numberBuildings);
    IntCarried(m, "number_traps", x.numberTraps);
    IntCarried(m, "terms_version", x.termsVersion);
    StrCarried(m, "terms", x.terms);
    DecodeUserCarried(m["contact"].fields, x.contact);
    OperatorTermsAndConditionsListCarried(m, "terms_and_conditions", x.termsAndConditions);
  }

  lemma OperatorCarriedFields1(m: map<string, Value>, x: Operator)
    requires CarriesOperator(m, x) && MatchesOperator(m)
    ensures DecodeOperator(m).Success?
    ensures DecodeOperator(m).value.id == x.id
    ensures DecodeOperator(m).value.url == x.url
    ensures DecodeOperator(m).value.accountNumber == x.accountNumber
    ensures DecodeOperator(m).value.name == x.name
    ensures DecodeOperator(m).value.address == x.address
    ensures DecodeOperator(m).value.operatorType == x.operatorType
    ensures DecodeOperator(m).value.numberSites == x.numberSites
    ensures DecodeOperator(m).value.numberBuildings == x.numberBuildings
  {
    IntCarried(m, "id", x.id);
    StrCarried(m, "url", x.url);
    StrCarried(m, "account_number", x.accountNumber);
    StrCarried(m, "name", x.name);
    StrCarried(m, "address", x.address);
    IntCarried(m, "type", x.operatorType);
    IntCarried(m, "number_sites", x.numberSites);
    IntCarried(m, "number_buildings", x.numberBuildings);
  }

  lemma OperatorCarriedFields2(m: map<string, Value>, x: Operator)
    requires CarriesOperator(m, x) && MatchesOperator(m)
    ensures DecodeOperator(m).Success?
    ensures DecodeOperator(m).value.numberTraps == x.numberTraps
    ensures DecodeOperator(m).value.termsVersion == x.termsVersion
    ensures DecodeOperator(m).value.terms == x.terms
    ensures DecodeOperator(m).value.contact == x.contact
    ensures DecodeOperator(m).value.termsAndConditions == x.termsAndConditions
  {
    IntCarried(m, "number_traps", x.numberTraps);
    IntCarried(m, "terms_version", x.termsVersion);
    StrCarried(m, "terms", x.terms);
    DecodeUserCarried(m["contact"].fields, x.contact);
    OperatorTermsAndConditionsListCarried(m, "terms_and_conditions", x.termsAndConditions);
  }

  /** Keyword arguments that carry the fields of `x` decode to `x`, whatever other keys they hold. */
  lemma {:induction false} DecodeOperatorCarried(m: map<string, Value>, x: Operator)
    requires CarriesOperator(m, x)
    ensures DecodeOperator(m) == Success(x)
  {
    OperatorCarriedValid(m, x);
    OperatorCarriedFields1(m, x);
    OperatorCarriedFields2(m, x);
  }

  /** `m` carries the fields of `x`, each under its key or alias, in the form the API sends it. */
  predicate CarriesTrapStatistics(m: map<string, Value>, x: TrapStatistics) {
    && Has(m, "id", Int(x.id))
    && Has(m, "url", String(x.url))
    && Has(m, "trap", String(x.trap))
    && Has(m, "trap_name", String(x.trapName))
    && Has(m, "kills_present", Int(x.killsPresent))
    && HasOptional(m, "install_date", OptDateTimeValue(x.installDate))
    && Has(m, "owner_name", String(x.ownerName))
    && Has(m, "owner_email", String(x.ownerEmail))
    && Has(m, "last_report_date", DateTimeValue(x.lastReportDate))
    && HasOptional(m, "last_kill_date", OptDateTimeValue(x.lastKillDate))
    && HasOptional(m, "temperature", OptIntValue(x.temperature))
    && Has(m, "battery_level", Int(x.batteryLevel))
    && HasOptional(m, "total_kills", OptIntValue(x.totalKills))
    && HasOptional(m, "total_escapes", OptIntValue(x.totalEscapes))
    && Has(m, "rx_power_level", Int(x.rxPowerLevel))
    && Has(m, "firmware_version", String(x.firmwareVersion))
    && Has(m, "trap_provisioned", Bool(x.trapProvisioned))
    && HasOptional(m, "last_sequence_number", OptIntValue(x.lastSequenceNumber))
    && HasOptional(m, "total_retreats", OptIntValue(x.totalRetreats))
    && Has(m, "wireless_network_rssi", Int(x.wirelessNetworkRssi))
    && Has(m, "error_code", Int(x.errorCode))
    && Has(m, "send_conn_lost_nt", Bool(x.sendConnLostNt))
    && Has(m, "send_empty_trap_nt", Bool(x.sendEmptyTrapNt))
    && Has(m, "board_type", String(x.boardType))
    && Has(m, "last_maintenance_date", TextOrDateTimeValue(x.lastMaintenanceDate))
    && HasOptional(m, "bait_level", x.baitLevel)
    && HasOptional(m, "current_bait", x.currentBait)
    && HasOptional(m, "last_bait_quantity", OptIntValue(x.lastBaitQuantity))
  }

  lemma TrapStatisticsCarriedValid(m: map<string, Value>, x: TrapStatistics)
    requires CarriesTrapStatistics(m, x)
    ensures MatchesTrapStatistics(m)
  {
    IntCarried(m, "id", x.id);
    StrCarried(m, "url", x.url);
    StrCarried(m, "trap", x.trap);
    StrCarried(m, "trap_name", x.trapName);
    IntCarried(m, "kills_present", x.killsPresent);
    OptDateTimeCarried(m, "install_date", x.installDate);
    StrCarried(m, "owner_name", x.ownerName);
    StrCarried(m, "owner_email", x.ownerEmail);
    DateTimeCarried(m, "last_report_date", x.lastReportDate);
    OptDateTimeCarried(m, "last_kill_date", x.lastKillDate);
    OptIntCarried(m, "temperature", x.temperature);
    IntCarried(m, "battery_level", x.batteryLevel);
    OptIntCarried(m, "total_kills", x.totalKills);
    OptIntCarried(m, "total_escapes", x.totalEscapes);
    IntCarried(m, "rx_power_level", x.rxPowerLevel);
    StrCarried(m, "firmware_version", x.firmwareVersion);
    BoolCarried(m, "trap_provisioned", x.trapProvisioned);
    OptIntCarried(m, "last_sequence_number", x.lastSequenceNumber);
    OptIntCarried(m, "total_retreats", x.totalRetreats);
    IntCarried(m, "wireless_network_rssi", x.wirelessNetworkRssi);
    IntCarried(m, "error_code", x.errorCode);
    BoolCarried(m, "send_conn_lost_nt", x.sendConnLostNt);
    BoolCarried(m, "send_empty_trap_nt", x.sendEmptyTrapNt);
    StrCarried(m, "board_type", x.boardType);
    TextOrDateTimeCarried(m, "last_maintenance_date", x.lastMaintenanceDate);
    OptAnyCarried(m, "bait_level", x.baitLevel);
    OptAnyCarried(m, "current_bait", x.currentBait);
    OptIntCarried(m, "last_bait_quantity", x.lastBaitQuantity);
  }

  lemma TrapStatisticsCarriedFields1(m: map<string, Value>, x: TrapStatistics)
    requires CarriesTrapStatistics(m, x) && MatchesTrapStatistics(m)
    ensures DecodeTrapStatistics(m).Success?
    ensures DecodeTrapStatistics(m).value.id == x.id
    ensures DecodeTrapStatistics(m).value.url == x.url
    ensures DecodeTrapStatistics(m).value.trap == x.trap
    ensures DecodeTrapStatistics(m).value.trapName == x.trapName
    ensures DecodeTrapStatistics(m).value.killsPresent == x.killsPresent
    ensures DecodeTrapStatistics(m).value.installDate == x.installDate
    ensures DecodeTrapStatistics(m).value.ownerName == x.ownerName
    ensures DecodeTrapStatistics(m).value.ownerEmail == x.ownerEmail
  {
    IntCarried(m, "id", x.id);
    StrCarried(m, "url", x.url);
    StrCarried(m, "trap", x.trap);
    StrCarried(m, "trap_name", x.trapName);
    IntCarried(m, "kills_present", x.killsPresent);
    OptDateTimeCarried(m, "install_date", x.installDate);
    StrCarried(m, "owner_name", x.ownerName);
    StrCarried(m, "owner_email", x.ownerEmail);
  }

  lemma TrapStatisticsCarriedFields2(m: map<string, Value>, x: TrapStatistics)
    requires CarriesTrapStatistics(m, x) && MatchesTrapStatistics(m)
    ensures DecodeTrapStatistics(m).Success?
    ensures DecodeTrapStatistics(m).value.lastReportDate == x.lastReportDate
    ensures DecodeTrapStatistics(m).value.lastKillDate == x.lastKillDate
    ensures DecodeTrapStatistics(m).value.temperature == x.temperature
    ensures DecodeTrapStatistics(m).value.batteryLevel == x.batteryLevel
    ensures DecodeTrapStatistics(m).value.totalKills == x.totalKills
    ensures DecodeTrapStatistics(m).value.totalEscapes == x.totalEscapes
    ensures DecodeTrapStatistics(m).value.rxPowerLevel == x.rxPowerLevel
    ensures DecodeTrapStatistics(m).value.firmwareVersion == x.firmwareVersion
  {
    DateTimeCarried(m, "last_report_date", x.lastReportDate);
    OptDateTimeCarried(m, "last_kill_date", x.lastKillDate);
    OptIntCarried(m, "temperature", x.temperature);
    IntCarried(m, "battery_level", x.batteryLevel);
    OptIntCarried(m, "total_kills", x.totalKills);
    OptIntCarried(m, "total_escapes", x.totalEscapes);
    IntCarried(m, "rx_power_level", x.rxPowerLevel);
    StrCarried(m, "firmware_version", x.firmwareVersion);
  }

  lemma TrapStatisticsCarriedFields3(m: map<string, Value>, x: TrapStatistics)
    requires CarriesTrapStatistics(m, x) && MatchesTrapStatistics(m)
    ensures DecodeTrapStatistics(m).Success?
    ensures DecodeTrapStatistics(m).value.trapProvisioned == x.trapProvisioned
    ensures DecodeTrapStatistics(m).value.lastSequenceNumber == x.lastSequenceNumber
    ensures DecodeTrapStatistics(m).value.totalRetreats == x.totalRetreats
    ensures DecodeTrapStatistics(m).value.wirelessNetworkRssi == x.wirelessNetworkRssi
    ensures DecodeTrapStatistics(m).value.errorCode == x.errorCode
    ensures DecodeTrapStatistics(m).value.sendConnLostNt == x.sendConnLostNt
    ensures DecodeTrapStatistics(m).value.sendEmptyTrapNt == x.sendEmptyTrapNt
    ensures DecodeTrapStatistics(m).value.boardType == x.boardType
  {
    BoolCarried(m, "trap_provisioned", x.trapProvisioned);
    OptIntCarried(m, "last_sequence_number", x.lastSequenceNumber);
    OptIntCarried(m, "total_retreats", x.totalRetreats);
    IntCarried(m, "wireless_network_rssi", x.wirelessNetworkRssi);
    IntCarried(m, "error_code", x.errorCode);
    BoolCarried(m, "send_conn_lost_nt", x.sendConnLostNt);
    BoolCarried(m, "send_empty_trap_nt", x.sendEmptyTrapNt);
    StrCarried(m, "board_type", x.boardType);
  }

  lemma TrapStatisticsCarriedFields4(m: map<string, Value>, x: TrapStatistics)
    requires CarriesTrapStatistics(m, x) && MatchesTrapStatistics(m)
    ensures DecodeTrapStatistics(m).Success?
    ensures DecodeTrapStatistics(m).value.lastMaintenanceDate == x.lastMaintenanceDate
    ensures DecodeTrapStatistics(m).value.baitLevel == x.baitLevel
    ensures DecodeTrapStatistics(m).value.currentBait == x.currentBait
    ensures DecodeTrapStatistics(m).value.lastBaitQuantity == x.lastBaitQuantity
  {
    TextOrDateTimeCarried(m, "last_maintenance_date", x.lastMaintenanceDate);
    OptAnyCarried(m, "bait_level", x.baitLevel);
    OptAnyCarried(m, "current_bait", x.currentBait);
    OptIntCarried(m, "last_bait_quantity", x.lastBaitQuantity);
  }

  /** Keyword arguments that carry the fields of `x` decode to `x`, whatever other keys they hold. */
  lemma {:induction false} DecodeTrapStatisticsCarried(m: map<string, Value>, x: TrapStatistics)
    requires CarriesTrapStatistics(m, x)
    ensures DecodeTrapStatistics(m) == Success(x)
  {
    TrapStatisticsCarriedValid(m, x);
    TrapStatisticsCarriedFields1(m, x);
    TrapStatisticsCarriedFields2(m, x);
    TrapStatisticsCarriedFields3(m, x);
    TrapStatisticsCarriedFields4(m, x);
  }

  /** `m` carries the fields of `x`, each under its key or alias, in the form the API sends it. */
  predicate CarriesTrap(m: map<string, Value>, x: Trap) {
    && Has(m, "id", Int(x.id))
    && Has(m, "url", String(x.url))
    && Has(m, "corruption_status", Int(x.corruptionStatus))
    && HasOptional(m, "corruption_status_options", OptCodeTextsValue(x.corruptionStatusOptions))
    && HasOptional(m, "operator", OptStrValue(x.operator))
    && HasOptional(m, "operator_name", OptStrValue(x.operatorName))
    && Has(m, "name", String(x.name))
    && Has(m, "ssid", String(x.ssid))
    && Has(m, "serial_number", String(x.serialNumber))
    && Has(m, "auto_upgrade", Bool(x.autoUpgrade))
    && Has(m, "status", Int(x.status))
    && HasOptional(m, "location", OptStrValue(x.location))
    && HasOptional(m, "lat", OptFloatValue(x.lat))
    && HasOptional(m, "long", OptFloatValue(x.long))
    && HasOptional(m, "upgrade_firmware", OptStrValue(x.upgradeFirmware))
    && HasOptional(m, "commercial_gateway", OptStrValue(x.commercialGateway))
    && Has(m, "commercial_monitor_mode_enabled", Bool(x.commercialMonitorModeEnabled))
    && Has(m, "lorawan_app_key", String(x.lorawanAppKey))
    && HasOptional(m, "site_name", OptStrValue(x.siteName))
    && HasOptional(m, "floor_plan_x", OptIntValue(x.floorPlanX))
    && HasOptional(m, "floor_plan_y", OptIntValue(x.floorPlanY))
    && HasOptional(m, "building_name", OptStrValue(x.buildingName))
    && HasOptional(m, "floor_name", OptStrValue(x.floorName))
    && HasOptional(m, "room", OptStrValue(x.room))
    && HasOptional(m, "room_name", OptStrValue(x.roomName))
    && Has(m, "trap_type", Int(x.trapType))
    && Has(m, "trap_type_verbose", String(x.trapTypeVerbose))
    && Has(m, "alerts", Int(x.alerts))
    && HasRecord(m, "trapstatistics", x.trapstatistics, CarriesTrapStatistics)
  }

  lemma TrapCarriedValid(m: map<string, Value>, x: Trap)
    requires CarriesTrap(m, x)
    ensures MatchesTrap(m)
  {
    IntCarried(m, "id", x.id);
    StrCarried(m, "url", x.url);
    IntCarried(m, "corruption_status", x.corruptionStatus);
    OptCodeTextsCarried(m, "corruption_status_options", x.corruptionStatusOptions);
    OptStrCarried(m, "operator", x.operator);
    OptStrCarried(m, "operator_name", x.operatorName);
    StrCarried(m, "name", x.name);
    StrCarried(m, "ssid", x.ssid);
    StrCarried(m, "serial_number", x.serialNumber);
    BoolCarried(m, "auto_upgrade", x.autoUpgrade);
    IntCarried(m, "status", x.status);
    OptStrCarried(m, "location", x.location);
    OptFloatCarried(m, "lat", x.lat);
    OptFloatCarried(m, "long", x.long);
    OptStrCarried(m, "upgrade_firmware", x.upgradeFirmware);
    OptStrCarried(m, "commercial_gateway", x.commercialGateway);
    BoolCarried(m, "commercial_monitor_mode_enabled", x.commercialMonitorModeEnabled);
    StrCarried(m, "lorawan_app_key", x.lorawanAppKey);
    OptStrCarried(m, "site_name", x.siteName);
    OptIntCarried(m, "floor_plan_x", x.floorPlanX);
    OptIntCarried(m, "floor_plan_y", x.floorPlanY);
    OptStrCarried(m, "building_name", x.buildingName);
    OptStrCarried(m, "floor_name", x.floorName);
    OptStrCarried(m, "room", x.room);
    OptStrCarried(m, "room_name", x.roomName);
    IntCarried(m, "trap_type", x.trapType);
    StrCarried(m, "trap_type_verbose", x.trapTypeVerbose);
    IntCarried(m, "alerts", x.alerts);
    DecodeTrapStatisticsCarried(m["trapstatistics"].fields, x.trapstatistics);
  }

  lemma TrapCarriedFields1(m: map<string, Value>, x: Trap)
    requires CarriesTrap(m, x) && MatchesTrap(m)
    ensures DecodeTrap(m).Success?
    ensures DecodeTrap(m).value.id == x.id
    ensures DecodeTrap(m).value.url == x.url
    ensures DecodeTrap(m).value.corruptionStatus == x.corruptionStatus
    ensures DecodeTrap(m).value.corruptionStatusOptions == x.corruptionStatusOptions
    ensures DecodeTrap(m).value.operator == x.operator
    ensures DecodeTrap(m).value.operatorName == x.operatorName
    ensures DecodeTrap(m).value.name == x.name
    ensures DecodeTrap(m).value.ssid == x.ssid
  {
    IntCarried(m, "id", x.id);
    StrCarried(m, "url", x.url);
    IntCarried(m, "corruption_status", x.corruptionStatus);
    OptCodeTextsCarried(m, "corruption_status_options", x.corruptionStatusOptions);
    OptStrCarried(m, "operator", x.operator);
    OptStrCarried(m, "operator_name", x.operatorName);
    StrCarried(m, "name", x.name);
    StrCarried(m, "ssid", x.ssid);
  }

  lemma TrapCarriedFields2(m: map<string, Value>, x: Trap)
    requires CarriesTrap(m, x) && MatchesTrap(m)
    ensures DecodeTrap(m).Success?
    ensures DecodeTrap(m).value.serialNumber == x.serialNumber
    ensures DecodeTrap(m).value.autoUpgrade == x.autoUpgrade
    ensures DecodeTrap(m).value.status == x.status
    ensures DecodeTrap(m).value.location == x.location
    ensures DecodeTrap(m).value.lat == x.lat
    ensures DecodeTrap(m).value.long == x.long
    ensures DecodeTrap(m).value.upgradeFirmware == x.upgradeFirmware
    ensures DecodeTrap(m).value.commercialGateway == x.commercialGateway
  {
    StrCarried(m, "serial_number", x.serialNumber);
    BoolCarried(m, "auto_upgrade", x.autoUpgrade);
    IntCarried(m, "status", x.status);
    OptStrCarried(m, "location", x.location);
    OptFloatCarried(m, "lat", x.lat);
    OptFloatCarried(m, "long", x.long);
    OptStrCarried(m, "upgrade_firmware", x.upgradeFirmware);
    OptStrCarried(m, "commercial_gateway", x.commercialGateway);
  }

  lemma TrapCarriedFields3(m: map<string, Value>, x: Trap)
    requires CarriesTrap(m, x) && MatchesTrap(m)
    ensures DecodeTrap(m).Success?
    ensures DecodeTrap(m).value.commercialMonitorModeEnabled == x.commercialMonitorModeEnabled
    ensures DecodeTrap(m).value.lorawanAppKey == x.lorawanAppKey
    ensures DecodeTrap(m).value.siteName == x.siteName
    ensures DecodeTrap(m).value.floorPlanX == x.floorPlanX
    ensures DecodeTrap(m).value.floorPlanY == x.floorPlanY
    ensures DecodeTrap(m).value.buildingName == x.buildingName
    ensures DecodeTrap(m).value.floorName == x.floorName
    ensures DecodeTrap(m).value.room == x.room
  {
    BoolCarried(m, "commercial_monitor_mode_enabled", x.commercialMonitorModeEnabled);
    StrCarried(m, "lorawan_app_key", x.lorawanAppKey);
    OptStrCarried(m, "site_name", x.siteName);
    OptIntCarried(m, "floor_plan_x", x.floorPlanX);
    OptIntCarried(m, "floor_plan_y", x.floorPlanY);
    OptStrCarried(m, "building_name", x.buildingName);
    OptStrCarried(m, "floor_name", x.floorName);
    OptStrCarried(m, "room", x.room);
  }

  lemma TrapCarriedFields4(m: map<string, Value>, x: Trap)
    requires CarriesTrap(m, x) && MatchesTrap(m)
    ensures DecodeTrap(m).Success?
    ensures DecodeTrap(m).value.roomName == x.roomName
    ensures DecodeTrap(m).value.trapType == x.trapType
    ensures DecodeTrap(m).value.trapTypeVerbose == x.trapTypeVerbose
    ensures DecodeTrap(m).value.alerts == x.alerts
    ensures DecodeTrap(m).value.trapstatistics == x.trapstatistics
  {
    OptStrCarried(m, "room_name", x.roomName);
    IntCarried(m, "trap_type", x.trapType);
    StrCarried(m, "trap_type_verbose", x.trapTypeVerbose);
    IntCarried(m, "alerts", x.alerts);
    DecodeTrapStatisticsCarried(m["trapstatistics"].fields, x.trapstatistics);
  }

  /** Keyword arguments that carry the fields of `x` decode to `x`, whatever other keys they hold. */
  lemma {:induction false} DecodeTrapCarried(m: map<string, Value>, x: Trap)
    requires CarriesTrap(m, x)
    ensures DecodeTrap(m) == Success(x)
  {
    TrapCarriedValid(m, x);
    TrapCarriedFields1(m, x);
    TrapCarriedFields2(m, x);
    TrapCarriedFields3(m, x);
    TrapCarriedFields4(m, x);
  }
}
