/**
 * The wire and display records of the desktop service, and the way serde
 * reads and writes them as JSON objects.
 *
 * A JSON document is modelled after parsing (`Json`); the text form and the
 * parser are not part of this model. Reading follows serde's derived
 * `Deserialize`: a `String` field must be present and hold a string, an
 * `Option` field may be missing or `null` (both read as `None`), a field with
 * `#[serde(default)]` takes its default when missing, and keys the record
 * does not know are ignored. Writing follows the derived `Serialize`: an
 * `Option` field marked `skip_serializing_if = "Option::is_none"` is left out
 * when `None`, any other `None` is written as `null`.
 */
module Models {
  import opened Wrappers

  /** Rust's `i64` and `u16`. */
  type I64 = x: int | -0x8000_0000_0000_0000 <= x < 0x8000_0000_0000_0000
  type U16 = x: int | 0 <= x < 0x1_0000

  datatype Json =
    | JNull
    | JBool(b: bool)
    | JInt(i: int)
    | JFloat(r: real)
    | JStr(s: string)
    | JArray(items: seq<Json>)
    | JObject(fields: map<string, Json>)

  type Fields = map<string, Json>

  // ---------------------------------------------------------------------
  // Records (src-tauri/src/models.rs)
  // ---------------------------------------------------------------------

  datatype ConnectionInfo = ConnectionInfo(ip: string, port: U16, token: string, secret_key: Option<string>)

  datatype BarcodeMessage = BarcodeMessage(barcode: string, timestamp: I64, device_id: string, device_name: Option<string>)

  datatype ScanPayload = ScanPayload(barcode: string, barcode_type: Option<string>)

  datatype ScanMessage = ScanMessage(
    action: string,
    device_id: string,
    device_name: Option<string>,
    device_model: Option<string>,
    timestamp: I64,
    payload: Option<ScanPayload>,
    token: Option<string>,
    auth_token: Option<string>)

  datatype PairRequest = PairRequest(
    action: string,
    device_id: string,
    device_name: string,
    device_model: Option<string>,
    master_token: string)

  datatype ReconnectRequest = ReconnectRequest(action: string, device_id: string, auth_token: string)

  datatype QRCodeData = QRCodeData(qr_base64: string, connection_info: ConnectionInfo)

  datatype ServerState = ServerState(is_running: bool, connected_clients: nat)

  datatype DeviceInfo = DeviceInfo(
    device_id: string,
    device_name: string,
    device_model: Option<string>,
    paired_at: Option<string>,
    last_seen: Option<string>,
    is_connected: bool)

  // ---------------------------------------------------------------------
  // How one field is read (serde's derived Deserialize)
  // ---------------------------------------------------------------------

  /** `key` holds exactly the string `s`. */
  predicate HoldsString(o: Fields, key: string, s: string) {
    key in o && o[key] == JStr(s)
  }

  /** `key` holds some string. */
  predicate HasString(o: Fields, key: string) {
    key in o && o[key].JStr?
  }

  /** `key` is missing, `null` or a string. */
  predicate HasOptionalString(o: Fields, key: string) {
    key !in o || o[key].JNull? || o[key].JStr?
  }

  /** `key` reads as the optional string `v`: `None` is a missing key or `null`. */
  predicate HoldsOptionalString(o: Fields, key: string, v: Option<string>) {
    if v.Some? then key in o && o[key] == JStr(v.value) else key !in o || o[key] == JNull
  }

  predicate IsI64(x: int) {
    -0x8000_0000_0000_0000 <= x < 0x8000_0000_0000_0000
  }

  /** A `String` field. */
  function StringField(o: Fields, key: string): (r: Option<string>)
    ensures r.Some? <==> HasString(o, key)
    ensures r.Some? ==> HoldsString(o, key, r.value)
  {
    if key in o && o[key].JStr? then Some(o[key].s) else None
  }

  /** An `Option<String>` field: the outer `None` is a type error. */
  function OptionalStringField(o: Fields, key: string): (r: Option<Option<string>>)
    ensures r.Some? <==> HasOptionalString(o, key)
    ensures r.Some? ==> HoldsOptionalString(o, key, r.value)
  {
    if key !in o || o[key].JNull? then Some(None)
    else if o[key].JStr? then Some(Some(o[key].s))
    else None
  }

  /** An `i64` field: an integer in range. */
  function I64Field(o: Fields, key: string): (r: Option<I64>)
    ensures r.Some? <==> key in o && o[key].JInt? && IsI64(o[key].i)
    ensures r.Some? ==> o[key] == JInt(r.value)
  {
    if key in o && o[key].JInt? && IsI64(o[key].i) then Some(o[key].i) else None
  }

  /** A `u16` field. */
  function U16Field(o: Fields, key: string): (r: Option<U16>)
    ensures r.Some? <==> key in o && o[key].JInt? && 0 <= o[key].i < 0x1_0000
    ensures r.Some? ==> o[key] == JInt(r.value)
  {
    if key in o && o[key].JInt? && 0 <= o[key].i < 0x1_0000 then Some(o[key].i) else None
  }

  /** A `bool` field with a serde default: a missing key reads as `default`, `null` is a type error. */
  function BoolFieldOr(o: Fields, key: string, default: bool): (r: Option<bool>)
    ensures r.Some? <==> key !in o || o[key].JBool?
    ensures key !in o ==> r == Some(default)
    ensures key in o && r.Some? ==> o[key] == JBool(r.value)
  {
    if key !in o then Some(default) else if o[key].JBool? then Some(o[key].b) else None
  }

  // ---------------------------------------------------------------------
  // How one field is written (serde's derived Serialize)
  // ---------------------------------------------------------------------

  /** Adds an `Option<String>` field marked `skip_serializing_if = "Option::is_none"`. */
  function PutOptional(o: Fields, key: string, v: Option<string>): Fields
  {
    if v.Some? then o[key := JStr(v.value)] else o
  }

  /** An `Option<String>` field without `skip_serializing_if`: `None` is `null`. */
  function Nullable(v: Option<string>): (r: Json)
    ensures r.JNull? <==> v.None?
  {
    if v.Some? then JStr(v.value) else JNull
  }

  // ---------------------------------------------------------------------
  // ConnectionInfo (models.rs:3-11)
  // ---------------------------------------------------------------------

  function EncodeConnectionInfo(c: ConnectionInfo): (r: Json)
    ensures r.JObject?
    ensures "secretKey" in r.fields <==> c.secret_key.Some?
    ensures r.fields.Keys == {"ip", "port", "token"} + (if c.secret_key.Some? then {"secretKey"} else {})
  {
    JObject(PutOptional(
      map["ip" := JStr(c.ip), "port" := JInt(c.port), "token" := JStr(c.token)],
      "secretKey", c.secret_key))
  }

  function DecodeConnectionInfo(j: Json): (r: Option<ConnectionInfo>)
    ensures r.Some? <==>
      j.JObject? && HasString(j.fields, "ip") && U16Field(j.fields, "port").Some?
      && HasString(j.fields, "token") && HasOptionalString(j.fields, "secretKey")
    ensures r.Some? ==>
      HoldsString(j.fields, "ip", r.value.ip) && j.fields["port"] == JInt(r.value.port)
      && HoldsString(j.fields, "token", r.value.token)
      && HoldsOptionalString(j.fields, "secretKey", r.value.secret_key)
  {
    if !j.JObject? then None
    else
      var o := j.fields;
      var ip :- StringField(o, "ip");
      var port :- U16Field(o, "port");
      var token :- StringField(o, "token");
      var secretKey :- OptionalStringField(o, "secretKey");
      Some(ConnectionInfo(ip, port, token, secretKey))
  }

  lemma ConnectionInfoRoundTrip(c: ConnectionInfo)
    ensures DecodeConnectionInfo(EncodeConnectionInfo(c)) == Some(c)
  {
  }

  // ---------------------------------------------------------------------
  // BarcodeMessage (models.rs:13-22)
  // ---------------------------------------------------------------------

  function EncodeBarcodeMessage(m: BarcodeMessage): (r: Json)
    ensures r.JObject? && r.fields.Keys == {"barcode", "timestamp", "deviceId", "deviceName"}
    ensures r.fields["deviceName"] == JNull <==> m.device_name.None?
  {
    JObject(map[
      "barcode" := JStr(m.barcode),
      "timestamp" := JInt(m.timestamp),
      "deviceId" := JStr(m.device_id),
      "deviceName" := Nullable(m.device_name)])
  }

  function DecodeBarcodeMessage(j: Json): (r: Option<BarcodeMessage>)
    ensures r.Some? <==>
      j.JObject? && HasString(j.fields, "barcode") && I64Field(j.fields, "timestamp").Some?
      && HasString(j.fields, "deviceId") && HasOptionalString(j.fields, "deviceName")
    ensures r.Some? ==>
      HoldsString(j.fields, "barcode", r.value.barcode) && j.fields["timestamp"] == JInt(r.value.timestamp)
      && HoldsString(j.fields, "deviceId", r.value.device_id)
      && HoldsOptionalString(j.fields, "deviceName", r.value.device_name)
  {
    if !j.JObject? then None
    else
      var o := j.fields;
      var barcode :- StringField(o, "barcode");
      var timestamp :- I64Field(o, "timestamp");
      var deviceId :- StringField(o, "deviceId");
      var deviceName :- OptionalStringField(o, "deviceName");
      Some(BarcodeMessage(barcode, timestamp, deviceId, deviceName))
  }

  lemma BarcodeMessageRoundTrip(m: BarcodeMessage)
    ensures DecodeBarcodeMessage(EncodeBarcodeMessage(m)) == Some(m)
  {
  }

  // ---------------------------------------------------------------------
  // ScanPayload (models.rs:24-30)
  // ---------------------------------------------------------------------

  function EncodeScanPayload(p: ScanPayload): (r: Json)
    ensures r.JObject? && "barcode" in r.fields
    ensures "type" in r.fields <==> p.barcode_type.Some?
  {
    JObject(PutOptional(map["barcode" := JStr(p.barcode)], "type", p.barcode_type))
  }

  function DecodeScanPayload(j: Json): (r: Option<ScanPayload>)
    ensures r.Some? <==> j.JObject? && HasString(j.fields, "barcode") && HasOptionalString(j.fields, "type")
    ensures r.Some? ==>
      HoldsString(j.fields, "barcode", r.value.barcode)
      && HoldsOptionalString(j.fields, "type", r.value.barcode_type)
  {
    if !j.JObject? then None
    else
      var barcode :- StringField(j.fields, "barcode");
      var barcodeType :- OptionalStringField(j.fields, "type");
      Some(ScanPayload(barcode, barcodeType))
  }

  lemma ScanPayloadRoundTrip(p: ScanPayload)
    ensures DecodeScanPayload(EncodeScanPayload(p)) == Some(p)
  {
  }

  // ---------------------------------------------------------------------
  // ScanMessage (models.rs:32-51)
  // ---------------------------------------------------------------------

  /** The `payload` field, an `Option<ScanPayload>`. */
  function OptionalPayloadField(o: Fields, key: string): (r: Option<Option<ScanPayload>>)
    ensures r.Some? <==> key !in o || o[key].JNull? || DecodeScanPayload(o[key]).Some?
    ensures r == Some(None) <==> key !in o || o[key].JNull?
    ensures r.Some? && r.value.Some? ==> key in o && DecodeScanPayload(o[key]) == r.value
  {
    if key !in o || o[key].JNull? then Some(None)
    else
      var p :- DecodeScanPayload(o[key]);
      Some(Some(p))
  }

  function EncodeScanMessage(m: ScanMessage): (r: Json)
    ensures r.JObject? && {"action", "deviceId", "timestamp"} <= r.fields.Keys
    ensures "payload" in r.fields <==> m.payload.Some?
    ensures "token" in r.fields <==> m.token.Some?
    ensures "authToken" in r.fields <==> m.auth_token.Some?
  {
    var base := map["action" := JStr(m.action), "deviceId" := JStr(m.device_id), "timestamp" := JInt(m.timestamp)];
    var withPayload := if m.payload.Some? then base["payload" := EncodeScanPayload(m.payload.value)] else base;
    JObject(
      PutOptional(PutOptional(PutOptional(PutOptional(withPayload,
        "deviceName", m.device_name),
        "deviceModel", m.device_model),
        "token", m.token),
        "authToken", m.auth_token))
  }

  function DecodeScanMessage(j: Json): (r: Option<ScanMessage>)
    ensures r.Some? <==>
      j.JObject? && HasString(j.fields, "action") && HasString(j.fields, "deviceId")
      && I64Field(j.fields, "timestamp").Some?
      && HasOptionalString(j.fields, "deviceName") && HasOptionalString(j.fields, "deviceModel")
      && OptionalPayloadField(j.fields, "payload").Some?
      && HasOptionalString(j.fields, "token") && HasOptionalString(j.fields, "authToken")
    ensures r.Some? ==>
      HoldsString(j.fields, "action", r.value.action)
      && HoldsString(j.fields, "deviceId", r.value.device_id)
      && j.fields["timestamp"] == JInt(r.value.timestamp)
      && HoldsOptionalString(j.fields, "deviceName", r.value.device_name)
      && HoldsOptionalString(j.fields, "deviceModel", r.value.device_model)
      && HoldsOptionalString(j.fields, "token", r.value.token)
      && HoldsOptionalString(j.fields, "authToken", r.value.auth_token)
      && OptionalPayloadField(j.fields, "payload") == Some(r.value.payload)
  {
    if !j.JObject? then None
    else
      var o := j.fields;
      var action :- StringField(o, "action");
      var deviceId :- StringField(o, "deviceId");
      var deviceName :- OptionalStringField(o, "deviceName");
      var deviceModel :- OptionalStringField(o, "deviceModel");
      var timestamp :- I64Field(o, "timestamp");
      var payload :- OptionalPayloadField(o, "payload");
      var token :- OptionalStringField(o, "token");
      var authToken :- OptionalStringField(o, "authToken");
      Some(ScanMessage(action, deviceId, deviceName, deviceModel, timestamp, payload, token, authToken))
  }

  lemma ScanMessageRoundTrip(m: ScanMessage)
    ensures DecodeScanMessage(EncodeScanMessage(m)) == Some(m)
  {
    ScanMessageRequired(m);
    ScanMessageOptional(m);
    ScanMessagePayload(m);
    var r := DecodeScanMessage(EncodeScanMessage(m));
    assert r.Some?;
    assert r.value.device_name == m.device_name && r.value.device_model == m.device_model;
    assert r.value.token == m.token && r.value.auth_token == m.auth_token;
  }

  lemma ScanMessageRequired(m: ScanMessage)
    ensures HoldsString(EncodeScanMessage(m).fields, "action", m.action)
    ensures HoldsString(EncodeScanMessage(m).fields, "deviceId", m.device_id)
    ensures EncodeScanMessage(m).fields["timestamp"] == JInt(m.timestamp)
  {}

  lemma ScanMessageOptional(m: ScanMessage)
    ensures HoldsOptionalString(EncodeScanMessage(m).fields, "deviceName", m.device_name)
    ensures HoldsOptionalString(EncodeScanMessage(m).fields, "deviceModel", m.device_model)
    ensures HoldsOptionalString(EncodeScanMessage(m).fields, "token", m.token)
    ensures HoldsOptionalString(EncodeScanMessage(m).fields, "authToken", m.auth_token)
  {}

  lemma ScanMessagePayload(m: ScanMessage)
    ensures OptionalPayloadField(EncodeScanMessage(m).fields, "payload") == Some(m.payload)
  {
    if m.payload.Some? {
      ScanPayloadRoundTrip(m.payload.value);
    }
  }

  // ---------------------------------------------------------------------
  // PairRequest (models.rs:53-65)
  // ---------------------------------------------------------------------

  function EncodePairRequest(r: PairRequest): (j: Json)
    ensures j.JObject? && {"action", "deviceId", "deviceName", "masterToken"} <= j.fields.Keys
    ensures "deviceModel" in j.fields <==> r.device_model.Some?
  {
    JObject(PutOptional(
      map["action" := JStr(r.action), "deviceId" := JStr(r.device_id),
          "deviceName" := JStr(r.device_name), "masterToken" := JStr(r.master_token)],
      "deviceModel", r.device_model))
  }

  function DecodePairRequest(j: Json): (r: Option<PairRequest>)
    ensures r.Some? <==>
      j.JObject? && HasString(j.fields, "action") && HasString(j.fields, "deviceId")
      && HasString(j.fields, "deviceName") && HasString(j.fields, "masterToken")
      && HasOptionalString(j.fields, "deviceModel")
    ensures r.Some? ==>
      HoldsString(j.fields, "action", r.value.action)
      && HoldsString(j.fields, "deviceId", r.value.device_id)
      && HoldsString(j.fields, "deviceName", r.value.device_name)
      && HoldsString(j.fields, "masterToken", r.value.master_token)
      && HoldsOptionalString(j.fields, "deviceModel", r.value.device_model)
  {
    if !j.JObject? then None
    else
      var o := j.fields;
      var action :- StringField(o, "action");
      var deviceId :- StringField(o, "deviceId");
      var deviceName :- StringField(o, "deviceName");
      var deviceModel :- OptionalStringField(o, "deviceModel");
      var masterToken :- StringField(o, "masterToken");
      Some(PairRequest(action, deviceId, deviceName, deviceModel, masterToken))
  }

  lemma PairRequestRoundTrip(r: PairRequest)
    ensures DecodePairRequest(EncodePairRequest(r)) == Some(r)
  {
  }

  /** `deviceModel` is optional: dropping it from a pair request still decodes. */
  lemma PairRequestModelOptional(r: PairRequest)
    ensures DecodePairRequest(JObject(EncodePairRequest(r).fields - {"deviceModel"}))
         == Some(r.(device_model := None))
  {
  }

  // ---------------------------------------------------------------------
  // ReconnectRequest (models.rs:67-75)
  // ---------------------------------------------------------------------

  function EncodeReconnectRequest(r: ReconnectRequest): (j: Json)
    ensures j.JObject? && j.fields.Keys == {"action", "deviceId", "authToken"}
  {
    JObject(map["action" := JStr(r.action), "deviceId" := JStr(r.device_id), "authToken" := JStr(r.auth_token)])
  }

  function DecodeReconnectRequest(j: Json): (r: Option<ReconnectRequest>)
    ensures r.Some? <==>
      j.JObject? && HasString(j.fields, "action") && HasString(j.fields, "deviceId")
      && HasString(j.fields, "authToken")
    ensures r.Some? ==>
      HoldsString(j.fields, "action", r.value.action)
      && HoldsString(j.fields, "deviceId", r.value.device_id)
      && HoldsString(j.fields, "authToken", r.value.auth_token)
  {
    if !j.JObject? then None
    else
      var o := j.fields;
      var action :- StringField(o, "action");
      var deviceId :- StringField(o, "deviceId");
      var authToken :- StringField(o, "authToken");
      Some(ReconnectRequest(action, deviceId, authToken))
  }

  lemma ReconnectRequestRoundTrip(r: ReconnectRequest)
    ensures DecodeReconnectRequest(EncodeReconnectRequest(r)) == Some(r)
  {
  }

  // ---------------------------------------------------------------------
  // DeviceInfo (models.rs:89-104)
  // ---------------------------------------------------------------------

  function EncodeDeviceInfo(d: DeviceInfo): (j: Json)
    ensures j.JObject? && {"deviceId", "deviceName", "isConnected"} <= j.fields.Keys
    ensures "deviceModel" in j.fields <==> d.device_model.Some?
    ensures "pairedAt" in j.fields <==> d.paired_at.Some?
    ensures "lastSeen" in j.fields <==> d.last_seen.Some?
  {
    JObject(
      PutOptional(PutOptional(PutOptional(
        map["deviceId" := JStr(d.device_id), "deviceName" := JStr(d.device_name), "isConnected" := JBool(d.is_connected)],
        "deviceModel", d.device_model),
        "pairedAt", d.paired_at),
        "lastSeen", d.last_seen))
  }

  function DecodeDeviceInfo(j: Json): (r: Option<DeviceInfo>)
    ensures r.Some? <==>
      j.JObject? && HasString(j.fields, "deviceId") && HasString(j.fields, "deviceName")
      && HasOptionalString(j.fields, "deviceModel") && HasOptionalString(j.fields, "pairedAt")
      && HasOptionalString(j.fields, "lastSeen")
      && ("isConnected" !in j.fields || j.fields["isConnected"].JBool?)
    ensures r.Some? ==>
      HoldsString(j.fields, "deviceId", r.value.device_id)
      && HoldsString(j.fields, "deviceName", r.value.device_name)
      && HoldsOptionalString(j.fields, "deviceModel", r.value.device_model)
      && HoldsOptionalString(j.fields, "pairedAt", r.value.paired_at)
      && HoldsOptionalString(j.fields, "lastSeen", r.value.last_seen)
      && r.value.is_connected == ("isConnected" in j.fields && j.fields["isConnected"] == JBool(true))
  {
    if !j.JObject? then None
    else
      var o := j.fields;
      var deviceId :- StringField(o, "deviceId");
      var deviceName :- StringField(o, "deviceName");
      var deviceModel :- OptionalStringField(o, "deviceModel");
      var pairedAt :- OptionalStringField(o, "pairedAt");
      var lastSeen :- OptionalStringField(o, "lastSeen");
      var isConnected :- BoolFieldOr(o, "isConnected", false);
      Some(DeviceInfo(deviceId, deviceName, deviceModel, pairedAt, lastSeen, isConnected))
  }

  lemma DeviceInfoRoundTrip(d: DeviceInfo)
    ensures DecodeDeviceInfo(EncodeDeviceInfo(d)) == Some(d)
  {
  }

  /** A device record without `isConnected` reads as not connected. */
  lemma DeviceInfoConnectedDefault(d: DeviceInfo)
    ensures DecodeDeviceInfo(JObject(EncodeDeviceInfo(d).fields - {"isConnected"}))
         == Some(d.(is_connected := false))
  {
  }
}
