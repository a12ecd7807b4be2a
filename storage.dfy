/**
 * The persistent configuration and the registry of paired devices
 * (src-tauri/src/storage.rs).
 *
 * `AppConfig` is a class: the registry methods change its map in place.
 * `ConfigFile` is the same record as a value, the form serde reads from and
 * writes to `config.json`. The file system itself is not modelled: what
 * `load` found on disk is a parameter, and `save` has no effect here.
 */
module Storage {
  import opened Wrappers
  import opened Models
  import opened Security

  /** The contents of an `AppConfig`, as a value. */
  datatype ConfigFile = ConfigFile(
    master_token: Option<string>,
    secret_key: Option<string>,
    authorized_devices: map<string, AuthorizedDevice>,
    auto_start: bool,
    minimize_to_tray: bool,
    start_minimized: bool)

  /** Every record sits under its own `device_id`, as `add_device` files it. */
  predicate KeyedById(devices: map<string, AuthorizedDevice>) {
    forall id :: id in devices ==> devices[id].device_id == id
  }

  /**
   * `AppConfig::default()`, derived field by field: every flag false,
   * including `minimize_to_tray`, whose serde default is true.
   */
  function DefaultConfig(): (c: ConfigFile)
    ensures c.master_token.None? && c.secret_key.None? && c.authorized_devices == map[]
    ensures !c.auto_start && !c.minimize_to_tray && !c.start_minimized
  {
    ConfigFile(None, None, map[], false, false, false)
  }

  // ---------------------------------------------------------------------
  // The JSON form (serde's derived Serialize/Deserialize, no renaming)
  // ---------------------------------------------------------------------

  function EncodeAuthorizedDevice(d: AuthorizedDevice): (j: Json)
    ensures j.JObject? && j.fields.Keys == {"device_id", "device_name", "device_model", "paired_at", "last_seen"}
    ensures j.fields["device_model"] == JNull <==> d.device_model.None?
  {
    JObject(map[
      "device_id" := JStr(d.device_id),
      "device_name" := JStr(d.device_name),
      "device_model" := Nullable(d.device_model),
      "paired_at" := JStr(d.paired_at),
      "last_seen" := JStr(d.last_seen)])
  }

  /** `device_model` has `#[serde(default)]`: missing or `null` reads as `None`. */
  function DecodeAuthorizedDevice(j: Json): (r: Option<AuthorizedDevice>)
    ensures r.Some? <==>
      j.JObject? && HasString(j.fields, "device_id") && HasString(j.fields, "device_name")
      && HasOptionalString(j.fields, "device_model")
      && HasString(j.fields, "paired_at") && HasString(j.fields, "last_seen")
    ensures r.Some? ==>
      HoldsString(j.fields, "device_id", r.value.device_id)
      && HoldsString(j.fields, "device_name", r.value.device_name)
      && HoldsOptionalString(j.fields, "device_model", r.value.device_model)
      && HoldsString(j.fields, "paired_at", r.value.paired_at)
      && HoldsString(j.fields, "last_seen", r.value.last_seen)
  {
    if !j.JObject? then None
    else
      var o := j.fields;
      var deviceId :- StringField(o, "device_id");
      var deviceName :- StringField(o, "device_name");
      var deviceModel :- OptionalStringField(o, "device_model");
      var pairedAt :- StringField(o, "paired_at");
      var lastSeen :- StringField(o, "last_seen");
      Some(AuthorizedDevice(deviceId, deviceName, deviceModel, pairedAt, lastSeen))
  }

  lemma AuthorizedDeviceRoundTrip(d: AuthorizedDevice)
    ensures DecodeAuthorizedDevice(EncodeAuthorizedDevice(d)) == Some(d)
  {
  }

  function EncodeDevices(devices: map<string, AuthorizedDevice>): (j: Json)
    ensures j.JObject? && j.fields.Keys == devices.Keys
  {
    JObject(map id | id in devices :: EncodeAuthorizedDevice(devices[id]))
  }

  /** A `HashMap<String, AuthorizedDevice>`: an object whose every value is a device record. */
  function DecodeDevices(j: Json): (r: Option<map<string, AuthorizedDevice>>)
    ensures r.Some? <==> j.JObject? && forall id :: id in j.fields ==> DecodeAuthorizedDevice(j.fields[id]).Some?
    ensures r.Some? ==> r.value.Keys == j.fields.Keys
    ensures r.Some? ==> forall id :: id in r.value ==> DecodeAuthorizedDevice(j.fields[id]) == Some(r.value[id])
  {
    if j.JObject? && forall id :: id in j.fields ==> DecodeAuthorizedDevice(j.fields[id]).Some? then
      Some(map id | id in j.fields :: DecodeAuthorizedDevice(j.fields[id]).value)
    else None
  }

  lemma DevicesRoundTrip(devices: map<string, AuthorizedDevice>)
    ensures DecodeDevices(EncodeDevices(devices)) == Some(devices)
  {
    var j := EncodeDevices(devices);
    forall id | id in j.fields
      ensures DecodeAuthorizedDevice(j.fields[id]) == Some(devices[id])
    {
      AuthorizedDeviceRoundTrip(devices[id]);
    }
    DecodesTo(j, devices);
  }

  /** An object whose every value decodes to the record under the same id decodes to that map. */
  lemma DecodesTo(j: Json, devices: map<string, AuthorizedDevice>)
    requires j.JObject? && j.fields.Keys == devices.Keys
    requires forall id :: id in j.fields ==> DecodeAuthorizedDevice(j.fields[id]) == Some(devices[id])
    ensures DecodeDevices(j) == Some(devices)
  {
    var decoded := map id | id in j.fields :: DecodeAuthorizedDevice(j.fields[id]).value;
    assert decoded == devices;
  }

  /** `serde_json::to_string_pretty(config)`, before it becomes text: every field, `None` as `null`. */
  function EncodeConfig(c: ConfigFile): (j: Json)
    ensures j.JObject?
    ensures j.fields.Keys == {"master_token", "secret_key", "authorized_devices", "auto_start", "minimize_to_tray", "start_minimized"}
  {
    JObject(map[
      "master_token" := Nullable(c.master_token),
      "secret_key" := Nullable(c.secret_key),
      "authorized_devices" := EncodeDevices(c.authorized_devices),
      "auto_start" := JBool(c.auto_start),
      "minimize_to_tray" := JBool(c.minimize_to_tray),
      "start_minimized" := JBool(c.start_minimized)])
  }

  /**
   * `serde_json::from_str::<AppConfig>`, after parsing: the two tokens may be
   * missing or `null`; a missing device map is empty; missing flags take
   * their serde defaults, true for `minimize_to_tray` and false otherwise.
   */
  function DecodeConfig(j: Json): (r: Option<ConfigFile>)
    ensures r.Some? <==>
      j.JObject? && HasOptionalString(j.fields, "master_token") && HasOptionalString(j.fields, "secret_key")
      && ("authorized_devices" !in j.fields || DecodeDevices(j.fields["authorized_devices"]).Some?)
      && ("auto_start" !in j.fields || j.fields["auto_start"].JBool?)
      && ("minimize_to_tray" !in j.fields || j.fields["minimize_to_tray"].JBool?)
      && ("start_minimized" !in j.fields || j.fields["start_minimized"].JBool?)
    ensures r.Some? ==>
      HoldsOptionalString(j.fields, "master_token", r.value.master_token)
      && HoldsOptionalString(j.fields, "secret_key", r.value.secret_key)
      && ("authorized_devices" !in j.fields ==> r.value.authorized_devices == map[])
      && ("minimize_to_tray" !in j.fields ==> r.value.minimize_to_tray)
      && ("auto_start" !in j.fields ==> !r.value.auto_start)
      && ("start_minimized" !in j.fields ==> !r.value.start_minimized)
    ensures r.Some? ==>
      && ("authorized_devices" in j.fields ==> DecodeDevices(j.fields["authorized_devices"]) == Some(r.value.authorized_devices))
      && ("auto_start" in j.fields ==> j.fields["auto_start"] == JBool(r.value.auto_start))
      && ("minimize_to_tray" in j.fields ==> j.fields["minimize_to_tray"] == JBool(r.value.minimize_to_tray))
      && ("start_minimized" in j.fields ==> j.fields["start_minimized"] == JBool(r.value.start_minimized))
  {
    if !j.JObject? then None
    else
      var o := j.fields;
      var masterToken :- OptionalStringField(o, "master_token");
      var secretKey :- OptionalStringField(o, "secret_key");
      var devices :- if "authorized_devices" in o then DecodeDevices(o["authorized_devices"]) else Some(map[]);
      var autoStart :- BoolFieldOr(o, "auto_start", false);
      var minimizeToTray :- BoolFieldOr(o, "minimize_to_tray", true);
      var startMinimized :- BoolFieldOr(o, "start_minimized", false);
      Some(ConfigFile(masterToken, secretKey, devices, autoStart, minimizeToTray, startMinimized))
  }

  lemma ConfigRoundTrip(c: ConfigFile)
    ensures DecodeConfig(EncodeConfig(c)) == Some(c)
  {
    var o := EncodeConfig(c).fields;
    assert OptionalStringField(o, "master_token") == Some(c.master_token);
    assert OptionalStringField(o, "secret_key") == Some(c.secret_key);
    DevicesRoundTrip(c.authorized_devices);
    assert o["authorized_devices"] == EncodeDevices(c.authorized_devices);
    assert BoolFieldOr(o, "auto_start", false) == Some(c.auto_start);
    assert BoolFieldOr(o, "minimize_to_tray", true) == Some(c.minimize_to_tray);
    assert BoolFieldOr(o, "start_minimized", false) == Some(c.start_minimized);
  }

  /**
   * The two defaults disagree: an empty `config.json` reads with
   * `minimize_to_tray` true, while a missing file gives `AppConfig::default()`
   * with it false.
   */
  lemma DefaultsDisagree()
    ensures DecodeConfig(JObject(map[])) == Some(DefaultConfig().(minimize_to_tray := true))
    ensures !DefaultConfig().minimize_to_tray
  {
  }

  /**
   * `load`: what was found on disk, if any. `None` stands for a missing
   * project directory, a missing or unreadable file, and text that is not
   * JSON; each of these, and JSON that is not a config, gives the default.
   */
  function LoadConfig(found: Option<Json>): (c: ConfigFile)
    ensures found.None? ==> c == DefaultConfig()
    ensures found.Some? && DecodeConfig(found.value).Some? ==> c == DecodeConfig(found.value).value
    ensures found.Some? && DecodeConfig(found.value).None? ==> c == DefaultConfig()
  {
    match found
    case None => DefaultConfig()
    case Some(j) =>
      match DecodeConfig(j)
      case Some(c) => c
      case None => DefaultConfig()
  }

  /** Loading what was saved gives the same configuration back. */
  lemma LoadSaved(c: ConfigFile)
    ensures LoadConfig(Some(EncodeConfig(c))) == c
  {
    ConfigRoundTrip(c);
  }

  // ---------------------------------------------------------------------
  // AppConfig and its registry operations (storage.rs:94-120)
  // ---------------------------------------------------------------------

  class AppConfig {
    var master_token: Option<string>
    var secret_key: Option<string>
    var authorized_devices: map<string, AuthorizedDevice>
    var auto_start: bool
    var minimize_to_tray: bool
    var start_minimized: bool

    /** All fields, as a value. */
    function Snapshot(): ConfigFile
      reads this
    {
      ConfigFile(master_token, secret_key, authorized_devices, auto_start, minimize_to_tray, start_minimized)
    }

    /** An `AppConfig` holding the given contents (`load`, or a literal). */
    constructor (contents: ConfigFile)
      ensures Snapshot() == contents
    {
      master_token := contents.master_token;
      secret_key := contents.secret_key;
      authorized_devices := contents.authorized_devices;
      auto_start := contents.auto_start;
      minimize_to_tray := contents.minimize_to_tray;
      start_minimized := contents.start_minimized;
    }

    /** `Clone::clone`: a separate object with the same contents. */
    method Clone() returns (copy: AppConfig)
      ensures fresh(copy) && copy.Snapshot() == Snapshot()
    {
      copy := new AppConfig(Snapshot());
    }

    /** `is_device_authorized`: a record exists for the id. */
    function IsDeviceAuthorized(device_id: string): (authorized: bool)
      reads this
      ensures authorized <==> GetDevice(device_id).Some?
    {
      device_id in authorized_devices
    }

    /** `get_device`: the record stored under the id, if any. */
    function GetDevice(device_id: string): (r: Option<AuthorizedDevice>)
      reads this
      ensures r.Some? <==> device_id in authorized_devices
      ensures r.Some? ==> r.value == authorized_devices[device_id]
    {
      if device_id in authorized_devices then Some(authorized_devices[device_id]) else None
    }

    /**
     * `add_device`: files the record under its own id, replacing any earlier
     * record for that id; every other record and every other field stay.
     */
    method AddDevice(device: AuthorizedDevice)
      modifies this
      ensures Snapshot() == old(Snapshot()).(authorized_devices := old(authorized_devices)[device.device_id := device])
      ensures Snapshot() == Registered(old(Snapshot()), device)
      ensures IsDeviceAuthorized(device.device_id) && GetDevice(device.device_id) == Some(device)
      ensures forall id :: id != device.device_id ==> GetDevice(id) == old(GetDevice(id))
      ensures old(KeyedById(authorized_devices)) ==> KeyedById(authorized_devices)
    {
      authorized_devices := authorized_devices[device.device_id := device];
    }

    /**
     * `remove_device`: deletes the record, reporting whether there was one.
     * No trace is kept: a revoked device looks like one never paired.
     */
    method RemoveDevice(device_id: string) returns (removed: bool)
      modifies this
      ensures removed <==> old(IsDeviceAuthorized(device_id))
      ensures Snapshot() == old(Snapshot()).(authorized_devices := old(authorized_devices) - {device_id})
      ensures Snapshot() == Revoked(old(Snapshot()), device_id)
      ensures !IsDeviceAuthorized(device_id)
      ensures forall id :: id != device_id ==> GetDevice(id) == old(GetDevice(id))
      ensures !removed ==> Snapshot() == old(Snapshot())
      ensures old(KeyedById(authorized_devices)) ==> KeyedById(authorized_devices)
    {
      removed := device_id in authorized_devices;
      authorized_devices := authorized_devices - {device_id};
    }

    /** `revoke_all_devices`: the registry becomes empty; nothing else changes. */
    method RevokeAllDevices()
      modifies this
      ensures Snapshot() == old(Snapshot()).(authorized_devices := map[])
      ensures forall id :: !IsDeviceAuthorized(id)
    {
      authorized_devices := map[];
    }

    /**
     * A look-up of the id's record followed by an assignment to `last_seen`,
     * which is how `reconnect` refreshes a device (`get_mut` on the map): only
     * that record's time stamp changes, and nothing happens when the id has
     * no record.
     */
    method TouchDevice(device_id: string, now: string)
      modifies this
      ensures device_id in old(authorized_devices) ==>
        Snapshot() == old(Snapshot()).(authorized_devices :=
          old(authorized_devices)[device_id := old(authorized_devices)[device_id].(last_seen := now)])
      ensures device_id !in old(authorized_devices) ==> Snapshot() == old(Snapshot())
      ensures old(KeyedById(authorized_devices)) ==> KeyedById(authorized_devices)
    {
      if device_id in authorized_devices {
        authorized_devices := authorized_devices[device_id := authorized_devices[device_id].(last_seen := now)];
      }
    }
  }

  /** The contents after `add_device`. */
  function Registered(c: ConfigFile, device: AuthorizedDevice): ConfigFile {
    c.(authorized_devices := c.authorized_devices[device.device_id := device])
  }

  /** The contents after `remove_device`. */
  function Revoked(c: ConfigFile, device_id: string): ConfigFile {
    c.(authorized_devices := c.authorized_devices - {device_id})
  }

  /**
   * `remove_device` after `add_device` of an id that had no record gives
   * back the contents from before the add: revocation leaves no mark, so a
   * revoked device is indistinguishable from one never paired.
   */
  lemma RevokedLikeNeverPaired(c: ConfigFile, device: AuthorizedDevice)
    requires device.device_id !in c.authorized_devices
    ensures Revoked(Registered(c, device), device.device_id) == c
  {
    var after := Revoked(Registered(c, device), device.device_id).authorized_devices;
    assert after.Keys == c.authorized_devices.Keys;
  }
}
