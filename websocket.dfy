/**
 * The WebSocket side of the desktop service (src-tauri/src/websocket.rs):
 * the table of live connections, the frame dispatch and the handlers for
 * `handshake`, `pair`, `reconnect` and `scan`.
 *
 * `WebSocketServer` is a class whose methods change the table, the reply
 * outbox, the list of forwarded barcodes and the server's own copy of the
 * configuration in place. Each method is proved against a step function on
 * `ServerView`, the whole state as a value, and the protocol's properties
 * are lemmas about those step functions.
 *
 * Sockets and channels are not modelled: a reply that `send_to_client`
 * would queue is appended to `outbox`, a barcode sent to the front end is
 * appended to `forwarded`. The clock and the random generator are read
 * through `Env`, one per frame.
 */
module WebSocket {
  import opened Wrappers
  import opened Primitives
  import opened Models
  import opened Security
  import opened Storage

  /** One live connection, without its sender half. */
  datatype ClientInfo = ClientInfo(device_id: Option<string>, device_name: Option<string>, authenticated: bool)

  type Clients = map<nat, ClientInfo>

  /** A reading of `chrono::Utc::now()`: as Unix seconds and as RFC 3339 text. */
  datatype Instant = Instant(unix: I64, rfc3339: string)

  /** What `OsRng` yields when a handler asks: 32 key bytes and a 12-byte nonce. */
  datatype Entropy = Entropy(keyBytes: KeyMaterial, nonce: Nonce)

  /** What the environment supplies while one frame is handled. */
  datatype Env = Env(now: Instant, entropy: Entropy)

  /** A WebSocket message: text (parsed as JSON, `None` when it is not JSON) or anything else. */
  datatype Frame = Text(json: Option<Json>) | NonText

  /** What the receiving half of a socket yields: a message or an error, which ends the connection. */
  datatype Incoming = Received(frame: Frame, env: Env) | TransportError

  /** The replies the server sends, one per `serde_json::json!` in the handlers. */
  datatype Reply =
    | HandshakeAck(clientId: nat, timestamp: I64)
    | ErrorReply(message: string)
    | PairAck(authToken: string, deviceId: string, timestamp: I64)
    | ReconnectRefused(status: string, message: string)
    | Reconnected(deviceId: string, timestamp: I64)
    | ScanAck(barcode: string)

  /** A reply queued for a connection. */
  datatype Outgoing = Outgoing(client: nat, reply: Reply)

  const INVALID_PAIRING_TOKEN: string := "Invalid pairing token"
  const INVALID_PAIR_FORMAT: string := "Invalid pair request format"
  const INVALID_RECONNECT_FORMAT: string := "Invalid reconnect request format"
  const INVALID_SCAN_FORMAT: string := "Invalid scan message format"
  const SERVER_CONFIGURATION_ERROR: string := "Server configuration error"
  const MISSING_PAYLOAD: string := "Missing payload"
  const INVALID_TOKEN: string := "Invalid token"
  const NOT_AUTHORIZED_MESSAGE: string := "Device not authorized. Please pair again."
  const INVALID_AUTH_TOKEN_MESSAGE: string := "Invalid auth token. Please pair again."

  /** The whole server state as a value. */
  datatype ServerView = ServerView(
    clients: Clients,
    nextClientId: nat,
    outbox: seq<Outgoing>,
    forwarded: seq<BarcodeMessage>,
    config: ConfigFile,
    accepting: bool)

  /** Every connection id was handed out by the counter. */
  predicate ValidView(v: ServerView) {
    forall id :: id in v.clients ==> id < v.nextClientId
  }

  // ---------------------------------------------------------------------
  // Table operations
  // ---------------------------------------------------------------------

  /** `send_to_client`: a reply reaches only a connection still in the table. */
  function Deliver(clients: Clients, id: nat, reply: Reply): (out: seq<Outgoing>)
    ensures id in clients ==> out == [Outgoing(id, reply)]
    ensures id !in clients ==> out == []
  {
    if id in clients then [Outgoing(id, reply)] else []
  }

  /** The table after `remove_previous_device_connection(device, keep)`. */
  function WithoutDevice(clients: Clients, deviceId: string, keep: nat): (r: Clients)
    ensures r.Keys <= clients.Keys
    ensures forall id :: id in r ==> r[id] == clients[id]
    ensures forall id :: id in clients ==> (id in r <==> id == keep || clients[id].device_id != Some(deviceId))
  {
    map id | id in clients && (id == keep || clients[id].device_id != Some(deviceId)) :: clients[id]
  }

  /** `get_mut(&id)` and a write of the whole entry: nothing happens to an absent id. */
  function Bind(clients: Clients, id: nat, info: ClientInfo): (r: Clients)
    ensures r.Keys == clients.Keys
    ensures id in clients ==> r[id] == info
    ensures forall other :: other in clients && other != id ==> r[other] == clients[other]
  {
    if id in clients then clients[id := info] else clients
  }

  /** An entry `get_connected_count` and `get_connected_devices` look at. */
  predicate Listed(c: ClientInfo) {
    c.authenticated && c.device_id.Some?
  }

  /** The device ids of the listed entries among `ids`. */
  function DeviceIdsAmong(clients: Clients, ids: set<nat>): set<string> {
    set id | id in ids && id in clients && Listed(clients[id]) :: clients[id].device_id.value
  }

  /** The distinct devices with an authenticated connection. */
  function ConnectedDeviceIds(clients: Clients): set<string> {
    DeviceIdsAmong(clients, clients.Keys)
  }

  /** Adding one id to the ids looked at adds at most its device. */
  lemma DeviceIdsAmongStep(clients: Clients, ids: set<nat>, id: nat)
    requires id in clients
    ensures DeviceIdsAmong(clients, ids + {id})
      == DeviceIdsAmong(clients, ids) + (if Listed(clients[id]) then {clients[id].device_id.value} else {})
  {
  }

  /** The connected count never exceeds the number of ids looked at. */
  lemma {:induction false} DeviceIdsAmongBound(clients: Clients, ids: set<nat>)
    ensures |DeviceIdsAmong(clients, ids)| <= |ids|
    decreases ids
  {
    if ids != {} {
      var id :| id in ids;
      var rest := ids - {id};
      DeviceIdsAmongBound(clients, rest);
      var extra: set<string> := if id in clients && Listed(clients[id]) then {clients[id].device_id.value} else {};
      assert DeviceIdsAmong(clients, ids) <= DeviceIdsAmong(clients, rest) + extra;
      SubsetCard(DeviceIdsAmong(clients, ids), DeviceIdsAmong(clients, rest) + extra);
    }
  }

  lemma {:induction false} SubsetCard<T>(a: set<T>, b: set<T>)
    requires a <= b
    ensures |a| <= |b|
    decreases b
  {
    if a != {} {
      var x :| x in a;
      SubsetCard(a - {x}, b - {x});
    }
  }

  /** `get_connected_count` is at most the size of the table. */
  lemma ConnectedCountBound(clients: Clients)
    ensures |ConnectedDeviceIds(clients)| <= |clients|
  {
    DeviceIdsAmongBound(clients, clients.Keys);
  }

  /** How a listed entry is shown by `get_connected_devices`. */
  function DeviceOf(c: ClientInfo): (d: DeviceInfo)
    requires Listed(c)
    ensures d.device_id == c.device_id.value && d.is_connected
    ensures d.device_name == (if c.device_name.Some? then c.device_name.value else "Unknown")
    ensures d.device_model.None? && d.paired_at.None? && d.last_seen.None?
  {
    DeviceInfo(c.device_id.value, if c.device_name.Some? then c.device_name.value else "Unknown", None, None, None, true)
  }

  function ListedIds(clients: Clients): set<nat> {
    set id | id in clients && Listed(clients[id])
  }

  /** What `get_connected_devices` can list. */
  function ListedDevices(clients: Clients): set<DeviceInfo> {
    set id | id in ListedIds(clients) :: DeviceOf(clients[id])
  }

  // ---------------------------------------------------------------------
  // Step functions: the specification of each handler
  // ---------------------------------------------------------------------

  /** A new connection: the counter's value becomes its id, unauthenticated, no device. */
  function ConnectStep(v: ServerView): ServerView {
    v.(clients := v.clients[v.nextClientId := ClientInfo(None, None, false)], nextClientId := v.nextClientId + 1)
  }

  /** The end of a connection: its own entry goes. */
  function DisconnectStep(v: ServerView, id: nat): ServerView {
    v.(clients := v.clients - {id})
  }

  /** `shutdown`: stop accepting and empty the table. */
  function ShutdownStep(v: ServerView): ServerView {
    v.(accepting := false, clients := map[])
  }

  function Send(v: ServerView, id: nat, reply: Reply): ServerView {
    v.(outbox := v.outbox + Deliver(v.clients, id, reply))
  }

  /**
   * The key a successful pairing uses: the stored one is kept, else a fresh
   * one is made, and a fresh key is always usable.
   */
  function PairingKey(config: ConfigFile, lib: Library, entropy: Entropy): (key: string)
    ensures config.secret_key.Some? ==> key == config.secret_key.value
    ensures config.secret_key.None? && Lawful(lib) ==> KeyBytes(lib, key) == Ok(entropy.keyBytes)
  {
    if config.secret_key.Some? then config.secret_key.value else GenerateSecretKey(lib, entropy.keyBytes)
  }

  /**
   * The auth token a successful pairing hands out: under a usable key it is
   * never empty, and it validates under that key for the id before the
   * first `:` of the device id, which is the device id itself when it has
   * none.
   */
  function PairingToken(config: ConfigFile, lib: Library, request: PairRequest, env: Env): (token: string)
    ensures Lawful(lib) && KeyBytes(lib, PairingKey(config, lib, env.entropy)).Ok? ==>
      && token != ""
      && ValidateAuthToken(lib, token, TokenOwner(request.device_id), PairingKey(config, lib, env.entropy))
  {
    var key := PairingKey(config, lib, env.entropy);
    var token := CreateAuthToken(lib, request.device_id, key, env.now.unix, env.entropy.nonce);
    assert Lawful(lib) && KeyBytes(lib, key).Ok? ==> ValidateAuthToken(lib, token, TokenOwner(request.device_id), key) by {
      if Lawful(lib) && KeyBytes(lib, key).Ok? {
        CreatedTokenValidates(lib, request.device_id, key, env.now.unix, env.entropy.nonce);
      }
    }
    token
  }

  /** How the pairing token is made, for the handler's proof. */
  lemma PairingTokenMade(config: ConfigFile, lib: Library, request: PairRequest, env: Env)
    ensures PairingToken(config, lib, request, env)
      == CreateAuthToken(lib, request.device_id, PairingKey(config, lib, env.entropy), env.now.unix, env.entropy.nonce)
  {
  }

  /** `handle_pair_request`. */
  function PairStep(v: ServerView, masterToken: string, lib: Library, id: nat, request: PairRequest, env: Env): ServerView {
    if request.master_token != masterToken then Send(v, id, ErrorReply(INVALID_PAIRING_TOKEN))
    else
      var key := PairingKey(v.config, lib, env.entropy);
      var device := AuthorizedDevice(request.device_id, request.device_name, request.device_model,
                                     env.now.rfc3339, env.now.rfc3339);
      var config := v.config.(secret_key := Some(key),
                              authorized_devices := v.config.authorized_devices[request.device_id := device]);
      var clients := Bind(WithoutDevice(v.clients, request.device_id, id), id,
                          ClientInfo(Some(request.device_id), Some(request.device_name), true));
      var w := v.(config := config, clients := clients);
      Send(w, id, PairAck(PairingToken(v.config, lib, request, env), request.device_id, env.now.unix))
  }

  datatype ReconnectVerdict = Unauthorized | NoSecretKey | InvalidToken | Accepted

  /** The checks of `handle_reconnect_request`, in their order: registry, key, token. */
  function ReconnectCheck(config: ConfigFile, lib: Library, request: ReconnectRequest): (verdict: ReconnectVerdict)
    ensures verdict == Unauthorized <==> request.device_id !in config.authorized_devices
    ensures verdict == Accepted <==>
      request.device_id in config.authorized_devices && config.secret_key.Some?
      && ValidateAuthToken(lib, request.auth_token, request.device_id, config.secret_key.value)
  {
    if request.device_id !in config.authorized_devices then Unauthorized
    else if config.secret_key.None? then NoSecretKey
    else if !ValidateAuthToken(lib, request.auth_token, request.device_id, config.secret_key.value) then InvalidToken
    else Accepted
  }

  /** `handle_reconnect_request`. */
  function ReconnectStep(v: ServerView, lib: Library, id: nat, request: ReconnectRequest, env: Env): ServerView {
    match ReconnectCheck(v.config, lib, request)
    case Unauthorized => Send(v, id, ReconnectRefused("unauthorized", NOT_AUTHORIZED_MESSAGE))
    case NoSecretKey => Send(v, id, ErrorReply(SERVER_CONFIGURATION_ERROR))
    case InvalidToken => Send(v, id, ReconnectRefused("invalid_token", INVALID_AUTH_TOKEN_MESSAGE))
    case Accepted =>
      var devices := v.config.authorized_devices;
      var device := devices[request.device_id].(last_seen := env.now.rfc3339);
      var config := v.config.(authorized_devices := devices[request.device_id := device]);
      var clients := Bind(WithoutDevice(v.clients, request.device_id, id), id,
                          ClientInfo(Some(request.device_id), Some(device.device_name), true));
      Send(v.(config := config, clients := clients), id, Reconnected(request.device_id, env.now.unix))
  }

  /**
   * The token check of `handle_scan_message`, in its order: an authenticated
   * connection needs only a registered device id; otherwise an auth token,
   * when present, must validate for a registered id; otherwise the plain
   * token must be the master token.
   */
  predicate ScanAccepted(clients: Clients, config: ConfigFile, masterToken: string, lib: Library, id: nat, message: ScanMessage): (ok: bool)
    ensures ok ==> message.device_id in config.authorized_devices || message.token == Some(masterToken)
    ensures ok && message.auth_token.Some? && !(id in clients && clients[id].authenticated) ==>
      config.secret_key.Some? && ValidateAuthToken(lib, message.auth_token.value, message.device_id, config.secret_key.value)
    ensures !(id in clients && clients[id].authenticated) && message.auth_token.None? ==>
      (ok <==> message.token == Some(masterToken))
  {
    if id in clients && clients[id].authenticated then
      message.device_id in config.authorized_devices
    else if message.auth_token.Some? then
      config.secret_key.Some? && message.device_id in config.authorized_devices
      && ValidateAuthToken(lib, message.auth_token.value, message.device_id, config.secret_key.value)
    else if message.token.Some? then
      message.token.value == masterToken
    else
      false
  }

  /** The barcode a scan forwards to the front end. */
  function Forwarded(message: ScanMessage): (b: BarcodeMessage)
    requires message.payload.Some?
    ensures b.barcode == message.payload.value.barcode && b.timestamp == message.timestamp
    ensures b.device_id == message.device_id && b.device_name == message.device_name
  {
    BarcodeMessage(message.payload.value.barcode, message.timestamp, message.device_id, message.device_name)
  }

  /** `handle_scan_message`. */
  function ScanStep(v: ServerView, masterToken: string, lib: Library, id: nat, message: ScanMessage): ServerView {
    if message.payload.None? then Send(v, id, ErrorReply(MISSING_PAYLOAD))
    else if !ScanAccepted(v.clients, v.config, masterToken, lib, id, message) then Send(v, id, ErrorReply(INVALID_TOKEN))
    else
      var clients := Bind(v.clients, id, ClientInfo(Some(message.device_id), message.device_name, true));
      var w := Send(v.(clients := clients), id, ScanAck(message.payload.value.barcode));
      w.(forwarded := w.forwarded + [Forwarded(message)])
  }

  /** The `action` of a JSON object, when it is a string. */
  function ActionOf(j: Json): (a: Option<string>)
    ensures a.Some? <==> j.JObject? && HasString(j.fields, "action")
    ensures a.Some? ==> HoldsString(j.fields, "action", a.value)
  {
    if j.JObject? && "action" in j.fields && j.fields["action"].JStr? then Some(j.fields["action"].s) else None
  }

  /** One turn of the loop in `handle_connection`, for a frame that arrived on `id`. */
  function FrameStep(v: ServerView, masterToken: string, lib: Library, id: nat, frame: Frame, env: Env): ServerView {
    if frame.NonText? || frame.json.None? then v
    else
      var j := frame.json.value;
      match ActionOf(j)
      case None => v
      case Some(action) =>
        if action == "handshake" then Send(v, id, HandshakeAck(id, env.now.unix))
        else if action == "pair" then
          match DecodePairRequest(j)
          case Some(request) => PairStep(v, masterToken, lib, id, request, env)
          case None => Send(v, id, ErrorReply(INVALID_PAIR_FORMAT))
        else if action == "reconnect" then
          match DecodeReconnectRequest(j)
          case Some(request) => ReconnectStep(v, lib, id, request, env)
          case None => Send(v, id, ErrorReply(INVALID_RECONNECT_FORMAT))
        else if action == "scan" then
          match DecodeScanMessage(j)
          case Some(message) => ScanStep(v, masterToken, lib, id, message)
          case None => Send(v, id, ErrorReply(INVALID_SCAN_FORMAT))
        else v
  }

  /** The frames of one connection, handled in order until the stream fails or ends. */
  function RunFrames(v: ServerView, masterToken: string, lib: Library, id: nat, incoming: seq<Incoming>): ServerView
    decreases |incoming|
  {
    if incoming == [] then v
    else match incoming[0]
      case TransportError => v
      case Received(frame, env) => RunFrames(FrameStep(v, masterToken, lib, id, frame, env), masterToken, lib, id, incoming[1..])
  }

  /** `handle_connection`: register, run the frames, deregister. */
  function ConnectionStep(v: ServerView, masterToken: string, lib: Library, incoming: seq<Incoming>): ServerView {
    DisconnectStep(RunFrames(ConnectStep(v), masterToken, lib, v.nextClientId, incoming), v.nextClientId)
  }

  // ---------------------------------------------------------------------
  // The server object
  // ---------------------------------------------------------------------

  class WebSocketServer {
    const token: string
    const port: U16
    const lib: Library
    /** The server's own configuration, a copy taken when it was built. */
    const config: AppConfig
    var clients: Clients
    var nextClientId: nat
    var outbox: seq<Outgoing>
    var forwarded: seq<BarcodeMessage>
    /** Whether a shutdown sender is stored, i.e. `start` is serving. */
    var accepting: bool

    function View(): ServerView
      reads this, config
    {
      ServerView(clients, nextClientId, outbox, forwarded, config.Snapshot(), accepting)
    }

    predicate Valid()
      reads this, config
    {
      ValidView(View())
    }

    /** `WebSocketServer::new`: an empty table, the counter at 0, the given configuration. */
    constructor (token: string, port: U16, lib: Library, contents: ConfigFile)
      ensures fresh(config)
      ensures this.token == token && this.port == port && this.lib == lib
      ensures View() == ServerView(map[], 0, [], [], contents, false)
      ensures Valid()
    {
      this.token := token;
      this.port := port;
      this.lib := lib;
      this.config := new AppConfig(contents);
      clients := map[];
      nextClientId := 0;
      outbox := [];
      forwarded := [];
      accepting := false;
    }

    /** `start`, up to storing its shutdown sender; serving is not modelled. */
    method Start()
      modifies this
      ensures View() == old(View()).(accepting := true)
    {
      accepting := true;
    }

    /** `shutdown`. */
    method Shutdown()
      modifies this
      ensures View() == ShutdownStep(old(View()))
    {
      accepting := false;
      clients := map[];
    }

    /** The start of `handle_connection`: take an id and register the connection. */
    method Connect() returns (id: nat)
      modifies this
      ensures id == old(nextClientId)
      ensures View() == ConnectStep(old(View()))
    {
      id := nextClientId;
      nextClientId := nextClientId + 1;
      clients := clients[id := ClientInfo(None, None, false)];
    }

    /** The end of `handle_connection`. */
    method Disconnect(id: nat)
      modifies this
      ensures View() == DisconnectStep(old(View()), id)
    {
      clients := clients - {id};
    }

    method SendToClient(id: nat, reply: Reply)
      modifies this
      ensures View() == Send(old(View()), id, reply)
    {
      if id in clients {
        outbox := outbox + [Outgoing(id, reply)];
      }
    }

    method SendError(id: nat, message: string)
      modifies this
      ensures View() == Send(old(View()), id, ErrorReply(message))
    {
      SendToClient(id, ErrorReply(message));
    }

    /** `remove_previous_device_connection`: collect the other ids bound to the device, then remove them. */
    method RemovePreviousDeviceConnection(deviceId: string, current: nat)
      modifies this
      ensures View() == old(View()).(clients := WithoutDevice(old(clients), deviceId, current))
    {
      var oldIds := set id | id in clients && id != current && clients[id].device_id == Some(deviceId);
      ghost var collected := oldIds;
      while oldIds != {}
        invariant oldIds <= collected
        invariant clients == old(clients) - (collected - oldIds)
        invariant View() == old(View()).(clients := clients)
        decreases oldIds
      {
        var oldId :| oldId in oldIds;
        clients := clients - {oldId};
        oldIds := oldIds - {oldId};
      }
      assert clients == WithoutDevice(old(clients), deviceId, current);
    }

    method HandlePairRequest(id: nat, request: PairRequest, env: Env)
      modifies this, config
      ensures View() == PairStep(old(View()), token, lib, id, request, env)
    {
      ghost var v := View();
      if request.master_token != token {
        SendError(id, INVALID_PAIRING_TOKEN);
        return;
      }
      if config.secret_key.None? {
        config.secret_key := Some(GenerateSecretKey(lib, env.entropy.keyBytes));
      }
      var secretKey := config.secret_key.value;
      var authToken := CreateAuthToken(lib, request.device_id, secretKey, env.now.unix, env.entropy.nonce);
      var device := AuthorizedDevice(request.device_id, request.device_name, request.device_model,
                                     env.now.rfc3339, env.now.rfc3339);
      assert secretKey == PairingKey(v.config, lib, env.entropy);
      PairingTokenMade(v.config, lib, request, env);
      config.AddDevice(device);
      RemovePreviousDeviceConnection(request.device_id, id);
      if id in clients {
        clients := clients[id := ClientInfo(Some(request.device_id), Some(request.device_name), true)];
      }
      assert clients == Bind(WithoutDevice(v.clients, request.device_id, id), id,
                             ClientInfo(Some(request.device_id), Some(request.device_name), true));
      SendToClient(id, PairAck(authToken, request.device_id, env.now.unix));
    }

    method HandleReconnectRequest(id: nat, request: ReconnectRequest, env: Env)
      modifies this, config
      ensures View() == ReconnectStep(old(View()), lib, id, request, env)
    {
      ghost var v := View();
      if !config.IsDeviceAuthorized(request.device_id) {
        SendToClient(id, ReconnectRefused("unauthorized", NOT_AUTHORIZED_MESSAGE));
        return;
      }
      if config.secret_key.None? {
        SendError(id, SERVER_CONFIGURATION_ERROR);
        return;
      }
      var secretKey := config.secret_key.value;
      if !ValidateAuthToken(lib, request.auth_token, request.device_id, secretKey) {
        SendToClient(id, ReconnectRefused("invalid_token", INVALID_AUTH_TOKEN_MESSAGE));
        return;
      }
      assert ReconnectCheck(v.config, lib, request) == Accepted;
      config.TouchDevice(request.device_id, env.now.rfc3339);
      RemovePreviousDeviceConnection(request.device_id, id);
      var deviceName := config.GetDevice(request.device_id);
      ghost var device := v.config.authorized_devices[request.device_id].(last_seen := env.now.rfc3339);
      assert deviceName == Some(device);
      if id in clients {
        clients := clients[id := ClientInfo(Some(request.device_id), Some(deviceName.value.device_name), true)];
      }
      assert clients == Bind(WithoutDevice(v.clients, request.device_id, id), id,
                             ClientInfo(Some(request.device_id), Some(device.device_name), true));
      SendToClient(id, Reconnected(request.device_id, env.now.unix));
    }

    method HandleScanMessage(id: nat, message: ScanMessage)
      modifies this
      ensures View() == ScanStep(old(View()), token, lib, id, message)
    {
      if message.payload.None? {
        SendError(id, MISSING_PAYLOAD);
        return;
      }
      var payload := message.payload.value;
      var isAuthenticated := id in clients && clients[id].authenticated;
      var valid;
      if isAuthenticated {
        valid := config.IsDeviceAuthorized(message.device_id);
      } else if message.auth_token.Some? {
        if config.secret_key.Some? {
          valid := config.IsDeviceAuthorized(message.device_id)
            && ValidateAuthToken(lib, message.auth_token.value, message.device_id, config.secret_key.value);
        } else {
          valid := false;
        }
      } else if message.token.Some? {
        valid := message.token.value == token;
      } else {
        valid := false;
      }
      if !valid {
        SendError(id, INVALID_TOKEN);
        return;
      }
      if id in clients {
        clients := clients[id := ClientInfo(Some(message.device_id), message.device_name, true)];
      }
      SendToClient(id, ScanAck(payload.barcode));
      forwarded := forwarded + [BarcodeMessage(payload.barcode, message.timestamp, message.device_id, message.device_name)];
    }

    /** The body of the loop in `handle_connection`. */
    method HandleFrame(id: nat, frame: Frame, env: Env)
      modifies this, config
      ensures View() == FrameStep(old(View()), token, lib, id, frame, env)
    {
      if frame.NonText? || frame.json.None? {
        return;
      }
      var j := frame.json.value;
      var action := ActionOf(j);
      if action.None? {
        return;
      }
      match action.value {
        case "handshake" =>
          SendToClient(id, HandshakeAck(id, env.now.unix));
        case "pair" =>
          var request := DecodePairRequest(j);
          if request.Some? {
            HandlePairRequest(id, request.value, env);
          } else {
            SendError(id, INVALID_PAIR_FORMAT);
          }
        case "reconnect" =>
          var request := DecodeReconnectRequest(j);
          if request.Some? {
            HandleReconnectRequest(id, request.value, env);
          } else {
            SendError(id, INVALID_RECONNECT_FORMAT);
          }
        case "scan" =>
          var message := DecodeScanMessage(j);
          if message.Some? {
            HandleScanMessage(id, message.value);
          } else {
            SendError(id, INVALID_SCAN_FORMAT);
          }
        case _ =>
      }
    }

    /** `handle_connection`, for a connection that receives `incoming` and then closes. */
    method HandleConnection(incoming: seq<Incoming>) returns (id: nat)
      modifies this, config
      ensures id == old(nextClientId)
      ensures View() == ConnectionStep(old(View()), token, lib, incoming)
    {
      id := Connect();
      var i := 0;
      while i < |incoming|
        invariant 0 <= i <= |incoming|
        invariant RunFrames(View(), token, lib, id, incoming[i..]) == RunFrames(ConnectStep(old(View())), token, lib, id, incoming)
        decreases |incoming| - i
      {
        assert incoming[i..][1..] == incoming[i + 1..];
        match incoming[i] {
          case TransportError =>
            break;
          case Received(frame, env) =>
            HandleFrame(id, frame, env);
        }
        i := i + 1;
      }
      Disconnect(id);
    }

    /** `get_connected_count`: the distinct devices among authenticated connections. */
    method GetConnectedCount() returns (count: nat)
      ensures count == |ConnectedDeviceIds(clients)|
      ensures count <= |clients|
    {
      var uniqueDevices: set<string> := {};
      var remaining := clients.Keys;
      while remaining != {}
        invariant remaining <= clients.Keys
        invariant uniqueDevices == DeviceIdsAmong(clients, clients.Keys - remaining)
        decreases remaining
      {
        var id :| id in remaining;
        DeviceIdsAmongStep(clients, clients.Keys - remaining, id);
        assert clients.Keys - (remaining - {id}) == (clients.Keys - remaining) + {id};
        var client := clients[id];
        if client.authenticated && client.device_id.Some? {
          uniqueDevices := uniqueDevices + {client.device_id.value};
        }
        remaining := remaining - {id};
      }
      assert clients.Keys - remaining == clients.Keys;
      count := |uniqueDevices|;
      ConnectedCountBound(clients);
    }

    /**
     * `get_connected_devices`: one record per authenticated connection with a
     * device, in the table's (unspecified) order.
     */
    method GetConnectedDevices() returns (devices: seq<DeviceInfo>)
      ensures |devices| == |ListedIds(clients)|
      ensures forall d :: d in devices <==> d in ListedDevices(clients)
    {
      devices := [];
      var listed := ListedIds(clients);
      ghost var shown := ListedDevices(clients);
      var remaining := listed;
      while remaining != {}
        invariant remaining <= listed
        invariant |devices| == |listed - remaining|
        invariant forall id :: id in listed - remaining ==> DeviceOf(clients[id]) in devices
        invariant forall d :: d in devices ==> d in shown
        decreases remaining
      {
        var id :| id in remaining;
        assert listed - (remaining - {id}) == (listed - remaining) + {id};
        devices := devices + [DeviceOf(clients[id])];
        remaining := remaining - {id};
      }
      assert listed - remaining == listed;
    }
  }
}
