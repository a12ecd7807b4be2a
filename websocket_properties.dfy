/**
 * What the WebSocket handlers guarantee, stated over the step functions of
 * `WebSocket` (and so over the methods proved equal to them).
 */
module WebSocketProperties {
  import opened Wrappers
  import opened Primitives
  import opened Models
  import opened Security
  import opened Storage
  import opened WebSocket

  /** `w` differs from `v` by at most one reply, and only one addressed to `id`. */
  predicate RepliesOnlyTo(v: ServerView, w: ServerView, id: nat) {
    && v.outbox <= w.outbox
    && |w.outbox| <= |v.outbox| + 1
    && forall k :: |v.outbox| <= k < |w.outbox| ==> w.outbox[k].client == id
  }

  /** Everything but the outbox is as in `v`. */
  predicate OnlyReplied(v: ServerView, w: ServerView) {
    w.clients == v.clients && w.nextClientId == v.nextClientId && w.forwarded == v.forwarded
    && w.config == v.config && w.accepting == v.accepting
  }

  // ---------------------------------------------------------------------
  // Connection lifecycle
  // ---------------------------------------------------------------------

  /**
   * A new connection gets a fresh id: the counter's value, which no live
   * entry holds; it enters unauthenticated and without a device, and every
   * other entry stays.
   */
  lemma ConnectFresh(v: ServerView)
    requires ValidView(v)
    ensures v.nextClientId !in v.clients
    ensures var w := ConnectStep(v);
      && ValidView(w)
      && w.clients.Keys == v.clients.Keys + {v.nextClientId}
      && w.clients[v.nextClientId] == ClientInfo(None, None, false)
      && (forall id :: id in v.clients ==> w.clients[id] == v.clients[id])
      && w.nextClientId == v.nextClientId + 1
  {
  }

  /** Handling a frame never adds an entry and never moves the counter. */
  lemma FrameStepShrinks(v: ServerView, masterToken: string, lib: Library, id: nat, frame: Frame, env: Env)
    ensures var w := FrameStep(v, masterToken, lib, id, frame, env);
      w.clients.Keys <= v.clients.Keys && w.nextClientId == v.nextClientId && w.accepting == v.accepting
    ensures ValidView(v) ==> ValidView(FrameStep(v, masterToken, lib, id, frame, env))
  {
    FrameStepKeeps(v, masterToken, lib, id, frame, env);
  }

  /**
   * What one frame leaves in place: no new entry, the same counter and
   * listening state, and a registry that only grows under the same key.
   */
  predicate Keeps(v: ServerView, w: ServerView) {
    && w.clients.Keys <= v.clients.Keys && w.nextClientId == v.nextClientId && w.accepting == v.accepting
    && RegistryGrows(v.config, w.config)
  }

  lemma FrameStepKeeps(v: ServerView, masterToken: string, lib: Library, id: nat, frame: Frame, env: Env)
    ensures Keeps(v, FrameStep(v, masterToken, lib, id, frame, env))
  {
    if frame.Text? && frame.json.Some? && ActionOf(frame.json.value).Some? {
      var j := frame.json.value;
      var action := ActionOf(j).value;
      if action == "handshake" {
        SendKeeps(v, v, id, HandshakeAck(id, env.now.unix));
      } else if action == "pair" {
        match DecodePairRequest(j)
        case Some(request) => PairStepKeeps(v, masterToken, lib, id, request, env);
        case None => SendKeeps(v, v, id, ErrorReply(INVALID_PAIR_FORMAT));
      } else if action == "reconnect" {
        match DecodeReconnectRequest(j)
        case Some(request) => ReconnectStepKeeps(v, lib, id, request, env);
        case None => SendKeeps(v, v, id, ErrorReply(INVALID_RECONNECT_FORMAT));
      } else if action == "scan" {
        match DecodeScanMessage(j)
        case Some(message) => ScanStepKeeps(v, masterToken, lib, id, message);
        case None => SendKeeps(v, v, id, ErrorReply(INVALID_SCAN_FORMAT));
      }
    }
  }

  lemma SendKeeps(v: ServerView, u: ServerView, id: nat, reply: Reply)
    requires Keeps(v, u)
    ensures Keeps(v, Send(u, id, reply))
  {
  }

  lemma PairStepKeeps(v: ServerView, masterToken: string, lib: Library, id: nat, request: PairRequest, env: Env)
    ensures Keeps(v, PairStep(v, masterToken, lib, id, request, env))
  {
    if request.master_token == masterToken {
      var key := PairingKey(v.config, lib, env.entropy);
      var device := AuthorizedDevice(request.device_id, request.device_name, request.device_model,
                                     env.now.rfc3339, env.now.rfc3339);
      var config := v.config.(secret_key := Some(key),
                              authorized_devices := v.config.authorized_devices[request.device_id := device]);
      var clients := Bind(WithoutDevice(v.clients, request.device_id, id), id,
                          ClientInfo(Some(request.device_id), Some(request.device_name), true));
      SendKeeps(v, v.(config := config, clients := clients), id,
                PairAck(PairingToken(v.config, lib, request, env), request.device_id, env.now.unix));
    } else {
      SendKeeps(v, v, id, ErrorReply(INVALID_PAIRING_TOKEN));
    }
  }

  lemma ReconnectStepKeeps(v: ServerView, lib: Library, id: nat, request: ReconnectRequest, env: Env)
    ensures Keeps(v, ReconnectStep(v, lib, id, request, env))
  {
    if ReconnectCheck(v.config, lib, request) == Accepted {
      var devices := v.config.authorized_devices;
      var device := devices[request.device_id].(last_seen := env.now.rfc3339);
      var config := v.config.(authorized_devices := devices[request.device_id := device]);
      var clients := Bind(WithoutDevice(v.clients, request.device_id, id), id,
                          ClientInfo(Some(request.device_id), Some(device.device_name), true));
      SendKeeps(v, v.(config := config, clients := clients), id, Reconnected(request.device_id, env.now.unix));
    }
  }

  lemma ScanStepKeeps(v: ServerView, masterToken: string, lib: Library, id: nat, message: ScanMessage)
    ensures Keeps(v, ScanStep(v, masterToken, lib, id, message))
  {
    if message.payload.Some? && ScanAccepted(v.clients, v.config, masterToken, lib, id, message) {
      var clients := Bind(v.clients, id, ClientInfo(Some(message.device_id), message.device_name, true));
      SendKeeps(v, v.(clients := clients), id, ScanAck(message.payload.value.barcode));
    }
  }

  /** Each frame produces at most one reply, addressed to the connection it arrived on. */
  lemma FrameStepReplies(v: ServerView, masterToken: string, lib: Library, id: nat, frame: Frame, env: Env)
    ensures RepliesOnlyTo(v, FrameStep(v, masterToken, lib, id, frame, env), id)
  {
    if frame.Text? && frame.json.Some? && ActionOf(frame.json.value).Some? {
      var j := frame.json.value;
      var action := ActionOf(j).value;
      if action == "handshake" {
        SendReplies(v, v, id, HandshakeAck(id, env.now.unix));
      } else if action == "pair" {
        match DecodePairRequest(j)
        case Some(request) => PairStepReplies(v, masterToken, lib, id, request, env);
        case None => SendReplies(v, v, id, ErrorReply(INVALID_PAIR_FORMAT));
      } else if action == "reconnect" {
        match DecodeReconnectRequest(j)
        case Some(request) => ReconnectStepReplies(v, lib, id, request, env);
        case None => SendReplies(v, v, id, ErrorReply(INVALID_RECONNECT_FORMAT));
      } else if action == "scan" {
        match DecodeScanMessage(j)
        case Some(message) => ScanStepReplies(v, masterToken, lib, id, message);
        case None => SendReplies(v, v, id, ErrorReply(INVALID_SCAN_FORMAT));
      }
    }
  }

  /** One `send_to_client` from a view whose outbox is that of `v`. */
  lemma SendReplies(v: ServerView, u: ServerView, id: nat, reply: Reply)
    requires u.outbox == v.outbox
    ensures RepliesOnlyTo(v, Send(u, id, reply), id)
  {
  }

  lemma PairStepReplies(v: ServerView, masterToken: string, lib: Library, id: nat, request: PairRequest, env: Env)
    ensures RepliesOnlyTo(v, PairStep(v, masterToken, lib, id, request, env), id)
  {
    if request.master_token == masterToken {
      var key := PairingKey(v.config, lib, env.entropy);
      var device := AuthorizedDevice(request.device_id, request.device_name, request.device_model,
                                     env.now.rfc3339, env.now.rfc3339);
      var config := v.config.(secret_key := Some(key),
                              authorized_devices := v.config.authorized_devices[request.device_id := device]);
      var clients := Bind(WithoutDevice(v.clients, request.device_id, id), id,
                          ClientInfo(Some(request.device_id), Some(request.device_name), true));
      SendReplies(v, v.(config := config, clients := clients), id,
                  PairAck(PairingToken(v.config, lib, request, env), request.device_id, env.now.unix));
    }
  }

  lemma ReconnectStepReplies(v: ServerView, lib: Library, id: nat, request: ReconnectRequest, env: Env)
    ensures RepliesOnlyTo(v, ReconnectStep(v, lib, id, request, env), id)
  {
    if ReconnectCheck(v.config, lib, request) == Accepted {
      var devices := v.config.authorized_devices;
      var device := devices[request.device_id].(last_seen := env.now.rfc3339);
      var config := v.config.(authorized_devices := devices[request.device_id := device]);
      var clients := Bind(WithoutDevice(v.clients, request.device_id, id), id,
                          ClientInfo(Some(request.device_id), Some(device.device_name), true));
      SendReplies(v, v.(config := config, clients := clients), id, Reconnected(request.device_id, env.now.unix));
    }
  }

  lemma ScanStepReplies(v: ServerView, masterToken: string, lib: Library, id: nat, message: ScanMessage)
    ensures RepliesOnlyTo(v, ScanStep(v, masterToken, lib, id, message), id)
  {
    if message.payload.Some? && ScanAccepted(v.clients, v.config, masterToken, lib, id, message) {
      var clients := Bind(v.clients, id, ClientInfo(Some(message.device_id), message.device_name, true));
      SendReplies(v, v.(clients := clients), id, ScanAck(message.payload.value.barcode));
    }
  }

  /** Frames that are not text, not JSON, or carry no known action change nothing at all. */
  lemma SilentFrames(v: ServerView, masterToken: string, lib: Library, id: nat, j: Json, env: Env)
    ensures FrameStep(v, masterToken, lib, id, NonText, env) == v
    ensures FrameStep(v, masterToken, lib, id, Text(None), env) == v
    ensures ActionOf(j).None? ==> FrameStep(v, masterToken, lib, id, Text(Some(j)), env) == v
    ensures ActionOf(j).Some? && ActionOf(j).value !in {"handshake", "pair", "reconnect", "scan"} ==>
      FrameStep(v, masterToken, lib, id, Text(Some(j)), env) == v
  {
  }

  /** A handshake is answered but authenticates nothing. */
  lemma HandshakeOnlyReplies(v: ServerView, masterToken: string, lib: Library, id: nat, j: Json, env: Env)
    requires ActionOf(j) == Some("handshake")
    ensures var w := FrameStep(v, masterToken, lib, id, Text(Some(j)), env);
      OnlyReplied(v, w) && w.outbox == v.outbox + Deliver(v.clients, id, HandshakeAck(id, env.now.unix))
  {
  }

  /** The frames of a connection never add entries other than by a new connection. */
  lemma {:induction false} RunFramesShrinks(v: ServerView, masterToken: string, lib: Library, id: nat, incoming: seq<Incoming>)
    ensures var w := RunFrames(v, masterToken, lib, id, incoming);
      w.clients.Keys <= v.clients.Keys && w.nextClientId == v.nextClientId
    ensures ValidView(v) ==> ValidView(RunFrames(v, masterToken, lib, id, incoming))
    decreases |incoming|
  {
    if incoming != [] && incoming[0].Received? {
      var u := FrameStep(v, masterToken, lib, id, incoming[0].frame, incoming[0].env);
      FrameStepShrinks(v, masterToken, lib, id, incoming[0].frame, incoming[0].env);
      RunFramesShrinks(u, masterToken, lib, id, incoming[1..]);
    }
  }

  /**
   * No entry outlives its connection: once `handle_connection` returns, the
   * table holds only entries that were there before it began, and the
   * counter has moved past the id it used.
   */
  lemma ConnectionLeavesNoEntry(v: ServerView, masterToken: string, lib: Library, incoming: seq<Incoming>)
    requires ValidView(v)
    ensures var w := ConnectionStep(v, masterToken, lib, incoming);
      && w.clients.Keys <= v.clients.Keys
      && v.nextClientId !in w.clients
      && w.nextClientId == v.nextClientId + 1
      && ValidView(w)
  {
    ConnectFresh(v);
    RunFramesShrinks(ConnectStep(v), masterToken, lib, v.nextClientId, incoming);
  }

  // ---------------------------------------------------------------------
  // Pairing
  // ---------------------------------------------------------------------

  /** A wrong master token is answered with an error and changes nothing else. */
  lemma PairRejected(v: ServerView, masterToken: string, lib: Library, id: nat, request: PairRequest, env: Env)
    requires request.master_token != masterToken
    ensures var w := PairStep(v, masterToken, lib, id, request, env);
      OnlyReplied(v, w) && w.outbox == v.outbox + Deliver(v.clients, id, ErrorReply(INVALID_PAIRING_TOKEN))
  {
  }

  /**
   * A pairing with the right master token: the key is kept or created, the
   * device is filed under its id with both time stamps set to now, every
   * other connection of that device is dropped, this one is bound to it,
   * and the reply carries a token for it.
   */
  lemma PairAccepted(v: ServerView, masterToken: string, lib: Library, id: nat, request: PairRequest, env: Env)
    requires request.master_token == masterToken
    ensures var w := PairStep(v, masterToken, lib, id, request, env);
      && w.config.secret_key == Some(PairingKey(v.config, lib, env.entropy))
      && (v.config.secret_key.Some? ==> w.config.secret_key == v.config.secret_key)
      && w.config.authorized_devices == v.config.authorized_devices[request.device_id :=
           NewAuthorizedDevice(request.device_id, request.device_name, request.device_model, env.now.rfc3339)]
      && w.config.master_token == v.config.master_token
      && w.forwarded == v.forwarded
      && (id in v.clients ==> w.clients[id] == ClientInfo(Some(request.device_id), Some(request.device_name), true))
      && (forall k :: k in w.clients && w.clients[k].device_id == Some(request.device_id) ==> k == id)
      && (forall k :: k in v.clients && k != id && v.clients[k].device_id != Some(request.device_id) ==>
            k in w.clients && w.clients[k] == v.clients[k])
      && w.outbox == v.outbox + Deliver(v.clients, id,
           PairAck(PairingToken(v.config, lib, request, env), request.device_id, env.now.unix))
  {
  }

  /**
   * With lawful primitives and a usable stored key (or none), the token a
   * pairing hands out is accepted by `reconnect` for the same device, as
   * long as the id has no `:`.
   */
  lemma PairedDeviceCanReconnect(v: ServerView, masterToken: string, lib: Library, id: nat, request: PairRequest, env: Env, action: string)
    requires Lawful(lib) && request.master_token == masterToken && ':' !in request.device_id
    requires v.config.secret_key.Some? ==> KeyBytes(lib, v.config.secret_key.value).Ok?
    ensures var w := PairStep(v, masterToken, lib, id, request, env);
      ReconnectCheck(w.config, lib, ReconnectRequest(action, request.device_id, PairingToken(v.config, lib, request, env)))
        == Accepted
  {
    var key := PairingKey(v.config, lib, env.entropy);
    assert KeyBytes(lib, key).Ok?;
    CreatedTokenValidates(lib, request.device_id, key, env.now.unix, env.entropy.nonce);
  }

  /** A device whose id contains `:` pairs, but its token is always refused by `reconnect`. */
  lemma ColonDeviceCannotReconnect(v: ServerView, masterToken: string, lib: Library, id: nat, request: PairRequest, env: Env, action: string)
    requires Lawful(lib) && request.master_token == masterToken && ':' in request.device_id
    requires v.config.secret_key.Some? ==> KeyBytes(lib, v.config.secret_key.value).Ok?
    ensures var w := PairStep(v, masterToken, lib, id, request, env);
      ReconnectCheck(w.config, lib, ReconnectRequest(action, request.device_id, PairingToken(v.config, lib, request, env)))
        == InvalidToken
  {
    var key := PairingKey(v.config, lib, env.entropy);
    assert KeyBytes(lib, key).Ok?;
    ColonDeviceTokenNeverValidates(lib, request.device_id, key, env.now.unix, env.entropy.nonce);
  }

  /**
   * Whatever the device id, the token a pairing hands out is accepted by
   * `reconnect` for exactly one id, the owner of the paired id, and only
   * while that id is registered. For an id containing `:` the owner is
   * another device's id.
   */
  lemma PairedTokenOwner(v: ServerView, masterToken: string, lib: Library, id: nat, request: PairRequest, env: Env,
                         action: string, otherId: string)
    requires Lawful(lib) && request.master_token == masterToken
    requires v.config.secret_key.Some? ==> KeyBytes(lib, v.config.secret_key.value).Ok?
    ensures var w := PairStep(v, masterToken, lib, id, request, env);
      (ReconnectCheck(w.config, lib, ReconnectRequest(action, otherId, PairingToken(v.config, lib, request, env))) == Accepted
       <==> otherId == TokenOwner(request.device_id) && otherId in w.config.authorized_devices)
  {
    var key := PairingKey(v.config, lib, env.entropy);
    assert KeyBytes(lib, key).Ok?;
    PairingTokenMade(v.config, lib, request, env);
    if otherId == TokenOwner(request.device_id) {
      CreatedTokenValidates(lib, request.device_id, key, env.now.unix, env.entropy.nonce);
    } else {
      CreatedTokenRejectsOtherDevice(lib, request.device_id, otherId, key, env.now.unix, env.entropy.nonce);
    }
  }

  /**
   * The token of a device paired as `a:b` lets a device registered as `a`
   * reconnect, and so take over that device's name and connection.
   */
  lemma ColonDeviceTokenReconnectsPrefix(v: ServerView, masterToken: string, lib: Library, id: nat, request: PairRequest, env: Env,
                                         action: string, prefix: string, suffix: string)
    requires Lawful(lib) && request.master_token == masterToken
    requires v.config.secret_key.Some? ==> KeyBytes(lib, v.config.secret_key.value).Ok?
    requires request.device_id == prefix + ":" + suffix && ':' !in prefix
    ensures var w := PairStep(v, masterToken, lib, id, request, env);
      (ReconnectCheck(w.config, lib, ReconnectRequest(action, prefix, PairingToken(v.config, lib, request, env))) == Accepted
       <==> prefix in v.config.authorized_devices)
  {
    FirstIndexAfter(prefix, suffix, ':');
    assert TokenOwner(request.device_id) == prefix;
    assert |prefix| < |request.device_id|;
    PairedTokenOwner(v, masterToken, lib, id, request, env, action, prefix);
  }

  // ---------------------------------------------------------------------
  // Reconnecting
  // ---------------------------------------------------------------------

  /** The three refusals of `reconnect` answer and change nothing else. */
  lemma ReconnectRejected(v: ServerView, lib: Library, id: nat, request: ReconnectRequest, env: Env)
    requires ReconnectCheck(v.config, lib, request) != Accepted
    ensures var w := ReconnectStep(v, lib, id, request, env);
      && OnlyReplied(v, w)
      && w.outbox == v.outbox + Deliver(v.clients, id,
           match ReconnectCheck(v.config, lib, request)
           case Unauthorized => ReconnectRefused("unauthorized", NOT_AUTHORIZED_MESSAGE)
           case NoSecretKey => ErrorReply(SERVER_CONFIGURATION_ERROR)
           case _ => ReconnectRefused("invalid_token", INVALID_AUTH_TOKEN_MESSAGE))
  {
  }

  /**
   * An accepted reconnect refreshes only the device's `last_seen`, drops the
   * device's other connections, binds this one under the registered name,
   * and keeps every other device's connections as they were.
   */
  lemma ReconnectAccepted(v: ServerView, lib: Library, id: nat, request: ReconnectRequest, env: Env)
    requires ReconnectCheck(v.config, lib, request) == Accepted
    ensures var w := ReconnectStep(v, lib, id, request, env);
      var old_device := v.config.authorized_devices[request.device_id];
      && w.config == v.config.(authorized_devices :=
           v.config.authorized_devices[request.device_id := old_device.(last_seen := env.now.rfc3339)])
      && w.forwarded == v.forwarded
      && (id in v.clients ==> w.clients[id] == ClientInfo(Some(request.device_id), Some(old_device.device_name), true))
      && (forall k :: k in w.clients && w.clients[k].device_id == Some(request.device_id) ==> k == id)
      && (forall k :: k in v.clients && k != id && v.clients[k].device_id != Some(request.device_id) ==>
            k in w.clients && w.clients[k] == v.clients[k])
      && w.outbox == v.outbox + Deliver(v.clients, id, Reconnected(request.device_id, env.now.unix))
  {
  }

  // ---------------------------------------------------------------------
  // Scanning
  // ---------------------------------------------------------------------

  /** A scan without payload, or one whose token check fails, is answered with an error and nothing else. */
  lemma ScanRejected(v: ServerView, masterToken: string, lib: Library, id: nat, message: ScanMessage)
    requires message.payload.None? || !ScanAccepted(v.clients, v.config, masterToken, lib, id, message)
    ensures var w := ScanStep(v, masterToken, lib, id, message);
      && OnlyReplied(v, w)
      && w.outbox == v.outbox + Deliver(v.clients, id,
           ErrorReply(if message.payload.None? then MISSING_PAYLOAD else INVALID_TOKEN))
  {
  }

  /**
   * An accepted scan binds the connection to the device the message names,
   * acknowledges the barcode and forwards exactly one barcode message; the
   * configuration is not touched.
   */
  lemma ScanAcceptedEffects(v: ServerView, masterToken: string, lib: Library, id: nat, message: ScanMessage)
    requires message.payload.Some? && ScanAccepted(v.clients, v.config, masterToken, lib, id, message)
    ensures var w := ScanStep(v, masterToken, lib, id, message);
      && w.config == v.config
      && w.forwarded == v.forwarded + [Forwarded(message)]
      && w.clients == Bind(v.clients, id, ClientInfo(Some(message.device_id), message.device_name, true))
      && w.outbox == v.outbox + Deliver(v.clients, id, ScanAck(message.payload.value.barcode))
  {
  }

  /**
   * The master token still admits a scan from a connection that has not
   * authenticated, for any device id, registered or not (so also after
   * the device was revoked).
   */
  lemma MasterTokenStillScans(clients: Clients, config: ConfigFile, masterToken: string, lib: Library, id: nat, message: ScanMessage)
    requires !(id in clients && clients[id].authenticated)
    requires message.auth_token.None? && message.token == Some(masterToken)
    ensures ScanAccepted(clients, config, masterToken, lib, id, message)
  {
  }

  /**
   * Once a connection is authenticated, only the registry decides: a
   * connection admitted by the master token for an unregistered device has
   * its next scan refused, even with the master token again.
   */
  lemma MasterTokenSessionScansOnce(v: ServerView, masterToken: string, lib: Library, id: nat, message: ScanMessage)
    requires id in v.clients && !v.clients[id].authenticated
    requires message.payload.Some? && message.auth_token.None? && message.token == Some(masterToken)
    requires message.device_id !in v.config.authorized_devices
    ensures ScanAccepted(v.clients, v.config, masterToken, lib, id, message)
    ensures var w := ScanStep(v, masterToken, lib, id, message);
      !ScanAccepted(w.clients, w.config, masterToken, lib, id, message)
  {
  }

  /**
   * A scan does not drop the device's other connections, so one device can
   * hold two authenticated connections: `get_connected_count` then reports
   * fewer devices than there are authenticated connections.
   */
  lemma CountBelowSessions(v: ServerView, masterToken: string, lib: Library, message: ScanMessage)
    requires v.clients == map[0 := ClientInfo(Some(message.device_id), None, true), 1 := ClientInfo(None, None, false)]
    requires message.payload.Some? && message.auth_token.None? && message.token == Some(masterToken)
    ensures var w := ScanStep(v, masterToken, lib, 1, message);
      |ConnectedDeviceIds(w.clients)| == 1 && |ListedIds(w.clients)| == 2
  {
    var w := ScanStep(v, masterToken, lib, 1, message);
    assert w.clients == map[0 := ClientInfo(Some(message.device_id), None, true),
                            1 := ClientInfo(Some(message.device_id), message.device_name, true)];
    assert ConnectedDeviceIds(w.clients) == {message.device_id};
    assert ListedIds(w.clients) == {0, 1};
  }

  // ---------------------------------------------------------------------
  // The server's registry over time
  // ---------------------------------------------------------------------

  /** The parts of the configuration a frame can change, and how far. */
  predicate RegistryGrows(c: ConfigFile, d: ConfigFile) {
    && c.authorized_devices.Keys <= d.authorized_devices.Keys
    && (c.secret_key.Some? ==> d.secret_key == c.secret_key)
    && d.master_token == c.master_token
    && d.auto_start == c.auto_start && d.minimize_to_tray == c.minimize_to_tray && d.start_minimized == c.start_minimized
  }

  /** The server never removes a device from its registry and never replaces its key. */
  lemma FrameStepRegistry(v: ServerView, masterToken: string, lib: Library, id: nat, frame: Frame, env: Env)
    ensures RegistryGrows(v.config, FrameStep(v, masterToken, lib, id, frame, env).config)
  {
    FrameStepKeeps(v, masterToken, lib, id, frame, env);
  }

  /** ... and so, over any run of frames, a paired device stays registered under the same key. */
  lemma {:induction false} RunFramesRegistry(v: ServerView, masterToken: string, lib: Library, id: nat, incoming: seq<Incoming>)
    ensures var w := RunFrames(v, masterToken, lib, id, incoming);
      && v.config.authorized_devices.Keys <= w.config.authorized_devices.Keys
      && (v.config.secret_key.Some? ==> w.config.secret_key == v.config.secret_key)
      && w.config.master_token == v.config.master_token
    decreases |incoming|
  {
    if incoming != [] && incoming[0].Received? {
      var u := FrameStep(v, masterToken, lib, id, incoming[0].frame, incoming[0].env);
      FrameStepRegistry(v, masterToken, lib, id, incoming[0].frame, incoming[0].env);
      RunFramesRegistry(u, masterToken, lib, id, incoming[1..]);
    }
  }

  /**
   * What can happen to a running server, in any interleaving of its
   * connection tasks: a connection opens, a frame arrives on some
   * connection, or a connection closes.
   */
  datatype Event = Opened | Arrived(id: nat, frame: Frame, env: Env) | Closed(id: nat)

  function EventStep(v: ServerView, masterToken: string, lib: Library, e: Event): ServerView {
    match e
    case Opened => ConnectStep(v)
    case Arrived(id, frame, env) => FrameStep(v, masterToken, lib, id, frame, env)
    case Closed(id) => DisconnectStep(v, id)
  }

  function RunEvents(v: ServerView, masterToken: string, lib: Library, events: seq<Event>): ServerView
    decreases |events|
  {
    if events == [] then v else RunEvents(EventStep(v, masterToken, lib, events[0]), masterToken, lib, events[1..])
  }

  /** Over any interleaving of events on any connections, the registry only grows and the key stays. */
  lemma {:induction false} RunEventsRegistry(v: ServerView, masterToken: string, lib: Library, events: seq<Event>)
    ensures RegistryGrows(v.config, RunEvents(v, masterToken, lib, events).config)
    decreases |events|
  {
    if events != [] {
      var u := EventStep(v, masterToken, lib, events[0]);
      if events[0].Arrived? {
        FrameStepRegistry(v, masterToken, lib, events[0].id, events[0].frame, events[0].env);
      }
      RunEventsRegistry(u, masterToken, lib, events[1..]);
    }
  }

  /**
   * A token handed out by a pairing keeps working: after any later events
   * on any connections of the same server, `reconnect` still accepts it.
   */
  lemma PairedTokenStaysValid(v: ServerView, masterToken: string, lib: Library, id: nat, request: PairRequest, env: Env,
                              events: seq<Event>, action: string)
    requires Lawful(lib) && request.master_token == masterToken && ':' !in request.device_id
    requires v.config.secret_key.Some? ==> KeyBytes(lib, v.config.secret_key.value).Ok?
    ensures var w := RunEvents(PairStep(v, masterToken, lib, id, request, env), masterToken, lib, events);
      ReconnectCheck(w.config, lib, ReconnectRequest(action, request.device_id, PairingToken(v.config, lib, request, env)))
        == Accepted
  {
    var p := PairStep(v, masterToken, lib, id, request, env);
    PairedDeviceCanReconnect(v, masterToken, lib, id, request, env, action);
    RunEventsRegistry(p, masterToken, lib, events);
  }
}
