# ScanLink desktop: pairing, reconnect and scan protocol

This project models the desktop side of ScanLink in Dafny. ScanLink is a Tauri application: a phone scans barcodes and sends them over a WebSocket to the desktop, which forwards them to the front end. The model covers:

- **Wire records** (`models.rs`). Serde's JSON field names and which fields are required or optional.
- **Device registry** (`storage.rs`, `AppConfig`). Its serde defaults.
- **Auth tokens** (`security.rs`). The secret key and master-token generators, the nonce-framed AES-256-GCM encryption, and the `scanlink:<id>:<time>` auth token with its `splitn(3, ':')` check.
- **Token and QR code** (`qr_service.rs`). The pairing token and the shape of the QR data.
- **WebSocket server** (`websocket.rs`). The live-client table, the `handshake`/`pair`/`reconnect`/`scan` handlers, the connected-device queries and `shutdown`.
- **Application slots** (`lib.rs`). The `server`, `connection_info`, `server_task` and `starting` slots, and the commands that start, stop, query and revoke.

Modules follow the source files:

- `Models` (models.dfy), `Security` (security.dfy), `Storage` (storage.dfy), `QrService` (qr_service.dfy), `WebSocket` (websocket.dfy) and `App` (app.dfy).
- `WebSocketProperties` (websocket_properties.dfy) holds the protocol lemmas.
- `Primitives` (primitives.dfy) holds the library functions the source calls: base64, UTF-8, AES-GCM.
- `Wrappers` (wrappers.dfy) holds `Option` and `Result`.

How the model is built:

- **Library functions.** They are the fields of a `Library` record and are not interpreted. Their round-trip laws form the predicate `Lawful`, which lemmas take as a precondition. Where a lemma needs ciphertext integrity, it also takes `Authentic`.
- **Environment as parameters.** Randomness (the key bytes, the nonce, the token index draws) and the clock (`Instant`) are parameters, so every property holds for all draws and all times.
- **Mutable state.** `AppConfig`, `WebSocketServer` and `AppState` are classes whose methods update fields in place. Each method of the server is proved to move its abstract `View()` by a pure step function, for example `ensures View() == PairStep(old(View()), …)`. The protocol properties are lemmas about those step functions.

The model follows the code as written. In particular:

- Revocation deletes the registry entry; there is no revoked flag.
- `scan` still accepts the master token.
- `reconnect` checks the registry before the token.
- The connected count is taken over distinct device ids.
- The running server works on its own copy of the configuration.
- A failed `start_server` leaves `starting` set.

The following behaviours of the code are proved as properties of the model:

- A device id containing `:` can pair, but its auth token never validates for its own id (`ColonDeviceCannotReconnect`). It validates instead for the id before the first `:`. Every device shares the one key, so a device paired as `a:b` can reconnect as a registered device `a` (`ColonDeviceTokenReconnectsPrefix`).
- An unpaired device that authenticates a session with the master token has its second scan refused. The first scan marks the session authenticated, and an authenticated session needs a registered id (`MasterTokenSessionScansOnce`).
- `get_connected_count` can be smaller than the number of authenticated sessions. A scan does not remove older sessions of the same device (`CountBelowSessions`).
- A configuration file with no `minimize_to_tray` field reads as true, while a missing file gives `AppConfig::default()` with false (`DefaultsDisagree`).

## Model

| member | source | states |
|---|---|---|
| Models.EncodeConnectionInfo | src-tauri/src/models.rs:3-11 | the JSON carries ip, port and token, and carries `secretKey` exactly when the key is present |
| Models.DecodeConnectionInfo | src-tauri/src/models.rs:3-11 | decodes exactly when ip and token are strings, port is an integer in u16 range, and secretKey is missing, null or a string; each field is read from its renamed key |
| Models.ConnectionInfoRoundTrip | src-tauri/src/models.rs:3-11 | decoding the encoding of any connection info gives it back |
| Models.EncodeBarcodeMessage | src-tauri/src/models.rs:13-22 | the four fields under their renamed keys; a missing device name is written as null, not skipped |
| Models.DecodeBarcodeMessage | src-tauri/src/models.rs:13-22 | decodes exactly when barcode and deviceId are strings, timestamp is an i64, and deviceName is missing, null or a string |
| Models.BarcodeMessageRoundTrip | src-tauri/src/models.rs:13-22 | encode then decode is the identity |
| Models.EncodeScanPayload | src-tauri/src/models.rs:24-30 | `barcode` is always written, and `type` is written exactly when present |
| Models.DecodeScanPayload | src-tauri/src/models.rs:24-30 | decodes exactly when barcode is a string and type is missing, null or a string |
| Models.ScanPayloadRoundTrip | src-tauri/src/models.rs:24-30 | encode then decode is the identity |
| Models.OptionalPayloadField | src-tauri/src/models.rs:43-44 | a missing or null payload is None; any other value must decode as a scan payload |
| Models.EncodeScanMessage | src-tauri/src/models.rs:32-51 | action, deviceId and timestamp are always written; payload, token and authToken are written exactly when present |
| Models.DecodeScanMessage | src-tauri/src/models.rs:32-51 | decodes exactly when action and deviceId are strings and timestamp is an i64, with every optional field missing, null or well-typed; each field is read from its renamed key |
| Models.ScanMessageRoundTrip | src-tauri/src/models.rs:32-51 | encode then decode is the identity |
| Models.ScanMessageRequired | src-tauri/src/models.rs:34-42 | the encoding holds action, deviceId and timestamp under their renamed keys |
| Models.ScanMessageOptional | src-tauri/src/models.rs:38-50 | each optional string field reads back as the value it was written from |
| Models.ScanMessagePayload | src-tauri/src/models.rs:43-44 | the payload field reads back as the payload it was written from |
| Models.EncodePairRequest | src-tauri/src/models.rs:53-65 | the four required keys are always written, and deviceModel is written exactly when present |
| Models.DecodePairRequest | src-tauri/src/models.rs:53-65 | decodes exactly when action, deviceId, deviceName and masterToken are strings and deviceModel is missing, null or a string |
| Models.PairRequestRoundTrip | src-tauri/src/models.rs:53-65 | encode then decode is the identity |
| Models.PairRequestModelOptional | src-tauri/src/models.rs:61-62 | removing deviceModel still decodes, with no model |
| Models.EncodeReconnectRequest | src-tauri/src/models.rs:67-75 | exactly the keys action, deviceId and authToken |
| Models.DecodeReconnectRequest | src-tauri/src/models.rs:67-75 | decodes exactly when action, deviceId and authToken are all strings |
| Models.ReconnectRequestRoundTrip | src-tauri/src/models.rs:67-75 | encode then decode is the identity |
| Models.EncodeDeviceInfo | src-tauri/src/models.rs:89-104 | deviceModel, pairedAt and lastSeen are written exactly when present |
| Models.DecodeDeviceInfo | src-tauri/src/models.rs:89-104 | decodes exactly when the required strings are present and isConnected, if present, is a boolean; a missing isConnected reads as false |
| Models.DeviceInfoRoundTrip | src-tauri/src/models.rs:89-104 | encode then decode is the identity |
| Models.DeviceInfoConnectedDefault | src-tauri/src/models.rs:102-103 | without isConnected a device info decodes as not connected |
| Security.NewAuthorizedDevice | src-tauri/src/security.rs:23-32 | a new record carries the given id, name and model, and is paired and last seen at the same instant |
| Security.KeyBytes | src-tauri/src/security.rs:61-66 | a key is usable exactly when it base64-decodes to 32 bytes, and those are the key bytes |
| Security.GenerateSecretKey | src-tauri/src/security.rs:36-40 | the generated key decodes back to exactly the 32 random bytes drawn |
| Security.CharsetAt | src-tauri/src/security.rs:45-47 | the alphabet has 62 characters; the one at each index is A-Z, then a-z, then 0-9 |
| Security.GenerateMasterToken | src-tauri/src/security.rs:44-57 | 32 characters, every one of them in A-Z, a-z or 0-9 |
| Security.MasterTokenInjective | src-tauri/src/security.rs:44-57 | equal tokens come from equal draws: the alphabet has no repeated character |
| Security.Encrypt | src-tauri/src/security.rs:60-83 | succeeds exactly when the key is usable, else gives the key's error; the output decodes to the 12-byte nonce followed by the sealed UTF-8 plaintext |
| Security.Decrypt | src-tauri/src/security.rs:86-112 | an unusable key, undecodable base64 or data shorter than 12 bytes is an error; it succeeds whenever the key is usable, the data decodes to at least 12 bytes, the ciphertext opens under the leading nonce and the result is UTF-8; a success is that UTF-8 text |
| Security.DecryptEncrypt | src-tauri/src/security.rs:60-112 | with a usable key, decrypting what encrypt produced gives the plaintext back |
| Security.I64ToString | src-tauri/src/security.rs:116 | the decimal text of a timestamp never contains `:` |
| Security.FirstIndex | src-tauri/src/security.rs:131 | the first position of the separator, or none when it does not occur |
| Security.SplitN | src-tauri/src/security.rs:131 | at most n pieces that join back to the input, all but the last free of the separator, and the last free of it too when fewer than n pieces |
| Security.SplitNAfter | src-tauri/src/security.rs:131 | a separator-free piece followed by the separator splits off as the first piece |
| Security.TokenOwner | src-tauri/src/security.rs:116-132 | the id a token names has no `:`; it is the device id exactly when that has no `:`, and otherwise the device id's text before its first `:` |
| Security.AuthTokenPayload | src-tauri/src/security.rs:116 | the plaintext starts with `scanlink:`, the owner of the device id and a `:` |
| Security.OwnerPieces | src-tauri/src/security.rs:116-132 | `splitn(3, ':')` cuts any token plaintext into three pieces: `scanlink`, the owner of the device id, and the rest |
| Security.AcceptsPayload | src-tauri/src/security.rs:131-132 | a plaintext is accepted only for an id without `:`, since no `splitn` piece before the last holds one |
| Security.CreateAuthToken | src-tauri/src/security.rs:115-124 | with an unusable key the token is empty; for lawful primitives it is empty only then |
| Security.ValidateAuthToken | src-tauri/src/security.rs:127-144 | true exactly when the token decrypts and the plaintext's first two `:`-pieces are `scanlink` and the expected id |
| Security.AcceptedPayloadNamesDevice | src-tauri/src/security.rs:131-143 | an accepted plaintext is `scanlink:<id>` or starts with `scanlink:<id>:`; the timestamp is never looked at |
| Security.NamingPayloadAccepted | src-tauri/src/security.rs:131-143 | conversely, for an id without `:` every such plaintext is accepted |
| Security.ValidateAuthTokenIff | src-tauri/src/security.rs:127-144 | for an id without `:`, a token validates exactly when it decrypts to a plaintext naming that id |
| Security.PayloadPieces | src-tauri/src/security.rs:116-131 | the payload of an id without `:` splits into prefix, id and timestamp |
| Security.CreatedTokenValidates | src-tauri/src/security.rs:115-144 | a token created under a usable key validates for the owner of its device id, which is the id itself when it has no `:` |
| Security.CreatedTokenRejectsOtherDevice | src-tauri/src/security.rs:115-144 | a created token never validates for an id other than the owner of its device id; with `CreatedTokenValidates`, exactly one id accepts it, for every device id |
| Security.ColonPayloadRejected | src-tauri/src/security.rs:116-132 | the payload of an id containing `:` fails the piece check |
| Security.ColonDeviceTokenNeverValidates | src-tauri/src/security.rs:115-144 | a token created for an id containing `:` never validates for that id, whatever the key |
| Security.ColonDeviceTokenValidatesForPrefix | src-tauri/src/security.rs:115-144 | a token created for `a:b`, with `a` free of `:`, validates for the id `a` |
| Security.EmptyTokenNeverValidates | src-tauri/src/security.rs:100-102 | the empty text that a failed create returns never validates |
| Security.ValidTokenIsGenuine | src-tauri/src/security.rs:127-144 | under authentic encryption, a token that validates is the encryption, under some nonce, of a plaintext naming the id |
| Storage.DefaultConfig | src-tauri/src/storage.rs:70-88 | `AppConfig::default()`: no tokens, no devices, every flag false |
| Storage.EncodeAuthorizedDevice | src-tauri/src/security.rs:11-19 | the five snake_case keys, with a missing model written as null |
| Storage.DecodeAuthorizedDevice | src-tauri/src/security.rs:11-19 | decodes exactly when id, name and both times are strings and the model is missing, null or a string |
| Storage.AuthorizedDeviceRoundTrip | src-tauri/src/security.rs:11-19 | encode then decode is the identity |
| Storage.EncodeDevices | src-tauri/src/storage.rs:77-78 | the device map as an object with the same keys |
| Storage.DecodeDevices | src-tauri/src/storage.rs:77-78 | decodes exactly when every value decodes, and keeps every id with its record |
| Storage.DevicesRoundTrip | src-tauri/src/storage.rs:77-78 | encode then decode of the device map is the identity |
| Storage.EncodeConfig | src-tauri/src/storage.rs:57-68 | the saved file has exactly the six snake_case fields |
| Storage.DecodeConfig | src-tauri/src/storage.rs:70-92 | decodes exactly when every present field has its type; missing tokens are None, a missing map is empty, missing `auto_start`/`start_minimized` are false and a missing `minimize_to_tray` is true; every present field's value is the one read |
| Storage.ConfigRoundTrip | src-tauri/src/storage.rs:57-92 | reading what was saved gives the same configuration back |
| Storage.DefaultsDisagree | src-tauri/src/storage.rs:83-92 | an empty file reads with `minimize_to_tray` true while `AppConfig::default()` has it false |
| Storage.LoadConfig | src-tauri/src/storage.rs:22-55 | nothing found or a config that does not decode gives the default; otherwise the decoded config |
| Storage.LoadSaved | src-tauri/src/storage.rs:22-68 | loading a saved config gives it back |
| Storage.AppConfig.constructor | src-tauri/src/storage.rs:70-88 | the object holds exactly the given contents |
| Storage.AppConfig.Clone | src-tauri/src/storage.rs:70 | a fresh object with equal contents |
| Storage.AppConfig.IsDeviceAuthorized | src-tauri/src/storage.rs:107-109 | authorized exactly when `get_device` finds a record |
| Storage.AppConfig.GetDevice | src-tauri/src/storage.rs:112-114 | the record stored under the id, or none when there is none |
| Storage.AppConfig.AddDevice | src-tauri/src/storage.rs:95-97 | stores the record under its own id, overwriting; it is then authorized and found; every other id is unchanged; keying by id is preserved |
| Storage.AppConfig.RemoveDevice | src-tauri/src/storage.rs:99-101 | returns whether the id was present, after which it is absent and every other id unchanged; removing an absent id changes nothing, so a second remove returns false |
| Storage.AppConfig.RevokeAllDevices | src-tauri/src/storage.rs:103-105 | afterwards no id is authorized; nothing else changes |
| Storage.AppConfig.TouchDevice | src-tauri/src/storage.rs:117-119 | the record's `last_seen` becomes the given time when the id is present; otherwise nothing changes; this is the write `reconnect` makes through `get_mut` at websocket.rs:409-411 |
| Storage.RevokedLikeNeverPaired | src-tauri/src/storage.rs:95-101 | on the contents `AddDevice` and `RemoveDevice` produce (`Registered`, `Revoked`), removing a newly added device gives back the contents from before the add: there is no revoked mark |
| QrService.GenerateToken | src-tauri/src/qr_service.rs:8-21 | 32 characters, all in A-Z, a-z or 0-9, built like the master token |
| QrService.GenerateQrCode | src-tauri/src/qr_service.rs:30-61 | succeeds exactly when the QR and PNG steps succeed, and otherwise returns an error naming the failed step; on success it returns the argument unchanged and a `data:image/png;base64,` URL of the PNG |
| WebSocket.Deliver | src-tauri/src/websocket.rs:268-272 | a reply reaches only a connection still in the table; to any other id nothing is sent |
| WebSocket.WithoutDevice | src-tauri/src/websocket.rs:283-298 | keeps the current entry and every entry of another device, and drops the rest |
| WebSocket.Bind | src-tauri/src/websocket.rs:346-350 | rewrites only the given entry, and nothing when it is absent |
| WebSocket.DeviceIdsAmongBound | src-tauri/src/websocket.rs:52-66 | there are no more distinct device ids than entries looked at |
| WebSocket.ConnectedCountBound | src-tauri/src/websocket.rs:52-66 | the connected count never exceeds the table size |
| WebSocket.DeviceOf | src-tauri/src/websocket.rs:73-80 | the listed device carries the entry's id and name, or "Unknown", no model or times, and is connected |
| WebSocket.ReconnectCheck | src-tauri/src/websocket.rs:376-406 | unauthorized exactly when the id is not registered; accepted exactly when it is registered, a key exists and the token validates |
| WebSocket.Forwarded | src-tauri/src/websocket.rs:523-528 | the forwarded message copies barcode, timestamp, device id and device name |
| WebSocket.ActionOf | src-tauri/src/websocket.rs:184 | an action exists exactly when the JSON is an object with a string `action` |
| WebSocket.WebSocketServer.constructor | src-tauri/src/websocket.rs:33-42 | empty table, counter 0, the given token, port and config copy, not yet accepting |
| WebSocket.WebSocketServer.Start | src-tauri/src/websocket.rs:85-90 | the server starts accepting; nothing else changes |
| WebSocket.WebSocketServer.Shutdown | src-tauri/src/websocket.rs:44-50 | stops accepting and empties the table |
| WebSocket.WebSocketServer.Connect | src-tauri/src/websocket.rs:144-161 | the new id is the counter's value; the counter moves on and the entry starts unauthenticated |
| WebSocket.WebSocketServer.Disconnect | src-tauri/src/websocket.rs:262-264 | removes only that connection's entry |
| WebSocket.WebSocketServer.SendToClient | src-tauri/src/websocket.rs:268-272 | appends the reply when the id is in the table |
| WebSocket.WebSocketServer.SendError | src-tauri/src/websocket.rs:274-281 | sends an `error` reply with the message |
| WebSocket.WebSocketServer.RemovePreviousDeviceConnection | src-tauri/src/websocket.rs:283-298 | the table loses exactly the other entries of that device |
| WebSocket.WebSocketServer.HandlePairRequest | src-tauri/src/websocket.rs:300-363 | moves the view by the pairing step: a wrong master token only gets an error; otherwise key, registry, table and `pair_ack` reply as in `PairStep` |
| WebSocket.PairingKey | src-tauri/src/websocket.rs:316-321 | the stored key is kept; otherwise the fresh key decodes to the drawn 32 bytes |
| WebSocket.PairingToken | src-tauri/src/websocket.rs:323-324 | under a usable key the token is not empty and validates for the owner of the paired id |
| WebSocket.ScanAccepted | src-tauri/src/websocket.rs:475-493 | an accepted scan has a registered device id or the master token; an auth token on an unauthenticated connection must validate under the stored key; without one, such a connection is accepted exactly when it brings the master token |
| WebSocket.WebSocketServer.HandleReconnectRequest | src-tauri/src/websocket.rs:365-446 | moves the view by the reconnect step: registry, then key, then token are checked, and only when all pass are the table and `last_seen` updated |
| WebSocket.WebSocketServer.HandleScanMessage | src-tauri/src/websocket.rs:448-534 | moves the view by the scan step: missing payload, then the token cascade, then the rebind, the ack and one forwarded barcode |
| WebSocket.WebSocketServer.HandleFrame | src-tauri/src/websocket.rs:176-260 | dispatches one frame by its action, sending a format error when the request does not decode |
| WebSocket.WebSocketServer.HandleConnection | src-tauri/src/websocket.rs:133-266 | connect, handle frames in order until the stream ends or fails, then remove the entry |
| WebSocket.WebSocketServer.GetConnectedCount | src-tauri/src/websocket.rs:52-66 | the number of distinct device ids among authenticated entries, at most the table size |
| WebSocket.WebSocketServer.GetConnectedDevices | src-tauri/src/websocket.rs:68-83 | one device per authenticated entry with a device id, and exactly those devices |
| WebSocketProperties.ConnectFresh | src-tauri/src/websocket.rs:144-161 | a new connection gets an id no live entry holds, enters unauthenticated without a device, and keeps every other entry |
| WebSocketProperties.FrameStepShrinks | src-tauri/src/websocket.rs:176-260 | a frame never adds an entry and never moves the counter |
| WebSocketProperties.FrameStepReplies | src-tauri/src/websocket.rs:176-260 | a frame gets at most one reply, addressed to its own connection |
| WebSocketProperties.SilentFrames | src-tauri/src/websocket.rs:179-249 | non-text, non-JSON, action-less and unknown-action frames change nothing |
| WebSocketProperties.HandshakeOnlyReplies | src-tauri/src/websocket.rs:187-198 | a handshake is answered with `handshake_ack` and authenticates nothing |
| WebSocketProperties.RunFramesShrinks | src-tauri/src/websocket.rs:176-260 | a run of frames never adds entries and keeps the table's ids below the counter |
| WebSocketProperties.ConnectionLeavesNoEntry | src-tauri/src/websocket.rs:133-266 | after a connection ends its own entry is gone and no entry was added |
| WebSocketProperties.PairRejected | src-tauri/src/websocket.rs:310-314 | a wrong master token gets "Invalid pairing token" and changes neither table nor registry |
| WebSocketProperties.PairAccepted | src-tauri/src/websocket.rs:316-362 | a key exists afterwards, keeping an existing one; the device is registered; the entry is authenticated with id and name; no other entry of the device remains; the `pair_ack` reply is sent |
| WebSocketProperties.PairedTokenOwner | src-tauri/src/websocket.rs:316-406 | for any device id, the handed-out token passes the reconnect checks for exactly one id, the owner of the paired id, while that id is registered |
| WebSocketProperties.ColonDeviceTokenReconnectsPrefix | src-tauri/src/websocket.rs:316-406 | after pairing `a:b`, its token reconnects as `a` exactly when `a` is registered |
| WebSocketProperties.PairedDeviceCanReconnect | src-tauri/src/websocket.rs:316-406 | the token a pairing hands out passes every reconnect check for an id without `:` |
| WebSocketProperties.ColonDeviceCannotReconnect | src-tauri/src/websocket.rs:316-406 | for an id containing `:` that same token is refused as `invalid_token` |
| WebSocketProperties.ReconnectRejected | src-tauri/src/websocket.rs:376-406 | each failed check sends its own reply and changes nothing else |
| WebSocketProperties.ReconnectAccepted | src-tauri/src/websocket.rs:408-446 | `last_seen` is updated; the entry is authenticated under the registered name; no other entry of the device remains; every other device's entries are kept; `connected` is sent |
| WebSocketProperties.ScanRejected | src-tauri/src/websocket.rs:457-499 | a missing payload or failed token check sends the matching error and changes nothing else |
| WebSocketProperties.ScanAcceptedEffects | src-tauri/src/websocket.rs:501-534 | the entry is rebound to the message's device; `scan_ack` is sent; exactly one barcode is forwarded; the registry is unchanged |
| WebSocketProperties.MasterTokenStillScans | src-tauri/src/websocket.rs:488-490 | an unauthenticated connection presenting the master token is accepted |
| WebSocketProperties.MasterTokenSessionScansOnce | src-tauri/src/websocket.rs:475-506 | for an unregistered device the first master-token scan is accepted and the next one refused |
| WebSocketProperties.CountBelowSessions | src-tauri/src/websocket.rs:52-83 | after a master-token scan by an already connected device, two sessions are listed but the count is one |
| WebSocketProperties.FrameStepRegistry | src-tauri/src/websocket.rs:300-446 | a frame never removes a registered device, never replaces an existing key and never touches the master token |
| WebSocketProperties.RunFramesRegistry | src-tauri/src/websocket.rs:176-260 | the same holds over any run of frames on one connection |
| WebSocketProperties.RunEventsRegistry | src-tauri/src/websocket.rs:106-266 | the same holds over any interleaving of connections opening, frames on any connection, and connections closing |
| WebSocketProperties.PairedTokenStaysValid | src-tauri/src/websocket.rs:316-446 | the handed-out token still passes the reconnect checks after any later interleaving of events on any connections |
| App.AppState.constructor | src-tauri/src/lib.rs:484-491 | the loaded configuration with every slot empty and `starting` clear |
| App.AppState.StartServer | src-tauri/src/lib.rs:40-184 | while starting, nothing changes, and the result is the stored info's QR code (Ok exactly when it renders) or "Server is already starting" when none is stored; otherwise the old server is shut down and dropped, and the start succeeds exactly when the local IP is known and the QR code of the new info renders; an IP or QR failure returns the error with `starting` left set and the stored info kept; a success stores the info (port 8081, new token, no key) and a fresh accepting server on a copy of the config, then clears `starting` |
| App.AppState.StopServer | src-tauri/src/lib.rs:186-213 | "Server is not running" when none is stored; otherwise shuts it down and clears the server, task and connection info |
| App.AppState.GetServerState | src-tauri/src/lib.rs:215-230 | running exactly when a server is stored; its connected count, else 0 |
| App.AppState.GetCurrentQrData | src-tauri/src/lib.rs:232-246 | none unless both a server and connection info are stored; when both are, a QR code for the stored info exactly when it renders, else the rendering error |
| App.AppState.GetAuthorizedDevices | src-tauri/src/lib.rs:248-253 | one record per registered id, and exactly the registered records |
| App.AppState.GetConnectedDevices | src-tauri/src/lib.rs:255-263 | the server's listed devices, or none without a server |
| App.AppState.RevokeDevice | src-tauri/src/lib.rs:265-272 | removes the id from the application's registry only; the server's copy is untouched; the save outcome is the result |
| App.AppState.RevokeAllDevices | src-tauri/src/lib.rs:274-281 | empties the application's registry only; the server's copy is untouched; the save outcome is the result |
| App.AppState.RegenerateToken | src-tauri/src/lib.rs:283-305 | the old server is shut down and dropped before starting; while `starting` is stuck no new server is installed and the stored info's QR code is the result; otherwise a new server is started exactly when the local IP is known and the new info's QR code renders, with the stored info, the fresh accepting server and the cleared `starting` of `start_server`'s success, and a failure leaves `starting` set and the info kept |
| App.AppState.ServeFrame | src-tauri/src/lib.rs:118-121 | a frame handled by the running server changes only the server's copy of the configuration, never the application's |

## Left out

- `keyboard.rs`: clipboard access and keyboard simulation are operating-system calls.
- `mdns_service.rs`: mDNS registration is network I/O, and it is never started (`mdns: None` in `run`).
- AES-256-GCM, base64 and UTF-8: these are library code. They are uninterpreted fields of `Primitives.Library`, and their laws are the `Lawful` and `Authentic` preconditions.
- `OsRng`, `thread_rng` and `chrono::Utc::now`: these become parameters (`Entropy`, `Instant`, index draws). Successive clock reads within one handler are taken to return the same instant.
- Persistence.
  - `storage::load`, `save` and `get_config_path` are file I/O. `LoadConfig` takes what was found on disk as a parameter.
  - The handlers ignore the outcome of `save`, so for them it changes nothing.
  - The revoke commands return the outcome of the write as a parameter.
- Text and JSON parsing: the model starts from a parsed JSON value, so malformed text and duplicate keys are not distinguished. A frame that is not valid JSON is `Text(None)`.
- Models.DecodeScanPayload: accepts only the object form. Serde's derived deserialisers also accept a struct written as a JSON array of its fields in order. So a scan whose `payload` is `["4006381333931", null]` is forwarded by the source but refused as malformed here. The other decoders in `Models` likewise model only the object layout that the encoders write.
- Storage.DecodeAuthorizedDevice: accepts only the object form, not serde's array-of-fields form.
- Storage.DecodeConfig: accepts only the object form, not serde's array-of-fields form.
- Serialising `ConnectionInfo` in `generate_qr_code`: it is treated as unable to fail. The record holds only strings and a number, so the "Failed to serialize connection info" branch cannot be reached.
- QR matrix construction, image rendering and PNG encoding: these are the two fallible functions of a `QrRenderer`. `get_local_ip` is a parameter of `StartServer`.
- warp/tokio plumbing.
  - The route, `WebSocketServer::start` beyond setting the shutdown sender, the per-client send task, channels and the shutdown signal are left out.
  - Replies are appended to an outbox, and forwarded barcodes to a sequence.
  - The barcode-emit task in `start_server` and the `server-started` event are left out.
- Concurrency: locks, sleeps and task abort are left out. Each command and each frame is one atomic step. Frames of different connections interleave through `HandleFrame` on any id, and `WebSocketProperties.RunEvents` states an interleaving as a sequence of events; `HandleConnection` runs one connection's frames to the end.
- Security.Encrypt: fails only when the key is unusable. The AES-GCM encryption error of the source is not modelled, because `seal` is a total library function here.
- `run`, the tray, menus, window events, `get_settings`/`update_settings`/autostart, and the `AppSettings` and `WsResponse` records are user-interface and runtime glue.
- The JSON layout of the replies (`handshake_ack`, `pair_ack`, `reconnect_ack`, `scan_ack`, `error`): replies are the `Reply` datatype, not JSON text.
- Counter width: `next_client_id` and the connected count are `usize` in the source and unbounded here. Wrap-around after 2^64 connections is not modelled.
- Order: `HashMap` iteration order is unspecified. `GetAuthorizedDevices` and `GetConnectedDevices` fix the number of results and the set of values, not their order or how often each value occurs.
- WebSocket.WebSocketServer.GetConnectedDevices: two entries can list the same `DeviceInfo`. So the contract states the count and the set of devices, not how often each occurs.
- App.AppState.GetAuthorizedDevices: states the count and the set of records, not their order.
- `security.rs` tests: they call signatures that the file does not have, so nothing is taken from them.
