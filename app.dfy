/**
 * The application state behind the Tauri commands (src-tauri/src/lib.rs):
 * the `server`, `connection_info`, `server_task` and `starting` slots and
 * the configuration, and the commands that update them.
 *
 * The locks, the sleeps and the spawned tasks are not modelled; a command
 * runs from start to end as one step. What the operating system reports
 * (`get_local_ip`, whether `save` could write the file) is a parameter, and
 * so are the random draws of the new token.
 */
module App {
  import opened Wrappers
  import opened Primitives
  import opened Models
  import opened Security
  import opened Storage
  import opened QrService
  import opened WebSocket

  const SERVER_PORT: U16 := 8081
  const ALREADY_STARTING: string := "Server is already starting"
  const NOT_RUNNING: string := "Server is not running"

  class AppState {
    /** The running server, if any. */
    var server: WebSocketServer?
    /** What the QR code shows. */
    var connection_info: Option<ConnectionInfo>
    /** Whether a handle of the spawned server task is stored. */
    var server_task: bool
    /** Set while `start_server` runs; guards against a second start. */
    var starting: bool
    /** The application's configuration, loaded at launch. */
    const config: AppConfig
    const lib: Library
    const renderer: QrRenderer

    /** The server works on its own copy of the configuration, never on this one. */
    predicate Valid()
      reads this
    {
      server != null ==> server.config != config
    }

    /** The state `run` manages: the loaded configuration and every slot empty. */
    constructor (lib: Library, renderer: QrRenderer, loaded: ConfigFile)
      ensures Valid() && fresh(config)
      ensures server == null && connection_info.None? && !server_task && !starting
      ensures config.Snapshot() == loaded && this.lib == lib && this.renderer == renderer
    {
      this.lib := lib;
      this.renderer := renderer;
      config := new AppConfig(loaded);
      server := null;
      connection_info := None;
      server_task := false;
      starting := false;
    }

    /**
     * `start_server`. While another start is under way it only re-renders
     * the stored QR code. Otherwise it stops any running server, draws a new
     * token, renders the QR code, and installs a new server built on a copy
     * of the configuration. A failure of `get_local_ip` or of the QR code
     * returns at once and leaves `starting` set.
     */
    method StartServer(draws: seq<CharsetIndex>, localIp: Result<string, string>) returns (r: Result<QRCodeData, string>)
      requires Valid() && |draws| == TOKEN_LEN
      modifies this, server
      ensures Valid()
      ensures config.Snapshot() == old(config.Snapshot())
      // another start is under way: nothing changes
      ensures old(starting) ==>
        && server == old(server) && connection_info == old(connection_info)
        && server_task == old(server_task) && starting
        && (server != null ==> server.View() == old(server.View()))
        && (old(connection_info).None? ==> r == Err(ALREADY_STARTING))
        && (r.Ok? ==> old(connection_info).Some? && r.value.connection_info == old(connection_info).value)
      // otherwise the old server is shut down and dropped first
      ensures !old(starting) && old(server) != null ==> old(server).View() == ShutdownStep(old(server.View()))
      ensures !old(starting) && localIp.Err? ==>
        r == Err(localIp.error) && starting && server == null && connection_info == old(connection_info)
      ensures !old(starting) && r.Err? ==> starting && server == null && connection_info == old(connection_info)
      // the stored info's QR code while another start is under way
      ensures old(starting) && old(connection_info).Some? ==>
        (r.Ok? <==> QrRenders(renderer, old(connection_info).value)) && (r.Ok? ==> DATA_URL_PREFIX <= r.value.qr_base64)
      // otherwise a server is started exactly when the address is known and the QR code renders
      ensures !old(starting) ==>
        (r.Ok? <==> localIp.Ok? && QrRenders(renderer, ConnectionInfo(localIp.value, SERVER_PORT, GenerateToken(draws), None)))
      ensures !old(starting) && r.Ok? ==>
        var info := ConnectionInfo(localIp.value, SERVER_PORT, GenerateToken(draws), None);
        && localIp.Ok?
        && r.value.connection_info == info && DATA_URL_PREFIX <= r.value.qr_base64
        && connection_info == Some(info)
        && server != null && fresh(server) && fresh(server.config)
        && server.token == info.token && server.port == SERVER_PORT
        && server.View() == ServerView(map[], 0, [], [], config.Snapshot(), true)
        && server_task && !starting
    {
      if starting {
        if connection_info.Some? {
          r := GenerateQrCode(lib, renderer, connection_info.value);
          return;
        }
        return Err(ALREADY_STARTING);
      }
      starting := true;

      if server != null {
        server.Shutdown();
        server := null;
        server_task := false;
      }

      var token := GenerateToken(draws);
      if localIp.Err? {
        return Err(localIp.error);
      }
      var info := ConnectionInfo(localIp.value, SERVER_PORT, token, None);
      var qr := GenerateQrCode(lib, renderer, info);
      if qr.Err? {
        return Err(qr.error);
      }
      connection_info := Some(info);
      var contents := config.Snapshot();
      var ws := new WebSocketServer(token, SERVER_PORT, lib, contents);
      server := ws;
      ws.Start();
      server_task := true;
      starting := false;
      r := Ok(qr.value);
    }

    /** `stop_server`: an error when no server is stored, else shut it down and clear both slots. */
    method StopServer() returns (r: Result<(), string>)
      requires Valid()
      modifies this, server
      ensures Valid()
      ensures old(server) == null ==> r == Err(NOT_RUNNING) && connection_info == old(connection_info)
      ensures old(server) != null ==> r.Ok? && old(server).View() == ShutdownStep(old(server.View()))
      ensures server == null && !server_task == (old(server) != null || !old(server_task))
      ensures old(server) != null ==> connection_info.None?
      ensures starting == old(starting)
    {
      if server == null {
        return Err(NOT_RUNNING);
      }
      server.Shutdown();
      server_task := false;
      server := null;
      connection_info := None;
      r := Ok(());
    }

    /** `get_server_state`: running means a server is stored; its connected count, else 0. */
    method GetServerState() returns (s: ServerState)
      ensures s.is_running <==> server != null
      ensures server != null ==> s.connected_clients == |ConnectedDeviceIds(server.clients)|
      ensures server == null ==> s.connected_clients == 0
    {
      if server != null {
        var count := server.GetConnectedCount();
        s := ServerState(true, count);
      } else {
        s := ServerState(false, 0);
      }
    }

    /** `get_current_qr_data`: a QR code only when both a server and connection info are stored. */
    method GetCurrentQrData() returns (r: Result<Option<QRCodeData>, string>)
      ensures server == null || connection_info.None? ==> r == Ok(None)
      ensures server != null && connection_info.Some? ==>
        (r.Ok? <==> QrRenders(renderer, connection_info.value)) && (r.Ok? ==> r.value.Some?)
      ensures r.Ok? && r.value.Some? ==>
        server != null && connection_info.Some? && r.value.value.connection_info == connection_info.value
        && DATA_URL_PREFIX <= r.value.value.qr_base64
    {
      if server != null && connection_info.Some? {
        var qr := GenerateQrCode(lib, renderer, connection_info.value);
        if qr.Err? {
          return Err(qr.error);
        }
        return Ok(Some(qr.value));
      }
      return Ok(None);
    }

    /** `get_authorized_devices`: every record of the application's registry, in map order. */
    method GetAuthorizedDevices() returns (devices: seq<AuthorizedDevice>)
      ensures |devices| == |config.authorized_devices|
      ensures forall d :: d in devices <==> d in config.authorized_devices.Values
    {
      devices := [];
      var registry := config.authorized_devices;
      var remaining := registry.Keys;
      while remaining != {}
        invariant remaining <= registry.Keys
        invariant |devices| == |registry.Keys - remaining|
        invariant forall id :: id in registry.Keys - remaining ==> registry[id] in devices
        invariant forall d :: d in devices ==> d in registry.Values
        decreases remaining
      {
        var id :| id in remaining;
        assert registry.Keys - (remaining - {id}) == (registry.Keys - remaining) + {id};
        devices := devices + [registry[id]];
        remaining := remaining - {id};
      }
      assert registry.Keys - remaining == registry.Keys;
    }

    /** `get_connected_devices`: the server's list, or none without a server. */
    method GetConnectedDevices() returns (devices: seq<DeviceInfo>)
      ensures server == null ==> devices == []
      ensures server != null ==> |devices| == |ListedIds(server.clients)|
      ensures server != null ==> forall d :: d in devices <==> d in ListedDevices(server.clients)
    {
      if server == null {
        return [];
      }
      devices := server.GetConnectedDevices();
    }

    /**
     * `revoke_device`: removes the record from the application's registry;
     * the result is that of writing the file. The running server's copy is
     * not touched.
     */
    method RevokeDevice(device_id: string, saved: Result<(), string>) returns (r: Result<(), string>)
      requires Valid()
      modifies config
      ensures r == saved
      ensures config.Snapshot() == old(config.Snapshot()).(authorized_devices := old(config.authorized_devices) - {device_id})
      ensures !config.IsDeviceAuthorized(device_id)
      ensures server != null ==> server.config.Snapshot() == old(server.config.Snapshot())
    {
      var _ := config.RemoveDevice(device_id);
      r := saved;
    }

    /** `revoke_all_devices`: empties the application's registry only. */
    method RevokeAllDevices(saved: Result<(), string>) returns (r: Result<(), string>)
      requires Valid()
      modifies config
      ensures r == saved
      ensures config.Snapshot() == old(config.Snapshot()).(authorized_devices := map[])
      ensures server != null ==> server.config.Snapshot() == old(server.config.Snapshot())
    {
      config.RevokeAllDevices();
      r := saved;
    }

    /**
     * `regenerate_token`: drop and shut down any server, then `start_server`.
     * The `starting` flag is not consulted first, so while it is stuck the
     * server is stopped and none replaces it.
     */
    method RegenerateToken(draws: seq<CharsetIndex>, localIp: Result<string, string>) returns (r: Result<QRCodeData, string>)
      requires Valid() && |draws| == TOKEN_LEN
      modifies this, server
      ensures Valid()
      ensures old(server) != null ==> old(server).View() == ShutdownStep(old(server.View()))
      ensures old(starting) ==> server == null && starting && connection_info == old(connection_info)
      ensures old(starting) && old(connection_info).None? ==> r == Err(ALREADY_STARTING)
      ensures old(starting) && old(connection_info).Some? ==> (r.Ok? <==> QrRenders(renderer, old(connection_info).value))
      ensures !old(starting) ==>
        (r.Ok? <==> localIp.Ok? && QrRenders(renderer, ConnectionInfo(localIp.value, SERVER_PORT, GenerateToken(draws), None)))
      ensures !old(starting) && r.Ok? ==>
        var info := ConnectionInfo(localIp.value, SERVER_PORT, GenerateToken(draws), None);
        && r.value.connection_info == info && DATA_URL_PREFIX <= r.value.qr_base64
        && connection_info == Some(info)
        && server != null && fresh(server) && server.token == info.token && server.port == SERVER_PORT
        && server.View() == ServerView(map[], 0, [], [], config.Snapshot(), true)
        && server_task && !starting
      ensures !old(starting) && r.Err? ==> starting && server == null && connection_info == old(connection_info)
    {
      if server != null {
        server.Shutdown();
      }
      server := null;
      server_task := false;
      r := StartServer(draws, localIp);
    }

    /**
     * The spawned server task handling one frame: the server's copy of the
     * configuration may change (a pairing), the application's does not, so
     * `get_authorized_devices` never shows what the server paired.
     */
    method ServeFrame(id: nat, frame: Frame, env: Env)
      requires Valid() && server != null
      modifies server, server.config
      ensures server.View() == FrameStep(old(server.View()), server.token, server.lib, id, frame, env)
      ensures config.Snapshot() == old(config.Snapshot())
    {
      server.HandleFrame(id, frame, env);
    }
  }
}
