/**
  The life of one PHP built-in server (`PHPBuiltInServer`,
  src/model/BuiltInServer.ts:87-338): `newInstance` validates the host and
  fills the instance data, `start` writes the router, opens the websocket and
  the terminal running `php -S`, and from then on file changes reload the
  browser (or re-run the script in headless mode) until the terminal closes
  or the server is destroyed.

  The editor, the file system, the websocket and the terminal are outside the
  model: what the server asks of them is appended to the log `effects`, their
  answers come in as parameters (`dirOk`, `writeOk`) or as the callback
  methods (`OnListening`, `OnIoClosed`, `OnTransportClosed`,
  `OnTerminalClosed`, `OnFileChanged`).
*/
module Lifecycle {
  import opened Wrappers
  import opened Strings
  import opened ServerData
  import opened Validation
  import opened ContextItems
  import opened Router
  import opened ChangeFilter

  /**
    The settings and platform a server runs with: the root file, whether the
    server runs headless (no router, no websocket, the script re-run in the
    terminal), whether the terminal is cleared before a re-run, whether the
    platform is Windows, and the configured globals.
  */
  datatype Config = Config(
    root: string,
    headless: bool,
    clearTerminalOnSave: bool,
    isWindows: bool,
    envVars: seq<Entry>,
    consts: seq<Entry>)

  /** What the terminal is created with. `shellPath` is absent in headless mode. */
  datatype TerminalOptions = TerminalOptions(name: string, transient: bool, shellArgs: seq<string>, shellPath: Option<string>)

  /** A request the server makes of the outside world, in the order it makes them. */
  datatype Effect =
    | WriteRouter(dir: string, content: string)
    | ListenSocket(port: int, origin: string)
    | CreateTerminal(options: TerminalOptions)
    | TerminalText(text: string)
    | ShowTerminal
    | SocketSend(msg: string)
    | CloseSocket
    | DisposeTerminal
    | DisposeWatcher
    | EmitClose

  /** The context key that tells the editor a server is running is the extension id with this suffix. */
  const IS_RUNNING_SUFFIX := ".isRunning"

  /** The arguments PHP is started with: `-H`, and in served mode the address and the router. */
  function ServerArgs(headless: bool, serverPort: int): (args: seq<string>)
    ensures |args| > 0 && args[0] == "-H"
    ensures headless <==> |args| == 1
    ensures !headless ==> |args| == 4 && args[1] == "-S" && StartsWith(args[2], "localhost:") && args[3] == ROUTER_PATH
  {
    ["-H"] + if headless then [] else ["-S", "localhost:" + IntToString(serverPort), ROUTER_PATH]
  }

  /** The port PHP listens on can be read back from its `-S` argument. */
  lemma ServerArgsPort(serverPort: nat)
    ensures var arg := ServerArgs(false, serverPort)[2];
            |arg| > 10 && (forall i :: 10 <= i < |arg| ==> IsDigit(arg[i]))
            && DigitsValue(arg[10..]) == serverPort
  {
    var arg := ServerArgs(false, serverPort)[2];
    assert arg[10..] == NatToString(serverPort);
    NatToStringRoundTrip(serverPort);
  }

  /** The terminal's title: the display name, and in served mode the server port. */
  function TerminalName(displayName: string, headless: bool, serverPort: int): string {
    displayName + " " + if headless then "" else "[:" + IntToString(serverPort) + "]"
  }

  /** The command a headless server types into its terminal; an unset executable prints as `null`. */
  function RunCommand(exec: Option<string>, root: string): string {
    (if exec.Some? then exec.value else "null") + " " + root
  }

  /** `cls` on Windows, `clear` elsewhere. */
  function ClearCommand(isWindows: bool): string {
    if isWindows then "cls" else "clear"
  }

  /** The only origin the websocket accepts: the PHP server's own address. */
  function Origin(serverPort: int): string {
    "http://localhost:" + IntToString(serverPort)
  }

  /**
    Where `send` delivers a message: to the websocket while it is active;
    otherwise, only for a headless server and a message sent as headless, the
    terminal is (optionally) cleared and the script re-run; otherwise nowhere.
  */
  function SendPlan(socketIsActive: bool, config: Config, headlessArg: bool, hasTerminal: bool,
                    command: string, msg: string): (r: seq<Effect>)
    ensures socketIsActive ==> r == [SocketSend(msg)]
    ensures !socketIsActive ==> forall k :: 0 <= k < |r| ==> r[k].TerminalText?
    ensures r == [] <==> !socketIsActive && !(config.headless && headlessArg && hasTerminal)
    ensures !socketIsActive && r != [] ==>
              r[|r| - 1] == TerminalText(command)
              && |r| == (if config.clearTerminalOnSave then 2 else 1)
              && (|r| == 2 ==> r[0] == TerminalText(ClearCommand(config.isWindows)))
  {
    if socketIsActive then [SocketSend(msg)]
    else if config.headless && headlessArg && hasTerminal then
      (if config.clearTerminalOnSave then [TerminalText(ClearCommand(config.isWindows))] else [])
      + [TerminalText(command)]
    else []
  }

  /** A message not sent as headless never reaches the terminal; it is dropped when no socket is active. */
  lemma NonHeadlessMessageNeedsSocket(socketIsActive: bool, config: Config, hasTerminal: bool, command: string, msg: string)
    ensures SendPlan(socketIsActive, config, false, hasTerminal, command, msg)
            == if socketIsActive then [SocketSend(msg)] else []
  {
  }

  class BuiltInServer {
    const data: InstanceData
    const config: Config
    const info: ExtensionInfo
    /** The random token the router hands to the browser and the websocket checks. */
    const token: string
    /** The router template shipped with the extension. */
    const template: string
    /** The editor context key telling whether the server runs. */
    const serverIsActive: ContextItem
    /** The reasons `start` failed. */
    var errors: seq<ErrorReason>
    /** Set once the websocket listens; cleared when it closes. */
    var socketIsActive: bool
    /** Whether the websocket server was created (`io` is set). */
    var ioCreated: bool
    /** The terminal running PHP, once created. */
    var terminal: Option<TerminalOptions>
    /** Whether the file watcher reports changes to the server. */
    var watching: bool
    /** Everything asked of the outside world, in order. */
    var effects: seq<Effect>

    /**
      The socket is active only once created, and created only in served mode
      after a clean start; the terminal exists only after a clean start; the
      context says running only while files are watched, and files are watched
      only with a terminal.
    */
    ghost predicate Valid()
      reads this, serverIsActive
    {
      && serverIsActive.Valid()
      && serverIsActive.identifier == info.id + IS_RUNNING_SUFFIX
      && (socketIsActive ==> ioCreated)
      && (ioCreated ==> !config.headless && errors == [])
      && (terminal.Some? ==> errors == [])
      && (serverIsActive.value ==> watching)
      && (watching ==> terminal.Some?)
    }

    /** The state right after construction. */
    ghost predicate Fresh()
      reads this, serverIsActive
    {
      && errors == [] && !socketIsActive && !ioCreated && terminal.None? && !watching
      && effects == [] && !serverIsActive.value && serverIsActive.Commands == []
    }

    constructor (data: InstanceData, config: Config, info: ExtensionInfo, token: string, template: string)
      ensures Valid() && Fresh()
      ensures fresh(serverIsActive)
      ensures this.data == data && this.config == config && this.info == info
      ensures this.token == token && this.template == template
    {
      this.data := data;
      this.config := config;
      this.info := info;
      this.token := token;
      this.template := template;
      serverIsActive := new ContextItem(info.id + IS_RUNNING_SUFFIX);
      errors := [];
      socketIsActive, ioCreated := false, false;
      terminal := None;
      watching := false;
      effects := [];
    }

    /** The `setContext` command that marks the server stopped: issued only when the context said running. */
    function StopCommand(wasRunning: bool): seq<SetContext>
      reads this
    {
      if wasRunning then [SetContext(serverIsActive.identifier, false)] else []
    }

    /** `serverIsRunning`: no start error, the socket listens and the context says running. */
    predicate ServerIsRunning()
      reads this, serverIsActive
    {
      errors == [] && socketIsActive && serverIsActive.value
    }

    /** The router file written into project folder `dir` for a websocket on `socketPort`. */
    function RouterFile(dir: string, socketPort: int): Effect {
      WriteRouter(dir, RouterText(template, info, socketPort, token, config.envVars, config.consts))
    }

    /** The options the PHP terminal is created with, for a server on `serverPort` run by `exec`. */
    function Options(serverPort: int, exec: Option<string>): TerminalOptions {
      TerminalOptions(
        TerminalName(info.displayName, config.headless, serverPort),
        config.headless,
        ServerArgs(config.headless, serverPort),
        if config.headless then None else exec)
    }

    /** `applyRouter`: nothing in headless mode; else make `.vscode` and write the router into it. */
    method ApplyRouter(dirOk: bool, writeOk: bool)
      requires data.projectDir.Some?
      modifies this`errors, this`effects
      ensures config.headless ==> errors == old(errors) && effects == old(effects)
      ensures !config.headless && !dirOk ==> errors == old(errors) + [VscodeDirFailed] && effects == old(effects)
      ensures !config.headless && dirOk ==>
                && effects == old(effects) + [RouterFile(data.projectDir.value, data.socketPort)]
                && errors == old(errors) + if writeOk then [] else [RouterWriteFailed]
    {
      if config.headless {
        return;
      }
      if !dirOk {
        errors := errors + [VscodeDirFailed];
        return;
      }
      var statements := CollectGlobalStatements(config.envVars, config.consts);
      var globals := Join(statements, GLOBALS_SEPARATOR);
      var text := ReplaceAll(template, RouterVariables(info, data.socketPort, token, globals));
      effects := effects + [WriteRouter(data.projectDir.value, text)];
      if !writeOk {
        errors := errors + [RouterWriteFailed];
      }
    }

    /** `initWebSocket`: only after a clean router step and only in served mode. */
    method InitWebSocket()
      modifies this`ioCreated, this`effects
      ensures errors != [] || config.headless ==> ioCreated == old(ioCreated) && effects == old(effects)
      ensures errors == [] && !config.headless ==>
                ioCreated && effects == old(effects) + [ListenSocket(data.socketPort, Origin(data.serverPort))]
    {
      if errors != [] || config.headless {
        return;
      }
      effects := effects + [ListenSocket(data.socketPort, Origin(data.serverPort))];
      ioCreated := true;
    }

    /** `initPHPBuiltInServer`: only after a clean router step; headless runs the script once at once. */
    method InitPHPBuiltInServer()
      modifies this`terminal, this`effects
      ensures errors != [] ==> terminal == old(terminal) && effects == old(effects)
      ensures errors == [] ==>
                && terminal == Some(Options(data.serverPort, data.phpExecutable))
                && effects == old(effects) + [CreateTerminal(Options(data.serverPort, data.phpExecutable))]
                              + if config.headless then [TerminalText(RunCommand(data.phpExecutable, data.phpRoot))] else []
    {
      if errors != [] {
        return;
      }
      var options := Options(data.serverPort, data.phpExecutable);
      terminal := Some(options);
      effects := effects + [CreateTerminal(options)];
      if config.headless {
        effects := effects + [TerminalText(RunCommand(data.phpExecutable, data.phpRoot))];
      }
    }

    /**
      The three steps of `start` after the root check, case by case: headless,
      only the terminal (running the script once); served, the router, then
      the websocket and the terminal unless the router step failed.
    */
    method Prepare(dirOk: bool, writeOk: bool)
      requires Fresh() && data.CanStart()
      modifies this`errors, this`ioCreated, this`terminal, this`effects
      ensures config.headless ==>
                && errors == [] && !ioCreated && terminal == Some(Options(data.serverPort, data.phpExecutable))
                && effects == [CreateTerminal(Options(data.serverPort, data.phpExecutable)),
                               TerminalText(RunCommand(data.phpExecutable, data.phpRoot))]
      ensures !config.headless && !dirOk ==>
                errors == [VscodeDirFailed] && !ioCreated && terminal.None? && effects == []
      ensures !config.headless && dirOk && !writeOk ==>
                && errors == [RouterWriteFailed] && !ioCreated && terminal.None?
                && effects == [RouterFile(data.projectDir.value, data.socketPort)]
      ensures !config.headless && dirOk && writeOk ==>
                && errors == [] && ioCreated && terminal == Some(Options(data.serverPort, data.phpExecutable))
                && effects == [RouterFile(data.projectDir.value, data.socketPort),
                               ListenSocket(data.socketPort, Origin(data.serverPort)),
                               CreateTerminal(Options(data.serverPort, data.phpExecutable))]
    {
      ApplyRouter(dirOk, writeOk);
      InitWebSocket();
      InitPHPBuiltInServer();
    }

    /**
      `start`, called once on data that can start: a root that is not a `.php`
      file is refused before anything happens; a failed router step emits
      `close` and refuses; otherwise the terminal is shown, files are watched
      and the context says running.
    */
    method Start(dirOk: bool, writeOk: bool) returns (resolved: bool)
      requires Valid() && Fresh() && data.CanStart()
      modifies this, serverIsActive
      ensures Valid()
      ensures resolved <==> EndsWith(data.phpRoot, ".php") && (config.headless || (dirOk && writeOk))
      ensures !EndsWith(data.phpRoot, ".php") ==> errors == [RootNotPhp(data.phpRoot)] && effects == []
      ensures EndsWith(data.phpRoot, ".php") && !config.headless && !dirOk ==>
                errors == [VscodeDirFailed] && effects == [EmitClose]
      ensures EndsWith(data.phpRoot, ".php") && !config.headless && dirOk && !writeOk ==>
                errors == [RouterWriteFailed] && effects == [RouterFile(data.projectDir.value, data.socketPort), EmitClose]
      ensures ioCreated <==> resolved && !config.headless
      ensures !resolved ==> !ioCreated && terminal.None? && !watching && serverIsActive.Commands == []
      ensures resolved ==>
                && errors == [] && !socketIsActive && watching && terminal == Some(Options(data.serverPort, data.phpExecutable))
                && serverIsActive.Commands == [SetContext(info.id + IS_RUNNING_SUFFIX, true)]
      ensures resolved && !config.headless ==>
                effects == [RouterFile(data.projectDir.value, data.socketPort), ListenSocket(data.socketPort, Origin(data.serverPort)),
                            CreateTerminal(Options(data.serverPort, data.phpExecutable)), ShowTerminal]
      ensures resolved && config.headless ==>
                effects == [CreateTerminal(Options(data.serverPort, data.phpExecutable)), TerminalText(RunCommand(data.phpExecutable, data.phpRoot)),
                            ShowTerminal]
    {
      if !EndsWith(data.phpRoot, ".php") {
        errors := errors + [RootNotPhp(data.phpRoot)];
        return false;
      }
      Prepare(dirOk, writeOk);
      if |errors| > 0 {
        effects := effects + [EmitClose];
        return false;
      }
      effects := effects + [ShowTerminal];
      watching := true;
      serverIsActive.SetValue(true);
      return true;
    }

    /** `send`: see `SendPlan`. */
    method Send(msg: string, headlessArg: bool)
      requires Valid()
      modifies this`effects
      ensures Valid()
      ensures effects == old(effects) + SendPlan(socketIsActive, config, headlessArg, terminal.Some?,
                                                 RunCommand(data.phpExecutable, data.phpRoot), msg)
    {
      if socketIsActive {
        effects := effects + [SocketSend(msg)];
      } else if config.headless && headlessArg {
        if config.clearTerminalOnSave && terminal.Some? {
          effects := effects + [TerminalText(ClearCommand(config.isWindows))];
        }
        if terminal.Some? {
          effects := effects + [TerminalText(RunCommand(data.phpExecutable, data.phpRoot))];
        }
      }
    }

    /**
      `dispose`: the context says stopped, the socket is asked to close (or
      marked inactive at once when there is none to close, or when the
      transport already closed), the terminal and the watcher are disposed,
      and `close` is emitted, on every call.
    */
    method Dispose(sockets: bool)
      requires Valid()
      modifies this`socketIsActive, this`watching, this`effects, serverIsActive
      ensures Valid()
      ensures !serverIsActive.value && !watching && !ServerIsRunning()
      ensures socketIsActive == (old(socketIsActive) && sockets && ioCreated)
      ensures serverIsActive.Commands == old(serverIsActive.Commands) + StopCommand(old(serverIsActive.value))
      ensures effects == old(effects) + (if sockets && ioCreated then [CloseSocket] else [])
                         + (if terminal.Some? then [DisposeTerminal] else []) + [DisposeWatcher, EmitClose]
    {
      serverIsActive.SetValue(false);
      if sockets && ioCreated {
        effects := effects + [CloseSocket];
      } else {
        socketIsActive := false;
      }
      if terminal.Some? {
        effects := effects + [DisposeTerminal];
      }
      watching := false;
      effects := effects + [DisposeWatcher, EmitClose];
    }

    /** `destroy`: dispose, closing the socket too. */
    method Destroy()
      requires Valid()
      modifies this`socketIsActive, this`watching, this`effects, serverIsActive
      ensures Valid()
      ensures !serverIsActive.value && !watching && !ServerIsRunning()
      ensures socketIsActive == (old(socketIsActive) && ioCreated)
      ensures serverIsActive.Commands == old(serverIsActive.Commands) + StopCommand(old(serverIsActive.value))
      ensures effects == old(effects) + (if ioCreated then [CloseSocket] else [])
                         + (if terminal.Some? then [DisposeTerminal] else []) + [DisposeWatcher, EmitClose]
    {
      Dispose(true);
    }

    /** The websocket's `listen` callback. */
    method OnListening()
      requires Valid() && ioCreated
      modifies this`socketIsActive
      ensures Valid() && socketIsActive
    {
      socketIsActive := true;
    }

    /** The callback of closing the websocket: only a close without error marks it inactive. */
    method OnIoClosed(ok: bool)
      requires Valid()
      modifies this`socketIsActive
      ensures Valid()
      ensures socketIsActive == (old(socketIsActive) && !ok)
    {
      if ok {
        socketIsActive := false;
      }
    }

    /** The HTTP transport under the websocket closed: dispose without closing the socket. */
    method OnTransportClosed()
      requires Valid() && ioCreated
      modifies this`socketIsActive, this`watching, this`effects, serverIsActive
      ensures Valid()
      ensures !socketIsActive && !ServerIsRunning() && !watching
      ensures serverIsActive.Commands == old(serverIsActive.Commands) + StopCommand(old(serverIsActive.value))
      ensures effects == old(effects) + (if terminal.Some? then [DisposeTerminal] else []) + [DisposeWatcher, EmitClose]
    {
      Dispose(false);
    }

    /**
      A terminal closed: when it is this server's own PHP terminal, `kill` is
      sent to the browser and the server is destroyed; any other terminal, or
      no terminal yet, changes nothing.
    */
    method OnTerminalClosed(samePid: bool)
      requires Valid()
      modifies this`socketIsActive, this`watching, this`effects, serverIsActive
      ensures Valid()
      ensures terminal.None? || !samePid ==>
                effects == old(effects) && socketIsActive == old(socketIsActive) && watching == old(watching)
                && serverIsActive.value == old(serverIsActive.value)
                && serverIsActive.Commands == old(serverIsActive.Commands)
      ensures terminal.Some? && samePid ==>
                && !ServerIsRunning() && !watching
                && socketIsActive == (old(socketIsActive) && ioCreated)
                && serverIsActive.Commands == old(serverIsActive.Commands) + StopCommand(old(serverIsActive.value))
                && effects == old(effects)
                              + SendPlan(old(socketIsActive), config, false, true, RunCommand(data.phpExecutable, data.phpRoot), "kill")
                              + (if ioCreated then [CloseSocket] else []) + [DisposeTerminal, DisposeWatcher, EmitClose]
    {
      if terminal.None? || !samePid {
        return;
      }
      Send("kill", false);
      Destroy();
    }

    /** A changed file while watching: `refresh` is sent unless the path is ignored. */
    method OnFileChanged(path: string)
      requires Valid()
      modifies this`effects
      ensures Valid()
      ensures effects == old(effects) +
                if watching && ShouldRefresh(path)
                then SendPlan(socketIsActive, config, true, terminal.Some?, RunCommand(data.phpExecutable, data.phpRoot), "refresh")
                else []
    {
      if watching && ShouldRefresh(path) {
        Send("refresh", true);
      }
    }
  }

  /** A headless server never counts as running: its socket is never created. */
  lemma HeadlessNeverRunning(server: BuiltInServer)
    requires server.Valid() && server.config.headless
    ensures !server.ServerIsRunning()
  {
  }

  /** A running server watches files and runs a terminal, in served mode, after a clean start. */
  lemma RunningServerServes(server: BuiltInServer)
    requires server.Valid() && server.ServerIsRunning()
    ensures server.watching && server.terminal.Some? && server.ioCreated && !server.config.headless
  {
  }

  /** The data can start exactly when nothing was recorded and neither port is the unset marker. */
  lemma AcceptedFields(host: Host, findPort: int -> Option<int>)
    ensures Accepted(host, findPort) <==>
              && ValidationErrors(host, findPort) == []
              && ChosenExec(host).Some? && host.workspaceDir.Some?
              && ChosenServerPort(host, findPort).Some? && ChosenServerPort(host, findPort).value != UNSET_PORT
              && ChosenSocketPort(host, findPort).Some? && ChosenSocketPort(host, findPort).value != UNSET_PORT
  {
    var errors := ValidationErrors(host, findPort);
    if errors == [] {
      assert NoPhpExecutable !in errors && NoWorkspaceDir !in errors;
      assert NoServerPort !in errors && NoSocketPort !in errors;
    }
  }

  /**
    The data `newInstance` fills: the executable is checked (a configured one
    must exist), then the executable, the workspace folder and the two ports
    are set in that order, each missing one recording its reason.
  */
  method ValidatedData(host: Host, findPort: int -> Option<int>, root: string) returns (data: InstanceData)
    ensures fresh(data)
    ensures data.errors == ValidationErrors(host, findPort)
    ensures data.phpRoot == root
    ensures data.phpExecutable == ChosenExec(host) && data.projectDir == host.workspaceDir
    ensures data.serverPort == (if ChosenServerPort(host, findPort).Some? then ChosenServerPort(host, findPort).value else UNSET_PORT)
    ensures data.socketPort == (if ChosenSocketPort(host, findPort).Some? then ChosenSocketPort(host, findPort).value else UNSET_PORT)
  {
    data := new InstanceData(root);
    var exec := host.configuredExec;
    if host.configuredExec.Some? && host.configuredExec.value != "" {
      if !host.configuredExecExists {
        data.PushError(ExecutableNotFound(host.configuredExec.value));
      }
    } else {
      exec := host.discoveredExec;
    }
    var serverPort := if host.configuredPort.Some? then host.configuredPort else findPort(DEFAULT_BASE_PORT);
    var socketPort := None;
    if serverPort.Some? {
      socketPort := findPort(serverPort.value + 1);
    }
    assert exec == ChosenExec(host);
    assert serverPort == ChosenServerPort(host, findPort) && socketPort == ChosenSocketPort(host, findPort);
    ghost var missing := if ConfiguredExecMissing(host) then [ExecutableNotFound(host.configuredExec.value)] else [];
    assert data.errors == missing;
    data.SetPHPExec(exec);
    assert data.phpExecutable == exec;
    ghost var noExec := if exec.None? then [NoPhpExecutable] else [];
    assert data.errors == missing + noExec;
    data.SetProjectDir(host.workspaceDir);
    assert data.projectDir == host.workspaceDir;
    ghost var noDir := if host.workspaceDir.None? then [NoWorkspaceDir] else [];
    assert data.errors == missing + noExec + noDir;
    data.SetServerPort(serverPort);
    assert data.serverPort == if serverPort.Some? then serverPort.value else UNSET_PORT;
    ghost var noServer := if serverPort.None? then [NoServerPort] else [];
    assert data.errors == missing + noExec + noDir + noServer;
    data.SetSocketPort(socketPort);
    assert data.socketPort == if socketPort.Some? then socketPort.value else UNSET_PORT;
    ghost var noSocket := if socketPort.None? then [NoSocketPort] else [];
    assert data.errors == missing + noExec + noDir + noServer + noSocket;
  }

  /**
    `newInstance`: the server is built whether or not its data can start; the
    promise resolves only if it can.
  */
  method NewInstance(host: Host, findPort: int -> Option<int>, config: Config, info: ExtensionInfo,
                     token: string, template: string)
    returns (server: BuiltInServer, resolved: bool)
    ensures fresh(server) && fresh(server.data) && fresh(server.serverIsActive)
    ensures server.Valid() && server.Fresh()
    ensures server.config == config && server.info == info && server.token == token && server.template == template
    ensures server.data.errors == ValidationErrors(host, findPort)
    ensures server.data.phpRoot == config.root
    ensures server.data.phpExecutable == ChosenExec(host) && server.data.projectDir == host.workspaceDir
    ensures server.data.serverPort == (if ChosenServerPort(host, findPort).Some? then ChosenServerPort(host, findPort).value else UNSET_PORT)
    ensures server.data.socketPort == (if ChosenSocketPort(host, findPort).Some? then ChosenSocketPort(host, findPort).value else UNSET_PORT)
    ensures resolved == server.data.CanStart()
    ensures resolved <==> Accepted(host, findPort)
  {
    var data := ValidatedData(host, findPort, config.root);
    AcceptedFields(host, findPort);
    resolved := data.CanStart();
    server := new BuiltInServer(data, config, info, token, template);
  }

  /**
    What a served start asks for, on a host where `newInstance` resolves: the
    router, the websocket on the socket port accepting the server's origin, the
    PHP terminal serving on the server port, and showing it.
  */
  function ServedStartLog(host: Host, findPort: int -> Option<int>, config: Config, info: ExtensionInfo,
                          token: string, template: string): seq<Effect>
    requires Accepted(host, findPort)
  {
    AcceptedFields(host, findPort);
    var serverPort := ChosenServerPort(host, findPort).value;
    var socketPort := ChosenSocketPort(host, findPort).value;
    [WriteRouter(host.workspaceDir.value, RouterText(template, info, socketPort, token, config.envVars, config.consts)),
     ListenSocket(socketPort, Origin(serverPort)),
     CreateTerminal(TerminalOptions(TerminalName(info.displayName, false, serverPort), false,
                                    ServerArgs(false, serverPort), ChosenExec(host))),
     ShowTerminal]
  }

  /** `newInstance` and `start` in served mode on a host where both succeed. */
  method StartServed(host: Host, findPort: int -> Option<int>, config: Config, info: ExtensionInfo,
                     token: string, template: string)
    returns (server: BuiltInServer)
    requires Accepted(host, findPort) && !config.headless && EndsWith(config.root, ".php")
    ensures fresh(server) && fresh(server.serverIsActive) && server.Valid()
    ensures server.config == config && server.ioCreated && !server.socketIsActive
    ensures server.watching && server.serverIsActive.value && server.terminal.Some?
    ensures server.effects == ServedStartLog(host, findPort, config, info, token, template)
  {
    var resolved;
    server, resolved := NewInstance(host, findPort, config, info, token, template);
    AcceptedFields(host, findPort);
    var started := server.Start(true, true);
  }

  /**
    A served session after `StartServed`: the websocket listens, an edited file
    reloads the browser, then the user closes the PHP terminal: the browser is
    told `kill`, the server is destroyed, and when the websocket's transport
    closes in turn the server is disposed once more, so `close` is emitted twice.
  */
  method ServedSession(server: BuiltInServer, edited: string) returns (runningBefore: bool, runningAfter: bool)
    requires server.Valid() && !server.config.headless && ShouldRefresh(edited)
    requires server.ioCreated && server.watching && server.serverIsActive.value
    modifies server, server.serverIsActive
    ensures runningBefore && !runningAfter
    ensures server.effects == old(server.effects)
              + [SocketSend("refresh"), SocketSend("kill"), CloseSocket, DisposeTerminal, DisposeWatcher, EmitClose,
                 DisposeTerminal, DisposeWatcher, EmitClose]
  {
    ghost var started := server.effects;
    server.OnListening();
    server.OnFileChanged(edited);
    assert server.effects == started + [SocketSend("refresh")];
    runningBefore := server.ServerIsRunning();
    server.OnTerminalClosed(true);
    ghost var closing := [SocketSend("refresh"), SocketSend("kill"), CloseSocket, DisposeTerminal, DisposeWatcher, EmitClose];
    assert server.effects == started + closing;
    server.OnIoClosed(true);
    server.OnTransportClosed();
    runningAfter := server.ServerIsRunning();
  }

  /** `newInstance` and `start` in headless mode on a host where `newInstance` resolves. */
  method StartHeadless(host: Host, findPort: int -> Option<int>, config: Config, info: ExtensionInfo,
                       token: string, template: string)
    returns (server: BuiltInServer)
    requires Accepted(host, findPort) && config.headless && EndsWith(config.root, ".php")
    ensures fresh(server) && fresh(server.serverIsActive) && server.Valid()
    ensures server.config == config && server.watching && server.serverIsActive.value
    ensures server.data.phpExecutable == ChosenExec(host) && server.data.phpRoot == config.root
    ensures var run := TerminalText(RunCommand(ChosenExec(host), config.root));
            && |server.effects| == 3 && server.effects[1..] == [run, ShowTerminal]
            && server.effects[0].CreateTerminal? && server.effects[0].options.transient
            && server.effects[0].options.shellPath.None? && server.effects[0].options.shellArgs == ["-H"]
  {
    var resolved;
    server, resolved := NewInstance(host, findPort, config, info, token, template);
    var started := server.Start(true, true);
  }

  /**
    A headless session after `StartHeadless`: an edited file re-runs the script
    (after clearing the terminal when so configured), the server never counts as
    running, and closing the terminal sends nothing anywhere before the server
    is destroyed.
  */
  method HeadlessSession(server: BuiltInServer, edited: string) returns (running: bool)
    requires server.Valid() && server.config.headless && ShouldRefresh(edited)
    requires server.watching && server.serverIsActive.value
    modifies server, server.serverIsActive
    ensures !running
    ensures var run := TerminalText(RunCommand(server.data.phpExecutable, server.data.phpRoot));
            server.effects == old(server.effects)
                              + (if server.config.clearTerminalOnSave then [TerminalText(ClearCommand(server.config.isWindows))] else [])
                              + [run, DisposeTerminal, DisposeWatcher, EmitClose]
  {
    server.OnFileChanged(edited);
    running := server.ServerIsRunning();
    server.OnTerminalClosed(true);
  }
}
