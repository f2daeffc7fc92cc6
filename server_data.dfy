/**
  The validated data of one server instance (`PHPBuiltInServerInstanceData`,
  src/model/BuiltInServer.ts:14-75) and the reasons a start can fail
  (`PHPBuiltInServerErrorReason`, src/model/BuiltInServer.ts:77-85, together
  with the decorated messages the server pushes beside them).
*/
module ServerData {
  import opened Wrappers
  import opened Strings

  /** The error reasons that are recorded, in the order they are appended. */
  datatype ErrorReason =
    | NoWorkspaceDir
    | NoPhpExecutable
    | NoServerPort
    | NoSocketPort
      /** the configured executable does not exist */
    | ExecutableNotFound(path: string)
      /** the configured root file is not a `.php` file */
    | RootNotPhp(root: string)
      /** the `.vscode` folder could not be created */
    | VscodeDirFailed
      /** the router file could not be written */
    | RouterWriteFailed

  const NO_WORKSPACE_DIR := "No workspace active"
  const NO_PHP_EXECUTABLE := "A PHP executable not found under normal PATH conventions. Please add to your system path variable or apply one in settings"
  const NO_SERVER_PORT := "No open port found to create server"
  const NO_SOCKET_PORT := "No open port found to create websocket"
  const CREATING_VSCODE_DIR := "Can not create .vscode folder in workspace"
  const CREATING_PHP_ROUTER := "Can not create server router in .vscode"
  const REVIEW_HINT := ". Review output panel for full details"

  /** The text the source stores for each reason. */
  function Message(e: ErrorReason): (m: string)
    ensures e.VscodeDirFailed? || e.RouterWriteFailed? ==> EndsWith(m, REVIEW_HINT)
  {
    match e
    case NoWorkspaceDir => NO_WORKSPACE_DIR
    case NoPhpExecutable => NO_PHP_EXECUTABLE
    case NoServerPort => NO_SERVER_PORT
    case NoSocketPort => NO_SOCKET_PORT
    case ExecutableNotFound(path) => "Can not find provided php executable '" + path + "'"
    case RootNotPhp(root) =>
      CREATING_PHP_ROUTER + " directory. The provided root file '" + root + "' is not a php file"
    case VscodeDirFailed => CREATING_VSCODE_DIR + REVIEW_HINT
    case RouterWriteFailed => CREATING_PHP_ROUTER + REVIEW_HINT
  }

  /** The port value a port field holds before it is set. */
  const UNSET_PORT := -1

  class InstanceData {
    var errors: seq<ErrorReason>
    var serverPort: int
    var socketPort: int
    var projectDir: Option<string>
    var phpExecutable: Option<string>
    /** The configured root file, read once when the data is created. */
    const phpRoot: string

    constructor (root: string)
      ensures errors == [] && serverPort == UNSET_PORT && socketPort == UNSET_PORT
      ensures projectDir == None && phpExecutable == None && phpRoot == root
    {
      errors := [];
      serverPort, socketPort := UNSET_PORT, UNSET_PORT;
      projectDir, phpExecutable := None, None;
      phpRoot := root;
    }

    /** `getErrors().push(e)`: the caller appends to the list directly. */
    method PushError(e: ErrorReason)
      modifies this`errors
      ensures errors == old(errors) + [e]
    {
      errors := errors + [e];
    }

    method SetProjectDir(dir: Option<string>)
      modifies this`projectDir, this`errors
      ensures dir.Some? ==> projectDir == dir && errors == old(errors)
      ensures dir.None? ==> projectDir == old(projectDir) && errors == old(errors) + [NoWorkspaceDir]
    {
      if dir.Some? {
        projectDir := dir;
      } else {
        errors := errors + [NoWorkspaceDir];
      }
    }

    method SetPHPExec(path: Option<string>)
      modifies this`phpExecutable, this`errors
      ensures path.Some? ==> phpExecutable == path && errors == old(errors)
      ensures path.None? ==> phpExecutable == old(phpExecutable) && errors == old(errors) + [NoPhpExecutable]
    {
      if path.Some? {
        phpExecutable := path;
      } else {
        errors := errors + [NoPhpExecutable];
      }
    }

    method SetServerPort(port: Option<int>)
      modifies this`serverPort, this`errors
      ensures port.Some? ==> serverPort == port.value && errors == old(errors)
      ensures port.None? ==> serverPort == old(serverPort) && errors == old(errors) + [NoServerPort]
    {
      if port.Some? {
        serverPort := port.value;
      } else {
        errors := errors + [NoServerPort];
      }
    }

    method SetSocketPort(port: Option<int>)
      modifies this`socketPort, this`errors
      ensures port.Some? ==> socketPort == port.value && errors == old(errors)
      ensures port.None? ==> socketPort == old(socketPort) && errors == old(errors) + [NoSocketPort]
    {
      if port.Some? {
        socketPort := port.value;
      } else {
        errors := errors + [NoSocketPort];
      }
    }

    /** Nothing went wrong and every field was set. */
    predicate CanStart()
      reads this
    {
      && errors == []
      && projectDir.Some?
      && phpExecutable.Some?
      && serverPort != UNSET_PORT
      && socketPort != UNSET_PORT
    }
  }
}

/**
  What `PHPBuiltInServer.newInstance` (src/model/BuiltInServer.ts:105-138)
  resolves before it fills an `InstanceData`: the executable, the workspace
  folder and the two ports, with the outside world given as inputs.
*/
module Validation {
  import opened Wrappers
  import opened ServerData

  /**
    The answers of the outside world: the workspace folder of the active editor,
    the `phpExecutable` setting, whether that file exists (`false` also when the
    check throws), the executable found on the PATH, and the `server.port` setting.
  */
  datatype Host = Host(
    workspaceDir: Option<string>,
    configuredExec: Option<string>,
    configuredExecExists: bool,
    discoveredExec: Option<string>,
    configuredPort: Option<int>)

  /** The port search starts here when no start is given (src/model/Utils.ts:53). */
  const DEFAULT_BASE_PORT := 5000

  /** A port search answers with a port at or above where it started, or with nothing. */
  ghost predicate PortSearch(findPort: int -> Option<int>) {
    forall start :: findPort(start).Some? ==> start <= findPort(start).value
  }

  /** A non-empty setting is used as given; otherwise the executable is looked up on the PATH. */
  function ChosenExec(host: Host): Option<string> {
    if host.configuredExec.Some? && host.configuredExec.value != "" then host.configuredExec
    else host.discoveredExec
  }

  /** The configured port if there is one, else the first free one from the default base. */
  function ChosenServerPort(host: Host, findPort: int -> Option<int>): Option<int> {
    if host.configuredPort.Some? then host.configuredPort else findPort(DEFAULT_BASE_PORT)
  }

  /** The socket port search starts just above the server port, and only if there is one. */
  function ChosenSocketPort(host: Host, findPort: int -> Option<int>): (p: Option<int>)
    ensures PortSearch(findPort) && ChosenServerPort(host, findPort).Some? && p.Some? ==>
              ChosenServerPort(host, findPort).value < p.value
    ensures ChosenServerPort(host, findPort).None? ==> p.None?
  {
    var server := ChosenServerPort(host, findPort);
    if server.Some? then findPort(server.value + 1) else None
  }

  /** Where a reason comes in the order `newInstance` checks things. */
  function Rank(e: ErrorReason): nat {
    match e
    case ExecutableNotFound(_) => 0
    case NoPhpExecutable => 1
    case NoWorkspaceDir => 2
    case NoServerPort => 3
    case NoSocketPort => 4
    case _ => 5
  }

  /** Whether the configured executable is reported as missing. */
  predicate ConfiguredExecMissing(host: Host) {
    host.configuredExec.Some? && host.configuredExec.value != "" && !host.configuredExecExists
  }

  /** The reasons `newInstance` records, in the order it records them. */
  function ValidationErrors(host: Host, findPort: int -> Option<int>): seq<ErrorReason> {
    (if ConfiguredExecMissing(host) then [ExecutableNotFound(host.configuredExec.value)] else [])
    + (if ChosenExec(host).None? then [NoPhpExecutable] else [])
    + (if host.workspaceDir.None? then [NoWorkspaceDir] else [])
    + (if ChosenServerPort(host, findPort).None? then [NoServerPort] else [])
    + (if ChosenSocketPort(host, findPort).None? then [NoSocketPort] else [])
  }

  /** Each check records its reason exactly when it fails; no server port means no socket port either. */
  lemma ValidationErrorsReasons(host: Host, findPort: int -> Option<int>)
    ensures var errors := ValidationErrors(host, findPort);
            && (NoPhpExecutable in errors <==> ChosenExec(host).None?)
            && (NoWorkspaceDir in errors <==> host.workspaceDir.None?)
            && (NoServerPort in errors <==> ChosenServerPort(host, findPort).None?)
            && (NoSocketPort in errors <==> ChosenSocketPort(host, findPort).None?)
            && (NoServerPort in errors ==> NoSocketPort in errors)
  {
  }

  /** Ranks strictly increase along `errors` and stay below `bound`. */
  predicate RankedBelow(errors: seq<ErrorReason>, bound: nat)
    decreases |errors|
  {
    errors == [] || (Rank(Last(errors)) < bound && RankedBelow(errors[..|errors| - 1], Rank(Last(errors))))
  }

  function Last(errors: seq<ErrorReason>): ErrorReason
    requires errors != []
  {
    errors[|errors| - 1]
  }

  /** A looser bound still holds. */
  lemma {:induction false} RankedBelowWeaken(errors: seq<ErrorReason>, bound: nat, looser: nat)
    requires RankedBelow(errors, bound) && bound <= looser
    ensures RankedBelow(errors, looser)
  {
  }

  /** Appending nothing, or one reason of rank `bound`, keeps the order and raises the bound by one. */
  lemma AppendRanked(errors: seq<ErrorReason>, next: seq<ErrorReason>, bound: nat)
    requires RankedBelow(errors, bound)
    requires next == [] || (|next| == 1 && Rank(next[0]) == bound)
    ensures RankedBelow(errors + next, bound + 1)
  {
    if next == [] {
      assert errors + next == errors;
      RankedBelowWeaken(errors, bound, bound + 1);
    } else {
      assert (errors + next)[..|errors|] == errors;
    }
  }

  /** What `RankedBelow` means position by position. */
  lemma {:induction false} RankedBelowIndexwise(errors: seq<ErrorReason>, bound: nat)
    requires RankedBelow(errors, bound)
    ensures forall k :: 0 <= k < |errors| ==> Rank(errors[k]) < bound
    ensures forall k :: 0 <= k < |errors| - 1 ==> Rank(errors[k]) < Rank(errors[k + 1])
    decreases |errors|
  {
    if errors != [] {
      var init := errors[..|errors| - 1];
      RankedBelowIndexwise(init, Rank(Last(errors)));
      assert forall k :: 0 <= k < |init| ==> errors[k] == init[k];
    }
  }

  /** Five checks, each adding nothing or its one reason, give reasons in rank order. */
  lemma RankedParts(missing: seq<ErrorReason>, noExec: seq<ErrorReason>, noDir: seq<ErrorReason>,
                    noServer: seq<ErrorReason>, noSocket: seq<ErrorReason>)
    requires missing == [] || (|missing| == 1 && missing[0].ExecutableNotFound?)
    requires noExec == [] || noExec == [NoPhpExecutable]
    requires noDir == [] || noDir == [NoWorkspaceDir]
    requires noServer == [] || noServer == [NoServerPort]
    requires noSocket == [] || noSocket == [NoSocketPort]
    ensures var errors := missing + noExec + noDir + noServer + noSocket;
            && RankedBelow(errors, 5)
            && ((|errors| > 0 && errors[0].ExecutableNotFound?) <==> missing != [])
            && (missing != [] ==> errors[0] == missing[0])
  {
    assert RankedBelow(missing, 1);
    AppendRanked(missing, noExec, 1);
    AppendRanked(missing + noExec, noDir, 2);
    AppendRanked(missing + noExec + noDir, noServer, 3);
    AppendRanked(missing + noExec + noDir + noServer, noSocket, 4);
    var errors := missing + noExec + noDir + noServer + noSocket;
    if missing == [] && |errors| > 0 {
      assert errors == noExec + noDir + noServer + noSocket;
      assert !errors[0].ExecutableNotFound?;
    }
  }

  /**
    The reasons come in the order the checks run, each at most once, the
    missing configured executable first; no start-time reason is among them.
  */
  lemma ValidationErrorsOrdered(host: Host, findPort: int -> Option<int>)
    ensures RankedBelow(ValidationErrors(host, findPort), 5)
    ensures var errors := ValidationErrors(host, findPort);
            && ((|errors| > 0 && errors[0].ExecutableNotFound?) <==> ConfiguredExecMissing(host))
            && (ConfiguredExecMissing(host) ==> errors[0] == ExecutableNotFound(host.configuredExec.value))
  {
    RankedParts(
      if ConfiguredExecMissing(host) then [ExecutableNotFound(host.configuredExec.value)] else [],
      if ChosenExec(host).None? then [NoPhpExecutable] else [],
      if host.workspaceDir.None? then [NoWorkspaceDir] else [],
      if ChosenServerPort(host, findPort).None? then [NoServerPort] else [],
      if ChosenSocketPort(host, findPort).None? then [NoSocketPort] else []);
  }

  /** Whether `newInstance` resolves: `canStart` of the data it fills. */
  predicate Accepted(host: Host, findPort: int -> Option<int>) {
    && ValidationErrors(host, findPort) == []
    && ChosenServerPort(host, findPort) != Some(UNSET_PORT)
    && ChosenSocketPort(host, findPort) != Some(UNSET_PORT)
  }

  /**
    A start is accepted exactly when the executable is there (and, if configured,
    exists), a workspace is open and both ports were found; the two ports then differ.
  */
  lemma AcceptedIff(host: Host, findPort: int -> Option<int>)
    requires PortSearch(findPort)
    ensures Accepted(host, findPort) <==>
              && !ConfiguredExecMissing(host) && ChosenExec(host).Some? && host.workspaceDir.Some?
              && ChosenServerPort(host, findPort).Some? && ChosenServerPort(host, findPort) != Some(UNSET_PORT)
              && ChosenSocketPort(host, findPort).Some? && ChosenSocketPort(host, findPort) != Some(UNSET_PORT)
    ensures Accepted(host, findPort) ==>
              ChosenServerPort(host, findPort).value < ChosenSocketPort(host, findPort).value
  {
    var errors := ValidationErrors(host, findPort);
    if ConfiguredExecMissing(host) {
      assert errors[0].ExecutableNotFound?;
    }
  }

  /** Only the executable is missing: exactly that one reason is reported. */
  lemma OnlyExecutableMissing(host: Host, findPort: int -> Option<int>)
    requires host.configuredExec.None? && host.discoveredExec.None?
    requires host.workspaceDir.Some? && ChosenSocketPort(host, findPort).Some?
    ensures ValidationErrors(host, findPort) == [NoPhpExecutable]
    ensures !Accepted(host, findPort)
  {
  }
}
