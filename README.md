# PHP built-in server: a Dafny model of its core

This project models the core of the PHP Built-In Server extension for Visual
Studio Code, and proves properties of that model.

The core has five parts:
- **Instance data.** `PHPBuiltInServerInstanceData` accumulates the validated
  executable, workspace folder and ports, together with the reasons it could not
  find them.
- **Instance creation.** `newInstance` fills that data in a fixed order.
- **Server lifecycle.** The `PHPBuiltInServer` lifecycle covers:
  - `start`, with its `.php` root check and its three guarded steps: router,
    websocket and terminal;
  - `dispose` and `destroy`;
  - `serverIsRunning`;
  - the `send` dispatch between the browser socket and a headless re-run;
  - the file-change reload filter;
  - the PHP arguments;
  - the router file built from its template.
- **Template substitution.** `replaceTemplateVariable` is the case-insensitive,
  whitespace-tolerant `{{ name }}` substitution of `src/string.extensions.ts`.
- **Context key.** `ContextItem` is the editor context key that issues
  `setContext` only when its value changes.

The files and modules:

| File | Module | What it holds |
|---|---|---|
| `wrappers.dfy` | `Wrappers` | `Option` |
| `strings.dfy` | `Strings` | ASCII case mapping, `includes`/`endsWith`, `join`, decimal rendering of numbers |
| `template.dfy` | `Template` | the placeholder pattern as a left-to-right scan, and the proof that it fills exactly the placeholders |
| `context_item.dfy` | `ContextItems` | the `ContextItem` class with a ghost log of the `setContext` commands it issues |
| `server_data.dfy` | `ServerData` | the error reasons and the `InstanceData` class with its setters and `CanStart` |
| `server_data.dfy` | `Validation` | what `newInstance` resolves from the outside world, and the reasons it records |
| `router.dfy` | `Router` | the `globals` code and the seven template variables of `applyRouter` |
| `change_filter.dfy` | `ChangeFilter` | the reload filter |
| `lifecycle.dfy` | `Lifecycle` | the `BuiltInServer` class, `NewInstance`, and start-to-close sessions |

The editor, the file system, the websocket and the terminal are outside the
model. Each request the server makes of them is appended to the log `effects`:
writing the router, listening, creating a terminal, sending text, disposing,
emitting `close`. Their answers come in two ways:
- as parameters: whether `.vscode` could be made, whether the write succeeded,
  the port search, the settings;
- as callback methods: the socket is listening, the socket closed, the
  transport closed, a terminal closed, a file changed.

Behaviour of the code worth knowing:
- **`close` on every call.** `dispose` emits `close` on every call; there is no
  once-guard. A served session that ends because its terminal closed therefore
  emits `close` twice: once from `destroy`, and once from the transport `close`
  handler that disposes again. `Lifecycle.ServedSession` shows this.
- **Teardown order.** `dispose` closes the socket, then disposes the terminal,
  then the watcher.
- **The `/.git` filter.** The filter tests `/.git`, not `/.git/`. It therefore
  also ignores `.github` and every other folder whose name starts with `.git`.
- **Headless servers never run.** In headless mode `serverIsRunning` is always
  false, because the socket is never created.
- **Rejection still builds a server.** `newInstance` rejects when the data
  cannot start, but it still builds the server.
- **The watcher outlives a failed start.** The constructor creates the file
  watcher. Neither a rejected `newInstance` nor a `start` that rejects disposes
  it; only `dispose` does. The model does not log the watcher's creation, only
  its disposal (`DisposeWatcher`), so it does not show this leak.
- **A configured port of `-1`.** It is stored as is. The data then cannot
  start, although no reason was recorded.
- **The root check at start.** The `.php` root check in `start` reads the
  root setting again. The model reads it once: `phpRoot` is fixed when the
  data is created.

## Model

| member | source | states |
|---|---|---|
| `ServerData.InstanceData.constructor` | src/model/BuiltInServer.ts:14-20 | fresh data has no errors, both ports at the unset marker -1, no folder and no executable |
| `ServerData.InstanceData.PushError` | src/model/BuiltInServer.ts:115 | `getErrors().push`: the reason is appended and nothing else changes |
| `ServerData.InstanceData.SetProjectDir` | src/model/BuiltInServer.ts:42-46 | a present folder is stored with `errors` unchanged; an absent one appends exactly `NoWorkspaceDir` and keeps the field |
| `ServerData.InstanceData.SetPHPExec` | src/model/BuiltInServer.ts:48-53 | a present path is stored with `errors` unchanged; an absent one appends exactly `NoPhpExecutable` and keeps the field |
| `ServerData.InstanceData.SetServerPort` | src/model/BuiltInServer.ts:55-59 | a found port is stored with `errors` unchanged; none appends exactly `NoServerPort` and keeps the field |
| `ServerData.InstanceData.SetSocketPort` | src/model/BuiltInServer.ts:61-65 | a found port is stored with `errors` unchanged; none appends exactly `NoSocketPort` and keeps the field |
| `ServerData.InstanceData.CanStart` | src/model/BuiltInServer.ts:67-73 | `canStart`: no reason recorded, an executable and a folder set, and neither port at the unset marker -1 |
| `ServerData.Message` | src/model/BuiltInServer.ts:77-85 | the stored text of each reason; the two file-system reasons carry the hint to review the output panel |
| `Validation.ChosenExec` | src/model/BuiltInServer.ts:110-121 | the executable used: the configured path when it is set and not empty, otherwise the one looked up on the PATH (possibly none) |
| `Validation.ConfiguredExecMissing` | src/model/BuiltInServer.ts:111-119 | a non-empty configured path that does not exist is reported as missing; an unset or empty one never is |
| `Validation.ChosenServerPort` | src/model/BuiltInServer.ts:122-124 | the configured server port when there is one, otherwise the first free port found from the default base |
| `Validation.ChosenSocketPort` | src/model/BuiltInServer.ts:122-127 | the socket port search starts above the server port, so a found socket port is greater; without a server port there is no socket port |
| `Validation.ValidationErrors` | src/model/BuiltInServer.ts:110-132 | the reasons `newInstance` records, in order: the missing configured executable, then one reason for each setter whose value is missing, executable, folder, server port, socket port |
| `Validation.ValidationErrorsReasons` | src/model/BuiltInServer.ts:110-132 | each of the four setters' reasons is recorded exactly when its value is missing; a missing server port also records a missing socket port |
| `Validation.ValidationErrorsOrdered` | src/model/BuiltInServer.ts:111-132 | reasons come in the order missing configured executable, executable, folder, server port, socket port, each at most once; the configured executable comes first exactly when it is missing |
| `Validation.RankedBelowIndexwise` | src/model/BuiltInServer.ts:129-132 | the recursive order predicate means strictly increasing ranks position by position, all below the bound |
| `Validation.RankedParts` | src/model/BuiltInServer.ts:111-132 | five checks that each add nothing or their own reason produce reasons in rank order, the executable-not-found one first when present |
| `Validation.Accepted` | src/model/BuiltInServer.ts:134-136 | whether `newInstance` resolves: no reason recorded and neither chosen port is the unset marker -1 |
| `Validation.AcceptedIff` | src/model/BuiltInServer.ts:105-138 | `newInstance` resolves exactly when the configured executable (if any) exists, an executable, a folder and both ports are found, and no port is -1; the socket port is then above the server port |
| `Validation.OnlyExecutableMissing` | src/model/BuiltInServer.ts:121-135 | with no executable anywhere but everything else found, the errors are exactly `[NoPhpExecutable]` and the call rejects |
| `Lifecycle.AcceptedFields` | src/model/BuiltInServer.ts:67-73 | `canStart` of the filled data holds exactly when nothing was recorded, the executable and folder are set, and neither port is the unset marker |
| `Lifecycle.ValidatedData` | src/model/BuiltInServer.ts:107-132 | the data `newInstance` fills: errors are `ValidationErrors`, and each field holds the chosen value or stays unset |
| `Lifecycle.NewInstance` | src/model/BuiltInServer.ts:105-138 | a fresh server is built on that data in every case; the promise resolves exactly when `canStart` holds, that is when the host is `Accepted` |
| `Lifecycle.TerminalName` | src/model/BuiltInServer.ts:275 | the terminal title: the display name and a space, followed by `[:<server port>]` in served mode |
| `Lifecycle.RunCommand` | src/model/BuiltInServer.ts:282-283 | the text a headless re-run types: the executable (`null` when unset), a space, the root file |
| `Lifecycle.ClearCommand` | src/model/BuiltInServer.ts:333 | the clear command: `cls` on Windows, `clear` elsewhere |
| `Lifecycle.Origin` | src/model/BuiltInServer.ts:303 | the only origin the websocket accepts: `http://localhost:<server port>` |
| `Lifecycle.ServerArgs` | src/model/BuiltInServer.ts:319-326 | the arguments start with `-H`; headless adds nothing; served adds `-S`, `localhost:<port>` and the router path |
| `Lifecycle.ServerArgsPort` | src/model/BuiltInServer.ts:322 | the digits after `localhost:` read back as the server port |
| `Lifecycle.SendPlan` | src/model/BuiltInServer.ts:328-336 | an active socket gets the message and nothing else; otherwise only a headless server sent a headless message with a terminal gets text: the optional clear command, then the re-run command; otherwise nothing |
| `Lifecycle.NonHeadlessMessageNeedsSocket` | src/model/BuiltInServer.ts:328-336 | a message not sent as headless reaches only the socket, and is dropped when it is inactive |
| `Lifecycle.BuiltInServer.constructor` | src/model/BuiltInServer.ts:87-103 | a new server has no errors, no socket, no terminal, no watching, no effects, and its context key `<id>.isRunning` is false with no command issued |
| `Lifecycle.BuiltInServer.StopCommand` | src/model/BuiltInServer.ts:145 | the `setContext` command that setting the context to false issues: one `(<id>.isRunning, false)` when it said running, none otherwise |
| `Lifecycle.BuiltInServer.ServerIsRunning` | src/model/BuiltInServer.ts:220-222 | `serverIsRunning`: no start error, the socket is active and the context says running |
| `Lifecycle.BuiltInServer.RouterFile` | src/model/BuiltInServer.ts:258-260 | the router write: the filled router text, to `.vscode/phpbis-router.php` in the workspace folder |
| `Lifecycle.BuiltInServer.Options` | src/model/BuiltInServer.ts:274-279 | the terminal options: the title, transient exactly in headless mode, the server arguments, and the executable as shell only in served mode |
| `Lifecycle.BuiltInServer.ApplyRouter` | src/model/BuiltInServer.ts:224-269 | headless: nothing; a failed `.vscode` step appends `VscodeDirFailed` and writes nothing; otherwise the router text is written, and a failed write appends `RouterWriteFailed` |
| `Lifecycle.BuiltInServer.InitWebSocket` | src/model/BuiltInServer.ts:286-317 | skipped when errors exist or in headless mode; otherwise listens on the socket port, accepting the origin `http://localhost:<server port>` |
| `Lifecycle.BuiltInServer.InitPHPBuiltInServer` | src/model/BuiltInServer.ts:271-284 | skipped when errors exist; otherwise creates the terminal with the title, transience, arguments and shell path of the mode, and in headless mode runs the script once |
| `Lifecycle.BuiltInServer.Prepare` | src/model/BuiltInServer.ts:173-175 | the three steps in a row, case by case: headless gives the terminal and one run; a failed `.vscode` step gives nothing; a failed write gives only the router; otherwise router, websocket and terminal |
| `Lifecycle.BuiltInServer.Start` | src/model/BuiltInServer.ts:166-218 | a root that is not a `.php` file rejects with one reason and no effect; a failed router step rejects after emitting `close`, with no websocket and no terminal; otherwise the terminal is shown, files are watched, the context is set to running, and the promise resolves |
| `Lifecycle.BuiltInServer.Send` | src/model/BuiltInServer.ts:328-336 | appends exactly `SendPlan` of the current state |
| `Lifecycle.BuiltInServer.Dispose` | src/model/BuiltInServer.ts:144-158 | the context says stopped, with exactly one `setContext(<id>.isRunning, false)` appended when it said running and none otherwise, and the server no longer runs; the socket is asked to close when `sockets` is set and it exists, and otherwise marked inactive at once; the terminal and watcher are disposed and `close` is emitted on every call |
| `Lifecycle.BuiltInServer.Destroy` | src/model/BuiltInServer.ts:140-142 | `dispose` with `sockets` set: the socket is closed when it exists, and one `setContext(false)` is issued only when the context said running |
| `Lifecycle.BuiltInServer.OnListening` | src/model/BuiltInServer.ts:298-300 | the listen callback marks the socket active |
| `Lifecycle.BuiltInServer.OnIoClosed` | src/model/BuiltInServer.ts:148-152 | only a close without error marks the socket inactive |
| `Lifecycle.BuiltInServer.OnTransportClosed` | src/model/BuiltInServer.ts:308-311 | the transport close disposes without closing the socket: inactive at once, one `setContext(false)` only when the context said running, terminal and watcher disposed, `close` emitted |
| `Lifecycle.BuiltInServer.OnTerminalClosed` | src/model/BuiltInServer.ts:185-196 | without a terminal, or for another terminal, nothing changes, the `setContext` log included; for its own terminal `kill` is sent as `send` would, then the server is destroyed: the socket stays active only while its close is pending, and one `setContext(false)` is issued only when the context said running |
| `Lifecycle.BuiltInServer.OnFileChanged` | src/model/BuiltInServer.ts:198-214 | while watching, a change sends `refresh` as a headless message exactly when the filter lets the path through; otherwise nothing |
| `Lifecycle.HeadlessNeverRunning` | src/model/BuiltInServer.ts:220-222 | a valid headless server never counts as running |
| `Lifecycle.RunningServerServes` | src/model/BuiltInServer.ts:220-222 | a running server has a websocket, a terminal and a watcher, in served mode |
| `Lifecycle.StartServed` | src/model/BuiltInServer.ts:105-218 | on a host where `newInstance` resolves, a served start writes the router with the chosen ports, listens on the socket port, creates the terminal for the server port, and shows it |
| `Lifecycle.ServedSession` | src/model/BuiltInServer.ts:140-158 | after a served start, an edit sends `refresh` on the socket, and the server runs; closing its terminal sends `kill`, destroys the server and, through the transport close, disposes it again, so `close` is emitted twice and the server no longer runs |
| `Lifecycle.StartHeadless` | src/model/BuiltInServer.ts:105-218 | a headless start creates a transient terminal with only `-H` and no shell path, runs `<exec> <root>` once, and shows it |
| `Lifecycle.HeadlessSession` | src/model/BuiltInServer.ts:328-336 | in headless mode an edit re-runs the script, after clearing when configured; the server never runs; closing the terminal sends nothing before disposing |
| `ChangeFilter.ShouldRefresh` | src/model/BuiltInServer.ts:199-212 | the watcher's filter: the path is lower-cased once, and `refresh` is sent unless one of its four `includes` tests or seven `endsWith` tests hits |
| `ChangeFilter.ShouldRefreshFollowsPolicy` | src/model/BuiltInServer.ts:199-212 | the chain of tests sends `refresh` exactly when the lower-cased path contains none of the four ignored fragments and ends with none of the seven ignored endings |
| `ChangeFilter.ShouldRefreshIgnoresCase` | src/model/BuiltInServer.ts:199 | two paths that differ only in letter case get the same decision |
| `ChangeFilter.MarkdownIgnored` | src/model/BuiltInServer.ts:207 | a `.MD` file is ignored |
| `ChangeFilter.GitPrefixedFolderIgnored` | src/model/BuiltInServer.ts:201 | anything under a folder whose name starts with `.git` in any case, `.github` included, is ignored |
| `Router.PutenvStatement` | src/model/BuiltInServer.ts:243 | the PHP statement for one environment variable: `putenv("<key>=<value>");` |
| `Router.DefineStatement` | src/model/BuiltInServer.ts:246 | the PHP statement for one constant: `define("<key>", <value>);`, the value inserted as written |
| `Router.EnvStatements` | src/model/BuiltInServer.ts:242-243 | one `putenv("<key>=<value>");` per environment variable, in order |
| `Router.ConstStatements` | src/model/BuiltInServer.ts:245-246 | one `define("<key>", <value>);` per constant, in order |
| `Router.CollectGlobalStatements` | src/model/BuiltInServer.ts:240-246 | the two loops give the environment statements, then the constant statements |
| `Router.GlobalsCodeBlocks` | src/model/BuiltInServer.ts:255 | the `globals` code is the environment block and the constants block joined by `"\n    "`, with one separator between the blocks when both are present |
| `Router.GlobalsCode` | src/model/BuiltInServer.ts:240-255 | the `globals` value: the environment statements, then the constant statements, joined by a newline and four spaces |
| `Router.RouterVariables` | src/model/BuiltInServer.ts:249-255 | the seven variables, in replacement order, all identifiers |
| `Router.ReplaceAll` | src/model/BuiltInServer.ts:248-255 | the chain of `replaceTemplateVariable` calls: each variable is replaced, in order, in the result of the previous replacement |
| `Router.RouterText` | src/model/BuiltInServer.ts:248-255 | the router text: the template after the chain of the seven router variables |
| `Router.RouterTextFills` | src/model/BuiltInServer.ts:248-255 | on a well-formed template, the router text is the template with each of the seven router variables in every placeholder named like it, when the values before `globals` hold no placeholder start and no value holds a `$` pattern |
| `Router.ReplaceAllFillsTemplate` | src/model/BuiltInServer.ts:248-255 | on a template of well-formed text pieces and placeholders, the chain of replacements puts each variable's value into every placeholder named like it, and keeps all other text, when the earlier values hold no placeholder start |
| `Template.Replace` | src/string.extensions.ts:5-8 | the global, case-insensitive replacement: scan left to right; where a match starts it becomes the value and the scan resumes after it; otherwise one character is copied |
| `Template.MatchIsPlaceholder` | src/string.extensions.ts:6 | what the pattern matches is `{{`, whitespace, the name in any letter case, whitespace, `}}` |
| `Template.PlaceholderMatches` | src/string.extensions.ts:6 | every such placeholder is matched in full, whatever follows it |
| `Template.OtherPlaceholderRejected` | src/string.extensions.ts:6 | a placeholder naming another identifier is not matched |
| `Template.ReplaceWithoutPlaceholder` | src/string.extensions.ts:7 | text in which no match starts is returned unchanged |
| `Template.ReplaceKeepsPlainText` | src/string.extensions.ts:7 | text that holds no `{{` and does not end with `{` (`PlainText`) is copied unchanged before any rest; a trailing `{` is excluded because it can open a placeholder with the rest |
| `Template.ReplaceKeepsOtherPlaceholder` | src/string.extensions.ts:6-7 | a placeholder for another name is copied unchanged |
| `Template.ReplaceRendered` | src/string.extensions.ts:5-8 | for a value without `$` replacement patterns, on a template of text pieces and placeholders where no text piece holds `{{` or ends with `{` (`WellFormed`), exactly the placeholders for the name, in any letter case and spacing, become the value; everything else stays, in order |
| `Template.ReplaceIgnoresNameCase` | src/string.extensions.ts:6 | names differing only in letter case replace the same spans |
| `Template.SpaceRunIsLongest` | src/string.extensions.ts:6 | the greedy `\s*` takes the longest run of whitespace |
| `ContextItems.ContextItem.constructor` | src/model/ContextItem.ts:4-9 | a new item is false, with its identifier fixed, and has issued no command |
| `ContextItems.ContextItem.SetValue` | src/model/ContextItem.ts:19-25 | setting the current value changes nothing and issues nothing; a different value is stored and issues exactly one `setContext(identifier, value)` |
| `ContextItems.AlternatingParity` | src/model/ContextItem.ts:19-25 | in the command log the k-th command sets true exactly when k is even |
| `ContextItems.ValueIsParity` | src/model/ContextItem.ts:15-25 | the value is true exactly when an odd number of commands was issued |
| `ContextItems.SetTwiceScenario` | src/model/ContextItem.ts:19-25 | setting true twice and then false twice issues exactly two commands, true then false |
| `Strings.NatToStringRoundTrip` | src/model/BuiltInServer.ts:252 | the decimal text of a port reads back as the port |
| `Strings.JoinAppend` | src/model/BuiltInServer.ts:255 | joining two non-empty lists is joining each, with one separator between |

## Left out

- I/O and callbacks are not modelled as they run. The editor, the file system,
  the HTTP and socket.io servers and the terminal are replaced by the `effects`
  log and by inputs. The async ordering between callbacks is not modelled: each
  callback is a method, and clients call them in the order they choose.
- `existsSync` and `mkdirSync` of `.vscode` are merged into one outcome,
  `dirOk`. A `writeFileSync` that throws is `writeOk == false`; the write is
  still logged as attempted.
- Reading the router template file is not modelled; the template text is a
  field of the server. The `randomUUID` token is a field too.
- The port search, the executable lookup on the PATH and the workspace folder
  (`src/model/Utils.ts`) are inputs: `findPort` and `Host`. `PortSearch` only
  assumes that a search answers at or above where it started.
- Settings (`src/model/Configurations.ts`) and package data (`src/model/Consts.ts`)
  are inputs: `Config` and `ExtensionInfo`. Each setting is read once.
- `src/extension.ts` is not part of this model. This includes the single
  active server guard, the error messages and opening the browser.
- The output channel, console logging and `onClose` listeners are left out.
  Emitting `close` is logged as an effect.
- The CORS headers and the HTTP handler of `initWebSocket` are left out. Only
  the accepted origin is kept.
- The process-id comparison in `onDidCloseTerminal` is an input, `samePid`.
- The websocket `connection` handler, which disconnects a browser whose
  handshake token differs from the server's, is networking and is left out.
  The token only appears as the router variable `token`.
- `Strings.ToLower`: only ASCII letters are mapped. JavaScript's full Unicode
  `toLowerCase` is not modelled.
- `Template.Replace`: the name is restricted to ASCII letters, digits and `_`.
  This excludes regular-expression metacharacters in names.
- `Template.Replace`: `$` replacement patterns in the value are not modelled.
  The value is inserted as plain text. `Template.ReplaceRendered` and
  `Router.ReplaceAllFillsTemplate` therefore require `NoReplacementPattern`
  of the values: no `$$`, `$&`, `` $` `` or `$'`.
- `Router.ReplaceAllFillsTemplate`: the values of all but the last variable are
  required to hold no `{{` and not to end with `{`. Otherwise an earlier value
  could be taken for a later placeholder, which the lemma does not describe.
  Its template is also required to be well formed, as for
  `Template.ReplaceRendered`.
- `Router.RouterTextFills`: it inherits the restrictions of
  `Router.ReplaceAllFillsTemplate`. The display name, author, version, token and
  homepage are required to hold no `{{` and not to end with `{`, and no value
  may hold a `$` pattern.
- `Template.ReplaceRendered`: the template is required to split into text
  pieces and placeholders where no text piece holds `{{` or ends with `{`.
  Braces right next to a placeholder, as in `{{{port}}}`, fall outside this
  form. `Template.Replace` itself handles such text; only this lemma does not
  describe it.
- `Router.Entry`: `Object.entries` order and JavaScript's rendering of setting
  values to text are taken as given. The entries arrive as a sequence of
  `(name, text)` pairs.
- `Lifecycle.BuiltInServer.Start`: it is required to be called once, on a fresh
  server whose data can start. The extension calls it only in that situation.
- The `CREATING_WEBSOCKET` reason is never recorded by the code, so the model
  has no such reason.
