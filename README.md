# unwebhook hook engine in Dafny

unwebhook is a small HTTP server that receives GitLab/GitHub webhook events and runs
configured shell commands for them. This project models its decision and dispatch engine:

- **Request admission** (`hookHandler`): the 16384-byte limit on the declared body length, the
  per-hook secret check against `X-Gitlab-Token`, event decoding, and the `urlparams` entry
  written into the event before `Execute` starts.
- **Event filtering** (`Hook.Execute`): three allow-lists checked in a fixed order (event type,
  then pipeline status, then branch). Each list is checked only when it is non-empty, and each
  rejection is logged at a fixed severity.
- **Dispatch**: one unit of work per event, or one per commit object in per-commit mode. A unit
  (`processEvent`) does four things in order:
  - renders the directory and the environment;
  - renders and resolves every command before running any;
  - runs the commands in sequence;
  - stops at the first error.

  The outcome logic of `runCommand` is modelled as-is: a finished process is a success whatever
  its exit status.
- **Template compilation** (`Hook.CreateTemplates`): fills the `cmdTemplate`, `envTemplate` and
  `dirTemplate` fields in place, with the partial states the source leaves behind on a parse error.
- **Configuration**: the `Config` and `Hooks` records, `MergeHooks`, the defaults
  (`ListenAddress ":80"`, `CommandTimeout 5`) and the hook-loading loop of `main`. That loop
  applies the timeout and secret defaults and compiles every hook.

The Hook is a Dafny `class` whose methods mirror the Go methods step by step:
- nested loops fill the template fields in place;
- `cmds[i][0]` is overwritten with the resolved path;
- the per-commit loop writes each commit into the event.

Each method is proved equal to a pure specification function, and the properties are lemmas
about those functions.

Outside code is passed in as values of function type:
- `Library` holds the text/template parser and executor and `os.ExpandEnv`.
- `Host` holds `exec.LookPath`, process execution raced against the timer, and `Event.Commits()`.
- The server's event decoder is a `Decoder` parameter.

What `Execute` does with one event is a trace of `Entry` values:
- its log lines with their glog severity;
- each spawned process with its argv, environment override, directory and timeout, and how it
  ended;
- a `Crash` for a runtime panic: the index-out-of-range of an empty command (hook.go:211), or the
  nil dereference of killing a process whose start failed when the timer fires first
  (hook.go:258, 272).

`hookHandler` is modelled by its decision (status and dispatched event), and `main`'s loading
loop by the hooks it leaves and its failure flag; their log lines are not part of the model.

Modules and files:
- `wrappers.dfy`: Option and Result.
- `json.dfy`: decoded JSON values and the Event map.
- `templates.dfy`: `createTemplate` and the compiled template fields.
- `filter.dfy`: the allow-list filter.
- `compile.dfy`: the specification of `CreateTemplates`.
- `dispatch.dfy`: the specification of `processEvent`, `runCommand` and the per-commit loop.
- `hook.dfy`: the `Hook` class and its methods.
- `webhook.dfy`: `Config`, `Hooks`, defaults and hook loading.
- `server.dfy`: `hookHandler`.

Where the code and its documentation disagree, the model follows the code:
- A command's nonzero exit status does not stop the remaining commands of the unit, and is not
  reported as an error. `runCommand` returns nil as soon as `Wait` returns (hook.go:266-269).
- A command that fails to start is not reported as an error either: the `cmd.Start()` result is
  discarded (hook.go:258). If the timer then wins the select, which it can do at once when the
  timeout is not positive, `cmd.Process.Kill()` dereferences a nil process and the server panics
  (hook.go:272).

## Model

| member | source | states |
|---|---|---|
| Filter.Check | hook.go:75-144 | the filter decision: a list is consulted only when it is non-empty, so a rejection at the type, status or branch stage implies that stage's list is non-empty |
| Filter.StringField | hook.go:76-80 | the `.(string)` assertion on an event field succeeds exactly when the key is present and holds a JSON string, and then yields that string |
| Filter.CheckPassesIff | hook.go:75-144 | an event passes the filter exactly when each allow-list is empty or holds the event's string field; the ref is compared after stripping `refs/heads/` |
| Filter.CheckOrder | hook.go:74-144 | a rejection at a stage means every earlier list admitted the event and this one did not; an empty list never rejects |
| Filter.RejectionSeverity | hook.go:78-141 | a rejection is logged at Info exactly for a disallowed pipeline status or an ignored branch; every other rejection is a Warning; none is an Error |
| Filter.StripHeadsOnce | hook.go:123-127 | exactly one leading `refs/heads/` is removed: `refs/heads/x` becomes `x` and `refs/heads/refs/heads/x` becomes `refs/heads/x` |
| Filter.StripHeadsNoPrefix | hook.go:125 | a ref without the prefix is compared unchanged |
| Filter.BranchExamples | hook.go:116-143 | `refs/heads/main` and `main` pass a `["main"]` list; `refs/heads/feature/x` is rejected by `["feature"]` as branch `feature/x`; `refs/heads/dev` is dropped at Info |
| HookEngine.Allowed | hook.go:82-88 | the allow-list loop sets `allowed` exactly when the value is in the list |
| HookEngine.Hook.CheckEvent | hook.go:75-144 | the three guarded blocks return the log line of exactly the rejection the filter specification gives, at its severity, and pass exactly the events it passes |
| Templates.CreateTemplate | hook.go:27-30 | a source compiles exactly when its environment-expanded text parses; the template is that expanded text, and a failure returns the parser's error for it |
| Compile.FillTemplates | hook.go:38-45 | filling a slice from sources in order gives exactly one slot per source, whatever fails |
| Compile.FillTemplatesComplete | hook.go:38-45 | the slice is filled without error exactly when every source parses, and then every slot holds its own source's template |
| Compile.FillTemplatesStep | hook.go:39-44 | a source that parses puts its template in the next slot after the ones already filled |
| Compile.FillSlot | hook.go:39-44 | writing source k's template into slot k of a slice holding templates before k and nil from k on gives the slice filled up to k + 1 |
| Compile.FillTemplatesStops | hook.go:41-44 | the first source that does not parse decides the error; the slots before it hold templates and it and every later slot are nil |
| Compile.FillRows | hook.go:35-47 | the command table compiles exactly when every row does, and then row i is row i's template slice |
| Compile.FillRowsStep | hook.go:37-46 | a row whose sources all parse is appended to the rows compiled so far |
| Compile.FillRowsStops | hook.go:41-44 | the first row holding a bad source decides the error of the whole table |
| Compile.CreateTemplatesSucceeds | hook.go:33-71 | CreateTemplates succeeds exactly when every command argument, every env entry and a non-empty dir parse; then `cmdTemplate` has the outer and inner lengths of Commands, `envTemplate` is nil iff Env is empty, `dirTemplate` is nil iff Dir is empty, and no template Execute uses is nil |
| Compile.CreateTemplatesCommandError | hook.go:35-47 | `cmdTemplate` ends nil exactly when some command argument does not parse, and then an error is returned and the env and dir fields keep their previous values; otherwise it is fully populated and shaped like Commands |
| Compile.CreateTemplatesEnvError | hook.go:49-56 | an env entry that does not parse after all commands parsed returns its parse error, leaves `envTemplate` with templates before it and nil from it on, and leaves `dirTemplate` as it was |
| Compile.CreateTemplatesSpec | hook.go:33-71 | CreateTemplates as a function of the sources and the previous fields: a nil `cmdTemplate` comes with an error and the previous env and dir; on success `cmdTemplate` is set, `envTemplate` is nil iff Env is empty and `dirTemplate` is nil iff Dir is empty |
| Compile.DirStage | hook.go:61-68 | the directory stage keeps the command and env fields; `dirTemplate` is set exactly for a non-empty Dir that parses; the error is Dir's parse error, exactly for a non-empty Dir that does not parse |
| Compile.CreateTemplatesDirError | hook.go:61-68 | a Dir that does not parse after all commands and env entries parsed returns its parse error, leaves `cmdTemplate` and `envTemplate` fully populated and shaped like their sources, and leaves `dirTemplate` nil |
| HookEngine.Hook.CreateTemplates | hook.go:33-71 | the method leaves the three compiled fields and returns the error exactly as the CreateTemplates specification gives from the sources and the previous field values |
| HookEngine.Hook.CompileCommands | hook.go:35-47 | fills `cmdTemplate` in place; returns the table's first parse error, setting the field nil, or leaves the fully compiled table |
| HookEngine.Hook.CompileRow | hook.go:37-46 | fills one row of `cmdTemplate` in place; on the first parse error sets the whole field nil |
| HookEngine.Hook.CompileEnv | hook.go:49-59 | `envTemplate` is nil for an empty Env; otherwise it is filled in place and left partial on a parse error |
| HookEngine.Hook.CompileDir | hook.go:61-68 | `dirTemplate` is nil for an empty Dir or a source that does not parse, else its template |
| Dispatch.RenderAll | hook.go:228-243 | rendering an argument list succeeds exactly when every template executes, and then yields each template's output in order; a failure is a render error |
| Dispatch.RenderAllFirstError | hook.go:231-237 | the reported render error is that of the first template that fails |
| HookEngine.Hook.ProcessCommand | hook.go:228-243 | the rendering loop returns exactly the specification's result: all outputs in order, or the first error |
| Dispatch.PrepareOne | hook.go:206-215 | preparing one command gives one argument per template, never zero; it panics with an index out of range exactly when the command has no arguments; every other failure is an error value |
| Dispatch.PreparedCommand | hook.go:205-216 | a prepared command has one argument per template and keeps the rendered arguments, with argument 0 replaced by the path LookPath returned; preparing fails exactly when some argument fails to render, the command is empty, or the program is not found |
| Dispatch.Prepare | hook.go:205-216 | a prepared unit has one argv per command, and a failure is never reported as success |
| Dispatch.PrepareComplete | hook.go:205-216 | all commands are prepared exactly when each one is, and then each has its own prepared argv, non-empty |
| Dispatch.PrepareStep | hook.go:206-215 | a command that can be prepared extends the prepared prefix by its argv |
| Dispatch.PrepareStops | hook.go:206-214 | the first command that cannot be prepared decides the unit's failure |
| HookEngine.Hook.PrepareCommand | hook.go:206-215 | one pass of the command loop returns exactly what preparing that command gives: a render error, the panic of an empty command, a missing executable, or the argv with its resolved path |
| HookEngine.Hook.PrepareCommands | hook.go:205-216 | the render-and-resolve loop returns exactly the specification's prepared commands or first failure |
| Dispatch.ProcessFor | hook.go:247-251 | the command runs with the given argv, dir and timeout, and overrides the environment only when the rendered environment is non-empty |
| Dispatch.RunOne | hook.go:245-276 | one command is spawned once; the unit succeeds exactly when the timer did not fire first, fails with the timeout error exactly when it fired first on a started process, and panics exactly when it fired first on a process that never started |
| HookEngine.Hook.RunCommand | hook.go:245-276 | one command yields one Run entry and succeeds unless the timer fired first, whatever the exit status or a failed start; the timer firing first is a timeout error for a started process and a panic for one whose start failed |
| Dispatch.RunAll | hook.go:218-223 | at most one process per command is run, and the only panic while running is the kill of an unstarted process, after it was spawned |
| Dispatch.RunAllComplete | hook.go:218-223 | the commands run are a prefix of the list, in order, each with its own process; only the last can have been beaten by the timer; the unit succeeds exactly when all ran without that, and otherwise fails with the timeout of the last one run if it started, or panics killing it if it did not |
| Dispatch.RunAllStops | hook.go:218-223 | the first command that fails ends the unit; none after it starts |
| HookEngine.Hook.RunCommands | hook.go:218-223 | the run loop yields exactly the specification's trace and status |
| Dispatch.ProcessEventSpec | hook.go:179-226 | processEvent as a function: at most one process per command; a panic before anything ran is the empty-command panic and one after is the kill of an unstarted process |
| Dispatch.ResolveBeforeRun | hook.go:179-226 | if the dir, the env, any argument render or any LookPath fails, or a command is empty, nothing runs and the unit fails; otherwise the commands that run are those of the list, in order, with resolved paths, the rendered env and dir |
| HookEngine.Hook.ProcessEvent | hook.go:179-226 | the method's result is exactly the processEvent specification: dir, then env, then all commands prepared, then run |
| HookEngine.Hook.Trace | hook.go:74-177 | everything Execute does with one event: a rejected event gives exactly its one filter log line; in per-commit mode a payload without commits gives nothing |
| HookEngine.Hook.Execute | hook.go:74-177 | the method's trace is exactly the hook's specification trace: the filter's log line, or one unit, or the per-commit loop |
| HookEngine.Hook.CommitStep | hook.go:149-165 | one commit adds what the per-commit specification says: a non-object adds its type error and the loop goes on |
| HookEngine.Hook.CommitObject | hook.go:156-164 | an object commit adds its unit's runs and error line, run on the event holding the commit under `commit`, and the loop ends there only on a panic |
| HookEngine.Hook.ForEachCommit | hook.go:149-166 | the per-commit loop's trace is exactly the per-commit specification over the commit list |
| Dispatch.CommitLoop | hook.go:149-166 | the per-commit loop: every non-object commit writes an error line, so a loop that writes nothing saw only commit objects |
| Dispatch.CommitLoopStep | hook.go:149-166 | one pass of the per-commit loop: a non-object commit logs an error and the loop goes on; an object commit runs its unit, logs the unit's error, and ends the loop only on a panic |
| Dispatch.CommitLoopUnits | hook.go:149-166 | when no unit panics, the processes the loop runs are exactly those of one unit per object commit, in list order, each on the event with that commit under `commit`; a failing commit does not stop the later ones |
| Dispatch.CommitLoopAppend | hook.go:149-166 | commits are independent: the loop over two lists is the loop over the first then over the second, unless a unit of the first panics |
| Dispatch.CommitLoopPanicStops | hook.go:211 | a panic in one commit's unit ends the loop: later commits are never processed |
| HookEngine.RejectedEventRunsNothing | hook.go:74-144 | a rejected event yields exactly its one log line and runs no process |
| HookEngine.WholeEventRunsOnce | hook.go:168-176 | without per-commit mode an admitted event runs exactly one unit, on the event itself |
| HookEngine.PerCommitRunsEachCommit | hook.go:146-167 | in per-commit mode an admitted event runs one unit per object commit in order; a nil commit list runs nothing |
| HookEngine.Hook.constructor | webhook.go:15-55 | a decoded hook holds the given url, dir, env, per-commit flag, allow-lists, commands, timeout and secret, and no compiled template |
| Webhook.Hooks.constructor | webhook.go:57-59 | a decoded hook file holds the given hooks in order |
| Webhook.Config.constructor | webhook.go:166-169 | the configuration starts with listen address `:80`, command timeout 5 and everything else empty |
| Webhook.Config.MergeHooks | webhook.go:82-84 | the other file's hooks are appended after the existing ones, both in order; nothing else changes |
| Webhook.DefaultedTimeout | webhook.go:239-241 | a zero hook timeout becomes the server's; a non-zero one is kept; the result is zero only when both are |
| Webhook.DefaultedSecret | webhook.go:243-247 | `none` becomes empty, empty becomes the server secret, any other secret is kept; the result is empty exactly for `none` or two empty secrets |
| Webhook.SecretDefaultsNotIdempotent | webhook.go:243-247 | applying the secret defaults twice would turn a `none` hook's secret into the server's, so each hook must be loaded once |
| Webhook.Load | webhook.go:237-253 | one pass of the loading loop changes only a hook's timeout, secret and compiled templates; every source field is kept |
| Webhook.LoadSucceeds | webhook.go:249-253 | a hook loads without error exactly when all its sources parse, and then every template it executes is present |
| Webhook.LoadHook | webhook.go:237-253 | the hook's fields after one pass are the defaulted timeout and secret and the compiled templates, its sources unchanged, and the error is CreateTemplates' error |
| Webhook.LoadHooks | webhook.go:235-258 | every hook is defaulted and compiled, even after an earlier failure, each exactly as one pass would do, with its own error; `failed` holds exactly when some hook reported an error |
| Webhook.LoadedHooksUsable | webhook.go:235-258 | loading fails exactly when some hook holds a source that does not parse; when nothing fails every hook has every template Execute uses |
| Server.ParamsValue | server.go:56 | the `urlparams` value has the router's keys, each mapped to its string |
| Server.Decide | server.go:14-57 | the handler's guards in order: an oversized request is refused exactly when the declared length exceeds 16384, and a dispatched request had no secret or the matching token |
| Server.StatusOf | server.go:17-55 | 413 exactly for an oversized request, 403 exactly for a missing or wrong token, the default 200 otherwise |
| Server.HookHandler | server.go:14-58 | the handler writes the status of its decision and starts Execute exactly on a dispatched request, with the decided event |
| Server.DispatchIff | server.go:14-58 | Execute starts exactly when the declared length is at most 16384, there is no secret or the token equals it, and the body decodes |
| Server.DispatchedEvent | server.go:51-57 | the event Execute gets is the decoded event with `urlparams` set to the router's parameters and every other entry as decoded |
| Server.SizeLimit | server.go:17-21 | a declared length over 16384 gets 413 whatever the token; exactly 16384, and an unknown length (-1) with a body of any size, pass the size check |
| Server.NoSecretNoCheck | server.go:34 | with an empty hook secret the token is never consulted |
| Server.SecretEnforced | server.go:34-49 | with a secret, a missing token gets MissingToken and a different token gets 403 with no Execute; the matching token proceeds as if there were no secret |
| Server.UndecodableNotDispatched | server.go:51-55 | a body that does not decode gets the default 200 and Execute is not started |
| Server.NoneSecretAcceptsAnyToken | server.go:34 | a hook whose secret is `none` accepts any token or none, even when the server has a secret |
| Server.InheritedSecretEnforced | server.go:43-47 | a hook without its own secret inherits the server's, and a request without a token is then refused |

## Left out

- text/template parsing and execution, including the `json` template function: a foreign library, modelled as the `Library` oracles `syntaxError` and `execute`. A Template is identified by its expanded source.
- `os.ExpandEnv`: the process environment is the `expandEnv` oracle.
- `exec.LookPath`, `exec.Command`, stdout/stderr forwarding and `Process.Kill`: OS process control. A spawned process is recorded with its argv, environment override, directory and timeout, and the `run` oracle says how it ended.
- The goroutine, channel and timer race in `runCommand`, and `go hook.Execute`: concurrency. Only the outcome of the race is kept: finished, not started, or the timer first on a started or unstarted process.
- The `run` and `lookPath` oracles are functions: their results depend only on their arguments. Two spawns of the same process in one dispatch (a per-commit command that ignores the commit) therefore end alike in the model, and two lookups of the same name agree, while the program races each spawn separately and consults the file system each time.
- `NewEvent` and `Event.Commits()` are not part of this model. They are the `Decoder` parameter and the `commits` oracle.
- float64 numbers in decoded JSON are Dafny `real`s.
- Server.ParamsValue: the router's `map[string]string` is stored as a JSON object of strings. The Go map is a different dynamic type, which templates and `json` render alike.
- The event map is a value. The per-commit loop's write of `commit` is not visible to the caller, although in Go the caller's map keeps the last commit.
- glog formatting, the `V(1)` dump of the event and the `V(2)` dump of the body are left out. The trace of `Execute` keeps each of its lines' severity and meaning.
- The log lines of `hookHandler` are left out: the Warning lines for a bad or missing token (server.go:38-39, 44-45) and the Error line for a body that does not decode (server.go:53). The decision they accompany is modelled.
- The log lines of `main`'s loading loop are left out: the "Loading hook" Info line (webhook.go:237) and the "Failed parsing template" Error line (webhook.go:251). The error each hook reports is modelled.
- The "Running" info line of `runCommand` is the `Run` entry itself.
- HTTP serving, routing and IP filtering (`SetupServer`, `RunServer`, `NewListenFilter`): network I/O.
- The bytes actually read from the body are the request's `body`. An unknown content length is -1.
- TOML and goconfig decoding, `AddHookFile`/`AddHookPath` file walking, command-line flags, log-directory creation and `catchSIGINT`: file I/O and signals.
- The `os.Exit(1)` after a failed load is the `failed` result of LoadHooks.
- Webhook.LoadHooks: requires the hooks to be distinct objects, which holds because every decoded hook is freshly allocated. The same hook listed twice would be defaulted twice (see SecretDefaultsNotIdempotent).
- HookEngine.Hook.RunCommand: requires a non-empty argv. In processEvent an empty command panics while being resolved (hook.go:211), before any command runs. The model records that panic as `Panicked(EmptyCommand(i))`/`Crash`, which ends the server.
