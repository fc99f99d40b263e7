/**
 * What one dispatch of an event does, stated as functions: rendering and path resolution of one
 * unit (processEvent, hook.go:179-226, with processCommand, hook.go:228-243), the outcome logic of
 * runCommand (hook.go:245-276) and the per-commit loop of Execute (hook.go:146-167). The Hook
 * class methods in hook.dfy are proved equal to these functions.
 */
module Dispatch {
  import opened Wrappers
  import opened Json
  import opened Templates
  import opened Filter

  /**
   * How a spawned command ends, as far as the select in runCommand can tell: the process exited
   * with some status, it never started and Wait won the select, or the timer fired first. The
   * error of Start is discarded (hook.go:258), so the timer can also win for a process that never
   * started (at once when the timeout is not positive); `started` says which.
   */
  datatype Outcome = Exited(status: int) | NotStarted | TimedOut(started: bool)

  /** The exec.Cmd runCommand builds: argv, the environment override (None inherits), dir, timeout. */
  datatype Process = Process(argv: seq<string>, env: Option<seq<string>>, dir: string, timeout: int)

  /** Operating-system and collaborator oracles. */
  datatype Host = Host(
    // exec.LookPath
    lookPath: string -> Result<string, string>,
    // starting the process and racing it against the timer
    run: Process -> Outcome,
    // Event.Commits(): nil or the commit list of the payload
    commits: Event -> Option<seq<Value>>)

  /** The errors processEvent can return. */
  datatype Fault =
    | RenderError(message: string)
    | ExecutableNotFound(name: string, message: string)
    | CommandTimedOut(argv: seq<string>)

  /**
   * The runtime panics of a unit: the index-out-of-range of an empty command `command`
   * (hook.go:211), and the nil dereference of killing a process that never started (hook.go:272).
   */
  datatype Panic = EmptyCommand(command: nat) | KillNotStarted(argv: seq<string>)

  /** How one unit ends: no error, an error value, or a runtime panic. */
  datatype Status = Done | Failed(fault: Fault) | Panicked(panic: Panic)

  datatype Message =
    | Filtered(rejection: Rejection)
    | BadCommit(commit: Value)
    | ProcessingError(url: string, fault: Fault)

  /**
   * One observable step: a log line, a command spawned (with its "Running" info line) and how it
   * ended, or a runtime panic that takes the whole server down.
   */
  datatype Entry =
    | Log(severity: Severity, message: Message)
    | Run(process: Process, outcome: Outcome)
    | Crash(panic: Panic)

  /** The commands one unit ran, in order, and how the unit ended. */
  datatype UnitResult = UnitResult(ran: seq<Entry>, status: Status)

  /** What a dispatch reads from its Hook besides the filter lists. */
  datatype Context = Context(lib: Library, host: Host, url: string, templates: Compiled, timeout: int)

  /** Render a template list in order, stopping at the first error (processCommand). */
  function RenderAll(lib: Library, e: Event, ts: seq<TemplatePtr>): (r: Result<seq<string>, Fault>)
    requires Present(ts)
    ensures r.Ok? <==> forall j | 0 <= j < |ts| :: lib.execute(ts[j].value, e).Ok?
    ensures r.Ok? ==> |r.value| == |ts| && forall j | 0 <= j < |ts| :: lib.execute(ts[j].value, e) == Ok(r.value[j])
    ensures r.Err? ==> r.error.RenderError?
    decreases |ts|
  {
    if |ts| == 0 then Ok([])
    else
      var last := |ts| - 1;
      match RenderAll(lib, e, ts[..last])
      case Err(f) => Err(f)
      case Ok(prefix) =>
        match lib.execute(ts[last].value, e)
        case Err(m) => Err(RenderError(m))
        case Ok(s) => Ok(prefix + [s])
  }

  /** The reported render error is that of the first template that fails. */
  lemma {:induction false} RenderAllFirstError(lib: Library, e: Event, ts: seq<TemplatePtr>, j: nat)
    requires Present(ts)
    requires j < |ts| && lib.execute(ts[j].value, e).Err?
    requires forall k | 0 <= k < j :: lib.execute(ts[k].value, e).Ok?
    ensures RenderAll(lib, e, ts) == Err(RenderError(lib.execute(ts[j].value, e).error))
    decreases |ts|
  {
    var last := |ts| - 1;
    if j < last {
      RenderAllFirstError(lib, e, ts[..last], j);
    } else {
      assert forall k | 0 <= k < |ts[..last]| :: lib.execute(ts[..last][k].value, e).Ok?;
    }
  }

  /** The directory: "" without a directory template. */
  function RenderDir(lib: Library, dir: TemplatePtr, e: Event): Result<string, Fault>
  {
    if dir.None? then Ok("")
    else match lib.execute(dir.value, e)
      case Err(m) => Err(RenderError(m))
      case Ok(s) => Ok(s)
  }

  /** The environment list: empty without environment templates. */
  function RenderEnv(lib: Library, env: Option<seq<TemplatePtr>>, e: Event): Result<seq<string>, Fault>
    requires env.Some? ==> Present(env.value)
  {
    if env.None? then Ok([]) else RenderAll(lib, e, env.value)
  }

  /**
   * Command `i` of a unit, made ready to run: rendered, then its program resolved and put in
   * place of the first argument (hook.go:205-216). A command with no arguments panics.
   */
  function PrepareOne(lib: Library, host: Host, e: Event, ts: seq<TemplatePtr>, i: nat): (r: Result<seq<string>, Status>)
    requires Present(ts)
    ensures r.Ok? ==> |r.value| == |ts| > 0
    ensures r == Err(Panicked(EmptyCommand(i))) <==> |ts| == 0
    ensures r.Err? ==> r.error.Failed? || r.error == Panicked(EmptyCommand(i))
  {
    match RenderAll(lib, e, ts)
    case Err(f) => Err(Failed(f))
    case Ok(args) =>
      if |args| == 0 then Err(Panicked(EmptyCommand(i)))
      else match host.lookPath(args[0])
        case Err(m) => Err(Failed(ExecutableNotFound(args[0], m)))
        case Ok(path) => Ok(args[0 := path])
  }

  /** A prepared command keeps its rendered arguments, with the resolved program first. */
  lemma PreparedCommand(lib: Library, host: Host, e: Event, ts: seq<TemplatePtr>, i: nat)
    requires Present(ts)
    ensures var r := PrepareOne(lib, host, e, ts, i);
      r.Ok? ==>
        && |r.value| == |ts| > 0
        && lib.execute(ts[0].value, e).Ok?
        && host.lookPath(lib.execute(ts[0].value, e).value) == Ok(r.value[0])
        && forall j | 1 <= j < |ts| :: lib.execute(ts[j].value, e) == Ok(r.value[j])
    ensures PrepareOne(lib, host, e, ts, i).Err? <==>
      || (exists j | 0 <= j < |ts| :: lib.execute(ts[j].value, e).Err?)
      || |ts| == 0
      || host.lookPath(lib.execute(ts[0].value, e).value).Err?
  {
  }

  /** Prepare every command of a unit, in order, stopping at the first that fails. */
  function Prepare(lib: Library, host: Host, e: Event, cmds: seq<seq<TemplatePtr>>): (r: Result<seq<seq<string>>, Status>)
    requires forall i | 0 <= i < |cmds| :: Present(cmds[i])
    ensures r.Ok? ==> |r.value| == |cmds|
    ensures r.Err? ==> !r.error.Done?
    ensures r.Err? && r.error.Panicked? ==> r.error.panic.EmptyCommand?
    decreases |cmds|
  {
    if |cmds| == 0 then Ok([])
    else
      var last := |cmds| - 1;
      match Prepare(lib, host, e, cmds[..last])
      case Err(s) => Err(s)
      case Ok(prefix) =>
        match PrepareOne(lib, host, e, cmds[last], last)
        case Err(s) => Err(s)
        case Ok(args) => Ok(prefix + [args])
  }

  /**
   * A unit is prepared exactly when every one of its commands is, and then the list holds each
   * command as PrepareOne made it, none of them empty.
   */
  lemma {:induction false} PrepareComplete(lib: Library, host: Host, e: Event, cmds: seq<seq<TemplatePtr>>)
    requires forall i | 0 <= i < |cmds| :: Present(cmds[i])
    ensures var r := Prepare(lib, host, e, cmds);
      r.Ok? <==> forall i | 0 <= i < |cmds| :: PrepareOne(lib, host, e, cmds[i], i).Ok?
    ensures var r := Prepare(lib, host, e, cmds);
      r.Ok? ==> forall i | 0 <= i < |cmds| :: PrepareOne(lib, host, e, cmds[i], i) == Ok(r.value[i]) && |r.value[i]| > 0
    decreases |cmds|
  {
    if |cmds| != 0 {
      var last := |cmds| - 1;
      PrepareComplete(lib, host, e, cmds[..last]);
      assert forall i | 0 <= i < last :: cmds[..last][i] == cmds[i];
    }
  }

  /** A command that can be prepared extends the prepared prefix. */
  lemma PrepareStep(lib: Library, host: Host, e: Event, cmds: seq<seq<TemplatePtr>>, i: nat)
    requires forall k | 0 <= k < |cmds| :: Present(cmds[k])
    requires i < |cmds| && PrepareOne(lib, host, e, cmds[i], i).Ok?
    requires Prepare(lib, host, e, cmds[..i]).Ok?
    ensures Prepare(lib, host, e, cmds[..i + 1]) ==
      Ok(Prepare(lib, host, e, cmds[..i]).value + [PrepareOne(lib, host, e, cmds[i], i).value])
  {
    assert cmds[..i + 1][..i] == cmds[..i];
  }

  /** The first command that cannot be prepared decides the unit's failure. */
  lemma {:induction false} PrepareStops(lib: Library, host: Host, e: Event, cmds: seq<seq<TemplatePtr>>, i: nat)
    requires forall k | 0 <= k < |cmds| :: Present(cmds[k])
    requires i < |cmds| && PrepareOne(lib, host, e, cmds[i], i).Err?
    requires Prepare(lib, host, e, cmds[..i]).Ok?
    ensures Prepare(lib, host, e, cmds) == Err(PrepareOne(lib, host, e, cmds[i], i).error)
    decreases |cmds|
  {
    var last := |cmds| - 1;
    var failure := PrepareOne(lib, host, e, cmds[i], i).error;
    if i < last {
      assert cmds[..last][..i] == cmds[..i];
      PrepareStops(lib, host, e, cmds[..last], i);
      assert Prepare(lib, host, e, cmds[..last]) == Err(failure);
    } else {
      assert cmds[..last] == cmds[..i];
      assert PrepareOne(lib, host, e, cmds[last], last) == Err(failure);
    }
  }

  /** The exec.Cmd for one command: the rendered environment replaces the inherited one only when non-empty. */
  function ProcessFor(args: seq<string>, env: seq<string>, dir: string, timeout: int): (p: Process)
    ensures p.argv == args && p.dir == dir && p.timeout == timeout
    ensures p.env.None? <==> |env| == 0
    ensures p.env.Some? ==> p.env.value == env
  {
    Process(args, if |env| != 0 then Some(env) else None, dir, timeout)
  }

  /**
   * runCommand: nil unless the timer fired first, whatever the exit status or a failed start; a
   * timeout error when it fired first on a started process, and a panic when it fired first on
   * one that never started.
   */
  function RunOne(host: Host, args: seq<string>, env: seq<string>, dir: string, timeout: int): (u: UnitResult)
    ensures var p := ProcessFor(args, env, dir, timeout);
      u.ran == [Run(p, host.run(p))]
    ensures var outcome := host.run(ProcessFor(args, env, dir, timeout));
      && (u.status == Done <==> !outcome.TimedOut?)
      && (u.status == Failed(CommandTimedOut(args)) <==> outcome == TimedOut(true))
      && (u.status == Panicked(KillNotStarted(args)) <==> outcome == TimedOut(false))
  {
    var p := ProcessFor(args, env, dir, timeout);
    var outcome := host.run(p);
    var status := match outcome
      case TimedOut(started) => if started then Failed(CommandTimedOut(args)) else Panicked(KillNotStarted(args))
      case _ => Done;
    UnitResult([Run(p, outcome)], status)
  }

  /**
   * Run prepared commands in sequence until one fails (hook.go:218-223). The commands run are
   * a prefix of the list, in order; only the last of them can have timed out, and the unit
   * fails exactly when one did.
   */
  function RunAll(host: Host, cmds: seq<seq<string>>, env: seq<string>, dir: string, timeout: int): (u: UnitResult)
    ensures |u.ran| <= |cmds|
    ensures u.status.Panicked? ==> u.status.panic.KillNotStarted? && |u.ran| > 0
    decreases |cmds|
  {
    if |cmds| == 0 then UnitResult([], Done)
    else
      var last := |cmds| - 1;
      var u := RunAll(host, cmds[..last], env, dir, timeout);
      if u.status != Done then u
      else
        var step := RunOne(host, cmds[last], env, dir, timeout);
        UnitResult(u.ran + step.ran, step.status)
  }

  /**
   * What RunAll ran: a prefix of the commands, in order; only the last of them can have timed
   * out, and the unit fails exactly when one did.
   */
  lemma {:induction false} RunAllComplete(host: Host, cmds: seq<seq<string>>, env: seq<string>, dir: string,
                                          timeout: int)
    ensures var u := RunAll(host, cmds, env, dir, timeout);
      forall k | 0 <= k < |u.ran| ::
        u.ran[k] == Run(ProcessFor(cmds[k], env, dir, timeout), host.run(ProcessFor(cmds[k], env, dir, timeout)))
    ensures var u := RunAll(host, cmds, env, dir, timeout);
      forall k | 0 <= k < |u.ran| - 1 :: !host.run(ProcessFor(cmds[k], env, dir, timeout)).TimedOut?
    ensures var u := RunAll(host, cmds, env, dir, timeout);
      u.status == Done <==>
        |u.ran| == |cmds| && forall k | 0 <= k < |cmds| :: !host.run(ProcessFor(cmds[k], env, dir, timeout)).TimedOut?
    ensures var u := RunAll(host, cmds, env, dir, timeout);
      u.status.Failed? ==>
        && |u.ran| > 0
        && host.run(ProcessFor(cmds[|u.ran| - 1], env, dir, timeout)) == TimedOut(true)
        && u.status.fault == CommandTimedOut(cmds[|u.ran| - 1])
    ensures var u := RunAll(host, cmds, env, dir, timeout);
      u.status.Panicked? ==>
        && |u.ran| > 0
        && host.run(ProcessFor(cmds[|u.ran| - 1], env, dir, timeout)) == TimedOut(false)
        && u.status.panic == KillNotStarted(cmds[|u.ran| - 1])
    decreases |cmds|
  {
    if |cmds| != 0 {
      var last := |cmds| - 1;
      RunAllComplete(host, cmds[..last], env, dir, timeout);
      assert forall k | 0 <= k < last :: cmds[..last][k] == cmds[k];
    }
  }

  /** The first command the timer beats ends the unit; the commands after it never start. */
  lemma {:induction false} RunAllStops(host: Host, cmds: seq<seq<string>>, env: seq<string>, dir: string,
                                       timeout: int, k: nat)
    requires k < |cmds|
    requires RunAll(host, cmds[..k], env, dir, timeout).status == Done
    requires RunOne(host, cmds[k], env, dir, timeout).status != Done
    ensures RunAll(host, cmds, env, dir, timeout) ==
      UnitResult(RunAll(host, cmds[..k], env, dir, timeout).ran + RunOne(host, cmds[k], env, dir, timeout).ran,
                 RunOne(host, cmds[k], env, dir, timeout).status)
    decreases |cmds|
  {
    var last := |cmds| - 1;
    if k < last {
      assert cmds[..last][..k] == cmds[..k];
      RunAllStops(host, cmds[..last], env, dir, timeout, k);
    } else {
      assert cmds[..last] == cmds[..k];
    }
  }

  /**
   * processEvent: render the directory, then the environment, then prepare every command; only
   * when all of that succeeded run the commands.
   */
  function ProcessEventSpec(ctx: Context, e: Event): (u: UnitResult)
    requires ctx.templates.Usable()
    ensures |u.ran| <= |ctx.templates.Commands()|
    ensures u.status.Panicked? ==> (u.status.panic.KillNotStarted? <==> u.ran != [])
  {
    match RenderDir(ctx.lib, ctx.templates.dir, e)
    case Err(f) => UnitResult([], Failed(f))
    case Ok(dir) =>
      match RenderEnv(ctx.lib, ctx.templates.env, e)
      case Err(f) => UnitResult([], Failed(f))
      case Ok(env) =>
        match Prepare(ctx.lib, ctx.host, e, ctx.templates.Commands())
        case Err(s) => UnitResult([], s)
        case Ok(cmds) => RunAll(ctx.host, cmds, env, dir, ctx.timeout)
  }

  /**
   * Resolve all before running any: if the directory, the environment or any command cannot be
   * rendered, or any program cannot be resolved, or any command is empty, nothing runs and the
   * unit fails (which failure it reports is the first one, by RenderAllFirstError and
   * PrepareStops). Otherwise the commands run in list order with their resolved paths.
   */
  lemma {:induction false} ResolveBeforeRun(ctx: Context, e: Event)
    requires ctx.templates.Usable()
    ensures var u := ProcessEventSpec(ctx, e);
      var cmds := ctx.templates.Commands();
      (|| RenderDir(ctx.lib, ctx.templates.dir, e).Err?
       || RenderEnv(ctx.lib, ctx.templates.env, e).Err?
       || exists i | 0 <= i < |cmds| :: PrepareOne(ctx.lib, ctx.host, e, cmds[i], i).Err?)
      ==> u.ran == [] && u.status != Done
    ensures var u := ProcessEventSpec(ctx, e);
      var cmds := ctx.templates.Commands();
      var dir := RenderDir(ctx.lib, ctx.templates.dir, e);
      var env := RenderEnv(ctx.lib, ctx.templates.env, e);
      (&& dir.Ok? && env.Ok?
       && forall i | 0 <= i < |cmds| :: PrepareOne(ctx.lib, ctx.host, e, cmds[i], i).Ok?)
      ==>
        && |u.ran| <= |cmds|
        && forall k | 0 <= k < |u.ran| ::
             u.ran[k].Run? && u.ran[k].process ==
               ProcessFor(PrepareOne(ctx.lib, ctx.host, e, cmds[k], k).value, env.value, dir.value, ctx.timeout)
  {
    var cmds := ctx.templates.Commands();
    var u := ProcessEventSpec(ctx, e);
    var dir := RenderDir(ctx.lib, ctx.templates.dir, e);
    var env := RenderEnv(ctx.lib, ctx.templates.env, e);
    var p := Prepare(ctx.lib, ctx.host, e, cmds);
    PrepareComplete(ctx.lib, ctx.host, e, cmds);
    if dir.Err? {
      assert u == UnitResult([], Failed(dir.error));
    } else if env.Err? {
      assert u == UnitResult([], Failed(env.error));
    } else if p.Err? {
      assert u == UnitResult([], p.error);
    } else {
      RunAllComplete(ctx.host, p.value, env.value, dir.value, ctx.timeout);
      assert u == RunAll(ctx.host, p.value, env.value, dir.value, ctx.timeout);
    }
  }

  /** The log lines Execute writes after a unit: an error line on failure, a crash on a panic. */
  function StatusLog(url: string, s: Status): seq<Entry>
  {
    match s
    case Done => []
    case Failed(f) => [Log(Error, ProcessingError(url, f))]
    case Panicked(p) => [Crash(p)]
  }

  /** One unit as Execute reports it. */
  function UnitTrace(ctx: Context, e: Event): seq<Entry>
    requires ctx.templates.Usable()
  {
    var u := ProcessEventSpec(ctx, e);
    u.ran + StatusLog(ctx.url, u.status)
  }

  /** processEvent of a hook as a function of the event alone. */
  function UnitOf(ctx: Context): (unit: Event -> UnitResult)
    requires ctx.templates.Usable()
  {
    ev => ProcessEventSpec(ctx, ev)
  }

  /** The event a commit's unit sees: the commit object written under `commit`. */
  function WithCommit(e: Event, commit: Value): Event
  {
    e["commit" := commit]
  }

  /**
   * The per-commit loop (hook.go:149-166) over any unit function: a non-object commit is logged
   * and skipped; every object commit runs one unit; a unit error is logged and the loop goes on;
   * a panic ends it.
   */
  function CommitLoop(url: string, unit: Event -> UnitResult, e: Event, cs: seq<Value>): (r: seq<Entry>)
    ensures r == [] ==> forall k | 0 <= k < |cs| :: cs[k].JObject?
    decreases |cs|
  {
    if |cs| == 0 then []
    else if cs[0].JObject? then
      var u := unit(WithCommit(e, cs[0]));
      u.ran + StatusLog(url, u.status) + (if u.status.Panicked? then [] else CommitLoop(url, unit, e, cs[1..]))
    else
      [Log(Error, BadCommit(cs[0]))] + CommitLoop(url, unit, e, cs[1..])
  }

  /** One step of the loop: commit `i` of `cs` followed by the rest of the list. */
  lemma CommitLoopStep(url: string, unit: Event -> UnitResult, e: Event, cs: seq<Value>, i: nat)
    requires i < |cs|
    ensures cs[i].JObject? && unit(WithCommit(e, cs[i])).status.Panicked? ==>
      CommitLoop(url, unit, e, cs[i..]) ==
        unit(WithCommit(e, cs[i])).ran + StatusLog(url, unit(WithCommit(e, cs[i])).status)
    ensures cs[i].JObject? && !unit(WithCommit(e, cs[i])).status.Panicked? ==>
      CommitLoop(url, unit, e, cs[i..]) ==
        unit(WithCommit(e, cs[i])).ran + StatusLog(url, unit(WithCommit(e, cs[i])).status)
          + CommitLoop(url, unit, e, cs[i + 1..])
    ensures !cs[i].JObject? ==>
      CommitLoop(url, unit, e, cs[i..]) == [Log(Error, BadCommit(cs[i]))] + CommitLoop(url, unit, e, cs[i + 1..])
  {
    assert cs[i..][0] == cs[i] && cs[i..][1..] == cs[i + 1..];
  }

  /** Past the last commit the loop writes nothing. */
  lemma CommitLoopEnd(url: string, unit: Event -> UnitResult, e: Event, cs: seq<Value>)
    ensures CommitLoop(url, unit, e, cs[|cs|..]) == []
  {
  }

  /** The events processEvent is called with in per-commit mode: one per object commit, in order. */
  function CommitEvents(e: Event, cs: seq<Value>): (evs: seq<Event>)
    ensures |evs| <= |cs|
    decreases |cs|
  {
    if |cs| == 0 then []
    else if cs[0].JObject? then [WithCommit(e, cs[0])] + CommitEvents(e, cs[1..])
    else CommitEvents(e, cs[1..])
  }

  /** The processes a trace spawned, in order. */
  function Runs(trace: seq<Entry>): seq<Process>
    decreases |trace|
  {
    if |trace| == 0 then []
    else (if trace[0].Run? then [trace[0].process] else []) + Runs(trace[1..])
  }

  lemma {:induction false} RunsAppend(a: seq<Entry>, b: seq<Entry>)
    ensures Runs(a + b) == Runs(a) + Runs(b)
    decreases |a|
  {
    if |a| == 0 {
      assert a + b == b;
    } else {
      var head := if a[0].Run? then [a[0].process] else [];
      assert (a + b)[0] == a[0] && (a + b)[1..] == a[1..] + b;
      RunsAppend(a[1..], b);
      calc {
        Runs(a + b);
        head + Runs(a[1..] + b);
        head + (Runs(a[1..]) + Runs(b));
        (head + Runs(a[1..])) + Runs(b);
      }
    }
  }

  lemma StatusLogRunsNothing(url: string, s: Status)
    ensures Runs(StatusLog(url, s)) == []
  {
  }

  /** The processes of a list of units, unit after unit. */
  function UnitRuns(unit: Event -> UnitResult, evs: seq<Event>): seq<Process>
    decreases |evs|
  {
    if |evs| == 0 then [] else Runs(unit(evs[0]).ran) + UnitRuns(unit, evs[1..])
  }

  /** No unit of the list panics. */
  predicate NoPanic(unit: Event -> UnitResult, evs: seq<Event>)
  {
    forall k | 0 <= k < |evs| :: !unit(evs[k]).status.Panicked?
  }

  /**
   * Per-commit fan-out: the loop runs exactly the units of the object commits, in list order,
   * whatever errors those units report; a failing commit does not stop the later ones.
   */
  lemma {:induction false} CommitLoopUnits(url: string, unit: Event -> UnitResult, e: Event, cs: seq<Value>)
    requires NoPanic(unit, CommitEvents(e, cs))
    ensures Runs(CommitLoop(url, unit, e, cs)) == UnitRuns(unit, CommitEvents(e, cs))
    decreases |cs|
  {
    if |cs| != 0 {
      NoPanicTail(unit, e, cs);
      CommitLoopUnits(url, unit, e, cs[1..]);
      var tail := CommitLoop(url, unit, e, cs[1..]);
      if cs[0].JObject? {
        var u := unit(WithCommit(e, cs[0]));
        var head := u.ran + StatusLog(url, u.status);
        assert CommitLoop(url, unit, e, cs) == head + tail;
        RunsAppend(head, tail);
        RunsAppend(u.ran, StatusLog(url, u.status));
        StatusLogRunsNothing(url, u.status);
      } else {
        assert CommitLoop(url, unit, e, cs) == [Log(Error, BadCommit(cs[0]))] + tail;
        RunsAppend([Log(Error, BadCommit(cs[0]))], tail);
      }
    }
  }

  /** No panic among the units of a list means none among those of its tail. */
  lemma NoPanicTail(unit: Event -> UnitResult, e: Event, cs: seq<Value>)
    requires |cs| > 0 && NoPanic(unit, CommitEvents(e, cs))
    ensures NoPanic(unit, CommitEvents(e, cs[1..]))
    ensures cs[0].JObject? ==> !unit(WithCommit(e, cs[0])).status.Panicked?
  {
    var evs := CommitEvents(e, cs);
    var rest := CommitEvents(e, cs[1..]);
    if cs[0].JObject? {
      assert evs == [WithCommit(e, cs[0])] + rest;
      assert evs[0] == WithCommit(e, cs[0]);
      forall k | 0 <= k < |rest| ensures !unit(rest[k]).status.Panicked? {
        assert rest[k] == evs[k + 1];
      }
    } else {
      assert evs == rest;
    }
  }

  /**
   * Commits are independent: the loop over `cs + ds` is the loop over `cs` followed by the loop
   * over `ds`, unless a unit of `cs` panicked.
   */
  lemma {:induction false} CommitLoopAppend(url: string, unit: Event -> UnitResult, e: Event, cs: seq<Value>, ds: seq<Value>)
    requires NoPanic(unit, CommitEvents(e, cs))
    ensures CommitLoop(url, unit, e, cs + ds) == CommitLoop(url, unit, e, cs) + CommitLoop(url, unit, e, ds)
    decreases |cs|
  {
    if |cs| == 0 {
      assert cs + ds == ds;
    } else {
      assert (cs + ds)[0] == cs[0];
      assert (cs + ds)[1..] == cs[1..] + ds;
      NoPanicTail(unit, e, cs);
      CommitLoopAppend(url, unit, e, cs[1..], ds);
    }
  }

  /** A panic in a commit's unit ends the loop: no later commit is processed. */
  lemma {:induction false} CommitLoopPanicStops(url: string, unit: Event -> UnitResult, e: Event, cs: seq<Value>, ds: seq<Value>)
    requires !NoPanic(unit, CommitEvents(e, cs))
    ensures CommitLoop(url, unit, e, cs + ds) == CommitLoop(url, unit, e, cs)
    decreases |cs|
  {
    assert |cs| != 0;
    assert (cs + ds)[0] == cs[0];
    assert (cs + ds)[1..] == cs[1..] + ds;
    var evs := CommitEvents(e, cs);
    var rest := CommitEvents(e, cs[1..]);
    if cs[0].JObject? {
      assert evs == [WithCommit(e, cs[0])] + rest;
      if !unit(WithCommit(e, cs[0])).status.Panicked? {
        assert !NoPanic(unit, rest) by {
          var k :| 0 <= k < |evs| && unit(evs[k]).status.Panicked?;
          assert k != 0 && rest[k - 1] == evs[k];
        }
        CommitLoopPanicStops(url, unit, e, cs[1..], ds);
      }
    } else {
      assert evs == rest;
      CommitLoopPanicStops(url, unit, e, cs[1..], ds);
    }
  }
}
