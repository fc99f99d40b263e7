/**
 * The Hook of webhook.go:15-55 with the methods of hook.go that fill its compiled fields and
 * dispatch events: CreateTemplates, Execute, processEvent, processCommand and runCommand.
 */
module HookEngine {
  import opened Wrappers
  import opened Json
  import opened Templates
  import opened Filter
  import opened Dispatch
  import opened Compile

  /** The loop of hook.go:83-88 (and 103-108, 130-135): does the allow-list hold the value? */
  method Allowed(allow: seq<string>, value: string) returns (allowed: bool)
    ensures allowed <==> value in allow
  {
    allowed := false;
    var i := 0;
    while i < |allow|
      invariant 0 <= i <= |allow|
      invariant value !in allow[..i]
    {
      if allow[i] == value {
        allowed := true;
        break;
      }
      i := i + 1;
    }
    assert allow[..i] == allow || allowed;
  }

  class Hook {
    var url: string
    var dir: string
    var env: seq<string>
    var perCommit: bool
    var allowEvent: seq<string>
    var allowPipelineStatus: seq<string>
    var allowBranches: seq<string>
    var commands: seq<seq<string>>
    var timeout: int
    var secret: string

    var cmdTemplate: Option<seq<seq<TemplatePtr>>>
    var envTemplate: Option<seq<TemplatePtr>>
    var dirTemplate: TemplatePtr

    /** A hook as a hook file decodes it: no compiled templates yet. */
    constructor (url: string, dir: string, env: seq<string>, perCommit: bool, allowEvent: seq<string>,
                 allowPipelineStatus: seq<string>, allowBranches: seq<string>, commands: seq<seq<string>>,
                 timeout: int, secret: string)
      ensures this.url == url && this.dir == dir && this.env == env && this.perCommit == perCommit
      ensures this.allowEvent == allowEvent && this.allowPipelineStatus == allowPipelineStatus
      ensures this.allowBranches == allowBranches && this.commands == commands
      ensures this.timeout == timeout && this.secret == secret
      ensures cmdTemplate.None? && envTemplate.None? && dirTemplate.None?
    {
      this.url := url;
      this.dir := dir;
      this.env := env;
      this.perCommit := perCommit;
      this.allowEvent := allowEvent;
      this.allowPipelineStatus := allowPipelineStatus;
      this.allowBranches := allowBranches;
      this.commands := commands;
      this.timeout := timeout;
      this.secret := secret;
      cmdTemplate, envTemplate, dirTemplate := None, None, None;
    }

    /** The three compiled fields as one value. */
    function Templates(): Compiled
      reads this
    {
      Compiled(cmdTemplate, envTemplate, dirTemplate)
    }

    /** No template Execute would run is nil; true of every hook the server starts with. */
    predicate Usable()
      reads this
    {
      Templates().Usable()
    }

    function UnitContext(lib: Library, host: Host): Context
      reads this
    {
      Dispatch.Context(lib, host, url, Templates(), timeout)
    }

    /** Everything Execute does with one event, in order. */
    function Trace(lib: Library, host: Host, e: Event): (r: seq<Entry>)
      reads this
      requires Usable()
      ensures Check(e, allowEvent, allowPipelineStatus, allowBranches).Some? ==>
        |r| == 1 && r[0].Log? && r[0].message.Filtered?
      ensures perCommit && Check(e, allowEvent, allowPipelineStatus, allowBranches).None? && host.commits(e).None? ==>
        r == []
    {
      match Check(e, allowEvent, allowPipelineStatus, allowBranches)
      case Some(r) => [Log(SeverityOf(r), Filtered(r))]
      case None =>
        if !perCommit then UnitTrace(UnitContext(lib, host), e)
        else
          var commits := host.commits(e);
          if commits.None? then [] else CommitLoop(url, UnitOf(UnitContext(lib, host)), e, commits.value)
    }

    /**
     * CreateTemplates (hook.go:33-71): compile the commands, then the environment, then the
     * directory, stopping at the first parse error.
     */
    method CreateTemplates(lib: Library) returns (err: Option<string>)
      modifies this`cmdTemplate, this`envTemplate, this`dirTemplate
      ensures CompileOutcome(Templates(), err) ==
        CreateTemplatesSpec(lib, commands, env, dir, old(Templates()))
    {
      err := CompileCommands(lib);
      if err.Some? {
        return;
      }
      err := CompileEnv(lib);
      if err.Some? {
        return;
      }
      err := CompileDir(lib);
    }

    /** hook.go:35-47: fill `cmdTemplate` row by row in place; a parse error resets it to nil. */
    method CompileCommands(lib: Library) returns (err: Option<string>)
      modifies this`cmdTemplate
      ensures err == FillRows(lib, commands).error
      ensures err.None? ==> cmdTemplate == Some(FillRows(lib, commands).rows)
      ensures err.Some? ==> cmdTemplate.None?
    {
      cmdTemplate := Some(seq(|commands|, _ => []));
      var i := 0;
      while i < |commands|
        invariant 0 <= i <= |commands|
        invariant cmdTemplate.Some? && |cmdTemplate.value| == |commands|
        invariant FillRows(lib, commands[..i]).error.None?
        invariant cmdTemplate.value[..i] == FillRows(lib, commands[..i]).rows
      {
        ghost var before := cmdTemplate.value;
        var rowErr := CompileRow(lib, i);
        if rowErr.Some? {
          FillRowsStops(lib, commands, i);
          return rowErr;
        }
        assert cmdTemplate.value[..i] == before[..i];
        FillRowsStep(lib, commands, i);
        assert cmdTemplate.value[..i + 1] == cmdTemplate.value[..i] + [cmdTemplate.value[i]];
        i := i + 1;
      }
      assert commands[..i] == commands;
      assert cmdTemplate.value[..i] == cmdTemplate.value;
      err := None;
    }

    /** hook.go:37-46: fill row `i` of `cmdTemplate` in place; a parse error resets the table to nil. */
    method CompileRow(lib: Library, i: nat) returns (err: Option<string>)
      requires i < |commands| && cmdTemplate.Some? && |cmdTemplate.value| == |commands|
      modifies this`cmdTemplate
      ensures err == FillTemplates(lib, commands[i]).error
      ensures err.None? ==> cmdTemplate == Some(old(cmdTemplate.value)[i := FillTemplates(lib, commands[i]).ptrs])
      ensures err.Some? ==> cmdTemplate.None?
    {
      var row := commands[i];
      ghost var table := cmdTemplate.value;
      cmdTemplate := Some(cmdTemplate.value[i := Nils(|row|)]);
      var j := 0;
      FillEnds(lib, row);
      while j < |row|
        invariant 0 <= j <= |row|
        invariant FillTemplates(lib, row[..j]).error.None?
        invariant cmdTemplate == Some(table[i := FillTemplates(lib, row[..j]).ptrs + Nils(|row| - j)])
      {
        var t := CreateTemplate(lib, row[j]);
        if t.Err? {
          FillTemplatesStops(lib, row, j);
          cmdTemplate := None;
          return Some(t.error);
        }
        FillSlot(lib, row, j);
        ghost var newRow := FillTemplates(lib, row[..j + 1]).ptrs + Nils(|row| - (j + 1));
        assert cmdTemplate.value[i := newRow] == table[i := newRow];
        cmdTemplate := Some(cmdTemplate.value[i := cmdTemplate.value[i][j := Some(t.value)]]);
        j := j + 1;
      }
      err := None;
    }

    /** hook.go:49-59: fill `envTemplate` in place, nil for an empty Env; an error leaves it partly filled. */
    method CompileEnv(lib: Library) returns (err: Option<string>)
      modifies this`envTemplate
      ensures |env| == 0 ==> envTemplate.None? && err.None?
      ensures |env| != 0 ==> envTemplate == Some(FillTemplates(lib, env).ptrs) && err == FillTemplates(lib, env).error
    {
      if |env| == 0 {
        envTemplate := None;
        return None;
      }
      envTemplate := Some(Nils(|env|));
      var k := 0;
      FillEnds(lib, env);
      while k < |env|
        invariant 0 <= k <= |env|
        invariant FillTemplates(lib, env[..k]).error.None?
        invariant envTemplate == Some(FillTemplates(lib, env[..k]).ptrs + Nils(|env| - k))
      {
        var t := CreateTemplate(lib, env[k]);
        if t.Err? {
          FillTemplatesStops(lib, env, k);
          return Some(t.error);
        }
        FillSlot(lib, env, k);
        envTemplate := Some(envTemplate.value[k := Some(t.value)]);
        k := k + 1;
      }
      err := None;
    }

    /** hook.go:61-68: the directory template, nil for an empty Dir or one that does not parse. */
    method CompileDir(lib: Library) returns (err: Option<string>)
      modifies this`dirTemplate
      ensures var o := DirStage(lib, dir, Compiled(cmdTemplate, envTemplate, old(dirTemplate)));
        dirTemplate == o.templates.dir && err == o.error
    {
      if dir != "" {
        var t := CreateTemplate(lib, dir);
        if t.Err? {
          dirTemplate := None;
          return Some(t.error);
        }
        dirTemplate := Some(t.value);
      } else {
        dirTemplate := None;
      }
      err := None;
    }

    /** processCommand (hook.go:228-243): render a command's arguments in order. */
    method ProcessCommand(lib: Library, e: Event, templateList: seq<TemplatePtr>) returns (r: Result<seq<string>, Fault>)
      requires Present(templateList)
      ensures r == RenderAll(lib, e, templateList)
    {
      var cmdList := seq(|templateList|, _ => "");
      var i := 0;
      while i < |templateList|
        invariant 0 <= i <= |templateList| && |cmdList| == |templateList|
        invariant RenderAll(lib, e, templateList[..i]) == Ok(cmdList[..i])
      {
        var s := lib.execute(templateList[i].value, e);
        assert templateList[..i + 1][..i] == templateList[..i];
        if s.Err? {
          RenderAllFirstError(lib, e, templateList, i);
          return Err(RenderError(s.error));
        }
        cmdList := cmdList[i := s.value];
        assert cmdList[..i + 1] == cmdList[..i] + [s.value];
        i := i + 1;
      }
      assert templateList[..i] == templateList && cmdList[..i] == cmdList;
      r := Ok(cmdList);
    }

    /** runCommand (hook.go:245-276), with the process and the timer race as the `run` oracle. */
    method RunCommand(host: Host, args: seq<string>, env: seq<string>, dir: string) returns (u: UnitResult)
      requires |args| > 0
      ensures u == RunOne(host, args, env, dir, timeout)
    {
      var cmdEnv: Option<seq<string>> := None;
      if |env| != 0 {
        cmdEnv := Some(env);
      }
      var process := Process(args, cmdEnv, dir, timeout);
      var outcome := host.run(process);
      match outcome {
        case TimedOut(started) =>
          if started {
            u := UnitResult([Run(process, outcome)], Failed(CommandTimedOut(args)));
          } else {
            // Start failed, so killing cmd.Process dereferences nil.
            u := UnitResult([Run(process, outcome)], Panicked(KillNotStarted(args)));
          }
        case _ =>
          u := UnitResult([Run(process, outcome)], Done);
      }
    }

    /** processEvent (hook.go:179-226). */
    method ProcessEvent(lib: Library, host: Host, e: Event) returns (u: UnitResult)
      requires Usable()
      ensures u == ProcessEventSpec(UnitContext(lib, host), e)
    {
      var dir := "";
      if dirTemplate.Some? {
        var d := lib.execute(dirTemplate.value, e);
        if d.Err? {
          return UnitResult([], Failed(RenderError(d.error)));
        }
        dir := d.value;
      }

      // The environment loop (hook.go:194-203) renders exactly as processCommand does.
      var env: seq<string> := [];
      if envTemplate.Some? {
        var rendered := ProcessCommand(lib, e, envTemplate.value);
        if rendered.Err? {
          return UnitResult([], Failed(rendered.error));
        }
        env := rendered.value;
      }

      var cmds := PrepareCommands(lib, host, e);
      if cmds.Err? {
        return UnitResult([], cmds.error);
      }
      PrepareComplete(lib, host, e, Templates().Commands());
      u := RunCommands(host, cmds.value, env, dir);
    }

    /** The command loop of processEvent (hook.go:205-216), filling `cmds` slot by slot. */
    method PrepareCommands(lib: Library, host: Host, e: Event) returns (r: Result<seq<seq<string>>, Status>)
      requires Usable()
      ensures r == Prepare(lib, host, e, Templates().Commands())
    {
      var cmdList := Templates().Commands();
      var cmds: seq<seq<string>> := seq(|cmdList|, _ => []);
      var i := 0;
      while i < |cmdList|
        invariant 0 <= i <= |cmdList| && |cmds| == |cmdList|
        invariant Prepare(lib, host, e, cmdList[..i]) == Ok(cmds[..i])
      {
        var cmd := PrepareCommand(lib, host, e, cmdList[i], i);
        if cmd.Err? {
          PrepareStops(lib, host, e, cmdList, i);
          return Err(cmd.error);
        }
        PrepareStep(lib, host, e, cmdList, i);
        cmds := cmds[i := cmd.value];
        assert cmds[..i + 1] == cmds[..i] + [cmd.value];
        i := i + 1;
      }
      assert cmdList[..i] == cmdList && cmds[..i] == cmds;
      r := Ok(cmds);
    }

    /**
     * One pass of that loop (hook.go:206-215): render the arguments, resolve the program and
     * overwrite argument 0 with its path. Indexing argument 0 of an empty command panics.
     */
    method PrepareCommand(lib: Library, host: Host, e: Event, ts: seq<TemplatePtr>, i: nat)
      returns (r: Result<seq<string>, Status>)
      requires Present(ts)
      ensures r == PrepareOne(lib, host, e, ts, i)
    {
      var rendered := ProcessCommand(lib, e, ts);
      if rendered.Err? {
        return Err(Failed(rendered.error));
      }
      var args := rendered.value;
      if |args| == 0 {
        return Err(Panicked(EmptyCommand(i)));
      }
      var execPath := host.lookPath(args[0]);
      if execPath.Err? {
        return Err(Failed(ExecutableNotFound(args[0], execPath.error)));
      }
      args := args[0 := execPath.value];
      r := Ok(args);
    }

    /** The run loop of processEvent (hook.go:218-223): in order, stopping at the first error. */
    method RunCommands(host: Host, cmds: seq<seq<string>>, env: seq<string>, dir: string) returns (u: UnitResult)
      requires forall i | 0 <= i < |cmds| :: |cmds[i]| > 0
      ensures u == RunAll(host, cmds, env, dir, timeout)
    {
      var ran: seq<Entry> := [];
      var k := 0;
      while k < |cmds|
        invariant 0 <= k <= |cmds|
        invariant RunAll(host, cmds[..k], env, dir, timeout) == UnitResult(ran, Done)
      {
        assert cmds[..k + 1][..k] == cmds[..k];
        var step := RunCommand(host, cmds[k], env, dir);
        ran := ran + step.ran;
        if step.status != Done {
          RunAllStops(host, cmds, env, dir, timeout, k);
          return UnitResult(ran, step.status);
        }
        k := k + 1;
      }
      assert cmds[..k] == cmds;
      u := UnitResult(ran, Done);
    }

    /** The filter of Execute (hook.go:75-144): the log line of the first rejection, if any. */
    method CheckEvent(e: Event) returns (rejected: Option<Entry>)
      ensures rejected.None? <==> Check(e, allowEvent, allowPipelineStatus, allowBranches).None?
      ensures rejected.Some? ==>
        var r := Check(e, allowEvent, allowPipelineStatus, allowBranches).value;
        rejected.value == Log(SeverityOf(r), Filtered(r))
    {
      if |allowEvent| != 0 {
        var eventType := StringField(e, "type");
        if eventType.None? {
          return Some(Log(Warning, Filtered(NonStringType)));
        }
        var allowed := Allowed(allowEvent, eventType.value);
        if !allowed {
          return Some(Log(Warning, Filtered(DisallowedType(eventType.value))));
        }
      }
      if |allowPipelineStatus| != 0 {
        var pipelineStatus := StringField(e, "status");
        if pipelineStatus.None? {
          return Some(Log(Warning, Filtered(NonStringStatus)));
        }
        var allowed := Allowed(allowPipelineStatus, pipelineStatus.value);
        if !allowed {
          return Some(Log(Info, Filtered(IncorrectStatus(pipelineStatus.value))));
        }
      }
      if |allowBranches| != 0 {
        var ref := StringField(e, "ref");
        if ref.None? {
          return Some(Log(Warning, Filtered(NonStringRef)));
        }
        var branch := ref.value;
        if HeadsPrefix <= branch {
          branch := branch[|HeadsPrefix|..];
        }
        var allowed := Allowed(allowBranches, branch);
        if !allowed {
          return Some(Log(Info, Filtered(IgnoredBranch(branch))));
        }
      }
      rejected := None;
    }

    /** Execute (hook.go:74-177): filter, then one unit or one unit per commit. */
    method Execute(lib: Library, host: Host, e: Event) returns (trace: seq<Entry>)
      requires Usable()
      ensures trace == Trace(lib, host, e)
    {
      var rejected := CheckEvent(e);
      if rejected.Some? {
        return [rejected.value];
      }
      if perCommit {
        trace := [];
        var commits := host.commits(e);
        if commits.Some? {
          trace := ForEachCommit(lib, host, e, commits.value);
        }
      } else {
        var u := ProcessEvent(lib, host, e);
        trace := u.ran + StatusLog(url, u.status);
      }
    }

    /**
     * One pass of the per-commit loop (hook.go:150-165): the trace so far followed by the loop
     * from commit `i` on makes `total`; so does the trace with commit `i`'s entries added, followed
     * by the loop from commit `i + 1` on, unless the loop ends at `i`, where the trace is `total`.
     */
    method CommitStep(lib: Library, host: Host, e: Event, commits: seq<Value>, i: nat, trace: seq<Entry>,
                      ghost total: seq<Entry>)
      returns (next: seq<Entry>, stop: bool)
      requires Usable() && i < |commits|
      requires trace + CommitLoop(url, UnitOf(UnitContext(lib, host)), e, commits[i..]) == total
      ensures stop ==> next == total
      ensures !stop ==> next + CommitLoop(url, UnitOf(UnitContext(lib, host)), e, commits[i + 1..]) == total
    {
      if commits[i].JObject? {
        next, stop := CommitObject(lib, host, e, commits, i, trace, total);
      } else {
        ghost var unit := UnitOf(UnitContext(lib, host));
        CommitLoopStep(url, unit, e, commits, i);
        var head := [Log(Error, BadCommit(commits[i]))];
        assert trace + (head + CommitLoop(url, unit, e, commits[i + 1..])) ==
          (trace + head) + CommitLoop(url, unit, e, commits[i + 1..]);
        next := trace + head;
        stop := false;
      }
    }

    /** An object commit: its unit runs on the event holding it under `commit`. */
    method CommitObject(lib: Library, host: Host, e: Event, commits: seq<Value>, i: nat, trace: seq<Entry>,
                        ghost total: seq<Entry>)
      returns (next: seq<Entry>, stop: bool)
      requires Usable() && i < |commits| && commits[i].JObject?
      requires trace + CommitLoop(url, UnitOf(UnitContext(lib, host)), e, commits[i..]) == total
      ensures stop ==> next == total
      ensures !stop ==> next + CommitLoop(url, UnitOf(UnitContext(lib, host)), e, commits[i + 1..]) == total
    {
      ghost var unit := UnitOf(UnitContext(lib, host));
      CommitLoopStep(url, unit, e, commits, i);
      var event := e["commit" := commits[i]];
      var u := ProcessEvent(lib, host, event);
      var head := u.ran + StatusLog(url, u.status);
      stop := u.status.Panicked?;
      if !stop {
        assert trace + (head + CommitLoop(url, unit, e, commits[i + 1..])) ==
          (trace + head) + CommitLoop(url, unit, e, commits[i + 1..]);
      }
      next := trace + head;
    }

    /**
     * The per-commit loop of Execute (hook.go:149-166), which writes each object commit into the
     * event under `commit` before processing it.
     */
    method ForEachCommit(lib: Library, host: Host, e: Event, commits: seq<Value>) returns (trace: seq<Entry>)
      requires Usable()
      ensures trace == CommitLoop(url, UnitOf(UnitContext(lib, host)), e, commits)
    {
      trace := [];
      var i := 0;
      while i < |commits|
        invariant 0 <= i <= |commits|
        invariant trace + CommitLoop(url, UnitOf(UnitContext(lib, host)), e, commits[i..]) ==
          CommitLoop(url, UnitOf(UnitContext(lib, host)), e, commits)
      {
        var stop;
        trace, stop := CommitStep(lib, host, e, commits, i, trace,
                                  CommitLoop(url, UnitOf(UnitContext(lib, host)), e, commits));
        if stop {
          return;
        }
        i := i + 1;
      }
      CommitLoopEnd(url, UnitOf(UnitContext(lib, host)), e, commits);
    }
  }

  /** A rejected event produces its one log line and nothing else: nothing is rendered, resolved or run. */
  lemma RejectedEventRunsNothing(h: Hook, lib: Library, host: Host, e: Event)
    requires h.Usable()
    requires Check(e, h.allowEvent, h.allowPipelineStatus, h.allowBranches).Some?
    ensures var r := Check(e, h.allowEvent, h.allowPipelineStatus, h.allowBranches).value;
      h.Trace(lib, host, e) == [Log(SeverityOf(r), Filtered(r))]
    ensures Runs(h.Trace(lib, host, e)) == []
  {
  }

  /** Without per-commit mode an admitted event runs exactly one unit, on the event itself. */
  lemma WholeEventRunsOnce(h: Hook, lib: Library, host: Host, e: Event)
    requires h.Usable() && !h.perCommit
    requires Check(e, h.allowEvent, h.allowPipelineStatus, h.allowBranches).None?
    ensures Runs(h.Trace(lib, host, e)) == UnitRuns(UnitOf(h.UnitContext(lib, host)), [e])
  {
    var u := ProcessEventSpec(h.UnitContext(lib, host), e);
    RunsAppend(u.ran, StatusLog(h.url, u.status));
    assert Runs(StatusLog(h.url, u.status)) == [];
    assert UnitRuns(UnitOf(h.UnitContext(lib, host)), [e][1..]) == [];
  }

  /**
   * In per-commit mode an admitted event runs one unit per object commit, in order, each on the
   * event with that commit under `commit`; a nil commit list runs nothing.
   */
  lemma PerCommitRunsEachCommit(h: Hook, lib: Library, host: Host, e: Event)
    requires h.Usable() && h.perCommit
    requires Check(e, h.allowEvent, h.allowPipelineStatus, h.allowBranches).None?
    requires host.commits(e).Some? ==> NoPanic(UnitOf(h.UnitContext(lib, host)), CommitEvents(e, host.commits(e).value))
    ensures host.commits(e).None? ==> h.Trace(lib, host, e) == []
    ensures host.commits(e).Some? ==>
      Runs(h.Trace(lib, host, e)) == UnitRuns(UnitOf(h.UnitContext(lib, host)), CommitEvents(e, host.commits(e).value))
  {
    if host.commits(e).Some? {
      CommitLoopUnits(h.url, UnitOf(h.UnitContext(lib, host)), e, host.commits(e).value);
    }
  }
}
