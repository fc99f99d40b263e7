/**
 * What Hook.CreateTemplates (hook.go:33-71) leaves in the three compiled fields, stated as a
 * function of the hook's sources and the fields' previous values. The method in hook.dfy is
 * proved equal to it.
 */
module Compile {
  import opened Wrappers
  import opened Templates

  /** A template slice being filled in order, and the error that stopped the filling, if any. */
  datatype Filling = Filling(ptrs: seq<TemplatePtr>, error: Option<string>)

  /**
   * Fill a freshly made slice with one template per source, in order, returning at the first
   * parse error; the failing slot and every later one stay nil.
   */
  function FillTemplates(lib: Library, sources: seq<string>): (f: Filling)
    ensures |f.ptrs| == |sources|
    decreases |sources|
  {
    if |sources| == 0 then Filling([], None)
    else
      var last := |sources| - 1;
      var prefix := FillTemplates(lib, sources[..last]);
      if prefix.error.Some? then Filling(prefix.ptrs + [None], prefix.error)
      else match CreateTemplate(lib, sources[last])
        case Ok(t) => Filling(prefix.ptrs + [Some(t)], None)
        case Err(m) => Filling(prefix.ptrs + [None], Some(m))
  }

  /**
   * The slice is filled without error exactly when every source parses, and then each slot holds
   * the template of its source.
   */
  lemma {:induction false} FillTemplatesComplete(lib: Library, sources: seq<string>)
    ensures var f := FillTemplates(lib, sources);
      f.error.None? <==> forall i | 0 <= i < |sources| :: Compiles(lib, sources[i])
    ensures var f := FillTemplates(lib, sources);
      f.error.None? ==> forall i | 0 <= i < |sources| :: f.ptrs[i] == Some(Template(lib.expandEnv(sources[i])))
    decreases |sources|
  {
    if |sources| != 0 {
      var last := |sources| - 1;
      FillTemplatesComplete(lib, sources[..last]);
      assert forall i | 0 <= i < last :: sources[..last][i] == sources[i];
    }
  }

  /**
   * The first source that does not parse decides the result: the slots before it hold their
   * templates, it and every later slot are nil, and its parse error is returned.
   */
  lemma {:induction false} FillTemplatesStops(lib: Library, sources: seq<string>, j: nat)
    requires j < |sources| && !Compiles(lib, sources[j])
    requires FillTemplates(lib, sources[..j]).error.None?
    ensures FillTemplates(lib, sources) ==
      Filling(FillTemplates(lib, sources[..j]).ptrs + Nils(|sources| - j),
              lib.syntaxError(lib.expandEnv(sources[j])))
    decreases |sources|
  {
    var last := |sources| - 1;
    if j < last {
      assert sources[..last][..j] == sources[..j];
      FillTemplatesStops(lib, sources[..last], j);
      assert Nils(|sources| - 1 - j) + [None] == Nils(|sources| - j);
    } else {
      assert sources[..last] == sources[..j];
      assert Nils(1) == [None];
    }
  }

  /** The slice is filled once every source before the first bad one is in place. */
  lemma FillTemplatesStep(lib: Library, sources: seq<string>, j: nat)
    requires j < |sources| && Compiles(lib, sources[j])
    requires FillTemplates(lib, sources[..j]).error.None?
    ensures FillTemplates(lib, sources[..j + 1]) ==
      Filling(FillTemplates(lib, sources[..j]).ptrs + [Some(Template(lib.expandEnv(sources[j])))], None)
  {
    assert sources[..j + 1][..j] == sources[..j];
  }

  /**
   * Writing the template of source `k` into its slot of the slice being filled: the sources before
   * it are in place, the rest still nil.
   */
  lemma FillSlot(lib: Library, sources: seq<string>, k: nat)
    requires k < |sources| && Compiles(lib, sources[k])
    requires FillTemplates(lib, sources[..k]).error.None?
    ensures FillTemplates(lib, sources[..k + 1]).error.None?
    ensures (FillTemplates(lib, sources[..k]).ptrs + Nils(|sources| - k))[k := Some(Template(lib.expandEnv(sources[k])))]
      == FillTemplates(lib, sources[..k + 1]).ptrs + Nils(|sources| - (k + 1))
  {
    FillTemplatesStep(lib, sources, k);
    assert Nils(|sources| - k) == [None] + Nils(|sources| - (k + 1));
  }

  /** A slice being filled starts all nil and ends holding every template. */
  lemma FillEnds(lib: Library, sources: seq<string>)
    ensures FillTemplates(lib, sources[..0]).ptrs + Nils(|sources|) == Nils(|sources|)
    ensures FillTemplates(lib, sources[..|sources|]) == FillTemplates(lib, sources)
    ensures FillTemplates(lib, sources[..|sources|]).ptrs + Nils(0) == FillTemplates(lib, sources).ptrs
  {
    assert sources[..0] == [] && sources[..|sources|] == sources;
    assert Nils(0) == [];
  }

  /** The rows of `cmdTemplate` filled in order, and the first parse error met. */
  datatype Rows = Rows(rows: seq<seq<TemplatePtr>>, error: Option<string>)

  function FillRows(lib: Library, commands: seq<seq<string>>): (r: Rows)
    ensures r.error.None? <==>
      forall i | 0 <= i < |commands| :: FillTemplates(lib, commands[i]).error.None?
    ensures r.error.None? ==>
      && |r.rows| == |commands|
      && forall i | 0 <= i < |commands| :: r.rows[i] == FillTemplates(lib, commands[i]).ptrs
    decreases |commands|
  {
    if |commands| == 0 then Rows([], None)
    else
      var last := |commands| - 1;
      var prefix := FillRows(lib, commands[..last]);
      if prefix.error.Some? then prefix
      else
        var row := FillTemplates(lib, commands[last]);
        if row.error.Some? then Rows(prefix.rows, row.error)
        else Rows(prefix.rows + [row.ptrs], None)
  }

  /** A row that parses is appended to the rows filled so far. */
  lemma FillRowsStep(lib: Library, commands: seq<seq<string>>, i: nat)
    requires i < |commands| && FillTemplates(lib, commands[i]).error.None?
    requires FillRows(lib, commands[..i]).error.None?
    ensures FillRows(lib, commands[..i + 1]) ==
      Rows(FillRows(lib, commands[..i]).rows + [FillTemplates(lib, commands[i]).ptrs], None)
  {
    assert commands[..i + 1][..i] == commands[..i];
  }

  /** The first row holding a bad source decides the error of the whole table. */
  lemma {:induction false} FillRowsStops(lib: Library, commands: seq<seq<string>>, i: nat)
    requires i < |commands| && FillTemplates(lib, commands[i]).error.Some?
    requires FillRows(lib, commands[..i]).error.None?
    ensures FillRows(lib, commands).error == FillTemplates(lib, commands[i]).error
    decreases |commands|
  {
    var last := |commands| - 1;
    if i < last {
      assert commands[..last][..i] == commands[..i];
      FillRowsStops(lib, commands[..last], i);
    } else {
      assert commands[..last] == commands[..i];
    }
  }

  /** What CreateTemplates returns and leaves in the compiled fields. */
  datatype CompileOutcome = CompileOutcome(templates: Compiled, error: Option<string>)

  /**
   * hook.go:33-71. A command error resets `cmdTemplate` to nil and leaves the other two fields
   * as they were; an environment error leaves a partly filled `envTemplate`; a directory error
   * leaves `dirTemplate` nil.
   */
  function CreateTemplatesSpec(lib: Library, commands: seq<seq<string>>, env: seq<string>, dir: string,
                               prior: Compiled): (o: CompileOutcome)
    ensures o.templates.cmd.None? ==> o.error.Some? && o.templates.env == prior.env && o.templates.dir == prior.dir
    ensures o.error.None? ==>
      && o.templates.cmd.Some?
      && (o.templates.env.None? <==> |env| == 0)
      && (o.templates.dir.None? <==> dir == "")
  {
    var rows := FillRows(lib, commands);
    if rows.error.Some? then CompileOutcome(Compiled(None, prior.env, prior.dir), rows.error)
    else if |env| != 0 then
      var envs := FillTemplates(lib, env);
      if envs.error.Some? then CompileOutcome(Compiled(Some(rows.rows), Some(envs.ptrs), prior.dir), envs.error)
      else DirStage(lib, dir, Compiled(Some(rows.rows), Some(envs.ptrs), prior.dir))
    else DirStage(lib, dir, Compiled(Some(rows.rows), None, prior.dir))
  }

  /** hook.go:61-68: the directory template, nil for an empty directory. */
  function DirStage(lib: Library, dir: string, c: Compiled): (o: CompileOutcome)
    ensures o.templates.cmd == c.cmd && o.templates.env == c.env
    ensures o.templates.dir.Some? <==> dir != "" && Compiles(lib, dir)
    ensures o.error.Some? <==> dir != "" && !Compiles(lib, dir)
    ensures o.error.Some? ==> o.error == lib.syntaxError(lib.expandEnv(dir))
  {
    if dir == "" then CompileOutcome(c.(dir := None), None)
    else match CreateTemplate(lib, dir)
      case Ok(t) => CompileOutcome(c.(dir := Some(t)), None)
      case Err(m) => CompileOutcome(c.(dir := None), Some(m))
  }

  /** Every source of a hook parses: every command argument, every env entry, a non-empty dir. */
  predicate AllCompile(lib: Library, commands: seq<seq<string>>, env: seq<string>, dir: string)
  {
    && (forall i, j | 0 <= i < |commands| && 0 <= j < |commands[i]| :: Compiles(lib, commands[i][j]))
    && (forall k | 0 <= k < |env| :: Compiles(lib, env[k]))
    && (dir != "" ==> Compiles(lib, dir))
  }

  /**
   * CreateTemplates succeeds exactly when every source parses, and then the compiled fields are
   * fully populated and shaped like their sources: `cmdTemplate` has the outer and inner lengths
   * of Commands, `envTemplate` is nil iff Env is empty, `dirTemplate` is nil iff Dir is empty.
   */
  lemma CreateTemplatesSucceeds(lib: Library, commands: seq<seq<string>>, env: seq<string>, dir: string,
                                prior: Compiled)
    ensures var o := CreateTemplatesSpec(lib, commands, env, dir, prior);
      o.error.None? <==> AllCompile(lib, commands, env, dir)
    ensures var o := CreateTemplatesSpec(lib, commands, env, dir, prior);
      o.error.None? ==>
        && o.templates.Usable()
        && o.templates.cmd.Some?
        && |o.templates.cmd.value| == |commands|
        && (forall i | 0 <= i < |commands| :: |o.templates.cmd.value[i]| == |commands[i]|)
        && (o.templates.env.None? <==> |env| == 0)
        && (o.templates.env.Some? ==> |o.templates.env.value| == |env|)
        && (o.templates.dir.None? <==> dir == "")
  {
    var o := CreateTemplatesSpec(lib, commands, env, dir, prior);
    var rows := FillRows(lib, commands);
    FillTemplatesComplete(lib, env);
    if rows.error.None? {
      forall i | 0 <= i < |commands| ensures Present(rows.rows[i]) {
        FillTemplatesComplete(lib, commands[i]);
        assert rows.rows[i] == FillTemplates(lib, commands[i]).ptrs;
      }
    }
    if AllCompile(lib, commands, env, dir) {
      forall i | 0 <= i < |commands| ensures FillTemplates(lib, commands[i]).error.None? {
        FillTemplatesComplete(lib, commands[i]);
        assert forall j | 0 <= j < |commands[i]| :: Compiles(lib, commands[i][j]);
      }
    }
    if o.error.None? {
      assert rows.error.None?;
      forall i, j | 0 <= i < |commands| && 0 <= j < |commands[i]| ensures Compiles(lib, commands[i][j]) {
        FillTemplatesComplete(lib, commands[i]);
        assert FillTemplates(lib, commands[i]).error.None?;
      }
    }
  }

  /**
   * A command that does not parse leaves `cmdTemplate` nil; an environment or directory error
   * after the commands parsed leaves `cmdTemplate` populated and shaped like Commands.
   */
  lemma CreateTemplatesCommandError(lib: Library, commands: seq<seq<string>>, env: seq<string>, dir: string,
                                    prior: Compiled)
    ensures var o := CreateTemplatesSpec(lib, commands, env, dir, prior);
      o.templates.cmd.None? <==>
        exists i, j | 0 <= i < |commands| && 0 <= j < |commands[i]| :: !Compiles(lib, commands[i][j])
    ensures var o := CreateTemplatesSpec(lib, commands, env, dir, prior);
      o.templates.cmd.None? ==> o.error.Some? && o.templates.env == prior.env && o.templates.dir == prior.dir
    ensures var o := CreateTemplatesSpec(lib, commands, env, dir, prior);
      o.templates.cmd.Some? ==>
        && |o.templates.cmd.value| == |commands|
        && forall i | 0 <= i < |commands| ::
             |o.templates.cmd.value[i]| == |commands[i]| && Present(o.templates.cmd.value[i])
  {
    var rows := FillRows(lib, commands);
    if rows.error.Some? {
      var i :| 0 <= i < |commands| && FillTemplates(lib, commands[i]).error.Some?;
      FillTemplatesComplete(lib, commands[i]);
      var j :| 0 <= j < |commands[i]| && !Compiles(lib, commands[i][j]);
    } else {
      forall i | 0 <= i < |commands| ensures Present(rows.rows[i]) {
        FillTemplatesComplete(lib, commands[i]);
        assert rows.rows[i] == FillTemplates(lib, commands[i]).ptrs;
      }
      forall i, j | 0 <= i < |commands| && 0 <= j < |commands[i]| ensures Compiles(lib, commands[i][j]) {
        FillTemplatesComplete(lib, commands[i]);
        assert FillTemplates(lib, commands[i]).error.None?;
      }
    }
  }

  /**
   * An environment entry that does not parse, after all commands parsed: `envTemplate` holds
   * the templates before it and nil from it on, and `dirTemplate` keeps its previous value.
   */
  lemma CreateTemplatesEnvError(lib: Library, commands: seq<seq<string>>, env: seq<string>, dir: string,
                                prior: Compiled, k: nat)
    requires forall i | 0 <= i < |commands| :: FillTemplates(lib, commands[i]).error.None?
    requires k < |env| && !Compiles(lib, env[k])
    requires forall j | 0 <= j < k :: Compiles(lib, env[j])
    ensures var o := CreateTemplatesSpec(lib, commands, env, dir, prior);
      && o.error == lib.syntaxError(lib.expandEnv(env[k]))
      && o.templates.env.Some? && |o.templates.env.value| == |env|
      && (forall j | 0 <= j < |env| :: o.templates.env.value[j].Some? <==> j < k)
      && o.templates.dir == prior.dir
  {
    assert forall j | 0 <= j < k :: Compiles(lib, env[..k][j]);
    FillTemplatesComplete(lib, env[..k]);
    FillTemplatesStops(lib, env, k);
  }

  /**
   * A directory that does not parse, after all commands and environment entries parsed: the
   * parse error is returned, `cmdTemplate` and `envTemplate` stay fully populated and shaped like
   * their sources, and `dirTemplate` ends nil.
   */
  lemma CreateTemplatesDirError(lib: Library, commands: seq<seq<string>>, env: seq<string>, dir: string,
                                prior: Compiled)
    requires forall i, j | 0 <= i < |commands| && 0 <= j < |commands[i]| :: Compiles(lib, commands[i][j])
    requires forall k | 0 <= k < |env| :: Compiles(lib, env[k])
    requires dir != "" && !Compiles(lib, dir)
    ensures var o := CreateTemplatesSpec(lib, commands, env, dir, prior);
      o.error.Some? && o.error == lib.syntaxError(lib.expandEnv(dir))
    ensures var o := CreateTemplatesSpec(lib, commands, env, dir, prior);
      && o.templates.cmd.Some?
      && |o.templates.cmd.value| == |commands|
      && forall i | 0 <= i < |commands| ::
           |o.templates.cmd.value[i]| == |commands[i]| && Present(o.templates.cmd.value[i])
    ensures var o := CreateTemplatesSpec(lib, commands, env, dir, prior);
      && (o.templates.env.None? <==> |env| == 0)
      && (o.templates.env.Some? ==> |o.templates.env.value| == |env| && Present(o.templates.env.value))
    ensures CreateTemplatesSpec(lib, commands, env, dir, prior).templates.dir == None
  {
    CreateTemplatesCommandError(lib, commands, env, dir, prior);
    FillTemplatesComplete(lib, env);
  }
}
