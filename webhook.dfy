/**
 * The configuration of webhook.go: the Config and Hooks records, MergeHooks, the defaults main
 * starts from (webhook.go:166-169) and main's per-hook loading loop (webhook.go:235-258), which
 * fills in each hook's timeout and secret from the server-wide settings and compiles its templates.
 */
module Webhook {
  import opened Wrappers
  import opened Templates
  import opened Compile
  import opened HookEngine

  /** The listen address main uses unless the main configuration file sets one. */
  const DefaultListenAddress: string := ":80"

  /** The command timeout, in seconds, main uses unless the main configuration file sets one. */
  const DefaultCommandTimeout: int := 5

  /** The hook token that turns the server-wide secret off for one hook. */
  const NoSecret: string := "none"

  /** The decoded form of one hook file (webhook.go:57-59). */
  class Hooks {
    var hook: seq<Hook>

    constructor (hook: seq<Hook>)
      ensures this.hook == hook
    {
      this.hook := hook;
    }
  }

  /** The main configuration (webhook.go:61-80). */
  class Config {
    var listenAddress: string
    var logDir: string
    var commandTimeout: int
    var acceptIps: seq<string>
    var secret: string
    var hookPaths: seq<string>
    var hook: seq<Hook>

    /** The configuration main starts from before reading the main configuration file. */
    constructor ()
      ensures listenAddress == DefaultListenAddress && commandTimeout == DefaultCommandTimeout
      ensures logDir == "" && acceptIps == [] && secret == "" && hookPaths == [] && hook == []
    {
      listenAddress := DefaultListenAddress;
      logDir := "";
      commandTimeout := DefaultCommandTimeout;
      acceptIps := [];
      secret := "";
      hookPaths := [];
      hook := [];
    }

    /** MergeHooks (webhook.go:82-84): the hooks of a file go after those already loaded. */
    method MergeHooks(other: Hooks)
      modifies this`hook
      ensures hook == old(hook) + other.hook
    {
      hook := hook + other.hook;
    }
  }

  /** webhook.go:239-241: a hook without its own timeout takes the server-wide one. */
  function DefaultedTimeout(timeout: int, commandTimeout: int): (t: int)
    ensures t == 0 <==> timeout == 0 && commandTimeout == 0
    ensures timeout == 0 ==> t == commandTimeout
    ensures timeout != 0 ==> t == timeout
  {
    if timeout == 0 then commandTimeout else timeout
  }

  /**
   * webhook.go:243-247: `none` switches the secret check off for the hook, an empty secret takes
   * the server-wide one, any other secret stays.
   */
  function DefaultedSecret(secret: string, serverSecret: string): (s: string)
    ensures s == "" <==> secret == NoSecret || (secret == "" && serverSecret == "")
    ensures secret == "" ==> s == serverSecret
    ensures secret != NoSecret && secret != "" ==> s == secret
  {
    if secret == NoSecret then "" else if secret == "" then serverSecret else secret
  }

  /**
   * Applying the secret defaults twice to one hook is not the same as applying them once: a
   * `none` hook would get the server-wide secret back. This is why every hook must be loaded once.
   */
  lemma SecretDefaultsNotIdempotent(serverSecret: string)
    requires serverSecret != ""
    ensures DefaultedSecret(DefaultedSecret(NoSecret, serverSecret), serverSecret) != DefaultedSecret(NoSecret, serverSecret)
  {
  }

  /** Every field of a hook, as one value. */
  datatype HookFields = HookFields(
    url: string, dir: string, env: seq<string>, perCommit: bool, allowEvent: seq<string>,
    allowPipelineStatus: seq<string>, allowBranches: seq<string>, commands: seq<seq<string>>,
    timeout: int, secret: string, templates: Compiled)

  function FieldsOf(h: Hook): HookFields
    reads h
  {
    HookFields(h.url, h.dir, h.env, h.perCommit, h.allowEvent, h.allowPipelineStatus, h.allowBranches,
               h.commands, h.timeout, h.secret, h.Templates())
  }

  /** What loading does to one hook, and the parse error it reports. */
  datatype Loading = Loading(fields: HookFields, error: Option<string>)

  /** Loading one hook: the two defaults applied and the templates compiled, the sources kept. */
  function Load(f: HookFields, commandTimeout: int, serverSecret: string, lib: Library): (l: Loading)
    ensures l.fields.(timeout := f.timeout, secret := f.secret, templates := f.templates) == f
  {
    var o := CreateTemplatesSpec(lib, f.commands, f.env, f.dir, f.templates);
    Loading(f.(timeout := DefaultedTimeout(f.timeout, commandTimeout),
               secret := DefaultedSecret(f.secret, serverSecret),
               templates := o.templates),
            o.error)
  }

  /** A hook loads without error exactly when all its sources parse, and then it is ready to execute. */
  lemma LoadSucceeds(f: HookFields, commandTimeout: int, serverSecret: string, lib: Library)
    ensures var l := Load(f, commandTimeout, serverSecret, lib);
      l.error.None? <==> AllCompile(lib, f.commands, f.env, f.dir)
    ensures var l := Load(f, commandTimeout, serverSecret, lib);
      l.error.None? ==> l.fields.templates.Usable()
  {
    CreateTemplatesSucceeds(lib, f.commands, f.env, f.dir, f.templates);
  }

  /** One pass of main's loop (webhook.go:237-253): defaults, then CreateTemplates. */
  method LoadHook(h: Hook, commandTimeout: int, serverSecret: string, lib: Library) returns (err: Option<string>)
    modifies h`timeout, h`secret, h`cmdTemplate, h`envTemplate, h`dirTemplate
    ensures Loading(FieldsOf(h), err) == Load(old(FieldsOf(h)), commandTimeout, serverSecret, lib)
  {
    if h.timeout == 0 {
      h.timeout := commandTimeout;
    }
    if h.secret == NoSecret {
      h.secret := "";
    } else if h.secret == "" {
      h.secret := serverSecret;
    }
    err := h.CreateTemplates(lib);
  }

  /**
   * main's loading loop (webhook.go:235-258): every hook is defaulted and compiled, and a failing
   * hook does not stop the later ones; the server starts only when no hook failed.
   */
  method LoadHooks(config: Config, lib: Library) returns (failed: bool, ghost errs: seq<Option<string>>)
    requires forall i, j | 0 <= i < j < |config.hook| :: config.hook[i] != config.hook[j]
    modifies set h | h in config.hook
    ensures |errs| == |config.hook|
    ensures forall i | 0 <= i < |config.hook| ::
      Loading(FieldsOf(config.hook[i]), errs[i]) == Load(old(FieldsOf(config.hook[i])), config.commandTimeout, config.secret, lib)
    ensures failed <==> exists m :: Some(m) in errs
  {
    ghost var hooks := config.hook;
    ghost var before := seq(|hooks|, k requires 0 <= k < |hooks| reads hooks => FieldsOf(hooks[k]));
    errs := [];
    failed := false;
    var i := 0;
    while i < |config.hook|
      invariant 0 <= i <= |config.hook|
      invariant |errs| == i
      invariant forall k | 0 <= k < i ::
        Loading(FieldsOf(config.hook[k]), errs[k]) == Load(before[k], config.commandTimeout, config.secret, lib)
      invariant forall k | i <= k < |config.hook| :: FieldsOf(config.hook[k]) == before[k]
      invariant failed <==> exists m :: Some(m) in errs
    {
      var err := LoadHook(config.hook[i], config.commandTimeout, config.secret, lib);
      if err.Some? {
        failed := true;
      }
      errs := errs + [err];
      i := i + 1;
    }
  }

  /**
   * Across all hooks: loading fails exactly when some hook holds a source that does not parse, and
   * when it does not fail every hook has all the templates Execute runs.
   */
  lemma LoadedHooksUsable(before: seq<HookFields>, commandTimeout: int, serverSecret: string, lib: Library)
    ensures (exists i | 0 <= i < |before| :: Load(before[i], commandTimeout, serverSecret, lib).error.Some?) <==>
      exists i | 0 <= i < |before| :: !AllCompile(lib, before[i].commands, before[i].env, before[i].dir)
    ensures (forall i | 0 <= i < |before| :: Load(before[i], commandTimeout, serverSecret, lib).error.None?) ==>
      forall i | 0 <= i < |before| :: Load(before[i], commandTimeout, serverSecret, lib).fields.templates.Usable()
  {
    forall i | 0 <= i < |before|
      ensures var l := Load(before[i], commandTimeout, serverSecret, lib);
        && (l.error.None? <==> AllCompile(lib, before[i].commands, before[i].env, before[i].dir))
        && (l.error.None? ==> l.fields.templates.Usable())
    {
      LoadSucceeds(before[i], commandTimeout, serverSecret, lib);
    }
  }
}
