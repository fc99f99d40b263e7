/**
 * The template layer of hook.go: `createTemplate` (environment expansion, then parsing with the
 * `json` function registered) and the compiled template fields of a Hook. The text/template
 * library and os.ExpandEnv are not modelled; they are oracles bundled in a Library value.
 */
module Templates {
  import opened Wrappers
  import opened Json

  /** A parsed template, identified by the environment-expanded source it was parsed from. */
  datatype Template = Template(text: string)

  /** A `*template.Template`: None is Go's nil. */
  type TemplatePtr = Option<Template>

  /** The foreign template library and the process environment. */
  datatype Library = Library(
    // os.ExpandEnv over the process environment
    expandEnv: string -> string,
    // the parse error text/template reports for a source, if any
    syntaxError: string -> Option<string>,
    // Template.Execute against an event: the rendered text or the execution error
    execute: (Template, Event) -> Result<string, string>)

  /** createTemplate (hook.go:27-30): expand the environment, then parse. */
  function CreateTemplate(lib: Library, source: string): (r: Result<Template, string>)
    ensures r.Ok? <==> Compiles(lib, source)
    ensures r.Ok? ==> r.value == Template(lib.expandEnv(source))
    ensures r.Err? ==> lib.syntaxError(lib.expandEnv(source)) == Some(r.error)
  {
    var text := lib.expandEnv(source);
    match lib.syntaxError(text)
    case Some(message) => Err(message)
    case None => Ok(Template(text))
  }

  /** A source createTemplate accepts. */
  predicate Compiles(lib: Library, source: string)
  {
    lib.syntaxError(lib.expandEnv(source)).None?
  }

  /** Every pointer of a template slice is non-nil. */
  predicate Present(ps: seq<TemplatePtr>)
  {
    forall i | 0 <= i < |ps| :: ps[i].Some?
  }

  /** A freshly made slice of `n` nil template pointers. */
  function Nils(n: nat): (ps: seq<TemplatePtr>)
    ensures |ps| == n && forall i | 0 <= i < n :: ps[i] == None
  {
    seq(n, _ => None)
  }

  /**
   * The three compiled fields of a Hook (webhook.go:52-54): `cmdTemplate`, `envTemplate` and
   * `dirTemplate`, with None standing for a nil slice or pointer.
   */
  datatype Compiled = Compiled(
    cmd: Option<seq<seq<TemplatePtr>>>,
    env: Option<seq<TemplatePtr>>,
    dir: TemplatePtr)
  {
    /** No template that processEvent would execute is nil. */
    predicate Usable()
    {
      && (cmd.Some? ==> forall i | 0 <= i < |cmd.value| :: Present(cmd.value[i]))
      && (env.Some? ==> Present(env.value))
    }

    /** The command templates processEvent ranges over: a nil slice has none. */
    function Commands(): seq<seq<TemplatePtr>>
    {
      if cmd.Some? then cmd.value else []
    }
  }
}
