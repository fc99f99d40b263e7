/**
 * The filter stage at the top of Hook.Execute (hook.go:74-144): three allow-lists, consulted in
 * the order event type, pipeline status, branch, each only when non-empty.
 */
module Filter {
  import opened Wrappers
  import opened Json

  /** glog severities the engine logs at. */
  datatype Severity = Info | Warning | Error

  /** Why an event was dropped before any template is rendered. */
  datatype Rejection =
    | NonStringType
    | DisallowedType(eventType: string)
    | NonStringStatus
    | IncorrectStatus(status: string)
    | NonStringRef
    | IgnoredBranch(branch: string)
  {
    /** 1 for the event-type list, 2 for the pipeline-status list, 3 for the branch list. */
    function Stage(): nat
    {
      match this
      case NonStringType | DisallowedType(_) => 1
      case NonStringStatus | IncorrectStatus(_) => 2
      case NonStringRef | IgnoredBranch(_) => 3
    }
  }

  /** The severity each rejection is logged at. */
  function SeverityOf(r: Rejection): Severity
  {
    match r
    case IncorrectStatus(_) => Info
    case IgnoredBranch(_) => Info
    case _ => Warning
  }

  /** `e[key].(string)`: a missing key and a non-string value both fail the assertion. */
  function StringField(e: Event, key: string): (r: Option<string>)
    ensures r.Some? <==> key in e && e[key].JString?
    ensures r.Some? ==> e[key] == JString(r.value)
  {
    if key in e && e[key].JString? then Some(e[key].s) else None
  }

  const HeadsPrefix: string := "refs/heads/"

  /** Strip a leading `refs/heads/` from a ref, once (hook.go:123-127). */
  function StripHeads(ref: string): string
  {
    if HeadsPrefix <= ref then ref[|HeadsPrefix|..] else ref
  }

  /** An allow-list admits a field when it is empty, or the field is a string it lists. */
  predicate Admits(allow: seq<string>, field: Option<string>)
  {
    |allow| == 0 || (field.Some? && field.value in allow)
  }

  function StripField(ref: Option<string>): Option<string>
  {
    if ref.Some? then Some(StripHeads(ref.value)) else None
  }

  /**
   * The decision of hook.go:75-144: None when the event passes all three lists, otherwise the
   * first rejection met.
   */
  function Check(e: Event, allowEvent: seq<string>, allowStatus: seq<string>,
                 allowBranches: seq<string>): (r: Option<Rejection>)
    ensures r.Some? && r.value.Stage() == 1 ==> |allowEvent| != 0
    ensures r.Some? && r.value.Stage() == 2 ==> |allowStatus| != 0
    ensures r.Some? && r.value.Stage() == 3 ==> |allowBranches| != 0
  {
    var eventType := StringField(e, "type");
    var status := StringField(e, "status");
    var ref := StringField(e, "ref");
    if |allowEvent| != 0 && eventType.None? then Some(NonStringType)
    else if |allowEvent| != 0 && eventType.value !in allowEvent then Some(DisallowedType(eventType.value))
    else if |allowStatus| != 0 && status.None? then Some(NonStringStatus)
    else if |allowStatus| != 0 && status.value !in allowStatus then Some(IncorrectStatus(status.value))
    else if |allowBranches| != 0 && ref.None? then Some(NonStringRef)
    else if |allowBranches| != 0 && StripHeads(ref.value) !in allowBranches then
      Some(IgnoredBranch(StripHeads(ref.value)))
    else None
  }

  /** An event passes exactly when each of the three lists admits its field. */
  lemma CheckPassesIff(e: Event, allowEvent: seq<string>, allowStatus: seq<string>,
                       allowBranches: seq<string>)
    ensures Check(e, allowEvent, allowStatus, allowBranches).None? <==>
      && Admits(allowEvent, StringField(e, "type"))
      && Admits(allowStatus, StringField(e, "status"))
      && Admits(allowBranches, StripField(StringField(e, "ref")))
  {
  }

  /**
   * The lists are consulted in order: a rejection at one stage means every earlier stage
   * admitted the event and this stage did not. An empty list never rejects.
   */
  lemma CheckOrder(e: Event, allowEvent: seq<string>, allowStatus: seq<string>,
                   allowBranches: seq<string>)
    ensures var r := Check(e, allowEvent, allowStatus, allowBranches);
      r.Some? ==>
        && (r.value.Stage() == 1 <==> !Admits(allowEvent, StringField(e, "type")))
        && (r.value.Stage() == 2 <==>
              Admits(allowEvent, StringField(e, "type")) && !Admits(allowStatus, StringField(e, "status")))
        && (r.value.Stage() == 3 <==>
              && Admits(allowEvent, StringField(e, "type"))
              && Admits(allowStatus, StringField(e, "status"))
              && !Admits(allowBranches, StripField(StringField(e, "ref"))))
    ensures var r := Check(e, allowEvent, allowStatus, allowBranches);
      && (|allowEvent| == 0 ==> r.None? || r.value.Stage() != 1)
      && (|allowStatus| == 0 ==> r.None? || r.value.Stage() != 2)
      && (|allowBranches| == 0 ==> r.None? || r.value.Stage() != 3)
  {
  }

  /**
   * Severities are fixed per rejection: a non-string field and a disallowed event type are
   * warnings; a wrong pipeline status or an ignored branch is informational.
   */
  lemma RejectionSeverity(e: Event, allowEvent: seq<string>, allowStatus: seq<string>,
                          allowBranches: seq<string>)
    ensures var r := Check(e, allowEvent, allowStatus, allowBranches);
      r.Some? ==>
        (SeverityOf(r.value) == Info <==>
           (|allowStatus| != 0 && StringField(e, "status").Some? && r.value == IncorrectStatus(StringField(e, "status").value))
           || (|allowBranches| != 0 && StringField(e, "ref").Some? && r.value == IgnoredBranch(StripHeads(StringField(e, "ref").value))))
    ensures var r := Check(e, allowEvent, allowStatus, allowBranches);
      r.Some? ==> SeverityOf(r.value) != Error
  {
  }

  /** Exactly one leading `refs/heads/` is removed. */
  lemma {:induction false} StripHeadsOnce(branch: string)
    ensures StripHeads(HeadsPrefix + branch) == branch
    ensures StripHeads(HeadsPrefix + HeadsPrefix + branch) == HeadsPrefix + branch
  {
    assert (HeadsPrefix + branch)[..|HeadsPrefix|] == HeadsPrefix;
    assert (HeadsPrefix + HeadsPrefix + branch)[..|HeadsPrefix|] == HeadsPrefix;
    assert (HeadsPrefix + HeadsPrefix + branch)[|HeadsPrefix|..] == HeadsPrefix + branch;
  }

  /** A ref without the prefix is compared as it is. */
  lemma StripHeadsNoPrefix(ref: string)
    requires !(HeadsPrefix <= ref)
    ensures StripHeads(ref) == ref
  {
  }

  /**
   * Branch matching on concrete refs, with an allow-list of one branch and the other lists empty:
   * `refs/heads/main` and `main` both match `main`; `refs/heads/feature/x` does not match
   * `feature`; `refs/heads/dev` against `main` is dropped with an informational log.
   */
  lemma BranchExamples()
    ensures Check(map["ref" := JString("refs/heads/main")], [], [], ["main"]).None?
    ensures Check(map["ref" := JString("main")], [], [], ["main"]).None?
    ensures Check(map["ref" := JString("refs/heads/feature/x")], [], [], ["feature"])
            == Some(IgnoredBranch("feature/x"))
    ensures Check(map["ref" := JString("refs/heads/dev")], [], [], ["main"]) == Some(IgnoredBranch("dev"))
    ensures SeverityOf(IgnoredBranch("dev")) == Info
  {
    StripHeadsOnce("main");
    StripHeadsOnce("feature/x");
    StripHeadsOnce("dev");
    assert HeadsPrefix + "main" == "refs/heads/main";
    assert HeadsPrefix + "feature/x" == "refs/heads/feature/x";
    assert HeadsPrefix + "dev" == "refs/heads/dev";
    assert !(HeadsPrefix <= "main") by { assert |"main"| < |HeadsPrefix|; }
  }
}
