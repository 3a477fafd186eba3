/** Recorded capabilities and what the replay engine reads off a screen. */
module Capabilities {
  import opened Text
  import opened Prelude
  import opened Canonical
  import opened Locators
  import opened Outputs

  datatype ActionName = Navigate | Click | Type | Select | Extract | Dismiss | Wait

  datatype Risk = Safe | Risky

  datatype Action = Action(
    name: ActionName,
    target: Option<Target>,
    value: Option<string>,
    url: Option<string>,
    outputName: Option<string>,
    key: Option<string>)

  /** `policyBlocked`: a request was blocked, or the error names the policy. */
  datatype ActResult = ActResult(ok: bool, extracted: string, policyBlocked: bool, retryable: bool)

  /** `path` is the parsed pathname, absent when the URL does not parse; `login` says it is a sign-in screen. */
  datatype Observation = Observation(
    url: string,
    path: Option<string>,
    title: string,
    text: string,
    aria: string,
    dialog: Option<string>,
    login: bool)

  datatype CheckpointKind = UrlIncludes | TextIncludes | TitleIncludes

  datatype Checkpoint = Checkpoint(kind: CheckpointKind, expected: string)

  datatype ExceptionClass = BusinessOutcome | Recoverable | Transient | HardFailure | NeedsHuman

  /** An absent detector is the empty string. */
  datatype Detect = Detect(textIncludes: string, dialogTitle: string, urlIncludes: string, locatorMiss: bool)

  datatype Recovery = DismissIt(target: Option<Target>) | WaitIt(ms: Option<nat>)

  datatype ExceptionalState = ExceptionalState(
    detect: Detect,
    classify: ExceptionClass,
    code: string,
    recover: Option<Recovery>)

  datatype Step = Step(
    id: string,
    action: ActionName,
    target: Option<Target>,
    value: Option<string>,
    inputFrom: Option<string>,
    url: Option<string>,
    outputName: Option<string>,
    risk: Risk,
    checkpoint: Option<Checkpoint>,
    antiCheckpoints: seq<Checkpoint>,
    retryBudget: nat)

  datatype SideEffect = ReadsOnly | Creates | Mutates | Irreversible

  datatype Approval = Approval(requestedBy: string, approvedBy: string)

  datatype Use = Use(capabilityId: string, pass: seq<string>)

  datatype ParamDef = ParamDef(name: string, number: bool)

  datatype Login = Login(username: string, secret: string)

  /** The credential the capability names, as the vault resolves it; `Unbound` is a vault that throws. */
  datatype Credential = NoCredential | Bound(login: Login) | Unbound {
    function Resolved(): Option<Login> {
      if Bound? then Some(login) else None
    }
  }

  datatype Capability = Capability(
    id: string,
    parameters: seq<ParamDef>,
    outputs: seq<OutputDef>,
    sideEffect: SideEffect,
    approval: Option<Approval>,
    requiresSession: bool,
    requiresRole: Option<string>,
    credential: Credential,
    entry: Checkpoint,
    uses: seq<Use>,
    keyFrom: Option<seq<string>>,
    steps: seq<Step>,
    exceptionalStates: seq<ExceptionalState>,
    antiCheckpoints: seq<Checkpoint>,
    success: Checkpoint)

  // ----- Checkpoints and exceptional states -----

  predicate Holds(c: Checkpoint, seen: Observation, inputs: map<string, string>) {
    var hay := match c.kind
      case UrlIncludes => seen.url
      case TitleIncludes => seen.title
      case TextIncludes => seen.text + "\n" + seen.aria;
    Occurs(ExpandParams(c.expected, inputs), hay)
  }

  predicate MatchesDetect(d: Detect, seen: Observation) {
    && !d.locatorMiss
    && (d.textIncludes != "" ==> Occurs(d.textIncludes, seen.text + "\n" + seen.aria))
    && (d.dialogTitle != "" ==> seen.dialog == Some(d.dialogTitle))
    && (d.urlIncludes != "" ==> Occurs(d.urlIncludes, seen.url))
    && (d.textIncludes != "" || d.dialogTitle != "" || d.urlIncludes != "")
  }

  predicate EndsWith(s: string, suffix: string) {
    |suffix| <= |s| && s[|s| - |suffix|..] == suffix
  }

  predicate MatchesMiss(d: Detect, seen: Observation) {
    && d.locatorMiss
    && (d.urlIncludes == ""
        || if seen.path.Some? && d.urlIncludes == "/disputes"
           then EndsWith(seen.path.value, "/disputes") || EndsWith(seen.path.value, "/disputes/")
           else Occurs(d.urlIncludes, seen.url))
  }

  /** First declared state whose detector fires on the screen. */
  function MatchException(states: seq<ExceptionalState>, seen: Observation): (r: Option<ExceptionalState>)
    ensures r.Some? ==> r.value in states && MatchesDetect(r.value.detect, seen)
    ensures r.None? ==> forall s | s in states :: !MatchesDetect(s.detect, seen)
  {
    if states == [] then None
    else if MatchesDetect(states[0].detect, seen) then Some(states[0])
    else MatchException(states[1..], seen)
  }

  function MatchMiss(states: seq<ExceptionalState>, seen: Observation): (r: Option<ExceptionalState>)
    ensures r.Some? ==> r.value in states && MatchesMiss(r.value.detect, seen)
    ensures r.None? ==> forall s | s in states :: !MatchesMiss(s.detect, seen)
  {
    if states == [] then None
    else if MatchesMiss(states[0].detect, seen) then Some(states[0])
    else MatchMiss(states[1..], seen)
  }

  predicate AnyHolds(checks: seq<Checkpoint>, seen: Observation, inputs: map<string, string>) {
    exists c | c in checks :: Holds(c, seen, inputs)
  }

  // ----- Actions -----

  const PARAMETERS := "parameters."

  function Lookup(inputs: map<string, string>, name: string): Option<string> {
    if name in inputs then Some(inputs[name]) else None
  }

  function StepValue(step: Step, inputs: map<string, string>): Option<string> {
    if step.inputFrom.Some? && PARAMETERS <= step.inputFrom.value
    then Lookup(inputs, step.inputFrom.value[|PARAMETERS|..])
    else step.value
  }

  function Materialize(step: Step, inputs: map<string, string>): Action {
    Action(step.action, ExpandTarget(step.target, inputs), StepValue(step, inputs),
           ExpandOption(step.url, inputs), step.outputName, None)
  }

  /** The action a run issues for one of its steps; a risky one carries the run's key. */
  function Issued(step: Step, inputs: map<string, string>, key: string): Action {
    var action := Materialize(step, inputs);
    if step.risk.Risky? then action.(key := Some(key)) else action
  }

  function Control(role: string, name: string): Option<Target> {
    Some(Target(Locator(Role, Some(role), Some(name), None, None, None, None, None), []))
  }

  /** The acts of `maybeSignIn` in turn: user name, password, button. */
  function SignInAct(login: Login, n: nat): Action {
    if n == 0 then Action(Type, Control("textbox", "Username"), Some(login.username), None, None, None)
    else if n == 1 then Action(Type, Control("textbox", "Password"), Some(login.secret), None, None, None)
    else Action(Click, Control("button", "Sign In"), None, None, None, None)
  }

  function WaitFor(ms: nat): Action {
    Action(Wait, None, Some(Decimal(ms)), None, None, None)
  }

  /** What a screen to dismiss or to wait out is answered with. */
  function RecoveryAct(state: ExceptionalState): Option<Action> {
    match (state.classify, state.recover)
    case (Transient, Some(WaitIt(ms))) => Some(WaitFor(ms.Or(200)))
    case (Recoverable, Some(DismissIt(target))) => Some(Action(Dismiss, target, None, None, None, None))
    case (Recoverable, Some(WaitIt(ms))) => Some(WaitFor(ms.Or(500)))
    case _ => None
  }

  /** How an output still missing is read at the end of a run. */
  function ReadAct(def: OutputDef): Action {
    Action(Extract, Some(def.locator), None, None, None, None)
  }

  // ----- Gates -----

  predicate HasEffects(cap: Capability) {
    cap.sideEffect != ReadsOnly
  }

  /** `assertTwoPersonApproval` does not throw. */
  predicate TwoPersonApproved(cap: Capability) {
    (cap.sideEffect == Irreversible || exists s | s in cap.steps :: s.risk.Risky?) ==>
      && cap.approval.Some?
      && Trim(cap.approval.value.requestedBy) != "" && Trim(cap.approval.value.approvedBy) != ""
      && Lower(Trim(cap.approval.value.requestedBy)) != Lower(Trim(cap.approval.value.approvedBy))
  }

  /** `/^-?\d+(\.\d+)?$/` */
  predicate IsNumeral(s: string) {
    var digits := if s != "" && s[0] == '-' then s[1..] else s;
    var whole := BeforeDot(digits);
    AllDigits(whole) && (|whole| == |digits| || AllDigits(digits[|whole| + 1..]))
  }

  /** `validateInputs` finds nothing to report. */
  predicate InputsAccepted(parameters: seq<ParamDef>, inputs: map<string, string>) {
    && (forall name | name in inputs :: exists p | p in parameters :: p.name == name)
    && (forall p | p in parameters ::
          && p.name in inputs
          && Trim(inputs[p.name]) != ""
          && (p.number ==> IsNumeral(Trim(inputs[p.name]))))
  }
}
