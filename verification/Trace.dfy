/**
 * Traces of the replay engine and the rules every trace obeys.
 *
 * An event stands for one observable thing a run does: a look at the surface, an act, an escalation, a
 * retry, the opening and closing of a run's own steps. `Watch` is what an observer of the trace remembers;
 * `Legal` says which event may come next; `Faithful` says that the calls on the trace are the environment's own
 * answers. `TraceLaws` turns the rules into statements about whole traces.
 */
module Trace {
  import opened Prelude
  import opened Capabilities
  import opened Outputs
  import opened Decisions
  import opened Ledger

  datatype Session = Session(authenticated: bool, role: Option<string>)

  datatype RunOptions = RunOptions(
    inputs: map<string, string>,
    approveRisky: bool,
    dryRun: bool,
    control: bool,
    ledger: bool,
    catalog: map<string, Capability>,
    session: Option<Session>,
    bag: Bag,
    nested: bool,
    seen: seq<string>)

  datatype Code =
    | NoCode
    | InvalidInput
    | KillSwitch
    | RateLimit
    | ApprovalRequired
    | PreconditionFailed
    | IdempotencyConflict
    | ComposeCycle
    | AntiCheckpoint
    | RecoverableExhausted
    | TransientExhausted
    | RiskyActionBlocked
    | HumanAbort(reason: AbortCode)
    | PreconditionLost
    | PolicyViolation
    | LocatorMiss
    | OutputInvalid
    | CheckpointFailed
    | CheckpointAfterAct
    | Uncaught
    | Declared(code: string)

  /** A run inside its own steps; `eyes` are the inputs its checkpoints are read with. */
  datatype Frame = Frame(cap: Capability, o: RunOptions, key: string, eyes: map<string, string>)

  /** `assertSession` passes; an absent session is an authenticated teller. */
  predicate SessionFits(cap: Capability, session: Option<Session>) {
    var resolved := session.Or(Session(true, Some("teller")));
    && (cap.requiresSession ==> resolved.authenticated)
    && (cap.requiresRole.Some? && cap.requiresRole.value != "" ==> resolved.role == cap.requiresRole)
  }

  /** How a run ended, short of its outputs. */
  datatype Outcome = Outcome(status: Status, code: Code, ambiguous: bool)

  datatype How =
    | ByAct(action: Action, result: ActResult, after: Option<Observation>)
    | ByReauth(on: Observation)
    | ByHuman(back: Observation, disposition: Disposition)

  /** Why the operator is called: a risky step wants approval, or a declared screen wants a person. */
  datatype Reason = RiskyStep | StrayScreen(state: ExceptionalState)

  /** What an act beside the recorded steps is for. */
  datatype Errand = SigningIn | Recovering(state: ExceptionalState)

  datatype Event =
    | Looked(seen: Observation)
    | Blinded
    | Touched(errand: Errand, action: Action, result: Awaited<ActResult>)
    | Escalated(reason: Reason, entry: Checkpoint, answer: Awaited<Decision>)
    | Entered(cap: Capability, o: RunOptions)
    | TurnedAway(cap: Capability, o: RunOptions, outcome: Outcome)
    | Unloadable
    | PassedOver(eyes: map<string, string>)
    | Joined
    | PassedOn(outcome: Outcome)
    | Left
    | Opened(f: Frame, skipped: bool, bag: Bag)
    | Extracted(f: Frame, name: string, action: Action, result: Awaited<ActResult>)
    | Filled(f: Frame, name: string, raw: string)
    | Began(f: Frame, step: Step)
    | Iterated(on: Observation)
    | Charged(transient: bool)
    | Resumed
    | Retried(reauth: bool)
    | HandedBack(f: Frame, step: Step, after: Observation, entry: Checkpoint)
    | Ruled(f: Frame, step: Step, action: Action, on: Observation, verdict: Awaited<bool>)
    | StepActed(f: Frame, step: Step, action: Action, on: Observation, result: Awaited<ActResult>)
    | Ended(f: Frame, step: Step, how: How)
    | Closed(f: Frame, final: Observation)
    | Quit(f: Frame, outcome: Outcome)

  /** What the kill switch and the limiter say to a run. */
  datatype Admission = Granted | Killed | Limited

  /** What the environment answers a call with. */
  datatype Answer =
    | Shows(seen: Observation)
    | Does(result: ActResult)
    | Decides(decision: Decision)
    | Admits(admission: Admission)
    | Permits(allowed: bool)

  /** The event records an answer of the environment: to a call of the run, or to the run itself at its gates. */
  predicate IsCall(e: Event) {
    || e.Looked? || e.Blinded? || e.Touched? || e.Escalated? || e.Extracted? || e.Ruled? || e.StepActed?
    || e.Entered? || (e.TurnedAway? && e.outcome.code != InvalidInput)
  }

  /** What the gates made of the kill switch and the limiter. */
  predicate Admitted(code: Code, a: Answer) {
    match code
    case KillSwitch => a == Admits(Killed)
    case RateLimit => a != Admits(Granted) && a != Admits(Killed)
    case _ => a == Admits(Granted)
  }

  predicate Reports(result: Awaited<ActResult>, a: Answer) {
    if result.Got? then a == Does(result.value) else !a.Does?
  }

  /** The call records this answer, or that it is none. */
  predicate Fits(e: Event, a: Answer) {
    match e
    case Looked(seen) => a == Shows(seen)
    case Blinded => !a.Shows?
    case Touched(_, _, result) => Reports(result, a)
    case Escalated(_, _, said) => if said.Got? then a == Decides(said.value) else !a.Decides?
    case Extracted(_, _, _, result) => Reports(result, a)
    case Ruled(_, _, _, _, verdict) => if verdict.Got? then a == Permits(verdict.value) else !a.Permits?
    case StepActed(_, _, _, _, result) => Reports(result, a)
    case Entered(_, _) => a == Admits(Granted)
    case TurnedAway(_, _, outcome) => Admitted(outcome.code, a)
    case _ => false
  }

  /** The call threw. */
  predicate Fails(e: Event) {
    match e
    case Blinded => true
    case Touched(_, _, result) => result.Threw?
    case Escalated(_, _, said) => said.Threw?
    case Extracted(_, _, _, result) => result.Threw?
    case Ruled(_, _, _, _, verdict) => verdict.Threw?
    case StepActed(_, _, _, _, result) => result.Threw?
    case _ => false
  }

  /** What is recorded when no answer is left: a call that threw, and a limiter that did. */
  predicate Bereft(e: Event) {
    Fails(e) || (e.TurnedAway? && e.outcome.code == RateLimit)
  }

  /** The calls of the trace record the answers given, in order, some answers aside; with all of them given, calls throw. */
  predicate Heard(t: seq<Event>, given: seq<Answer>, all: nat)
    decreases |t|, |given|
  {
    if t == [] then true
    else
      var front, e := t[..|t| - 1], t[|t| - 1];
      if !IsCall(e) then Heard(front, given, all)
      else
        || (&& given != []
            && var before, a := given[..|given| - 1], given[|given| - 1];
               Heard(t, before, all) || (Fits(e, a) && Heard(front, before, all)))
        || (Bereft(e) && |given| == all && Heard(front, given, all))
  }

  /** What is left of the answers once those in front of it have been given; the trace records no others. */
  predicate Faithful(script: seq<Answer>, tape: seq<Answer>, t: seq<Event>) {
    && |tape| <= |script| && tape == script[|script| - |tape|..]
    && Heard(t, script[..|script| - |tape|], |script|)
  }

  lemma {:induction false} HeardMore(t: seq<Event>, given: seq<Answer>, a: Answer, all: nat)
    requires Heard(t, given, all)
    ensures Heard(t, given + [a], all)
  {
    assert (given + [a])[..|given|] == given;
    if t != [] && !IsCall(t[|t| - 1]) {
      HeardMore(t[..|t| - 1], given, a, all);
    }
  }

  function Rest(tape: seq<Answer>): seq<Answer> {
    if tape == [] then [] else tape[1..]
  }

  /** The next answer is given, and not recorded. */
  lemma GivenUnheard(script: seq<Answer>, tape: seq<Answer>, t: seq<Event>)
    requires Faithful(script, tape, t)
    ensures Faithful(script, Rest(tape), t)
  {
    if tape != [] {
      var given := script[..|script| - |tape|];
      HeardMore(t, given, tape[0], |script|);
      assert given + [tape[0]] == script[..|script| - |tape| + 1];
    }
  }

  /** The call records the next answer, or throws for want of one. */
  predicate Answered(e: Event, was: seq<Answer>) {
    if was == [] then Bereft(e) else Fits(e, was[0])
  }

  /** One more event, with the answer just given if it is a call. */
  lemma GivenAndTold(script: seq<Answer>, was: seq<Answer>, t: seq<Event>, e: Event)
    requires Faithful(script, was, t)
    ensures !IsCall(e) ==> Faithful(script, was, t + [e])
    ensures IsCall(e) && Answered(e, was) ==> Faithful(script, Rest(was), t + [e])
  {
    hide Fits, Bereft;
    assert (t + [e])[..|t|] == t;
    if IsCall(e) && Answered(e, was) && was != [] {
      var given := script[..|script| - |was| + 1];
      assert given[..|given| - 1] == script[..|script| - |was|] && given[|given| - 1] == was[0];
    }
  }

  datatype Attempt = Attempt(action: Action, result: ActResult)

  /** The operator's word on the risky step, and the look behind it. */
  datatype Hand = Hand(word: Decision, back: Option<Observation>)

  /** The operator's word on a screen that wants a person. */
  datatype Call = Call(state: ExceptionalState, word: Decision)

  /** How the newest run that did not succeed has ended. */
  datatype Ending = Ending(cap: Capability, o: RunOptions, outcome: Outcome)

  /** What the observer knows about the step loop in progress; all but the counts, `armed` and `pending` is of this turn. */
  datatype Loop = Loop(
    step: Step,
    top: Option<Observation>,
    pending: bool,
    armed: bool,
    hand: Option<Hand>,
    ruling: Option<bool>,
    last: Option<Attempt>,
    iters: nat,
    acts: nat,
    recoveries: nat,
    transients: nat,
    resumed: nat,
    retried: nat)

  /** A run entered and not yet left: how many of its uses are settled, and the outputs so far. */
  datatype Level = Level(cap: Capability, o: RunOptions, used: nat, bag: Bag)

  /**
   * `called` is the operator's word on the screen last looked at, `signing` and `recovered` what has been done about
   * that screen; `extracted` is the newest text read at the end of a run, `login` what the newest run signs in with.
   */
  datatype Watch = Watch(
    calls: nat,
    broken: bool,
    active: seq<string>,
    levels: seq<Level>,
    joined: Option<Frame>,
    ending: Option<Ending>,
    own: Option<Frame>,
    done: nat,
    loop: Option<Loop>,
    seen: Option<Observation>,
    entry: Option<Checkpoint>,
    called: Option<Call>,
    extracted: Option<(string, string)>,
    login: Option<Login>,
    signing: nat,
    recovered: Option<ExceptionalState>,
    restored: bool,
    bag: Bag)

  const START := Watch(0, false, [], [], None, None, None, 0, None, None, None, None, None, None, 0, None, false, map[])

  const SESSION_EXPIRED := "SESSION_EXPIRED"

  function Fresh(step: Step): Loop {
    Loop(step, None, false, false, None, None, None, 0, 0, 0, 0, 0, 0)
  }

  predicate NoAnti(cap: Capability, step: seq<Checkpoint>, seen: Observation, eyes: map<string, string>) {
    !AnyHolds(cap.antiCheckpoints + step, seen, eyes)
  }

  predicate StartsWithNavigate(cap: Capability) {
    cap.steps != [] && cap.steps[0].action == Navigate
  }

  /** Some of the run's inputs, none of them changed: what a child leaves its parent to look with. */
  predicate Narrowed(eyes: map<string, string>, inputs: map<string, string>) {
    forall name | name in eyes :: name in inputs && eyes[name] == inputs[name]
  }

  /** Ids a nested run may carry. */
  function KnownIds(catalog: map<string, Capability>): set<string> {
    set k | k in catalog :: catalog[k].id
  }

  function PassedInputs(use: Use, inputs: map<string, string>): map<string, string> {
    map name | name in use.pass && name in inputs :: inputs[name]
  }

  /** The next use of a run, run as a child: the passed inputs, the outputs so far, one level down. */
  predicate ChildOf(p: Level, cap: Capability, o: RunOptions) {
    && p.used < |p.cap.uses|
    && var use := p.cap.uses[p.used];
       && use.capabilityId in p.o.catalog && cap == p.o.catalog[use.capabilityId]
       && o == p.o.(inputs := PassedInputs(use, p.o.inputs), bag := p.bag, nested := true, seen := p.o.seen + [p.cap.id])
  }

  /** The next use cannot be run: the catalog does not have it, or its credential has no secret. */
  predicate NoChild(p: Level) {
    && p.used < |p.cap.uses|
    && var id := p.cap.uses[p.used].capabilityId;
       id !in p.o.catalog || p.o.catalog[id].credential.Unbound?
  }

  /** The next use shows its success already. */
  predicate MayPassOver(p: Level, seen: Option<Observation>, eyes: map<string, string>) {
    && p.used < |p.cap.uses| && p.cap.uses[p.used].capabilityId in p.o.catalog && seen.Some?
    && Holds(p.o.catalog[p.cap.uses[p.used].capabilityId].success, seen.value, eyes)
    && Narrowed(eyes, p.o.inputs)
  }

  /** First declared output of that name. */
  function OutputNamed(outputs: seq<OutputDef>, name: string): (r: Option<OutputDef>)
    ensures r.Some? ==> r.value in outputs && r.value.name == name
    ensures r.None? ==> forall d | d in outputs :: d.name != name
  {
    if outputs == [] then None
    else if outputs[0].name == name then Some(outputs[0])
    else OutputNamed(outputs[1..], name)
  }

  predicate OutputReads(cap: Capability, step: Step, result: ActResult) {
    step.outputName.Some? ==> Coerce(OutputNamed(cap.outputs, step.outputName.value), result.extracted).Some?
  }

  /** Why a step counts as done. */
  predicate Justified(f: Frame, step: Step, how: How) {
    match how
    case ByAct(action, result, after) =>
      && action == Issued(step, f.o.inputs, f.key)
      && result.ok && !result.policyBlocked
      && OutputReads(f.cap, step, result)
      && (step.checkpoint.Some? ==>
            && after.Some?
            && Holds(step.checkpoint.value, after.value, f.eyes)
            && NoAnti(f.cap, step.antiCheckpoints, after.value, f.eyes))
    case ByReauth(on) =>
      step.checkpoint.Some? && step.outputName.None? && Holds(step.checkpoint.value, on, f.eyes)
    case ByHuman(back, disposition) =>
      && step.risk.Risky?
      && (disposition == CompletedByHuman || (step.checkpoint.Some? && Holds(step.checkpoint.value, back, f.eyes)))
  }

  predicate ActAllowed(f: Frame, step: Step, armed: bool) {
    step.risk.Risky? ==> !f.o.dryRun && (f.o.approveRisky || armed)
  }

  /** In the loop of `step`, on this screen, which neither stops the run nor is to be dismissed first. */
  predicate Clear(w: Watch, f: Frame, step: Step, on: Observation) {
    && w.own == Some(f)
    && w.loop.Some?
    && w.loop.value.step == step
    && w.loop.value.top == Some(on)
    && NoAnti(f.cap, step.antiCheckpoints, on, f.eyes)
    && (w.loop.value.pending || MatchException(f.cap.exceptionalStates, on).None?)
  }

  /** All but the policy lets the step's action through. */
  predicate Ready(w: Watch, f: Frame, step: Step, action: Action, on: Observation) {
    && Clear(w, f, step, on)
    && ActAllowed(f, step, w.loop.value.armed)
    && action == Issued(step, f.o.inputs, f.key)
    && w.loop.value.acts <= w.loop.value.transients + w.loop.value.retried
  }

  predicate MayAct(w: Watch, f: Frame, step: Step, action: Action, on: Observation) {
    Ready(w, f, step, action, on) && w.loop.value.ruling == Some(true)
  }

  // ----- The operator -----

  /** The page an intervention pauses on. */
  function PageOf(seen: Observation): Checkpoint {
    Checkpoint(UrlIncludes, seen.path.Or(seen.url))
  }

  /** The operator is asked about the screen looked at: by a risky step free to go on, once a turn, or for a declared screen. */
  predicate MayEscalate(w: Watch, reason: Reason, entry: Checkpoint) {
    && w.own.Some? && w.own.value.o.control && w.seen.Some? && entry == PageOf(w.seen.value)
    && match reason
       case RiskyStep =>
         && w.loop.Some? && w.loop.value.hand.None? && w.loop.value.last.None? && !w.loop.value.armed
         && w.loop.value.step.risk.Risky? && !w.own.value.o.dryRun && !w.own.value.o.approveRisky
         && Clear(w, w.own.value, w.loop.value.step, w.seen.value)
       case StrayScreen(state) => state.classify.NeedsHuman? && Recognised(w, w.own.value, state, w.seen.value)
  }

  /** The screen says that the session has expired, and there is an operator to restore it. */
  predicate Expired(f: Frame, state: ExceptionalState) {
    state.classify.NeedsHuman? && state.code == SESSION_EXPIRED && f.o.control
  }

  /** The operator has restored the session that this screen says has expired. */
  predicate Restored(w: Watch, state: ExceptionalState) {
    && w.own.Some? && Expired(w.own.value, state)
    && w.called.Some? && w.called.value.state == state && w.called.value.word.action == Resume
  }

  /** The recognised screen, if any, does not stop the run. */
  predicate Passable(w: Watch, found: Option<ExceptionalState>) {
    found.Some? ==> found.value.classify.Transient? || found.value.classify.Recoverable? || Restored(w, found.value)
  }

  /** The operator resumed with this word on the step, and the run has looked since. */
  predicate Resolved(w: Watch, f: Frame, step: Step, after: Observation, disposition: Disposition) {
    && w.own == Some(f) && w.loop.Some? && w.loop.value.step == step && w.seen == Some(after)
    && w.loop.value.hand.Some?
    && w.loop.value.hand.value.back == Some(after)
    && w.loop.value.hand.value.word.action == Resume
    && w.loop.value.hand.value.word.disposition == Some(disposition)
    && Passable(w, MatchException(f.cap.exceptionalStates, after))
  }

  predicate MayHandBack(w: Watch, f: Frame, step: Step, after: Observation, entry: Checkpoint) {
    && Resolved(w, f, step, after, NotDone)
    && w.entry == Some(entry)
    && (step.checkpoint.Some? ==> !Holds(step.checkpoint.value, after, f.eyes))
    && Holds(entry, after, f.eyes)
  }

  predicate MayEnd(w: Watch, f: Frame, step: Step, how: How) {
    && w.own == Some(f)
    && w.loop.Some?
    && w.loop.value.step == step
    && Justified(f, step, how)
    && match how
       case ByAct(action, result, after) =>
         && w.loop.value.last == Some(Attempt(action, result))
         && (after.Some? ==> w.seen == after)
       case ByReauth(on) => Clear(w, f, step, on) && w.seen == Some(on) && w.restored
       case ByHuman(back, disposition) => Resolved(w, f, step, back, disposition) && !f.o.dryRun
  }

  /** The state is the first of its kind that the capability declares for the screen; behind a refused act, locator misses come first. */
  predicate DeclaredFor(f: Frame, state: ExceptionalState, seen: Observation, refused: bool) {
    if refused then
      || MatchMiss(f.cap.exceptionalStates, seen) == Some(state)
      || (NoMiss(f, seen) && MatchException(f.cap.exceptionalStates, seen) == Some(state))
    else MatchException(f.cap.exceptionalStates, seen) == Some(state)
  }

  predicate Recognised(w: Watch, f: Frame, state: ExceptionalState, seen: Observation) {
    DeclaredFor(f, state, seen, CameBack(w, false))
  }

  /** No locator miss is declared for the screen, but for an expired session that an operator can restore. */
  predicate NoMiss(f: Frame, seen: Observation) {
    var miss := MatchMiss(f.cap.exceptionalStates, seen);
    miss.Some? ==> Expired(f, miss.value)
  }

  // ----- Acts beside the recorded steps -----

  predicate MayTouch(w: Watch, errand: Errand, action: Action) {
    match errand
    case SigningIn =>
      && w.seen.Some? && w.seen.value.login && w.levels != [] && !Newest(w).o.nested
      && w.login.Some? && w.signing < 3 && action == SignInAct(w.login.value, w.signing)
    case Recovering(state) =>
      && w.own.Some? && w.seen.Some? && w.recovered.None? && Recognised(w, w.own.value, state, w.seen.value)
      && RecoveryAct(state) == Some(action)
  }

  function AfterTouch(w: Watch, errand: Errand, result: Awaited<ActResult>): Watch {
    var v := w.(calls := w.calls + 1, broken := w.broken || result.Threw?);
    match errand
    case SigningIn => v.(signing := if w.signing == 0 && (result.Threw? || !result.value.ok) then 3 else w.signing + 1)
    case Recovering(state) => v.(recovered := Some(state))
  }

  // ----- Retries -----

  /** The screen has been dismissed or waited out as it is declared to be. */
  predicate Heeded(w: Watch, state: ExceptionalState) {
    if RecoveryAct(state).Some? then w.recovered == Some(state) else w.recovered.None?
  }

  /** The turn's screen was recognised as one of this class, and answered as declared. */
  predicate TopShows(w: Watch, class': ExceptionClass) {
    && Going(w) && w.loop.value.top.Some? && w.loop.value.top == w.seen && !w.loop.value.pending
    && NoAnti(w.own.value.cap, w.loop.value.step.antiCheckpoints, w.seen.value, w.own.value.eyes)
    && var found := MatchException(w.own.value.cap.exceptionalStates, w.seen.value);
       found.Some? && found.value.classify == class' && Heeded(w, found.value)
  }

  predicate Going(w: Watch) {
    w.own.Some? && w.loop.Some?
  }

  /** The turn's act came back refused, and is worth repeating. */
  predicate BacksOff(w: Watch) {
    && Going(w) && w.loop.value.last.Some?
    && var result := w.loop.value.last.value.result;
       !result.ok && !result.policyBlocked && result.retryable
  }

  predicate MayCharge(w: Watch, transient: bool) {
    TopShows(w, if transient then Transient else Recoverable) || (transient && BacksOff(w))
  }

  predicate MayResume(w: Watch) {
    TopShows(w, NeedsHuman) && Restored(w, MatchException(w.own.value.cap.exceptionalStates, w.seen.value).value)
  }

  /** The screen behind an act sends the step round again: answered as declared, or because the operator restored the session. */
  predicate Excuses(w: Watch, found: Option<ExceptionalState>, reauth: bool) {
    && found.Some?
    && if reauth then Restored(w, found.value)
       else (found.value.classify.Transient? || found.value.classify.Recoverable?) && Heeded(w, found.value)
  }

  /** The turn's act came back refused, or without its checkpoint, and the look behind it is excused by a declared screen. */
  predicate MayRetry(w: Watch, reauth: bool) {
    && Going(w) && w.loop.value.last.Some? && w.seen.Some?
    && var f, result, seen := w.own.value, w.loop.value.last.value.result, w.seen.value;
       && !result.policyBlocked
       && if result.ok then
            && CheckMissed(w, f) && NoAnti(f.cap, w.loop.value.step.antiCheckpoints, seen, f.eyes)
            && Excuses(w, MatchException(f.cap.exceptionalStates, seen), reauth)
          else
            && !result.retryable
            && (|| (!reauth && Excuses(w, MatchMiss(f.cap.exceptionalStates, seen), false))
                || (NoMiss(f, seen) && Excuses(w, MatchException(f.cap.exceptionalStates, seen), reauth)))
  }

  // ----- Ends -----

  /** What a screen that stops a run makes of it; a session that has expired is never a stop where there is an operator. */
  predicate EndsRun(w: Watch, state: ExceptionalState, wired: bool, status: Status) {
    match state.classify
    case BusinessOutcome => status == BusinessAnswer
    case HardFailure => status == Failed
    case NeedsHuman =>
      if wired then
        status == Escalation && state.code != SESSION_EXPIRED && w.called.Some? && w.called.value.state == state
      else status == PersonNeeded
    case _ => false
  }

  predicate InStep(w: Watch, f: Frame) {
    w.own == Some(f) && w.loop.Some?
  }

  predicate AllStepsDone(w: Watch, f: Frame) {
    w.own == Some(f) && w.loop.None? && w.done == |f.cap.steps|
  }

  /** The step's act came back, well or not. */
  predicate CameBack(w: Watch, ok: bool) {
    w.loop.Some? && w.loop.value.last.Some? && w.loop.value.last.value.result.ok == ok
  }

  /** What a run that does not succeed had in front of it when it stopped. */
  predicate Explains(w: Watch, f: Frame, o: Outcome) {
    && (o.ambiguous ==> InStep(w, f) && w.loop.value.step.risk.Risky? && CameBack(w, true))
    && match o.code
       case AntiCheckpoint =>
         && o.status == Failed && w.own == Some(f) && w.seen.Some?
         && !NoAnti(f.cap, if w.loop.Some? then w.loop.value.step.antiCheckpoints else [], w.seen.value, f.eyes)
       case RecoverableExhausted =>
         o.status == PersonNeeded && InStep(w, f) && w.loop.value.recoveries > w.loop.value.step.retryBudget
       case TransientExhausted =>
         o.status == Failed && InStep(w, f) && w.loop.value.transients > w.loop.value.step.retryBudget
       case RiskyActionBlocked =>
         o.status == Escalation && InStep(w, f) && !f.o.control && !ActAllowed(f, w.loop.value.step, w.loop.value.armed)
       case HumanAbort(reason) => o.status == Escalation && AbortedWith(w, f, reason)
       case PreconditionLost =>
         && o.status == PersonNeeded && InStep(w, f) && w.seen.Some? && w.entry.Some?
         && Resolved(w, f, w.loop.value.step, w.seen.value, NotDone) && !Holds(w.entry.value, w.seen.value, f.eyes)
       case PolicyViolation =>
         && o.status == Failed && InStep(w, f)
         && (|| w.loop.value.ruling == Some(false)
             || (w.loop.value.last.Some? && w.loop.value.last.value.result.policyBlocked))
       case LocatorMiss =>
         && o.status == Failed && InStep(w, f) && CameBack(w, false) && !w.loop.value.last.value.result.retryable
         && Unexcused(w, f) && Missed(w, f)
       case OutputInvalid =>
         && o.status == Failed
         && if w.loop.Some? then
              InStep(w, f) && CameBack(w, true) && !OutputReads(f.cap, w.loop.value.step, w.loop.value.last.value.result)
            else ShowsSuccess(w, f) && Unreadable(w, f)
       case CheckpointAfterAct => o.status == Failed && o.ambiguous && CheckMissed(w, f) && Unexcused(w, f)
       case CheckpointFailed =>
         && o.status == Failed
         && if w.loop.Some? then CheckMissed(w, f) && Unexcused(w, f) && w.loop.value.step.risk.Safe?
            else
              && AllStepsDone(w, f) && w.seen.Some? && !Holds(f.cap.success, w.seen.value, f.eyes)
              && NoAnti(f.cap, [], w.seen.value, f.eyes) && Passable(w, MatchException(f.cap.exceptionalStates, w.seen.value))
       case Declared(code) =>
         && w.own == Some(f) && w.seen.Some?
         && exists s | s in f.cap.exceptionalStates ::
              s.code == code && Recognised(w, f, s, w.seen.value) && EndsRun(w, s, f.o.control, o.status)
       case NoCode => o.status == DryRunReport && InStep(w, f) && f.o.dryRun && w.loop.value.step.risk.Risky?
       case PreconditionFailed =>
         && o.status == Failed && w.own.None? && w.seen.Some?
         && !Holds(f.cap.entry, w.seen.value, f.eyes) && !StartsWithNavigate(f.cap)
       case Uncaught => o.status == Failed && w.broken
       case _ => false
  }

  /** The newest word of the operator, on the step or on the screen, was an abort. */
  predicate AbortedWith(w: Watch, f: Frame, reason: AbortCode) {
    && w.own == Some(f) && f.o.control
    && (|| (w.loop.Some? && w.loop.value.hand.Some? && Aborts(w.loop.value.hand.value.word, reason))
        || (w.called.Some? && w.called.value.state.code == SESSION_EXPIRED && Aborts(w.called.value.word, reason)))
  }

  predicate Aborts(word: Decision, reason: AbortCode) {
    word.action == Abort && reason == word.code.Or(Aborted)
  }

  /** The account is of the run on top. */
  predicate OfTheTop(w: Watch, f: Frame) {
    && w.levels != [] && Newest(w).cap == f.cap && Newest(w).o == f.o
    && f.key == KeyFor(f.cap, f.o.inputs) && Narrowed(f.eyes, f.o.inputs) && (w.own.Some? ==> w.own == Some(f))
  }

  /** A gate can turn the run away with this. */
  predicate Barred(cap: Capability, o: RunOptions, outcome: Outcome) {
    && !outcome.ambiguous
    && match outcome.code
       case InvalidInput => outcome.status == InvalidRun && !InputsAccepted(cap.parameters, o.inputs)
       case KillSwitch => outcome.status == Failed
       case RateLimit => outcome.status == Failed
       case ApprovalRequired => outcome.status == Failed && !TwoPersonApproved(cap)
       case PreconditionFailed => outcome.status == Failed && !SessionFits(cap, o.session)
       case IdempotencyConflict => outcome.status == Failed && HasEffects(cap) && o.ledger && !o.dryRun
       case ComposeCycle => outcome.status == Failed && cap.id in o.seen
       case _ => false
  }

  /** The run on top stops because its child did, with the child's outcome. */
  predicate MayPassOn(w: Watch, outcome: Outcome) {
    && w.own.None? && w.loop.None? && w.levels != [] && outcome.status != Success
    && w.ending.Some? && w.ending.value.outcome == outcome && ChildOf(Newest(w), w.ending.value.cap, w.ending.value.o)
  }

  /** The step's act went through and the look after it does not show the step's checkpoint. */
  predicate CheckMissed(w: Watch, f: Frame) {
    && InStep(w, f) && CameBack(w, true) && w.seen.Some?
    && w.loop.value.step.checkpoint.Some?
    && !Holds(w.loop.value.step.checkpoint.value, w.seen.value, f.eyes)
  }

  predicate Unexcused(w: Watch, f: Frame) {
    w.seen.Some? && MatchException(f.cap.exceptionalStates, w.seen.value).None?
  }

  /** Nor is a locator miss declared for the look, but for an expired session that the operator has restored. */
  predicate Missed(w: Watch, f: Frame) {
    && w.seen.Some?
    && var miss := MatchMiss(f.cap.exceptionalStates, w.seen.value);
       miss.Some? ==> Restored(w, miss.value)
  }

  /** All steps done, and the look shows success and nothing that stops the run. */
  predicate ShowsSuccess(w: Watch, f: Frame) {
    && AllStepsDone(w, f) && w.seen.Some?
    && Holds(f.cap.success, w.seen.value, f.eyes) && NoAnti(f.cap, [], w.seen.value, f.eyes)
    && Passable(w, MatchException(f.cap.exceptionalStates, w.seen.value))
  }

  /** An output is read off the step's own act, or, if still missing, off the screen that shows success. */
  predicate MayFill(w: Watch, f: Frame, name: string, raw: string) {
    && w.own == Some(f)
    && Coerce(OutputNamed(f.cap.outputs, name), raw).Some?
    && if w.loop.Some? then
         CameBack(w, true) && w.loop.value.step.outputName == Some(name) && w.loop.value.last.value.result.extracted == raw
       else
         && ShowsSuccess(w, f)
         && name !in w.bag && OutputNamed(f.cap.outputs, name).Some? && w.extracted == Some((name, raw))
  }

  /** The text just read for a missing output is none of its type. */
  predicate Unreadable(w: Watch, f: Frame) {
    && w.extracted.Some? && w.extracted.value.0 !in w.bag
    && Coerce(OutputNamed(f.cap.outputs, w.extracted.value.0), w.extracted.value.1).None?
  }

  predicate MayExtract(w: Watch, f: Frame, name: string, action: Action) {
    && ShowsSuccess(w, f)
    && name !in w.bag && OutputNamed(f.cap.outputs, name).Some? && action == ReadAct(OutputNamed(f.cap.outputs, name).value)
  }

  function Fill(f: Frame, bag: Bag, name: string, raw: string): Bag {
    var v := Coerce(OutputNamed(f.cap.outputs, name), raw);
    if v.Some? then bag[name := v.value] else bag
  }

  predicate Legal(w: Watch, e: Event) {
    match e
    case Looked(_) => true
    case Blinded => true
    case Touched(errand, action, _) => MayTouch(w, errand, action)
    case Escalated(reason, entry, _) => MayEscalate(w, reason, entry)
    case Entered(cap, o) =>
      && w.own.None? && cap.id !in w.active && w.active == o.seen
      && (w.active != [] ==> w.levels != [] && ChildOf(Newest(w), cap, o))
    case PassedOver(eyes) => w.own.None? && w.levels != [] && MayPassOver(Newest(w), w.seen, eyes)
    case TurnedAway(cap, o, outcome) =>
      w.own.None? && w.loop.None? && w.levels != [] && ChildOf(Newest(w), cap, o) && Barred(cap, o, outcome)
    case Unloadable => w.own.None? && w.levels != [] && NoChild(Newest(w))
    case PassedOn(outcome) => MayPassOn(w, outcome)
    case Joined => w.own.None? && w.levels != [] && w.joined.Some? && ChildOf(Newest(w), w.joined.value.cap, w.joined.value.o)
    case Left => w.own.None? && w.active != []
    case Opened(f, skipped, bag) =>
      && w.own.None? && w.loop.None? && w.seen.Some?
      && w.active == f.o.seen + [f.cap.id]
      && w.levels != [] && Newest(w) == Level(f.cap, f.o, |f.cap.uses|, bag)
      && f.key == KeyFor(f.cap, f.o.inputs)
      && TwoPersonApproved(f.cap) && InputsAccepted(f.cap.parameters, f.o.inputs)
      && Narrowed(f.eyes, f.o.inputs) && (f.cap.uses == [] ==> f.eyes == f.o.inputs)
      && skipped == (StartsWithNavigate(f.cap) && Holds(f.cap.entry, w.seen.value, f.eyes))
      && (StartsWithNavigate(f.cap) || Holds(f.cap.entry, w.seen.value, f.eyes))
    case Extracted(f, name, action, _) => MayExtract(w, f, name, action)
    case Filled(f, name, raw) => MayFill(w, f, name, raw)
    case Began(f, step) => w.own == Some(f) && w.loop.None? && w.done < |f.cap.steps| && step == f.cap.steps[w.done]
    case Iterated(on) =>
      && w.loop.Some? && w.seen == Some(on)
      && w.loop.value.recoveries <= w.loop.value.step.retryBudget
      && w.loop.value.transients <= w.loop.value.step.retryBudget
      && w.loop.value.iters
         == w.loop.value.recoveries + w.loop.value.transients + w.loop.value.resumed + w.loop.value.retried
    case Charged(transient) => MayCharge(w, transient)
    case Resumed => MayResume(w)
    case Retried(reauth) => MayRetry(w, reauth)
    case HandedBack(f, step, after, entry) => MayHandBack(w, f, step, after, entry)
    case Ruled(f, step, action, on, _) => Ready(w, f, step, action, on)
    case StepActed(f, step, action, on, _) => MayAct(w, f, step, action, on)
    case Ended(f, step, how) => MayEnd(w, f, step, how)
    case Closed(f, final) =>
      ShowsSuccess(w, f) && w.seen == Some(final)
    case Quit(f, outcome) => Explains(w, f, outcome) && OfTheTop(w, f)
  }

  function Newest(w: Watch): Level
    requires w.levels != []
  {
    w.levels[|w.levels| - 1]
  }

  /** The run on top has settled one more use, and takes its outputs. */
  function Settle(w: Watch, outputs: Bag): Watch {
    if w.levels == [] then w
    else
      var top := Newest(w);
      w.(levels := w.levels[..|w.levels| - 1] + [top.(used := top.used + 1, bag := top.bag + outputs)], joined := None)
  }

  function Turn(w: Watch, l: Loop): Watch {
    w.(loop := Some(l))
  }

  /** The loop goes round: its next turn starts from a look of its own. */
  function Round(w: Watch, l: Loop): Watch {
    w.(seen := None, loop := Some(l.(top := None, last := None)))
  }

  /** A look behind the operator's word is the one that counts. */
  function Behind(loop: Option<Loop>, seen: Observation): Option<Loop> {
    if loop.Some? && loop.value.hand.Some? then Some(loop.value.(hand := Some(loop.value.hand.value.(back := Some(seen)))))
    else loop
  }

  function AfterLook(w: Watch, seen: Observation): Watch {
    w.(seen := Some(seen), calls := w.calls + 1, called := None, extracted := None,
       signing := 0, recovered := None, loop := Behind(w.loop, seen))
  }

  function AfterEscalation(w: Watch, reason: Reason, entry: Checkpoint, answer: Awaited<Decision>): Watch {
    var v := w.(entry := Some(entry), calls := w.calls + 1, broken := w.broken || answer.Threw?);
    if answer.Threw? then v
    else
      var word := NormalizeDecision(answer.value);
      match reason
      case RiskyStep => if w.loop.None? then v else v.(loop := Some(w.loop.value.(hand := Some(Hand(word, None)))))
      case StrayScreen(state) => v.(called := Some(Call(state, word)))
  }

  function Advance(w: Watch, e: Event): Watch {
    match e
    case Looked(seen) => AfterLook(w, seen)
    case Blinded => w.(calls := w.calls + 1, broken := true)
    case Touched(errand, _, result) => AfterTouch(w, errand, result)
    case Escalated(reason, entry, answer) => AfterEscalation(w, reason, entry, answer)
    case Entered(cap, o) =>
      w.(active := w.active + [cap.id], levels := w.levels + [Level(cap, o, 0, o.bag)], joined := None, ending := None,
         broken := false, restored := w.restored && o.nested, login := cap.credential.Resolved())
    case Unloadable => w.(broken := true)
    case TurnedAway(cap, o, outcome) => w.(ending := Some(Ending(cap, o, outcome)), login := cap.credential.Resolved())
    case Left =>
      w.(active := if w.active == [] then [] else w.active[..|w.active| - 1],
         levels := if w.levels == [] then [] else w.levels[..|w.levels| - 1],
         broken := false)
    case PassedOver(_) => Settle(w, map[])
    case Joined => Settle(w, w.bag)
    case PassedOn(outcome) => if w.levels == [] then w else w.(ending := Some(Ending(Newest(w).cap, Newest(w).o, outcome)))
    case Opened(f, skipped, bag) => w.(own := Some(f), done := if skipped then 1 else 0, bag := bag, extracted := None)
    case Extracted(f, name, _, result) =>
      w.(calls := w.calls + 1, broken := w.broken || result.Threw?,
         extracted := if result.Got? then Some((name, result.value.extracted)) else None)
    case Filled(f, name, raw) => w.(bag := Fill(f, w.bag, name, raw))
    case Began(_, step) => Turn(w, Fresh(step)).(seen := None)
    case Ended(_, _, how) => w.(loop := None, done := w.done + 1, restored := w.restored && !how.ByReauth?)
    case Closed(f, _) => w.(own := None, joined := Some(f))
    case Quit(f, outcome) => w.(own := None, loop := None, ending := Some(Ending(f.cap, f.o, outcome)))
    case Iterated(on) =>
      if w.loop.None? then w
      else Turn(w, w.loop.value.(top := Some(on), iters := w.loop.value.iters + 1, hand := None, ruling := None, last := None))
    case Charged(transient) =>
      if w.loop.None? then w
      else if transient then Round(w, w.loop.value.(transients := w.loop.value.transients + 1, pending := true))
      else Round(w, w.loop.value.(recoveries := w.loop.value.recoveries + 1))
    case Resumed =>
      if w.loop.None? then w
      else Round(w.(restored := true), w.loop.value.(resumed := w.loop.value.resumed + 1))
    case Retried(reauth) =>
      if w.loop.None? then w
      else Round(w.(restored := w.restored || reauth), w.loop.value.(retried := w.loop.value.retried + 1))
    case HandedBack(_, _, _, _) => if w.loop.None? then w else Turn(w, w.loop.value.(armed := true))
    case Ruled(_, _, _, _, verdict) =>
      if w.loop.None? then w
      else Turn(w.(broken := w.broken || verdict.Threw?),
                w.loop.value.(ruling := if verdict.Got? then Some(verdict.value) else None))
    case StepActed(_, _, action, _, result) =>
      if w.loop.None? then w
      else
        Turn(w.(seen := None, called := None, calls := w.calls + 1, broken := w.broken || result.Threw?),
             w.loop.value.(acts := w.loop.value.acts + 1, top := None, pending := false, hand := None, ruling := None,
                           last := if result.Got? then Some(Attempt(action, result.value)) else None))
  }

  function Watched(t: seq<Event>): Watch {
    if t == [] then START else Advance(Watched(t[..|t| - 1]), t[|t| - 1])
  }

  /** Every event was allowed when it happened. */
  ghost predicate Lawful(t: seq<Event>) {
    forall i: nat | i < |t| :: AllowedAt(t, i)
  }

  predicate AllowedAt(t: seq<Event>, i: nat)
    requires i < |t|
  {
    Legal(Watched(t[..i]), t[i])
  }

  /** One more legal event. */
  lemma Appending(t: seq<Event>, e: Event)
    requires Lawful(t) && Legal(Watched(t), e)
    ensures Lawful(t + [e]) && Watched(t + [e]) == Advance(Watched(t), e)
  {
    hide Legal, Advance;
    assert (t + [e])[..|t|] == t;
    forall i: nat | i < |t + [e]|
      ensures AllowedAt(t + [e], i)
    {
      if i < |t| {
        assert AllowedAt(t, i) && (t + [e])[..i] == t[..i];
      }
    }
  }

  /** The trace is lawful, watched by `w`, and records nothing but answers given. */
  ghost predicate Witnessed(script: seq<Answer>, tape: seq<Answer>, t: seq<Event>, w: Watch) {
    Lawful(t) && w == Watched(t) && Faithful(script, tape, t)
  }

  lemma Unheard(script: seq<Answer>, tape: seq<Answer>, t: seq<Event>, w: Watch)
    requires Witnessed(script, tape, t, w)
    ensures Witnessed(script, Rest(tape), t, w)
  {
    hide Lawful, Watched, Faithful;
    GivenUnheard(script, tape, t);
  }

  /** `was` is the tape before the answer a call records. */
  lemma Recording(script: seq<Answer>, was: seq<Answer>, tape: seq<Answer>, t: seq<Event>, w: Watch, e: Event)
    requires Legal(w, e) && Witnessed(script, tape, t, w)
    requires IsCall(e) ==> Witnessed(script, was, t, w) && tape == Rest(was) && Answered(e, was)
    ensures Witnessed(script, tape, t + [e], Advance(w, e))
  {
    hide Lawful, Watched, Faithful, Legal, Advance, IsCall, Answered;
    Appending(t, e);
    GivenAndTold(script, if IsCall(e) then was else tape, t, e);
  }
}
