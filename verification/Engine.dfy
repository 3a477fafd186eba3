/**
 * The replay engine: `src/replay/engine.ts`, `classifier.ts`, `handoff.ts`, `compose.ts`.
 *
 * The surface, the operator, the rate limiter and the policy are a finite tape of answers, about which
 * nothing is assumed; a missing or ill-typed answer is a call that throws. So every run ends, and every
 * prefix of an endless run is the run of some tape.
 */
module Engine {
  import opened Prelude
  import opened Capabilities
  import opened Locators
  import opened Outputs
  import opened Decisions
  import opened Ledger
  import opened Trace

  datatype RunResult = RunResult(
    status: Status,
    code: Code,
    stepId: string,
    outputs: Bag,
    ambiguous: bool,
    key: Option<string>) {
    function Gist(): Outcome {
      Outcome(status, code, ambiguous)
    }
  }

  datatype Disposal = Stop(result: RunResult) | RetryObserve | RetryAction | Reauth

  datatype HandBack = Halted(result: RunResult) | Skip | Execute

  datatype Attempted = Finished | Ended(result: RunResult) | Backoff | Again

  datatype Top = Proceed(on: Observation) | Over | Stopped(result: RunResult) | Around

  datatype Counters = Counters(recoveries: nat, transients: nat, pending: bool, approved: bool)

  datatype StepEnd = Done | Failure(result: RunResult)

  datatype Audit = Audit(capabilityId: string, key: string)

  // ----- What the environment answers next -----

  function Seen(tape: seq<Answer>): Awaited<Observation> {
    if tape != [] && tape[0].Shows? then Got(tape[0].seen) else Threw
  }

  function Yielded(tape: seq<Answer>): Awaited<ActResult> {
    if tape != [] && tape[0].Does? then Got(tape[0].result) else Threw
  }

  function Decided(tape: seq<Answer>): Awaited<Decision> {
    if tape != [] && tape[0].Decides? then Got(tape[0].decision) else Threw
  }

  function Permitted(tape: seq<Answer>): Awaited<bool> {
    if tape != [] && tape[0].Permits? then Got(tape[0].allowed) else Threw
  }

  /** What the gates hear; a limiter that throws has had enough. */
  function Asked(tape: seq<Answer>): Admission {
    if tape != [] && tape[0].Admits? then tape[0].admission else Limited
  }

  /** The word the control plane hands on. */
  function Said(tape: seq<Answer>): Awaited<Decision> {
    if Decided(tape).Got? then Got(NormalizeDecision(Decided(tape).value)) else Threw
  }

  // ----- What a call may change for the observer -----

  /** The same runs are on, at the same place, and no call is forgotten. */
  ghost predicate Beside(w: Watch, v: Watch) {
    v.active == w.active && v.levels == w.levels && v.own == w.own && v.login == w.login && w.calls <= v.calls
  }

  /** The changes a handled screen may make to what the observer knows. */
  ghost predicate Aside(w: Watch, v: Watch) {
    && v == w.(calls := v.calls, broken := v.broken, entry := v.entry, called := v.called, extracted := v.extracted,
               signing := v.signing, recovered := v.recovered)
    && (w.broken ==> v.broken)
    && w.calls <= v.calls
    && (w.entry.Some? ==> v.entry.Some?)
  }

  /** The loop record behind one more act, sent back to the top. */
  ghost function AfterAttempt(l: Loop, m: Loop, uncharged: bool): Loop {
    l.(top := None, pending := false, hand := None, ruling := None, acts := l.acts + 1, last := m.last,
       retried := l.retried + (if uncharged then 1 else 0))
  }

  /** The observer's counts agree with the loop's own, and the budget has held so far. */
  ghost predicate Tally(l: Loop, recoveries: nat, transients: nat, pending: bool) {
    && l.recoveries == recoveries <= l.step.retryBudget
    && l.transients == transients <= l.step.retryBudget
    && l.pending == pending
    && l.acts <= l.transients + l.retried
    && l.hand.None? && l.last.None?
  }

  ghost predicate AtTop(l: Loop, recoveries: nat, transients: nat, pending: bool) {
    && Tally(l, recoveries, transients, pending)
    && l.iters == l.recoveries + l.transients + l.resumed + l.retried
  }

  /** What becomes of a screen that wants a person. */
  ghost function Summons(state: ExceptionalState, wired: bool, said: Awaited<Decision>, stepId: string, bag: Bag): Disposal {
    if !wired then Stop(RunResult(PersonNeeded, Declared(state.code), stepId, bag, false, None))
    else if state.code != SESSION_EXPIRED || said.Threw? then
      Stop(RunResult(Escalation, Declared(state.code), stepId, bag, false, None))
    else if said.value.action == Abort then
      Stop(RunResult(Escalation, HumanAbort(said.value.code.Or(Aborted)), stepId, bag, false, None))
    else Reauth
  }

  ghost function TriedAs(action: Action, r: Awaited<ActResult>): Option<Attempt> {
    if r.Got? then Some(Attempt(action, r.value)) else None
  }

  /** What a step may do to the outputs: write its own name, with a value of the declared type. */
  ghost predicate WritesOwnOutput(cap: Capability, step: Step, bag: Bag, out: Bag) {
    || out == bag
    || (&& step.outputName.Some?
        && step.outputName.value in out
        && out == bag[step.outputName.value := out[step.outputName.value]]
        && var def := OutputNamed(cap.outputs, step.outputName.value);
           def.Some? ==> HasType(def.value, out[step.outputName.value]))
  }

  lemma SettlingKeeps(w: Watch, outputs: Bag)
    ensures var v := Trace.Settle(w, outputs); v.entry == w.entry && v.restored == w.restored
  {
  }

  lemma SettledOne(below: seq<Level>, top: Level, outputs: Bag)
    ensures (below + [top])[..|below|] == below
    ensures top.bag + map[] == top.bag
  {
  }

  /** What a step in progress explains. */
  lemma StepExplains(w: Watch, f: Frame)
    requires InStep(w, f)
    ensures var l, risky := w.loop.value, w.loop.value.step.risk.Risky?;
            && (l.recoveries > l.step.retryBudget ==> Explains(w, f, Outcome(PersonNeeded, RecoverableExhausted, false)))
            && (l.transients > l.step.retryBudget ==> Explains(w, f, Outcome(Failed, TransientExhausted, false)))
            && (!f.o.control && !ActAllowed(f, l.step, l.armed) ==> Explains(w, f, Outcome(Escalation, RiskyActionBlocked, false)))
            && (l.ruling == Some(false) || (l.last.Some? && l.last.value.result.policyBlocked) ==>
                  Explains(w, f, Outcome(Failed, PolicyViolation, false)))
            && (f.o.dryRun && risky ==> Explains(w, f, Outcome(DryRunReport, NoCode, false)))
            && (CameBack(w, true) && !OutputReads(f.cap, l.step, l.last.value.result) ==>
                  Explains(w, f, Outcome(Failed, OutputInvalid, false)))
            && (CameBack(w, false) && !l.last.value.result.retryable && Unexcused(w, f) && Missed(w, f) ==>
                  Explains(w, f, Outcome(Failed, LocatorMiss, false)))
            && (CheckMissed(w, f) && Unexcused(w, f) ==>
                  Explains(w, f, Outcome(Failed, if risky then CheckpointAfterAct else CheckpointFailed, risky)))
  {
    hide Holds, MatchException, OutputReads;
  }

  lemma ScreenExplains(w: Watch, f: Frame, state: ExceptionalState, seen: Observation, status: Status)
    requires w.own == Some(f) && w.seen == Some(seen) && Recognised(w, f, state, seen) && EndsRun(w, state, f.o.control, status)
    ensures Explains(w, f, Outcome(status, Declared(state.code), false))
  {
    hide MatchException, MatchMiss;
    assert state in f.cap.exceptionalStates;
  }

  lemma FoundIsRecognised(w: Watch, f: Frame, state: ExceptionalState, seen: Observation)
    requires MatchException(f.cap.exceptionalStates, seen) == Some(state) && (CameBack(w, false) ==> NoMiss(f, seen))
    ensures Recognised(w, f, state, seen)
  {
  }

  /** Reading outputs leaves the success screen what it is. */
  lemma SuccessStays(w: Watch, v: Watch, f: Frame)
    requires v == w.(calls := v.calls, broken := v.broken, extracted := v.extracted, bag := v.bag)
    ensures ShowsSuccess(w, f) == ShowsSuccess(v, f)
  {
    hide Holds, NoAnti, MatchException;
  }

  lemma AbortExplains(w: Watch, f: Frame, reason: AbortCode)
    requires AbortedWith(w, f, reason)
    ensures Explains(w, f, Outcome(Escalation, HumanAbort(reason), false))
  {
  }

  lemma BreakExplains(w: Watch, f: Frame)
    requires w.broken
    ensures Explains(w, f, Outcome(Failed, Uncaught, false))
  {
  }

  lemma LostEntryExplains(w: Watch, f: Frame, step: Step, after: Observation)
    requires Resolved(w, f, step, after, NotDone) && w.entry.Some? && !Holds(w.entry.value, after, f.eyes)
    ensures Explains(w, f, Outcome(PersonNeeded, PreconditionLost, false))
  {
    hide MatchException;
  }

  /** What the last look, with all steps done, explains. */
  lemma FinalLookExplains(w: Watch, f: Frame, final: Observation)
    requires AllStepsDone(w, f) && w.seen == Some(final)
    ensures !NoAnti(f.cap, [], final, f.eyes) ==> Explains(w, f, Outcome(Failed, AntiCheckpoint, false))
    ensures var passable := NoAnti(f.cap, [], final, f.eyes) && Passable(w, MatchException(f.cap.exceptionalStates, final));
            passable && !Holds(f.cap.success, final, f.eyes) ==> Explains(w, f, Outcome(Failed, CheckpointFailed, false))
    ensures ShowsSuccess(w, f) && Unreadable(w, f) ==> Explains(w, f, Outcome(Failed, OutputInvalid, false))
  {
    hide Holds, Coerce, Passable, NoAnti;
  }

  lemma WrongScreenExplains(w: Watch, f: Frame, landing: Observation)
    requires w.own.None? && w.seen == Some(landing) && !Holds(f.cap.entry, landing, f.eyes) && !StartsWithNavigate(f.cap)
    ensures Explains(w, f, Outcome(Failed, PreconditionFailed, false))
  {
  }

  lemma MayActInALoop(w: Watch, f: Frame, step: Step, action: Action, on: Observation)
    requires MayAct(w, f, step, action, on)
    ensures w.loop.Some?
  {
  }

  /** What the observer makes of a ruling and of an act. */
  lemma RulingsAndActs(w: Watch, f: Frame, step: Step, action: Action, on: Observation, verdict: Awaited<bool>,
      result: Awaited<ActResult>)
    requires w.loop.Some?
    ensures Legal(w, Ruled(f, step, action, on, verdict)) == Ready(w, f, step, action, on)
    ensures Legal(w, StepActed(f, step, action, on, result)) == MayAct(w, f, step, action, on)
    ensures Advance(w, Ruled(f, step, action, on, verdict))
            == w.(broken := w.broken || verdict.Threw?,
                  loop := Some(w.loop.value.(ruling := if verdict.Got? then Some(verdict.value) else None)))
    ensures Advance(w, StepActed(f, step, action, on, result))
            == w.(seen := None, called := None, calls := w.calls + 1, broken := w.broken || result.Threw?,
                  loop := Some(AfterAttempt(w.loop.value, w.loop.value.(last := TriedAs(action, result)), false)))
  {
    hide Ready, MayAct;
  }

  /** A name met for the first time is its own first declaration. */
  lemma {:induction false} FirstNamed(outputs: seq<OutputDef>, i: nat)
    requires i < |outputs| && forall k | 0 <= k < i :: outputs[k].name != outputs[i].name
    ensures OutputNamed(outputs, outputs[i].name) == Some(outputs[i])
  {
    if i > 0 {
      assert forall k | 0 <= k < i - 1 :: outputs[1..][k] == outputs[k + 1];
      FirstNamed(outputs[1..], i - 1);
    }
  }

  lemma AntiExplains(w: Watch, f: Frame, step: Step, seen: Observation, ambiguous: bool)
    requires w.own == Some(f) && w.loop.Some? && w.loop.value.step == step && w.seen == Some(seen)
    requires !NoAnti(f.cap, step.antiCheckpoints, seen, f.eyes)
    requires ambiguous ==> step.risk.Risky? && CameBack(w, true)
    ensures Explains(w, f, Outcome(Failed, AntiCheckpoint, ambiguous))
  {
  }

  lemma WritesCompose(cap: Capability, step: Step, a: Bag, b: Bag, c: Bag)
    ensures WritesOwnOutput(cap, step, a, a)
    ensures WritesOwnOutput(cap, step, a, b) && WritesOwnOutput(cap, step, b, c) ==> WritesOwnOutput(cap, step, a, c)
  {
  }

  /** Output names a capability can write. */
  function Produces(cap: Capability): set<string> {
    (set s | s in cap.steps && s.outputName.Some? :: s.outputName.value) + (set d | d in cap.outputs :: d.name)
  }

  function ProducedBy(catalog: map<string, Capability>): set<string> {
    set k, name | k in catalog && name in Produces(catalog[k]) :: name
  }

  /** Declared outputs that are set and not inherited have their declared type. */
  ghost predicate TypedOutputs(cap: Capability, bag: Bag, inherited: set<string>) {
    forall d | d in cap.outputs && d.name in bag && d.name !in inherited && OutputNamed(cap.outputs, d.name) == Some(d) ::
      HasType(d, bag[d.name])
  }

  lemma WritesKeepTypes(cap: Capability, step: Step, bag: Bag, out: Bag, inherited: set<string>)
    requires step in cap.steps && WritesOwnOutput(cap, step, bag, out) && TypedOutputs(cap, bag, inherited)
    ensures TypedOutputs(cap, out, inherited) && out.Keys <= bag.Keys + Produces(cap)
  {
    hide HasType;
  }

  /** Filling in a declared output, by its first declaration. */
  lemma FillingKeepsTypes(cap: Capability, bag: Bag, inherited: set<string>, i: nat, v: OutputValue)
    requires TypedOutputs(cap, bag, inherited) && i < |cap.outputs| && HasType(cap.outputs[i], v)
    requires OutputNamed(cap.outputs, cap.outputs[i].name) == Some(cap.outputs[i])
    ensures TypedOutputs(cap, bag[cap.outputs[i].name := v], inherited) && cap.outputs[i].name in Produces(cap)
  {
    hide HasType;
    assert cap.outputs[i] in cap.outputs;
  }

  /** Every capability of that id, here or in the catalog, has side effects. */
  ghost predicate Effectful(id: string, cap: Capability, catalog: map<string, Capability>) {
    && (cap.id == id ==> HasEffects(cap))
    && forall k | k in catalog :: catalog[k].id == id ==> HasEffects(catalog[k])
  }

  /** What a run may do to the success rows of a ledger; `seen` are the capabilities it runs beneath. */
  ghost predicate LedgerLaw(before: seq<LedgerEntry>, after: seq<LedgerEntry>, seen: seq<string>, cap: Capability,
      o: RunOptions) {
    forall id, key ::
      && Wins(before, id, key) <= Wins(after, id, key)
      && (id in seen || !o.ledger ==> Wins(after, id, key) == Wins(before, id, key))
      && (!o.dryRun && Effectful(id, cap, o.catalog) && Wins(before, id, key) <= 1 ==> Wins(after, id, key) <= 1)
  }

  lemma LawsCompose(a: seq<LedgerEntry>, b: seq<LedgerEntry>, c: seq<LedgerEntry>, seen: seq<string>,
      cap: Capability, o: RunOptions)
    ensures SameWins(a, b) ==> LedgerLaw(a, b, seen, cap, o)
    ensures LedgerLaw(a, b, seen, cap, o) && LedgerLaw(b, c, seen, cap, o) ==> LedgerLaw(a, c, seen, cap, o)
  {
    hide Wins, Effectful;
  }

  /** The run may not repeat: the ledger has a success row for it. */
  ghost predicate Repeats(cap: Capability, o: RunOptions, rows: seq<LedgerEntry>) {
    HasEffects(cap) && o.ledger && !o.dryRun && Wins(rows, cap.id, KeyFor(cap, o.inputs)) > 0
  }

  /** The first gate behind the inputs that turns the run away; the kill switch and the limiter come first. */
  ghost function Gate(cap: Capability, o: RunOptions, rows: seq<LedgerEntry>, tape: seq<Answer>): Option<Code> {
    if Asked(tape) == Killed then Some(KillSwitch)
    else if Asked(tape) == Limited then Some(RateLimit)
    else if !TwoPersonApproved(cap) then Some(ApprovalRequired)
    else if !SessionFits(cap, o.session) then Some(PreconditionFailed)
    else if Repeats(cap, o, rows) then Some(IdempotencyConflict)
    else if cap.id in o.seen then Some(ComposeCycle)
    else None
  }

  /** What every run checks before its first surface call. */
  ghost predicate Admissible(cap: Capability, o: RunOptions, rows: seq<LedgerEntry>, tape: seq<Answer>) {
    InputsAccepted(cap.parameters, o.inputs) && Gate(cap, o, rows, tape).None?
  }

  /** The first gate that had to turned the run away, and its result names the gate. */
  ghost predicate Refused(cap: Capability, o: RunOptions, rows: seq<LedgerEntry>, tape: seq<Answer>, r: RunResult) {
    && Barred(cap, o, r.Gist())
    && (if InputsAccepted(cap.parameters, o.inputs) then Gate(cap, o, rows, tape) == Some(r.code) else r.code == InvalidInput)
    && (r.code.IdempotencyConflict? ==> r.key == Some(KeyFor(cap, o.inputs)))
  }

  /** A refusal behind the inputs records what the kill switch and the limiter said. */
  lemma RefusalIsAnswered(cap: Capability, o: RunOptions, rows: seq<LedgerEntry>, was: seq<Answer>, r: RunResult)
    requires Refused(cap, o, rows, was, r) && r.code != InvalidInput
    ensures Answered(TurnedAway(cap, o, r.Gist()), was)
  {
    hide Barred, TwoPersonApproved, SessionFits, Repeats, KeyFor;
  }

  /** What each gate turns away with bars the run. */
  lemma GatesBar(cap: Capability, o: RunOptions)
    ensures Barred(cap, o, Outcome(Failed, KillSwitch, false)) && Barred(cap, o, Outcome(Failed, RateLimit, false))
    ensures !TwoPersonApproved(cap) ==> Barred(cap, o, Outcome(Failed, ApprovalRequired, false))
    ensures !SessionFits(cap, o.session) ==> Barred(cap, o, Outcome(Failed, PreconditionFailed, false))
    ensures HasEffects(cap) && o.ledger && !o.dryRun ==> Barred(cap, o, Outcome(Failed, IdempotencyConflict, false))
    ensures cap.id in o.seen ==> Barred(cap, o, Outcome(Failed, ComposeCycle, false))
  {
  }

  /** What a capability's children may hand it beyond its own bag. */
  function Inherits(cap: Capability, o: RunOptions): set<string> {
    o.bag.Keys + (if cap.uses == [] then {} else ProducedBy(o.catalog))
  }

  /** Catalog ids not yet in use, beneath this run. */
  function Headroom(cap: Capability, o: RunOptions): nat {
    if cap.id in o.seen then 0 else 1 + |KnownIds(o.catalog) - (set id | id in o.seen) - {cap.id}|
  }

  lemma GivenToTheChild(cap: Capability, o: RunOptions, i: nat, bag: Bag)
    requires i < |cap.uses| && cap.uses[i].capabilityId in o.catalog
    ensures var use := cap.uses[i];
            var given := o.(inputs := PassedInputs(use, o.inputs), bag := bag, nested := true, seen := o.seen + [cap.id]);
            && ChildOf(Level(cap, o, i, bag), o.catalog[use.capabilityId], given)
            && Narrowed(given.inputs, o.inputs)
  {
  }

  lemma ChildHasLessHeadroom(cap: Capability, o: RunOptions, child: Capability, co: RunOptions)
    requires cap.id !in o.seen && co.catalog == o.catalog && co.seen == o.seen + [cap.id]
    requires child.id in KnownIds(o.catalog)
    ensures Headroom(child, co) < Headroom(cap, o)
  {
    if child.id !in co.seen {
      var free := KnownIds(o.catalog) - (set id | id in o.seen) - {cap.id};
      assert KnownIds(co.catalog) - (set id | id in co.seen) - {child.id} == free - {child.id};
      assert child.id in free;
    }
  }

  lemma CatalogIdsAreKnown(catalog: map<string, Capability>, k: string)
    requires k in catalog
    ensures catalog[k].id in KnownIds(catalog)
  {
  }

  lemma ChildNamesAreInherited(cap: Capability, o: RunOptions, child: Capability, co: RunOptions)
    requires co.catalog == o.catalog && exists k :: k in o.catalog && o.catalog[k] == child
    ensures Inherits(child, co) + Produces(child) <= co.bag.Keys + ProducedBy(o.catalog)
  {
    hide Produces;
    var k :| k in o.catalog && o.catalog[k] == child;
    forall name | name in Produces(child)
      ensures name in ProducedBy(o.catalog)
    {
      assert k in o.catalog && name in Produces(o.catalog[k]);
    }
  }

  /** What the children of a run may do to the ledger: obey its law and leave its own rows alone. */
  ghost predicate ChildLaw(before: seq<LedgerEntry>, after: seq<LedgerEntry>, cap: Capability, o: RunOptions) {
    LedgerLaw(before, after, o.seen, cap, o) && forall key :: Wins(after, cap.id, key) == Wins(before, cap.id, key)
  }

  lemma ChildLawsCompose(a: seq<LedgerEntry>, b: seq<LedgerEntry>, c: seq<LedgerEntry>, cap: Capability, o: RunOptions)
    ensures ChildLaw(a, a, cap, o)
    ensures SameWins(a, b) ==> ChildLaw(a, b, cap, o)
    ensures ChildLaw(a, b, cap, o) && ChildLaw(b, c, cap, o) ==> ChildLaw(a, c, cap, o)
  {
    hide Wins, Effectful;
  }

  /** A child obeys its parent's law, and leaves the parent's own rows alone. */
  lemma ChildKeepsTheLaw(before: seq<LedgerEntry>, after: seq<LedgerEntry>, cap: Capability, o: RunOptions,
      child: Capability, co: RunOptions)
    requires LedgerLaw(before, after, co.seen, child, co)
    requires co.seen == o.seen + [cap.id] && co.ledger == o.ledger && co.dryRun == o.dryRun && co.catalog == o.catalog
    requires exists k :: k in o.catalog && o.catalog[k] == child
    ensures ChildLaw(before, after, cap, o)
  {
    hide Wins;
    forall id | Effectful(id, cap, o.catalog)
      ensures Effectful(id, child, co.catalog)
    {
    }
  }

  /** A run that was not a repeat adds its own row to what its children left. */
  lemma OwnRowKeepsTheLaw(before: seq<LedgerEntry>, middle: seq<LedgerEntry>, after: seq<LedgerEntry>,
      cap: Capability, o: RunOptions)
    requires ChildLaw(before, middle, cap, o) && cap.id !in o.seen && o.ledger
    requires !Repeats(cap, o, before)
    requires OneMoreWin(middle, after, cap.id, KeyFor(cap, o.inputs))
    ensures LedgerLaw(before, after, o.seen, cap, o)
    ensures Wins(after, cap.id, KeyFor(cap, o.inputs)) > 0
  {
    hide Wins, KeyFor;
  }

  lemma ChildLawIsALaw(before: seq<LedgerEntry>, after: seq<LedgerEntry>, cap: Capability, o: RunOptions)
    requires ChildLaw(before, after, cap, o)
    ensures LedgerLaw(before, after, o.seen, cap, o)
  {
    hide LedgerLaw;
  }

  lemma ChildrenKeepTheLaw(before: seq<LedgerEntry>, middle: seq<LedgerEntry>, after: seq<LedgerEntry>,
      cap: Capability, o: RunOptions)
    requires ChildLaw(before, middle, cap, o) && SameWins(middle, after)
    ensures LedgerLaw(before, after, o.seen, cap, o)
  {
    hide Wins, LedgerLaw;
    LawsCompose(middle, after, after, o.seen, cap, o);
    LawsCompose(before, middle, after, o.seen, cap, o);
  }

  /** One more success row, for this pair alone. */
  ghost predicate OneMoreWin(before: seq<LedgerEntry>, after: seq<LedgerEntry>, id: string, key: string) {
    forall i, k :: Wins(after, i, k) == Wins(before, i, k) + (if i == id && k == key then 1 else 0)
  }

  // ----- Many runs on one ledger -----

  predicate IsSuccess(r: Awaited<RunResult>) {
    r.Got? && r.value.status == Success
  }

  datatype Job = Job(cap: Capability, o: RunOptions) {
    /** What the ledger identifies a run by. */
    function Deed(): (string, string) {
      (cap.id, KeyFor(cap, o.inputs))
    }
  }

  /** A pair whose capability has side effects in every job's eyes has at most one success row. */
  ghost predicate AtMostOnce(jobs: seq<Job>, before: seq<LedgerEntry>, after: seq<LedgerEntry>) {
    forall id, key | (forall j | j in jobs :: Effectful(id, j.cap, j.o.catalog)) && Wins(before, id, key) <= 1 ::
      Wins(after, id, key) <= 1
  }

  /** Every success so far has its row. */
  ghost predicate Recorded(jobs: seq<Job>, results: seq<Awaited<RunResult>>, rows: seq<LedgerEntry>)
    requires |results| <= |jobs|
  {
    forall i | 0 <= i < |results| && IsSuccess(results[i]) :: Wins(rows, jobs[i].cap.id, jobs[i].Deed().1) > 0
  }

  /** After a success the same deed neither succeeds again nor leaves an event; `logs[n]` is the trace before job `n`. */
  ghost predicate NoRepeats(jobs: seq<Job>, results: seq<Awaited<RunResult>>, logs: seq<seq<Event>>)
    requires |results| <= |jobs| && |logs| == |results| + 1
  {
    forall i, k | 0 <= i < k < |results| && IsSuccess(results[i]) && jobs[k].Deed() == jobs[i].Deed() && HasEffects(jobs[k].cap) ::
      !IsSuccess(results[k]) && logs[k + 1] == logs[k]
  }

  lemma StartEmpty(jobs: seq<Job>, rows: seq<LedgerEntry>, logs: seq<seq<Event>>)
    requires |logs| == 1
    ensures AtMostOnce(jobs, rows, rows) && Recorded(jobs, [], rows) && NoRepeats(jobs, [], logs)
  {
  }

  /** What one more job does to the ledger and the log. */
  ghost predicate JobLaw(job: Job, before: seq<LedgerEntry>, after: seq<LedgerEntry>, r: Awaited<RunResult>, silent: bool) {
    && (forall id, key :: Wins(before, id, key) <= Wins(after, id, key))
    && (forall id, key | Effectful(id, job.cap, job.o.catalog) && Wins(before, id, key) <= 1 :: Wins(after, id, key) <= 1)
    && (HasEffects(job.cap) && Wins(before, job.cap.id, job.Deed().1) > 0 ==> !IsSuccess(r) && silent)
    && (IsSuccess(r) ==> Wins(after, job.cap.id, job.Deed().1) > 0)
  }

  lemma OneMoreJob(
    jobs: seq<Job>, results: seq<Awaited<RunResult>>, logs: seq<seq<Event>>,
    start: seq<LedgerEntry>, before: seq<LedgerEntry>, after: seq<LedgerEntry>, r: Awaited<RunResult>, log: seq<Event>)
    requires |results| < |jobs| && |logs| == |results| + 1
    requires AtMostOnce(jobs, start, before) && Recorded(jobs, results, before) && NoRepeats(jobs, results, logs)
    requires JobLaw(jobs[|results|], before, after, r, log == logs[|results|])
    ensures AtMostOnce(jobs, start, after) && Recorded(jobs, results + [r], after) && NoRepeats(jobs, results + [r], logs + [log])
  {
    hide Wins, Effectful, KeyFor, HasEffects;
    var n := |results|;
    assert jobs[n] in jobs;
    var results', logs' := results + [r], logs + [log];
    assert AtMostOnce(jobs, start, after);
    forall i | 0 <= i < |results'| && IsSuccess(results'[i])
      ensures Wins(after, jobs[i].cap.id, jobs[i].Deed().1) > 0
    {
      if i < n {
        assert IsSuccess(results[i]);
      }
    }
    forall i, k | 0 <= i < k < |results'| && IsSuccess(results'[i]) && jobs[k].Deed() == jobs[i].Deed() && HasEffects(jobs[k].cap)
      ensures !IsSuccess(results'[k]) && logs'[k + 1] == logs'[k]
    {
      assert IsSuccess(results[i]);
      if k < n {
        assert results'[k] == results[k] && logs'[k] == logs[k] && logs'[k + 1] == logs[k + 1];
      }
    }
  }

  class ReplayEngine {
    ghost const script: seq<Answer>
    var tape: seq<Answer>
    ghost var trace: seq<Event>
    ghost var mon: Watch

    var inputs: map<string, string>
    var reauthed: bool
    var credential: Option<Login>
    var control: bool
    var audit: Option<Audit>
    var ledgerOn: bool
    var rows: seq<LedgerEntry>
    var lastEntry: Option<Checkpoint>

    ghost predicate Valid()
      reads this
    {
      && Witnessed(script, tape, trace, mon)
      && (reauthed ==> mon.restored)
      && (mon.entry.Some? ==> lastEntry == mon.entry)
    }

    constructor (answers: seq<Answer>, entries: seq<LedgerEntry>)
      ensures Valid() && script == tape == answers && rows == entries && trace == [] && mon == START
    {
      script, tape, trace, mon := answers, answers, [], START;
      inputs, reauthed, credential, control := map[], false, None, false;
      audit, ledgerOn, rows, lastEntry := None, false, entries, None;
    }

    /** An event, with the answer just given if it is a call; `was` is the tape before that. */
    ghost method Record(e: Event, was: seq<Answer>)
      requires Witnessed(script, tape, trace, mon) && Legal(mon, e)
      requires IsCall(e) ==> Witnessed(script, was, trace, mon) && tape == Rest(was) && Answered(e, was)
      requires reauthed ==> Advance(mon, e).restored
      requires Advance(mon, e).entry.Some? ==> lastEntry == Advance(mon, e).entry
      modifies this`trace, this`mon
      ensures Valid() && mon == Advance(old(mon), e) && trace == old(trace) + [e]
    {
      hide Witnessed, Legal, Advance, IsCall, Answered;
      Recording(script, was, tape, trace, mon, e);
      trace, mon := trace + [e], Advance(mon, e);
    }

    ghost method Emit(e: Event)
      requires Valid() && Legal(mon, e) && !IsCall(e)
      requires Advance(mon, e).entry == mon.entry && (reauthed ==> Advance(mon, e).restored)
      modifies this`trace, this`mon
      ensures Valid() && mon == Advance(old(mon), e) && trace == old(trace) + [e]
    {
      hide Legal, Advance, Witnessed, IsCall;
      Record(e, tape);
    }

    // ----- The surface and the other oracles -----

    method Pop() returns (a: Option<Answer>)
      requires Valid()
      modifies this`tape
      ensures Valid() && Witnessed(script, old(tape), trace, mon)
      ensures tape == Rest(old(tape)) && a == if old(tape) == [] then None else Some(old(tape)[0])
    {
      hide Witnessed;
      Unheard(script, tape, trace, mon);
      if tape == [] {
        return None;
      }
      a := Some(tape[0]);
      tape := tape[1..];
    }

    method Observe() returns (r: Awaited<Observation>)
      requires Valid()
      modifies this`tape, this`trace, this`mon
      ensures Valid() && r == Seen(old(tape)) && tape == Rest(old(tape))
      ensures mon == if r.Got? then AfterLook(old(mon), r.value) else old(mon).(calls := old(mon).calls + 1, broken := true)
    {
      hide Witnessed;
      ghost var was := tape;
      var a := Pop();
      if a.Some? && a.value.Shows? {
        Record(Looked(a.value.seen), was);
        return Got(a.value.seen);
      }
      Record(Blinded, was);
      return Threw;
    }

    /** An act that is neither a recorded step's own action nor the reading of an output. */
    method ActAside(ghost errand: Errand, action: Action) returns (r: Awaited<ActResult>)
      requires Valid() && MayTouch(mon, errand, action)
      modifies this`tape, this`trace, this`mon
      ensures Valid() && r == Yielded(old(tape)) && tape == Rest(old(tape)) && mon == AfterTouch(old(mon), errand, r)
    {
      hide Witnessed, MayTouch;
      ghost var was := tape;
      var a := Pop();
      r := if a.Some? && a.value.Does? then Got(a.value.result) else Threw;
      Record(Touched(errand, action, r), was);
    }

    /** `policy.assertAction` */
    method Rule(f: Frame, step: Step, action: Action, on: Observation) returns (r: Awaited<bool>)
      requires Valid() && Ready(mon, f, step, action, on)
      modifies this`tape, this`trace, this`mon
      ensures Valid() && r == Permitted(old(tape)) && tape == Rest(old(tape)) && old(mon.loop.Some?)
      ensures mon == old(mon).(broken := old(mon).broken || r.Threw?, loop := mon.loop)
      ensures mon.loop == Some(old(mon.loop).value.(ruling := if r.Got? then Some(r.value) else None))
      ensures r == Got(true) ==> MayAct(mon, f, step, action, on)
    {
      hide Witnessed, NoAnti, MatchException, Issued, ActAllowed, Legal, Advance;
      ghost var was := tape;
      var a := Pop();
      r := if a.Some? && a.value.Permits? then Got(a.value.allowed) else Threw;
      RulingsAndActs(mon, f, step, action, on, r, Threw);
      Record(Ruled(f, step, action, on, r), was);
    }

    method ActStep(f: Frame, step: Step, action: Action, on: Observation) returns (r: Awaited<ActResult>)
      requires InLoop(f, step) && MayAct(mon, f, step, action, on)
      modifies this`tape, this`trace, this`mon
      ensures Valid() && r == Yielded(old(tape)) && tape == Rest(old(tape)) && old(mon.loop.Some?)
      ensures mon == old(mon).(seen := None, called := None, calls := old(mon).calls + 1, loop := mon.loop,
                               broken := old(mon).broken || r.Threw?)
      ensures mon.loop == Some(AfterAttempt(old(mon.loop).value, old(mon.loop).value.(last := TriedAs(action, r)), false))
    {
      hide Witnessed, MayAct, Legal, Advance;
      ghost var was := tape;
      var a := Pop();
      r := if a.Some? && a.value.Does? then Got(a.value.result) else Threw;
      MayActInALoop(mon, f, step, action, on);
      RulingsAndActs(mon, f, step, action, on, Threw, r);
      Record(StepActed(f, step, action, on, r), was);
    }

    /** `escalateToHuman`: the plane's newest intervention remembers the page it paused on. */
    method EscalateToHuman(ghost reason: Reason, seen: Observation) returns (r: Awaited<Decision>)
      requires Valid() && mon.seen == Some(seen) && MayEscalate(mon, reason, PageOf(seen))
      modifies this`tape, this`trace, this`mon, this`lastEntry
      ensures Valid() && r == Said(old(tape)) && tape == Rest(old(tape))
      ensures mon == AfterEscalation(old(mon), reason, PageOf(seen), Decided(old(tape)))
      ensures lastEntry == mon.entry == Some(PageOf(seen))
    {
      hide Witnessed, MayEscalate;
      ghost var was := tape;
      var a := Pop();
      lastEntry := Some(Checkpoint(UrlIncludes, seen.path.Or(seen.url)));
      Record(Escalated(reason, PageOf(seen), Decided(was)), was);
      if a.None? || !a.value.Decides? {
        return Threw;
      }
      return Got(NormalizeDecision(a.value.decision));
    }

    predicate SignsIn(seen: Observation, nested: bool)
      reads this`credential
    {
      credential.Some? && !nested && seen.login
    }

    /** The engine signs in as the observer expects, for the run on top. */
    ghost predicate Equipped(o: RunOptions)
      reads this`credential, this`mon
    {
      credential == mon.login && mon.levels != [] && Newest(mon).o == o
    }

    method MaybeSignIn(seen: Observation, nested: bool) returns (r: Awaited<Observation>)
      requires Valid() && mon.seen == Some(seen) && mon.called.None? && (mon.loop.Some? ==> mon.loop.value.hand.None?)
      requires credential == mon.login && mon.levels != [] && Newest(mon).o.nested == nested
      requires mon.signing == 0 && mon.recovered.None?
      modifies this`tape, this`trace, this`mon
      ensures Valid() && Aside(old(mon), mon.(seen := old(mon).seen)) && mon.called.None? && mon.entry == old(mon).entry
      ensures |tape| <= |old(tape)| && mon.recovered.None?
      ensures if r.Got? then mon.seen == Some(r.value) else mon.broken
      ensures if SignsIn(seen, nested) then mon.calls > old(mon).calls
              else r == Got(seen) && mon == old(mon) && tape == old(tape)
    {
      hide Witnessed, Yielded;
      if credential.None? || nested || !seen.login {
        return Got(seen);
      }
      var typed :- ActToSignIn(credential.value, 0);
      if !typed.ok {
        return Got(seen);
      }
      r := FinishSigningIn(credential.value);
    }

    /** Behind the user name: the password, the button and a look at what came of it. */
    method FinishSigningIn(login: Login) returns (r: Awaited<Observation>)
      requires Valid() && mon.login == Some(login) && mon.signing == 1 && mon.seen.Some? && mon.seen.value.login
      requires mon.levels != [] && !Newest(mon).o.nested && mon.recovered.None?
      requires mon.called.None? && (mon.loop.Some? ==> mon.loop.value.hand.None?)
      modifies this`tape, this`trace, this`mon
      ensures Valid() && Aside(old(mon), mon.(seen := old(mon).seen)) && mon.called.None? && mon.entry == old(mon).entry
      ensures |tape| <= |old(tape)| && mon.recovered.None? && mon.calls > old(mon).calls
      ensures if r.Got? then mon.seen == Some(r.value) else mon.broken
    {
      hide Witnessed, Yielded;
      var _ :- ActToSignIn(login, 1);
      var _ :- ActToSignIn(login, 2);
      r := Observe();
    }

    method ActToSignIn(login: Login, n: nat) returns (r: Awaited<ActResult>)
      requires Valid() && mon.login == Some(login) && mon.signing == n < 3 && mon.seen.Some? && mon.seen.value.login
      requires mon.levels != [] && !Newest(mon).o.nested
      modifies this`tape, this`trace, this`mon
      ensures Valid() && r == Yielded(old(tape)) && tape == Rest(old(tape))
      ensures mon == old(mon).(calls := old(mon).calls + 1, broken := old(mon).broken || r.Threw?, signing := mon.signing)
      ensures mon.signing == if n == 0 && (r.Threw? || !r.value.ok) then 3 else n + 1
    {
      hide Witnessed, SignInAct, Yielded;
      r := ActAside(SigningIn, SignInAct(login, n));
    }

    // ----- Ending a run -----

    method Complete(status: Status, code: Code, stepId: string, bag: Bag, ambiguous: bool, key: Option<string>)
      returns (r: RunResult)
      requires Valid()
      modifies this`rows
      ensures Valid() && r == RunResult(status, code, stepId, bag, ambiguous, key)
      ensures rows == if ledgerOn then old(rows) + [Entry(r)] else old(rows)
      ensures status != Success ==> SameWins(old(rows), rows)
    {
      r := RunResult(status, code, stepId, bag, ambiguous, key);
      if ledgerOn {
        ghost var before := rows;
        rows := rows + [Entry(r)];
        forall id, k
          ensures status != Success ==> Wins(before, id, k) == Wins(rows, id, k)
        {
          WinsOfAppend(before, Entry(r), id, k);
        }
      }
    }

    function Entry(r: RunResult): LedgerEntry
      reads this`audit
    {
      if audit.Some? then LedgerEntry(audit.value.capabilityId, audit.value.key, r.status)
      else LedgerEntry("unknown", r.key.Or(""), r.status)
    }

    method Fail(code: Code, stepId: string, bag: Bag) returns (r: RunResult)
      requires Valid()
      modifies this`rows
      ensures Valid() && r == RunResult(Failed, code, stepId, bag, false, None) && SameWins(old(rows), rows)
    {
      r := Complete(Failed, code, stepId, bag, false, None);
    }

    // ----- Exceptional states -----

    /** The run stops here for a reason the trace bears out. */
    ghost predicate Justly(f: Frame, result: RunResult)
      reads this
    {
      result.status != Success && Explains(mon, f, result.Gist())
    }

    method HandleException(f: Frame, state: ExceptionalState, seen: Observation, stepId: string, bag: Bag)
      returns (r: Awaited<Disposal>)
      requires Valid() && mon.own == Some(f) && control == f.o.control && mon.seen == Some(seen) && Recognised(mon, f, state, seen)
      requires mon.recovered.None?
      modifies this`tape, this`trace, this`mon, this`rows, this`lastEntry
      ensures Valid() && Aside(old(mon), mon)
      ensures |tape| <= |old(tape)| && SameWins(old(rows), rows) && (r.Threw? ==> mon.broken)
      ensures r.Got? ==> match state.classify
        case BusinessOutcome => r.value == Stop(RunResult(BusinessAnswer, Declared(state.code), stepId, bag, false, None))
        case HardFailure => r.value == Stop(RunResult(Failed, Declared(state.code), stepId, bag, false, None))
        case Transient => r.value == RetryAction
        case Recoverable => r.value == RetryObserve
        case NeedsHuman => r.value == Summons(state, control, Said(old(tape)), stepId, bag)
      ensures r.Got? && r.value.Reauth? ==> Restored(mon, state)
      ensures r.Got? && !r.value.Stop? ==> Heeded(mon, state)
      ensures r.Got? && r.value.Stop? ==> Justly(f, r.value.result)
    {
      hide Explains, Witnessed, Recognised;
      match state.classify
      case BusinessOutcome =>
        var result := Complete(BusinessAnswer, Declared(state.code), stepId, bag, false, None);
        ScreenExplains(mon, f, state, seen, BusinessAnswer);
        return Got(Stop(result));
      case NeedsHuman =>
        r := CallAPerson(f, state, seen, stepId, bag);
      case HardFailure =>
        var result := Fail(Declared(state.code), stepId, bag);
        ScreenExplains(mon, f, state, seen, Failed);
        return Got(Stop(result));
      case Transient =>
        if state.recover.Some? && state.recover.value.WaitIt? {
          var _ :- ActAside(Recovering(state), WaitFor(state.recover.value.ms.Or(200)));
        }
        return Got(RetryAction);
      case Recoverable =>
        if state.recover.Some? {
          if state.recover.value.DismissIt? {
            var _ :- ActAside(Recovering(state), Action(Dismiss, state.recover.value.target, None, None, None, None));
          } else {
            var _ :- ActAside(Recovering(state), WaitFor(state.recover.value.ms.Or(500)));
          }
        }
        return Got(RetryObserve);
    }

    /** The `needs_human` branch: an expired session may be restored, anything else ends the run. */
    method CallAPerson(f: Frame, state: ExceptionalState, seen: Observation, stepId: string, bag: Bag)
      returns (r: Awaited<Disposal>)
      requires Valid() && mon.own == Some(f) && control == f.o.control && mon.seen == Some(seen) && Recognised(mon, f, state, seen)
      requires state.classify.NeedsHuman?
      modifies this`tape, this`trace, this`mon, this`rows, this`lastEntry
      ensures Valid() && Aside(old(mon), mon)
      ensures |tape| <= |old(tape)| && SameWins(old(rows), rows) && (r.Threw? ==> mon.broken)
      ensures r.Threw? <==> control && Said(old(tape)).Threw?
      ensures r.Got? ==> r.value == Summons(state, control, Said(old(tape)), stepId, bag)
      ensures r.Got? && r.value.Reauth? ==> Restored(mon, state)
      ensures mon.recovered == old(mon).recovered
      ensures r.Got? && r.value.Stop? ==> Justly(f, r.value.result)
    {
      hide Explains, Witnessed, MatchException, MatchMiss, NoMiss, Decided;
      if control && state.code == SESSION_EXPIRED {
        var decision :- EscalateToHuman(StrayScreen(state), seen);
        if decision.action == Abort {
          var reason := decision.code.Or(Aborted);
          AbortExplains(mon, f, reason);
          var result := Complete(Escalation, HumanAbort(reason), stepId, bag, false, None);
          return Got(Stop(result));
        }
        return Got(Reauth);
      }
      if control {
        var _ :- EscalateToHuman(StrayScreen(state), seen);
        ScreenExplains(mon, f, state, seen, Escalation);
        var result := Complete(Escalation, Declared(state.code), stepId, bag, false, None);
        return Got(Stop(result));
      }
      ScreenExplains(mon, f, state, seen, PersonNeeded);
      var result := Complete(PersonNeeded, Declared(state.code), stepId, bag, false, None);
      return Got(Stop(result));
    }

    // ----- One step -----

    /** Inside the own steps of `f`. */
    ghost predicate Based(f: Frame)
      reads this
    {
      mon.own == Some(f) && inputs == f.eyes && control == f.o.control && Equipped(f.o)
    }

    /** Inside the loop of `step`, reading checkpoints with the frame's inputs. */
    ghost predicate InLoop(f: Frame, step: Step)
      reads this
    {
      && Valid()
      && mon.loop.Some? && mon.loop.value.step == step && Based(f)
    }

    /** The step's loop is over and the run may go on with the next one. */
    ghost predicate StepOver(before: Watch)
      reads this
    {
      Valid() && mon.own == before.own && mon.active == before.active && mon.loop.None? && mon.done == before.done + 1
    }

    ghost method EndByHuman(f: Frame, step: Step, after: Observation, disposition: Disposition)
      requires InLoop(f, step) && Resolved(mon, f, step, after, disposition) && step.risk.Risky? && !f.o.dryRun
      requires disposition == CompletedByHuman || (step.checkpoint.Some? && Holds(step.checkpoint.value, after, f.eyes))
      modifies this`trace, this`mon
      ensures StepOver(old(mon)) && Beside(old(mon), mon) && mon.bag == old(mon).bag
    {
      hide Witnessed, Holds, Resolved;
      Emit(Event.Ended(f, step, ByHuman(after, disposition)));
    }

    ghost method Arm(f: Frame, step: Step, after: Observation, entry: Checkpoint)
      requires InLoop(f, step) && MayHandBack(mon, f, step, after, entry)
      modifies this`trace, this`mon
      ensures InLoop(f, step) && mon == old(mon).(loop := Some(old(mon).loop.value.(armed := true)))
    {
      hide Witnessed, MayHandBack;
      Emit(HandedBack(f, step, after, entry));
    }

    /** The look behind the hand-back decides: skip the step, execute it, or stop. */
    method Conclude(f: Frame, step: Step, disposition: Disposition, after: Observation, bag: Bag)
      returns (r: HandBack)
      requires InLoop(f, step) && step.risk.Risky? && !f.o.dryRun && mon.entry.Some?
      requires disposition != AbortStep && Resolved(mon, f, step, after, disposition)
      modifies this`trace, this`mon, this`rows
      ensures Valid() && Beside(old(mon), mon) && mon.bag == old(mon).bag && SameWins(old(rows), rows)
      ensures r.Skip? <==>
              disposition == CompletedByHuman || (step.checkpoint.Some? && Holds(step.checkpoint.value, after, f.eyes))
      ensures r.Execute? <==> !r.Skip? && Holds(old(mon).entry.value, after, f.eyes)
      ensures r.Halted? ==>
                Justly(f, r.result) && r.result == RunResult(PersonNeeded, PreconditionLost, step.id, bag, false, None)
      ensures r.Skip? ==> StepOver(old(mon))
      ensures r.Execute? ==>
                InLoop(f, step) && mon.done == old(mon).done && mon.loop == Some(old(mon.loop).value.(armed := true))
    {
      hide Holds, Explains, Witnessed, Passable, MatchException;
      var checkpointHeld := step.checkpoint.Some? && Holds(step.checkpoint.value, after, inputs);
      var entryHeld := lastEntry.Some? ==> Holds(lastEntry.value, after, inputs);
      if checkpointHeld || disposition == CompletedByHuman {
        EndByHuman(f, step, after, disposition);
        return Skip;
      }
      if !entryHeld {
        LostEntryExplains(mon, f, step, after);
        var result := Complete(PersonNeeded, PreconditionLost, step.id, bag, false, None);
        return Halted(result);
      }
      Arm(f, step, after, lastEntry.value);
      return Execute;
    }

    /** The operator has resumed with this word on the step, and the run has not looked since. */
    ghost predicate Spoken(f: Frame, step: Step, disposition: Disposition)
      reads this
    {
      && InLoop(f, step) && mon.entry.Some? && mon.loop.value.hand.Some? && mon.loop.value.last.None?
      && mon.loop.value.hand.value.word.action == Resume
      && mon.loop.value.hand.value.word.disposition == Some(disposition)
    }

    /** Where the loop is when the step is handed back undone. */
    ghost function Armed(l: Loop, word: Decision, after: Observation): Loop {
      l.(hand := Some(Hand(word, Some(after))), armed := true)
    }

    /** A declared screen behind the step stops the run, or lets it pass. */
    method HeedScreen(f: Frame, seen: Observation, stepId: string, bag: Bag) returns (r: Awaited<Option<RunResult>>)
      requires Valid() && mon.own == Some(f) && control == f.o.control && mon.seen == Some(seen)
      requires mon.recovered.None? && (CameBack(mon, false) ==> NoMiss(f, seen))
      modifies this`tape, this`trace, this`mon, this`rows, this`lastEntry
      ensures Valid() && Aside(old(mon), mon)
      ensures |tape| <= |old(tape)| && SameWins(old(rows), rows) && (r.Threw? ==> mon.broken)
      ensures r.Got? && r.value.Some? ==> Justly(f, r.value.value)
      ensures r == Got(None) ==> Passable(mon, MatchException(f.cap.exceptionalStates, seen))
    {
      hide Explains, Witnessed, MatchException, MatchMiss, Recognised, NoMiss, Restored;
      var exceptional := MatchException(f.cap.exceptionalStates, seen);
      if exceptional.Some? {
        FoundIsRecognised(mon, f, exceptional.value, seen);
        var handled :- HandleException(f, exceptional.value, seen, stepId, bag);
        if handled.Stop? {
          return Got(Some(handled.result));
        }
      }
      return Got(None);
    }

    /** The look behind a resumed escalation, and the screen it may show. */
    method LookBehind(f: Frame, step: Step, disposition: Disposition, bag: Bag)
      returns (r: Awaited<Observation>, stopped: Option<RunResult>)
      requires Spoken(f, step, disposition)
      modifies this`tape, this`trace, this`mon, this`rows, this`lastEntry
      ensures Valid() && Beside(old(mon), mon) && mon.bag == old(mon).bag
      ensures |tape| <= |old(tape)| && (r.Threw? ==> mon.broken) && SameWins(old(rows), rows)
      ensures stopped.Some? ==> r.Got? && Justly(f, stopped.value)
      ensures r.Got? ==> r == Seen(old(tape))
      ensures r.Got? && stopped.None? ==>
                && Resolved(mon, f, step, r.value, disposition) && InLoop(f, step) && mon.done == old(mon).done && mon.entry.Some?
                && mon.loop == Some(old(mon.loop).value.(hand := Some(Hand(old(mon.loop).value.hand.value.word, Some(r.value)))))
    {
      hide Explains, Witnessed, MatchException, MatchMiss, NoMiss, Passable, Holds;
      stopped := None;
      r := Observe();
      if r.Threw? {
        return;
      }
      var heeded := HeedScreen(f, r.value, step.id, bag);
      if heeded.Threw? {
        return Threw, None;
      }
      return r, heeded.value;
    }

    /** The part of `afterRiskyHandback` behind a resumed escalation. */
    method Reconcile(f: Frame, step: Step, disposition: Disposition, bag: Bag)
      returns (r: Awaited<HandBack>)
      requires Spoken(f, step, disposition) && step.risk.Risky? && !f.o.dryRun && disposition != AbortStep
      modifies this`tape, this`trace, this`mon, this`rows, this`lastEntry
      ensures Valid() && Beside(old(mon), mon) && mon.bag == old(mon).bag
      ensures |tape| <= |old(tape)| && (r.Threw? ==> mon.broken) && SameWins(old(rows), rows)
      ensures r.Got? && r.value.Halted? ==> Justly(f, r.value.result)
      ensures r.Got? && r.value.Skip? ==> StepOver(old(mon))
      ensures r.Got? && !r.value.Halted? ==> Seen(old(tape)).Got? && match r.value
        case Skip =>
          disposition == CompletedByHuman
          || (step.checkpoint.Some? && Holds(step.checkpoint.value, Seen(old(tape)).value, f.eyes))
        case Execute =>
          disposition == NotDone && (step.checkpoint.Some? ==> !Holds(step.checkpoint.value, Seen(old(tape)).value, f.eyes))
      ensures r.Got? && r.value.Execute? ==>
                && InLoop(f, step) && mon.done == old(mon).done
                && mon.loop == Some(Armed(old(mon.loop).value, old(mon.loop).value.hand.value.word, Seen(old(tape)).value))
    {
      hide Explains, Witnessed, Holds, Resolved;
      var after, stopped := LookBehind(f, step, disposition, bag);
      if after.Threw? {
        return Threw;
      }
      if stopped.Some? {
        return Got(Halted(stopped.value));
      }
      var verdict := Conclude(f, step, disposition, after.value, bag);
      r := Got(verdict);
    }

    /** `afterRiskyHandback` */
    method AfterRiskyHandback(f: Frame, step: Step, seen: Observation, bag: Bag)
      returns (r: Awaited<HandBack>)
      requires InLoop(f, step) && Clear(mon, f, step, seen) && mon.seen == Some(seen)
      requires step.risk.Risky? && !f.o.dryRun && !f.o.approveRisky
      requires !mon.loop.value.armed && mon.loop.value.hand.None? && mon.loop.value.last.None?
      modifies this`tape, this`trace, this`mon, this`rows, this`lastEntry
      ensures Valid() && Beside(old(mon), mon) && mon.bag == old(mon).bag
      ensures |tape| <= |old(tape)| && (r.Threw? ==> mon.broken) && SameWins(old(rows), rows)
      ensures !f.o.control ==> r == Got(Halted(RunResult(Escalation, RiskyActionBlocked, step.id, bag, false, None)))
      ensures f.o.control && r.Got? ==> Said(old(tape)).Got?
      ensures f.o.control && r.Got? && Said(old(tape)).value.action == Abort ==>
                r == Got(Halted(RunResult(Escalation, HumanAbort(Said(old(tape)).value.code.Or(Aborted)), step.id, bag, false, None)))
      ensures r.Got? && r.value.Halted? ==> Justly(f, r.value.result)
      ensures r.Got? && r.value.Skip? ==> StepOver(old(mon))
      ensures r.Got? && r.value.Execute? ==> Said(old(tape)).value.disposition == Some(NotDone)
      ensures r.Got? && r.value.Execute? ==>
                && InLoop(f, step) && mon.done == old(mon).done
                && mon.loop == Some(old(mon.loop).value.(hand := mon.loop.value.hand, armed := true))
    {
      hide Holds, Explains, Witnessed, MatchException, NoAnti, Decided;
      if !f.o.control {
        StepExplains(mon, f);
        var result := Complete(Escalation, RiskyActionBlocked, step.id, bag, false, None);
        return Got(Halted(result));
      }
      var decision :- EscalateToHuman(RiskyStep, seen);
      if decision.action == Abort {
        var reason := decision.code.Or(Aborted);
        AbortExplains(mon, f, reason);
        var result := Complete(Escalation, HumanAbort(reason), step.id, bag, false, None);
        return Got(Halted(result));
      }
      r := Reconcile(f, step, decision.disposition.value, bag);
    }

    // ----- One attempt at a step's action -----

    /** The step's act has just come back with `result`. */
    ghost predicate Acted(f: Frame, step: Step, action: Action, result: ActResult)
      reads this
    {
      && InLoop(f, step)
      && mon.loop.value.last == Some(Attempt(action, result))
      && mon.loop.value.top.None? && !mon.loop.value.pending && mon.loop.value.hand.None?
    }

    /** Back to the top of the loop with no budget charged. */
    ghost predicate GoesAgain(f: Frame, step: Step, before: Watch)
      reads this
    {
      && InLoop(f, step)
      && mon.done == before.done && mon.active == before.active
      && before.loop.Some? && trace != [] && trace[|trace| - 1].Retried?
      && mon.loop == Some(before.loop.value.(last := None, retried := before.loop.value.retried + 1))
    }

    method RetryUncharged(f: Frame, step: Step, again: bool)
      requires InLoop(f, step) && MayRetry(mon, again) && mon.loop.value.top.None?
      modifies this`trace, this`mon, this`reauthed
      ensures GoesAgain(f, step, old(mon)) && Beside(old(mon), mon) && mon.bag == old(mon).bag
      ensures reauthed == (old(reauthed) || again)
    {
      hide Witnessed, MayRetry;
      Emit(Retried(again));
      if again {
        reauthed := true;
      }
    }

    /** The look behind an act that was refused or missed its checkpoint. */
    ghost predicate Puzzled(f: Frame, step: Step, action: Action, result: ActResult, after: Observation)
      reads this
    {
      && Acted(f, step, action, result) && mon.seen == Some(after) && !result.policyBlocked
      && mon.recovered.None?
      && (if result.ok then CheckMissed(mon, f) && NoAnti(f.cap, step.antiCheckpoints, after, f.eyes) else !result.retryable)
    }

    /** A screen recognised after the act: stop, or go again uncharged. */
    method HandleBehindAct(f: Frame, step: Step, state: ExceptionalState, after: Observation, bag: Bag,
        ghost action: Action, ghost result: ActResult)
      returns (r: Awaited<Attempted>)
      requires Puzzled(f, step, action, result, after)
      requires || ((!result.ok ==> NoMiss(f, after)) && MatchException(f.cap.exceptionalStates, after) == Some(state))
               || (!result.ok && MatchMiss(f.cap.exceptionalStates, after) == Some(state) && !state.classify.NeedsHuman?)
      modifies this`tape, this`trace, this`mon, this`rows, this`lastEntry, this`reauthed
      ensures Valid() && Beside(old(mon), mon) && mon.bag == old(mon).bag
      ensures |tape| <= |old(tape)| && (r.Threw? ==> mon.broken) && SameWins(old(rows), rows)
      ensures r.Got? ==> if r.value.Ended? then Justly(f, r.value.result) else r.value.Again? && GoesAgain(f, step, old(mon))
      ensures r.Got? ==> match state.classify
        case BusinessOutcome => r.value == Attempted.Ended(RunResult(BusinessAnswer, Declared(state.code), step.id, bag, false, None))
        case HardFailure => r.value == Attempted.Ended(RunResult(Failed, Declared(state.code), step.id, bag, false, None))
        case NeedsHuman => r.value.Ended? ==> r.value.result.code != LocatorMiss
        case _ => r.value.Again?
    {
      hide Explains, Witnessed, MatchException, MatchMiss, Holds, NoAnti, NoMiss;
      var handled :- HandleException(f, state, after, step.id, bag);
      if handled.Stop? {
        return Got(Attempted.Ended(handled.result));
      }
      RetryUncharged(f, step, handled.Reauth?);
      return Got(Again);
    }

    /** The refused act met no locator miss that is to be dismissed, waited out or stopped at. */
    method AfterMiss(f: Frame, step: Step, action: Action, result: ActResult, after: Observation, bag: Bag)
      returns (r: Awaited<Attempted>)
      requires Puzzled(f, step, action, result, after) && !result.ok
      requires var miss := MatchMiss(f.cap.exceptionalStates, after); miss.Some? ==> miss.value.classify.NeedsHuman?
      modifies this`tape, this`trace, this`mon, this`rows, this`lastEntry, this`reauthed
      ensures Valid() && Beside(old(mon), mon) && mon.bag == old(mon).bag
      ensures |tape| <= |old(tape)| && (r.Threw? ==> mon.broken) && SameWins(old(rows), rows)
      ensures r.Got? ==> if r.value.Ended? then Justly(f, r.value.result) else r.value.Again? && GoesAgain(f, step, old(mon))
      ensures r.Got? && r.value.Again? ==> MatchException(f.cap.exceptionalStates, after).Some?
      ensures r.Got? && r.value.Ended? && r.value.result.code == LocatorMiss ==>
                MatchException(f.cap.exceptionalStates, after).None? && NoMiss(f, after)
    {
      hide Explains, Witnessed, MatchException, MatchMiss, Holds, NoAnti;
      var miss := MatchMiss(f.cap.exceptionalStates, after);
      if miss.Some? {
        // A session restored here is not a reason to go again: the screen is classified once more.
        var handled :- HandleException(f, miss.value, after, step.id, bag);
        if handled.Stop? {
          return Got(Attempted.Ended(handled.result));
        }
      }
      var again := MatchException(f.cap.exceptionalStates, after);
      if again.Some? {
        r := HandleBehindAct(f, step, again.value, after, bag, action, result);
        return;
      }
      StepExplains(mon, f);
      var ended := Fail(LocatorMiss, step.id, bag);
      return Got(Attempted.Ended(ended));
    }

    /** The action failed and is not retryable. */
    method AfterRefusal(f: Frame, step: Step, action: Action, result: ActResult, bag: Bag)
      returns (r: Awaited<Attempted>)
      requires Acted(f, step, action, result) && !result.ok && !result.policyBlocked && !result.retryable
      modifies this`tape, this`trace, this`mon, this`rows, this`lastEntry, this`reauthed
      ensures Valid() && Beside(old(mon), mon) && mon.bag == old(mon).bag
      ensures |tape| <= |old(tape)| && (r.Threw? ==> mon.broken) && SameWins(old(rows), rows)
      ensures r.Got? ==> if r.value.Ended? then Justly(f, r.value.result) else r.value.Again? && GoesAgain(f, step, old(mon))
      ensures r.Got? ==> Seen(old(tape)).Got?
      ensures r.Got? ==>
                var after := Seen(old(tape)).value;
                var miss := MatchMiss(f.cap.exceptionalStates, after);
                if miss.Some? && !miss.value.classify.NeedsHuman? then
                  match miss.value.classify
                  case BusinessOutcome => r.value == Attempted.Ended(RunResult(BusinessAnswer, Declared(miss.value.code), step.id, bag, false, None))
                  case HardFailure => r.value == Attempted.Ended(RunResult(Failed, Declared(miss.value.code), step.id, bag, false, None))
                  case _ => r.value.Again?
                else if r.value.Again? then MatchException(f.cap.exceptionalStates, after).Some?
                else r.value.result.code == LocatorMiss ==> MatchException(f.cap.exceptionalStates, after).None? && NoMiss(f, after)
    {
      hide Explains, Witnessed, MatchException, MatchMiss, Holds;
      var after :- Observe();
      var miss := MatchMiss(f.cap.exceptionalStates, after);
      if miss.Some? && miss.value.classify != NeedsHuman {
        r := HandleBehindAct(f, step, miss.value, after, bag, action, result);
        return;
      }
      r := AfterMiss(f, step, action, result, after, bag);
    }

    ghost method EndByAct(f: Frame, step: Step, action: Action, result: ActResult, after: Option<Observation>)
      requires Acted(f, step, action, result) && Justified(f, step, ByAct(action, result, after))
      requires after.Some? ==> mon.seen == after
      modifies this`trace, this`mon
      ensures StepOver(old(mon)) && Beside(old(mon), mon) && mon.bag == old(mon).bag
    {
      hide Justified, Witnessed;
      Emit(Event.Ended(f, step, ByAct(action, result, after)));
    }

    /** The look behind the act, held against the step's checkpoint. */
    method JudgeAct(f: Frame, step: Step, action: Action, result: ActResult, after: Observation, bag: Bag)
      returns (r: Awaited<Attempted>)
      requires Acted(f, step, action, result) && step.checkpoint.Some? && mon.seen == Some(after) && mon.recovered.None?
      requires action == Issued(step, f.o.inputs, f.key)
      requires result.ok && !result.policyBlocked && OutputReads(f.cap, step, result)
      modifies this`tape, this`trace, this`mon, this`rows, this`lastEntry, this`reauthed
      ensures Valid() && Beside(old(mon), mon) && mon.bag == old(mon).bag
      ensures |tape| <= |old(tape)| && (r.Threw? ==> mon.broken) && SameWins(old(rows), rows)
      ensures r.Got? ==> !r.value.Backoff?
      ensures r.Got? && r.value.Finished? ==> StepOver(old(mon))
      ensures r.Got? && r.value.Ended? ==> Justly(f, r.value.result)
      ensures r.Got? && r.value.Again? ==> GoesAgain(f, step, old(mon))
      ensures r.Got? ==>
                var stopped, held := !NoAnti(f.cap, step.antiCheckpoints, after, f.eyes), Holds(step.checkpoint.value, after, f.eyes);
                && (r.value.Finished? <==> !stopped && held)
                && (r.value.Again? ==> !stopped && MatchException(f.cap.exceptionalStates, after).Some?)
    {
      hide Holds, Explains, Witnessed, OutputReads, Issued, AnyHolds, MatchException, MatchMiss;
      if AnyHolds(f.cap.antiCheckpoints + step.antiCheckpoints, after, inputs) {
        AntiExplains(mon, f, step, after, step.risk.Risky?);
        var ended := Complete(Failed, AntiCheckpoint, step.id, bag, step.risk.Risky?, action.key);
        return Got(Attempted.Ended(ended));
      }
      if Holds(step.checkpoint.value, after, inputs) {
        EndByAct(f, step, action, result, Some(after));
        return Got(Finished);
      }
      var again := MatchException(f.cap.exceptionalStates, after);
      if again.Some? {
        r := HandleBehindAct(f, step, again.value, after, bag, action, result);
        return;
      }
      StepExplains(mon, f);
      var code := if step.risk.Risky? then CheckpointAfterAct else CheckpointFailed;
      var ended := Complete(Failed, code, step.id, bag, step.risk.Risky?, action.key);
      return Got(Attempted.Ended(ended));
    }

    /** The step has a checkpoint: look once more and hold the screen against it. */
    method CheckAfterAct(f: Frame, step: Step, action: Action, result: ActResult, bag: Bag)
      returns (r: Awaited<Attempted>)
      requires Acted(f, step, action, result) && step.checkpoint.Some?
      requires action == Issued(step, f.o.inputs, f.key)
      requires result.ok && !result.policyBlocked && OutputReads(f.cap, step, result)
      modifies this`tape, this`trace, this`mon, this`rows, this`lastEntry, this`reauthed
      ensures Valid() && Beside(old(mon), mon) && mon.bag == old(mon).bag
      ensures |tape| <= |old(tape)| && (r.Threw? ==> mon.broken) && SameWins(old(rows), rows)
      ensures r.Got? ==> !r.value.Backoff?
      ensures r.Got? && r.value.Finished? ==> StepOver(old(mon))
      ensures r.Got? && r.value.Ended? ==> Justly(f, r.value.result)
      ensures r.Got? && r.value.Again? ==> GoesAgain(f, step, old(mon))
    {
      hide Explains, Witnessed, OutputReads, Issued;
      var seen :- Observe();
      var after :- MaybeSignIn(seen, f.o.nested);
      r := JudgeAct(f, step, action, result, after, bag);
    }

    ghost method FillOutput(f: Frame, name: string, raw: string)
      requires Valid() && MayFill(mon, f, name, raw)
      modifies this`trace, this`mon
      ensures Valid() && mon == old(mon).(bag := Fill(f, old(mon).bag, name, raw))
    {
      hide Witnessed, MayFill, Fill;
      Emit(Filled(f, name, raw));
    }

    /** Write the output the act has read, or stop because it is none of its type. */
    method TakeOutput(f: Frame, step: Step, action: Action, result: ActResult, bag: Bag)
      returns (r: Awaited<Option<RunResult>>, out: Bag)
      requires Acted(f, step, action, result) && result.ok && mon.bag == bag
      modifies this`tape, this`trace, this`mon, this`rows
      ensures Valid() && |tape| <= |old(tape)| && (r.Threw? ==> mon.broken) && SameWins(old(rows), rows)
      ensures WritesOwnOutput(f.cap, step, bag, out) && mon.bag == out
      ensures if r == Got(None) then mon == old(mon).(bag := out) && OutputReads(f.cap, step, result)
              else Beside(old(mon), mon) && step.outputName.Some? && (r.Got? ==> Justly(f, r.value.value))
    {
      hide Holds, Explains, Witnessed, Coerce;
      out := bag;
      if step.outputName.Some? {
        var def := OutputNamed(f.cap.outputs, step.outputName.value);
        var coerced := Coerce(def, result.extracted);
        if coerced.None? {
          var _ :- Observe();
          StepExplains(mon, f);
          var ended := Fail(OutputInvalid, step.id, bag);
          return Got(Some(ended)), out;
        }
        FillOutput(f, step.outputName.value, result.extracted);
        out := bag[step.outputName.value := coerced.value];
      }
      return Got(None), out;
    }

    /** The act went through: read its output, then its checkpoint. */
    method SettleAct(f: Frame, step: Step, action: Action, result: ActResult, bag: Bag)
      returns (r: Awaited<Attempted>, out: Bag)
      requires Acted(f, step, action, result)
      requires action == Issued(step, f.o.inputs, f.key) && result.ok && !result.policyBlocked
      requires mon.bag == bag
      modifies this`tape, this`trace, this`mon, this`rows, this`lastEntry, this`reauthed
      ensures Valid() && Beside(old(mon), mon) && mon.bag == out
      ensures |tape| <= |old(tape)| && (r.Threw? ==> mon.broken) && SameWins(old(rows), rows)
      ensures WritesOwnOutput(f.cap, step, bag, out)
      ensures r.Got? ==> !r.value.Backoff?
      ensures r.Got? && r.value.Finished? ==> StepOver(old(mon))
      ensures r.Got? && r.value.Ended? ==> Justly(f, r.value.result)
      ensures r.Got? && r.value.Again? ==> GoesAgain(f, step, old(mon)) && step.checkpoint.Some?
    {
      hide Holds, Explains, Witnessed, Issued, OutputReads, WritesOwnOutput;
      var taken;
      taken, out := TakeOutput(f, step, action, result, bag);
      if taken.Threw? {
        return Threw, out;
      }
      if taken.value.Some? {
        return Got(Attempted.Ended(taken.value.value)), out;
      }
      if step.checkpoint.Some? {
        r := CheckAfterAct(f, step, action, result, out);
        return;
      }
      EndByAct(f, step, action, result, None);
      return Got(Finished), out;
    }

    /** The act has come back: blocked, settled, to be retried, or refused. */
    method AfterAct(f: Frame, step: Step, action: Action, result: ActResult, bag: Bag)
      returns (r: Awaited<Attempted>, out: Bag)
      requires Acted(f, step, action, result) && action == Issued(step, f.o.inputs, f.key)
      requires mon.bag == bag
      modifies this`tape, this`trace, this`mon, this`rows, this`lastEntry, this`reauthed
      ensures Valid() && Beside(old(mon), mon) && mon.bag == out
      ensures |tape| <= |old(tape)| && (r.Threw? ==> mon.broken) && SameWins(old(rows), rows)
      ensures WritesOwnOutput(f.cap, step, bag, out)
      ensures r.Got? && r.value.Finished? ==> StepOver(old(mon)) && result.ok
      ensures r.Got? && r.value.Ended? ==> Justly(f, r.value.result)
      ensures r.Got? && r.value.Again? ==> GoesAgain(f, step, old(mon))
      ensures r.Got? && result.policyBlocked ==> r.value.Ended? && r.value.result.code == PolicyViolation
      ensures r.Got? ==> (r.value.Backoff? <==> !result.policyBlocked && !result.ok && result.retryable)
      ensures r.Got? && r.value.Backoff? ==> InLoop(f, step) && mon == old(mon) && BacksOff(mon)
    {
      hide Explains, Witnessed, Issued, OutputReads, Holds, NoAnti, MatchException, MatchMiss;
      out := bag;
      if result.policyBlocked {
        var _ :- Observe();
        StepExplains(mon, f);
        var ended := Fail(PolicyViolation, step.id, bag);
        return Got(Attempted.Ended(ended)), out;
      }
      if result.ok {
        r, out := SettleAct(f, step, action, result, bag);
      } else if result.retryable {
        return Got(Backoff), out;
      } else {
        r := AfterRefusal(f, step, action, result, bag);
      }
    }

    method Perform(f: Frame, step: Step, action: Action, on: Observation) returns (r: Awaited<ActResult>)
      requires InLoop(f, step) && MayAct(mon, f, step, action, on)
      modifies this`tape, this`trace, this`mon
      ensures Valid() && Beside(old(mon), mon) && mon.bag == old(mon).bag && mon.done == old(mon).done
      ensures r == Yielded(old(tape)) && tape == Rest(old(tape)) && (r.Threw? ==> mon.broken)
      ensures r.Got? ==> Acted(f, step, action, r.value)
      ensures r.Got? ==>
                mon.loop == Some(AfterAttempt(old(mon.loop).value, old(mon.loop).value.(last := Some(Attempt(action, r.value))), false))
    {
      hide Witnessed, MayAct;
      r := ActStep(f, step, action, on);
    }

    /** The policy lets the action through, or its refusal ends the run. */
    method AskPolicy(f: Frame, step: Step, action: Action, on: Observation, bag: Bag)
      returns (r: Awaited<Option<RunResult>>)
      requires InLoop(f, step) && Ready(mon, f, step, action, on)
      modifies this`tape, this`trace, this`mon, this`rows
      ensures Valid() && Beside(old(mon), mon) && mon.bag == old(mon).bag && tape == Rest(old(tape))
      ensures SameWins(old(rows), rows) && (r.Threw? ==> mon.broken)
      ensures r.Threw? <==> Permitted(old(tape)).Threw?
      ensures r.Got? && !Permitted(old(tape)).value ==>
                r.value == Some(RunResult(Failed, PolicyViolation, step.id, bag, false, None)) && Justly(f, r.value.value)
      ensures r.Got? && Permitted(old(tape)).value ==>
                && r.value.None? && InLoop(f, step) && MayAct(mon, f, step, action, on) && mon.done == old(mon).done
                && mon.loop == Some(old(mon.loop).value.(ruling := Some(true)))
    {
      hide Explains, Witnessed, Issued, NoAnti, MatchException, MayAct, Ready, OutputReads, CheckMissed, Unexcused,
        CameBack, ActAllowed, Permitted;
      var allowed :- Rule(f, step, action, on);
      if !allowed {
        StepExplains(mon, f);
        var ended := Fail(PolicyViolation, step.id, bag);
        return Got(Some(ended));
      }
      return Got(None);
    }

    /** From the policy check to the end of the loop body. */
    method AttemptStep(f: Frame, step: Step, on: Observation, bag: Bag)
      returns (r: Awaited<Attempted>, out: Bag)
      requires InLoop(f, step) && Ready(mon, f, step, Issued(step, f.o.inputs, f.key), on)
      requires mon.bag == bag
      modifies this`tape, this`trace, this`mon, this`rows, this`lastEntry, this`reauthed
      ensures Valid() && Beside(old(mon), mon) && mon.bag == out
      ensures |tape| <= |old(tape)| && (r.Threw? ==> mon.broken) && SameWins(old(rows), rows)
      ensures WritesOwnOutput(f.cap, step, bag, out)
      ensures r.Got? && r.value.Finished? ==> StepOver(old(mon))
      ensures r.Got? && r.value.Ended? ==> Justly(f, r.value.result)
      ensures r.Got? && Permitted(old(tape)) == Got(false) ==>
                r.value == Attempted.Ended(RunResult(Failed, PolicyViolation, step.id, bag, false, None))
      ensures r.Got? && (r.value.Again? || r.value.Backoff?) ==>
                && InLoop(f, step) && mon.done == old(mon).done && (r.value.Backoff? ==> BacksOff(mon))
                && (r.value.Again? ==> mon.loop.value.last.None? && trace != [] && trace[|trace| - 1].Retried?)
                && mon.loop == Some(AfterAttempt(old(mon.loop).value, mon.loop.value, r.value.Again?))
    {
      hide Acted, BacksOff, OutputReads, CheckMissed, Unexcused, CameBack, ActAllowed, WritesOwnOutput, Explains,
        Witnessed, Issued, Advance, Holds, NoAnti, MatchException, MayAct, Ready;
      WritesCompose(f.cap, step, bag, bag, bag);
      out := bag;
      var action := Issued(step, f.o.inputs, f.key);
      var refused :- AskPolicy(f, step, action, on, bag);
      if refused.Some? {
        return Got(Attempted.Ended(refused.value)), out;
      }
      var result :- Perform(f, step, action, on);
      r, out := AfterAct(f, step, action, result, bag);
    }

    // ----- The loop of one step -----

    /** What the screen at the top of the turn calls for. */
    ghost predicate CalledFor(handled: Disposal)
      reads this
    {
      match handled
      case RetryObserve => MayCharge(mon, false)
      case RetryAction => MayCharge(mon, true)
      case Reauth => MayResume(mon)
      case Stop(_) => false
    }

    ghost method Charge(f: Frame, step: Step, transient: bool)
      requires InLoop(f, step) && MayCharge(mon, transient)
      modifies this`trace, this`mon
      ensures InLoop(f, step)
      ensures var l := old(mon).loop.value;
              mon == Round(old(mon), if transient then l.(transients := l.transients + 1, pending := true)
                                     else l.(recoveries := l.recoveries + 1))
    {
      hide Witnessed, MayCharge;
      Emit(Charged(transient));
    }

    method NoteRestored(f: Frame, step: Step)
      requires InLoop(f, step) && MayResume(mon)
      modifies this`trace, this`mon, this`reauthed
      ensures InLoop(f, step) && reauthed
      ensures var l := old(mon).loop.value; mon == Round(old(mon).(restored := true), l.(resumed := l.resumed + 1))
    {
      hide Witnessed, MayResume;
      Emit(Resumed);
      reauthed := true;
    }

    /** A recognised screen at the top of the loop that does not stop the run. */
    method Recover(f: Frame, step: Step, handled: Disposal, recoveries: nat, transients: nat, bag: Bag)
      returns (r: Top, recoveries': nat, transients': nat, pending': bool)
      requires InLoop(f, step) && CalledFor(handled)
      requires Tally(mon.loop.value, recoveries, transients, false)
      requires mon.loop.value.iters == 1 + recoveries + transients + mon.loop.value.resumed + mon.loop.value.retried
      modifies this`trace, this`mon, this`rows, this`reauthed
      ensures Valid() && Beside(old(mon), mon) && mon.bag == old(mon).bag && mon.calls == old(mon).calls
      ensures SameWins(old(rows), rows)
      ensures r.Stopped? || r.Around?
      ensures match handled
        case RetryObserve => recoveries' == recoveries + 1 && transients' == transients && !pending'
        case RetryAction => recoveries' == recoveries && transients' == transients + 1 && (r.Around? ==> pending')
        case _ => recoveries' == recoveries && transients' == transients && !pending' && reauthed
      ensures r.Stopped? <==> recoveries' > step.retryBudget || transients' > step.retryBudget
      ensures r.Stopped? ==> Justly(f, r.result)
      ensures r.Around? ==>
                && InLoop(f, step) && mon.done == old(mon).done && AtTop(mon.loop.value, recoveries', transients', pending')
                && mon.loop.value.armed == old(mon.loop).value.armed
    {
      hide Explains, Witnessed, MayCharge, MayResume;
      recoveries', transients', pending' := recoveries, transients, false;
      match handled {
      case RetryObserve =>
        recoveries' := recoveries + 1;
        Charge(f, step, false);
        if recoveries' > step.retryBudget {
          StepExplains(mon, f);
          var result := Complete(PersonNeeded, RecoverableExhausted, step.id, bag, false, None);
          return Stopped(result), recoveries', transients', pending';
        }
      case Reauth =>
        NoteRestored(f, step);
      case RetryAction =>
        transients' := transients + 1;
        Charge(f, step, true);
        if transients' > step.retryBudget {
          StepExplains(mon, f);
          var result := Fail(TransientExhausted, step.id, bag);
          return Stopped(result), recoveries', transients', pending';
        }
        pending' := true;
      }
      return Around, recoveries', transients', pending';
    }

    method Classify(f: Frame, step: Step, state: ExceptionalState, on: Observation, recoveries: nat, transients: nat,
        bag: Bag)
      returns (r: Awaited<Top>, recoveries': nat, transients': nat, pending': bool)
      requires InLoop(f, step) && mon.seen == mon.loop.value.top == Some(on)
      requires MatchException(f.cap.exceptionalStates, on) == Some(state) && mon.recovered.None?
      requires NoAnti(f.cap, step.antiCheckpoints, on, f.eyes)
      requires Tally(mon.loop.value, recoveries, transients, false)
      requires mon.loop.value.iters == 1 + recoveries + transients + mon.loop.value.resumed + mon.loop.value.retried
      modifies this`tape, this`trace, this`mon, this`rows, this`lastEntry, this`reauthed
      ensures Valid() && Beside(old(mon), mon) && mon.bag == old(mon).bag && SameWins(old(rows), rows)
      ensures |tape| <= |old(tape)| && (r.Threw? ==> mon.broken)
      ensures r.Got? ==> r.value.Stopped? || r.value.Around?
      ensures r.Got? && r.value.Stopped? ==> Justly(f, r.value.result)
      ensures r.Got? && r.value.Around? ==>
                && InLoop(f, step) && mon.done == old(mon).done && AtTop(mon.loop.value, recoveries', transients', pending')
                && mon.loop.value.armed == old(mon.loop).value.armed
    {
      hide Explains, Witnessed, MatchException, MatchMiss, Recognised;
      recoveries', transients', pending' := recoveries, transients, false;
      FoundIsRecognised(mon, f, state, on);
      var handled :- HandleException(f, state, on, step.id, bag);
      if handled.Stop? {
        return Got(Stopped(handled.result)), recoveries', transients', pending';
      }
      var top;
      top, recoveries', transients', pending' := Recover(f, step, handled, recoveries, transients, bag);
      r := Got(top);
    }

    ghost method EndByReauth(f: Frame, step: Step, on: Observation)
      requires InLoop(f, step) && mon.restored && !reauthed && mon.seen == Some(on) && Clear(mon, f, step, on)
      requires step.checkpoint.Some? && step.outputName.None? && Holds(step.checkpoint.value, on, f.eyes)
      modifies this`trace, this`mon
      ensures StepOver(old(mon)) && Beside(old(mon), mon) && mon.calls == old(mon).calls && mon.bag == old(mon).bag
    {
      hide Witnessed, Holds, Clear;
      Emit(Event.Ended(f, step, ByReauth(on)));
    }

    ghost method StartTurn(f: Frame, step: Step, on: Observation, recoveries: nat, transients: nat, pending: bool)
      requires InLoop(f, step) && AtTop(mon.loop.value, recoveries, transients, pending) && mon.seen == Some(on)
      modifies this`trace, this`mon
      ensures InLoop(f, step)
      ensures var l := old(mon).loop.value;
              mon == old(mon).(loop := Some(l.(top := Some(on), ruling := None, iters := l.iters + 1)))
    {
      hide Witnessed;
      Emit(Iterated(on));
    }

    method LookAround(f: Frame, step: Step, recoveries: nat, transients: nat, pending: bool)
      returns (r: Awaited<Observation>)
      requires InLoop(f, step) && AtTop(mon.loop.value, recoveries, transients, pending)
      modifies this`tape, this`trace, this`mon
      ensures InLoop(f, step) || r.Threw?
      ensures Valid() && Beside(old(mon), mon) && mon.bag == old(mon).bag && mon.done == old(mon).done
      ensures |tape| <= |old(tape)| && (r.Threw? ==> mon.broken) && (r.Got? ==> |tape| < |old(tape)|)
      ensures r.Got? ==>
                && mon.seen == Some(r.value) && mon.recovered.None?
                && mon.loop == Some(old(mon.loop).value.(top := Some(r.value), ruling := None, iters := old(mon.loop).value.iters + 1))
    {
      hide Witnessed;
      var seen :- Observe();
      r := MaybeSignIn(seen, f.o.nested);
      if r.Got? {
        StartTurn(f, step, r.value, recoveries, transients, pending);
      }
    }

    /** A restored session with the step's checkpoint shown stands for the step. */
    ghost predicate Covered(step: Step, on: Observation, eyes: map<string, string>) {
      step.checkpoint.Some? && step.outputName.None? && Holds(step.checkpoint.value, on, eyes)
    }

    /** Nothing on the screen stands in the way: a restored session or a dry run may still end the step here. */
    method BeforeActing(f: Frame, step: Step, on: Observation, bag: Bag)
      returns (r: Awaited<Top>)
      requires InLoop(f, step) && Clear(mon, f, step, on) && mon.seen == Some(on)
      modifies this`trace, this`mon, this`rows, this`reauthed
      ensures Valid() && Beside(old(mon), mon) && mon.bag == old(mon).bag && mon.calls == old(mon).calls
      ensures SameWins(old(rows), rows)
      ensures r.Got? && !r.value.Around?
      ensures r.value.Over? <==> old(reauthed) && Covered(step, on, f.eyes)
      ensures r.value.Stopped? <==> !r.value.Over? && step.risk.Risky? && f.o.dryRun
      ensures reauthed == (old(reauthed) && !r.value.Over?)
      ensures r.value.Stopped? ==>
                Justly(f, r.value.result) && r.value.result == RunResult(DryRunReport, NoCode, step.id, bag, false, Some(f.key))
      ensures r.value.Over? ==> StepOver(old(mon))
      ensures r.value.Proceed? ==> r.value.on == on && InLoop(f, step) && mon == old(mon)
    {
      hide Holds, Explains, Witnessed, Clear;
      if reauthed && step.checkpoint.Some? && step.outputName.None? && Holds(step.checkpoint.value, on, inputs) {
        reauthed := false;
        EndByReauth(f, step, on);
        return Got(Over);
      }
      if step.risk.Risky? && f.o.dryRun {
        StepExplains(mon, f);
        var result := Complete(DryRunReport, NoCode, step.id, bag, false, Some(f.key));
        return Got(Stopped(result));
      }
      return Got(Proceed(on));
    }

    /** The screen lets the step go on. */
    ghost predicate MayGoOn(f: Frame, step: Step, on: Observation)
      reads this
    {
      InLoop(f, step) && mon.seen == Some(on) && Clear(mon, f, step, on) && (step.risk.Risky? ==> !f.o.dryRun)
    }

    /** Anti-checkpoints first, then the declared screens, a pending retry aside. */
    method Screen(f: Frame, step: Step, on: Observation, recoveries: nat, transients: nat, pending: bool, bag: Bag)
      returns (r: Awaited<Top>, recoveries': nat, transients': nat, pending': bool)
      requires InLoop(f, step) && mon.loop.value.top == Some(on) && mon.seen == Some(on) && mon.recovered.None?
      requires Tally(mon.loop.value, recoveries, transients, pending)
      requires mon.loop.value.iters == 1 + recoveries + transients + mon.loop.value.resumed + mon.loop.value.retried
      modifies this`tape, this`trace, this`mon, this`rows, this`lastEntry, this`reauthed
      ensures Valid() && Beside(old(mon), mon) && mon.bag == old(mon).bag && SameWins(old(rows), rows)
      ensures |tape| <= |old(tape)| && (r.Threw? ==> mon.broken)
      ensures r.Got? && r.value.Stopped? ==> Justly(f, r.value.result)
      ensures r.Got? && r.value.Over? ==> StepOver(old(mon)) && old(reauthed) && Covered(step, on, f.eyes)
      ensures r.Got? && r.value.Around? ==>
                && InLoop(f, step) && mon.done == old(mon).done && AtTop(mon.loop.value, recoveries', transients', pending')
                && mon.loop.value.armed == old(mon.loop).value.armed
      ensures r.Got? && r.value.Proceed? ==>
                && mon == old(mon) && r.value.on == on && MayGoOn(f, step, on)
                && !pending' && recoveries' == recoveries && transients' == transients
                && !(reauthed && Covered(step, on, f.eyes))
      ensures r.Got? && !NoAnti(f.cap, step.antiCheckpoints, on, f.eyes) ==> r.value.Stopped?
    {
      hide Holds, Explains, Witnessed, MatchException, AnyHolds, Covered;
      recoveries', transients', pending' := recoveries, transients, pending;
      if AnyHolds(f.cap.antiCheckpoints + step.antiCheckpoints, on, inputs) {
        AntiExplains(mon, f, step, on, false);
        var result := Fail(AntiCheckpoint, step.id, bag);
        return Got(Stopped(result)), recoveries', transients', pending';
      }
      var exceptional := MatchException(f.cap.exceptionalStates, on);
      if exceptional.Some? && !pending {
        r, recoveries', transients', pending' := Classify(f, step, exceptional.value, on, recoveries, transients, bag);
        return;
      }
      pending' := false;
      r := BeforeActing(f, step, on, bag);
    }

    /** From the first look of an iteration to the point where the step may act. */
    method TopOfLoop(f: Frame, step: Step, recoveries: nat, transients: nat, pending: bool, bag: Bag)
      returns (r: Awaited<Top>, recoveries': nat, transients': nat, pending': bool)
      requires InLoop(f, step) && AtTop(mon.loop.value, recoveries, transients, pending)
      modifies this`tape, this`trace, this`mon, this`rows, this`lastEntry, this`reauthed
      ensures Valid() && Beside(old(mon), mon) && mon.bag == old(mon).bag && SameWins(old(rows), rows)
      ensures |tape| <= |old(tape)| && (r.Threw? ==> mon.broken) && (r.Got? ==> |tape| < |old(tape)|)
      ensures r.Got? && r.value.Stopped? ==> Justly(f, r.value.result)
      ensures r.Got? && r.value.Over? ==> StepOver(old(mon))
      ensures r.Got? && r.value.Around? ==>
                && InLoop(f, step) && mon.done == old(mon).done && AtTop(mon.loop.value, recoveries', transients', pending')
                && mon.loop.value.armed == old(mon.loop).value.armed
      ensures r.Got? && r.value.Proceed? ==>
                && mon.done == old(mon).done && MayGoOn(f, step, r.value.on)
                && !pending' && recoveries' == recoveries && transients' == transients
                && mon.loop == Some(old(mon.loop).value.(top := Some(r.value.on), ruling := None, iters := old(mon.loop).value.iters + 1))
    {
      hide Explains, Witnessed, Clear, Covered, NoAnti;
      recoveries', transients', pending' := recoveries, transients, pending;
      var on :- LookAround(f, step, recoveries, transients, pending);
      r, recoveries', transients', pending' := Screen(f, step, on, recoveries, transients, pending, bag);
    }

    ghost method Begin(f: Frame, step: Step)
      requires Valid() && Based(f)
      requires mon.loop.None? && mon.done < |f.cap.steps| && step == f.cap.steps[mon.done]
      modifies this`trace, this`mon
      ensures InLoop(f, step) && mon == old(mon).(seen := None, loop := Some(Fresh(step)))
    {
      hide Witnessed;
      Emit(Began(f, step));
    }

    /** The step is free to act: hand a risky one to the operator first, then act. */
    method TakeStep(f: Frame, step: Step, on: Observation, approved: bool, bag: Bag)
      returns (r: Awaited<Attempted>, approved': bool, out: Bag)
      requires MayGoOn(f, step, on) && mon.loop.value.hand.None? && mon.loop.value.last.None?
      requires mon.loop.value.acts <= mon.loop.value.transients + mon.loop.value.retried
      requires approved <==> f.o.approveRisky || mon.loop.value.armed
      requires mon.bag == bag
      modifies this`tape, this`trace, this`mon, this`rows, this`lastEntry, this`reauthed
      ensures Valid() && Beside(old(mon), mon) && mon.bag == out
      ensures |tape| <= |old(tape)| && (r.Threw? ==> mon.broken) && SameWins(old(rows), rows)
      ensures WritesOwnOutput(f.cap, step, bag, out)
      ensures r.Got? && r.value.Finished? ==> StepOver(old(mon))
      ensures r.Got? && r.value.Ended? ==> Justly(f, r.value.result)
      ensures r.Got? && step.risk.Risky? && !approved ==>
                if !f.o.control then r.value == Attempted.Ended(RunResult(Escalation, RiskyActionBlocked, step.id, bag, false, None))
                else
                  && Said(old(tape)).Got?
                  && (Said(old(tape)).value.action == Abort ==> r.value.Ended? && r.value.result.code.HumanAbort?)
      ensures r.Got? && (r.value.Again? || r.value.Backoff?) ==>
                && InLoop(f, step) && mon.done == old(mon).done
                && (approved' <==> f.o.approveRisky || mon.loop.value.armed)
                && (r.value.Backoff? ==> BacksOff(mon)) && (r.value.Again? ==> mon.loop.value.last.None?)
                && mon.loop == Some(AfterAttempt(old(mon.loop).value, mon.loop.value, r.value.Again?).(armed := mon.loop.value.armed))
    {
      hide Holds, Explains, Witnessed, MatchException, NoAnti, Issued, Decided, WritesOwnOutput, BacksOff;
      WritesCompose(f.cap, step, bag, bag, bag);
      out, approved' := bag, approved;
      if step.risk.Risky? && !approved {
        var handback :- AfterRiskyHandback(f, step, on, out);
        if handback.Halted? {
          return Got(Attempted.Ended(handback.result)), approved', out;
        }
        if handback.Skip? {
          return Got(Finished), approved', out;
        }
        approved' := true;
      }
      r, out := AttemptStep(f, step, on, out);
    }

    method GiveUp(f: Frame, step: Step, bag: Bag) returns (r: Awaited<StepEnd>)
      requires InLoop(f, step) && mon.loop.value.transients > step.retryBudget && mon.loop.value.hand.None?
      modifies this`tape, this`trace, this`mon, this`rows
      ensures Valid() && Beside(old(mon), mon) && mon.bag == old(mon).bag && SameWins(old(rows), rows)
      ensures |tape| <= |old(tape)| && (r.Threw? ==> mon.broken)
      ensures r.Got? ==> r.value.Failure? && Justly(f, r.value.result)
    {
      hide Explains, Witnessed;
      var _ :- Observe();
      StepExplains(mon, f);
      var result := Fail(TransientExhausted, step.id, bag);
      return Got(Failure(result));
    }

    /** What holds whenever `stepLoop` starts over. */
    ghost predicate Looping(f: Frame, step: Step, c: Counters)
      reads this
    {
      && InLoop(f, step)
      && AtTop(mon.loop.value, c.recoveries, c.transients, c.pending)
      && (c.approved <==> f.o.approveRisky || mon.loop.value.armed)
    }

    /** The act is worth repeating: charge the budget, or give up when it is used up. */
    method BackOff(f: Frame, step: Step, c: Counters, bag: Bag) returns (r: Awaited<Option<StepEnd>>, c': Counters)
      requires InLoop(f, step) && BacksOff(mon) && (c.approved <==> f.o.approveRisky || mon.loop.value.armed)
      requires var l := mon.loop.value;
               && l.hand.None? && l.recoveries == c.recoveries <= step.retryBudget
               && l.transients == c.transients <= step.retryBudget
               && l.acts <= 1 + l.transients + l.retried && l.iters == 1 + l.recoveries + l.transients + l.resumed + l.retried
      modifies this`tape, this`trace, this`mon, this`rows
      ensures Valid() && Beside(old(mon), mon) && mon.bag == old(mon).bag && SameWins(old(rows), rows)
      ensures |tape| <= |old(tape)| && (r.Threw? ==> mon.broken)
      ensures r.Got? ==> (r.value.None? <==> c.transients < step.retryBudget)
      ensures r.Got? && r.value.None? ==> Looping(f, step, c') && mon.done == old(mon).done
      ensures r.Got? && r.value.Some? ==> r.value.value.Failure? && Justly(f, r.value.value.result)
    {
      hide Explains, Witnessed;
      c' := c.(transients := c.transients + 1, pending := true);
      Charge(f, step, true);
      if c'.transients > step.retryBudget {
        var failure :- GiveUp(f, step, bag);
        return Got(Some(failure)), c';
      }
      return Got(None), c';
    }

    /** One turn of `stepLoop`; `None` sends it round again. */
    method Turn(f: Frame, step: Step, c: Counters, bag: Bag)
      returns (r: Awaited<Option<StepEnd>>, c': Counters, out: Bag)
      requires Looping(f, step, c)
      requires mon.bag == bag
      modifies this`tape, this`trace, this`mon, this`rows, this`lastEntry, this`reauthed
      ensures Valid() && Beside(old(mon), mon) && mon.bag == out && SameWins(old(rows), rows)
      ensures |tape| <= |old(tape)| && (r.Threw? ==> mon.broken) && (r.Got? ==> |tape| < |old(tape)|)
      ensures WritesOwnOutput(f.cap, step, bag, out)
      ensures r.Got? && r.value.None? ==> Looping(f, step, c') && mon.done == old(mon).done
      ensures r.Got? && r.value.Some? ==> if r.value.value.Done? then StepOver(old(mon)) else Justly(f, r.value.value.result)
    {
      hide Holds, Explains, Witnessed, MatchException, NoAnti, Advance, Legal, WritesOwnOutput, Clear, Wins;
      WritesCompose(f.cap, step, bag, bag, bag);
      out, c' := bag, c;
      var top, recoveries, transients, pending := TopOfLoop(f, step, c.recoveries, c.transients, c.pending, bag);
      if top.Threw? {
        return Threw, c', out;
      }
      c' := Counters(recoveries, transients, pending, c.approved);
      match top.value {
        case Stopped(result) => return Got(Some(Failure(result))), c', out;
        case Over => return Got(Some(Done)), c', out;
        case Around => return Got(None), c', out;
        case Proceed(on) =>
          var attempt, approved;
          attempt, approved, out := TakeStep(f, step, on, c.approved, bag);
          if attempt.Threw? {
            return Threw, c', out;
          }
          c' := c'.(approved := approved);
          match attempt.value {
            case Finished => return Got(Some(Done)), c', out;
            case Ended(result) => return Got(Some(Failure(result))), c', out;
            case Again => return Got(None), c', out;
            case Backoff =>
              var backedOff;
              backedOff, c' := BackOff(f, step, c', out);
              return backedOff, c', out;
          }
      }
    }

    /** One recorded step, from its first look to its end: `stepLoop`. */
    method RunStep(f: Frame, step: Step, bag: Bag)
      returns (r: Awaited<StepEnd>, out: Bag)
      requires Valid() && Based(f)
      requires mon.loop.None? && mon.done < |f.cap.steps| && step == f.cap.steps[mon.done]
      requires mon.bag == bag
      modifies this`tape, this`trace, this`mon, this`rows, this`lastEntry, this`reauthed
      ensures Valid() && Beside(old(mon), mon) && mon.bag == out && SameWins(old(rows), rows)
      ensures |tape| <= |old(tape)| && (r.Threw? ==> mon.broken)
      ensures WritesOwnOutput(f.cap, step, bag, out)
      ensures r.Got? && r.value.Done? ==> StepOver(old(mon))
      ensures r.Got? && r.value.Failure? ==> Justly(f, r.value.result)
    {
      hide Witnessed, Explains, WritesOwnOutput, Wins;
      WritesCompose(f.cap, step, bag, bag, bag);
      out := bag;
      Begin(f, step);
      var c := Counters(0, 0, false, f.o.approveRisky);
      while true
        invariant Looping(f, step, c)
        invariant mon.done == old(mon).done && Beside(old(mon), mon) && mon.bag == out
        invariant SameWins(old(rows), rows) && |tape| <= |old(tape)|
        invariant WritesOwnOutput(f.cap, step, bag, out)
        decreases |tape|
      {
        ghost var before := out;
        var end;
        end, c, out := Turn(f, step, c, out);
        WritesCompose(f.cap, step, bag, before, out);
        if end.Threw? {
          return Threw, out;
        }
        if end.value.Some? {
          return Got(end.value.value), out;
        }
      }
    }

    // ----- The own steps of a run -----

    method ReadOutput(f: Frame, name: string, action: Action) returns (r: Awaited<ActResult>)
      requires Valid() && MayExtract(mon, f, name, action)
      modifies this`tape, this`trace, this`mon
      ensures Valid() && r == Yielded(old(tape)) && tape == Rest(old(tape))
      ensures mon == old(mon).(calls := old(mon).calls + 1, broken := old(mon).broken || r.Threw?, extracted := mon.extracted)
      ensures r.Got? ==> mon.extracted == Some((name, r.value.extracted))
    {
      hide Witnessed, MayExtract;
      ghost var was := tape;
      var a := Pop();
      r := if a.Some? && a.value.Does? then Got(a.value.result) else Threw;
      Record(Extracted(f, name, action, r), was);
    }

    /** What reading outputs may change for the observer. */
    ghost predicate OnlyRead(w: Watch, bag: Bag)
      reads this`mon
    {
      w.calls <= mon.calls && mon == w.(calls := mon.calls, broken := mon.broken, extracted := mon.extracted, bag := bag)
    }

    /** Reads one missing output; `None` is a text that is none of its type. */
    method ReadMissing(f: Frame, i: nat, bag: Bag, ghost inherited: set<string>) returns (r: Awaited<Option<OutputValue>>)
      requires Valid() && ShowsSuccess(mon, f) && mon.bag == bag && TypedOutputs(f.cap, bag, inherited)
      requires i < |f.cap.outputs| && f.cap.outputs[i].name !in bag
      requires forall k | 0 <= k < i :: f.cap.outputs[k].name in bag
      modifies this`tape, this`trace, this`mon
      ensures Valid() && |tape| <= |old(tape)| && (r.Threw? ==> mon.broken)
      ensures r.Got? && r.value.Some? ==>
                var out := bag[f.cap.outputs[i].name := r.value.value];
                OnlyRead(old(mon), out) && TypedOutputs(f.cap, out, inherited) && f.cap.outputs[i].name in Produces(f.cap)
      ensures r.Threw? || r.value.None? ==> OnlyRead(old(mon), bag)
      ensures r.Got? && r.value.None? ==> Unreadable(mon, f)
      ensures r.Got? ==>
                Yielded(old(tape)).Got? && r.value == Coerce(Some(f.cap.outputs[i]), Yielded(old(tape)).value.extracted)
    {
      hide Witnessed, HasType, Holds, NoAnti, Passable, MatchException, TypedOutputs, Produces, Coerce;
      var def := f.cap.outputs[i];
      FirstNamed(f.cap.outputs, i);
      var extracted :- ReadOutput(f, def.name, ReadAct(def));
      SuccessStays(old(mon), mon, f);
      var coerced := Coerce(Some(def), extracted.extracted);
      if coerced.None? {
        return Got(None);
      }
      FillOutput(f, def.name, extracted.extracted);
      FillingKeepsTypes(f.cap, bag, inherited, i, coerced.value);
      return Got(coerced);
    }

    /** Output extraction behind the success checkpoint. */
    method ExtractOutputs(f: Frame, bag: Bag, ghost inherited: set<string>)
      returns (r: Awaited<bool>, out: Bag)
      requires Valid() && TypedOutputs(f.cap, bag, inherited) && mon.bag == bag
      requires ShowsSuccess(mon, f)
      modifies this`tape, this`trace, this`mon
      ensures Valid() && OnlyRead(old(mon), out)
      ensures |tape| <= |old(tape)| && (r.Threw? ==> mon.broken)
      ensures TypedOutputs(f.cap, out, inherited) && out.Keys <= bag.Keys + Produces(f.cap)
      ensures forall name | name in bag :: name in out && out[name] == bag[name]
      ensures r.Got? ==> if r.value then forall d | d in f.cap.outputs :: d.name in out else Unreadable(mon, f)
    {
      hide Witnessed, HasType, ShowsSuccess, TypedOutputs, Produces, Coerce;
      out := bag;
      for i := 0 to |f.cap.outputs|
        invariant Valid() && OnlyRead(old(mon), out) && |tape| <= |old(tape)|
        invariant TypedOutputs(f.cap, out, inherited) && out.Keys <= bag.Keys + Produces(f.cap)
        invariant forall k | 0 <= k < i :: f.cap.outputs[k].name in out
        invariant forall name | name in bag :: name in out && out[name] == bag[name]
      {
        if f.cap.outputs[i].name !in out {
          SuccessStays(old(mon), mon, f);
          var value :- ReadMissing(f, i, out, inherited);
          if value.None? {
            return Got(false), out;
          }
          out := out[f.cap.outputs[i].name := value.value];
        }
      }
      return Got(true), out;
    }

    /** The last look of a run; `None` is a screen that shows success. */
    method JudgeFinal(f: Frame, bag: Bag) returns (r: Awaited<Option<RunResult>>, ghost final: Observation)
      requires Valid() && AllStepsDone(mon, f) && Based(f)
      modifies this`tape, this`trace, this`mon, this`rows, this`lastEntry
      ensures Valid() && Beside(old(mon), mon) && mon.bag == old(mon).bag && AllStepsDone(mon, f)
      ensures |tape| <= |old(tape)| && (r.Threw? ==> mon.broken) && SameWins(old(rows), rows)
      ensures r.Got? && r.value.Some? ==> Justly(f, r.value.value)
      ensures r.Got? && r.value.None? ==>
                mon.seen == Some(final) && ShowsSuccess(mon, f)
    {
      hide Holds, Explains, Witnessed, MatchException, MatchMiss, NoMiss, Passable, AnyHolds;
      final := Observation("", None, "", "", "", None, false);
      var on :- Observe();
      final := on;
      FinalLookExplains(mon, f, on);
      if AnyHolds(f.cap.antiCheckpoints + [], on, inputs) {
        var result := Fail(AntiCheckpoint, "success", bag);
        return Got(Some(result)), final;
      }
      var heeded :- HeedScreen(f, on, "success", bag);
      if heeded.Some? {
        return Got(heeded), final;
      }
      FinalLookExplains(mon, f, on);
      if !Holds(f.cap.success, on, inputs) {
        var result := Fail(CheckpointFailed, "success", bag);
        return Got(Some(result)), final;
      }
      return Got(None), final;
    }

    /** The tail of `run` behind the last step. */
    method Finish(f: Frame, bag: Bag, ghost inherited: set<string>)
      returns (r: Awaited<RunResult>, out: Bag)
      requires Valid() && AllStepsDone(mon, f) && Based(f)
      requires audit == Some(Audit(f.cap.id, f.key)) && ledgerOn == f.o.ledger
      requires TypedOutputs(f.cap, bag, inherited)
      requires mon.bag == bag
      modifies this`tape, this`trace, this`mon, this`rows, this`lastEntry
      ensures Valid() && mon.active == old(mon).active && mon.levels == old(mon).levels && old(mon).calls <= mon.calls
      ensures mon.bag == out && |tape| <= |old(tape)| && (r.Threw? ==> mon.broken) && (mon.own.Some? ==> mon.own == Some(f)) && mon.login == old(mon).login
      ensures r.Got? && r.value.status == Success ==> Won(f.cap, f.o, f.key, r.value, inherited)
      ensures if r.Got? && r.value.status == Success && f.o.ledger then OneMoreWin(old(rows), rows, f.cap.id, f.key)
              else SameWins(old(rows), rows)
      ensures r.Got? && r.value.status != Success ==> Justly(f, r.value)
      ensures r.Got? && r.value.status == Success ==> r.value.outputs == out && out.Keys <= bag.Keys + Produces(f.cap)
    {
      hide Holds, Explains, Witnessed, NoAnti, Wins, TypedOutputs, Produces;
      out := bag;
      var verdict, final := JudgeFinal(f, bag);
      if verdict.Threw? {
        return Threw, out;
      }
      if verdict.value.Some? {
        return Got(verdict.value.value), out;
      }
      var complete;
      complete, out := ExtractOutputs(f, bag, inherited);
      if complete.Threw? {
        return Threw, out;
      }
      if !complete.value {
        FinalLookExplains(mon, f, final);
        var result := Fail(OutputInvalid, "output", out);
        return Got(result), out;
      }
      CloseRun(f, final);
      r := Succeed(f, out);
    }

    ghost method CloseRun(f: Frame, final: Observation)
      requires Valid() && ShowsSuccess(mon, f) && mon.seen == Some(final)
      modifies this`trace, this`mon
      ensures Valid() && mon == old(mon).(own := None, joined := Some(f)) && trace == old(trace) + [Closed(f, final)]
    {
      hide Witnessed, Holds, NoAnti, Passable, MatchException;
      Emit(Closed(f, final));
    }

    method Succeed(f: Frame, bag: Bag) returns (r: Awaited<RunResult>)
      requires Valid() && audit == Some(Audit(f.cap.id, f.key)) && ledgerOn == f.o.ledger
      modifies this`rows
      ensures Valid()
      ensures r == Got(RunResult(Success, NoCode, "", bag, false, if HasEffects(f.cap) then Some(f.key) else None))
      ensures if f.o.ledger then OneMoreWin(old(rows), rows, f.cap.id, f.key) else SameWins(old(rows), rows)
    {
      var result := Complete(Success, NoCode, "", bag, false, if HasEffects(f.cap) then Some(f.key) else None);
      if f.o.ledger {
        forall id, k
          ensures Wins(rows, id, k) == Wins(old(rows), id, k) + (if id == f.cap.id && k == f.key then 1 else 0)
        {
          WinsOfAppend(old(rows), Entry(result), id, k);
        }
      }
      r := Got(result);
    }

    /** The trace ends with the closing of this very run, and its outputs are complete and typed. */
    ghost predicate Won(cap: Capability, o: RunOptions, key: string, r: RunResult, inherited: set<string>)
      reads this
    {
      && trace != [] && trace[|trace| - 1].Closed? && mon.own.None? && mon.loop.None?
      && mon.joined == Some(trace[|trace| - 1].f)
      && trace[|trace| - 1].f.cap == cap && trace[|trace| - 1].f.o == o && trace[|trace| - 1].f.key == key
      && r.key == (if HasEffects(cap) then Some(key) else None)
      && r.outputs == mon.bag && (forall d | d in cap.outputs :: d.name in r.outputs)
      && TypedOutputs(cap, r.outputs, inherited)
    }

    // ----- Whole runs -----

    /** `steps` with their frame open: the step loops one after the other. */
    method RunSteps(f: Frame, first: nat, bag: Bag, ghost inherited: set<string>)
      returns (r: Awaited<Option<RunResult>>, out: Bag)
      requires Valid() && Based(f) && mon.loop.None? && mon.done == first <= |f.cap.steps|
      requires TypedOutputs(f.cap, bag, inherited)
      requires mon.bag == bag
      modifies this`tape, this`trace, this`mon, this`rows, this`lastEntry, this`reauthed
      ensures Valid() && Beside(old(mon), mon) && mon.bag == out && |tape| <= |old(tape)| && (r.Threw? ==> mon.broken)
      ensures SameWins(old(rows), rows)
      ensures r.Got? && r.value.Some? ==> Justly(f, r.value.value)
      ensures r.Got? && r.value.None? ==> mon.own == Some(f) && mon.loop.None? && mon.done == |f.cap.steps|
      ensures TypedOutputs(f.cap, out, inherited) && out.Keys <= bag.Keys + Produces(f.cap)
    {
      hide Explains, Witnessed, Wins, TypedOutputs, Produces, WritesOwnOutput;
      out := bag;
      var i := first;
      while i < |f.cap.steps|
        invariant first <= i <= |f.cap.steps|
        invariant Valid() && mon.own == Some(f) && mon.loop.None? && mon.done == i
        invariant Beside(old(mon), mon) && mon.bag == out && |tape| <= |old(tape)|
        invariant SameWins(old(rows), rows)
        invariant TypedOutputs(f.cap, out, inherited) && out.Keys <= bag.Keys + Produces(f.cap)
      {
        ghost var before := out;
        var end;
        end, out := RunStep(f, f.cap.steps[i], out);
        WritesKeepTypes(f.cap, f.cap.steps[i], before, out, inherited);
        if end.Threw? {
          return Threw, out;
        }
        if end.value.Failure? {
          return Got(Some(end.value.result)), out;
        }
        i := i + 1;
      }
      return Got(None), out;
    }

    ghost method Open(f: Frame, skipped: bool, bag: Bag)
      requires Valid() && Legal(mon, Opened(f, skipped, bag))
      modifies this`trace, this`mon
      ensures Valid() && mon == old(mon).(own := Some(f), done := if skipped then 1 else 0, bag := bag, extracted := None)
    {
      hide Witnessed, Legal;
      Emit(Opened(f, skipped, bag));
    }

    method LookAtLanding(nested: bool) returns (r: Awaited<Observation>)
      requires Valid() && mon.own.None? && mon.loop.None?
      requires credential == mon.login && mon.levels != [] && Newest(mon).o.nested == nested
      modifies this`tape, this`trace, this`mon
      ensures Valid() && Beside(old(mon), mon) && mon.loop.None? && |tape| <= |old(tape)|
      ensures if r.Got? then mon.seen == Some(r.value) else mon.broken
    {
      hide Witnessed;
      var seen :- Observe();
      r := MaybeSignIn(seen, nested);
    }

    /** The landing screen lets the own steps open. */
    lemma OpeningIsLegal(w: Watch, f: Frame, landing: Observation, bag: Bag)
      requires w.own.None? && w.loop.None? && w.seen == Some(landing) && w.active == f.o.seen + [f.cap.id]
      requires w.levels != [] && Newest(w) == Level(f.cap, f.o, |f.cap.uses|, bag) && f.key == KeyFor(f.cap, f.o.inputs)
      requires TwoPersonApproved(f.cap) && InputsAccepted(f.cap.parameters, f.o.inputs)
      requires Narrowed(f.eyes, f.o.inputs) && (f.cap.uses == [] ==> f.eyes == f.o.inputs)
      requires StartsWithNavigate(f.cap) || Holds(f.cap.entry, landing, f.eyes)
      ensures Legal(w, Opened(f, StartsWithNavigate(f.cap) && Holds(f.cap.entry, landing, f.eyes), bag))
    {
    }

    /** The landing screen: open the run's own frame, past a first navigation if the entry already shows. */
    method Land(cap: Capability, o: RunOptions, key: string, bag: Bag)
      returns (r: Awaited<Option<RunResult>>, skipped: bool)
      requires Idle(o.seen + [cap.id]) && Sighted(cap, o) && credential == mon.login
      requires mon.levels != [] && Newest(mon) == Level(cap, o, |cap.uses|, bag)
      requires TwoPersonApproved(cap) && InputsAccepted(cap.parameters, o.inputs) && key == KeyFor(cap, o.inputs)
      modifies this`tape, this`trace, this`mon, this`rows
      ensures Valid() && mon.active == old(mon).active && mon.levels == old(mon).levels && old(mon).calls <= mon.calls
      ensures |tape| <= |old(tape)| && (r.Threw? ==> mon.broken) && mon.loop.None? && SameWins(old(rows), rows)
      ensures (mon.own.Some? ==> r.Got? && r.value.None?) && mon.login == old(mon).login
      ensures r.Got? && r.value.Some? ==> Justly(Frame(cap, o, key, inputs), r.value.value)
      ensures r.Got? && r.value.None? ==>
                && mon.own == Some(Frame(cap, o, key, inputs)) && mon.bag == bag
                && mon.done == (if skipped then 1 else 0) <= |cap.steps|
    {
      hide Holds, Explains, Witnessed, TwoPersonApproved, InputsAccepted, KeyFor, Legal, Narrowed;
      skipped := false;
      var landing :- LookAtLanding(o.nested);
      var entryOk := Holds(cap.entry, landing, inputs);
      if !entryOk && !StartsWithNavigate(cap) {
        WrongScreenExplains(mon, Frame(cap, o, key, inputs), landing);
        var result := Fail(PreconditionFailed, "precondition", bag);
        return Got(Some(result)), skipped;
      }
      skipped := entryOk && StartsWithNavigate(cap);
      OpeningIsLegal(mon, Frame(cap, o, key, inputs), landing, bag);
      Open(Frame(cap, o, key, inputs), skipped, bag);
      return Got(None), skipped;
    }

    /** The screen behind the children, then the capability's own steps. */
    method OwnSteps(cap: Capability, o: RunOptions, key: string, bag: Bag, ghost inherited: set<string>)
      returns (r: Awaited<RunResult>, out: Bag)
      requires Idle(o.seen + [cap.id])
      requires audit == Some(Audit(cap.id, key)) && ledgerOn == o.ledger && Sighted(cap, o) && credential == mon.login
      requires mon.levels != [] && Newest(mon) == Level(cap, o, |cap.uses|, bag)
      requires TwoPersonApproved(cap) && InputsAccepted(cap.parameters, o.inputs) && key == KeyFor(cap, o.inputs)
      requires TypedOutputs(cap, bag, inherited)
      modifies this`tape, this`trace, this`mon, this`rows, this`lastEntry, this`reauthed
      ensures Valid() && mon.active == old(mon).active && mon.levels == old(mon).levels && old(mon).calls <= mon.calls
      ensures |tape| <= |old(tape)| && (r.Threw? ==> mon.broken)
      ensures (mon.own.Some? ==> mon.own == Some(Frame(cap, o, key, inputs))) && mon.login == old(mon).login
      ensures r.Got? && r.value.status == Success ==> Won(cap, o, key, r.value, inherited)
      ensures if r.Got? && r.value.status == Success && o.ledger then OneMoreWin(old(rows), rows, cap.id, key)
              else SameWins(old(rows), rows)
      ensures r.Got? && r.value.status != Success ==> Justly(Frame(cap, o, key, inputs), r.value)
      ensures r.Got? && r.value.status == Success ==> r.value.outputs.Keys <= bag.Keys + Produces(cap)
    {
      hide Explains, Valid, Wins, TypedOutputs, Produces, TwoPersonApproved, InputsAccepted, Narrowed, KeyFor;
      out := bag;
      var landed, skipped := Land(cap, o, key, bag);
      if landed.Threw? {
        return Threw, out;
      }
      if landed.value.Some? {
        return Got(landed.value.value), out;
      }
      var f := Frame(cap, o, key, inputs);
      var stopped;
      stopped, out := RunSteps(f, if skipped then 1 else 0, bag, inherited);
      if stopped.Threw? {
        return Threw, out;
      }
      if stopped.value.Some? {
        return Got(stopped.value.value), out;
      }
      r, out := Finish(f, out, inherited);
    }

    /** The gates behind the governance ones, in the order the run asks them. */
    method Gates(cap: Capability, o: RunOptions, key: string) returns (r: Option<RunResult>)
      requires Valid() && key == KeyFor(cap, o.inputs) && InputsAccepted(cap.parameters, o.inputs)
      modifies this`tape, this`rows, this`audit, this`ledgerOn
      ensures Valid() && Witnessed(script, old(tape), trace, mon) && tape == Rest(old(tape))
      ensures r.None? <==> Gate(cap, o, old(rows), old(tape)).None?
      ensures r.None? ==> audit == Some(Audit(cap.id, key)) && ledgerOn == o.ledger && rows == old(rows)
      ensures r.Some? ==> Refused(cap, o, old(rows), old(tape), r.value) && SameWins(old(rows), rows)
    {
      hide Witnessed, KeyFor, TwoPersonApproved, SessionFits, InputsAccepted, Barred;
      GatesBar(cap, o);
      var admission := Pop();
      if admission.None? || !admission.value.Admits? || admission.value.admission != Granted {
        var killed := admission.Some? && admission.value == Admits(Killed);
        var result := Fail(if killed then KillSwitch else RateLimit, "governance", o.bag);
        return Some(result);
      }
      if !TwoPersonApproved(cap) {
        var result := Fail(ApprovalRequired, "governance", o.bag);
        return Some(result);
      }
      ledgerOn := o.ledger;
      audit := Some(Audit(cap.id, key));
      if !SessionFits(cap, o.session) {
        var result := Fail(PreconditionFailed, "", o.bag);
        return Some(result);
      }
      if HasEffects(cap) && o.ledger && !o.dryRun {
        var prior := Find(rows, cap.id, key);
        if prior {
          var result := Complete(Failed, IdempotencyConflict, "", o.bag, false, Some(key));
          return Some(result);
        }
      }
      if cap.id in o.seen {
        var result := Fail(ComposeCycle, "compose", o.bag);
        return Some(result);
      }
      return None;
    }

    /** Between runs: nobody is inside their own steps. */
    ghost predicate Idle(active: seq<string>)
      reads this
    {
      Valid() && mon.own.None? && mon.loop.None? && mon.active == active
    }

    /** The engine looks with this run's operator and with some of its inputs. */
    ghost predicate Sighted(cap: Capability, o: RunOptions)
      reads this
    {
      control == o.control && Narrowed(inputs, o.inputs) && (cap.uses == [] ==> inputs == o.inputs)
    }

    /** The levels beneath, and on top of them this run with `i` uses settled. */
    ghost predicate At(below: seq<Level>, cap: Capability, o: RunOptions, i: nat, bag: Bag)
      reads this`mon
    {
      mon.levels == below + [Level(cap, o, i, bag)]
    }

    /** On top of the levels beneath, this run, wherever it stopped. */
    ghost predicate Above(below: seq<Level>, cap: Capability, o: RunOptions)
      reads this`mon
    {
      mon.levels != [] && mon.levels[..|mon.levels| - 1] == below && Newest(mon).cap == cap && Newest(mon).o == o
    }

    /** A closed run's outputs are ready for its parent. */
    ghost predicate Handed(cap: Capability, o: RunOptions, r: RunResult)
      reads this`mon
    {
      mon.joined.Some? && mon.joined.value.cap == cap && mon.joined.value.o == o && r.outputs == mon.bag
    }

    /** A child run, its parent's audit and ledger restored behind it. */
    method RunChild(child: Capability, cap: Capability, o: RunOptions, i: nat, bag: Bag, ghost below: seq<Level>)
      returns (r: Awaited<RunResult>, ghost next: RunOptions)
      requires Idle(o.seen + [cap.id]) && cap.id !in o.seen && At(below, cap, o, i, bag)
      requires i < |cap.uses| && cap.uses[i].capabilityId in o.catalog && child == o.catalog[cap.uses[i].capabilityId]
      requires ledgerOn == o.ledger && credential == mon.login
      modifies this
      ensures Idle(o.seen + [cap.id]) && old(mon).calls <= mon.calls && |tape| <= |old(tape)| && At(below, cap, o, i, bag)
      ensures audit == old(audit) && ledgerOn == o.ledger && control == o.control && Narrowed(inputs, o.inputs)
      ensures ChildLaw(old(rows), rows, cap, o)
      ensures ChildOf(Level(cap, o, i, bag), child, next) && credential == mon.login
      ensures r.Got? && r.value.status == Success ==>
                r.value.outputs.Keys <= bag.Keys + ProducedBy(o.catalog) && Handed(child, next, r.value)
      ensures r.Got? && r.value.status != Success ==> mon.ending == Some(Ending(child, next, r.value.Gist()))
      ensures r.Threw? <==> child.credential.Unbound?
      decreases Headroom(cap, o), 0
    {
      hide KeyFor, Wins, SameWins, Headroom, Produces, TypedOutputs, Admissible, Succeeded, Refused, Handed,
        ProducedBy, Inherits, LedgerLaw, ChildLaw, KnownIds, Valid, ChildOf, PassedInputs, InputsAccepted;
      var use := cap.uses[i];
      var given := o.(inputs := PassedInputs(use, o.inputs), bag := bag, nested := true, seen := o.seen + [cap.id]);
      next := given;
      var savedAudit, savedLedger := audit, ledgerOn;
      ghost var before, was := rows, tape;
      CatalogIdsAreKnown(o.catalog, use.capabilityId);
      GivenToTheChild(cap, o, i, bag);
      ChildNamesAreInherited(cap, o, child, given);
      ChildHasLessHeadroom(cap, o, child, given);
      ghost var refused;
      r, refused := Run(child, given);
      if refused && r.Got? {
        TurnAway(child, given, r.value, before, was);
      }
      ChildKeepsTheLaw(before, rows, cap, o, child, given);
      Restore(savedAudit, savedLedger);
    }

    /** A child was turned away at a gate; `was` is the tape before it asked. */
    ghost method TurnAway(child: Capability, next: RunOptions, r: RunResult, before: seq<LedgerEntry>, was: seq<Answer>)
      requires Valid() && mon.own.None? && mon.loop.None? && mon.levels != [] && ChildOf(Newest(mon), child, next)
      requires Refused(child, next, before, was, r) && Witnessed(script, was, trace, mon)
      requires tape == if r.code == InvalidInput then was else Rest(was)
      modifies this`trace, this`mon
      ensures Valid() && mon == old(mon).(ending := Some(Ending(child, next, r.Gist())), login := child.credential.Resolved())
    {
      hide Witnessed, ChildOf, Barred, Gate, KeyFor, Answered;
      if r.code != InvalidInput {
        RefusalIsAnswered(child, next, before, was, r);
      }
      Record(TurnedAway(child, next, r.Gist()), was);
    }

    method Restore(savedAudit: Option<Audit>, savedLedger: bool)
      requires Valid()
      modifies this`audit, this`ledgerOn
      ensures Valid() && audit == savedAudit && ledgerOn == savedLedger
    {
      hide Witnessed;
      audit, ledgerOn := savedAudit, savedLedger;
    }

    ghost method PassOver()
      requires Valid() && mon.own.None? && mon.levels != [] && MayPassOver(Newest(mon), mon.seen, inputs)
      modifies this`trace, this`mon
      ensures Valid() && mon == Trace.Settle(old(mon), map[])
    {
      hide Witnessed, MayPassOver;
      SettlingKeeps(mon, map[]);
      Emit(PassedOver(inputs));
    }

    ghost method FailToLoad()
      requires Valid() && mon.own.None? && mon.levels != [] && NoChild(Newest(mon))
      modifies this`trace, this`mon
      ensures Valid() && mon == old(mon).(broken := true)
    {
      hide Witnessed, NoChild;
      Emit(Unloadable);
    }

    ghost method Join()
      requires Valid() && mon.own.None? && mon.levels != [] && mon.joined.Some?
      requires ChildOf(Newest(mon), mon.joined.value.cap, mon.joined.value.o)
      modifies this`trace, this`mon
      ensures Valid() && mon == Trace.Settle(old(mon), old(mon).bag)
    {
      hide Witnessed, ChildOf;
      SettlingKeeps(mon, mon.bag);
      Emit(Joined);
    }

    /** A use whose success already shows needs no child. */
    method AlreadyShows(i: nat, child: Capability, cap: Capability, o: RunOptions, bag: Bag, ghost below: seq<Level>)
      returns (r: Awaited<bool>)
      requires Idle(o.seen + [cap.id]) && At(below, cap, o, i, bag) && Narrowed(inputs, o.inputs)
      requires i < |cap.uses| && cap.uses[i].capabilityId in o.catalog && child == o.catalog[cap.uses[i].capabilityId]
      modifies this`tape, this`trace, this`mon
      ensures Idle(o.seen + [cap.id]) && old(mon).calls <= mon.calls && |tape| <= |old(tape)| && (r.Threw? ==> mon.broken)
      ensures At(below, cap, o, if r.Got? && r.value then i + 1 else i, bag)
      ensures mon.login == old(mon).login
    {
      hide Holds, Witnessed;
      var observed :- Observe();
      if Holds(child.success, observed, inputs) {
        PassOver();
        SettledOne(below, Level(cap, o, i, bag), map[]);
        return Got(true);
      }
      return Got(false);
    }

    /** One `uses` entry: passed over if its success already shows, else run. `None` lets the parent go on. */
    method RunUsed(i: nat, cap: Capability, o: RunOptions, bag: Bag, ghost below: seq<Level>)
      returns (r: Awaited<Option<RunResult>>, out: Bag)
      requires Idle(o.seen + [cap.id]) && cap.id !in o.seen && i < |cap.uses| && At(below, cap, o, i, bag)
      requires ledgerOn == o.ledger && control == o.control && Narrowed(inputs, o.inputs) && credential == mon.login
      modifies this
      ensures Idle(o.seen + [cap.id]) && old(mon).calls <= mon.calls && |tape| <= |old(tape)| && (r.Threw? ==> mon.broken)
      ensures audit == old(audit) && ledgerOn == o.ledger && control == o.control && Narrowed(inputs, o.inputs)
      ensures ChildLaw(old(rows), rows, cap, o)
      ensures r.Got? && r.value.Some? ==> MayPassOn(mon, r.value.value.Gist())
      ensures if r.Got? && r.value.None? then At(below, cap, o, i + 1, out) else At(below, cap, o, i, bag)
      ensures credential == mon.login
      ensures out.Keys <= bag.Keys + ProducedBy(o.catalog)
      decreases Headroom(cap, o), 1
    {
      hide Witnessed, Headroom, ProducedBy, ChildLaw, ChildOf, SameWins, Narrowed;
      out := bag;
      ChildLawsCompose(rows, rows, rows, cap, o);
      if cap.uses[i].capabilityId !in o.catalog {
        FailToLoad();
        return Threw, out;
      }
      var child := o.catalog[cap.uses[i].capabilityId];
      var shows :- AlreadyShows(i, child, cap, o, bag, below);
      if shows {
        return Got(None), out;
      }
      var ran, next := RunChild(child, cap, o, i, bag, below);
      if ran.Threw? {
        FailToLoad();
        return Threw, out;
      }
      if ran.value.status != Success {
        return Got(Some(ran.value)), out;
      }
      Join();
      out := out + ran.value.outputs;
      SettledOne(below, Level(cap, o, i, bag), ran.value.outputs);
      return Got(None), out;
    }

    /** The children in order; `None` lets the parent go on. */
    method RunChildren(cap: Capability, o: RunOptions, ghost below: seq<Level>)
      returns (r: Awaited<Option<RunResult>>, out: Bag)
      requires Idle(o.seen + [cap.id]) && cap.id !in o.seen && At(below, cap, o, 0, o.bag)
      requires ledgerOn == o.ledger && control == o.control && inputs == o.inputs && credential == mon.login
      modifies this
      ensures Idle(o.seen + [cap.id]) && old(mon).calls <= mon.calls && |tape| <= |old(tape)| && (r.Threw? ==> mon.broken)
      ensures audit == old(audit) && ledgerOn == o.ledger && control == o.control
      ensures Narrowed(inputs, o.inputs) && (cap.uses == [] ==> inputs == o.inputs)
      ensures ChildLaw(old(rows), rows, cap, o)
      ensures r.Got? && r.value.Some? ==> MayPassOn(mon, r.value.value.Gist())
      ensures out.Keys <= Inherits(cap, o) && Above(below, cap, o) && credential == mon.login
      ensures r.Got? && r.value.None? ==> At(below, cap, o, |cap.uses|, out)
      decreases Headroom(cap, o), 2
    {
      hide Wins, Witnessed, Headroom, ProducedBy, ChildLaw, SameWins, LedgerLaw, Produces, HasEffects;
      ChildLawsCompose(rows, rows, rows, cap, o);
      out := o.bag;
      var i := 0;
      while i < |cap.uses|
        invariant i <= |cap.uses|
        invariant Idle(o.seen + [cap.id]) && old(mon).calls <= mon.calls && |tape| <= |old(tape)|
        invariant audit == old(audit) && ledgerOn == o.ledger && control == o.control && At(below, cap, o, i, out)
        invariant Narrowed(inputs, o.inputs) && (i == 0 ==> inputs == o.inputs)
        invariant ChildLaw(old(rows), rows, cap, o) && credential == mon.login
        invariant out.Keys <= o.bag.Keys + (if i == 0 then {} else ProducedBy(o.catalog))
      {
        ghost var before := rows;
        var halt;
        halt, out := RunUsed(i, cap, o, out, below);
        ChildLawsCompose(old(rows), before, rows, cap, o);
        if halt.Threw? {
          return Threw, out;
        }
        if halt.value.Some? {
          return Got(Some(halt.value.value)), out;
        }
        i := i + 1;
      }
      return Got(None), out;
    }

    /** The `try` block: children, then own steps. */
    method TryRun(cap: Capability, o: RunOptions, key: string, ghost below: seq<Level>)
      returns (r: Awaited<RunResult>, out: Bag)
      requires Idle(o.seen + [cap.id]) && cap.id !in o.seen && key == KeyFor(cap, o.inputs) && At(below, cap, o, 0, o.bag)
      requires audit == Some(Audit(cap.id, key)) && ledgerOn == o.ledger && control == o.control && inputs == o.inputs
      requires TwoPersonApproved(cap) && InputsAccepted(cap.parameters, o.inputs) && !Repeats(cap, o, rows)
      requires credential == mon.login
      modifies this
      ensures Valid() && mon.active == o.seen + [cap.id] && old(mon).calls <= mon.calls
      ensures |tape| <= |old(tape)| && (r.Threw? ==> mon.broken)
      ensures Sighted(cap, o) && Above(below, cap, o) && credential == mon.login
      ensures LedgerLaw(old(rows), rows, o.seen, cap, o)
      ensures r.Got? && r.value.status == Success ==>
                && Won(cap, o, key, r.value, Inherits(cap, o))
                && r.value.outputs.Keys <= Inherits(cap, o) + Produces(cap)
                && (o.ledger ==> Wins(rows, cap.id, key) > 0)
      ensures r.Got? && r.value.status != Success ==>
                Justly(Frame(cap, o, key, inputs), r.value) || MayPassOn(mon, r.value.Gist())
      ensures mon.own.Some? ==> mon.own == Some(Frame(cap, o, key, inputs))
      decreases Headroom(cap, o), 3
    {
      hide KeyFor, Wins, Explains, Witnessed, Headroom, ProducedBy, Produces, InputsAccepted, TwoPersonApproved,
        LedgerLaw, OneMoreWin, ChildLaw, SameWins, Repeats, Narrowed, NoAnti, Holds;
      var halted;
      halted, out := RunChildren(cap, o, below);
      ChildLawIsALaw(old(rows), rows, cap, o);
      if halted.Threw? {
        return Threw, out;
      }
      if halted.value.Some? {
        return Got(halted.value.value), out;
      }
      assert TypedOutputs(cap, out, Inherits(cap, o));
      ghost var middle := rows;
      r, out := OwnSteps(cap, o, key, out, Inherits(cap, o));
      if r.Got? && r.value.status == Success && o.ledger {
        OwnRowKeepsTheLaw(old(rows), middle, rows, cap, o);
      } else {
        ChildrenKeepTheLaw(old(rows), middle, rows, cap, o);
      }
    }

    /** The run has been admitted; `was` is the tape before it asked. */
    ghost method Enter(cap: Capability, o: RunOptions, was: seq<Answer>)
      requires Idle(o.seen) && cap.id !in o.seen && (o.seen != [] ==> mon.levels != [] && ChildOf(Newest(mon), cap, o))
      requires reauthed ==> o.nested
      requires Witnessed(script, was, trace, mon) && tape == Rest(was) && Asked(was) == Granted
      modifies this`trace, this`mon
      ensures Idle(o.seen + [cap.id]) && mon.calls == old(mon).calls && At(old(mon).levels, cap, o, 0, o.bag)
      ensures mon.login == cap.credential.Resolved()
    {
      hide Witnessed, ChildOf;
      Record(Entered(cap, o), was);
    }

    /** The run stops short, for a reason the trace bears out. */
    ghost method Account(f: Frame, r: RunResult)
      requires Valid() && Justly(f, r) && OfTheTop(mon, f)
      modifies this`trace, this`mon
      ensures Valid() && trace == old(trace) + [Quit(f, r.Gist())]
      ensures mon == old(mon).(own := None, loop := None, ending := Some(Ending(f.cap, f.o, r.Gist())))
    {
      hide Witnessed, Explains, OfTheTop;
      Emit(Quit(f, r.Gist()));
    }

    /** The run stops because its child did. */
    ghost method PassOn(r: RunResult)
      requires Valid() && MayPassOn(mon, r.Gist())
      modifies this`trace, this`mon
      ensures Valid() && trace == old(trace) + [PassedOn(r.Gist())] && Newest(old(mon)).cap.uses != []
      ensures mon == old(mon).(ending := Some(Ending(Newest(old(mon)).cap, Newest(old(mon)).o, r.Gist())))
    {
      hide Witnessed;
      Emit(PassedOn(r.Gist()));
    }

    ghost method Leave(seen: seq<string>, id: string)
      requires Valid() && mon.active == seen + [id] && mon.own.None? && mon.loop.None?
      modifies this`trace, this`mon
      ensures Idle(seen) && trace == old(trace) + [Left]
      ensures mon == old(mon).(active := mon.active, broken := mon.broken, levels := mon.levels)
      ensures old(mon).levels != [] ==> mon.levels == old(mon).levels[..|old(mon).levels| - 1]
    {
      hide Witnessed;
      assert (seen + [id])[..|seen|] == seen;
      Emit(Left);
    }

    /** The end of a run: its account, if it stopped short, and its leaving. */
    ghost method GoodBye(cap: Capability, o: RunOptions, f: Frame, r: RunResult, below: seq<Level>)
      requires Valid() && mon.active == o.seen + [cap.id] && f.cap == cap && f.o == o && Above(below, cap, o)
      requires f.key == KeyFor(cap, o.inputs) && Narrowed(f.eyes, o.inputs)
      requires mon.own.Some? ==> mon.own == Some(f)
      requires r.status == Success ==> Won(cap, o, KeyFor(cap, o.inputs), r, Inherits(cap, o))
      requires r.status != Success ==> Justly(f, r) || MayPassOn(mon, r.Gist())
      modifies this`trace, this`mon
      ensures Idle(o.seen) && mon.calls == old(mon).calls && mon.levels == below && mon.login == old(mon).login
      ensures if r.status == Success then Succeeded(cap, o, r) && Handed(cap, o, r) else Accounted(cap, o, r)
    {
      hide KeyFor, Explains, Witnessed, Inherits, TypedOutputs, Narrowed, ChildOf;
      if r.status != Success {
        if Justly(f, r) {
          Account(f, r);
        } else {
          PassOn(r);
        }
      }
      ghost var ending := trace;
      Leave(o.seen, cap.id);
      assert trace == ending + [Left];
      assert ending != [] ==> trace[|trace| - 2] == ending[|ending| - 1];
    }

    /** The `catch` block: one more look, for the evidence. */
    method Catch(ghost f: Frame, bag: Bag) returns (r: RunResult)
      requires Valid() && mon.broken
      modifies this`tape, this`trace, this`mon, this`rows
      ensures Valid() && Beside(old(mon), mon) && |tape| <= |old(tape)| && SameWins(old(rows), rows)
      ensures r == RunResult(Failed, Uncaught, "uncaught", bag, false, None) && Justly(f, r)
    {
      hide Witnessed, Explains;
      var _ := Observe();
      r := Fail(Uncaught, "uncaught", bag);
      BreakExplains(mon, f);
    }

    /** An admitted run, exceptions caught. */
    method Body(cap: Capability, o: RunOptions, key: string, ghost was: seq<Answer>) returns (r: RunResult)
      requires Idle(o.seen) && cap.id !in o.seen && (o.seen != [] ==> mon.levels != [] && ChildOf(Newest(mon), cap, o))
      requires key == KeyFor(cap, o.inputs)
      requires audit == Some(Audit(cap.id, key)) && ledgerOn == o.ledger && control == o.control && inputs == o.inputs
      requires TwoPersonApproved(cap) && InputsAccepted(cap.parameters, o.inputs) && !Repeats(cap, o, rows)
      requires (reauthed ==> o.nested) && credential == cap.credential.Resolved()
      requires Witnessed(script, was, trace, mon) && tape == Rest(was) && Asked(was) == Granted
      modifies this
      ensures Idle(o.seen) && old(mon).calls <= mon.calls && |tape| <= |old(tape)|
      ensures Sighted(cap, o) && mon.levels == old(mon).levels && credential == mon.login
      ensures LedgerLaw(old(rows), rows, o.seen, cap, o)
      ensures r.status == Success ==>
                Succeeded(cap, o, r) && Handed(cap, o, r) && r.outputs.Keys <= Inherits(cap, o) + Produces(cap)
      ensures r.status != Success ==> Accounted(cap, o, r)
      ensures r.status == Success ==> (o.ledger ==> Wins(rows, cap.id, key) > 0)
      decreases Headroom(cap, o), 4
    {
      hide KeyFor, Wins, Explains, Witnessed, Headroom, KnownIds, Inherits, Produces, TypedOutputs, InputsAccepted,
        TwoPersonApproved, LedgerLaw, Succeeded, Accounted, Handed, Narrowed, SessionFits, Repeats, OneMoreWin,
        Effectful, ChildOf, MayPassOn, Refused, HasEffects, Won, OfTheTop, Asked;
      ghost var below := mon.levels;
      Enter(cap, o, was);
      var ended, out := TryRun(cap, o, key, below);
      if ended.Threw? {
        ghost var before := rows;
        r := Catch(Frame(cap, o, key, inputs), out);
        LawsCompose(before, rows, rows, o.seen, cap, o);
        LawsCompose(old(rows), before, rows, o.seen, cap, o);
      } else {
        r := ended.value;
      }
      GoodBye(cap, o, Frame(cap, o, key, inputs), r, below);
    }

    method Prepare(cap: Capability, o: RunOptions)
      requires Valid()
      modifies this`inputs, this`control, this`reauthed, this`credential
      ensures Valid() && inputs == o.inputs && control == o.control
      ensures credential == if cap.credential.Unbound? then old(credential) else cap.credential.Resolved()
      ensures reauthed == (o.nested && old(reauthed))
    {
      hide Witnessed;
      inputs, control := o.inputs, o.control;
      if !o.nested {
        reauthed := false;
      }
      if !cap.credential.Unbound? {
        credential := cap.credential.Resolved();
      }
    }

    /** A whole run, nested or not: `ReplayEngine.run`. `Threw` is an unbound credential. */
    method Run(cap: Capability, o: RunOptions) returns (r: Awaited<RunResult>, ghost refused: bool)
      requires Idle(o.seen) && (o.seen != [] ==> mon.levels != [] && ChildOf(Newest(mon), cap, o))
      modifies this
      ensures Idle(o.seen) && old(mon).calls <= mon.calls && |tape| <= |old(tape)|
      ensures (r.Threw? <==> cap.credential.Unbound?) && (r.Threw? ==> refused)
      ensures Sighted(cap, o) && mon.levels == old(mon).levels
      ensures LedgerLaw(old(rows), rows, o.seen, cap, o)
      ensures refused ==>
                && trace == old(trace) && mon == old(mon) && SameWins(old(rows), rows) && Witnessed(script, old(tape), trace, mon)
                && (r.Threw? ==> audit == old(audit) && ledgerOn == old(ledgerOn) && credential == old(credential))
                && (r.Got? ==>
                      && Refused(cap, o, old(rows), old(tape), r.value) && r.value.status != Success
                      && tape == (if r.value.code == InvalidInput then old(tape) else Rest(old(tape)))
                      && credential == cap.credential.Resolved())
      ensures !refused ==> Admissible(cap, o, old(rows), old(tape)) && credential == mon.login
      ensures r.Got? && r.value.status == Success ==>
                && Succeeded(cap, o, r.value) && Handed(cap, o, r.value)
                && r.value.outputs.Keys <= Inherits(cap, o) + Produces(cap)
      ensures r.Got? && r.value.status != Success && !refused ==> Accounted(cap, o, r.value)
      ensures r.Got? && r.value.status == Success && o.ledger ==> Wins(rows, cap.id, KeyFor(cap, o.inputs)) > 0
      decreases Headroom(cap, o), 5
    {
      hide KeyFor, Wins, InputsAccepted, TwoPersonApproved, SessionFits, Effectful, OneMoreWin, Headroom, Witnessed,
        Succeeded, LedgerLaw, Repeats, ChildOf, Handed, Accounted, Inherits, Produces;
      LawsCompose(rows, rows, rows, o.seen, cap, o);
      refused := true;
      Prepare(cap, o);
      if cap.credential.Unbound? {
        return Threw, refused;
      }
      if !InputsAccepted(cap.parameters, o.inputs) {
        return Got(RunResult(InvalidRun, InvalidInput, "", map[], false, None)), refused;
      }
      ghost var was := tape;
      var key := KeyFor(cap, o.inputs);
      var gated := Gates(cap, o, key);
      LawsCompose(old(rows), rows, rows, o.seen, cap, o);
      if gated.Some? {
        return Got(gated.value), refused;
      }
      refused := false;
      var result := Body(cap, o, key, was);
      return Got(result), refused;
    }

    /** A run that stops short says so just before it leaves: with its own reason, or with its child's. */
    ghost predicate Accounted(cap: Capability, o: RunOptions, r: RunResult)
      reads this
    {
      && |trace| >= 2 && trace[|trace| - 1] == Left && mon.ending == Some(Ending(cap, o, r.Gist()))
      && match trace[|trace| - 2]
         case Quit(f, outcome) => f.cap == cap && f.o == o && outcome == r.Gist()
         case PassedOn(outcome) => cap.uses != [] && outcome == r.Gist()
         case _ => false
    }

    /** The run has closed, with every declared output there and of its type. */
    ghost predicate Succeeded(cap: Capability, o: RunOptions, r: RunResult)
      reads this
    {
      && |trace| >= 2 && trace[|trace| - 1] == Left && trace[|trace| - 2].Closed?
      && trace[|trace| - 2].f.cap == cap && trace[|trace| - 2].f.o == o && trace[|trace| - 2].f.key == KeyFor(cap, o.inputs)
      && r.key == (if HasEffects(cap) then Some(KeyFor(cap, o.inputs)) else None)
      && r.outputs == mon.bag && (forall d | d in cap.outputs :: d.name in r.outputs)
      && TypedOutputs(cap, r.outputs, Inherits(cap, o))
    }

    /**
     * Runs one after the other on a shared ledger. A pair of capability and key that has side effects
     * succeeds once; a later run of it leaves no event at all.
     */
    method RunAll(jobs: seq<Job>) returns (results: seq<Awaited<RunResult>>, ghost logs: seq<seq<Event>>)
      requires Idle([]) && forall j | j in jobs :: j.o.seen == [] && j.o.ledger && !j.o.dryRun
      modifies this
      ensures Idle([]) && |results| == |jobs| && |logs| == |jobs| + 1 && logs[|jobs|] == trace
      ensures AtMostOnce(jobs, old(rows), rows) && NoRepeats(jobs, results, logs)
    {
      hide Wins, JobLaw, Recorded, NoRepeats, AtMostOnce, Effectful, KeyFor, Valid;
      results, logs := [], [trace];
      StartEmpty(jobs, rows, logs);
      var n := 0;
      while n < |jobs|
        invariant n <= |jobs| && |results| == n && |logs| == n + 1 && logs[n] == trace && Idle([])
        invariant AtMostOnce(jobs, old(rows), rows) && Recorded(jobs, results, rows) && NoRepeats(jobs, results, logs)
      {
        ghost var before := rows;
        var r := RunTop(jobs[n]);
        OneMoreJob(jobs, results, logs, old(rows), before, rows, r, trace);
        results, logs := results + [r], logs + [trace];
        n := n + 1;
      }
    }

    /** One run of its own on a wired ledger. */
    method RunTop(job: Job) returns (r: Awaited<RunResult>)
      requires Idle([]) && job.o.seen == [] && job.o.ledger && !job.o.dryRun
      modifies this
      ensures Idle([])
      ensures JobLaw(job, old(rows), rows, r, trace == old(trace))
    {
      hide Wins, KeyFor, Effectful, Succeeded, Valid, Sighted, InputsAccepted, TwoPersonApproved;
      ghost var refused;
      r, refused := Run(job.cap, job.o);
    }
  }
}
