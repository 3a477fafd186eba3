/**
 * When a step that has been acted on may be acted on again: the condition, on the declared screens and the
 * retry budget, under which "will execute once" is true.
 */
module ExecuteOnce {
  import opened Prelude
  import opened Capabilities
  import opened Decisions
  import opened Trace
  import opened TraceLaws

  // ----- The condition -----

  /** A screen that sends the step round again, by itself or once the operator has restored the session. */
  predicate Excuser(f: Frame, found: Option<ExceptionalState>) {
    found.Some? && (found.value.classify.Transient? || found.value.classify.Recoverable? || Expired(f, found.value))
  }

  predicate PassesByItself(found: Option<ExceptionalState>) {
    found.Some? && (found.value.classify.Transient? || found.value.classify.Recoverable?)
  }

  predicate Unopposed(f: Frame, step: Step, seen: Observation) {
    NoAnti(f.cap, step.antiCheckpoints, seen, f.eyes)
  }

  /** Behind an act with this result, the screen sends the step round again without charging the budget. */
  predicate Excusing(f: Frame, step: Step, result: ActResult, after: Observation) {
    && !result.policyBlocked
    && if result.ok then
         && step.checkpoint.Some? && !Holds(step.checkpoint.value, after, f.eyes) && Unopposed(f, step, after)
         && Excuser(f, MatchException(f.cap.exceptionalStates, after))
       else
         && !result.retryable
         && (|| PassesByItself(MatchMiss(f.cap.exceptionalStates, after))
             || (NoMiss(f, after) && Excuser(f, MatchException(f.cap.exceptionalStates, after))))
  }

  predicate Repeatable(result: ActResult) {
    !result.ok && !result.policyBlocked && result.retryable
  }

  ghost predicate Excusable(f: Frame, step: Step, result: ActResult) {
    exists a :: Excusing(f, step, result, a)
  }

  predicate ShowsTransient(f: Frame, step: Step, seen: Observation) {
    && Unopposed(f, step, seen)
    && var found := MatchException(f.cap.exceptionalStates, seen); found.Some? && found.value.classify.Transient?
  }

  ghost predicate TransientDeclared(f: Frame, step: Step) {
    exists d :: ShowsTransient(f, step, d)
  }

  /** The screen `c` lets the step act again, `used` of its budget being gone. */
  ghost predicate ActsAgainOn(f: Frame, step: Step, result: ActResult, used: nat, c: Observation) {
    && Unopposed(f, step, c)
    && (|| (used < step.retryBudget && Repeatable(result))
        || (&& Excusable(f, step, result)
            && (|| MatchException(f.cap.exceptionalStates, c).None?
                || (used < step.retryBudget && TransientDeclared(f, step)))))
  }

  ghost predicate CanActAgain(f: Frame, step: Step, result: ActResult, used: nat) {
    exists c :: ActsAgainOn(f, step, result, used, c)
  }

  // ----- The same loop, acted on again -----

  /** More of the same step's loop, without another act. */
  ghost predicate Continues(t: seq<Event>, u: seq<Event>) {
    |t| <= |u| && u[..|t|] == t && Lawful(u) && forall k | |t| <= k < |u| :: !u[k].Began? && !u[k].StepActed?
  }

  /** The next act of the step that `t` ends with an act of. */
  ghost predicate AnotherAct(t: seq<Event>, u: seq<Event>) {
    |t| < |u| && u[|u| - 1].StepActed? && Continues(t, u[..|u| - 1]) && Lawful(u)
  }

  /** The step has just been acted on. */
  ghost predicate JustActed(w: Watch, f: Frame, step: Step, result: ActResult, used: nat) {
    && w.own == Some(f) && w.loop.Some?
    && var l := w.loop.value;
       && l.step == step && l.last.Some? && l.last.value.result == result && l.top.None? && !l.pending && l.hand.None?
       && ActAllowed(f, step, l.armed) && l.acts <= 1 + l.transients + l.retried
       && l.iters == 1 + l.recoveries + l.transients + l.resumed + l.retried
       && l.recoveries <= step.retryBudget && l.transients == used <= step.retryBudget
  }

  lemma ActingLeaves(t: seq<Event>)
    requires Lawful(t) && t != [] && t[|t| - 1].StepActed? && t[|t| - 1].result.Got?
    ensures var e := t[|t| - 1]; JustActed(Watched(t), e.f, e.step, e.result.value, Count(t, Transients))
  {
    hide Lawful, Legal, Advance, ActAllowed;
    var s, e := t[..|t| - 1], t[|t| - 1];
    LegalAt(t, |t| - 1);
    TurnChanges(Watched(s), e);
    AlwaysBalanced(s);
    ActingIsAllowed(Watched(s), e.f, e.step, e.action, e.on, e.result);
  }

  lemma ActingIsAllowed(w: Watch, f: Frame, step: Step, action: Action, on: Observation, result: Awaited<ActResult>)
    requires Legal(w, StepActed(f, step, action, on, result))
    ensures w.loop.Some? && ActAllowed(f, step, w.loop.value.armed) && Clear(w, f, step, on)
  {
    hide NoAnti, MatchException, Issued;
  }

  // ----- It may be acted on again -----

  /** The step is free to be acted on; its loop is at the top of a turn, on this screen, or about to look for one. */
  ghost predicate InLoop(w: Watch, f: Frame, step: Step, used: nat, pending: bool, top: Option<Observation>) {
    && w.own == Some(f) && w.loop.Some? && (top.Some? ==> w.seen == top)
    && var l := w.loop.value;
       && l.step == step && l.last.None? && l.top == top && l.pending == pending && l.hand.None?
       && ActAllowed(f, step, l.armed) && l.acts <= l.transients + l.retried
       && l.iters == l.recoveries + l.transients + l.resumed + l.retried + (if top.Some? then 1 else 0)
       && l.recoveries <= step.retryBudget && l.transients == used <= step.retryBudget
  }

  /** The look behind the act, and, where it says so, the session restored by the operator. */
  ghost predicate LookedBack(w: Watch, f: Frame, step: Step, result: ActResult, used: nat, a: Observation, restored: bool) {
    && JustActed(w, f, step, result, used) && w.seen == Some(a)
    && (restored ==>
          var found := MatchException(f.cap.exceptionalStates, a); found.Some? && Restored(w, found.value))
  }

  lemma ContinuesOn(t: seq<Event>, u: seq<Event>, e: Event) returns (v: seq<Event>)
    requires Continues(t, u) && Legal(Watched(u), e) && !e.Began? && !e.StepActed?
    ensures v == u + [e] && Continues(t, v) && Watched(v) == Advance(Watched(u), e)
  {
    hide Legal, Advance, Lawful, Watched;
    Appending(u, e);
    v := u + [e];
  }

  lemma LooksBack(w: Watch, f: Frame, step: Step, result: ActResult, used: nat, a: Observation)
    requires JustActed(w, f, step, result, used)
    ensures Legal(w, Looked(a)) && LookedBack(Advance(w, Looked(a)), f, step, result, used, a, false)
    ensures Advance(w, Looked(a)).recovered.None?
  {
    hide ActAllowed;
  }

  /** The screen behind the act goes by only when the operator restores the session. */
  predicate ByOperator(f: Frame, result: ActResult, a: Observation) {
    && !PassesByItself(MatchException(f.cap.exceptionalStates, a))
    && (result.ok || !PassesByItself(MatchMiss(f.cap.exceptionalStates, a)))
  }

  /** The screen that passes by itself: behind a refused act, locator misses come first. */
  function Passing(f: Frame, result: ActResult, a: Observation): Option<ExceptionalState> {
    if !result.ok && PassesByItself(MatchMiss(f.cap.exceptionalStates, a)) then MatchMiss(f.cap.exceptionalStates, a)
    else MatchException(f.cap.exceptionalStates, a)
  }

  const RESUMING := Decision(Resume, None, false, None, None)

  const DONE := ActResult(true, "", false, false)

  lemma Asks(w: Watch, f: Frame, step: Step, result: ActResult, used: nat, a: Observation)
    requires LookedBack(w, f, step, result, used, a, false) && Excusing(f, step, result, a) && ByOperator(f, result, a)
    ensures MatchException(f.cap.exceptionalStates, a).Some?
    ensures var e := Escalated(StrayScreen(MatchException(f.cap.exceptionalStates, a).value), PageOf(a), Got(RESUMING));
            Legal(w, e) && LookedBack(Advance(w, e), f, step, result, used, a, true)
  {
    hide ActAllowed, MatchException, MatchMiss, Holds, NoAnti;
  }

  /** The screen that passes by itself is one to answer. */
  lemma PassingIsRecognised(w: Watch, f: Frame, step: Step, result: ActResult, used: nat, a: Observation)
    requires LookedBack(w, f, step, result, used, a, false) && Excusing(f, step, result, a) && !ByOperator(f, result, a)
    ensures Passing(f, result, a).Some? && Recognised(w, f, Passing(f, result, a).value, a)
  {
    hide ActAllowed, MatchException, MatchMiss, Holds, NoAnti;
  }

  /** Answering a screen leaves all else as it is. */
  lemma Answering(t: seq<Event>, u: seq<Event>, f: Frame, state: ExceptionalState, seen: Observation) returns (v: seq<Event>)
    requires Continues(t, u) && Watched(u).own == Some(f) && Watched(u).seen == Some(seen) && Watched(u).recovered.None?
    requires Recognised(Watched(u), f, state, seen)
    ensures Continues(t, v) && Heeded(Watched(v), state)
    ensures Watched(v) == Watched(u).(calls := Watched(v).calls, recovered := Watched(v).recovered)
  {
    hide Lawful, Watched, Recognised, RecoveryAct;
    v := u;
    if RecoveryAct(state).Some? {
      v := ContinuesOn(t, u, Touched(Recovering(state), RecoveryAct(state).value, Got(DONE)));
    }
  }

  lemma GoesRound(w: Watch, f: Frame, step: Step, result: ActResult, used: nat, a: Observation, restored: bool)
    requires LookedBack(w, f, step, result, used, a, restored) && Excusing(f, step, result, a)
    requires restored <==> ByOperator(f, result, a)
    requires !restored ==> Passing(f, result, a).Some? && Heeded(w, Passing(f, result, a).value)
    requires restored ==> w.recovered.None?
    ensures Legal(w, Retried(restored)) && InLoop(Advance(w, Retried(restored)), f, step, used, false, None)
  {
    hide ActAllowed, MatchException, MatchMiss, Holds, NoAnti, RecoveryAct;
  }

  lemma BacksOffOnce(w: Watch, f: Frame, step: Step, result: ActResult, used: nat)
    requires JustActed(w, f, step, result, used) && used < step.retryBudget && Repeatable(result)
    ensures Legal(w, Charged(true)) && InLoop(Advance(w, Charged(true)), f, step, used + 1, true, None)
  {
    hide ActAllowed, MatchException;
  }

  lemma Tops(w: Watch, f: Frame, step: Step, used: nat, pending: bool, c: Observation)
    requires InLoop(w, f, step, used, pending, None)
    ensures Legal(w, Looked(c)) && Legal(Advance(w, Looked(c)), Iterated(c))
    ensures var v := Advance(Advance(w, Looked(c)), Iterated(c));
            InLoop(v, f, step, used, pending, Some(c)) && v.recovered.None?
  {
    hide ActAllowed;
  }

  lemma WaitsOut(w: Watch, f: Frame, step: Step, used: nat, d: Observation)
    requires InLoop(w, f, step, used, false, Some(d)) && ShowsTransient(f, step, d) && used < step.retryBudget
    requires Heeded(w, MatchException(f.cap.exceptionalStates, d).value)
    ensures Legal(w, Charged(true)) && InLoop(Advance(w, Charged(true)), f, step, used + 1, true, None)
  {
    hide ActAllowed, MatchException, NoAnti;
  }

  lemma ActsOn(w: Watch, f: Frame, step: Step, used: nat, pending: bool, c: Observation, next: Awaited<ActResult>)
    requires InLoop(w, f, step, used, pending, Some(c)) && Unopposed(f, step, c)
    requires pending || MatchException(f.cap.exceptionalStates, c).None?
    ensures var action := Issued(step, f.o.inputs, f.key);
            && Legal(w, Ruled(f, step, action, c, Got(true)))
            && Legal(Advance(w, Ruled(f, step, action, c, Got(true))), StepActed(f, step, action, c, next))
  {
    hide ActAllowed, MatchException, NoAnti, Issued;
  }

  lemma AskingAnswersNothing(w: Watch, e: Event)
    requires e.Escalated?
    ensures Advance(w, e).recovered == w.recovered
  {
  }

  lemma LookedBackMeans(w: Watch, f: Frame, step: Step, result: ActResult, used: nat, a: Observation)
    requires LookedBack(w, f, step, result, used, a, false)
    ensures w.own == Some(f) && w.seen == Some(a)
  {
  }

  lemma AnsweringLeavesTheTurn(w: Watch, v: Watch, f: Frame, step: Step, result: ActResult, used: nat, a: Observation)
    requires v == w.(calls := v.calls, recovered := v.recovered)
    requires LookedBack(w, f, step, result, used, a, false)
    ensures LookedBack(v, f, step, result, used, a, false)
  {
    hide ActAllowed, Restored, MatchException;
  }

  /** A screen at the top that passes by itself is one to answer, and answering it leaves the turn as it is. */
  lemma TopIsRecognised(w: Watch, f: Frame, step: Step, used: nat, d: Observation)
    requires InLoop(w, f, step, used, false, Some(d)) && ShowsTransient(f, step, d)
    ensures w.own == Some(f) && w.seen == Some(d)
    ensures MatchException(f.cap.exceptionalStates, d).Some?
    ensures Recognised(w, f, MatchException(f.cap.exceptionalStates, d).value, d)
  {
    hide ActAllowed, MatchException, MatchMiss, NoAnti;
  }

  lemma AnsweringLeavesTheTop(w: Watch, v: Watch, f: Frame, step: Step, used: nat, d: Observation)
    requires v == w.(calls := v.calls, recovered := v.recovered) && InLoop(w, f, step, used, false, Some(d))
    ensures InLoop(v, f, step, used, false, Some(d))
  {
    hide ActAllowed;
  }

  /** The look behind the act excuses it. */
  lemma SentRound(t: seq<Event>, f: Frame, step: Step, result: ActResult, used: nat, a: Observation) returns (u: seq<Event>)
    requires Lawful(t) && JustActed(Watched(t), f, step, result, used) && Excusing(f, step, result, a)
    ensures Continues(t, u) && InLoop(Watched(u), f, step, used, false, None)
  {
    hide Legal, Advance, Lawful, Watched, Excusing, InLoop, JustActed, LookedBack, ByOperator, Recognised, Passing,
      Heeded;
    LooksBack(Watched(t), f, step, result, used, a);
    u := ContinuesOn(t, t, Looked(a));
    var asks := ByOperator(f, result, a);
    if asks {
      Asks(Watched(u), f, step, result, used, a);
      var found := MatchException(f.cap.exceptionalStates, a).value;
      AskingAnswersNothing(Watched(u), Escalated(StrayScreen(found), PageOf(a), Got(RESUMING)));
      u := ContinuesOn(t, u, Escalated(StrayScreen(found), PageOf(a), Got(RESUMING)));
    } else {
      PassingIsRecognised(Watched(u), f, step, result, used, a);
      LookedBackMeans(Watched(u), f, step, result, used, a);
      var v := Answering(t, u, f, Passing(f, result, a).value, a);
      AnsweringLeavesTheTurn(Watched(u), Watched(v), f, step, result, used, a);
      u := v;
    }
    GoesRound(Watched(u), f, step, result, used, a, asks);
    u := ContinuesOn(t, u, Retried(asks));
  }

  lemma Topped(t: seq<Event>, u: seq<Event>, f: Frame, step: Step, used: nat, pending: bool, c: Observation)
      returns (v: seq<Event>)
    requires Continues(t, u) && InLoop(Watched(u), f, step, used, pending, None)
    ensures Continues(t, v) && InLoop(Watched(v), f, step, used, pending, Some(c)) && Watched(v).recovered.None?
  {
    hide Legal, Advance, Lawful, Watched, InLoop;
    Tops(Watched(u), f, step, used, pending, c);
    v := ContinuesOn(t, u, Looked(c));
    v := ContinuesOn(t, v, Iterated(c));
  }

  /** Round again, and free to act on the screen `c`. */
  lemma Prepared(t: seq<Event>, f: Frame, step: Step, result: ActResult, used: nat, c: Observation)
      returns (u: seq<Event>, spent: nat, pending: bool)
    requires Lawful(t) && JustActed(Watched(t), f, step, result, used) && ActsAgainOn(f, step, result, used, c)
    ensures Continues(t, u) && InLoop(Watched(u), f, step, spent, pending, None)
    ensures pending || MatchException(f.cap.exceptionalStates, c).None?
  {
    hide Legal, Advance, Lawful, Watched, Excusing, InLoop, JustActed, Repeatable, ShowsTransient, NoAnti, MatchException,
      Heeded, Recognised;
    if used < step.retryBudget && Repeatable(result) {
      BacksOffOnce(Watched(t), f, step, result, used);
      u := ContinuesOn(t, t, Charged(true));
      spent, pending := used + 1, true;
    } else {
      var a :| Excusing(f, step, result, a);
      u := SentRound(t, f, step, result, used, a);
      spent, pending := used, false;
      if MatchException(f.cap.exceptionalStates, c).Some? {
        var d :| ShowsTransient(f, step, d);
        u := Topped(t, u, f, step, used, false, d);
        TopIsRecognised(Watched(u), f, step, used, d);
        var v := Answering(t, u, f, MatchException(f.cap.exceptionalStates, d).value, d);
        AnsweringLeavesTheTop(Watched(u), Watched(v), f, step, used, d);
        u := v;
        WaitsOut(Watched(u), f, step, used, d);
        u := ContinuesOn(t, u, Charged(true));
        spent, pending := used + 1, true;
      }
    }
  }

  /** Whatever its result. */
  lemma ActsAgain(t: seq<Event>, f: Frame, step: Step, result: ActResult, used: nat, c: Observation, next: Awaited<ActResult>)
      returns (v: seq<Event>)
    requires Lawful(t) && JustActed(Watched(t), f, step, result, used) && ActsAgainOn(f, step, result, used, c)
    ensures AnotherAct(t, v) && v[|v| - 1] == StepActed(f, step, Issued(step, f.o.inputs, f.key), c, next)
  {
    hide Legal, Advance, Lawful, Watched, InLoop, JustActed, NoAnti, MatchException, Repeatable, Excusable,
      TransientDeclared, Issued;
    var u, spent, pending := Prepared(t, f, step, result, used, c);
    u := Topped(t, u, f, step, spent, pending, c);
    ActsOn(Watched(u), f, step, spent, pending, c, next);
    var action := Issued(step, f.o.inputs, f.key);
    u := ContinuesOn(t, u, Ruled(f, step, action, c, Got(true)));
    Appending(u, StepActed(f, step, action, c, next));
    v := u + [StepActed(f, step, action, c, next)];
    assert v[..|v| - 1] == u;
  }

  // ----- It may not, otherwise -----

  /** In the turn of the act. */
  ghost predicate InTurn(l: Loop, result: ActResult, used: nat) {
    && l.last.Some? && l.last.value.result == result && l.top.None? && !l.pending && l.transients == used
    && l.iters == 1 + l.recoveries + l.transients + l.resumed + l.retried
  }

  /** Sent round for a reason. */
  ghost predicate InRound(l: Loop, f: Frame, step: Step, result: ActResult, used: nat) {
    && l.last.None?
    && if l.pending then l.transients == used + 1 && (Repeatable(result) || (Excusable(f, step, result) && TransientDeclared(f, step)))
       else l.transients == used && Excusable(f, step, result)
  }

  /** What the loop has come to since the act. */
  ghost predicate Since(w: Watch, f: Frame, step: Step, result: ActResult, used: nat) {
    w.loop.Some? ==>
      && w.own == Some(f) && w.loop.value.step == step
      && (InTurn(w.loop.value, result, used) || InRound(w.loop.value, f, step, result, used))
  }

  lemma ChargingStays(w: Watch, transient: bool, f: Frame, step: Step, result: ActResult, used: nat)
    requires Legal(w, Charged(transient)) && Since(w, f, step, result, used)
    ensures Since(Advance(w, Charged(transient)), f, step, result, used)
  {
    hide MatchException, NoAnti, Excusable;
    if transient && !BacksOff(w) {
      assert ShowsTransient(f, step, w.seen.value);
    }
  }

  lemma RetryingStays(w: Watch, reauth: bool, f: Frame, step: Step, result: ActResult, used: nat)
    requires Legal(w, Retried(reauth)) && Since(w, f, step, result, used)
    ensures Since(Advance(w, Retried(reauth)), f, step, result, used)
  {
    hide MatchException, MatchMiss, NoAnti, Holds, TransientDeclared;
    assert Excusing(f, step, result, w.seen.value);
  }

  lemma OthersStay(w: Watch, e: Event, f: Frame, step: Step, result: ActResult, used: nat)
    requires Legal(w, e) && !e.Began? && !e.StepActed? && !e.Charged? && !e.Retried? && Since(w, f, step, result, used)
    ensures Since(Advance(w, e), f, step, result, used)
  {
    hide Legal, Advance, Excusable, TransientDeclared, NormalizeDecision;
    if e.Iterated? {
      TurnChanges(w, e);
    } else if e.Resumed? {
      ResumingIsAtTheTop(w);
      LabelChanges(w, e);
    } else if Advance(w, e).loop.Some? {
      OthersCountNothing(w, e);
    }
  }

  lemma ResumingIsAtTheTop(w: Watch)
    requires Legal(w, Resumed)
    ensures w.loop.Some? && w.loop.value.top.Some?
  {
    hide MatchException, NoAnti;
  }

  lemma SinceStays(w: Watch, e: Event, f: Frame, step: Step, result: ActResult, used: nat)
    requires Legal(w, e) && !e.Began? && !e.StepActed? && Since(w, f, step, result, used)
    ensures Since(Advance(w, e), f, step, result, used)
  {
    hide Legal, Advance, Since;
    match e
    case Charged(transient) => ChargingStays(w, transient, f, step, result, used);
    case Retried(reauth) => RetryingStays(w, reauth, f, step, result, used);
    case _ => OthersStay(w, e, f, step, result, used);
  }

  lemma ActingIsSince(w: Watch, f: Frame, step: Step, result: ActResult, used: nat)
    requires JustActed(w, f, step, result, used)
    ensures Since(w, f, step, result, used)
  {
    hide ActAllowed;
  }

  lemma {:induction false} AlwaysSince(t: seq<Event>, u: seq<Event>, f: Frame, step: Step, result: ActResult, used: nat)
    requires JustActed(Watched(t), f, step, result, used) && Continues(t, u)
    ensures Since(Watched(u), f, step, result, used)
  {
    hide Legal, Advance, Since, JustActed;
    if |u| == |t| {
      assert u == t;
      ActingIsSince(Watched(t), f, step, result, used);
    } else {
      var s := u[..|u| - 1];
      LegalAt(u, |u| - 1);
      assert s[..|t|] == t;
      AlwaysSince(t, s, f, step, result, used);
      SinceStays(Watched(s), u[|u| - 1], f, step, result, used);
    }
  }

  lemma ActsOnlyIf(t: seq<Event>, u: seq<Event>, f: Frame, step: Step, result: ActResult, used: nat)
    requires JustActed(Watched(t), f, step, result, used) && AnotherAct(t, u)
    ensures CanActAgain(f, step, result, used)
  {
    hide Legal, Lawful, Watched, JustActed, ActAllowed, NoAnti, MatchException, Excusable, TransientDeclared,
      Repeatable, CountsOf;
    var s, e := u[..|u| - 1], u[|u| - 1];
    LegalAt(u, |u| - 1);
    AlwaysSince(t, s, f, step, result, used);
    AlwaysBalanced(s);
    ActingIsAllowed(Watched(s), e.f, e.step, e.action, e.on, e.result);
    assert ActsAgainOn(f, step, result, used, e.on);
  }

  // ----- An act that throws -----

  /** The turn of the act goes on with nothing to retry. */
  ghost predicate Stranded(w: Watch) {
    w.loop.Some? ==>
      var l := w.loop.value;
      l.last.None? && l.top.None? && l.iters == 1 + l.recoveries + l.transients + l.resumed + l.retried
  }

  lemma StrandedStays(w: Watch, e: Event)
    requires Legal(w, e) && !e.Began? && Stranded(w)
    ensures Stranded(Advance(w, e)) && !e.StepActed?
  {
    hide Legal, Advance, NormalizeDecision;
    if e.Iterated? || e.StepActed? {
      TurnChanges(w, e);
    } else if e.Charged? || e.Resumed? || e.Retried? {
      ChargingNeedsATurn(w, e);
    } else if Advance(w, e).loop.Some? {
      OthersCountNothing(w, e);
    }
  }

  lemma ChargingNeedsATurn(w: Watch, e: Event)
    requires Legal(w, e) && (e.Charged? || e.Resumed? || e.Retried?)
    ensures w.loop.Some? && (w.loop.value.top.Some? || w.loop.value.last.Some?)
  {
    hide MatchException, MatchMiss, NoAnti, CheckMissed, Excuses, Restored;
  }

  lemma {:induction false} AlwaysStranded(t: seq<Event>, u: seq<Event>)
    requires Stranded(Watched(t)) && Continues(t, u)
    ensures Stranded(Watched(u))
  {
    hide Legal, Advance, Stranded;
    if |u| == |t| {
      assert u == t;
    } else {
      var s := u[..|u| - 1];
      LegalAt(u, |u| - 1);
      assert s[..|t|] == t;
      AlwaysStranded(t, s);
      StrandedStays(Watched(s), u[|u| - 1]);
    }
  }

  lemma ThrowingLeaves(t: seq<Event>)
    requires Lawful(t) && t != [] && t[|t| - 1].StepActed? && t[|t| - 1].result.Threw?
    ensures Stranded(Watched(t))
  {
    hide Lawful, Legal, Advance;
    LegalAt(t, |t| - 1);
    TurnChanges(Watched(t[..|t| - 1]), t[|t| - 1]);
    AlwaysBalanced(t[..|t| - 1]);
  }

  /** A step whose act threw is not acted on again. */
  lemma ThrowingIsFinal(t: seq<Event>, u: seq<Event>)
    requires Lawful(t) && t != [] && t[|t| - 1].StepActed? && t[|t| - 1].result.Threw?
    ensures !AnotherAct(t, u)
  {
    hide Lawful, Legal, Watched, Stranded;
    if AnotherAct(t, u) {
      ThrowingLeaves(t);
      AlwaysStranded(t, u[..|u| - 1]);
      LegalAt(u, |u| - 1);
      StrandedStays(Watched(u[..|u| - 1]), u[|u| - 1]);
    }
  }

  // ----- Exactly when -----

  /**
   * A step just acted on can be acted on again exactly when the result is worth repeating and budget is left, or some
   * screen excuses the result and some screen is clear: a condition on the result, the declared screens and the budget.
   */
  lemma ActsAgainExactlyWhen(t: seq<Event>)
    requires Lawful(t) && t != [] && t[|t| - 1].StepActed? && t[|t| - 1].result.Got?
    ensures var e := t[|t| - 1];
            (exists u :: AnotherAct(t, u)) <==> CanActAgain(e.f, e.step, e.result.value, Count(t, Transients))
  {
    hide Lawful, Watched, JustActed, AnotherAct, ActsAgainOn;
    var e, used := t[|t| - 1], Count(t, Transients);
    ActingLeaves(t);
    if c :| ActsAgainOn(e.f, e.step, e.result.value, used, c) {
      var v := ActsAgain(t, e.f, e.step, e.result.value, used, c, Threw);
    }
    if u :| AnotherAct(t, u) {
      ActsOnlyIf(t, u, e.f, e.step, e.result.value, used);
    }
  }

  /** A screen that sends the step round again behind an act of some result. */
  predicate SendsRound(f: Frame, step: Step, a: Observation) {
    || (step.checkpoint.Some? && !Holds(step.checkpoint.value, a, f.eyes) && Unopposed(f, step, a)
        && Excuser(f, MatchException(f.cap.exceptionalStates, a)))
    || PassesByItself(MatchMiss(f.cap.exceptionalStates, a))
    || (NoMiss(f, a) && Excuser(f, MatchException(f.cap.exceptionalStates, a)))
  }

  predicate IsClear(f: Frame, step: Step, c: Observation) {
    Unopposed(f, step, c) && MatchException(f.cap.exceptionalStates, c).None?
  }

  lemma SomeResultIsExcused(f: Frame, step: Step, a: Observation)
    ensures (exists result :: Excusing(f, step, result, a)) <==> SendsRound(f, step, a)
  {
    hide MatchException, MatchMiss, NoAnti, Holds;
    var went, refused := ActResult(true, "", false, false), ActResult(false, "", false, false);
    assert SendsRound(f, step, a) ==> Excusing(f, step, went, a) || Excusing(f, step, refused, a);
  }

  lemma RepeatsExactlyWhen(f: Frame, step: Step, used: nat, on: Observation)
    requires Unopposed(f, step, on)
    ensures used < step.retryBudget || (exists a, c :: SendsRound(f, step, a) && IsClear(f, step, c))
            <==> exists result :: CanActAgain(f, step, result, used)
  {
    hide Unopposed, MatchException, SendsRound, Excusing;
    var refused := ActResult(false, "", false, true);
    if used < step.retryBudget {
      assert ActsAgainOn(f, step, refused, used, on) && CanActAgain(f, step, refused, used);
    }
    if a, c :| SendsRound(f, step, a) && IsClear(f, step, c) {
      SomeResultIsExcused(f, step, a);
      var result :| Excusing(f, step, result, a);
      assert ActsAgainOn(f, step, result, used, c) && CanActAgain(f, step, result, used);
    }
    if result :| CanActAgain(f, step, result, used) && used >= step.retryBudget {
      var c :| ActsAgainOn(f, step, result, used, c);
      var a :| Excusing(f, step, result, a);
      SomeResultIsExcused(f, step, a);
      assert SendsRound(f, step, a) && IsClear(f, step, c);
    }
  }

  /** About to act on the step. */
  ghost predicate AboutToAct(t: seq<Event>, f: Frame, step: Step, action: Action, on: Observation) {
    Lawful(t) && MayAct(Watched(t), f, step, action, on)
  }

  function Acting(t: seq<Event>, f: Frame, step: Step, action: Action, on: Observation, result: Awaited<ActResult>): seq<Event> {
    t + [StepActed(f, step, action, on, result)]
  }

  /**
   * "Will execute once" holds of the act about to be taken, whatever it comes to, exactly when the step has no retry
   * left in its budget and no screen that sends it round, or no screen to act on behind one.
   */
  lemma ExecutesOnceExactlyWhen(t: seq<Event>, f: Frame, step: Step, action: Action, on: Observation)
    requires AboutToAct(t, f, step, action, on)
    ensures (forall result, u :: !AnotherAct(Acting(t, f, step, action, on, result), u))
            <==> Count(t, Transients) >= step.retryBudget && !(exists a, c :: SendsRound(f, step, a) && IsClear(f, step, c))
  {
    hide Lawful, Watched, Legal, MayAct, AnotherAct, CanActAgain, SendsRound, IsClear;
    var used := Count(t, Transients);
    ActsAreClear(t, f, step, action, on);
    RepeatsExactlyWhen(f, step, used, on);
    forall result
      ensures (exists u :: AnotherAct(Acting(t, f, step, action, on, result), u))
              <==> result.Got? && CanActAgain(f, step, result.value, used)
    {
      var s := Acting(t, f, step, action, on, result);
      ActingIsLawful(t, f, step, action, on, result);
      if result.Got? {
        ActsAgainExactlyWhen(s);
      } else if u :| AnotherAct(s, u) {
        ThrowingIsFinal(s, u);
      }
    }
    if result :| CanActAgain(f, step, result, used) {
      var u :| AnotherAct(Acting(t, f, step, action, on, Got(result)), u);
    }
  }

  lemma ActsAreClear(t: seq<Event>, f: Frame, step: Step, action: Action, on: Observation)
    requires AboutToAct(t, f, step, action, on)
    ensures Unopposed(f, step, on)
  {
    hide NoAnti, MatchException, Issued;
  }

  lemma ActingIsLawful(t: seq<Event>, f: Frame, step: Step, action: Action, on: Observation, result: Awaited<ActResult>)
    requires AboutToAct(t, f, step, action, on)
    ensures var s := Acting(t, f, step, action, on, result);
            && Lawful(s) && s[|s| - 1] == StepActed(f, step, action, on, result)
            && Count(s, Transients) == Count(t, Transients)
  {
    hide Lawful, MayAct, Advance, Watched;
    Appending(t, StepActed(f, step, action, on, result));
    assert Acting(t, f, step, action, on, result)[..|t|] == t;
  }

  // ----- Any number of times -----

  /** The same step, acted on this many times more. */
  ghost predicate MoreActs(t: seq<Event>, u: seq<Event>, k: nat) {
    && |t| <= |u| && u[..|t|] == t && Lawful(u) && (forall i | |t| <= i < |u| :: !u[i].Began?)
    && Count(u, Acts) == Count(t, Acts) + k
  }

  lemma {:induction false} CountInTheSameStep(t: seq<Event>, u: seq<Event>)
    requires Continues(t, u)
    ensures Count(u, Acts) == Count(t, Acts)
  {
    hide Lawful;
    if |u| == |t| {
      assert u == t;
    } else {
      LegalAt(u, |u| - 1);
      assert u[..|u| - 1][..|t|] == t;
      CountInTheSameStep(t, u[..|u| - 1]);
    }
  }

  /**
   * Where a screen excuses the result and a screen is clear, no bound holds: however often the step has been acted on,
   * every lawful trace goes on to any number of acts more.
   */
  lemma {:induction false} ActsAnyNumberOfTimes(t: seq<Event>, a: Observation, c: Observation, k: nat) returns (u: seq<Event>)
    requires Lawful(t) && t != [] && t[|t| - 1].StepActed? && t[|t| - 1].result.Got?
    requires var e := t[|t| - 1]; Excusing(e.f, e.step, e.result.value, a) && IsClear(e.f, e.step, c)
    ensures MoreActs(t, u, k) && u[|u| - 1].StepActed?
    ensures u[|u| - 1].f == t[|t| - 1].f && u[|u| - 1].step == t[|t| - 1].step && u[|u| - 1].result == t[|t| - 1].result
  {
    hide Lawful, Watched, JustActed, Excusing, IsClear, Issued;
    if k == 0 {
      u := t;
    } else {
      var v := ActsAnyNumberOfTimes(t, a, c, k - 1);
      var e := v[|v| - 1];
      ActingLeaves(v);
      ExcusedAndClear(e.f, e.step, e.result.value, Count(v, Transients), a, c);
      u := ActsAgain(v, e.f, e.step, e.result.value, Count(v, Transients), c, e.result);
      var s := u[..|u| - 1];
      CountInTheSameStep(v, s);
      assert u[..|t|] == v[..|t|];
      assert forall i | |v| <= i < |s| :: u[i] == s[i];
    }
  }

  lemma ExcusedAndClear(f: Frame, step: Step, result: ActResult, used: nat, a: Observation, c: Observation)
    requires Excusing(f, step, result, a) && IsClear(f, step, c)
    ensures ActsAgainOn(f, step, result, used, c)
  {
    hide Excusing, NoAnti, MatchException, TransientDeclared;
  }

  // ----- Nothing declared -----

  /** The run whose step is the newest. */
  function NewestFrame(t: seq<Event>): Option<Frame> {
    if t == [] then None
    else if t[|t| - 1].Began? then Some(t[|t| - 1].f)
    else NewestFrame(t[..|t| - 1])
  }

  lemma FrameStays(w: Watch, e: Event, newest: Option<Frame>)
    requires Legal(w, e) && (w.loop.Some? ==> w.own == newest)
    ensures Advance(w, e).loop.Some? ==> Advance(w, e).own == if e.Began? then Some(e.f) else newest
  {
    hide Legal, Advance;
    if Counted(e) {
      CountedChanges(w, e);
    } else if Advance(w, e).loop.Some? {
      OthersCountNothing(w, e);
    }
  }

  lemma {:induction false} NewestFrameIsOn(t: seq<Event>)
    requires Lawful(t)
    ensures Watched(t).loop.Some? ==> Watched(t).own == NewestFrame(t)
  {
    if t != [] {
      hide Legal, Advance, Lawful;
      LegalAt(t, |t| - 1);
      NewestFrameIsOn(t[..|t| - 1]);
      FrameStays(Watched(t[..|t| - 1]), t[|t| - 1], NewestFrame(t[..|t| - 1]));
    }
  }

  /** No declared state sends a step round: none transient, none recoverable, and no expired session with an operator. */
  predicate NoneDeclared(f: Frame) {
    forall s | s in f.cap.exceptionalStates :: !s.classify.Transient? && !s.classify.Recoverable? && !Expired(f, s)
  }

  lemma RetryingNeedsADeclaration(w: Watch, reauth: bool)
    requires Legal(w, Retried(reauth))
    ensures w.own.Some? && w.loop.Some? && !NoneDeclared(w.own.value)
  {
    hide Legal, Holds;
    RetryMeans(w, reauth);
  }

  lemma {:induction false} NothingUncharged(t: seq<Event>, f: Frame)
    requires Lawful(t) && NewestFrame(t) == Some(f) && NoneDeclared(f)
    ensures Count(t, UnchargedRetries) == 0
  {
    hide Lawful, NoneDeclared, Watched;
    var s, e := t[..|t| - 1], t[|t| - 1];
    if !e.Began? {
      LegalAt(t, |t| - 1);
      NothingUncharged(s, f);
      if e.Retried? {
        NewestFrameIsOn(s);
        RetryingNeedsADeclaration(Watched(s), e.reauth);
      }
    }
  }

  /** With no such state declared, a step is acted on once, and once more for each retry of its budget, in every run. */
  lemma ActedOnceUnlessDeclared(t: seq<Event>, n: nat)
    requires Lawful(t) && n <= |t| && NewestStep(t[..n]).Some?
    requires NewestFrame(t[..n]).Some? && NoneDeclared(NewestFrame(t[..n]).value)
    ensures Count(t[..n], Acts) <= 1 + NewestStep(t[..n]).value.retryBudget
  {
    hide Lawful, NoneDeclared;
    PrefixLawful(t, n);
    NothingUncharged(t[..n], NewestFrame(t[..n]).value);
    StepStaysInBudget(t, n);
  }
}
