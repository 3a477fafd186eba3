/** What every lawful trace says about whole runs, told without the observer of `Trace`. */
module TraceLaws {
  import opened Prelude
  import opened Capabilities
  import opened Outputs
  import opened Decisions
  import opened Trace

  /** Each event was legal at its place, behind a lawful trace. */
  lemma LegalAt(t: seq<Event>, i: nat)
    requires Lawful(t) && i < |t|
    ensures Lawful(t[..i]) && Legal(Watched(t[..i]), t[i])
  {
    hide Legal, Watched;
    assert AllowedAt(t, i);
    forall j: nat | j < i
      ensures AllowedAt(t[..i], j)
    {
      assert AllowedAt(t, j) && t[..i][..j] == t[..j];
    }
  }

  lemma PrefixLawful(t: seq<Event>, n: nat)
    requires Lawful(t) && n <= |t|
    ensures Lawful(t[..n])
  {
    if n < |t| {
      LegalAt(t, n);
    } else {
      assert t[..n] == t;
    }
  }

  // ----- How an event changes the loop -----

  predicate Counted(e: Event) {
    e.Began? || e.Iterated? || e.Charged? || e.Resumed? || e.Retried? || e.StepActed?
  }

  lemma SettlingOnlySettles(w: Watch, outputs: Bag)
    ensures var v := Trace.Settle(w, outputs); v == w.(levels := v.levels, joined := v.joined)
  {
  }

  /** What the observer knows of the loop behind an event that is not counted. */
  ghost predicate LoopBehind(l: Loop, m: Loop, e: Event) {
    match e
    case HandedBack(_, step, _, _) => l.step == step && m == l.(armed := true)
    case Ruled(_, step, _, _, verdict) => l.step == step && m == l.(ruling := if verdict.Got? then Some(verdict.value) else None)
    case Looked(seen) => Some(m) == Behind(Some(l), seen)
    case Escalated(RiskyStep, _, Threw) => l.hand.None? && m == l
    case Escalated(RiskyStep, _, Got(d)) => l.hand.None? && m == l.(hand := Some(Hand(NormalizeDecision(d), None)))
    case _ => m == l
  }

  lemma WordsCountNothing(w: Watch, e: Event)
    requires Legal(w, e) && (e.HandedBack? || e.Ruled?)
    ensures w.own == Some(e.f) && w.loop.Some? && Advance(w, e).loop.Some? && Advance(w, e).own == w.own
    ensures LoopBehind(w.loop.value, Advance(w, e).loop.value, e)
  {
    hide Holds, NoAnti, MatchException, Passable, ActAllowed, Issued;
  }

  lemma LooksCountNothing(w: Watch, seen: Observation)
    requires Advance(w, Looked(seen)).loop.Some?
    ensures var v := Advance(w, Looked(seen));
            w.loop.Some? && v.own == w.own && LoopBehind(w.loop.value, v.loop.value, Looked(seen))
  {
  }

  lemma CallsCountNothing(w: Watch, e: Event)
    requires Legal(w, e) && e.Escalated? && Advance(w, e).loop.Some?
    ensures w.loop.Some? && Advance(w, e).own == w.own && LoopBehind(w.loop.value, Advance(w, e).loop.value, e)
  {
    hide Recognised, NormalizeDecision, Clear, PageOf;
  }

  lemma TheRestCountNothing(w: Watch, e: Event)
    requires Legal(w, e) && !Counted(e) && !e.HandedBack? && !e.Ruled? && !e.Looked? && !e.Escalated?
    requires Advance(w, e).loop.Some?
    ensures w.loop == Advance(w, e).loop && Advance(w, e).own == w.own && !e.Ended? && !e.Opened?
  {
    hide Holds, NoAnti, Explains, OfTheTop, MayEnd, MayExtract, MayFill, ChildOf, Barred, MayPassOn, NoChild,
      Trace.Settle, MatchException, Passable, MayTouch, MayPassOver;
    if e.PassedOver? || e.Joined? {
      SettlingOnlySettles(w, if e.Joined? then w.bag else map[]);
    }
  }

  lemma OthersCountNothing(w: Watch, e: Event)
    requires Legal(w, e) && !Counted(e) && Advance(w, e).loop.Some?
    ensures w.loop.Some? && Advance(w, e).own == w.own && !e.Ended? && !e.Opened?
    ensures LoopBehind(w.loop.value, Advance(w, e).loop.value, e)
    ensures e.HandedBack? || e.Ruled? ==> w.own == Some(e.f)
  {
    hide Legal, Advance, NormalizeDecision;
    if e.HandedBack? || e.Ruled? {
      WordsCountNothing(w, e);
    } else if e.Looked? {
      LooksCountNothing(w, e.seen);
    } else if e.Escalated? {
      CallsCountNothing(w, e);
    } else {
      TheRestCountNothing(w, e);
    }
  }

  /** What the observer knows of the loop behind a counted event in it. */
  ghost predicate LoopBehindCounted(l: Loop, m: Loop, e: Event)
    requires Counted(e)
  {
    match e
    case Began(_, step) => m == Fresh(step)
    case Iterated(on) => m == l.(top := Some(on), iters := l.iters + 1, hand := None, ruling := None, last := None)
    case Charged(transient) =>
      m == if transient then l.(top := None, last := None, transients := l.transients + 1, pending := true)
           else l.(top := None, last := None, recoveries := l.recoveries + 1)
    case Resumed => m == l.(top := None, last := None, resumed := l.resumed + 1)
    case Retried(_) => m == l.(top := None, last := None, retried := l.retried + 1)
    case StepActed(_, step, action, _, result) =>
      l.step == step
      && m == l.(acts := l.acts + 1, top := None, pending := false, hand := None, ruling := None,
                 last := if result.Got? then Some(Attempt(action, result.value)) else None)
  }

  lemma LabelChanges(w: Watch, e: Event)
    requires Legal(w, e) && (e.Charged? || e.Resumed? || e.Retried?)
    ensures w.loop.Some? && Advance(w, e).loop.Some? && Advance(w, e).own == w.own
    ensures LoopBehindCounted(w.loop.value, Advance(w, e).loop.value, e)
  {
    hide Holds, MatchException, MatchMiss, Excuses, CheckMissed, Restored;
  }

  lemma TurnChanges(w: Watch, e: Event)
    requires Legal(w, e) && (e.Began? || e.Iterated? || e.StepActed?)
    ensures Advance(w, e).loop.Some? && Advance(w, e).own == w.own && (!e.Began? ==> w.loop.Some?)
    ensures LoopBehindCounted(if w.loop.Some? then w.loop.value else Advance(w, e).loop.value, Advance(w, e).loop.value, e)
    ensures e.Began? || e.StepActed? ==> w.own == Some(e.f)
    ensures e.StepActed? ==> w.loop.value.top.Some? && w.loop.value.acts <= w.loop.value.transients + w.loop.value.retried
    ensures e.Iterated? ==>
              var l := w.loop.value;
              && l.recoveries <= l.step.retryBudget && l.transients <= l.step.retryBudget
              && l.iters == l.recoveries + l.transients + l.resumed + l.retried
  {
    hide NoAnti, MatchException, ActAllowed, Issued;
  }

  lemma CountedChanges(w: Watch, e: Event)
    requires Legal(w, e) && Counted(e)
    ensures Advance(w, e).loop.Some? && Advance(w, e).own == w.own && (!e.Began? ==> w.loop.Some?)
    ensures LoopBehindCounted(if w.loop.Some? then w.loop.value else Advance(w, e).loop.value, Advance(w, e).loop.value, e)
    ensures e.Began? || e.StepActed? ==> w.own == Some(e.f)
  {
    hide Legal, Advance, LoopBehindCounted;
    if e.Charged? || e.Resumed? || e.Retried? {
      LabelChanges(w, e);
    } else {
      TurnChanges(w, e);
    }
  }

  // ----- What the observer remembers, and where it happened -----

  ghost predicate LatestLook(t: seq<Event>, q: nat, n: nat, seen: Observation)
    requires n <= |t|
  {
    q < n && t[q] == Looked(seen) && forall k | q < k < n :: !t[k].Looked? && !t[k].StepActed?
  }

  lemma SeenChanges(w: Watch, e: Event)
    requires Legal(w, e) && Advance(w, e).seen.Some?
    ensures if e.Looked? then Advance(w, e).seen == Some(e.seen) else !e.StepActed? && Advance(w, e).seen == w.seen
  {
    hide Legal, Behind, Fill, NormalizeDecision, Trace.Settle;
    if e.StepActed? {
      TurnChanges(w, e);
    } else if e.PassedOver? || e.Joined? {
      SettlingOnlySettles(w, if e.Joined? then w.bag else map[]);
    }
  }

  lemma {:induction false} SeenIsLatest(t: seq<Event>)
    requires Lawful(t) && Watched(t).seen.Some?
    ensures exists q: nat :: LatestLook(t, q, |t|, Watched(t).seen.value)
  {
    hide Legal, Advance;
    LegalAt(t, |t| - 1);
    var s, e := t[..|t| - 1], t[|t| - 1];
    SeenChanges(Watched(s), e);
    if e.Looked? {
      assert LatestLook(t, |t| - 1, |t|, e.seen);
    } else {
      SeenIsLatest(s);
      var q: nat :| LatestLook(s, q, |s|, Watched(s).seen.value);
      assert LatestLook(t, q, |t|, Watched(t).seen.value);
    }
  }

  ghost predicate LatestEscalation(t: seq<Event>, p: nat, n: nat, entry: Checkpoint)
    requires n <= |t|
  {
    p < n && t[p].Escalated? && t[p].entry == entry && forall k | p < k < n :: !t[k].Escalated?
  }

  lemma EntryChanges(w: Watch, e: Event)
    ensures Advance(w, e).entry == if e.Escalated? then Some(e.entry) else w.entry
  {
    if e.PassedOver? || e.Joined? {
      assert Trace.Settle(w, if e.Joined? then w.bag else map[]).entry == w.entry;
    } else if e.Escalated? {
      assert AfterEscalation(w, e.reason, e.entry, e.answer).entry == Some(e.entry);
    }
  }

  lemma {:induction false} EntryIsLatest(t: seq<Event>)
    requires Watched(t).entry.Some?
    ensures exists p: nat :: LatestEscalation(t, p, |t|, Watched(t).entry.value)
  {
    hide Advance;
    EntryChanges(Watched(t[..|t| - 1]), t[|t| - 1]);
    var s, e := t[..|t| - 1], t[|t| - 1];
    if e.Escalated? {
      assert LatestEscalation(t, |t| - 1, |t|, e.entry);
    } else {
      EntryIsLatest(s);
      var p: nat :| LatestEscalation(s, p, |s|, Watched(s).entry.value);
      assert LatestEscalation(t, p, |t|, Watched(t).entry.value);
    }
  }

  /** The operator resumed, with this to say of the step. */
  predicate Answers(d: Decision, disposition: Disposition) {
    && d.action == Resume && d.disposition != Some(AbortStep)
    && disposition == if d.disposition == Some(CompletedByHuman) || d.completed then CompletedByHuman else NotDone
  }

  predicate Stops(d: Decision) {
    d.action == Abort || d.disposition == Some(AbortStep)
  }

  /** At `p`, in this turn of the loop still on at `n`, the risky step put it to the operator, who said `d`. */
  ghost predicate AskedAt(t: seq<Event>, p: nat, n: nat, d: Decision)
    requires n <= |t|
  {
    && p < n && t[p].Escalated? && t[p].reason == RiskyStep && t[p].answer == Got(d)
    && forall k | p < k < n ::
         && !t[k].Began? && !t[k].Iterated? && !t[k].StepActed? && !t[k].Ended?
         && (t[k].Escalated? ==> t[k].reason.StrayScreen?)
  }

  /** What the operator said at `p`, and, if the run has looked since, what it last saw. */
  ghost predicate WordAt(t: seq<Event>, p: nat, n: nat, hand: Hand)
    requires n <= |t|
  {
    && (exists d :: AskedAt(t, p, n, d) && hand.word == NormalizeDecision(d))
    && (hand.back.Some? ==> exists q: nat :: p < q && LatestLook(t, q, n, hand.back.value))
  }

  lemma HandChanges(w: Watch, e: Event)
    requires Legal(w, e) && Advance(w, e).loop.Some? && Advance(w, e).loop.value.hand.Some?
    ensures var hand := Advance(w, e).loop.value.hand.value;
            if e.Escalated? && e.reason.RiskyStep? then e.answer.Got? && hand == Hand(NormalizeDecision(e.answer.value), None)
            else
              && w.loop.Some? && w.loop.value.hand.Some? && !e.Began? && !e.Iterated? && !e.StepActed? && !e.Ended?
              && hand == w.loop.value.hand.value.(back := if e.Looked? then Some(e.seen) else w.loop.value.hand.value.back)
  {
    hide Legal, Advance, NormalizeDecision;
    if Counted(e) {
      CountedChanges(w, e);
    } else {
      OthersCountNothing(w, e);
    }
  }

  lemma {:induction false} HandIsAWord(t: seq<Event>)
    requires Lawful(t) && Watched(t).loop.Some? && Watched(t).loop.value.hand.Some?
    ensures exists p: nat :: WordAt(t, p, |t|, Watched(t).loop.value.hand.value)
  {
    hide Legal, Advance, NormalizeDecision;
    LegalAt(t, |t| - 1);
    var s, e := t[..|t| - 1], t[|t| - 1];
    var hand := Watched(t).loop.value.hand.value;
    HandChanges(Watched(s), e);
    if e.Escalated? && e.reason.RiskyStep? {
      assert AskedAt(t, |t| - 1, |t|, e.answer.value);
      assert WordAt(t, |t| - 1, |t|, hand);
    } else {
      HandIsAWord(s);
      var was := Watched(s).loop.value.hand.value;
      var p: nat :| WordAt(s, p, |s|, was);
      WordCarries(s, t, e, p, was);
      if e.Looked? {
        assert LatestLook(t, |t| - 1, |t|, e.seen);
      }
      assert WordAt(t, p, |t|, hand);
    }
  }

  /** An event of the same turn leaves the operator's word, and a look before it, where they are. */
  lemma WordCarries(s: seq<Event>, t: seq<Event>, e: Event, p: nat, hand: Hand)
    requires WordAt(s, p, |s|, hand) && t == s + [e]
    requires !e.Began? && !e.Iterated? && !e.StepActed? && !e.Ended? && (e.Escalated? ==> e.reason.StrayScreen?)
    ensures p < |s| && exists d :: AskedAt(t, p, |t|, d) && hand.word == NormalizeDecision(d)
    ensures hand.back.Some? && !e.Looked? ==> exists q: nat :: p < q && LatestLook(t, q, |t|, hand.back.value)
  {
    hide NormalizeDecision;
    var d :| AskedAt(s, p, |s|, d) && hand.word == NormalizeDecision(d);
    assert AskedAt(t, p, |t|, d);
    if hand.back.Some? && !e.Looked? {
      var q: nat :| p < q && LatestLook(s, q, |s|, hand.back.value);
      assert LatestLook(t, q, |t|, hand.back.value);
    }
  }

  /** At `p` the risky step put it to the operator, who resumed with this word on it; at `q`, behind that, the newest look. */
  ghost predicate ResolvedAt(t: seq<Event>, p: nat, q: nat, n: nat, after: Observation, disposition: Disposition)
    requires n <= |t|
  {
    && p < q && LatestLook(t, q, n, after)
    && exists d :: AskedAt(t, p, n, d) && Answers(d, disposition)
  }

  lemma WordsAnswer(d: Decision, disposition: Disposition)
    requires NormalizeDecision(d).action == Resume && NormalizeDecision(d).disposition == Some(disposition)
    ensures Answers(d, disposition)
  {
  }

  lemma WordsStop(d: Decision)
    ensures NormalizeDecision(d).action == Abort <==> Stops(d)
    ensures NormalizeDecision(d).code == d.code
  {
  }

  lemma ResolvedIsSaid(t: seq<Event>, n: nat, f: Frame, step: Step, after: Observation, disposition: Disposition)
    requires n <= |t| && Lawful(t[..n]) && Resolved(Watched(t[..n]), f, step, after, disposition)
    ensures exists p: nat, q: nat :: ResolvedAt(t, p, q, n, after, disposition)
  {
    hide Lawful, Watched, NormalizeDecision, MatchException;
    var s := t[..n];
    HandIsAWord(s);
    var p: nat :| WordAt(s, p, n, Watched(s).loop.value.hand.value);
    var d :| AskedAt(s, p, n, d) && Watched(s).loop.value.hand.value.word == NormalizeDecision(d);
    WordsAnswer(d, disposition);
    var q: nat :| p < q && LatestLook(s, q, n, after);
    assert forall k | 0 <= k < n :: t[k] == s[k];
    assert AskedAt(t, p, n, d) && LatestLook(t, q, n, after);
    assert ResolvedAt(t, p, q, n, after, disposition);
  }

  /** At `e` the operator answered for this screen, and the run has neither looked nor acted since. */
  ghost predicate CalledAt(t: seq<Event>, e: nat, n: nat, state: ExceptionalState, d: Decision)
    requires n <= |t|
  {
    && e < n && t[e].Escalated? && t[e].reason == StrayScreen(state) && t[e].answer == Got(d)
    && forall k | e < k < n :: !t[k].Looked? && !t[k].StepActed?
  }

  lemma CalledChanges(w: Watch, e: Event)
    requires Legal(w, e) && Advance(w, e).called.Some?
    ensures var called := Advance(w, e).called.value;
            if e.Escalated? && e.reason.StrayScreen? && e.answer.Got? then
              called == Call(e.reason.state, NormalizeDecision(e.answer.value))
            else Some(called) == w.called && !e.Looked? && !e.StepActed?
  {
    hide Legal, Behind, Fill, NormalizeDecision, Trace.Settle;
    if e.StepActed? {
      TurnChanges(w, e);
    } else if e.PassedOver? || e.Joined? {
      SettlingOnlySettles(w, if e.Joined? then w.bag else map[]);
    }
  }

  lemma {:induction false} CalledIsAnAnswer(t: seq<Event>)
    requires Lawful(t) && Watched(t).called.Some?
    ensures var called := Watched(t).called.value;
            exists e: nat, d :: CalledAt(t, e, |t|, called.state, d) && called.word == NormalizeDecision(d)
  {
    hide Legal, Advance, NormalizeDecision;
    LegalAt(t, |t| - 1);
    var s, e := t[..|t| - 1], t[|t| - 1];
    var called := Watched(t).called.value;
    CalledChanges(Watched(s), e);
    if e.Escalated? && e.reason.StrayScreen? && e.answer.Got? {
      assert CalledAt(t, |t| - 1, |t|, called.state, e.answer.value);
    } else {
      CalledIsAnAnswer(s);
      var i: nat, d :| CalledAt(s, i, |s|, called.state, d) && called.word == NormalizeDecision(d);
      assert CalledAt(t, i, |t|, called.state, d);
    }
  }

  // ----- The risky gate -----

  /** At `j` this step was handed back to the run, in the loop that is still on at `n`. */
  ghost predicate HandedBackAt(t: seq<Event>, j: nat, n: nat, f: Frame, step: Step)
    requires n <= |t|
  {
    && j < n && t[j].HandedBack? && t[j].f == f && t[j].step == step
    && forall k | j < k < n :: !t[k].Began?
  }

  ghost predicate Armed(w: Watch) {
    w.own.Some? && w.loop.Some? && w.loop.value.armed
  }

  lemma ArmingIsAHandBack(w: Watch, e: Event)
    requires Legal(w, e)
    requires w.loop.Some? && w.loop.value.armed ==> Armed(w)
    requires Advance(w, e).loop.Some? && Advance(w, e).loop.value.armed
    ensures var v := Advance(w, e);
            && Armed(v)
            && if e.HandedBack? then v.own == Some(e.f) && v.loop.value.step == e.step
               else !e.Began? && Armed(w) && v.own == w.own && v.loop.value.step == w.loop.value.step
  {
    hide Legal, Advance, NormalizeDecision;
    if Counted(e) {
      CountedChanges(w, e);
    } else {
      OthersCountNothing(w, e);
    }
  }

  lemma {:induction false} ArmedMeansHandedBack(t: seq<Event>)
    requires Lawful(t) && Watched(t).loop.Some? && Watched(t).loop.value.armed
    ensures Armed(Watched(t))
    ensures exists j: nat :: HandedBackAt(t, j, |t|, Watched(t).own.value, Watched(t).loop.value.step)
  {
    hide Legal, Advance;
    LegalAt(t, |t| - 1);
    var s, e := t[..|t| - 1], t[|t| - 1];
    var w := Watched(s);
    if w.loop.Some? && w.loop.value.armed {
      ArmedMeansHandedBack(s);
    }
    ArmingIsAHandBack(w, e);
    if e.HandedBack? {
      assert HandedBackAt(t, |t| - 1, |t|, e.f, e.step);
    } else {
      var j: nat :| HandedBackAt(s, j, |s|, w.own.value, w.loop.value.step);
      assert HandedBackAt(t, j, |t|, w.own.value, w.loop.value.step);
    }
  }

  /**
   * The hand-back at `j` was sound: at `p` the operator resumed and left the step undone, at `q`, behind that,
   * the run looked, and on that look the step's checkpoint does not hold and the newest intervention's page does.
   */
  ghost predicate SoundHandBack(t: seq<Event>, p: nat, q: nat, j: nat)
    requires j < |t| && t[j].HandedBack?
  {
    && ResolvedAt(t, p, q, j, t[j].after, NotDone)
    && (t[j].step.checkpoint.Some? ==> !Holds(t[j].step.checkpoint.value, t[j].after, t[j].f.eyes))
    && Holds(t[j].entry, t[j].after, t[j].f.eyes)
    && exists e: nat :: p <= e && LatestEscalation(t, e, j, t[j].entry)
  }

  lemma HandBackMeans(w: Watch, f: Frame, step: Step, after: Observation, entry: Checkpoint)
    requires Legal(w, HandedBack(f, step, after, entry))
    ensures Resolved(w, f, step, after, NotDone) && w.entry == Some(entry) && Holds(entry, after, f.eyes)
    ensures step.checkpoint.Some? ==> !Holds(step.checkpoint.value, after, f.eyes)
  {
    hide Holds, Resolved;
  }

  lemma HandBackWasSound(t: seq<Event>, j: nat)
    requires Lawful(t) && j < |t| && t[j].HandedBack?
    ensures exists p: nat, q: nat :: SoundHandBack(t, p, q, j)
  {
    hide Holds, Watched, Lawful, Legal, Resolved, Answers, LatestLook;
    var f, step, after, entry := t[j].f, t[j].step, t[j].after, t[j].entry;
    LegalAt(t, j);
    HandBackMeans(Watched(t[..j]), f, step, after, entry);
    ResolvedIsSaid(t, j, f, step, after, NotDone);
    var p: nat, q: nat :| ResolvedAt(t, p, q, j, after, NotDone);
    EntryIsLatest(t[..j]);
    var e: nat :| LatestEscalation(t[..j], e, j, entry);
    assert forall k | 0 <= k < j :: t[k] == t[..j][k];
    assert LatestEscalation(t, e, j, entry);
    assert p <= e;
    assert SoundHandBack(t, p, q, j);
  }

  /** The operator, asked in the loop still on at `n`, released this step; the hand-back is at `j`. */
  ghost predicate ReleasedAt(t: seq<Event>, p: nat, q: nat, j: nat, n: nat, f: Frame, step: Step)
    requires n <= |t|
  {
    && HandedBackAt(t, j, n, f, step)
    && SoundHandBack(t, p, q, j)
    && p < q < j && forall k | p < k < n :: !t[k].Began?
  }

  /**
   * The risky gate. A risky step's action reaches the surface only outside dry runs, and only with blanket
   * approval or because the operator, asked in the same step's loop, resumed without aborting or reporting the
   * step done, and the look behind that showed the step undone and the newest intervention's page in place.
   */
  lemma RiskyActsAreReleased(t: seq<Event>, i: nat)
    requires Lawful(t) && i < |t| && t[i].StepActed? && t[i].step.risk.Risky?
    ensures !t[i].f.o.dryRun
    ensures t[i].f.o.approveRisky || exists p: nat, q: nat, j: nat :: ReleasedAt(t, p, q, j, i, t[i].f, t[i].step)
  {
    hide Holds, NoAnti, MatchException, Watched, Lawful;
    var f, step := t[i].f, t[i].step;
    LegalAt(t, i);
    if !f.o.approveRisky {
      ArmedMeansHandedBack(t[..i]);
      var j: nat :| HandedBackAt(t[..i], j, i, f, step);
      assert t[..i][j] == t[j];
      HandBackWasSound(t, j);
      var p: nat, q: nat :| SoundHandBack(t, p, q, j);
      assert forall k | j < k < i :: t[k] == t[..i][k];
      ReleaseIsInTheLoop(t, p, q, j, i);
      assert ReleasedAt(t, p, q, j, i, f, step);
    }
  }

  lemma ReleaseIsInTheLoop(t: seq<Event>, p: nat, q: nat, j: nat, i: nat)
    requires j < i <= |t| && t[j].HandedBack? && SoundHandBack(t, p, q, j) && forall k | j < k < i :: !t[k].Began?
    ensures p < q < j && forall k | p < k < i :: !t[k].Began?
  {
    hide Holds, Answers;
    var d :| AskedAt(t, p, j, d) && Answers(d, NotDone);
  }

  /** The page an intervention pauses on is the page last looked at. */
  lemma EscalationsPauseOnTheScreen(t: seq<Event>, e: nat)
    requires Lawful(t) && e < |t| && t[e].Escalated?
    ensures exists q: nat, seen :: LatestLook(t, q, e, seen) && t[e].entry == PageOf(seen)
  {
    hide Watched, Lawful, Clear, Recognised;
    LegalAt(t, e);
    SeenIsLatest(t[..e]);
    var seen := Watched(t[..e]).seen.value;
    var q: nat :| LatestLook(t[..e], q, e, seen);
    LookCarries(t, q, e, seen);
  }

  /** The operator has aborted the step in the turn that is on, and no exception can send the loop round. */
  ghost predicate Stuck(w: Watch) {
    && w.own.Some? && w.loop.Some? && !w.own.value.o.approveRisky
    && var l := w.loop.value;
       && l.step.risk.Risky? && !l.armed && l.last.None? && l.hand.Some? && l.hand.value.word.action == Abort
       && l.iters == 1 + l.recoveries + l.transients + l.resumed + l.retried
       && l.top.Some? && (l.pending || MatchException(w.own.value.cap.exceptionalStates, l.top.value).None?)
  }

  lemma StuckStays(w: Watch, e: Event)
    requires Legal(w, e) && Stuck(w)
    ensures !e.StepActed? && (Stuck(Advance(w, e)) || Advance(w, e).loop.None?)
  {
    hide MayPassOn, Barred, OfTheTop, NoChild, ChildOf, MayExtract, MayFill, Holds, NoAnti, Explains, MatchException,
      MatchMiss, Justified, NormalizeDecision;
  }

  lemma LoopOpensWithBegan(w: Watch, e: Event)
    requires Legal(w, e) && w.loop.None? && !e.Began?
    ensures !e.StepActed? && Advance(w, e).loop.None?
  {
    hide Holds, NoAnti, MayHandBack, MayEnd, Explains, MatchException, MatchMiss, MayRetry, MayCharge, MayResume;
  }

  lemma AskingIsClear(w: Watch, e: Event, newest: Option<Step>, c: Counts)
    requires Legal(w, e) && e.Escalated? && e.reason == RiskyStep && e.answer.Got? && Stops(e.answer.value)
    requires Balanced(w, newest, c)
    ensures Stuck(Advance(w, e))
  {
    hide NoAnti, MatchException;
  }

  /** An abort is final: a risky step the operator has aborted is not acted on before another step begins. */
  lemma {:induction false} AbortIsFinal(t: seq<Event>, e: nat, i: nat)
    requires Lawful(t) && e < i <= |t| && t[e].Escalated? && t[e].reason == RiskyStep
    requires t[e].answer.Got? && Stops(t[e].answer.value) && forall k | e < k < i :: !t[k].Began?
    ensures forall k | e < k < i :: !t[k].StepActed?
    ensures Stuck(Watched(t[..i])) || Watched(t[..i]).loop.None?
    decreases i
  {
    hide Legal, Advance, Stuck, Lawful;
    LegalAt(t, i - 1);
    assert t[..i][..i - 1] == t[..i - 1] && t[..i][i - 1] == t[i - 1];
    var w := Watched(t[..i - 1]);
    if i - 1 == e {
      AlwaysBalanced(t[..e]);
      AskingIsClear(w, t[e], NewestStep(t[..e]), CountsOf(t[..e]));
    } else {
      AbortIsFinal(t, e, i - 1);
      if w.loop.None? {
        LoopOpensWithBegan(w, t[i - 1]);
      } else {
        StuckStays(w, t[i - 1]);
      }
    }
  }

  // ----- What success means -----

  /** The act a finished loop rests on, in the turn that is on at `n`. */
  ghost predicate ActedAt(t: seq<Event>, m: nat, n: nat, f: Frame, step: Step, action: Action, result: ActResult)
    requires n <= |t|
  {
    && m < n && t[m].StepActed? && t[m].f == f && t[m].step == step && t[m].action == action && t[m].result == Got(result)
    && forall k | m < k < n ::
         && !t[k].StepActed? && !t[k].Began? && !t[k].Ended?
         && !t[k].Iterated? && !t[k].Charged? && !t[k].Resumed? && !t[k].Retried?
  }

  ghost predicate Tried(w: Watch) {
    w.own.Some? && w.loop.Some? && w.loop.value.last.Some?
  }

  lemma TryingIsAnAct(w: Watch, e: Event)
    requires Legal(w, e) && (w.loop.Some? && w.loop.value.last.Some? ==> Tried(w))
    requires Advance(w, e).loop.Some? && Advance(w, e).loop.value.last.Some?
    ensures var v := Advance(w, e);
            && Tried(v)
            && if e.StepActed? then
                 && v.own == Some(e.f) && v.loop.value.step == e.step
                 && e.result.Got? && v.loop.value.last.value == Attempt(e.action, e.result.value)
               else
                 && !e.Began? && !e.Ended? && !e.Iterated? && !e.Charged? && !e.Resumed? && !e.Retried?
                 && Tried(w) && v.own == w.own
                 && v.loop.value.step == w.loop.value.step && v.loop.value.last == w.loop.value.last
  {
    hide Legal, Advance, NormalizeDecision;
    if Counted(e) {
      CountedChanges(w, e);
    } else {
      OthersCountNothing(w, e);
    }
  }

  lemma {:induction false} LastIsAnAct(t: seq<Event>)
    requires Lawful(t) && Watched(t).loop.Some? && Watched(t).loop.value.last.Some?
    ensures Tried(Watched(t))
    ensures var w := Watched(t);
            var a := w.loop.value.last.value;
            exists m: nat :: ActedAt(t, m, |t|, w.own.value, w.loop.value.step, a.action, a.result)
  {
    hide Legal, Advance;
    LegalAt(t, |t| - 1);
    var s, e := t[..|t| - 1], t[|t| - 1];
    var w, v := Watched(s), Watched(t);
    if w.loop.Some? && w.loop.value.last.Some? {
      LastIsAnAct(s);
    }
    TryingIsAnAct(w, e);
    if e.StepActed? {
      assert ActedAt(t, |t| - 1, |t|, e.f, e.step, e.action, e.result.value);
    } else {
      var a := w.loop.value.last.value;
      var m: nat :| ActedAt(s, m, |s|, w.own.value, w.loop.value.step, a.action, a.result);
      assert ActedAt(t, m, |t|, v.own.value, v.loop.value.step, a.action, a.result);
    }
  }

  /** Where the newest frame was opened, and where its steps have ended since. */
  datatype Trail = Trail(open: nat, ends: seq<nat>)

  function TrailOf(t: seq<Event>): Trail {
    if t == [] then Trail(0, [])
    else
      var before := TrailOf(t[..|t| - 1]);
      match t[|t| - 1]
      case Opened(_, _, _) => Trail(|t| - 1, [])
      case Ended(_, _, _) => before.(ends := before.ends + [|t| - 1])
      case _ => before
  }

  /** Steps the frame passed over: its first navigation, when its entry screen already showed. */
  function Skipped(e: Event): nat
    requires e.Opened?
  {
    if e.skipped then 1 else 0
  }

  /** The frame was opened, and each of its steps so far ended for a reason, in order. */
  ghost predicate Follows(t: seq<Event>, trail: Trail, f: Frame) {
    && trail.open < |t| && t[trail.open].Opened? && t[trail.open].f == f
    && |trail.ends| + Skipped(t[trail.open]) <= |f.cap.steps|
    && (forall k | 0 <= k < |trail.ends| :: trail.open < trail.ends[k] < |t|)
    && (forall k, l | 0 <= k < l < |trail.ends| :: trail.ends[k] < trail.ends[l])
    && forall k | 0 <= k < |trail.ends| :: EndsStep(t, trail.ends[k], f, f.cap.steps[k + Skipped(t[trail.open])])
  }

  /**
   * At `m` the step ended: by its own act, by a session the operator had restored with the step's checkpoint on
   * the latest look, or by the operator, who resumed and reported it done or left its checkpoint showing.
   */
  ghost predicate EndsStep(t: seq<Event>, m: nat, f: Frame, step: Step) {
    && m < |t| && t[m].Ended? && t[m].f == f && t[m].step == step
    && Justified(f, step, t[m].how)
    && (t[m].how.ByAct? ==> exists a: nat :: ActedAt(t, a, m, f, step, t[m].how.action, t[m].how.result))
    && (t[m].how.ByAct? && t[m].how.after.Some? ==> exists q: nat :: LatestLook(t, q, m, t[m].how.after.value))
    && (t[m].how.ByHuman? ==> exists p: nat, q: nat :: ResolvedAt(t, p, q, m, t[m].how.back, t[m].how.disposition))
    && (t[m].how.ByReauth? ==>
          (exists q: nat :: LatestLook(t, q, m, t[m].how.on)) && exists r: nat :: RestoredAt(t, r, m))
  }

  /** At `r` the operator had restored the session of the run still on at `n`, and no step has been ended with that since. */
  ghost predicate RestoredAt(t: seq<Event>, r: nat, n: nat)
    requires n <= |t|
  {
    && r < n && (t[r].Resumed? || t[r] == Retried(true))
    && forall k | r < k < n :: !(t[k].Ended? && t[k].how.ByReauth?) && (t[k].Entered? ==> t[k].o.nested)
  }

  lemma RestoringChanges(w: Watch, e: Event)
    requires Advance(w, e).restored
    ensures e.Resumed? || e == Retried(true)
            || (w.restored && !(e.Ended? && e.how.ByReauth?) && (e.Entered? ==> e.o.nested))
  {
    hide Behind, Fill, NormalizeDecision, Trace.Settle;
    if e.PassedOver? || e.Joined? {
      SettlingOnlySettles(w, if e.Joined? then w.bag else map[]);
    }
  }

  lemma {:induction false} RestoredIsEarned(t: seq<Event>)
    requires Lawful(t) && Watched(t).restored
    ensures exists r: nat :: RestoredAt(t, r, |t|)
  {
    hide Legal, Advance;
    LegalAt(t, |t| - 1);
    var s, e := t[..|t| - 1], t[|t| - 1];
    RestoringChanges(Watched(s), e);
    if e.Resumed? || e == Retried(true) {
      assert RestoredAt(t, |t| - 1, |t|);
    } else {
      RestoredIsEarned(s);
      var r: nat :| RestoredAt(s, r, |s|);
      assert RestoredAt(t, r, |t|);
    }
  }

  lemma EndingMeans(w: Watch, f: Frame, step: Step, how: How)
    requires Legal(w, Ended(f, step, how))
    ensures w.own == Some(f) && w.loop.Some? && w.loop.value.step == step && Justified(f, step, how)
    ensures how.ByAct? ==> w.loop.value.last == Some(Attempt(how.action, how.result)) && (how.after.Some? ==> w.seen == how.after)
    ensures how.ByReauth? ==> w.seen == Some(how.on) && w.restored
    ensures how.ByHuman? ==> Resolved(w, f, step, how.back, how.disposition)
  {
    hide Justified, Resolved, NoAnti, MatchException;
  }

  lemma EndedForAReason(t: seq<Event>)
    requires Lawful(t) && t != [] && t[|t| - 1].Ended?
    ensures var e, w := t[|t| - 1], Watched(t[..|t| - 1]);
            EndsStep(t, |t| - 1, e.f, e.step) && w.own == Some(e.f) && w.loop.Some? && w.loop.value.step == e.step
  {
    hide Legal, Justified, Watched, LatestLook, ActedAt, Resolved, ResolvedAt, RestoredAt;
    LegalAt(t, |t| - 1);
    var s, e := t[..|t| - 1], t[|t| - 1];
    var m := |s|;
    EndingMeans(Watched(s), e.f, e.step, e.how);
    if e.how.ByAct? {
      LastIsAnAct(s);
      var a: nat :| ActedAt(s, a, m, e.f, e.step, e.how.action, e.how.result);
      ActedCarries(t, a, m, e.f, e.step, e.how.action, e.how.result);
    }
    if !e.how.ByHuman? && Watched(s).seen.Some? {
      SeenIsLatest(s);
      var q: nat :| LatestLook(s, q, m, Watched(s).seen.value);
      LookCarries(t, q, m, Watched(s).seen.value);
    }
    if e.how.ByHuman? {
      ResolvedIsSaid(t, m, e.f, e.step, e.how.back, e.how.disposition);
    }
    if e.how.ByReauth? {
      RestoredIsEarned(s);
      var r: nat :| RestoredAt(s, r, m);
      RestoredCarries(t, r, m);
    }
  }

  lemma RestoredCarries(t: seq<Event>, r: nat, m: nat)
    requires m <= |t| && RestoredAt(t[..m], r, m)
    ensures RestoredAt(t, r, m)
  {
    assert forall k | 0 <= k < m :: t[k] == t[..m][k];
  }

  lemma ActedCarries(t: seq<Event>, a: nat, m: nat, f: Frame, step: Step, action: Action, result: ActResult)
    requires m <= |t| && ActedAt(t[..m], a, m, f, step, action, result)
    ensures forall n | m <= n <= |t| :: ActedAt(t[..n], a, m, f, step, action, result)
    ensures ActedAt(t, a, m, f, step, action, result)
  {
    assert forall k | 0 <= k < m :: t[k] == t[..m][k];
  }

  lemma LookCarries(t: seq<Event>, q: nat, m: nat, seen: Observation)
    requires m <= |t| && LatestLook(t[..m], q, m, seen)
    ensures LatestLook(t, q, m, seen)
  {
    assert forall k | 0 <= k < m :: t[k] == t[..m][k];
  }

  lemma EndCarries(s: seq<Event>, e: Event, m: nat, f: Frame, step: Step)
    requires EndsStep(s, m, f, step)
    ensures EndsStep(s + [e], m, f, step)
  {
    hide Justified;
    var t := s + [e];
    assert forall k | 0 <= k <= m :: t[k] == s[k];
    if s[m].how.ByAct? {
      var a: nat :| ActedAt(s, a, m, f, step, s[m].how.action, s[m].how.result);
      assert ActedAt(t, a, m, f, step, t[m].how.action, t[m].how.result);
      if s[m].how.after.Some? {
        var q: nat :| LatestLook(s, q, m, s[m].how.after.value);
        assert LatestLook(t, q, m, t[m].how.after.value);
      }
    }
    if s[m].how.ByHuman? {
      var p: nat, q: nat :| ResolvedAt(s, p, q, m, s[m].how.back, s[m].how.disposition);
      var d :| AskedAt(s, p, m, d) && Answers(d, s[m].how.disposition);
      assert AskedAt(t, p, m, d) && LatestLook(t, q, m, t[m].how.back);
      assert ResolvedAt(t, p, q, m, t[m].how.back, t[m].how.disposition);
    }
    if s[m].how.ByReauth? {
      var q: nat :| LatestLook(s, q, m, s[m].how.on);
      assert LatestLook(t, q, m, t[m].how.on);
      var r: nat :| RestoredAt(s, r, m);
      assert RestoredAt(t, r, m);
    }
  }

  lemma OpeningSkipsAStep(w: Watch, f: Frame, skipped: bool, bag: Bag)
    requires Legal(w, Opened(f, skipped, bag))
    ensures skipped ==> 1 <= |f.cap.steps|
  {
    hide Holds, TwoPersonApproved, InputsAccepted, Narrowed;
  }

  /** How an event changes the frame and the steps done. */
  lemma OwnChanges(w: Watch, e: Event)
    requires Legal(w, e) && Advance(w, e).own.Some?
    ensures var v := Advance(w, e);
            match e
            case Opened(f, skipped, _) => v.own == Some(f) && v.done == (if skipped then 1 else 0) <= |f.cap.steps|
            case Ended(f, _, _) => v.own == w.own && v.done == w.done + 1
            case _ => v.own == w.own && v.done == w.done
  {
    hide Legal, Behind, Fill, NormalizeDecision, Trace.Settle;
    if e.Opened? {
      OpeningSkipsAStep(w, e.f, e.skipped, e.bag);
    } else if e.PassedOver? || e.Joined? {
      SettlingOnlySettles(w, if e.Joined? then w.bag else map[]);
    }
  }

  /** While a loop is on, its step is the next one. */
  ghost predicate OnTheNextStep(w: Watch) {
    w.loop.Some? ==> w.own.Some? && w.done < |w.own.value.cap.steps| && w.loop.value.step == w.own.value.cap.steps[w.done]
  }

  lemma BeganIsNext(w: Watch, f: Frame, step: Step)
    requires Legal(w, Began(f, step))
    ensures w.own == Some(f) && w.done < |f.cap.steps| && step == f.cap.steps[w.done]
  {
  }

  lemma StepStays(w: Watch, e: Event)
    requires Legal(w, e) && !e.Began? && Advance(w, e).loop.Some?
    ensures w.loop.Some? && Advance(w, e).own == w.own && Advance(w, e).loop.value.step == w.loop.value.step
    ensures !e.Ended? && !e.Opened?
  {
    hide Legal, Advance, NormalizeDecision;
    if Counted(e) {
      CountedChanges(w, e);
    } else {
      OthersCountNothing(w, e);
    }
  }

  lemma StaysOnTheNextStep(w: Watch, e: Event)
    requires Legal(w, e) && OnTheNextStep(w)
    ensures OnTheNextStep(Advance(w, e))
  {
    hide Legal, Advance;
    if Advance(w, e).loop.Some? {
      if e.Began? {
        BeganIsNext(w, e.f, e.step);
        TurnChanges(w, e);
      } else {
        StepStays(w, e);
      }
      if Advance(w, e).own.Some? {
        OwnChanges(w, e);
      }
    }
  }

  lemma {:induction false} LoopsAreInOrder(t: seq<Event>)
    requires Lawful(t)
    ensures OnTheNextStep(Watched(t))
  {
    if t != [] {
      hide Legal, Advance, OnTheNextStep;
      LegalAt(t, |t| - 1);
      LoopsAreInOrder(t[..|t| - 1]);
      StaysOnTheNextStep(Watched(t[..|t| - 1]), t[|t| - 1]);
    }
  }

  lemma FollowingCarries(s: seq<Event>, e: Event, trail: Trail, f: Frame)
    requires Follows(s, trail, f)
    ensures Follows(s + [e], trail, f) && (s + [e])[trail.open] == s[trail.open]
  {
    hide EndsStep;
    var t := s + [e];
    forall k | 0 <= k < |trail.ends|
      ensures EndsStep(t, trail.ends[k], f, f.cap.steps[k + Skipped(t[trail.open])])
    {
      EndCarries(s, e, trail.ends[k], f, f.cap.steps[k + Skipped(s[trail.open])]);
    }
  }

  lemma FollowingOneMore(t: seq<Event>, trail: Trail, f: Frame)
    requires t != [] && Follows(t, trail, f) && (forall k | 0 <= k < |trail.ends| :: trail.ends[k] < |t| - 1)
    requires trail.open < |t| - 1 && |trail.ends| + Skipped(t[trail.open]) < |f.cap.steps|
    requires EndsStep(t, |t| - 1, f, f.cap.steps[|trail.ends| + Skipped(t[trail.open])])
    ensures Follows(t, trail.(ends := trail.ends + [|t| - 1]), f)
  {
    hide EndsStep;
  }

  lemma FollowingMeans(t: seq<Event>, trail: Trail, f: Frame)
    requires Follows(t, trail, f)
    ensures trail.open < |t| && t[trail.open].Opened? && forall k | 0 <= k < |trail.ends| :: trail.ends[k] < |t|
  {
  }

  lemma {:induction false} TrailFits(t: seq<Event>)
    requires Lawful(t) && Watched(t).own.Some?
    ensures Follows(t, TrailOf(t), Watched(t).own.value)
    ensures |TrailOf(t).ends| + Skipped(t[TrailOf(t).open]) == Watched(t).done
  {
    hide Legal, Advance, EndsStep, Lawful;
    var s, e := t[..|t| - 1], t[|t| - 1];
    assert t == s + [e];
    LegalAt(t, |s|);
    OwnChanges(Watched(s), e);
    if !e.Opened? {
      hide Follows;
      TrailFits(s);
      var f, before := Watched(s).own.value, TrailOf(s);
      FollowingMeans(s, before, f);
      FollowingCarries(s, e, before, f);
      if e.Ended? {
        EndedForAReason(t);
        LoopsAreInOrder(s);
        FollowingOneMore(t, before, f);
      }
    }
  }

  /** The first declared screen on the look at `q`, if any, is to be dismissed or waited out, or the operator restored its session. */
  ghost predicate LetsPass(t: seq<Event>, q: nat, n: nat, f: Frame)
    requires q < n <= |t| && t[q].Looked?
  {
    var found := MatchException(f.cap.exceptionalStates, t[q].seen);
    found.Some? ==>
      || found.value.classify.Transient? || found.value.classify.Recoverable?
      || exists e: nat :: q < e && SessionRestored(t, e, n, found.value)
  }

  /**
   * What success means. A run that closes saw its success checkpoint, no anti-checkpoint and no declared screen
   * that stops a run on its last look, was approved and given sound inputs when it opened, and behind its opening every one of its steps
   * ended in order, each for its own reason; only a first navigation may have been passed over.
   */
  lemma ClosingMeansSuccess(t: seq<Event>, i: nat)
    requires Lawful(t) && i < |t| && t[i].Closed?
    ensures Holds(t[i].f.cap.success, t[i].final, t[i].f.eyes) && NoAnti(t[i].f.cap, [], t[i].final, t[i].f.eyes)
    ensures exists q: nat :: LatestLook(t, q, i, t[i].final) && LetsPass(t, q, i, t[i].f)
    ensures var f, trail := t[i].f, TrailOf(t[..i]);
            && Follows(t[..i], trail, f)
            && |trail.ends| + Skipped(t[trail.open]) == |f.cap.steps|
            && (t[trail.open].skipped ==> StartsWithNavigate(f.cap))
            && TwoPersonApproved(f.cap) && InputsAccepted(f.cap.parameters, f.o.inputs)
  {
    hide Holds, Watched, Lawful, EndsStep, TrailOf, MatchException, NoAnti, Restored;
    LegalAt(t, i);
    SeenIsLatest(t[..i]);
    var q: nat :| LatestLook(t[..i], q, i, t[i].final);
    LookCarries(t, q, i, t[i].final);
    assert t[q].seen == t[i].final;
    var found := MatchException(t[i].f.cap.exceptionalStates, t[i].final);
    if found.Some? && Restored(Watched(t[..i]), found.value) {
      RestoringIsAnAnswer(t, q, i, found.value, t[i].final);
    }
    assert LetsPass(t, q, i, t[i].f);
    TrailFits(t[..i]);
    LegalAt(t, TrailOf(t[..i]).open);
  }

  /** At `r`, in the turn that is on at `n`, the policy ruled on an action of this step. */
  ghost predicate RuledAt(t: seq<Event>, r: nat, n: nat, f: Frame, step: Step, allowed: bool)
    requires n <= |t|
  {
    && r < n && t[r].Ruled? && t[r].f == f && t[r].step == step && t[r].verdict == Got(allowed)
    && forall k | r < k < n :: !t[k].Began? && !t[k].Iterated? && !t[k].StepActed? && !t[k].Ruled?
  }

  ghost predicate HasRuling(w: Watch) {
    w.own.Some? && w.loop.Some? && w.loop.value.ruling.Some?
  }

  lemma RulingChanges(w: Watch, e: Event)
    requires Legal(w, e) && (w.loop.Some? && w.loop.value.ruling.Some? ==> HasRuling(w))
    requires Advance(w, e).loop.Some? && Advance(w, e).loop.value.ruling.Some?
    ensures var v := Advance(w, e);
            && HasRuling(v)
            && if e.Ruled? then
                 v.own == Some(e.f) && v.loop.value.step == e.step && e.verdict == Got(v.loop.value.ruling.value)
               else
                 && !e.Began? && !e.Iterated? && !e.StepActed?
                 && HasRuling(w) && v.own == w.own && v.loop.value.step == w.loop.value.step
                 && v.loop.value.ruling == w.loop.value.ruling
  {
    hide Legal, Advance, NormalizeDecision;
    if Counted(e) {
      CountedChanges(w, e);
    } else {
      OthersCountNothing(w, e);
    }
  }

  lemma {:induction false} RulingIsAVerdict(t: seq<Event>)
    requires Lawful(t) && Watched(t).loop.Some? && Watched(t).loop.value.ruling.Some?
    ensures HasRuling(Watched(t))
    ensures var w := Watched(t);
            exists r: nat :: RuledAt(t, r, |t|, w.own.value, w.loop.value.step, w.loop.value.ruling.value)
  {
    hide Legal, Advance;
    LegalAt(t, |t| - 1);
    var s, e := t[..|t| - 1], t[|t| - 1];
    var w, v := Watched(s), Watched(t);
    if w.loop.Some? && w.loop.value.ruling.Some? {
      RulingIsAVerdict(s);
    }
    RulingChanges(w, e);
    if e.Ruled? {
      assert RuledAt(t, |t| - 1, |t|, e.f, e.step, v.loop.value.ruling.value);
    } else {
      var r: nat :| RuledAt(s, r, |s|, w.own.value, w.loop.value.step, w.loop.value.ruling.value);
      assert RuledAt(t, r, |t|, v.own.value, v.loop.value.step, v.loop.value.ruling.value);
    }
  }

  /** No action of a recorded step reaches the surface before the policy has allowed this very action in the same turn. */
  lemma ActsArePermitted(t: seq<Event>, i: nat)
    requires Lawful(t) && i < |t| && t[i].StepActed?
    ensures exists r: nat :: RuledAt(t, r, i, t[i].f, t[i].step, true) && t[r].action == t[i].action
  {
    hide Holds, Watched, Lawful, Issued, MatchException;
    LegalAt(t, i);
    RulingIsAVerdict(t[..i]);
    var r: nat :| RuledAt(t[..i], r, i, t[i].f, t[i].step, true);
    assert forall k | 0 <= k < i :: t[k] == t[..i][k];
    assert RuledAt(t, r, i, t[i].f, t[i].step, true);
    LegalAt(t, r);
  }

  /**
   * Every act of a recorded step is the next step's own action, materialised from the inputs of the run it
   * belongs to, keyed if it is risky, on a screen without anti-checkpoint, in an approved capability.
   */
  lemma ActsAreTheNextStep(t: seq<Event>, i: nat)
    requires Lawful(t) && i < |t| && t[i].StepActed?
    ensures t[i].action == Issued(t[i].step, t[i].f.o.inputs, t[i].f.key)
    ensures t[i].f.key == Trace.Ledger.KeyFor(t[i].f.cap, t[i].f.o.inputs)
    ensures NoAnti(t[i].f.cap, t[i].step.antiCheckpoints, t[i].on, t[i].f.eyes)
    ensures var f, trail := t[i].f, TrailOf(t[..i]);
            && Follows(t[..i], trail, f)
            && |trail.ends| + Skipped(t[trail.open]) < |f.cap.steps|
            && t[i].step == f.cap.steps[|trail.ends| + Skipped(t[trail.open])]
            && TwoPersonApproved(f.cap) && InputsAccepted(f.cap.parameters, f.o.inputs)
  {
    hide Legal, Watched, Lawful, EndsStep, TrailOf, Issued, NoAnti, TwoPersonApproved, InputsAccepted;
    LegalAt(t, i);
    ActMeans(Watched(t[..i]), t[i].f, t[i].step, t[i].action, t[i].on, t[i].result);
    TrailFits(t[..i]);
    LoopsAreInOrder(t[..i]);
    var open := TrailOf(t[..i]).open;
    LegalAt(t, open);
    OpeningMeans(Watched(t[..open]), t[open].f, t[open].skipped, t[open].bag);
  }

  lemma ActMeans(w: Watch, f: Frame, step: Step, action: Action, on: Observation, result: Awaited<ActResult>)
    requires Legal(w, StepActed(f, step, action, on, result))
    ensures w.own == Some(f) && w.loop.Some? && w.loop.value.step == step
    ensures action == Issued(step, f.o.inputs, f.key) && NoAnti(f.cap, step.antiCheckpoints, on, f.eyes)
  {
    hide NoAnti, Issued, MatchException, ActAllowed;
  }

  lemma OpeningMeans(w: Watch, f: Frame, skipped: bool, bag: Bag)
    requires Legal(w, Opened(f, skipped, bag))
    ensures f.key == Trace.Ledger.KeyFor(f.cap, f.o.inputs)
    ensures TwoPersonApproved(f.cap) && InputsAccepted(f.cap.parameters, f.o.inputs)
  {
    hide Holds, TwoPersonApproved, InputsAccepted, Narrowed;
  }

  /** A run that ends ambiguous has acted: the newest act is a risky step's, and it went through. */
  lemma AmbiguityMeansActed(t: seq<Event>, i: nat)
    requires Lawful(t) && i < |t| && t[i].Quit? && t[i].outcome.ambiguous
    ensures exists m: nat, result: ActResult :: m < i && t[m].StepActed? && t[m].step.risk.Risky? && result.ok
                && ActedAt(t, m, i, t[m].f, t[m].step, t[m].action, result)
  {
    hide Holds, Watched, Lawful;
    LegalAt(t, i);
    LastIsAnAct(t[..i]);
    var w := Watched(t[..i]);
    var a := w.loop.value.last.value;
    var m: nat :| ActedAt(t[..i], m, i, w.own.value, w.loop.value.step, a.action, a.result);
    ActedCarries(t, m, i, w.own.value, w.loop.value.step, a.action, a.result);
    assert m < i && t[m].step.risk.Risky? && a.result.ok;
  }

  // ----- Retry accounting -----

  datatype Kind = Iterations | Acts | Recoveries | Transients | SessionHandBacks | UnchargedRetries

  predicate Is(e: Event, kind: Kind) {
    match kind
    case Iterations => e.Iterated?
    case Acts => e.StepActed?
    case Recoveries => e == Charged(false)
    case Transients => e == Charged(true)
    case SessionHandBacks => e.Resumed?
    case UnchargedRetries => e.Retried?
  }

  /** How many events of a kind there are since the newest step began. */
  function Count(t: seq<Event>, kind: Kind): nat {
    if t == [] || t[|t| - 1].Began? then 0
    else Count(t[..|t| - 1], kind) + if Is(t[|t| - 1], kind) then 1 else 0
  }

  function NewestStep(t: seq<Event>): Option<Step> {
    if t == [] then None
    else if t[|t| - 1].Began? then Some(t[|t| - 1].step)
    else NewestStep(t[..|t| - 1])
  }

  datatype Counts = Counts(iters: nat, acts: nat, recoveries: nat, transients: nat, resumed: nat, retried: nat)

  function CountsOf(t: seq<Event>): Counts {
    Counts(Count(t, Iterations), Count(t, Acts), Count(t, Recoveries), Count(t, Transients),
           Count(t, SessionHandBacks), Count(t, UnchargedRetries))
  }

  function Plus(c: Counts, e: Event): Counts {
    if e.Began? then Counts(0, 0, 0, 0, 0, 0)
    else Counts(c.iters + (if Is(e, Iterations) then 1 else 0), c.acts + (if Is(e, Acts) then 1 else 0),
                c.recoveries + (if Is(e, Recoveries) then 1 else 0), c.transients + (if Is(e, Transients) then 1 else 0),
                c.resumed + (if Is(e, SessionHandBacks) then 1 else 0), c.retried + (if Is(e, UnchargedRetries) then 1 else 0))
  }

  /** The observer's counts are the trace's, and within the step's budget. */
  ghost predicate Balanced(w: Watch, newest: Option<Step>, c: Counts) {
    && (w.loop.Some? ==>
          && newest == Some(w.loop.value.step)
          && c == Counts(w.loop.value.iters, w.loop.value.acts, w.loop.value.recoveries, w.loop.value.transients,
                         w.loop.value.resumed, w.loop.value.retried)
          && (w.loop.value.top.Some? ==>
                && c.transients <= w.loop.value.step.retryBudget && c.recoveries <= w.loop.value.step.retryBudget
                && c.iters == 1 + c.recoveries + c.transients + c.resumed + c.retried))
    && (newest.Some? ==>
          && c.iters <= 1 + 2 * newest.value.retryBudget + c.resumed + c.retried
          && c.acts <= 1 + newest.value.retryBudget + c.retried)
  }

  lemma LabelsStayBalanced(w: Watch, e: Event, newest: Option<Step>, c: Counts)
    requires Legal(w, e) && (e.Charged? || e.Resumed? || e.Retried?) && Balanced(w, newest, c)
    ensures Balanced(Advance(w, e), newest, Plus(c, e))
  {
    hide Legal, Advance;
    LabelChanges(w, e);
  }

  lemma TurnsStayBalanced(w: Watch, e: Event, newest: Option<Step>, c: Counts)
    requires Legal(w, e) && (e.Began? || e.Iterated? || e.StepActed?) && Balanced(w, newest, c)
    ensures Balanced(Advance(w, e), if e.Began? then Some(e.step) else newest, Plus(c, e))
  {
    hide Legal, Advance;
    TurnChanges(w, e);
  }

  lemma StaysBalanced(w: Watch, e: Event, newest: Option<Step>, c: Counts)
    requires Legal(w, e) && Balanced(w, newest, c)
    ensures Balanced(Advance(w, e), if e.Began? then Some(e.step) else newest, Plus(c, e))
  {
    hide Legal, Advance;
    if e.Charged? || e.Resumed? || e.Retried? {
      LabelsStayBalanced(w, e, newest, c);
    } else if Counted(e) {
      TurnsStayBalanced(w, e, newest, c);
    } else if Advance(w, e).loop.Some? {
      OthersCountNothing(w, e);
    }
  }

  lemma OneMoreCounted(t: seq<Event>)
    requires t != []
    ensures CountsOf(t) == Plus(CountsOf(t[..|t| - 1]), t[|t| - 1])
  {
  }

  lemma {:induction false} AlwaysBalanced(t: seq<Event>)
    requires Lawful(t)
    ensures Balanced(Watched(t), NewestStep(t), CountsOf(t))
  {
    if t != [] {
      hide Legal, Advance, Balanced, CountsOf, Plus;
      LegalAt(t, |t| - 1);
      AlwaysBalanced(t[..|t| - 1]);
      OneMoreCounted(t);
      StaysBalanced(Watched(t[..|t| - 1]), t[|t| - 1], NewestStep(t[..|t| - 1]), CountsOf(t[..|t| - 1]));
    }
  }

  /**
   * Retry accounting, at any point of any run: since the newest step began, the loop has gone round at most
   * 1 + 2 * budget times beyond session hand-backs and uncharged post-act retries, and has acted at most
   * 1 + budget times beyond the latter. With none of either, every step ends within its budget.
   */
  lemma StepStaysInBudget(t: seq<Event>, n: nat)
    requires Lawful(t) && n <= |t| && NewestStep(t[..n]).Some?
    ensures var s, budget := t[..n], NewestStep(t[..n]).value.retryBudget;
            && Count(s, Iterations) <= 1 + 2 * budget + Count(s, SessionHandBacks) + Count(s, UnchargedRetries)
            && Count(s, Acts) <= 1 + budget + Count(s, UnchargedRetries)
  {
    hide Legal, Watched;
    PrefixLawful(t, n);
    AlwaysBalanced(t[..n]);
  }

  // ----- What the counted events stand for -----

  /** The frame that is open at `n`. */
  ghost predicate Running(t: seq<Event>, n: nat, f: Frame)
    requires n <= |t|
  {
    var trail := TrailOf(t[..n]);
    trail.open < n && t[trail.open].Opened? && t[trail.open].f == f
  }

  lemma OwnIsRunning(t: seq<Event>, n: nat)
    requires n <= |t| && Lawful(t[..n]) && Watched(t[..n]).own.Some?
    ensures Running(t, n, Watched(t[..n]).own.value)
  {
    hide Watched, Lawful, EndsStep, TrailOf;
    TrailFits(t[..n]);
  }

  /** On the screen looked at in `q`, said to be an expired session, the operator resumed at `e`. */
  ghost predicate SessionRestored(t: seq<Event>, e: nat, n: nat, state: ExceptionalState)
    requires n <= |t|
  {
    && state.classify.NeedsHuman? && state.code == SESSION_EXPIRED
    && exists d :: CalledAt(t, e, n, state, d) && !Stops(d)
  }

  lemma RestoringIsAnAnswer(t: seq<Event>, q: nat, n: nat, state: ExceptionalState, seen: Observation)
    requires n <= |t| && Lawful(t[..n]) && Restored(Watched(t[..n]), state)
    requires LatestLook(t, q, n, seen)
    ensures exists e: nat :: q < e && SessionRestored(t, e, n, state)
  {
    hide Watched, Lawful, NormalizeDecision;
    var s := t[..n];
    CalledIsAnAnswer(s);
    var e: nat, d :| CalledAt(s, e, n, state, d) && Watched(s).called.value.word == NormalizeDecision(d);
    WordsStop(d);
    assert forall k | 0 <= k < n :: t[k] == s[k];
    assert CalledAt(t, e, n, state, d);
    assert q != e;
    assert SessionRestored(t, e, n, state);
  }

  lemma RecoveringChanges(w: Watch, e: Event)
    ensures Advance(w, e).recovered
            == match e case Looked(_) => None case Touched(Recovering(state), _, _) => Some(state) case _ => w.recovered
  {
    hide Fill, Trace.Settle, NormalizeDecision;
    if e.PassedOver? || e.Joined? {
      SettlingOnlySettles(w, if e.Joined? then w.bag else map[]);
    }
  }

  /** At `k` the run answered the screen last looked at as it is declared to be answered. */
  ghost predicate HeededAt(t: seq<Event>, k: nat, n: nat, state: ExceptionalState)
    requires n <= |t|
  {
    && k < n && t[k].Touched? && t[k].errand == Recovering(state) && RecoveryAct(state) == Some(t[k].action)
    && forall j | k < j < n :: !t[j].Looked?
  }

  lemma AnsweringMeans(w: Watch, state: ExceptionalState, action: Action, result: Awaited<ActResult>)
    requires Legal(w, Touched(Recovering(state), action, result))
    ensures RecoveryAct(state) == Some(action)
  {
    hide RecoveryAct, Recognised;
  }

  lemma {:induction false} RecoveredIsAnAct(t: seq<Event>)
    requires Lawful(t) && Watched(t).recovered.Some?
    ensures exists k: nat :: HeededAt(t, k, |t|, Watched(t).recovered.value)
  {
    hide Legal, Advance, RecoveryAct;
    LegalAt(t, |t| - 1);
    var s, e := t[..|t| - 1], t[|t| - 1];
    var state := Watched(t).recovered.value;
    RecoveringChanges(Watched(s), e);
    if e.Touched? && e.errand.Recovering? {
      AnsweringMeans(Watched(s), state, e.action, e.result);
      assert HeededAt(t, |t| - 1, |t|, state);
    } else {
      RecoveredIsAnAct(s);
      var k: nat :| HeededAt(s, k, |s|, state);
      assert HeededAt(t, k, |t|, state);
    }
  }

  /** If the screen is declared to be dismissed or waited out, that was done behind the look at `q`. */
  ghost predicate HeededSince(t: seq<Event>, q: nat, n: nat, state: ExceptionalState)
    requires n <= |t|
  {
    RecoveryAct(state).Some? ==> exists k: nat :: q < k && HeededAt(t, k, n, state)
  }

  lemma HeedingIsAnAct(t: seq<Event>, q: nat, n: nat, state: ExceptionalState, seen: Observation)
    requires n <= |t| && Lawful(t[..n]) && Heeded(Watched(t[..n]), state) && LatestLook(t, q, n, seen)
    ensures HeededSince(t, q, n, state)
  {
    hide Watched, Lawful, RecoveryAct;
    if RecoveryAct(state).Some? {
      RecoveredIsAnAct(t[..n]);
      var k: nat :| HeededAt(t[..n], k, n, state);
      assert forall j | 0 <= j < n :: t[j] == t[..n][j];
      assert k != q && HeededAt(t, k, n, state);
    }
  }

  /** Behind the act at `a`, the look at `q` showed a declared screen, or an expired session the operator restored. */
  ghost predicate ExcusedAt(t: seq<Event>, a: nat, q: nat, i: nat, reauth: bool)
    requires i <= |t|
  {
    && a < q < i && t[a].StepActed? && t[a].result.Got? && t[q].Looked?
    && ActedAt(t, a, i, t[a].f, t[a].step, t[a].action, t[a].result.value)
    && LatestLook(t, q, i, t[q].seen)
    && var f, step, result, seen := t[a].f, t[a].step, t[a].result.value, t[q].seen;
       && !result.policyBlocked
       && (if result.ok then step.checkpoint.Some? && !Holds(step.checkpoint.value, seen, f.eyes) else !result.retryable)
       && exists state :: DeclaredFor(f, state, seen, !result.ok) &&
            if reauth then exists e: nat :: q < e && SessionRestored(t, e, i, state)
            else (state.classify.Transient? || state.classify.Recoverable?) && HeededSince(t, q, i, state)
  }

  lemma RetryMeans(w: Watch, reauth: bool)
    requires Legal(w, Retried(reauth))
    ensures w.own.Some? && w.loop.Some? && w.loop.value.last.Some? && w.seen.Some?
    ensures var f, result, step := w.own.value, w.loop.value.last.value.result, w.loop.value.step;
            && !result.policyBlocked
            && (if result.ok then step.checkpoint.Some? && !Holds(step.checkpoint.value, w.seen.value, f.eyes) else !result.retryable)
            && exists state :: DeclaredFor(f, state, w.seen.value, !result.ok) &&
                 if reauth then Restored(w, state)
                 else (state.classify.Transient? || state.classify.Recoverable?) && Heeded(w, state)
  {
    hide Holds, MatchException, MatchMiss, Heeded;
    var f, seen := w.own.value, w.seen.value;
    var found, missed := MatchException(f.cap.exceptionalStates, seen), MatchMiss(f.cap.exceptionalStates, seen);
    if Excuses(w, found, reauth) && (w.loop.value.last.value.result.ok || NoMiss(f, seen)) {
      assert DeclaredFor(f, found.value, seen, !w.loop.value.last.value.result.ok);
    } else {
      assert DeclaredFor(f, missed.value, seen, true);
    }
  }

  /**
   * An uncharged retry has an act of its own in the same turn, refused for good or short of its checkpoint, and
   * a look of its own behind it: on a declared screen, answered as declared, or on an expired session the operator
   * then restored.
   */
  lemma RetriesAreExcused(t: seq<Event>, i: nat)
    requires Lawful(t) && i < |t| && t[i].Retried?
    ensures exists a: nat, q: nat :: ExcusedAt(t, a, q, i, t[i].reauth)
  {
    hide Holds, Watched, Lawful, Legal, Restored, DeclaredFor, Heeded, HeededSince;
    LegalAt(t, i);
    var s := t[..i];
    var w, reauth := Watched(s), t[i].reauth;
    RetryMeans(w, reauth);
    LastIsAnAct(s);
    var last := w.loop.value.last.value;
    var a: nat :| ActedAt(s, a, i, w.own.value, w.loop.value.step, last.action, last.result);
    ActedCarries(t, a, i, w.own.value, w.loop.value.step, last.action, last.result);
    SeenIsLatest(s);
    var q: nat :| LatestLook(s, q, i, w.seen.value);
    LookCarries(t, q, i, w.seen.value);
    var state :| DeclaredFor(w.own.value, state, w.seen.value, !last.result.ok)
      && if reauth then Restored(w, state)
         else (state.classify.Transient? || state.classify.Recoverable?) && Heeded(w, state);
    if reauth {
      RestoringIsAnAnswer(t, q, i, state, w.seen.value);
    } else {
      HeedingIsAnAct(t, q, i, state, w.seen.value);
    }
    assert a != q;
    assert ExcusedAt(t, a, q, i, reauth);
  }

  /** The look at `q` is the turn's own, and its first declared screen is this one, answered as declared. */
  ghost predicate ShownAt(t: seq<Event>, q: nat, i: nat, f: Frame, state: ExceptionalState)
    requires i <= |t|
  {
    && q < i && Running(t, i, f) && t[q].Looked? && LatestLook(t, q, i, t[q].seen)
    && MatchException(f.cap.exceptionalStates, t[q].seen) == Some(state) && HeededSince(t, q, i, state)
  }

  lemma TopIsShown(t: seq<Event>, i: nat, class': ExceptionClass)
    requires i <= |t| && Lawful(t[..i]) && TopShows(Watched(t[..i]), class')
    ensures var w := Watched(t[..i]);
            var state := MatchException(w.own.value.cap.exceptionalStates, w.seen.value).value;
            state.classify == class' && exists q: nat :: ShownAt(t, q, i, w.own.value, state)
  {
    hide Watched, Lawful, TrailOf, MatchException, Heeded, HeededSince;
    OwnIsRunning(t, i);
    SeenIsLatest(t[..i]);
    var w := Watched(t[..i]);
    var q: nat :| LatestLook(t[..i], q, i, w.seen.value);
    LookCarries(t, q, i, w.seen.value);
    HeedingIsAnAct(t, q, i, MatchException(w.own.value.cap.exceptionalStates, w.seen.value).value, w.seen.value);
    assert ShownAt(t, q, i, w.own.value, MatchException(w.own.value.cap.exceptionalStates, w.seen.value).value);
  }

  /** A session hand-back is the operator's: the turn's look showed an expired session, and the operator then resumed. */
  lemma ResumesAreAnswered(t: seq<Event>, i: nat)
    requires Lawful(t) && i < |t| && t[i].Resumed?
    ensures exists f, state, q: nat, e: nat :: ShownAt(t, q, i, f, state) && q < e && SessionRestored(t, e, i, state)
  {
    hide Watched, Lawful, MatchException, TrailOf;
    LegalAt(t, i);
    TopIsShown(t, i, NeedsHuman);
    var w := Watched(t[..i]);
    var state := MatchException(w.own.value.cap.exceptionalStates, w.seen.value).value;
    var q: nat :| ShownAt(t, q, i, w.own.value, state);
    RestoringIsAnAnswer(t, q, i, state, t[q].seen);
  }

  /** The turn's act came back refused, worth repeating. */
  ghost predicate BackedOffAt(t: seq<Event>, a: nat, i: nat)
    requires i <= |t|
  {
    && a < i && t[a].StepActed? && t[a].result.Got?
    && ActedAt(t, a, i, t[a].f, t[a].step, t[a].action, t[a].result.value)
    && var result := t[a].result.value; !result.ok && !result.policyBlocked && result.retryable
  }

  /** A charge is for a screen dismissed, a screen waited out, or an act to repeat, each of the same turn. */
  lemma ChargesAreEarned(t: seq<Event>, i: nat)
    requires Lawful(t) && i < |t| && t[i].Charged?
    ensures || (exists f, state, q: nat :: ShownAt(t, q, i, f, state)
                  && state.classify == if t[i].transient then Transient else Recoverable)
            || (t[i].transient && exists a: nat :: BackedOffAt(t, a, i))
  {
    hide Watched, Lawful, TopShows, TrailOf, MatchException;
    LegalAt(t, i);
    var s := t[..i];
    var w, class' := Watched(s), if t[i].transient then Transient else Recoverable;
    if TopShows(w, class') {
      TopIsShown(t, i, class');
    } else {
      LastIsAnAct(s);
      var last := w.loop.value.last.value;
      var a: nat :| ActedAt(s, a, i, w.own.value, w.loop.value.step, last.action, last.result);
      ActedCarries(t, a, i, w.own.value, w.loop.value.step, last.action, last.result);
      assert BackedOffAt(t, a, i);
    }
  }

  // ----- Acts beside the recorded steps -----

  /** Where the runs that are on were entered, the outermost first. */
  function Entries(t: seq<Event>): seq<nat> {
    if t == [] then [] else AndOn(Entries(t[..|t| - 1]), t[|t| - 1], |t| - 1)
  }

  function AndOn(before: seq<nat>, e: Event, i: nat): seq<nat> {
    match e
    case Entered(_, _) => before + [i]
    case Left => if before == [] then [] else before[..|before| - 1]
    case _ => before
  }

  /** Each level is of the run entered there. */
  ghost predicate EntriesFit(t: seq<Event>, at: seq<nat>, levels: seq<Level>) {
    && |at| == |levels|
    && forall k | 0 <= k < |at| :: at[k] < |t| && t[at[k]] == Entered(levels[k].cap, levels[k].o)
  }

  lemma SettlingKeepsRuns(w: Watch, outputs: Bag)
    ensures var levels := Trace.Settle(w, outputs).levels;
            |levels| == |w.levels| && forall k | 0 <= k < |levels| :: levels[k].cap == w.levels[k].cap && levels[k].o == w.levels[k].o
  {
  }

  lemma EntriesCarry(s: seq<Event>, e: Event, at: seq<nat>, levels: seq<Level>)
    requires EntriesFit(s, at, levels)
    ensures EntriesFit(s + [e], at, levels)
    ensures e.Entered? ==> EntriesFit(s + [e], at + [|s|], levels + [Level(e.cap, e.o, 0, e.o.bag)])
    ensures levels != [] ==> EntriesFit(s + [e], at[..|at| - 1], levels[..|levels| - 1])
  {
  }

  lemma SettlingFits(t: seq<Event>, at: seq<nat>, w: Watch, outputs: Bag)
    requires EntriesFit(t, at, w.levels)
    ensures EntriesFit(t, at, Trace.Settle(w, outputs).levels)
  {
    hide Trace.Settle;
    SettlingKeepsRuns(w, outputs);
  }

  lemma EntriesStayFit(s: seq<Event>, e: Event, at: seq<nat>, w: Watch)
    requires EntriesFit(s, at, w.levels) && |at| == |w.levels| && Legal(w, e)
    ensures EntriesFit(s + [e], AndOn(at, e, |s|), Advance(w, e).levels)
    ensures |AndOn(at, e, |s|)| == |Advance(w, e).levels|
  {
    hide Legal, Advance, Trace.Settle, EntriesFit;
    LevelChanges(w, e);
    EntriesCarry(s, e, at, w.levels);
    if e.PassedOver? || e.Joined? {
      SettlingFits(s + [e], at, w, if e.Joined? then w.bag else map[]);
      SettlingKeepsRuns(w, if e.Joined? then w.bag else map[]);
    }
  }

  lemma NothingEntered(t: seq<Event>)
    requires t == []
    ensures Entries(t) == [] && Settlements(t) == [] && Watched(t).levels == []
    ensures EntriesFit(t, [], []) && LevelsFit(t, [], [])
  {
  }

  lemma {:induction false} EntriesAreLevels(t: seq<Event>)
    requires Lawful(t)
    ensures EntriesFit(t, Entries(t), Watched(t).levels) && |Entries(t)| == |Watched(t).levels|
  {
    hide *;
    if t == [] {
      NothingEntered(t);
    } else {
      var s, e := t[..|t| - 1], t[|t| - 1];
      LegalAt(t, |s|);
      EntriesAreLevels(s);
      EntriesStayFit(s, e, Entries(s), Watched(s));
      OneMoreOfEach(t);
      assert t == s + [e];
    }
  }

  /** What the newest run, admitted or turned away, would sign in with. */
  function LoginOf(t: seq<Event>): Option<Login> {
    if t == [] then None
    else
      match t[|t| - 1]
      case Entered(cap, _) => cap.credential.Resolved()
      case TurnedAway(cap, _, _) => cap.credential.Resolved()
      case _ => LoginOf(t[..|t| - 1])
  }

  lemma LoginChanges(w: Watch, e: Event)
    ensures Advance(w, e).login
            == match e
               case Entered(cap, _) => cap.credential.Resolved()
               case TurnedAway(cap, _, _) => cap.credential.Resolved()
               case _ => w.login
  {
    hide Fill, Trace.Settle, NormalizeDecision;
    if e.PassedOver? || e.Joined? {
      SettlingOnlySettles(w, if e.Joined? then w.bag else map[]);
    }
  }

  lemma {:induction false} LoginIsWatched(t: seq<Event>)
    ensures Watched(t).login == LoginOf(t)
  {
    if t != [] {
      hide Advance;
      LoginIsWatched(t[..|t| - 1]);
      LoginChanges(Watched(t[..|t| - 1]), t[|t| - 1]);
    }
  }

  /** On a login screen an outermost run does one of the three acts that sign it in. */
  ghost predicate SignsInAt(t: seq<Event>, q: nat, n: nat, i: nat)
    requires i < |t| && t[i].Touched?
  {
    var runs, login := Entries(t[..i]), LoginOf(t[..i]);
    && q < i && t[q].Looked? && LatestLook(t, q, i, t[q].seen) && t[q].seen.login
    && runs != [] && runs[|runs| - 1] < i && t[runs[|runs| - 1]].Entered? && !t[runs[|runs| - 1]].o.nested
    && login.Some? && n < 3 && t[i].action == SignInAct(login.value, n)
  }

  /** The act answers a declared screen on the latest look as the screen says, and nothing has answered that look before. */
  ghost predicate RecoversAt(t: seq<Event>, q: nat, i: nat, f: Frame, state: ExceptionalState)
    requires i < |t| && t[i].Touched?
  {
    && Running(t, i, f) && q < i && t[q].Looked? && LatestLook(t, q, i, t[q].seen)
    && (exists refused :: DeclaredFor(f, state, t[q].seen, refused)) && RecoveryAct(state) == Some(t[i].action)
    && forall k | q < k < i :: !(t[k].Touched? && t[k].errand.Recovering?)
  }

  lemma {:induction false} NotYetAnswered(t: seq<Event>, q: nat, seen: Observation)
    requires Watched(t).recovered.None? && LatestLook(t, q, |t|, seen)
    ensures forall k | q < k < |t| :: !(t[k].Touched? && t[k].errand.Recovering?)
  {
    hide Advance;
    var s, e := t[..|t| - 1], t[|t| - 1];
    RecoveringChanges(Watched(s), e);
    if q < |s| {
      assert LatestLook(s, q, |s|, seen);
      NotYetAnswered(s, q, seen);
      assert forall k | 0 <= k < |s| :: t[k] == s[k];
    }
  }

  lemma TouchMeans(w: Watch, errand: Errand, action: Action)
    requires MayTouch(w, errand, action)
    ensures w.seen.Some?
    ensures errand.SigningIn? ==>
              && w.seen.value.login && w.levels != [] && !Newest(w).o.nested
              && w.login.Some? && exists n: nat :: n < 3 && action == SignInAct(w.login.value, n)
    ensures errand.Recovering? ==>
              && w.own.Some? && w.recovered.None? && RecoveryAct(errand.state) == Some(action)
              && exists refused :: DeclaredFor(w.own.value, errand.state, w.seen.value, refused)
  {
    hide DeclaredFor, SignInAct, RecoveryAct;
    if errand.SigningIn? {
      assert action == SignInAct(w.login.value, w.signing);
    }
  }

  /**
   * No act on a trace is of the run's own making: beside the recorded steps' own actions it signs an outermost run
   * in, answers a declared screen, or reads an output that is still missing on the screen that shows success.
   */
  lemma ActsBesideTheSteps(t: seq<Event>, i: nat)
    requires Lawful(t) && i < |t|
    ensures t[i].Touched? ==>
              || (exists q: nat, n: nat :: SignsInAt(t, q, n, i))
              || (exists q: nat, f, state :: RecoversAt(t, q, i, f, state))
    ensures t[i].Extracted? ==>
              var f, def := t[i].f, OutputNamed(t[i].f.cap.outputs, t[i].name);
              && def.Some? && t[i].action == ReadAct(def.value) && t[i].name !in BagOf(t[..i])
              && exists q: nat :: q < i && t[q].Looked? && LatestLook(t, q, i, t[q].seen) && Holds(f.cap.success, t[q].seen, f.eyes)
  {
    hide Watched, Lawful, Holds, TrailOf, DeclaredFor, SignInAct, RecoveryAct, Entries, LoginOf, NoAnti, Passable;
    LegalAt(t, i);
    var s, e := t[..i], t[i];
    var w := Watched(s);
    if e.Touched? || e.Extracted? {
      if e.Touched? {
        TouchMeans(w, e.errand, e.action);
      }
      SeenIsLatest(s);
      var q: nat :| LatestLook(s, q, i, w.seen.value);
      LookCarries(t, q, i, w.seen.value);
      if e.Extracted? {
        BagIsWatched(s);
      } else if e.errand.SigningIn? {
        EntriesAreLevels(s);
        LoginIsWatched(s);
        var n: nat :| n < 3 && e.action == SignInAct(w.login.value, n);
        assert SignsInAt(t, q, n, i);
      } else {
        OwnIsRunning(t, i);
        NotYetAnswered(s, q, w.seen.value);
        assert forall k | 0 <= k < i :: t[k] == s[k];
        assert RecoversAt(t, q, i, w.own.value, e.errand.state);
      }
    }
  }

  // ----- How runs that stop short are accounted for -----

  /** A run that stops as aborted was told so by the operator, about its step or an expired session, and has not acted since. */
  lemma AbortsWereSpoken(t: seq<Event>, i: nat)
    requires Lawful(t) && i < |t| && t[i].Quit? && t[i].outcome.code.HumanAbort?
    ensures exists e: nat :: e < i && t[e].Escalated? && t[e].answer.Got? && Stops(t[e].answer.value)
              && t[i].outcome.code.reason == t[e].answer.value.code.Or(Aborted)
              && forall k | e < k < i :: !t[k].StepActed?
  {
    hide Watched, Lawful, NormalizeDecision, OfTheTop;
    var s, f, reason := t[..i], t[i].f, t[i].outcome.code.reason;
    LegalAt(t, i);
    var w := Watched(s);
    assert AbortedWith(w, f, reason);
    assert forall k | 0 <= k < i :: t[k] == s[k];
    if w.loop.Some? && w.loop.value.hand.Some? && Aborts(w.loop.value.hand.value.word, reason) {
      HandIsAWord(s);
      var p: nat :| WordAt(s, p, i, w.loop.value.hand.value);
      var d :| AskedAt(s, p, i, d) && w.loop.value.hand.value.word == NormalizeDecision(d);
      WordsStop(d);
      assert t[p].answer.value == d;
    } else {
      CalledIsAnAnswer(s);
      var called := w.called.value;
      var e: nat, d :| CalledAt(s, e, i, called.state, d) && called.word == NormalizeDecision(d);
      WordsStop(d);
      assert t[e].answer.value == d;
    }
  }

  /** At `m` a call threw, or a used capability could not be loaded, in the run on top at `n`. */
  ghost predicate FailedAt(t: seq<Event>, m: nat, n: nat)
    requires n <= |t|
  {
    m < n && (Fails(t[m]) || t[m].Unloadable?) && forall k | m < k < n :: !t[k].Entered? && !t[k].Left?
  }

  lemma BreakingChanges(w: Watch, e: Event)
    requires Advance(w, e).broken
    ensures Fails(e) || e.Unloadable? || (w.broken && !e.Entered? && !e.Left?)
  {
    hide Behind, Fill, NormalizeDecision, Trace.Settle;
    if e.PassedOver? || e.Joined? {
      SettlingOnlySettles(w, if e.Joined? then w.bag else map[]);
    }
  }

  lemma {:induction false} BrokenIsAFailure(t: seq<Event>)
    requires Lawful(t) && Watched(t).broken
    ensures exists m: nat :: FailedAt(t, m, |t|)
  {
    hide Legal, Advance;
    LegalAt(t, |t| - 1);
    var s, e := t[..|t| - 1], t[|t| - 1];
    BreakingChanges(Watched(s), e);
    if Fails(e) || e.Unloadable? {
      assert FailedAt(t, |t| - 1, |t|);
    } else {
      BrokenIsAFailure(s);
      var m: nat :| FailedAt(s, m, |s|);
      assert FailedAt(t, m, |t|);
    }
  }

  /** A run stops as uncaught only because one of its own calls threw or a capability it uses could not be loaded. */
  lemma UncaughtHadACause(t: seq<Event>, i: nat)
    requires Lawful(t) && i < |t| && t[i].Quit? && t[i].outcome.code == Uncaught
    ensures exists m: nat :: FailedAt(t, m, i)
  {
    hide Watched, Lawful, OfTheTop;
    LegalAt(t, i);
    BrokenIsAFailure(t[..i]);
    var m: nat :| FailedAt(t[..i], m, i);
    assert forall k | 0 <= k < i :: t[k] == t[..i][k];
    assert FailedAt(t, m, i);
  }

  /** Each call of a faithful trace records an answer of the environment, or threw for want of a fitting one. */
  lemma {:induction false} CallsWereAnswered(t: seq<Event>, given: seq<Answer>, all: nat, i: nat)
    requires Heard(t, given, all) && i < |t| && IsCall(t[i])
    ensures (exists a :: a in given && Fits(t[i], a)) || Bereft(t[i])
    decreases |t|, |given|
  {
    hide Fits, Bereft;
    var front, e := t[..|t| - 1], t[|t| - 1];
    if !IsCall(e) {
      CallsWereAnswered(front, given, all, i);
    } else if given != [] && Heard(t, given[..|given| - 1], all) {
      CallsWereAnswered(t, given[..|given| - 1], all, i);
    } else if given != [] && Fits(e, given[|given| - 1]) && Heard(front, given[..|given| - 1], all) {
      if i < |front| {
        CallsWereAnswered(front, given[..|given| - 1], all, i);
      }
    } else if i < |front| {
      CallsWereAnswered(front, given, all, i);
    }
  }

  /** At `m` a run said how it ended: by itself, at a gate, or with its child's outcome. */
  ghost predicate GivenAt(t: seq<Event>, m: nat, ending: Ending) {
    && m < |t|
    && match t[m]
       case Quit(f, outcome) => ending == Ending(f.cap, f.o, outcome)
       case TurnedAway(cap, o, outcome) => ending == Ending(cap, o, outcome)
       case PassedOn(outcome) => outcome == ending.outcome
       case _ => false
  }

  lemma PassingKeepsTheOutcome(w: Watch, outcome: Outcome)
    requires Legal(w, PassedOn(outcome))
    ensures w.levels != []
  {
    hide ChildOf;
  }

  lemma EndingChanges(w: Watch, e: Event)
    requires Legal(w, e) && Advance(w, e).ending.Some?
    ensures var ending := Advance(w, e).ending.value;
            match e
            case Quit(f, outcome) => ending == Ending(f.cap, f.o, outcome)
            case TurnedAway(cap, o, outcome) => ending == Ending(cap, o, outcome)
            case PassedOn(outcome) => ending.outcome == outcome
            case _ => Some(ending) == w.ending && !e.Entered?
  {
    hide Legal, Behind, Fill, NormalizeDecision, Trace.Settle;
    if e.PassedOn? {
      PassingKeepsTheOutcome(w, e.outcome);
    } else if e.PassedOver? || e.Joined? {
      SettlingOnlySettles(w, if e.Joined? then w.bag else map[]);
    }
  }

  /** A level's run was entered beneath as many others as its place tells. */
  ghost predicate Nested(w: Watch) {
    |w.levels| == |w.active| && forall k | 0 <= k < |w.levels| :: |w.levels[k].o.seen| == k
  }

  lemma EnteringIsBeneath(w: Watch, cap: Capability, o: RunOptions)
    requires Legal(w, Entered(cap, o))
    ensures o.seen == w.active
  {
    hide ChildOf;
  }

  lemma {:induction false} AlwaysNested(t: seq<Event>)
    requires Lawful(t)
    ensures Nested(Watched(t))
  {
    if t != [] {
      hide Legal, Advance, Lawful, Trace.Settle;
      LegalAt(t, |t| - 1);
      var w, e := Watched(t[..|t| - 1]), t[|t| - 1];
      AlwaysNested(t[..|t| - 1]);
      LevelChanges(w, e);
      ActiveChanges(w, e);
      SettlingKeepsRuns(w, if e.Joined? then w.bag else map[]);
      if e.Entered? {
        EnteringIsBeneath(w, e.cap, e.o);
      }
    }
  }

  /** Said at `m` by the run named, and nothing but leaving has happened to its callers since. */
  ghost predicate GivenSince(t: seq<Event>, m: nat, ending: Ending) {
    && GivenAt(t, m, ending)
    && Depth(t[..m]) == |ending.o.seen| + (if t[m].TurnedAway? then 0 else 1)
    && forall k: nat | m <= k <= |t| :: Depth(t[..k]) >= Depth(t)
  }

  lemma GivenNow(w: Watch, e: Event)
    requires Legal(w, e) && Nested(w) && (e.Quit? || e.TurnedAway? || e.PassedOn?)
    ensures Advance(w, e).ending.Some?
    ensures |w.active| == |Advance(w, e).ending.value.o.seen| + (if e.TurnedAway? then 0 else 1)
  {
    hide Explains, Barred;
  }

  lemma {:induction false} EndingIsGiven(t: seq<Event>)
    requires Lawful(t) && Watched(t).ending.Some?
    ensures exists m: nat :: GivenSince(t, m, Watched(t).ending.value)
  {
    hide Legal, Advance, Nested;
    LegalAt(t, |t| - 1);
    var s, e := t[..|t| - 1], t[|t| - 1];
    EndingChanges(Watched(s), e);
    var ending := Watched(t).ending.value;
    assert t[..|t|] == t;
    if e.Quit? || e.TurnedAway? || e.PassedOn? {
      AlwaysNested(s);
      DepthIsActive(s);
      GivenNow(Watched(s), e);
      assert Depth(t) == Depth(s);
      assert GivenSince(t, |t| - 1, ending);
    } else {
      EndingIsGiven(s);
      var m: nat :| GivenSince(s, m, ending);
      assert Depth(t) <= Depth(s);
      forall k: nat | m <= k <= |t|
        ensures Depth(t[..k]) >= Depth(t)
      {
        if k < |t| {
          assert t[..k] == s[..k];
        }
      }
      assert t[..m] == s[..m] && t[m] == s[m];
      assert GivenSince(t, m, ending);
    }
  }

  /**
   * At `m`, within the run that passes the outcome on at `i` and beneath it, a run stopped for a reason of its own,
   * or was turned away at a gate, with this outcome.
   */
  ghost predicate RootAt(t: seq<Event>, m: nat, i: nat) {
    && m < i < |t| && t[i].PassedOn? && (t[m].Quit? || t[m].TurnedAway?) && t[m].outcome == t[i].outcome
    && Depth(t[..m]) >= Depth(t[..i]) + (if t[m].Quit? then 1 else 0)
    && forall k: nat | m <= k <= i :: Depth(t[..k]) >= Depth(t[..i])
  }

  lemma PassingIsFromBeneath(w: Watch, outcome: Outcome)
    requires Legal(w, PassedOn(outcome)) && Nested(w)
    ensures w.ending.Some? && w.ending.value.outcome == outcome && |w.active| == |w.ending.value.o.seen|
  {
  }

  /** An outcome passed on from run to run goes back to a run beneath that had a reason of its own. */
  lemma {:induction false} FailuresHaveARoot(t: seq<Event>, i: nat)
    requires Lawful(t) && i < |t| && t[i].PassedOn?
    ensures exists m: nat :: RootAt(t, m, i)
    decreases i
  {
    hide Watched, Lawful, Legal, Nested, Depth;
    LegalAt(t, i);
    var s := t[..i];
    AlwaysNested(s);
    DepthIsActive(s);
    PassingIsFromBeneath(Watched(s), t[i].outcome);
    EndingIsGiven(s);
    var m: nat :| GivenSince(s, m, Watched(s).ending.value);
    assert s[m] == t[m] && s[..m] == t[..m];
    forall k: nat | m <= k <= i
      ensures Depth(t[..k]) >= Depth(t[..i])
    {
      assert s[..k] == t[..k];
    }
    if t[m].PassedOn? {
      FailuresHaveARoot(t, m);
      var n: nat :| RootAt(t, n, m);
      assert RootAt(t, n, i);
    } else {
      assert RootAt(t, m, i);
    }
  }

  // ----- Nesting -----

  /** Every run entered so far drew its children from these ids. */
  ghost predicate Within(t: seq<Event>, ids: set<string>) {
    forall e | e in t && e.Entered? :: KnownIds(e.o.catalog) <= ids
  }

  function AsSet(s: seq<string>): set<string> {
    set x | x in s
  }

  lemma {:induction false} DistinctCount(s: seq<string>)
    requires forall i, j | 0 <= i < j < |s| :: s[i] != s[j]
    ensures |AsSet(s)| == |s|
  {
    if s != [] {
      var front, last := s[..|s| - 1], s[|s| - 1];
      DistinctCount(front);
      assert last !in front;
      assert AsSet(s) == AsSet(front) + {last};
    }
  }

  ghost predicate Distinct(s: seq<string>) {
    forall i, j | 0 <= i < j < |s| :: s[i] != s[j]
  }

  lemma ComingAndGoing(w: Watch, e: Event)
    requires Legal(w, e)
    ensures e.Entered? ==> e.cap.id !in w.active && (w.active != [] ==> e.cap.id in KnownIds(e.o.catalog))
    ensures e.Left? ==> w.active != []
  {
    if e.Entered? && w.active != [] {
      assert ChildOf(Newest(w), e.cap, e.o);
    }
  }

  lemma ActiveChanges(w: Watch, e: Event)
    requires Legal(w, e)
    ensures var v := Advance(w, e);
            match e
            case Entered(cap, o) =>
              v.active == w.active + [cap.id] && cap.id !in w.active && (w.active != [] ==> cap.id in KnownIds(o.catalog))
            case Left => w.active != [] && v.active == w.active[..|w.active| - 1]
            case _ => v.active == w.active
  {
    hide Legal, Behind, Fill, NormalizeDecision, Trace.Settle;
    ComingAndGoing(w, e);
    if e.PassedOver? || e.Joined? {
      SettlingOnlySettles(w, if e.Joined? then w.bag else map[]);
    }
  }

  lemma {:induction false} ActiveStaysDistinct(t: seq<Event>, ids: set<string>)
    requires Lawful(t) && Within(t, ids)
    ensures Distinct(Watched(t).active) && forall k | 1 <= k < |Watched(t).active| :: Watched(t).active[k] in ids
  {
    if t != [] {
      hide Legal, Advance;
      LegalAt(t, |t| - 1);
      var s, e := t[..|t| - 1], t[|t| - 1];
      assert e in t && forall x | x in s :: x in t;
      ActiveStaysDistinct(s, ids);
      ActiveChanges(Watched(s), e);
    }
  }

  /** Runs entered and not yet left. */
  function Depth(t: seq<Event>): int {
    if t == [] then 0
    else Depth(t[..|t| - 1]) + match t[|t| - 1] case Entered(_, _) => 1 case Left => -1 case _ => 0
  }

  lemma {:induction false} DepthIsActive(t: seq<Event>)
    requires Lawful(t)
    ensures Depth(t) == |Watched(t).active|
  {
    if t != [] {
      hide Legal, Advance;
      LegalAt(t, |t| - 1);
      DepthIsActive(t[..|t| - 1]);
      ActiveChanges(Watched(t[..|t| - 1]), t[|t| - 1]);
    }
  }

  /** Nesting is no deeper than the catalog has ids, cyclic or not. */
  lemma NestingIsBounded(t: seq<Event>, n: nat, ids: set<string>)
    requires Lawful(t) && n <= |t| && Within(t, ids)
    ensures Depth(t[..n]) <= 1 + |ids|
  {
    hide Legal, Watched;
    PrefixLawful(t, n);
    DepthIsActive(t[..n]);
    ActiveStaysDistinct(t[..n], ids);
    var active := Watched(t[..n]).active;
    if active != [] {
      DistinctCount(active[1..]);
      SubsetIsSmaller(AsSet(active[1..]), ids);
    }
  }

  lemma {:induction false} StaysEntered(t: seq<Event>, i: nat, n: nat)
    requires Lawful(t) && i < n <= |t| && t[i].Entered?
    requires forall k: nat | i < k <= n :: Depth(t[..k]) > Depth(t[..i])
    ensures Watched(t[..i]).active + [t[i].cap.id] <= Watched(t[..n]).active
    ensures t[i].cap.id in Watched(t[..n]).active
    decreases n
  {
    hide Legal, Advance;
    LegalAt(t, n - 1);
    assert t[..n][..n - 1] == t[..n - 1];
    ActiveChanges(Watched(t[..n - 1]), t[n - 1]);
    if i < n - 1 {
      StaysEntered(t, i, n - 1);
      assert Depth(t[..n]) > Depth(t[..i]);
      PrefixLawful(t, i);
      DepthIsActive(t[..i]);
      PrefixLawful(t, n);
      DepthIsActive(t[..n]);
    }
    var stack := Watched(t[..i]).active + [t[i].cap.id];
    assert Watched(t[..n]).active[|stack| - 1] == stack[|stack| - 1];
  }

  /** No capability runs beneath an active run of the same id: the earlier run has been left in between. */
  lemma NoRunBeneathItself(t: seq<Event>, i: nat, j: nat)
    requires Lawful(t) && i < j < |t| && t[i].Entered? && t[j].Entered? && t[i].cap.id == t[j].cap.id
    ensures exists k: nat :: i < k <= j && Depth(t[..k]) <= Depth(t[..i])
  {
    hide Watched, Depth;
    LegalAt(t, j);
    if forall k: nat | i < k <= j :: Depth(t[..k]) > Depth(t[..i]) {
      StaysEntered(t, i, j);
    }
  }

  // ----- Where outputs come from -----

  /** The outputs of the newest opened run: what it was given, overlaid with what it has read since. */
  function BagOf(t: seq<Event>): Bag {
    if t == [] then map[]
    else
      match t[|t| - 1]
      case Opened(_, _, bag) => bag
      case Filled(f, name, raw) => Fill(f, BagOf(t[..|t| - 1]), name, raw)
      case _ => BagOf(t[..|t| - 1])
  }

  lemma BagChanges(w: Watch, e: Event)
    ensures Advance(w, e).bag == match e case Opened(_, _, bag) => bag case Filled(f, name, raw) => Fill(f, w.bag, name, raw) case _ => w.bag
  {
    hide Fill, Trace.Settle, NormalizeDecision;
    if e.PassedOver? || e.Joined? {
      SettlingOnlySettles(w, if e.Joined? then w.bag else map[]);
    }
  }

  lemma {:induction false} BagIsWatched(t: seq<Event>)
    ensures Watched(t).bag == BagOf(t)
  {
    if t != [] {
      hide Advance;
      BagIsWatched(t[..|t| - 1]);
      BagChanges(Watched(t[..|t| - 1]), t[|t| - 1]);
    }
  }

  /** The text was extracted by the newest act of a step that names this output. */
  ghost predicate ReadByAct(t: seq<Event>, m: nat, i: nat, result: ActResult)
    requires i < |t| && t[i].Filled?
  {
    && m < i && t[m].StepActed? && ActedAt(t, m, i, t[i].f, t[m].step, t[m].action, result)
    && t[m].step.outputName == Some(t[i].name) && result.ok && result.extracted == t[i].raw
  }

  /** The text at `x` is the newest read at the end of the run, on the screen last looked at. */
  ghost predicate ExtractedAt(t: seq<Event>, x: nat, n: nat, name: string, raw: string)
    requires n <= |t|
  {
    && x < n && t[x].Extracted? && t[x].name == name && t[x].result.Got? && t[x].result.value.extracted == raw
    && forall k | x < k < n :: !t[k].Extracted? && !t[k].Looked? && !t[k].Opened?
  }

  lemma ExtractingChanges(w: Watch, e: Event)
    requires Advance(w, e).extracted.Some?
    ensures if e.Extracted? then e.result.Got? && Advance(w, e).extracted.value == (e.name, e.result.value.extracted)
            else Advance(w, e).extracted == w.extracted && !e.Looked? && !e.Opened?
  {
    hide Behind, Fill, NormalizeDecision, Trace.Settle;
    if e.PassedOver? || e.Joined? {
      SettlingOnlySettles(w, if e.Joined? then w.bag else map[]);
    }
  }

  lemma {:induction false} ExtractedIsRead(t: seq<Event>)
    requires Lawful(t) && Watched(t).extracted.Some?
    ensures exists x: nat :: ExtractedAt(t, x, |t|, Watched(t).extracted.value.0, Watched(t).extracted.value.1)
  {
    hide Legal, Advance;
    LegalAt(t, |t| - 1);
    var s, e := t[..|t| - 1], t[|t| - 1];
    ExtractingChanges(Watched(s), e);
    var read := Watched(t).extracted.value;
    if e.Extracted? {
      assert ExtractedAt(t, |t| - 1, |t|, read.0, read.1);
    } else {
      ExtractedIsRead(s);
      var x: nat :| ExtractedAt(s, x, |s|, read.0, read.1);
      assert ExtractedAt(t, x, |t|, read.0, read.1);
    }
  }

  /** Nobody had written this output; the latest look shows success, and behind it the text was extracted for this output. */
  ghost predicate ReadAtTheEnd(t: seq<Event>, q: nat, i: nat)
    requires i < |t| && t[i].Filled?
  {
    && q < i && t[q].Looked? && LatestLook(t, q, i, t[q].seen)
    && (exists x: nat :: q < x && ExtractedAt(t, x, i, t[i].name, t[i].raw))
    && Holds(t[i].f.cap.success, t[q].seen, t[i].f.eyes) && t[i].name !in BagOf(t[..i])
  }

  /** Every output is the coerced text of the step's own successful act, or, still missing, of an extract on the success screen. */
  lemma OutputsAreRead(t: seq<Event>, i: nat)
    requires Lawful(t) && i < |t| && t[i].Filled?
    ensures Coerce(OutputNamed(t[i].f.cap.outputs, t[i].name), t[i].raw).Some?
    ensures (exists m: nat, result: ActResult :: ReadByAct(t, m, i, result)) || (exists q: nat :: ReadAtTheEnd(t, q, i))
  {
    hide Holds, Watched, Lawful, Coerce;
    LegalAt(t, i);
    BagIsWatched(t[..i]);
    var w := Watched(t[..i]);
    if w.loop.Some? {
      LastIsAnAct(t[..i]);
      var a := w.loop.value.last.value;
      var m: nat :| ActedAt(t[..i], m, i, w.own.value, w.loop.value.step, a.action, a.result);
      ActedCarries(t, m, i, w.own.value, w.loop.value.step, a.action, a.result);
      assert ReadByAct(t, m, i, a.result);
    } else {
      SeenIsLatest(t[..i]);
      var q: nat :| LatestLook(t[..i], q, i, w.seen.value);
      LookCarries(t, q, i, w.seen.value);
      ExtractedIsRead(t[..i]);
      var x: nat :| ExtractedAt(t[..i], x, i, t[i].name, t[i].raw);
      assert forall k | 0 <= k < i :: t[k] == t[..i][k];
      assert ExtractedAt(t, x, i, t[i].name, t[i].raw);
      assert ReadAtTheEnd(t, q, i);
    }
  }

  // ----- What the own steps rest on -----

  /** For each run entered and not yet left, where its uses were settled. */
  function Settlements(t: seq<Event>): seq<seq<nat>> {
    if t == [] then [] else AndSettled(Settlements(t[..|t| - 1]), t[|t| - 1], |t| - 1)
  }

  function AndSettled(before: seq<seq<nat>>, e: Event, i: nat): seq<seq<nat>> {
    match e
    case Entered(_, _) => before + [[]]
    case Left => if before == [] then [] else before[..|before| - 1]
    case PassedOver(_) => Settled(before, i)
    case Joined => Settled(before, i)
    case _ => before
  }

  function Settled(s: seq<seq<nat>>, at: nat): seq<seq<nat>> {
    if s == [] then s else s[|s| - 1 := s[|s| - 1] + [at]]
  }

  /** At `m` the run settled its `j`-th use: its success showed, or it ran as a child, with the passed inputs, to its close. */
  ghost predicate SettlesUse(t: seq<Event>, m: nat, cap: Capability, o: RunOptions, j: nat)
    requires j < |cap.uses|
  {
    && m < |t| && cap.uses[j].capabilityId in o.catalog
    && var child := o.catalog[cap.uses[j].capabilityId];
       match t[m]
       case PassedOver(eyes) =>
         && Narrowed(eyes, o.inputs)
         && exists q: nat, seen :: LatestLook(t, q, m, seen) && Holds(child.success, seen, eyes)
       case Joined => exists c: nat :: ClosedAt(t, c, m, child, PassedInputs(cap.uses[j], o.inputs))
       case _ => false
  }

  ghost predicate ClosedAt(t: seq<Event>, c: nat, m: nat, cap: Capability, inputs: map<string, string>)
    requires m <= |t|
  {
    c < m && t[c].Closed? && t[c].f.cap == cap && t[c].f.o.inputs == inputs
  }

  /** The levels tell, for each run still on, exactly where its uses were settled. */
  ghost predicate LevelFits(t: seq<Event>, at: seq<nat>, l: Level) {
    && |at| == l.used <= |l.cap.uses|
    && forall j: nat | j < |at| :: at[j] < |t| && SettlesUse(t, at[j], l.cap, l.o, j)
  }

  ghost predicate LevelsFit(t: seq<Event>, s: seq<seq<nat>>, levels: seq<Level>) {
    |s| == |levels| && forall k: nat | k < |levels| :: LevelFits(t, s[k], levels[k])
  }

  lemma JoiningIsAClose(w: Watch, e: Event)
    requires Advance(w, e).joined.Some?
    ensures if e.Closed? then Advance(w, e).joined == Some(e.f) else Advance(w, e).joined == w.joined
  {
    hide Behind, Fill, NormalizeDecision;
  }

  lemma {:induction false} JoinedIsClosed(t: seq<Event>)
    requires Lawful(t) && Watched(t).joined.Some?
    ensures exists c: nat :: ClosedAt(t, c, |t|, Watched(t).joined.value.cap, Watched(t).joined.value.o.inputs)
  {
    hide Legal, Advance;
    LegalAt(t, |t| - 1);
    var s, e := t[..|t| - 1], t[|t| - 1];
    JoiningIsAClose(Watched(s), e);
    var f := Watched(t).joined.value;
    if e.Closed? {
      assert ClosedAt(t, |t| - 1, |t|, f.cap, f.o.inputs);
    } else {
      JoinedIsClosed(s);
      var c: nat :| ClosedAt(s, c, |s|, f.cap, f.o.inputs);
      assert ClosedAt(t, c, |t|, f.cap, f.o.inputs);
    }
  }

  lemma SettlementCarries(s: seq<Event>, e: Event, m: nat, cap: Capability, o: RunOptions, j: nat)
    requires j < |cap.uses| && SettlesUse(s, m, cap, o, j)
    ensures SettlesUse(s + [e], m, cap, o, j)
  {
    hide Holds;
    var t := s + [e];
    var child := o.catalog[cap.uses[j].capabilityId];
    assert forall k | 0 <= k <= m :: t[k] == s[k];
    if s[m].PassedOver? {
      var q: nat, seen :| LatestLook(s, q, m, seen) && Holds(child.success, seen, s[m].eyes);
      assert LatestLook(t, q, m, seen);
    } else {
      var c: nat :| ClosedAt(s, c, m, child, PassedInputs(cap.uses[j], o.inputs));
      assert ClosedAt(t, c, m, child, PassedInputs(cap.uses[j], o.inputs));
    }
  }

  lemma LevelCarries(s: seq<Event>, e: Event, at: seq<nat>, l: Level)
    requires LevelFits(s, at, l)
    ensures LevelFits(s + [e], at, l)
  {
    hide SettlesUse;
    forall j: nat | j < |at|
      ensures SettlesUse(s + [e], at[j], l.cap, l.o, j)
    {
      SettlementCarries(s, e, at[j], l.cap, l.o, j);
    }
  }

  /** The newest event settles the next use of the run on top. */
  lemma SettledNow(t: seq<Event>)
    requires Lawful(t) && t != [] && (t[|t| - 1].PassedOver? || t[|t| - 1].Joined?)
    ensures var w := Watched(t[..|t| - 1]);
            w.levels != [] && Newest(w).used < |Newest(w).cap.uses|
            && SettlesUse(t, |t| - 1, Newest(w).cap, Newest(w).o, Newest(w).used)
  {
    hide Holds, Watched;
    LegalAt(t, |t| - 1);
    var s, e := t[..|t| - 1], t[|t| - 1];
    var m, w := |s|, Watched(s);
    var p := Newest(w);
    var child := p.o.catalog[p.cap.uses[p.used].capabilityId];
    if e.PassedOver? {
      SeenIsLatest(s);
      var q: nat :| LatestLook(s, q, m, w.seen.value);
      LookCarries(t, q, m, w.seen.value);
    } else {
      JoinedIsClosed(s);
      var c: nat :| ClosedAt(s, c, m, w.joined.value.cap, w.joined.value.o.inputs);
      assert ClosedAt(t, c, m, child, PassedInputs(p.cap.uses[p.used], p.o.inputs));
    }
  }

  /** How an event changes the levels. */
  lemma LevelChanges(w: Watch, e: Event)
    ensures var v := Advance(w, e);
            match e
            case Entered(cap, o) => v.levels == w.levels + [Level(cap, o, 0, o.bag)]
            case Left => v.levels == if w.levels == [] then [] else w.levels[..|w.levels| - 1]
            case PassedOver(_) => v.levels == Trace.Settle(w, map[]).levels
            case Joined => v.levels == Trace.Settle(w, w.bag).levels
            case _ => v.levels == w.levels
  {
    hide Behind, Fill, NormalizeDecision, Trace.Settle;
  }

  lemma AllLevelsCarry(s: seq<Event>, e: Event, at: seq<seq<nat>>, levels: seq<Level>)
    requires LevelsFit(s, at, levels)
    ensures LevelsFit(s + [e], at, levels)
  {
    hide LevelFits;
    forall k: nat | k < |levels|
      ensures LevelFits(s + [e], at[k], levels[k])
    {
      LevelCarries(s, e, at[k], levels[k]);
    }
  }

  lemma PushFits(t: seq<Event>, at: seq<seq<nat>>, levels: seq<Level>, cap: Capability, o: RunOptions)
    requires LevelsFit(t, at, levels)
    ensures LevelsFit(t, at + [[]], levels + [Level(cap, o, 0, o.bag)])
  {
    hide LevelFits;
    NothingSettledYet(t, cap, o);
    AddFits(t, at, levels, [], Level(cap, o, 0, o.bag));
  }

  lemma PopFits(t: seq<Event>, at: seq<seq<nat>>, levels: seq<Level>)
    requires LevelsFit(t, at, levels) && levels != []
    ensures LevelsFit(t, at[..|at| - 1], levels[..|levels| - 1])
  {
    hide LevelFits;
  }

  lemma SettleFits(t: seq<Event>, at: seq<seq<nat>>, w: Watch, outputs: Bag)
    requires t != [] && LevelsFit(t, at, w.levels) && w.levels != []
    requires Newest(w).used < |Newest(w).cap.uses|
    requires SettlesUse(t, |t| - 1, Newest(w).cap, Newest(w).o, Newest(w).used)
    ensures LevelsFit(t, Settled(at, |t| - 1), Trace.Settle(w, outputs).levels)
  {
    hide LevelFits, SettlesUse;
    var n, top := |at| - 1, Newest(w);
    PopFits(t, at, w.levels);
    assert LevelFits(t, at[n], top);
    OneMoreSettled(t, at[n], top, outputs);
    var last, level := at[n] + [|t| - 1], top.(used := top.used + 1, bag := top.bag + outputs);
    assert Settled(at, |t| - 1) == at[..n] + [last];
    assert Trace.Settle(w, outputs).levels == w.levels[..n] + [level];
    AddFits(t, at[..n], w.levels[..n], last, level);
  }

  lemma AddFits(t: seq<Event>, at: seq<seq<nat>>, levels: seq<Level>, last: seq<nat>, level: Level)
    requires LevelsFit(t, at, levels) && LevelFits(t, last, level)
    ensures LevelsFit(t, at + [last], levels + [level])
  {
    hide LevelFits;
  }

  lemma LevelsStayFit(t: seq<Event>, s: seq<Event>, e: Event, before: seq<seq<nat>>)
    requires Lawful(t) && t == s + [e] && LevelsFit(s, before, Watched(s).levels)
    ensures LevelsFit(t, AndSettled(before, e, |s|), Advance(Watched(s), e).levels)
  {
    hide Legal, Advance, LevelsFit, SettlesUse, Trace.Settle, Settled, Lawful, Watched;
    LegalAt(t, |s|);
    assert t[..|s|] == s;
    var w := Watched(s);
    LevelChanges(w, e);
    AllLevelsCarry(s, e, before, w.levels);
    LevelsMatch(s, before, w.levels);
    if e.Entered? {
      PushFits(t, before, w.levels, e.cap, e.o);
    } else if e.Left? {
      if w.levels != [] {
        PopFits(t, before, w.levels);
      }
    } else if e.PassedOver? || e.Joined? {
      SettledNow(t);
      SettleFits(t, before, w, if e.Joined? then w.bag else map[]);
    }
  }

  lemma {:induction false} LevelsAlwaysFit(t: seq<Event>)
    requires Lawful(t)
    ensures LevelsFit(t, Settlements(t), Watched(t).levels)
  {
    hide *;
    if t == [] {
      NothingEntered(t);
    } else {
      var s := t[..|t| - 1];
      PrefixLawful(t, |s|);
      LevelsAlwaysFit(s);
      LevelsStayFit(t, s, t[|t| - 1], Settlements(s));
      OneMoreOfEach(t);
    }
  }

  lemma OneMoreOfEach(t: seq<Event>)
    requires t != []
    ensures var s, e := t[..|t| - 1], t[|t| - 1];
            && Watched(t) == Advance(Watched(s), e)
            && Settlements(t) == AndSettled(Settlements(s), e, |s|)
            && Entries(t) == AndOn(Entries(s), e, |s|)
  {
    hide Advance, AndSettled, AndOn;
  }

  lemma LevelsMatch(t: seq<Event>, at: seq<seq<nat>>, levels: seq<Level>)
    requires LevelsFit(t, at, levels)
    ensures |at| == |levels|
  {
  }

  lemma NothingSettledYet(t: seq<Event>, cap: Capability, o: RunOptions)
    ensures LevelFits(t, [], Level(cap, o, 0, o.bag))
  {
  }

  lemma OneMoreSettled(t: seq<Event>, at: seq<nat>, l: Level, outputs: Bag)
    requires t != [] && LevelFits(t, at, l) && l.used < |l.cap.uses| && SettlesUse(t, |t| - 1, l.cap, l.o, l.used)
    ensures LevelFits(t, at + [|t| - 1], l.(used := l.used + 1, bag := l.bag + outputs))
  {
    hide SettlesUse;
  }

  /** Each use of the capability was settled, at these places. */
  ghost predicate AllUsesSettled(t: seq<Event>, at: seq<nat>, f: Frame) {
    |at| == |f.cap.uses| && forall j: nat | j < |at| :: SettlesUse(t, at[j], f.cap, f.o, j)
  }

  lemma OpeningNeedsItsUses(w: Watch, f: Frame, skipped: bool, bag: Bag)
    requires Legal(w, Opened(f, skipped, bag))
    ensures w.levels != [] && Newest(w) == Level(f.cap, f.o, |f.cap.uses|, bag)
  {
  }

  /**
   * A capability's own steps open only when each of its uses has shown its success or run as a child to its
   * close with the passed inputs.
   */
  lemma UsesAreSettledFirst(t: seq<Event>, i: nat)
    requires Lawful(t) && i < |t| && t[i].Opened?
    ensures var s := Settlements(t[..i]); s != [] && AllUsesSettled(t[..i], s[|s| - 1], t[i].f)
  {
    hide Watched, Lawful, Settlements, SettlesUse, Legal;
    LegalAt(t, i);
    LevelsAlwaysFit(t[..i]);
    var w, s := Watched(t[..i]), Settlements(t[..i]);
    OpeningNeedsItsUses(w, t[i].f, t[i].skipped, t[i].bag);
    assert LevelFits(t[..i], s[|s| - 1], w.levels[|w.levels| - 1]);
  }
}
