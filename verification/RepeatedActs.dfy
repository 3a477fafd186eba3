/** An approved risky step may be acted on again and again: a family of lawful traces that shows it. */
module RepeatedActs {
  import opened Prelude
  import opened Text
  import opened Canonical
  import opened Outputs
  import opened Capabilities
  import opened Decisions
  import opened Ledger
  import opened Trace
  import opened TraceLaws

  /** A risky click without checkpoint and without retry budget. */
  const STEP := Step("s01-click", Click, None, None, None, None, None, Risky, None, [], 0)

  /** A control that is not there yet is declared as something that passes by itself. */
  const MISSING := ExceptionalState(Detect("", "", "", true), Recoverable, "NOT_THERE_YET", None)

  const PAGE := Checkpoint(UrlIncludes, "u")

  const CAP := Capability("c", [], [], Creates, Some(Approval("a", "b")), false, None, NoCredential, PAGE, [], None,
                          [STEP], [MISSING], [], PAGE)

  const OPTIONS := RunOptions(map[], false, false, true, false, map[], None, map[], false, [])

  const FRAME := Frame(CAP, OPTIONS, KeyFor(CAP, map[]), map[])

  const SEEN := Observation("u", Some("u"), "", "", "", None, false)

  const RESUME := Decision(Resume, None, false, None, None)

  const REFUSED := ActResult(false, "", false, false)

  function Press(): Action {
    Issued(STEP, map[], FRAME.key)
  }

  /** Up to the hand-back. */
  const RELEASE := [Entered(CAP, OPTIONS), Looked(SEEN), Opened(FRAME, false, map[]), Began(FRAME, STEP), Looked(SEEN),
                    Iterated(SEEN), Escalated(RiskyStep, PAGE, Got(RESUME)), Looked(SEEN), HandedBack(FRAME, STEP, SEEN, PAGE)]

  /** An act the screen excuses, and the next turn. */
  function Again(): seq<Event> {
    [Ruled(FRAME, STEP, Press(), SEEN, Got(true)), StepActed(FRAME, STEP, Press(), SEEN, Got(REFUSED)), Looked(SEEN),
     Retried(false), Looked(SEEN), Iterated(SEEN)]
  }

  function Acting(n: nat): seq<Event> {
    if n == 0 then RELEASE else Acting(n - 1) + Again()
  }

  /** Inside the loop of the released step, with these counts. */
  ghost predicate Going(w: Watch, acts: nat, retried: nat, iters: nat) {
    && w.own == Some(FRAME) && w.loop.Some?
    && var l := w.loop.value;
       && l.step == STEP && l.armed && !l.pending && l.acts == acts && l.retried == retried && l.iters == iters
       && l.recoveries == l.transients == l.resumed == 0
  }

  /** Released, acted on `n` times, and free to be acted on once more. */
  ghost predicate Released(w: Watch, n: nat) {
    Going(w, n, n, n + 1) && w.loop.value.top == Some(SEEN)
  }

  ghost predicate Pressed(w: Watch, n: nat) {
    Going(w, n + 1, n, n + 1) && w.loop.value.hand.None? && w.loop.value.last == Some(Attempt(Press(), REFUSED))
  }

  lemma PageHolds()
    ensures Holds(PAGE, SEEN, map[])
  {
    assert TokenFree("u");
    TokenFreeExpandsToItself("u", map[]);
    assert "u" <= "u";
  }

  lemma Screens()
    ensures MatchException(CAP.exceptionalStates, SEEN) == None
    ensures MatchMiss(CAP.exceptionalStates, SEEN) == Some(MISSING)
    ensures NoAnti(CAP, STEP.antiCheckpoints, SEEN, map[]) && !StartsWithNavigate(CAP)
  {
    assert CAP.exceptionalStates[1..] == [];
  }

  lemma Approved()
    ensures TwoPersonApproved(CAP) && InputsAccepted(CAP.parameters, map[])
  {
    TrimOfTight("a");
    TrimOfTight("b");
    assert Lower("a")[0] != Lower("b")[0];
  }

  /** One event after the other. */
  lemma Appending2(t: seq<Event>, a: Event, b: Event)
    requires Lawful(t) && Legal(Watched(t), a) && Legal(Advance(Watched(t), a), b)
    ensures Lawful(t + [a, b]) && Watched(t + [a, b]) == Advance(Advance(Watched(t), a), b)
  {
    hide Legal, Advance, Lawful, Watched;
    Appending(t, a);
    Appending(t + [a], b);
    assert t + [a, b] == t + [a] + [b];
  }

  lemma Appending3(t: seq<Event>, a: Event, b: Event, c: Event)
    requires Lawful(t) && Legal(Watched(t), a) && Legal(Advance(Watched(t), a), b)
    requires Legal(Advance(Advance(Watched(t), a), b), c)
    ensures Lawful(t + [a, b, c]) && Watched(t + [a, b, c]) == Advance(Advance(Advance(Watched(t), a), b), c)
  {
    hide Legal, Advance, Lawful, Watched;
    Appending2(t, a, b);
    Appending(t + [a, b], c);
    assert t + [a, b, c] == t + [a, b] + [c];
  }

  lemma Opens() returns (w: Watch)
    ensures Legal(START, RELEASE[0]) && Legal(Advance(START, RELEASE[0]), RELEASE[1])
    ensures Legal(Advance(Advance(START, RELEASE[0]), RELEASE[1]), RELEASE[2])
    ensures w == Advance(Advance(Advance(START, RELEASE[0]), RELEASE[1]), RELEASE[2])
    ensures w.own == Some(FRAME) && w.loop.None? && w.done == 0
  {
    hide Holds, KeyFor, TwoPersonApproved, InputsAccepted;
    PageHolds();
    Screens();
    Approved();
    w := Advance(Advance(START, RELEASE[0]), RELEASE[1]);
    assert w.active == [CAP.id] && w.levels == [Level(CAP, OPTIONS, 0, map[])];
    w := Advance(w, RELEASE[2]);
  }

  /** The first turn finds the operator to be asked. */
  lemma Turns(w: Watch) returns (v: Watch)
    requires w.own == Some(FRAME) && w.loop.None? && w.done == 0
    ensures Legal(w, RELEASE[3]) && Legal(Advance(w, RELEASE[3]), RELEASE[4])
    ensures Legal(Advance(Advance(w, RELEASE[3]), RELEASE[4]), RELEASE[5])
    ensures v == Advance(Advance(Advance(w, RELEASE[3]), RELEASE[4]), RELEASE[5])
    ensures v.own == Some(FRAME) && v.seen == Some(SEEN) && v.loop == Some(Fresh(STEP).(top := Some(SEEN), iters := 1))
  {
    v := Advance(Advance(Advance(w, RELEASE[3]), RELEASE[4]), RELEASE[5]);
  }

  /** Asked, the operator leaves the step to the run. */
  lemma IsReleased(w: Watch) returns (v: Watch)
    requires w.own == Some(FRAME) && w.seen == Some(SEEN) && w.loop == Some(Fresh(STEP).(top := Some(SEEN), iters := 1))
    ensures Legal(w, RELEASE[6]) && Legal(Advance(w, RELEASE[6]), RELEASE[7])
    ensures Legal(Advance(Advance(w, RELEASE[6]), RELEASE[7]), RELEASE[8])
    ensures v == Advance(Advance(Advance(w, RELEASE[6]), RELEASE[7]), RELEASE[8]) && Released(v, 0)
  {
    hide Holds, MatchException, NoAnti;
    PageHolds();
    Screens();
    v := Advance(Advance(Advance(w, RELEASE[6]), RELEASE[7]), RELEASE[8]);
  }

  lemma Releases()
    ensures Lawful(RELEASE) && Released(Watched(RELEASE), 0)
  {
    hide Legal, Advance, Lawful, Released;
    var none: seq<Event> := [];
    assert Lawful(none) && Watched(none) == START by {
      StartIsLawful();
    }
    var w := Opens();
    Appending3(none, RELEASE[0], RELEASE[1], RELEASE[2]);
    var v := Turns(w);
    var three := none + [RELEASE[0], RELEASE[1], RELEASE[2]];
    Appending3(three, RELEASE[3], RELEASE[4], RELEASE[5]);
    var u := IsReleased(v);
    var six := three + [RELEASE[3], RELEASE[4], RELEASE[5]];
    Appending3(six, RELEASE[6], RELEASE[7], RELEASE[8]);
    assert RELEASE == six + [RELEASE[6], RELEASE[7], RELEASE[8]];
  }

  lemma StartIsLawful()
    ensures Lawful([]) && Watched([]) == START
  {
  }

  /** The act comes back refused. */
  lemma Presses(w: Watch, n: nat) returns (v: Watch)
    requires Released(w, n)
    ensures Legal(w, Again()[0]) && Legal(Advance(w, Again()[0]), Again()[1])
    ensures v == Advance(Advance(w, Again()[0]), Again()[1])
    ensures Pressed(v, n)
  {
    hide MatchException, NoAnti, Issued;
    Screens();
    v := Advance(Advance(w, Again()[0]), Again()[1]);
  }

  /** The look behind it excuses it, and the loop goes round. */
  lemma GoesRound(w: Watch, n: nat) returns (v: Watch)
    requires Pressed(w, n)
    ensures Legal(w, Again()[2]) && Legal(Advance(w, Again()[2]), Again()[3])
    ensures v == Advance(Advance(w, Again()[2]), Again()[3])
    ensures Going(v, n + 1, n + 1, n + 1)
  {
    hide MatchException, MatchMiss, Issued;
    Screens();
    v := Advance(Advance(w, Again()[2]), Again()[3]);
  }

  lemma LooksAgain(w: Watch, n: nat) returns (v: Watch)
    requires Going(w, n + 1, n + 1, n + 1)
    ensures Legal(w, Again()[4]) && Legal(Advance(w, Again()[4]), Again()[5])
    ensures v == Advance(Advance(w, Again()[4]), Again()[5]) && Released(v, n + 1)
  {
    v := Advance(Advance(w, Again()[4]), Again()[5]);
  }

  lemma OneMoreAct(t: seq<Event>, n: nat)
    requires Lawful(t) && Released(Watched(t), n)
    ensures Lawful(t + Again()) && Released(Watched(t + Again()), n + 1)
  {
    hide Legal, Advance, Lawful, Watched, Released, Pressed, Going;
    var e := Again();
    var w := Presses(Watched(t), n);
    Appending2(t, e[0], e[1]);
    var v := GoesRound(w, n);
    Appending2(t + [e[0], e[1]], e[2], e[3]);
    var u := LooksAgain(v, n);
    Appending2(t + [e[0], e[1]] + [e[2], e[3]], e[4], e[5]);
    assert t + e == t + [e[0], e[1]] + [e[2], e[3]] + [e[4], e[5]];
  }

  lemma {:induction false} ActsAgain(n: nat)
    ensures Lawful(Acting(n)) && Released(Watched(Acting(n)), n)
  {
    if n == 0 {
      Releases();
    } else {
      ActsAgain(n - 1);
      OneMoreAct(Acting(n - 1), n - 1);
    }
  }

  lemma {:induction false} AskedOnce(n: nat)
    ensures |Acting(n)| >= 9 && forall k | 0 <= k < |Acting(n)| :: Acting(n)[k].Escalated? <==> k == 6
  {
    if n > 0 {
      AskedOnce(n - 1);
    }
  }

  /**
   * Released once, acted on any number of times: for every `n` a lawful trace in which the operator is asked once
   * about a risky step that has no retry budget, and the step is then acted on `n` times.
   */
  lemma ReleasedOnceActedOnOften(n: nat)
    ensures var t := Acting(n);
            && Lawful(t) && NewestStep(t) == Some(STEP) && STEP.risk.Risky? && STEP.retryBudget == 0 && !FRAME.o.approveRisky
            && Count(t, Acts) == n
            && forall i, k | 0 <= i < |t| && 0 <= k < |t| && t[i].Escalated? && t[k].Escalated? :: i == k
  {
    hide Lawful, Watched, Acting;
    ActsAgain(n);
    AskedOnce(n);
    AlwaysBalanced(Acting(n));
  }
}
