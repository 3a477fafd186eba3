/**
 * Control planes sharing surfaces: `src/escalation/control.ts`.
 *
 * `ControlPlane` is the source's object, one method for each stretch of code between two awaits. `World`
 * interleaves any number of planes at those awaits, on any number of surfaces, with expiring timers and
 * operators who use their handle whenever they like, even long after their escalation is over.
 */
module Control {
  import opened Prelude
  import opened Decisions
  import opened Lifecycle

  // ----- What an operator's handle and a decision do to the record -----

  function ClaimRecord(r: Record, operator: string, at: int): Option<Record> {
    if r.state != Raised then Some(r) else Transition(r, Claimed, Some(operator), None, at)
  }

  function TakeRecord(r: Record, at: int): Option<Record> {
    var claimed :- if r.state == Raised then Transition(r, Claimed, Some(r.operatorId.Or("unknown")), None, at) else Some(r);
    if claimed.state != Claimed then Some(claimed) else Transition(claimed, InControl, claimed.operatorId, None, at)
  }

  function DecideRecord(r: Record, d: Decision, timedOut: bool, at: int): Option<Record> {
    var operator := if d.operatorId.Some? then d.operatorId else r.operatorId;
    if timedOut || d.action == Abort || d.disposition == Some(AbortStep) then
      Transition(r, Abandoned, operator, Some(AbortStep), at)
    else
      var claimed :- if r.state == Raised then Transition(r, Claimed, Some(operator.Or("unknown")), None, at) else Some(r);
      var taken :- if claimed.state == Claimed then Transition(claimed, InControl, claimed.operatorId, None, at) else Some(claimed);
      if taken.state == InControl then Transition(taken, Returned, taken.operatorId, d.disposition, at) else Some(taken)
  }

  function FinishRecord(r: Record, outcome: State, at: int): Option<Record> {
    if r.state in {Resolved, Abandoned} then Some(r) else Transition(r, outcome, r.operatorId, None, at)
  }

  lemma OperatorsMoveLiveRecords(r: Record, operator: string, at: int)
    requires Sound(r)
    ensures var c, t := ClaimRecord(r, operator, at), TakeRecord(r, at);
            && c.Some? && Sound(c.value) && c.value.id == r.id
            && t.Some? && Sound(t.value) && t.value.id == r.id
            && (if Live(r.state) then Live(c.value.state) && Live(t.value.state) else c.value == r && t.value == r)
  {
    hide Sound;
    TransitionKeepsSound(r, Claimed, Some(operator), None, at);
    TransitionKeepsSound(r, Claimed, Some(r.operatorId.Or("unknown")), None, at);
    var claimed := if r.state == Raised then Transition(r, Claimed, Some(r.operatorId.Or("unknown")), None, at).value else r;
    TransitionKeepsSound(claimed, InControl, claimed.operatorId, None, at);
  }

  lemma DecisionsSettleLiveRecords(r: Record, d: Decision, timedOut: bool, at: int)
    requires Sound(r) && Live(r.state) && (d.action == Abort <==> d.disposition == Some(AbortStep))
    ensures var s := DecideRecord(r, d, timedOut, at);
            && s.Some? && Sound(s.value) && s.value.id == r.id
            && s.value.state == if timedOut || d.action == Abort then Abandoned else Returned
  {
    hide Sound;
    var operator := if d.operatorId.Some? then d.operatorId else r.operatorId;
    TransitionKeepsSound(r, Abandoned, operator, Some(AbortStep), at);
    TransitionKeepsSound(r, Claimed, Some(operator.Or("unknown")), None, at);
    var claimed := if r.state == Raised then Transition(r, Claimed, Some(operator.Or("unknown")), None, at).value else r;
    TransitionKeepsSound(claimed, InControl, claimed.operatorId, None, at);
    var taken := if claimed.state == Claimed then Transition(claimed, InControl, claimed.operatorId, None, at).value else claimed;
    TransitionKeepsSound(taken, Returned, taken.operatorId, d.disposition, at);
  }

  // ----- One plane and the desk it shares -----

  datatype Phase = Idle | Capturing | Paused | Waiting | Settled(decision: Decision) | Released(decision: Decision)

  /** `handle`: some operator has one. `last` is what the newest finished escalation returned. */
  datatype Plane = Plane(
    surface: nat,
    ttl: nat,
    phase: Phase,
    record: Option<Record>,
    expired: bool,
    handle: bool,
    last: Option<Decision>)

  /** `held` is the lock map; surfaces not in `human` belong to the automation. */
  datatype Desk = Desk(held: map<nat, nat>, human: set<nat>, nextId: nat)

  function Begin(p: Plane, d: Desk, at: int): (Plane, Desk) {
    var r, d' := Create(d.nextId, at, p.ttl), d.(nextId := d.nextId + 1);
    if p.surface in d.held then
      (p.(record := Transition(r, Abandoned, None, None, at), last := Some(SESSION_HELD)), d')
    else
      (p.(phase := Capturing, record := Some(r), expired := false), d'.(held := d.held[p.surface := r.id]))
  }

  function Settle(p: Plane, decision: Decision, at: int): Option<Plane>
    requires p.record.Some?
  {
    var r :- DecideRecord(p.record.value, decision, p.expired, at);
    Some(p.(record := Some(r), phase := Settled(decision)))
  }

  function Unlock(p: Plane, d: Desk): (Plane, Desk)
    requires p.phase.Released? && p.record.Some?
  {
    (p.(phase := Idle, last := Some(p.phase.decision)),
     if p.surface in d.held && d.held[p.surface] == p.record.value.id then d.(held := d.held - {p.surface}) else d)
  }

  class Locks {
    var held: map<nat, nat>
    var human: set<nat>
    var nextId: nat

    function View(): Desk
      reads this
    {
      Desk(held, human, nextId)
    }

    constructor ()
      ensures View() == Desk(map[], {}, 0)
    {
      held, human, nextId := map[], {}, 0;
    }
  }

  class ControlPlane {
    const surface: nat
    const ttl: nat
    const locks: Locks
    var phase: Phase
    var record: Option<Record>
    var expired: bool
    var handle: bool
    var last: Option<Decision>

    function View(): Plane
      reads this
    {
      Plane(surface, ttl, phase, record, expired, handle, last)
    }

    constructor (surface: nat, ttl: nat, locks: Locks)
      ensures View() == Plane(surface, ttl, Idle, None, false, false, None) && this.locks == locks
    {
      this.surface, this.ttl, this.locks := surface, ttl, locks;
      phase, record, expired, handle, last := Idle, None, false, false, None;
    }

    /** `escalate` up to its first await. */
    method BeginEscalation(at: int)
      requires phase == Idle
      modifies this, locks
      ensures (View(), locks.View()) == Begin(old(View()), old(locks.View()), at)
    {
      var id := locks.nextId;
      locks.nextId := id + 1;
      record := Some(Create(id, at, ttl));
      if surface in locks.held {
        record := Transition(record.value, Abandoned, None, None, at);
        last := Some(SESSION_HELD);
        return;
      }
      locks.held := locks.held[surface := id];
      expired := false;
      phase := Capturing;
    }

    /** `handle.claim` */
    method Claim(operator: string, at: int) returns (ok: bool)
      requires record.Some?
      modifies this`record
      ensures ok <==> ClaimRecord(old(record).value, operator, at).Some?
      ensures ok ==> record == ClaimRecord(old(record).value, operator, at)
    {
      var current := record.value;
      if current.state != Raised {
        return true;
      }
      var next := Transition(current, Claimed, Some(operator), None, at);
      if next.None? {
        return false;
      }
      record := next;
      return true;
    }

    /** `handle.takeControl` */
    method TakeControl(at: int) returns (ok: bool)
      requires record.Some?
      modifies this`record
      ensures ok <==> TakeRecord(old(record).value, at).Some?
      ensures ok ==> record == TakeRecord(old(record).value, at)
    {
      var current := record.value;
      if current.state == Raised {
        var claimed := Transition(current, Claimed, Some(current.operatorId.Or("unknown")), None, at);
        if claimed.None? {
          return false;
        }
        current := claimed.value;
        record := Some(current);
      }
      if current.state != Claimed {
        return true;
      }
      var next := Transition(current, InControl, current.operatorId, None, at);
      if next.None? {
        return false;
      }
      record := next;
      return true;
    }

    /** The decision that won the race, normalised, and `applyDecision`. */
    method SettleRace(decision: Decision, at: int) returns (ok: bool)
      requires record.Some?
      modifies this`record, this`phase
      ensures ok <==> Settle(old(View()), decision, at).Some?
      ensures ok ==> Some(View()) == Settle(old(View()), decision, at)
    {
      var current := record.value;
      var operator := if decision.operatorId.Some? then decision.operatorId else current.operatorId;
      if expired || decision.action == Abort || decision.disposition == Some(AbortStep) {
        var abandoned := Transition(current, Abandoned, operator, Some(AbortStep), at);
        if abandoned.None? {
          return false;
        }
        record, phase := abandoned, Settled(decision);
        return true;
      }
      if current.state == Raised {
        var claimed := Transition(current, Claimed, Some(operator.Or("unknown")), None, at);
        if claimed.None? {
          return false;
        }
        current := claimed.value;
        record := Some(current);
      }
      if current.state == Claimed {
        var taken := Transition(current, InControl, current.operatorId, None, at);
        if taken.None? {
          return false;
        }
        current := taken.value;
        record := Some(current);
      }
      if current.state == InControl {
        var returned := Transition(current, Returned, current.operatorId, decision.disposition, at);
        if returned.None? {
          return false;
        }
        record := returned;
      }
      phase := Settled(decision);
      return true;
    }

    /** `surface.pause()` */
    method PauseSurface()
      requires phase == Capturing
      modifies this`phase, locks
      ensures View() == old(View()).(phase := Paused)
      ensures locks.View() == old(locks.View()).(human := old(locks.human) + {surface})
    {
      locks.human := locks.human + {surface};
      phase := Paused;
    }

    /** The start of `raceWaiter`: an expired timer wins at once, else the waiter gets a handle. */
    method StartRace(at: int) returns (ok: bool)
      requires phase == Paused && record.Some?
      modifies this`record, this`phase, this`handle
      ensures old(expired) ==> (ok <==> Settle(old(View()), NormalizeDecision(TTL_EXPIRED), at).Some?)
      ensures ok ==> Some(View()) == if old(expired) then Settle(old(View()), NormalizeDecision(TTL_EXPIRED), at)
                                     else Some(old(View()).(phase := Waiting, handle := true))
      ensures !old(expired) ==> ok
    {
      if expired {
        ok := SettleRace(NormalizeDecision(TTL_EXPIRED), at);
        return;
      }
      phase, handle := Waiting, true;
      return true;
    }

    /** The timer's abort: it ends a race that is on. */
    method FireTimer(at: int) returns (ok: bool)
      requires phase != Idle && record.Some?
      modifies this`record, this`phase, this`expired
      ensures var fired := old(View()).(expired := true);
              if old(phase) == Waiting then
                && (ok <==> Settle(fired, NormalizeDecision(TTL_EXPIRED), at).Some?)
                && (ok ==> Some(View()) == Settle(fired, NormalizeDecision(TTL_EXPIRED), at))
              else ok && View() == fired
    {
      expired := true;
      if phase == Waiting {
        ok := SettleRace(NormalizeDecision(TTL_EXPIRED), at);
        return;
      }
      return true;
    }

    /** `surface.resume()`, or `releaseSession` when the decision is to abort. */
    method Release()
      requires phase.Settled?
      modifies this`phase, locks
      ensures View() == old(View()).(phase := Released(old(phase).decision))
      ensures locks.View() == old(locks.View()).(human := old(locks.human) - {surface})
    {
      if phase.decision.action == Resume {
        locks.human := locks.human - {surface};
      } else if surface in locks.human {
        locks.human := locks.human - {surface};
      }
      phase := Released(phase.decision);
    }

    /** The `finally` block. */
    method Close()
      requires phase.Released? && record.Some?
      modifies this`phase, this`last, locks
      ensures (View(), locks.View()) == Unlock(old(View()), old(locks.View()))
    {
      last, phase := Some(phase.decision), Idle;
      if surface in locks.held && locks.held[surface] == record.value.id {
        locks.held := locks.held - {surface};
      }
    }

    /** `finish` */
    method Finish(outcome: State, at: int) returns (ok: bool)
      requires record.Some?
      modifies this`record
      ensures ok <==> FinishRecord(old(record).value, outcome, at).Some?
      ensures ok ==> record == FinishRecord(old(record).value, outcome, at)
    {
      var current := record.value;
      if current.state == Resolved || current.state == Abandoned {
        return true;
      }
      var next := Transition(current, outcome, current.operatorId, None, at);
      if next.None? {
        return false;
      }
      record := next;
      return true;
    }
  }

  // ----- Many planes, interleaved -----

  datatype World = World(planes: seq<Plane>, desk: Desk)

  datatype Event =
    | Escalates
    | Pauses
    | StartsRace
    | OperatorClaims(operator: string)
    | OperatorTakes
    | WaiterSettles(raw: Decision)
    | TimerFires
    | Releases
    | Unlocks
    | Finishes(resolved: bool)

  datatype Turn = Turn(plane: nat, event: Event, at: int)

  /** One escalation at a time per plane, each finished only when it has returned; waiters do not throw. */
  predicate Enabled(w: World, t: Turn) {
    && t.plane < |w.planes|
    && var p := w.planes[t.plane];
       match t.event
       case Escalates => p.phase == Idle
       case Pauses => p.phase == Capturing
       case StartsRace => p.phase == Paused
       case OperatorClaims(_) => p.handle && p.record.Some?
       case OperatorTakes => p.handle && p.record.Some?
       case WaiterSettles(_) => p.phase == Waiting && p.record.Some?
       case TimerFires => p.phase != Idle && !p.expired
       case Releases => p.phase.Settled?
       case Unlocks => p.phase.Released? && p.record.Some?
       case Finishes(_) => p.phase == Idle && p.record.Some?
  }

  function Put(w: World, i: nat, p: Plane): World
    requires i < |w.planes|
  {
    w.(planes := w.planes[i := p])
  }

  function SettleIn(w: World, i: nat, p: Plane, decision: Decision, at: int): Option<World>
    requires i < |w.planes|
  {
    if p.record.None? then None
    else
      var settled :- Settle(p, decision, at);
      Some(Put(w, i, settled))
  }

  /** `None` is an illegal transition thrown. A decision settles and is applied in one go: no timer runs in between. */
  function Step(w: World, t: Turn): Option<World>
    requires Enabled(w, t)
  {
    var i, p, d := t.plane, w.planes[t.plane], w.desk;
    match t.event
    case Escalates =>
      var (p', d') := Begin(p, d, t.at);
      Some(Put(w, i, p').(desk := d'))
    case Pauses => Some(Put(w, i, p.(phase := Paused)).(desk := d.(human := d.human + {p.surface})))
    case StartsRace =>
      if p.expired then SettleIn(w, i, p, NormalizeDecision(TTL_EXPIRED), t.at)
      else Some(Put(w, i, p.(phase := Waiting, handle := true)))
    case OperatorClaims(operator) =>
      var r :- ClaimRecord(p.record.value, operator, t.at);
      Some(Put(w, i, p.(record := Some(r))))
    case OperatorTakes =>
      var r :- TakeRecord(p.record.value, t.at);
      Some(Put(w, i, p.(record := Some(r))))
    case WaiterSettles(raw) => SettleIn(w, i, p, NormalizeDecision(raw), t.at)
    case TimerFires =>
      var fired := p.(expired := true);
      if p.phase == Waiting then SettleIn(w, i, fired, NormalizeDecision(TTL_EXPIRED), t.at) else Some(Put(w, i, fired))
    case Releases => Some(Put(w, i, p.(phase := Released(p.phase.decision))).(desk := d.(human := d.human - {p.surface})))
    case Unlocks =>
      var (p', d') := Unlock(p, d);
      Some(Put(w, i, p').(desk := d'))
    case Finishes(resolved) =>
      var r :- FinishRecord(p.record.value, if resolved then Resolved else Abandoned, t.at);
      Some(Put(w, i, p.(record := Some(r))))
  }

  // ----- What holds in every reachable world -----

  /** Between its pause and its release the holder's surface belongs to the human. */
  predicate HandsOver(phase: Phase) {
    phase == Paused || phase == Waiting || phase.Settled?
  }

  ghost predicate PlaneOk(p: Plane, d: Desk) {
    && (p.record.Some? ==> Sound(p.record.value) && p.record.value.id < d.nextId)
    && (p.phase != Idle ==> p.record.Some? && p.surface in d.held && d.held[p.surface] == p.record.value.id)
    && (HandsOver(p.phase) ==> p.surface in d.human)
    && (p.phase == Waiting ==> !p.expired)
    && (p.record.Some? ==>
          match p.phase
          case Idle => !Live(p.record.value.state)
          case Settled(decision) => p.record.value.state == if decision.action == Abort then Abandoned else Returned
          case Released(decision) => p.record.value.state == if decision.action == Abort then Abandoned else Returned
          case _ => Live(p.record.value.state))
  }

  ghost predicate HolderOf(w: World, i: nat, surface: nat) {
    i < |w.planes| && w.planes[i].surface == surface && w.planes[i].phase != Idle
  }

  ghost predicate Inv(w: World) {
    && (forall i | 0 <= i < |w.planes| :: PlaneOk(w.planes[i], w.desk))
    && (forall i, j | 0 <= i < j < |w.planes| && w.planes[i].record.Some? && w.planes[j].record.Some? ::
          w.planes[i].record.value.id != w.planes[j].record.value.id)
    && (forall s | s in w.desk.held :: exists i: nat :: HolderOf(w, i, s))
    && (forall s | s in w.desk.human :: exists i: nat :: HolderOf(w, i, s) && HandsOver(w.planes[i].phase))
  }

  lemma HoldersAreUnique(w: World, i: nat, j: nat)
    requires Inv(w) && i < |w.planes| && j < |w.planes| && w.planes[i].surface == w.planes[j].surface
    requires w.planes[i].phase != Idle && w.planes[j].phase != Idle
    ensures i == j
  {
    assert PlaneOk(w.planes[i], w.desk) && PlaneOk(w.planes[j], w.desk);
  }

  /** Replacing one plane keeps the invariant if the desk changes at its own surface alone, and fits. */
  lemma ReplacingKeepsInv(w: World, i: nat, p: Plane, d: Desk)
    requires Inv(w) && i < |w.planes| && p.surface == w.planes[i].surface && PlaneOk(p, d)
    requires p.record.Some? ==> (w.planes[i].record.Some? && p.record.value.id == w.planes[i].record.value.id)
                                || p.record.value.id >= w.desk.nextId
    requires w.desk.nextId <= d.nextId
    requires forall s | s != p.surface :: (s in d.human <==> s in w.desk.human)
                                       && (s in d.held <==> s in w.desk.held) && (s in d.held ==> d.held[s] == w.desk.held[s])
    requires p.surface in d.held ==> p.phase != Idle || exists j: nat :: j != i && HolderOf(w, j, p.surface)
    requires p.surface in d.human ==>
               HandsOver(p.phase) || exists j: nat :: j != i && HolderOf(w, j, p.surface) && HandsOver(w.planes[j].phase)
    requires forall j | 0 <= j < |w.planes| && j != i && w.planes[j].surface == p.surface :: PlaneOk(w.planes[j], d)
    ensures Inv(World(w.planes[i := p], d))
  {
    hide Sound;
    var v := World(w.planes[i := p], d);
    forall j | 0 <= j < |v.planes|
      ensures PlaneOk(v.planes[j], d)
    {
      assert PlaneOk(w.planes[j], w.desk);
    }
    forall j, k | 0 <= j < k < |v.planes| && v.planes[j].record.Some? && v.planes[k].record.Some?
      ensures v.planes[j].record.value.id != v.planes[k].record.value.id
    {
      assert PlaneOk(w.planes[j], w.desk) && PlaneOk(w.planes[k], w.desk);
    }
    forall s | s in d.held
      ensures exists j: nat :: HolderOf(v, j, s)
    {
      if s == p.surface && p.phase != Idle {
        assert HolderOf(v, i, s);
      } else {
        var j: nat :| HolderOf(w, j, s) && (s == p.surface ==> j != i);
        assert HolderOf(v, j, s);
      }
    }
    forall s | s in d.human
      ensures exists j: nat :: HolderOf(v, j, s) && HandsOver(v.planes[j].phase)
    {
      if s == p.surface && HandsOver(p.phase) {
        assert HolderOf(v, i, s);
      } else {
        var j: nat :| HolderOf(w, j, s) && HandsOver(w.planes[j].phase) && (s == p.surface ==> j != i);
        assert HolderOf(v, j, s);
      }
    }
  }

  /** While a plane holds its surface, every other plane on it is idle and so does not depend on the desk there. */
  lemma OthersAreIdle(w: World, i: nat, d: Desk)
    requires Inv(w) && i < |w.planes| && (w.planes[i].phase != Idle || w.planes[i].surface !in w.desk.held)
    requires w.desk.nextId <= d.nextId
    ensures forall j | 0 <= j < |w.planes| && j != i && w.planes[j].surface == w.planes[i].surface :: PlaneOk(w.planes[j], d)
    ensures forall j: nat | j != i :: !HolderOf(w, j, w.planes[i].surface)
  {
    hide Sound;
    forall j: nat | j < |w.planes| && j != i && w.planes[j].surface == w.planes[i].surface
      ensures PlaneOk(w.planes[j], d) && w.planes[j].phase == Idle
    {
      assert PlaneOk(w.planes[j], w.desk) && PlaneOk(w.planes[i], w.desk);
      if w.planes[j].phase != Idle {
        HoldersAreUnique(w, i, j);
      }
    }
  }

  lemma BeginKeepsInv(w: World, t: Turn)
    requires Inv(w) && Enabled(w, t) && t.event.Escalates?
    ensures Inv(Step(w, t).value)
  {
    hide Sound;
    var i := t.plane;
    var p := w.planes[i];
    var (p', d') := Begin(p, w.desk, t.at);
    var r := Create(w.desk.nextId, t.at, p.ttl);
    TransitionKeepsSound(r, Abandoned, None, None, t.at);
    assert PlaneOk(p, w.desk);
    if p.surface in w.desk.held {
      var j: nat :| HolderOf(w, j, p.surface);
      assert j != i;
      if p.surface in w.desk.human {
        var k: nat :| HolderOf(w, k, p.surface) && HandsOver(w.planes[k].phase);
        assert k != i;
      }
      forall j | 0 <= j < |w.planes|
        ensures PlaneOk(w.planes[j], d')
      {
        assert PlaneOk(w.planes[j], w.desk);
      }
    } else {
      OthersAreIdle(w, i, d');
    }
    ReplacingKeepsInv(w, i, p', d');
  }

  lemma SettlingKeepsInv(w: World, i: nat, p: Plane, decision: Decision, at: int)
    requires Inv(w) && i < |w.planes| && (p == w.planes[i] || p == w.planes[i].(expired := true))
    requires w.planes[i].phase == Paused || w.planes[i].phase == Waiting
    requires decision.action == Abort <==> decision.disposition == Some(AbortStep)
    requires p.expired ==> decision.action == Abort
    ensures var v := SettleIn(w, i, p, decision, at);
            && v.Some? && Inv(v.value) && v.value.planes[i].phase == Settled(decision) && v.value.desk == w.desk
  {
    hide Sound;
    assert PlaneOk(w.planes[i], w.desk);
    DecisionsSettleLiveRecords(p.record.value, decision, p.expired, at);
    OthersAreIdle(w, i, w.desk);
    ReplacingKeepsInv(w, i, Settle(p, decision, at).value, w.desk);
  }

  /** Moving a live record to a live state, or an idle plane's settled record to a settled one. */
  lemma RecordMoveKeepsInv(w: World, i: nat, r: Record)
    requires Inv(w) && i < |w.planes| && w.planes[i].record.Some? && Sound(r) && r.id == w.planes[i].record.value.id
    requires Live(r.state) <==> Live(w.planes[i].record.value.state)
    requires !Live(r.state) && w.planes[i].phase != Idle ==> r == w.planes[i].record.value
    ensures Inv(Put(w, i, w.planes[i].(record := Some(r))))
  {
    hide Sound;
    var p := w.planes[i];
    assert PlaneOk(p, w.desk);
    if p.phase != Idle {
      OthersAreIdle(w, i, w.desk);
    } else {
      forall j | 0 <= j < |w.planes|
        ensures PlaneOk(w.planes[j], w.desk)
      {
      }
      if p.surface in w.desk.held {
        var j: nat :| HolderOf(w, j, p.surface);
      }
      if p.surface in w.desk.human {
        var j: nat :| HolderOf(w, j, p.surface) && HandsOver(w.planes[j].phase);
      }
    }
    ReplacingKeepsInv(w, i, p.(record := Some(r)), w.desk);
  }

  ghost predicate GoesThrough(w: World, t: Turn)
    requires Enabled(w, t)
  {
    Step(w, t).Some? && Inv(Step(w, t).value)
  }

  lemma DeskTurnsGoThrough(w: World, t: Turn)
    requires Inv(w) && Enabled(w, t) && (t.event.Pauses? || t.event.Releases? || t.event.Unlocks?)
    ensures GoesThrough(w, t)
  {
    hide Sound;
    var i, p, d := t.plane, w.planes[t.plane], w.desk;
    assert PlaneOk(p, d);
    match t.event
    case Pauses =>
      var d' := d.(human := d.human + {p.surface});
      OthersAreIdle(w, i, d');
      ReplacingKeepsInv(w, i, p.(phase := Paused), d');
    case Releases =>
      var d' := d.(human := d.human - {p.surface});
      OthersAreIdle(w, i, d');
      ReplacingKeepsInv(w, i, p.(phase := Released(p.phase.decision)), d');
    case Unlocks =>
      var (p', d') := Unlock(p, d);
      OthersAreIdle(w, i, d');
      ReplacingKeepsInv(w, i, p', d');
  }

  lemma RaceTurnsGoThrough(w: World, t: Turn)
    requires Inv(w) && Enabled(w, t) && (t.event.StartsRace? || t.event.WaiterSettles? || t.event.TimerFires?)
    ensures GoesThrough(w, t)
  {
    hide Sound, DecideRecord;
    var i, p, d := t.plane, w.planes[t.plane], w.desk;
    assert PlaneOk(p, d);
    match t.event
    case StartsRace =>
      if p.expired {
        SettlingKeepsInv(w, i, p, NormalizeDecision(TTL_EXPIRED), t.at);
      } else {
        OthersAreIdle(w, i, d);
        ReplacingKeepsInv(w, i, p.(phase := Waiting, handle := true), d);
      }
    case WaiterSettles(raw) => SettlingKeepsInv(w, i, p, NormalizeDecision(raw), t.at);
    case TimerFires =>
      if p.phase == Waiting {
        SettlingKeepsInv(w, i, p.(expired := true), NormalizeDecision(TTL_EXPIRED), t.at);
      } else {
        OthersAreIdle(w, i, d);
        ReplacingKeepsInv(w, i, p.(expired := true), d);
      }
  }

  lemma RecordTurnsGoThrough(w: World, t: Turn)
    requires Inv(w) && Enabled(w, t) && (t.event.OperatorClaims? || t.event.OperatorTakes? || t.event.Finishes?)
    ensures GoesThrough(w, t)
  {
    hide Sound, Transition;
    var i, p := t.plane, w.planes[t.plane];
    assert PlaneOk(p, w.desk);
    match t.event
    case OperatorClaims(operator) =>
      OperatorsMoveLiveRecords(p.record.value, operator, t.at);
      RecordMoveKeepsInv(w, i, ClaimRecord(p.record.value, operator, t.at).value);
    case OperatorTakes =>
      OperatorsMoveLiveRecords(p.record.value, "", t.at);
      RecordMoveKeepsInv(w, i, TakeRecord(p.record.value, t.at).value);
    case Finishes(resolved) =>
      var outcome := if resolved then Resolved else Abandoned;
      TransitionKeepsSound(p.record.value, outcome, p.record.value.operatorId, None, t.at);
      RecordMoveKeepsInv(w, i, FinishRecord(p.record.value, outcome, t.at).value);
  }

  /** Every enabled turn goes through - no illegal transition is ever thrown - and keeps the invariant. */
  lemma StepKeepsInv(w: World, t: Turn)
    requires Inv(w) && Enabled(w, t)
    ensures Step(w, t).Some? && Inv(Step(w, t).value)
  {
    hide Inv, Step;
    match t.event
    case Escalates =>
      EscalationsGoThrough(w, t);
      BeginKeepsInv(w, t);
    case Pauses => DeskTurnsGoThrough(w, t);
    case Releases => DeskTurnsGoThrough(w, t);
    case Unlocks => DeskTurnsGoThrough(w, t);
    case StartsRace => RaceTurnsGoThrough(w, t);
    case WaiterSettles(_) => RaceTurnsGoThrough(w, t);
    case TimerFires => RaceTurnsGoThrough(w, t);
    case OperatorClaims(_) => RecordTurnsGoThrough(w, t);
    case OperatorTakes => RecordTurnsGoThrough(w, t);
    case Finishes(_) => RecordTurnsGoThrough(w, t);
  }

  lemma EscalationsGoThrough(w: World, t: Turn)
    requires Enabled(w, t) && t.event.Escalates?
    ensures Step(w, t).Some?
  {
  }

  // ----- Whole runs -----

  predicate Fresh(w: World) {
    && w.desk.held == map[] && w.desk.human == {}
    && forall p | p in w.planes :: p == Plane(p.surface, p.ttl, Idle, None, false, false, None)
  }

  /** A run: from a fresh world, every turn enabled and gone through. */
  ghost predicate Runs(ws: seq<World>, turns: seq<Turn>) {
    && |ws| == |turns| + 1 && Fresh(ws[0])
    && forall n: nat | n < |turns| :: Stepped(ws, turns, n)
  }

  predicate Stepped(ws: seq<World>, turns: seq<Turn>, n: nat)
    requires |ws| == |turns| + 1 && n < |turns|
  {
    Enabled(ws[n], turns[n]) && Step(ws[n], turns[n]) == Some(ws[n + 1])
  }

  lemma FreshIsSound(w: World)
    requires Fresh(w)
    ensures Inv(w)
  {
    forall i | 0 <= i < |w.planes|
      ensures PlaneOk(w.planes[i], w.desk)
    {
      assert w.planes[i] in w.planes;
    }
  }

  /** The invariant holds at every point of every run. */
  lemma {:induction false} EveryRunIsSound(ws: seq<World>, turns: seq<Turn>, n: nat)
    requires Runs(ws, turns) && n < |ws|
    ensures Inv(ws[n])
  {
    hide Step, Enabled, Inv, Fresh;
    if n == 0 {
      FreshIsSound(ws[0]);
    } else {
      EveryRunIsSound(ws, turns, n - 1);
      assert Stepped(ws, turns, n - 1);
      StepKeepsInv(ws[n - 1], turns[n - 1]);
    }
  }

  /** Whatever turn comes next in a run, no illegal transition is attempted. */
  lemma NoIllegalTransition(ws: seq<World>, turns: seq<Turn>, next: Turn)
    requires Runs(ws, turns) && Enabled(ws[|turns|], next)
    ensures Step(ws[|turns|], next).Some?
  {
    hide Runs, Step, Enabled, Inv;
    assert |ws| == |turns| + 1 by {
      Lengths(ws, turns);
    }
    EveryRunIsSound(ws, turns, |turns|);
    StepKeepsInv(ws[|turns|], next);
  }

  lemma Lengths(ws: seq<World>, turns: seq<Turn>)
    requires Runs(ws, turns)
    ensures |ws| == |turns| + 1
  {
  }

  /** Every record of every run is a path of the table with its timestamps. */
  lemma RecordsAreSound(ws: seq<World>, turns: seq<Turn>, n: nat, i: nat)
    requires Runs(ws, turns) && n < |ws| && i < |ws[n].planes| && ws[n].planes[i].record.Some?
    ensures Sound(ws[n].planes[i].record.value)
  {
    hide Runs, Sound;
    EveryRunIsSound(ws, turns, n);
    assert PlaneOk(ws[n].planes[i], ws[n].desk);
  }

  /** An operator may still act on it. */
  predicate LiveRecord(p: Plane) {
    p.record.Some? && Live(p.record.value.state)
  }

  /** Mutual exclusion: two planes of one surface are never both live, whatever the interleaving. */
  lemma OneLiveInterventionPerSurface(ws: seq<World>, turns: seq<Turn>, n: nat, i: nat, j: nat)
    requires Runs(ws, turns) && n < |ws| && i < |ws[n].planes| && j < |ws[n].planes|
    requires ws[n].planes[i].surface == ws[n].planes[j].surface && LiveRecord(ws[n].planes[i]) && LiveRecord(ws[n].planes[j])
    ensures i == j
  {
    hide Runs, Sound;
    EveryRunIsSound(ws, turns, n);
    assert PlaneOk(ws[n].planes[i], ws[n].desk) && PlaneOk(ws[n].planes[j], ws[n].desk);
    HoldersAreUnique(ws[n], i, j);
  }

  /** The plane holds the surface's lock and is between pause and release. */
  ghost predicate HandsOverNow(w: World, i: nat, s: nat) {
    && HolderOf(w, i, s) && HandsOver(w.planes[i].phase)
    && s in w.desk.held && w.planes[i].record.Some? && w.desk.held[s] == w.planes[i].record.value.id
  }

  /** A surface is human-owned exactly while its one lock holder is between pause and release. */
  lemma HumanOwnedMeansHandedOver(ws: seq<World>, turns: seq<Turn>, n: nat, s: nat)
    requires Runs(ws, turns) && n < |ws|
    ensures s in ws[n].desk.human <==> exists i: nat :: HandsOverNow(ws[n], i, s)
  {
    hide Runs, Sound;
    EveryRunIsSound(ws, turns, n);
    var v := ws[n];
    if s in v.desk.human {
      var i: nat :| HolderOf(v, i, s) && HandsOver(v.planes[i].phase);
      assert PlaneOk(v.planes[i], v.desk);
      assert HandsOverNow(v, i, s);
    }
    if i: nat :| HandsOverNow(v, i, s) {
      assert PlaneOk(v.planes[i], v.desk);
    }
  }

  /** Only the lock holder's own turns move a surface between its owners. */
  lemma OnlyTheHolderMovesItsSurface(ws: seq<World>, turns: seq<Turn>, n: nat, s: nat)
    requires Runs(ws, turns) && n < |turns|
    requires s in ws[n].desk.human <==> s !in ws[n + 1].desk.human
    ensures HolderOf(ws[n], turns[n].plane, s) && s in ws[n].desk.held
    ensures ws[n].planes[turns[n].plane].record.Some?
    ensures ws[n].desk.held[s] == ws[n].planes[turns[n].plane].record.value.id
  {
    hide Sound, Transition, DecideRecord;
    assert Stepped(ws, turns, n);
    EveryRunIsSound(ws, turns, n);
    hide Runs;
    assert PlaneOk(ws[n].planes[turns[n].plane], ws[n].desk);
  }

  /** The plane's escalation has just been refused, and nothing else has happened. */
  ghost predicate RefusedOnly(w: World, v: World, i: nat)
    requires i < |w.planes|
  {
    && v.desk == w.desk.(nextId := w.desk.nextId + 1)
    && |v.planes| == |w.planes| && v.planes == w.planes[i := v.planes[i]]
    && v.planes[i] == w.planes[i].(record := v.planes[i].record, last := Some(SESSION_HELD))
    && v.planes[i].record.Some? && Sound(v.planes[i].record.value)
    && v.planes[i].record.value.state == Abandoned && v.planes[i].record.value.id == w.desk.nextId
  }

  /** A refused escalation ends abandoned; owners, locks and the other planes stay as they were. */
  lemma RefusalTouchesNothingElse(ws: seq<World>, turns: seq<Turn>, n: nat)
    requires Runs(ws, turns) && n < |turns| && turns[n].event.Escalates? && turns[n].plane < |ws[n].planes|
    requires ws[n].planes[turns[n].plane].surface in ws[n].desk.held
    ensures RefusedOnly(ws[n], ws[n + 1], turns[n].plane)
  {
    hide Sound;
    assert Stepped(ws, turns, n);
    hide Runs;
    var w, t := ws[n], turns[n];
    TransitionKeepsSound(Create(w.desk.nextId, t.at, w.planes[t.plane].ttl), Abandoned, None, None, t.at);
  }

  /** Settled by the timer: abort, and the record abandoned at that time. */
  ghost predicate TimedOut(p: Plane, at: int) {
    && p.phase.Settled? && p.phase.decision.action == Abort && p.phase.decision.code == Some(InterventionTtl)
    && p.record.Some? && p.record.value.state == Abandoned && p.record.value.abandonedAt == Some(at)
  }

  /** The timer fires in a race that is on, or has fired before the race begins. */
  predicate TimesOut(w: World, t: Turn) {
    && t.plane < |w.planes|
    && ((t.event.TimerFires? && w.planes[t.plane].phase == Waiting) || (t.event.StartsRace? && w.planes[t.plane].expired))
  }

  /** A timer that fires before the decision always yields abort and an abandoned record. */
  lemma TimeoutAborts(ws: seq<World>, turns: seq<Turn>, n: nat)
    requires Runs(ws, turns) && n < |turns| && TimesOut(ws[n], turns[n])
    ensures turns[n].plane < |ws[n + 1].planes| && TimedOut(ws[n + 1].planes[turns[n].plane], turns[n].at)
  {
    hide Sound;
    assert Stepped(ws, turns, n);
    EveryRunIsSound(ws, turns, n);
    hide Runs;
    TimeoutSettles(ws[n], turns[n]);
  }

  lemma TimeoutSettles(w: World, t: Turn)
    requires Inv(w) && TimesOut(w, t) && Enabled(w, t)
    ensures var v := Step(w, t); v.Some? && t.plane < |v.value.planes| && TimedOut(v.value.planes[t.plane], t.at)
  {
    hide Sound, Inv;
    var p := w.planes[t.plane];
    var fired := p.(expired := true);
    assert PlaneOk(p, w.desk) by {
      PlanesAreOk(w, t.plane);
    }
    hide PlaneOk;
    assert p.expired ==> p == fired;
    PausedRecordIsLive(w, t.plane);
    DecisionsSettleLiveRecords(p.record.value, NormalizeDecision(TTL_EXPIRED), true, t.at);
  }

  lemma PlanesAreOk(w: World, i: nat)
    requires Inv(w) && i < |w.planes|
    ensures PlaneOk(w.planes[i], w.desk)
  {
  }

  lemma PausedRecordIsLive(w: World, i: nat)
    requires i < |w.planes| && PlaneOk(w.planes[i], w.desk) && (w.planes[i].phase == Waiting || w.planes[i].phase == Paused)
    ensures w.planes[i].record.Some? && Sound(w.planes[i].record.value) && Live(w.planes[i].record.value.state)
  {
    hide Sound;
  }

  /** The escalation has returned: nobody holds the surface, and its record is settled as decided. */
  ghost predicate GivenBack(w: World, i: nat)
    requires i < |w.planes|
  {
    var p := w.planes[i];
    && p.surface !in w.desk.human && p.surface !in w.desk.held
    && p.phase == Idle && p.last.Some? && p.record.Some?
    && p.record.value.state == if p.last.value.action == Abort then Abandoned else Returned
  }

  /** An escalation that took the lock returns with the automation in charge, the lock free and the record settled. */
  lemma ReturnsLeaveTheAutomationInCharge(ws: seq<World>, turns: seq<Turn>, n: nat)
    requires Runs(ws, turns) && n < |turns| && turns[n].event.Unlocks?
    ensures turns[n].plane < |ws[n + 1].planes| && GivenBack(ws[n + 1], turns[n].plane)
  {
    hide Sound;
    assert Stepped(ws, turns, n);
    EveryRunIsSound(ws, turns, n);
    hide Runs;
    var w, t := ws[n], turns[n];
    assert PlaneOk(w.planes[t.plane], w.desk);
    OthersAreIdle(w, t.plane, w.desk);
  }
}
