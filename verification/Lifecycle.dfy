/** The life of an intervention: `src/escalation/lifecycle.ts`. Records are values; times are clock readings. */
module Lifecycle {
  import opened Prelude
  import opened Decisions

  datatype State = Raised | Claimed | InControl | Returned | Resolved | Abandoned

  function Allowed(s: State): set<State> {
    match s
    case Raised => {Claimed, Abandoned}
    case Claimed => {InControl, Abandoned}
    case InControl => {Returned, Abandoned}
    case Returned => {Resolved, Abandoned}
    case Resolved => {}
    case Abandoned => {}
  }

  datatype Stamp = Stamp(state: State, at: int, operatorId: Option<string>)

  datatype Record = Record(
    id: nat,
    state: State,
    operatorId: Option<string>,
    disposition: Option<Disposition>,
    transitions: seq<Stamp>,
    createdAt: int,
    expiresAt: int,
    claimedAt: Option<int>,
    inControlAt: Option<int>,
    returnedAt: Option<int>,
    resolvedAt: Option<int>,
    abandonedAt: Option<int>)

  /** `createIntervention` */
  function Create(id: nat, at: int, ttl: nat): (r: Record)
    ensures Sound(r) && r.state == Raised
  {
    var r := Record(id, Raised, None, None, [Stamp(Raised, at, None)], at, at + ttl, None, None, None, None, None);
    assert forall s: State | s != Raised :: !StampedAt(r, s, at);
    r
  }

  /** `transition`; `None` is the thrown transition error, and a transition to the same state changes nothing. */
  function Transition(r: Record, next: State, operatorId: Option<string>, disposition: Option<Disposition>,
      at: int): Option<Record> {
    if r.state == next then Some(r)
    else if next !in Allowed(r.state) then None
    else
      var operator := if operatorId.Some? then operatorId else r.operatorId;
      var moved := r.(state := next,
                      operatorId := operator,
                      disposition := if disposition.Some? then disposition else r.disposition,
                      transitions := r.transitions + [Stamp(next, at, operator)]);
      Some(match next
           case Raised => moved
           case Claimed => moved.(claimedAt := Some(at))
           case InControl => moved.(inControlAt := Some(at))
           case Returned => moved.(returnedAt := Some(at))
           case Resolved => moved.(resolvedAt := Some(at))
           case Abandoned => moved.(abandonedAt := Some(at)))
  }

  function TimeOf(r: Record, s: State): Option<int> {
    match s
    case Raised => Some(r.createdAt)
    case Claimed => r.claimedAt
    case InControl => r.inControlAt
    case Returned => r.returnedAt
    case Resolved => r.resolvedAt
    case Abandoned => r.abandonedAt
  }

  ghost predicate StampedAt(r: Record, s: State, at: int) {
    exists i | 0 <= i < |r.transitions| :: r.transitions[i].state == s && r.transitions[i].at == at
  }

  /**
   * The transitions are a path of `Allowed` from raised to the current state, and a state's timestamp is set
   * exactly when the state occurs on it, to the time it occurred.
   */
  ghost predicate Sound(r: Record) {
    && r.transitions != []
    && r.transitions[0].state == Raised
    && (forall i | 0 < i < |r.transitions| :: r.transitions[i].state in Allowed(r.transitions[i - 1].state))
    && r.transitions[|r.transitions| - 1].state == r.state
    && (forall s, at :: TimeOf(r, s) == Some(at) <==> StampedAt(r, s, at))
  }

  function Rank(s: State): nat {
    match s
    case Raised => 0
    case Claimed => 1
    case InControl => 2
    case Returned => 3
    case Resolved => 4
    case Abandoned => 4
  }

  /** A path never comes back: ranks rise along it, so every state occurs once at most. */
  lemma {:induction false} RanksRise(r: Record, i: nat, j: nat)
    requires Sound(r) && i < j < |r.transitions|
    ensures Rank(r.transitions[i].state) < Rank(r.transitions[j].state)
    decreases j
  {
    hide StampedAt;
    assert r.transitions[j].state in Allowed(r.transitions[j - 1].state);
    if i < j - 1 {
      RanksRise(r, i, j - 1);
    }
  }

  /** A legal transition keeps the record sound; an illegal one is refused. */
  lemma TransitionKeepsSound(r: Record, next: State, operatorId: Option<string>, disposition: Option<Disposition>, at: int)
    requires Sound(r)
    ensures var t := Transition(r, next, operatorId, disposition, at);
            && (t.None? <==> next != r.state && next !in Allowed(r.state))
            && (t.Some? ==> Sound(t.value) && t.value.state == next && t.value.id == r.id && r.transitions <= t.value.transitions)
  {
    var t := Transition(r, next, operatorId, disposition, at);
    if t.Some? && next != r.state {
      var v := t.value;
      var n := |r.transitions|;
      forall i | 0 <= i < n
        ensures r.transitions[i].state != next
      {
        if i < n - 1 {
          RanksRise(r, i, n - 1);
        }
      }
      forall s, time
        ensures TimeOf(v, s) == Some(time) <==> StampedAt(v, s, time)
      {
        if StampedAt(r, s, time) {
          var i :| 0 <= i < n && r.transitions[i].state == s && r.transitions[i].at == time;
          assert v.transitions[i] == r.transitions[i];
        }
        if s == next {
          assert v.transitions[n] == Stamp(next, at, v.operatorId);
          assert !StampedAt(r, s, time);
        } else {
          assert TimeOf(v, s) == TimeOf(r, s);
          if StampedAt(v, s, time) {
            var i :| 0 <= i <= n && v.transitions[i].state == s && v.transitions[i].at == time;
            assert r.transitions[i] == v.transitions[i];
            assert StampedAt(r, s, time);
          }
        }
      }
    }
  }

  /** A record is live while an operator may still act on it. */
  predicate Live(s: State) {
    s in {Raised, Claimed, InControl}
  }

  /** Each state occurs at most once, so its timestamp is the time of that one occurrence. */
  lemma StatesOccurOnce(r: Record, i: nat, j: nat)
    requires Sound(r) && i < |r.transitions| && j < |r.transitions| && r.transitions[i].state == r.transitions[j].state
    ensures i == j
  {
    if i < j {
      RanksRise(r, i, j);
    } else if j < i {
      RanksRise(r, j, i);
    }
  }
}
