/** The sliding-window rate limiter and its stores: `src/policy/runtime.ts`. Times are milliseconds. */
module Limiter {
  import opened Prelude

  const HOUR := 3600000

  const KEPT := 48 * HOUR

  datatype Stamp = Stamp(at: int, tenantId: string, capabilityId: string)

  /** An absent or empty id does not filter. */
  datatype Filter = Filter(tenantId: string, capabilityId: string, since: int)

  predicate Selects(f: Filter, s: Stamp) {
    && f.since <= s.at
    && (f.tenantId != "" ==> s.tenantId == f.tenantId)
    && (f.capabilityId != "" ==> s.capabilityId == f.capabilityId)
  }

  function Count(stamps: seq<Stamp>, f: Filter): nat {
    if stamps == [] then 0
    else Count(stamps[..|stamps| - 1], f) + if Selects(f, stamps[|stamps| - 1]) then 1 else 0
  }

  /** What the file store keeps when it records at `now`. */
  function Kept(stamps: seq<Stamp>, now: int): seq<Stamp> {
    if stamps == [] then []
    else Kept(stamps[..|stamps| - 1], now) + if stamps[|stamps| - 1].at > now - KEPT then [stamps[|stamps| - 1]] else []
  }

  /** One call of the limiter with its three clock readings: for the window, for the stamp, and in the store. */
  datatype Call = Call(tenantId: string, capabilityId: string, asked: int, stamped: int, stored: int) {
    function Mark(): Stamp {
      Stamp(stamped, tenantId, capabilityId)
    }
  }

  datatype Caps = Caps(perCapability: int, perTenant: int)

  predicate Admits(caps: Caps, stamps: seq<Stamp>, c: Call) {
    && Count(stamps, Filter(c.tenantId, c.capabilityId, c.asked - HOUR)) < caps.perCapability
    && Count(stamps, Filter(c.tenantId, "", c.asked - HOUR)) < caps.perTenant
  }

  /** `prunes` tells the file store from the one in memory. */
  class InvocationStore {
    const prunes: bool
    var stamps: seq<Stamp>

    constructor (prunes: bool)
      ensures this.prunes == prunes && stamps == []
    {
      this.prunes, stamps := prunes, [];
    }

    method Record(stamp: Stamp, now: int)
      modifies this
      ensures stamps == (if prunes then Kept(old(stamps), now) else old(stamps)) + [stamp]
    {
      if prunes {
        stamps := Kept(stamps, now);
      }
      stamps := stamps + [stamp];
    }

    method CountOf(f: Filter) returns (n: nat)
      ensures n == Count(stamps, f)
    {
      n := 0;
      for i := 0 to |stamps|
        invariant n == Count(stamps[..i], f)
      {
        assert stamps[..i + 1][..i] == stamps[..i];
        if Selects(f, stamps[i]) {
          n := n + 1;
        }
      }
      assert stamps[..|stamps|] == stamps;
    }
  }

  class RateLimiter {
    const store: InvocationStore
    const caps: Caps

    constructor (store: InvocationStore, caps: Caps)
      ensures this.store == store && this.caps == caps
    {
      this.store, this.caps := store, caps;
    }

    /** `assert`; `false` is the thrown rate-limit error. */
    method Assert(c: Call) returns (ok: bool)
      modifies store
      ensures ok <==> Admits(caps, old(store.stamps), c)
      ensures store.stamps == if ok then After(store.prunes, old(store.stamps), c) else old(store.stamps)
    {
      var since := c.asked - HOUR;
      var perCapability := store.CountOf(Filter(c.tenantId, c.capabilityId, since));
      if perCapability >= caps.perCapability {
        return false;
      }
      var perTenant := store.CountOf(Filter(c.tenantId, "", since));
      if perTenant >= caps.perTenant {
        return false;
      }
      store.Record(c.Mark(), c.stored);
      return true;
    }
  }

  function After(prunes: bool, stamps: seq<Stamp>, c: Call): seq<Stamp> {
    (if prunes then Kept(stamps, c.stored) else stamps) + [c.Mark()]
  }

  // ----- Any number of calls -----

  /** What a store holds behind a list of calls. */
  function Store(prunes: bool, caps: Caps, calls: seq<Call>): seq<Stamp> {
    if calls == [] then []
    else
      var before, c := Store(prunes, caps, calls[..|calls| - 1]), calls[|calls| - 1];
      if Admits(caps, before, c) then After(prunes, before, c) else before
  }

  /** The clock never runs backwards, within a call or from one to the next. */
  ghost predicate Clocked(calls: seq<Call>) {
    && (forall i | 0 <= i < |calls| :: calls[i].asked <= calls[i].stamped <= calls[i].stored)
    && forall i, j | 0 <= i < j < |calls| :: calls[i].stored <= calls[j].asked
  }

  lemma {:induction false} CountOfConcat(a: seq<Stamp>, b: seq<Stamp>, f: Filter)
    ensures Count(a + b, f) == Count(a, f) + Count(b, f)
  {
    if b == [] {
      assert a + b == a;
    } else {
      assert (a + b)[..|a + b| - 1] == a + b[..|b| - 1];
      CountOfConcat(a, b[..|b| - 1], f);
    }
  }

  /** Pruning drops only what no filter from `now - KEPT` on selects. */
  lemma {:induction false} PruningKeepsRecentCounts(stamps: seq<Stamp>, now: int, f: Filter)
    requires f.since > now - KEPT
    ensures Count(Kept(stamps, now), f) == Count(stamps, f)
  {
    if stamps != [] {
      var front, last := stamps[..|stamps| - 1], stamps[|stamps| - 1];
      PruningKeepsRecentCounts(front, now, f);
      if last.at > now - KEPT {
        CountOfConcat(Kept(front, now), [last], f);
        assert [last][..0] == [];
        assert Count([last], f) == if Selects(f, last) then 1 else 0;
      } else {
        assert Kept(front, now) + [] == Kept(front, now);
      }
    }
  }

  /**
   * The file store answers every later question of the limiter as the unpruned list would: the same calls
   * are admitted, at any time from the last one on.
   */
  lemma {:induction false} PruningIsInvisible(caps: Caps, calls: seq<Call>, f: Filter)
    requires Clocked(calls) && (calls != [] ==> f.since > calls[|calls| - 1].stored - KEPT)
    ensures Count(Store(true, caps, calls), f) == Count(Store(false, caps, calls), f)
    decreases |calls|, 0
  {
    if calls != [] {
      hide Count;
      var front, c := calls[..|calls| - 1], calls[|calls| - 1];
      var pruned, full := Store(true, caps, front), Store(false, caps, front);
      SameAnswers(caps, front, c);
      PruningIsInvisible(caps, front, f);
      if Admits(caps, full, c) {
        PruningKeepsRecentCounts(pruned, c.stored, f);
        CountOfConcat(Kept(pruned, c.stored), [c.Mark()], f);
        CountOfConcat(full, [c.Mark()], f);
      }
    }
  }

  lemma {:induction false} SameAnswers(caps: Caps, calls: seq<Call>, c: Call)
    requires Clocked(calls + [c])
    ensures Admits(caps, Store(true, caps, calls), c) <==> Admits(caps, Store(false, caps, calls), c)
    decreases |calls|, 1
  {
    hide Count;
    var all := calls + [c];
    assert all[|calls|] == c && forall i | 0 <= i < |calls| :: all[i] == calls[i];
    PruningIsInvisible(caps, calls, Filter(c.tenantId, c.capabilityId, c.asked - HOUR));
    PruningIsInvisible(caps, calls, Filter(c.tenantId, "", c.asked - HOUR));
  }

  // ----- Windows -----

  /** Recorded stamps of a tenant, and of one of its capabilities, in a closed one-hour window. */
  predicate InWindow(s: Stamp, tenantId: string, capabilityId: Option<string>, from: int) {
    from <= s.at <= from + HOUR && s.tenantId == tenantId && (capabilityId.Some? ==> s.capabilityId == capabilityId.value)
  }

  function WindowCount(stamps: seq<Stamp>, tenantId: string, capabilityId: Option<string>, from: int): nat {
    if stamps == [] then 0
    else
      WindowCount(stamps[..|stamps| - 1], tenantId, capabilityId, from)
      + if InWindow(stamps[|stamps| - 1], tenantId, capabilityId, from) then 1 else 0
  }

  lemma {:induction false} WindowWithinFilter(stamps: seq<Stamp>, tenantId: string, capabilityId: Option<string>,
      from: int, since: int)
    requires since <= from
    ensures WindowCount(stamps, tenantId, capabilityId, from) <= Count(stamps, Filter(tenantId, capabilityId.Or(""), since))
  {
    if stamps != [] {
      WindowWithinFilter(stamps[..|stamps| - 1], tenantId, capabilityId, from, since);
    }
  }

  function AtLeastZero(n: int): nat {
    if n < 0 then 0 else n
  }

  /**
   * No closed one-hour window of recorded stamps ever exceeds the cap, per capability of a tenant and per
   * tenant, whatever the calls and whether or not the store prunes.
   */
  lemma {:induction false} EveryWindowIsCapped(caps: Caps, calls: seq<Call>, tenantId: string, capabilityId: string,
      from: int)
    requires Clocked(calls)
    ensures WindowCount(Store(false, caps, calls), tenantId, Some(capabilityId), from) <= AtLeastZero(caps.perCapability)
    ensures WindowCount(Store(false, caps, calls), tenantId, None, from) <= AtLeastZero(caps.perTenant)
  {
    if calls != [] {
      hide Count;
      var front, c := calls[..|calls| - 1], calls[|calls| - 1];
      var before := Store(false, caps, front);
      EveryWindowIsCapped(caps, front, tenantId, capabilityId, from);
      assert (before + [c.Mark()])[..|before|] == before;
      if Admits(caps, before, c) && InWindow(c.Mark(), tenantId, None, from) {
        WindowWithinFilter(before, tenantId, None, from, c.asked - HOUR);
        WindowWithinFilter(before, tenantId, Some(capabilityId), from, c.asked - HOUR);
      }
    }
  }
}
