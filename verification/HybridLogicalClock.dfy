/**
 The packed 48+16-bit hybrid logical clock, and distributed runs of nodes that stamp
 events with it.  Raw stamps are 64-bit unsigned integers; shifts and masks by the
 16 counter bits are written as multiplication, division and remainder, with the
 truncation to 64 bits explicit.
 */
module HybridLogicalClock {
  const COUNTERS := 0x1_0000
  const PHYSICALS := 0x1_0000_0000_0000
  const LAST_COUNTER := COUNTERS - 1

  type U64 = x: int | 0 <= x < 0x1_0000_0000_0000_0000

  function Pack(physical: U64, counter: nat): U64
    requires counter < COUNTERS
  {
    (physical * COUNTERS) % 0x1_0000_0000_0000_0000 + counter
  }

  function Physical(raw: U64): nat { raw / COUNTERS }

  function Counter(raw: U64): nat { raw % COUNTERS }

  function BumpLogical(counter: nat): nat
    requires counter < COUNTERS
  {
    (counter + 1) % COUNTERS
  }

  function Max(a: U64, b: U64): U64 { if a < b then b else a }

  // The bit operations of the packed layout are the arithmetic used above.
  lemma BitsAreArithmetic(raw: bv64, physical: bv64, counter: bv64)
    requires counter <= 0xFFFF
    ensures raw >> 16 == raw / 0x1_0000
    ensures raw & 0xFFFF == raw % 0x1_0000
    ensures (physical << 16) | counter == physical * 0x1_0000 + counter
    ensures (counter + 1) & 0xFFFF == (counter + 1) % 0x1_0000
  {}

  /** What merging means: take the later of the two stamps; if the wall clock has passed
      it, restart from the wall clock with counter zero, otherwise bump its counter. */
  function Advance(raw: U64, remote: U64, observed: U64): U64 {
    var later := Max(raw, remote);
    if observed > Physical(later) then Pack(observed, 0)
    else Pack(Physical(later), BumpLogical(Counter(later)))
  }

  lemma TruncatedShift(physical: U64)
    ensures (physical * COUNTERS) % 0x1_0000_0000_0000_0000 == (physical % PHYSICALS) * COUNTERS
  {
    var q, r := physical / PHYSICALS, physical % PHYSICALS;
    assert physical * COUNTERS == q * 0x1_0000_0000_0000_0000 + r * COUNTERS;
  }

  lemma PackKeepsParts(physical: U64, counter: nat)
    requires counter < COUNTERS
    ensures Physical(Pack(physical, counter)) == physical % PHYSICALS
    ensures Counter(Pack(physical, counter)) == counter
  {
    TruncatedShift(physical);
    assert Pack(physical, counter) == (physical % PHYSICALS) * COUNTERS + counter;
  }

  // When the wall clock leads neither stamp, the greatest physical part is the later stamp's, and the
  // counter to bump is the later stamp's too.
  lemma SlowPathAdvances(raw: U64, remote: U64, observed: U64)
    requires !(observed > Physical(raw) && observed > Physical(remote))
    ensures var p, later := Max(observed, Max(Physical(raw), Physical(remote))), Max(raw, remote);
            && p == Physical(later) && Pack(p, BumpLogical(Counter(later))) == Advance(raw, remote, observed)
            && Counter(later) == (if p == Physical(raw) && p == Physical(remote) then Max(Counter(raw), Counter(remote))
                                  else if p == Physical(raw) then Counter(raw) else Counter(remote))
            && (p == Physical(raw) || p == Physical(remote))
  {
    assert raw == Physical(raw) * COUNTERS + Counter(raw);
    assert remote == Physical(remote) * COUNTERS + Counter(remote);
  }

  lemma FastPathAdvances(raw: U64, remote: U64, observed: U64)
    requires observed > Physical(raw) && observed > Physical(remote)
    ensures Pack(observed, 0) == Advance(raw, remote, observed)
  {}

  class HybridLogicalClock {
    var raw: U64

    constructor (start: U64)
      ensures raw == start
    {
      raw := start;
    }

    constructor FromParts(physical: U64, counter: nat)
      requires counter < COUNTERS
      ensures Physical(raw) == physical % PHYSICALS && Counter(raw) == counter
    {
      raw := Pack(physical, counter);
      new;
      PackKeepsParts(physical, counter);
    }

    method Merge(remote: U64, observed: U64)
      modifies this
      ensures raw == Advance(old(raw), remote, observed)
    {
      var localPhysical, remotePhysical := raw / COUNTERS, remote / COUNTERS;
      hide Advance;
      if observed > localPhysical && observed > remotePhysical {
        FastPathAdvances(raw, remote, observed);
        raw := (observed * COUNTERS) % 0x1_0000_0000_0000_0000;
        return;
      }
      SlowPathAdvances(raw, remote, observed);
      var maxPhysical := Max(observed, Max(localPhysical, remotePhysical));
      var nextLogical := 0;
      if maxPhysical == localPhysical && maxPhysical == remotePhysical {
        var localLogical, remoteLogical := raw % COUNTERS, remote % COUNTERS;
        nextLogical := BumpLogical(Max(localLogical, remoteLogical));
      } else if maxPhysical == localPhysical {
        nextLogical := BumpLogical(raw % COUNTERS);
      } else if maxPhysical == remotePhysical {
        nextLogical := BumpLogical(remote % COUNTERS);
      }
      raw := (maxPhysical * COUNTERS) % 0x1_0000_0000_0000_0000 + nextLogical;
    }

    method TickLocal(observed: U64)
      modifies this
      ensures raw == Advance(old(raw), old(raw), observed)
    {
      Merge(raw, observed);
    }

    method Assign(physical: U64, counter: nat)
      requires counter < COUNTERS
      modifies this
      ensures Physical(raw) == physical % PHYSICALS && Counter(raw) == counter
    {
      raw := Pack(physical, counter);
      PackKeepsParts(physical, counter);
    }

    method BumpLogicalCounter()
      modifies this
      ensures Physical(raw) == Physical(old(raw))
      ensures Counter(raw) == if Counter(old(raw)) == LAST_COUNTER then 0 else Counter(old(raw)) + 1
    {
      raw := raw - raw % COUNTERS + BumpLogical(raw % COUNTERS);
    }
  }

  // Whether a merge has somewhere to go: the wall clock fits its 48 bits where it leads,
  // and the counter is not at its last value where it does not.
  predicate Room(raw: U64, remote: U64, observed: U64) {
    var later := Max(raw, remote);
    if observed > Physical(later) then observed % PHYSICALS > Physical(later)
    else Counter(later) < LAST_COUNTER
  }

  /** A merge moves past both stamps exactly when it has room; at the last counter value it goes
      back by 65,535, and a wall clock past 48 bits is truncated. */
  lemma AdvancePassesBothIffRoom(raw: U64, remote: U64, observed: U64)
    ensures Advance(raw, remote, observed) > Max(raw, remote) <==> Room(raw, remote, observed)
  {
    var later := Max(raw, remote);
    if observed > Physical(later) {
      TruncatedShift(observed);
    } else {
      TruncatedShift(Physical(later));
      assert later == Physical(later) * COUNTERS + Counter(later);
    }
  }

  /** Both parts of a merged stamp, room or not: a wall clock that leads gives its low 48 bits and counter
      zero; otherwise the later stamp keeps its physical part and counts one up, or wraps to zero. */
  lemma AdvanceParts(raw: U64, remote: U64, observed: U64)
    ensures var later, r := (if raw < remote then remote else raw), Advance(raw, remote, observed);
            && (observed > Physical(later) ==> Physical(r) == observed % PHYSICALS && Counter(r) == 0)
            && (observed <= Physical(later) ==>
                  && Physical(r) == Physical(later)
                  && Counter(r) == if Counter(later) == 65535 then 0 else Counter(later) + 1)
  {
    var later := Max(raw, remote);
    PackKeepsParts(observed, 0);
    PackKeepsParts(Physical(later), BumpLogical(Counter(later)));
  }

  /** With room and a 48-bit wall clock, a merge is a Lamport clock with a wall-clock floor. */
  lemma AdvanceIsLamport(raw: U64, remote: U64, observed: U64)
    requires Room(raw, remote, observed) && observed < PHYSICALS
    ensures Advance(raw, remote, observed) == Max(Max(raw, remote) + 1, observed * COUNTERS)
  {
    var later := Max(raw, remote);
    TruncatedShift(observed);
    TruncatedShift(Physical(later));
    assert later == Physical(later) * COUNTERS + Counter(later);
  }

  /** The counter really wraps: this stamp goes back to zero. */
  lemma WrapGoesBackwards()
    ensures Advance(0xFFFF, 0xFFFF, 0) == 0
  {}

  /** A reading past 48 bits really is truncated: this one leads, and the stamp goes back to zero. */
  lemma LongReadingGoesBackwards()
    ensures Physical(COUNTERS) == 1 < PHYSICALS
    ensures Advance(COUNTERS, COUNTERS, PHYSICALS) == 0
  {
    TruncatedShift(PHYSICALS);
  }

  // ---------------------------------------------------------------------------
  // Distributed runs

  datatype Event = Tick(node: nat) | Send(node: nat) | Receive(node: nat, from: nat)

  // Events in the order they happen, the wall-clock reading of each, and the nodes' first stamps.
  datatype Run = Run(events: seq<Event>, readings: seq<U64>, starts: seq<U64>)

  predicate Valid(r: Run) {
    && |r.readings| == |r.events|
    && (forall i | 0 <= i < |r.events| :: r.events[i].node < |r.starts|)
    && (forall i | 0 <= i < |r.events| && r.events[i].Receive? ::
          r.events[i].from < i && r.events[r.events[i].from].Send?)
  }

  // The clock of node n after the first k events.
  function Clock(r: Run, k: nat, n: nat): U64
    requires Valid(r) && k <= |r.events| && n < |r.starts|
    decreases k, 0
  {
    if k == 0 then r.starts[n]
    else if r.events[k - 1].node == n then Stamp(r, k - 1)
    else Clock(r, k - 1, n)
  }

  function Stamp(r: Run, i: nat): U64
    requires Valid(r) && i < |r.events|
    decreases i, 2
  {
    Advance(Clock(r, i, r.events[i].node), Incoming(r, i), r.readings[i])
  }

  // The stamp a merge at event i takes in: the message's, or the node's own.
  function Incoming(r: Run, i: nat): U64
    requires Valid(r) && i < |r.events|
    decreases i, 1
  {
    if r.events[i].Receive? then Stamp(r, r.events[i].from) else Clock(r, i, r.events[i].node)
  }

  predicate HasRoom(r: Run, i: nat)
    requires Valid(r) && i < |r.events|
  {
    Room(Clock(r, i, r.events[i].node), Incoming(r, i), r.readings[i])
  }

  predicate Direct(r: Run, i: nat, j: nat) {
    i < j < |r.events| && (r.events[i].node == r.events[j].node || r.events[j] == Receive(r.events[j].node, i))
  }

  // Happens-before: program order and message order, closed under transitivity.
  ghost predicate HappensBefore(r: Run, i: nat, j: nat)
    decreases j
  {
    Direct(r, i, j) || exists k: nat | k < j :: HappensBefore(r, i, k) && Direct(r, k, j)
  }

  // Stamps never disagree with causality, nor fall below the stamp a node started from.
  ghost predicate RespectsCausality(r: Run)
    requires Valid(r)
  {
    && (forall i: nat, j: nat | i < j < |r.events| :: HappensBefore(r, i, j) ==> Stamp(r, i) < Stamp(r, j))
    && (forall i: nat | i < |r.events| :: Stamp(r, i) > r.starts[r.events[i].node])
  }

  lemma {:induction false} ClockNeverFallsBack(r: Run, i: nat, k: nat)
    requires Valid(r) && i < k <= |r.events|
    requires forall e: nat | e < k :: HasRoom(r, e)
    ensures Stamp(r, i) <= Clock(r, k, r.events[i].node)
    decreases k
  {
    var n := r.events[i].node;
    if k - 1 > i {
      ClockNeverFallsBack(r, i, k - 1);
      if r.events[k - 1].node == n {
        assert HasRoom(r, k - 1);
        AdvancePassesBothIffRoom(Clock(r, k - 1, n), Incoming(r, k - 1), r.readings[k - 1]);
      }
    }
  }

  lemma {:induction false} ClockStaysAboveStart(r: Run, k: nat, n: nat)
    requires Valid(r) && k <= |r.events| && n < |r.starts|
    requires forall e: nat | e < k :: HasRoom(r, e)
    ensures Clock(r, k, n) >= r.starts[n]
    decreases k
  {
    if k > 0 {
      ClockStaysAboveStart(r, k - 1, n);
      if r.events[k - 1].node == n {
        assert HasRoom(r, k - 1);
        AdvancePassesBothIffRoom(Clock(r, k - 1, n), Incoming(r, k - 1), r.readings[k - 1]);
      }
    }
  }

  lemma {:induction false} HappensBeforeInOrder(r: Run, i: nat, j: nat)
    requires HappensBefore(r, i, j)
    ensures i < j < |r.events|
    decreases j
  {
    if !Direct(r, i, j) {
      var k: nat :| k < j && HappensBefore(r, i, k) && Direct(r, k, j);
      HappensBeforeInOrder(r, i, k);
    }
  }

  lemma DirectRaisesStamp(r: Run, i: nat, j: nat)
    requires Valid(r) && Direct(r, i, j)
    requires forall e: nat | e <= j :: HasRoom(r, e)
    ensures Stamp(r, i) < Stamp(r, j)
  {
    AdvancePassesBothIffRoom(Clock(r, j, r.events[j].node), Incoming(r, j), r.readings[j]);
    assert HasRoom(r, j);
    if r.events[i].node == r.events[j].node {
      ClockNeverFallsBack(r, i, j);
    }
  }

  lemma {:induction false} HappensBeforeRaisesStamp(r: Run, i: nat, j: nat)
    requires Valid(r) && i < j < |r.events| && HappensBefore(r, i, j)
    requires forall e: nat | e <= j :: HasRoom(r, e)
    ensures Stamp(r, i) < Stamp(r, j)
    decreases j
  {
    if Direct(r, i, j) {
      DirectRaisesStamp(r, i, j);
    } else {
      var k: nat :| k < j && HappensBefore(r, i, k) && Direct(r, k, j);
      DirectRaisesStamp(r, k, j);
      HappensBeforeInOrder(r, i, k);
      HappensBeforeRaisesStamp(r, i, k);
    }
  }

  lemma {:induction false} ClockHasSource(r: Run, k: nat, n: nat)
    requires Valid(r) && k <= |r.events| && n < |r.starts|
    ensures Clock(r, k, n) == r.starts[n]
         || exists i: nat | i < k :: r.events[i].node == n && Clock(r, k, n) == Stamp(r, i)
    decreases k
  {
    if k > 0 && r.events[k - 1].node != n {
      ClockHasSource(r, k - 1, n);
    }
  }

  lemma RoomFollowsFromCausality(r: Run, j: nat)
    requires Valid(r) && j < |r.events| && RespectsCausality(r)
    ensures HasRoom(r, j)
  {
    var n := r.events[j].node;
    var local, incoming := Clock(r, j, n), Incoming(r, j);
    AdvancePassesBothIffRoom(local, incoming, r.readings[j]);
    ClockHasSource(r, j, n);
    assert Stamp(r, j) > local by {
      if local != r.starts[n] {
        var i: nat :| i < j && r.events[i].node == n && local == Stamp(r, i);
        assert Direct(r, i, j);
        assert HappensBefore(r, i, j);
      }
    }
    assert Stamp(r, j) > incoming by {
      if r.events[j].Receive? {
        assert Direct(r, r.events[j].from, j);
        assert HappensBefore(r, r.events[j].from, j);
      }
    }
  }

  /** Clock condition, exactly: in any run of any number of nodes, happens-before implies a strictly
      smaller stamp (and stamps stay above the nodes' starts) if and only if no event bumps a counter
      at 65,535 or is led by a wall clock that does not fit 48 bits. */
  lemma ClockConditionIffRoom(r: Run)
    requires Valid(r)
    ensures RespectsCausality(r) <==> forall i: nat | i < |r.events| :: HasRoom(r, i)
  {
    if RespectsCausality(r) {
      forall j: nat | j < |r.events| ensures HasRoom(r, j) {
        RoomFollowsFromCausality(r, j);
      }
    }
    if forall i: nat | i < |r.events| :: HasRoom(r, i) {
      forall i: nat, j: nat | i < j < |r.events| && HappensBefore(r, i, j) ensures Stamp(r, i) < Stamp(r, j) {
        HappensBeforeRaisesStamp(r, i, j);
      }
      forall i: nat | i < |r.events| ensures Stamp(r, i) > r.starts[r.events[i].node] {
        var n := r.events[i].node;
        ClockStaysAboveStart(r, i, n);
        assert HasRoom(r, i);
        AdvancePassesBothIffRoom(Clock(r, i, n), Incoming(r, i), r.readings[i]);
      }
    }
  }

  // Wall clocks fit 48 bits and every node starts from a fresh clock (zero or Now()).
  predicate Plausible(r: Run) {
    && Valid(r)
    && (forall i | 0 <= i < |r.readings| :: r.readings[i] < PHYSICALS)
    && (forall n | 0 <= n < |r.starts| :: Counter(r.starts[n]) == 0)
  }

  lemma AdvanceBumpsOnce(raw: U64, remote: U64, observed: U64)
    ensures Counter(Advance(raw, remote, observed)) <= Counter(Max(raw, remote)) + 1
  {
    var later := Max(raw, remote);
    PackKeepsParts(observed, 0);
    PackKeepsParts(Physical(later), BumpLogical(Counter(later)));
  }

  lemma {:induction false} CounterBound(r: Run, k: nat, n: nat)
    requires Plausible(r) && k <= |r.events| && n < |r.starts|
    ensures Counter(Clock(r, k, n)) <= k
    decreases k, 0
  {
    if k > 0 {
      if r.events[k - 1].node == n {
        StampCounterBound(r, k - 1);
      } else {
        CounterBound(r, k - 1, n);
      }
    }
  }

  /** The k-th event of a run, counting from one, has a counter of at most k. */
  lemma {:induction false} StampCounterBound(r: Run, i: nat)
    requires Plausible(r) && i < |r.events|
    ensures Counter(Stamp(r, i)) <= i + 1
    decreases i, 1
  {
    var n := r.events[i].node;
    CounterBound(r, i, n);
    if r.events[i].Receive? {
      StampCounterBound(r, r.events[i].from);
    }
    AdvanceBumpsOnce(Clock(r, i, n), Incoming(r, i), r.readings[i]);
  }

  lemma EarlyEventHasRoom(r: Run, i: nat)
    requires Plausible(r) && i < |r.events| && i < LAST_COUNTER
    ensures HasRoom(r, i)
  {
    CounterBound(r, i, r.events[i].node);
    if r.events[i].Receive? {
      StampCounterBound(r, r.events[i].from);
    }
  }

  /** A run of fewer than 65,536 events never wraps, so it needs no assumption on counters. */
  lemma ShortRunsRespectCausality(r: Run)
    requires Plausible(r) && |r.events| < COUNTERS
    ensures RespectsCausality(r)
  {
    forall i: nat | i < |r.events| ensures HasRoom(r, i) {
      EarlyEventHasRoom(r, i);
    }
    ClockConditionIffRoom(r);
  }

  // One node ticking against a stopped wall clock.
  function Stalled(length: nat): Run {
    Run(seq(length, i => Tick(0)), seq(length, i => 0), [0])
  }

  lemma StalledTick(raw: U64)
    requires raw < COUNTERS
    ensures Advance(raw, raw, 0) == if raw == LAST_COUNTER then 0 else raw + 1
  {}

  lemma {:induction false} StalledCounts(length: nat, i: nat)
    requires i < length && i < COUNTERS
    ensures Stamp(Stalled(length), i) == if i == LAST_COUNTER then 0 else i + 1
  {
    hide Advance;
    if i > 0 {
      StalledCounts(length, i - 1);
    }
    assert Clock(Stalled(length), i, 0) == i;
    StalledTick(i);
  }

  /** The bound is tight: 65,536 events at one node already put a later event below an earlier one. */
  lemma ShortRunBoundIsTight()
    ensures Plausible(Stalled(COUNTERS)) && |Stalled(COUNTERS).events| == COUNTERS
    ensures !RespectsCausality(Stalled(COUNTERS))
  {
    StalledCounts(COUNTERS, 0);
    StalledCounts(COUNTERS, LAST_COUNTER);
    assert Direct(Stalled(COUNTERS), 0, LAST_COUNTER);
    assert HappensBefore(Stalled(COUNTERS), 0, LAST_COUNTER);
  }

  // n's clock, or the stamp of event j, took its physical part from event i.
  ghost predicate PhysicalFrom(r: Run, raw: U64, i: nat)
    requires Valid(r) && i < |r.events|
  {
    Physical(raw) == r.readings[i] || Physical(raw) == Physical(r.starts[r.events[i].node])
  }

  /** The physical part of a stamp is a wall-clock reading (or a starting stamp) in its causal past. */
  lemma {:induction false} PhysicalPartIsCausal(r: Run, j: nat) returns (i: nat)
    requires Plausible(r) && j < |r.events|
    ensures i <= j && (i == j || HappensBefore(r, i, j)) && PhysicalFrom(r, Stamp(r, j), i)
    decreases j
  {
    var n := r.events[j].node;
    var local, incoming := Clock(r, j, n), Incoming(r, j);
    var later := Max(local, incoming);
    PackKeepsParts(r.readings[j], 0);
    PackKeepsParts(Physical(later), BumpLogical(Counter(later)));
    i := j;
    if r.readings[j] <= Physical(later) {
      assert Physical(Stamp(r, j)) == Physical(later);
      if r.events[j].Receive? && later == incoming {
        var from := r.events[j].from;
        i := PhysicalPartIsCausal(r, from);
        assert Direct(r, from, j);
      } else if local != r.starts[n] {
        ClockHasSource(r, j, n);
        var k: nat :| k < j && r.events[k].node == n && local == Stamp(r, k);
        i := PhysicalPartIsCausal(r, k);
        assert Direct(r, k, j);
      }
    }
  }
}
