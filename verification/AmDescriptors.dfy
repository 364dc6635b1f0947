/**
 Rendezvous descriptors of active messages: UCX hands one to the context when a message arrives,
 and the context must give it back by receiving into a buffer or by releasing it.  In between it
 waits in the arrival queue and then in a map under a key that is handed to the user.
 */
module AmDescriptors {
  import opened Options

  const WRAP := 0x1_0000_0000_0000_0000

  type U64 = x: int | 0 <= x < 0x1_0000_0000_0000_0000

  datatype Desc = Desc(id: nat, length: nat)

  // handed: given to UCX to receive into a buffer.  released: returned without receiving.
  // dropped: neither, and no longer anywhere.
  datatype World = World(
    queue: seq<Desc>, pending: map<U64, Desc>, nextKey: U64, keys: seq<U64>,
    handed: seq<Desc>, released: seq<Desc>, dropped: seq<Desc>)

  // found: the descriptor's connection is still known.  throws: preparing the buffer fails.
  datatype Op =
    | Arrive(desc: Desc)
    | ReceiveHeader(found: bool)
    | ReceiveBuffer(key: U64, cancelled: bool, found: bool, throws: bool)
    | Stop(key: U64)
    | RejectHeader(key: U64)

  const EMPTY := World([], map[], 0, [], [], [], [])

  // The key is taken even when the map does not store under it.
  function Pushed(w: World, d: Desc): World {
    var key := w.nextKey;
    var w1 := w.(nextKey := (key + 1) % WRAP, keys := w.keys + [key]);
    if key in w.pending then w1.(dropped := w.dropped + [d]) else w1.(pending := w.pending[key := d])
  }

  function HeaderReceived(w: World, found: bool): World {
    if w.queue == [] then w
    else
      var d, w1 := w.queue[0], w.(queue := w.queue[1..]);
      if found && d.length > 0 then Pushed(w1, d) else w1.(dropped := w.dropped + [d])
  }

  function Released(w: World, key: U64): World {
    if key !in w.pending then w
    else w.(pending := w.pending - {key}, released := w.released + [w.pending[key]])
  }

  function BufferReceived(w: World, key: U64, found: bool, throws: bool): World {
    if key !in w.pending then w
    else
      var w1 := w.(pending := w.pending - {key});
      if found && !throws then w1.(handed := w.handed + [w.pending[key]])
      else w1.(dropped := w.dropped + [w.pending[key]])
  }

  function Next(w: World, op: Op): World {
    match op
    case Arrive(d) => w.(queue := w.queue + [d])
    case ReceiveHeader(found) => HeaderReceived(w, found)
    case ReceiveBuffer(key, cancelled, found, throws) =>
      if cancelled then Released(w, key) else BufferReceived(w, key, found, throws)
    case Stop(key) => Released(w, key)
    case RejectHeader(key) => Released(w, key)
  }

  function After(ops: seq<Op>): World {
    if ops == [] then EMPTY else Next(After(ops[..|ops| - 1]), ops[|ops| - 1])
  }

  // ---------------------------------------------------------------------------
  // Keys

  lemma CountWraps(n: nat)
    ensures (n % WRAP + 1) % WRAP == (n + 1) % WRAP
  {
    assert n == (n / WRAP) * WRAP + n % WRAP;
  }

  lemma StepIssuesNextKey(w: World, op: Op)
    requires w.nextKey == |w.keys| % WRAP
    ensures Next(w, op).nextKey == |Next(w, op).keys| % WRAP
    ensures Next(w, op).keys == w.keys || Next(w, op).keys == w.keys + [w.nextKey]
  {
    CountWraps(|w.keys|);
  }

  lemma {:induction false} KeysCountUp(ops: seq<Op>)
    ensures After(ops).nextKey == |After(ops).keys| % WRAP
    ensures forall i | 0 <= i < |After(ops).keys| :: After(ops).keys[i] == i % WRAP
  {
    if ops != [] {
      KeysCountUp(ops[..|ops| - 1]);
      StepIssuesNextKey(After(ops[..|ops| - 1]), ops[|ops| - 1]);
    }
  }

  /** Over every run the keys are all different if and only if at most 2^64 were issued. */
  lemma KeysAreFreshIff(ops: seq<Op>)
    ensures var keys := After(ops).keys;
            (forall i, j | 0 <= i < j < |keys| :: keys[i] != keys[j]) <==> |keys| <= WRAP
  {
    hide After;
    KeysCountUp(ops);
    var keys := After(ops).keys;
    if |keys| > WRAP {
      assert keys[0] == 0 % WRAP == 0 && keys[WRAP] == WRAP % WRAP == 0;
    } else {
      forall i, j | 0 <= i < j < |keys| ensures keys[i] != keys[j] {
        assert keys[i] == i && keys[j] == j;
      }
    }
  }

  // The same message arriving and becoming pending, n times over.
  function Repeated(n: nat): seq<Op> {
    if n == 0 then [] else Repeated(n - 1) + [Arrive(Desc(0, 1)), ReceiveHeader(true)]
  }

  lemma AfterOneMore(ops: seq<Op>, op: Op)
    ensures After(ops + [op]) == Next(After(ops), op)
  {
    assert (ops + [op])[..|ops|] == ops;
  }

  lemma AfterTwoMore(ops: seq<Op>, a: Op, b: Op)
    ensures After(ops + [a, b]) == Next(Next(After(ops), a), b)
  {
    AfterOneMore(ops, a);
    AfterOneMore(ops + [a], b);
    assert (ops + [a]) + [b] == ops + [a, b];
  }

  // The first keys are all taken, in order, and none is given back.
  ghost predicate FirstKeysTaken(w: World, n: nat) {
    w.queue == [] && w.dropped == [] && |w.keys| == n && forall k: U64 :: k in w.pending <==> k < n
  }

  lemma ArrivalTakesKey(w: World, n: nat)
    requires n < WRAP && FirstKeysTaken(w, n) && w.nextKey == n
    ensures FirstKeysTaken(Next(Next(w, Arrive(Desc(0, 1))), ReceiveHeader(true)), n + 1)
  {
    assert Next(w, Arrive(Desc(0, 1))) == w.(queue := [Desc(0, 1)]);
  }

  lemma ArrivalFindsKeyTaken(w: World)
    requires FirstKeysTaken(w, WRAP) && w.nextKey == 0
    ensures Next(Next(w, Arrive(Desc(0, 1))), ReceiveHeader(true)).dropped == [Desc(0, 1)]
    ensures |Next(Next(w, Arrive(Desc(0, 1))), ReceiveHeader(true)).keys| == WRAP + 1
  {
    assert Next(w, Arrive(Desc(0, 1))) == w.(queue := [Desc(0, 1)]);
    var first: U64 := 0;
    assert first in w.pending;
  }

  lemma {:induction false} ArrivalsTakeKeys(n: nat)
    requires n <= WRAP
    ensures FirstKeysTaken(After(Repeated(n)), n) && After(Repeated(n)).nextKey == n % WRAP
  {
    hide Next;
    KeysCountUp(Repeated(n));
    if n == 0 {
      assert After([]) == EMPTY;
    } else {
      ArrivalsTakeKeys(n - 1);
      ArrivalTakesKey(After(Repeated(n - 1)), n - 1);
      AfterTwoMore(Repeated(n - 1), Arrive(Desc(0, 1)), ReceiveHeader(true));
    }
  }

  /** It does happen: the arrival after 2^64 others is given the key of the first one, which is still
      taken, and is lost. */
  lemma KeysRepeat()
    ensures var w := After(Repeated(WRAP + 1));
            |w.keys| == WRAP + 1 && w.keys[0] == w.keys[WRAP] && w.dropped == [Desc(0, 1)]
  {
    hide Next, FirstKeysTaken;
    ArrivalsTakeKeys(WRAP);
    ArrivalFindsKeyTaken(After(Repeated(WRAP)));
    AfterTwoMore(Repeated(WRAP), Arrive(Desc(0, 1)), ReceiveHeader(true));
    KeysCountUp(Repeated(WRAP + 1));
  }

  // ---------------------------------------------------------------------------
  // Conservation

  ghost function KeysOf(pending: map<U64, Desc>, d: Desc): set<U64> {
    set k | k in pending && pending[k] == d
  }

  ghost function Places(w: World, d: Desc): nat {
    multiset(w.queue)[d] + |KeysOf(w.pending, d)| + multiset(w.handed)[d] + multiset(w.released)[d]
    + multiset(w.dropped)[d]
  }

  function Arrivals(ops: seq<Op>, d: Desc): nat {
    if ops == [] then 0
    else Arrivals(ops[..|ops| - 1], d) + if ops[|ops| - 1] == Arrive(d) then 1 else 0
  }

  lemma TakeKey(pending: map<U64, Desc>, key: U64, d: Desc)
    requires key in pending
    ensures |KeysOf(pending - {key}, d)| == |KeysOf(pending, d)| - if pending[key] == d then 1 else 0
  {
    assert KeysOf(pending - {key}, d) == KeysOf(pending, d) - {key};
  }

  lemma PutKey(pending: map<U64, Desc>, key: U64, e: Desc, d: Desc)
    requires key !in pending
    ensures |KeysOf(pending[key := e], d)| == |KeysOf(pending, d)| + if e == d then 1 else 0
  {
    assert KeysOf(pending[key := e], d) == KeysOf(pending, d) + if e == d then {key} else {};
  }

  lemma PushConserves(w: World, e: Desc, d: Desc)
    ensures Places(Pushed(w, e), d) == Places(w, d) + if e == d then 1 else 0
  {
    if w.nextKey !in w.pending {
      PutKey(w.pending, w.nextKey, e, d);
    }
  }

  lemma HeaderConserves(w: World, found: bool, d: Desc)
    ensures Places(HeaderReceived(w, found), d) == Places(w, d)
  {
    if w.queue != [] {
      assert w.queue == [w.queue[0]] + w.queue[1..];
      PushConserves(w.(queue := w.queue[1..]), w.queue[0], d);
    }
  }

  lemma StepConserves(w: World, op: Op, d: Desc)
    ensures Places(Next(w, op), d) == Places(w, d) + if op == Arrive(d) then 1 else 0
  {
    match op
    case Arrive(_) =>
    case ReceiveHeader(found) => HeaderConserves(w, found, d);
    case _ =>
      if op.key in w.pending {
        TakeKey(w.pending, op.key, d);
      }
  }

  /** Over every run a descriptor that arrived is in exactly one place for each time it arrived:
      queued, pending, handed to UCX, released, or dropped. */
  lemma {:induction false} RunConserves(ops: seq<Op>, d: Desc)
    ensures Places(After(ops), d) == Arrivals(ops, d)
  {
    if ops == [] {
      assert KeysOf(map[], d) == {};
    } else {
      RunConserves(ops[..|ops| - 1], d);
      StepConserves(After(ops[..|ops| - 1]), ops[|ops| - 1], d);
    }
  }

  /** A descriptor is handed to UCX or released at most once, and never both. */
  lemma GivenBackAtMostOnce(ops: seq<Op>, d: Desc)
    requires Arrivals(ops, d) <= 1
    ensures multiset(After(ops).handed)[d] + multiset(After(ops).released)[d] <= 1
    ensures d in After(ops).handed ==> d !in After(ops).released && d !in After(ops).queue
  {
    RunConserves(ops, d);
  }

  // The steps that lose a descriptor: its connection is gone, its length is zero, preparing the
  // buffer threw, or its key is still taken.
  predicate Loses(w: World, op: Op) {
    match op
    case ReceiveHeader(found) => w.queue != [] && (!found || w.queue[0].length == 0 || w.nextKey in w.pending)
    case ReceiveBuffer(key, cancelled, found, throws) => key in w.pending && !cancelled && (!found || throws)
    case _ => false
  }

  predicate NeverLoses(ops: seq<Op>) {
    ops != [] ==> NeverLoses(ops[..|ops| - 1]) && !Loses(After(ops[..|ops| - 1]), ops[|ops| - 1])
  }

  lemma StepDrops(w: World, op: Op)
    ensures |Next(w, op).dropped| == |w.dropped| + if Loses(w, op) then 1 else 0
  {}

  /** A run drops no descriptor if and only if none of its steps is one that loses it. */
  lemma {:induction false} DropsExactlyWhenLost(ops: seq<Op>)
    ensures After(ops).dropped == [] <==> NeverLoses(ops)
  {
    if ops != [] {
      DropsExactlyWhenLost(ops[..|ops| - 1]);
      StepDrops(After(ops[..|ops| - 1]), ops[|ops| - 1]);
    }
  }

  /** When nothing is lost and nothing waits, each arrival was given back exactly once. */
  lemma SettledRunsGiveEverythingBack(ops: seq<Op>, d: Desc)
    requires NeverLoses(ops) && After(ops).queue == [] && After(ops).pending == map[]
    ensures multiset(After(ops).handed)[d] + multiset(After(ops).released)[d] == Arrivals(ops, d)
  {
    RunConserves(ops, d);
    DropsExactlyWhenLost(ops);
    assert KeysOf(map[], d) == {};
  }

  // The descriptor is neither handed to UCX nor released, nor kept anywhere.
  predicate IsLost(w: World, d: Desc) {
    w.queue == [] && w.pending == map[] && w.handed == [] && w.released == [] && w.dropped == [d]
  }

  lemma PendingRun(d: Desc)
    requires d.length > 0
    ensures After([Arrive(d), ReceiveHeader(true)]) == EMPTY.(pending := map[0 := d], nextKey := 1, keys := [0])
  {
    AfterTwoMore([], Arrive(d), ReceiveHeader(true));
    assert [] + [Arrive(d), ReceiveHeader(true)] == [Arrive(d), ReceiveHeader(true)];
  }

  /** The descriptor is lost when its connection is gone as its buffer is received, or when preparing
      the buffer throws. */
  lemma ReceivingCanLoseDescriptor(d: Desc, found: bool, throws: bool)
    requires d.length > 0 && (!found || throws)
    ensures IsLost(After([Arrive(d), ReceiveHeader(true), ReceiveBuffer(0, false, found, throws)]), d)
  {
    var pending := [Arrive(d), ReceiveHeader(true)];
    PendingRun(d);
    AfterOneMore(pending, ReceiveBuffer(0, false, found, throws));
    assert pending + [ReceiveBuffer(0, false, found, throws)]
        == [Arrive(d), ReceiveHeader(true), ReceiveBuffer(0, false, found, throws)];
    assert (map[0 as U64 := d] - {0}).Keys == {};
  }

  /** It is lost when its connection is gone as its header is received, or when it carries no data. */
  lemma HeaderCanLoseDescriptor(d: Desc, found: bool)
    requires !found || d.length == 0
    ensures IsLost(After([Arrive(d), ReceiveHeader(found)]), d)
  {
    AfterTwoMore([], Arrive(d), ReceiveHeader(found));
    assert [] + [Arrive(d), ReceiveHeader(found)] == [Arrive(d), ReceiveHeader(found)];
  }

  // ---------------------------------------------------------------------------
  // What happens to each descriptor, and in which order

  // The step receives d into a buffer: its key is pending, nobody has cancelled, its connection is there
  // and preparing the buffer does not throw.
  predicate Receives(w: World, op: Op, d: Desc) {
    op.ReceiveBuffer? && !op.cancelled && op.found && !op.throws && op.key in w.pending && w.pending[op.key] == d
  }

  // The step is a stop, a rejection or a cancelled receive that finds d pending.
  predicate GivesUp(w: World, op: Op, d: Desc) {
    (op.Stop? || op.RejectHeader? || (op.ReceiveBuffer? && op.cancelled)) && op.key in w.pending && w.pending[op.key] == d
  }

  function TimesReceived(ops: seq<Op>, d: Desc): nat {
    if ops == [] then 0
    else TimesReceived(ops[..|ops| - 1], d) + if Receives(After(ops[..|ops| - 1]), ops[|ops| - 1], d) then 1 else 0
  }

  function TimesGivenUp(ops: seq<Op>, d: Desc): nat {
    if ops == [] then 0
    else TimesGivenUp(ops[..|ops| - 1], d) + if GivesUp(After(ops[..|ops| - 1]), ops[|ops| - 1], d) then 1 else 0
  }

  lemma StepHandsAndReleases(w: World, op: Op, d: Desc)
    ensures multiset(Next(w, op).handed)[d] == multiset(w.handed)[d] + if Receives(w, op, d) then 1 else 0
    ensures multiset(Next(w, op).released)[d] == multiset(w.released)[d] + if GivesUp(w, op, d) then 1 else 0
  {}

  /** Over every run a descriptor was handed to UCX exactly as often as it was received into a buffer, and
      released exactly as often as a stop, a rejection or a cancelled receive found it pending. */
  lemma {:induction false} HandedAndReleasedExactly(ops: seq<Op>, d: Desc)
    ensures multiset(After(ops).handed)[d] == TimesReceived(ops, d)
    ensures multiset(After(ops).released)[d] == TimesGivenUp(ops, d)
  {
    if ops != [] {
      HandedAndReleasedExactly(ops[..|ops| - 1], d);
      StepHandsAndReleases(After(ops[..|ops| - 1]), ops[|ops| - 1], d);
    }
  }

  function Arrived(ops: seq<Op>): seq<Desc> {
    if ops == [] then []
    else Arrived(ops[..|ops| - 1]) + if ops[|ops| - 1].Arrive? then [ops[|ops| - 1].desc] else []
  }

  // How many arrivals had their header received.
  function Taken(ops: seq<Op>): nat {
    if ops == [] then 0
    else
      var before := ops[..|ops| - 1];
      Taken(before) + if ops[|ops| - 1].ReceiveHeader? && Taken(before) < |Arrived(before)| then 1 else 0
  }

  // The descriptors that were issued a key: their connection was known and they carry data.
  function Issued(ops: seq<Op>): seq<Desc> {
    if ops == [] then []
    else
      var before, op := ops[..|ops| - 1], ops[|ops| - 1];
      Issued(before)
      + if op == ReceiveHeader(true) && Taken(before) < |Arrived(before)| && Arrived(before)[Taken(before)].length > 0
        then [Arrived(before)[Taken(before)]] else []
  }

  /** Headers are received in the order of arrival: what is queued is what arrived, less the first ones. */
  lemma {:induction false} HeadersComeInOrder(ops: seq<Op>)
    ensures Taken(ops) <= |Arrived(ops)|
    ensures After(ops).queue == Arrived(ops)[Taken(ops)..]
  {
    if ops != [] {
      var before, op := ops[..|ops| - 1], ops[|ops| - 1];
      HeadersComeInOrder(before);
      var w := After(before);
      assert op.ReceiveHeader? ==> After(ops).queue == if w.queue == [] then [] else w.queue[1..];
      assert !op.ReceiveHeader? ==> After(ops).queue == w.queue + if op.Arrive? then [op.desc] else [];
    }
  }

  // The i-th key issued was for this descriptor.
  ghost predicate WasIssued(issued: seq<Desc>, key: U64, d: Desc) {
    exists i :: 0 <= i < |issued| && i % WRAP == key && issued[i] == d
  }

  lemma IssuedStays(issued: seq<Desc>, more: seq<Desc>, key: U64, d: Desc)
    requires WasIssued(issued, key, d)
    ensures WasIssued(issued + more, key, d)
  {
    var i :| 0 <= i < |issued| && i % WRAP == key && issued[i] == d;
    assert (issued + more)[i] == d;
  }

  // The descriptor a step gives the next key to, if it does.
  function Gives(w: World, op: Op): seq<Desc> {
    if op == ReceiveHeader(true) && w.queue != [] && w.queue[0].length > 0 then [w.queue[0]] else []
  }

  lemma StepIssues(w: World, op: Op)
    ensures |Next(w, op).keys| == |w.keys| + |Gives(w, op)|
    ensures forall key | key in Next(w, op).pending ::
              || (key in w.pending && Next(w, op).pending[key] == w.pending[key])
              || (key == w.nextKey && Gives(w, op) == [Next(w, op).pending[key]])
  {}

  lemma {:induction false} KeysNameTheirDescriptors(ops: seq<Op>)
    ensures |After(ops).keys| == |Issued(ops)|
    ensures forall key | key in After(ops).pending :: WasIssued(Issued(ops), key, After(ops).pending[key])
  {
    if ops != [] {
      hide Next;
      var before, op := ops[..|ops| - 1], ops[|ops| - 1];
      KeysNameTheirDescriptors(before);
      KeysCountUp(before);
      HeadersComeInOrder(before);
      var w := After(before);
      StepIssues(w, op);
      assert Issued(ops) == Issued(before) + Gives(w, op);
      forall key | key in After(ops).pending ensures WasIssued(Issued(ops), key, After(ops).pending[key]) {
        var d := After(ops).pending[key];
        if key in w.pending && d == w.pending[key] {
          IssuedStays(Issued(before), Gives(w, op), key, d);
        } else {
          assert Issued(ops)[|w.keys|] == d;
        }
      }
    }
  }

  // ---------------------------------------------------------------------------
  // The map and the context

  class AmDescMap {
    var entries: map<U64, Desc>
    var nextKey: U64
    ghost var keys: seq<U64>

    constructor ()
      ensures entries == map[] && nextKey == 0 && keys == []
    {
      entries, nextKey, keys := map[], 0, [];
    }

    // An entry that is already there is not replaced.
    method Push(d: Desc) returns (key: U64)
      modifies this
      ensures key == old(nextKey) && nextKey == (old(nextKey) + 1) % WRAP && keys == old(keys) + [key]
      ensures entries == if key in old(entries) then old(entries) else old(entries)[key := d]
    {
      key := nextKey;
      nextKey := (nextKey + 1) % WRAP;
      keys := keys + [key];
      if key !in entries {
        entries := entries[key := d];
      }
    }

    method Pop(key: U64) returns (d: Option<Desc>)
      modifies this`entries
      ensures entries == old(entries) - {key}
      ensures d == if key in old(entries) then Some(old(entries[key])) else None
    {
      d := None;
      if key in entries {
        d := Some(entries[key]);
        entries := entries - {key};
      } else {
        assert entries - {key} == entries;
      }
    }

    method View(key: U64) returns (d: Option<Desc>)
      ensures d == if key in entries then Some(entries[key]) else None
    {
      d := if key in entries then Some(entries[key]) else None;
    }
  }

  class AmContext {
    const descMap: AmDescMap
    var queue: seq<Desc>
    var handed: seq<Desc>
    var released: seq<Desc>
    ghost var dropped: seq<Desc>

    ghost function State(): World
      reads this, descMap
    {
      World(queue, descMap.entries, descMap.nextKey, descMap.keys, handed, released, dropped)
    }

    constructor ()
      ensures State() == EMPTY && fresh(descMap)
    {
      descMap := new AmDescMap();
      queue, handed, released, dropped := [], [], [], [];
    }

    // UCX delivers a rendezvous message.
    method AmRecvCallback(d: Desc)
      modifies this`queue
      ensures State() == Next(old(State()), Arrive(d))
    {
      queue := queue + [d];
    }

    method StartReceiveHeader(found: bool) returns (key: Option<U64>)
      modifies this`queue, this`dropped, descMap
      ensures State() == Next(old(State()), ReceiveHeader(found))
      ensures key == if old(queue) != [] && found && old(queue[0]).length > 0 then Some(old(descMap.nextKey)) else None
    {
      key := None;
      if queue != [] {
        var d := queue[0];
        queue := queue[1..];
        if found && d.length > 0 {
          ghost var taken := descMap.nextKey in descMap.entries;
          var k := descMap.Push(d);
          key := Some(k);
          if taken {
            dropped := dropped + [d];
          }
        } else {
          dropped := dropped + [d];
        }
      }
    }

    method ReleaseRndvAmDesc(d: Desc)
      modifies this`released
      ensures released == old(released) + [d]
    {
      released := released + [d];
    }

    method PopAndRelease(key: U64)
      modifies this`released, descMap`entries
      ensures State() == Released(old(State()), key)
    {
      var d := descMap.Pop(key);
      if d.Some? {
        ReleaseRndvAmDesc(d.value);
      }
    }

    method StartReceiveBuffer(key: U64, cancelled: bool, found: bool, throws: bool)
      modifies this`handed, this`released, this`dropped, descMap`entries
      ensures State() == Next(old(State()), ReceiveBuffer(key, cancelled, found, throws))
    {
      if cancelled {
        PopAndRelease(key);
      } else {
        var d := descMap.Pop(key);
        if d.Some? {
          if found && !throws {
            handed := handed + [d.value];
          } else {
            dropped := dropped + [d.value];
          }
        }
      }
    }

    method RequestStopLocal(key: U64)
      modifies this`released, descMap`entries
      ensures State() == Next(old(State()), Stop(key))
    {
      PopAndRelease(key);
    }

    // rejected: the header is not a valid request.  Only a pending descriptor is looked at.
    method ProcessHeader(key: U64, rejected: bool) returns (found: bool)
      modifies this`released, descMap`entries
      ensures found == (key in old(descMap.entries))
      ensures State() == if found && rejected then Next(old(State()), RejectHeader(key)) else old(State())
    {
      var d := descMap.View(key);
      found := d.Some?;
      if found && rejected {
        PopAndRelease(key);
      }
    }
  }
}
