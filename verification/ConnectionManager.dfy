/**
 The connection manager: a vector of slots with a free list, two maps from connection ids to slots,
 and the queues of failed and of disconnecting connections.  The registry at the top is what it
 stands for: two plain maps from ids to connections and two sequences.
 */
module ConnectionManager {
  import opened Options
  import L = RequestLifecycle

  type Id = nat
  type Conn = L.ConnId

  datatype Source = Active | Inactive

  datatype Target = Failed | Disconnecting

  // orphaned: still owned by a slot that no map names.  handedOut: taken from the failed queue by
  // the error handler.  leaked: how many slots are empty and on no free list.
  datatype Registry = Registry(
    active: map<Id, Conn>, inactive: map<Id, Conn>, failed: seq<Conn>, disconnecting: seq<Conn>,
    orphaned: multiset<Conn>, destroyed: multiset<Conn>, handedOut: multiset<Conn>, leaked: nat)

  datatype Op =
    | Add(id: Id, conn: Conn)
    | Remove(id: Id)
    | Deactivate(id: Id)
    | Move(id: Id, source: Source, target: Target)
    | MoveAll
    | Sweep(target: Target, done: set<Conn>)
    | HandOut
    | HandBack(conn: Conn)

  const EMPTY := Registry(map[], map[], [], [], multiset{}, multiset{}, multiset{}, 0)

  // What a map loses when a key is given to someone else.
  function Overwritten(m: map<Id, Conn>, id: Id): multiset<Conn> {
    if id in m then multiset{m[id]} else multiset{}
  }

  function Added(g: Registry, id: Id, c: Conn): Registry {
    g.(active := g.active[id := c], orphaned := g.orphaned + Overwritten(g.active, id))
  }

  function Removed(g: Registry, id: Id): Registry {
    g.(active := g.active - {id}, destroyed := g.destroyed + Overwritten(g.active, id))
  }

  function Deactivated(g: Registry, id: Id): Registry {
    if id !in g.active then g
    else g.(active := g.active - {id}, inactive := g.inactive[id := g.active[id]],
            orphaned := g.orphaned + Overwritten(g.inactive, id))
  }

  function Map(g: Registry, source: Source): map<Id, Conn> {
    if source.Active? then g.active else g.inactive
  }

  function Enqueued(g: Registry, c: Conn, target: Target): Registry {
    if target.Failed? then g.(failed := g.failed + [c]) else g.(disconnecting := g.disconnecting + [c])
  }

  function Moved(g: Registry, id: Id, source: Source, target: Target): Registry {
    if id !in Map(g, source) then g
    else
      var c := Map(g, source)[id];
      if source.Active? then Enqueued(g.(active := g.active - {id}), c, target)
      else Enqueued(g.(inactive := g.inactive - {id}), c, target)
  }

  predicate IsLeast(id: Id, ids: set<Id>) {
    id in ids && forall k | k in ids :: id <= k
  }

  lemma {:induction false} LeastExists(ids: set<Id>)
    requires ids != {}
    ensures exists id :: IsLeast(id, ids)
  {
    var x :| x in ids;
    if ids == {x} {
      assert IsLeast(x, ids);
    } else {
      var rest := ids - {x};
      LeastExists(rest);
      var id :| IsLeast(id, rest);
      assert forall k | k in ids :: k == x || k in rest;
      assert IsLeast(if id < x then id else x, ids);
    }
  }

  function Least(ids: set<Id>): (id: Id)
    requires ids != {}
    ensures IsLeast(id, ids)
  {
    LeastExists(ids);
    var id :| IsLeast(id, ids) && id in ids;
    id
  }

  // The connections of a map in the order of their ids.
  function InIdOrder(m: map<Id, Conn>): seq<Conn>
    decreases |m.Keys|
  {
    if m.Keys == {} then []
    else
      var id := Least(m.Keys);
      assert (m - {id}).Keys == m.Keys - {id};
      [m[id]] + InIdOrder(m - {id})
  }

  function AllMoved(g: Registry): Registry {
    g.(active := map[], disconnecting := g.disconnecting + InIdOrder(g.active), leaked := g.leaked + |g.active.Keys|)
  }

  function Kept(q: seq<Conn>, done: set<Conn>): seq<Conn> {
    if q == [] then []
    else Kept(q[..|q| - 1], done) + if q[|q| - 1] in done then [] else [q[|q| - 1]]
  }

  function Gone(q: seq<Conn>, done: set<Conn>): multiset<Conn> {
    if q == [] then multiset{}
    else Gone(q[..|q| - 1], done) + if q[|q| - 1] in done then multiset{q[|q| - 1]} else multiset{}
  }

  function Swept(g: Registry, target: Target, done: set<Conn>): Registry {
    if target.Failed?
    then g.(failed := Kept(g.failed, done), destroyed := g.destroyed + Gone(g.failed, done))
    else g.(disconnecting := Kept(g.disconnecting, done), destroyed := g.destroyed + Gone(g.disconnecting, done))
  }

  function HandedOut(g: Registry): Registry
    requires g.failed != []
  {
    g.(failed := g.failed[1..], handedOut := g.handedOut + multiset{g.failed[0]})
  }

  // Any connection may be handed in; one the error handler took out is no longer in its hands.
  function HandedBack(g: Registry, c: Conn): Registry {
    g.(disconnecting := g.disconnecting + [c], handedOut := g.handedOut - multiset{c})
  }

  predicate Enabled(g: Registry, op: Op) {
    op.HandOut? ==> g.failed != []
  }

  function Next(g: Registry, op: Op): Registry {
    if !Enabled(g, op) then g else
    match op
    case Add(id, c) => Added(g, id, c)
    case Remove(id) => Removed(g, id)
    case Deactivate(id) => Deactivated(g, id)
    case Move(id, source, target) => Moved(g, id, source, target)
    case MoveAll => AllMoved(g)
    case Sweep(target, done) => Swept(g, target, done)
    case HandOut => HandedOut(g)
    case HandBack(c) => HandedBack(g, c)
  }

  function After(ops: seq<Op>): Registry {
    if ops == [] then EMPTY else Next(After(ops[..|ops| - 1]), ops[|ops| - 1])
  }

  // ---------------------------------------------------------------------------
  // Conservation

  ghost function IdsOf(m: map<Id, Conn>, c: Conn): set<Id> {
    set id | id in m && m[id] == c
  }

  // In how many places the connection is.
  ghost function Places(g: Registry, c: Conn): nat {
    |IdsOf(g.active, c)| + |IdsOf(g.inactive, c)| + multiset(g.failed)[c] + multiset(g.disconnecting)[c]
    + g.orphaned[c] + g.destroyed[c] + g.handedOut[c]
  }

  // Whether an operation brings the connection in from outside.
  function Enters(g: Registry, op: Op, c: Conn): nat {
    if op == HandBack(c) then if c in g.handedOut then 0 else 1
    else if op.Add? && op.conn == c then 1 else 0
  }

  function TimesEntered(ops: seq<Op>, c: Conn): nat {
    if ops == [] then 0
    else TimesEntered(ops[..|ops| - 1], c) + Enters(After(ops[..|ops| - 1]), ops[|ops| - 1], c)
  }

  lemma DropKey(m: map<Id, Conn>, id: Id, c: Conn)
    ensures |IdsOf(m, c)| == |IdsOf(m - {id}, c)| + Overwritten(m, id)[c]
  {
    assert IdsOf(m - {id}, c) == IdsOf(m, c) - {id};
  }

  lemma PutKey(m: map<Id, Conn>, id: Id, d: Conn, c: Conn)
    ensures |IdsOf(m[id := d], c)| + Overwritten(m, id)[c] == |IdsOf(m, c)| + if d == c then 1 else 0
  {
    assert IdsOf(m[id := d], c) == IdsOf(m - {id}, c) + if d == c then {id} else {};
    DropKey(m, id, c);
  }

  lemma {:induction false} OrderHoldsAll(m: map<Id, Conn>, c: Conn)
    ensures multiset(InIdOrder(m))[c] == |IdsOf(m, c)|
    decreases |m.Keys|
  {
    if m.Keys == {} {
      assert IdsOf(m, c) == {};
    } else {
      var id := Least(m.Keys);
      assert (m - {id}).Keys == m.Keys - {id};
      OrderHoldsAll(m - {id}, c);
      DropKey(m, id, c);
    }
  }

  lemma CountLast(q: seq<Conn>, c: Conn)
    requires q != []
    ensures multiset(q)[c] == multiset(q[..|q| - 1])[c] + if q[|q| - 1] == c then 1 else 0
  {
    assert q == q[..|q| - 1] + [q[|q| - 1]];
  }

  lemma {:induction false} SweepSplits(q: seq<Conn>, done: set<Conn>, c: Conn)
    ensures multiset(q)[c] == multiset(Kept(q, done))[c] + Gone(q, done)[c]
  {
    if q != [] {
      SweepSplits(q[..|q| - 1], done, c);
      CountLast(q, c);
      if q[|q| - 1] !in done {
        CountLast(Kept(q, done), c);
        assert Kept(q, done)[..|Kept(q, done)| - 1] == Kept(q[..|q| - 1], done);
      }
    }
  }

  /** A sweep destroys exactly the queued connections that are done. */
  lemma {:induction false} SweepIsExact(q: seq<Conn>, done: set<Conn>, c: Conn)
    ensures c in Kept(q, done) <==> c in q && c !in done
    ensures c in Gone(q, done) <==> c in q && c in done
  {
    if q != [] {
      SweepIsExact(q[..|q| - 1], done, c);
      assert q == q[..|q| - 1] + [q[|q| - 1]];
    }
  }

  lemma {:induction false} KeptGrows(q: seq<Conn>, done: set<Conn>, i: nat)
    requires i < |q| && q[i] !in done
    ensures |Kept(q[..i], done)| < |Kept(q, done)| && Kept(q, done)[|Kept(q[..i], done)|] == q[i]
    decreases |q|
  {
    if i < |q| - 1 {
      assert q[..|q| - 1][..i] == q[..i];
      KeptGrows(q[..|q| - 1], done, i);
    }
  }

  /** A sweep keeps the connections it does not destroy in their order. */
  lemma {:induction false} SweepKeepsOrder(q: seq<Conn>, done: set<Conn>, i: nat, j: nat)
    requires i < j < |q| && q[i] !in done && q[j] !in done
    ensures |Kept(q[..i], done)| < |Kept(q[..j], done)| < |Kept(q, done)|
    ensures Kept(q, done)[|Kept(q[..i], done)|] == q[i]
    ensures Kept(q, done)[|Kept(q[..j], done)|] == q[j]
  {
    KeptGrows(q, done, i);
    KeptGrows(q, done, j);
    assert q[..j][..i] == q[..i];
    KeptGrows(q[..j], done, i);
  }

  lemma MoveConserves(g: Registry, id: Id, source: Source, target: Target, c: Conn)
    ensures Places(Moved(g, id, source, target), c) == Places(g, c)
  {
    DropKey(Map(g, source), id, c);
  }

  lemma DeactivateConserves(g: Registry, id: Id, c: Conn)
    ensures Places(Deactivated(g, id), c) == Places(g, c)
  {
    if id in g.active {
      DropKey(g.active, id, c);
      PutKey(g.inactive, id, g.active[id], c);
    }
  }

  lemma SweepConserves(g: Registry, target: Target, done: set<Conn>, c: Conn)
    ensures Places(Swept(g, target, done), c) == Places(g, c)
  {
    SweepSplits(if target.Failed? then g.failed else g.disconnecting, done, c);
  }

  lemma HandOutConserves(g: Registry, c: Conn)
    requires g.failed != []
    ensures Places(HandedOut(g), c) == Places(g, c)
  {
    assert g.failed == [g.failed[0]] + g.failed[1..];
  }

  lemma HandBackConserves(g: Registry, d: Conn, c: Conn)
    ensures Places(HandedBack(g, d), c) == Places(g, c) + if d == c && d !in g.handedOut then 1 else 0
  {
    assert (g.handedOut - multiset{d})[c] == g.handedOut[c] - if d == c && d in g.handedOut then 1 else 0;
  }

  lemma AllMovedConserves(g: Registry, c: Conn)
    ensures Places(AllMoved(g), c) == Places(g, c)
  {
    OrderHoldsAll(g.active, c);
    assert IdsOf(map[], c) == {};
  }

  lemma AddConserves(g: Registry, id: Id, d: Conn, c: Conn)
    ensures Places(Added(g, id, d), c) == Places(g, c) + if d == c then 1 else 0
  {
    PutKey(g.active, id, d, c);
  }

  lemma RemoveConserves(g: Registry, id: Id, c: Conn)
    ensures Places(Removed(g, id), c) == Places(g, c)
  {
    DropKey(g.active, id, c);
  }

  lemma StepConserves(g: Registry, op: Op, c: Conn)
    ensures Places(Next(g, op), c) == Places(g, c) + Enters(g, op, c)
  {
    hide Places, Added, Removed, Deactivated, Moved, AllMoved, Swept, HandedOut, HandedBack;
    match op
    case Add(id, d) => AddConserves(g, id, d, c);
    case Remove(id) => RemoveConserves(g, id, c);
    case Deactivate(id) => DeactivateConserves(g, id, c);
    case Move(id, source, target) => MoveConserves(g, id, source, target, c);
    case MoveAll => AllMovedConserves(g, c);
    case Sweep(target, done) => SweepConserves(g, target, done, c);
    case HandOut =>
      if g.failed != [] {
        HandOutConserves(g, c);
      }
    case HandBack(d) => HandBackConserves(g, d, c);
  }

  /** Over every run, a connection is in as many places as it was brought in times: one added once is at
      all times in exactly one of active, inactive, failed, disconnecting, handed out, destroyed, or
      orphaned, and one never brought in is nowhere. */
  lemma {:induction false} RunConserves(ops: seq<Op>, c: Conn)
    ensures Places(After(ops), c) == TimesEntered(ops, c)
  {
    if ops == [] {
      assert IdsOf(map[], c) == {};
    } else {
      RunConserves(ops[..|ops| - 1], c);
      StepConserves(After(ops[..|ops| - 1]), ops[|ops| - 1], c);
    }
  }

  // ---------------------------------------------------------------------------
  // Where each connection goes

  /** A move fills the queue it names, at its end, with the connection the id names, and takes the id out
      of the map it names; everything else stays, and an unknown id changes nothing. */
  lemma MoveFillsItsTarget(g: Registry, id: Id, source: Source, target: Target)
    ensures var g', m := Next(g, Move(id, source, target)), if source == Active then g.active else g.inactive;
            && (id !in m ==> g' == g)
            && (id in m && target == Failed ==> g'.failed == g.failed + [m[id]] && g'.disconnecting == g.disconnecting)
            && (id in m && target == Disconnecting ==> g'.disconnecting == g.disconnecting + [m[id]] && g'.failed == g.failed)
            && g'.active == (if source == Active then g.active - {id} else g.active)
            && g'.inactive == (if source == Inactive then g.inactive - {id} else g.inactive)
  {
    if id !in Map(g, source) {
      assert Map(g, source) - {id} == Map(g, source);
    }
  }

  /** Whatever joins a queue joins its end: only a sweep or the error handler takes anything out. */
  lemma QueuesGrowAtTheEnd(g: Registry, op: Op)
    requires !op.Sweep? && !op.HandOut?
    ensures g.failed <= Next(g, op).failed && g.disconnecting <= Next(g, op).disconnecting
  {}

  // The life of one connection that was added under an id of its own.
  datatype Place = Away | InActive | InInactive | InFailed | InDisconnecting | InHands | Ended

  // The next stage of that life; first: the connection at the front of the failed queue.
  function Stage(p: Place, op: Op, id: Id, c: Conn, first: Option<Conn>): Place {
    match op
    case Add(k, _) => if k == id then InActive else p
    case Remove(k) => if k == id && p == InActive then Ended else p
    case Deactivate(k) => if k == id && p == InActive then InInactive else p
    case Move(k, Active, Failed) => if k == id && p == InActive then InFailed else p
    case Move(k, Active, Disconnecting) => if k == id && p == InActive then InDisconnecting else p
    case Move(k, Inactive, Failed) => if k == id && p == InInactive then InFailed else p
    case Move(k, Inactive, Disconnecting) => if k == id && p == InInactive then InDisconnecting else p
    case MoveAll => if p == InActive then InDisconnecting else p
    case Sweep(Failed, done) => if c in done && p == InFailed then Ended else p
    case Sweep(Disconnecting, done) => if c in done && p == InDisconnecting then Ended else p
    case HandOut => if p == InFailed && first == Some(c) then InHands else p
    case HandBack(d) => if d == c then InDisconnecting else p
  }

  function First(q: seq<Conn>): Option<Conn> {
    if q == [] then None else Some(q[0])
  }

  function Life(ops: seq<Op>, id: Id, c: Conn): Place {
    if ops == [] then Away
    else
      var before := ops[..|ops| - 1];
      Stage(Life(before, id, c), ops[|ops| - 1], id, c, First(After(before).failed))
  }

  predicate At(g: Registry, id: Id, c: Conn, p: Place) {
    match p
    case Away => true
    case InActive => id in g.active && g.active[id] == c
    case InInactive => id !in g.active && id in g.inactive && g.inactive[id] == c
    case InFailed => c in g.failed
    case InDisconnecting => c in g.disconnecting
    case InHands => c in g.handedOut
    case Ended => c in g.destroyed
  }

  lemma AddFollowsLife(g: Registry, k: Id, d: Conn, id: Id, c: Conn, p: Place)
    requires At(g, id, c, p) && (k == id ==> d == c)
    ensures At(Next(g, Add(k, d)), id, c, Stage(p, Add(k, d), id, c, First(g.failed)))
  {}

  lemma RemoveFollowsLife(g: Registry, k: Id, id: Id, c: Conn, p: Place)
    requires At(g, id, c, p)
    ensures At(Next(g, Remove(k)), id, c, Stage(p, Remove(k), id, c, First(g.failed)))
  {}

  lemma DeactivateFollowsLife(g: Registry, k: Id, id: Id, c: Conn, p: Place)
    requires At(g, id, c, p)
    ensures At(Next(g, Deactivate(k)), id, c, Stage(p, Deactivate(k), id, c, First(g.failed)))
  {}

  lemma MoveTouchesNoBag(g: Registry, k: Id, source: Source, target: Target)
    ensures Next(g, Move(k, source, target)).handedOut == g.handedOut
    ensures Next(g, Move(k, source, target)).destroyed == g.destroyed
  {}

  lemma MoveFollowsLife(g: Registry, k: Id, source: Source, target: Target, id: Id, c: Conn, p: Place)
    requires At(g, id, c, p)
    ensures At(Next(g, Move(k, source, target)), id, c, Stage(p, Move(k, source, target), id, c, First(g.failed)))
  {
    hide Next;
    MoveFillsItsTarget(g, k, source, target);
    MoveTouchesNoBag(g, k, source, target);
  }

  lemma MoveAllFollowsLife(g: Registry, id: Id, c: Conn, p: Place)
    requires At(g, id, c, p)
    ensures At(Next(g, MoveAll), id, c, Stage(p, MoveAll, id, c, First(g.failed)))
  {
    OrderHoldsAll(g.active, c);
    if p == InActive {
      assert id in IdsOf(g.active, c);
      assert c in multiset(InIdOrder(g.active));
    }
  }

  lemma SweepFollowsLife(g: Registry, target: Target, done: set<Conn>, id: Id, c: Conn, p: Place)
    requires At(g, id, c, p)
    ensures At(Next(g, Sweep(target, done)), id, c, Stage(p, Sweep(target, done), id, c, First(g.failed)))
  {
    hide Kept, Gone;
    SweepIsExact(if target == Failed then g.failed else g.disconnecting, done, c);
  }

  lemma HandOutFollowsLife(g: Registry, id: Id, c: Conn, p: Place)
    requires At(g, id, c, p)
    ensures At(Next(g, HandOut), id, c, Stage(p, HandOut, id, c, First(g.failed)))
  {
    if g.failed != [] {
      assert g.failed == [g.failed[0]] + g.failed[1..];
    }
  }

  lemma HandBackFollowsLife(g: Registry, d: Conn, id: Id, c: Conn, p: Place)
    requires At(g, id, c, p)
    ensures At(Next(g, HandBack(d)), id, c, Stage(p, HandBack(d), id, c, First(g.failed)))
  {}

  lemma StepFollowsLife(g: Registry, op: Op, id: Id, c: Conn, p: Place)
    requires At(g, id, c, p) && (op.Add? && op.id == id ==> op.conn == c)
    ensures At(Next(g, op), id, c, Stage(p, op, id, c, First(g.failed)))
  {
    hide At, Next, Stage, First;
    match op
    case Move(k, source, target) => MoveFollowsLife(g, k, source, target, id, c, p);
    case MoveAll => MoveAllFollowsLife(g, id, c, p);
    case Sweep(target, done) => SweepFollowsLife(g, target, done, id, c, p);
    case HandOut => HandOutFollowsLife(g, id, c, p);
    case HandBack(d) => HandBackFollowsLife(g, d, id, c, p);
    case Add(k, d) => AddFollowsLife(g, k, d, id, c, p);
    case Remove(k) => RemoveFollowsLife(g, k, id, c, p);
    case Deactivate(k) => DeactivateFollowsLife(g, k, id, c, p);
  }

  /** A connection whose id is its own is at all times where its own life has taken it, whatever happens to
      the others; brought in once, it is nowhere else. */
  lemma {:induction false} LifeIsFollowed(ops: seq<Op>, id: Id, c: Conn)
    requires forall i | 0 <= i < |ops| && ops[i].Add? && ops[i].id == id :: ops[i].conn == c
    ensures At(After(ops), id, c, Life(ops, id, c))
    ensures TimesEntered(ops, c) == 1 ==> Places(After(ops), c) == 1
  {
    hide Places;
    RunConserves(ops, c);
    if ops != [] {
      LifeIsFollowed(ops[..|ops| - 1], id, c);
      StepFollowsLife(After(ops[..|ops| - 1]), ops[|ops| - 1], id, c, Life(ops[..|ops| - 1], id, c));
    }
  }

  ghost function IdsBelow(m: map<Id, Conn>, id: Id): set<Id> {
    set k | k in m && k < id
  }

  /** The connections of a map are listed in the order of their ids: each at the position given by the
      number of smaller ids. */
  lemma {:induction false} OrderIsById(m: map<Id, Conn>, id: Id)
    requires id in m
    ensures |InIdOrder(m)| == |m.Keys|
    ensures |IdsBelow(m, id)| < |InIdOrder(m)| && InIdOrder(m)[|IdsBelow(m, id)|] == m[id]
    decreases |m.Keys|
  {
    var least := Least(m.Keys);
    var rest := m - {least};
    assert rest.Keys == m.Keys - {least};
    if id == least {
      assert IdsBelow(m, id) == {};
      if other :| other in rest {
        OrderIsById(rest, other);
      } else {
        assert rest.Keys == {};
      }
    } else {
      OrderIsById(rest, id);
      assert IdsBelow(m, id) == IdsBelow(rest, id) + {least};
    }
  }

  // An operation that gives an id away while the map still names another connection by it.
  predicate Reuses(g: Registry, op: Op) {
    || (op.Add? && op.id in g.active)
    || (op.Deactivate? && op.id in g.active && op.id in g.inactive)
  }

  predicate NeverReuses(ops: seq<Op>) {
    ops != [] ==> NeverReuses(ops[..|ops| - 1]) && !Reuses(After(ops[..|ops| - 1]), ops[|ops| - 1])
  }

  lemma StepOrphans(g: Registry, op: Op)
    ensures |Next(g, op).orphaned| == |g.orphaned| + if Reuses(g, op) then 1 else 0
  {
    match op
    case Deactivate(id) =>
      if id in g.active {
        assert |Overwritten(g.inactive, id)| == if id in g.inactive then 1 else 0;
      }
    case _ =>
  }

  /** A run orphans no connection if and only if none of its steps reuses an id that is taken. */
  lemma {:induction false} OrphansExactlyWhenReused(ops: seq<Op>)
    ensures After(ops).orphaned == multiset{} <==> NeverReuses(ops)
  {
    if ops != [] {
      OrphansExactlyWhenReused(ops[..|ops| - 1]);
      StepOrphans(After(ops[..|ops| - 1]), ops[|ops| - 1]);
    }
  }

  lemma AfterTwo(a: Op, b: Op)
    ensures After([a, b]) == Next(Next(EMPTY, a), b)
  {
    assert [a, b][..1] == [a] && [a][..0] == [];
    assert After([]) == EMPTY && After([a]) == Next(EMPTY, a);
  }

  /** It does happen: the second addition under an id leaves the first connection orphaned. */
  lemma ReusedIdOrphans()
    ensures After([Add(0, 1), Add(0, 2)]).active == map[0 := 2]
    ensures After([Add(0, 1), Add(0, 2)]).orphaned == multiset{1}
  {
    AfterTwo(Add(0, 1), Add(0, 2));
  }

  /** The same under the inactive map: the second deactivation of an id orphans the first connection. */
  lemma ReusedInactiveIdOrphans()
    ensures var g := After([Add(0, 1), Deactivate(0), Add(0, 2), Deactivate(0)]);
            g.active == map[] && g.inactive == map[0 := 2] && g.orphaned == multiset{1}
  {
    var first := [Add(0, 1), Deactivate(0)];
    var ops := [Add(0, 1), Deactivate(0), Add(0, 2), Deactivate(0)];
    AfterTwo(Add(0, 1), Deactivate(0));
    assert map[0 := 1] - {0} == map[] && map[0 := 2] - {0} == map[];
    assert After(first) == EMPTY.(inactive := map[0 := 1]);
    assert ops[..3][..2] == first && ops[..3][2] == Add(0, 2);
    assert After(ops[..3]) == EMPTY.(inactive := map[0 := 1], active := map[0 := 2]);
    assert After(ops) == Next(After(ops[..3]), Deactivate(0));
  }

  // Moving all active connections leaks the slots of those there are.
  predicate Leaks(g: Registry, op: Op) {
    op.MoveAll? && g.active.Keys != {}
  }

  predicate NeverLeaks(ops: seq<Op>) {
    ops != [] ==> NeverLeaks(ops[..|ops| - 1]) && !Leaks(After(ops[..|ops| - 1]), ops[|ops| - 1])
  }

  lemma StepLeaks(g: Registry, op: Op)
    ensures Next(g, op).leaked == g.leaked + if op.MoveAll? then |g.active.Keys| else 0
  {}

  /** A run leaks no slot if and only if it never moves all connections while some are active. */
  lemma {:induction false} LeaksExactlyWhenAllMoved(ops: seq<Op>)
    ensures After(ops).leaked == 0 <==> NeverLeaks(ops)
  {
    if ops != [] {
      LeaksExactlyWhenAllMoved(ops[..|ops| - 1]);
      StepLeaks(After(ops[..|ops| - 1]), ops[|ops| - 1]);
    }
  }

  /** A leaked slot is never used again: no continuation of a run has fewer of them. */
  lemma {:induction false} LeakedSlotsStayLeaked(ops: seq<Op>, more: seq<Op>)
    ensures After(ops + more).leaked >= After(ops).leaked
    decreases |more|
  {
    if more == [] {
      assert ops + more == ops;
    } else {
      LeakedSlotsStayLeaked(ops, more[..|more| - 1]);
      assert (ops + more)[..|ops + more| - 1] == ops + more[..|more| - 1];
      StepLeaks(After(ops + more[..|more| - 1]), more[|more| - 1]);
    }
  }

  /** It does happen: moving one active connection leaks its slot. */
  lemma MoveAllLeaks()
    ensures After([Add(0, 1), MoveAll]).leaked == 1
    ensures After([Add(0, 1), MoveAll]).active == map[]
  {
    AfterTwo(Add(0, 1), MoveAll);
    assert map[0 := 1].Keys == {0};
  }

  function UsedIds(ops: seq<Op>): set<Id> {
    if ops == [] then {}
    else
      var op := ops[|ops| - 1];
      UsedIds(ops[..|ops| - 1]) + if op.Add? then {op.id} else {}
  }

  // Every addition of the run uses an id no earlier addition used.
  predicate FreshIds(ops: seq<Op>) {
    ops != [] ==>
      var before, op := ops[..|ops| - 1], ops[|ops| - 1];
      FreshIds(before) && (op.Add? ==> op.id !in UsedIds(before))
  }

  ghost predicate KeysWithin(g: Registry, ids: set<Id>) {
    g.active.Keys !! g.inactive.Keys && g.active.Keys <= ids && g.inactive.Keys <= ids
  }

  lemma StepKeepsKeysWithin(g: Registry, op: Op, ids: set<Id>)
    requires KeysWithin(g, ids) && (op.Add? ==> op.id !in ids)
    ensures !Reuses(g, op)
    ensures KeysWithin(Next(g, op), ids + if op.Add? then {op.id} else {})
  {}

  /** Fresh ids are never reused, and keep the two maps apart. */
  lemma {:induction false} FreshIdsAreNotReused(ops: seq<Op>)
    requires FreshIds(ops)
    ensures NeverReuses(ops)
    ensures KeysWithin(After(ops), UsedIds(ops))
  {
    if ops != [] {
      FreshIdsAreNotReused(ops[..|ops| - 1]);
      StepKeepsKeysWithin(After(ops[..|ops| - 1]), ops[|ops| - 1], UsedIds(ops[..|ops| - 1]));
    }
  }

  // ---------------------------------------------------------------------------
  // The slots

  type Slots = seq<Option<Conn>>

  // The map names, by occupied slots, the connections of the plain map.
  ghost predicate Names(m: map<Id, nat>, slots: Slots, plain: map<Id, Conn>) {
    && m.Keys == plain.Keys
    && (forall id | id in m :: m[id] < |slots| && slots[m[id]] == Some(plain[id]))
    && (forall a, b | a in m && b in m && a != b :: m[a] != m[b])
  }

  ghost predicate Apart(m: map<Id, nat>, n: map<Id, nat>) {
    forall a, b | a in m && b in n :: m[a] != n[b]
  }

  ghost predicate FreeList(free: seq<nat>, slots: Slots) {
    && (forall k | k in free :: k < |slots| && slots[k] == None)
    && (forall i, j | 0 <= i < j < |free| :: free[i] != free[j])
  }

  // Mapped slots are occupied, in range, injective and disjoint across the maps; free slots are
  // empty, in range and without duplicates, so they are disjoint from the mapped ones.
  ghost predicate SlotsOk(slots: Slots, m: map<Id, nat>, n: map<Id, nat>, free: seq<nat>,
                          active: map<Id, Conn>, inactive: map<Id, Conn>)
  {
    Names(m, slots, active) && Names(n, slots, inactive) && Apart(m, n) && FreeList(free, slots)
  }

  lemma EmptySlotIsUnnamed(m: map<Id, nat>, slots: Slots, plain: map<Id, Conn>, k: nat)
    requires Names(m, slots, plain) && (k >= |slots| || slots[k] == None)
    ensures forall id | id in m :: m[id] != k
  {}

  lemma FillKeepsNames(m: map<Id, nat>, slots: Slots, plain: map<Id, Conn>, k: nat, id: Id, c: Conn, slots': Slots)
    requires Names(m, slots, plain) && k <= |slots| && (k < |slots| ==> slots[k] == None)
    requires slots' == if k < |slots| then slots[k := Some(c)] else slots + [Some(c)]
    ensures Names(m, slots', plain)
    ensures Names(m[id := k], slots', plain[id := c])
  {
    EmptySlotIsUnnamed(m, slots, plain, k);
  }

  lemma FillKeepsFree(free: seq<nat>, slots: Slots, c: Conn)
    requires FreeList(free, slots)
    ensures FreeList(free, slots + [Some(c)])
    ensures free != [] ==> free[0] < |slots| && FreeList(free[1..], slots[free[0] := Some(c)])
  {
    if free != [] {
      assert free[0] in free;
      assert forall k | k in free[1..] :: k in free;
    }
  }

  lemma EmptyKeepsNames(m: map<Id, nat>, slots: Slots, plain: map<Id, Conn>, k: nat)
    requires Names(m, slots, plain) && k < |slots| && forall id | id in m :: m[id] != k
    ensures Names(m, slots[k := None], plain)
  {}

  lemma DropName(m: map<Id, nat>, slots: Slots, plain: map<Id, Conn>, id: Id)
    requires Names(m, slots, plain)
    ensures Names(m - {id}, slots, plain - {id})
    ensures id in m ==> forall a | a in m - {id} :: (m - {id})[a] != m[id]
  {}

  lemma EmptyKeepsFree(free: seq<nat>, slots: Slots, k: nat)
    requires FreeList(free, slots) && k < |slots| && slots[k] != None
    ensures FreeList(free, slots[k := None])
    ensures FreeList(free + [k], slots[k := None])
  {
    assert k !in free;
  }

  lemma OccupyKeepsSlots(slots: Slots, m: map<Id, nat>, n: map<Id, nat>, free: seq<nat>,
                         active: map<Id, Conn>, inactive: map<Id, Conn>, id: Id, c: Conn)
    requires SlotsOk(slots, m, n, free, active, inactive)
    ensures SlotsOk(slots + [Some(c)], m[id := |slots|], n, free, active[id := c], inactive)
    ensures free != [] ==> free[0] < |slots|
    ensures free != [] ==> SlotsOk(slots[free[0] := Some(c)], m[id := free[0]], n, free[1..], active[id := c], inactive)
  {
    FillKeepsFree(free, slots, c);
    FillKeepsNames(m, slots, active, |slots|, id, c, slots + [Some(c)]);
    FillKeepsNames(n, slots, inactive, |slots|, id, c, slots + [Some(c)]);
    EmptySlotIsUnnamed(n, slots, inactive, |slots|);
    if free != [] {
      assert free[0] in free;
      FillKeepsNames(m, slots, active, free[0], id, c, slots[free[0] := Some(c)]);
      FillKeepsNames(n, slots, inactive, free[0], id, c, slots[free[0] := Some(c)]);
      EmptySlotIsUnnamed(n, slots, inactive, free[0]);
    }
  }

  // Taking a connection out of its slot, without freeing the slot.
  lemma LeakKeepsSlots(slots: Slots, m: map<Id, nat>, n: map<Id, nat>, free: seq<nat>,
                       active: map<Id, Conn>, inactive: map<Id, Conn>, id: Id)
    requires SlotsOk(slots, m, n, free, active, inactive) && id in m
    ensures SlotsOk(slots[m[id] := None], m - {id}, n, free, active - {id}, inactive)
  {
    DropName(m, slots, active, id);
    EmptyKeepsNames(m - {id}, slots, active - {id}, m[id]);
    EmptyKeepsNames(n, slots, inactive, m[id]);
    EmptyKeepsFree(free, slots, m[id]);
  }

  lemma VacateKeepsSlots(slots: Slots, m: map<Id, nat>, n: map<Id, nat>, free: seq<nat>,
                         active: map<Id, Conn>, inactive: map<Id, Conn>, id: Id)
    requires SlotsOk(slots, m, n, free, active, inactive) && id in m
    ensures SlotsOk(slots[m[id] := None], m - {id}, n, free + [m[id]], active - {id}, inactive)
  {
    LeakKeepsSlots(slots, m, n, free, active, inactive, id);
    EmptyKeepsFree(free, slots, m[id]);
  }

  lemma SlotsAreSymmetric(slots: Slots, m: map<Id, nat>, n: map<Id, nat>, free: seq<nat>,
                          active: map<Id, Conn>, inactive: map<Id, Conn>)
    requires SlotsOk(slots, m, n, free, active, inactive)
    ensures SlotsOk(slots, n, m, free, inactive, active)
  {}

  lemma DeactivateKeepsSlots(slots: Slots, m: map<Id, nat>, n: map<Id, nat>, free: seq<nat>,
                             active: map<Id, Conn>, inactive: map<Id, Conn>, id: Id)
    requires SlotsOk(slots, m, n, free, active, inactive) && id in m
    ensures SlotsOk(slots, m - {id}, n[id := m[id]], free, active - {id}, inactive[id := active[id]])
  {
    DropName(m, slots, active, id);
  }

  // What the slots hold that neither map names, position by position.
  function Lost(slots: Slots, named: set<nat>): Slots {
    seq(|slots|, k requires 0 <= k < |slots| => if k in named then None else slots[k])
  }

  function One(o: Option<Conn>): multiset<Conn> {
    if o.Some? then multiset{o.value} else multiset{}
  }

  function Bag(s: Slots): multiset<Conn> {
    if s == [] then multiset{} else Bag(s[..|s| - 1]) + One(s[|s| - 1])
  }

  // The empty slots that are on no free list.
  ghost function LeakedSlots(slots: Slots, free: seq<nat>): set<nat> {
    set k | 0 <= k < |slots| && slots[k] == None && k !in free
  }

  // The orphans are what unnamed slots hold, and the leaked slots are the ones that are really lost.
  ghost predicate Accounts(slots: Slots, m: map<Id, nat>, n: map<Id, nat>, free: seq<nat>,
                           orphaned: multiset<Conn>, leaked: set<nat>)
  {
    orphaned == Bag(Lost(slots, m.Values + n.Values)) && leaked == LeakedSlots(slots, free)
  }

  /** Every slot is exactly one of: named by the active map, named by the inactive map, free, leaked,
      or holding an orphan. */
  lemma SlotsArePartitioned(slots: Slots, m: map<Id, nat>, n: map<Id, nat>, free: seq<nat>,
                            active: map<Id, Conn>, inactive: map<Id, Conn>, k: nat)
    requires SlotsOk(slots, m, n, free, active, inactive) && k < |slots|
    ensures var orphan := Lost(slots, m.Values + n.Values)[k] != None;
            (if k in m.Values then 1 else 0) + (if k in n.Values then 1 else 0) + (if k in free then 1 else 0)
            + (if k in LeakedSlots(slots, free) then 1 else 0) + (if orphan then 1 else 0) == 1
  {}

  lemma Regroup(a: multiset<Conn>, x: multiset<Conn>, b: multiset<Conn>, y: multiset<Conn>, rest: multiset<Conn>)
    requires a + x == b + y
    ensures (a + rest) + x == (b + rest) + y
  {
    assert (a + rest) + x == (a + x) + rest;
    assert (b + rest) + y == (b + y) + rest;
  }

  lemma Swap(a: multiset<Conn>, x: multiset<Conn>, y: multiset<Conn>)
    ensures (a + x) + y == (a + y) + x
  {}

  lemma {:induction false} BagUpdate(s: Slots, k: nat, o: Option<Conn>)
    requires k < |s|
    ensures Bag(s[k := o]) + One(s[k]) == Bag(s) + One(o)
  {
    hide One;
    var last := |s| - 1;
    if k == last {
      assert s[k := o][..last] == s[..last];
      Swap(Bag(s[..last]), One(o), One(s[k]));
    } else {
      BagUpdate(s[..last], k, o);
      assert s[k := o][..last] == s[..last][k := o];
      Regroup(Bag(s[..last][k := o]), One(s[k]), Bag(s[..last]), One(o), One(s[last]));
    }
  }

  lemma BagAppendNone(s: Slots)
    ensures Bag(s + [None]) == Bag(s)
  {
    assert (s + [None])[..|s|] == s;
  }

  ghost predicate Injective(m: map<Id, nat>) {
    forall a, b | a in m && b in m && a != b :: m[a] != m[b]
  }

  lemma ValuesWithout(m: map<Id, nat>, id: Id)
    requires Injective(m) && id in m
    ensures (m - {id}).Values == m.Values - {m[id]}
  {
    forall k | k in m.Values - {m[id]} ensures k in (m - {id}).Values {
      var a :| a in m && m[a] == k;
      assert a in m - {id} && (m - {id})[a] == k;
    }
    forall k | k in (m - {id}).Values ensures k in m.Values - {m[id]} {
      var a :| a in m - {id} && (m - {id})[a] == k;
      assert m[a] == k;
    }
  }

  lemma ValuesWith(m: map<Id, nat>, id: Id, k: nat)
    requires Injective(m)
    ensures m[id := k].Values == (if id in m then m.Values - {m[id]} else m.Values) + {k}
  {
    if id in m {
      ValuesWithout(m, id);
    } else {
      assert m - {id} == m;
    }
    forall v | v in (m - {id}).Values + {k} ensures v in m[id := k].Values {
      if v == k {
        assert m[id := k][id] == k;
      } else {
        var a :| a in m - {id} && (m - {id})[a] == v;
        assert m[id := k][a] == v;
      }
    }
    forall v | v in m[id := k].Values ensures v in (m - {id}).Values + {k} {
      var a :| a in m[id := k] && m[id := k][a] == v;
      if a != id {
        assert a in m - {id} && (m - {id})[a] == v;
      }
    }
  }

  // The slots once a connection was put into slot k, which was empty or the next new one.
  function Filled(slots: Slots, k: nat, c: Conn): Slots
    requires k <= |slots|
  {
    if k < |slots| then slots[k := Some(c)] else slots + [Some(c)]
  }

  lemma LostOfFilled(slots: Slots, named: set<nat>, k: nat, c: Conn, was: Option<nat>)
    requires k <= |slots| && (k < |slots| ==> slots[k] == None) && k !in named
    requires was.Some? ==> was.value < |slots| && was.value in named
    ensures var room := if k < |slots| then Lost(slots, named) else Lost(slots, named) + [None];
            Lost(Filled(slots, k, c), if was.Some? then named - {was.value} + {k} else named + {k})
            == if was.Some? then room[was.value := slots[was.value]] else room
  {}

  lemma LostOfRenamed(slots: Slots, named: set<nat>, was: nat)
    requires was < |slots| && was in named
    ensures Lost(slots, named - {was}) == Lost(slots, named)[was := slots[was]]
  {}

  lemma LostIsNone(slots: Slots, named: set<nat>, k: nat)
    requires k < |slots| && k in named
    ensures |Lost(slots, named)| == |slots| && Lost(slots, named)[k] == None
  {}

  lemma NamesFacts(m: map<Id, nat>, slots: Slots, plain: map<Id, Conn>)
    requires Names(m, slots, plain)
    ensures m.Keys == plain.Keys && Injective(m)
  {}

  lemma NamedSlot(m: map<Id, nat>, n: map<Id, nat>, slots: Slots, plain: map<Id, Conn>, id: Id)
    requires Names(m, slots, plain) && Apart(m, n) && id in m
    ensures m[id] in m.Values && m[id] !in n.Values && m[id] < |slots| && slots[m[id]] == Some(plain[id])
  {
    assert forall b | b in n :: n[b] != m[id];
  }

  lemma UnnamedSlot(m: map<Id, nat>, slots: Slots, plain: map<Id, Conn>, k: nat)
    requires Names(m, slots, plain) && (k >= |slots| || slots[k] == None)
    ensures k !in m.Values
  {
    EmptySlotIsUnnamed(m, slots, plain, k);
  }

  // Putting a connection under an id orphans what the id named before.
  lemma FillOrphans(slots: Slots, m: map<Id, nat>, n: map<Id, nat>, free: seq<nat>,
                    active: map<Id, Conn>, inactive: map<Id, Conn>, id: Id, k: nat, c: Conn)
    requires SlotsOk(slots, m, n, free, active, inactive)
    requires k <= |slots| && (k < |slots| ==> slots[k] == None)
    ensures Bag(Lost(Filled(slots, k, c), m[id := k].Values + n.Values))
         == Bag(Lost(slots, m.Values + n.Values)) + Overwritten(active, id)
  {
    hide Names, Apart, FreeList, Lost, Bag;
    UnnamedSlot(m, slots, active, k);
    UnnamedSlot(n, slots, inactive, k);
    NamesFacts(m, slots, active);
    ValuesWith(m, id, k);
    var named := m.Values + n.Values;
    var before := Lost(slots, named);
    var room := if k < |slots| then before else before + [None];
    BagAppendNone(before);
    if id in m {
      NamedSlot(m, n, slots, active, id);
      LostOfFilled(slots, named, k, c, Some(m[id]));
      assert m[id := k].Values + n.Values == named - {m[id]} + {k};
      LostIsNone(slots, named, m[id]);
      BagUpdate(room, m[id], slots[m[id]]);
    } else {
      LostOfFilled(slots, named, k, c, None);
      assert m[id := k].Values + n.Values == named + {k};
    }
  }

  lemma FillLeaks(slots: Slots, free: seq<nat>, c: Conn)
    requires FreeList(free, slots)
    ensures LeakedSlots(slots + [Some(c)], free) == LeakedSlots(slots, free)
    ensures free != [] ==> free[0] in free
    ensures free != [] ==> LeakedSlots(slots[free[0] := Some(c)], free[1..]) == LeakedSlots(slots, free)
  {
    if free != [] {
      assert forall k :: k in free <==> k == free[0] || k in free[1..];
    }
  }

  // Emptying a named slot and forgetting its name orphans nothing.
  lemma EmptyOrphans(slots: Slots, m: map<Id, nat>, n: map<Id, nat>, free: seq<nat>,
                     active: map<Id, Conn>, inactive: map<Id, Conn>, id: Id)
    requires SlotsOk(slots, m, n, free, active, inactive) && id in m
    ensures m[id] < |slots| && slots[m[id]] == Some(active[id])
    ensures Lost(slots[m[id] := None], (m - {id}).Values + n.Values) == Lost(slots, m.Values + n.Values)
  {
    hide Names, Apart, FreeList;
    NamesFacts(m, slots, active);
    NamedSlot(m, n, slots, active, id);
    ValuesWithout(m, id);
  }

  lemma EmptyLeaks(slots: Slots, free: seq<nat>, k: nat)
    requires FreeList(free, slots) && k < |slots| && slots[k] != None
    ensures LeakedSlots(slots[k := None], free) == LeakedSlots(slots, free) + {k}
    ensures LeakedSlots(slots[k := None], free + [k]) == LeakedSlots(slots, free)
    ensures k !in LeakedSlots(slots, free)
  {}

  lemma ApartIsSymmetric(m: map<Id, nat>, n: map<Id, nat>)
    requires Apart(m, n)
    ensures Apart(n, m)
  {}

  // Passing a slot from one map to the other orphans what the id named there.
  lemma PassOrphans(slots: Slots, m: map<Id, nat>, n: map<Id, nat>, free: seq<nat>,
                    active: map<Id, Conn>, inactive: map<Id, Conn>, id: Id)
    requires SlotsOk(slots, m, n, free, active, inactive) && id in m
    ensures Bag(Lost(slots, (m - {id}).Values + n[id := m[id]].Values))
         == Bag(Lost(slots, m.Values + n.Values)) + Overwritten(inactive, id)
  {
    hide Names, Apart, FreeList, Lost, Bag;
    NamesFacts(m, slots, active);
    NamesFacts(n, slots, inactive);
    NamedSlot(m, n, slots, active, id);
    ValuesWithout(m, id);
    ValuesWith(n, id, m[id]);
    var named := m.Values + n.Values;
    if id in n {
      ApartIsSymmetric(m, n);
      NamedSlot(n, m, slots, inactive, id);
      LostOfRenamed(slots, named, n[id]);
      LostIsNone(slots, named, n[id]);
      assert (m - {id}).Values + n[id := m[id]].Values == named - {n[id]};
      BagUpdate(Lost(slots, named), n[id], slots[n[id]]);
    } else {
      assert (m - {id}).Values + n[id := m[id]].Values == named;
    }
  }

  // The slots, their names and their accounts together.
  ghost predicate StoreOk(slots: Slots, m: map<Id, nat>, n: map<Id, nat>, free: seq<nat>,
                          active: map<Id, Conn>, inactive: map<Id, Conn>, orphaned: multiset<Conn>, leaked: set<nat>)
  {
    && SlotsOk(slots, m, n, free, active, inactive)
    && Accounts(slots, m, n, free, orphaned, leaked)
  }

  lemma StoreKeys(slots: Slots, m: map<Id, nat>, n: map<Id, nat>, free: seq<nat>,
                  active: map<Id, Conn>, inactive: map<Id, Conn>, orphaned: multiset<Conn>, leaked: set<nat>)
    requires StoreOk(slots, m, n, free, active, inactive, orphaned, leaked)
    ensures m.Keys == active.Keys && n.Keys == inactive.Keys
  {}

  lemma OccupyNew(slots: Slots, m: map<Id, nat>, n: map<Id, nat>, free: seq<nat>, active: map<Id, Conn>,
                  inactive: map<Id, Conn>, orphaned: multiset<Conn>, leaked: set<nat>, id: Id, c: Conn)
    requires StoreOk(slots, m, n, free, active, inactive, orphaned, leaked)
    ensures StoreOk(slots + [Some(c)], m[id := |slots|], n, free, active[id := c], inactive,
                    orphaned + Overwritten(active, id), leaked)
  {
    hide Names, Apart, FreeList, Lost, Bag, LeakedSlots;
    OccupyKeepsSlots(slots, m, n, free, active, inactive, id, c);
    FillLeaks(slots, free, c);
    FillOrphans(slots, m, n, free, active, inactive, id, |slots|, c);
  }

  lemma OccupyFree(slots: Slots, m: map<Id, nat>, n: map<Id, nat>, free: seq<nat>, active: map<Id, Conn>,
                   inactive: map<Id, Conn>, orphaned: multiset<Conn>, leaked: set<nat>, id: Id, c: Conn)
    requires StoreOk(slots, m, n, free, active, inactive, orphaned, leaked) && free != []
    ensures free[0] < |slots|
    ensures StoreOk(slots[free[0] := Some(c)], m[id := free[0]], n, free[1..], active[id := c], inactive,
                    orphaned + Overwritten(active, id), leaked)
  {
    hide Names, Apart, Lost, Bag, LeakedSlots;
    OccupyKeepsSlots(slots, m, n, free, active, inactive, id, c);
    FillLeaks(slots, free, c);
    FillOrphans(slots, m, n, free, active, inactive, id, free[0], c);
  }

  lemma Vacate(slots: Slots, m: map<Id, nat>, n: map<Id, nat>, free: seq<nat>, active: map<Id, Conn>,
               inactive: map<Id, Conn>, orphaned: multiset<Conn>, leaked: set<nat>, id: Id)
    requires StoreOk(slots, m, n, free, active, inactive, orphaned, leaked) && id in m
    ensures id in active && m[id] < |slots| && slots[m[id]] == Some(active[id]) && m[id] !in leaked
    ensures StoreOk(slots[m[id] := None], m - {id}, n, free + [m[id]], active - {id}, inactive, orphaned, leaked)
    ensures StoreOk(slots[m[id] := None], m - {id}, n, free, active - {id}, inactive, orphaned, leaked + {m[id]})
    ensures leaked + {m[id]} + (m - {id}).Values == leaked + m.Values && |leaked + {m[id]}| == |leaked| + 1
  {
    hide Names, Apart, Lost, Bag, LeakedSlots;
    NamesFacts(m, slots, active);
    NamedSlot(m, n, slots, active, id);
    ValuesWithout(m, id);
    EmptyOrphans(slots, m, n, free, active, inactive, id);
    EmptyLeaks(slots, free, m[id]);
    VacateKeepsSlots(slots, m, n, free, active, inactive, id);
    LeakKeepsSlots(slots, m, n, free, active, inactive, id);
  }

  lemma StoreIsSymmetric(slots: Slots, m: map<Id, nat>, n: map<Id, nat>, free: seq<nat>, active: map<Id, Conn>,
                         inactive: map<Id, Conn>, orphaned: multiset<Conn>, leaked: set<nat>)
    requires StoreOk(slots, m, n, free, active, inactive, orphaned, leaked)
    ensures StoreOk(slots, n, m, free, inactive, active, orphaned, leaked)
  {
    SlotsAreSymmetric(slots, m, n, free, active, inactive);
    assert m.Values + n.Values == n.Values + m.Values;
  }

  lemma Pass(slots: Slots, m: map<Id, nat>, n: map<Id, nat>, free: seq<nat>, active: map<Id, Conn>,
             inactive: map<Id, Conn>, orphaned: multiset<Conn>, leaked: set<nat>, id: Id)
    requires StoreOk(slots, m, n, free, active, inactive, orphaned, leaked) && id in m
    ensures id in active
    ensures StoreOk(slots, m - {id}, n[id := m[id]], free, active - {id}, inactive[id := active[id]],
                    orphaned + Overwritten(inactive, id), leaked)
  {
    hide Names, Apart, FreeList, Lost, Bag, LeakedSlots;
    NamesFacts(m, slots, active);
    PassOrphans(slots, m, n, free, active, inactive, id);
    DeactivateKeepsSlots(slots, m, n, free, active, inactive, id);
  }

  // What UCX does while a connection is torn down: what it completes inside the cancels and in the
  // rounds of progress, and whether it is still closing the endpoint afterwards.
  datatype Teardown = Teardown(now: map<L.ReqId, int>, rounds: seq<seq<(L.ReqId, int)>>, inProgress: bool)

  function Elements(q: seq<Conn>): set<Conn> {
    set c | c in q
  }

  // The first n of these connections have been torn down, and the others can be.
  ghost predicate HandlesUpTo(w: L.Worker, all: seq<Conn>, n: nat, endpoints: set<Conn>, closing: set<Conn>)
    reads w
    requires n <= |all|
  {
    && w.endpoints == endpoints - Elements(all[..n]) && w.closing <= closing + Elements(all[..n])
    && (forall c | c in all :: c in w.lists && (c in endpoints ==> c !in closing))
    && (forall c | c in all[..n] :: w.lists[c] == [])
  }

  lemma HandlesNone(w: L.Worker, all: seq<Conn>)
    requires forall c | c in all :: c in w.lists && (c in w.endpoints ==> c !in w.closing)
    ensures HandlesUpTo(w, all, 0, w.endpoints, w.closing)
  {}

  lemma HandledAll(w: L.Worker, all: seq<Conn>, endpoints: set<Conn>, closing: set<Conn>)
    requires HandlesUpTo(w, all, |all|, endpoints, closing)
    ensures forall c | c in all :: c in w.lists && w.lists[c] == [] && c !in w.endpoints
    ensures w.endpoints == endpoints - Elements(all)
  {
    assert all[..|all|] == all;
  }

  // Tears the next connection down, which disturbs none of the others.
  method TearDown(conn: Conn, w: L.Worker, t: Teardown, ghost all: seq<Conn>, ghost n: nat,
                  ghost endpoints: set<Conn>, ghost closing: set<Conn>)
    requires w.Valid() && |t.rounds| == 100 && n < |all| && conn == all[n]
    requires HandlesUpTo(w, all, n, endpoints, closing)
    modifies w
    ensures w.Valid() && HandlesUpTo(w, all, n + 1, endpoints, closing)
  {
    hide L.ListsExact, L.TornDown;
    assert conn in all;
    ghost var start := w.State();
    ghost var completed := w.DisconnectDirect(conn, t.now, t.rounds, t.inProgress);
    forall d | d in start.lists ensures d in w.lists && |w.lists[d]| <= |start.lists[d]| {
      L.TeardownSparesOthers(start, conn, completed, t.inProgress, d);
    }
    L.TeardownSparesOthers(start, conn, completed, t.inProgress, conn);
    assert Elements(all[..n + 1]) == Elements(all[..n]) + {conn};
  }

  // The queued connections whose teardown is complete.
  function Finished(w: L.World, queue: seq<Conn>, closing: set<Conn>): set<Conn>
    requires forall c | c in queue :: c in w.lists
  {
    set c | c in queue && L.Done(w, c, c in closing)
  }

  /** A sweep finds done exactly the queued connections that no request in progress belongs to and whose
      endpoint UCX is not still closing. */
  lemma FinishedIff(w: L.World, queue: seq<Conn>, closing: set<Conn>, c: Conn)
    requires L.ListsExact(w) && forall q | q in queue :: q in w.lists
    ensures c in Finished(w, queue, closing) <==>
            && c in queue && (forall r | r in w.requests :: w.requests[r].conn != Some(c))
            && !(c in w.closing && c in closing)
  {
    hide L.ListsExact, L.Done;
    if c in queue {
      L.DoneIffIdle(w, c, c in closing);
    }
  }

  // The worker once the close requests of these connections have been handed back.
  function Settled(w: L.World, done: set<Conn>): L.World {
    w.(closing := w.closing - done)
  }

  // The sweep has passed the first n of the queue and stands at position it of what is left.
  ghost predicate Sweeping(queue: seq<Conn>, done: set<Conn>, n: nat, it: nat, rest: seq<Conn>, gone: multiset<Conn>) {
    n <= |queue| && it == |Kept(queue[..n], done)| && rest == Kept(queue[..n], done) + queue[n..]
    && gone == Gone(queue[..n], done)
  }

  lemma SweepStep(queue: seq<Conn>, done: set<Conn>, n: nat, it: nat, rest: seq<Conn>, gone: multiset<Conn>)
    requires Sweeping(queue, done, n, it, rest, gone) && it < |rest|
    ensures n < |queue| && rest[it] == queue[n]
    ensures queue[n] in done ==>
              Sweeping(queue, done, n + 1, it, rest[..it] + rest[it + 1..], gone + multiset{queue[n]})
    ensures queue[n] !in done ==> Sweeping(queue, done, n + 1, it + 1, rest, gone)
  {
    assert queue[..n + 1][..n] == queue[..n];
    var kept := Kept(queue[..n], done);
    assert rest[it] == queue[n];
    assert rest == kept + [queue[n]] + queue[n + 1..];
    assert rest[..it] + rest[it + 1..] == kept + queue[n + 1..];
  }

  // The worker after the sweep has passed the first n of the queue.
  ghost function SettledSoFar(w: L.World, queue: seq<Conn>, closing: set<Conn>, n: nat): L.World
    requires (forall c | c in queue :: c in w.lists) && n <= |queue|
  {
    Settled(w, Finished(w, queue, closing) * Elements(queue[..n]))
  }

  lemma SettledStep(start: L.World, queue: seq<Conn>, closing: set<Conn>, n: nat)
    requires (forall c | c in queue :: c in start.lists) && n < |queue|
    ensures queue[n] in Finished(start, queue, closing) <==>
            L.Done(SettledSoFar(start, queue, closing, n), queue[n], queue[n] in closing)
    ensures L.Polled(SettledSoFar(start, queue, closing, n), queue[n], queue[n] in closing)
         == SettledSoFar(start, queue, closing, n + 1)
  {
    var done, c := Finished(start, queue, closing), queue[n];
    var w := SettledSoFar(start, queue, closing, n);
    assert Elements(queue[..n + 1]) == Elements(queue[..n]) + {c};
    assert c in done <==> L.Done(w, c, c in closing);
    assert done * Elements(queue[..n + 1]) == done * Elements(queue[..n]) + if c in done then {c} else {};
  }

  lemma SweepEnds(start: L.World, queue: seq<Conn>, closing: set<Conn>, n: nat, it: nat, rest: seq<Conn>, gone: multiset<Conn>)
    requires (forall c | c in queue :: c in start.lists) && it >= |rest|
    requires Sweeping(queue, Finished(start, queue, closing), n, it, rest, gone)
    ensures rest == Kept(queue, Finished(start, queue, closing)) && gone == Gone(queue, Finished(start, queue, closing))
    ensures SettledSoFar(start, queue, closing, n) == Settled(start, Finished(start, queue, closing))
  {
    assert queue[..n] == queue;
    var done := Finished(start, queue, closing);
    assert done * Elements(queue) == done;
  }

  function DispatchedFirst(g: Registry, replacements: map<Conn, (Id, Conn)>): Registry
    requires g.failed != []
  {
    var c, g1 := g.failed[0], HandedOut(g);
    HandedBack(if c in replacements then Added(g1, replacements[c].0, replacements[c].1) else g1, c)
  }

  function Dispatched(g: Registry, replacements: map<Conn, (Id, Conn)>): Registry
    decreases |g.failed|
  {
    if g.failed == [] then g else Dispatched(DispatchedFirst(g, replacements), replacements)
  }

  lemma DispatchStep(g: Registry, replacements: map<Conn, (Id, Conn)>)
    requires g.failed != []
    ensures Dispatched(DispatchedFirst(g, replacements), replacements) == Dispatched(g, replacements)
    ensures DispatchedFirst(g, replacements).failed == g.failed[1..]
    ensures DispatchedFirst(g, replacements).disconnecting == g.disconnecting + [g.failed[0]]
    ensures DispatchedFirst(g, replacements).handedOut == g.handedOut
  {
    assert g.handedOut + multiset{g.failed[0]} - multiset{g.failed[0]} == g.handedOut;
  }

  lemma DispatchEnds(g: Registry, replacements: map<Conn, (Id, Conn)>)
    requires g.failed == []
    ensures Dispatched(g, replacements) == g
  {}

  function MovedFirst(g: Registry): Registry
    requires g.active.Keys != {}
  {
    var id := Least(g.active.Keys);
    g.(active := g.active - {id}, disconnecting := g.disconnecting + [g.active[id]], leaked := g.leaked + 1)
  }

  lemma NoneLeftToMove(g: Registry)
    requires g.active.Keys == {}
    ensures AllMoved(g) == g
  {
    assert g.active == map[];
  }

  lemma MovedFirstStep(g: Registry)
    requires g.active.Keys != {}
    ensures AllMoved(MovedFirst(g)) == AllMoved(g)
    ensures |MovedFirst(g).active.Keys| < |g.active.Keys|
  {
    var id := Least(g.active.Keys);
    assert MovedFirst(g).active.Keys == g.active.Keys - {id};
    assert |g.active.Keys - {id}| == |g.active.Keys| - 1;
  }

  class ConnectionManager {
    var connections: Slots
    var failedConns: seq<Conn>
    var disconnectingConns: seq<Conn>
    var activeMap: map<Id, nat>
    var inactiveMap: map<Id, nat>
    var freeSlots: seq<nat>
    ghost var active: map<Id, Conn>
    ghost var inactive: map<Id, Conn>
    ghost var orphaned: multiset<Conn>
    ghost var destroyed: multiset<Conn>
    ghost var handedOut: multiset<Conn>
    ghost var leaked: set<nat>

    ghost predicate Valid()
      reads this
    {
      StoreOk(connections, activeMap, inactiveMap, freeSlots, active, inactive, orphaned, leaked)
    }

    ghost function View(): Registry
      reads this
    {
      Registry(active, inactive, failedConns, disconnectingConns, orphaned, destroyed, handedOut, |leaked|)
    }

    constructor ()
      ensures Valid() && View() == EMPTY
    {
      connections, failedConns, disconnectingConns, freeSlots := [], [], [], [];
      activeMap, inactiveMap, active, inactive := map[], map[], map[], map[];
      orphaned, destroyed, handedOut, leaked := multiset{}, multiset{}, multiset{}, {};
    }

    // Puts the connection into a free slot, or into a new one, under the id.
    method Occupy(id: Id, conn: Conn)
      requires Valid()
      modifies this`connections, this`freeSlots, this`activeMap, this`active, this`orphaned
      ensures Valid() && active == old(active)[id := conn] && orphaned == old(orphaned) + old(Overwritten(active, id))
    {
      hide StoreOk;
      if freeSlots == [] {
        OccupyNew(connections, activeMap, inactiveMap, freeSlots, active, inactive, orphaned, leaked, id, conn);
        activeMap := activeMap[id := |connections|];
        connections := connections + [Some(conn)];
      } else {
        OccupyFree(connections, activeMap, inactiveMap, freeSlots, active, inactive, orphaned, leaked, id, conn);
        var slot := freeSlots[0];
        freeSlots := freeSlots[1..];
        connections := connections[slot := Some(conn)];
        activeMap := activeMap[id := slot];
      }
      orphaned := orphaned + Overwritten(active, id);
      active := active[id := conn];
    }

    method AddConnection(id: Id, conn: Conn) returns (r: Id)
      requires Valid()
      modifies this`connections, this`freeSlots, this`activeMap, this`active, this`orphaned
      ensures Valid() && View() == Added(old(View()), id, conn) && r == id
    {
      Occupy(id, conn);
      r := id;
    }

    // Takes an active connection out of its slot, which becomes free.
    method TakeActive(id: Id) returns (conn: Conn)
      requires Valid() && id in active
      modifies this`connections, this`activeMap, this`freeSlots, this`active
      ensures Valid() && conn == old(active[id]) && active == old(active) - {id}
    {
      hide StoreOk;
      StoreKeys(connections, activeMap, inactiveMap, freeSlots, active, inactive, orphaned, leaked);
      Vacate(connections, activeMap, inactiveMap, freeSlots, active, inactive, orphaned, leaked, id);
      var slot := activeMap[id];
      conn := connections[slot].value;
      activeMap := activeMap - {id};
      connections := connections[slot := None];
      freeSlots := freeSlots + [slot];
      active := active - {id};
    }

    method RemoveConnection(id: Id)
      requires Valid()
      modifies this`connections, this`freeSlots, this`activeMap, this`active, this`destroyed
      ensures Valid() && View() == Removed(old(View()), id)
    {
      hide StoreOk;
      StoreKeys(connections, activeMap, inactiveMap, freeSlots, active, inactive, orphaned, leaked);
      if id in activeMap {
        var conn := TakeActive(id);
        destroyed := destroyed + multiset{conn};
      } else {
        assert active - {id} == active;
      }
    }

    // The connection keeps its slot, under the other map.
    method MoveToInactive(id: Id)
      requires Valid() && id in active
      modifies this`activeMap, this`inactiveMap, this`active, this`inactive, this`orphaned
      ensures Valid() && active == old(active) - {id} && inactive == old(inactive)[id := old(active[id])]
      ensures orphaned == old(orphaned) + old(Overwritten(inactive, id))
    {
      hide StoreOk;
      StoreKeys(connections, activeMap, inactiveMap, freeSlots, active, inactive, orphaned, leaked);
      Pass(connections, activeMap, inactiveMap, freeSlots, active, inactive, orphaned, leaked, id);
      orphaned := orphaned + Overwritten(inactive, id);
      var slot := activeMap[id];
      activeMap := activeMap - {id};
      inactiveMap := inactiveMap[id := slot];
      inactive := inactive[id := active[id]];
      active := active - {id};
    }

    method RemoveConnectionToInactiveMap(id: Id)
      requires Valid()
      modifies this`activeMap, this`inactiveMap, this`active, this`inactive, this`orphaned
      ensures Valid() && View() == Deactivated(old(View()), id)
    {
      hide StoreOk;
      StoreKeys(connections, activeMap, inactiveMap, freeSlots, active, inactive, orphaned, leaked);
      if id in activeMap {
        MoveToInactive(id);
      }
    }

    method TakeInactive(id: Id) returns (conn: Conn)
      requires Valid() && id in inactive
      modifies this`connections, this`inactiveMap, this`freeSlots, this`inactive
      ensures Valid() && conn == old(inactive[id]) && inactive == old(inactive) - {id}
    {
      hide StoreOk;
      StoreKeys(connections, activeMap, inactiveMap, freeSlots, active, inactive, orphaned, leaked);
      StoreIsSymmetric(connections, activeMap, inactiveMap, freeSlots, active, inactive, orphaned, leaked);
      Vacate(connections, inactiveMap, activeMap, freeSlots, inactive, active, orphaned, leaked, id);
      var slot := inactiveMap[id];
      conn := connections[slot].value;
      inactiveMap := inactiveMap - {id};
      connections := connections[slot := None];
      freeSlots := freeSlots + [slot];
      inactive := inactive - {id};
      StoreIsSymmetric(connections, inactiveMap, activeMap, freeSlots, inactive, active, orphaned, leaked);
    }

    method PushBack(conn: Conn, target: Target)
      modifies this`failedConns, this`disconnectingConns
      ensures View() == Enqueued(old(View()), conn, target)
      ensures failedConns == old(failedConns) + if target == Failed then [conn] else []
      ensures disconnectingConns == old(disconnectingConns) + if target == Disconnecting then [conn] else []
    {
      if target.Failed? {
        failedConns := failedConns + [conn];
      } else {
        disconnectingConns := disconnectingConns + [conn];
      }
    }

    // From either map to either queue.
    method RemoveConnectionToContainer(id: Id, source: Source, target: Target)
      requires Valid()
      modifies this`connections, this`freeSlots, this`activeMap, this`inactiveMap, this`active, this`inactive
      modifies this`failedConns, this`disconnectingConns
      ensures Valid() && View() == Moved(old(View()), id, source, target)
      ensures id in old(Map(View(), source)) && target == Failed ==>
                failedConns == old(failedConns) + [old(Map(View(), source)[id])] && disconnectingConns == old(disconnectingConns)
      ensures id in old(Map(View(), source)) && target == Disconnecting ==>
                disconnectingConns == old(disconnectingConns) + [old(Map(View(), source)[id])] && failedConns == old(failedConns)
    {
      hide StoreOk, Enqueued;
      StoreKeys(connections, activeMap, inactiveMap, freeSlots, active, inactive, orphaned, leaked);
      if source.Active? && id in activeMap {
        var conn := TakeActive(id);
        PushBack(conn, target);
      } else if source.Inactive? && id in inactiveMap {
        var conn := TakeInactive(id);
        PushBack(conn, target);
      }
    }

    method IsConnectionValid(id: Id) returns (valid: bool)
      requires Valid()
      ensures valid == (id in View().active)
    {
      valid := id in activeMap;
    }

    method GetConnection(id: Id) returns (conn: Option<Conn>)
      requires Valid()
      ensures conn == if id in View().active then Some(View().active[id]) else None
    {
      conn := if id in activeMap then connections[activeMap[id]] else None;
    }

    // Takes an active connection out of its slot, which is left empty and is not freed.
    method TakeAndLeak(id: Id) returns (conn: Conn)
      requires Valid() && id in active
      modifies this`connections, this`activeMap, this`active, this`leaked
      ensures Valid() && conn == old(active[id]) && active == old(active) - {id}
      ensures |leaked| == old(|leaked|) + 1 && leaked + activeMap.Values == old(leaked + activeMap.Values)
    {
      hide StoreOk;
      StoreKeys(connections, activeMap, inactiveMap, freeSlots, active, inactive, orphaned, leaked);
      Vacate(connections, activeMap, inactiveMap, freeSlots, active, inactive, orphaned, leaked, id);
      var slot := activeMap[id];
      conn := connections[slot].value;
      connections := connections[slot := None];
      activeMap := activeMap - {id};
      leaked := leaked + {slot};
      active := active - {id};
    }

    method MoveFirst()
      requires Valid() && active.Keys != {}
      modifies this`connections, this`activeMap, this`disconnectingConns, this`active, this`leaked
      ensures Valid() && View() == MovedFirst(old(View()))
      ensures leaked + activeMap.Values == old(leaked + activeMap.Values)
    {
      hide StoreOk;
      StoreKeys(connections, activeMap, inactiveMap, freeSlots, active, inactive, orphaned, leaked);
      var conn := TakeAndLeak(Least(activeMap.Keys));
      disconnectingConns := disconnectingConns + [conn];
    }

    // The slots of the moved connections are all leaked.
    method RemoveActiveConnectionsToDisconnectingQueue()
      requires Valid()
      modifies this`connections, this`activeMap, this`disconnectingConns, this`active, this`leaked
      ensures Valid() && View() == AllMoved(old(View()))
      ensures leaked == old(leaked) + old(activeMap.Values)
    {
      hide StoreOk, AllMoved, MovedFirst, InIdOrder;
      StoreKeys(connections, activeMap, inactiveMap, freeSlots, active, inactive, orphaned, leaked);
      ghost var g := View();
      while activeMap.Keys != {}
        invariant Valid() && activeMap.Keys == active.Keys && AllMoved(View()) == AllMoved(g)
        invariant leaked + activeMap.Values == old(leaked + activeMap.Values)
        decreases |active.Keys|
      {
        MovedFirstStep(View());
        MoveFirst();
        StoreKeys(connections, activeMap, inactiveMap, freeSlots, active, inactive, orphaned, leaked);
      }
      NoneLeftToMove(View());
      assert activeMap.Values == {};
    }

    // Destroys, in order, the queued connections that have nothing outstanding.  closing: those whose
    // endpoint UCX is still closing.
    method SweepQueue(queue: seq<Conn>, w: L.Worker, closing: set<Conn>) returns (rest: seq<Conn>)
      requires w.Valid() && forall c | c in queue :: c in w.lists
      modifies w, this`destroyed
      ensures w.Valid() && rest == Kept(queue, old(Finished(w.State(), queue, closing)))
      ensures destroyed == old(destroyed) + Gone(queue, old(Finished(w.State(), queue, closing)))
      ensures w.State() == old(Settled(w.State(), Finished(w.State(), queue, closing)))
    {
      ghost var start := w.State();
      ghost var done := Finished(start, queue, closing);
      ghost var n := 0;
      ghost var gone := multiset{};
      var it := 0;
      rest := queue;
      while it < |rest|
        invariant n <= |queue| && Sweeping(queue, done, n, it, rest, gone)
        invariant destroyed == old(destroyed) + gone
        invariant w.Valid() && w.State() == SettledSoFar(start, queue, closing, n)
        decreases |queue| - n
      {
        var conn := rest[it];
        SweepStep(queue, done, n, it, rest, gone);
        SettledStep(start, queue, closing, n);
        var finished := w.DisconnectProgress(conn, conn in closing);
        if finished {
          rest := rest[..it] + rest[it + 1..];
          destroyed := destroyed + multiset{conn};
          gone := gone + multiset{conn};
        } else {
          it := it + 1;
        }
        n := n + 1;
      }
      SweepEnds(start, queue, closing, n, it, rest, gone);
    }

    method RemoveFailedConnections(w: L.Worker, closing: set<Conn>)
      requires Valid() && w.Valid() && forall c | c in failedConns :: c in w.lists
      modifies this`failedConns, this`destroyed, w
      ensures Valid() && w.Valid()
      ensures View() == old(Swept(View(), Failed, Finished(w.State(), failedConns, closing)))
      ensures w.State() == old(Settled(w.State(), Finished(w.State(), failedConns, closing)))
    {
      failedConns := SweepQueue(failedConns, w, closing);
    }

    method RemoveDisconnectedConnections(w: L.Worker, closing: set<Conn>)
      requires Valid() && w.Valid() && forall c | c in disconnectingConns :: c in w.lists
      modifies this`disconnectingConns, this`destroyed, w
      ensures Valid() && w.Valid()
      ensures View() == old(Swept(View(), Disconnecting, Finished(w.State(), disconnectingConns, closing)))
      ensures w.State() == old(Settled(w.State(), Finished(w.State(), disconnectingConns, closing)))
    {
      disconnectingConns := SweepQueue(disconnectingConns, w, closing);
    }

    // The error handler takes the first failed connection out of the manager.
    method TakeFailed() returns (conn: Conn)
      requires Valid() && failedConns != []
      modifies this`failedConns, this`handedOut
      ensures Valid() && View() == HandedOut(old(View())) && conn == old(failedConns[0])
    {
      conn := failedConns[0];
      failedConns := failedConns[1..];
      handedOut := handedOut + multiset{conn};
    }

    method AddConnectionToDisconnectingQueue(conn: Conn)
      requires Valid()
      modifies this`disconnectingConns, this`handedOut
      ensures Valid() && View() == HandedBack(old(View()), conn)
    {
      disconnectingConns := disconnectingConns + [conn];
      handedOut := handedOut - multiset{conn};
    }

    // One round of the error handler: take the first failed connection, add its replacement if there
    // is one, and hand it to the disconnecting queue.
    method DispatchFirst(replacements: map<Conn, (Id, Conn)>) returns (conn: Conn)
      requires Valid() && failedConns != []
      modifies this`connections, this`freeSlots, this`activeMap, this`active, this`orphaned
      modifies this`failedConns, this`disconnectingConns, this`handedOut
      ensures Valid() && View() == DispatchedFirst(old(View()), replacements) && conn == old(failedConns[0])
    {
      hide StoreOk;
      conn := TakeFailed();
      if conn in replacements {
        var id := AddConnection(replacements[conn].0, replacements[conn].1);
      }
      AddConnectionToDisconnectingQueue(conn);
    }

    // The error handler's loop.  replacements: the new connection for each one that is reconnected.
    // teardowns: what UCX does while each one is torn down.
    method DispatchConnectionErrors(replacements: map<Conn, (Id, Conn)>, w: L.Worker, teardowns: Conn -> Teardown)
      requires Valid() && w.Valid() && forall c :: |teardowns(c).rounds| == 100
      requires forall c | c in failedConns :: c in w.lists && (c in w.endpoints ==> c !in w.closing)
      modifies this`connections, this`freeSlots, this`activeMap, this`active, this`orphaned
      modifies this`failedConns, this`disconnectingConns, this`handedOut, w
      ensures Valid() && View() == Dispatched(old(View()), replacements)
      ensures w.Valid() && forall c | c in old(failedConns) :: c in w.lists && w.lists[c] == [] && c !in w.endpoints
      ensures w.endpoints == old(w.endpoints) - Elements(old(failedConns))
    {
      hide StoreOk, HandlesUpTo, Dispatched, DispatchedFirst, L.ListsExact;
      ghost var all, n := failedConns, 0;
      HandlesNone(w, all);
      while failedConns != []
        invariant Valid() && Dispatched(View(), replacements) == Dispatched(old(View()), replacements)
        invariant n <= |all| && failedConns == all[n..]
        invariant w.Valid() && HandlesUpTo(w, all, n, old(w.endpoints), old(w.closing))
        decreases |failedConns|
      {
        DispatchStep(View(), replacements);
        var conn := DispatchFirst(replacements);
        TearDown(conn, w, teardowns(conn), all, n, old(w.endpoints), old(w.closing));
        n := n + 1;
      }
      HandledAll(w, all, old(w.endpoints), old(w.closing));
      DispatchEnds(View(), replacements);
    }
  }

  /** Handling the errors moves every failed connection, in order, to the end of the disconnecting
      queue, and leaves nothing in the handler's hands. */
  lemma {:induction false} DispatchMovesAll(g: Registry, replacements: map<Conn, (Id, Conn)>)
    ensures Dispatched(g, replacements).failed == []
    ensures Dispatched(g, replacements).disconnecting == g.disconnecting + g.failed
    ensures Dispatched(g, replacements).handedOut == g.handedOut
    decreases |g.failed|
  {
    hide Dispatched, DispatchedFirst;
    if g.failed == [] {
      DispatchEnds(g, replacements);
    } else {
      DispatchStep(g, replacements);
      DispatchMovesAll(DispatchedFirst(g, replacements), replacements);
      assert g.disconnecting + g.failed == (g.disconnecting + [g.failed[0]]) + g.failed[1..];
    }
  }

  lemma DispatchFirstReplaces(g: Registry, replacements: map<Conn, (Id, Conn)>)
    requires g.failed != []
    ensures DispatchedFirst(g, replacements).inactive == g.inactive
    ensures DispatchedFirst(g, replacements).active ==
              if g.failed[0] in replacements then g.active[replacements[g.failed[0]].0 := replacements[g.failed[0]].1]
              else g.active
  {}

  /** An id no replacement takes names what it named before, and nothing becomes inactive or active again. */
  lemma {:induction false} DispatchKeepsOthers(g: Registry, replacements: map<Conn, (Id, Conn)>, id: Id)
    requires forall j | 0 <= j < |g.failed| && g.failed[j] in replacements :: replacements[g.failed[j]].0 != id
    ensures var g' := Dispatched(g, replacements);
            && g'.inactive == g.inactive && (id in g'.active <==> id in g.active)
            && (id in g.active ==> g'.active[id] == g.active[id])
    decreases |g.failed|
  {
    hide Dispatched, DispatchedFirst;
    if g.failed == [] {
      DispatchEnds(g, replacements);
    } else {
      DispatchStep(g, replacements);
      DispatchFirstReplaces(g, replacements);
      DispatchKeepsOthers(DispatchedFirst(g, replacements), replacements, id);
    }
  }

  /** After handling the errors the id of each replacement names the new connection, unless a later one
      took the same id. */
  lemma {:induction false} DispatchAddsReplacements(g: Registry, replacements: map<Conn, (Id, Conn)>, i: nat)
    requires i < |g.failed| && g.failed[i] in replacements
    requires forall j | i < j < |g.failed| && g.failed[j] in replacements ::
               replacements[g.failed[j]].0 != replacements[g.failed[i]].0
    ensures var (id, conn) := replacements[g.failed[i]]; var g' := Dispatched(g, replacements);
            id in g'.active && g'.active[id] == conn
    decreases |g.failed|
  {
    hide Dispatched, DispatchedFirst;
    DispatchStep(g, replacements);
    DispatchFirstReplaces(g, replacements);
    var g1 := DispatchedFirst(g, replacements);
    if i > 0 {
      DispatchAddsReplacements(g1, replacements, i - 1);
    } else {
      DispatchKeepsOthers(g1, replacements, replacements[g.failed[0]].0);
    }
  }
}
