/**
 A Michael-Scott queue as a transition system: shared nodes, a head pointer, a
 tail pointer and one program counter a thread.  One step is one atomic load or
 compare-and-swap of one thread; a weak compare-and-swap may fail for no reason.
 Nodes are identified by their position in `nodes`, so an identity is never reused.
 */
module LockFreeQueue {
  import opened Options
  import opened Sequences

  type NodeId = nat

  datatype Node<+T> = Node(data: T, next: Option<NodeId>)

  // Where a thread stands; the fields are the local variables still needed.
  datatype Pc =
    | Idle
    | PushLoadTail(node: NodeId)
    | PushLoadNext(node: NodeId, tail: NodeId)
    | PushCheckTail(node: NodeId, tail: NodeId, next: Option<NodeId>)
    | PushCasNext(node: NodeId, tail: NodeId)
    | PushHelp(node: NodeId, tail: NodeId, ahead: NodeId)
    | PushSwing(node: NodeId, tail: NodeId)
    | PopLoadHead
    | PopLoadTail(head: NodeId)
    | PopLoadNext(head: NodeId, tail: NodeId)
    | PopCheckHead(head: NodeId, tail: NodeId, next: Option<NodeId>)
    | PopHelp(tail: NodeId, ahead: NodeId)
    | PopCasHead(head: NodeId, next: Option<NodeId>)
    | PopTake(next: Option<NodeId>)
    | EmptyLoadHead
    | EmptyLoadTail(head: NodeId)
    | EmptyLoadNext(head: NodeId, tail: NodeId)

  datatype State<+T> = State(nodes: seq<Node<T>>, head: NodeId, tail: NodeId, pcs: seq<Pc>)

  datatype Call<+T> = Push(value: T) | Pop | Empty

  datatype Outcome<+T> = Pushed | Popped(value: T) | PopFailed | Emptiness(empty: bool)

  // What a step shows: a call begins or returns, a node is linked behind the last
  // one, the front is unlinked, a null or wild pointer is dereferenced, or nothing.
  datatype Event<+T> = Tau | Invoke | Link | Unlink | Return(outcome: Outcome<T>) | Fault

  // The scheduler's choice: which thread moves, which call it makes if it is idle,
  // and whether a weak compare-and-swap fails spuriously.
  datatype Action<+T> = Action(thread: nat, call: Call<T>, spurious: bool)

  function Init<T>(zero: T, threads: nat): State<T> {
    State([Node(zero, None)], 0, 0, seq(threads, i => Idle))
  }

  function Goto<T>(s: State<T>, t: nat, pc: Pc): State<T>
    requires t < |s.pcs|
  {
    s.(pcs := s.pcs[t := pc])
  }

  function SwingTail<T>(s: State<T>, expected: NodeId, ahead: NodeId, spurious: bool): State<T> {
    if s.tail == expected && !spurious then s.(tail := ahead) else s
  }

  function Step<T>(s: State<T>, a: Action<T>): (State<T>, Event<T>) {
    var t := a.thread;
    if t >= |s.pcs| then (s, Tau) else
    match s.pcs[t]
    case Idle =>
      (match a.call
       case Push(v) =>
         (Goto(s.(nodes := s.nodes + [Node(v, None)]), t, PushLoadTail(|s.nodes|)), Invoke)
       case Pop => (Goto(s, t, PopLoadHead), Invoke)
       case Empty => (Goto(s, t, EmptyLoadHead), Invoke))
    case PushLoadTail(n) => (Goto(s, t, PushLoadNext(n, s.tail)), Tau)
    case PushLoadNext(n, tail) =>
      if tail >= |s.nodes| then (s, Fault)
      else (Goto(s, t, PushCheckTail(n, tail, s.nodes[tail].next)), Tau)
    case PushCheckTail(n, tail, next) =>
      if tail != s.tail then (Goto(s, t, PushLoadTail(n)), Tau)
      else if next.None? then (Goto(s, t, PushCasNext(n, tail)), Tau)
      else (Goto(s, t, PushHelp(n, tail, next.value)), Tau)
    case PushCasNext(n, tail) =>
      if tail >= |s.nodes| then (s, Fault)
      else if s.nodes[tail].next == None && !a.spurious then
        (Goto(s.(nodes := s.nodes[tail := s.nodes[tail].(next := Some(n))]), t, PushSwing(n, tail)), Link)
      else (Goto(s, t, PushLoadTail(n)), Tau)
    case PushHelp(n, tail, ahead) =>
      (Goto(SwingTail(s, tail, ahead, a.spurious), t, PushLoadTail(n)), Tau)
    case PushSwing(n, tail) =>
      (Goto(SwingTail(s, tail, n, a.spurious), t, Idle), Return(Pushed))
    case PopLoadHead => (Goto(s, t, PopLoadTail(s.head)), Tau)
    case PopLoadTail(head) => (Goto(s, t, PopLoadNext(head, s.tail)), Tau)
    case PopLoadNext(head, tail) =>
      if head >= |s.nodes| then (s, Fault)
      else (Goto(s, t, PopCheckHead(head, tail, s.nodes[head].next)), Tau)
    case PopCheckHead(head, tail, next) =>
      if head != s.head then (Goto(s, t, PopLoadHead), Tau)
      else if head == tail then
        if next.None? then (Goto(s, t, Idle), Return(PopFailed))
        else (Goto(s, t, PopHelp(tail, next.value)), Tau)
      else (Goto(s, t, PopCasHead(head, next)), Tau)
    case PopHelp(tail, ahead) =>
      (Goto(SwingTail(s, tail, ahead, a.spurious), t, PopLoadHead), Tau)
    case PopCasHead(head, next) =>
      if head == s.head && !a.spurious then
        if next.None? then (s, Fault)
        else (Goto(s.(head := next.value), t, PopTake(next)), Unlink)
      else (Goto(s, t, PopLoadHead), Tau)
    case PopTake(next) =>
      if next.None? || next.value >= |s.nodes| then (s, Fault)
      else (Goto(s, t, Idle), Return(Popped(s.nodes[next.value].data)))
    case EmptyLoadHead => (Goto(s, t, EmptyLoadTail(s.head)), Tau)
    case EmptyLoadTail(head) => (Goto(s, t, EmptyLoadNext(head, s.tail)), Tau)
    case EmptyLoadNext(head, tail) =>
      if head >= |s.nodes| then (s, Fault)
      else (Goto(s, t, Idle), Return(Emptiness(head == tail && s.nodes[head].next.None?)))
  }

  function Run<T>(zero: T, threads: nat, acts: seq<Action<T>>): State<T> {
    if acts == [] then Init(zero, threads)
    else Step(Run(zero, threads, acts[..|acts| - 1]), acts[|acts| - 1]).0
  }

  // The event of the last action of a schedule.
  function LastEvent<T>(zero: T, threads: nat, acts: seq<Action<T>>): Event<T>
    requires acts != []
  {
    Step(Run(zero, threads, acts[..|acts| - 1]), acts[|acts| - 1]).1
  }

  function Follow<T>(nodes: seq<Node<T>>, n: NodeId, fuel: nat): seq<T>
    decreases fuel
  {
    if fuel == 0 || n >= |nodes| then [] else
    match nodes[n].next
    case None => []
    case Some(m) => if m >= |nodes| then [] else [nodes[m].data] + Follow(nodes, m, fuel - 1)
  }

  // The values a walk from the head sees: the queue as memory holds it.
  function Contents<T>(s: State<T>): seq<T> {
    Follow(s.nodes, s.head, |s.nodes|)
  }

  // ---------------------------------------------------------------------------
  // The sequential queue that every call must appear to act on at one instant
  // between its invocation and its return.

  datatype Pending<+T> =
    | NoCall
    | Pushing(value: T, done: bool)
    | Popping(taken: Option<T>, sawEmpty: bool)
    | Testing(sawEmpty: bool, sawItem: bool)

  datatype Spec<+T> = Spec(items: seq<T>, calls: seq<Pending<T>>)

  // An active call remembers whether the queue was empty at some instant of the call.
  function Observe<T>(p: Pending<T>, items: seq<T>): Pending<T> {
    match p
    case Popping(v, e) => Popping(v, e || |items| == 0)
    case Testing(e, i) => Testing(e || |items| == 0, i || |items| != 0)
    case _ => p
  }

  function Settle<T>(items: seq<T>, calls: seq<Pending<T>>): Spec<T> {
    Spec(items, seq(|calls|, i requires 0 <= i < |calls| => Observe(calls[i], items)))
  }

  function Started<T>(c: Call<T>): Pending<T> {
    match c
    case Push(v) => Pushing(v, false)
    case Pop => Popping(None, false)
    case Empty => Testing(false, false)
  }

  predicate Answers<T(==)>(p: Pending<T>, o: Outcome<T>) {
    match o
    case Pushed => p.Pushing? && p.done
    case Popped(v) => p.Popping? && p.taken == Some(v)
    case PopFailed => p.Popping? && p.taken == None && p.sawEmpty
    case Emptiness(b) => p.Testing? && (if b then p.sawEmpty else p.sawItem)
  }

  // None: the sequential queue does not allow the acting thread this event.  An idle thread begins the
  // call it was asked to make, and no other.
  function SpecNext<T(==)>(a: Spec<T>, act: Action<T>, e: Event<T>): Option<Spec<T>> {
    var t := act.thread;
    if t >= |a.calls| then (if e.Tau? then Some(a) else None)
    else
      var p := a.calls[t];
      match e
      case Tau => if p.NoCall? then None else Some(a)
      case Invoke => if p.NoCall? then Some(Settle(a.items, a.calls[t := Started(act.call)])) else None
      case Link =>
        if p.Pushing? && !p.done then Some(Settle(a.items + [p.value], a.calls[t := p.(done := true)])) else None
      case Unlink =>
        if p.Popping? && p.taken.None? && |a.items| != 0
        then Some(Settle(a.items[1..], a.calls[t := p.(taken := Some(a.items[0]))])) else None
      case Return(o) => if Answers(p, o) then Some(Spec(a.items, a.calls[t := NoCall])) else None
      case Fault => None
  }

  function SpecRun<T(==)>(zero: T, threads: nat, acts: seq<Action<T>>): Option<Spec<T>> {
    if acts == [] then Some(Spec([], seq(threads, i => NoCall)))
    else
      var before := SpecRun(zero, threads, acts[..|acts| - 1]);
      if before.None? then None
      else SpecNext(before.value, acts[|acts| - 1], LastEvent(zero, threads, acts))
  }

  // ---------------------------------------------------------------------------
  // The inductive invariant: `chain` lists every node ever linked, in link order;
  // head_ is chain[hi] and tail_ is chain[ti].

  function After(chain: seq<NodeId>, i: nat): Option<NodeId> {
    if i + 1 < |chain| then Some(chain[i + 1]) else None
  }

  ghost predicate Shape<T>(s: State<T>, chain: seq<NodeId>, hi: nat, ti: nat) {
    && hi <= ti < |chain| <= ti + 2
    && (forall i | 0 <= i < |chain| :: chain[i] < |s.nodes|)
    && (forall i, j | 0 <= i < j < |chain| :: chain[i] != chain[j])
    && s.head == chain[hi] && s.tail == chain[ti]
    && (forall i {:trigger After(chain, i)} | 0 <= i < |chain| :: s.nodes[chain[i]].next == After(chain, i))
    && (forall n | 0 <= n < |s.nodes| :: n !in chain ==> s.nodes[n].next == None)
  }

  // n was linked no later than position k.
  ghost predicate UpTo(chain: seq<NodeId>, n: NodeId, k: int) {
    exists i :: 0 <= i < |chain| && i <= k && chain[i] == n
  }

  // n was linked no later than m, and m no later than position k.
  ghost predicate Ordered(chain: seq<NodeId>, n: NodeId, m: NodeId, k: int) {
    exists i, j :: 0 <= i <= j < |chain| && j <= k && chain[i] == n && chain[j] == m
  }

  predicate Owns(pc: Pc) {
    pc.PushLoadTail? || pc.PushLoadNext? || pc.PushCheckTail? || pc.PushCasNext? || pc.PushHelp?
  }

  // next pointers never change once set, so what was read non-null stays true
  predicate Successor<T>(nodes: seq<Node<T>>, n: NodeId, m: NodeId) {
    n < |nodes| && m < |nodes| && nodes[n].next == Some(m)
  }

  ghost predicate Local<T>(s: State<T>, items: seq<T>, chain: seq<NodeId>, hi: nat, ti: nat, pc: Pc, p: Pending<T>) {
    && (p.Popping? && |items| == 0 ==> p.sawEmpty)
    && (p.Testing? ==> (|items| == 0 ==> p.sawEmpty) && (|items| != 0 ==> p.sawItem))
    && (Owns(pc) ==>
          && p.Pushing? && !p.done
          && pc.node < |s.nodes| && pc.node !in chain && s.nodes[pc.node].data == p.value)
    && match pc
       case Idle => p.NoCall?
       case PushLoadTail(n) => true
       case PushLoadNext(n, t) => UpTo(chain, t, ti)
       case PushCheckTail(n, t, nx) => UpTo(chain, t, ti) && (nx.Some? ==> Successor(s.nodes, t, nx.value))
       case PushCasNext(n, t) => UpTo(chain, t, ti)
       case PushHelp(n, t, m) => UpTo(chain, t, ti) && Successor(s.nodes, t, m)
       case PushSwing(n, t) => p.Pushing? && p.done && UpTo(chain, t, ti) && Successor(s.nodes, t, n)
       case PopLoadHead => p.Popping? && p.taken.None?
       case PopLoadTail(h) => p.Popping? && p.taken.None? && UpTo(chain, h, hi)
       case PopLoadNext(h, t) =>
         p.Popping? && p.taken.None? && UpTo(chain, h, hi) && Ordered(chain, h, t, ti)
       case PopCheckHead(h, t, nx) =>
         && p.Popping? && p.taken.None? && Ordered(chain, h, t, ti)
         && (nx.Some? ==> Successor(s.nodes, h, nx.value))
         && (nx.None? ==> h == t && p.sawEmpty)
       case PopHelp(t, m) => p.Popping? && p.taken.None? && UpTo(chain, t, ti) && Successor(s.nodes, t, m)
       case PopCasHead(h, nx) =>
         && p.Popping? && p.taken.None? && nx.Some? && Successor(s.nodes, h, nx.value)
         && UpTo(chain, h, ti - 1)
       case PopTake(nx) =>
         && p.Popping? && nx.Some? && nx.value < |s.nodes|
         && p.taken == Some(s.nodes[nx.value].data)
       case EmptyLoadHead => p.Testing?
       case EmptyLoadTail(h) =>
         && p.Testing? && UpTo(chain, h, hi)
         && (h < |s.nodes| && s.nodes[h].next.Some? ==> p.sawItem)
       case EmptyLoadNext(h, t) =>
         && p.Testing? && UpTo(chain, h, hi) && Ordered(chain, h, t, ti)
         && (h < |s.nodes| && s.nodes[h].next.Some? ==> p.sawItem)
  }

  function Values<T>(nodes: seq<Node<T>>, ids: seq<NodeId>): seq<T>
    requires forall i | 0 <= i < |ids| :: ids[i] < |nodes|
  {
    seq(|ids|, i requires 0 <= i < |ids| => nodes[ids[i]].data)
  }

  ghost predicate Inv<T>(s: State<T>, a: Spec<T>, chain: seq<NodeId>, hi: nat, ti: nat) {
    && Shape(s, chain, hi, ti)
    && a.items == Values(s.nodes, chain[hi + 1..])
    && |a.calls| == |s.pcs|
    && (forall t | 0 <= t < |s.pcs| :: Local(s, a.items, chain, hi, ti, s.pcs[t], a.calls[t]))
    && (forall t, u | 0 <= t < |s.pcs| && 0 <= u < |s.pcs| && t != u ::
          Owns(s.pcs[t]) && Owns(s.pcs[u]) ==> s.pcs[t].node != s.pcs[u].node)
  }

  // How shared memory may change under a thread that does not move.
  ghost predicate Extends<T>(s: State<T>, chain: seq<NodeId>, hi: nat, ti: nat,
                             s': State<T>, chain': seq<NodeId>, hi': nat, ti': nat) {
    && |s.nodes| <= |s'.nodes| && chain <= chain' && hi <= hi' && ti <= ti'
    && (forall n | 0 <= n < |s.nodes| ::
          && s'.nodes[n].data == s.nodes[n].data
          && (s.nodes[n].next.Some? ==> s'.nodes[n].next == s.nodes[n].next))
  }

  lemma LocalOf<T>(s: State<T>, a: Spec<T>, chain: seq<NodeId>, hi: nat, ti: nat, t: nat)
    requires Inv(s, a, chain, hi, ti) && t < |s.pcs|
    ensures |a.calls| == |s.pcs| && Local(s, a.items, chain, hi, ti, s.pcs[t], a.calls[t])
    ensures Shape(s, chain, hi, ti) && s.head < |s.nodes| && s.tail < |s.nodes|
    ensures UpTo(chain, s.head, hi) && UpTo(chain, s.tail, ti)
  {
    assert chain[hi] == s.head && chain[ti] == s.tail;
  }

  lemma UpToIsAllocated<T>(s: State<T>, chain: seq<NodeId>, hi: nat, ti: nat, n: NodeId, k: int)
    requires Shape(s, chain, hi, ti) && UpTo(chain, n, k)
    ensures n < |s.nodes|
  {}

  // A thread that read two different nodes read the later one after the first was linked.
  lemma OrderedSplits(chain: seq<NodeId>, n: NodeId, m: NodeId, k: int)
    requires Ordered(chain, n, m, k)
    ensures UpTo(chain, n, k) && UpTo(chain, m, k) && (n != m ==> UpTo(chain, n, k - 1))
  {
    var i, j :| 0 <= i <= j < |chain| && j <= k && chain[i] == n && chain[j] == m;
    assert chain[i] == n && chain[j] == m;
  }

  lemma UpToGrows(chain: seq<NodeId>, n: NodeId, k: int, chain': seq<NodeId>, k': int)
    requires UpTo(chain, n, k) && chain <= chain' && k <= k'
    ensures UpTo(chain', n, k')
  {
    var i :| 0 <= i < |chain| && i <= k && chain[i] == n;
    assert chain'[i] == n;
  }

  lemma OrderedGrows(chain: seq<NodeId>, n: NodeId, m: NodeId, k: int, chain': seq<NodeId>, k': int)
    requires Ordered(chain, n, m, k) && chain <= chain' && k <= k'
    ensures Ordered(chain', n, m, k')
  {
    var i, j :| 0 <= i <= j < |chain| && j <= k && chain[i] == n && chain[j] == m;
    assert chain'[i] == n && chain'[j] == m;
  }

  lemma LocalIsStable<T>(s: State<T>, items: seq<T>, chain: seq<NodeId>, hi: nat, ti: nat, pc: Pc, p: Pending<T>,
                         s': State<T>, items': seq<T>, chain': seq<NodeId>, hi': nat, ti': nat)
    requires Local(s, items, chain, hi, ti, pc, p)
    requires Extends(s, chain, hi, ti, s', chain', hi', ti')
    requires Owns(pc) ==> pc.node !in chain'
    requires |items'| != 0 || forall n | 0 <= n < |s.nodes| :: s'.nodes[n].next == s.nodes[n].next
    requires forall i | 0 <= i < |chain| :: chain[i] < |s.nodes|
    ensures Local(s', items', chain', hi', ti', pc, Observe(p, items'))
  {
    match pc
    case PushLoadNext(n, t) => UpToGrows(chain, t, ti, chain', ti');
    case PushCheckTail(n, t, nx) => UpToGrows(chain, t, ti, chain', ti');
    case PushCasNext(n, t) => UpToGrows(chain, t, ti, chain', ti');
    case PushHelp(n, t, m) => UpToGrows(chain, t, ti, chain', ti');
    case PushSwing(n, t) => UpToGrows(chain, t, ti, chain', ti');
    case PopLoadTail(h) => UpToGrows(chain, h, hi, chain', hi');
    case PopLoadNext(h, t) => UpToGrows(chain, h, hi, chain', hi'); OrderedGrows(chain, h, t, ti, chain', ti');
    case PopCheckHead(h, t, nx) => OrderedGrows(chain, h, t, ti, chain', ti');
    case PopHelp(t, m) => UpToGrows(chain, t, ti, chain', ti');
    case PopCasHead(h, nx) => UpToGrows(chain, h, ti - 1, chain', ti' - 1);
    case EmptyLoadTail(h) => UpToGrows(chain, h, hi, chain', hi');
    case EmptyLoadNext(h, t) => UpToGrows(chain, h, hi, chain', hi'); OrderedGrows(chain, h, t, ti, chain', ti');
    case _ =>
  }

  lemma Assemble<T>(s: State<T>, a: Spec<T>, chain: seq<NodeId>, hi: nat, ti: nat, t: nat,
                    s': State<T>, items': seq<T>, chain': seq<NodeId>, hi': nat, ti': nat, p': Pending<T>)
    requires Inv(s, a, chain, hi, ti) && Shape(s', chain', hi', ti')
    requires t < |s.pcs| == |s'.pcs| && s'.pcs == s.pcs[t := s'.pcs[t]]
    requires items' == Values(s'.nodes, chain'[hi' + 1..])
    requires Extends(s, chain, hi, ti, s', chain', hi', ti')
    requires |items'| != 0 || forall n | 0 <= n < |s.nodes| :: s'.nodes[n].next == s.nodes[n].next
    requires Local(s', items', chain', hi', ti', s'.pcs[t], Observe(p', items'))
    requires forall u | 0 <= u < |s.pcs| && u != t && Owns(s.pcs[u]) :: s.pcs[u].node !in chain'
    requires forall u | 0 <= u < |s.pcs| && u != t && Owns(s.pcs[u]) && Owns(s'.pcs[t]) ::
               s.pcs[u].node != s'.pcs[t].node
    ensures Inv(s', Settle(items', a.calls[t := p']), chain', hi', ti')
  {
    forall u | 0 <= u < |s.pcs| && u != t
      ensures Local(s', items', chain', hi', ti', s'.pcs[u], Observe(a.calls[u], items'))
    {
      LocalIsStable(s, a.items, chain, hi, ti, s.pcs[u], a.calls[u], s', items', chain', hi', ti');
    }
  }

  // A thread moves without touching shared memory.
  lemma MoveKeepsInv<T>(s: State<T>, a: Spec<T>, chain: seq<NodeId>, hi: nat, ti: nat, t: nat, pc: Pc, p: Pending<T>)
    requires Inv(s, a, chain, hi, ti) && t < |s.pcs|
    requires Local(s, a.items, chain, hi, ti, pc, Observe(p, a.items))
    requires Owns(pc) ==> Owns(s.pcs[t]) && s.pcs[t].node == pc.node
    ensures Inv(Goto(s, t, pc), Settle(a.items, a.calls[t := p]), chain, hi, ti)
  {
    Assemble(s, a, chain, hi, ti, t, Goto(s, t, pc), a.items, chain, hi, ti, p);
  }

  lemma ObservedAlready<T>(s: State<T>, a: Spec<T>, chain: seq<NodeId>, hi: nat, ti: nat)
    requires Inv(s, a, chain, hi, ti)
    ensures forall u | 0 <= u < |a.calls| :: Observe(a.calls[u], a.items) == a.calls[u]
    ensures Settle(a.items, a.calls) == a
  {
    forall u | 0 <= u < |a.calls| ensures Observe(a.calls[u], a.items) == a.calls[u] {
      assert Local(s, a.items, chain, hi, ti, s.pcs[u], a.calls[u]);
    }
    assert Settle(a.items, a.calls).calls == a.calls;
  }

  // The same, for a step the sequential queue does not see.
  lemma SilentKeepsInv<T>(s: State<T>, a: Spec<T>, chain: seq<NodeId>, hi: nat, ti: nat, t: nat, pc: Pc)
    requires Inv(s, a, chain, hi, ti) && t < |s.pcs|
    requires Local(s, a.items, chain, hi, ti, pc, a.calls[t])
    requires Owns(pc) ==> Owns(s.pcs[t]) && s.pcs[t].node == pc.node
    ensures Inv(Goto(s, t, pc), a, chain, hi, ti)
  {
    ObservedAlready(s, a, chain, hi, ti);
    MoveKeepsInv(s, a, chain, hi, ti, t, pc, a.calls[t]);
    assert a.calls[t := a.calls[t]] == a.calls;
  }

  lemma ReturnKeepsInv<T>(s: State<T>, a: Spec<T>, chain: seq<NodeId>, hi: nat, ti: nat, t: nat)
    requires Inv(s, a, chain, hi, ti) && t < |s.pcs|
    ensures Inv(Goto(s, t, Idle), Spec(a.items, a.calls[t := NoCall]), chain, hi, ti)
  {
    ObservedAlready(s, a, chain, hi, ti);
    MoveKeepsInv(s, a, chain, hi, ti, t, Idle, NoCall);
    assert Settle(a.items, a.calls[t := NoCall]).calls == a.calls[t := NoCall];
  }

  lemma PushBeginsInv<T>(s: State<T>, a: Spec<T>, chain: seq<NodeId>, hi: nat, ti: nat, t: nat, v: T)
    requires Inv(s, a, chain, hi, ti) && t < |s.pcs|
    ensures Inv(Goto(s.(nodes := s.nodes + [Node(v, None)]), t, PushLoadTail(|s.nodes|)),
                Settle(a.items, a.calls[t := Pushing(v, false)]), chain, hi, ti)
  {
    var s' := Goto(s.(nodes := s.nodes + [Node(v, None)]), t, PushLoadTail(|s.nodes|));
    assert Values(s'.nodes, chain[hi + 1..]) == Values(s.nodes, chain[hi + 1..]);
    forall u | 0 <= u < |s.pcs| && u != t && Owns(s.pcs[u])
      ensures s.pcs[u].node !in chain && s.pcs[u].node < |s.nodes|
    {
      assert Local(s, a.items, chain, hi, ti, s.pcs[u], a.calls[u]);
    }
    Assemble(s, a, chain, hi, ti, t, s', a.items, chain, hi, ti, Pushing(v, false));
  }

  // A thread about to link finds the last node, and brings a node that is not linked yet.
  lemma LinkFindsLast<T>(s: State<T>, a: Spec<T>, chain: seq<NodeId>, hi: nat, ti: nat, t: nat, n: NodeId, tail: NodeId)
    requires Inv(s, a, chain, hi, ti) && t < |s.pcs|
    requires s.pcs[t] == PushCasNext(n, tail) && tail < |s.nodes| && s.nodes[tail].next == None
    ensures Shape(s, chain, hi, ti) && ti + 1 == |chain| && chain[ti] == tail && n < |s.nodes| && n !in chain
    ensures t < |a.calls| && a.calls[t].Pushing? && !a.calls[t].done && s.nodes[n].data == a.calls[t].value
  {
    assert Local(s, a.items, chain, hi, ti, s.pcs[t], a.calls[t]);
    var i :| 0 <= i < |chain| && i <= ti && chain[i] == tail;
    assert After(chain, i) == None;
    assert i + 1 == |chain|;
  }

  // The memory a successful compare-and-swap on next leaves.
  ghost predicate Links<T>(s: State<T>, chain: seq<NodeId>, hi: nat, ti: nat, n: NodeId, tail: NodeId, s': State<T>) {
    && Shape(s, chain, hi, ti) && ti + 1 == |chain| && chain[ti] == tail && n < |s.nodes| && n !in chain
    && tail < |s.nodes| && s'.head == s.head && s'.tail == s.tail
    && s'.nodes == s.nodes[tail := s.nodes[tail].(next := Some(n))]
  }

  lemma LinkKeepsShape<T>(s: State<T>, chain: seq<NodeId>, hi: nat, ti: nat, n: NodeId, tail: NodeId, s': State<T>)
    requires Links(s, chain, hi, ti, n, tail, s')
    ensures Shape(s', chain + [n], hi, ti)
  {
    var chain' := chain + [n];
    forall k | 0 <= k < |chain'| ensures s'.nodes[chain'[k]].next == After(chain', k) {
      assert k < |chain| ==> s.nodes[chain[k]].next == After(chain, k);
    }
    forall m | 0 <= m < |s'.nodes| && m !in chain' ensures s'.nodes[m].next == None {
      assert m !in chain && m != tail;
    }
  }

  lemma LinkExtends<T>(s: State<T>, chain: seq<NodeId>, hi: nat, ti: nat, n: NodeId, tail: NodeId, s': State<T>)
    requires Links(s, chain, hi, ti, n, tail, s')
    ensures Extends(s, chain, hi, ti, s', chain + [n], hi, ti)
    ensures UpTo(chain + [n], tail, ti) && Successor(s'.nodes, tail, n)
  {
    assert s.nodes[chain[ti]].next == After(chain, ti);
    assert (chain + [n])[ti] == tail;
  }

  lemma LinkAddsValue<T>(s: State<T>, chain: seq<NodeId>, hi: nat, ti: nat, n: NodeId, tail: NodeId, s': State<T>)
    requires Links(s, chain, hi, ti, n, tail, s')
    ensures forall i | 0 <= i < |chain| :: chain[i] < |s.nodes|
    ensures Values(s'.nodes, (chain + [n])[hi + 1..]) == Values(s.nodes, chain[hi + 1..]) + [s.nodes[n].data]
  {
    assert (chain + [n])[hi + 1..] == chain[hi + 1..] + [n];
  }

  // The compare-and-swap on next: the node joins the chain, the value joins the queue.
  lemma LinkKeepsInv<T>(s: State<T>, a: Spec<T>, chain: seq<NodeId>, hi: nat, ti: nat, t: nat, n: NodeId, tail: NodeId)
    requires Inv(s, a, chain, hi, ti) && t < |s.pcs|
    requires s.pcs[t] == PushCasNext(n, tail) && tail < |s.nodes| && s.nodes[tail].next == None
    ensures a.calls[t].Pushing? && !a.calls[t].done
    ensures ti + 1 == |chain|
    ensures Inv(Goto(s.(nodes := s.nodes[tail := s.nodes[tail].(next := Some(n))]), t, PushSwing(n, tail)),
                Settle(a.items + [a.calls[t].value], a.calls[t := a.calls[t].(done := true)]), chain + [n], hi, ti)
  {
    hide Shape, Extends, UpTo, Values;
    var s' := Goto(s.(nodes := s.nodes[tail := s.nodes[tail].(next := Some(n))]), t, PushSwing(n, tail));
    LinkFindsLast(s, a, chain, hi, ti, t, n, tail);
    LinkKeepsShape(s, chain, hi, ti, n, tail, s');
    LinkExtends(s, chain, hi, ti, n, tail, s');
    LinkAddsValue(s, chain, hi, ti, n, tail, s');
    var p' := a.calls[t].(done := true);
    forall u | 0 <= u < |s.pcs| && u != t && Owns(s.pcs[u]) ensures s.pcs[u].node !in chain + [n] {
      assert Local(s, a.items, chain, hi, ti, s.pcs[u], a.calls[u]);
    }
    Assemble(s, a, chain, hi, ti, t, s', a.items + [p'.value], chain + [n], hi, ti, p');
  }

  // tail_ moves, if at all, to the node behind it.
  lemma SwingKeepsInv<T>(s: State<T>, a: Spec<T>, chain: seq<NodeId>, hi: nat, ti: nat, expected: NodeId, ahead: NodeId, spurious: bool)
    returns (ti': nat)
    requires Inv(s, a, chain, hi, ti)
    requires Successor(s.nodes, expected, ahead)
    ensures ti' >= ti && Inv(SwingTail(s, expected, ahead, spurious), a, chain, hi, ti')
  {
    var s' := SwingTail(s, expected, ahead, spurious);
    ti' := ti;
    if s.tail == expected && !spurious {
      ti' := ti + 1;
      assert chain[ti] == expected;
      assert s.nodes[chain[ti]].next == After(chain, ti);
      assert chain[ti'] == ahead;
      ObservedAlready(s, a, chain, hi, ti);
      forall u | 0 <= u < |s.pcs| ensures Local(s', a.items, chain, hi, ti', s'.pcs[u], a.calls[u]) {
        LocalIsStable(s, a.items, chain, hi, ti, s.pcs[u], a.calls[u], s', a.items, chain, hi, ti');
      }
    }
  }

  // What holds when the compare-and-swap on head succeeds: it does not install null.
  lemma HeadSwapIsSafe<T>(s: State<T>, a: Spec<T>, chain: seq<NodeId>, hi: nat, ti: nat, t: nat, next: Option<NodeId>)
    requires Inv(s, a, chain, hi, ti) && t < |s.pcs|
    requires s.pcs[t] == PopCasHead(s.head, next)
    ensures hi < ti && next == Some(chain[hi + 1]) && |a.items| != 0
    ensures a.calls[t].Popping? && a.calls[t].taken.None?
  {
    assert Local(s, a.items, chain, hi, ti, s.pcs[t], a.calls[t]);
    var i :| 0 <= i < |chain| && i <= ti - 1 && chain[i] == s.head;
    assert i == hi;
    assert s.nodes[chain[hi]].next == After(chain, hi);
  }

  // The compare-and-swap on head: the front value leaves the queue.
  lemma UnlinkKeepsInv<T>(s: State<T>, a: Spec<T>, chain: seq<NodeId>, hi: nat, ti: nat, t: nat)
    requires Inv(s, a, chain, hi, ti) && t < |s.pcs|
    requires hi < ti && a.calls[t].Popping? && a.calls[t].taken.None? && |a.items| != 0
    ensures Inv(Goto(s.(head := chain[hi + 1]), t, PopTake(Some(chain[hi + 1]))),
                Settle(a.items[1..], a.calls[t := a.calls[t].(taken := Some(a.items[0]))]), chain, hi + 1, ti)
  {
    var s' := Goto(s.(head := chain[hi + 1]), t, PopTake(Some(chain[hi + 1])));
    var items' := a.items[1..];
    assert a.items[0] == s.nodes[chain[hi + 1]].data;
    assert items' == Values(s'.nodes, chain[hi + 2..]) by {
      assert chain[hi + 2..] == chain[hi + 1..][1..];
    }
    assert Shape(s', chain, hi + 1, ti);
    forall u | 0 <= u < |s.pcs| && u != t && Owns(s.pcs[u]) ensures s.pcs[u].node !in chain {
      assert Local(s, a.items, chain, hi, ti, s.pcs[u], a.calls[u]);
    }
    Assemble(s, a, chain, hi, ti, t, s', items', chain, hi + 1, ti, a.calls[t].(taken := Some(a.items[0])));
  }

  lemma SuccessorIsRead<T>(s: State<T>, chain: seq<NodeId>, hi: nat, ti: nat, n: NodeId)
    requires Shape(s, chain, hi, ti) && UpTo(chain, n, ti)
    ensures n < |s.nodes|
    ensures s.nodes[n].next.Some? ==> Successor(s.nodes, n, s.nodes[n].next.value)
  {
    var i :| 0 <= i < |chain| && i <= ti && chain[i] == n;
    assert s.nodes[chain[i]].next == After(chain, i);
  }

  lemma PushLoadKeepsInv<T>(s: State<T>, a: Spec<T>, chain: seq<NodeId>, hi: nat, ti: nat, act: Action<T>)
    requires Inv(s, a, chain, hi, ti) && act.thread < |s.pcs|
    requires var pc := s.pcs[act.thread]; pc.PushLoadTail? || pc.PushLoadNext? || pc.PushCheckTail?
    ensures Step(s, act).1 == Tau && Inv(Step(s, act).0, a, chain, hi, ti)
  {
    hide Inv, Shape, UpTo, Ordered, Values;
    var t := act.thread;
    LocalOf(s, a, chain, hi, ti, t);
    match s.pcs[t]
    case PushLoadTail(n) => SilentKeepsInv(s, a, chain, hi, ti, t, PushLoadNext(n, s.tail));
    case PushLoadNext(n, tail) =>
      SuccessorIsRead(s, chain, hi, ti, tail);
      SilentKeepsInv(s, a, chain, hi, ti, t, PushCheckTail(n, tail, s.nodes[tail].next));
    case PushCheckTail(n, tail, next) => SilentKeepsInv(s, a, chain, hi, ti, t, Step(s, act).0.pcs[t]);
  }

  lemma PushCasKeepsInv<T>(s: State<T>, a: Spec<T>, chain: seq<NodeId>, hi: nat, ti: nat, act: Action<T>)
    returns (chain': seq<NodeId>)
    requires Inv(s, a, chain, hi, ti) && act.thread < |s.pcs| && s.pcs[act.thread].PushCasNext?
    ensures SpecNext(a, act, Step(s, act).1).Some?
    ensures Inv(Step(s, act).0, SpecNext(a, act, Step(s, act).1).value, chain', hi, ti)
  {
    hide Inv, Shape, UpTo, Ordered, Values;
    chain' := chain;
    var t := act.thread;
    var PushCasNext(n, tail) := s.pcs[t];
    LocalOf(s, a, chain, hi, ti, t);
    UpToIsAllocated(s, chain, hi, ti, tail, ti);
    if s.nodes[tail].next == None && !act.spurious {
      LinkKeepsInv(s, a, chain, hi, ti, t, n, tail);
      chain' := chain + [n];
    } else {
      SilentKeepsInv(s, a, chain, hi, ti, t, PushLoadTail(n));
    }
  }

  lemma PushSwingKeepsInv<T>(s: State<T>, a: Spec<T>, chain: seq<NodeId>, hi: nat, ti: nat, act: Action<T>)
    returns (ti': nat)
    requires Inv(s, a, chain, hi, ti) && act.thread < |s.pcs|
    requires s.pcs[act.thread].PushHelp? || s.pcs[act.thread].PushSwing?
    ensures SpecNext(a, act, Step(s, act).1).Some?
    ensures Inv(Step(s, act).0, SpecNext(a, act, Step(s, act).1).value, chain, hi, ti')
  {
    hide Inv, Shape, UpTo, Ordered, Values;
    var t := act.thread;
    LocalOf(s, a, chain, hi, ti, t);
    match s.pcs[t]
    case PushHelp(n, tail, ahead) =>
      ti' := SwingKeepsInv(s, a, chain, hi, ti, tail, ahead, act.spurious);
      LocalOf(SwingTail(s, tail, ahead, act.spurious), a, chain, hi, ti', t);
      SilentKeepsInv(SwingTail(s, tail, ahead, act.spurious), a, chain, hi, ti', t, PushLoadTail(n));
    case PushSwing(n, tail) =>
      ti' := SwingKeepsInv(s, a, chain, hi, ti, tail, n, act.spurious);
      ReturnKeepsInv(SwingTail(s, tail, n, act.spurious), a, chain, hi, ti', t);
  }

  // A tail loaded after a head is not behind it.
  lemma LoadedInOrder<T>(s: State<T>, chain: seq<NodeId>, hi: nat, ti: nat, head: NodeId)
    requires Shape(s, chain, hi, ti) && UpTo(chain, head, hi)
    ensures Ordered(chain, head, s.tail, ti)
  {
    var i :| 0 <= i < |chain| && i <= hi && chain[i] == head;
    assert chain[i] == head && chain[ti] == s.tail;
  }

  // A null read behind a former head means the queue is empty at this very step;
  // a tail that differs from the head means there is a node behind the head.
  lemma NextIsRead<T>(s: State<T>, a: Spec<T>, chain: seq<NodeId>, hi: nat, ti: nat, head: NodeId, tail: NodeId)
    requires Inv(s, a, chain, hi, ti) && Ordered(chain, head, tail, ti) && UpTo(chain, head, hi)
    ensures head < |s.nodes|
    ensures s.nodes[head].next.None? ==> head == tail && |a.items| == 0
    ensures s.nodes[head].next.Some? ==> Successor(s.nodes, head, s.nodes[head].next.value)
  {
    var i, j :| 0 <= i <= j < |chain| && j <= ti && chain[i] == head && chain[j] == tail;
    var k :| 0 <= k < |chain| && k <= hi && chain[k] == head;
    assert i == k;
    if s.nodes[head].next.None? {
      assert After(chain, i) == None;
    } else {
      assert s.nodes[chain[i]].next == After(chain, i);
    }
  }

  lemma PopLoadKeepsInv<T>(s: State<T>, a: Spec<T>, chain: seq<NodeId>, hi: nat, ti: nat, act: Action<T>)
    requires Inv(s, a, chain, hi, ti) && act.thread < |s.pcs|
    requires var pc := s.pcs[act.thread]; pc.PopLoadHead? || pc.PopLoadTail? || pc.PopLoadNext?
    ensures Step(s, act).1 == Tau && Inv(Step(s, act).0, a, chain, hi, ti)
  {
    hide Inv, Shape, UpTo, Ordered, Values;
    var t := act.thread;
    LocalOf(s, a, chain, hi, ti, t);
    match s.pcs[t]
    case PopLoadHead => SilentKeepsInv(s, a, chain, hi, ti, t, PopLoadTail(s.head));
    case PopLoadTail(head) =>
      LoadedInOrder(s, chain, hi, ti, head);
      SilentKeepsInv(s, a, chain, hi, ti, t, PopLoadNext(head, s.tail));
    case PopLoadNext(head, tail) =>
      NextIsRead(s, a, chain, hi, ti, head, tail);
      SilentKeepsInv(s, a, chain, hi, ti, t, PopCheckHead(head, tail, s.nodes[head].next));
  }

  lemma PopCasKeepsInv<T>(s: State<T>, a: Spec<T>, chain: seq<NodeId>, hi: nat, ti: nat, act: Action<T>)
    returns (hi': nat)
    requires Inv(s, a, chain, hi, ti) && act.thread < |s.pcs| && s.pcs[act.thread].PopCasHead?
    ensures SpecNext(a, act, Step(s, act).1).Some?
    ensures Inv(Step(s, act).0, SpecNext(a, act, Step(s, act).1).value, chain, hi', ti)
  {
    hide Inv, Shape, UpTo, Ordered, Values;
    hi' := hi;
    var t := act.thread;
    var PopCasHead(head, next) := s.pcs[t];
    LocalOf(s, a, chain, hi, ti, t);
    if head == s.head && !act.spurious {
      HeadSwapIsSafe(s, a, chain, hi, ti, t, next);
      UnlinkKeepsInv(s, a, chain, hi, ti, t);
      hi' := hi + 1;
    } else {
      SilentKeepsInv(s, a, chain, hi, ti, t, PopLoadHead);
    }
  }

  lemma PopEndKeepsInv<T>(s: State<T>, a: Spec<T>, chain: seq<NodeId>, hi: nat, ti: nat, act: Action<T>)
    returns (ti': nat)
    requires Inv(s, a, chain, hi, ti) && act.thread < |s.pcs|
    requires s.pcs[act.thread].PopHelp? || s.pcs[act.thread].PopTake?
    ensures SpecNext(a, act, Step(s, act).1).Some?
    ensures Inv(Step(s, act).0, SpecNext(a, act, Step(s, act).1).value, chain, hi, ti')
  {
    hide Inv, Shape, UpTo, Ordered, Values;
    ti' := ti;
    var t := act.thread;
    LocalOf(s, a, chain, hi, ti, t);
    match s.pcs[t]
    case PopHelp(tail, ahead) =>
      ti' := SwingKeepsInv(s, a, chain, hi, ti, tail, ahead, act.spurious);
      LocalOf(SwingTail(s, tail, ahead, act.spurious), a, chain, hi, ti', t);
      SilentKeepsInv(SwingTail(s, tail, ahead, act.spurious), a, chain, hi, ti', t, PopLoadHead);
    case PopTake(next) => ReturnKeepsInv(s, a, chain, hi, ti, t);
  }

  lemma ItemBehindHead<T>(s: State<T>, a: Spec<T>, chain: seq<NodeId>, hi: nat, ti: nat)
    requires Inv(s, a, chain, hi, ti)
    ensures s.nodes[s.head].next.Some? <==> |a.items| != 0
  {
    assert s.nodes[chain[hi]].next == After(chain, hi);
  }

  lemma TestKeepsInv<T>(s: State<T>, a: Spec<T>, chain: seq<NodeId>, hi: nat, ti: nat, act: Action<T>)
    requires Inv(s, a, chain, hi, ti) && act.thread < |s.pcs|
    requires var pc := s.pcs[act.thread]; pc.EmptyLoadHead? || pc.EmptyLoadTail? || pc.EmptyLoadNext?
    ensures SpecNext(a, act, Step(s, act).1).Some?
    ensures Inv(Step(s, act).0, SpecNext(a, act, Step(s, act).1).value, chain, hi, ti)
  {
    hide Inv, Shape, UpTo, Ordered, Values;
    var t := act.thread;
    LocalOf(s, a, chain, hi, ti, t);
    match s.pcs[t]
    case EmptyLoadHead =>
      ItemBehindHead(s, a, chain, hi, ti);
      SilentKeepsInv(s, a, chain, hi, ti, t, EmptyLoadTail(s.head));
    case EmptyLoadTail(head) =>
      LoadedInOrder(s, chain, hi, ti, head);
      SilentKeepsInv(s, a, chain, hi, ti, t, EmptyLoadNext(head, s.tail));
    case EmptyLoadNext(head, tail) =>
      NextIsRead(s, a, chain, hi, ti, head, tail);
      ReturnKeepsInv(s, a, chain, hi, ti, t);
  }

  lemma BeginKeepsInv<T>(s: State<T>, a: Spec<T>, chain: seq<NodeId>, hi: nat, ti: nat, act: Action<T>)
    requires Inv(s, a, chain, hi, ti) && act.thread < |s.pcs| && s.pcs[act.thread] == Idle
    ensures SpecNext(a, act, Step(s, act).1).Some?
    ensures Inv(Step(s, act).0, SpecNext(a, act, Step(s, act).1).value, chain, hi, ti)
  {
    var t := act.thread;
    assert Local(s, a.items, chain, hi, ti, s.pcs[t], a.calls[t]);
    match act.call
    case Push(v) => PushBeginsInv(s, a, chain, hi, ti, t, v);
    case Pop => MoveKeepsInv(s, a, chain, hi, ti, t, PopLoadHead, Popping(None, false));
    case Empty => MoveKeepsInv(s, a, chain, hi, ti, t, EmptyLoadHead, Testing(false, false));
  }

  lemma CheckHeadKeepsInv<T>(s: State<T>, a: Spec<T>, chain: seq<NodeId>, hi: nat, ti: nat, act: Action<T>)
    requires Inv(s, a, chain, hi, ti) && act.thread < |s.pcs| && s.pcs[act.thread].PopCheckHead?
    ensures SpecNext(a, act, Step(s, act).1).Some?
    ensures Inv(Step(s, act).0, SpecNext(a, act, Step(s, act).1).value, chain, hi, ti)
  {
    hide Inv, Shape, UpTo, Ordered, Values;
    var t := act.thread;
    LocalOf(s, a, chain, hi, ti, t);
    var PopCheckHead(head, tail, next) := s.pcs[t];
    OrderedSplits(chain, head, tail, ti);
    if head != s.head {
      SilentKeepsInv(s, a, chain, hi, ti, t, PopLoadHead);
    } else if head == tail {
      if next.None? {
        ReturnKeepsInv(s, a, chain, hi, ti, t);
      } else {
        SilentKeepsInv(s, a, chain, hi, ti, t, PopHelp(tail, next.value));
      }
    } else {
      SilentKeepsInv(s, a, chain, hi, ti, t, PopCasHead(head, next));
    }
  }

  // Every step of every thread is one the sequential queue allows, and keeps the invariant.
  lemma StepKeepsInv<T>(s: State<T>, a: Spec<T>, chain: seq<NodeId>, hi: nat, ti: nat, act: Action<T>)
    returns (chain': seq<NodeId>, hi': nat, ti': nat)
    requires Inv(s, a, chain, hi, ti)
    ensures SpecNext(a, act, Step(s, act).1).Some?
    ensures Inv(Step(s, act).0, SpecNext(a, act, Step(s, act).1).value, chain', hi', ti')
  {
    chain', hi', ti' := chain, hi, ti;
    var t := act.thread;
    if t < |s.pcs| {
      match s.pcs[t]
      case Idle => BeginKeepsInv(s, a, chain, hi, ti, act);
      case PushLoadTail(_) => PushLoadKeepsInv(s, a, chain, hi, ti, act);
      case PushLoadNext(_, _) => PushLoadKeepsInv(s, a, chain, hi, ti, act);
      case PushCheckTail(_, _, _) => PushLoadKeepsInv(s, a, chain, hi, ti, act);
      case PushCasNext(_, _) => chain' := PushCasKeepsInv(s, a, chain, hi, ti, act);
      case PushHelp(_, _, _) => ti' := PushSwingKeepsInv(s, a, chain, hi, ti, act);
      case PushSwing(_, _) => ti' := PushSwingKeepsInv(s, a, chain, hi, ti, act);
      case PopLoadHead => PopLoadKeepsInv(s, a, chain, hi, ti, act);
      case PopLoadTail(_) => PopLoadKeepsInv(s, a, chain, hi, ti, act);
      case PopLoadNext(_, _) => PopLoadKeepsInv(s, a, chain, hi, ti, act);
      case PopCheckHead(_, _, _) => CheckHeadKeepsInv(s, a, chain, hi, ti, act);
      case PopCasHead(_, _) => hi' := PopCasKeepsInv(s, a, chain, hi, ti, act);
      case PopHelp(_, _) => ti' := PopEndKeepsInv(s, a, chain, hi, ti, act);
      case PopTake(_) => ti' := PopEndKeepsInv(s, a, chain, hi, ti, act);
      case _ => TestKeepsInv(s, a, chain, hi, ti, act);
    }
  }

  // ---------------------------------------------------------------------------
  // Results over every schedule of every number of threads.

  lemma {:induction false} RunKeepsInv<T>(zero: T, threads: nat, acts: seq<Action<T>>)
    returns (chain: seq<NodeId>, hi: nat, ti: nat)
    ensures SpecRun(zero, threads, acts).Some?
    ensures Inv(Run(zero, threads, acts), SpecRun(zero, threads, acts).value, chain, hi, ti)
  {
    if acts == [] {
      chain, hi, ti := [0], 0, 0;
    } else {
      var last := |acts| - 1;
      var c, h, t := RunKeepsInv(zero, threads, acts[..last]);
      chain, hi, ti := StepKeepsInv(Run(zero, threads, acts[..last]), SpecRun(zero, threads, acts[..last]).value,
                                    c, h, t, acts[last]);
    }
  }

  lemma ShapeOf<T>(s: State<T>, chain: seq<NodeId>, hi: nat, ti: nat)
    requires Shape(s, chain, hi, ti)
    ensures forall i | 0 <= i < |chain| :: chain[i] < |s.nodes|
    ensures forall i {:trigger chain[i]} | 0 <= i < |chain| :: s.nodes[chain[i]].next == After(chain, i)
  {
    forall i | 0 <= i < |chain| ensures s.nodes[chain[i]].next == After(chain, i) {}
  }

  lemma {:induction false} FollowReadsChain<T>(s: State<T>, chain: seq<NodeId>, hi: nat, ti: nat, k: nat, fuel: nat)
    requires Shape(s, chain, hi, ti) && k < |chain| && |chain| - k <= fuel + 1
    ensures Follow(s.nodes, chain[k], fuel) == Values(s.nodes, chain[k + 1..])
    decreases fuel
  {
    hide Shape;
    ShapeOf(s, chain, hi, ti);
    if k + 1 < |chain| {
      FollowReadsChain(s, chain, hi, ti, k + 1, fuel - 1);
      assert chain[k + 1..] == [chain[k + 1]] + chain[k + 2..];
    }
  }

  function Below(n: nat): (r: set<NodeId>)
    ensures |r| == n && forall i: NodeId :: i in r <==> i < n
  {
    if n == 0 then {} else Below(n - 1) + {n - 1}
  }

  lemma {:induction false} DistinctFits(ids: seq<NodeId>, bound: nat, seen: set<NodeId>)
    requires forall i | 0 <= i < |ids| :: ids[i] < bound && ids[i] !in seen
    requires forall i, j | 0 <= i < j < |ids| :: ids[i] != ids[j]
    requires seen <= Below(bound)
    ensures |ids| + |seen| <= bound
    decreases |ids|
  {
    if ids == [] {
      assert Below(bound) == seen + (Below(bound) - seen);
    } else {
      DistinctFits(ids[1..], bound, seen + {ids[0]});
    }
  }

  /** Linearizability: in every interleaving, the invocations, linking and unlinking steps and returns
      are ones the sequential queue allows (each push appends once, each successful pop removes and
      returns the front once, a failed pop or an emptiness test reports what held at some instant of
      that very call), and that sequential queue is always what a walk through memory finds. */
  lemma Linearizable<T>(zero: T, threads: nat, acts: seq<Action<T>>)
    ensures SpecRun(zero, threads, acts).Some?
    ensures SpecRun(zero, threads, acts).value.items == Contents(Run(zero, threads, acts))
  {
    var chain, hi, ti := RunKeepsInv(zero, threads, acts);
    var s := Run(zero, threads, acts);
    DistinctFits(chain, |s.nodes|, {});
    FollowReadsChain(s, chain, hi, ti, hi, |s.nodes|);
  }

  // No null or wild pointer is ever dereferenced, and head_ never becomes null.
  lemma NeverFaults<T>(zero: T, threads: nat, acts: seq<Action<T>>)
    requires acts != []
    ensures LastEvent(zero, threads, acts) != Fault
  {
    Linearizable(zero, threads, acts);
    Linearizable(zero, threads, acts[..|acts| - 1]);
  }

  // The node reached by following next k times.
  function Hop<T>(nodes: seq<Node<T>>, n: Option<NodeId>, k: nat): Option<NodeId>
    decreases k
  {
    if k == 0 || n.None? then n
    else if n.value >= |nodes| then None
    else Hop(nodes, nodes[n.value].next, k - 1)
  }

  lemma {:induction false} HopAlongChain<T>(s: State<T>, chain: seq<NodeId>, hi: nat, ti: nat, i: nat, k: nat)
    requires Shape(s, chain, hi, ti) && i + k < |chain|
    ensures Hop(s.nodes, Some(chain[i]), k) == Some(chain[i + k])
    decreases k
  {
    if k > 0 {
      assert s.nodes[chain[i]].next == After(chain, i);
      HopAlongChain(s, chain, hi, ti, i + 1, k - 1);
    }
  }

  lemma InvHasShape<T>(s: State<T>, a: Spec<T>, chain: seq<NodeId>, hi: nat, ti: nat)
    requires Inv(s, a, chain, hi, ti)
    ensures Shape(s, chain, hi, ti)
  {}

  lemma TailPosition<T>(s: State<T>, chain: seq<NodeId>, hi: nat, ti: nat)
    requires Shape(s, chain, hi, ti)
    ensures hi <= ti < |chain|
    ensures Hop(s.nodes, Some(s.head), ti - hi) == Some(s.tail)
    ensures |chain| - 1 - ti <= 1
    ensures Hop(s.nodes, Some(s.tail), |chain| - 1 - ti) == Some(chain[|chain| - 1])
    ensures Hop(s.nodes, Some(s.tail), |chain| - ti) == None
  {
    HopAlongChain(s, chain, hi, ti, hi, ti - hi);
    HopAlongChain(s, chain, hi, ti, ti, |chain| - 1 - ti);
    assert s.nodes[chain[|chain| - 1]].next == After(chain, |chain| - 1);
    assert s.nodes[chain[ti]].next == After(chain, ti);
  }

  /** tail_ is reachable from head_ (so head_ never passes tail_) and lags the last node by at most one. */
  lemma TailFollowsHead<T>(zero: T, threads: nat, acts: seq<Action<T>>)
    returns (distance: nat, lag: nat)
    ensures lag <= 1
    ensures var s := Run(zero, threads, acts);
            && Hop(s.nodes, Some(s.head), distance) == Some(s.tail)
            && Hop(s.nodes, Some(s.tail), lag).Some?
            && Hop(s.nodes, Some(s.tail), lag + 1) == None
  {
    hide Inv, Shape, Run, Hop;
    var chain, hi, ti := RunKeepsInv(zero, threads, acts);
    InvHasShape(Run(zero, threads, acts), SpecRun(zero, threads, acts).value, chain, hi, ti);
    TailPosition(Run(zero, threads, acts), chain, hi, ti);
    distance, lag := ti - hi, |chain| - 1 - ti;
  }

  // The value an action links behind the last node, if it does.
  function LinksValue<T>(s: State<T>, a: Action<T>): seq<T> {
    if Step(s, a).1.Link? && s.pcs[a.thread].node < |s.nodes| then [s.nodes[s.pcs[a.thread].node].data] else []
  }

  // The value an action unlinks from the front, if it does.
  function UnlinksValue<T>(s: State<T>, a: Action<T>): seq<T> {
    if Step(s, a).1.Unlink? && s.pcs[a.thread].next.value < |s.nodes|
    then [s.nodes[s.pcs[a.thread].next.value].data] else []
  }

  function Linked<T>(zero: T, threads: nat, acts: seq<Action<T>>): seq<T> {
    if acts == [] then []
    else
      var before := acts[..|acts| - 1];
      Linked(zero, threads, before) + LinksValue(Run(zero, threads, before), acts[|acts| - 1])
  }

  function Unlinked<T>(zero: T, threads: nat, acts: seq<Action<T>>): seq<T> {
    if acts == [] then []
    else
      var before := acts[..|acts| - 1];
      Unlinked(zero, threads, before) + UnlinksValue(Run(zero, threads, before), acts[|acts| - 1])
  }

  lemma StepMovesValues<T>(s: State<T>, a: Spec<T>, chain: seq<NodeId>, hi: nat, ti: nat, act: Action<T>, a': Spec<T>)
    requires Inv(s, a, chain, hi, ti)
    requires SpecNext(a, act, Step(s, act).1) == Some(a')
    ensures UnlinksValue(s, act) + a'.items == a.items + LinksValue(s, act)
  {
    var t := act.thread;
    if t < |s.pcs| {
      assert Local(s, a.items, chain, hi, ti, s.pcs[t], a.calls[t]);
      var e := Step(s, act).1;
      if e.Unlink? {
        HeadSwapIsSafe(s, a, chain, hi, ti, t, s.pcs[t].next);
        assert a.items[0] == s.nodes[chain[hi + 1]].data;
      }
    }
  }

  lemma LastActionMovesValues<T>(zero: T, threads: nat, acts: seq<Action<T>>)
    requires acts != []
    ensures var s, act := Run(zero, threads, acts[..|acts| - 1]), acts[|acts| - 1];
            UnlinksValue(s, act) + Contents(Run(zero, threads, acts)) == Contents(s) + LinksValue(s, act)
  {
    var before, last := acts[..|acts| - 1], acts[|acts| - 1];
    Linearizable(zero, threads, acts);
    Linearizable(zero, threads, before);
    var chain, hi, ti := RunKeepsInv(zero, threads, before);
    StepMovesValues(Run(zero, threads, before), SpecRun(zero, threads, before).value, chain, hi, ti, last,
                    SpecRun(zero, threads, acts).value);
  }

  /** FIFO conservation: what was unlinked, in order, followed by what is still queued, is exactly
      what was linked, in order.  Nothing is lost, duplicated or reordered. */
  lemma {:induction false} FirstInFirstOut<T>(zero: T, threads: nat, acts: seq<Action<T>>)
    ensures Linked(zero, threads, acts)
         == Unlinked(zero, threads, acts) + Contents(Run(zero, threads, acts))
  {
    if acts == [] {
      assert Contents(Run(zero, threads, acts)) == [];
    } else {
      var before, act := acts[..|acts| - 1], acts[|acts| - 1];
      FirstInFirstOut(zero, threads, before);
      LastActionMovesValues(zero, threads, acts);
      var s := Run(zero, threads, before);
      Regroup(Unlinked(zero, threads, before), Contents(s), LinksValue(s, act), UnlinksValue(s, act),
              Contents(Run(zero, threads, acts)));
    }
  }

  // The value a thread is asked to push, if it is idle and therefore begins the call.
  ghost function AskedBy<T>(s: State<T>, act: Action<T>): multiset<T> {
    if act.thread < |s.pcs| && s.pcs[act.thread].Idle? && act.call.Push? then multiset{act.call.value} else multiset{}
  }

  // The arguments of all pushes a schedule begins.
  ghost function Asked<T>(zero: T, threads: nat, acts: seq<Action<T>>): multiset<T> {
    if acts == [] then multiset{}
    else
      var before := acts[..|acts| - 1];
      Asked(zero, threads, before) + AskedBy(Run(zero, threads, before), acts[|acts| - 1])
  }

  ghost function UnlinkedValue<T>(p: Pending<T>): multiset<T> {
    if p.Pushing? && !p.done then multiset{p.value} else multiset{}
  }

  // What the pushes under way have still to link.
  ghost function Waiting<T>(calls: seq<Pending<T>>): multiset<T> {
    if calls == [] then multiset{} else Waiting(calls[..|calls| - 1]) + UnlinkedValue(calls[|calls| - 1])
  }

  lemma Shuffle<T>(a: multiset<T>, b: multiset<T>, x: multiset<T>, y: multiset<T>, rest: multiset<T>)
    requires a + x == b + y
    ensures (a + rest) + x == (b + rest) + y
  {
    assert (a + rest) + x == (a + x) + rest;
    assert (b + rest) + y == (b + y) + rest;
  }

  lemma {:induction false} WaitingUpdate<T>(calls: seq<Pending<T>>, t: nat, p: Pending<T>)
    requires t < |calls|
    ensures Waiting(calls[t := p]) + UnlinkedValue(calls[t]) == Waiting(calls) + UnlinkedValue(p)
  {
    hide UnlinkedValue;
    var last := |calls| - 1;
    var front := calls[..last];
    if t == last {
      assert calls[t := p][..last] == front;
      assert Waiting(calls[t := p]) == Waiting(front) + UnlinkedValue(p);
      assert (Waiting(front) + UnlinkedValue(p)) + UnlinkedValue(calls[t])
          == (Waiting(front) + UnlinkedValue(calls[t])) + UnlinkedValue(p);
    } else {
      WaitingUpdate(front, t, p);
      assert calls[t := p][..last] == front[t := p];
      Shuffle(Waiting(front[t := p]), Waiting(front), UnlinkedValue(calls[t]), UnlinkedValue(p), UnlinkedValue(calls[last]));
    }
  }

  lemma {:induction false} WaitingSettled<T>(items: seq<T>, calls: seq<Pending<T>>)
    ensures Waiting(Settle(items, calls).calls) == Waiting(calls)
  {
    if calls != [] {
      var last := |calls| - 1;
      WaitingSettled(items, calls[..last]);
      assert Settle(items, calls).calls[..last] == Settle(items, calls[..last]).calls;
      assert UnlinkedValue(Observe(calls[last], items)) == UnlinkedValue(calls[last]);
    }
  }

  lemma {:induction false} NothingWaits<T>(calls: seq<Pending<T>>)
    requires forall t | 0 <= t < |calls| :: UnlinkedValue(calls[t]) == multiset{}
    ensures Waiting(calls) == multiset{}
  {
    if calls != [] {
      NothingWaits(calls[..|calls| - 1]);
    }
  }

  lemma Exchange<T>(asked: multiset<T>, was: multiset<T>, p: multiset<T>, linked: multiset<T>, now: multiset<T>, p': multiset<T>)
    requires asked + p == linked + p' && now + p == was + p'
    ensures asked + was == linked + now
  {
    forall x ensures (asked + was)[x] == (linked + now)[x] {
      assert (asked + p)[x] == (linked + p')[x] && (now + p)[x] == (was + p')[x];
    }
  }

  // What a call remembers once the event happened to it.
  function Told<T>(p: Pending<T>, c: Call<T>, e: Event<T>, items: seq<T>): Pending<T> {
    match e
    case Invoke => Started(c)
    case Link => if p.Pushing? then p.(done := true) else p
    case Unlink => if p.Popping? && items != [] then p.(taken := Some(items[0])) else p
    case Return(_) => NoCall
    case _ => p
  }

  lemma StepTells<T>(a: Spec<T>, act: Action<T>, e: Event<T>, a': Spec<T>)
    requires SpecNext(a, act, e) == Some(a') && act.thread < |a.calls|
    ensures var p := Told(a.calls[act.thread], act.call, e, a.items);
            a'.calls == a.calls[act.thread := p] || a' == Settle(a'.items, a.calls[act.thread := p])
  {}

  lemma BeginsWhenIdle<T>(s: State<T>, act: Action<T>)
    requires act.thread < |s.pcs|
    ensures Step(s, act).1.Invoke? <==> s.pcs[act.thread].Idle?
    ensures Step(s, act).1.Link? ==> s.pcs[act.thread].PushCasNext?
  {}

  lemma LinksOwnValue<T>(s: State<T>, a: Spec<T>, chain: seq<NodeId>, hi: nat, ti: nat, act: Action<T>)
    requires Inv(s, a, chain, hi, ti) && act.thread < |s.pcs|
    ensures act.thread < |a.calls| && (s.pcs[act.thread].Idle? ==> a.calls[act.thread].NoCall?)
    ensures s.pcs[act.thread].PushCasNext? ==>
              var p := a.calls[act.thread];
              p.Pushing? && !p.done && multiset(LinksValue(s, act)) == if Step(s, act).1.Link? then multiset{p.value} else multiset{}
  {
    hide Inv, Shape, UpTo, Ordered, Values, Step;
    LocalOf(s, a, chain, hi, ti, act.thread);
  }

  lemma ToldValues<T>(s: State<T>, a: Spec<T>, chain: seq<NodeId>, hi: nat, ti: nat, act: Action<T>, a': Spec<T>)
    requires Inv(s, a, chain, hi, ti) && act.thread < |s.pcs|
    requires SpecNext(a, act, Step(s, act).1) == Some(a')
    ensures act.thread < |a.calls|
    ensures var p, e := a.calls[act.thread], Step(s, act).1;
            AskedBy(s, act) + UnlinkedValue(p)
            == multiset(LinksValue(s, act)) + UnlinkedValue(Told(p, act.call, e, a.items))
  {
    hide Inv, Step;
    BeginsWhenIdle(s, act);
    LinksOwnValue(s, a, chain, hi, ti, act);
  }

  lemma StepLinksWhatWaits<T>(s: State<T>, a: Spec<T>, chain: seq<NodeId>, hi: nat, ti: nat, act: Action<T>, a': Spec<T>)
    requires Inv(s, a, chain, hi, ti)
    requires SpecNext(a, act, Step(s, act).1) == Some(a')
    ensures AskedBy(s, act) + Waiting(a.calls) == multiset(LinksValue(s, act)) + Waiting(a'.calls)
  {
    var t, e := act.thread, Step(s, act).1;
    if t < |s.pcs| {
      hide Inv, Step, SpecNext, Settle, Waiting, AskedBy, UnlinkedValue, LinksValue, Told;
      ToldValues(s, a, chain, hi, ti, act, a');
      StepTells(a, act, e, a');
      var p' := Told(a.calls[t], act.call, e, a.items);
      WaitingUpdate(a.calls, t, p');
      WaitingSettled(a'.items, a.calls[t := p']);
      Exchange(AskedBy(s, act), Waiting(a.calls), UnlinkedValue(a.calls[t]), multiset(LinksValue(s, act)),
               Waiting(a'.calls), UnlinkedValue(p'));
    } else {
      assert AskedBy(s, act) == multiset{} && LinksValue(s, act) == [] && a' == a;
    }
  }

  lemma {:induction false} LinkedOrWaiting<T>(zero: T, threads: nat, acts: seq<Action<T>>)
    ensures SpecRun(zero, threads, acts).Some?
    ensures Asked(zero, threads, acts)
         == multiset(Linked(zero, threads, acts)) + Waiting(SpecRun(zero, threads, acts).value.calls)
  {
    hide Inv, Step, SpecNext, Waiting, AskedBy, LinksValue;
    var chain', hi', ti' := RunKeepsInv(zero, threads, acts);
    if acts == [] {
      NothingWaits(SpecRun(zero, threads, acts).value.calls);
    } else {
      var before, act := acts[..|acts| - 1], acts[|acts| - 1];
      LinkedOrWaiting(zero, threads, before);
      var chain, hi, ti := RunKeepsInv(zero, threads, before);
      var s, a, a' := Run(zero, threads, before), SpecRun(zero, threads, before).value, SpecRun(zero, threads, acts).value;
      StepLinksWhatWaits(s, a, chain, hi, ti, act, a');
      var linked, link := Linked(zero, threads, before), LinksValue(s, act);
      assert multiset(linked + link) == multiset(linked) + multiset(link);
      assert Asked(zero, threads, acts) == (multiset(linked) + Waiting(a.calls)) + AskedBy(s, act);
      assert (multiset(linked) + Waiting(a.calls)) + AskedBy(s, act)
          == multiset(linked) + (AskedBy(s, act) + Waiting(a.calls));
      assert multiset(linked) + (multiset(link) + Waiting(a'.calls))
          == (multiset(linked) + multiset(link)) + Waiting(a'.calls);
    }
  }

  /** Every value that is linked is the argument of a push that some caller made, each push linking at
      most once; when no call is under way, exactly the pushed values were linked. */
  lemma OnlyPushedValuesAreLinked<T>(zero: T, threads: nat, acts: seq<Action<T>>)
    ensures multiset(Linked(zero, threads, acts)) <= Asked(zero, threads, acts)
    ensures (forall t | 0 <= t < |Run(zero, threads, acts).pcs| :: Run(zero, threads, acts).pcs[t].Idle?) ==>
              multiset(Linked(zero, threads, acts)) == Asked(zero, threads, acts)
  {
    LinkedOrWaiting(zero, threads, acts);
    var chain, hi, ti := RunKeepsInv(zero, threads, acts);
    var s, a := Run(zero, threads, acts), SpecRun(zero, threads, acts).value;
    if forall t | 0 <= t < |s.pcs| :: s.pcs[t].Idle? {
      forall t | 0 <= t < |a.calls| ensures UnlinkedValue(a.calls[t]) == multiset{} {
        LocalOf(s, a, chain, hi, ti, t);
      }
      NothingWaits(a.calls);
    }
  }

  // ---------------------------------------------------------------------------
  // Progress

  predicate Lagging<T>(s: State<T>) {
    s.tail < |s.nodes| && s.nodes[s.tail].next.Some?
  }

  // How many steps a push, or a pop, that starts its loop over still takes alone.
  function PushRounds<T>(s: State<T>): nat {
    if Lagging(s) then 9 else 5
  }

  function PopRounds<T>(s: State<T>): nat {
    if s.head != s.tail then 6 else if Lagging(s) then 11 else 4
  }

  function NextOf<T>(s: State<T>, n: NodeId): Option<NodeId> {
    if n < |s.nodes| then s.nodes[n].next else None
  }

  // How many steps a thread at this point still takes alone.
  function Rank<T>(s: State<T>, pc: Pc): nat {
    match pc
    case Idle => 0
    case PushLoadTail(_) => PushRounds(s)
    case PushLoadNext(_, tail) => if tail == s.tail then PushRounds(s) - 1 else PushRounds(s) + 2
    case PushCheckTail(_, tail, next) =>
      if tail != s.tail then PushRounds(s) + 1
      else if next.Some? then PushRounds(SwingTail(s, tail, next.value, false)) + 2
      else if NextOf(s, tail).None? then 3 else PushRounds(s) + 2
    case PushCasNext(_, tail) => if NextOf(s, tail).None? then 2 else PushRounds(s) + 1
    case PushHelp(_, tail, ahead) => PushRounds(SwingTail(s, tail, ahead, false)) + 1
    case PushSwing(_, _) => 1
    case PopLoadHead => PopRounds(s)
    case PopLoadTail(head) => if head == s.head then PopRounds(s) - 1 else PopRounds(s) + 3
    case PopLoadNext(head, tail) =>
      if head != s.head then PopRounds(s) + 2
      else if head != tail then 4
      else if NextOf(s, head).None? then 2
      else PopRounds(SwingTail(s, tail, NextOf(s, head).value, false)) + 3
    case PopCheckHead(head, tail, next) =>
      if head != s.head then PopRounds(s) + 1
      else if head != tail then 3
      else if next.None? then 1
      else PopRounds(SwingTail(s, tail, next.value, false)) + 2
    case PopHelp(tail, ahead) => PopRounds(SwingTail(s, tail, ahead, false)) + 1
    case PopCasHead(head, _) => if head == s.head then 2 else PopRounds(s) + 1
    case PopTake(_) => 1
    case EmptyLoadHead => 3
    case EmptyLoadTail(_) => 2
    case EmptyLoadNext(_, _) => 1
  }

  // What a thread's next step relies on.
  predicate Ready<T>(s: State<T>, pc: Pc) {
    && s.tail < |s.nodes| && (Lagging(s) ==> NextOf(s, s.nodes[s.tail].next.value).None?)
    && match pc
       case PushLoadNext(_, tail) => tail < |s.nodes|
       case PushCasNext(_, tail) => tail < |s.nodes|
       case PopLoadNext(head, _) => head < |s.nodes|
       case PushCheckTail(_, tail, next) => next.Some? ==> NextOf(s, tail) == next
       case PushHelp(_, tail, ahead) => NextOf(s, tail) == Some(ahead)
       case PopCheckHead(head, tail, next) => (next.None? ==> head == tail) && (next.Some? ==> NextOf(s, head) == next)
       case PopHelp(tail, ahead) => NextOf(s, tail) == Some(ahead)
       case PopCasHead(_, next) => next.Some?
       case PopTake(next) => next.Some? && next.value < |s.nodes|
       case EmptyLoadNext(head, _) => head < |s.nodes|
       case _ => true
  }

  lemma InvIsReady<T>(s: State<T>, a: Spec<T>, chain: seq<NodeId>, hi: nat, ti: nat, t: nat)
    requires Inv(s, a, chain, hi, ti) && t < |s.pcs|
    ensures Ready(s, s.pcs[t])
  {
    assert Local(s, a.items, chain, hi, ti, s.pcs[t], a.calls[t]);
    assert s.nodes[chain[ti]].next == After(chain, ti);
    if Lagging(s) {
      assert s.nodes[chain[ti + 1]].next == After(chain, ti + 1);
    }
  }

  predicate InPush(pc: Pc) {
    Owns(pc) || pc.PushSwing?
  }

  predicate Closer<T>(s: State<T>, t: nat, s': State<T>)
    requires t < |s.pcs|
  {
    |s'.pcs| == |s.pcs| && Rank(s', s'.pcs[t]) < Rank(s, s.pcs[t])
  }

  lemma PushAloneGetsCloser<T>(s: State<T>, t: nat)
    requires t < |s.pcs| && Ready(s, s.pcs[t]) && InPush(s.pcs[t])
    ensures Closer(s, t, Step(s, Action(t, Pop, false)).0)
  {}

  lemma PopAloneGetsCloser<T>(s: State<T>, t: nat)
    requires t < |s.pcs| && Ready(s, s.pcs[t]) && !InPush(s.pcs[t]) && !s.pcs[t].Idle?
    ensures Closer(s, t, Step(s, Action(t, Pop, false)).0)
  {}

  lemma StepAloneGetsCloser<T>(s: State<T>, t: nat)
    requires t < |s.pcs| && Ready(s, s.pcs[t]) && !s.pcs[t].Idle?
    ensures Closer(s, t, Step(s, Action(t, Pop, false)).0)
  {
    hide Closer, Ready, Step;
    if InPush(s.pcs[t]) {
      PushAloneGetsCloser(s, t);
    } else {
      PopAloneGetsCloser(s, t);
    }
  }

  lemma RankIsBounded<T>(s: State<T>, pc: Pc)
    ensures Rank(s, pc) <= 14
  {}

  // A thread running alone, without spurious failures, until its call returns or the steps are used up.
  function Alone<T>(s: State<T>, t: nat, steps: nat): State<T>
    decreases steps
  {
    if steps == 0 || t >= |s.pcs| || s.pcs[t].Idle? then s
    else Alone(Step(s, Action(t, Pop, false)).0, t, steps - 1)
  }

  lemma {:induction false} FinishesAlone<T>(s: State<T>, a: Spec<T>, chain: seq<NodeId>, hi: nat, ti: nat,
                                            t: nat, steps: nat)
    requires Inv(s, a, chain, hi, ti) && t < |s.pcs| && Rank(s, s.pcs[t]) <= steps
    ensures t < |Alone(s, t, steps).pcs| && Alone(s, t, steps).pcs[t].Idle?
    decreases steps
  {
    hide Inv, Step, Ready, Rank;
    InvIsReady(s, a, chain, hi, ti, t);
    if s.pcs[t].Idle? {
    } else {
      var act: Action<T> := Action(t, Pop, false);
      StepAloneGetsCloser(s, t);
      var chain', hi', ti' := StepKeepsInv(s, a, chain, hi, ti, act);
      FinishesAlone(Step(s, act).0, SpecNext(a, act, Step(s, act).1).value, chain', hi', ti', t, steps - 1);
    }
  }

  /** Progress: from every reachable state, a thread left alone, with no spurious failure, finishes the
      call it is in within 14 steps. */
  lemma CallsFinishAlone<T>(zero: T, threads: nat, acts: seq<Action<T>>, t: nat)
    requires t < |Run(zero, threads, acts).pcs|
    ensures t < |Alone(Run(zero, threads, acts), t, 14).pcs|
    ensures Alone(Run(zero, threads, acts), t, 14).pcs[t].Idle?
  {
    hide Inv, Rank, Alone;
    var chain, hi, ti := RunKeepsInv(zero, threads, acts);
    var s := Run(zero, threads, acts);
    RankIsBounded(s, s.pcs[t]);
    FinishesAlone(s, SpecRun(zero, threads, acts).value, chain, hi, ti, t, 14);
  }

  // ---------------------------------------------------------------------------
  // Lock freedom

  // A step that links a value, unlinks one, or returns.
  predicate Advances<T>(e: Event<T>) {
    e.Link? || e.Unlink? || e.Return?
  }

  // An idle thread can still begin a call.
  function Weight<T>(s: State<T>, pc: Pc): nat {
    if pc.Idle? then 15 else Rank(s, pc)
  }

  // How many steps the first n threads can still take before one of them advances.
  function Potential<T>(s: State<T>, n: nat): nat
    requires n <= |s.pcs|
  {
    if n == 0 then 0 else Potential(s, n - 1) + Weight(s, s.pcs[n - 1])
  }

  ghost predicate AllReady<T>(s: State<T>) {
    forall t | 0 <= t < |s.pcs| :: Ready(s, s.pcs[t])
  }

  ghost predicate Allocates<T>(s: State<T>, s': State<T>) {
    && |s'.nodes| == |s.nodes| + 1 && s'.nodes[|s.nodes|].next.None?
    && forall n | 0 <= n < |s.nodes| :: s'.nodes[n] == s.nodes[n]
  }

  // A step that does not advance leaves memory alone, allocates a node, or moves a lagging tail on.
  ghost predicate Calm<T>(s: State<T>, s': State<T>) {
    && s'.head == s.head
    && (s'.nodes == s.nodes || (s'.tail == s.tail && Allocates(s, s')))
    && (s'.tail == s.tail || (Lagging(s) && Some(s'.tail) == s.nodes[s.tail].next))
  }

  lemma AllocationKeepsPushRank<T>(s: State<T>, s': State<T>, pc: Pc)
    requires Allocates(s, s') && s'.head == s.head && s'.tail == s.tail && InPush(pc)
    ensures Rank(s', pc) == Rank(s, pc)
  {
    assert forall n: NodeId :: NextOf(s', n) == NextOf(s, n);
  }

  lemma AllocationKeepsPopRank<T>(s: State<T>, s': State<T>, pc: Pc)
    requires Allocates(s, s') && s'.head == s.head && s'.tail == s.tail && !InPush(pc)
    ensures Rank(s', pc) == Rank(s, pc)
  {
    assert forall n: NodeId :: NextOf(s', n) == NextOf(s, n);
  }

  lemma AllocationKeepsRank<T>(s: State<T>, s': State<T>, pc: Pc)
    requires Allocates(s, s') && s'.head == s.head && s'.tail == s.tail
    ensures Rank(s', pc) == Rank(s, pc)
  {
    hide Allocates, Rank;
    if InPush(pc) {
      AllocationKeepsPushRank(s, s', pc);
    } else {
      AllocationKeepsPopRank(s, s', pc);
    }
  }

  lemma SwingLowersRank<T>(s: State<T>, s': State<T>, pc: Pc)
    requires Ready(s, pc) && Lagging(s)
    requires s'.nodes == s.nodes && s'.head == s.head && Some(s'.tail) == s.nodes[s.tail].next
    ensures Rank(s', pc) <= Rank(s, pc)
  {}

  lemma SameMemorySameRank<T>(s: State<T>, s': State<T>, pc: Pc)
    requires s'.nodes == s.nodes && s'.head == s.head && s'.tail == s.tail
    ensures Rank(s', pc) == Rank(s, pc)
  {}

  lemma CalmKeepsWeight<T>(s: State<T>, s': State<T>, pc: Pc)
    requires Ready(s, pc) && Calm(s, s')
    ensures Weight(s', pc) <= Weight(s, pc)
  {
    if s'.nodes != s.nodes {
      AllocationKeepsRank(s, s', pc);
    } else if s'.tail != s.tail {
      SwingLowersRank(s, s', pc);
    } else {
      SameMemorySameRank(s, s', pc);
    }
  }

  lemma PushStepIsCalm<T>(s: State<T>, act: Action<T>)
    requires act.thread < |s.pcs| && !act.spurious && Ready(s, s.pcs[act.thread]) && !Advances(Step(s, act).1)
    requires InPush(s.pcs[act.thread])
    ensures Calm(s, Step(s, act).0)
  {}

  lemma PopStepIsCalm<T>(s: State<T>, act: Action<T>)
    requires act.thread < |s.pcs| && !act.spurious && Ready(s, s.pcs[act.thread]) && !Advances(Step(s, act).1)
    requires !InPush(s.pcs[act.thread])
    ensures Calm(s, Step(s, act).0)
  {}

  lemma OthersStay<T>(s: State<T>, act: Action<T>)
    ensures |Step(s, act).0.pcs| == |s.pcs|
    ensures forall u | 0 <= u < |s.pcs| && u != act.thread :: Step(s, act).0.pcs[u] == s.pcs[u]
  {}

  lemma StepIsCalm<T>(s: State<T>, act: Action<T>)
    requires act.thread < |s.pcs| && !act.spurious && Ready(s, s.pcs[act.thread]) && !Advances(Step(s, act).1)
    ensures Calm(s, Step(s, act).0)
    ensures |Step(s, act).0.pcs| == |s.pcs|
    ensures forall u | 0 <= u < |s.pcs| && u != act.thread :: Step(s, act).0.pcs[u] == s.pcs[u]
  {
    hide Step, Calm, Ready, Advances;
    OthersStay(s, act);
    if InPush(s.pcs[act.thread]) {
      PushStepIsCalm(s, act);
    } else {
      PopStepIsCalm(s, act);
    }
  }

  // A thread inside a call does not look at what it might call next.
  lemma CallDoesNotMatter<T>(s: State<T>, t: nat, c: Call<T>, d: Call<T>)
    requires t < |s.pcs| && !s.pcs[t].Idle?
    ensures Step(s, Action(t, c, false)) == Step(s, Action(t, d, false))
  {}

  lemma MoverLosesWeight<T>(s: State<T>, act: Action<T>)
    requires act.thread < |s.pcs| && !act.spurious && Ready(s, s.pcs[act.thread])
    ensures |Step(s, act).0.pcs| == |s.pcs|
    ensures var s' := Step(s, act).0;
            || Weight(s', s'.pcs[act.thread]) < Weight(s, s.pcs[act.thread])
            || (!s.pcs[act.thread].Idle? && s'.pcs[act.thread].Idle?)
  {
    var t := act.thread;
    if !s.pcs[t].Idle? {
      CallDoesNotMatter(s, t, act.call, Pop);
      StepAloneGetsCloser(s, t);
    }
  }

  lemma IdleMeansReturned<T>(s: State<T>, act: Action<T>)
    requires act.thread < |s.pcs| && !s.pcs[act.thread].Idle?
    requires act.thread < |Step(s, act).0.pcs| && Step(s, act).0.pcs[act.thread].Idle?
    ensures Advances(Step(s, act).1)
  {}

  lemma {:induction false} PotentialFalls<T>(s: State<T>, s': State<T>, t: nat, n: nat)
    requires n <= |s.pcs| == |s'.pcs|
    requires forall u | 0 <= u < n && u != t :: Weight(s', s'.pcs[u]) <= Weight(s, s.pcs[u])
    requires t < n ==> Weight(s', s'.pcs[t]) < Weight(s, s.pcs[t])
    ensures Potential(s', n) <= Potential(s, n)
    ensures t < n ==> Potential(s', n) < Potential(s, n)
  {
    hide Weight;
    if n > 0 {
      PotentialFalls(s, s', t, n - 1);
    }
  }

  lemma StepLowersPotential<T>(s: State<T>, act: Action<T>)
    requires AllReady(s) && act.thread < |s.pcs| && !act.spurious && !Advances(Step(s, act).1)
    ensures |Step(s, act).0.pcs| == |s.pcs|
    ensures Potential(Step(s, act).0, |s.pcs|) < Potential(s, |s.pcs|)
  {
    hide Step, Ready, Calm, Weight, Advances;
    var t, s' := act.thread, Step(s, act).0;
    assert Ready(s, s.pcs[t]);
    StepIsCalm(s, act);
    forall u | 0 <= u < |s.pcs| && u != t ensures Weight(s', s'.pcs[u]) <= Weight(s, s.pcs[u]) {
      assert Ready(s, s.pcs[u]);
      CalmKeepsWeight(s, s', s.pcs[u]);
    }
    MoverLosesWeight(s, act);
    if !s.pcs[t].Idle? && s'.pcs[t].Idle? {
      IdleMeansReturned(s, act);
    }
    PotentialFalls(s, s', t, |s.pcs|);
  }

  lemma {:induction false} PotentialIsBounded<T>(s: State<T>, n: nat)
    requires n <= |s.pcs|
    ensures Potential(s, n) <= 15 * n
  {
    if n > 0 {
      PotentialIsBounded(s, n - 1);
      RankIsBounded(s, s.pcs[n - 1]);
    }
  }

  lemma RunIsReady<T>(zero: T, threads: nat, acts: seq<Action<T>>)
    ensures AllReady(Run(zero, threads, acts))
  {
    hide Inv, Ready;
    var chain, hi, ti := RunKeepsInv(zero, threads, acts);
    var s := Run(zero, threads, acts);
    forall t | 0 <= t < |s.pcs| ensures Ready(s, s.pcs[t]) {
      InvIsReady(s, SpecRun(zero, threads, acts).value, chain, hi, ti, t);
    }
  }

  lemma StepKeepsThreads<T>(s: State<T>, act: Action<T>)
    ensures |Step(s, act).0.pcs| == |s.pcs|
  {}

  lemma {:induction false} ThreadsStay<T>(zero: T, threads: nat, acts: seq<Action<T>>)
    ensures |Run(zero, threads, acts).pcs| == threads
  {
    if acts != [] {
      ThreadsStay(zero, threads, acts[..|acts| - 1]);
      StepKeepsThreads(Run(zero, threads, acts[..|acts| - 1]), acts[|acts| - 1]);
    }
  }

  lemma {:induction false} SomeStepAdvances<T>(zero: T, threads: nat, acts: seq<Action<T>>, more: seq<Action<T>>)
    returns (k: nat)
    requires |Run(zero, threads, acts).pcs| == threads
    requires |more| > Potential(Run(zero, threads, acts), threads)
    requires forall i | 0 <= i < |more| :: more[i].thread < threads && !more[i].spurious
    ensures k < |more| && Advances(LastEvent(zero, threads, acts + more[..k + 1]))
    decreases |more|
  {
    hide Step, Advances, Potential, AllReady;
    var s, act := Run(zero, threads, acts), more[0];
    assert (acts + [act])[..|acts|] == acts;
    assert acts + more[..1] == acts + [act];
    if Advances(Step(s, act).1) {
      k := 0;
    } else {
      RunIsReady(zero, threads, acts);
      StepLowersPotential(s, act);
      var rest := SomeStepAdvances(zero, threads, acts + [act], more[1..]);
      assert acts + more[..rest + 2] == (acts + [act]) + more[1..][..rest + 1];
      k := rest + 1;
    }
  }

  /** Lock freedom: from every reachable state, among any 15 steps per thread and one more, without
      spurious failures and however the threads interleave, some step links a value, unlinks one, or
      returns from a call. */
  lemma LockFree<T>(zero: T, threads: nat, acts: seq<Action<T>>, more: seq<Action<T>>) returns (k: nat)
    requires |more| > 15 * threads
    requires forall i | 0 <= i < |more| :: more[i].thread < threads && !more[i].spurious
    ensures k < |more| && Advances(LastEvent(zero, threads, acts + more[..k + 1]))
  {
    ThreadsStay(zero, threads, acts);
    PotentialIsBounded(Run(zero, threads, acts), threads);
    k := SomeStepAdvances(zero, threads, acts, more);
  }
}
