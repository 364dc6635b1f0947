/**
 The completion ring of the I/O context: 256 entries addressed by two wrapping 32-bit
 counters and a mask, protected only by the counts of unflushed submissions and of
 pending completions.  The value-level account at the top is the unbounded FIFO with
 its counts; the class below it is the ring and is proved to refine that account.
 */
module CompletionRing {
  import opened Sequences

  const ENTRIES := 256
  const WRAP := 0x1_0000_0000

  // UCX's result for a cancelled timer is not an error of the operation.
  const ECANCELED := 125

  type U32 = x: int | 0 <= x < 0x1_0000_0000

  datatype User = Operation(id: nat) | RemoteWake | Timer | RemoveTimer

  datatype Cqe = Cqe(user: User, res: int)

  datatype Completion = Completion(id: nat, result: int)

  // What a populate step does once it is let in.
  datatype Populate =
    | PostsNow(user: User, res: int)
    | StartsRequest(user: User)
    | ReturnsEarly
    | ParksItself
    | Refuses

  datatype Op =
    | Submit(populate: Populate)
    | Complete(user: User, res: int)
    | Register(remoteItems: bool)
    | Signal
    | Drain

  // pending: entries posted and not drained, oldest first.  inFlight: submissions that may
  // still post once.  abandoned: submissions that were counted but will never post.
  datatype Account = Account(
    pending: seq<Cqe>, inFlight: multiset<User>, abandoned: nat,
    unflushed: int, completing: int,
    armed: bool, waiting: bool, timersDirty: bool, local: seq<Completion>)

  const EMPTY := Account([], multiset{}, 0, 0, 0, false, false, false, [])

  function Wakes(q: seq<Cqe>): nat {
    if q == [] then 0 else Wakes(q[..|q| - 1]) + if q[|q| - 1].user.RemoteWake? then 1 else 0
  }

  function Completions(q: seq<Cqe>): seq<Completion> {
    if q == [] then []
    else
      var e := q[|q| - 1];
      Completions(q[..|q| - 1]) + if e.user.Operation? then [Completion(e.user.id, e.res)] else []
  }

  predicate TimerFired(q: seq<Cqe>) {
    exists i :: 0 <= i < |q| && q[i].user.Timer? && q[i].res != ECANCELED
  }

  predicate CanSubmit(a: Account) {
    a.unflushed < ENTRIES && a.completing + a.unflushed < ENTRIES
  }

  // What the environment may do: UCX completes a request in flight, once; the remote queue is
  // registered only while no wake-up is awaited; only Register and Signal speak for the remote queue.
  predicate Enabled(a: Account, op: Op) {
    match op
    case Submit(PostsNow(u, _)) => !u.RemoteWake?
    case Submit(StartsRequest(u)) => !u.RemoteWake?
    case Complete(u, _) => u in a.inFlight && !u.RemoteWake?
    case Register(_) => !a.waiting
    case _ => true
  }

  function Submitted(a: Account, p: Populate): Account {
    if !CanSubmit(a) then a else
    match p
    case PostsNow(u, r) => a.(pending := a.pending + [Cqe(u, r)], completing := a.completing + 1)
    case StartsRequest(u) => a.(inFlight := a.inFlight + multiset{u}, unflushed := a.unflushed + 1)
    case ReturnsEarly => a.(abandoned := a.abandoned + 1, unflushed := a.unflushed + 1)
    case ParksItself => a
    case Refuses => a
  }

  function Completed(a: Account, u: User, r: int): Account {
    a.(pending := a.pending + [Cqe(u, r)], inFlight := a.inFlight - multiset{u},
       unflushed := a.unflushed - 1, completing := a.completing + 1)
  }

  function Registered(a: Account, items: bool): Account {
    if !CanSubmit(a) || items then a
    else a.(inFlight := a.inFlight + multiset{RemoteWake}, unflushed := a.unflushed + 1, armed := true, waiting := true)
  }

  function Signalled(a: Account): Account {
    if !a.armed then a
    else a.(pending := a.pending + [Cqe(RemoteWake, 0)], inFlight := a.inFlight - multiset{RemoteWake}, armed := false)
  }

  function Emptied(a: Account): Account {
    var w := Wakes(a.pending);
    a.(pending := [], unflushed := a.unflushed - w, completing := a.completing + w - |a.pending|,
       waiting := a.waiting && w == 0, timersDirty := a.timersDirty || TimerFired(a.pending),
       local := a.local + Completions(a.pending))
  }

  function Apply(a: Account, op: Op): Account {
    match op
    case Submit(p) => Submitted(a, p)
    case Complete(u, r) => Completed(a, u, r)
    case Register(items) => Registered(a, items)
    case Signal => Signalled(a)
    case Drain => Emptied(a)
  }

  /** The exact meaning of the two counts: a wake-up posted from another thread stays counted as
      unflushed until it is drained, everything else moves from one count to the other when posted. */
  predicate Balanced(a: Account) {
    && a.unflushed == |a.inFlight| + Wakes(a.pending) + a.abandoned
    && a.completing == |a.pending| - Wakes(a.pending)
    && a.unflushed + a.completing <= ENTRIES
    && a.inFlight[RemoteWake] == (if a.armed then 1 else 0)
    && Wakes(a.pending) + (if a.armed then 1 else 0) == (if a.waiting then 1 else 0)
  }

  lemma WakesOfAppend(q: seq<Cqe>, e: Cqe)
    ensures Wakes(q + [e]) == Wakes(q) + if e.user.RemoteWake? then 1 else 0
  {
    assert (q + [e])[..|q|] == q;
  }

  lemma CompletionsOfAppend(q: seq<Cqe>, e: Cqe)
    ensures Completions(q + [e]) == Completions(q) + if e.user.Operation? then [Completion(e.user.id, e.res)] else []
  {
    assert (q + [e])[..|q|] == q;
  }

  lemma {:induction false} WakesBound(q: seq<Cqe>)
    ensures Wakes(q) <= |q|
  {
    if q != [] {
      WakesBound(q[..|q| - 1]);
    }
  }

  lemma PostKeepsBalance(a: Account, u: User, r: int)
    requires Balanced(a) && CanSubmit(a) && !u.RemoteWake?
    ensures Balanced(a.(pending := a.pending + [Cqe(u, r)], completing := a.completing + 1))
  {
    WakesOfAppend(a.pending, Cqe(u, r));
  }

  lemma CompleteKeepsBalance(a: Account, u: User, r: int)
    requires Balanced(a) && Enabled(a, Complete(u, r))
    ensures Balanced(Completed(a, u, r))
    ensures |a.pending| < ENTRIES
  {
    WakesOfAppend(a.pending, Cqe(u, r));
    assert |a.inFlight - multiset{u}| == |a.inFlight| - 1;
  }

  lemma SignalKeepsBalance(a: Account)
    requires Balanced(a)
    ensures Balanced(Signalled(a))
    ensures a.armed ==> |a.pending| < ENTRIES
  {
    WakesOfAppend(a.pending, Cqe(RemoteWake, 0));
    assert a.armed ==> |a.inFlight - multiset{RemoteWake}| == |a.inFlight| - 1;
  }

  lemma SubmitKeepsBalance(a: Account, p: Populate)
    requires Balanced(a) && Enabled(a, Submit(p))
    ensures Balanced(Submitted(a, p))
    ensures CanSubmit(a) ==> |a.pending| < ENTRIES
  {
    match p
    case PostsNow(u, r) =>
      if CanSubmit(a) {
        PostKeepsBalance(a, u, r);
      }
    case _ =>
  }

  lemma RegisterKeepsBalance(a: Account, items: bool)
    requires Balanced(a) && Enabled(a, Register(items))
    ensures Balanced(Registered(a, items))
  {}

  lemma DrainKeepsBalance(a: Account)
    requires Balanced(a)
    ensures Balanced(Emptied(a))
  {
    WakesBound(a.pending);
  }

  lemma ApplyKeepsBalance(a: Account, op: Op)
    requires Balanced(a) && Enabled(a, op)
    ensures Balanced(Apply(a, op))
  {
    match op
    case Submit(p) => SubmitKeepsBalance(a, p);
    case Complete(u, r) => CompleteKeepsBalance(a, u, r);
    case Register(items) => RegisterKeepsBalance(a, items);
    case Signal => SignalKeepsBalance(a);
    case Drain => DrainKeepsBalance(a);
  }

  // ---------------------------------------------------------------------------
  // Runs

  // A run is any sequence of operations; one the environment cannot take there changes nothing.
  function Next(a: Account, op: Op): Account {
    if Enabled(a, op) then Apply(a, op) else a
  }

  function After(ops: seq<Op>): Account {
    if ops == [] then EMPTY else Next(After(ops[..|ops| - 1]), ops[|ops| - 1])
  }

  // The entry an operation posts, if it does.
  function Posts(a: Account, op: Op): seq<Cqe> {
    if !Enabled(a, op) then [] else
    match op
    case Submit(PostsNow(u, r)) => if CanSubmit(a) then [Cqe(u, r)] else []
    case Complete(u, r) => [Cqe(u, r)]
    case Signal => if a.armed then [Cqe(RemoteWake, 0)] else []
    case _ => []
  }

  // The request an operation starts, if it does.
  function Starts(a: Account, op: Op): multiset<User> {
    if !Enabled(a, op) || !CanSubmit(a) then multiset{} else
    match op
    case Submit(PostsNow(u, _)) => multiset{u}
    case Submit(StartsRequest(u)) => multiset{u}
    case Register(items) => if items then multiset{} else multiset{RemoteWake}
    case _ => multiset{}
  }

  // Everything ever posted, drained and started by a run.
  function Posted(ops: seq<Op>): seq<Cqe> {
    if ops == [] then []
    else Posted(ops[..|ops| - 1]) + Posts(After(ops[..|ops| - 1]), ops[|ops| - 1])
  }

  function Drained(ops: seq<Op>): seq<Cqe> {
    if ops == [] then []
    else Drained(ops[..|ops| - 1]) + if ops[|ops| - 1].Drain? then After(ops[..|ops| - 1]).pending else []
  }

  function Started(ops: seq<Op>): multiset<User> {
    if ops == [] then multiset{}
    else Started(ops[..|ops| - 1]) + Starts(After(ops[..|ops| - 1]), ops[|ops| - 1])
  }

  function Users(q: seq<Cqe>): seq<User> {
    seq(|q|, i requires 0 <= i < |q| => q[i].user)
  }

  /** Over every run the ring never holds more than the counts admit, the counts never admit more
      than 256, and a count is never negative. */
  lemma {:induction false} RunStaysBalanced(ops: seq<Op>)
    ensures Balanced(After(ops))
    ensures |After(ops).pending| + |After(ops).inFlight| <= After(ops).unflushed + After(ops).completing <= ENTRIES
    ensures 0 <= After(ops).unflushed && 0 <= After(ops).completing
    ensures CanSubmit(After(ops)) <==> After(ops).unflushed + After(ops).completing < 256
  {
    if ops != [] {
      RunStaysBalanced(ops[..|ops| - 1]);
      if Enabled(After(ops[..|ops| - 1]), ops[|ops| - 1]) {
        ApplyKeepsBalance(After(ops[..|ops| - 1]), ops[|ops| - 1]);
      }
    }
    WakesBound(After(ops).pending);
  }

  lemma {:induction false} CompletionsOfConcat(p: seq<Cqe>, q: seq<Cqe>)
    ensures Completions(p + q) == Completions(p) + Completions(q)
  {
    if q == [] {
      assert p + q == p;
    } else {
      var e := q[|q| - 1];
      CompletionsOfConcat(p, q[..|q| - 1]);
      assert p + q == (p + q[..|q| - 1]) + [e];
      CompletionsOfAppend(p + q[..|q| - 1], e);
    }
  }

  lemma SubmitIsFifo(a: Account, p: Populate)
    requires Enabled(a, Submit(p))
    ensures a.pending + Posts(a, Submit(p)) == Submitted(a, p).pending
  {}

  lemma StepIsFifo(a: Account, op: Op)
    ensures a.pending + Posts(a, op) == (if op.Drain? then a.pending else []) + Next(a, op).pending
  {
    hide Submitted;
    if Enabled(a, op) && op.Submit? {
      SubmitIsFifo(a, op.populate);
    }
  }

  lemma StepDelivers(a: Account, op: Op)
    ensures Next(a, op).local == a.local + if op.Drain? then Completions(a.pending) else []
  {}

  /** Over every run, what was drained followed by what is pending is what was posted: each entry is
      drained exactly once, in posting order, and the local queue received the operations' results
      in that order. */
  lemma {:induction false} RunIsFifo(ops: seq<Op>)
    ensures Posted(ops) == Drained(ops) + After(ops).pending
    ensures After(ops).local == Completions(Drained(ops))
  {
    if ops != [] {
      var before, op := ops[..|ops| - 1], ops[|ops| - 1];
      RunIsFifo(before);
      var a := After(before);
      var out := if op.Drain? then a.pending else [];
      StepIsFifo(a, op);
      StepDelivers(a, op);
      assert Completions([]) == [];
      CompletionsOfConcat(Drained(before), out);
      Regroup(Drained(before), a.pending, Posts(a, op), out, After(ops).pending);
    }
  }

  function OperationsIn(q: seq<Cqe>): nat {
    if q == [] then 0 else OperationsIn(q[..|q| - 1]) + if q[|q| - 1].user.Operation? then 1 else 0
  }

  /** The local queue gets exactly the entries of operations, each with its own id and result, at the
      position its entry has among them. */
  lemma {:induction false} CompletionsAreOperations(q: seq<Cqe>, i: nat)
    ensures |Completions(q)| == OperationsIn(q)
    ensures i < |q| && q[i].user.Operation? ==>
              && OperationsIn(q[..i]) < |Completions(q)|
              && Completions(q)[OperationsIn(q[..i])] == Completion(q[i].user.id, q[i].res)
  {
    if q != [] {
      CompletionsAreOperations(q[..|q| - 1], i);
      if i < |q| - 1 {
        assert q[..|q| - 1][..i] == q[..i];
      }
    }
  }

  lemma TimerFiredOfConcat(p: seq<Cqe>, q: seq<Cqe>)
    ensures TimerFired(p + q) <==> TimerFired(p) || TimerFired(q)
  {
    if TimerFired(p) {
      var i :| 0 <= i < |p| && p[i].user.Timer? && p[i].res != ECANCELED;
      assert (p + q)[i] == p[i];
    }
    if TimerFired(q) {
      var i :| 0 <= i < |q| && q[i].user.Timer? && q[i].res != ECANCELED;
      assert (p + q)[|p| + i] == q[i];
    }
  }

  lemma StepNoticesTimers(a: Account, op: Op)
    ensures Next(a, op).timersDirty <==> a.timersDirty || (op.Drain? && TimerFired(a.pending))
  {}

  /** A run marks its timers as due exactly when it drained a timer entry whose result is not a
      cancellation. */
  lemma {:induction false} TimersAreNoticed(ops: seq<Op>)
    ensures After(ops).timersDirty <==>
            exists i :: 0 <= i < |Drained(ops)| && Drained(ops)[i].user.Timer? && Drained(ops)[i].res != 125
  {
    hide Next;
    if ops == [] {
      assert Drained(ops) == [] && After(ops) == EMPTY;
    } else {
      var before, op := ops[..|ops| - 1], ops[|ops| - 1];
      TimersAreNoticed(before);
      StepNoticesTimers(After(before), op);
      var out := if op.Drain? then After(before).pending else [];
      TimerFiredOfConcat(Drained(before), out);
      assert Drained(ops) == Drained(before) + out;
      assert TimerFired(Drained(ops)) <==> After(ops).timersDirty;
    }
  }

  lemma UsersOfOne(q: seq<Cqe>)
    requires |q| <= 1
    ensures Users(q) == if q == [] then [] else [q[0].user]
  {}

  lemma SubmitConserves(a: Account, p: Populate)
    requires Enabled(a, Submit(p))
    ensures a.inFlight + Starts(a, Submit(p)) == Submitted(a, p).inFlight + multiset(Users(Posts(a, Submit(p))))
  {
    UsersOfOne(Posts(a, Submit(p)));
  }

  lemma CompleteConserves(a: Account, u: User, r: int)
    requires Enabled(a, Complete(u, r))
    ensures a.inFlight + Starts(a, Complete(u, r))
         == Completed(a, u, r).inFlight + multiset(Users(Posts(a, Complete(u, r))))
  {
    UsersOfOne(Posts(a, Complete(u, r)));
  }

  lemma SignalConserves(a: Account)
    requires Balanced(a)
    ensures a.inFlight + Starts(a, Signal) == Signalled(a).inFlight + multiset(Users(Posts(a, Signal)))
  {
    UsersOfOne(Posts(a, Signal));
    assert a.armed ==> RemoteWake in a.inFlight;
  }

  lemma StepConservesRequests(a: Account, op: Op)
    requires Balanced(a)
    ensures a.inFlight + Starts(a, op) == Next(a, op).inFlight + multiset(Users(Posts(a, op)))
  {
    hide Submitted, Completed, Signalled;
    if Enabled(a, op) {
      match op
      case Submit(p) => SubmitConserves(a, p);
      case Complete(u, r) => CompleteConserves(a, u, r);
      case Signal => SignalConserves(a);
      case _ => UsersOfOne(Posts(a, op));
    } else {
      UsersOfOne(Posts(a, op));
    }
  }

  lemma RegroupRequests(started: multiset<User>, inFlight: multiset<User>, posted: seq<Cqe>,
                        more: multiset<User>, inFlight': multiset<User>, added: seq<Cqe>)
    requires started == inFlight + multiset(Users(posted))
    requires inFlight + more == inFlight' + multiset(Users(added))
    ensures started + more == inFlight' + multiset(Users(posted + added))
  {
    assert Users(posted + added) == Users(posted) + Users(added);
    var p, n := multiset(Users(posted)), multiset(Users(added));
    assert multiset(Users(posted) + Users(added)) == p + n;
    assert (inFlight + p) + more == (inFlight + more) + p;
    assert (inFlight' + n) + p == inFlight' + (p + n);
  }

  /** Over every run, each started request is either still in flight or has posted exactly one entry. */
  lemma {:induction false} RunConservesRequests(ops: seq<Op>)
    ensures Started(ops) == After(ops).inFlight + multiset(Users(Posted(ops)))
  {
    if ops != [] {
      var before, op := ops[..|ops| - 1], ops[|ops| - 1];
      RunConservesRequests(before);
      RunStaysBalanced(before);
      StepConservesRequests(After(before), op);
      RegroupRequests(Started(before), After(before).inFlight, Posted(before), Starts(After(before), op),
                      After(ops).inFlight, Posts(After(before), op));
    }
  }

  lemma AbandonedNeverShrinks(a: Account, op: Op)
    ensures Next(a, op).abandoned >= a.abandoned
  {}

  lemma {:induction false} AbandonedOnlyGrows(ops: seq<Op>, more: seq<Op>)
    ensures After(ops + more).abandoned >= After(ops).abandoned
    decreases |more|
  {
    if more == [] {
      assert ops + more == ops;
    } else {
      var fewer, last := more[..|more| - 1], more[|more| - 1];
      AbandonedOnlyGrows(ops, fewer);
      AbandonedNeverShrinks(After(ops + fewer), last);
      assert (ops + more)[..|ops + more| - 1] == ops + fewer;
    }
  }

  /** A submission that is counted but never posts takes its slot for good: with 256 of them no
      operation is ever let in again. */
  lemma AbandonedSlotsStayTaken(ops: seq<Op>, more: seq<Op>)
    requires After(ops).abandoned >= ENTRIES
    ensures !CanSubmit(After(ops + more))
  {
    AbandonedOnlyGrows(ops, more);
    RunStaysBalanced(ops + more);
    WakesBound(After(ops + more).pending);
  }

  // A submission that is let in, counted, and posts nothing.
  predicate Abandons(a: Account, op: Op) {
    op == Submit(ReturnsEarly) && CanSubmit(a)
  }

  predicate NeverAbandons(ops: seq<Op>) {
    ops != [] ==> NeverAbandons(ops[..|ops| - 1]) && !Abandons(After(ops[..|ops| - 1]), ops[|ops| - 1])
  }

  lemma StepAbandons(a: Account, op: Op)
    ensures Next(a, op).abandoned == a.abandoned + if Abandons(a, op) then 1 else 0
  {}

  /** A run loses no slot if and only if none of its steps is a submission that is let in and returns
      early. */
  lemma {:induction false} SlotsComeBackIff(ops: seq<Op>)
    ensures After(ops).abandoned == 0 <==> NeverAbandons(ops)
  {
    if ops != [] {
      SlotsComeBackIff(ops[..|ops| - 1]);
      StepAbandons(After(ops[..|ops| - 1]), ops[|ops| - 1]);
    }
  }

  /** With nothing pending and nothing in flight, the abandoned slots are all that is still counted. */
  lemma QuietCountsAreAbandoned(ops: seq<Op>)
    requires After(ops).pending == [] && After(ops).inFlight == multiset{}
    ensures After(ops).unflushed == After(ops).abandoned && After(ops).completing == 0
    ensures CanSubmit(After(ops)) <==> After(ops).abandoned < ENTRIES
  {
    RunStaysBalanced(ops);
  }

  lemma AfterOneMore(ops: seq<Op>, op: Op)
    ensures After(ops + [op]) == Next(After(ops), op)
  {
    assert (ops + [op])[..|ops|] == ops;
  }

  // The step by which a request in flight posts its entry.
  function Land(u: User): Op {
    if u.RemoteWake? then Signal else Complete(u, 0)
  }

  lemma LandingShrinks(a: Account, u: User)
    requires Balanced(a) && u in a.inFlight
    ensures |Next(a, Land(u)).inFlight| < |a.inFlight|
    ensures Next(a, Land(u)).abandoned == a.abandoned
  {
    assert |a.inFlight - multiset{u}| == |a.inFlight| - 1;
    if u.RemoteWake? {
      assert a.armed;
    }
  }

  // Whatever is in flight can complete, and be drained, without abandoning anything more.
  lemma {:induction false} CanSettle(ops: seq<Op>) returns (more: seq<Op>)
    ensures After(ops + more).pending == [] && After(ops + more).inFlight == multiset{}
    ensures After(ops + more).abandoned == After(ops).abandoned
    decreases |After(ops).inFlight|
  {
    if u :| u in After(ops).inFlight {
      RunStaysBalanced(ops);
      LandingShrinks(After(ops), u);
      AfterOneMore(ops, Land(u));
      var rest := CanSettle(ops + [Land(u)]);
      assert (ops + [Land(u)]) + rest == ops + ([Land(u)] + rest);
      more := [Land(u)] + rest;
    } else {
      more := [Drain];
      AfterOneMore(ops, Drain);
    }
  }

  /** The context can be let in again, in some continuation, if and only if fewer than 256 slots were
      abandoned. */
  lemma RoomComesBackIff(ops: seq<Op>)
    ensures (exists more :: CanSubmit(After(ops + more))) <==> After(ops).abandoned < ENTRIES
  {
    if After(ops).abandoned >= ENTRIES {
      forall more ensures !CanSubmit(After(ops + more)) {
        AbandonedSlotsStayTaken(ops, more);
      }
    } else {
      var more := CanSettle(ops);
      QuietCountsAreAbandoned(ops + more);
      assert CanSubmit(After(ops + more));
    }
  }

  function EarlyReturns(n: nat): seq<Op> {
    seq(n, i => Submit(ReturnsEarly))
  }

  lemma {:induction false} EarlyReturnsAbandon(n: nat)
    requires n <= ENTRIES
    ensures After(EarlyReturns(n)) == EMPTY.(abandoned := n, unflushed := n)
  {
    if n > 0 {
      EarlyReturnsAbandon(n - 1);
      assert EarlyReturns(n) == EarlyReturns(n - 1) + [Submit(ReturnsEarly)];
      AfterOneMore(EarlyReturns(n - 1), Submit(ReturnsEarly));
    }
  }

  /** It does happen: after 256 early returns nothing is pending, nothing is in flight, and nothing is
      let in again. */
  lemma EarlyReturnsStopTheContext(more: seq<Op>)
    ensures After(EarlyReturns(ENTRIES)).pending == [] && After(EarlyReturns(ENTRIES)).inFlight == multiset{}
    ensures !CanSubmit(After(EarlyReturns(ENTRIES) + more))
  {
    EarlyReturnsAbandon(ENTRIES);
    AbandonedSlotsStayTaken(EarlyReturns(ENTRIES), more);
  }

  // ---------------------------------------------------------------------------
  // The ring

  // A 32-bit counter that wrapped still names the same slot.
  lemma WrapKeepsSlot(n: nat, i: nat)
    ensures ((n % WRAP + i) % WRAP) % ENTRIES == (n + i) % ENTRIES
  {
    var q := n / WRAP;
    assert n == q * WRAP + n % WRAP;
    var m := n % WRAP + i;
    var p := m / WRAP;
    assert m == p * WRAP + m % WRAP;
    assert n + i == (q + p) * 0x100_0000 * ENTRIES + m % WRAP;
  }

  lemma WrapStep(n: nat)
    ensures (n % WRAP + 1) % WRAP == (n + 1) % WRAP
  {}

  lemma SlotsAreDistinct(i: nat, j: nat)
    requires i < j < i + ENTRIES
    ensures i % ENTRIES != j % ENTRIES
  {}

  lemma FreshSlot(lo: nat, n: nat)
    requires lo <= n < lo + ENTRIES
    ensures forall k | lo <= k < n :: k % ENTRIES != n % ENTRIES
  {
    forall k | lo <= k < n ensures k % ENTRIES != n % ENTRIES {
      SlotsAreDistinct(k, n);
    }
  }

  lemma TimerFiredOfAppend(q: seq<Cqe>, e: Cqe)
    ensures TimerFired(q + [e]) <==> TimerFired(q) || (e.user.Timer? && e.res != ECANCELED)
  {
    if TimerFired(q) {
      var i :| 0 <= i < |q| && q[i].user.Timer? && q[i].res != ECANCELED;
      assert (q + [e])[i] == q[i];
    }
    if e.user.Timer? && e.res != ECANCELED {
      assert (q + [e])[|q|] == e;
    }
  }

  lemma PrefixGrows(q: seq<Cqe>, i: nat)
    requires i < |q|
    ensures Wakes(q[..i + 1]) == Wakes(q[..i]) + if q[i].user.RemoteWake? then 1 else 0
    ensures Completions(q[..i + 1])
         == Completions(q[..i]) + if q[i].user.Operation? then [Completion(q[i].user.id, q[i].res)] else []
    ensures TimerFired(q[..i + 1]) <==> TimerFired(q[..i]) || (q[i].user.Timer? && q[i].res != ECANCELED)
  {
    assert q[..i + 1] == q[..i] + [q[i]];
    WakesOfAppend(q[..i], q[i]);
    CompletionsOfAppend(q[..i], q[i]);
    TimerFiredOfAppend(q[..i], q[i]);
  }

  lemma CountSurvivesWrap(drained: nat, d: nat)
    requires d <= ENTRIES
    ensures ((drained + d) % WRAP - drained % WRAP + WRAP) % WRAP == d
  {
    var r := drained % WRAP;
    assert (drained + d) % WRAP == if r + d < WRAP then r + d else r + d - WRAP by {
      var k := drained / WRAP;
      assert drained + d == k * WRAP + r + d;
    }
  }

  lemma UnarmedUnlessWaiting(a: Account)
    requires Balanced(a)
    ensures a.armed ==> a.waiting
  {}

  lemma NothingToEmpty(a: Account)
    requires a.pending == []
    ensures Emptied(a) == a
  {}

  class AmContext {
    var cqEntries: array<Cqe>
    var cqHead: U32
    var cqTail: U32
    var sqUnflushedCount: int
    var cqPendingCount: int
    var remoteQueueEventEntry: bool
    var remoteQueueReadSubmitted: bool
    var timersAreDirty: bool
    var localQueue: seq<Completion>

    // The unbounded account this object stands for; everything ever posted, of which
    // the first `drained` entries were drained.
    ghost var account: Account
    ghost var posted: seq<Cqe>
    ghost var drained: nat

    // The masked, wrapping ring holds the entries posted and not drained.
    ghost predicate RingValid()
      reads this, cqEntries
    {
      && cqEntries.Length == ENTRIES
      && drained <= |posted| <= drained + ENTRIES
      && cqHead == drained % WRAP
      && cqTail == |posted| % WRAP
      && (forall k | drained <= k < |posted| :: cqEntries[k % ENTRIES] == posted[k])
    }

    ghost predicate CountsMatch()
      reads this
    {
      && sqUnflushedCount == account.unflushed && cqPendingCount == account.completing
      && remoteQueueEventEntry == account.armed && remoteQueueReadSubmitted == account.waiting
      && timersAreDirty == account.timersDirty && localQueue == account.local
    }

    ghost predicate Valid()
      reads this, cqEntries
    {
      RingValid() && account.pending == posted[drained..] && CountsMatch() && Balanced(account)
    }

    constructor ()
      ensures Valid() && account == EMPTY && fresh(cqEntries)
    {
      cqEntries := new Cqe[ENTRIES](i => Cqe(RemoveTimer, 0));
      cqHead, cqTail, sqUnflushedCount, cqPendingCount := 0, 0, 0, 0;
      remoteQueueEventEntry, remoteQueueReadSubmitted, timersAreDirty := false, false, false;
      localQueue := [];
      account, posted, drained := EMPTY, [], 0;
    }

    // Takes the next slot for the entry and advances the tail.
    method PutEntry(e: Cqe)
      requires RingValid() && |posted| < drained + ENTRIES
      modifies this`cqTail, this`posted, cqEntries
      ensures RingValid() && posted == old(posted) + [e]
      ensures posted[drained..] == old(posted[drained..]) + [e]
    {
      var slot := cqTail % ENTRIES;
      assert slot == |posted| % ENTRIES by { WrapKeepsSlot(|posted|, 0); }
      assert (cqTail + 1) % WRAP == (|posted| + 1) % WRAP by { WrapStep(|posted|); }
      FreshSlot(drained, |posted|);
      ghost var before := cqEntries[..];
      cqEntries[slot] := e;
      assert forall k | drained <= k < |posted| :: cqEntries[k % ENTRIES] == before[k % ENTRIES];
      posted := posted + [e];
      cqTail := (cqTail + 1) % WRAP;
    }

    // Moves one count and takes a slot.
    method GetCompletionQueueEntry(e: Cqe)
      requires RingValid() && |posted| < drained + ENTRIES
      modifies this`sqUnflushedCount, this`cqPendingCount, this`cqTail, this`posted, cqEntries
      ensures RingValid() && posted == old(posted) + [e]
      ensures posted[drained..] == old(posted[drained..]) + [e]
      ensures sqUnflushedCount == old(sqUnflushedCount) - 1 && cqPendingCount == old(cqPendingCount) + 1
    {
      sqUnflushedCount := sqUnflushedCount - 1;
      cqPendingCount := cqPendingCount + 1;
      PutEntry(e);
    }

    // A request in flight completes: its callback takes an entry and moves one count.
    method CompleteRequest(user: User, res: int)
      requires Valid() && Enabled(account, Complete(user, res))
      modifies this, cqEntries
      ensures Valid() && cqEntries == old(cqEntries)
      ensures account == Completed(old(account), user, res)
    {
      hide Balanced;
      CompleteKeepsBalance(account, user, res);
      GetCompletionQueueEntry(Cqe(user, res));
      account := Completed(account, user, res);
    }

    method CanSubmitIo() returns (can: bool)
      requires Valid()
      ensures can == CanSubmit(account)
    {
      can := sqUnflushedCount < ENTRIES && cqPendingCount + sqUnflushedCount < ENTRIES;
    }

    method RunPopulate(populate: Populate) returns (proceed: bool)
      requires RingValid() && |posted| < drained + ENTRIES
      modifies this`sqUnflushedCount, this`cqPendingCount, this`cqTail, this`posted, cqEntries
      ensures RingValid() && proceed == !populate.Refuses?
      ensures posted[drained..] == old(posted[drained..])
                + if populate.PostsNow? then [Cqe(populate.user, populate.res)] else []
      ensures sqUnflushedCount == old(sqUnflushedCount) - if populate.PostsNow? || populate.ParksItself? then 1 else 0
      ensures cqPendingCount == old(cqPendingCount) + if populate.PostsNow? then 1 else 0
    {
      proceed := true;
      match populate
      case PostsNow(user, res) => GetCompletionQueueEntry(Cqe(user, res));
      case ParksItself => sqUnflushedCount := sqUnflushedCount - 1;
      case Refuses => proceed := false;
      case _ =>
    }

    // Populate runs before the submission is counted, so a step that posts at once
    // borrows from a count that is repaid on return.
    method TrySubmitIo(populate: Populate) returns (accepted: bool)
      requires Valid() && Enabled(account, Submit(populate))
      modifies this, cqEntries
      ensures Valid() && cqEntries == old(cqEntries)
      ensures accepted == (old(CanSubmit(account)) && !populate.Refuses?)
      ensures account == Submitted(old(account), populate)
    {
      hide Balanced;
      SubmitKeepsBalance(account, populate);
      accepted := false;
      if cqPendingCount + sqUnflushedCount < ENTRIES {
        if sqUnflushedCount < ENTRIES {
          accepted := RunPopulate(populate);
          if accepted {
            sqUnflushedCount := sqUnflushedCount + 1;
          }
        }
      }
      account := Submitted(account, populate);
    }

    // remoteItems: another thread enqueued work before the queue could be marked inactive.
    method TryRegisterRemoteQueueNotification(remoteItems: bool)
      requires Valid() && Enabled(account, Register(remoteItems))
      modifies this
      ensures Valid() && cqEntries == old(cqEntries)
      ensures account == Registered(old(account), remoteItems)
    {
      hide Balanced;
      UnarmedUnlessWaiting(account);
      RegisterKeepsBalance(account, remoteItems);
      if cqPendingCount + sqUnflushedCount < ENTRIES {
        if sqUnflushedCount < ENTRIES {
          remoteQueueEventEntry := true;
          if remoteItems {
            // only an unarmed event is registered, so this restores it
            remoteQueueEventEntry := false;
            return;
          }
          sqUnflushedCount := sqUnflushedCount + 1;
          remoteQueueReadSubmitted := true;
          account := Registered(account, remoteItems);
        }
      }
    }

    // Run by another thread: posts the wake-up without touching the counts.
    method SignalRemoteQueue()
      requires Valid()
      modifies this, cqEntries
      ensures Valid() && cqEntries == old(cqEntries)
      ensures account == Signalled(old(account))
    {
      hide Balanced;
      SignalKeepsBalance(account);
      if remoteQueueEventEntry {
        PutEntry(Cqe(RemoteWake, 0));
        remoteQueueEventEntry := false;
        account := Signalled(account);
      }
    }

    // Reads `count` entries from the head on: wake-ups settle their counts here.
    method CollectCompletions(count: nat, ghost q: seq<Cqe>) returns (completionQueue: seq<Completion>)
      requires RingValid() && q == posted[drained..] && count == |q|
      modifies this`sqUnflushedCount, this`cqPendingCount, this`remoteQueueReadSubmitted, this`timersAreDirty
      ensures completionQueue == Completions(q)
      ensures sqUnflushedCount == old(sqUnflushedCount) - Wakes(q)
      ensures cqPendingCount == old(cqPendingCount) + Wakes(q)
      ensures remoteQueueReadSubmitted == (old(remoteQueueReadSubmitted) && Wakes(q) == 0)
      ensures timersAreDirty == (old(timersAreDirty) || TimerFired(q))
    {
      completionQueue := [];
      var i := 0;
      while i < count
        invariant 0 <= i <= count
        invariant sqUnflushedCount == old(sqUnflushedCount) - Wakes(q[..i])
        invariant cqPendingCount == old(cqPendingCount) + Wakes(q[..i])
        invariant remoteQueueReadSubmitted == (old(remoteQueueReadSubmitted) && Wakes(q[..i]) == 0)
        invariant timersAreDirty == (old(timersAreDirty) || TimerFired(q[..i]))
        invariant completionQueue == Completions(q[..i])
      {
        WrapKeepsSlot(drained, i);
        var cqe := cqEntries[((cqHead + i) % WRAP) % ENTRIES];
        assert cqe == posted[drained + i] == q[i];
        PrefixGrows(q, i);
        if cqe.user == RemoteWake {
          remoteQueueReadSubmitted := false;
          sqUnflushedCount := sqUnflushedCount - 1;
          cqPendingCount := cqPendingCount + 1;
        } else if cqe.user == Timer {
          if cqe.res != ECANCELED {
            timersAreDirty := true;
          }
        } else if cqe.user != RemoveTimer {
          completionQueue := completionQueue + [Completion(cqe.user.id, cqe.res)];
        }
        i := i + 1;
      }
      assert q[..i] == q;
    }

    // The number of entries between the wrapping head and tail.
    method Occupancy() returns (count: nat)
      requires RingValid()
      ensures count == |posted| - drained
      ensures count == 0 <==> cqHead == cqTail
    {
      CountSurvivesWrap(drained, |posted| - drained);
      count := (cqTail - cqHead + WRAP) % WRAP;
    }

    // Hands every pending entry to the local queue, in posting order.
    method AcquireCompletionQueueItems()
      requires Valid()
      modifies this
      ensures Valid() && cqEntries == old(cqEntries)
      ensures account == Emptied(old(account))
    {
      hide Balanced, Wakes, Completions, TimerFired;
      DrainKeepsBalance(account);
      ghost var emptied := Emptied(account);
      var count := Occupancy();
      if cqHead != cqTail {
        var completionQueue := CollectCompletions(count, account.pending);
        localQueue := localQueue + completionQueue;
        cqHead := cqTail;
        cqPendingCount := cqPendingCount - count;
        drained := |posted|;
      } else {
        NothingToEmpty(account);
      }
      account := emptied;
      assert posted[drained..] == [];
    }
  }
}
