/**
 The life of a posted UCX request: it is linked into its connection's list, completes once at
 UCX's discretion, or is force-cleaned when its connection is torn down.  UCX is the environment:
 it may complete any request it still holds, once, with any status, after the posting call returned.
 */
module RequestLifecycle {
  import opened Options

  type ReqId = nat
  type ConnId = nat
  type CallbackId = nat

  const UCS_OK := 0
  const UCS_INPROGRESS := 1
  const UCS_ERR_CANCELED := -16

  // A request UCX still holds.  A force-cleaned request has neither callback nor connection.
  datatype Request = Request(callback: Option<CallbackId>, conn: Option<ConnId>)

  datatype Invocation = Invocation(callback: CallbackId, status: int)

  // What the posting call returned: null, an error, a finished request, or one in progress.
  datatype PostResult = Null | Failed(status: int) | Finished(status: int) | InProgress(request: ReqId)

  // lists: each connection's outstanding requests, in posting order.  endpoints: connections whose
  // endpoint is open.  closing: connections that hold an unfinished request to close their endpoint.
  datatype World = World(
    requests: map<ReqId, Request>, lists: map<ConnId, seq<ReqId>>,
    endpoints: set<ConnId>, closing: set<ConnId>, invoked: seq<Invocation>)

  // inProgress: what UCX answers about the request that closes the endpoint.
  datatype Op =
    | Open(conn: ConnId)
    | Post(conn: ConnId, callback: CallbackId, result: PostResult)
    | Complete(request: ReqId, status: int)
    | ForceClean(conn: ConnId)
    | Close(conn: ConnId, inProgress: bool)
    | Poll(conn: ConnId, inProgress: bool)

  const EMPTY := World(map[], map[], {}, {}, [])

  function Invoke(w: World, cb: Option<CallbackId>, status: int): World {
    if cb.Some? then w.(invoked := w.invoked + [Invocation(cb.value, status)]) else w
  }

  function Without(list: seq<ReqId>, r: ReqId): seq<ReqId> {
    if list == [] then []
    else if list[0] == r then list[1..]
    else [list[0]] + Without(list[1..], r)
  }

  // request_completed: unlinks the request from its connection's list, if it has one.
  function Unlink(w: World, r: ReqId, conn: Option<ConnId>): World {
    if conn.Some? && conn.value in w.lists
    then w.(lists := w.lists[conn.value := Without(w.lists[conn.value], r)]) else w
  }

  function Posted(w: World, c: ConnId, cb: CallbackId, result: PostResult): World
    requires c in w.lists
  {
    if c !in w.endpoints then Invoke(w, Some(cb), UCS_ERR_CANCELED)
    else
      match result
      case Null => Invoke(w, Some(cb), UCS_OK)
      case Failed(status) => Invoke(w, Some(cb), status)
      case Finished(status) => Invoke(w, Some(cb), status)
      case InProgress(r) =>
        w.(requests := w.requests[r := Request(Some(cb), Some(c))], lists := w.lists[c := w.lists[c] + [r]])
  }

  function Completed(w: World, r: ReqId, status: int): World
    requires r in w.requests
  {
    var q := w.requests[r];
    var w1 := Unlink(Invoke(w, q.callback, status), r, q.conn);
    w1.(requests := w1.requests - {r})
  }

  // One round of the clean-up loop, on the first request of the list.
  function CleanFirst(w: World, c: ConnId): World
    requires c in w.lists && w.lists[c] != [] && w.lists[c][0] in w.requests
  {
    var r := w.lists[c][0];
    var w1 := Invoke(w, w.requests[r].callback, UCS_ERR_CANCELED);
    w1.(requests := w1.requests[r := Request(None, None)], lists := w1.lists[c := w1.lists[c][1..]])
  }

  function Cleaned(w: World, c: ConnId): World
    requires c in w.lists
    decreases |w.lists[c]|
  {
    if w.lists[c] == [] || w.lists[c][0] !in w.requests then w else Cleaned(CleanFirst(w, c), c)
  }

  // ep_close: a second close finds no endpoint.
  function Closed(w: World, c: ConnId, inProgress: bool): World {
    if c !in w.endpoints then w
    else w.(endpoints := w.endpoints - {c}, closing := if inProgress then w.closing + {c} else w.closing)
  }

  // disconnect_progress: done means the connection may be destroyed.
  predicate Done(w: World, c: ConnId, inProgress: bool)
    requires c in w.lists
  {
    w.lists[c] == [] && (c in w.closing ==> !inProgress)
  }

  function Polled(w: World, c: ConnId, inProgress: bool): World
    requires c in w.lists
  {
    if Done(w, c, inProgress) then w.(closing := w.closing - {c}) else w
  }

  // A request id is reused only once UCX has handed the request back.
  predicate Enabled(w: World, op: Op) {
    match op
    case Open(c) => c !in w.lists
    case Post(c, _, result) => c in w.lists && (result.InProgress? ==> result.request !in w.requests)
    case Complete(r, status) => r in w.requests && status != UCS_INPROGRESS
    case ForceClean(c) => c in w.lists
    case Close(c, _) => c in w.lists && c !in w.closing
    case Poll(c, _) => c in w.lists
  }

  function Apply(w: World, op: Op): World
    requires Enabled(w, op)
  {
    match op
    case Open(c) => w.(lists := w.lists[c := []], endpoints := w.endpoints + {c})
    case Post(c, cb, result) => Posted(w, c, cb, result)
    case Complete(r, status) => Completed(w, r, status)
    case ForceClean(c) => Cleaned(w, c)
    case Close(c, inProgress) => Closed(w, c, inProgress)
    case Poll(c, inProgress) => Polled(w, c, inProgress)
  }

  // A run is any sequence of operations; one that cannot happen there changes nothing.
  function Next(w: World, op: Op): World {
    if Enabled(w, op) then Apply(w, op) else w
  }

  function Run(w: World, ops: seq<Op>): World {
    if ops == [] then w else Next(Run(w, ops[..|ops| - 1]), ops[|ops| - 1])
  }

  // ---------------------------------------------------------------------------
  // The lists are exact

  ghost predicate Distinct(list: seq<ReqId>) {
    forall i, j | 0 <= i < j < |list| :: list[i] != list[j]
  }

  // A connection's list is exactly the requests in progress that belong to it, each once.
  ghost predicate ListsExact(w: World) {
    && (forall c | c in w.lists :: Distinct(w.lists[c]))
    && (forall c, r | c in w.lists ::
          r in w.lists[c] <==> r in w.requests && w.requests[r].conn == Some(c))
    && (forall r | r in w.requests ::
          && (w.requests[r].conn.Some? ==> w.requests[r].conn.value in w.lists)
          && (w.requests[r].conn.Some? <==> w.requests[r].callback.Some?))
  }

  lemma {:induction false} WithoutRemovesOne(list: seq<ReqId>, r: ReqId)
    requires Distinct(list)
    ensures Distinct(Without(list, r))
    ensures forall q :: q in Without(list, r) <==> q in list && q != r
  {
    if list != [] {
      assert Distinct(list[1..]);
      if list[0] == r {
        assert forall q :: q in list <==> q == r || q in list[1..];
      } else {
        WithoutRemovesOne(list[1..], r);
        var rest := Without(list[1..], r);
        assert forall q :: q in [list[0]] + rest <==> q == list[0] || q in rest;
        assert forall q :: q in list <==> q == list[0] || q in list[1..];
        assert list[0] !in rest;
        assert Distinct([list[0]] + rest);
      }
    }
  }

  lemma PostedKeepsLists(w: World, c: ConnId, cb: CallbackId, result: PostResult)
    requires ListsExact(w) && Enabled(w, Post(c, cb, result))
    ensures ListsExact(Posted(w, c, cb, result))
  {}

  lemma CompletedKeepsLists(w: World, r: ReqId, status: int)
    requires ListsExact(w) && Enabled(w, Complete(r, status))
    ensures ListsExact(Completed(w, r, status))
  {
    var q := w.requests[r];
    if q.conn.Some? {
      WithoutRemovesOne(w.lists[q.conn.value], r);
    }
  }

  lemma CleanFirstKeepsLists(w: World, c: ConnId)
    requires ListsExact(w) && c in w.lists && w.lists[c] != []
    ensures w.lists[c][0] in w.requests && w.requests[w.lists[c][0]].callback.Some?
    ensures ListsExact(CleanFirst(w, c))
  {
    var list := w.lists[c];
    var r := list[0];
    assert r in list;
    assert forall q :: q in list <==> q == r || q in list[1..];
    assert Distinct(list[1..]) && r !in list[1..];
  }

  lemma {:induction false} CleanedKeepsLists(w: World, c: ConnId)
    requires ListsExact(w) && c in w.lists
    ensures ListsExact(Cleaned(w, c))
    ensures Cleaned(w, c).lists == w.lists[c := []]
    decreases |w.lists[c]|
  {
    if w.lists[c] != [] {
      CleanFirstKeepsLists(w, c);
      CleanedKeepsLists(CleanFirst(w, c), c);
    }
  }

  lemma StepKeepsLists(w: World, op: Op)
    requires ListsExact(w)
    ensures ListsExact(Next(w, op))
  {
    if Enabled(w, op) {
      match op
      case Post(c, cb, result) => PostedKeepsLists(w, c, cb, result);
      case Complete(r, status) => CompletedKeepsLists(w, r, status);
      case ForceClean(c) => CleanedKeepsLists(w, c);
      case _ =>
    }
  }

  /** Over every run of posts, completions and clean-ups a connection's list holds exactly the
      requests in progress that belong to it, each once. */
  lemma {:induction false} RunKeepsLists(w: World, ops: seq<Op>)
    requires ListsExact(w)
    ensures ListsExact(Run(w, ops))
  {
    if ops != [] {
      RunKeepsLists(w, ops[..|ops| - 1]);
      StepKeepsLists(Run(w, ops[..|ops| - 1]), ops[|ops| - 1]);
    }
  }

  lemma RunOneMore(w: World, ops: seq<Op>, op: Op)
    ensures Run(w, ops + [op]) == Next(Run(w, ops), op)
  {
    assert (ops + [op])[..|ops|] == ops;
  }

  // ---------------------------------------------------------------------------
  // Each callback is answered once

  function Count(invoked: seq<Invocation>, cb: CallbackId): nat {
    if invoked == [] then 0
    else Count(invoked[..|invoked| - 1], cb) + if invoked[|invoked| - 1].callback == cb then 1 else 0
  }

  // The requests in progress that still owe this callback.
  ghost function Holders(w: World, cb: CallbackId): set<ReqId> {
    set r | r in w.requests && w.requests[r].callback == Some(cb)
  }

  ghost function Owed(w: World, cb: CallbackId): nat {
    Count(w.invoked, cb) + |Holders(w, cb)|
  }

  function PostedBy(w: World, op: Op, cb: CallbackId): nat {
    if Enabled(w, op) && op.Post? && op.callback == cb then 1 else 0
  }

  // How often a run posted an operation with this callback.
  function TimesPosted(w: World, ops: seq<Op>, cb: CallbackId): nat {
    if ops == [] then 0
    else TimesPosted(w, ops[..|ops| - 1], cb) + PostedBy(Run(w, ops[..|ops| - 1]), ops[|ops| - 1], cb)
  }

  lemma CountOfAppend(invoked: seq<Invocation>, i: Invocation, cb: CallbackId)
    ensures Count(invoked + [i], cb) == Count(invoked, cb) + if i.callback == cb then 1 else 0
  {
    assert (invoked + [i])[..|invoked|] == invoked;
  }

  lemma InvokeAnswers(w: World, who: Option<CallbackId>, status: int, cb: CallbackId)
    ensures Count(Invoke(w, who, status).invoked, cb) == Count(w.invoked, cb) + if who == Some(cb) then 1 else 0
  {
    if who.Some? {
      CountOfAppend(w.invoked, Invocation(who.value, status), cb);
    }
  }

  lemma HoldOne(w: World, w': World, r: ReqId, who: CallbackId, c: ConnId, cb: CallbackId)
    requires r !in w.requests && w'.requests == w.requests[r := Request(Some(who), Some(c))]
    ensures |Holders(w', cb)| == |Holders(w, cb)| + if who == cb then 1 else 0
  {
    assert Holders(w', cb) == Holders(w, cb) + if who == cb then {r} else {};
  }

  lemma HoldSame(w: World, w': World, cb: CallbackId)
    requires w'.requests == w.requests
    ensures Holders(w', cb) == Holders(w, cb)
  {}

  lemma PostedOwesOne(w: World, c: ConnId, who: CallbackId, result: PostResult, cb: CallbackId)
    requires Enabled(w, Post(c, who, result))
    ensures Owed(Posted(w, c, who, result), cb) == Owed(w, cb) + if who == cb then 1 else 0
  {
    var w' := Posted(w, c, who, result);
    if c in w.endpoints && result.InProgress? {
      assert w'.invoked == w.invoked;
      HoldOne(w, w', result.request, who, c, cb);
    } else {
      var status := if c !in w.endpoints then UCS_ERR_CANCELED else if result.Null? then UCS_OK else result.status;
      assert w' == Invoke(w, Some(who), status);
      HoldSame(w, w', cb);
      InvokeAnswers(w, Some(who), status, cb);
    }
  }

  // A request that is handed back or detached owes nothing any more.
  lemma ReleaseOne(w: World, w': World, r: ReqId, cb: CallbackId)
    requires r in w.requests
    requires w'.requests == w.requests - {r} || w'.requests == w.requests[r := Request(None, None)]
    ensures |Holders(w', cb)| == |Holders(w, cb)| - if w.requests[r].callback == Some(cb) then 1 else 0
  {
    assert Holders(w', cb) == Holders(w, cb) - {r};
  }

  lemma CompletedOwesTheSame(w: World, r: ReqId, status: int, cb: CallbackId)
    requires Enabled(w, Complete(r, status))
    ensures Owed(Completed(w, r, status), cb) == Owed(w, cb)
  {
    var w', who := Completed(w, r, status), w.requests[r].callback;
    assert w'.requests == w.requests - {r};
    assert w'.invoked == Invoke(w, who, status).invoked;
    InvokeAnswers(w, who, status, cb);
    ReleaseOne(w, w', r, cb);
  }

  lemma CleanFirstOwesTheSame(w: World, c: ConnId, cb: CallbackId)
    requires c in w.lists && w.lists[c] != [] && w.lists[c][0] in w.requests
    ensures Owed(CleanFirst(w, c), cb) == Owed(w, cb)
  {
    var r, w' := w.lists[c][0], CleanFirst(w, c);
    var who := w.requests[r].callback;
    assert w'.requests == w.requests[r := Request(None, None)];
    assert w'.invoked == Invoke(w, who, UCS_ERR_CANCELED).invoked;
    InvokeAnswers(w, who, UCS_ERR_CANCELED, cb);
    ReleaseOne(w, w', r, cb);
  }

  lemma {:induction false} CleanedOwesTheSame(w: World, c: ConnId, cb: CallbackId)
    requires c in w.lists
    ensures Owed(Cleaned(w, c), cb) == Owed(w, cb)
    decreases |w.lists[c]|
  {
    if w.lists[c] != [] && w.lists[c][0] in w.requests {
      CleanFirstOwesTheSame(w, c, cb);
      CleanedOwesTheSame(CleanFirst(w, c), c, cb);
    }
  }

  lemma StepOwes(w: World, op: Op, cb: CallbackId)
    ensures Owed(Next(w, op), cb) == Owed(w, cb) + PostedBy(w, op, cb)
  {
    if Enabled(w, op) {
      match op
      case Post(c, who, result) => PostedOwesOne(w, c, who, result, cb);
      case Complete(r, status) => CompletedOwesTheSame(w, r, status, cb);
      case ForceClean(c) => CleanedOwesTheSame(w, c, cb);
      case _ => HoldSame(w, Next(w, op), cb);
    }
  }

  /** Over every run, a callback has been invoked once for each time it was posted, except for the
      requests still in progress that owe it. */
  lemma {:induction false} RunOwes(w: World, ops: seq<Op>, cb: CallbackId)
    ensures Owed(Run(w, ops), cb) == Owed(w, cb) + TimesPosted(w, ops, cb)
  {
    if ops != [] {
      RunOwes(w, ops[..|ops| - 1], cb);
      StepOwes(Run(w, ops[..|ops| - 1]), ops[|ops| - 1], cb);
    }
  }

  lemma {:induction false} SubsetSize(a: set<ReqId>, b: set<ReqId>)
    requires a <= b
    ensures |a| <= |b|
  {
    if x :| x in a {
      SubsetSize(a - {x}, b - {x});
    }
  }

  /** A callback posted once is invoked at most once, and exactly once when no request in progress
      owes it any more: its request was answered at once, completed, or was force-cleaned. */
  lemma CallbackRunsOnce(ops: seq<Op>, cb: CallbackId)
    requires TimesPosted(EMPTY, ops, cb) == 1
    ensures Count(Run(EMPTY, ops).invoked, cb) <= 1
    ensures Count(Run(EMPTY, ops).invoked, cb) == 1 <==>
            forall r | r in Run(EMPTY, ops).requests :: Run(EMPTY, ops).requests[r].callback != Some(cb)
  {
    var w := Run(EMPTY, ops);
    RunOwes(EMPTY, ops, cb);
    assert Holders(EMPTY, cb) == {};
    if r :| r in Holders(w, cb) {
      assert Holders(w, cb) >= {r};
      assert |Holders(w, cb)| >= 1 by { SubsetSize({r}, Holders(w, cb)); }
    } else {
      assert Holders(w, cb) == {};
      assert forall r | r in w.requests && w.requests[r].callback == Some(cb) :: r in Holders(w, cb);
    }
  }

  // What an answer with this status may come from: the posting's own result, the request's
  // completion with that very status, or the clean-up of the request's connection.
  predicate Explains(w: World, op: Op, i: Invocation) {
    match op
    case Post(c, cb, result) =>
      && i.callback == cb
      && i.status == if c !in w.endpoints then UCS_ERR_CANCELED
                     else if result.Failed? || result.Finished? then result.status else UCS_OK
    case Complete(r, status) => r in w.requests && w.requests[r].callback == Some(i.callback) && i.status == status
    case ForceClean(c) =>
      && i.status == UCS_ERR_CANCELED && c in w.lists
      && exists r :: r in w.lists[c] && r in w.requests && w.requests[r].callback == Some(i.callback)
    case _ => false
  }

  lemma CleanFirstAnswers(w: World, c: ConnId, i: Invocation)
    requires ListsExact(w) && c in w.lists && w.lists[c] != []
    requires Explains(CleanFirst(w, c), ForceClean(c), i)
    ensures Explains(w, ForceClean(c), i)
  {
    var w1 := CleanFirst(w, c);
    var r :| r in w1.lists[c] && r in w1.requests && w1.requests[r].callback == Some(i.callback);
    assert r in w.lists[c];
  }

  lemma {:induction false} CleanedKeepsLog(w: World, c: ConnId)
    requires c in w.lists
    ensures w.invoked <= Cleaned(w, c).invoked
    decreases |w.lists[c]|
  {
    if w.lists[c] != [] && w.lists[c][0] in w.requests {
      CleanedKeepsLog(CleanFirst(w, c), c);
    }
  }

  lemma {:induction false} CleanedAnswersItsOwn(w: World, c: ConnId, k: nat)
    requires ListsExact(w) && c in w.lists && |w.invoked| <= k < |Cleaned(w, c).invoked|
    ensures Explains(w, ForceClean(c), Cleaned(w, c).invoked[k])
    decreases |w.lists[c]|
  {
    CleanFirstKeepsLists(w, c);
    var r, w1 := w.lists[c][0], CleanFirst(w, c);
    CleanedKeepsLog(w1, c);
    if k == |w.invoked| {
      assert Cleaned(w, c).invoked[k] == Invocation(w.requests[r].callback.value, UCS_ERR_CANCELED);
      assert r in w.lists[c];
    } else {
      CleanedAnswersItsOwn(w1, c, k);
      CleanFirstAnswers(w, c, Cleaned(w, c).invoked[k]);
    }
  }

  lemma StepAnswersItsOwn(w: World, op: Op, k: nat)
    requires ListsExact(w) && |w.invoked| <= k < |Next(w, op).invoked|
    ensures Explains(w, op, Next(w, op).invoked[k])
  {
    if op.ForceClean? {
      CleanedAnswersItsOwn(w, op.conn, k);
    }
  }

  lemma StepKeepsLog(w: World, op: Op)
    ensures w.invoked <= Next(w, op).invoked
  {
    if Enabled(w, op) && op.ForceClean? {
      CleanedKeepsLog(w, op.conn);
    }
  }

  /** Every answer a run gives is explained by one of its steps: a callback never hears a status that
      is not its own operation's. */
  lemma {:induction false} EveryAnswerIsExplained(ops: seq<Op>, k: nat) returns (step: nat)
    requires k < |Run(EMPTY, ops).invoked|
    ensures step < |ops| && Explains(Run(EMPTY, ops[..step]), ops[step], Run(EMPTY, ops).invoked[k])
  {
    var before, op := ops[..|ops| - 1], ops[|ops| - 1];
    StepKeepsLog(Run(EMPTY, before), op);
    if k < |Run(EMPTY, before).invoked| {
      step := EveryAnswerIsExplained(before, k);
      assert before[..step] == ops[..step];
    } else {
      RunKeepsLists(EMPTY, before);
      StepAnswersItsOwn(Run(EMPTY, before), op, k);
      step := |ops| - 1;
    }
  }

  /** A connection may be destroyed exactly when no request in progress belongs to it and UCX is not
      still closing its endpoint. */
  lemma DoneIffIdle(w: World, c: ConnId, inProgress: bool)
    requires ListsExact(w) && c in w.lists
    ensures Done(w, c, inProgress) <==>
            (forall r | r in w.requests :: w.requests[r].conn != Some(c)) && !(c in w.closing && inProgress)
  {
    if w.lists[c] != [] {
      assert w.lists[c][0] in w.lists[c];
    }
    assert forall r | r in w.requests && w.requests[r].conn == Some(c) :: r in w.lists[c];
  }

  ghost predicate Detached(w: World, r: ReqId) {
    r in w.requests && w.requests[r] == Request(None, None)
  }

  lemma {:induction false} CleanedKeepsDetached(w: World, c: ConnId, r: ReqId)
    requires c in w.lists && Detached(w, r)
    ensures Detached(Cleaned(w, c), r)
    decreases |w.lists[c]|
  {
    if w.lists[c] != [] && w.lists[c][0] in w.requests {
      CleanedKeepsDetached(CleanFirst(w, c), c, r);
    }
  }

  lemma {:induction false} CleanedDetachesAll(w: World, c: ConnId, r: ReqId)
    requires ListsExact(w) && c in w.lists && r in w.lists[c]
    ensures Detached(Cleaned(w, c), r)
    decreases |w.lists[c]|
  {
    CleanFirstKeepsLists(w, c);
    if r == w.lists[c][0] {
      CleanedKeepsDetached(CleanFirst(w, c), c, r);
    } else {
      CleanedDetachesAll(CleanFirst(w, c), c, r);
    }
  }

  lemma {:induction false} DetachedUntilCompleted(w: World, ops: seq<Op>, r: ReqId)
    requires Detached(w, r)
    requires forall i | 0 <= i < |ops| :: !(ops[i].Complete? && ops[i].request == r)
    ensures Detached(Run(w, ops), r)
  {
    if ops != [] {
      var before, op := Run(w, ops[..|ops| - 1]), ops[|ops| - 1];
      DetachedUntilCompleted(w, ops[..|ops| - 1], r);
      if Enabled(before, op) && op.ForceClean? {
        CleanedKeepsDetached(before, op.conn, r);
      }
    }
  }

  /** However late UCX completes a request that was force-cleaned, the completion invokes nothing,
      touches no list, and only hands the request back. */
  lemma LateCompletionIsSilent(w: World, c: ConnId, r: ReqId, ops: seq<Op>, status: int)
    requires ListsExact(w) && c in w.lists && r in w.lists[c] && status != UCS_INPROGRESS
    requires forall i | 0 <= i < |ops| :: !(ops[i].Complete? && ops[i].request == r)
    ensures var late := Run(Cleaned(w, c), ops);
            r in late.requests && Next(late, Complete(r, status)) == late.(requests := late.requests - {r})
  {
    CleanedDetachesAll(w, c, r);
    DetachedUntilCompleted(Cleaned(w, c), ops, r);
  }

  // ---------------------------------------------------------------------------
  // Tearing a connection down

  // Cancelling one request: UCX may complete it before the call returns.
  function CancelOps(list: seq<ReqId>, now: map<ReqId, int>): seq<Op> {
    if list == [] then []
    else CancelOps(list[..|list| - 1], now)
         + if list[|list| - 1] in now then [Complete(list[|list| - 1], now[list[|list| - 1]])] else []
  }

  predicate OnlyCompletions(ops: seq<Op>) {
    forall i | 0 <= i < |ops| :: ops[i].Complete?
  }

  lemma {:induction false} CompletionsPostNothing(w: World, ops: seq<Op>, cb: CallbackId)
    requires OnlyCompletions(ops)
    ensures TimesPosted(w, ops, cb) == 0
    ensures Run(w, ops).lists.Keys == w.lists.Keys
  {
    if ops != [] {
      CompletionsPostNothing(w, ops[..|ops| - 1], cb);
    }
  }

  lemma {:induction false} WithoutIsNoLonger(list: seq<ReqId>, r: ReqId)
    ensures |Without(list, r)| <= |list|
  {
    if list != [] && list[0] != r {
      WithoutIsNoLonger(list[1..], r);
    }
  }

  lemma CompletionShrinks(w: World, op: Op, c: ConnId)
    requires op.Complete? && c in w.lists
    ensures c in Next(w, op).lists && |Next(w, op).lists[c]| <= |w.lists[c]|
    ensures Next(w, op).endpoints == w.endpoints && Next(w, op).closing == w.closing
  {
    WithoutIsNoLonger(w.lists[c], op.request);
  }

  // Completions shrink lists and touch nothing of the endpoints.
  lemma {:induction false} CompletionsOnlyShrink(w: World, ops: seq<Op>, c: ConnId)
    requires OnlyCompletions(ops) && c in w.lists
    ensures c in Run(w, ops).lists && |Run(w, ops).lists[c]| <= |w.lists[c]|
    ensures Run(w, ops).endpoints == w.endpoints && Run(w, ops).closing == w.closing
  {
    if ops != [] {
      CompletionsOnlyShrink(w, ops[..|ops| - 1], c);
      CompletionShrinks(Run(w, ops[..|ops| - 1]), ops[|ops| - 1], c);
    }
  }

  lemma {:induction false} CleanedKeepsEndpoints(w: World, c: ConnId)
    requires c in w.lists
    ensures Cleaned(w, c).endpoints == w.endpoints && Cleaned(w, c).closing == w.closing
    decreases |w.lists[c]|
  {
    if w.lists[c] != [] && w.lists[c][0] in w.requests {
      CleanedKeepsEndpoints(CleanFirst(w, c), c);
    }
  }

  // Whether the connection was opened and not closed since.
  function OpenAfter(w: World, ops: seq<Op>, c: ConnId): bool {
    if ops == [] then c in w.endpoints
    else
      var before, op := Run(w, ops[..|ops| - 1]), ops[|ops| - 1];
      if op == Open(c) && c !in before.lists then true
      else if op.Close? && op.conn == c && c in before.lists && c !in before.closing then false
      else OpenAfter(w, ops[..|ops| - 1], c)
  }

  // Whether the last close of the open connection left UCX at it, and no poll found that over since with
  // nothing outstanding.
  function ClosingAfter(w: World, ops: seq<Op>, c: ConnId): bool {
    if ops == [] then c in w.closing
    else
      var before, op := Run(w, ops[..|ops| - 1]), ops[|ops| - 1];
      if op == Close(c, true) && c in before.lists && OpenAfter(w, ops[..|ops| - 1], c) then true
      else if op == Poll(c, false) && c in before.lists && before.lists[c] == [] then false
      else ClosingAfter(w, ops[..|ops| - 1], c)
  }

  /** Over every run an endpoint is open from the opening to the first close, and its close request is kept
      until a poll finds UCX through with it and nothing outstanding. */
  lemma {:induction false} EndpointsFollowTheRun(w: World, ops: seq<Op>, c: ConnId)
    ensures c in Run(w, ops).endpoints <==> OpenAfter(w, ops, c)
    ensures c in Run(w, ops).closing <==> ClosingAfter(w, ops, c)
  {
    if ops != [] {
      EndpointsFollowTheRun(w, ops[..|ops| - 1], c);
      var before, op := Run(w, ops[..|ops| - 1]), ops[|ops| - 1];
      if op.ForceClean? && Enabled(before, op) {
        CleanedKeepsEndpoints(before, op.conn);
      }
    }
  }

  /** Unlinking takes one request out of the list and leaves the others in posting order. */
  lemma {:induction false} WithoutKeepsOrder(list: seq<ReqId>, i: nat)
    requires Distinct(list) && i < |list|
    ensures Without(list, list[i]) == list[..i] + list[i + 1..]
  {
    if i > 0 {
      assert list[0] != list[i];
      WithoutKeepsOrder(list[1..], i - 1);
      assert list[..i] == [list[0]] + list[1..][..i - 1];
    }
  }

  // The answers a clean-up gives to the callbacks of these requests, one by one.
  function Cancellations(w: World, list: seq<ReqId>): seq<Invocation>
    requires forall r | r in list :: r in w.requests && w.requests[r].callback.Some?
  {
    seq(|list|, i requires 0 <= i < |list| => Invocation(w.requests[list[i]].callback.value, -16))
  }

  /** A clean-up cancels the callbacks of all requests left, in posting order. */
  lemma {:induction false} CleanedCancelsInOrder(w: World, c: ConnId)
    requires ListsExact(w) && c in w.lists
    ensures forall r | r in w.lists[c] :: r in w.requests && w.requests[r].callback.Some?
    ensures Cleaned(w, c).invoked == w.invoked + Cancellations(w, w.lists[c])
    decreases |w.lists[c]|
  {
    if w.lists[c] != [] {
      var list, w1 := w.lists[c], CleanFirst(w, c);
      CleanFirstKeepsLists(w, c);
      CleanedCancelsInOrder(w1, c);
      assert Cancellations(w, list) == [Cancellations(w, list)[0]] + Cancellations(w1, list[1..]);
    }
  }

  // A teardown during which UCX completed these requests.
  function TornDown(w: World, c: ConnId, completed: seq<Op>, inProgress: bool): World
    requires c in Run(w, completed).lists
  {
    Closed(Cleaned(Run(w, completed), c), c, inProgress)
  }

  /** Whatever UCX completes during a teardown, the connection ends with an empty list and no endpoint,
      other lists lose only what was completed, and each callback was invoked once for each of the
      requests that owed it and no longer do: no request of the connection owes anything. */
  lemma TeardownAnswersEveryone(w: World, c: ConnId, completed: seq<Op>, inProgress: bool, cb: CallbackId)
    requires ListsExact(w) && c in w.lists && OnlyCompletions(completed)
    ensures c in Run(w, completed).lists
    ensures var w' := TornDown(w, c, completed, inProgress);
            && w'.lists == Run(w, completed).lists[c := []] && c !in w'.endpoints
            && Count(w'.invoked, cb) - Count(w.invoked, cb) == |Holders(w, cb)| - |Holders(w', cb)|
            && (forall r | r in Holders(w', cb) :: w'.requests[r].conn != Some(c))
  {
    CompletionsPostNothing(w, completed, cb);
    var w1 := Run(w, completed);
    var w2 := Cleaned(w1, c);
    RunOwes(w, completed, cb);
    RunKeepsLists(w, completed);
    CleanedOwesTheSame(w1, c, cb);
    CleanedKeepsLists(w1, c);
    HoldSame(w2, Closed(w2, c, inProgress), cb);
    assert forall r | r in w2.requests && w2.requests[r].conn == Some(c) :: r in w2.lists[c];
  }

  /** A teardown disturbs no other connection: an idle one stays idle, and only the connection's own
      endpoint and close request change. */
  lemma TeardownSparesOthers(w: World, c: ConnId, completed: seq<Op>, inProgress: bool, d: ConnId)
    requires ListsExact(w) && c in w.lists && d in w.lists && OnlyCompletions(completed)
    ensures c in Run(w, completed).lists
    ensures d in TornDown(w, c, completed, inProgress).lists
    ensures |TornDown(w, c, completed, inProgress).lists[d]| <= |w.lists[d]|
    ensures TornDown(w, c, completed, inProgress).endpoints == w.endpoints - {c}
    ensures TornDown(w, c, completed, inProgress).closing <= w.closing + {c}
  {
    CompletionsOnlyShrink(w, completed, c);
    CompletionsOnlyShrink(w, completed, d);
    RunKeepsLists(w, completed);
    CleanedKeepsLists(Run(w, completed), c);
    CleanedKeepsEndpoints(Run(w, completed), c);
  }

  lemma CancelOneMore(list: seq<ReqId>, i: nat, now: map<ReqId, int>)
    requires i < |list|
    ensures CancelOps(list[..i + 1], now)
         == if list[i] in now then CancelOps(list[..i], now) + [Complete(list[i], now[list[i]])]
            else CancelOps(list[..i], now)
  {
    assert list[..i + 1][..i] == list[..i];
  }

  lemma {:induction false} CancelsComplete(list: seq<ReqId>, now: map<ReqId, int>)
    ensures OnlyCompletions(CancelOps(list, now))
  {
    if list != [] {
      CancelsComplete(list[..|list| - 1], now);
    }
  }

  // What one round of progress completes.
  function CompleteOps(events: seq<(ReqId, int)>): seq<Op> {
    seq(|events|, i requires 0 <= i < |events| => Complete(events[i].0, events[i].1))
  }

  // Everything UCX completes in the cancels of a teardown and in its first n rounds of progress, which
  // end as soon as nothing is outstanding.
  function Delivered(w: World, c: ConnId, now: map<ReqId, int>, rounds: seq<seq<(ReqId, int)>>, n: nat): seq<Op>
    requires c in w.lists && n <= |rounds|
  {
    if n == 0 then CancelOps(w.lists[c], now)
    else
      var before := Delivered(w, c, now, rounds, n - 1);
      var w' := Run(w, before);
      if c in w'.lists && w'.lists[c] != [] then before + CompleteOps(rounds[n - 1]) else before
  }

  lemma {:induction false} NothingLeftToProgress(
    w: World, c: ConnId, now: map<ReqId, int>, rounds: seq<seq<(ReqId, int)>>, i: nat, n: nat)
    requires c in w.lists && i <= n <= |rounds|
    requires var w' := Run(w, Delivered(w, c, now, rounds, i)); c in w'.lists && w'.lists[c] == []
    ensures Delivered(w, c, now, rounds, n) == Delivered(w, c, now, rounds, i)
  {
    if i < n {
      NothingLeftToProgress(w, c, now, rounds, i, n - 1);
    }
  }

  lemma {:induction false} DeliveredCompletes(
    w: World, c: ConnId, now: map<ReqId, int>, rounds: seq<seq<(ReqId, int)>>, n: nat)
    requires c in w.lists && n <= |rounds|
    ensures OnlyCompletions(Delivered(w, c, now, rounds, n))
  {
    CancelsComplete(w.lists[c], now);
    if n > 0 {
      DeliveredCompletes(w, c, now, rounds, n - 1);
    }
  }

  class Worker {
    var requests: map<ReqId, Request>
    var lists: map<ConnId, seq<ReqId>>
    var endpoints: set<ConnId>
    var closing: set<ConnId>
    var invoked: seq<Invocation>

    function State(): World
      reads this
    {
      World(requests, lists, endpoints, closing, invoked)
    }

    ghost predicate Valid()
      reads this
    {
      ListsExact(State())
    }

    constructor ()
      ensures Valid() && State() == EMPTY
    {
      requests, lists, endpoints, closing, invoked := map[], map[], {}, {}, [];
    }

    // Runs a callback: the callback itself belongs to the caller and does not re-enter the worker.
    method Call(callback: Option<CallbackId>, status: int)
      modifies this`invoked
      ensures State() == Invoke(old(State()), callback, status)
    {
      if callback.Some? {
        invoked := invoked + [Invocation(callback.value, status)];
      }
    }

    method RequestStarted(conn: ConnId, request: ReqId)
      requires conn in lists
      modifies this`lists
      ensures lists == old(lists)[conn := old(lists)[conn] + [request]]
    {
      lists := lists[conn := lists[conn] + [request]];
    }

    method RequestCompleted(conn: ConnId, request: ReqId)
      requires conn in lists
      modifies this`lists
      ensures State() == Unlink(old(State()), request, Some(conn))
    {
      lists := lists[conn := Without(lists[conn], request)];
    }

    method ProcessRequest(conn: ConnId, result: PostResult, callback: CallbackId)
      returns (status: int, request: Option<ReqId>)
      requires Valid() && Enabled(State(), Post(conn, callback, result)) && conn in endpoints
      modifies this`requests, this`lists, this`invoked
      ensures Valid() && State() == Posted(old(State()), conn, callback, result)
      ensures request == if result.InProgress? then Some(result.request) else None
      ensures status == if result.Failed? || result.Finished? then result.status else UCS_OK
      ensures lists == old(lists)[conn := old(lists)[conn] + if result.InProgress? then [result.request] else []]
      ensures invoked == old(invoked) + if result.InProgress? then [] else [Invocation(callback, status)]
    {
      PostedKeepsLists(State(), conn, callback, result);
      assert lists[conn] + [] == lists[conn];
      status, request := UCS_OK, None;
      match result
      case Null => Call(Some(callback), UCS_OK);
      case Failed(s) =>
        status := s;
        Call(Some(callback), status);
      case Finished(s) =>
        status := s;
        Call(Some(callback), status);
      case InProgress(r) =>
        requests := requests[r := Request(Some(callback), Some(conn))];
        RequestStarted(conn, r);
        request := Some(r);
    }

    // result: what UCX would return, were it asked.
    method SendAmData(conn: ConnId, result: PostResult, callback: CallbackId)
      returns (status: int, request: Option<ReqId>)
      requires Valid() && Enabled(State(), Post(conn, callback, result))
      modifies this`requests, this`lists, this`invoked
      ensures Valid() && State() == Posted(old(State()), conn, callback, result)
      ensures conn !in endpoints ==> status == UCS_ERR_CANCELED && request == None
      ensures conn in endpoints ==>
                && request == (if result.InProgress? then Some(result.request) else None)
                && status == if result.Failed? || result.Finished? then result.status else UCS_OK
    {
      if conn !in endpoints {
        Call(Some(callback), UCS_ERR_CANCELED);
        status, request := UCS_ERR_CANCELED, None;
      } else {
        status, request := ProcessRequest(conn, result, callback);
      }
    }

    // UCX completes a request it holds.
    method CommonRequestCallback(request: ReqId, status: int)
      requires Valid() && Enabled(State(), Complete(request, status))
      modifies this`requests, this`lists, this`invoked
      ensures Valid() && State() == Completed(old(State()), request, status)
    {
      CompletedKeepsLists(State(), request, status);
      var r := requests[request];
      Call(r.callback, status);
      if r.conn.Some? {
        RequestCompleted(r.conn.value, request);
      }
      requests := requests - {request};
    }

    // UCX completes the request if it still holds it.
    method Deliver(request: ReqId, status: int)
      requires Valid()
      modifies this`requests, this`lists, this`invoked
      ensures Valid() && State() == Next(old(State()), Complete(request, status))
      ensures lists.Keys == old(lists.Keys)
    {
      if request in requests && status != UCS_INPROGRESS {
        CommonRequestCallback(request, status);
      }
    }

    // now: the requests UCX completes inside the cancelling call, and their statuses.
    method CancelAll(conn: ConnId, now: map<ReqId, int>)
      requires Valid() && conn in lists
      modifies this`requests, this`lists, this`invoked
      ensures Valid() && State() == Run(old(State()), CancelOps(old(lists[conn]), now))
      ensures lists.Keys == old(lists.Keys)
    {
      ghost var start := State();
      ghost var trace: seq<Op> := [];
      var list, i := lists[conn], 0;
      while i < |list|
        invariant 0 <= i <= |list|
        invariant trace == CancelOps(list[..i], now)
        invariant Valid() && State() == Run(start, trace)
        invariant lists.Keys == old(lists.Keys)
      {
        CancelOneMore(list, i, now);
        var request := list[i];
        if request in now {
          RunOneMore(start, trace, Complete(request, now[request]));
          Deliver(request, now[request]);
          trace := trace + [Complete(request, now[request])];
        }
        i := i + 1;
      }
      assert list[..|list|] == list;
    }

    // One round of worker progress: UCX completes some of the requests it holds.
    method Progress(events: seq<(ReqId, int)>, ghost trace: seq<Op>, ghost start: World)
      requires Valid() && State() == Run(start, trace)
      modifies this`requests, this`lists, this`invoked
      ensures Valid() && State() == Run(start, trace + CompleteOps(events))
      ensures lists.Keys == old(lists.Keys)
    {
      var i := 0;
      assert trace + CompleteOps(events[..0]) == trace;
      while i < |events|
        invariant 0 <= i <= |events|
        invariant Valid() && State() == Run(start, trace + CompleteOps(events[..i]))
        invariant lists.Keys == old(lists.Keys)
      {
        var (request, status) := events[i];
        Deliver(request, status);
        RunOneMore(start, trace + CompleteOps(events[..i]), Complete(request, status));
        assert trace + CompleteOps(events[..i + 1]) == (trace + CompleteOps(events[..i])) + [Complete(request, status)];
        i := i + 1;
      }
      assert events[..|events|] == events;
    }

    // Unlinks every request left and answers its callback; UCX keeps the request itself.
    method ForceCleanUp(conn: ConnId)
      requires Valid() && conn in lists
      modifies this`requests, this`lists, this`invoked
      ensures Valid() && State() == Cleaned(old(State()), conn)
    {
      while lists[conn] != []
        invariant Valid() && conn in lists
        invariant Cleaned(State(), conn) == Cleaned(old(State()), conn)
        decreases |lists[conn]|
      {
        CleanFirstKeepsLists(State(), conn);
        var request := lists[conn][0];
        lists := lists[conn := lists[conn][1..]];
        Call(requests[request].callback, UCS_ERR_CANCELED);
        requests := requests[request := Request(None, None)];
      }
    }

    method EpClose(conn: ConnId, inProgress: bool)
      requires Valid() && conn in lists && (conn in endpoints ==> conn !in closing)
      modifies this`endpoints, this`closing
      ensures Valid() && State() == Closed(old(State()), conn, inProgress)
    {
      if conn in endpoints {
        if inProgress {
          closing := closing + {conn};
        }
        endpoints := endpoints - {conn};
      }
    }

    // At most 100 rounds of progress, while anything is outstanding.
    method ProgressBriefly(conn: ConnId, now: map<ReqId, int>, rounds: seq<seq<(ReqId, int)>>, ghost start: World)
      requires Valid() && conn in lists && |rounds| == 100 && conn in start.lists
      requires State() == Run(start, Delivered(start, conn, now, rounds, 0))
      modifies this`requests, this`lists, this`invoked
      ensures Valid() && conn in lists && State() == Run(start, Delivered(start, conn, now, rounds, 100))
    {
      hide ListsExact, Run;
      var i := 0;
      while i < 100 && lists[conn] != []
        invariant 0 <= i <= 100 && conn in lists
        invariant Valid() && State() == Run(start, Delivered(start, conn, now, rounds, i))
      {
        Progress(rounds[i], Delivered(start, conn, now, rounds, i), start);
        i := i + 1;
      }
      if i < 100 {
        NothingLeftToProgress(start, conn, now, rounds, i, 100);
      }
    }

    /** Tears the connection down in the caller's thread: cancel everything, let UCX progress briefly,
        clean up the rest, close the endpoint.  completed: what UCX completed meanwhile. */
    method DisconnectDirect(conn: ConnId, now: map<ReqId, int>, rounds: seq<seq<(ReqId, int)>>, inProgress: bool)
      returns (ghost completed: seq<Op>)
      requires Valid() && conn in lists && |rounds| == 100 && (conn in endpoints ==> conn !in closing)
      modifies this
      ensures Valid() && OnlyCompletions(completed)
      ensures completed == Delivered(old(State()), conn, now, rounds, 100)
      ensures conn in Run(old(State()), completed).lists
      ensures State() == TornDown(old(State()), conn, completed, inProgress)
      ensures conn in lists && lists[conn] == [] && conn !in endpoints
    {
      hide ListsExact, Run, CancelOps;
      ghost var start := State();
      completed := Delivered(start, conn, now, rounds, 100);
      DeliveredCompletes(start, conn, now, rounds, 100);
      CancelAll(conn, now);
      ProgressBriefly(conn, now, rounds, start);
      CleanedKeepsLists(State(), conn);
      CompletionsOnlyShrink(start, completed, conn);
      if lists[conn] != [] {
        ForceCleanUp(conn);
      }
      if conn in endpoints {
        EpClose(conn, inProgress);
      }
    }

    // True when the connection has nothing outstanding and may be destroyed.
    method DisconnectProgress(conn: ConnId, inProgress: bool) returns (done: bool)
      requires Valid() && conn in lists
      modifies this`closing
      ensures Valid() && State() == Polled(old(State()), conn, inProgress)
      ensures done == Done(old(State()), conn, inProgress)
    {
      if lists[conn] != [] {
        return false;
      }
      if conn in closing {
        if inProgress {
          return false;
        }
        closing := closing - {conn};
      }
      done := true;
    }
  }
}
