/**
 The race between the timer-reaping loop of the I/O thread and a stop request for one timer
 operation.  Each side announces itself by adding its flag to a shared state word; whoever
 adds second sees the other's flag and leaves the operation to the first.

 The operation is an intrusive node: it may be in the timer heap, and, through its next_
 link, in the local run queue or in the remote run queue, but never in both queues.
 */
module TimerRace {
  datatype Signal = Value | Done

  const TIMER_ELAPSED := 1
  const CANCEL_PENDING := 2

  // Whether the receiver's token type can ever stop, and whether this token can.
  datatype Token = NeverStops | CannotStop | CanStop

  // The function the operation runs when it reaches the front of a run queue.
  datatype Execute =
    | OnScheduleComplete
    | MaybeCompleteWithValue
    | CompleteWithDone
    | RemoveTimerAndCompleteWithDone

  // What the I/O thread is in the middle of doing to this operation.
  datatype Io =
    | Free
    | Arming         // inserted into the heap, about to build the stop callback
    | Reaping        // popped from the heap, about to add its flag
    | Reaped         // it owns the completion and is about to enqueue
    | Running        // the execute function was entered
    | Deciding       // the stop callback is destructed; the stop flag decides about the signal
    | Removing       // the stop callback is destructed; the flag decides about the heap
    | Signalling(signal: Signal)

  datatype Callback =
    | NotBuilt
    | Armed
    | Entered        // on another thread: popped by the stop source, about to add its flag
    | Announced      // on another thread: added its flag first, about to enqueue
    | Enqueued       // on another thread: enqueued, about to return
    | Ran
    | Destructed

  // queuedLocal, queuedRemote: membership in the two run queues through the one next_ link.
  // broken: the node was enqueued while in a queue, removed from the heap while not in it or
  // inserted twice, or the callback was destructed when it was not there.
  datatype State = State(
    started: bool, io: Io, callback: Callback, word: int, execute: Execute,
    inHeap: bool, queuedLocal: bool, queuedRemote: bool,
    stopRequested: bool, inserts: nat, removals: nat, signals: seq<Signal>, broken: bool)

  const INIT := State(false, Free, NotBuilt, 0, OnScheduleComplete, false, false, false, false, 0, 0, [], false)

  // word & flag
  function Elapsed(s: State): bool { s.word % 2 == 1 }

  function CancelPending(s: State): bool { (s.word / 2) % 2 == 1 }

  function EnqueueLocal(s: State): State {
    s.(queuedLocal := true, broken := s.broken || s.queuedLocal || s.queuedRemote)
  }

  function EnqueueRemote(s: State): State {
    s.(queuedRemote := true, broken := s.broken || s.queuedLocal || s.queuedRemote)
  }

  function InsertTimer(s: State): State {
    s.(inHeap := true, inserts := s.inserts + 1, broken := s.broken || s.inHeap)
  }

  function RemoveTimer(s: State): State {
    s.(inHeap := false, removals := s.removals + 1, broken := s.broken || !s.inHeap)
  }

  function DestructCallback(s: State): State {
    s.(callback := Destructed, broken := s.broken || !(s.callback.Armed? || s.callback.Ran?))
  }

  // The stop callback is running on another thread.
  predicate UnderWay(s: State) { s.callback.Entered? || s.callback.Announced? || s.callback.Enqueued? }

  // The scheduler's choice.
  datatype Choice =
    | Start(onIoThread: bool)
    // The stop flag is set.  On the I/O thread an armed callback then runs to its end: no other thread
    // touches the operation meanwhile.  On another thread it runs in later steps.
    | RequestStop(onIoThread: bool)
    | RemoteStop                      // the stop on another thread moves on
    | Reap                            // the timer is due
    | IoStep                          // the I/O thread drains a run queue or goes on

  function StartLocal(s: State, token: Token): State {
    if !token.NeverStops? && s.stopRequested then EnqueueLocal(s.(execute := CompleteWithDone)).(io := Free)
    else InsertTimer(s.(execute := MaybeCompleteWithValue)).(io := if token.NeverStops? then Free else Arming)
  }

  // The callback on the I/O thread, from start to end.
  function RequestStopLocal(s: State): State {
    var r := DestructCallback(s).(execute := CompleteWithDone);
    if !Elapsed(r) then EnqueueLocal(RemoveTimer(r)) else r
  }

  // The atomic addition of a callback on another thread, and what it told it.
  function RequestStopRemote(s: State): State {
    s.(word := s.word + CANCEL_PENDING, callback := if Elapsed(s) then Ran else Announced)
  }

  function IoNext(s: State, token: Token): State {
    match s.io
    case Free =>
      if s.queuedLocal then s.(queuedLocal := false, io := Running)
      else if s.queuedRemote then s.(queuedRemote := false, io := Running)
      else s
    case Arming =>
      // building the callback runs it at once if a stop was requested meanwhile
      var r := s.(callback := Armed, io := Free);
      if s.stopRequested then RequestStopLocal(r) else r
    case Reaping =>
      if token.CanStop? then s.(word := s.word + TIMER_ELAPSED, io := if CancelPending(s) then Free else Reaped)
      else s.(io := Reaped)
    case Reaped => EnqueueLocal(s).(io := Free)
    case Running =>
      (match s.execute
       case OnScheduleComplete => StartLocal(s, token)
       case MaybeCompleteWithValue =>
         if token.NeverStops? then s.(io := Signalling(Value))
         // destructing waits for a callback that is running on its thread
         else if UnderWay(s) then s
         else DestructCallback(s).(io := Deciding)
       case CompleteWithDone => s.(io := Signalling(Done))
       case RemoveTimerAndCompleteWithDone =>
         if UnderWay(s) then s else DestructCallback(s).(io := Removing))
    case Deciding => s.(io := Signalling(if s.stopRequested then Done else Value))
    case Removing => (if Elapsed(s) then s else RemoveTimer(s)).(io := Signalling(Done))
    case Signalling(g) => s.(io := Free, signals := s.signals + [g])
  }

  function Step(s: State, c: Choice, token: Token): State {
    match c
    case Start(here) =>
      if s.started then s
      else if here then StartLocal(s.(started := true), token)
      else EnqueueRemote(s.(started := true))
    case RequestStop(here) =>
      if !token.CanStop? || s.stopRequested || (here && s.io != Free) then s
      else
        var r := s.(stopRequested := true);
        if here && s.callback.Armed? then RequestStopLocal(r) else r
    case RemoteStop =>
      (match s.callback
       case Armed => if s.stopRequested then s.(callback := Entered) else s
       case Entered => RequestStopRemote(s)
       case Announced => EnqueueRemote(s.(execute := RemoveTimerAndCompleteWithDone)).(callback := Enqueued)
       case Enqueued => s.(callback := Ran)
       case _ => s)
    case Reap => if s.inHeap && s.io.Free? then RemoveTimer(s).(io := Reaping) else s
    case IoStep => IoNext(s, token)
  }

  function Run(token: Token, choices: seq<Choice>): State {
    if choices == [] then INIT else Step(Run(token, choices[..|choices| - 1]), choices[|choices| - 1], token)
  }

  // ---------------------------------------------------------------------------
  // Who is responsible for the operation; every reachable state is one of these.

  predicate NotQueued(s: State) { !s.queuedLocal && !s.queuedRemote }

  // The receiver was signalled, or nothing was started.
  predicate AtRest(s: State) {
    NotQueued(s) && !s.inHeap && s.io.Free? && (s.callback.NotBuilt? || s.callback.Destructed?)
    && (|s.signals| == 1 <==> s.started)
  }

  // On its way to the first run of start_local, or stopped before it.
  predicate Starting(s: State) {
    && s.started && !s.inHeap && s.callback.NotBuilt? && s.word == 0 && s.inserts == 0
    && ((s.execute.OnScheduleComplete? && !s.queuedLocal && (s.queuedRemote <==> s.io.Free?))
        || (s.execute.CompleteWithDone? && !s.queuedRemote && (s.queuedLocal <==> s.io.Free?) && s.stopRequested))
    && (s.io.Free? || s.io.Running?)
  }

  predicate CallbackOf(s: State, token: Token) {
    if token.NeverStops? then s.callback.NotBuilt?
    else s.callback.Armed? || (s.callback.Entered? && s.stopRequested)
  }

  // In the heap, nobody has claimed it.
  predicate Waiting(s: State, token: Token) {
    && s.started && NotQueued(s) && s.inHeap && s.word == 0 && s.execute.MaybeCompleteWithValue?
    && (if s.io.Arming? then s.callback.NotBuilt? && !token.NeverStops?
        else s.io.Free? && CallbackOf(s, token))
  }

  // The reaping loop popped it and claimed it, or is about to.
  predicate ClaimedByTimer(s: State, token: Token) {
    && s.started && !s.inHeap && !s.queuedRemote
    && (s.io.Reaping? ==> s.word == 0 && CallbackOf(s, token))
    && (!s.io.Reaping? ==> Elapsed(s) == token.CanStop?)
    && (match s.execute
        case MaybeCompleteWithValue =>
          || (CallbackOf(s, token) && !CancelPending(s))
          || (token.CanStop? && s.callback.Ran? && CancelPending(s) && s.stopRequested)
        case CompleteWithDone => token.CanStop? && s.callback.Destructed? && s.word == TIMER_ELAPSED && s.stopRequested
        case _ => false)
    && (s.execute.CompleteWithDone? ==> s.io.Free? || s.io.Running?)
    && (s.io.Reaping? || s.io.Reaped? || s.io.Running? || s.io.Free?)
    && (s.queuedLocal <==> s.io.Free?)
  }

  // A stop on the I/O thread took it out of the heap.
  predicate ClaimedByLocalStop(s: State, token: Token) {
    && s.started && token.CanStop? && s.stopRequested
    && !s.inHeap && !s.queuedRemote && s.word == 0 && s.callback.Destructed? && s.execute.CompleteWithDone?
    && (s.io.Free? || s.io.Running?) && (s.queuedLocal <==> s.io.Free?)
  }

  // A stop on another thread added its flag first; the heap may still hold the operation.
  predicate ClaimedByRemoteStop(s: State, token: Token) {
    && s.started && token.CanStop? && s.stopRequested && CancelPending(s) && !s.queuedLocal
    && (s.callback.Announced? ==> s.execute.MaybeCompleteWithValue? && !s.queuedRemote)
    && (s.callback.Enqueued? || s.callback.Ran? || s.callback.Destructed? ==> s.execute.RemoveTimerAndCompleteWithDone?)
    && !s.callback.NotBuilt? && !s.callback.Armed? && !s.callback.Entered?
    && (s.callback.Destructed? <==> s.io.Removing?)
    && (s.io.Free? || s.io.Reaping? || s.io.Running? || s.io.Removing?)
    && (s.io.Running? ==> !s.callback.Announced?)
    && (s.callback.Enqueued? || s.callback.Ran? ==> (s.queuedRemote <==> !s.io.Running?))
    && (s.io.Removing? ==> !s.queuedRemote)
    && (if s.io.Reaping? then !s.inHeap && !Elapsed(s) else s.inHeap == !Elapsed(s))
  }

  predicate Ending(s: State) {
    && s.started && NotQueued(s) && !s.inHeap && (s.io.Signalling? || s.io.Deciding?)
    && (s.callback.NotBuilt? || s.callback.Destructed?)
    && (s.io.Deciding? ==> s.execute.MaybeCompleteWithValue?)
    && (s.io == Signalling(Done) ==> s.stopRequested)
    && (s.io == Signalling(Value) ==> s.execute.MaybeCompleteWithValue?)
  }

  predicate Inv(s: State, token: Token) {
    && !s.broken
    && 0 <= s.word <= 3
    && s.inserts == s.removals + (if s.inHeap then 1 else 0)
    && s.inserts <= 1
    && (s.stopRequested ==> token.CanStop?)
    && (s.started || s == INIT.(stopRequested := s.stopRequested))
    && (|s.signals| != 0 && s.signals[0] == Done ==> s.stopRequested)
    && (|s.signals| != 0 && s.signals[0] == Value ==> s.execute.MaybeCompleteWithValue?)
    && (AtRest(s) || (s.signals == [] &&
          (Starting(s) || Waiting(s, token) || ClaimedByTimer(s, token) || ClaimedByLocalStop(s, token)
           || ClaimedByRemoteStop(s, token) || Ending(s))))
  }

  lemma StartKeepsInv(s: State, c: Choice, token: Token)
    requires Inv(s, token) && c.Start?
    ensures Inv(Step(s, c, token), token)
  {}

  lemma RequestStopKeepsInv(s: State, c: Choice, token: Token)
    requires Inv(s, token) && c.RequestStop?
    ensures Inv(Step(s, c, token), token)
  {}

  lemma RemoteStopKeepsInv(s: State, c: Choice, token: Token)
    requires Inv(s, token) && c.RemoteStop?
    ensures Inv(Step(s, c, token), token)
  {}

  lemma ReapKeepsInv(s: State, c: Choice, token: Token)
    requires Inv(s, token) && c.Reap?
    ensures Inv(Step(s, c, token), token)
  {}

  lemma FreeKeepsInv(s: State, token: Token)
    requires Inv(s, token) && s.io.Free?
    ensures Inv(IoNext(s, token), token)
  {}

  lemma ArmingKeepsInv(s: State, token: Token)
    requires Inv(s, token) && s.io.Arming?
    ensures Inv(IoNext(s, token), token)
  {}

  lemma ReapingKeepsInv(s: State, token: Token)
    requires Inv(s, token) && s.io.Reaping?
    ensures Inv(IoNext(s, token), token)
  {}

  lemma ReapedKeepsInv(s: State, token: Token)
    requires Inv(s, token) && s.io.Reaped?
    ensures Inv(IoNext(s, token), token)
  {}

  lemma StartRunKeepsInv(s: State, token: Token)
    requires Inv(s, token) && s.io.Running? && s.execute.OnScheduleComplete?
    ensures Inv(IoNext(s, token), token)
  {}

  lemma ValueRunKeepsInv(s: State, token: Token)
    requires Inv(s, token) && s.io.Running? && s.execute.MaybeCompleteWithValue?
    ensures Inv(IoNext(s, token), token)
  {}

  lemma DoneRunKeepsInv(s: State, token: Token)
    requires Inv(s, token) && s.io.Running?
    requires s.execute.CompleteWithDone? || s.execute.RemoveTimerAndCompleteWithDone?
    ensures Inv(IoNext(s, token), token)
  {}

  lemma RunningKeepsInv(s: State, token: Token)
    requires Inv(s, token) && s.io.Running?
    ensures Inv(IoNext(s, token), token)
  {
    hide Inv, IoNext;
    match s.execute
    case OnScheduleComplete => StartRunKeepsInv(s, token);
    case MaybeCompleteWithValue => ValueRunKeepsInv(s, token);
    case _ => DoneRunKeepsInv(s, token);
  }

  lemma RemovingKeepsInv(s: State, token: Token)
    requires Inv(s, token) && s.io.Removing?
    ensures Inv(IoNext(s, token), token)
  {}

  lemma DecidingKeepsInv(s: State, token: Token)
    requires Inv(s, token) && s.io.Deciding?
    ensures Inv(IoNext(s, token), token)
  {}

  lemma SignallingKeepsInv(s: State, token: Token)
    requires Inv(s, token) && s.io.Signalling?
    ensures Inv(IoNext(s, token), token)
  {}

  lemma StepKeepsInv(s: State, c: Choice, token: Token)
    requires Inv(s, token)
    ensures Inv(Step(s, c, token), token)
  {
    match c
    case Start(here) => StartKeepsInv(s, c, token);
    case RequestStop(here) => RequestStopKeepsInv(s, c, token);
    case RemoteStop => RemoteStopKeepsInv(s, c, token);
    case Reap => ReapKeepsInv(s, c, token);
    case IoStep =>
      match s.io
      case Free => FreeKeepsInv(s, token);
      case Arming => ArmingKeepsInv(s, token);
      case Reaping => ReapingKeepsInv(s, token);
      case Reaped => ReapedKeepsInv(s, token);
      case Running => RunningKeepsInv(s, token);
      case Removing => RemovingKeepsInv(s, token);
      case Deciding => DecidingKeepsInv(s, token);
      case Signalling(g) => SignallingKeepsInv(s, token);
  }

  lemma {:induction false} RunKeepsInv(token: Token, choices: seq<Choice>)
    ensures Inv(Run(token, choices), token)
  {
    if choices != [] {
      RunKeepsInv(token, choices[..|choices| - 1]);
      StepKeepsInv(Run(token, choices[..|choices| - 1]), choices[|choices| - 1], token);
    }
  }

  /** Exactly once: in every interleaving of the reaping loop with a local or remote stop, the receiver
      is signalled at most once; when it is, the operation went into the heap as often as it came out of
      it (at most once), it is in no queue, and the callback is gone.  It has been signalled exactly
      when it was started and nobody holds it: no queue, no heap, no step under way.  At no point is the
      node in two run queues, enqueued twice, removed twice, or its callback destructed twice. */
  lemma CompletesExactlyOnce(token: Token, choices: seq<Choice>)
    ensures var s := Run(token, choices);
            && !s.broken
            && |s.signals| <= 1
            && (|s.signals| == 1 <==> s.started && NotQueued(s) && !s.inHeap && s.io.Free? && !UnderWay(s))
            && !(s.queuedLocal && s.queuedRemote)
            && s.removals <= s.inserts <= 1
            && (s.inHeap <==> s.inserts == s.removals + 1)
            && (|s.signals| == 1 ==> NotQueued(s) && s.inserts == s.removals && !s.callback.Armed?)
            && (|s.signals| == 1 && s.signals[0] == Done ==> s.stopRequested)
  {
    RunKeepsInv(token, choices);
  }

  /** After the signal no step touches the operation again. */
  lemma NothingRunsAfterSignal(token: Token, choices: seq<Choice>, c: Choice)
    requires |Run(token, choices).signals| == 1
    ensures var s := Run(token, choices); var s' := Step(s, c, token);
            s' == s.(stopRequested := s'.stopRequested)
  {
    RunKeepsInv(token, choices);
  }

  // A stop that reached an armed callback before the timer was claimed owns the operation.
  predicate StopClaimed(s: State) {
    s.callback.Announced? || s.callback.Enqueued? || s.execute.RemoveTimerAndCompleteWithDone? || s.execute.CompleteWithDone?
  }

  lemma IoClaimIsKept(s: State, token: Token)
    requires Inv(s, token) && StopClaimed(s)
    ensures StopClaimed(IoNext(s, token))
  {}

  lemma ClaimIsKept(s: State, c: Choice, token: Token)
    requires Inv(s, token) && StopClaimed(s)
    ensures StopClaimed(Step(s, c, token))
  {
    match c
    case IoStep => IoClaimIsKept(s, token);
    case _ =>
  }

  lemma RunKeepsClaim(token: Token, choices: seq<Choice>, c: Choice)
    requires StopClaimed(Run(token, choices))
    ensures StopClaimed(Run(token, choices + [c]))
  {
    RunKeepsInv(token, choices);
    ClaimIsKept(Run(token, choices), c, token);
    assert (choices + [c])[..|choices + [c]| - 1] == choices;
  }

  lemma ClaimedSignal(token: Token, choices: seq<Choice>)
    requires StopClaimed(Run(token, choices))
    ensures |Run(token, choices).signals| == 0 || Run(token, choices).signals == [Done]
  {
    RunKeepsInv(token, choices);
  }

  /** The winner of the race decides the signal: once a stop has claimed the operation, the signal is done. */
  lemma {:induction false} ClaimEndsInDone(token: Token, choices: seq<Choice>, more: seq<Choice>)
    requires StopClaimed(Run(token, choices))
    ensures StopClaimed(Run(token, choices + more))
    ensures |Run(token, choices + more).signals| == 0 || Run(token, choices + more).signals == [Done]
    decreases |more|
  {
    if more == [] {
      assert choices + more == choices;
    } else {
      var fewer, last := more[..|more| - 1], more[|more| - 1];
      ClaimEndsInDone(token, choices, fewer);
      assert choices + more == (choices + fewer) + [last];
      RunKeepsClaim(token, choices + fewer, last);
    }
    ClaimedSignal(token, choices + more);
  }

  // A stop was requested before the operation settled on a value.
  predicate StoppedInTime(s: State) {
    s.stopRequested && s.io != Signalling(Value) && Value !in s.signals
  }

  lemma IoKeepsStop(s: State, token: Token)
    requires Inv(s, token) && StoppedInTime(s)
    ensures StoppedInTime(IoNext(s, token))
  {}

  lemma StepKeepsStop(s: State, c: Choice, token: Token)
    requires Inv(s, token) && StoppedInTime(s)
    ensures StoppedInTime(Step(s, c, token))
  {
    match c
    case IoStep => IoKeepsStop(s, token);
    case _ =>
  }

  /** A stop requested before the signal is decided ends in done, in every continuation, even when the
      timer had been claimed first; without a request the signal is a value. */
  lemma {:induction false} StopBeforeDecisionEndsInDone(token: Token, choices: seq<Choice>, more: seq<Choice>)
    requires var s := Run(token, choices); s.stopRequested && s.signals == [] && !s.io.Signalling?
    ensures Run(token, choices + more).signals == [] || Run(token, choices + more).signals == [Done]
    ensures StoppedInTime(Run(token, choices + more))
    decreases |more|
  {
    hide Step, Inv;
    if more == [] {
      assert choices + more == choices;
    } else {
      var fewer, last := more[..|more| - 1], more[|more| - 1];
      StopBeforeDecisionEndsInDone(token, choices, fewer);
      RunKeepsInv(token, choices + fewer);
      StepKeepsStop(Run(token, choices + fewer), last, token);
      assert (choices + more)[..|choices + more| - 1] == choices + fewer;
    }
    CompletesExactlyOnce(token, choices + more);
  }

  lemma StoppedStepInsertsNothing(s: State, c: Choice, token: Token)
    requires Inv(s, token) && s.stopRequested
    ensures Step(s, c, token).stopRequested && Step(s, c, token).inserts == s.inserts
  {}

  /** A stop requested before the timer was put into the heap keeps it out of the heap for good. */
  lemma {:induction false} StopBeforeStartNeverArms(token: Token, choices: seq<Choice>, more: seq<Choice>)
    requires Run(token, choices).stopRequested && Run(token, choices).inserts == 0
    ensures Run(token, choices + more).stopRequested && Run(token, choices + more).inserts == 0
    decreases |more|
  {
    hide Inv, Step;
    if more == [] {
      assert choices + more == choices;
    } else {
      var fewer, last := more[..|more| - 1], more[|more| - 1];
      StopBeforeStartNeverArms(token, choices, fewer);
      RunKeepsInv(token, choices + fewer);
      StoppedStepInsertsNothing(Run(token, choices + fewer), last, token);
      assert (choices + more)[..|choices + more| - 1] == choices + fewer;
    }
  }

  lemma ArmedStopsAtOnce(s: State, token: Token)
    requires Inv(s, token) && token.CanStop? && s.callback.Armed? && s.io.Free? && !s.stopRequested
    ensures var s' := Step(s, RequestStop(true), token);
            && !s'.inHeap && s'.queuedLocal && s'.callback.Destructed? && s'.execute.CompleteWithDone?
  {}

  /** A stop requested on the I/O thread takes the armed timer out of the heap at once, or finds it out
      already, and leaves it queued to complete with done. */
  lemma LocalStopIsImmediate(token: Token, choices: seq<Choice>)
    requires var s := Run(token, choices); token.CanStop? && s.callback.Armed? && s.io.Free? && !s.stopRequested
    ensures var s' := Run(token, choices + [RequestStop(true)]);
            && !s'.inHeap && s'.queuedLocal && s'.callback.Destructed? && s'.execute.CompleteWithDone?
  {
    hide Inv, Step;
    assert (choices + [RequestStop(true)])[..|choices|] == choices;
    RunKeepsInv(token, choices);
    ArmedStopsAtOnce(Run(token, choices), token);
  }

  // The state some further choices lead to.
  function Continue(s: State, more: seq<Choice>, token: Token): State
    decreases |more|
  {
    if more == [] then s else Continue(Step(s, more[0], token), more[1..], token)
  }

  lemma RemoteStopGoesThrough(s: State, token: Token)
    requires Inv(s, token) && s.stopRequested && s.callback.Armed? && s.inHeap
    ensures var s' := Continue(s, [RemoteStop, RemoteStop, RemoteStop], token);
            && s'.queuedRemote && s'.execute.RemoveTimerAndCompleteWithDone? && CancelPending(s') && s'.inHeap
  {}

  /** A stop on another thread reaches a timer that still waits: three of its steps claim it and hand it
      over to the I/O thread, which is to take it out of the heap and complete it with done. */
  lemma RemoteStopTakesEffect(token: Token, choices: seq<Choice>)
    requires var s := Run(token, choices); s.stopRequested && s.callback.Armed? && s.inHeap
    ensures var s' := Continue(Run(token, choices), [RemoteStop, RemoteStop, RemoteStop], token);
            && s'.queuedRemote && s'.execute.RemoveTimerAndCompleteWithDone? && CancelPending(s') && s'.inHeap
  {
    hide Inv, Step;
    RunKeepsInv(token, choices);
    RemoteStopGoesThrough(Run(token, choices), token);
  }

  // The run took the due timer out of the heap at some step.
  predicate WasDue(token: Token, choices: seq<Choice>) {
    choices != [] &&
    var before := choices[..|choices| - 1];
    WasDue(token, before)
    || (choices[|choices| - 1].Reap? && Run(token, before).inHeap && Run(token, before).io.Free?)
  }

  // No step found the timer due, so nothing leads to a value yet.
  predicate NotDue(s: State) {
    && !s.io.Reaping? && !s.io.Reaped? && !s.io.Deciding? && s.io != Signalling(Value) && Value !in s.signals
    && (s.execute.MaybeCompleteWithValue? ==> !s.queuedLocal && !s.queuedRemote && !s.io.Running?)
  }

  lemma IoStaysNotDue(s: State, token: Token)
    requires Inv(s, token) && NotDue(s)
    ensures NotDue(IoNext(s, token))
  {}

  lemma StepStaysNotDue(s: State, c: Choice, token: Token)
    requires Inv(s, token) && NotDue(s) && !(c.Reap? && s.inHeap && s.io.Free?)
    ensures NotDue(Step(s, c, token))
  {
    match c
    case IoStep => IoStaysNotDue(s, token);
    case _ =>
  }

  lemma StartsNotDue()
    ensures NotDue(INIT)
  {}

  lemma {:induction false} NotDueUntilReaped(token: Token, choices: seq<Choice>)
    requires !WasDue(token, choices)
    ensures NotDue(Run(token, choices))
  {
    hide Inv, Step, NotDue;
    if choices == [] {
      StartsNotDue();
    } else {
      var before := choices[..|choices| - 1];
      NotDueUntilReaped(token, before);
      RunKeepsInv(token, before);
      StepStaysNotDue(Run(token, before), choices[|choices| - 1], token);
    }
  }

  lemma StepKeepsInserts(s: State, c: Choice, token: Token)
    requires Inv(s, token)
    ensures s.inserts <= Step(s, c, token).inserts && (s.inHeap ==> s.inserts == 1)
  {}

  lemma {:induction false} DueWasInHeap(token: Token, choices: seq<Choice>)
    requires WasDue(token, choices)
    ensures Run(token, choices).inserts >= 1
  {
    hide Inv, Step;
    var before := choices[..|choices| - 1];
    if WasDue(token, before) {
      DueWasInHeap(token, before);
    }
    RunKeepsInv(token, before);
    StepKeepsInserts(Run(token, before), choices[|choices| - 1], token);
  }

  lemma NoValueUnlessDue(s: State)
    requires NotDue(s)
    ensures s.signals != [Value]
  {}

  /** A timer completes with a value only after it was due: it went through the heap, and a step of the
      run took it out because its time had come. */
  lemma ValueOnlyWhenDue(token: Token, choices: seq<Choice>)
    requires Run(token, choices).signals == [Value]
    ensures WasDue(token, choices) && Run(token, choices).inserts == 1
  {
    hide Run, NotDue;
    if !WasDue(token, choices) {
      NotDueUntilReaped(token, choices);
      NoValueUnlessDue(Run(token, choices));
    }
    DueWasInHeap(token, choices);
    CompletesExactlyOnce(token, choices);
  }

  // The next step that brings a started operation closer to its signal.
  function Advance(s: State): Choice {
    if UnderWay(s) then RemoteStop
    else if s.io.Free? && NotQueued(s) then Reap
    else IoStep
  }

  function Distance(s: State): nat {
    (match s.callback
     case Entered => 60
     case Announced => 40
     case Enqueued => 20
     case _ => 0)
    + match s.io
      case Signalling(_) => 1
      case Removing => 2
      case Deciding => 2
      case Running => if s.execute.OnScheduleComplete? then 19 else 3
      case Reaped => 5
      case Reaping => 6
      case Arming => 18
      case Free =>
        if !NotQueued(s) then (if s.execute.OnScheduleComplete? then 20 else 4)
        else if s.inHeap then 17 else 0
  }

  predicate GetsCloser(s: State, token: Token) {
    Distance(Step(s, Advance(s), token)) < Distance(s) && Step(s, Advance(s), token).started
  }

  lemma StopGetsCloser(s: State, token: Token)
    requires Inv(s, token) && s.started && |s.signals| == 0 && UnderWay(s)
    ensures GetsCloser(s, token)
  {}

  lemma FreeGetsCloser(s: State, token: Token)
    requires Inv(s, token) && s.started && |s.signals| == 0 && !UnderWay(s) && s.io.Free?
    ensures GetsCloser(s, token)
  {}

  lemma StartRunGetsCloser(s: State, token: Token)
    requires Inv(s, token) && s.started && |s.signals| == 0 && !UnderWay(s) && s.io.Running?
    requires s.execute.OnScheduleComplete?
    ensures GetsCloser(s, token)
  {}

  lemma EndRunGetsCloser(s: State, token: Token)
    requires Inv(s, token) && s.started && |s.signals| == 0 && !UnderWay(s) && s.io.Running?
    requires !s.execute.OnScheduleComplete?
    ensures GetsCloser(s, token)
  {}

  lemma IoGetsCloser(s: State, token: Token)
    requires Inv(s, token) && s.started && |s.signals| == 0 && !UnderWay(s) && !s.io.Free? && !s.io.Running?
    ensures GetsCloser(s, token)
  {}

  lemma AdvanceGetsCloser(s: State, token: Token)
    requires Inv(s, token) && s.started && |s.signals| == 0
    ensures GetsCloser(s, token)
  {
    hide Inv, GetsCloser;
    if UnderWay(s) {
      StopGetsCloser(s, token);
    } else if s.io.Free? {
      FreeGetsCloser(s, token);
    } else if s.io.Running? {
      if s.execute.OnScheduleComplete? {
        StartRunGetsCloser(s, token);
      } else {
        EndRunGetsCloser(s, token);
      }
    } else {
      IoGetsCloser(s, token);
    }
  }

  lemma {:induction false} FinishFrom(s: State, token: Token) returns (more: seq<Choice>)
    requires Inv(s, token) && s.started
    ensures |more| <= Distance(s) && |Continue(s, more, token).signals| == 1
    decreases Distance(s)
  {
    more := [];
    if |s.signals| == 0 {
      AdvanceGetsCloser(s, token);
      StepKeepsInv(s, Advance(s), token);
      var rest := FinishFrom(Step(s, Advance(s), token), token);
      more := [Advance(s)] + rest;
    }
  }

  /** No deadlock: from every reachable state of a started operation the receiver can still be
      signalled, in a bounded number of steps. */
  lemma CanAlwaysFinish(token: Token, choices: seq<Choice>) returns (more: seq<Choice>)
    requires Run(token, choices).started
    ensures |more| <= 80 && |Continue(Run(token, choices), more, token).signals| == 1
  {
    RunKeepsInv(token, choices);
    more := FinishFrom(Run(token, choices), token);
  }
}
