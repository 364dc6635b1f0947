/**
 The race between completion and stop of an operation whose receiver must be signalled
 exactly once (section [async.ops] of P2300): a reference count starts at one, a stop
 request raises it to two, and whoever brings it to zero signals the receiver.

 The I/O thread and the thread that requests the stop interleave atomic step by atomic
 step; a schedule is any sequence of choices, and a choice that is not enabled does nothing.
 */
module CancelRace {
  import opened Options

  // connect_sender never retries; recv_buffer_sender_t starts over when a lookup fails.
  datatype Kind = Connect | RecvBuffer

  datatype Signal = Value | Done | Error

  const UCS_OK := 0
  const UCS_ERR_CANCELED := -16

  // The operation's own path on the I/O thread.
  datatype Main =
    | Scheduled                        // start_io will run
    | Submitting                       // the stop callback is registered, a slot is awaited
    | Populating                       // the cancel flag was read and was clear
    | Outstanding(posted: Option<int>) // a completion is due; its result if the entry is posted already
    | RetryOutstanding                 // the entry is posted and will run start_io again
    | Completed                        // its completion function is about to drop the reference
    | Destructing                      // it dropped the last reference and destructs the stop callback
    | Signalling
    | Finished

  // The stop request's path: the callback on any thread, then the cancel operation on the I/O thread.
  datatype Stop =
    | Unregistered
    | Registered
    | Acquired                         // raised the count, about to set the cancel flag
    | Flagged                          // about to hand the cancel operation over
    | HandedOver                       // the cancel operation waits for a slot
    | CancelPosted                     // its completion entry is posted
    | CancelRunning                    // its completion function is about to drop the reference
    | CancelDestructing
    | CancelSignalling
    | Lost                             // the count was already zero
    | Ended

  // broken: an assertion of the code failed, a count fell below zero, or the callback was destructed twice.
  datatype State = State(
    main: Main, stop: Stop, refCount: int, cancelFlag: bool, stopRequested: bool,
    callbackAlive: bool, result: int, signals: seq<Signal>, broken: bool)

  const INIT := State(Scheduled, Unregistered, 1, false, false, false, UCS_OK, [], false)

  // Who moves, with what the environment decides for that step: whether the context has a slot,
  // whether a lookup succeeds, which result a completion carries.
  datatype Choice =
    | MainStep(room: bool, found: bool, status: int)
    | StopStep(room: bool)
    | RequestStop

  function SignalFor(status: int): Signal {
    if status >= 0 then Value else if status == UCS_ERR_CANCELED then Done else Error
  }

  function SignalOf(s: State): Signal {
    if s.stopRequested then Done else SignalFor(s.result)
  }

  function DropReference(s: State): State {
    s.(refCount := s.refCount - 1, broken := s.broken || s.refCount <= 0)
  }

  function DestructCallback(s: State): State {
    s.(callbackAlive := false, broken := s.broken || !s.callbackAlive)
  }

  function MainNext(k: Kind, s: State, room: bool, found: bool, status: int): State {
    match s.main
    case Scheduled =>
      // registers the stop callback the first time only
      s.(main := Submitting, stop := if s.stop.Unregistered? then Registered else s.stop,
         callbackAlive := s.callbackAlive || s.stop.Unregistered?)
    case Submitting =>
      if !room then s.(main := Scheduled)
      else if s.cancelFlag then s.(main := Outstanding(Some(UCS_ERR_CANCELED)), result := UCS_ERR_CANCELED)
      else s.(main := Populating)
    case Populating =>
      (match k
       case Connect => s.(main := Outstanding(Some(status)), result := status)
       case RecvBuffer =>
         if found then s.(main := Outstanding(None), result := status)
         else s.(main := RetryOutstanding, result := status))
    case Outstanding(posted) =>
      // draining the entry stores its result
      s.(main := Completed, result := if posted.Some? then posted.value else status)
    case RetryOutstanding => s.(main := Scheduled)
    case Completed =>
      DropReference(s).(main := if s.refCount == 1 then Destructing else Finished)
    case Destructing =>
      // waits for a callback that is running on another thread
      if s.stop.Acquired? || s.stop.Flagged? then s else DestructCallback(s).(main := Signalling)
    case Signalling => s.(main := Finished, signals := s.signals + [SignalOf(s)])
    case Finished => s
  }

  function StopNext(s: State, room: bool): State {
    match s.stop
    case Unregistered => s
    case Registered =>
      // runs at most once, only after a stop request, and only while registered
      if !s.stopRequested || !s.callbackAlive then s
      else if s.refCount == 1 then s.(stop := Acquired, refCount := 2)
      else s.(stop := Lost, broken := s.broken || s.refCount != 0)
    case Acquired => s.(stop := Flagged, cancelFlag := true)
    case Flagged => s.(stop := HandedOver)
    case HandedOver => if room then s.(stop := CancelPosted, result := UCS_ERR_CANCELED) else s
    case CancelPosted => s.(stop := CancelRunning)
    case CancelRunning =>
      DropReference(s).(stop := if s.refCount == 1 then CancelDestructing else Ended)
    case CancelDestructing => DestructCallback(s).(stop := CancelSignalling)
    case CancelSignalling => s.(stop := Ended, signals := s.signals + [Done])
    case Lost => s
    case Ended => s
  }

  function Step(k: Kind, s: State, c: Choice): State {
    match c
    case MainStep(room, found, status) => MainNext(k, s, room, found, status)
    case StopStep(room) => StopNext(s, room)
    case RequestStop => s.(stopRequested := true)
  }

  function Run(k: Kind, choices: seq<Choice>): State {
    if choices == [] then INIT else Step(k, Run(k, choices[..|choices| - 1]), choices[|choices| - 1])
  }

  // ---------------------------------------------------------------------------

  // Whether a path still holds its reference.
  predicate MainHolds(s: State) {
    !s.main.Destructing? && !s.main.Signalling? && !s.main.Finished?
  }

  predicate StopHolds(s: State) {
    s.stop.Acquired? || s.stop.Flagged? || s.stop.HandedOver? || s.stop.CancelPosted? || s.stop.CancelRunning?
  }

  predicate StopWon(s: State) {
    StopHolds(s) || s.stop.CancelDestructing? || s.stop.CancelSignalling? || s.stop.Ended?
  }

  // The last party out is on its way to signal the receiver.
  predicate Delivering(s: State) {
    s.main.Destructing? || s.main.Signalling? || s.stop.CancelDestructing? || s.stop.CancelSignalling?
  }

  predicate Inv(s: State) {
    && !s.broken
    && s.refCount == (if MainHolds(s) then 1 else 0) + (if StopHolds(s) then 1 else 0)
    && |s.signals| == (if s.refCount == 0 && !Delivering(s) then 1 else 0)
    && (Delivering(s) ==> s.refCount == 0)
    && !((s.main.Destructing? || s.main.Signalling?) && (s.stop.CancelDestructing? || s.stop.CancelSignalling?))
    // the callback lives from its registration until the last party destructs it
    && s.callbackAlive == (!s.stop.Unregistered? &&
                           (s.refCount > 0 || s.main.Destructing? || s.stop.CancelDestructing?))
    && (s.stop.Unregistered? ==> s.main.Scheduled?)
    && (StopWon(s) || s.stop.Lost? ==> s.stopRequested)
    && (s.cancelFlag <==> StopWon(s) && !s.stop.Acquired?)
    && (s.stop.Lost? ==> s.refCount == 0)
    && (s.signals != [] && StopWon(s) ==> s.signals[0] == Done)
    && (s.signals != [] && !s.stopRequested ==> s.signals[0] == SignalOf(s))
  }

  lemma StepKeepsInv(k: Kind, s: State, c: Choice)
    requires Inv(s)
    ensures Inv(Step(k, s, c))
  {}

  lemma {:induction false} RunKeepsInv(k: Kind, choices: seq<Choice>)
    ensures Inv(Run(k, choices))
  {
    if choices != [] {
      RunKeepsInv(k, choices[..|choices| - 1]);
      StepKeepsInv(k, Run(k, choices[..|choices| - 1]), choices[|choices| - 1]);
    }
  }

  /** Exactly once: in every interleaving at most one terminal signal is delivered; it is delivered
      if and only if every party that held a reference has dropped it and the last of them is through;
      and no assertion of the protocol fails. */
  lemma SignalsExactlyOnce(k: Kind, choices: seq<Choice>)
    ensures var s := Run(k, choices);
            && !s.broken
            && |s.signals| <= 1
            && (|s.signals| == 1 <==> !MainHolds(s) && !StopHolds(s) && !Delivering(s))
  {
    RunKeepsInv(k, choices);
  }

  // The status the environment last gave the operation itself: connect_sender posts it at once,
  // recv_buffer_sender_t when its request completes.
  function Given(k: Kind, choices: seq<Choice>): Option<int> {
    if choices == [] then None
    else
      var before, c := choices[..|choices| - 1], choices[|choices| - 1];
      var s := Run(k, before);
      if c.MainStep? && ((k.Connect? && s.main.Populating?) || (k.RecvBuffer? && s.main == Outstanding(None)))
      then Some(c.status) else Given(k, before)
  }

  predicate Carries(k: Kind, s: State, given: Option<int>) {
    s.stopRequested ||
    match s.main
    case Outstanding(posted) => if k.Connect? then posted.Some? && given == posted else posted.None?
    case Completed => given == Some(s.result)
    case Destructing => given == Some(s.result)
    case Signalling => given == Some(s.result)
    case Finished => given == Some(s.result)
    case _ => true
  }

  lemma StepCarries(k: Kind, s: State, c: Choice, given: Option<int>)
    requires Inv(s) && Carries(k, s, given)
    ensures Carries(k, Step(k, s, c),
              if c.MainStep? && ((k.Connect? && s.main.Populating?) || (k.RecvBuffer? && s.main == Outstanding(None)))
              then Some(c.status) else given)
  {}

  lemma {:induction false} RunCarries(k: Kind, choices: seq<Choice>)
    ensures Carries(k, Run(k, choices), Given(k, choices))
  {
    if choices != [] {
      var before := choices[..|choices| - 1];
      RunCarries(k, before);
      RunKeepsInv(k, before);
      StepCarries(k, Run(k, before), choices[|choices| - 1], Given(k, before));
    }
  }

  // The signal a status deserves: a value unless it is an error, done for a cancellation.
  predicate Fits(signals: seq<Signal>, status: int) {
    && (status >= 0 <==> signals == [Value])
    && (status == -16 <==> signals == [Done])
    && (status < 0 && status != -16 <==> signals == [Error])
  }

  /** Which signal: a stop request that took its reference ends in done; without any stop request the
      signal is a value for a status that is no error, done for a cancellation, and an error for any
      other, where the status is the one the environment gave the operation. */
  lemma SignalIsRight(k: Kind, choices: seq<Choice>)
    requires |Run(k, choices).signals| != 0
    ensures var s := Run(k, choices);
            && (StopWon(s) ==> s.signals == [Done])
            && (!s.stopRequested ==>
                  Given(k, choices).Some? && Fits(s.signals, Given(k, choices).value))
  {
    RunKeepsInv(k, choices);
    RunCarries(k, choices);
  }

  lemma StepSignals(k: Kind, s: State, c: Choice)
    requires Inv(s) && |s.signals| == 0 && |Step(k, s, c).signals| != 0
    ensures s.stopRequested ==> Step(k, s, c).signals == [Done]
    ensures !s.stopRequested ==> s.main.Signalling? && Fits(Step(k, s, c).signals, s.result)
  {
    assert s.signals == [];
    assert s.main.Signalling? && c.MainStep? ==> Step(k, s, c).signals == [SignalOf(s)];
  }

  /** What the receiver is told is decided in the step that signals: done if a stop was requested by
      then, whoever won, and otherwise the signal for the status; a later request changes nothing. */
  lemma SignallingStepDecides(k: Kind, choices: seq<Choice>, c: Choice)
    requires |Run(k, choices).signals| == 0 && |Run(k, choices + [c]).signals| != 0
    ensures var s, s' := Run(k, choices), Run(k, choices + [c]);
            && (s.stopRequested ==> s'.signals == [Done])
            && (!s.stopRequested ==> Given(k, choices).Some? && Fits(s'.signals, Given(k, choices).value))
  {
    hide MainNext, StopNext, Inv;
    assert (choices + [c])[..|choices|] == choices;
    RunKeepsInv(k, choices);
    RunCarries(k, choices);
    StepSignals(k, Run(k, choices), c);
  }

  lemma StopGoesThrough(k: Kind, s: State)
    requires Inv(s) && s.stopRequested && s.stop.Registered? && MainHolds(s)
    ensures var s' := StopNext(StopNext(s, true), true);
            && s'.cancelFlag && s'.refCount == 2 && s'.main == s.main
            && StopNext(StopNext(s', true), true).stop == CancelPosted
  {}

  /** A stop request reaches an operation that still holds its reference: two steps of the stop's own path
      take a second reference and raise the cancel flag, two more post its cancellation. */
  lemma StopTakesEffect(k: Kind, choices: seq<Choice>)
    requires var s := Run(k, choices); s.stopRequested && s.stop.Registered? && MainHolds(s)
    ensures var s' := Run(k, choices + [StopStep(true), StopStep(true)]);
            && s'.cancelFlag && s'.refCount == 2 && s'.main == Run(k, choices).main
            && Step(k, Step(k, s', StopStep(true)), StopStep(true)).stop == CancelPosted
  {
    hide Inv, StopNext;
    RunKeepsInv(k, choices);
    StopGoesThrough(k, Run(k, choices));
    var two := choices + [StopStep(true), StopStep(true)];
    assert two[..|choices| + 1] == choices + [StopStep(true)];
    assert (choices + [StopStep(true)])[..|choices|] == choices;
    assert Run(k, two) == StopNext(Run(k, two[..|choices| + 1]), true);
  }

  // The cancel flag is up and the operation has yet to look at it.
  predicate CancelledInTime(s: State) {
    s.cancelFlag && (s.main.Scheduled? || s.main.Submitting? || s.main.RetryOutstanding?)
  }

  // The operation gave up, or is about to, without having asked the environment for anything since.
  predicate GivesUp(s: State) {
    s.cancelFlag && !s.main.Populating? && s.main != Outstanding(None)
  }

  lemma StepGivesUp(k: Kind, s: State, c: Choice)
    requires GivesUp(s)
    ensures GivesUp(Step(k, s, c))
  {}

  /** An operation that sees the cancel flag before it populates never does: in no continuation is a
      request posted, and the environment gives it no status any more. */
  lemma {:induction false} CancelledIsNotPosted(k: Kind, choices: seq<Choice>, more: seq<Choice>)
    requires CancelledInTime(Run(k, choices))
    ensures GivesUp(Run(k, choices + more))
    ensures Given(k, choices + more) == Given(k, choices)
    decreases |more|
  {
    hide Step;
    if more == [] {
      assert choices + more == choices;
    } else {
      var fewer := more[..|more| - 1];
      CancelledIsNotPosted(k, choices, fewer);
      StepGivesUp(k, Run(k, choices + fewer), more[|more| - 1]);
      assert (choices + more)[..|choices + more| - 1] == choices + fewer;
    }
  }

  predicate GrantsNoSlot(choices: seq<Choice>) {
    forall i | 0 <= i < |choices| :: !choices[i].RequestStop? ==> !choices[i].room
  }

  /** Without a free slot nothing is populated, posted or signalled, and a stop does not get further
      than its own wait. */
  lemma {:induction false} WithoutSlotItWaits(k: Kind, choices: seq<Choice>)
    requires GrantsNoSlot(choices)
    ensures var s := Run(k, choices);
            && (s.main.Scheduled? || s.main.Submitting?) && s.signals == [] && Given(k, choices) == None
            && (s.stop.Unregistered? || s.stop.Registered? || s.stop.Acquired? || s.stop.Flagged? || s.stop.HandedOver?)
  {
    if choices != [] {
      WithoutSlotItWaits(k, choices[..|choices| - 1]);
      RunKeepsInv(k, choices[..|choices| - 1]);
    }
  }

  predicate FindsNothing(choices: seq<Choice>) {
    forall i | 0 <= i < |choices| :: choices[i].MainStep? ==> !choices[i].found
  }

  lemma StepStartsOver(s: State, c: Choice)
    requires s.main != Outstanding(None) && (c.MainStep? ==> !c.found)
    ensures Step(RecvBuffer, s, c).main != Outstanding(None)
  {}

  /** A receive whose lookups all fail starts over each time: it has no outcome of its own, so it can be
      signalled only by being stopped. */
  lemma {:induction false} WithoutLookupItStartsOver(choices: seq<Choice>)
    requires FindsNothing(choices)
    ensures var s := Run(RecvBuffer, choices);
            && s.main != Outstanding(None) && Given(RecvBuffer, choices) == None
            && (s.signals != [] ==> s.stopRequested)
  {
    hide Step;
    if choices != [] {
      WithoutLookupItStartsOver(choices[..|choices| - 1]);
      StepStartsOver(Run(RecvBuffer, choices[..|choices| - 1]), choices[|choices| - 1]);
    }
    if Run(RecvBuffer, choices).signals != [] {
      SignalIsRight(RecvBuffer, choices);
    }
  }

  /** After the signal the receiver may destroy the operation: no later step touches it. */
  lemma NothingRunsAfterSignal(k: Kind, choices: seq<Choice>, c: Choice)
    requires |Run(k, choices).signals| != 0
    ensures var s := Run(k, choices);
            Step(k, s, c) == s.(stopRequested := s.stopRequested || c.RequestStop?)
  {
    RunKeepsInv(k, choices);
  }

  // How far the protocol is from its end when the environment grants every slot and lookup.
  function Distance(s: State): nat {
    (match s.main
     case Scheduled => 8
     case RetryOutstanding => 9
     case Submitting => 7
     case Populating => 6
     case Outstanding(_) => 5
     case Completed => 4
     case Destructing => 3
     case Signalling => 2
     case Finished => 0)
    + (match s.stop
       case Acquired => 8
       case Flagged => 7
       case HandedOver => 6
       case CancelPosted => 5
       case CancelRunning => 4
       case CancelDestructing => 3
       case CancelSignalling => 2
       case _ => 0)
  }

  // The next step of whichever party can move.
  function Advance(s: State): Choice {
    if s.main.Finished? || (s.main.Destructing? && (s.stop.Acquired? || s.stop.Flagged?)) then StopStep(true)
    else MainStep(true, true, UCS_OK)
  }

  lemma AdvanceGetsCloser(k: Kind, s: State)
    requires Inv(s) && |s.signals| == 0
    ensures Distance(Step(k, s, Advance(s))) < Distance(s)
  {}

  // The state some further choices lead to.
  function Continue(k: Kind, s: State, more: seq<Choice>): State
    decreases |more|
  {
    if more == [] then s else Continue(k, Step(k, s, more[0]), more[1..])
  }

  lemma {:induction false} FinishFrom(k: Kind, s: State) returns (more: seq<Choice>)
    requires Inv(s)
    ensures |more| <= Distance(s) && |Continue(k, s, more).signals| == 1
    decreases Distance(s)
  {
    more := [];
    if |s.signals| == 0 {
      AdvanceGetsCloser(k, s);
      StepKeepsInv(k, s, Advance(s));
      var rest := FinishFrom(k, Step(k, s, Advance(s)));
      more := [Advance(s)] + rest;
    }
  }

  /** No deadlock: from every reachable state, whatever happened so far, the receiver can still be
      signalled in a bounded number of steps. */
  lemma CanAlwaysFinish(k: Kind, choices: seq<Choice>) returns (more: seq<Choice>)
    ensures |more| <= 17 && |Continue(k, Run(k, choices), more).signals| == 1
  {
    RunKeepsInv(k, choices);
    more := FinishFrom(k, Run(k, choices));
  }
}
