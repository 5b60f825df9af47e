/**
 `stop()`: from which states both joins return, and when one of them hangs.

 The notify thread tests its flags and then waits.  If `running_` is cleared
 and signalled between the two, the signal is lost; only an offer that is still
 under way brings another one.
 */
module ServiceShutdown {
  import opened ServiceProtocol
  import opened ServiceSafety

  predicate Spurious(a: Action) { a.OfferSpurious? || a.NotifySpurious? }

  /** Nothing moves unless a wait ends spuriously, and stop() has not returned. */
  ghost predicate Stuck(s: State) {
    s.stop != SDone && forall a :: Enabled(s, a) ==> Spurious(a)
  }

  /** No schedule from s gets stuck. */
  ghost predicate NeverStuck(s: State) {
    forall schedule :: Valid(s, schedule) ==> !Stuck(Run(s, schedule))
  }

  /** The offer thread is inside offer() and has yet to signal. */
  predicate OfferPending(s: State) {
    s.offer == OLockNotify || s.offer == OOfferService || s.offer == OSetOffered || s.offer == ONotifyOne
  }

  /** The notify thread has chosen to wait but is not in the wait set yet. */
  predicate LosesWakeup(s: State) {
    AboutToWait(s.notify) && !OfferPending(s)
  }

  /** While stopping: whoever still waits, or is about to, has a signal coming. */
  predicate Rescued(s: State) {
    && !s.running && s.init == Returned
    && (AboutToWait(s.notify) ==> OfferPending(s))
    && (InWaitSet(s.notify) ==>
          OfferPending(s) || s.stop == SSetBlocked || s.stop == SNotifyOffer || s.stop == SNotifyNotify)
  }

  // ---- the measure ----

  function OfferWeight(pc: OfferPc): nat {
    match pc
    case ODone => 0 case OUnlock => 1 case OTestRunning => 2 case OUnlockNotify => 3
    case ONotifyOne => 4 case OSetOffered => 5 case OOfferService => 6 case OLockNotify => 7
    case OTestBlocked => 3 case OLock => 4
    case ONotStarted | OWait | OWaiting | ORelock => 0
  }

  function NotifyWeight(pc: NotifyPc): nat {
    match pc
    case NDone => 0 case NUnlock => 1 case NTestRunning => 2 case NPrepare => 3
    case NTestBlocked => 4 case NLock | NRelockBlocked => 5 case NWaitingBlocked => 6 case NWaitBlocked => 7
    case NTestRunningToSend => 3 case NTestOfferedToSend => 4
    case NTestRunningToWait => 5 case NTestOffered => 6 case NRelock => 7 case NWaiting => 8 case NWait => 9
    case NSleep => 5 case NAdvance => 6 case NSend => 7 case NUnlockPayload => 8
    case NSetData => 9 case NLockPayload => 10 case NEncode => 11
    case NNotStarted => 0
  }

  function StopWeight(pc: StopPc): nat {
    match pc
    case SDone => 0 case SJoinNotify => 1 case SJoinOffer => 2 case SClearOffered => 3
    case SStopOffer => 4 case SNotifyNotify => 5 case SNotifyOffer => 6 case SSetBlocked => 7
    case SIdle => 8
  }

  function Measure(s: State): nat {
    OfferWeight(s.offer) + NotifyWeight(s.notify) + StopWeight(s.stop)
  }

  // ---- stopping ends ----

  lemma StepWhileRescued(s: State, a: Action)
    requires Inv(s) && Rescued(s) && Enabled(s, a)
    ensures Rescued(Apply(s, a)) && Measure(Apply(s, a)) < Measure(s)
  {
    match a
    case InitStep =>
    case OfferStep => OfferWhileRescued(s);
    case NotifyStep => if Sending(s.notify) { SendWhileRescued(s); } else { WaitWhileRescued(s); }
    case StopStep => StopWhileRescued(s);
    case OfferSpurious =>
    case NotifySpurious =>
  }

  lemma StopWhileRescued(s: State)
    requires FlagInv(s) && Rescued(s) && StopEnabled(s)
    ensures Rescued(StopApply(s)) && Measure(StopApply(s)) < Measure(s)
  {
  }

  lemma OfferWhileRescued(s: State)
    requires LockInv(s) && FlagInv(s) && Rescued(s) && OfferEnabled(s)
    ensures Rescued(OfferApply(s)) && Measure(OfferApply(s)) < Measure(s)
  {
  }

  lemma WaitWhileRescued(s: State)
    requires LockInv(s) && FlagInv(s) && Rescued(s) && NotifyEnabled(s) && !Sending(s.notify)
    ensures Rescued(WaitApply(s)) && Measure(WaitApply(s)) < Measure(s)
  {
  }

  lemma PayloadWhileRescued(s: State)
    requires LockInv(s) && FlagInv(s) && Rescued(s) && NotifyEnabled(s) && AtPayload(s.notify)
    ensures Rescued(SendApply(s)) && Measure(SendApply(s)) < Measure(s)
  {
  }

  lemma SendWhileRescued(s: State)
    requires LockInv(s) && FlagInv(s) && Rescued(s) && NotifyEnabled(s) && Sending(s.notify)
    ensures Rescued(SendApply(s)) && Measure(SendApply(s)) < Measure(s)
  {
    if AtPayload(s.notify) {
      PayloadWhileRescued(s);
    } else {
      assert SendApply(s) == s.(notify := SendApply(s).notify);
    }
  }

  /** Some thread can move, without a spurious wakeup, until both joins have returned. */
  lemma NotStuckWhileRescued(s: State)
    requires Inv(s) && Rescued(s)
    ensures !Stuck(s)
  {
    if s.stop != SDone && !Enabled(s, StopStep) && !OfferEnabled(s) {
      assert s.stop == SJoinOffer || s.stop == SJoinNotify;
      assert NotifyEnabled(s);
    }
    assert !Spurious(StopStep) && !Spurious(OfferStep) && !Spurious(NotifyStep);
  }

  lemma {:induction false} RunWhileRescued(s: State, schedule: seq<Action>)
    requires Inv(s) && Rescued(s) && Valid(s, schedule)
    ensures |schedule| <= Measure(s) - Measure(Run(s, schedule))
    ensures Inv(Run(s, schedule)) && Rescued(Run(s, schedule))
    decreases |schedule|
  {
    if schedule != [] {
      var s' := Apply(s, schedule[0]);
      StepKeepsInv(s, schedule[0]);
      StepWhileRescued(s, schedule[0]);
      RunWhileRescued(s', schedule[1..]);
    }
  }

  /** A stop() from a state that does not lose the wakeup ends within 25 steps, whoever moves. */
  lemma ShutdownTerminates(s: State, schedule: seq<Action>)
    requires Reachable(s) && s.stop == SIdle && StopEnabled(s) && !LosesWakeup(s)
    requires Valid(Apply(s, StopStep), schedule)
    ensures |schedule| <= 25
    ensures var end := Run(Apply(s, StopStep), schedule);
            !Stuck(end)
            && ((forall a :: !Enabled(end, a)) ==> end.stop == SDone && end.offer == ODone && end.notify == NDone)
  {
    ReachableInv(s);
    var s1 := Apply(s, StopStep);
    StepKeepsInv(s, StopStep);
    RunWhileRescued(s1, schedule);
    var end := Run(s1, schedule);
    NotStuckWhileRescued(end);
    if forall a :: !Enabled(end, a) {
      assert !Enabled(end, OfferStep) && !Enabled(end, NotifyStep) && !Enabled(end, NotifySpurious);
      assert end.stop == SDone;
    }
  }

  // ---- and otherwise it can hang ----

  /** From a lost wakeup some schedule, without any spurious wakeup, gets stuck. */
  lemma {:induction false} LostWakeupHangs(s: State) returns (schedule: seq<Action>)
    requires Inv(s) && s.stop != SIdle && LosesWakeup(s)
    ensures Valid(s, schedule) && Stuck(Run(s, schedule))
    ensures forall a :: a in schedule ==> !Spurious(a)
    decreases OfferWeight(s.offer) + StopWeight(s.stop)
  {
    if StopEnabled(s) || OfferEnabled(s) {
      var a := LostStep(s);
      var rest := LostWakeupHangs(Apply(s, a));
      schedule := [a] + rest;
      assert schedule[1..] == rest;
    } else {
      LostWakeupEnd(s);
      schedule := [NotifyStep];
      assert Run(s, schedule) == Run(Apply(s, NotifyStep), []);
    }
  }

  /** Only the notify thread can move, and it moves into a wait that nobody will end. */
  lemma LostWakeupEnd(s: State)
    requires Inv(s) && s.stop != SIdle && LosesWakeup(s)
    requires !StopEnabled(s) && !OfferEnabled(s)
    ensures Enabled(s, NotifyStep) && Stuck(Apply(s, NotifyStep))
  {
    assert s.offer == ODone && s.stop == SJoinNotify;
  }

  lemma LostStep(s: State) returns (a: Action)
    requires Inv(s) && s.stop != SIdle && LosesWakeup(s) && (StopEnabled(s) || OfferEnabled(s))
    ensures Enabled(s, a) && !Spurious(a)
    ensures var s' := Apply(s, a);
            Inv(s') && LosesWakeup(s') && s'.stop != SIdle
            && OfferWeight(s'.offer) + StopWeight(s'.stop) < OfferWeight(s.offer) + StopWeight(s.stop)
  {
    if StopEnabled(s) {
      a := StopStep;
      StopWhileLost(s);
    } else {
      a := OfferStep;
      OfferWhileLost(s);
    }
    StepKeepsInv(s, a);
  }

  lemma OfferWhileLost(s: State)
    requires LockInv(s) && FlagInv(s) && s.stop != SIdle && LosesWakeup(s) && OfferEnabled(s)
    ensures var s' := OfferApply(s);
            LosesWakeup(s') && s'.stop != SIdle && OfferWeight(s'.offer) < OfferWeight(s.offer) && s'.stop == s.stop
  {
  }

  lemma StopWhileLost(s: State)
    requires LockInv(s) && FlagInv(s) && s.stop != SIdle && LosesWakeup(s) && StopEnabled(s)
    ensures var s' := StopApply(s);
            LosesWakeup(s') && s'.stop != SIdle && StopWeight(s'.stop) < StopWeight(s.stop) && s'.offer == s.offer
  {
  }

  /** stop() is safe to call exactly when no wait is about to begin, or an offer is under way. */
  lemma ShutdownExactly(s: State)
    requires Reachable(s) && s.stop == SIdle && StopEnabled(s)
    ensures NeverStuck(Apply(s, StopStep)) <==> !LosesWakeup(s)
  {
    var s1 := Apply(s, StopStep);
    if LosesWakeup(s) {
      ReachableInv(s);
      StepKeepsInv(s, StopStep);
      var schedule := LostWakeupHangs(s1);
      assert Valid(s1, schedule) && Stuck(Run(s1, schedule));
    } else {
      forall schedule | Valid(s1, schedule) ensures !Stuck(Run(s1, schedule)) {
        ShutdownTerminates(s, schedule);
      }
    }
  }

  /** One completed offer is enough: from then on the notify thread never waits again before a stop. */
  lemma FirstOfferMakesStopSafe(s: State)
    requires Reachable(s) && OfferReturned in s.events
    ensures !InWaitSet(s.notify) && !AboutToWait(s.notify) && !LosesWakeup(s)
  {
    ReachableInv(s);
  }

  // ---- spurious wakeups ----

  lemma OneThen(s: State, a: Action, rest: seq<Action>)
    requires Enabled(s, a) && Valid(Apply(s, a), rest)
    ensures Valid(s, [a] + rest) && Run(s, [a] + rest) == Run(Apply(s, a), rest)
  {
    assert ([a] + rest)[1..] == rest;
  }

  lemma TestsAgain(s: State, schedule: seq<Action>)
    requires s.notify == NTestOffered && s.notifyMutex == ByNotify && !s.offered && s.running
    requires schedule == [NotifyStep] + ([NotifyStep] + ([NotifyStep] + []))
    ensures Valid(s, schedule) && Run(s, schedule) == s.(notifyMutex := Free, notify := NWaiting)
  {
    var b := s.(notify := NTestRunningToWait);
    var c := b.(notify := NWait);
    var d := c.(notifyMutex := Free, notify := NWaiting);
    assert WaitApply(s) == b && WaitApply(b) == c && WaitApply(c) == d;
    OneThen(c, NotifyStep, []);
    OneThen(b, NotifyStep, [NotifyStep] + []);
    OneThen(s, NotifyStep, [NotifyStep] + ([NotifyStep] + []));
  }

  /** A wait that ends spuriously with nothing offered leads back to the very same state. */
  lemma SpuriousWakeupGoesBack(s: State) returns (schedule: seq<Action>)
    requires s.notify == NWaiting && s.notifyMutex == Free && !s.offered && s.running
    ensures schedule != [] && schedule[0] == NotifySpurious
    ensures Valid(s, schedule) && Run(s, schedule) == s
  {
    var tests := [NotifyStep] + ([NotifyStep] + ([NotifyStep] + []));
    var woken := s.(notify := NRelock);
    TestsAgain(s.(notifyMutex := ByNotify, notify := NTestOffered), tests);
    assert WaitApply(woken) == s.(notifyMutex := ByNotify, notify := NTestOffered);
    OneThen(woken, NotifyStep, tests);
    OneThen(s, NotifySpurious, [NotifyStep] + tests);
    schedule := [NotifySpurious] + ([NotifyStep] + tests);
  }

  // ---- the lost wakeup is reachable ----

  lemma {:induction false} RunConcat(s: State, schedule: seq<Action>, a: Action)
    requires Valid(s, schedule) && Enabled(Run(s, schedule), a)
    ensures Valid(s, schedule + [a]) && Run(s, schedule + [a]) == Apply(Run(s, schedule), a)
    decreases |schedule|
  {
    if schedule == [] {
      assert schedule + [a] == [a];
      assert Run(s, [a]) == Run(Apply(s, a), []);
    } else {
      assert (schedule + [a])[1..] == schedule[1..] + [a];
      RunConcat(Apply(s, schedule[0]), schedule[1..], a);
    }
  }

  lemma ReachableStep(s: State, a: Action)
    requires Reachable(s) && Enabled(s, a)
    ensures Reachable(Apply(s, a))
  {
    var s0, schedule :| Initial(s0) && Valid(s0, schedule) && Run(s0, schedule) == s;
    RunConcat(s0, schedule, a);
  }

  /** Nobody but the initialising thread has moved. */
  ghost predicate Initialising(s: State) {
    var i := InitRank(s.init);
    && s.stop == SIdle && s.notifyMutex == Free
    && (s.mutex == Free <==> i == 0 || i == 12)
    && (i < 7 ==> s.payloadMutex == Free)
    && s.offer == (if i < 5 then ONotStarted else OLock)
    && s.notify == (if i < 6 then NNotStarted else NLock)
    && (i >= 2 ==> s.running)
    && (i >= 4 ==> !s.offered)
    && (i >= 10 ==> s.blocked)
  }

  lemma InitialisingStep(s: State)
    requires Initialising(s) && s.init != Returned
    ensures InitEnabled(s) && Initialising(InitApply(s)) && InitRank(InitApply(s).init) == InitRank(s.init) + 1
  {
  }

  lemma ReachInitialised() returns (s: State)
    ensures Reachable(s) && Initialising(s) && s.init == Returned
  {
    s := State(false, false, false, false, Free, Free, Free, LockMutex, ONotStarted, NNotStarted, SIdle, []);
    assert Valid(s, []) && Run(s, []) == s;
    while s.init != Returned
      invariant Reachable(s) && Initialising(s)
      decreases 12 - InitRank(s.init)
    {
      InitialisingStep(s);
      ReachableStep(s, InitStep);
      s := Apply(s, InitStep);
    }
  }

  /** How far the notify thread is from its wait when it finds no service offered. */
  function Tests(pc: NotifyPc): nat {
    match pc
    case NLock => 6 case NTestBlocked => 5 case NPrepare => 4 case NTestRunning => 3
    case NTestOffered => 2 case NTestRunningToWait => 1 case _ => 0
  }

  /** Initialised, nothing offered, and the notify thread on its way to the wait. */
  ghost predicate OnItsWay(s: State) {
    && s.stop == SIdle && s.init == Returned && s.offer == OLock
    && s.running && s.blocked && !s.offered
    && (s.notify == NLock ==> s.notifyMutex == Free)
    && (s.notify == NWait || Tests(s.notify) > 0)
  }

  lemma OneTestMore(s: State)
    requires OnItsWay(s) && s.notify != NWait
    ensures Enabled(s, NotifyStep)
    ensures var s' := Apply(s, NotifyStep); OnItsWay(s') && Tests(s'.notify) < Tests(s.notify)
  {
  }

  /** Initialisation runs through, the notify thread reads its flags, the offer thread has not moved. */
  lemma LostWakeupReachable() returns (s: State)
    ensures Reachable(s) && s.stop == SIdle && StopEnabled(s) && LosesWakeup(s)
  {
    s := ReachInitialised();
    while s.notify != NWait
      invariant Reachable(s) && OnItsWay(s)
      decreases Tests(s.notify)
    {
      OneTestMore(s);
      ReachableStep(s, NotifyStep);
      s := Apply(s, NotifyStep);
    }
  }
}
