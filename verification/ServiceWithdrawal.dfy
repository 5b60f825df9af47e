/**
 Whether the service is still withdrawn when `stop()` returns.  The offer
 thread may already have found `running_` true, and offers once more.
 */
module ServiceWithdrawal {
  import opened ServiceProtocol
  import opened ServiceSafety
  import opened ServiceShutdown

  /** Nothing is offered after the withdrawal. */
  ghost predicate Withdrawn(t: seq<Event>) {
    forall i, j :: 0 <= i < j < |t| && t[i] == StopOfferService ==> t[j] != OfferService
  }

  predicate IsLate(t: seq<Event>, i: int, j: int) {
    0 <= i < j < |t| && t[i] == StopOfferService && t[j] == OfferService
  }

  function LateOffers(t: seq<Event>): nat { CountAfter(t, StopOfferService, OfferService) }

  lemma LateCounts(t: seq<Event>, i: int, j: int)
    requires IsLate(t, i, j)
    ensures LateOffers(t) > 0
  {
    CountAfterAt(t, StopOfferService, OfferService, i, j);
    CountAfterMonotone(t, StopOfferService, OfferService, j + 1);
  }

  lemma {:induction false} LateExists(t: seq<Event>) returns (i: int, j: int)
    requires LateOffers(t) > 0
    ensures IsLate(t, i, j)
  {
    var front, last := t[..|t| - 1], |t| - 1;
    if LateOffers(front) > 0 {
      i, j := LateExists(front);
    } else {
      i :| 0 <= i < |front| && front[i] == StopOfferService;
      j := last;
    }
  }

  lemma NoLateOffers(t: seq<Event>)
    ensures LateOffers(t) == 0 <==> Withdrawn(t)
  {
    if LateOffers(t) > 0 {
      var i, j := LateExists(t);
    } else {
      forall i, j | 0 <= i < j < |t| && t[i] == StopOfferService ensures t[j] != OfferService {
        if t[j] == OfferService { LateCounts(t, i, j); }
      }
    }
  }

  /** Past its last test of running_, and about to offer. */
  predicate WillOffer(pc: OfferPc) { pc == OLockNotify || pc == OOfferService }

  predicate AfterWithdrawal(pc: StopPc) { pc == SClearOffered || pc == SJoinOffer || pc == SJoinNotify || pc == SDone }

  function One(b: bool): nat { if b then 1 else 0 }

  /** The offers after the withdrawal, made and to come: one if `late`, else none. */
  ghost predicate Pledge(s: State, late: bool) {
    && !s.running && s.init == Returned && AfterWithdrawal(s.stop) && StopOfferService in s.events
    && LateOffers(s.events) + One(WillOffer(s.offer)) == One(late)
  }

  lemma AppendCounts(t: seq<Event>, e: Event)
    ensures LateOffers(t + [e]) == LateOffers(t) + One(e == OfferService && StopOfferService in t)
  {
    AppendToTrace(t, e, StopOfferService, OfferService);
  }

  lemma OfferKeepsPledge(s: State, late: bool)
    requires Pledge(s, late) && OfferEnabled(s)
    ensures Pledge(OfferApply(s), late)
  {
    if s.offer == OOfferService {
      AppendCounts(s.events, OfferService);
    } else if s.offer == OUnlockNotify {
      AppendCounts(s.events, OfferReturned);
    } else {
      assert OfferApply(s).events == s.events;
    }
  }

  lemma WaitKeepsPledge(s: State, late: bool)
    requires Pledge(s, late) && NotifyEnabled(s) && !Sending(s.notify)
    ensures Pledge(WaitApply(s), late)
  {
    assert WaitApply(s).events == s.events;
  }

  lemma SendKeepsPledge(s: State, late: bool)
    requires Pledge(s, late) && NotifyEnabled(s) && Sending(s.notify)
    ensures Pledge(SendApply(s), late)
  {
    if s.notify == NSetData {
      AppendCounts(s.events, SetData);
    } else if s.notify == NSend {
      AppendCounts(s.events, Notification);
    } else {
      assert SendApply(s).events == s.events;
    }
  }

  lemma StepKeepsPledge(s: State, a: Action, late: bool)
    requires Pledge(s, late) && Enabled(s, a)
    ensures Pledge(Apply(s, a), late)
  {
    match a
    case InitStep =>
    case OfferStep => OfferKeepsPledge(s, late);
    case NotifyStep => if Sending(s.notify) { SendKeepsPledge(s, late); } else { WaitKeepsPledge(s, late); }
    case StopStep =>
    case OfferSpurious =>
    case NotifySpurious =>
  }

  lemma {:induction false} RunKeepsPledge(s: State, schedule: seq<Action>, late: bool)
    requires Pledge(s, late) && Valid(s, schedule)
    ensures Pledge(Run(s, schedule), late)
    decreases |schedule|
  {
    if schedule != [] {
      StepKeepsPledge(s, schedule[0], late);
      RunKeepsPledge(Apply(s, schedule[0]), schedule[1..], late);
    }
  }

  // ---- the service is withdrawn once ----

  ghost predicate NotYet(s: State) { StopOfferService in s.events ==> AfterWithdrawal(s.stop) }

  lemma InitKeepsNotYet(s: State)
    requires NotYet(s) && InitEnabled(s)
    ensures NotYet(InitApply(s))
  {
  }

  lemma OfferKeepsNotYet(s: State)
    requires NotYet(s) && OfferEnabled(s)
    ensures NotYet(OfferApply(s))
  {
  }

  lemma NotifyKeepsNotYet(s: State)
    requires NotYet(s) && NotifyEnabled(s)
    ensures NotYet(NotifyApply(s))
  {
    if Sending(s.notify) {
      assert s.notify != NSetData && s.notify != NSend ==> SendApply(s).events == s.events;
    } else {
      assert WaitApply(s).events == s.events;
    }
  }

  lemma StopKeepsNotYet(s: State)
    requires NotYet(s) && StopEnabled(s)
    ensures NotYet(StopApply(s))
  {
  }

  lemma StepKeepsNotYet(s: State, a: Action)
    requires NotYet(s) && Enabled(s, a)
    ensures NotYet(Apply(s, a))
  {
    match a
    case InitStep => InitKeepsNotYet(s);
    case OfferStep => OfferKeepsNotYet(s);
    case NotifyStep => NotifyKeepsNotYet(s);
    case StopStep => StopKeepsNotYet(s);
    case OfferSpurious =>
    case NotifySpurious =>
  }

  lemma {:induction false} RunKeepsNotYet(s: State, schedule: seq<Action>)
    requires NotYet(s) && Valid(s, schedule)
    ensures NotYet(Run(s, schedule))
    decreases |schedule|
  {
    if schedule != [] {
      StepKeepsNotYet(s, schedule[0]);
      RunKeepsNotYet(Apply(s, schedule[0]), schedule[1..]);
    }
  }

  lemma ReachableNotYet(s: State)
    requires Reachable(s)
    ensures NotYet(s)
  {
    var s0, schedule :| Initial(s0) && Valid(s0, schedule) && Run(s0, schedule) == s;
    RunKeepsNotYet(s0, schedule);
  }

  lemma ReachableFlags(s: State)
    requires Reachable(s)
    ensures FlagInv(s)
  {
    ReachableInv(s);
  }

  lemma PledgeAtWithdrawal(s: State)
    requires Reachable(s) && s.stop == SStopOffer
    ensures Pledge(StopApply(s), WillOffer(s.offer))
  {
    ReachableFlags(s);
    ReachableNotYet(s);
    FreshPledge(s);
  }

  lemma {:induction false} NoneYet(t: seq<Event>)
    requires StopOfferService !in t
    ensures LateOffers(t) == 0
  {
    if t != [] {
      NoneYet(t[..|t| - 1]);
    }
  }

  lemma FreshPledge(s: State)
    requires FlagInv(s) && NotYet(s) && s.stop == SStopOffer
    ensures Pledge(StopApply(s), WillOffer(s.offer))
  {
    NoneYet(s.events);
    AppendCounts(s.events, StopOfferService);
    assert StopApply(s).events == s.events + [StopOfferService];
  }

  /** A stop that has returned leaves the service withdrawn exactly if no offer was about to be made meanwhile. */
  lemma WithdrawnExactly(s: State, schedule: seq<Action>)
    requires Reachable(s) && s.stop == SStopOffer && Valid(Apply(s, StopStep), schedule)
    requires Run(Apply(s, StopStep), schedule).stop == SDone
    ensures Withdrawn(Run(Apply(s, StopStep), schedule).events) <==> !WillOffer(s.offer)
  {
    ReachableInv(s);
    StepKeepsInv(s, StopStep);
    ServiceSafety.RunKeepsInv(Apply(s, StopStep), schedule);
    PledgeAtWithdrawal(s);
    RunKeepsPledge(Apply(s, StopStep), schedule, WillOffer(s.offer));
    NoLateOffers(Run(Apply(s, StopStep), schedule).events);
  }

  // ---- seen from the call of stop() ----

  /** Every run from s in which stop() returns leaves the service withdrawn. */
  ghost predicate AlwaysWithdrawn(s: State) {
    forall schedule :: Valid(s, schedule) && Run(s, schedule).stop == SDone ==> Withdrawn(Run(s, schedule).events)
  }

  /** Stopping has begun, and no offer is to come; none has been made after a withdrawal. */
  ghost predicate NoMoreOffers(s: State) {
    && !s.running && s.init == Returned && !WillOffer(s.offer)
    && LateOffers(s.events) == 0
  }

  lemma AppendOther(t: seq<Event>, e: Event)
    requires e != OfferService
    ensures LateOffers(t + [e]) == LateOffers(t)
  {
    AppendCounts(t, e);
  }

  lemma OfferKeepsNoMore(s: State)
    requires NoMoreOffers(s) && OfferEnabled(s)
    ensures NoMoreOffers(OfferApply(s))
  {
    if s.offer == OUnlockNotify {
      AppendOther(s.events, OfferReturned);
    } else {
      assert OfferApply(s).events == s.events;
    }
  }

  lemma NotifyKeepsNoMore(s: State)
    requires NoMoreOffers(s) && NotifyEnabled(s)
    ensures NoMoreOffers(NotifyApply(s))
  {
    if Sending(s.notify) {
      if s.notify == NSetData { AppendOther(s.events, SetData); }
      if s.notify == NSend { AppendOther(s.events, Notification); }
    } else {
      assert WaitApply(s).events == s.events;
    }
  }

  lemma StopKeepsNoMore(s: State)
    requires NoMoreOffers(s) && StopEnabled(s)
    ensures NoMoreOffers(StopApply(s))
  {
    if s.stop == SIdle { AppendOther(s.events, RunningCleared); }
    if s.stop == SStopOffer { AppendOther(s.events, StopOfferService); }
  }

  lemma StepKeepsNoMore(s: State, a: Action)
    requires NoMoreOffers(s) && Enabled(s, a)
    ensures NoMoreOffers(Apply(s, a))
  {
    match a
    case InitStep =>
    case OfferStep => OfferKeepsNoMore(s);
    case NotifyStep => NotifyKeepsNoMore(s);
    case StopStep => StopKeepsNoMore(s);
    case OfferSpurious =>
    case NotifySpurious =>
  }

  lemma {:induction false} RunKeepsNoMore(s: State, schedule: seq<Action>)
    requires NoMoreOffers(s) && Valid(s, schedule)
    ensures NoMoreOffers(Run(s, schedule))
    decreases |schedule|
  {
    if schedule != [] {
      StepKeepsNoMore(s, schedule[0]);
      RunKeepsNoMore(Apply(s, schedule[0]), schedule[1..]);
    }
  }

  // ---- an offer that is delayed until after the withdrawal ----

  lemma OneMoveMore(s: State, late: bool) returns (a: Action)
    requires Inv(s) && Rescued(s) && Pledge(s, late) && s.stop != SDone
    ensures Enabled(s, a)
    ensures var s' := Apply(s, a); Inv(s') && Rescued(s') && Pledge(s', late) && Measure(s') < Measure(s)
  {
    NotStuckWhileRescued(s);
    a :| Enabled(s, a) && !Spurious(a);
    StepKeepsInv(s, a);
    StepWhileRescued(s, a);
    StepKeepsPledge(s, a, late);
  }

  /** With a late offer pledged, stop() returns with it made. */
  lemma {:induction false} RunsOut(s: State) returns (schedule: seq<Action>)
    requires Inv(s) && Rescued(s) && Pledge(s, true)
    ensures Valid(s, schedule)
    ensures Run(s, schedule).stop == SDone && !Withdrawn(Run(s, schedule).events)
    decreases Measure(s)
  {
    if s.stop == SDone {
      schedule := [];
      NoLateOffers(s.events);
    } else {
      var a := OneMoveMore(s, true);
      var rest := RunsOut(Apply(s, a));
      schedule := [a] + rest;
      assert schedule[1..] == rest;
    }
  }

  /** The offer thread is about to offer and waits while stop() goes on to the withdrawal. */
  ghost predicate Delayed(s: State) {
    && Inv(s) && NotYet(s) && Rescued(s) && WillOffer(s.offer)
    && s.stop in {SSetBlocked, SNotifyOffer, SNotifyNotify, SStopOffer}
  }

  lemma DelayedStep(s: State)
    requires Delayed(s) && s.stop != SStopOffer
    ensures Enabled(s, StopStep)
    ensures Delayed(Apply(s, StopStep)) && StopWeight(Apply(s, StopStep).stop) < StopWeight(s.stop)
  {
    StepKeepsInv(s, StopStep);
    StopKeepsNotYet(s);
    StopWhileRescued(s);
  }

  lemma {:induction false} LateRun(s: State) returns (schedule: seq<Action>)
    requires Delayed(s)
    ensures Valid(s, schedule)
    ensures Run(s, schedule).stop == SDone && !Withdrawn(Run(s, schedule).events)
    decreases StopWeight(s.stop)
  {
    var rest: seq<Action>;
    if s.stop == SStopOffer {
      StepKeepsInv(s, StopStep);
      StopWhileRescued(s);
      FreshPledge(s);
      rest := RunsOut(StopApply(s));
    } else {
      DelayedStep(s);
      rest := LateRun(Apply(s, StopStep));
    }
    schedule := [StopStep] + rest;
    assert schedule[1..] == rest;
  }

  lemma StopNowDelayed(s: State)
    requires Reachable(s) && s.stop == SIdle && StopEnabled(s) && WillOffer(s.offer)
    ensures Delayed(Apply(s, StopStep))
  {
    ReachableInv(s);
    ReachableNotYet(s);
    StepKeepsInv(s, StopStep);
    StopKeepsNotYet(s);
  }

  lemma StopNowQuiet(s: State)
    requires Reachable(s) && s.stop == SIdle && StopEnabled(s) && !WillOffer(s.offer)
    ensures NoMoreOffers(Apply(s, StopStep))
  {
    ReachableInv(s);
    ReachableNotYet(s);
    NoneYet(s.events);
    AppendOther(s.events, RunningCleared);
  }

  /** Calling stop() is sure to leave the service withdrawn exactly if the offer thread is not about to offer. */
  lemma StopWithdrawsExactly(s: State)
    requires Reachable(s) && s.stop == SIdle && StopEnabled(s)
    ensures AlwaysWithdrawn(Apply(s, StopStep)) <==> !WillOffer(s.offer)
  {
    var s1 := Apply(s, StopStep);
    if WillOffer(s.offer) {
      StopNowDelayed(s);
      var schedule := LateRun(s1);
      assert Valid(s1, schedule) && !Withdrawn(Run(s1, schedule).events);
    } else {
      StopNowQuiet(s);
      forall schedule | Valid(s1, schedule) && Run(s1, schedule).stop == SDone
        ensures Withdrawn(Run(s1, schedule).events)
      {
        RunKeepsNoMore(s1, schedule);
        NoLateOffers(Run(s1, schedule).events);
      }
    }
  }

  // ---- it can be offered again ----

  lemma OfferThreadFirst() returns (s: State)
    ensures Reachable(s) && s.stop == SIdle && StopEnabled(s) && WillOffer(s.offer)
  {
    s := ReachInitialised();
    while s.offer != OLockNotify
      invariant Reachable(s) && s.init == Returned && s.stop == SIdle && s.running && s.blocked
      invariant s.offer == OLock ==> s.mutex == Free
      invariant s.offer in {OLock, OTestBlocked, OTestRunning, OLockNotify}
      decreases if s.offer == OLock then 3 else if s.offer == OTestBlocked then 2
                else if s.offer == OTestRunning then 1 else 0
    {
      ReachableStep(s, OfferStep);
      s := Apply(s, OfferStep);
    }
  }

  lemma {:induction false} ReachableRun(s: State, schedule: seq<Action>)
    requires Reachable(s) && Valid(s, schedule)
    ensures Reachable(Run(s, schedule))
    decreases |schedule|
  {
    if schedule != [] {
      ReachableStep(s, schedule[0]);
      ReachableRun(Apply(s, schedule[0]), schedule[1..]);
    }
  }

  /** A run in which stop() has returned and the service has been offered after its withdrawal. */
  lemma OfferedAgainReachable() returns (s: State)
    ensures Reachable(s) && s.stop == SDone && !Withdrawn(s.events)
  {
    var called := OfferThreadFirst();
    StopNowDelayed(called);
    ReachableStep(called, StopStep);
    var schedule := LateRun(Apply(called, StopStep));
    ReachableRun(Apply(called, StopStep), schedule);
    s := Run(Apply(called, StopStep), schedule);
  }

  // ---- what is left of is_offered_ ----

  /** Past its last test of running_, and about to set is_offered_. */
  predicate WillSet(pc: OfferPc) { WillOffer(pc) || pc == OSetOffered }

  predicate AfterClearing(pc: StopPc) { pc == SJoinOffer || pc == SJoinNotify || pc == SDone }

  ghost predicate FlagPledge(s: State, late: bool) {
    && !s.running && s.init == Returned && AfterClearing(s.stop)
    && (s.offered || WillSet(s.offer) <==> late)
  }

  lemma OfferKeepsFlag(s: State, late: bool)
    requires FlagPledge(s, late) && OfferEnabled(s)
    ensures FlagPledge(OfferApply(s), late)
  {
  }

  lemma NotifyKeepsFlag(s: State, late: bool)
    requires FlagPledge(s, late) && NotifyEnabled(s)
    ensures FlagPledge(NotifyApply(s), late)
  {
    var s' := NotifyApply(s);
    if Sending(s.notify) {
      assert s' == s.(notify := s'.notify, payloadMutex := s'.payloadMutex, events := s'.events);
    } else {
      assert s' == s.(notify := s'.notify, notifyMutex := s'.notifyMutex);
    }
  }

  lemma StepKeepsFlag(s: State, a: Action, late: bool)
    requires FlagPledge(s, late) && Enabled(s, a)
    ensures FlagPledge(Apply(s, a), late)
  {
    match a
    case InitStep =>
    case OfferStep => OfferKeepsFlag(s, late);
    case NotifyStep => NotifyKeepsFlag(s, late);
    case StopStep => assert StopApply(s) == s.(stop := StopApply(s).stop);
    case OfferSpurious =>
    case NotifySpurious =>
  }

  lemma {:induction false} RunKeepsFlag(s: State, schedule: seq<Action>, late: bool)
    requires FlagPledge(s, late) && Valid(s, schedule)
    ensures FlagPledge(Run(s, schedule), late)
    decreases |schedule|
  {
    if schedule != [] {
      StepKeepsFlag(s, schedule[0], late);
      RunKeepsFlag(Apply(s, schedule[0]), schedule[1..], late);
    }
  }

  /** Stop leaves is_offered_ false exactly if the offer thread was not about to set it when it was cleared. */
  lemma ClearedExactly(s: State, schedule: seq<Action>)
    requires Reachable(s) && s.stop == SClearOffered && Valid(Apply(s, StopStep), schedule)
    requires Run(Apply(s, StopStep), schedule).stop == SDone
    ensures !Run(Apply(s, StopStep), schedule).offered <==> !WillSet(s.offer)
  {
    ReachableInv(s);
    StepKeepsInv(s, StopStep);
    ServiceSafety.RunKeepsInv(Apply(s, StopStep), schedule);
    RunKeepsFlag(Apply(s, StopStep), schedule, WillSet(s.offer));
  }
}
