/**
 What every reachable state of the service threads satisfies, and what that
 says about the order of the middleware calls in every run.
 */
module ServiceSafety {
  import opened ServiceProtocol

  /** Every b in t has an a before it. */
  predicate Precedes(t: seq<Event>, a: Event, b: Event) {
    t == [] ||
    var front, last := t[..|t| - 1], t[|t| - 1];
    Precedes(front, a, b) && (last == b ==> a in front)
  }

  /** How many b have an a before them. */
  function CountAfter(t: seq<Event>, a: Event, b: Event): nat {
    if t == [] then 0
    else
      var front, last := t[..|t| - 1], t[|t| - 1];
      CountAfter(front, a, b) + if last == b && a in front then 1 else 0
  }

  /** No b stands between two a. */
  predicate NoneBetween(t: seq<Event>, a: Event, b: Event) {
    t == [] ||
    var front, last := t[..|t| - 1], t[|t| - 1];
    NoneBetween(front, a, b) && (last == a ==> CountAfter(front, a, b) == 0)
  }

  // ---- program-counter classes ----

  function InitRank(pc: InitPc): nat {
    match pc
    case LockMutex => 0 case SetRunning => 1 case ClearBlocked => 2 case ClearOffered => 3
    case SpawnOffer => 4 case SpawnNotify => 5 case LockPayload => 6 case CreatePayload => 7
    case UnlockPayload => 8 case SetBlocked => 9 case NotifyCondition => 10
    case UnlockMutex => 11 case Returned => 12
  }

  predicate OfferHoldsNotifyMutex(pc: OfferPc) {
    pc.OOfferService? || pc.OSetOffered? || pc.ONotifyOne? || pc.OUnlockNotify?
  }

  predicate OfferHoldsMutex(pc: OfferPc) {
    || pc.OTestBlocked? || pc.OWait? || pc.OTestRunning? || pc.OLockNotify? || pc.OUnlock?
    || OfferHoldsNotifyMutex(pc)
  }

  predicate AboutToWait(pc: NotifyPc) { pc.NWaitBlocked? || pc.NWait? }

  predicate InWaitSet(pc: NotifyPc) { pc.NWaitingBlocked? || pc.NWaiting? }

  /** Between the start of a transmission and the call of app_->notify. */
  predicate Transmitting(pc: NotifyPc) {
    pc.NEncode? || pc.NLockPayload? || pc.NSetData? || pc.NUnlockPayload? || pc.NSend?
  }

  predicate NotifyOutside(pc: NotifyPc) {
    || pc.NNotStarted? || pc.NLock? || pc.NRelockBlocked? || pc.NRelock? || InWaitSet(pc) || pc.NDone?
  }

  predicate Locking(pc: NotifyPc) { pc.NLock? || pc.NRelockBlocked? || pc.NRelock? }

  predicate Unlocking(pc: NotifyPc) { pc.NWaitBlocked? || pc.NWait? || pc.NUnlock? }

  /** The part of a transmission that concerns the payload. */
  predicate AtPayload(pc: NotifyPc) { pc.NLockPayload? || pc.NSetData? || pc.NUnlockPayload? || pc.NSend? }

  /** The test of blocked_ has not been passed yet. */
  predicate BeforeUnblocked(pc: NotifyPc) {
    || pc.NNotStarted? || pc.NLock? || pc.NTestBlocked? || pc.NWaitBlocked?
    || pc.NWaitingBlocked? || pc.NRelockBlocked?
  }

  // ---- the invariant ----

  ghost predicate LockInv(s: State) {
    && s.mutex != ByNotify
    && (s.mutex == ByInit <==> 0 < InitRank(s.init) < 12)
    && (s.mutex == ByOffer <==> OfferHoldsMutex(s.offer))
    && s.notifyMutex != ByInit
    && (s.notifyMutex == ByOffer <==> OfferHoldsNotifyMutex(s.offer))
    && (s.notifyMutex == ByNotify <==> !NotifyOutside(s.notify))
    && s.payloadMutex != ByOffer
    && (s.payloadMutex == ByInit <==> s.init.CreatePayload? || s.init.UnlockPayload?)
    && (s.payloadMutex == ByNotify <==> s.notify.NSetData? || s.notify.NUnlockPayload?)
  }

  ghost predicate FlagInv(s: State) {
    var i := InitRank(s.init);
    && (s.offer == ONotStarted <==> i < 5)
    && (s.notify == NNotStarted <==> i < 6)
    && (s.offer != ONotStarted && s.offer != OLock ==> i == 12)
    && !s.offer.OWait? && !s.offer.OWaiting? && !s.offer.ORelock?
    && (s.stop != SIdle ==> i == 12)
    && (i >= 2 ==> (s.running <==> s.stop == SIdle))
    && (3 <= i <= 9 ==> !s.blocked)
    && (i >= 10 ==> s.blocked)
    && (s.payload <==> i >= 8)
    && (!BeforeUnblocked(s.notify) ==> i >= 10)
    && (s.stop == SJoinNotify || s.stop == SDone ==> s.offer == ODone)
    && (s.stop == SDone ==> s.notify == NDone)
  }

  /** Whether an offer has got as far as its notify_one. */
  predicate OfferAnnounced(s: State) {
    OfferReturned in s.events || s.offer == OUnlockNotify
  }

  ghost predicate WaitInv(s: State) {
    && (OfferAnnounced(s) || s.offer == ONotifyOne ==> s.offered || !s.running)
    && (InWaitSet(s.notify) ==> !OfferAnnounced(s))
    && (AboutToWait(s.notify) ==> OfferReturned !in s.events)
    && (s.notify == NTestRunningToWait && OfferReturned in s.events ==> !s.running)
    && (InitRank(s.init) >= 4 && s.offered ==> OfferService in s.events)
    && (OfferService in s.events ==> s.init == Returned)
    && (s.offer == OSetOffered || s.offer == ONotifyOne || OfferAnnounced(s) ==> OfferService in s.events)
    && (OfferService in s.events ==> OfferReturned in s.events || OfferHoldsNotifyMutex(s.offer))
  }

  ghost predicate SendInv(s: State) {
    && (NotifyOutside(s.notify) && s.notify != NDone ==> Notification !in s.events)
    && (BeforeUnblocked(s.notify) || s.notify == NPrepare || AboutToWait(s.notify) ==> Notification !in s.events)
    && (s.notify == NTestRunning && Notification in s.events ==> !s.running)
    && ((s.notify == NTestOffered || s.notify == NTestRunningToWait) && Notification in s.events ==> !s.running)
    && (s.notify == NTestRunningToSend || Transmitting(s.notify) ==> OfferService in s.events)
    && (Notification in s.events ==> OfferReturned in s.events)
    && (s.notify == NDone || s.notify == NUnlock ==> !s.running)
  }

  /** The order of middleware calls that every run keeps. */
  predicate Ordered(t: seq<Event>) {
    && Precedes(t, PayloadCreated, SetData)
    && Precedes(t, PayloadCreated, Notification)
    && Precedes(t, InitReturned, OfferService)
    && Precedes(t, OfferService, Notification)
    && NoneBetween(t, Notification, OfferService)
  }

  ghost predicate TraceInv(s: State) {
    var t := s.events;
    && Ordered(t)
    && (PayloadCreated in t <==> s.payload)
    && (InitReturned in t <==> s.init == Returned)
    && (RunningCleared in t <==> s.stop != SIdle)
    && (s.notify != NDone ==> CountAfter(t, Notification, OfferService) == 0)
    && CountAfter(t, RunningCleared, Notification)
       <= (if s.stop == SIdle || Transmitting(s.notify) then 0 else 1)
    && CountAfter(t, RunningCleared, OfferService)
       <= (if s.stop == SIdle || s.offer == OLockNotify || s.offer == OOfferService then 0 else 1)
  }

  ghost predicate Inv(s: State) {
    LockInv(s) && FlagInv(s) && WaitInv(s) && SendInv(s) && TraceInv(s)
  }

  /** One event more: what the trace part of the invariant then still needs. */
  lemma AppendToTrace(t: seq<Event>, e: Event, a: Event, b: Event)
    ensures Precedes(t + [e], a, b) <==> Precedes(t, a, b) && (e == b ==> a in t)
    ensures NoneBetween(t + [e], a, b) <==> NoneBetween(t, a, b) && (e == a ==> CountAfter(t, a, b) == 0)
    ensures CountAfter(t + [e], a, b) == CountAfter(t, a, b) + if e == b && a in t then 1 else 0
  {
    assert (t + [e])[..|t|] == t;
  }

  /** Whether the order allows e as the next event. */
  predicate Justified(t: seq<Event>, e: Event) {
    && (e == SetData ==> PayloadCreated in t)
    && (e == Notification ==>
          PayloadCreated in t && OfferService in t && CountAfter(t, Notification, OfferService) == 0)
    && (e == OfferService ==> InitReturned in t)
  }

  lemma AppendKeepsOrder(t: seq<Event>, e: Event)
    requires Ordered(t) && Justified(t, e)
    ensures Ordered(t + [e])
    ensures CountAfter(t + [e], Notification, OfferService)
            == CountAfter(t, Notification, OfferService) + if e == OfferService && Notification in t then 1 else 0
    ensures CountAfter(t + [e], RunningCleared, Notification)
            == CountAfter(t, RunningCleared, Notification) + if e == Notification && RunningCleared in t then 1 else 0
    ensures CountAfter(t + [e], RunningCleared, OfferService)
            == CountAfter(t, RunningCleared, OfferService) + if e == OfferService && RunningCleared in t then 1 else 0
  {
    AppendToTrace(t, e, PayloadCreated, SetData);
    AppendToTrace(t, e, PayloadCreated, Notification);
    AppendToTrace(t, e, InitReturned, OfferService);
    AppendToTrace(t, e, OfferService, Notification);
    AppendToTrace(t, e, Notification, OfferService);
    AppendToTrace(t, e, RunningCleared, Notification);
    AppendToTrace(t, e, RunningCleared, OfferService);
  }

  // ---- the invariant holds in every reachable state ----

  lemma InitialInv(s: State)
    requires Initial(s)
    ensures Inv(s)
  {
  }

  lemma InitKeepsLocks(s: State, s': State)
    requires LockInv(s) && FlagInv(s) && InitEnabled(s) && s' == InitApply(s)
    ensures LockInv(s')
  {
  }

  lemma InitKeepsFlags(s: State, s': State)
    requires LockInv(s) && FlagInv(s) && InitEnabled(s) && s' == InitApply(s)
    ensures FlagInv(s')
  {
  }

  lemma InitKeepsWait(s: State, s': State)
    requires LockInv(s) && FlagInv(s) && WaitInv(s) && InitEnabled(s) && s' == InitApply(s)
    ensures WaitInv(s')
  {
  }

  lemma InitKeepsSend(s: State, s': State)
    requires LockInv(s) && FlagInv(s) && WaitInv(s) && SendInv(s) && InitEnabled(s) && s' == InitApply(s)
    ensures SendInv(s')
  {
  }

  lemma InitKeepsTrace(s: State, s': State)
    requires FlagInv(s) && TraceInv(s) && InitEnabled(s) && s' == InitApply(s)
    ensures TraceInv(s')
  {
    if s.init == CreatePayload { AppendKeepsOrder(s.events, PayloadCreated); }
    if s.init == UnlockMutex { AppendKeepsOrder(s.events, InitReturned); }
  }

  lemma InitKeepsInv(s: State)
    requires Inv(s) && InitEnabled(s)
    ensures Inv(InitApply(s))
  {
    InitKeepsLocks(s, InitApply(s));
    InitKeepsFlags(s, InitApply(s));
    InitKeepsWait(s, InitApply(s));
    InitKeepsSend(s, InitApply(s));
    InitKeepsTrace(s, InitApply(s));
  }

  lemma OfferKeepsLocks(s: State, s': State)
    requires LockInv(s) && FlagInv(s) && OfferEnabled(s) && s' == OfferApply(s)
    ensures LockInv(s')
  {
  }

  lemma OfferKeepsFlags(s: State, s': State)
    requires LockInv(s) && FlagInv(s) && OfferEnabled(s) && s' == OfferApply(s)
    ensures FlagInv(s')
  {
  }

  lemma OfferKeepsWait(s: State, s': State)
    requires LockInv(s) && FlagInv(s) && WaitInv(s) && OfferEnabled(s) && s' == OfferApply(s)
    ensures WaitInv(s')
  {
  }

  lemma OfferKeepsSend(s: State, s': State)
    requires LockInv(s) && FlagInv(s) && WaitInv(s) && SendInv(s) && OfferEnabled(s) && s' == OfferApply(s)
    ensures SendInv(s')
  {
  }

  lemma OfferedKeepsTrace(s: State, s': State)
    requires LockInv(s) && FlagInv(s) && SendInv(s) && TraceInv(s) && OfferEnabled(s) && s' == OfferApply(s)
    requires s.offer == OOfferService
    ensures TraceInv(s')
  {
    AppendKeepsOrder(s.events, OfferService);
  }

  lemma ReturnedKeepsTrace(s: State, s': State)
    requires LockInv(s) && FlagInv(s) && SendInv(s) && TraceInv(s) && OfferEnabled(s) && s' == OfferApply(s)
    requires s.offer == OUnlockNotify
    ensures TraceInv(s')
  {
    AppendKeepsOrder(s.events, OfferReturned);
  }

  lemma SilentOfferKeepsTrace(s: State, s': State)
    requires LockInv(s) && FlagInv(s) && SendInv(s) && TraceInv(s) && OfferEnabled(s) && s' == OfferApply(s)
    requires s.offer != OOfferService && s.offer != OUnlockNotify
    ensures TraceInv(s')
  {
    assert s'.events == s.events;
  }

  lemma OfferKeepsTrace(s: State, s': State)
    requires LockInv(s) && FlagInv(s) && SendInv(s) && TraceInv(s) && OfferEnabled(s) && s' == OfferApply(s)
    ensures TraceInv(s')
  {
    if s.offer == OOfferService {
      OfferedKeepsTrace(s, s');
    } else if s.offer == OUnlockNotify {
      ReturnedKeepsTrace(s, s');
    } else {
      SilentOfferKeepsTrace(s, s');
    }
  }

  lemma OfferKeepsInv(s: State)
    requires Inv(s) && OfferEnabled(s)
    ensures Inv(OfferApply(s))
  {
    OfferKeepsLocks(s, OfferApply(s));
    OfferKeepsFlags(s, OfferApply(s));
    OfferKeepsWait(s, OfferApply(s));
    OfferKeepsSend(s, OfferApply(s));
    OfferKeepsTrace(s, OfferApply(s));
  }

  lemma LockingKeepsLocks(s: State, s': State)
    requires LockInv(s) && FlagInv(s) && NotifyEnabled(s) && Locking(s.notify) && s' == WaitApply(s)
    ensures LockInv(s')
  {
  }

  lemma UnlockingKeepsLocks(s: State, s': State)
    requires LockInv(s) && FlagInv(s) && NotifyEnabled(s) && Unlocking(s.notify) && s' == WaitApply(s)
    ensures LockInv(s')
  {
  }

  lemma WaitKeepsLocks(s: State, s': State)
    requires LockInv(s) && FlagInv(s) && NotifyEnabled(s) && !Sending(s.notify) && s' == WaitApply(s)
    ensures LockInv(s')
  {
    if Locking(s.notify) {
      LockingKeepsLocks(s, s');
    } else if Unlocking(s.notify) {
      UnlockingKeepsLocks(s, s');
    } else {
      assert s' == s.(notify := s'.notify) && !NotifyOutside(s'.notify);
    }
  }

  lemma WaitKeepsFlags(s: State, s': State)
    requires LockInv(s) && FlagInv(s) && NotifyEnabled(s) && !Sending(s.notify) && s' == WaitApply(s)
    ensures FlagInv(s')
  {
  }

  lemma LockingKeepsWait(s: State, s': State)
    requires LockInv(s) && FlagInv(s) && WaitInv(s) && NotifyEnabled(s) && Locking(s.notify) && s' == WaitApply(s)
    ensures WaitInv(s')
  {
  }

  lemma UnlockingKeepsWait(s: State, s': State)
    requires LockInv(s) && FlagInv(s) && WaitInv(s) && NotifyEnabled(s) && Unlocking(s.notify) && s' == WaitApply(s)
    ensures WaitInv(s')
  {
  }

  lemma WaitKeepsWait(s: State, s': State)
    requires LockInv(s) && FlagInv(s) && WaitInv(s) && NotifyEnabled(s) && !Sending(s.notify) && s' == WaitApply(s)
    ensures WaitInv(s')
  {
    if Locking(s.notify) {
      LockingKeepsWait(s, s');
    } else if Unlocking(s.notify) {
      UnlockingKeepsWait(s, s');
    } else {
      assert s' == s.(notify := s'.notify);
    }
  }

  lemma LockingKeepsSend(s: State, s': State)
    requires LockInv(s) && FlagInv(s) && WaitInv(s) && SendInv(s) && NotifyEnabled(s)
    requires Locking(s.notify) && s' == WaitApply(s)
    ensures SendInv(s')
  {
  }

  lemma UnlockingKeepsSend(s: State, s': State)
    requires LockInv(s) && FlagInv(s) && WaitInv(s) && SendInv(s) && NotifyEnabled(s)
    requires Unlocking(s.notify) && s' == WaitApply(s)
    ensures SendInv(s')
  {
  }

  lemma WaitKeepsSend(s: State, s': State)
    requires LockInv(s) && FlagInv(s) && WaitInv(s) && SendInv(s) && NotifyEnabled(s)
    requires !Sending(s.notify) && s' == WaitApply(s)
    ensures SendInv(s')
  {
    if Locking(s.notify) {
      LockingKeepsSend(s, s');
    } else if Unlocking(s.notify) {
      UnlockingKeepsSend(s, s');
    } else {
      assert s' == s.(notify := s'.notify);
    }
  }

  lemma LockingKeepsTrace(s: State, s': State)
    requires FlagInv(s) && SendInv(s) && TraceInv(s) && NotifyEnabled(s)
    requires Locking(s.notify) && s' == WaitApply(s)
    ensures TraceInv(s')
  {
  }

  lemma UnlockingKeepsTrace(s: State, s': State)
    requires FlagInv(s) && SendInv(s) && TraceInv(s) && NotifyEnabled(s)
    requires Unlocking(s.notify) && s' == WaitApply(s)
    ensures TraceInv(s')
  {
  }

  lemma WaitKeepsTrace(s: State, s': State)
    requires FlagInv(s) && SendInv(s) && TraceInv(s) && NotifyEnabled(s)
    requires !Sending(s.notify) && s' == WaitApply(s)
    ensures TraceInv(s')
  {
    if Locking(s.notify) {
      LockingKeepsTrace(s, s');
    } else if Unlocking(s.notify) {
      UnlockingKeepsTrace(s, s');
    } else {
      assert s' == s.(notify := s'.notify);
    }
  }

  lemma WaitKeepsInv(s: State)
    requires Inv(s) && NotifyEnabled(s) && !Sending(s.notify)
    ensures Inv(WaitApply(s))
  {
    WaitKeepsLocks(s, WaitApply(s));
    WaitKeepsFlags(s, WaitApply(s));
    WaitKeepsWait(s, WaitApply(s));
    WaitKeepsSend(s, WaitApply(s));
    WaitKeepsTrace(s, WaitApply(s));
  }

  lemma PayloadKeepsLocks(s: State, s': State)
    requires LockInv(s) && FlagInv(s) && NotifyEnabled(s)
    requires AtPayload(s.notify) && s' == SendApply(s)
    ensures LockInv(s')
  {
  }

  lemma SendKeepsLocks(s: State, s': State)
    requires LockInv(s) && FlagInv(s) && NotifyEnabled(s)
    requires Sending(s.notify) && s' == SendApply(s)
    ensures LockInv(s')
  {
    if AtPayload(s.notify) {
      PayloadKeepsLocks(s, s');
    } else {
      assert s' == s.(notify := s'.notify);
    }
  }

  lemma SendKeepsFlags(s: State, s': State)
    requires LockInv(s) && FlagInv(s) && NotifyEnabled(s) && Sending(s.notify) && s' == SendApply(s)
    ensures FlagInv(s')
  {
  }

  lemma PayloadKeepsWait(s: State, s': State)
    requires LockInv(s) && FlagInv(s) && WaitInv(s) && NotifyEnabled(s)
    requires AtPayload(s.notify) && s' == SendApply(s)
    ensures WaitInv(s')
  {
  }

  lemma SendKeepsWait(s: State, s': State)
    requires LockInv(s) && FlagInv(s) && WaitInv(s) && NotifyEnabled(s)
    requires Sending(s.notify) && s' == SendApply(s)
    ensures WaitInv(s')
  {
    if AtPayload(s.notify) {
      PayloadKeepsWait(s, s');
    } else {
      assert s' == s.(notify := s'.notify);
    }
  }

  lemma NotificationKeepsSend(s: State, s': State)
    requires LockInv(s) && FlagInv(s) && WaitInv(s) && SendInv(s) && NotifyEnabled(s)
    requires s.notify == NSend && s' == SendApply(s)
    ensures SendInv(s')
  {
  }

  lemma PayloadKeepsSend(s: State, s': State)
    requires LockInv(s) && FlagInv(s) && WaitInv(s) && SendInv(s) && NotifyEnabled(s)
    requires AtPayload(s.notify) && s.notify != NSend && s' == SendApply(s)
    ensures SendInv(s')
  {
  }

  lemma SendKeepsSend(s: State, s': State)
    requires LockInv(s) && FlagInv(s) && WaitInv(s) && SendInv(s) && NotifyEnabled(s)
    requires Sending(s.notify) && s' == SendApply(s)
    ensures SendInv(s')
  {
    if s.notify == NSend {
      NotificationKeepsSend(s, s');
    } else if AtPayload(s.notify) {
      PayloadKeepsSend(s, s');
    } else {
      assert s' == s.(notify := s'.notify);
    }
  }

  lemma SetDataKeepsTrace(s: State, s': State)
    requires FlagInv(s) && SendInv(s) && TraceInv(s) && s.notify == NSetData
    requires NotifyEnabled(s) && s' == SendApply(s)
    ensures TraceInv(s')
  {
    AppendKeepsOrder(s.events, SetData);
  }

  lemma NotificationKeepsOrder(s: State)
    requires FlagInv(s) && SendInv(s) && TraceInv(s) && s.notify == NSend
    ensures Ordered(s.events + [Notification])
    ensures CountAfter(s.events + [Notification], Notification, OfferService) == 0
  {
    AppendKeepsOrder(s.events, Notification);
  }

  lemma NotificationKeepsTrace(s: State, s': State)
    requires FlagInv(s) && SendInv(s) && TraceInv(s) && s.notify == NSend
    requires NotifyEnabled(s) && s' == SendApply(s)
    ensures TraceInv(s')
  {
    NotificationKeepsOrder(s);
    AppendToTrace(s.events, Notification, RunningCleared, Notification);
    AppendToTrace(s.events, Notification, RunningCleared, OfferService);
  }

  lemma SendKeepsTrace(s: State, s': State)
    requires FlagInv(s) && SendInv(s) && TraceInv(s)
    requires NotifyEnabled(s) && Sending(s.notify) && s' == SendApply(s)
    ensures TraceInv(s')
  {
    if s.notify == NSetData {
      SetDataKeepsTrace(s, s');
    } else if s.notify == NSend {
      NotificationKeepsTrace(s, s');
    } else {
      assert s'.events == s.events;
    }
  }

  lemma SendKeepsInv(s: State)
    requires Inv(s) && NotifyEnabled(s) && Sending(s.notify)
    ensures Inv(SendApply(s))
  {
    SendKeepsLocks(s, SendApply(s));
    SendKeepsFlags(s, SendApply(s));
    SendKeepsWait(s, SendApply(s));
    SendKeepsSend(s, SendApply(s));
    SendKeepsTrace(s, SendApply(s));
  }

  lemma StopKeepsLocks(s: State, s': State)
    requires LockInv(s) && FlagInv(s) && StopEnabled(s) && s' == StopApply(s)
    ensures LockInv(s')
  {
  }

  lemma StopKeepsFlags(s: State, s': State)
    requires LockInv(s) && FlagInv(s) && StopEnabled(s) && s' == StopApply(s)
    ensures FlagInv(s')
  {
  }

  lemma StopKeepsWait(s: State, s': State)
    requires LockInv(s) && FlagInv(s) && WaitInv(s) && StopEnabled(s) && s' == StopApply(s)
    ensures WaitInv(s')
  {
  }

  lemma StopKeepsSend(s: State, s': State)
    requires LockInv(s) && FlagInv(s) && WaitInv(s) && SendInv(s) && StopEnabled(s) && s' == StopApply(s)
    ensures SendInv(s')
  {
  }

  lemma StopKeepsTrace(s: State, s': State)
    requires FlagInv(s) && TraceInv(s) && StopEnabled(s) && s' == StopApply(s)
    ensures TraceInv(s')
  {
    if s.stop == SIdle { AppendKeepsOrder(s.events, RunningCleared); }
    if s.stop == SStopOffer { AppendKeepsOrder(s.events, StopOfferService); }
  }

  lemma StopKeepsInv(s: State)
    requires Inv(s) && StopEnabled(s)
    ensures Inv(StopApply(s))
  {
    StopKeepsLocks(s, StopApply(s));
    StopKeepsFlags(s, StopApply(s));
    StopKeepsWait(s, StopApply(s));
    StopKeepsSend(s, StopApply(s));
    StopKeepsTrace(s, StopApply(s));
  }

  lemma StepKeepsInv(s: State, a: Action)
    requires Inv(s) && Enabled(s, a)
    ensures Inv(Apply(s, a))
  {
    match a
    case InitStep => InitKeepsInv(s);
    case OfferStep => OfferKeepsInv(s);
    case NotifyStep => if Sending(s.notify) { SendKeepsInv(s); } else { WaitKeepsInv(s); }
    case StopStep => StopKeepsInv(s);
    case OfferSpurious =>
    case NotifySpurious =>
  }

  lemma {:induction false} RunKeepsInv(s: State, schedule: seq<Action>)
    requires Inv(s) && Valid(s, schedule)
    ensures Inv(Run(s, schedule))
    decreases |schedule|
  {
    if schedule != [] {
      StepKeepsInv(s, schedule[0]);
      RunKeepsInv(Apply(s, schedule[0]), schedule[1..]);
    }
  }

  lemma ReachableInv(s: State)
    requires Reachable(s)
    ensures Inv(s)
  {
    var s0, schedule :| Initial(s0) && Valid(s0, schedule) && Run(s0, schedule) == s;
    InitialInv(s0);
    RunKeepsInv(s0, schedule);
  }

  // ---- what that means for every run ----

  lemma {:induction false} PrecedesMeans(t: seq<Event>, a: Event, b: Event, k: nat)
    requires Precedes(t, a, b) && k < |t| && t[k] == b
    ensures a in t[..k]
  {
    var front := t[..|t| - 1];
    if k < |front| {
      PrecedesMeans(front, a, b, k);
      assert front[..k] == t[..k];
    } else {
      assert front == t[..k];
    }
  }

  lemma {:induction false} CountAfterMonotone(t: seq<Event>, a: Event, b: Event, n: nat)
    requires n <= |t|
    ensures CountAfter(t[..n], a, b) <= CountAfter(t, a, b)
  {
    if n < |t| {
      var front := t[..|t| - 1];
      CountAfterMonotone(front, a, b, n);
      assert front[..n] == t[..n];
    } else {
      assert t[..n] == t;
    }
  }

  lemma CountAfterAt(t: seq<Event>, a: Event, b: Event, i: nat, j: nat)
    requires i < j < |t| && t[i] == a && t[j] == b
    ensures CountAfter(t[..j + 1], a, b) == CountAfter(t[..j], a, b) + 1
  {
    var u := t[..j + 1];
    assert u[..j] == t[..j];
    assert t[..j][i] == a;
  }

  lemma {:induction false} NoneBetweenMeans(t: seq<Event>, a: Event, b: Event, i: nat, j: nat, k: nat)
    requires NoneBetween(t, a, b) && i < j < k < |t| && t[i] == a && t[k] == a
    ensures t[j] != b
  {
    var front := t[..|t| - 1];
    if k < |front| {
      NoneBetweenMeans(front, a, b, i, j, k);
    } else if t[j] == b {
      CountAfterAt(front, a, b, i, j);
      CountAfterMonotone(front, a, b, j + 1);
    }
  }

  lemma TwoAfter(t: seq<Event>, a: Event, b: Event, c: nat, i: nat, j: nat)
    requires c < i < j < |t| && t[c] == a && t[i] == b && t[j] == b
    ensures CountAfter(t, a, b) >= 2
  {
    CountAfterAt(t, a, b, c, i);
    CountAfterAt(t, a, b, c, j);
    CountAfterMonotone(t[..j], a, b, i + 1);
    assert t[..j][..i + 1] == t[..i + 1];
    CountAfterMonotone(t, a, b, j + 1);
  }

  /** The order of initialisation holds in every interleaving. */
  lemma InitialisationOrder(s: State)
    requires Reachable(s)
    ensures forall k :: 0 <= k < |s.events| && s.events[k] == OfferService ==> InitReturned in s.events[..k]
    ensures forall k :: 0 <= k < |s.events| && s.events[k] in {SetData, Notification} ==>
              PayloadCreated in s.events[..k]
    ensures forall k :: 0 <= k < |s.events| && s.events[k] == Notification ==> OfferService in s.events[..k]
    ensures s.notify == NSetData || s.notify == NSend ==> s.payload
    ensures s.offer != OWait && s.offer != OWaiting
  {
    ReachableInv(s);
    var t := s.events;
    forall k | 0 <= k < |t| && t[k] == OfferService ensures InitReturned in t[..k] {
      PrecedesMeans(t, InitReturned, OfferService, k);
    }
    forall k | 0 <= k < |t| && t[k] in {SetData, Notification} ensures PayloadCreated in t[..k] {
      PrecedesMeans(t, PayloadCreated, t[k], k);
    }
    forall k | 0 <= k < |t| && t[k] == Notification ensures OfferService in t[..k] {
      PrecedesMeans(t, OfferService, Notification, k);
    }
  }

  /** From its first notification to its end the notify thread owns the lock that an offer needs. */
  lemma SendingExcludesOffers(s: State)
    requires Reachable(s)
    ensures Notification in s.events && s.notify != NDone ==> s.notifyMutex == ByNotify
    ensures forall i, j, k | 0 <= i < j < k < |s.events| && s.events[i] == Notification && s.events[k] == Notification
              :: s.events[j] != OfferService
  {
    ReachableInv(s);
    forall i, j, k | 0 <= i < j < k < |s.events| && s.events[i] == Notification && s.events[k] == Notification
      ensures s.events[j] != OfferService
    {
      NoneBetweenMeans(s.events, Notification, OfferService, i, j, k);
    }
  }

  /** Once running_ is false, at most one notification and at most one offer are still under way. */
  lemma QuiescenceBound(s: State)
    requires Reachable(s)
    ensures forall c, i, j | 0 <= c < i < j < |s.events| && s.events[c] == RunningCleared && s.events[i] == s.events[j]
              :: s.events[i] != Notification && s.events[i] != OfferService
  {
    ReachableInv(s);
    forall c, i, j | 0 <= c < i < j < |s.events| && s.events[c] == RunningCleared && s.events[i] == s.events[j]
      ensures s.events[i] != Notification && s.events[i] != OfferService
    {
      if s.events[i] == Notification || s.events[i] == OfferService {
        TwoAfter(s.events, RunningCleared, s.events[i], c, i, j);
      }
    }
  }
}
