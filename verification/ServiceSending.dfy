/**
 What the sending loop does: each time around exactly one data set and then one
 notification, whatever the other threads do meanwhile; and what the offering
 loop does: each offer is made once and then over.
 */
module ServiceSending {
  import opened ServiceProtocol
  import opened ServiceSafety
  import opened ServiceShutdown

  /** The events of a trace that are a or b, in their order. */
  function Only(t: seq<Event>, a: Event, b: Event): seq<Event> {
    if t == [] then []
    else
      var front, last := Only(t[..|t| - 1], a, b), t[|t| - 1];
      if last == a || last == b then front + [last] else front
  }

  /** a, b, a, b, and so on. */
  predicate Alternates(t: seq<Event>, a: Event, b: Event) {
    forall k :: 0 <= k < |t| ==> t[k] == if k % 2 == 0 then a else b
  }

  function Sends(t: seq<Event>): seq<Event> { Only(t, SetData, Notification) }

  function Offers(t: seq<Event>): seq<Event> { Only(t, OfferService, OfferReturned) }

  lemma OnlyAppend(t: seq<Event>, e: Event, a: Event, b: Event)
    ensures Only(t + [e], a, b) == if e == a || e == b then Only(t, a, b) + [e] else Only(t, a, b)
  {
    assert (t + [e])[..|t|] == t;
  }

  lemma AlternatesOn(t: seq<Event>, a: Event, b: Event)
    requires Alternates(t, a, b)
    ensures |t| % 2 == 0 ==> Alternates(t + [a], a, b)
    ensures |t| % 2 == 1 ==> Alternates(t + [b], a, b)
  {
  }

  // ---- what every step does to the two subsequences ----

  /** The notify thread is in the middle of a turn of its sending loop. */
  predicate InTurn(pc: NotifyPc) { Sending(pc) && pc != NTestOfferedToSend && pc != NTestRunningToSend }

  /** The data is set, the notification is still to come. */
  predicate BetweenSetAndSend(pc: NotifyPc) { pc == NUnlockPayload || pc == NSend }

  predicate BetweenOfferAndReturn(pc: OfferPc) { pc == OSetOffered || pc == ONotifyOne || pc == OUnlockNotify }

  /** The events that the notify thread has still ahead of it before it tests is_offered_ again. */
  function Owed(pc: NotifyPc): seq<Event> {
    match pc
    case NEncode | NLockPayload | NSetData => [SetData, Notification]
    case NUnlockPayload | NSend => [Notification]
    case _ => []
  }

  lemma SetDataStep(s: State)
    requires NotifyEnabled(s) && s.notify == NSetData
    ensures var s' := SendApply(s);
            && s'.notify == NUnlockPayload
            && Sends(s'.events) == Sends(s.events) + [SetData] && Offers(s'.events) == Offers(s.events)
  {
    OnlyAppend(s.events, SetData, SetData, Notification);
    OnlyAppend(s.events, SetData, OfferService, OfferReturned);
  }

  lemma NotificationStep(s: State)
    requires NotifyEnabled(s) && s.notify == NSend
    ensures var s' := SendApply(s);
            && s'.notify == NAdvance
            && Sends(s'.events) == Sends(s.events) + [Notification] && Offers(s'.events) == Offers(s.events)
  {
    OnlyAppend(s.events, Notification, SetData, Notification);
    OnlyAppend(s.events, Notification, OfferService, OfferReturned);
  }

  lemma QuietSend(s: State)
    requires NotifyEnabled(s) && Sending(s.notify) && s.notify != NSetData && s.notify != NSend
    ensures var s' := SendApply(s);
            && s'.events == s.events
            && (BetweenSetAndSend(s'.notify) <==> BetweenSetAndSend(s.notify))
            && (s'.notify == NSleep ==> s.notify == NAdvance) && s'.notify != NAdvance
  {
  }

  lemma QuietOwes(s: State)
    requires NotifyEnabled(s) && InTurn(s.notify) && s.notify != NSetData && s.notify != NSend
    ensures SendApply(s).events == s.events && Owed(SendApply(s).notify) == Owed(s.notify)
  {
  }

  lemma QuietWait(s: State)
    requires NotifyEnabled(s) && !Sending(s.notify)
    ensures var s' := WaitApply(s);
            && s'.events == s.events && !BetweenSetAndSend(s'.notify)
            && s'.notify != NSleep && s'.notify != NAdvance
  {
  }

  /** Steps of the other threads, and those of the notify thread outside the sending loop. */
  lemma InitSilent(s: State)
    requires InitEnabled(s)
    ensures Sends(InitApply(s).events) == Sends(s.events) && Offers(InitApply(s).events) == Offers(s.events)
  {
    if s.init == CreatePayload {
      OnlyAppend(s.events, PayloadCreated, SetData, Notification);
      OnlyAppend(s.events, PayloadCreated, OfferService, OfferReturned);
    } else if s.init == UnlockMutex {
      OnlyAppend(s.events, InitReturned, SetData, Notification);
      OnlyAppend(s.events, InitReturned, OfferService, OfferReturned);
    }
  }

  lemma StopSilent(s: State)
    requires StopEnabled(s)
    ensures Sends(StopApply(s).events) == Sends(s.events) && Offers(StopApply(s).events) == Offers(s.events)
  {
    if s.stop == SIdle {
      OnlyAppend(s.events, RunningCleared, SetData, Notification);
      OnlyAppend(s.events, RunningCleared, OfferService, OfferReturned);
    } else if s.stop == SStopOffer {
      OnlyAppend(s.events, StopOfferService, SetData, Notification);
      OnlyAppend(s.events, StopOfferService, OfferService, OfferReturned);
    }
  }

  lemma OfferStepSilent(s: State)
    requires OfferEnabled(s)
    ensures Sends(OfferApply(s).events) == Sends(s.events)
    ensures Offers(OfferApply(s).events)
            == Offers(s.events) + (if s.offer == OOfferService then [OfferService]
                                   else if s.offer == OUnlockNotify then [OfferReturned] else [])
  {
    if s.offer == OOfferService {
      OnlyAppend(s.events, OfferService, SetData, Notification);
      OnlyAppend(s.events, OfferService, OfferService, OfferReturned);
    } else if s.offer == OUnlockNotify {
      OnlyAppend(s.events, OfferReturned, SetData, Notification);
      OnlyAppend(s.events, OfferReturned, OfferService, OfferReturned);
    }
  }

  // ---- every run ----

  predicate SendsFit(sends: seq<Event>, pc: NotifyPc) {
    && Alternates(sends, SetData, Notification)
    && (|sends| % 2 == 1 <==> BetweenSetAndSend(pc))
    && (pc == NAdvance || pc == NSleep ==> sends != [])
  }

  predicate OffersFit(offers: seq<Event>, pc: OfferPc) {
    && Alternates(offers, OfferService, OfferReturned)
    && (|offers| % 2 == 1 <==> BetweenOfferAndReturn(pc))
  }

  predicate SendsInv(s: State) { SendsFit(Sends(s.events), s.notify) }

  predicate OffersInv(s: State) { OffersFit(Offers(s.events), s.offer) }

  lemma SendsGrow(sends: seq<Event>)
    ensures SendsFit(sends, NSetData) ==> SendsFit(sends + [SetData], NUnlockPayload)
    ensures SendsFit(sends, NSend) ==> SendsFit(sends + [Notification], NAdvance)
  {
    if Alternates(sends, SetData, Notification) { AlternatesOn(sends, SetData, Notification); }
  }

  lemma SendsStay(sends: seq<Event>, pc: NotifyPc, next: NotifyPc)
    requires SendsFit(sends, pc) && (BetweenSetAndSend(next) <==> BetweenSetAndSend(pc))
    requires next == NAdvance || next == NSleep ==> pc == NAdvance || pc == NSleep
    ensures SendsFit(sends, next)
  {
  }

  lemma OffersGrow(offers: seq<Event>)
    ensures OffersFit(offers, OOfferService) ==> OffersFit(offers + [OfferService], OSetOffered)
    ensures OffersFit(offers, OUnlockNotify) ==> OffersFit(offers + [OfferReturned], OTestRunning)
  {
    if Alternates(offers, OfferService, OfferReturned) { AlternatesOn(offers, OfferService, OfferReturned); }
  }

  lemma OffersStay(offers: seq<Event>, pc: OfferPc, next: OfferPc)
    requires OffersFit(offers, pc) && (BetweenOfferAndReturn(next) <==> BetweenOfferAndReturn(pc))
    ensures OffersFit(offers, next)
  {
  }

  lemma NotifyKeepsSends(s: State)
    requires SendsInv(s) && NotifyEnabled(s)
    ensures SendsInv(NotifyApply(s)) && Offers(NotifyApply(s).events) == Offers(s.events)
  {
    SendsGrow(Sends(s.events));
    if s.notify == NSetData {
      SetDataStep(s);
    } else if s.notify == NSend {
      NotificationStep(s);
    } else {
      if Sending(s.notify) { QuietSend(s); } else { QuietWait(s); }
      SendsStay(Sends(s.events), s.notify, NotifyApply(s).notify);
    }
  }

  lemma InitKeepsSends(s: State)
    requires FlagInv(s) && SendsInv(s) && OffersInv(s) && InitEnabled(s)
    ensures SendsInv(InitApply(s)) && OffersInv(InitApply(s))
  {
    InitSilent(s);
    assert BetweenSetAndSend(InitApply(s).notify) == BetweenSetAndSend(s.notify);
    assert BetweenOfferAndReturn(InitApply(s).offer) == BetweenOfferAndReturn(s.offer);
  }

  lemma OfferKeepsSends(s: State)
    requires SendsInv(s) && OfferEnabled(s)
    ensures SendsInv(OfferApply(s))
  {
    OfferStepSilent(s);
    WokenBetween(s.notify);
    assert OfferApply(s).notify == s.notify || OfferApply(s).notify == Woken(s.notify);
  }

  lemma StopKeepsSends(s: State)
    requires SendsInv(s) && OffersInv(s) && StopEnabled(s)
    ensures SendsInv(StopApply(s)) && OffersInv(StopApply(s))
  {
    StopSilent(s);
    WokenBetween(s.notify);
    assert StopApply(s).notify == s.notify || StopApply(s).notify == Woken(s.notify);
    assert StopApply(s).offer == s.offer || StopApply(s).offer == OfferNotified(s.offer);
  }

  lemma OfferMoves(s: State)
    requires OfferEnabled(s)
    ensures s.offer == OOfferService ==> OfferApply(s).offer == OSetOffered
    ensures s.offer == OUnlockNotify ==> OfferApply(s).offer == OTestRunning
    ensures s.offer != OOfferService && s.offer != OUnlockNotify ==>
              (BetweenOfferAndReturn(OfferApply(s).offer) <==> BetweenOfferAndReturn(s.offer))
  {
  }

  lemma OfferKeepsOffers(s: State)
    requires OffersInv(s) && OfferEnabled(s)
    ensures OffersInv(OfferApply(s))
  {
    OfferStepSilent(s);
    OfferMoves(s);
    OffersGrow(Offers(s.events));
    if s.offer != OOfferService && s.offer != OUnlockNotify {
      OffersStay(Offers(s.events), s.offer, OfferApply(s).offer);
    }
  }

  lemma WokenBetween(pc: NotifyPc)
    ensures BetweenSetAndSend(Woken(pc)) <==> BetweenSetAndSend(pc)
    ensures Woken(pc) == NAdvance || Woken(pc) == NSleep <==> pc == NAdvance || pc == NSleep
    ensures Owed(Woken(pc)) == Owed(pc)
  {
  }

  lemma StepKeepsBoth(s: State, a: Action)
    requires FlagInv(s) && SendsInv(s) && OffersInv(s) && Enabled(s, a)
    ensures SendsInv(Apply(s, a)) && OffersInv(Apply(s, a))
  {
    match a
    case InitStep => InitKeepsSends(s);
    case OfferStep => OfferKeepsSends(s); OfferKeepsOffers(s);
    case NotifyStep => NotifyKeepsSends(s); NotifyLeavesOffer(s);
    case StopStep => StopKeepsSends(s);
    case OfferSpurious =>
    case NotifySpurious => WokenBetween(s.notify);
  }

  lemma NotifyLeavesOffer(s: State)
    requires NotifyEnabled(s)
    ensures NotifyApply(s).offer == s.offer
  {
    if Sending(s.notify) {
      assert SendApply(s).offer == s.offer;
    } else {
      assert WaitApply(s).offer == s.offer;
    }
  }

  lemma InvFlags(s: State)
    requires Inv(s)
    ensures FlagInv(s)
  {
  }

  lemma {:induction false} RunKeepsBoth(s: State, schedule: seq<Action>)
    requires Inv(s) && SendsInv(s) && OffersInv(s) && Valid(s, schedule)
    ensures SendsInv(Run(s, schedule)) && OffersInv(Run(s, schedule))
    decreases |schedule|
  {
    if schedule != [] {
      InvFlags(s);
      StepKeepsInv(s, schedule[0]);
      StepKeepsBoth(s, schedule[0]);
      RunKeepsBoth(Apply(s, schedule[0]), schedule[1..]);
    }
  }

  lemma ReachableBoth(s: State)
    requires Reachable(s)
    ensures SendsInv(s) && OffersInv(s)
  {
    var s0, schedule :| Initial(s0) && Valid(s0, schedule) && Run(s0, schedule) == s;
    InitialInv(s0);
    RunKeepsBoth(s0, schedule);
  }

  /** Data sets and notifications take turns, and the place of the notify thread tells whose turn it is. */
  lemma SendsAlternate(s: State)
    requires Reachable(s)
    ensures Alternates(Sends(s.events), SetData, Notification)
    ensures s.notify == NUnlockPayload || s.notify == NSend ==>
              Sends(s.events) != [] && Sends(s.events)[|Sends(s.events)| - 1] == SetData
    ensures s.notify == NAdvance || s.notify == NSleep ==>
              Sends(s.events) != [] && Sends(s.events)[|Sends(s.events)| - 1] == Notification
  {
    ReachableBoth(s);
  }

  /** So do the two ends of an offer. */
  lemma OffersAlternate(s: State)
    requires Reachable(s)
    ensures Alternates(Offers(s.events), OfferService, OfferReturned)
    ensures BetweenOfferAndReturn(s.offer) ==>
              Offers(s.events) != [] && Offers(s.events)[|Offers(s.events)| - 1] == OfferService
  {
    ReachableBoth(s);
  }

  // ---- once around the loop ----

  /** The turn lasts through the whole schedule and ends with its last step. */
  predicate EndsTurn(s: State, schedule: seq<Action>)
    requires Valid(s, schedule)
    decreases |schedule|
  {
    if schedule == [] then s.notify == NTestOfferedToSend
    else InTurn(s.notify) && EndsTurn(Apply(s, schedule[0]), schedule[1..])
  }

  lemma NotifyTurn(s: State)
    requires InTurn(s.notify) && NotifyEnabled(s)
    ensures Sends(NotifyApply(s).events) + Owed(NotifyApply(s).notify) == Sends(s.events) + Owed(s.notify)
  {
    if s.notify == NSetData {
      SetDataStep(s);
      assert Sends(s.events) + [SetData] + [Notification] == Sends(s.events) + [SetData, Notification];
    } else if s.notify == NSend {
      NotificationStep(s);
    } else {
      QuietOwes(s);
    }
  }

  /** The step of another thread neither sends anything nor moves a notify thread that is in its turn. */
  lemma OtherTurn(s: State, a: Action)
    requires FlagInv(s) && InTurn(s.notify) && Enabled(s, a) && a != NotifyStep
    ensures Apply(s, a).notify == s.notify && Sends(Apply(s, a).events) == Sends(s.events)
  {
    match a
    case InitStep => InitSilent(s);
    case OfferStep => OfferStepSilent(s);
    case StopStep => StopSilent(s);
    case OfferSpurious =>
    case NotifySpurious =>
  }

  lemma {:induction false} TurnOwes(s: State, schedule: seq<Action>)
    requires Inv(s) && Valid(s, schedule) && EndsTurn(s, schedule)
    ensures Sends(Run(s, schedule).events) == Sends(s.events) + Owed(s.notify)
    decreases |schedule|
  {
    if schedule != [] {
      InvFlags(s);
      StepKeepsInv(s, schedule[0]);
      if schedule[0] == NotifyStep { NotifyTurn(s); } else { OtherTurn(s, schedule[0]); }
      TurnOwes(Apply(s, schedule[0]), schedule[1..]);
    }
  }

  /** From the encoding of the counter to the next test, in every interleaving: one data set, then one notification. */
  lemma OneTurnSendsOnce(s: State, schedule: seq<Action>)
    requires Reachable(s) && s.notify == NEncode && Valid(s, schedule) && EndsTurn(s, schedule)
    ensures Sends(Run(s, schedule).events) == Sends(s.events) + [SetData, Notification]
  {
    ReachableInv(s);
    TurnOwes(s, schedule);
  }

  // ---- a notification is sent ----

  /** How far the offer thread is from having offered once. */
  function OfferToGo(pc: OfferPc): nat {
    match pc
    case OLock => 8 case OTestBlocked => 7 case OTestRunning => 6 case OLockNotify => 5
    case OOfferService => 4 case OSetOffered => 3 case ONotifyOne => 2 case OUnlockNotify => 1
    case _ => 0
  }

  /** The offer thread goes first. */
  predicate Offering(s: State) {
    && s.init == Returned && s.stop == SIdle && s.running && s.blocked && s.payloadMutex == Free
    && s.notify == NLock && OfferToGo(s.offer) > 0
    && (s.offer == OLock ==> s.mutex == Free)
    && (s.offer == OLockNotify ==> s.notifyMutex == Free)
    && (s.offer == ONotifyOne || s.offer == OUnlockNotify ==> s.offered)
    && (OfferToGo(s.offer) >= 5 ==> s.notifyMutex == Free)
  }

  lemma OfferGoes(s: State)
    requires Offering(s)
    ensures OfferEnabled(s)
    ensures s.offer != OUnlockNotify ==>
              Offering(OfferApply(s)) && OfferToGo(OfferApply(s).offer) < OfferToGo(s.offer)
    ensures s.offer == OUnlockNotify ==> Notifying(OfferApply(s))
  {
  }

  /** How far the notify thread is from its first notification when the service is offered. */
  function NotifyToGo(pc: NotifyPc): nat {
    match pc
    case NLock => 11 case NTestBlocked => 10 case NPrepare => 9 case NTestRunning => 8 case NTestOffered => 7
    case NTestOfferedToSend => 6 case NTestRunningToSend => 5 case NEncode => 4 case NLockPayload => 3
    case NSetData => 2 case NUnlockPayload => 1 case _ => 0
  }

  /** Then the notify thread. */
  predicate Notifying(s: State) {
    && s.running && s.blocked && s.offered
    && (s.notify == NLock ==> s.notifyMutex == Free)
    && (NotifyToGo(s.notify) >= 3 ==> s.payloadMutex == Free)
    && (s.notify == NSend || NotifyToGo(s.notify) > 0)
  }

  lemma WaitGoes(s: State)
    requires Notifying(s) && !Sending(s.notify)
    ensures NotifyEnabled(s)
    ensures Notifying(WaitApply(s)) && NotifyToGo(WaitApply(s).notify) < NotifyToGo(s.notify)
  {
  }

  lemma SendGoes(s: State)
    requires Notifying(s) && Sending(s.notify) && s.notify != NSend
    ensures NotifyEnabled(s)
    ensures Notifying(SendApply(s)) && NotifyToGo(SendApply(s).notify) < NotifyToGo(s.notify)
  {
  }

  lemma NotifyGoes(s: State)
    requires Notifying(s) && s.notify != NSend
    ensures NotifyEnabled(s)
    ensures Notifying(NotifyApply(s)) && NotifyToGo(NotifyApply(s).notify) < NotifyToGo(s.notify)
  {
    if Sending(s.notify) { SendGoes(s); } else { WaitGoes(s); }
  }

  lemma OfferedOnce() returns (s: State)
    ensures Reachable(s) && Notifying(s)
  {
    s := ReachInitialised();
    ReachableInv(s);
    while s.offer != OUnlockNotify
      invariant Reachable(s) && Offering(s)
      decreases OfferToGo(s.offer)
    {
      OfferGoes(s);
      ReachableStep(s, OfferStep);
      s := Apply(s, OfferStep);
    }
    OfferGoes(s);
    ReachableStep(s, OfferStep);
    s := Apply(s, OfferStep);
  }

  /** Initialisation runs through, the service is offered, and the notify thread sends. */
  lemma NotificationReachable() returns (s: State)
    ensures Reachable(s) && Notification in s.events
  {
    s := OfferedOnce();
    while s.notify != NSend
      invariant Reachable(s) && Notifying(s)
      decreases NotifyToGo(s.notify)
    {
      NotifyGoes(s);
      ReachableStep(s, NotifyStep);
      s := Apply(s, NotifyStep);
    }
    ReachableStep(s, NotifyStep);
    s := Apply(s, NotifyStep);
  }
}
