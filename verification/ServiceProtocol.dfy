/**
 The threads of `service_sample`: the initialising thread, the offer thread
 (`run`), the notify thread (`notify`) and the thread that calls `stop`.

 One action is one shared access of one thread: a lock or unlock, one read or
 write of a flag, one condition-variable call, one call into the middleware.
 `a && b` in a loop guard is two reads.  Waiting on a condition variable
 releases the lock and joins the wait set in one step; a woken thread has to
 take the lock again before it goes on, and a wait may also end spuriously.
 */
module ServiceProtocol {

  datatype Owner = Free | ByInit | ByOffer | ByNotify

  /** What the outside, or a reader of a run, can observe. */
  datatype Event =
    | PayloadCreated
    | InitReturned
    | OfferService
    | OfferReturned
    | SetData
    | Notification
    | RunningCleared
    | StopOfferService

  datatype InitPc =
    | LockMutex | SetRunning | ClearBlocked | ClearOffered | SpawnOffer | SpawnNotify
    | LockPayload | CreatePayload | UnlockPayload | SetBlocked | NotifyCondition
    | UnlockMutex | Returned

  datatype OfferPc =
    | ONotStarted | OLock | OTestBlocked | OWait | OWaiting | ORelock | OTestRunning
    | OLockNotify | OOfferService | OSetOffered | ONotifyOne | OUnlockNotify
    | OUnlock | ODone

  datatype NotifyPc =
    | NNotStarted | NLock | NTestBlocked | NWaitBlocked | NWaitingBlocked | NRelockBlocked
    | NPrepare | NTestRunning
    | NTestOffered | NTestRunningToWait | NWait | NWaiting | NRelock
    | NTestOfferedToSend | NTestRunningToSend
    | NEncode | NLockPayload | NSetData | NUnlockPayload | NSend | NAdvance | NSleep
    | NUnlock | NDone

  datatype StopPc =
    | SIdle | SSetBlocked | SNotifyOffer | SNotifyNotify | SStopOffer | SClearOffered
    | SJoinOffer | SJoinNotify | SDone

  datatype State = State(
    running: bool,
    blocked: bool,
    offered: bool,
    payload: bool,          // payload_ points to an object
    mutex: Owner,
    notifyMutex: Owner,
    payloadMutex: Owner,
    init: InitPc,
    offer: OfferPc,
    notify: NotifyPc,
    stop: StopPc,
    events: seq<Event>)

  datatype Action =
    | InitStep | OfferStep | NotifyStep | StopStep
    | OfferSpurious | NotifySpurious

  /** The flags are uninitialised members: any value is possible at first. */
  predicate Initial(s: State) {
    && !s.payload
    && s.mutex == Free && s.notifyMutex == Free && s.payloadMutex == Free
    && s.init == LockMutex && s.offer == ONotStarted && s.notify == NNotStarted
    && s.stop == SIdle
    && s.events == []
  }

  predicate InitEnabled(s: State) {
    match s.init
    case LockMutex => s.mutex == Free
    case LockPayload => s.payloadMutex == Free
    case Returned => false
    case _ => true
  }

  predicate OfferEnabled(s: State) {
    match s.offer
    case ONotStarted | OWaiting | ODone => false
    case OLock | ORelock => s.mutex == Free
    case OLockNotify => s.notifyMutex == Free
    case _ => true
  }

  predicate NotifyEnabled(s: State) {
    match s.notify
    case NNotStarted | NWaitingBlocked | NWaiting | NDone => false
    case NLock | NRelockBlocked | NRelock => s.notifyMutex == Free
    case NLockPayload => s.payloadMutex == Free
    case _ => true
  }

  /** stop() is only called once init() has returned. */
  predicate StopEnabled(s: State) {
    match s.stop
    case SIdle => s.init == Returned
    case SJoinOffer => s.offer == ODone
    case SJoinNotify => s.notify == NDone
    case SDone => false
    case _ => true
  }

  predicate Enabled(s: State, a: Action) {
    match a
    case InitStep => InitEnabled(s)
    case OfferStep => OfferEnabled(s)
    case NotifyStep => NotifyEnabled(s)
    case StopStep => StopEnabled(s)
    case OfferSpurious => s.offer == OWaiting
    case NotifySpurious => s.notify == NWaitingBlocked || s.notify == NWaiting
  }

  function Apply(s: State, a: Action): State
    requires Enabled(s, a)
  {
    match a
    case InitStep => InitApply(s)
    case OfferStep => OfferApply(s)
    case NotifyStep => NotifyApply(s)
    case StopStep => StopApply(s)
    case OfferSpurious => s.(offer := ORelock)
    case NotifySpurious => s.(notify := Woken(s.notify))
  }

  function InitApply(s: State): State
    requires InitEnabled(s)
  {
    match s.init
    case LockMutex => s.(mutex := ByInit, init := SetRunning)
    case SetRunning => s.(running := true, init := ClearBlocked)
    case ClearBlocked => s.(blocked := false, init := ClearOffered)
    case ClearOffered => s.(offered := false, init := SpawnOffer)
    case SpawnOffer => s.(offer := OLock, init := SpawnNotify)
    case SpawnNotify => s.(notify := NLock, init := LockPayload)
    case LockPayload => s.(payloadMutex := ByInit, init := CreatePayload)
    case CreatePayload => s.(payload := true, init := UnlockPayload, events := s.events + [PayloadCreated])
    case UnlockPayload => s.(payloadMutex := Free, init := SetBlocked)
    case SetBlocked => s.(blocked := true, init := NotifyCondition)
    case NotifyCondition => s.(offer := OfferNotified(s.offer), init := UnlockMutex)
    case UnlockMutex => s.(mutex := Free, init := Returned, events := s.events + [InitReturned])
  }

  /** notify_one on condition_, whose only waiter can be the offer thread. */
  function OfferNotified(pc: OfferPc): OfferPc {
    if pc == OWaiting then ORelock else pc
  }

  /** notify_one on notify_condition_, whose only waiter can be the notify thread. */
  function Woken(pc: NotifyPc): NotifyPc {
    if pc == NWaitingBlocked then NRelockBlocked
    else if pc == NWaiting then NRelock
    else pc
  }

  function OfferApply(s: State): State
    requires OfferEnabled(s)
  {
    match s.offer
    case OLock | ORelock => s.(mutex := ByOffer, offer := OTestBlocked)
    case OTestBlocked => s.(offer := if s.blocked then OTestRunning else OWait)
    case OWait => s.(mutex := Free, offer := OWaiting)
    case OTestRunning => s.(offer := if s.running then OLockNotify else OUnlock)
    case OLockNotify => s.(notifyMutex := ByOffer, offer := OOfferService)
    case OOfferService => s.(offer := OSetOffered, events := s.events + [OfferService])
    case OSetOffered => s.(offered := true, offer := ONotifyOne)
    case ONotifyOne => s.(notify := Woken(s.notify), offer := OUnlockNotify)
    case OUnlockNotify => s.(notifyMutex := Free, offer := OTestRunning, events := s.events + [OfferReturned])
    case OUnlock => s.(mutex := Free, offer := ODone)
  }

  /** From the test of is_offered_ in the sending loop on. */
  predicate Sending(pc: NotifyPc) {
    || pc.NTestOfferedToSend? || pc.NTestRunningToSend? || pc.NEncode? || pc.NLockPayload?
    || pc.NSetData? || pc.NUnlockPayload? || pc.NSend? || pc.NAdvance? || pc.NSleep?
  }

  function NotifyApply(s: State): State
    requires NotifyEnabled(s)
  {
    if Sending(s.notify) then SendApply(s) else WaitApply(s)
  }

  function WaitApply(s: State): State
    requires NotifyEnabled(s) && !Sending(s.notify)
  {
    match s.notify
    case NLock | NRelockBlocked => s.(notifyMutex := ByNotify, notify := NTestBlocked)
    case NTestBlocked => s.(notify := if s.blocked then NPrepare else NWaitBlocked)
    case NWaitBlocked => s.(notifyMutex := Free, notify := NWaitingBlocked)
    case NPrepare => s.(notify := NTestRunning)
    case NTestRunning => s.(notify := if s.running then NTestOffered else NUnlock)
    case NTestOffered => s.(notify := if s.offered then NTestOfferedToSend else NTestRunningToWait)
    case NTestRunningToWait => s.(notify := if s.running then NWait else NTestOfferedToSend)
    case NWait => s.(notifyMutex := Free, notify := NWaiting)
    case NRelock => s.(notifyMutex := ByNotify, notify := NTestOffered)
    case NUnlock => s.(notifyMutex := Free, notify := NDone)
  }

  function SendApply(s: State): State
    requires NotifyEnabled(s) && Sending(s.notify)
  {
    match s.notify
    case NTestOfferedToSend => s.(notify := if s.offered then NTestRunningToSend else NTestRunning)
    case NTestRunningToSend => s.(notify := if s.running then NEncode else NTestRunning)
    case NEncode => s.(notify := NLockPayload)
    case NLockPayload => s.(payloadMutex := ByNotify, notify := NSetData)
    case NSetData => s.(notify := NUnlockPayload, events := s.events + [SetData])
    case NUnlockPayload => s.(payloadMutex := Free, notify := NSend)
    case NSend => s.(notify := NAdvance, events := s.events + [Notification])
    case NAdvance => s.(notify := NSleep)
    case NSleep => s.(notify := NTestOfferedToSend)
  }

  function StopApply(s: State): State
    requires StopEnabled(s)
  {
    match s.stop
    case SIdle => s.(running := false, stop := SSetBlocked, events := s.events + [RunningCleared])
    case SSetBlocked => s.(blocked := true, stop := SNotifyOffer)
    case SNotifyOffer => s.(offer := OfferNotified(s.offer), stop := SNotifyNotify)
    case SNotifyNotify => s.(notify := Woken(s.notify), stop := SStopOffer)
    case SStopOffer => s.(stop := SClearOffered, events := s.events + [StopOfferService])
    case SClearOffered => s.(offered := false, stop := SJoinOffer)
    case SJoinOffer => s.(stop := SJoinNotify)
    case SJoinNotify => s.(stop := SDone)
  }

  /** A schedule is any interleaving: the list of who moves next. */
  predicate Valid(s: State, schedule: seq<Action>)
    decreases |schedule|
  {
    schedule != [] ==> Enabled(s, schedule[0]) && Valid(Apply(s, schedule[0]), schedule[1..])
  }

  function Run(s: State, schedule: seq<Action>): State
    requires Valid(s, schedule)
    decreases |schedule|
  {
    if schedule == [] then s else Run(Apply(s, schedule[0]), schedule[1..])
  }

  ghost predicate Reachable(s: State) {
    exists s0, schedule :: Initial(s0) && Valid(s0, schedule) && Run(s0, schedule) == s
  }
}
