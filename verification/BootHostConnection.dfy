/** The connection machine of hog_boot_host_demo.c: find or reconnect to a HID device, pair, discover, enable both
    boot reports, switch to boot mode; with one timer and one GATT request object. */
module BootHostConnection {
  import opened Arith
  import opened Wrappers

  datatype AppState =
    | W4Working
    | W4HidDeviceFound
    | W4Connected
    | W4Encrypted
    | W2QueryHidService
    | W4HidServiceFound
    | W2QueryHidCharacteristics
    | W4HidCharacteristicsFound
    | W2EnableBootKeyboard
    | W4BootKeyboardEnabled
    | W2EnableBootMouse
    | W4BootMouseEnabled
    | W2SwitchToBootMode
    | Ready
    | W4TimeoutThenScan
    | W4TimeoutThenReconnect

  datatype Handler = ConnectionTimeout | ReconnectTimeout

  datatype Query = DiscoverService | DiscoverCharacteristics | EnableKeyboard | EnableMouse

  /** What has been achieved on the current connection. */
  datatype Step = Secured(encrypted: bool) | Succeeded(query: Query) | BootMode

  type Address = nat

  datatype Event =
    | Working(bonded: Option<Address>)         // with the device found in non-volatile storage
    | Advertisement(address: Address, hid: bool)
    | ConnectionComplete(established: bool)
    | Disconnected(current: bool)              // of the link in use, or of one that was given up earlier
    | TimerFired
    | PairingComplete(success: bool)
    | ReencryptionComplete(success: bool)
    | CanQuery                                 // callback for a query
    | CanWrite                                 // callback for a write without response
    | QueryComplete(success: bool)

  datatype Host = Host(storage: bool, app: AppState, remote: Address)

  /** Timer, connection attempts with the address of the last one, pairing requests, GATT requests waiting for
      their callback, queries waiting for completion, achievements on this connection, the stored device. */
  datatype Stack = Stack(
    timers: nat, handler: Handler, attempts: nat, peer: Address, pairings: nat, queryRequests: nat,
    writeRequests: nat, queries: seq<Query>, achieved: seq<Step>, stored: Option<Address>, assertionFailed: bool)

  datatype State = State(host: Host, stack: Stack)

  function Initial(storage: bool): State {
    State(Host(storage, W4Working, 0), Stack(0, ConnectionTimeout, 0, 0, 0, 0, 0, [], [], None, false))
  }

  // ----- the stack's side of an event

  predicate Possible(s: State, e: Event) {
    var k := s.stack;
    match e
    case Working(bonded) => s.host.app == W4Working && (bonded.Some? ==> s.host.storage)
    case Advertisement(_, _) => true
    case ConnectionComplete(_) => k.attempts > 0
    case Disconnected(_) => true
    case TimerFired => k.timers > 0
    case PairingComplete(success) => success ==> k.pairings > 0
    case ReencryptionComplete(_) => k.pairings > 0
    case CanQuery => k.queryRequests > 0
    case CanWrite => k.writeRequests > 0
    case QueryComplete(_) => k.queries != []
  }

  function Less(n: nat): nat {
    if n > 0 then n - 1 else 0
  }

  function Deliver(k: Stack, e: Event): Stack {
    match e
    case ConnectionComplete(_) => k.(attempts := Less(k.attempts), achieved := [])
    case Disconnected(current) =>
      if current then k.(pairings := 0, queryRequests := 0, writeRequests := 0, queries := []) else k
    case TimerFired => k.(timers := Less(k.timers))
    case PairingComplete(success) =>
      k.(pairings := Less(k.pairings), achieved := if success then k.achieved + [Secured(true)] else k.achieved)
    case ReencryptionComplete(success) =>
      k.(pairings := Less(k.pairings), achieved := k.achieved + [Secured(success)])
    case CanQuery => k.(queryRequests := Less(k.queryRequests))
    case CanWrite => k.(writeRequests := Less(k.writeRequests))
    case QueryComplete(success) =>
      if k.queries == [] then k
      else k.(queries := k.queries[1..],
              achieved := if success then k.achieved + [Succeeded(k.queries[0])] else k.achieved)
    case _ => k
  }

  // ----- the program, on values

  function StartScan(h: Host, k: Stack): State {
    State(h.(app := W4HidDeviceFound), k)
  }

  function Arm(k: Stack, handler: Handler): Stack {
    k.(timers := k.timers + 1, handler := handler)
  }

  function Connect(h: Host, k: Stack): State {
    State(h.(app := W4Connected), Arm(k, ConnectionTimeout).(attempts := k.attempts + 1, peer := h.remote))
  }

  function Proceed(h: Host, k: Stack, next: AppState): State {
    State(h.(app := next), k.(queryRequests := k.queryRequests + 1))
  }

  function Issue(h: Host, k: Stack, next: AppState, q: Query): State {
    State(h.(app := next), k.(queries := k.queries + [q]))
  }

  function Fail(h: Host, k: Stack): State {
    State(h, k.(assertionFailed := true))
  }

  function OnTimer(h: Host, k: Stack): State {
    match k.handler
    case ConnectionTimeout => StartScan(h, k.(attempts := 0))
    case ReconnectTimeout =>
      if h.app == W4TimeoutThenReconnect then Connect(h, k)
      else if h.app == W4TimeoutThenScan then StartScan(h, k)
      else State(h, k)
  }

  function OnCanQuery(h: Host, k: Stack): State {
    match h.app
    case W2QueryHidService => Issue(h, k, W4HidServiceFound, DiscoverService)
    case W2QueryHidCharacteristics => Issue(h, k, W4HidCharacteristicsFound, DiscoverCharacteristics)
    case W2EnableBootKeyboard => Issue(h, k, W4BootKeyboardEnabled, EnableKeyboard)
    case W2EnableBootMouse => Issue(h, k, W4BootMouseEnabled, EnableMouse)
    case _ => Fail(h, k)
  }

  function OnCanWrite(h: Host, k: Stack): State {
    if h.app == W2SwitchToBootMode then
      State(h.(app := Ready),
            k.(achieved := k.achieved + [BootMode], stored := if h.storage then Some(h.remote) else k.stored))
    else Fail(h, k)
  }

  function OnComplete(h: Host, k: Stack, success: bool): State {
    match h.app
    case W4HidServiceFound =>
      if success then Proceed(h, k, W2QueryHidCharacteristics) else StartScan(h, k)
    case W4HidCharacteristicsFound =>
      if success then Proceed(h, k, W2EnableBootKeyboard) else StartScan(h, k)
    case W4BootKeyboardEnabled =>
      if success then Proceed(h, k, W2EnableBootMouse) else StartScan(h, k)
    case W4BootMouseEnabled =>
      if success then State(h.(app := W2SwitchToBootMode), k.(writeRequests := k.writeRequests + 1))
      else StartScan(h, k)
    case _ => State(h, k)
  }

  function Next(s: State, e: Event): State {
    var h, k := s.host, Deliver(s.stack, e);
    match e
    case Working(bonded) => if bonded.Some? then Connect(h.(remote := bonded.value), k) else StartScan(h, k)
    case Advertisement(a, hid) =>
      if h.app == W4HidDeviceFound && hid then Connect(h.(remote := a), k) else State(h, k)
    case ConnectionComplete(established) =>
      if h.app == W4Connected then
        State(h.(app := W4Encrypted), k.(timers := 0, pairings := k.pairings + if established then 1 else 0))
      else State(h, k)
    case Disconnected(_) =>
      if h.app == Ready then State(h.(app := W4TimeoutThenReconnect), Arm(k, ReconnectTimeout)) else State(h, k)
    case TimerFired => OnTimer(h, k)
    case PairingComplete(success) => if success then Proceed(h, k, W2QueryHidService) else State(h, k)
    case ReencryptionComplete(_) => Proceed(h, k, W2QueryHidService)
    case CanQuery => OnCanQuery(h, k)
    case CanWrite => OnCanWrite(h, k)
    case QueryComplete(success) => OnComplete(h, k, success)
  }

  // ----- what every run keeps

  predicate W2(app: AppState) {
    || app == W2QueryHidService || app == W2QueryHidCharacteristics || app == W2EnableBootKeyboard
    || app == W2EnableBootMouse
  }

  predicate W4(app: AppState) {
    || app == W4HidServiceFound || app == W4HidCharacteristicsFound || app == W4BootKeyboardEnabled
    || app == W4BootMouseEnabled
  }

  /** The query a state is waiting for. */
  function Awaited(app: AppState): Query {
    match app
    case W4HidServiceFound => DiscoverService
    case W4HidCharacteristicsFound => DiscoverCharacteristics
    case W4BootKeyboardEnabled => EnableKeyboard
    case _ => EnableMouse
  }

  /** The i-th thing to achieve on a connection. */
  predicate Planned(i: nat, step: Step) {
    match step
    case Secured(_) => i == 0
    case Succeeded(DiscoverService) => i == 1
    case Succeeded(DiscoverCharacteristics) => i == 2
    case Succeeded(EnableKeyboard) => i == 3
    case Succeeded(EnableMouse) => i == 4
    case BootMode => i == 5
  }

  /** How many of them a state has behind it. */
  function Position(app: AppState): nat {
    match app
    case W2QueryHidService => 1
    case W4HidServiceFound => 1
    case W2QueryHidCharacteristics => 2
    case W4HidCharacteristicsFound => 2
    case W2EnableBootKeyboard => 3
    case W4BootKeyboardEnabled => 3
    case W2EnableBootMouse => 4
    case W4BootMouseEnabled => 4
    case W2SwitchToBootMode => 5
    case Ready => 6
    case _ => 0
  }

  predicate OnPlan(app: AppState, achieved: seq<Step>) {
    && |achieved| == Position(app)
    && forall i :: 0 <= i < |achieved| ==> Planned(i, achieved[i])
  }

  predicate InSession(app: AppState) {
    W2(app) || W4(app) || app == W4Encrypted || app == W2SwitchToBootMode || app == Ready
  }

  predicate TimerFits(s: State) {
    && s.stack.timers == Count(s.host.app == W4Connected || s.host.app == W4TimeoutThenReconnect)
    && (s.host.app == W4Connected ==> s.stack.handler == ConnectionTimeout)
    && (s.host.app == W4TimeoutThenReconnect ==> s.stack.handler == ReconnectTimeout)
  }

  predicate Inv(s: State) {
    var h, k := s.host, s.stack;
    && !k.assertionFailed && h.app != W4TimeoutThenScan
    && TimerFits(s)
    && k.attempts == Count(h.app == W4Connected)
    && k.pairings <= Count(h.app == W4Encrypted)
    && k.queryRequests <= Count(W2(h.app))
    && k.writeRequests <= Count(h.app == W2SwitchToBootMode)
    && (k.queries == [] || (W4(h.app) && k.queries == [Awaited(h.app)]))
    && (InSession(h.app) ==> OnPlan(h.app, k.achieved))
    && (InSession(h.app) || h.app == W4Connected ==> k.peer == h.remote)
    && (h.storage && (h.app == Ready || h.app == W4TimeoutThenReconnect) ==> k.stored == Some(h.remote))
  }

  lemma {:induction false} CanQueryKeeps(s: State)
    requires Inv(s) && s.stack.queryRequests > 0
    ensures Inv(Next(s, CanQuery))
  {
    var k := s.stack.(queryRequests := 0);
    assert Next(s, CanQuery) == OnCanQuery(s.host, k);
    hide Next, Deliver, Planned;
    match s.host.app
    case W2QueryHidService =>
    case W2QueryHidCharacteristics =>
    case W2EnableBootKeyboard =>
    case W2EnableBootMouse =>
  }

  /** What a successful query leads to, from the state that requests it or the one that waits for it. */
  function Follower(app: AppState): AppState {
    match app
    case W2QueryHidService => W2QueryHidCharacteristics
    case W4HidServiceFound => W2QueryHidCharacteristics
    case W2QueryHidCharacteristics => W2EnableBootKeyboard
    case W4HidCharacteristicsFound => W2EnableBootKeyboard
    case W2EnableBootKeyboard => W2EnableBootMouse
    case W4BootKeyboardEnabled => W2EnableBootMouse
    case _ => W2SwitchToBootMode
  }

  /** A success is the next thing planned. */
  lemma {:induction false} PlanNext(app: AppState, next: AppState, achieved: seq<Step>, step: Step)
    requires OnPlan(app, achieved) && Planned(Position(app), step) && Position(next) == Position(app) + 1
    ensures OnPlan(next, achieved + [step])
  {
  }

  lemma {:induction false} CompleteKeeps(s: State, success: bool)
    requires Inv(s) && s.stack.queries != []
    ensures Inv(Next(s, QueryComplete(success)))
  {
    var done := Awaited(s.host.app);
    var k := s.stack.(queries := [],
                      achieved := if success then s.stack.achieved + [Succeeded(done)] else s.stack.achieved);
    assert Next(s, QueryComplete(success)) == OnComplete(s.host, k, success);
    if success {
      PlanNext(s.host.app, Follower(s.host.app), s.stack.achieved, Succeeded(done));
    }
    hide Next, Deliver, OnPlan, Planned, Awaited;
    match s.host.app
    case W4HidServiceFound =>
    case W4HidCharacteristicsFound =>
    case W4BootKeyboardEnabled =>
    case W4BootMouseEnabled =>
  }

  lemma {:induction false} SecuredKeeps(s: State, e: Event)
    requires Inv(s) && (e.PairingComplete? || e.ReencryptionComplete?) && Possible(s, e)
    ensures Inv(Next(s, e))
  {
    hide OnTimer, OnCanQuery, OnCanWrite, OnComplete;
  }

  lemma {:induction false} TimerKeeps(s: State)
    requires Inv(s) && s.stack.timers > 0
    ensures Inv(Next(s, TimerFired))
  {
    hide Planned, OnPlan, OnCanQuery, OnCanWrite, OnComplete;
  }

  lemma {:induction false} CanWriteKeeps(s: State)
    requires Inv(s) && s.stack.writeRequests > 0
    ensures Inv(Next(s, CanWrite))
  {
    hide OnTimer, OnCanQuery, OnComplete;
  }

  lemma {:induction false} DisconnectedKeeps(s: State, current: bool)
    requires Inv(s)
    ensures Inv(Next(s, Disconnected(current)))
  {
    hide OnTimer, OnCanQuery, OnComplete, OnCanWrite, Planned;
  }

  lemma {:induction false} ConnectionKeeps(s: State, e: Event)
    requires Inv(s) && Possible(s, e) && (e.Working? || e.Advertisement? || e.ConnectionComplete?)
    ensures Inv(Next(s, e))
  {
    hide OnTimer, OnCanQuery, OnComplete, OnCanWrite, Planned;
  }

  /** One event keeps the invariant. */
  lemma {:induction false} StepKeeps(s: State, e: Event)
    requires Inv(s) && Possible(s, e)
    ensures Inv(Next(s, e))
  {
    hide Inv, Next;
    match e
    case CanQuery =>
      CanQueryKeeps(s);
    case CanWrite =>
      CanWriteKeeps(s);
    case QueryComplete(success) =>
      CompleteKeeps(s, success);
    case PairingComplete(_) =>
      SecuredKeeps(s, e);
    case ReencryptionComplete(_) =>
      SecuredKeeps(s, e);
    case TimerFired =>
      TimerKeeps(s);
    case Disconnected(current) =>
      DisconnectedKeeps(s, current);
    case _ =>
      ConnectionKeeps(s, e);
  }

  // ----- runs

  function After(storage: bool, events: seq<Event>, n: nat): State
    requires n <= |events|
  {
    if n == 0 then Initial(storage) else Next(After(storage, events, n - 1), events[n - 1])
  }

  /** Each of the first n events is possible where it happens. */
  ghost predicate Feasible(storage: bool, events: seq<Event>, n: nat)
    requires n <= |events|
  {
    n > 0 ==> Feasible(storage, events, n - 1) && Possible(After(storage, events, n - 1), events[n - 1])
  }

  lemma {:induction false} Latest(storage: bool, events: seq<Event>, n: nat)
    requires 0 < n <= |events|
    ensures After(storage, events, n) == Next(After(storage, events, n - 1), events[n - 1])
    ensures Feasible(storage, events, n) <==>
            Feasible(storage, events, n - 1) && Possible(After(storage, events, n - 1), events[n - 1])
  {
    hide Next, Possible;
  }

  lemma {:induction false} Starts(storage: bool, events: seq<Event>)
    ensures After(storage, events, 0) == Initial(storage) && Inv(After(storage, events, 0))
  {
  }

  /** Every reachable state. */
  lemma {:induction false} RunKeeps(storage: bool, events: seq<Event>, n: nat)
    requires n <= |events| && Feasible(storage, events, n)
    ensures Inv(After(storage, events, n))
  {
    hide *;
    if n == 0 {
      Starts(storage, events);
    } else {
      Latest(storage, events, n);
      RunKeeps(storage, events, n - 1);
      StepKeeps(After(storage, events, n - 1), events[n - 1]);
    }
  }

  /** In every reachable state the timer is armed, once, exactly while connecting or waiting to reconnect, with the
      handler for that; the state "wait, then scan" does not occur; no assertion of a send callback fails. */
  lemma {:induction false} TimerAndAssertions(storage: bool, events: seq<Event>, n: nat)
    requires n <= |events| && Feasible(storage, events, n)
    ensures var s := After(storage, events, n);
            && s.stack.timers <= 1
            && (s.stack.timers == 1 <==> s.host.app == W4Connected || s.host.app == W4TimeoutThenReconnect)
            && (s.host.app == W4Connected ==> s.stack.handler == ConnectionTimeout)
            && (s.host.app == W4TimeoutThenReconnect ==> s.stack.handler == ReconnectTimeout)
            && s.host.app != W4TimeoutThenScan
            && !s.stack.assertionFailed
            && (s.stack.queryRequests > 0 ==> W2(s.host.app))
            && (s.stack.writeRequests > 0 ==> s.host.app == W2SwitchToBootMode)
            && s.stack.queryRequests + s.stack.writeRequests + |s.stack.queries| + s.stack.pairings <= 1
  {
    RunKeeps(storage, events, n);
  }

  /** What the program does next: scan, connect to a device, wait before reconnecting, or something else. */
  predicate Scans(s: State) {
    s.host.app == W4HidDeviceFound && s.stack.timers == 0 && s.stack.attempts == 0
  }

  predicate Connects(s: State, peer: Address) {
    s.host.app == W4Connected && s.stack.attempts == 1 && s.stack.peer == peer
  }

  predicate Pauses(s: State) {
    s.host.app == W4TimeoutThenReconnect && s.stack.timers == 1 && s.stack.handler == ReconnectTimeout
  }

  /** It connects to the bonded device or to one that advertises HID while it scans, and after a timer to the device it
      was connected to; it scans when an attempt times out and when a query fails; and it waits before reconnecting
      exactly when a link is lost in READY. */
  predicate Finds(s: State, e: Event, t: State) {
    && (e.Working? ==> if e.bonded.Some? then Connects(t, e.bonded.value) else Scans(t))
    && (e.Advertisement? && Scans(s) ==> if e.hid then Connects(t, e.address) else Scans(t))
    && (e.TimerFired? ==> if Pauses(s) then Connects(t, s.host.remote) else Scans(t))
    && (e == QueryComplete(false) ==> Scans(t))
    && (Pauses(t) && !Pauses(s) <==> e.Disconnected? && s.host.app == Ready)
    && (e == Disconnected(true) ==> Asked(t) == 0) && (e == Disconnected(false) ==> Asked(t) == Asked(s))
  }

  /** Requests and queries that wait for an answer over the link. */
  function Asked(s: State): nat {
    s.stack.pairings + s.stack.queryRequests + s.stack.writeRequests + |s.stack.queries|
  }

  lemma {:induction false} StepFinds(s: State, e: Event)
    requires Inv(s) && Possible(s, e)
    ensures Finds(s, e, Next(s, e))
  {
    hide OnPlan, Planned, Deliver, OnTimer, OnCanQuery, OnCanWrite, OnComplete;
    match e
    case QueryComplete(_) => CompleteFinds(s, e);
    case TimerFired => TimerFinds(s);
    case CanQuery => CanSendFinds(s, e);
    case CanWrite => CanSendFinds(s, e);
    case _ => OtherFinds(s, e);
  }

  lemma {:induction false} CompleteFinds(s: State, e: Event)
    requires Inv(s) && Possible(s, e) && e.QueryComplete?
    ensures Finds(s, e, Next(s, e))
  {
    hide OnPlan, Planned;
  }

  lemma {:induction false} TimerFinds(s: State)
    requires Inv(s) && s.stack.timers > 0
    ensures Finds(s, TimerFired, Next(s, TimerFired))
  {
    hide OnPlan, Planned;
  }

  lemma {:induction false} CanSendFinds(s: State, e: Event)
    requires Inv(s) && Possible(s, e) && (e == CanQuery || e == CanWrite)
    ensures Finds(s, e, Next(s, e))
  {
    hide OnPlan, Planned;
  }

  lemma {:induction false} OtherFinds(s: State, e: Event)
    requires Inv(s) && Possible(s, e) && !e.QueryComplete? && !e.TimerFired? && e != CanQuery && e != CanWrite
    ensures Finds(s, e, Next(s, e))
  {
    hide OnPlan, Planned, OnTimer, OnCanQuery, OnCanWrite, OnComplete;
  }

  /** How the program finds its device, in any run. */
  lemma {:induction false} FindsDevice(storage: bool, events: seq<Event>, n: nat)
    requires 0 < n <= |events| && Feasible(storage, events, n)
    ensures Finds(After(storage, events, n - 1), events[n - 1], After(storage, events, n))
  {
    hide *;
    Latest(storage, events, n);
    RunKeeps(storage, events, n - 1);
    StepFinds(After(storage, events, n - 1), events[n - 1]);
  }

  /** While the link is up the remote device is the peer of the latest attempt, so this is where it reconnects. */
  lemma {:induction false} ReconnectsToPeer(storage: bool, events: seq<Event>, n: nat)
    requires n <= |events| && Feasible(storage, events, n)
    ensures var s := After(storage, events, n); s.host.app == Ready || Pauses(s) ==> s.stack.peer == s.host.remote
  {
    hide *;
    if n == 0 {
      Starts(storage, events);
      StartsIdle(storage);
    } else {
      Latest(storage, events, n);
      ReconnectsToPeer(storage, events, n - 1);
      RunKeeps(storage, events, n - 1);
      PeerStays(After(storage, events, n - 1), events[n - 1]);
    }
  }

  lemma {:induction false} StartsIdle(storage: bool)
    ensures var s := Initial(storage); s.host.app != Ready && !Pauses(s)
  {
  }

  lemma {:induction false} PeerStays(s: State, e: Event)
    requires Inv(s) && Possible(s, e) && (Pauses(s) ==> s.stack.peer == s.host.remote)
    ensures var t := Next(s, e); t.host.app == Ready || Pauses(t) ==> t.stack.peer == t.host.remote
  {
    StepKeeps(s, e);
    StepFinds(s, e);
    ReadyPeer(Next(s, e));
    ReadyPeer(s);
    if Pauses(Next(s, e)) {
      PausePeer(s, e);
    }
    hide *;
  }

  lemma {:induction false} ReadyPeer(s: State)
    requires Inv(s)
    ensures s.host.app == Ready ==> s.stack.peer == s.host.remote
  {
    hide OnPlan, TimerFits;
  }

  lemma {:induction false} PausePeer(s: State, e: Event)
    requires Inv(s) && Possible(s, e) && Pauses(Next(s, e)) && Finds(s, e, Next(s, e))
    ensures Next(s, e).stack.peer == s.stack.peer && Next(s, e).host.remote == s.host.remote
    ensures Pauses(s) || s.host.app == Ready
  {
    hide OnPlan, Planned, TimerFits;
  }

  /** The latest answer of the security manager since the latest connection, as the events tell it. */
  function Answer(events: seq<Event>, n: nat): Option<bool>
    requires n <= |events|
  {
    if n == 0 then None
    else match events[n - 1]
      case ConnectionComplete(_) => None
      case PairingComplete(success) => if success then Some(true) else Answer(events, n - 1)
      case ReencryptionComplete(success) => Some(success)
      case _ => Answer(events, n - 1)
  }

  /** What the program has recorded of it. */
  predicate Recorded(achieved: seq<Step>, answer: Option<bool>) {
    achieved != [] ==> answer.Some? && achieved[0] == Secured(answer.value)
  }

  lemma {:induction false} RecordedNext(s: State, e: Event, before: Option<bool>, after: Option<bool>)
    requires Inv(s) && Possible(s, e) && Recorded(s.stack.achieved, before)
    requires after == match e
                      case ConnectionComplete(_) => None
                      case PairingComplete(success) => if success then Some(true) else before
                      case ReencryptionComplete(success) => Some(success)
                      case _ => before
    ensures Recorded(Next(s, e).stack.achieved, after)
  {
    hide Planned;
    assert s.stack.pairings > 0 ==> s.stack.achieved == [];
    hide OnPlan, TimerFits;
  }

  lemma {:induction false} AnswerRecorded(storage: bool, events: seq<Event>, n: nat)
    requires n <= |events| && Feasible(storage, events, n)
    ensures Recorded(After(storage, events, n).stack.achieved, Answer(events, n))
  {
    if n > 0 {
      hide Next, Possible, Inv, Recorded, Feasible;
      Latest(storage, events, n);
      RunKeeps(storage, events, n - 1);
      AnswerRecorded(storage, events, n - 1);
      RecordedNext(After(storage, events, n - 1), events[n - 1], Answer(events, n - 1), Answer(events, n));
    }
  }

  /** READY is reached only after, on this connection and in this order, the security manager answered, both
      discoveries and both notification enables succeeded and boot mode was set. The link is then encrypted if and
      only if that answer was a success; the stored device is the one connected to. */
  lemma {:induction false} ReadyEarned(storage: bool, events: seq<Event>, n: nat)
    requires n <= |events| && Feasible(storage, events, n) && After(storage, events, n).host.app == Ready
    ensures var k := After(storage, events, n).stack;
            && |k.achieved| == 6 && k.achieved[0].Secured?
            && (k.achieved[0].encrypted <==> Answer(events, n) == Some(true))
            && k.achieved[1] == Succeeded(DiscoverService) && k.achieved[2] == Succeeded(DiscoverCharacteristics)
            && k.achieved[3] == Succeeded(EnableKeyboard) && k.achieved[4] == Succeeded(EnableMouse)
            && k.achieved[5] == BootMode
            && (storage ==> k.stored == Some(k.peer))
  {
    hide After, OnPlan, Feasible, Answer;
    RunKeeps(storage, events, n);
    StorageConstant(storage, events, n);
    AnswerRecorded(storage, events, n);
    AllAchieved(After(storage, events, n).stack.achieved);
  }

  lemma {:induction false} AllAchieved(a: seq<Step>)
    requires OnPlan(Ready, a)
    ensures |a| == 6 && a[0].Secured?
    ensures a[1] == Succeeded(DiscoverService) && a[2] == Succeeded(DiscoverCharacteristics)
    ensures a[3] == Succeeded(EnableKeyboard) && a[4] == Succeeded(EnableMouse) && a[5] == BootMode
  {
    assert Planned(0, a[0]) && Planned(1, a[1]) && Planned(2, a[2]);
    assert Planned(3, a[3]) && Planned(4, a[4]) && Planned(5, a[5]);
  }

  lemma {:induction false} StorageKept(s: State, e: Event)
    ensures Next(s, e).host.storage == s.host.storage
  {
    hide Deliver;
  }

  lemma {:induction false} StorageConstant(storage: bool, events: seq<Event>, n: nat)
    requires n <= |events|
    ensures After(storage, events, n).host.storage == storage
  {
    if n > 0 {
      StorageConstant(storage, events, n - 1);
      StorageKept(After(storage, events, n - 1), events[n - 1]);
      hide Next;
    }
  }

  function Round(s: State): State {
    Next(Next(s, CanQuery), QueryComplete(true))
  }

  /** A state with a request to send, on a connection whose security answer was `encrypted`. */
  predicate Under(s: State, app: AppState, encrypted: bool) {
    && Inv(s) && s.host.app == app && |s.stack.achieved| > 0 && s.stack.achieved[0] == Secured(encrypted)
    && (if app == W2SwitchToBootMode then s.stack.writeRequests == 1 else s.stack.queryRequests == 1)
  }

  lemma {:induction false} RoundProceeds(s: State, app: AppState, encrypted: bool)
    requires W2(app) && Under(s, app, encrypted)
    ensures Possible(s, CanQuery) && Possible(Next(s, CanQuery), QueryComplete(true))
    ensures Under(Round(s), Follower(app), encrypted)
  {
    var t := Next(s, CanQuery);
    StepKeeps(s, CanQuery);
    assert W4(t.host.app) && t.stack.queries != [] && t.stack.achieved == s.stack.achieved;
    StepKeeps(t, QueryComplete(true));
    hide Inv, OnPlan;
  }

  /** Whatever the security manager answers to a pairing request that is not plainly refused, the device can lead the
      host to READY, and the link is then encrypted as answered. */
  lemma {:induction false} AnsweredGoesOn(s: State, success: bool)
    requires Inv(s) && s.stack.pairings > 0
    ensures var t := Round(Round(Round(Round(Next(s, ReencryptionComplete(success))))));
            Possible(t, CanWrite) && ReadyWith(Next(t, CanWrite), success)
  {
    hide *;
    var a := Next(s, ReencryptionComplete(success));
    Secures(s, success);
    FollowerOf();
    RoundProceeds(a, W2QueryHidService, success);
    RoundProceeds(Round(a), W2QueryHidCharacteristics, success);
    RoundProceeds(Round(Round(a)), W2EnableBootKeyboard, success);
    RoundProceeds(Round(Round(Round(a))), W2EnableBootMouse, success);
    WriteProceeds(Round(Round(Round(Round(a)))), success);
  }

  lemma {:induction false} WriteProceeds(s: State, encrypted: bool)
    requires Under(s, W2SwitchToBootMode, encrypted)
    ensures Possible(s, CanWrite) && ReadyWith(Next(s, CanWrite), encrypted)
  {
    hide Inv;
  }

  predicate ReadyWith(s: State, encrypted: bool) {
    s.host.app == Ready && |s.stack.achieved| > 0 && s.stack.achieved[0] == Secured(encrypted)
  }

  lemma {:induction false} FollowerOf()
    ensures W2(W2QueryHidService) && W2(W2QueryHidCharacteristics) && W2(W2EnableBootKeyboard) && W2(W2EnableBootMouse)
    ensures Follower(W2QueryHidService) == W2QueryHidCharacteristics
    ensures Follower(W2QueryHidCharacteristics) == W2EnableBootKeyboard
    ensures Follower(W2EnableBootKeyboard) == W2EnableBootMouse && Follower(W2EnableBootMouse) == W2SwitchToBootMode
  {
  }

  /** A device is found and connected, re-encryption fails, and everything else succeeds. */
  const UNENCRYPTED_RUN: seq<Event> := [
    Working(None), Advertisement(1, true), ConnectionComplete(true), ReencryptionComplete(false),
    CanQuery, QueryComplete(true), CanQuery, QueryComplete(true), CanQuery, QueryComplete(true),
    CanQuery, QueryComplete(true), CanWrite]

  lemma {:induction false} Connected(e: seq<Event>)
    requires |e| >= 4 && e[0] == Working(None) && e[1] == Advertisement(1, true) && e[2] == ConnectionComplete(true)
    ensures Feasible(false, e, 3) && Inv(After(false, e, 3)) && After(false, e, 3).stack.pairings > 0
  {
    Latest(false, e, 1);
    Latest(false, e, 2);
    Latest(false, e, 3);
    assert After(false, e, 0) == Initial(false);
    hide After;
  }

  lemma {:induction false} OneRound(e: seq<Event>, n: nat, app: AppState, encrypted: bool)
    requires n + 2 <= |e| && e[n] == CanQuery && e[n + 1] == QueryComplete(true) && W2(app)
    requires Feasible(false, e, n) && Under(After(false, e, n), app, encrypted)
    ensures Feasible(false, e, n + 2) && Under(After(false, e, n + 2), Follower(app), encrypted)
  {
    hide *;
    Latest(false, e, n + 1);
    Latest(false, e, n + 2);
    RoundOf(After(false, e, n));
    RoundProceeds(After(false, e, n), app, encrypted);
  }

  lemma {:induction false} RoundOf(s: State)
    ensures Round(s) == Next(Next(s, CanQuery), QueryComplete(true))
  {
  }

  /** READY without encryption is reachable. */
  lemma {:induction false} UnencryptedReady()
    ensures Feasible(false, UNENCRYPTED_RUN, 13) && ReadyWith(After(false, UNENCRYPTED_RUN, 13), false)
  {
    var e := UNENCRYPTED_RUN;
    hide Feasible, After, Under, Inv, Follower, ReadyWith, Next, Possible;
    Connected(e);
    Latest(false, e, 4);
    Secures(After(false, e, 3), false);
    Path(e);
    Latest(false, e, 13);
    WriteProceeds(After(false, e, 12), false);
  }

  lemma {:induction false} Secures(s: State, success: bool)
    requires Inv(s) && s.stack.pairings > 0
    ensures Possible(s, ReencryptionComplete(success))
    ensures Under(Next(s, ReencryptionComplete(success)), W2QueryHidService, success)
  {
    StepKeeps(s, ReencryptionComplete(success));
  }

  lemma {:induction false} Path(e: seq<Event>)
    requires |e| >= 12 && Feasible(false, e, 4) && Under(After(false, e, 4), W2QueryHidService, false)
    requires forall k :: 4 <= k < 12 ==> e[k] == if k % 2 == 0 then CanQuery else QueryComplete(true)
    ensures Feasible(false, e, 12) && Under(After(false, e, 12), W2SwitchToBootMode, false)
  {
    hide Feasible, After, Under, Follower, W2;
    FollowerOf();
    OneRound(e, 4, W2QueryHidService, false);
    OneRound(e, 6, W2QueryHidCharacteristics, false);
    OneRound(e, 8, W2EnableBootKeyboard, false);
    OneRound(e, 10, W2EnableBootMouse, false);
  }

  /** What the invariant says about the stack, state by state. */
  lemma {:induction false} Facts(s: State)
    requires Inv(s)
    ensures var app, k := s.host.app, s.stack;
            && k.timers == Count(app == W4Connected || app == W4TimeoutThenReconnect)
            && k.attempts == Count(app == W4Connected)
            && (app == W4Connected ==> k.handler == ConnectionTimeout && k.peer == s.host.remote)
            && (app == W4TimeoutThenReconnect ==> k.handler == ReconnectTimeout)
            && k.queryRequests <= Count(W2(app)) && k.writeRequests <= Count(app == W2SwitchToBootMode)
            && (k.queries == [] || (W4(app) && k.queries == [Awaited(app)]))
            && k.pairings <= Count(app == W4Encrypted)
            && (app == Ready && s.host.storage ==> k.stored == Some(k.peer))
  {
    hide OnPlan;
  }

  // ----- the program

  class HidHost {
    const storage: bool
    var app: AppState
    var remote: Address
    ghost var stack: Stack

    ghost function View(): State
      reads this
    {
      State(Host(storage, app, remote), stack)
    }

    constructor (storage: bool)
      ensures View() == Initial(storage) && Inv(View())
    {
      this.storage, app, remote := storage, W4Working, 0;
      stack := Initial(storage).stack;
    }

    /** Exactly one timer, for the one attempt to reach the remote device. */
    ghost predicate Connecting()
      reads this
    {
      && app == W4Connected && stack.timers == 1 && stack.handler == ConnectionTimeout
      && stack.attempts == 1 && stack.peer == remote
    }

    /** No timer and no attempt. */
    ghost predicate Scanning()
      reads this
    {
      app == W4HidDeviceFound && stack.timers == 0 && stack.attempts == 0
    }

    /** hog_start_scan */
    method HogStartScan()
      requires stack.timers == 0 && stack.attempts == 0
      modifies this`app
      ensures Scanning()
    {
      app := W4HidDeviceFound;
    }

    /** hog_connect */
    method HogConnect()
      requires stack.timers == 0 && stack.attempts == 0
      modifies this`app, this`stack
      ensures Connecting() && stack == Connect(old(View().host), old(stack)).stack
    {
      stack := Arm(stack, ConnectionTimeout);
      app := W4Connected;
      stack := stack.(attempts := stack.attempts + 1, peer := remote);
    }

    /** hog_connection_timeout and hog_reconnect_timeout: the timer calls the handler it was set up with, which gives up
        the attempt and scans, or starts another attempt with its own timeout. */
    method OnTimerFired(handler: Handler)
      requires Inv(View()) && stack.timers > 0 && stack.handler == handler
      modifies this`app, this`stack
      ensures View() == Next(old(View()), TimerFired) && Inv(View())
      ensures if handler == ConnectionTimeout then Scanning() else Connecting()
    {
      StepKeeps(View(), TimerFired);
      Facts(View());
      hide Inv;
      stack := Deliver(stack, TimerFired);
      match handler {
        case ConnectionTimeout =>
          stack := stack.(attempts := 0);
          HogStartScan();
        case ReconnectTimeout =>
          match app {
            case W4TimeoutThenReconnect =>
              HogConnect();
            case _ =>
              assert false;   // W4_TIMEOUT_THEN_SCAN does not occur, and no other state has this timer
          }
      }
    }

    /** hog_start_connect: the bonded device if there is one, else a scan. */
    method HogStartConnect(bonded: Option<Address>)
      requires Inv(View()) && Possible(View(), Working(bonded))
      modifies this`app, this`stack, this`remote
      ensures View() == Next(old(View()), Working(bonded)) && Inv(View())
      ensures if bonded.Some? then Connecting() && remote == bonded.value else Scanning()
    {
      StepKeeps(View(), Working(bonded));
      Facts(View());
      hide Inv;
      if bonded.Some? {
        remote := bonded.value;
        HogConnect();
        return;
      }
      HogStartScan();
    }

    /** Advertising reports in packet_handler: the device advertised is the one connected to. */
    method OnAdvertisement(address: Address, hid: bool)
      requires Inv(View())
      modifies this`app, this`stack, this`remote
      ensures View() == Next(old(View()), Advertisement(address, hid)) && Inv(View())
      ensures if old(app) == W4HidDeviceFound && hid then Connecting() && remote == address
              else View() == old(View())
    {
      StepKeeps(View(), Advertisement(address, hid));
      Facts(View());
      hide Inv;
      if app != W4HidDeviceFound || !hid {
        return;
      }
      remote := address;
      HogConnect();
    }

    /** Connection complete in packet_handler: the timeout is off before pairing is asked for, once. */
    method OnConnectionComplete(ghost established: bool)
      requires Inv(View()) && stack.attempts > 0
      modifies this`app, this`stack
      ensures View() == Next(old(View()), ConnectionComplete(established)) && Inv(View())
      ensures app == W4Encrypted && stack.timers == 0 && stack.pairings == Count(established)
    {
      StepKeeps(View(), ConnectionComplete(established));
      Facts(View());
      hide Inv;
      stack := Deliver(stack, ConnectionComplete(established));
      match app {
        case W4Connected =>
          stack := stack.(timers := 0);
          app := W4Encrypted;
          stack := stack.(pairings := stack.pairings + if established then 1 else 0);
        case _ =>
          assert false;
      }
    }

    /** Disconnection complete in packet_handler: from READY, and only from there, the reconnect timer is set. */
    method OnDisconnected(ghost current: bool)
      requires Inv(View())
      modifies this`app, this`stack
      ensures View() == Next(old(View()), Disconnected(current)) && Inv(View())
      ensures if old(app) == Ready
              then app == W4TimeoutThenReconnect && stack.timers == 1 && stack.handler == ReconnectTimeout
              else app == old(app) && stack.timers == old(stack.timers)
    {
      StepKeeps(View(), Disconnected(current));
      Facts(View());
      hide Inv;
      stack := Deliver(stack, Disconnected(current));
      if app != Ready {
        return;
      }
      app := W4TimeoutThenReconnect;
      stack := Arm(stack, ReconnectTimeout);
    }

    /** sm_packet_handler: one request to send a query, exactly if the answer is taken for a success. */
    method OnSecurityEvent(e: Event)
      requires Inv(View()) && Possible(View(), e) && (e.PairingComplete? || e.ReencryptionComplete?)
      modifies this`app, this`stack
      ensures View() == Next(old(View()), e) && Inv(View())
      ensures if e.ReencryptionComplete? || e.success then app == W2QueryHidService && stack.queryRequests == 1
              else app == old(app) && stack.queryRequests == old(stack.queryRequests)
    {
      StepKeeps(View(), e);
      Facts(View());
      hide Inv;
      stack := Deliver(stack, e);
      var connectToService := e.ReencryptionComplete? || e.success;
      if connectToService {
        app := W2QueryHidService;
        stack := stack.(queryRequests := stack.queryRequests + 1);
      }
    }

    /** hog_host_send_next_query: the request becomes one query, which the new state waits for; the assertion holds. */
    method SendNextQuery()
      requires Inv(View()) && stack.queryRequests > 0
      modifies this`app, this`stack
      ensures View() == Next(old(View()), CanQuery) && Inv(View())
      ensures stack.queryRequests == 0 && W4(app) && stack.queries == [Awaited(app)]
    {
      StepKeeps(View(), CanQuery);
      Facts(View());
      hide Inv, OnTimer, OnComplete, OnCanWrite;
      stack := Deliver(stack, CanQuery);
      match app {
        case W2QueryHidService =>
          app := W4HidServiceFound;
          stack := stack.(queries := stack.queries + [DiscoverService]);
        case W2QueryHidCharacteristics =>
          app := W4HidCharacteristicsFound;
          stack := stack.(queries := stack.queries + [DiscoverCharacteristics]);
        case W2EnableBootKeyboard =>
          app := W4BootKeyboardEnabled;
          stack := stack.(queries := stack.queries + [EnableKeyboard]);
        case W2EnableBootMouse =>
          app := W4BootMouseEnabled;
          stack := stack.(queries := stack.queries + [EnableMouse]);
        case _ =>
          assert false;
      }
    }

    /** hog_host_send_next_write_without_response: READY with the connected device stored; the assertion holds. */
    method SendNextWriteWithoutResponse()
      requires Inv(View()) && stack.writeRequests > 0
      modifies this`app, this`stack
      ensures View() == Next(old(View()), CanWrite) && Inv(View())
      ensures app == Ready && stack.writeRequests == 0 && (storage ==> stack.stored == Some(stack.peer))
    {
      StepKeeps(View(), CanWrite);
      Facts(View());
      Facts(Next(View(), CanWrite));
      hide Inv, OnTimer, OnComplete, OnCanQuery;
      stack := Deliver(stack, CanWrite);
      match app {
        case W2SwitchToBootMode =>
          stack := stack.(achieved := stack.achieved + [BootMode],
                          stored := if storage then Some(remote) else stack.stored);
          app := Ready;
        case _ =>
          assert false;
      }
    }

    /** Query complete in handle_gatt_client_event: success leads to exactly one request, failure to a scan without. */
    method OnQueryComplete(success: bool)
      requires Inv(View()) && stack.queries != []
      modifies this`app, this`stack
      ensures View() == Next(old(View()), QueryComplete(success)) && Inv(View())
      ensures stack.queries == [] && stack.queryRequests + stack.writeRequests == Count(success)
      ensures !success ==> Scanning()
    {
      StepKeeps(View(), QueryComplete(success));
      Facts(View());
      hide Inv, OnTimer, OnCanQuery, OnCanWrite;
      stack := Deliver(stack, QueryComplete(success));
      if !success {
        HogStartScan();
        return;
      }
      match app {
        case W4HidServiceFound =>
          app := W2QueryHidCharacteristics;
          stack := stack.(queryRequests := stack.queryRequests + 1);
        case W4HidCharacteristicsFound =>
          app := W2EnableBootKeyboard;
          stack := stack.(queryRequests := stack.queryRequests + 1);
        case W4BootKeyboardEnabled =>
          app := W2EnableBootMouse;
          stack := stack.(queryRequests := stack.queryRequests + 1);
        case W4BootMouseEnabled =>
          app := W2SwitchToBootMode;
          stack := stack.(writeRequests := stack.writeRequests + 1);
        case _ =>
          assert false;
      }
    }
  }
}
