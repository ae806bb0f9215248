/** The GATT client of gatt_heart_rate_client.c: it connects, walks through a fixed script of queries with at most
    one of them under way, and listens for notifications. */
module HeartRateClient {
  import opened Arith

  datatype AppState =
    | Idle
    | W4ScanResult
    | W4Connect
    | W2QueryService
    | W4ServiceResult
    | W2QueryMeasurement
    | W4Measurement
    | W2EnableNotifications
    | W4EnableNotificationsComplete
    | W2QueryLocationCharacteristic
    | W4LocationCharacteristic
    | W2QueryLocation
    | W4Location
    | Connected

  datatype Query = DiscoverService | DiscoverMeasurement | WriteConfiguration | DiscoverLocation | ReadLocation

  datatype Event =
    | Working
    | Advertisement(hasHeartRateService: bool)
    | ConnectionComplete(established: bool)
    | Disconnected
    | CanSend                               // the requested callback
    | CharacteristicResult(valueHandle: nat)
    | OtherResult
    | QueryComplete(success: bool)

  /** Variables of the program. */
  datatype Client = Client(fixedPeer: bool, app: AppState, listenerRegistered: bool, locationHandle: nat)

  /** What the stack has been told: connection attempts, the link, send requests waiting for their callback,
      queries waiting for completion, registrations of the listener, a disconnect that was asked for, the queries
      issued on this connection, and the location results: all of them, and how many came on this connection. */
  datatype Stack = Stack(
    attempts: nat, linked: bool, pending: nat, queries: nat, listeners: nat, disconnecting: bool, issued: seq<Query>,
    locations: seq<nat>, ownLocations: nat, assertionFailed: bool)

  datatype State = State(client: Client, stack: Stack)

  function Initial(fixedPeer: bool): State {
    State(Client(fixedPeer, Idle, false, 0), Stack(0, false, 0, 0, 0, false, [], [], 0, false))
  }

  // ----- calls into the stack

  /** Without a link there is nothing to wait for, and the request is refused. */
  function RequestToSend(k: Stack): Stack {
    k.(pending := k.pending + Count(k.linked))
  }

  function Issue(k: Stack, q: Query): Stack {
    k.(queries := k.queries + 1, issued := k.issued + [q])
  }

  function Listen(k: Stack): Stack {
    k.(listeners := k.listeners + 1)
  }

  function StopListening(k: Stack): Stack {
    k.(listeners := if k.listeners > 0 then k.listeners - 1 else 0)
  }

  // ----- the stack's side of an event

  predicate Possible(s: State, e: Event) {
    match e
    case Working => s.client.app == Idle
    case Advertisement(_) => true
    case ConnectionComplete(_) => s.stack.attempts > 0
    case Disconnected => s.stack.linked
    case CanSend => s.stack.pending > 0
    case CharacteristicResult(_) => s.stack.queries > 0
    case OtherResult => true
    case QueryComplete(_) => s.stack.queries > 0
  }

  function Deliver(s: State, e: Event): Stack {
    var k := s.stack;
    match e
    case ConnectionComplete(established) =>
      k.(attempts := if k.attempts > 0 then k.attempts - 1 else 0, linked := established, disconnecting := false,
         issued := [], ownLocations := 0)
    case Disconnected => k.(linked := false, pending := 0, queries := 0, disconnecting := false)
    case CanSend => k.(pending := if k.pending > 0 then k.pending - 1 else 0)
    case QueryComplete(_) => k.(queries := if k.queries > 0 then k.queries - 1 else 0)
    case CharacteristicResult(h) =>
      if s.client.app == W4LocationCharacteristic then
        k.(locations := k.locations + [h], ownLocations := k.ownLocations + 1)
      else k
    case _ => k
  }

  // ----- the program, on values

  function Start(c: Client, k: Stack): State {
    if c.fixedPeer then State(c.(app := W4Connect), k.(attempts := k.attempts + 1))
    else State(c.(app := W4ScanResult), k)
  }

  function Proceed(c: Client, k: Stack, next: AppState): State {
    State(c.(app := next), RequestToSend(k))
  }

  function SendNext(c: Client, k: Stack): State {
    match c.app
    case W2QueryService => State(c.(app := W4ServiceResult), Issue(k, DiscoverService))
    case W2QueryMeasurement => State(c.(app := W4Measurement), Issue(k, DiscoverMeasurement))
    case W2EnableNotifications => State(c.(app := W4EnableNotificationsComplete), Issue(k, WriteConfiguration))
    case W2QueryLocationCharacteristic => State(c.(app := W4LocationCharacteristic), Issue(k, DiscoverLocation))
    case W2QueryLocation => State(c.(app := W4Location), Issue(k, ReadLocation))
    case _ => State(c, k.(assertionFailed := true))
  }

  function Complete(c: Client, k: Stack, success: bool): State {
    match c.app
    case W4ServiceResult =>
      if success then Proceed(c, k, W2QueryMeasurement) else State(c, k.(disconnecting := true))
    case W4Measurement =>
      if success then Proceed(c.(listenerRegistered := true), Listen(k), W2EnableNotifications)
      else State(c, k.(disconnecting := true))
    case W4EnableNotificationsComplete => Proceed(c, k, W2QueryLocationCharacteristic)
    case W4LocationCharacteristic =>
      if success && c.locationHandle != 0 then Proceed(c, k, W2QueryLocation) else State(c.(app := Connected), k)
    case W4Location => State(c.(app := Connected), k)
    case _ => State(c, k)
  }

  function Lost(c: Client, k: Stack): State {
    var k1 := if c.listenerRegistered then StopListening(k) else k;
    var c1 := c.(listenerRegistered := false);
    if c.fixedPeer then State(c1, k1) else Start(c1, k1)
  }

  function Step(s: State, e: Event): State {
    var c, k := s.client, Deliver(s, e);
    match e
    case Working => Start(c, k)
    case Advertisement(found) =>
      if c.app == W4ScanResult && found then State(c.(app := W4Connect), k.(attempts := k.attempts + 1))
      else State(c, k)
    case ConnectionComplete(_) => if c.app == W4Connect then Proceed(c, k, W2QueryService) else State(c, k)
    case Disconnected => Lost(c, k)
    case CanSend => SendNext(c, k)
    case CharacteristicResult(h) =>
      State(if c.app == W4LocationCharacteristic then c.(locationHandle := h) else c, k)
    case OtherResult => State(c, k)
    case QueryComplete(success) => Complete(c, k, success)
  }

  // ----- what every run keeps

  /** The script: service, measurement characteristic, notifications, location characteristic, location. */
  function Script(i: nat): Query {
    if i == 0 then DiscoverService
    else if i == 1 then DiscoverMeasurement
    else if i == 2 then WriteConfiguration
    else if i == 3 then DiscoverLocation
    else ReadLocation
  }

  /** How many queries have been issued when a state is reached. */
  function Position(app: AppState): nat {
    match app
    case W4ServiceResult => 1
    case W2QueryMeasurement => 1
    case W4Measurement => 2
    case W2EnableNotifications => 2
    case W4EnableNotificationsComplete => 3
    case W2QueryLocationCharacteristic => 3
    case W4LocationCharacteristic => 4
    case W2QueryLocation => 4
    case W4Location => 5
    case _ => 0
  }

  predicate FollowsScript(app: AppState, issued: seq<Query>) {
    && (forall i :: 0 <= i < |issued| ==> issued[i] == Script(i))
    && (W2(app) || W4(app) ==> |issued| == Position(app))
    && (app == Connected ==> 4 <= |issued| <= 5)
    && |issued| <= 5
  }

  predicate W2(app: AppState) {
    || app == W2QueryService || app == W2QueryMeasurement || app == W2EnableNotifications
    || app == W2QueryLocationCharacteristic || app == W2QueryLocation
  }

  predicate W4(app: AppState) {
    || app == W4ServiceResult || app == W4Measurement || app == W4EnableNotificationsComplete
    || app == W4LocationCharacteristic || app == W4Location
  }

  /** States in which the measurement characteristic has been found. */
  predicate Found(app: AppState) {
    || app == W2EnableNotifications || app == W4EnableNotificationsComplete || app == W2QueryLocationCharacteristic
    || app == W4LocationCharacteristic || app == W2QueryLocation || app == W4Location || app == Connected
  }

  function Last(handles: seq<nat>): nat {
    if handles == [] then 0 else handles[|handles| - 1]
  }

  predicate Inv(s: State) {
    var c, k := s.client, s.stack;
    && !k.assertionFailed
    && k.attempts == Count(c.app == W4Connect)
    && k.pending == Count(k.linked && W2(c.app))
    && k.queries == Count(k.linked && W4(c.app) && !k.disconnecting)
    && (k.linked ==> W2(c.app) || W4(c.app) || c.app == Connected)
    && (W2(c.app) || c.app == Connected ==> !k.disconnecting)
    && FollowsScript(c.app, k.issued)
    && (c.listenerRegistered <==> k.linked && Found(c.app))
    && k.listeners == Count(c.listenerRegistered)
    && c.locationHandle == Last(k.locations)
    && k.ownLocations <= |k.locations|
  }

  lemma {:induction false} CanSendKeeps(s: State)
    requires Inv(s) && s.stack.pending > 0
    ensures Inv(Step(s, CanSend))
  {
    var k := s.stack.(pending := 0);
    assert Step(s, CanSend) == SendNext(s.client, k);
    hide Step, Deliver;
    match s.client.app
    case W2QueryService =>
    case W2QueryMeasurement =>
    case W2EnableNotifications =>
    case W2QueryLocationCharacteristic =>
    case W2QueryLocation =>
  }

  lemma {:induction false} CompleteKeeps(s: State, success: bool)
    requires Inv(s) && s.stack.queries > 0
    ensures Inv(Step(s, QueryComplete(success)))
  {
    var k := s.stack.(queries := 0);
    assert Step(s, QueryComplete(success)) == Complete(s.client, k, success);
    hide Step, Deliver, Script;
    match s.client.app
    case W4ServiceResult =>
    case W4Measurement =>
    case W4EnableNotificationsComplete =>
    case W4LocationCharacteristic =>
    case W4Location =>
  }

  lemma {:induction false} LostKeeps(s: State)
    requires Inv(s) && s.stack.linked
    ensures Inv(Step(s, Disconnected))
  {
  }

  lemma {:induction false} OthersKeep(s: State, e: Event)
    requires Inv(s) && Possible(s, e) && !e.CanSend? && !e.QueryComplete? && !e.Disconnected?
    ensures Inv(Step(s, e))
  {
    hide SendNext, Complete, Lost, Script;
  }

  /** One event keeps the invariant. */
  lemma {:induction false} StepKeeps(s: State, e: Event)
    requires Inv(s) && Possible(s, e)
    ensures Inv(Step(s, e))
  {
    hide Inv, Step;
    match e
    case CanSend =>
      CanSendKeeps(s);
    case QueryComplete(success) =>
      CompleteKeeps(s, success);
    case Disconnected =>
      LostKeeps(s);
    case _ =>
      OthersKeep(s, e);
  }

  // ----- runs

  function After(fixedPeer: bool, events: seq<Event>, n: nat): State
    requires n <= |events|
  {
    if n == 0 then Initial(fixedPeer) else Step(After(fixedPeer, events, n - 1), events[n - 1])
  }

  /** Each of the first n events is possible where it happens. */
  ghost predicate Feasible(fixedPeer: bool, events: seq<Event>, n: nat)
    requires n <= |events|
  {
    n > 0 ==> Feasible(fixedPeer, events, n - 1) && Possible(After(fixedPeer, events, n - 1), events[n - 1])
  }

  lemma {:induction false} Starts(fixedPeer: bool, events: seq<Event>)
    ensures Inv(After(fixedPeer, events, 0))
  {
  }

  lemma {:induction false} Latest(fixedPeer: bool, events: seq<Event>, n: nat)
    requires 0 < n <= |events| && Feasible(fixedPeer, events, n)
    ensures After(fixedPeer, events, n) == Step(After(fixedPeer, events, n - 1), events[n - 1])
    ensures Feasible(fixedPeer, events, n - 1) && Possible(After(fixedPeer, events, n - 1), events[n - 1])
  {
    hide Step, Possible;
  }

  /** Every reachable state, across any number of reconnections. */
  lemma {:induction false} RunKeeps(fixedPeer: bool, events: seq<Event>, n: nat)
    requires n <= |events| && Feasible(fixedPeer, events, n)
    ensures Inv(After(fixedPeer, events, n))
  {
    hide *;
    if n == 0 {
      Starts(fixedPeer, events);
    } else {
      Latest(fixedPeer, events, n);
      RunKeeps(fixedPeer, events, n - 1);
      StepKeeps(After(fixedPeer, events, n - 1), events[n - 1]);
    }
  }

  /** At most one send request or query is under way, and while the link is up there is exactly one unless the
      script is finished or a disconnect was asked for. The callback's assertion never fails, the listener is
      registered at most once, which is what listener_registered tells, and the queries issued on a connection
      are the beginning of the script. */
  lemma {:induction false} Safe(fixedPeer: bool, events: seq<Event>, n: nat)
    requires n <= |events| && Feasible(fixedPeer, events, n)
    ensures var s := After(fixedPeer, events, n);
            && s.stack.pending + s.stack.queries <= 1
            && (s.stack.linked && s.client.app != Connected && !s.stack.disconnecting ==>
                  s.stack.pending + s.stack.queries == 1)
            && (s.stack.pending > 0 ==> W2(s.client.app))
            && !s.stack.assertionFailed
            && s.stack.listeners == (if s.client.listenerRegistered then 1 else 0)
            && s.stack.issued <=
               [DiscoverService, DiscoverMeasurement, WriteConfiguration, DiscoverLocation, ReadLocation]
  {
    RunKeeps(fixedPeer, events, n);
    ScriptPrefix(After(fixedPeer, events, n).stack.issued);
    hide After, Feasible;
  }

  lemma {:induction false} ScriptPrefix(issued: seq<Query>)
    requires |issued| <= 5 && forall i :: 0 <= i < |issued| ==> issued[i] == Script(i)
    ensures issued <= [DiscoverService, DiscoverMeasurement, WriteConfiguration, DiscoverLocation, ReadLocation]
  {
  }

  /** The location is read when the most recent location result of the whole run had a handle: the handle is
      kept over reconnections. So a device is asked for its location exactly when it reported the characteristic,
      if and only if it reported something or nothing is left over from before. */
  lemma {:induction false} LocationRead(fixedPeer: bool, events: seq<Event>, n: nat)
    requires n < |events| && Feasible(fixedPeer, events, n) && events[n] == QueryComplete(true)
    requires After(fixedPeer, events, n).client.app == W4LocationCharacteristic
    ensures var k := After(fixedPeer, events, n).stack;
            var reported := k.ownLocations > 0 && Last(k.locations) != 0;
            var read := After(fixedPeer, events, n + 1).client.app == W2QueryLocation;
            (read <==> reported) <==> (k.ownLocations > 0 || Last(k.locations) == 0)
  {
    RunKeeps(fixedPeer, events, n);
  }

  /** A query that is sent and succeeds without a result. */
  function Round(s: State): State {
    Step(Step(s, CanSend), QueryComplete(true))
  }

  function Next(c: Client): AppState {
    match c.app
    case W2QueryService => W2QueryMeasurement
    case W2QueryMeasurement => W2EnableNotifications
    case W2EnableNotifications => W2QueryLocationCharacteristic
    case W2QueryLocationCharacteristic => if c.locationHandle != 0 then W2QueryLocation else Connected
    case _ => Connected
  }

  lemma {:induction false} RoundProceeds(s: State)
    requires Inv(s) && s.stack.linked && W2(s.client.app)
    ensures Inv(Round(s)) && Round(s).stack.linked
    ensures Round(s).client.app == Next(s.client) && Round(s).client.locationHandle == s.client.locationHandle
    ensures Round(s).stack.ownLocations == s.stack.ownLocations
  {
    hide Inv, FollowsScript, Found;
    var t := Step(s, CanSend);
    Facts(s);
    StepKeeps(s, CanSend);
    Facts(t);
    StepKeeps(t, QueryComplete(true));
  }

  /** Such a leftover does happen: if a connection is lost after its device reported handle `h`, the next device,
      which reports no location characteristic at all, is nevertheless asked for a location if h is not 0. */
  lemma {:induction false} LocationOfAnotherDevice(s: State, h: nat)
    requires Inv(s) && !s.client.fixedPeer && s.client.app == W4LocationCharacteristic && s.stack.queries > 0
    ensures var lost := Step(Step(s, CharacteristicResult(h)), Disconnected);
            var again := Step(Step(lost, Advertisement(true)), ConnectionComplete(true));
            var t := Round(Round(Round(Round(again))));
            t.client.app == (if h != 0 then W2QueryLocation else Connected) && t.stack.ownLocations == 0
  {
    var r := Step(s, CharacteristicResult(h));
    StepKeeps(s, CharacteristicResult(h));
    var lost := Step(r, Disconnected);
    StepKeeps(r, Disconnected);
    var found := Step(lost, Advertisement(true));
    StepKeeps(lost, Advertisement(true));
    var again := Step(found, ConnectionComplete(true));
    StepKeeps(found, ConnectionComplete(true));
    assert again.client.app == W2QueryService && again.client.locationHandle == h;
    hide Step, Inv, Round;
    RoundProceeds(again);
    RoundProceeds(Round(again));
    RoundProceeds(Round(Round(again)));
    RoundProceeds(Round(Round(Round(again))));
  }

  // ----- queries are earned by success

  /** Whether the queries completed so far on the current connection succeeded, as the events tell it. */
  function Outcomes(events: seq<Event>, n: nat): seq<bool>
    requires n <= |events|
  {
    if n == 0 then []
    else match events[n - 1]
      case ConnectionComplete(_) => []
      case QueryComplete(success) => Outcomes(events, n - 1) + [success]
      case _ => Outcomes(events, n - 1)
  }

  /** The client goes on after a success, and after any outcome of the third query; it asks for a disconnect after a
      failure of the first or second; the location is read only after a success of the fourth. */
  predicate Earned(app: AppState, disconnecting: bool, outcomes: seq<bool>) {
    var n := |outcomes|;
    && (W2(app) || W4(app) ==> n == Position(app) - if W4(app) && !disconnecting then 1 else 0)
    && (disconnecting ==> 1 <= n <= 2 && !outcomes[n - 1])
    && (forall i :: 0 <= i < n && i < 2 && !outcomes[i] ==> disconnecting && i == n - 1)
    && (app == W2QueryLocation || app == W4Location ==> outcomes[3])
    && (app == Connected ==> n == 4 || (n == 5 && outcomes[3]))
  }

  lemma {:induction false} StepEarns(s: State, e: Event, before: seq<bool>, after: seq<bool>)
    requires Inv(s) && Possible(s, e) && (s.stack.linked ==> Earned(s.client.app, s.stack.disconnecting, before))
    requires after == match e
                      case ConnectionComplete(_) => []
                      case QueryComplete(success) => before + [success]
                      case _ => before
    ensures var t := Step(s, e); t.stack.linked ==> Earned(t.client.app, t.stack.disconnecting, after)
  {
    Facts(s);
    hide Inv, FollowsScript, Found;
  }

  /** In every run the state reached on a connection is earned by the outcomes of its queries. */
  lemma {:induction false} QueriesEarned(fixedPeer: bool, events: seq<Event>, n: nat)
    requires n <= |events| && Feasible(fixedPeer, events, n)
    ensures var s := After(fixedPeer, events, n);
            s.stack.linked ==> Earned(s.client.app, s.stack.disconnecting, Outcomes(events, n))
  {
    if n > 0 {
      hide Step, Earned, Inv, Possible, Feasible;
      Latest(fixedPeer, events, n);
      RunKeeps(fixedPeer, events, n - 1);
      QueriesEarned(fixedPeer, events, n - 1);
      StepEarns(After(fixedPeer, events, n - 1), events[n - 1], Outcomes(events, n - 1), Outcomes(events, n));
    }
  }

  /** While scanning, a connection attempt starts exactly with an advertisement of the heart rate service. */
  lemma {:induction false} ScanEnds(fixedPeer: bool, events: seq<Event>, n: nat)
    requires 0 < n <= |events| && Feasible(fixedPeer, events, n)
    requires After(fixedPeer, events, n - 1).client.app == W4ScanResult
    ensures var k, t := After(fixedPeer, events, n - 1).stack, After(fixedPeer, events, n);
            && k.attempts == 0 && (t.stack.attempts == 1 <==> events[n - 1] == Advertisement(true))
            && (t.client.app == W4Connect <==> events[n - 1] == Advertisement(true))
  {
    hide *;
    Latest(fixedPeer, events, n);
    RunKeeps(fixedPeer, events, n - 1);
    StepFromScan(After(fixedPeer, events, n - 1), events[n - 1]);
  }

  lemma {:induction false} StepFromScan(s: State, e: Event)
    requires Inv(s) && Possible(s, e) && s.client.app == W4ScanResult
    ensures s.stack.attempts == 0 && (Step(s, e).stack.attempts == 1 <==> e == Advertisement(true))
    ensures Step(s, e).client.app == W4Connect <==> e == Advertisement(true)
  {
    Facts(s);
    hide Inv, FollowsScript, Found;
  }

  // ----- failed attempts

  /** The client waits for permission to query on a link that does not exist. */
  predicate Stuck(s: State) {
    s.client.app == W2QueryService && !s.stack.linked
  }

  /** What has led there: a failed attempt, whose status is not looked at, or, for a fixed peer, the loss of a link in
      that state. */
  ghost predicate Failed(fixedPeer: bool, events: seq<Event>, n: nat)
    requires n <= |events|
  {
    n > 0 && (Failed(fixedPeer, events, n - 1) || Fails(After(fixedPeer, events, n - 1), events[n - 1]))
  }

  predicate Fails(s: State, e: Event) {
    e == ConnectionComplete(false) || (e == Disconnected && s.client.fixedPeer && s.client.app == W2QueryService)
  }

  lemma {:induction false} StuckNext(s: State, e: Event)
    requires Inv(s) && Possible(s, e)
    ensures Stuck(Step(s, e)) <==> Stuck(s) || Fails(s, e)
    ensures Stuck(s) ==> Step(s, e).client == s.client
  {
  }

  /** In every run the client is stuck exactly if an attempt failed, or a fixed peer was lost before the first query. */
  lemma {:induction false} StuckExactly(fixedPeer: bool, events: seq<Event>, n: nat)
    requires n <= |events| && Feasible(fixedPeer, events, n)
    ensures Stuck(After(fixedPeer, events, n)) <==> Failed(fixedPeer, events, n)
  {
    if n == 0 {
      assert After(fixedPeer, events, 0) == Initial(fixedPeer);
    } else {
      hide Step, Stuck, Fails, Possible, Inv, Feasible;
      Latest(fixedPeer, events, n);
      RunKeeps(fixedPeer, events, n - 1);
      StuckExactly(fixedPeer, events, n - 1);
      StuckNext(After(fixedPeer, events, n - 1), events[n - 1]);
    }
  }

  lemma {:induction false} PeerConstant(fixedPeer: bool, events: seq<Event>, n: nat)
    requires n <= |events|
    ensures After(fixedPeer, events, n).client.fixedPeer == fixedPeer
  {
    hide Deliver, Possible;
    if n > 0 {
      PeerConstant(fixedPeer, events, n - 1);
    }
  }

  /** For a scanning client that means: exactly if some attempt failed. */
  lemma {:induction false} ScanningStuckExactly(events: seq<Event>, n: nat)
    requires n <= |events| && Feasible(false, events, n)
    ensures Stuck(After(false, events, n)) <==> exists i :: 0 <= i < n && events[i] == ConnectionComplete(false)
  {
    StuckExactly(false, events, n);
    FailedScanning(events, n);
    hide Stuck, Failed;
  }

  lemma {:induction false} FailedNext(events: seq<Event>, n: nat)
    requires n <= |events|
    ensures Failed(false, events, n) <==>
            n > 0 && (Failed(false, events, n - 1) || events[n - 1] == ConnectionComplete(false))
  {
    hide After, Step;
    if n > 0 {
      PeerConstant(false, events, n - 1);
    }
  }

  lemma {:induction false} FailedScanning(events: seq<Event>, n: nat)
    requires n <= |events|
    ensures Failed(false, events, n) <==> exists i :: 0 <= i < n && events[i] == ConnectionComplete(false)
  {
    FailedNext(events, n);
    hide *;
    if n > 0 {
      FailedScanning(events, n - 1);
    }
  }

  /** And nothing the client does changes any more, however long the run goes on. */
  lemma {:induction false} StuckForGood(fixedPeer: bool, events: seq<Event>, m: nat, n: nat)
    requires m <= n <= |events| && Feasible(fixedPeer, events, n) && Stuck(After(fixedPeer, events, m))
    ensures Stuck(After(fixedPeer, events, n))
    ensures After(fixedPeer, events, n).client == After(fixedPeer, events, m).client
  {
    if m < n {
      hide Step, Stuck, Fails, Possible, Inv, Feasible;
      Latest(fixedPeer, events, n);
      RunKeeps(fixedPeer, events, n - 1);
      StuckForGood(fixedPeer, events, m, n - 1);
      StuckNext(After(fixedPeer, events, n - 1), events[n - 1]);
    }
  }

  // ----- a run with a leftover

  /** Two connections; only the first device reports a location characteristic. */
  const LEFTOVER_RUN: seq<Event> := [
    Working, Advertisement(true), ConnectionComplete(true), CanSend, QueryComplete(true), CanSend, QueryComplete(true),
    CanSend, QueryComplete(true), CanSend, CharacteristicResult(9), Disconnected, Advertisement(true),
    ConnectionComplete(true), CanSend, QueryComplete(true), CanSend, QueryComplete(true), CanSend, QueryComplete(true),
    CanSend, QueryComplete(true)]

  /** A feasible beginning that ends in a state with a request to send, and has a location handle. */
  ghost predicate Ahead(e: seq<Event>, n: nat, app: AppState, handle: nat) {
    && n <= |e| && Feasible(false, e, n)
    && var s := After(false, e, n);
       && Inv(s) && s.stack.linked && s.stack.ownLocations == 0
       && s.client.app == app && s.client.locationHandle == handle
  }

  lemma {:induction false} FeasibleNext(e: seq<Event>, n: nat)
    requires 0 < n <= |e| && Feasible(false, e, n - 1) && Possible(After(false, e, n - 1), e[n - 1])
    requires Inv(After(false, e, n - 1))
    ensures Feasible(false, e, n) && After(false, e, n) == Step(After(false, e, n - 1), e[n - 1])
    ensures Inv(After(false, e, n))
  {
    StepKeeps(After(false, e, n - 1), e[n - 1]);
    hide Step, Possible, Inv;
  }

  /** One more query that is sent and succeeds without a result. */
  lemma {:induction false} AheadOneRound(e: seq<Event>, n: nat, app: AppState, next: AppState, handle: nat)
    requires Ahead(e, n, app, handle) && W2(app) && n + 2 <= |e| && e[n] == CanSend && e[n + 1] == QueryComplete(true)
    requires forall c: Client :: c.app == app && c.locationHandle == handle ==> Next(c) == next
    ensures Ahead(e, n + 2, next, handle)
  {
    var s := After(false, e, n);
    RoundProceeds(s);
    RoundPossible(s);
    assert Feasible(false, e, n) && Round(s) == Step(Step(s, CanSend), QueryComplete(true));
    hide Step, Inv, Round, Possible, Feasible, Next;
    FeasibleNext(e, n + 1);
    FeasibleNext(e, n + 2);
  }

  lemma {:induction false} RoundPossible(s: State)
    requires Inv(s) && s.stack.linked && W2(s.client.app)
    ensures Possible(s, CanSend) && Possible(Step(s, CanSend), QueryComplete(true))
  {
    var t := Step(s, CanSend);
    StepKeeps(s, CanSend);
    assert W4(t.client.app) && t.stack.queries > 0;
  }

  lemma {:induction false} Begins(e: seq<Event>)
    requires |e| >= 3 && e[0] == Working && e[1] == Advertisement(true) && e[2] == ConnectionComplete(true)
    ensures Ahead(e, 3, W2QueryService, 0)
  {
    Starts(false, e);
    assert After(false, e, 0) == Initial(false) && Feasible(false, e, 0);
    hide After, Feasible, Inv;
    FeasibleNext(e, 1);
    FeasibleNext(e, 2);
    var s := After(false, e, 2);
    assert s.client.app == W4Connect && s.client.locationHandle == 0 && s.stack.attempts == 1;
    FeasibleNext(e, 3);
  }

  lemma {:induction false} FirstDevice(e: seq<Event>)
    requires |e| >= 9 && Ahead(e, 3, W2QueryService, 0)
    requires forall k :: 3 <= k < 9 ==> e[k] == if k % 2 == 1 then CanSend else QueryComplete(true)
    ensures Ahead(e, 9, W2QueryLocationCharacteristic, 0)
  {
    hide Step, Inv, Possible, Ahead, After, Feasible;
    AheadOneRound(e, 3, W2QueryService, W2QueryMeasurement, 0);
    AheadOneRound(e, 5, W2QueryMeasurement, W2EnableNotifications, 0);
    AheadOneRound(e, 7, W2EnableNotifications, W2QueryLocationCharacteristic, 0);
  }

  /** It has reported handle 9. */
  ghost predicate Reported(e: seq<Event>) {
    && |e| >= 11 && Feasible(false, e, 11)
    && var t := After(false, e, 11);
       Inv(t) && t.stack.linked && t.client.locationHandle == 9
  }

  lemma {:induction false} HandleFound(s: State, handle: nat)
    requires Inv(s) && s.stack.linked && s.client.app == W2QueryLocationCharacteristic && handle > 0
    ensures var t := Step(s, CanSend);
            var u := Step(t, CharacteristicResult(handle));
            && Possible(s, CanSend) && Possible(t, CharacteristicResult(handle))
            && u.stack.linked && u.client.locationHandle == handle
  {
    Facts(s);
    hide Inv, FollowsScript, Found;
  }

  lemma {:induction false} HandleReported(e: seq<Event>)
    requires |e| >= 11 && Ahead(e, 9, W2QueryLocationCharacteristic, 0)
    requires e[9] == CanSend && e[10] == CharacteristicResult(9)
    ensures Reported(e)
  {
    HandleFound(After(false, e, 9), 9);
    hide After, Feasible, Inv, Step, Possible;
    FeasibleNext(e, 10);
    FeasibleNext(e, 11);
  }

  lemma {:induction false} AnotherFound(s: State)
    requires Inv(s) && s.stack.linked && !s.client.fixedPeer
    ensures var t := Step(s, Disconnected);
            var u := Step(t, Advertisement(true));
            var v := Step(u, ConnectionComplete(true));
            && Possible(s, Disconnected) && Possible(t, Advertisement(true)) && Possible(u, ConnectionComplete(true))
            && v.stack.linked && v.stack.ownLocations == 0 && v.client.app == W2QueryService
            && v.client.locationHandle == s.client.locationHandle
  {
    Facts(s);
    hide Inv, FollowsScript, Found;
  }

  /** It is lost, and another one is found. */
  lemma {:induction false} DeviceChange(e: seq<Event>)
    requires |e| >= 14 && Reported(e)
    requires e[11] == Disconnected && e[12] == Advertisement(true) && e[13] == ConnectionComplete(true)
    ensures Ahead(e, 14, W2QueryService, 9)
  {
    PeerConstant(false, e, 11);
    AnotherFound(After(false, e, 11));
    hide After, Feasible, Inv, Step, Possible;
    FeasibleNext(e, 12);
    FeasibleNext(e, 13);
    FeasibleNext(e, 14);
  }

  /** The second device is asked for its location although it never reported a characteristic. */
  lemma {:induction false} LeftoverRead()
    ensures Feasible(false, LEFTOVER_RUN, 22) && After(false, LEFTOVER_RUN, 22).client.app == W2QueryLocation
    ensures After(false, LEFTOVER_RUN, 22).stack.ownLocations == 0
  {
    var e := LEFTOVER_RUN;
    hide After, Feasible, Step, Inv, Possible;
    Begins(e);
    FirstDevice(e);
    HandleReported(e);
    DeviceChange(e);
    SecondRounds(e);
  }

  lemma {:induction false} SecondRounds(e: seq<Event>)
    requires |e| == 22 && Ahead(e, 14, W2QueryService, 9)
    requires forall k :: 14 <= k < 22 ==> e[k] == if k % 2 == 0 then CanSend else QueryComplete(true)
    ensures Ahead(e, 22, W2QueryLocation, 9)
  {
    hide Ahead, After, Feasible;
    AheadOneRound(e, 14, W2QueryService, W2QueryMeasurement, 9);
    AheadOneRound(e, 16, W2QueryMeasurement, W2EnableNotifications, 9);
    AheadOneRound(e, 18, W2EnableNotifications, W2QueryLocationCharacteristic, 9);
    AheadOneRound(e, 20, W2QueryLocationCharacteristic, W2QueryLocation, 9);
  }

  /** What the invariant says about the stack, state by state. */
  lemma {:induction false} Facts(s: State)
    requires Inv(s)
    ensures var app, k := s.client.app, s.stack;
            && k.attempts == Count(app == W4Connect)
            && k.pending == Count(k.linked && W2(app)) && k.queries == Count(k.linked && W4(app) && !k.disconnecting)
            && k.listeners == Count(s.client.listenerRegistered)
            && (k.linked ==> W2(app) || W4(app) || app == Connected)
            && (W2(app) || W4(app) ==> |k.issued| == Position(app))
            && (W2(app) || app == Connected ==> !k.disconnecting)
  {
  }

  // ----- the program

  class HeartRate {
    const fixedPeer: bool
    var app: AppState
    var listenerRegistered: bool
    var locationHandle: nat
    ghost var stack: Stack

    ghost function View(): State
      reads this
    {
      State(Client(fixedPeer, app, listenerRegistered, locationHandle), stack)
    }

    constructor (fixedPeer: bool)
      ensures View() == Initial(fixedPeer) && Inv(View())
    {
      this.fixedPeer, app, listenerRegistered, locationHandle := fixedPeer, Idle, false, 0;
      stack := Stack(0, false, 0, 0, 0, false, [], [], 0, false);
    }

    /** gatt_heart_rate_client_start: one attempt to reach the fixed peer, or a scan. */
    method StartClient()
      requires stack.attempts == 0
      modifies this`app, this`stack
      ensures app == (if fixedPeer then W4Connect else W4ScanResult)
      ensures stack == old(stack).(attempts := Count(fixedPeer))
    {
      if fixedPeer {
        app := W4Connect;
        stack := stack.(attempts := stack.attempts + 1);
      } else {
        app := W4ScanResult;
      }
    }

    /** gatt_heart_rate_client_send_next_query, called back for a pending request: the request becomes one query, the
        next one of the script; the assertion holds. */
    method SendNextQuery()
      requires Inv(View()) && stack.pending > 0
      modifies this
      ensures View() == Step(old(View()), CanSend) && Inv(View())
      ensures stack.pending == 0 && stack.queries == 1
      ensures stack.issued == old(stack.issued) + [Script(|old(stack.issued)|)]
    {
      StepKeeps(View(), CanSend);
      Facts(View());
      hide Inv, W4, FollowsScript;
      stack := Deliver(View(), CanSend);
      match app {
        case W2QueryService =>
          app := W4ServiceResult;
          stack := Issue(stack, DiscoverService);
        case W2QueryMeasurement =>
          app := W4Measurement;
          stack := Issue(stack, DiscoverMeasurement);
        case W2EnableNotifications =>
          app := W4EnableNotificationsComplete;
          stack := Issue(stack, WriteConfiguration);
        case W2QueryLocationCharacteristic =>
          app := W4LocationCharacteristic;
          stack := Issue(stack, DiscoverLocation);
        case W2QueryLocation =>
          app := W4Location;
          stack := Issue(stack, ReadLocation);
        case _ =>
          assert false;
      }
    }

    /** GATT_EVENT_QUERY_COMPLETE in handle_gatt_client_event: one request follows, or the script ends, or a disconnect
        is asked for; a listener is registered at most once. */
    method OnQueryComplete(success: bool)
      requires Inv(View()) && stack.queries > 0
      modifies this
      ensures View() == Step(old(View()), QueryComplete(success)) && Inv(View())
      ensures stack.queries == 0 && stack.pending + Count(app == Connected) + Count(stack.disconnecting) == 1
      ensures stack.listeners == Count(listenerRegistered)
    {
      hide Inv, FollowsScript, Found;
      StepKeeps(View(), QueryComplete(success));
      Facts(View());
      Facts(Step(View(), QueryComplete(success)));
      stack := Deliver(View(), QueryComplete(success));
      match app {
        case W4ServiceResult =>
          if !success {
            stack := stack.(disconnecting := true);
          } else {
            app := W2QueryMeasurement;
            stack := RequestToSend(stack);
          }
        case W4Measurement =>
          if !success {
            stack := stack.(disconnecting := true);
          } else {
            listenerRegistered := true;
            stack := Listen(stack);
            app := W2EnableNotifications;
            stack := RequestToSend(stack);
          }
        case W4EnableNotificationsComplete =>
          app := W2QueryLocationCharacteristic;
          stack := RequestToSend(stack);
        case W4LocationCharacteristic =>
          if !success || locationHandle == 0 {
            app := Connected;
          } else {
            app := W2QueryLocation;
            stack := RequestToSend(stack);
          }
        case W4Location =>
          app := Connected;
        case _ =>
      }
    }

    /** Results in handle_gatt_client_event. */
    method OnResult(e: Event)
      requires Inv(View()) && Possible(View(), e) && (e.CharacteristicResult? || e.OtherResult?)
      modifies this
      ensures View() == Step(old(View()), e) && Inv(View())
    {
      StepKeeps(View(), e);
      hide Inv, FollowsScript, W2, W4, Found;
      stack := Deliver(View(), e);
      if app == W4LocationCharacteristic && e.CharacteristicResult? {
        locationHandle := e.valueHandle;
      }
    }

    /** hci_event_handler: a disconnection leaves nothing registered or under way. */
    method OnHciEvent(e: Event)
      requires Inv(View()) && Possible(View(), e)
      requires e.Working? || e.Advertisement? || e.ConnectionComplete? || e.Disconnected?
      modifies this
      ensures View() == Step(old(View()), e) && Inv(View())
      ensures e.Disconnected? ==> !listenerRegistered && stack.listeners + stack.pending + stack.queries == 0
    {
      StepKeeps(View(), e);
      Facts(View());
      hide Inv, FollowsScript, W2, W4, Found;
      stack := Deliver(View(), e);
      match e {
        case Working =>
          StartClient();
        case Advertisement(hasHeartRateService) =>
          if app != W4ScanResult || !hasHeartRateService {
            return;
          }
          app := W4Connect;
          stack := stack.(attempts := stack.attempts + 1);
        case ConnectionComplete(_) =>
          if app != W4Connect {
            return;
          }
          app := W2QueryService;
          stack := RequestToSend(stack);
        case Disconnected =>
          if listenerRegistered {
            listenerRegistered := false;
            stack := StopListening(stack);
          }
          if fixedPeer {
            return;
          }
          StartClient();
      }
    }
  }
}
