/** The notification scheduler of gatt_streamer_server.c: a table of connections of any size, served round robin. */
module StreamerServer {
  type Handle = nat

  const INVALID: Handle := 0xffff

  datatype Connection = Connection(handle: Handle, enabled: bool)

  datatype Event =
    | Connected(handle: Handle)
    | Disconnected(handle: Handle)
    | WriteConfiguration(handle: Handle, notify: bool)
    | CanSendNow(handle: Handle)

  /** The table, the round robin index, the connections whose can-send event is requested, those that found the
      table full, the slots served so far, and whether a write had no table entry to go to. */
  datatype State = State(
    table: seq<Connection>, index: nat, requested: set<Handle>, ignored: set<Handle>, served: seq<nat>,
    nullContext: bool)

  function Initial(n: nat): State {
    State(seq(n, i => Connection(INVALID, false)), 0, {}, {}, [], false)
  }

  predicate Active(c: Connection) {
    c.handle != INVALID && c.enabled
  }

  /** connection_for_conn_handle: the first entry with that handle. */
  function Lookup(table: seq<Connection>, handle: Handle, i: nat): (r: nat)
    requires i <= |table|
    ensures i <= r <= |table|
    ensures forall k :: i <= k < r ==> table[k].handle != handle
    ensures r < |table| ==> table[r].handle == handle
    decreases |table| - i
  {
    if i == |table| || table[i].handle == handle then i else Lookup(table, handle, i + 1)
  }

  /** The slot k places after `start`. */
  function Around(start: nat, k: nat, n: nat): (i: nat)
    requires start < n && k <= n
    ensures i < n
  {
    if start + k < n then start + k else start + k - n
  }

  /** How many places after slot i slot j comes. */
  function Distance(i: nat, j: nat, n: nat): (d: nat)
    requires i < n && j < n
    ensures d < n && Around(i, d, n) == j
  {
    if i <= j then j - i else j + n - i
  }

  /** Offset of the first active slot at or after offset k, cyclically from `start`; n if there is none. */
  function Seek(table: seq<Connection>, start: nat, k: nat): (r: nat)
    requires start < |table| && k <= |table|
    ensures k <= r <= |table|
    ensures forall m :: k <= m < r ==> !Active(table[Around(start, m, |table|)])
    ensures r < |table| ==> Active(table[Around(start, r, |table|)])
    decreases |table| - k
  {
    if k == |table| || Active(table[Around(start, k, |table|)]) then k else Seek(table, start, k + 1)
  }

  function Streamed(s: State): (t: State)
    requires s.index < |s.table|
    ensures t.index < |t.table| == |s.table|
  {
    var n := |s.table|;
    var k := Seek(s.table, s.index, 0);
    if k == n then s
    else
      var i := Around(s.index, k, n);
      s.(index := Around(i, 1, n), requested := s.requested + {s.table[i].handle}, served := s.served + [i])
  }

  function Step(s: State, e: Event): (t: State)
    requires s.index < |s.table|
    ensures t.index < |t.table| == |s.table|
  {
    match e
    case Connected(h) =>
      var i := Lookup(s.table, INVALID, 0);
      if i == |s.table| then s.(ignored := s.ignored + {h})
      else s.(table := s.table[i := s.table[i].(handle := h)])
    case Disconnected(h) =>
      var i := Lookup(s.table, h, 0);
      var s1 := s.(requested := s.requested - {h}, ignored := s.ignored - {h});
      if i == |s.table| then s1 else s1.(table := s.table[i := Connection(INVALID, false)])
    case WriteConfiguration(h, notify) =>
      var i := Lookup(s.table, h, 0);
      if i == |s.table| then s.(nullContext := true)
      else s.(table := s.table[i := s.table[i].(enabled := notify)],
              requested := if notify then s.requested + {h} else s.requested)
    case CanSendNow(h) => Streamed(s.(requested := s.requested - {h}))
  }

  // ----- what every run keeps

  predicate Live(s: State, h: Handle) {
    exists i :: 0 <= i < |s.table| && s.table[i].handle == h
  }

  /** The stack reports a connection with a handle that is not in use, and events only for connections. */
  predicate Possible(s: State, e: Event) {
    && e.handle != INVALID
    && match e
       case Connected(h) => !Live(s, h) && h !in s.ignored
       case Disconnected(h) => Live(s, h) || h in s.ignored
       case WriteConfiguration(h, _) => Live(s, h) || h in s.ignored
       case CanSendNow(h) => h in s.requested
  }

  /** Handles in the table are distinct, free slots are disabled, and the table and the ignored connections are
      disjoint. */
  ghost predicate Inv(s: State) {
    && s.index < |s.table|
    && (forall i, j :: 0 <= i < j < |s.table| && s.table[i].handle == s.table[j].handle ==>
          s.table[i].handle == INVALID)
    && (forall i :: 0 <= i < |s.table| && s.table[i].handle == INVALID ==> !s.table[i].enabled)
    && (forall i :: 0 <= i < |s.table| ==> s.table[i].handle !in s.ignored)
    && INVALID !in s.ignored && INVALID !in s.requested
  }

  lemma {:induction false} TableKeeps(s: State, e: Event)
    requires Inv(s) && Possible(s, e) && !e.CanSendNow?
    ensures Inv(Step(s, e))
  {
    hide Seek, Streamed, Around;
    var i := Lookup(s.table, if e.Connected? then INVALID else e.handle, 0);
    assert forall h :: h in Step(s, e).ignored ==> h in s.ignored || (e.Connected? && i == |s.table| && h == e.handle);
  }

  /** One event keeps the invariant. */
  lemma {:induction false} StepKeeps(s: State, e: Event)
    requires Inv(s) && Possible(s, e)
    ensures Inv(Step(s, e))
  {
    if !e.CanSendNow? {
      hide Step;
      TableKeeps(s, e);
    }
  }

  /** A write finds no entry exactly if its connection came when the table was full. */
  lemma {:induction false} WriteMisses(s: State, h: Handle, notify: bool)
    requires Inv(s) && Possible(s, WriteConfiguration(h, notify)) && !s.nullContext
    ensures Step(s, WriteConfiguration(h, notify)).nullContext <==> h in s.ignored
  {
    var i := Lookup(s.table, h, 0);
  }

  // ----- the search

  /** The slot served is active, and no active slot comes before it in cyclic order; nothing is served only if
      nothing is active. */
  lemma {:induction false} ServesFirst(s: State, j: nat)
    requires Inv(s) && j < |s.table| && Active(s.table[j])
    ensures var t := Streamed(s);
            && |t.served| == |s.served| + 1 && s.served <= t.served && t.table == s.table
            && var i := t.served[|s.served|];
               && i < |s.table| && Active(s.table[i]) && t.index == Around(i, 1, |s.table|)
               && t.requested == s.requested + {s.table[i].handle}
               && Distance(s.index, i, |s.table|) <= Distance(s.index, j, |s.table|)
               && (i != j ==>
                     Distance(t.index, j, |s.table|) + 1
                     == Distance(i, j, |s.table|) <= Distance(s.index, j, |s.table|))
  {
    var d := Distance(s.index, j, |s.table|);
    var k := Seek(s.table, s.index, 0);
    assert k <= d;
  }

  lemma {:induction false} ServesNothing(s: State)
    requires Inv(s) && Streamed(s) == s
    ensures forall i :: 0 <= i < |s.table| ==> !Active(s.table[i])
  {
    if i :| 0 <= i < |s.table| && Active(s.table[i]) {
      ServesFirst(s, i);
    }
  }

  // ----- runs

  /** The state after the first n events. */
  function After(s: State, events: seq<Event>, n: nat): (t: State)
    requires s.index < |s.table| && n <= |events|
    ensures t.index < |t.table| == |s.table|
  {
    if n == 0 then s else Step(After(s, events, n - 1), events[n - 1])
  }

  /** Each of the first n events is possible where it happens. */
  ghost predicate Feasible(s: State, events: seq<Event>, n: nat)
    requires s.index < |s.table| && n <= |events|
  {
    n > 0 ==> Feasible(s, events, n - 1) && Possible(After(s, events, n - 1), events[n - 1])
  }

  lemma {:induction false} RunKeeps(s: State, events: seq<Event>, n: nat)
    requires Inv(s) && n <= |events| && Feasible(s, events, n)
    ensures Inv(After(s, events, n))
  {
    if n > 0 {
      var u := After(s, events, n - 1);
      assert Possible(u, events[n - 1]) && After(s, events, n) == Step(u, events[n - 1]);
      hide Feasible, Step, Inv, Possible, After;
      RunKeeps(s, events, n - 1);
      StepKeeps(u, events[n - 1]);
    }
  }

  lemma {:induction false} InitialInv(n: nat)
    requires n > 0
    ensures Inv(Initial(n))
  {
  }

  function Calls(events: seq<Event>, n: nat): nat
    requires n <= |events|
  {
    if n == 0 then 0 else Calls(events, n - 1) + if events[n - 1].CanSendNow? then 1 else 0
  }

  ghost predicate StaysActive(s: State, events: seq<Event>, n: nat, j: nat)
    requires s.index < |s.table| && j < |s.table| && n <= |events|
  {
    Active(After(s, events, n).table[j]) && (n > 0 ==> StaysActive(s, events, n - 1, j))
  }

  /** What was served between two states does not include j. */
  ghost predicate Passed(s: State, t: State, j: nat) {
    && s.served <= t.served
    && forall m :: |s.served| <= m < |t.served| ==> t.served[m] != j
  }

  /** Every slot served in between is further from j than the index is now, and none was served twice. */
  ghost predicate Behind(s: State, t: State, j: nat)
    requires t.index < |t.table| && j < |t.table|
  {
    && s.served <= t.served
    && (forall m :: |s.served| <= m < |t.served| ==>
          t.served[m] < |t.table| && Distance(t.index, j, |t.table|) < Distance(t.served[m], j, |t.table|))
    && (forall a, b :: |s.served| <= a < b < |t.served| ==> t.served[a] != t.served[b])
  }

  /** While a connection stays active every call serves somebody, and until its turn each call brings the index
      closer to it and serves a connection not served before. */
  lemma {:induction false} Approach(s: State, events: seq<Event>, n: nat, j: nat)
    requires Inv(s) && n <= |events| && Feasible(s, events, n) && j < |s.table| && StaysActive(s, events, n, j)
    requires Passed(s, After(s, events, n), j)
    ensures var t := After(s, events, n);
            && |t.served| == |s.served| + Calls(events, n)
            && Distance(t.index, j, |t.table|) + Calls(events, n) <= Distance(s.index, j, |s.table|)
            && Behind(s, t, j)
  {
    if n == 0 {
      assert After(s, events, 0) == s && Calls(events, 0) == 0;
    } else {
      var u, e := After(s, events, n - 1), events[n - 1];
      assert After(s, events, n) == Step(u, e);
      assert Active(u.table[j]) && StaysActive(s, events, n - 1, j) && Feasible(s, events, n - 1);
      assert Calls(events, n) == Calls(events, n - 1) + if e.CanSendNow? then 1 else 0;
      hide *;
      RunKeeps(s, events, n - 1);
      RunGrows(s, events, n - 1);
      ServedGrows(u, e);
      PassedBefore(s, u, Step(u, e), j);
      Approach(s, events, n - 1, j);
      StepApproaches(s, u, e, j);
    }
  }

  lemma {:induction false} RunGrows(s: State, events: seq<Event>, n: nat)
    requires s.index < |s.table| && n <= |events|
    ensures s.served <= After(s, events, n).served
  {
    if n > 0 {
      var u := After(s, events, n - 1);
      assert After(s, events, n) == Step(u, events[n - 1]);
      hide Step, After;
      RunGrows(s, events, n - 1);
      ServedGrows(u, events[n - 1]);
    }
  }

  lemma {:induction false} PassedBefore(s: State, u: State, t: State, j: nat)
    requires Passed(s, t, j) && u.served <= t.served && |s.served| <= |u.served|
    ensures Passed(s, u, j)
  {
    assert forall m :: 0 <= m < |u.served| ==> u.served[m] == t.served[m];
  }

  lemma {:induction false} StepApproaches(s: State, u: State, e: Event, j: nat)
    requires Inv(u) && j < |u.table| && Active(u.table[j]) && Behind(s, u, j) && Passed(s, Step(u, e), j)
    ensures var t := Step(u, e);
            && |t.served| == |u.served| + (if e.CanSendNow? then 1 else 0)
            && Distance(t.index, j, |t.table|) + (if e.CanSendNow? then 1 else 0) <= Distance(u.index, j, |u.table|)
            && Behind(s, t, j)
  {
    if e.CanSendNow? {
      var u1, t := u.(requested := u.requested - {e.handle}), Step(u, e);
      assert t == Streamed(u1);
      ServesFirst(u1, j);
      hide *;
      BehindNext(s, u, t, j);
    } else {
      TableOnly(u, e);
      hide Step, Inv;
    }
  }

  /** Only the streamer moves the index. */
  lemma {:induction false} TableOnly(u: State, e: Event)
    requires u.index < |u.table| && !e.CanSendNow?
    ensures Step(u, e).served == u.served && Step(u, e).index == u.index
  {
  }

  lemma {:induction false} BehindNext(s: State, u: State, t: State, j: nat)
    requires u.index < |u.table| == |t.table| && t.index < |t.table| && j < |t.table|
    requires Behind(s, u, j) && Passed(s, t, j) && |t.served| == |u.served| + 1 && u.served <= t.served
    requires var i := t.served[|u.served|];
             i < |t.table| &&
             (i != j ==> Distance(t.index, j, |t.table|) + 1
                         == Distance(i, j, |t.table|) <= Distance(u.index, j, |t.table|))
    ensures Behind(s, t, j) && Distance(t.index, j, |t.table|) < Distance(u.index, j, |t.table|)
  {
    hide Distance;
    var i := t.served[|u.served|];
    assert i != j;
    assert forall m :: 0 <= m < |u.served| ==> u.served[m] == t.served[m];
  }

  lemma {:induction false} ServedGrows(s: State, e: Event)
    requires s.index < |s.table|
    ensures s.served <= Step(s, e).served
  {
  }

  /** Fairness: a connection that stays active is served within as many calls as the table has slots. */
  lemma {:induction false} Fair(s: State, events: seq<Event>, n: nat, j: nat)
    requires Inv(s) && n <= |events| && Feasible(s, events, n) && j < |s.table| && StaysActive(s, events, n, j)
    requires Calls(events, n) >= |s.table|
    ensures var t := After(s, events, n);
            |s.served| <= |t.served| && j in t.served[|s.served|..]
  {
    var t := After(s, events, n);
    hide *;
    RunGrows(s, events, n);
    if !Passed(s, t, j) {
      NotPassed(s, t, j);
    } else {
      Approach(s, events, n, j);
      assert false;
    }
  }

  lemma {:induction false} NotPassed(s: State, t: State, j: nat)
    requires s.served <= t.served && !Passed(s, t, j)
    ensures j in t.served[|s.served|..]
  {
    var m :| |s.served| <= m < |t.served| && t.served[m] == j;
    assert t.served[|s.served|..][m - |s.served|] == j;
  }

  /** And nobody is served twice before it is. */
  lemma {:induction false} NobodyTwice(s: State, events: seq<Event>, n: nat, j: nat, a: nat, b: nat)
    requires Inv(s) && n <= |events| && Feasible(s, events, n) && j < |s.table| && StaysActive(s, events, n, j)
    requires Passed(s, After(s, events, n), j) && |s.served| <= a < b < |After(s, events, n).served|
    ensures After(s, events, n).served[a] != After(s, events, n).served[b]
  {
    Approach(s, events, n, j);
    hide After, Distance, Inv, StaysActive, Feasible;
  }

  // ----- the table in terms of the events

  /** What the latest write of a connection to its configuration says, since it was established. */
  function Notifies(events: seq<Event>, n: nat, h: Handle): bool
    requires n <= |events|
  {
    n > 0 &&
    match events[n - 1]
    case Connected(g) => g != h && Notifies(events, n - 1, h)
    case Disconnected(g) => g != h && Notifies(events, n - 1, h)
    case WriteConfiguration(g, notify) => if g == h then notify else Notifies(events, n - 1, h)
    case CanSendNow(_) => Notifies(events, n - 1, h)
  }

  /** An entry belongs to a connection and is enabled as that has asked. */
  ghost predicate AsAsked(c: Connection, events: seq<Event>, n: nat)
    requires n <= |events|
  {
    c.handle != INVALID ==> (c.enabled <==> Notifies(events, n, c.handle))
  }

  lemma {:induction false} EntryAfter(s: State, e: Event, i: nat)
    requires Inv(s) && Possible(s, e) && i < |s.table|
    ensures var c, d := s.table[i], Step(s, e).table[i];
            && (d.handle != INVALID ==> d.handle == c.handle || (e == Connected(d.handle) && !d.enabled))
            && (d.handle != INVALID && d.handle == c.handle ==>
                  && e != Connected(c.handle) && e != Disconnected(c.handle)
                  && d.enabled == if e.WriteConfiguration? && e.handle == c.handle then e.notify else c.enabled)
  {
    hide Seek, Around;
  }

  /** Whoever is in the table is active exactly if the latest write since the connection came asked for it. */
  lemma {:induction false} EnabledAsAsked(size: nat, events: seq<Event>, n: nat, i: nat)
    requires i < size && n <= |events| && Feasible(Initial(size), events, n)
    ensures AsAsked(After(Initial(size), events, n).table[i], events, n)
  {
    var s := Initial(size);
    InitialInv(size);
    if n > 0 {
      var u := After(s, events, n - 1);
      Latest(s, events, n);
      hide After, Feasible, Step, Inv, Possible, Initial;
      RunKeeps(s, events, n - 1);
      EnabledAsAsked(size, events, n - 1, i);
      EntryAfter(u, events[n - 1], i);
    }
  }

  // ----- wake-ups

  predicate Streaming(s: State) {
    exists i :: 0 <= i < |s.table| && Active(s.table[i])
  }

  /** While a connection is active a can-send event is requested. */
  predicate Awake(s: State) {
    Streaming(s) ==> s.requested != {}
  }

  predicate OtherActive(s: State, h: Handle) {
    exists i :: 0 <= i < |s.table| && Active(s.table[i]) && s.table[i].handle != h
  }

  lemma {:induction false} AwakeAfterDisconnect(s: State, h: Handle)
    requires Inv(s) && Possible(s, Disconnected(h))
    ensures Awake(Step(s, Disconnected(h))) <==> !(s.requested <= {h} && OtherActive(s, h))
  {
    hide Seek, Streamed, Around;
    var t, r := Step(s, Disconnected(h)), Lookup(s.table, h, 0);
    assert t.requested == {} <==> s.requested <= {h};
    if OtherActive(s, h) {
      var i :| 0 <= i < |s.table| && Active(s.table[i]) && s.table[i].handle != h;
      assert t.table[i] == s.table[i];
    }
    if Streaming(t) {
      var i :| 0 <= i < |t.table| && Active(t.table[i]);
      assert i != r && t.table[i] == s.table[i];
      assert s.table[i].handle != h;
    }
  }

  lemma {:induction false} AwakeAfterOthers(s: State, e: Event)
    requires Inv(s) && Possible(s, e) && Awake(s) && (e.Connected? || e.WriteConfiguration?)
    ensures Awake(Step(s, e))
  {
    hide Seek, Streamed, Around;
    var t := Step(s, e);
    assert Streaming(t) && t.requested == {} ==> Streaming(s);
  }

  lemma {:induction false} AwakeAfterStreamer(s: State)
    requires Inv(s)
    ensures Awake(Streamed(s))
  {
    if Streamed(s) == s {
      ServesNothing(s);
    }
  }

  /** Every event keeps this, except the end of the only connection with a request while another one is active:
      streaming then stops although there is something to send. */
  lemma {:induction false} AwakeUnless(s: State, e: Event)
    requires Inv(s) && Possible(s, e) && Awake(s)
    ensures Awake(Step(s, e)) <==> !(e.Disconnected? && s.requested <= {e.handle} && OtherActive(s, e.handle))
  {
    match e
    case Disconnected(h) =>
      AwakeAfterDisconnect(s, h);
    case CanSendNow(h) =>
      AwakeAfterStreamer(s.(requested := s.requested - {h}));
    case _ =>
      AwakeAfterOthers(s, e);
  }

  /** Two connections start streaming, the event of the second one serves the first one, which then holds the only
      request and leaves. */
  const LOSING_RUN: seq<Event> := [
    Connected(1), Connected(2), WriteConfiguration(1, true), WriteConfiguration(2, true),
    CanSendNow(2), Disconnected(1)]

  lemma {:induction false} Latest(s: State, events: seq<Event>, n: nat)
    requires s.index < |s.table| && 0 < n <= |events|
    ensures After(s, events, n) == Step(After(s, events, n - 1), events[n - 1])
    ensures Feasible(s, events, n) <==> Feasible(s, events, n - 1) && Possible(After(s, events, n - 1), events[n - 1])
  {
    hide Step, Possible;
  }

  /** A state of the run: two entries, the requests, and how many slots were served. */
  ghost predicate Pair(s: State, a: Connection, b: Connection, requested: set<Handle>, served: nat) {
    && s.table == [a, b] && s.requested == requested && s.ignored == {} && !s.nullContext
    && |s.served| == served && s.index == served
  }

  lemma {:induction false} Enabled(s: State, e: seq<Event>)
    requires |e| >= 4 && s == Initial(2) && e[0] == Connected(1) && e[1] == Connected(2)
    requires e[2] == WriteConfiguration(1, true) && e[3] == WriteConfiguration(2, true)
    ensures Feasible(s, e, 4) && Pair(After(s, e, 4), Connection(1, true), Connection(2, true), {1, 2}, 0)
  {
    assert After(s, e, 0) == s && Feasible(s, e, 0);
    assert s.table == [Connection(INVALID, false), Connection(INVALID, false)];
    hide After, Feasible, Seek, Streamed;
    Latest(s, e, 1);
    assert Pair(After(s, e, 1), Connection(1, false), Connection(INVALID, false), {}, 0);
    Latest(s, e, 2);
    assert Pair(After(s, e, 2), Connection(1, false), Connection(2, false), {}, 0);
    Latest(s, e, 3);
    assert Pair(After(s, e, 3), Connection(1, true), Connection(2, false), {1}, 0);
    assert Live(After(s, e, 2), 1) && Live(After(s, e, 3), 2) by {
      assert After(s, e, 2).table[0].handle == 1 && After(s, e, 3).table[1].handle == 2;
    }
    Latest(s, e, 4);
  }

  /** It does happen: streaming stops with a connection active. */
  lemma {:induction false} WakeUpLost()
    ensures var s := Initial(2);
            Feasible(s, LOSING_RUN, 6) && !Awake(After(s, LOSING_RUN, 6))
  {
    var s, e := Initial(2), LOSING_RUN;
    Enabled(s, e);
    hide After, Feasible;
    Latest(s, e, 5);
    var u := After(s, e, 4);
    assert Seek(u.table, 0, 0) == 0;
    assert Pair(After(s, e, 5), Connection(1, true), Connection(2, true), {1}, 1);
    assert After(s, e, 5).table[0].handle == 1;
    Latest(s, e, 6);
    var t := After(s, e, 6);
    assert t.table == [Connection(INVALID, false), Connection(2, true)] && t.requested == {};
    assert Active(t.table[1]);
  }

  // ----- the program

  class Streamer {
    const connections: array<Connection>
    var connectionIndex: nat
    ghost var requested: set<Handle>
    ghost var ignored: set<Handle>
    ghost var served: seq<nat>
    ghost var nullContext: bool

    ghost function View(): State
      reads this, connections
    {
      State(connections[..], connectionIndex, requested, ignored, served, nullContext)
    }

    /** init_connections, for a table of any size. */
    constructor (n: nat)
      requires n > 0
      ensures View() == Initial(n) && fresh(connections)
    {
      connections := new Connection[n](_ => Connection(INVALID, false));
      connectionIndex, requested, ignored, served, nullContext := 0, {}, {}, [], false;
      new;
      assert connections[..] == Initial(n).table;
    }

    /** connection_for_conn_handle; the length of the table stands for NULL. */
    method ConnectionForConnHandle(handle: Handle) returns (i: nat)
      ensures i == Lookup(connections[..], handle, 0)
    {
      i := 0;
      while i < connections.Length
        invariant i <= connections.Length
        invariant Lookup(connections[..], handle, i) == Lookup(connections[..], handle, 0)
      {
        if connections[i].handle == handle {
          return;
        }
        i := i + 1;
      }
    }

    method NextConnectionIndex()
      requires connectionIndex < connections.Length
      modifies this`connectionIndex
      ensures connectionIndex == Around(old(connectionIndex), 1, connections.Length)
    {
      connectionIndex := connectionIndex + 1;
      if connectionIndex == connections.Length {
        connectionIndex := 0;
      }
    }

    /** The search loop of streamer. It ends: the index comes back to where it started after one round. */
    method FindActive() returns (found: bool)
      requires connectionIndex < connections.Length
      modifies this`connectionIndex
      ensures var k := Seek(connections[..], old(connectionIndex), 0);
              && found == (k < connections.Length)
              && connectionIndex ==
                 (if found then Around(old(connectionIndex), k, connections.Length) else old(connectionIndex))
    {
      var oldConnectionIndex := connectionIndex;
      ghost var k := 0;
      ghost var table := connections[..];
      while true
        invariant k < connections.Length && connectionIndex == Around(oldConnectionIndex, k, connections.Length)
        invariant connectionIndex < connections.Length
        invariant Seek(table, oldConnectionIndex, k) == Seek(table, oldConnectionIndex, 0)
        decreases connections.Length - k
      {
        assert table[connectionIndex] == connections[connectionIndex];
        if connections[connectionIndex].handle != INVALID && connections[connectionIndex].enabled {
          return true;
        }
        assert Seek(table, oldConnectionIndex, k) == Seek(table, oldConnectionIndex, k + 1);
        NextConnectionIndex();
        k := k + 1;
        if connectionIndex == oldConnectionIndex {
          return false;
        }
      }
    }

    /** streamer, called for ATT_EVENT_CAN_SEND_NOW of some connection. */
    method OnCanSendNow(handle: Handle)
      requires connectionIndex < connections.Length
      modifies this`connectionIndex, this`requested, this`served
      ensures View() == Step(old(View()), CanSendNow(handle))
    {
      hide Seek, Around;
      requested := requested - {handle};
      ghost var s := View();
      var found := FindActive();
      if !found {
        return;
      }
      served := served + [connectionIndex];
      requested := requested + {connections[connectionIndex].handle};
      NextConnectionIndex();
      assert View() == Streamed(s);
    }

    /** ATT_EVENT_CONNECTED. */
    method OnConnected(handle: Handle)
      requires connectionIndex < connections.Length
      modifies this`ignored, connections
      ensures View() == Step(old(View()), Connected(handle))
    {
      hide Seek, Around, Streamed;
      ghost var table := connections[..];
      var i := ConnectionForConnHandle(INVALID);
      if i == connections.Length {
        ignored := ignored + {handle};
        return;
      }
      connections[i] := connections[i].(handle := handle);
      assert connections[..] == table[i := table[i].(handle := handle)];
    }

    /** ATT_EVENT_DISCONNECTED. */
    method OnDisconnected(handle: Handle)
      requires connectionIndex < connections.Length
      modifies this`ignored, this`requested, connections
      ensures View() == Step(old(View()), Disconnected(handle))
    {
      hide Seek, Around, Streamed;
      ghost var table := connections[..];
      requested := requested - {handle};
      ignored := ignored - {handle};
      var i := ConnectionForConnHandle(handle);
      if i == connections.Length {
        return;
      }
      connections[i] := Connection(INVALID, false);
      assert connections[..] == table[i := Connection(INVALID, false)];
    }

    /** A write to the client configuration in att_write_callback. */
    method OnWrite(handle: Handle, notify: bool)
      requires connectionIndex < connections.Length
      modifies this`requested, this`nullContext, connections
      ensures View() == Step(old(View()), WriteConfiguration(handle, notify))
    {
      hide Seek, Around, Streamed;
      ghost var table := connections[..];
      var i := ConnectionForConnHandle(handle);
      if i == connections.Length {
        nullContext := true;
        return;
      }
      connections[i] := connections[i].(enabled := notify);
      assert connections[..] == table[i := table[i].(enabled := notify)];
      if notify {
        requested := requested + {handle};
      }
    }
  }
}
