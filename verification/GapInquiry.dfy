/** The inquiry application of gap_inquiry.c: scan for devices, then ask every device without a name for its
    name, one request at a time, then scan again. */
module GapInquiry {
  type Address = nat

  const MAX_DEVICES: nat := 20

  datatype NameState = Request | Inquired | Fetched

  datatype Device = Device(address: Address, pageScanRepetitionMode: nat, clockOffset: nat, state: NameState)

  /** An operation of the controller that will be answered by a completion event. */
  datatype Operation = Scan | RemoteName(address: Address, mode: nat, clockOffset: nat)

  datatype Event =
    | Working
    | InquiryResult(address: Address, mode: nat, clockOffset: nat, nameAvailable: bool)
    | InquiryComplete
    | NameComplete(address: Address, success: bool)

  /** `outstanding` is the environment's side: operations that were started and not answered yet. */
  datatype State = State(active: bool, devices: seq<Device>, outstanding: seq<Operation>)

  const INITIAL: State := State(false, [], [])

  // ----- the program, on values

  function IndexOf(devices: seq<Device>, address: Address, i: nat): (r: nat)
    requires i <= |devices|
    ensures i <= r <= |devices|
    ensures forall k :: i <= k < r ==> devices[k].address != address
    ensures r < |devices| ==> devices[r].address == address
    decreases |devices| - i
  {
    if i == |devices| || devices[i].address == address then i else IndexOf(devices, address, i + 1)
  }

  function FirstRequest(devices: seq<Device>, i: nat): (r: nat)
    requires i <= |devices|
    ensures i <= r <= |devices|
    ensures forall k :: i <= k < r ==> devices[k].state != Request
    ensures r < |devices| ==> devices[r].state == Request
    decreases |devices| - i
  {
    if i == |devices| || devices[i].state == Request then i else FirstRequest(devices, i + 1)
  }

  function NameRequest(d: Device): Operation {
    RemoteName(d.address, d.pageScanRepetitionMode,
               if d.clockOffset < 0x8000 then d.clockOffset + 0x8000 else d.clockOffset)
  }

  /** continue_remote_names. */
  function Continue(s: State): State {
    var i := FirstRequest(s.devices, 0);
    if i < |s.devices| then
      s.(devices := s.devices[i := s.devices[i].(state := Inquired)],
         outstanding := s.outstanding + [NameRequest(s.devices[i])])
    else
      s.(outstanding := s.outstanding + [Scan])
  }

  function Retried(d: Device): Device {
    if d.state == Inquired then d.(state := Request) else d
  }

  function RetriedAll(devices: seq<Device>): seq<Device> {
    seq(|devices|, i requires 0 <= i < |devices| => Retried(devices[i]))
  }

  function Step(s: State, e: Event): State {
    if !s.active then
      if e.Working? then State(true, s.devices, s.outstanding + [Scan]) else s
    else match e
      case Working => s
      case InquiryResult(a, mode, clock, named) =>
        if |s.devices| >= MAX_DEVICES || IndexOf(s.devices, a, 0) < |s.devices| then s
        else s.(devices := s.devices + [Device(a, mode, clock, if named then Fetched else Request)])
      case InquiryComplete =>
        Continue(s.(devices := RetriedAll(s.devices)))
      case NameComplete(a, success) =>
        var i := IndexOf(s.devices, a, 0);
        Continue(if i < |s.devices| && success then s.(devices := s.devices[i := s.devices[i].(state := Fetched)])
                 else s)
  }

  // ----- the environment

  predicate Answers(op: Operation, e: Event) {
    match e
    case InquiryComplete => op.Scan?
    case NameComplete(a, _) => op.RemoteName? && op.address == a
    case _ => false
  }

  /** Completions answer an outstanding operation; everything else may happen at any time. */
  predicate Possible(s: State, e: Event) {
    e.InquiryComplete? || e.NameComplete? ==> exists k :: 0 <= k < |s.outstanding| && Answers(s.outstanding[k], e)
  }

  function FirstAnswered(ops: seq<Operation>, e: Event, i: nat): (r: nat)
    requires i <= |ops|
    ensures i <= r <= |ops|
    ensures r < |ops| ==> Answers(ops[r], e)
    decreases |ops| - i
  {
    if i == |ops| || Answers(ops[i], e) then i else FirstAnswered(ops, e, i + 1)
  }

  /** The answered operation is no longer outstanding when the program handles its completion. */
  function Answered(s: State, e: Event): State {
    var k := FirstAnswered(s.outstanding, e, 0);
    if k < |s.outstanding| then s.(outstanding := s.outstanding[..k] + s.outstanding[k + 1..]) else s
  }

  // ----- history of a name phase

  /** `named` tells which devices had a name when the phase began (or when they were found during it), `asked`
      lists the devices asked for their name in this phase, `answers` counts the completions. */
  datatype History = History(named: seq<bool>, asked: seq<nat>, answers: nat)

  /** Positions below n of devices without a name. */
  function Unnamed(named: seq<bool>, n: nat): seq<nat>
    requires n <= |named|
  {
    if n == 0 then [] else if named[n - 1] then Unnamed(named, n - 1) else Unnamed(named, n - 1) + [n - 1]
  }

  function Names(devices: seq<Device>): seq<bool> {
    seq(|devices|, i requires 0 <= i < |devices| => devices[i].state == Fetched)
  }

  /** What the phase history becomes: observed from the states before and after an event. */
  function Observe(h: History, s: State, e: Event, t: State): History {
    var h1 :=
      if e.InquiryComplete? && s.active then History(Names(s.devices), [], 0)
      else if e.NameComplete? && s.active then h.(answers := h.answers + 1)
      else if |t.devices| == |s.devices| + 1 && Naming(s) then
        h.(named := h.named + [t.devices[|s.devices|].state == Fetched])
      else h;
    if s.active && (e.InquiryComplete? || e.NameComplete?) && Naming(t) then
      h1.(asked := h1.asked + [AskedIndex(t)])
    else h1
  }

  predicate Naming(s: State) {
    exists k :: 0 <= k < |s.outstanding| && s.outstanding[k].RemoteName?
  }

  /** The device the last started request is for. */
  function AskedIndex(s: State): nat {
    if |s.outstanding| > 0 && s.outstanding[|s.outstanding| - 1].RemoteName?
    then IndexOf(s.devices, s.outstanding[|s.outstanding| - 1].address, 0) else |s.devices|
  }

  // ----- what every run keeps

  predicate Table(devices: seq<Device>) {
    && |devices| <= MAX_DEVICES
    && forall i, j :: 0 <= i < j < |devices| ==> devices[i].address != devices[j].address
  }

  /** Devices below c have had their turn in the name phase, those from c on are waiting. */
  predicate Turns(devices: seq<Device>, named: seq<bool>, c: nat) {
    && c <= |devices| == |named|
    && (forall i :: 0 <= i < c ==> devices[i].state != Request)
    && (forall i :: c <= i < |devices| ==> devices[i].state == if named[i] then Fetched else Request)
  }

  /** A scan or one name request is outstanding. While scanning, the last phase has asked exactly the devices
      without a name; while naming, exactly those up to the device being asked. */
  ghost predicate Inv(s: State, h: History) {
    && Table(s.devices)
    && if !s.active then s.outstanding == [] && s.devices == [] && h == History([], [], 0)
       else
         && |s.outstanding| == 1
         && if s.outstanding[0] == Scan then PhaseDone(s, h) else Asking(s, h, AskedIndex(s))
  }

  ghost predicate PhaseDone(s: State, h: History) {
    h.asked == Unnamed(h.named, |h.named|) && h.answers == |h.asked| && |h.named| <= |s.devices|
  }

  ghost predicate Asking(s: State, h: History, c: nat) {
    && c < |s.devices| && Turns(s.devices, h.named, c + 1) && !h.named[c] && s.devices[c].state == Inquired
    && s.outstanding == [NameRequest(s.devices[c])]
    && h.asked == Unnamed(h.named, c + 1) && |h.asked| == h.answers + 1
  }

  lemma {:induction false} IndexOfUnique(devices: seq<Device>, i: nat)
    requires Table(devices) && i < |devices|
    ensures IndexOf(devices, devices[i].address, 0) == i
  {
    assert IndexOf(devices, devices[i].address, 0) <= i;
  }

  lemma {:induction false} SkipNamed(named: seq<bool>, c: nat, i: nat)
    requires c <= i <= |named| && forall k :: c <= k < i ==> named[k]
    ensures Unnamed(named, i) == Unnamed(named, c)
  {
    if c < i {
      SkipNamed(named, c, i - 1);
    }
  }

  lemma {:induction false} UnnamedExtended(named: seq<bool>, b: bool, n: nat)
    requires n <= |named|
    ensures Unnamed(named + [b], n) == Unnamed(named, n)
  {
    if n > 0 {
      UnnamedExtended(named, b, n - 1);
    }
  }

  /** The list holds each device without a name exactly once, in table order. */
  lemma {:induction false} UnnamedOnce(named: seq<bool>, n: nat)
    requires n <= |named|
    ensures forall k: nat :: k in Unnamed(named, n) <==> k < n && !named[k]
    ensures forall a, b :: 0 <= a < b < |Unnamed(named, n)| ==> Unnamed(named, n)[a] < Unnamed(named, n)[b]
  {
    if n > 0 {
      UnnamedOnce(named, n - 1);
      var before := Unnamed(named, n - 1);
      if !named[n - 1] {
        assert Unnamed(named, n) == before + [n - 1];
        assert forall a :: 0 <= a < |before| ==> before[a] in before;
      }
    }
  }

  lemma {:induction false} AskNext(s: State, h: History, c: nat)
    requires Table(s.devices) && Turns(s.devices, h.named, c) && c < |s.devices| && s.devices[c].state == Request
    requires h.asked == Unnamed(h.named, c) && |h.asked| == h.answers && s.outstanding == []
    ensures var t := s.(devices := s.devices[c := s.devices[c].(state := Inquired)],
                        outstanding := [NameRequest(s.devices[c])]);
            Table(t.devices) && AskedIndex(t) == c && Asking(t, h.(asked := h.asked + [c]), c)
  {
    hide Continue, FirstRequest, Step;
    var t := s.(devices := s.devices[c := s.devices[c].(state := Inquired)],
                outstanding := [NameRequest(s.devices[c])]);
    assert Table(t.devices);
    IndexOfUnique(t.devices, c);
    assert t.devices[c].address == s.devices[c].address;
  }

  /** Continuing from position c: either the next device without a name is asked, or the phase is done. */
  lemma {:induction false} ContinueKeeps(s: State, h: History, c: nat)
    requires s.active && Table(s.devices) && s.outstanding == [] && Turns(s.devices, h.named, c)
    requires h.asked == Unnamed(h.named, c) && |h.asked| == h.answers
    ensures var t := Continue(s);
            Inv(t, if Naming(t) then h.(asked := h.asked + [AskedIndex(t)]) else h)
  {
    var i := FirstRequest(s.devices, 0);
    var t := Continue(s);
    assert Turns(s.devices, h.named, i);
    SkipNamed(h.named, c, i);
    hide Step, Asking, Unnamed, Turns;
    if i < |s.devices| {
      AskNext(s, h, i);
      assert t.outstanding == [NameRequest(s.devices[i])];
      assert t.outstanding[0].RemoteName?;
    } else {
      assert t.outstanding == [Scan];
    }
  }

  lemma {:induction false} FoundWhileAsking(s: State, h: History, d: Device, c: nat)
    requires Asking(s, h, c) && AskedIndex(s) == c && Table(s.devices + [d]) && d.state != Inquired
    ensures var t := s.(devices := s.devices + [d]);
            AskedIndex(t) == c && Asking(t, h.(named := h.named + [d.state == Fetched]), c)
  {
    hide Continue, FirstRequest, Step, Unnamed;
    var t := s.(devices := s.devices + [d]);
    assert t.devices[c] == s.devices[c];
    IndexOfUnique(t.devices, c);
    UnnamedExtended(h.named, d.state == Fetched, c + 1);
  }

  lemma {:induction false} FoundKeeps(s: State, h: History, e: Event)
    requires Inv(s, h) && s.active && e.InquiryResult?
    ensures Inv(Step(s, e), Observe(h, s, e, Step(s, e)))
  {
    hide Continue, FirstRequest, Unnamed, Turns, NameRequest;
    var t := Step(s, e);
    if t != s {
      var d := t.devices[|s.devices|];
      assert Table(t.devices);
      if s.outstanding[0] != Scan {
        assert s.outstanding[0].RemoteName?;
        FoundWhileAsking(s, h, d, AskedIndex(s));
      }
    }
  }

  lemma {:induction false} ScanDoneKeeps(s: State, h: History)
    requires Inv(s, h) && s.active && s.outstanding == [Scan]
    ensures var t := Step(Answered(s, InquiryComplete), InquiryComplete);
            Inv(t, Observe(h, s, InquiryComplete, t))
  {
    var e := InquiryComplete;
    assert FirstAnswered(s.outstanding, e, 0) == 0;
    var s1 := Answered(s, e);
    assert s1.outstanding == [];
    var s2 := s1.(devices := RetriedAll(s.devices));
    ContinueKeeps(s2, History(Names(s.devices), [], 0), 0);
  }

  lemma {:induction false} NameDoneKeeps(s: State, h: History, e: Event)
    requires Inv(s, h) && s.active && e.NameComplete? && |s.outstanding| == 1 && Answers(s.outstanding[0], e)
    ensures var t := Step(Answered(s, e), e);
            Inv(t, Observe(h, s, e, t))
  {
    var c := AskedIndex(s);
    assert FirstAnswered(s.outstanding, e, 0) == 0;
    var s1 := Answered(s, e);
    assert s1.outstanding == [];
    IndexOfUnique(s.devices, c);
    var s2 := if e.success then s1.(devices := s.devices[c := s.devices[c].(state := Fetched)]) else s1;
    assert Step(s1, e) == Continue(s2);
    ContinueKeeps(s2, h.(answers := h.answers + 1), c + 1);
  }

  /** One event keeps the invariant. */
  lemma {:induction false} StepKeeps(s: State, h: History, e: Event)
    requires Inv(s, h) && Possible(s, e)
    ensures var t := Step(Answered(s, e), e);
            Inv(t, Observe(h, s, e, t))
  {
    match e
    case InquiryComplete =>
      ScanDoneKeeps(s, h);
    case NameComplete(_, _) =>
      NameDoneKeeps(s, h, e);
    case Working =>
      assert FirstAnswered(s.outstanding, e, 0) == |s.outstanding|;
      if !s.active {
        assert Step(s, e).outstanding == [Scan];
      }
    case InquiryResult(_, _, _, _) =>
      assert FirstAnswered(s.outstanding, e, 0) == |s.outstanding|;
      if s.active {
        FoundKeeps(s, h, e);
      }
  }

  // ----- runs

  datatype Moment = Moment(state: State, history: History)

  /** State and history after the first n events. */
  function After(events: seq<Event>, n: nat): Moment
    requires n <= |events|
  {
    if n == 0 then Moment(INITIAL, History([], [], 0))
    else
      var m, e := After(events, n - 1), events[n - 1];
      var t := Step(Answered(m.state, e), e);
      Moment(t, Observe(m.history, m.state, e, t))
  }

  /** Each of the first n events is possible where it happens. */
  ghost predicate Feasible(events: seq<Event>, n: nat)
    requires n <= |events|
  {
    n > 0 ==> Feasible(events, n - 1) && Possible(After(events, n - 1).state, events[n - 1])
  }

  lemma {:induction false} RunKeeps(events: seq<Event>, n: nat)
    requires n <= |events| && Feasible(events, n)
    ensures Inv(After(events, n).state, After(events, n).history)
  {
    hide Step, Answered, Observe, Possible;
    if n > 0 {
      var m, e := After(events, n - 1), events[n - 1];
      var t := Step(Answered(m.state, e), e);
      assert After(events, n) == Moment(t, Observe(m.history, m.state, e, t)) && Possible(m.state, e);
      hide *;
      RunKeeps(events, n - 1);
      StepKeeps(m.state, m.history, e);
    }
  }

  /** In every reachable state the table is bounded and free of duplicates, and once started exactly one operation
      is outstanding: a scan, or the name request for a device of the table that has no name, with the paging
      parameters it was found with. */
  lemma {:induction false} OneOutstanding(events: seq<Event>, n: nat)
    requires n <= |events| && Feasible(events, n)
    ensures var s := After(events, n).state;
            && Table(s.devices)
            && |s.outstanding| == (if s.active then 1 else 0)
            && (s.active && s.outstanding[0] != Scan ==>
                  exists c :: 0 <= c < |s.devices| && s.devices[c].state == Inquired &&
                              IsFor(s.outstanding[0], s.devices[c]))
  {
    hide *;
    RunKeeps(events, n);
    OneOf(After(events, n).state, After(events, n).history);
  }

  lemma {:induction false} OneOf(s: State, h: History)
    requires Inv(s, h)
    ensures Table(s.devices) && |s.outstanding| == (if s.active then 1 else 0)
    ensures s.active && s.outstanding[0] != Scan ==>
              exists c :: 0 <= c < |s.devices| && s.devices[c].state == Inquired &&
                          IsFor(s.outstanding[0], s.devices[c])
  {
    hide Turns, Unnamed;
    if s.active && s.outstanding[0] != Scan {
      assert IsFor(s.outstanding[0], s.devices[AskedIndex(s)]);
    }
  }

  /** A request for the device; the top bit marks its clock offset as valid. */
  predicate IsFor(op: Operation, d: Device) {
    && op.RemoteName? && op.address == d.address && op.mode == d.pageScanRepetitionMode
    && op.clockOffset >= 0x8000 && op.clockOffset % 0x8000 == d.clockOffset % 0x8000
    && (d.clockOffset < 0x1_0000 ==> op.clockOffset < 0x1_0000)
  }

  /** Whenever a scan runs, the name phase before it has asked exactly the devices that had no name, each once and
      in table order, and it ended after as many answers, at most 20. */
  lemma {:induction false} PhaseAsksEachOnce(events: seq<Event>, n: nat)
    requires n <= |events| && Feasible(events, n)
    requires After(events, n).state.outstanding == [Scan]
    ensures var h := After(events, n).history;
            && (forall k: nat :: k in h.asked <==> k < |h.named| && !h.named[k])
            && (forall a, b :: 0 <= a < b < |h.asked| ==> h.asked[a] < h.asked[b])
            && h.answers == |h.asked| <= MAX_DEVICES
  {
    RunKeeps(events, n);
    hide After, Table;
    var h := After(events, n).history;
    UnnamedOnce(h.named, |h.named|);
    UnnamedLength(h.named, |h.named|);
  }

  /** Inside a phase each answer uses up one device: no phase goes on beyond 20 answers. */
  lemma {:induction false} PhaseBounded(events: seq<Event>, n: nat)
    requires n <= |events| && Feasible(events, n)
    ensures After(events, n).history.answers <= MAX_DEVICES
  {
    RunKeeps(events, n);
    var h := After(events, n).history;
    UnnamedLength(h.named, |h.named|);
    if After(events, n).state.active && After(events, n).state.outstanding[0] != Scan {
      UnnamedLength(h.named, AskedIndex(After(events, n).state) + 1);
    }
  }

  lemma {:induction false} UnnamedLength(named: seq<bool>, n: nat)
    requires n <= |named|
    ensures |Unnamed(named, n)| <= n
  {
    if n > 0 {
      UnnamedLength(named, n - 1);
    }
  }

  /** The table only grows, and names once fetched stay fetched. */
  ghost predicate Grows(a: seq<Device>, b: seq<Device>) {
    && |a| <= |b|
    && forall i :: 0 <= i < |a| ==>
         && a[i].address == b[i].address && a[i].pageScanRepetitionMode == b[i].pageScanRepetitionMode
         && a[i].clockOffset == b[i].clockOffset && (a[i].state == Fetched ==> b[i].state == Fetched)
  }

  lemma {:induction false} GrowsOn(a: seq<Device>, b: seq<Device>, c: seq<Device>)
    requires Grows(a, b) && Grows(b, c)
    ensures Grows(a, c)
  {
  }

  lemma {:induction false} StepGrows(s: State, e: Event)
    ensures Grows(s.devices, Step(s, e).devices)
  {
  }

  /** No run loses a device or a name. */
  lemma {:induction false} NamesStay(events: seq<Event>, m: nat, n: nat)
    requires m <= n <= |events|
    ensures Grows(After(events, m).state.devices, After(events, n).state.devices)
  {
    if m < n {
      NamesStay(events, m, n - 1);
      var s, e := After(events, n - 1).state, events[n - 1];
      StepGrows(Answered(s, e), e);
      GrowsOn(After(events, m).state.devices, s.devices, Step(Answered(s, e), e).devices);
      hide Step, Answered, Grows;
    }
  }

  // ----- the table in terms of the events

  /** What one event does to the table. */
  ghost predicate Updates(s: State, e: Event, t: State) {
    && |s.devices| <= |t.devices| <= |s.devices| + 1
    && (forall i :: 0 <= i < |s.devices| ==>
          && SameDevice(s.devices[i], t.devices[i])
          && (t.devices[i].state == Fetched <==>
                s.devices[i].state == Fetched || e == NameComplete(s.devices[i].address, true)))
    && (|t.devices| > |s.devices| ==> Introduces(e, t.devices[|s.devices|]) &&
                                      (t.devices[|s.devices|].state == Fetched <==> e.nameAvailable))
  }

  predicate SameDevice(a: Device, b: Device) {
    a.address == b.address && a.pageScanRepetitionMode == b.pageScanRepetitionMode && a.clockOffset == b.clockOffset
  }

  /** The device is entered as the inquiry result describes it. */
  predicate Introduces(e: Event, d: Device) {
    e.InquiryResult? && e.address == d.address && e.mode == d.pageScanRepetitionMode && e.clockOffset == d.clockOffset
  }

  lemma {:induction false} ContinueUpdates(s: State)
    ensures |Continue(s).devices| == |s.devices|
    ensures forall i :: 0 <= i < |s.devices| ==>
              && SameDevice(s.devices[i], Continue(s).devices[i])
              && (Continue(s).devices[i].state == Fetched <==> s.devices[i].state == Fetched)
  {
  }

  lemma {:induction false} StepUpdates(s: State, e: Event)
    requires Table(s.devices) && (e.NameComplete? ==> s.active)
    ensures Updates(s, e, Step(s, e))
  {
    hide FirstRequest, NameRequest;
    if s.active {
      match e
      case Working =>
      case InquiryResult(_, _, _, _) =>
      case InquiryComplete =>
        ContinueUpdates(s.(devices := RetriedAll(s.devices)));
        hide Continue;
      case NameComplete(a, success) =>
        var i := IndexOf(s.devices, a, 0);
        var u := if i < |s.devices| && success then s.(devices := s.devices[i := s.devices[i].(state := Fetched)])
                 else s;
        ContinueUpdates(u);
        hide Continue;
    }
  }

  /** A name request for the device succeeded in the n events behind event k. */
  ghost predicate NamedSince(events: seq<Event>, n: nat, k: nat, address: Address)
    requires n <= |events|
  {
    exists j :: k < j < n && events[j] == NameComplete(address, true)
  }

  /** Event k found the device, and it has a name if the event brought one or a request for it succeeded since. */
  ghost predicate FoundBy(events: seq<Event>, n: nat, k: nat, d: Device)
    requires n <= |events|
  {
    && k < n && Introduces(events[k], d)
    && (d.state == Fetched <==> events[k].nameAvailable || NamedSince(events, n, k, d.address))
  }

  lemma {:induction false} UpdateOf(events: seq<Event>, n: nat)
    requires 0 < n <= |events| && Feasible(events, n)
    ensures Feasible(events, n - 1) && Updates(After(events, n - 1).state, events[n - 1], After(events, n).state)
  {
    hide Step, Updates, Observe;
    var m, e := After(events, n - 1), events[n - 1];
    var s := Answered(m.state, e);
    RunKeeps(events, n - 1);
    assert After(events, n).state == Step(s, e) && s.devices == m.state.devices && s.active == m.state.active;
    assert e.NameComplete? ==> m.state.active && Table(m.state.devices);
    assert Table(m.state.devices);
    StepUpdates(s, e);
    hide After;
    assert Updates(m.state, e, Step(s, e)) by {
      UpdatesDevices(s, m.state, e, Step(s, e));
    }
  }

  lemma {:induction false} UpdatesDevices(s: State, r: State, e: Event, t: State)
    requires Updates(s, e, t) && s.devices == r.devices
    ensures Updates(r, e, t)
  {
  }

  lemma {:induction false} FoundLater(events: seq<Event>, n: nat, k: nat, d: Device, later: Device)
    requires 0 < n <= |events| && FoundBy(events, n - 1, k, d) && SameDevice(d, later)
    requires later.state == Fetched <==> d.state == Fetched || events[n - 1] == NameComplete(d.address, true)
    ensures FoundBy(events, n, k, later)
  {
  }

  /** Every device of the table was found by an inquiry result, as that described it, and has a name if and only if the
      result brought it or a name request for that device succeeded later. */
  lemma {:induction false} TableFromEvents(events: seq<Event>, n: nat, i: nat) returns (k: nat)
    requires n <= |events| && Feasible(events, n) && i < |After(events, n).state.devices|
    ensures FoundBy(events, n, k, After(events, n).state.devices[i])
  {
    UpdateOf(events, n);
    hide After, Feasible, FoundBy;
    var before, t := After(events, n - 1).state, After(events, n).state;
    if i < |before.devices| {
      k := TableFromEvents(events, n - 1, i);
      FoundLater(events, n, k, before.devices[i], t.devices[i]);
    } else {
      k := n - 1;
      JustFound(events, n, t.devices[i]);
    }
  }

  /** Conversely every result is in the table from then on, unless the table was full. */
  lemma {:induction false} FoundIsListed(events: seq<Event>, m: nat, n: nat) returns (i: nat)
    requires m < n <= |events| && events[m].InquiryResult?
    requires After(events, m).state.active && |After(events, m).state.devices| < MAX_DEVICES
    ensures i < |After(events, n).state.devices| && After(events, n).state.devices[i].address == events[m].address
  {
    hide Step, Answered, Observe;
    var s, t := After(events, m).state, After(events, m + 1).state;
    assert t == Step(Answered(s, events[m]), events[m]);
    hide After;
    Entered(s, events[m]);
    NamesStay(events, m + 1, n);
    i := IndexOf(s.devices, events[m].address, 0);
  }

  lemma {:induction false} Entered(s: State, e: Event)
    requires s.active && e.InquiryResult? && |s.devices| < MAX_DEVICES
    ensures var i, t := IndexOf(s.devices, e.address, 0), Step(Answered(s, e), e);
            i < |t.devices| && t.devices[i].address == e.address
  {
    assert Answered(s, e) == s;
    hide FirstAnswered, Continue;
  }

  lemma {:induction false} JustFound(events: seq<Event>, n: nat, d: Device)
    requires 0 < n <= |events| && Introduces(events[n - 1], d) && (d.state == Fetched <==> events[n - 1].nameAvailable)
    ensures FoundBy(events, n, n - 1, d)
  {
  }

  // ----- the program

  class Inquiry {
    var active: bool
    const devices: array<Device>
    var deviceCount: nat
    ghost var outstanding: seq<Operation>   // operations given to the controller and not answered

    ghost predicate Valid()
      reads this
    {
      devices.Length == MAX_DEVICES && deviceCount <= MAX_DEVICES
    }

    ghost function View(): State
      requires Valid()
      reads this, devices
    {
      State(active, devices[..deviceCount], outstanding)
    }

    constructor ()
      ensures Valid() && View() == INITIAL && fresh(devices)
    {
      active, deviceCount, outstanding := false, 0, [];
      devices := new Device[MAX_DEVICES](_ => Device(0, 0, 0, Request));
    }

    /** getDeviceIndexForAddress; deviceCount stands for -1. */
    method GetDeviceIndexForAddress(address: Address) returns (j: nat)
      requires Valid()
      ensures j == IndexOf(devices[..deviceCount], address, 0)
    {
      j := 0;
      while j < deviceCount
        invariant j <= deviceCount
        invariant IndexOf(devices[..deviceCount], address, j) == IndexOf(devices[..deviceCount], address, 0)
      {
        if devices[j].address == address {
          return;
        }
        j := j + 1;
      }
    }

    method HasMoreRemoteNameRequests() returns (more: bool)
      requires Valid()
      ensures more <==> FirstRequest(devices[..deviceCount], 0) < deviceCount
    {
      var i := 0;
      while i < deviceCount
        invariant i <= deviceCount
        invariant FirstRequest(devices[..deviceCount], i) == FirstRequest(devices[..deviceCount], 0)
      {
        if devices[i].state == Request {
          return true;
        }
        i := i + 1;
      }
      return false;
    }

    method DoNextRemoteNameRequest()
      requires Valid() && FirstRequest(devices[..deviceCount], 0) < deviceCount
      modifies this`outstanding, devices
      ensures View() == Continue(old(View()))
    {
      ghost var table := devices[..deviceCount];
      var i := 0;
      while i < deviceCount
        invariant i <= FirstRequest(table, 0) && FirstRequest(table, i) == FirstRequest(table, 0)
        invariant devices[..] == old(devices[..]) && View() == old(View())
      {
        if devices[i].state == Request {
          assert table[i] == devices[i] && FirstRequest(table, 0) == i;
          outstanding := outstanding + [NameRequest(devices[i])];
          devices[i] := devices[i].(state := Inquired);
          assert devices[..deviceCount] == table[i := table[i].(state := Inquired)];
          return;
        }
        i := i + 1;
      }
    }

    method ContinueRemoteNames()
      requires Valid()
      modifies this`outstanding, devices
      ensures View() == Continue(old(View()))
    {
      var more := HasMoreRemoteNameRequests();
      if more {
        DoNextRemoteNameRequest();
        return;
      }
      outstanding := outstanding + [Scan];
    }

    /** BTSTACK_EVENT_STATE with a working controller. */
    method OnWorking()
      requires Valid()
      modifies this`active, this`outstanding
      ensures View() == Step(old(View()), Working)
    {
      if !active {
        outstanding := outstanding + [Scan];
        active := true;
      }
    }

    /** GAP_EVENT_INQUIRY_RESULT. */
    method OnInquiryResult(address: Address, mode: nat, clockOffset: nat, nameAvailable: bool)
      requires Valid()
      modifies this`deviceCount, devices
      ensures Valid() && View() == Step(old(View()), InquiryResult(address, mode, clockOffset, nameAvailable))
    {
      hide IndexOf, FirstRequest;
      if !active || deviceCount >= MAX_DEVICES {
        return;
      }
      var index := GetDeviceIndexForAddress(address);
      if index < deviceCount {
        return;
      }
      ghost var table := devices[..deviceCount];
      var d := Device(address, mode, clockOffset, if nameAvailable then Fetched else Request);
      devices[deviceCount] := d;
      deviceCount := deviceCount + 1;
      assert devices[..deviceCount] == table + [d];
    }

    /** Names that were asked for in vain will be asked for again. */
    method RetryRequests()
      requires Valid()
      modifies devices
      ensures devices[..deviceCount] == RetriedAll(old(devices[..deviceCount]))
    {
      for i := 0 to deviceCount
        invariant forall k :: 0 <= k < i ==> devices[k] == Retried(old(devices[..])[k])
        invariant forall k :: i <= k < deviceCount ==> devices[k] == old(devices[..])[k]
      {
        if devices[i].state == Inquired {
          devices[i] := devices[i].(state := Request);
        }
      }
    }

    /** GAP_EVENT_INQUIRY_COMPLETE. */
    method OnInquiryComplete()
      requires Valid()
      modifies this`outstanding, devices
      ensures View() == Step(old(View()), InquiryComplete)
    {
      hide Continue, RetriedAll;
      if active {
        RetryRequests();
        ContinueRemoteNames();
      }
    }

    /** HCI_EVENT_REMOTE_NAME_REQUEST_COMPLETE. */
    method OnNameComplete(address: Address, success: bool)
      requires Valid()
      modifies this`outstanding, devices
      ensures View() == Step(old(View()), NameComplete(address, success))
    {
      hide Continue, IndexOf;
      if active {
        ghost var table := devices[..deviceCount];
        var index := GetDeviceIndexForAddress(address);
        if index < deviceCount && success {
          devices[index] := devices[index].(state := Fetched);
          assert devices[..deviceCount] == table[index := table[index].(state := Fetched)];
        }
        ContinueRemoteNames();
      }
    }

    /** The environment answers an operation. */
    ghost method Answer(e: Event)
      requires Valid()
      modifies this`outstanding
      ensures View() == Answered(old(View()), e)
    {
      outstanding := Answered(View(), e).outstanding;
    }
  }
}
