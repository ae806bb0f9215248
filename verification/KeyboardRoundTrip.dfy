/** End to end: what the boot host prints for the reports of hog_keyboard_demo.c is the typed text. */
module KeyboardRoundTrip {
  import opened Wrappers
  import opened ByteRing
  import opened HidKeymap
  import opened HogKeyboard
  import opened HogBootHost

  /** Does the character have a key that prints something? */
  predicate Visible(k: Keymap, c: byte) {
    c != CHAR_ILLEGAL && (c in k.none || c in k.shift)
  }

  /** What the first `n` characters of a text should look like on the host: characters without a key
      vanish, backspace erases. */
  function Render(k: Keymap, text: seq<byte>, n: nat): seq<byte>
    requires n <= |text|
  {
    if n == 0 then []
    else
      var rest := Render(k, text, n - 1);
      if Visible(k, text[n - 1]) then rest + Text(text[n - 1]) else rest
  }

  /** How many accepted characters have left the input buffer. */
  function Consumed(s: Session): int {
    |s.accepted| - |s.sender.buffer|
  }

  /** The buffer holds the accepted characters that have not been consumed. */
  ghost predicate Waiting(s: Session) {
    && Consumed(s) >= 0
    && (forall i :: 0 <= i < |s.sender.buffer| ==> s.sender.buffer[i] == s.accepted[Consumed(s) + i])
  }

  /** The sender waits for an answer, but no request is open. */
  predicate Cut(s: Session) {
    s.sender.state != W4Input && s.sender.requests == 0
  }

  /** Flow control of the sender. */
  ghost predicate Protocol(s: Session) {
    && Waiting(s)
    // at most one request is open, and only while there is something to send and a host to send it to
    && s.sender.requests <= 1
    && (s.sender.requests == 1 ==> s.sender.state != W4Input && s.sender.connected && s.held == 0)
    // an idle sender has sent everything but what was typed without a host since
    && (s.sender.state == W4Input ==> |s.sender.buffer| == s.held)
    && (s.sender.state == W4CanSendFromBuffer ==> s.sender.buffer != [])
    // key-down and key-up reports strictly alternate
    && |s.reports| % 2 == (if s.sender.state == W4CanSendKeyUp then 1 else 0)
    && (forall i :: 0 <= i < |s.reports| && i % 2 == 1 ==> s.reports[i] == KEY_UP)
    && (forall i :: 0 <= i < |s.reports| ==> OneKey(s.reports[i]))
  }

  /** A boot keyboard report with one key at most: modifier, reserved byte, and the first of six keys. */
  predicate OneKey(r: Report) {
    r[1] == 0 && forall j :: 3 <= j < 8 ==> r[j] == 0
  }

  /** The host shows exactly the characters that have left the buffer. */
  ghost predicate Echoed(k: Keymap, s: Session)
    requires k.Valid()
  {
    0 <= Consumed(s) && Console(k, s.reports, |s.reports|) == Render(k, s.accepted, Consumed(s))
  }

  /** A report of the sender holds at most its third byte. */
  lemma {:induction false} ReportScan(k: Keymap, key: Key, previous: seq<byte>, n: nat)
    requires k.Valid() && key.keycode < |k.none| && 1 <= n <= NUM_KEYS
    ensures Held(k, ReportFor(key), n) == if key.keycode == 0 then [] else [key.keycode]
    ensures Echo(k, previous, ReportFor(key), n)
            == if Prints(k, previous, key) then Text(k.Character(key)) else []
  {
    if n > 1 {
      ReportScan(k, key, previous, n - 1);
    }
  }

  lemma {:induction false} NoKeyHeld(k: Keymap, s: Session)
    requires k.Valid() && Protocol(s) && s.sender.state != W4CanSendKeyUp
    ensures Keys(k, s.reports, |s.reports|) == []
  {
    if s.reports != [] {
      ReportScan(k, Key(0, 0), [], |KEY_UP| - 2);
      assert s.reports[|s.reports| - 1] == KEY_UP;
    }
  }

  /** With no key held, the key-down report of a character prints exactly its rendering. */
  lemma {:induction false} KeyDownPrints(k: Keymap, reports: seq<Report>, c: byte)
    requires k.Valid() && k.KeyFor(c).Some? && Keys(k, reports, |reports|) == []
    ensures Console(k, reports + [ReportFor(k.KeyFor(c).value)], |reports| + 1)
            == if Visible(k, c) then Console(k, reports, |reports|) + Text(c) else Console(k, reports, |reports|)
  {
    var key := k.KeyFor(c).value;
    ConsoleAppend(k, reports, ReportFor(key));
    ReportScan(k, key, [], |ReportFor(key)| - 2);
    assert Visible(k, c) <==> Prints(k, [], key);
  }

  lemma {:induction false} KeyUpPrintsNothing(k: Keymap, reports: seq<Report>)
    requires k.Valid()
    ensures Console(k, reports + [KEY_UP], |reports| + 1) == Console(k, reports, |reports|)
  {
    ConsoleAppend(k, reports, KEY_UP);
    ReportScan(k, Key(0, 0), Keys(k, reports, |reports|), |KEY_UP| - 2);
  }

  /** Characters without a key leave no trace on the host. */
  lemma {:induction false} RenderKeyless(k: Keymap, text: seq<byte>, m: nat, n: nat)
    requires k.Valid() && m <= n <= |text|
    requires forall i :: m <= i < n ==> k.KeyFor(text[i]).None?
    ensures Render(k, text, n) == Render(k, text, m)
  {
    if m < n {
      RenderKeyless(k, text, m, n - 1);
    }
  }

  lemma {:induction false} RenderPrefix(k: Keymap, text: seq<byte>, c: byte, n: nat)
    requires n <= |text|
    ensures Render(k, text + [c], n) == Render(k, text, n)
  {
    if n > 0 {
      RenderPrefix(k, text, c, n - 1);
    }
  }

  /** Consuming the first m characters of the buffer. */
  lemma {:induction false} SendKeepsWaiting(s: Session, t: Session, m: nat)
    requires Waiting(s) && m <= |s.sender.buffer| && t.accepted == s.accepted && t.sender.buffer == s.sender.buffer[m..]
    ensures Waiting(t)
  {
    forall i | 0 <= i < |t.sender.buffer| ensures t.sender.buffer[i] == t.accepted[Consumed(t) + i] {
      assert t.sender.buffer[i] == s.sender.buffer[m + i];
    }
  }

  lemma {:induction false} CanSendKeepsProtocol(k: Keymap, s: Session)
    requires k.Valid() && Protocol(s) && s.sender.requests == 1
    ensures Protocol(OnCanSend(k, s))
  {
    hide Keymap.KeyFor, Keyless, Waiting;
    match s.sender.state
    case W4Input =>
    case W4CanSendFromBuffer =>
      var n := Keyless(k, s.sender.buffer);
      SendKeepsWaiting(s, OnCanSend(k, s), if n < |s.sender.buffer| then n + 1 else n);
    case W4CanSendKeyUp =>
      SendKeepsWaiting(s, OnCanSend(k, s), 0);
  }

  lemma {:induction false} TypedWaiting(s: Session, c: byte)
    requires Waiting(s)
    ensures Waiting(OnTyped(s, c))
  {
    var t, from := OnTyped(s, c), Consumed(s);
    assert Consumed(t) == from;
    forall i | 0 <= i < |t.sender.buffer| ensures t.sender.buffer[i] == t.accepted[from + i] {
      if i < |s.sender.buffer| {
        assert t.sender.buffer[i] == s.sender.buffer[i] == s.accepted[from + i] == t.accepted[from + i];
      }
    }
  }

  lemma {:induction false} TypedKeepsProtocol(s: Session, c: byte)
    requires Protocol(s)
    ensures Protocol(OnTyped(s, c))
  {
    TypedWaiting(s, c);
    assert OnTyped(s, c).reports == s.reports;
    hide Waiting;
  }

  lemma {:induction false} StepKeepsProtocol(k: Keymap, s: Session, e: Event)
    requires k.Valid() && Protocol(s)
    ensures Protocol(Step(k, s, e))
  {
    match e
    case Typed(c) => TypedKeepsProtocol(s, c);
    case CanSend => if s.sender.requests != 0 { CanSendKeepsProtocol(k, s); }
    case Enabled =>
    case Disconnected =>
  }

  lemma {:induction false} SkippedRendering(k: Keymap, s: Session, n: nat)
    requires k.Valid() && Protocol(s) && n == Keyless(k, s.sender.buffer)
    ensures Render(k, s.accepted, Consumed(s) + n) == Render(k, s.accepted, Consumed(s))
  {
    var from := Consumed(s);
    forall i | from <= i < from + n ensures k.KeyFor(s.accepted[i]).None? {
      assert s.accepted[i] == s.sender.buffer[i - from];
    }
    RenderKeyless(k, s.accepted, from, from + n);
  }

  /** What one can-send event in W4_CAN_SEND_FROM_BUFFER does, seen from outside. */
  ghost predicate Sends(k: Keymap, s: Session, t: Session)
    requires k.Valid()
  {
    var n := Keyless(k, s.sender.buffer);
    && t.accepted == s.accepted
    && (if n == |s.sender.buffer| then t.reports == s.reports && Consumed(t) == Consumed(s) + n
        else && t.reports == s.reports + [ReportFor(k.KeyFor(s.sender.buffer[n]).value)]
             && Consumed(t) == Consumed(s) + n + 1)
  }

  lemma {:induction false} OneMoreCharacter(k: Keymap, s: Session, t: Session, n: nat)
    requires k.Valid() && t.accepted == s.accepted && n < |s.accepted| && k.KeyFor(s.accepted[n]).Some?
    requires Keys(k, s.reports, |s.reports|) == []
    requires Console(k, s.reports, |s.reports|) == Render(k, s.accepted, n)
    requires Consumed(t) == n + 1 && t.reports == s.reports + [ReportFor(k.KeyFor(s.accepted[n]).value)]
    ensures Echoed(k, t)
  {
    KeyDownPrints(k, s.reports, s.accepted[n]);
  }

  lemma {:induction false} SendEchoes(k: Keymap, s: Session, t: Session)
    requires k.Valid() && Protocol(s) && Echoed(k, s) && s.sender.state == W4CanSendFromBuffer
    requires Sends(k, s, t)
    ensures Echoed(k, t)
  {
    hide Render, Console, Keys, Keyless, Keymap.KeyFor;
    var n := Keyless(k, s.sender.buffer);
    SkippedRendering(k, s, n);
    if n < |s.sender.buffer| {
      assert s.accepted[Consumed(s) + n] == s.sender.buffer[n];
      NoKeyHeld(k, s);
      OneMoreCharacter(k, s, t, Consumed(s) + n);
    }
  }

  lemma {:induction false} TypedRendering(k: Keymap, s: Session, c: byte)
    requires 0 <= Consumed(s)
    ensures var t := OnTyped(s, c);
            Consumed(t) == Consumed(s) && Render(k, t.accepted, Consumed(t)) == Render(k, s.accepted, Consumed(s))
  {
    RenderPrefix(k, s.accepted, c, Consumed(s));
  }

  lemma {:induction false} KeyUpEchoes(k: Keymap, s: Session)
    requires k.Valid() && Protocol(s) && Echoed(k, s) && s.sender.state == W4CanSendKeyUp
    ensures Echoed(k, OnCanSend(k, s))
  {
    var t := OnCanSend(k, s);
    assert t.reports == s.reports + [KEY_UP] && t.accepted == s.accepted && Consumed(t) == Consumed(s);
    KeyUpPrintsNothing(k, s.reports);
  }

  lemma {:induction false} CanSendEchoes(k: Keymap, s: Session)
    requires k.Valid() && Protocol(s) && Echoed(k, s)
    ensures Echoed(k, OnCanSend(k, s))
  {
    hide Render, Console, Keys, Keyless, Keymap.KeyFor, Protocol;
    match s.sender.state
    case W4Input =>
    case W4CanSendFromBuffer => SendEchoes(k, s, OnCanSend(k, s));
    case W4CanSendKeyUp => KeyUpEchoes(k, s);
  }

  lemma {:induction false} StepEchoes(k: Keymap, s: Session, e: Event)
    requires k.Valid() && Protocol(s) && Echoed(k, s)
    ensures Echoed(k, Step(k, s, e))
  {
    hide Render, Console, Protocol, OnCanSend;
    match e
    case Typed(c) => TypedRendering(k, s, c);
    case CanSend => if s.sender.requests != 0 { CanSendEchoes(k, s); }
    case Enabled =>
    case Disconnected =>
  }

  /** In every reachable state at most one request is open, and only while a host is there and something is to be sent;
      an idle sender holds only what was typed without a host; and key-down and key-up reports alternate. */
  lemma {:induction false} NoLostWakeUp(k: Keymap, events: seq<Event>)
    requires k.Valid()
    ensures Protocol(Run(k, events))
  {
    if events != [] {
      NoLostWakeUp(k, events[..|events| - 1]);
      StepKeepsProtocol(k, Run(k, events[..|events| - 1]), events[|events| - 1]);
    }
  }

  /** The round trip: at every moment of every session the host shows exactly the rendering of the
      characters that have left the buffer. Whenever the sender is idle these are all accepted ones but those typed
      without a host since. */
  lemma {:induction false} RoundTrip(k: Keymap, events: seq<Event>)
    requires k.Valid()
    ensures var s := Run(k, events);
            && 0 <= Consumed(s)
            && Console(k, s.reports, |s.reports|) == Render(k, s.accepted, Consumed(s))
            && (s.sender.state == W4Input ==> Consumed(s) == |s.accepted| - s.held)
  {
    NoLostWakeUp(k, events);
    if events != [] {
      var before := events[..|events| - 1];
      RoundTrip(k, before);
      NoLostWakeUp(k, before);
      StepEchoes(k, Run(k, before), events[|events| - 1]);
    }
  }

  /** A typed character is taken exactly if fewer than 20 wait, with or without a host. */
  lemma {:induction false} TakesWhileRoom(k: Keymap, events: seq<Event>, c: byte)
    requires k.Valid()
    ensures var s, t := Run(k, events), Run(k, events + [Typed(c)]);
            t.accepted == (if |s.accepted| - Consumed(s) < 20 then s.accepted + [c] else s.accepted)
            && Consumed(t) == Consumed(s)
  {
    hide OnCanSend;
    assert (events + [Typed(c)])[..|events|] == events;
  }

  // ----- what the user of the host sees

  /** A terminal: what is in front of the cursor, and what is behind it in the line. */
  datatype Screen = Screen(before: seq<byte>, behind: seq<byte>)

  const CURSOR_BACK: byte := 8
  const SPACE: byte := 32

  predicate AtLineStart(text: seq<byte>) {
    text == [] || text[|text| - 1] == CHAR_RETURN
  }

  /** Moving the cursor back stops at the start of the line; other characters overwrite what is behind the cursor. */
  function Put(s: Screen, c: byte): Screen {
    if c == CURSOR_BACK then
      if AtLineStart(s.before) then s
      else Screen(s.before[..|s.before| - 1], [s.before[|s.before| - 1]] + s.behind)
    else if c == CHAR_RETURN then Screen(s.before + [c], [])
    else Screen(s.before + [c], Tail(s.behind))
  }

  function Display(output: seq<byte>): Screen {
    if output == [] then Screen([], [])
    else Put(Display(output[..|output| - 1]), output[|output| - 1])
  }

  /** A text with its corrections carried out: delete removes the character before it in the line. */
  function Edited(k: Keymap, text: seq<byte>, n: nat): seq<byte>
    requires n <= |text|
  {
    if n == 0 then []
    else
      var rest, c := Edited(k, text, n - 1), text[n - 1];
      if !Visible(k, c) then rest
      else if c != CHAR_BACKSPACE then rest + [c]
      else if AtLineStart(rest) then rest
      else rest[..|rest| - 1]
  }

  /** The screen shows this text, with the cursor at its end. */
  ghost predicate Reads(s: Screen, text: seq<byte>) {
    s.before == text && forall i :: 0 <= i < |s.behind| ==> s.behind[i] == SPACE
  }

  function Tail(behind: seq<byte>): seq<byte> {
    if behind == [] then [] else behind[1..]
  }

  lemma {:induction false} SpaceAndBack(s: Screen)
    ensures Put(Put(s, SPACE), CURSOR_BACK) == Screen(s.before, [SPACE] + Tail(s.behind))
  {
    assert (s.before + [SPACE])[..|s.before|] == s.before;
  }

  lemma {:induction false} PutDelete(s: Screen, text: seq<byte>)
    requires Reads(s, text)
    ensures Reads(Put(Put(Put(s, CURSOR_BACK), SPACE), CURSOR_BACK),
                  if AtLineStart(text) then text else text[..|text| - 1])
  {
    var back := Put(s, CURSOR_BACK);
    SpaceAndBack(back);
    assert AtLineStart(text) || Tail(back.behind) == s.behind;
    hide Put;
  }

  lemma {:induction false} DisplayPlus(output: seq<byte>, c: byte)
    ensures Display(output + [c]) == Put(Display(output), c)
  {
    hide Put;
    assert (output + [c])[..|output|] == output;
  }

  lemma {:induction false} DisplayText(output: seq<byte>, text: seq<byte>, c: byte)
    requires Reads(Display(output), text) && c != CURSOR_BACK
    ensures Reads(Display(output + Text(c)),
                  if c != CHAR_BACKSPACE then text + [c]
                  else if AtLineStart(text) then text
                  else text[..|text| - 1])
  {
    DisplayPlus(output, if c == CHAR_BACKSPACE then CURSOR_BACK else c);
    if c == CHAR_BACKSPACE {
      var a := output + [CURSOR_BACK];
      DisplayPlus(a, SPACE);
      DisplayPlus(a + [SPACE], CURSOR_BACK);
      assert a + [SPACE] + [CURSOR_BACK] == output + Text(c);
      PutDelete(Display(output), text);
      hide Put, Display, Reads;
    }
    hide Display;
  }

  lemma {:induction false} RenderReads(k: Keymap, text: seq<byte>, n: nat)
    requires n <= |text| && CURSOR_BACK !in k.none && CURSOR_BACK !in k.shift
    ensures Reads(Display(Render(k, text, n)), Edited(k, text, n))
  {
    if n > 0 {
      RenderReads(k, text, n - 1);
      var c := text[n - 1];
      if Visible(k, c) {
        DisplayText(Render(k, text, n - 1), Edited(k, text, n - 1), c);
      }
      hide Display, Reads;
    }
  }

  /** At every moment of every session the screen of the host shows the characters that have left the buffer, with their
      corrections. */
  lemma {:induction false} ScreenShowsText(k: Keymap, events: seq<Event>)
    requires k.Valid() && CURSOR_BACK !in k.none && CURSOR_BACK !in k.shift
    ensures var s := Run(k, events);
            0 <= Consumed(s) && Reads(Display(Console(k, s.reports, |s.reports|)), Edited(k, s.accepted, Consumed(s)))
  {
    hide *;
    RoundTrip(k, events);
    var s := Run(k, events);
    AtMostAll(s);
    RenderReads(k, s.accepted, Consumed(s));
  }

  lemma {:induction false} AtMostAll(s: Session)
    ensures Consumed(s) <= |s.accepted|
  {
  }

  // ----- a connection that ends while something is being sent

  /** Was there a disconnection while the sender was not idle? */
  predicate Interrupted(k: Keymap, events: seq<Event>)
    requires k.Valid()
  {
    events != [] &&
    var before, e := events[..|events| - 1], events[|events| - 1];
    Interrupted(k, before) || (e == Disconnected && Run(k, before).sender.state != W4Input)
  }

  /** Only then is a wake-up lost. */
  lemma {:induction false} CutExactly(k: Keymap, events: seq<Event>)
    requires k.Valid()
    ensures Cut(Run(k, events)) <==> Interrupted(k, events)
  {
    hide Keyless;
    if events != [] {
      var before := events[..|events| - 1];
      CutExactly(k, before);
      NoLostWakeUp(k, before);
    }
  }

  /** Then nothing is ever sent again, whoever connects and whatever is typed. */
  lemma {:induction false} CutForGood(k: Keymap, events: seq<Event>, n: nat)
    requires k.Valid() && n <= |events| && Cut(Run(k, events[..n]))
    ensures var s, t := Run(k, events[..n]), Run(k, events);
            Cut(t) && t.reports == s.reports && Consumed(t) == Consumed(s)
  {
    hide OnCanSend;
    if n == |events| {
      assert events[..n] == events;
    } else {
      var before := events[..|events| - 1];
      assert before[..n] == events[..n];
      CutForGood(k, before, n);
    }
  }

  /** A host that leaves after the first character was typed and before it was sent: no report is ever sent. */
  lemma {:induction false} DeafAfterDisconnect(k: Keymap, c: byte, more: seq<Event>)
    requires k.Valid()
    ensures Run(k, [Enabled, Typed(c), Disconnected] + more).reports == []
  {
    var events := [Enabled, Typed(c), Disconnected];
    hide OnCanSend;
    assert events[..2] == [Enabled, Typed(c)] && events[..2][..1] == [Enabled] && [Enabled][..0] == [];
    assert (events + more)[..3] == events;
    assert Run(k, [Enabled]) == OnEnabled(Run(k, []));
    assert Run(k, events[..2]) == OnTyped(Run(k, [Enabled]), c);
    assert Run(k, events) == OnDisconnected(Run(k, events[..2]));
    CutForGood(k, events + more, 3);
  }

  // ----- delivery

  /** Can-send events that are still needed: two for each character, one less for the one in flight. */
  function Work(s: Sender): nat {
    match s.state
    case W4Input => 0
    case W4CanSendFromBuffer => 2 * |s.buffer| + 1
    case W4CanSendKeyUp => 2 * |s.buffer| + 2
  }

  lemma {:induction false} CanSendWorks(k: Keymap, s: Session)
    requires k.Valid() && Protocol(s) && !Cut(s)
    ensures Work(s.sender) == 0 <==> s.sender.state == W4Input
    ensures var t := Step(k, s, CanSend);
            && Work(t.sender) <= (if Work(s.sender) == 0 then 0 else Work(s.sender) - 1)
            && !Cut(t) && t.accepted == s.accepted && t.held == s.held
  {
  }

  function CanSends(n: nat): seq<Event> {
    seq(n, _ => CanSend)
  }

  lemma {:induction false} OneMoreCanSend(k: Keymap, events: seq<Event>, n: nat)
    requires k.Valid() && n > 0
    ensures Run(k, events + CanSends(n)) == Step(k, Run(k, events + CanSends(n - 1)), CanSend)
  {
    hide OnCanSend, OnTyped;
    var all := events + CanSends(n);
    assert all[..|all| - 1] == events + CanSends(n - 1) && all[|all| - 1] == CanSend;
  }

  /** A session after n more can-send events. */
  function Drained(k: Keymap, s: Session, n: nat): Session
    requires k.Valid()
  {
    if n == 0 then s else Step(k, Drained(k, s, n - 1), CanSend)
  }

  lemma {:induction false} RunDrains(k: Keymap, events: seq<Event>, n: nat)
    requires k.Valid()
    ensures Run(k, events + CanSends(n)) == Drained(k, Run(k, events), n)
  {
    hide Step, Run;
    if n == 0 {
      assert events + CanSends(n) == events;
    } else {
      RunDrains(k, events, n - 1);
      OneMoreCanSend(k, events, n);
    }
  }

  /** Every can-send event brings the sender closer to idle, unless its connection was lost. */
  lemma {:induction false} WorkDone(k: Keymap, s: Session, n: nat)
    requires k.Valid() && Protocol(s) && !Cut(s)
    ensures var t := Drained(k, s, n);
            && Protocol(t) && !Cut(t) && t.accepted == s.accepted && t.held == s.held
            && Work(t.sender) <= (if n < Work(s.sender) then Work(s.sender) - n else 0)
  {
    hide Step, Protocol, Work, Cut;
    if n > 0 {
      WorkDone(k, s, n - 1);
      StepKeepsProtocol(k, Drained(k, s, n - 1), CanSend);
      CanSendWorks(k, Drained(k, s, n - 1));
    }
  }

  /** Everything accepted is delivered, but what was typed without a host and followed by nothing typed with one: once
      typing stops, Work many can-send events bring it to the host. */
  lemma {:induction false} AllDelivered(k: Keymap, events: seq<Event>, n: nat)
    requires k.Valid() && !Interrupted(k, events) && n >= Work(Run(k, events).sender)
    ensures var s, t := Run(k, events), Run(k, events + CanSends(n));
            && 0 <= |s.accepted| - s.held
            && Console(k, t.reports, |t.reports|) == Render(k, s.accepted, |s.accepted| - s.held)
  {
    hide *;
    var s, t := Run(k, events), Run(k, events + CanSends(n));
    NoLostWakeUp(k, events);
    CutExactly(k, events);
    RunDrains(k, events, n);
    WorkDone(k, s, n);
    CanSendWorks(k, t);
    RoundTrip(k, events + CanSends(n));
  }

  lemma {:induction false} KeyUpIsEmpty()
    ensures KEY_UP == [0, 0, 0, 0, 0, 0, 0, 0]
  {
  }

  /** The tables of the two programs meet the conditions. */
  lemma {:induction false} UsKeymapValid()
    ensures US_KEYMAP.Valid() && CURSOR_BACK !in US_KEYMAP.none && CURSOR_BACK !in US_KEYMAP.shift
  {
    UsSizes();
    UsWithout();
    UsMarksWithout();
    hide LETTERS, CAPITALS, DIGITS, SHIFTED_DIGITS, CONTROLS, MARKS, SHIFTED_MARKS, POINTS, SHIFTED_POINTS, KEYPAD,
         Illegal;
  }

  lemma {:induction false} UsWithout()
    ensures CURSOR_BACK !in LETTERS && CURSOR_BACK !in CAPITALS && CURSOR_BACK !in KEYPAD
    ensures CURSOR_BACK !in DIGITS && CURSOR_BACK !in SHIFTED_DIGITS
  {
  }

  lemma {:induction false} UsMarksWithout()
    ensures CURSOR_BACK !in CONTROLS && CURSOR_BACK !in MARKS && CURSOR_BACK !in SHIFTED_MARKS
    ensures CURSOR_BACK !in POINTS && CURSOR_BACK !in SHIFTED_POINTS
  {
  }
}
