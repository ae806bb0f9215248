/** The typing side of hog_keyboard_demo.c (console build): characters wait in a 20 byte ring and leave as
    key-down / key-up report pairs, one report for each "can send now" event that was requested. */
module HogKeyboard {
  import opened Wrappers
  import opened ByteRing
  import opened HidKeymap

  const INPUT_CAPACITY: nat := 20

  type Report = r: seq<byte> | |r| == 8 witness [0, 0, 0, 0, 0, 0, 0, 0]

  datatype TypingState = W4Input | W4CanSendFromBuffer | W4CanSendKeyUp

  /** Sender state: pending characters, the number of unanswered can-send requests, and whether a host has enabled the
      input report, so that con_handle is valid. */
  datatype Sender = Sender(state: TypingState, buffer: seq<byte>, requests: nat, connected: bool)

  datatype Event = Typed(c: byte) | CanSend | Enabled | Disconnected

  /** A session so far: the sender, the characters its buffer took, every report it sent, and how many characters the
      buffer took without a host since the last one typed with a host. */
  datatype Session = Session(sender: Sender, accepted: seq<byte>, reports: seq<Report>, held: nat)

  function ReportFor(key: Key): Report {
    [key.modifier, 0, key.keycode, 0, 0, 0, 0, 0]
  }

  const KEY_UP: Report := ReportFor(Key(0, 0))

  /** How many characters at the front of the buffer have no key and are skipped. */
  function Keyless(k: Keymap, buffer: seq<byte>): (n: nat)
    requires k.Valid()
    ensures n <= |buffer|
    ensures forall i :: 0 <= i < n ==> k.KeyFor(buffer[i]).None?
    ensures n < |buffer| ==> k.KeyFor(buffer[n]).Some?
  {
    if buffer == [] || k.KeyFor(buffer[0]).Some? then 0 else 1 + Keyless(k, buffer[1..])
  }

  function OnTyped(s: Session, c: byte): Session {
    var fits := |s.sender.buffer| < INPUT_CAPACITY;
    var starts := s.sender.state == W4Input && s.sender.connected;
    Session(
      Sender(
        if starts then W4CanSendFromBuffer else s.sender.state,
        if fits then s.sender.buffer + [c] else s.sender.buffer,
        if starts then s.sender.requests + 1 else s.sender.requests,
        s.sender.connected),
      if fits then s.accepted + [c] else s.accepted,
      s.reports,
      if s.sender.connected then 0 else if fits then s.held + 1 else s.held)
  }

  function OnCanSend(k: Keymap, s: Session): Session
    requires k.Valid()
  {
    var open := if s.sender.requests > 0 then s.sender.requests - 1 else 0;
    match s.sender.state
    case W4Input => s.(sender := s.sender.(requests := open))
    case W4CanSendFromBuffer =>
      var n := Keyless(k, s.sender.buffer);
      if n == |s.sender.buffer| then s.(sender := Sender(W4Input, [], open, s.sender.connected))
      else s.(sender := Sender(W4CanSendKeyUp, s.sender.buffer[n + 1..], open + 1, s.sender.connected),
              reports := s.reports + [ReportFor(k.KeyFor(s.sender.buffer[n]).value)])
    case W4CanSendKeyUp =>
      s.(sender := if s.sender.buffer != []
                   then Sender(W4CanSendFromBuffer, s.sender.buffer, open + 1, s.sender.connected)
                   else Sender(W4Input, [], open, s.sender.connected),
         reports := s.reports + [KEY_UP])
  }

  function OnEnabled(s: Session): Session {
    s.(sender := s.sender.(connected := true))
  }

  /** Requests are kept with the connection and are lost with it. */
  function OnDisconnected(s: Session): Session {
    s.(sender := s.sender.(connected := false, requests := 0))
  }

  /** A can-send event answers a request. */
  function Step(k: Keymap, s: Session, e: Event): Session
    requires k.Valid()
  {
    match e
    case Typed(c) => OnTyped(s, c)
    case CanSend => if s.sender.requests == 0 then s else OnCanSend(k, s)
    case Enabled => OnEnabled(s)
    case Disconnected => OnDisconnected(s)
  }

  /** Any interleaving of typed characters, can-send events and connections, from an idle sender without a host. */
  function Run(k: Keymap, events: seq<Event>): Session
    requires k.Valid()
  {
    if events == [] then Session(Sender(W4Input, [], 0, false), [], [], 0)
    else Step(k, Run(k, events[..|events| - 1]), events[|events| - 1])
  }

  class Keyboard {
    const keymap: Keymap
    const asciiInputBuffer: RingBuffer
    var state: TypingState
    var requests: nat          // can-send requests handed to the HID service and not yet answered
    var reports: seq<Report>   // reports handed to the HID service
    var connected: bool        // con_handle is valid
    ghost var accepted: seq<byte>
    ghost var held: nat        // characters taken without a host since the last one typed with a host

    ghost predicate Valid()
      reads this, asciiInputBuffer, asciiInputBuffer.storage
    {
      && keymap.Valid()
      && asciiInputBuffer.Valid()
      && asciiInputBuffer.storage.Length == INPUT_CAPACITY
    }

    ghost function View(): Session
      reads this, asciiInputBuffer
    {
      Session(Sender(state, asciiInputBuffer.contents, requests, connected), accepted, reports, held)
    }

    constructor (k: Keymap)
      requires k.Valid()
      ensures Valid() && keymap == k && View() == Run(k, [])
      ensures fresh(asciiInputBuffer) && fresh(asciiInputBuffer.storage)
    {
      keymap := k;
      asciiInputBuffer := new RingBuffer(INPUT_CAPACITY);
      state, requests, reports, connected, accepted, held := W4Input, 0, [], false, [], 0;
    }

    /** stdin_process */
    method StdinProcess(c: byte)
      requires Valid()
      modifies this, asciiInputBuffer, asciiInputBuffer.storage
      ensures Valid() && View() == OnTyped(old(View()), c)
    {
      var ok := asciiInputBuffer.Write([c]);
      if ok {
        accepted := accepted + [c];
      }
      held := if connected then 0 else if ok then held + 1 else held;
      if state == W4Input && connected {
        state := W4CanSendFromBuffer;
        requests := requests + 1;
      }
    }

    /** The host subscribes to the input report. */
    method InputReportEnable()
      requires Valid()
      modifies this`connected
      ensures Valid() && View() == OnEnabled(old(View()))
    {
      connected := true;
    }

    /** A disconnection invalidates con_handle, and the open request is not answered any more. */
    method DisconnectionComplete()
      requires Valid()
      modifies this`connected, this`requests
      ensures Valid() && View() == OnDisconnected(old(View()))
    {
      connected := false;
      requests := 0;
    }

    method KeycodeAndModifierForCharacter(character: byte) returns (found: bool, key: Key)
      requires keymap.Valid()
      ensures found <==> keymap.KeyFor(character).Some?
      ensures found ==> Some(key) == keymap.KeyFor(character)
    {
      key := Key(0, 0);
      var keycode;
      found, keycode := LookupKeycode(character, keymap.none);
      if found {
        return true, Key(0, keycode);
      }
      found, keycode := LookupKeycode(character, keymap.shift);
      if found {
        return true, Key(MODIFIER_SHIFT, keycode);
      }
    }

    /** typing_can_send_now, called for one answered request */
    method TypingCanSendNow()
      requires Valid()
      modifies this, asciiInputBuffer
      ensures Valid() && View() == OnCanSend(keymap, old(View()))
    {
      hide RingBuffer.Valid, Keyless, Keymap.KeyFor;
      requests := if requests > 0 then requests - 1 else 0;
      match state {
        case W4Input =>
        case W4CanSendFromBuffer => SendFromBuffer();
        case W4CanSendKeyUp =>
          reports := reports + [KEY_UP];
          if asciiInputBuffer.BytesAvailable() != 0 {
            state := W4CanSendFromBuffer;
            requests := requests + 1;
          } else {
            state := W4Input;
          }
      }
    }

    method SendFromBuffer()
      requires Valid()
      modifies this, asciiInputBuffer
      ensures Valid() && accepted == old(accepted) && held == old(held) && connected == old(connected)
      ensures var buffer := old(asciiInputBuffer.contents);
              var n := Keyless(keymap, buffer);
              if n == |buffer| then
                && asciiInputBuffer.contents == []
                && state == W4Input && requests == old(requests) && reports == old(reports)
              else
                && asciiInputBuffer.contents == buffer[n + 1..]
                && state == W4CanSendKeyUp && requests == old(requests) + 1
                && reports == old(reports) + [ReportFor(keymap.KeyFor(buffer[n]).value)]
    {
      hide RingBuffer.Valid, Keyless, Keymap.KeyFor;
      ghost var buffer := asciiInputBuffer.contents;
      ghost var n := Keyless(keymap, buffer);
      ghost var skipped := 0;
      while true
        invariant Valid() && unchanged(this)
        invariant skipped <= n && asciiInputBuffer.contents == buffer[skipped..]
        decreases |buffer| - skipped
      {
        var data := asciiInputBuffer.Read(1);
        if |data| == 0 {
          state := W4Input;
          break;
        }
        var found, key := KeycodeAndModifierForCharacter(data[0]);
        if found {
          reports := reports + [ReportFor(key)];
          state := W4CanSendKeyUp;
          requests := requests + 1;
          break;
        }
        skipped := skipped + 1;
      }
    }
  }
}
