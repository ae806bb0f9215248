/** handle_boot_keyboard_event of hog_boot_host_demo.c: edge detection against the previous report turns
    boot keyboard reports into console text. */
module HogBootHost {
  import opened ByteRing
  import opened HidKeymap
  import opened HogKeyboard

  const NUM_KEYS: nat := 6

  /** The first `n` usages of a report, those outside the tables dropped. */
  function Held(k: Keymap, r: Report, n: nat): (h: seq<byte>)
    requires k.Valid() && n <= NUM_KEYS
    ensures |h| <= n
  {
    if n == 0 then []
    else
      var u := r[1 + n];
      var rest := Held(k, r, n - 1);
      if 0 < u < |k.none| then rest + [u] else rest
  }

  /** What a printable character puts on the console. */
  function Text(c: byte): seq<byte> {
    if c == CHAR_BACKSPACE then [8, 32, 8] else [c]
  }

  /** A usage prints when the tables cover it, it was not held before, and it has a character. */
  predicate Prints(k: Keymap, previous: seq<byte>, key: Key)
    requires k.Valid()
  {
    0 < key.keycode < |k.none| && key.keycode !in previous && k.Character(key) != CHAR_ILLEGAL
  }

  /** What the first `n` usages of a report print. */
  function Echo(k: Keymap, previous: seq<byte>, r: Report, n: nat): seq<byte>
    requires k.Valid() && n <= NUM_KEYS
  {
    if n == 0 then []
    else
      var key := Key(r[0], r[1 + n]);
      var rest := Echo(k, previous, r, n - 1);
      if Prints(k, previous, key) then rest + Text(k.Character(key)) else rest
  }

  /** Keys held after the first `n` reports. */
  function Keys(k: Keymap, reports: seq<Report>, n: nat): (h: seq<byte>)
    requires k.Valid() && n <= |reports|
    ensures |h| <= NUM_KEYS
  {
    if n == 0 then [] else Held(k, reports[n - 1], |reports[n - 1]| - 2)
  }

  /** The text printed for the first `n` reports. */
  function Console(k: Keymap, reports: seq<Report>, n: nat): seq<byte>
    requires k.Valid() && n <= |reports|
  {
    if n == 0 then []
    else Console(k, reports, n - 1) + Echo(k, Keys(k, reports, n - 1), reports[n - 1], |reports[n - 1]| - 2)
  }

  lemma {:induction false} ConsolePrefix(k: Keymap, reports: seq<Report>, r: Report, n: nat)
    requires k.Valid() && n <= |reports|
    ensures Console(k, reports + [r], n) == Console(k, reports, n)
    ensures Keys(k, reports + [r], n) == Keys(k, reports, n)
  {
    hide Echo, Held;
    if n > 0 {
      ConsolePrefix(k, reports, r, n - 1);
    }
  }

  /** One more report. */
  lemma {:induction false} ConsoleAppend(k: Keymap, reports: seq<Report>, r: Report)
    requires k.Valid()
    ensures var n := |reports|;
            && Keys(k, reports + [r], n + 1) == Held(k, r, |r| - 2)
            && Console(k, reports + [r], n + 1)
               == Console(k, reports, n) + Echo(k, Keys(k, reports, n), r, |r| - 2)
  {
    ConsolePrefix(k, reports, r, |reports|);
  }

  // ----- the console in terms of the bytes of the reports

  /** The usage in a slot. */
  function Usage(r: Report, slot: nat): byte
    requires slot < NUM_KEYS
  {
    r[2 + slot]
  }

  predicate Shows(r: Report, u: byte) {
    exists slot :: 0 <= slot < NUM_KEYS && Usage(r, slot) == u
  }

  /** A slot counts as a key press if its usage has a character and is in no slot of the report before. */
  predicate IsPress(k: Keymap, reports: seq<Report>, i: nat, slot: nat)
    requires k.Valid() && i < |reports| && slot < NUM_KEYS
  {
    var u := Usage(reports[i], slot);
    && 0 < u < |k.none| && k.Character(Key(reports[i][0], u)) != CHAR_ILLEGAL
    && (i > 0 ==> !Shows(reports[i - 1], u))
  }

  /** Slot `slot` of report `report`. */
  datatype Press = Press(report: nat, slot: nat)

  /** Key presses in the first m slots of report i. */
  function PressesOf(k: Keymap, reports: seq<Report>, i: nat, m: nat): seq<Press>
    requires k.Valid() && i < |reports| && m <= NUM_KEYS
  {
    if m == 0 then []
    else PressesOf(k, reports, i, m - 1) + if IsPress(k, reports, i, m - 1) then [Press(i, m - 1)] else []
  }

  /** Key presses in the first n reports. */
  function Presses(k: Keymap, reports: seq<Report>, n: nat): seq<Press>
    requires k.Valid() && n <= |reports|
  {
    if n == 0 then [] else Presses(k, reports, n - 1) + PressesOf(k, reports, n - 1, |reports[n - 1]| - 2)
  }

  /** In the order of reports and slots. */
  predicate Before(p: Press, q: Press) {
    p.report < q.report || (p.report == q.report && p.slot < q.slot)
  }

  ghost predicate InOrder(ps: seq<Press>) {
    forall a, b :: 0 <= a < b < |ps| ==> Before(ps[a], ps[b])
  }

  lemma {:induction false} PressesInReport(k: Keymap, reports: seq<Report>, i: nat, m: nat)
    requires k.Valid() && i < |reports| && m <= NUM_KEYS
    ensures var ps := PressesOf(k, reports, i, m);
            && InOrder(ps)
            && forall p :: p in ps <==> p.report == i && p.slot < m && IsPress(k, reports, i, p.slot)
  {
    hide IsPress;
    if m > 0 {
      PressesInReport(k, reports, i, m - 1);
    }
  }

  /** They are listed in order, each once, and none is left out. */
  lemma {:induction false} PressesExactly(k: Keymap, reports: seq<Report>, n: nat)
    requires k.Valid() && n <= |reports|
    ensures var ps := Presses(k, reports, n);
            && InOrder(ps)
            && forall p :: p in ps <==> p.report < n && p.slot < NUM_KEYS && IsPress(k, reports, p.report, p.slot)
  {
    hide IsPress, PressesOf;
    if n > 0 {
      PressesExactly(k, reports, n - 1);
      PressesInReport(k, reports, n - 1, |reports[n - 1]| - 2);
    }
  }

  /** What the presses look like on the console. */
  function Spelled(k: Keymap, reports: seq<Report>, ps: seq<Press>): seq<byte>
    requires k.Valid()
  {
    if ps == [] then [] else Spelled(k, reports, ps[..|ps| - 1]) + Letter(k, reports, ps[|ps| - 1])
  }

  function Letter(k: Keymap, reports: seq<Report>, p: Press): seq<byte>
    requires k.Valid()
  {
    if p.report < |reports| && p.slot < NUM_KEYS && Usage(reports[p.report], p.slot) < |k.none|
    then Text(k.Character(Key(reports[p.report][0], Usage(reports[p.report], p.slot)))) else []
  }

  lemma {:induction false} HeldShows(k: Keymap, r: Report, n: nat, u: byte)
    requires k.Valid() && n <= NUM_KEYS && 0 < u < |k.none|
    ensures u in Held(k, r, n) <==> exists slot :: 0 <= slot < n && Usage(r, slot) == u
  {
    if n > 0 {
      HeldShows(k, r, n - 1, u);
      assert r[1 + n] == Usage(r, n - 1);
    }
  }

  lemma {:induction false} PrintsPress(k: Keymap, reports: seq<Report>, i: nat, slot: nat)
    requires k.Valid() && i < |reports| && slot < NUM_KEYS
    ensures Prints(k, Keys(k, reports, i), Key(reports[i][0], Usage(reports[i], slot))) <==>
            IsPress(k, reports, i, slot)
    ensures IsPress(k, reports, i, slot) ==> Usage(reports[i], slot) < |k.none|
  {
    var u := Usage(reports[i], slot);
    if i > 0 && 0 < u < |k.none| {
      HeldShows(k, reports[i - 1], |reports[i - 1]| - 2, u);
    }
  }

  lemma {:induction false} SpelledPlus(k: Keymap, reports: seq<Report>, ps: seq<Press>, qs: seq<Press>)
    requires k.Valid()
    ensures Spelled(k, reports, ps + qs) == Spelled(k, reports, ps) + Spelled(k, reports, qs)
  {
    hide Letter;
    if qs == [] {
      assert ps + qs == ps;
    } else {
      var front := qs[..|qs| - 1];
      SpelledPlus(k, reports, ps, front);
      assert (ps + qs)[..|ps + qs| - 1] == ps + front;
    }
  }

  lemma {:induction false} EchoSpells(k: Keymap, reports: seq<Report>, i: nat, m: nat)
    requires k.Valid() && i < |reports| && m <= NUM_KEYS
    ensures Echo(k, Keys(k, reports, i), reports[i], m) == Spelled(k, reports, PressesOf(k, reports, i, m))
  {
    hide Keys, IsPress, Prints, Text, Keymap.Character;
    if m > 0 {
      EchoSpells(k, reports, i, m - 1);
      PrintsPress(k, reports, i, m - 1);
      var ps, p := PressesOf(k, reports, i, m - 1), Press(i, m - 1);
      if IsPress(k, reports, i, m - 1) {
        assert (ps + [p])[..|ps|] == ps;
      } else {
        assert ps + [] == ps;
      }
    }
  }

  /** The console shows exactly the key presses, in order: the characters of slots whose usage was in no slot of the
      report before. */
  lemma {:induction false} ConsoleSpells(k: Keymap, reports: seq<Report>, n: nat)
    requires k.Valid() && n <= |reports|
    ensures Console(k, reports, n) == Spelled(k, reports, Presses(k, reports, n))
  {
    hide Echo, Keys, PressesOf, Letter, IsPress;
    if n > 0 {
      ConsoleSpells(k, reports, n - 1);
      var m := |reports[n - 1]| - 2;
      EchoSpells(k, reports, n - 1, m);
      var front, last := Presses(k, reports, n - 1), PressesOf(k, reports, n - 1, m);
      SpelledPlus(k, reports, front, last);
      assert Presses(k, reports, n) == front + last;
      hide Spelled, Presses;
    }
  }

  /** A report that repeats the one before prints nothing, whatever is held. */
  lemma {:induction false} RepeatPrintsNothing(k: Keymap, reports: seq<Report>, r: Report)
    requires k.Valid() && |reports| > 0 && r == reports[|reports| - 1]
    ensures Console(k, reports + [r], |reports| + 1) == Console(k, reports, |reports|)
  {
    ConsoleAppend(k, reports, r);
    NothingNew(k, reports, r, |r| - 2);
  }

  lemma {:induction false} NothingNew(k: Keymap, reports: seq<Report>, r: Report, m: nat)
    requires k.Valid() && |reports| > 0 && m <= NUM_KEYS && r == reports[|reports| - 1]
    ensures Echo(k, Keys(k, reports, |reports|), r, m) == []
  {
    if m > 0 {
      NothingNew(k, reports, r, m - 1);
      var u := r[1 + m];
      if 0 < u < |k.none| {
        HeldShows(k, r, |r| - 2, u);
        assert Usage(r, m - 1) == u;
      }
    }
  }

  /** One more key held in an empty slot prints exactly the text of that key. */
  lemma {:induction false} OneMoreKey(k: Keymap, reports: seq<Report>, r: Report, slot: nat, u: byte)
    requires k.Valid() && |reports| > 0 && slot < NUM_KEYS
    requires var before := reports[|reports| - 1];
             Usage(before, slot) == 0 && !Shows(before, u) && r == before[2 + slot := u]
    requires u < |k.none| && k.Character(Key(r[0], u)) != CHAR_ILLEGAL
    ensures Console(k, reports + [r], |reports| + 1) ==
            Console(k, reports, |reports|) + Text(k.Character(Key(r[0], u)))
  {
    ConsoleAppend(k, reports, r);
    OneNew(k, reports, r, slot, u, |r| - 2);
  }

  lemma {:induction false} OneNew(k: Keymap, reports: seq<Report>, r: Report, slot: nat, u: byte, m: nat)
    requires k.Valid() && |reports| > 0 && slot < NUM_KEYS && m <= NUM_KEYS
    requires var before := reports[|reports| - 1];
             Usage(before, slot) == 0 && !Shows(before, u) && r == before[2 + slot := u]
    requires u < |k.none| && k.Character(Key(r[0], u)) != CHAR_ILLEGAL
    ensures Echo(k, Keys(k, reports, |reports|), r, m) ==
            if slot < m then Text(k.Character(Key(r[0], u))) else []
  {
    if m > 0 {
      OneNew(k, reports, r, slot, u, m - 1);
      var before, v := reports[|reports| - 1], r[1 + m];
      assert Usage(before, slot) == 0 ==> u != 0;
      if 0 < v < |k.none| {
        HeldShows(k, before, |before| - 2, v);
        assert m - 1 != slot ==> Usage(before, m - 1) == v;
      }
    }
  }

  class BootHost {
    const keymap: Keymap
    const lastKeys: array<byte>
    var console: seq<byte>
    ghost var received: seq<Report>

    ghost predicate Valid()
      reads this, lastKeys
    {
      && keymap.Valid()
      && lastKeys.Length == NUM_KEYS
      && Stored(Keys(keymap, received, |received|))
      && console == Console(keymap, received, |received|)
    }

    /** last_keys holds the keys, padded with zeros. */
    ghost predicate Stored(keys: seq<byte>)
      reads lastKeys
    {
      && |keys| <= lastKeys.Length
      && forall i :: 0 <= i < lastKeys.Length ==> lastKeys[i] == if i < |keys| then keys[i] else 0
    }

    constructor (k: Keymap)
      requires k.Valid()
      ensures Valid() && received == [] && keymap == k && fresh(lastKeys)
    {
      keymap := k;
      lastKeys := new byte[NUM_KEYS](_ => 0);
      console, received := [], [];
    }

    /** Was the usage part of the previous report? The loop zeroes its copy on a match. */
    method NewUsage(u: byte, ghost keys: seq<byte>) returns (usage: byte)
      requires lastKeys.Length == NUM_KEYS && u != 0 && Stored(keys)
      ensures usage == if u in keys then 0 else u
    {
      usage := u;
      for i := 0 to NUM_KEYS
        invariant usage == 0 || usage == u
        invariant usage == 0 <==> exists j :: 0 <= j < i && lastKeys[j] == u
      {
        if usage == lastKeys[i] {
          usage := 0;
        }
      }
      assert forall j :: 0 <= j < |keys| ==> keys[j] == lastKeys[j];
    }

    /** The report loop: collects the held usages and prints those that are new. */
    method ScanReport(data: Report, ghost keys: seq<byte>) returns (newKeys: seq<byte>, output: seq<byte>)
      requires keymap.Valid() && lastKeys.Length == NUM_KEYS && Stored(keys)
      ensures newKeys == Held(keymap, data, |data| - 2)
      ensures output == Echo(keymap, keys, data, |data| - 2)
    {
      newKeys, output := [], [];
      for keyIndex := 0 to NUM_KEYS
        invariant newKeys == Held(keymap, data, keyIndex)
        invariant output == Echo(keymap, keys, data, keyIndex)
      {
        var usage := data[2 + keyIndex];
        if usage == 0 { continue; }
        if usage >= |keymap.none| { continue; }
        newKeys := newKeys + [usage];
        usage := NewUsage(usage, keys);
        if usage == 0 { continue; }
        var key := if ShiftPressed(data[0]) then keymap.shift[usage] else keymap.none[usage];
        if key == CHAR_ILLEGAL { continue; }
        if key == CHAR_BACKSPACE {
          output := output + [8, 32, 8];
          continue;
        }
        output := output + [key];
      }
    }

    /** memcpy of the zero-initialised new keys over the last ones */
    method StoreKeys(newKeys: seq<byte>)
      requires |newKeys| <= NUM_KEYS == lastKeys.Length
      modifies lastKeys
      ensures Stored(newKeys)
    {
      forall i | 0 <= i < NUM_KEYS {
        lastKeys[i] := if i < |newKeys| then newKeys[i] else 0;
      }
    }

    method HandleBootKeyboardEvent(data: Report)
      requires Valid()
      modifies this, lastKeys
      ensures Valid() && received == old(received) + [data]
      ensures console == Spelled(keymap, received, Presses(keymap, received, |received|))
      ensures |old(received)| > 0 && data == old(received[|received| - 1]) ==> console == old(console)
    {
      hide Console, Echo, Spelled, Presses, Held, Keys, BootHost.Stored;
      var newKeys, output := ScanReport(data, Keys(keymap, received, |received|));
      StoreKeys(newKeys);
      console := console + output;
      ConsoleAppend(keymap, received, data);
      if |received| > 0 && data == received[|received| - 1] {
        RepeatPrintsNothing(keymap, received, data);
      }
      received := received + [data];
      ConsoleSpells(keymap, received, |received|);
    }
  }
}
