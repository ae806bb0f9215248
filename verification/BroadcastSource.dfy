/** Stream layout of le_audio_broadcast_source_lite.c: the menu chooses mono and stereo subgroups, every subgroup
    gets a generator, and each broadcast isochronous stream (BIS) is served by one stream of one generator. */
module BroadcastSource {
  import opened Arith

  const MAX_NUM_BIS: nat := 4

  datatype Menu = Menu(mono: nat, stereo: nat, numBis: nat)

  datatype Key = AddMono | AddStereo

  /** update_num_bis: too many streams start over from none. */
  function UpdateNumBis(mono: nat, stereo: nat): Menu {
    if mono + 2 * stereo > MAX_NUM_BIS then Menu(0, 0, 0) else Menu(mono, stereo, mono + 2 * stereo)
  }

  function Press(m: Menu, k: Key): Menu {
    match k
    case AddMono => UpdateNumBis(m.mono + 1, m.stereo)
    case AddStereo => UpdateNumBis(0, m.stereo + 1)
  }

  function Pressed(keys: seq<Key>): Menu {
    if keys == [] then Menu(0, 1, 2) else Press(Pressed(keys[..|keys| - 1]), keys[|keys| - 1])
  }

  ghost predicate Consistent(m: Menu) {
    m.numBis == m.mono + 2 * m.stereo <= MAX_NUM_BIS
  }

  lemma {:induction false} MenuConsistent(keys: seq<Key>)
    ensures Consistent(Pressed(keys))
  {
    if keys != [] {
      MenuConsistent(keys[..|keys| - 1]);
    }
  }

  function Times(k: Key, n: nat): seq<Key> {
    if n == 0 then [] else Times(k, n - 1) + [k]
  }

  lemma {:induction false} OneMoreKey(keys: seq<Key>, k: Key)
    ensures Pressed(keys + [k]) == Press(Pressed(keys), k)
  {
    hide Press;
    assert (keys + [k])[..|keys|] == keys;
  }

  lemma {:induction false} StereoTimes(keys: seq<Key>, stereo: nat)
    requires Pressed(keys) == Menu(0, 0, 0) && 2 * stereo <= MAX_NUM_BIS
    ensures Pressed(keys + Times(AddStereo, stereo)) == Menu(0, stereo, 2 * stereo)
  {
    hide Pressed;
    if stereo == 0 {
      assert keys + Times(AddStereo, 0) == keys;
    } else {
      var before := keys + Times(AddStereo, stereo - 1);
      assert keys + Times(AddStereo, stereo) == before + [AddStereo];
      hide Times;
      StereoTimes(keys, stereo - 1);
      OneMoreKey(before, AddStereo);
    }
  }

  lemma {:induction false} MonoTimes(keys: seq<Key>, stereo: nat, mono: nat)
    requires Pressed(keys) == Menu(0, stereo, 2 * stereo) && mono + 2 * stereo <= MAX_NUM_BIS
    ensures Pressed(keys + Times(AddMono, mono)) == Menu(mono, stereo, mono + 2 * stereo)
  {
    hide Pressed;
    if mono == 0 {
      assert keys + Times(AddMono, 0) == keys;
    } else {
      var before := keys + Times(AddMono, mono - 1);
      assert keys + Times(AddMono, mono) == before + [AddMono];
      hide Times;
      MonoTimes(keys, stereo, mono - 1);
      OneMoreKey(before, AddMono);
    }
  }

  /** Every layout that fits can be chosen: two stereo keys empty the menu, then each key adds one of its kind. */
  lemma {:induction false} EveryLayout(stereo: nat, mono: nat)
    requires mono + 2 * stereo <= MAX_NUM_BIS
    ensures var keys := [AddStereo, AddStereo] + Times(AddStereo, stereo) + Times(AddMono, mono);
            Pressed(keys) == Menu(mono, stereo, mono + 2 * stereo)
  {
    OneMoreKey([], AddStereo);
    OneMoreKey([AddStereo], AddStereo);
    assert [] + [AddStereo] == [AddStereo] && [AddStereo] + [AddStereo] == [AddStereo, AddStereo];
    assert Pressed([AddStereo, AddStereo]) == Menu(0, 0, 0);
    hide Pressed, Times;
    StereoTimes([AddStereo, AddStereo], stereo);
    MonoTimes([AddStereo, AddStereo] + Times(AddStereo, stereo), stereo, mono);
  }

  /** A menu that does not fit starts over, and a stereo key resets the mono subgroups. */
  lemma {:induction false} KeysReset(keys: seq<Key>)
    ensures var m := Pressed(keys);
            && (m.numBis == MAX_NUM_BIS ==> Pressed(keys + [AddMono]) == Menu(0, 0, 0))
            && Pressed(keys + [AddStereo]).mono == 0
            && (m.stereo >= 2 ==> Pressed(keys + [AddStereo]) == Menu(0, 0, 0))
  {
    MenuConsistent(keys);
    OneMoreKey(keys, AddMono);
    OneMoreKey(keys, AddStereo);
    hide Pressed;
  }

  // ----- generators

  /** Index behind the last stream of generator `g`, where `channels` are the streams of each generator. */
  function End(channels: seq<nat>, g: nat): nat
    requires g < |channels|
  {
    Sum(channels, g + 1)
  }

  lemma {:induction false} PrefixMonotone(channels: seq<nat>, i: nat, j: nat)
    requires i <= j <= |channels|
    ensures Sum(channels, i) <= Sum(channels, j)
  {
    if i < j {
      PrefixMonotone(channels, i, j - 1);
    }
  }

  lemma {:induction false} PrefixSame(a: seq<nat>, b: seq<nat>, i: nat)
    requires i <= |a| && i <= |b| && a[..i] == b[..i]
    ensures Sum(a, i) == Sum(b, i)
  {
    if i > 0 {
      assert a[..i - 1] == a[..i][..i - 1] && b[..i - 1] == b[..i][..i - 1];
      assert a[i - 1] == a[..i][i - 1] && b[i - 1] == b[..i][i - 1];
      PrefixSame(a, b, i - 1);
    }
  }

  lemma {:induction false} PrefixAppend(channels: seq<nat>, c: nat)
    ensures Sum(channels + [c], |channels| + 1) == Sum(channels, |channels|) + c
  {
    PrefixSame(channels, channels + [c], |channels|);
  }

  /** The generators of a layout: stereo ones first. */
  ghost predicate Built(m: Menu, channels: seq<nat>) {
    && |channels| == m.stereo + m.mono
    && (forall i :: 0 <= i < |channels| ==> channels[i] == if i < m.stereo then 2 else 1)
    && Sum(channels, |channels|) == m.numBis
  }

  /** The generator loop of start_broadcast. */
  method BuildGenerators(m: Menu) returns (channels: seq<nat>)
    requires Consistent(m)
    ensures Built(m, channels)
  {
    channels := [];
    assert Sum(channels, 0) == 0;
    hide Sum;
    var bisCount, stereoStream := m.numBis, m.stereo;
    while bisCount > 0
      invariant |channels| <= m.stereo + m.mono
      invariant stereoStream == if |channels| < m.stereo then m.stereo - |channels| else 0
      invariant bisCount == 2 * stereoStream + (m.stereo + m.mono - |channels| - stereoStream)
      invariant forall i :: 0 <= i < |channels| ==> channels[i] == if i < m.stereo then 2 else 1
      invariant Sum(channels, |channels|) + bisCount == m.numBis
    {
      var c := if stereoStream > 0 then 2 else 1;
      PrefixAppend(channels, c);
      channels := channels + [c];
      if stereoStream > 0 {
        stereoStream := stereoStream - 1;
      }
      bisCount := bisCount - c;
    }
  }

  // ----- which generator and stream a BIS belongs to

  ghost predicate Located(channels: seq<nat>, bis: nat, g: nat, s: nat) {
    g < |channels| && s < channels[g] && Sum(channels, g) + s == bis
  }

  /** The search loop of handle_bis_can_send_now_event. It runs over the BIS, not over the generators, but always
      stops at a generator. */
  method Locate(channels: seq<nat>, numBis: nat, bis: nat) returns (g: nat, s: nat, end: nat)
    requires bis < numBis == Sum(channels, |channels|)
    requires forall i :: 0 <= i < |channels| ==> channels[i] > 0
    ensures Located(channels, bis, g, s) && end == End(channels, g)
  {
    var i := 0;
    end := 0;
    g, s := 0, 0;
    while i < numBis
      invariant i <= |channels| && end == Sum(channels, i) <= bis
      decreases |channels| - i
    {
      if i == |channels| { assert false; }
      g := i;
      s := bis - end;
      end := end + channels[i];
      if bis < end {
        return;
      }
      i := i + 1;
    }
    GeneratorsFit(channels, i);
    assert false;
  }

  lemma {:induction false} GeneratorsFit(channels: seq<nat>, i: nat)
    requires i <= |channels| && forall k :: 0 <= k < |channels| ==> channels[k] > 0
    ensures i <= Sum(channels, i)
  {
    if i > 0 {
      GeneratorsFit(channels, i - 1);
    }
  }

  /** Every BIS index belongs to one stream of one generator only ... */
  lemma {:induction false} LocatedUnique(channels: seq<nat>, bis: nat, g: nat, s: nat, g': nat, s': nat)
    requires Located(channels, bis, g, s) && Located(channels, bis, g', s')
    ensures g == g' && s == s'
  {
    if g < g' {
      PrefixMonotone(channels, g + 1, g');
      assert false;
    }
    if g' < g {
      PrefixMonotone(channels, g' + 1, g);
      assert false;
    }
  }

  /** ... and every stream of every generator is some BIS. */
  lemma {:induction false} LocatedOnto(channels: seq<nat>, g: nat, s: nat)
    requires g < |channels| && s < channels[g]
    ensures Sum(channels, g) + s < Sum(channels, |channels|)
    ensures Located(channels, Sum(channels, g) + s, g, s)
  {
    PrefixMonotone(channels, g + 1, |channels|);
  }

  // ----- sending and regenerating

  /** One SDU: generator, stream of the generator, and how often the generator's payload had been renewed. */
  datatype Sent = Sent(generator: nat, stream: nat, version: nat)

  /** The streaming part of the program, for generators that are configured. */
  class Broadcast {
    const numBis: nat
    const channels: seq<nat>
    const version: array<nat>  // payload number of each generator
    var log: seq<Sent>

    ghost predicate Configured() {
      && numBis == Sum(channels, |channels|) && version.Length == |channels|
      && forall i :: 0 <= i < |channels| ==> channels[i] > 0
    }

    /** Versions after `e` in-order events: a generator is renewed by the event of its last stream. */
    ghost predicate Renewed(e: nat)
      requires Configured() && numBis > 0
      reads version
    {
      forall g :: 0 <= g < |channels| ==>
        version[g] == e / numBis + if e % numBis >= End(channels, g) then 1 else 0
    }

    /** The log of `e` in-order events: event k serves BIS k mod numBis with payload number k / numBis. */
    ghost predicate InOrder(e: nat)
      requires Configured() && numBis > 0
      reads this
    {
      && |log| == e
      && forall k :: 0 <= k < e ==>
           Located(channels, k % numBis, log[k].generator, log[k].stream) && log[k].version == k / numBis
    }

    constructor (m: Menu)
      requires Consistent(m) && m.numBis > 0
      ensures Configured() && Built(m, channels) && numBis == m.numBis && Renewed(0) && InOrder(0)
      ensures fresh(version)
    {
      var generators := BuildGenerators(m);
      numBis, channels := m.numBis, generators;
      version := new nat[|generators|](_ => 0);
      log := [];
    }

    /** handle_bis_can_send_now_event for any BIS: sends the stream of the BIS with the current payload of its
        generator, and renews that payload exactly after the generator's last stream. Events in order keep the closed
        forms. */
    method HandleBisCanSendNow(ghost e: nat, bis: nat) returns (g: nat, s: nat)
      requires Configured() && bis < numBis
      modifies this`log, version
      ensures Located(channels, bis, g, s) && log == old(log) + [Sent(g, s, old(version[g]))]
      ensures forall k :: 0 <= k < |channels| ==>
                version[k] == old(version[k]) + Count(k == g && bis + 1 == End(channels, g))
      ensures old(Renewed(e) && InOrder(e)) && bis == e % numBis ==> Renewed(e + 1) && InOrder(e + 1)
    {
      var end;
      g, s, end := Locate(channels, numBis, bis);
      log := log + [Sent(g, s, version[g])];
      if bis + 1 == end {
        version[g] := version[g] + 1;
      }
      PrefixMonotone(channels, g + 1, |channels|);
      DivModNext(e, numBis);
      forall k | 0 <= k < |channels| ensures k == g || End(channels, k) != bis + 1 {
        LastStreams(channels, k, g, bis, s);
      }
      forall k | 0 <= k < |channels| ensures 0 < End(channels, k) <= numBis {
        PrefixMonotone(channels, k + 1, |channels|);
        GeneratorsFit(channels, k + 1);
      }
    }

    /** In the log of in-order events every payload of every stream occurs exactly once, at a position that can be
        computed, as soon as the log is that long. */
    lemma {:induction false} EveryPayloadOnce(e: nat, g: nat, s: nat, v: nat, k: nat)
      requires Configured() && numBis > 0 && InOrder(e) && g < |channels| && s < channels[g] && k < e
      ensures log[k] == Sent(g, s, v) <==> k == v * numBis + Sum(channels, g) + s
    {
      hide Sum;
      Position(channels, g, s, v);
      assert Located(channels, k % numBis, log[k].generator, log[k].stream);
      if log[k] == Sent(g, s, v) {
        Recombine(k, numBis);
      } else if k == v * numBis + Sum(channels, g) + s {
        LocatedUnique(channels, k % numBis, g, s, log[k].generator, log[k].stream);
      }
    }
  }

  /** Different generators end at different streams. */
  lemma {:induction false} LastStreams(channels: seq<nat>, k: nat, g: nat, bis: nat, s: nat)
    requires k < |channels| && Located(channels, bis, g, s)
    requires forall i :: 0 <= i < |channels| ==> channels[i] > 0
    ensures k == g || End(channels, k) != bis + 1
  {
    if k < g {
      PrefixMonotone(channels, k + 1, g);
    } else if g < k {
      PrefixMonotone(channels, g + 1, k);
    }
  }

  lemma {:induction false} Recombine(k: nat, n: nat)
    requires n > 0
    ensures k == (k / n) * n + k % n
  {
  }

  /** Which event serves a stream with a payload. */
  lemma {:induction false} Position(channels: seq<nat>, g: nat, s: nat, v: nat)
    requires g < |channels| && s < channels[g]
    ensures var n := Sum(channels, |channels|);
            && n > 0
            && var k := v * n + Sum(channels, g) + s;
               Located(channels, k % n, g, s) && k / n == v
  {
    hide Sum;
    var n := Sum(channels, |channels|);
    LocatedOnto(channels, g, s);
    DivModOf(v, Sum(channels, g) + s, n, v * n + Sum(channels, g) + s);
  }
}
