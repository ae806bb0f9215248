/** The simplified US key tables that hog_keyboard_demo.c and hog_boot_host_demo.c both carry, and the
    two directions in which they are used: character to usage (sender) and usage to character (host). */
module HidKeymap {
  import opened Wrappers
  import opened ByteRing
  import opened Arith

  const CHAR_ILLEGAL: byte := 0xff
  const CHAR_RETURN: byte := 10
  const CHAR_ESCAPE: byte := 27
  const CHAR_TAB: byte := 9
  const CHAR_BACKSPACE: byte := 0x7f
  const MODIFIER_SHIFT: byte := 2

  /** A key press: modifier byte and usage. */
  datatype Key = Key(modifier: byte, keycode: byte)

  /** Character printed by each usage, without and with shift. */
  datatype Keymap = Keymap(none: seq<byte>, shift: seq<byte>) {

    /** All the proofs need of the tables: same size, usages fit a byte, usage 0 prints nothing. */
    predicate Valid() {
      0 < |none| == |shift| <= 0x100 && none[0] == shift[0] == CHAR_ILLEGAL
    }

    /** keycode_and_modifer_us_for_character: first match without shift, or else with shift. */
    function KeyFor(c: byte): (r: Option<Key>)
      requires Valid()
      ensures r.None? <==> c !in none && c !in shift
      ensures r.Some? ==> r.value.keycode < |none| && Character(r.value) == c
      ensures r.Some? ==> var table := if c in none then none else shift;
                          && c !in table[..r.value.keycode]
                          && r.value.modifier == if c in none then 0 else MODIFIER_SHIFT
    {
      if c in none then Some(Key(0, FirstIndex(none, c)))
      else if c in shift then Some(Key(MODIFIER_SHIFT, FirstIndex(shift, c)))
      else None
    }

    function Character(key: Key): byte
      requires Valid() && key.keycode < |none|
    {
      if ShiftPressed(key.modifier) then shift[key.keycode] else none[key.keycode]
    }
  }

  /** `modifier & 0x22`: left or right shift. */
  predicate ShiftPressed(modifier: byte) {
    modifier / 2 % 2 == 1 || modifier / 32 % 2 == 1
  }

  /** In terms of the bits of the modifier byte, of which bit 1 is the left and bit 5 the right shift key. */
  lemma {:induction false} ShiftBits(bits: seq<bool>, modifier: byte)
    requires |bits| == 8
    requires modifier == Count(bits[0]) + 2 * Count(bits[1]) + 4 * Count(bits[2]) + 8 * Count(bits[3])
                         + 16 * Count(bits[4]) + 32 * Count(bits[5]) + 64 * Count(bits[6]) + 128 * Count(bits[7])
    ensures ShiftPressed(modifier) <==> bits[1] || bits[5]
  {
  }

  function FirstIndex(table: seq<byte>, c: byte): (i: nat)
    requires c in table
    ensures i < |table| && table[i] == c && forall j :: 0 <= j < i ==> table[j] != c
  {
    if table[0] == c then 0 else 1 + FirstIndex(table[1..], c)
  }

  /** lookup_keycode: linear search that reports the first match. */
  method LookupKeycode(character: byte, table: seq<byte>) returns (found: bool, keycode: nat)
    ensures found <==> character in table
    ensures found ==> keycode == FirstIndex(table, character)
  {
    keycode := 0;
    while keycode < |table|
      invariant keycode <= |table|
      invariant forall j :: 0 <= j < keycode ==> table[j] != character
    {
      if table[keycode] == character {
        return true, keycode;
      }
      keycode := keycode + 1;
    }
    return false, 0;
  }

  // ----- the US tables, row by row

  const LETTERS: seq<byte> := [97, 98, 99, 100, 101, 102, 103, 104, 105, 106, 107, 108, 109, 110, 111, 112, 113, 114,
                               115, 116, 117, 118, 119, 120, 121, 122]
  const CAPITALS: seq<byte> := [65, 66, 67, 68, 69, 70, 71, 72, 73, 74, 75, 76, 77, 78, 79, 80, 81, 82, 83, 84, 85, 86,
                                87, 88, 89, 90]
  const DIGITS: seq<byte> := [49, 50, 51, 52, 53, 54, 55, 56, 57, 48]
  const SHIFTED_DIGITS: seq<byte> := [33, 64, 35, 36, 37, 94, 38, 42, 40, 41]
  const CONTROLS: seq<byte> := [CHAR_RETURN, CHAR_ESCAPE, CHAR_BACKSPACE, CHAR_TAB]
  const MARKS: seq<byte> := [32, 45, 61, 91, 93, 92]
  const SHIFTED_MARKS: seq<byte> := [32, 95, 43, 123, 125, 124]
  const POINTS: seq<byte> := [59, 39, 0x60, 44, 46, 47]
  const SHIFTED_POINTS: seq<byte> := [58, 34, 0x7e, 60, 62, 63]
  const KEYPAD: seq<byte> := [42, 45, 43, 10, 49, 50, 51, 52, 53, 54, 55, 56, 57, 48, 46]

  function Illegal(n: nat): (r: seq<byte>)
    ensures |r| == n && forall i :: 0 <= i < n ==> r[i] == CHAR_ILLEGAL
  {
    seq(n, _ => CHAR_ILLEGAL)
  }

  const KEYTABLE_US_NONE: seq<byte> :=
    Illegal(4) + LETTERS + DIGITS + CONTROLS + MARKS + Illegal(1) + POINTS + Illegal(28) + KEYPAD + [0xa7]

  const KEYTABLE_US_SHIFT: seq<byte> :=
    Illegal(4) + CAPITALS + SHIFTED_DIGITS + CONTROLS + SHIFTED_MARKS + Illegal(1) + SHIFTED_POINTS + Illegal(28)
    + KEYPAD + [0xb1]

  const US_KEYMAP: Keymap := Keymap(KEYTABLE_US_NONE, KEYTABLE_US_SHIFT)

  function Codes(text: string): (r: seq<byte>)
    requires forall i :: 0 <= i < |text| ==> text[i] as int < 0x100
    ensures |r| == |text| && forall i :: 0 <= i < |r| ==> r[i] == text[i] as int
  {
    seq(|text|, i requires 0 <= i < |text| => text[i] as int)
  }

  /** The rows are those of the US layout on the keyboard page of the HID Usage Tables. */
  lemma {:induction false} UsLetters()
    ensures LETTERS == Codes("abcdefghijklmnopqrstuvwxyz") && CAPITALS == Codes("ABCDEFGHIJKLMNOPQRSTUVWXYZ")
  {
  }

  lemma {:induction false} UsSymbols()
    ensures DIGITS == Codes("1234567890") && SHIFTED_DIGITS == Codes("!@#$%^&*()") && CONTROLS == [10, 27, 127, 9]
    ensures MARKS == Codes(" -=[]\\") && SHIFTED_MARKS == Codes(" _+{}|")
    ensures POINTS == Codes(";'`,./") && SHIFTED_POINTS == Codes(":\"~<>?")
    ensures KEYPAD == Codes("*-+\n1234567890.")
  {
  }

  lemma {:induction false} UsSizes()
    ensures |LETTERS| == |CAPITALS| == 26 && |DIGITS| == |SHIFTED_DIGITS| == 10 && |CONTROLS| == 4
    ensures |MARKS| == |SHIFTED_MARKS| == |POINTS| == |SHIFTED_POINTS| == 6 && |KEYPAD| == 15
  {
  }

  /** The tables are these rows: usages 4, 30, 40, 44, 51 and 85 start one. */
  lemma {:induction false} UsLayout()
    ensures KEYTABLE_US_NONE ==
            Illegal(4) + Codes("abcdefghijklmnopqrstuvwxyz") + Codes("1234567890") + [10, 27, 127, 9]
            + Codes(" -=[]\\") + Illegal(1) + Codes(";'`,./") + Illegal(28) + Codes("*-+\n1234567890.") + [0xa7]
    ensures KEYTABLE_US_SHIFT ==
            Illegal(4) + Codes("ABCDEFGHIJKLMNOPQRSTUVWXYZ") + Codes("!@#$%^&*()") + [10, 27, 127, 9]
            + Codes(" _+{}|") + Illegal(1) + Codes(":\"~<>?") + Illegal(28) + Codes("*-+\n1234567890.") + [0xb1]
  {
    UsLetters();
    UsSymbols();
    hide LETTERS, CAPITALS, DIGITS, SHIFTED_DIGITS, CONTROLS, MARKS, SHIFTED_MARKS, POINTS, SHIFTED_POINTS, KEYPAD,
         Illegal, Codes;
  }
}
