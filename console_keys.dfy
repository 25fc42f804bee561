/**
 * Key events as the console driver delivers them (System.ConsoleKeyInfo), and the
 * canonical chord a KeyHandler looks its actions up by.
 */
module ConsoleKeys {

  /** Upper-case letters name the letter keys (ConsoleKey.A .. ConsoleKey.Z). */
  type Upper = c: char | 'A' <= c <= 'Z' witness 'A'

  /** The keys the editor distinguishes; every other ConsoleKey value is `OtherKey`. */
  datatype ConsoleKey =
    | Letter(letter: Upper)
    | LeftArrow | RightArrow | UpArrow | DownArrow
    | Home | End
    | Backspace | Delete | Escape
    | Tab | Enter | Spacebar
    | OtherKey(code: nat)

  /** The flags of System.ConsoleModifiers. */
  datatype Modifier = Alt | Shift | Control

  /** A key press: the character it types, the key and the set of modifiers held down. */
  datatype KeyInfo = KeyInfo(keyChar: char, key: ConsoleKey, modifiers: set<Modifier>)

  /** The C# default(ConsoleKeyInfo): NUL character, key code 0, no modifiers. */
  const NoKey := KeyInfo('\0', OtherKey(0), {})

  /** The modifier text a chord starts with: "Control", "Shift" or nothing. */
  datatype ChordPrefix = NoPrefix | ControlPrefix | ShiftPrefix

  /** A canonical chord, the string "{Modifiers}{Key}" or "{Key}" of the source. */
  datatype Chord = Chord(prefix: ChordPrefix, key: ConsoleKey)

  /**
   * The chord of a key press. Only the exact modifier sets {Control} and {Shift}
   * are written into the chord; Alt and combined modifiers give the bare key.
   */
  function BuildKeyInput(k: KeyInfo): (c: Chord)
    ensures c.key == k.key
    ensures c.prefix == ControlPrefix <==> k.modifiers == {Control}
    ensures c.prefix == ShiftPrefix <==> k.modifiers == {Shift}
    ensures c.prefix == NoPrefix <==> k.modifiers != {Control} && k.modifiers != {Shift}
  {
    if k.modifiers != {Control} && k.modifiers != {Shift} then Chord(NoPrefix, k.key)
    else if k.modifiers == {Control} then Chord(ControlPrefix, k.key)
    else Chord(ShiftPrefix, k.key)
  }

  /** char.IsControl: the Unicode category Cc, U+0000..U+001F and U+007F..U+009F. */
  predicate IsControl(c: char)
  {
    c as int < 0x20 || (0x7F <= c as int < 0xA0)
  }

  /**
   * char.IsWhiteSpace: the Unicode space separators, line and paragraph separators,
   * and the control characters U+0009..U+000D and U+0085.
   */
  predicate IsWhiteSpace(c: char)
  {
    var n := c as int;
    (0x09 <= n <= 0x0D) || n == 0x20 || n == 0x85 || n == 0xA0 || n == 0x1680
    || (0x2000 <= n <= 0x200A) || n == 0x2028 || n == 0x2029 || n == 0x202F
    || n == 0x205F || n == 0x3000
  }

  /** string.IsNullOrWhiteSpace for a non-null string: empty or white space only. */
  predicate IsBlank(s: string)
  {
    forall i :: 0 <= i < |s| ==> IsWhiteSpace(s[i])
  }

  /** Modifiers other than exactly Control or exactly Shift collapse onto the bare key. */
  lemma ModifiersCollapse(k: KeyInfo)
    requires k.modifiers != {Control} && k.modifiers != {Shift}
    ensures BuildKeyInput(k) == BuildKeyInput(k.(modifiers := {}))
  {
  }
}
