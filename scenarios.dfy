/**
 * Concrete key sequences run through the model: editing in the middle of a line,
 * transposition and its fault, browsing a three-line history, cycling through
 * completions, and two reads on one LineReader.
 */
module Scenarios {
  import opened Wrappers
  import opened ConsoleKeys
  import opened Terminal
  import opened LineModel
  import opened KeyHandling
  import opened Reader
  import opened LineProperties

  // ---------------------------------------------------------------- keys

  /** A lower-case letter typed without modifiers. */
  function Lower(c: char): KeyInfo
    requires 'a' <= c <= 'z'
  {
    KeyInfo(c, Letter((c as int - 32) as char), {})
  }

  /** An upper-case letter typed with Shift. */
  function Capital(c: Upper): KeyInfo
  {
    KeyInfo(c, Letter(c), {Shift})
  }

  const Left := KeyInfo('\0', LeftArrow, {})
  const Up := KeyInfo('\0', UpArrow, {})
  const Down := KeyInfo('\0', DownArrow, {})
  const TabKey := KeyInfo('\t', Tab, {})
  const ShiftTab := KeyInfo('\t', Tab, {Shift})
  const ControlT := KeyInfo(20 as char, Letter('T'), {Control})
  const EnterKey := KeyInfo('\r', Enter, {})

  // ---------------------------------------------------------------- running keys

  /** With no session open, a key runs exactly the action its chord resolves to. */
  lemma StepRuns(s: EditorState, history: seq<string>, provider: Option<CompletionProvider>, k: KeyInfo, a: Action)
    requires Wf(s, history) && s.completions.None? && Resolve(BuildKeyInput(k)) == a
    ensures Step(s, history, provider, k) == Dispatch(s, history, provider, a, k.keyChar)
  {
  }

  /** Running a non-empty key sequence: the first key, then the rest unless it threw. */
  lemma RunFirst(s: EditorState, history: seq<string>, provider: Option<CompletionProvider>, keys: seq<KeyInfo>)
    requires Wf(s, history) && keys != []
    ensures var f := Step(s, history, provider, keys[0]);
      Run(s, history, provider, keys) == if f.faulted then f else Run(f.state, history, provider, keys[1..])
  {
  }

  /** Running two key sequences one after the other is running their concatenation, unless the first throws. */
  lemma {:induction false} RunSplits(s: EditorState, history: seq<string>, provider: Option<CompletionProvider>,
                                     a: seq<KeyInfo>, b: seq<KeyInfo>)
    requires Wf(s, history)
    ensures var first := Run(s, history, provider, a);
      Run(s, history, provider, a + b) == if first.faulted then first else Run(first.state, history, provider, b)
    decreases |a|
  {
    if a == [] {
      assert a + b == b;
    } else {
      assert (a + b)[0] == a[0] && (a + b)[1..] == a[1..] + b;
      var step := Step(s, history, provider, a[0]);
      if !step.faulted {
        RunSplits(step.state, history, provider, a[1..], b);
      }
    }
  }

  /** A one-key sequence is one step. */
  lemma RunSingle(s: EditorState, history: seq<string>, provider: Option<CompletionProvider>, k: KeyInfo)
    requires Wf(s, history)
    ensures Run(s, history, provider, [k]) == Step(s, history, provider, k)
  {
    RunFirst(s, history, provider, [k]);
    assert [k][1..] == [];
  }

  /** Lower-case letters and Shift+letter are unbound and printable, so they are typed. */
  lemma LettersType(c: char, u: Upper)
    requires 'a' <= c <= 'z'
    ensures IsTypingKey(Lower(c)) && IsTypingKey(Capital(u))
  {
  }

  /** A typing key inserts its character at the cursor. */
  lemma TypeStep(s: EditorState, history: seq<string>, provider: Option<CompletionProvider>, k: KeyInfo)
    requires Wf(s, history) && s.completions.None? && IsTypingKey(k)
    ensures Step(s, history, provider, k) == Stepped(Inserted(s, k.keyChar), false)
  {
    StepRuns(s, history, provider, k, WriteTypedChar);
  }

  /** A typing key at the end of a line appends its character. */
  lemma TypeAtEnd(text: string, history: seq<string>, k: KeyInfo)
    requires IsTypingKey(k)
    ensures Step(Line(text, |text|), history, None, k) == Stepped(Line(text + [k.keyChar], |text| + 1), false)
  {
    TypeStep(Line(text, |text|), history, None, k);
    assert text[..|text|] == text && text[|text|..] == [];
  }

  /** LeftArrow moves one place left. */
  lemma LeftStep(s: EditorState, history: seq<string>, provider: Option<CompletionProvider>)
    requires Wf(s, history) && s.completions.None?
    ensures Step(s, history, provider, Left) == Stepped(MovedLeft(s, 1), false)
  {
    StepRuns(s, history, provider, Left, MoveCursorLeft);
  }

  /** UpArrow and DownArrow step through the history. */
  lemma ArrowSteps(s: EditorState, history: seq<string>, provider: Option<CompletionProvider>)
    requires Wf(s, history) && s.completions.None?
    ensures Step(s, history, provider, Up) == Stepped(HistoryPrevious(s, history), false)
    ensures Step(s, history, provider, Down) == Stepped(HistoryNext(s, history), false)
  {
    StepRuns(s, history, provider, Up, PrevHistory);
    StepRuns(s, history, provider, Down, NextHistory);
  }

  /** Control+T transposes, and throws exactly when Transposed has no result. */
  lemma ControlTStep(s: EditorState, history: seq<string>, provider: Option<CompletionProvider>)
    requires Wf(s, history) && s.completions.None?
    ensures var r := Step(s, history, provider, ControlT);
      if Transposed(s).None? then r == Stepped(s, true) else r == Stepped(Transposed(s).value, false)
  {
    StepRuns(s, history, provider, ControlT, TransposeChars);
  }

  // ---------------------------------------------------------------- editing

  /** A line with no history and no session. */
  function Line(text: string, pos: int): EditorState
  {
    EditorState(text, pos, 0, None, 0, 0)
  }

  /** The keys that type "hello", in two runs. */
  const Hel: seq<KeyInfo> := [Lower('h'), Lower('e'), Lower('l')]
  const Lo: seq<KeyInfo> := [Lower('l'), Lower('o')]
  const Hello: seq<KeyInfo> := Hel + Lo

  /** Three LeftArrows, then Shift+X and Shift+Y. */
  const BackThreeXY: seq<KeyInfo> := [Left, Left, Left, Capital('X'), Capital('Y')]

  /** From "hello" with the cursor at the end: three LeftArrows, then "XY". */
  lemma BackThreeAndType()
    ensures Run(Line("hello", 5), [], None, BackThreeXY) == Stepped(Line("heXYllo", 4), false)
  {
    var keys := BackThreeXY;
    LeftStep(Line("hello", 5), [], None);
    LeftStep(Line("hello", 4), [], None);
    LeftStep(Line("hello", 3), [], None);
    LettersType('a', 'X');
    LettersType('a', 'Y');
    TypeStep(Line("hello", 2), [], None, Capital('X'));
    assert Inserted(Line("hello", 2), 'X').text == "heXllo";
    TypeStep(Line("heXllo", 3), [], None, Capital('Y'));
    assert Inserted(Line("heXllo", 3), 'Y').text == "heXYllo";
    RunFirst(Line("hello", 5), [], None, keys);
    RunFirst(Line("hello", 4), [], None, keys[1..]);
    RunFirst(Line("hello", 3), [], None, keys[2..]);
    RunFirst(Line("hello", 2), [], None, keys[3..]);
    RunSingle(Line("heXllo", 3), [], None, Capital('Y'));
    assert keys[4..] == [Capital('Y')];
  }

  /** Typing "hel" on an empty line. */
  lemma TypeHel()
    ensures Run(Line("", 0), [], None, Hel) == Stepped(Line("hel", 3), false)
  {
    LettersType('h', 'A');
    LettersType('e', 'A');
    LettersType('l', 'A');
    TypingAppends(Line("", 0), [], None, Hel);
    assert Chars(Hel) == "hel";
    assert "" + "hel" == "hel";
  }

  /** Typing "lo" after "hel". */
  lemma TypeLo()
    ensures Run(Line("hel", 3), [], None, Lo) == Stepped(Line("hello", 5), false)
  {
    LettersType('l', 'A');
    LettersType('o', 'A');
    TypingAppends(Line("hel", 3), [], None, Lo);
    assert Chars(Lo) == "lo";
    assert "hel" + "lo" == "hello";
  }

  /** Typing "hello" on an empty line. */
  lemma TypeHello()
    ensures Run(Line("", 0), [], None, Hello) == Stepped(Line("hello", 5), false)
  {
    TypeHel();
    TypeLo();
    RunSplits(Line("", 0), [], None, Hel, Lo);
  }

  /** "hello", three LeftArrows, then "XY": the pair goes in before "llo" and the cursor follows it. */
  lemma InsertInMiddle()
    ensures Run(Line("", 0), [], None, Hello + BackThreeXY) == Stepped(Line("heXYllo", 4), false)
  {
    RunSplits(Line("", 0), [], None, Hello, BackThreeXY);
    TypeHello();
    BackThreeAndType();
  }

  /** The keys that type "ab". */
  const TypedAB: seq<KeyInfo> := [Lower('a'), Lower('b')]

  /** Typing "ab" on an empty line. */
  lemma TypeAB()
    ensures Run(Line("", 0), [], None, TypedAB) == Stepped(Line("ab", 2), false)
  {
    LettersType('a', 'A');
    LettersType('b', 'A');
    TypingAppends(Line("", 0), [], None, TypedAB);
    assert Chars(TypedAB) == "ab";
    assert "" + "ab" == "ab";
  }

  /** At the end of "ab", the pair changes places and the cursor stays at the end. */
  lemma TransposedAB()
    ensures Transposed(Line("ab", 2)) == Some(Line("ba", 2))
  {
    var swapped := Swapped("ab", 0, 1);
    assert |swapped| == 2 && swapped[0] == 'b' && swapped[1] == 'a';
    assert swapped == "ba";
    assert Transposed(Line("ab", 2)) == Some(Line("ab", 2).(text := swapped, pos := 2));
  }

  /** "ab" then Control+T at the end of the line: the two characters change places. */
  lemma TransposeAtEnd()
    ensures Run(Line("", 0), [], None, TypedAB + [ControlT]) == Stepped(Line("ba", 2), false)
  {
    TypeAB();
    RunSplits(Line("", 0), [], None, TypedAB, [ControlT]);
    ControlTStep(Line("ab", 2), [], None);
    TransposedAB();
    RunSingle(Line("ab", 2), [], None, ControlT);
  }

  /** "a" then Control+T: the first index is -1 and the key throws, leaving the line as it was. */
  lemma TransposeSingleCharacterThrows()
    ensures Run(Line("", 0), [], None, [Lower('a'), ControlT]) == Stepped(Line("a", 1), true)
  {
    var keys := [Lower('a'), ControlT];
    LettersType('a', 'A');
    TypeAtEnd("", [], Lower('a'));
    ControlTStep(Line("a", 1), [], None);
    RunFirst(Line("", 0), [], None, keys);
    RunSingle(Line("a", 1), [], None, ControlT);
    assert keys[1..] == [ControlT];
  }

  // ---------------------------------------------------------------- history

  const Commands: seq<string> := ["ls -a", "dotnet run", "git init"]

  /** A line showing history entry `index` (or an empty line past the end). */
  function Browsing(index: int): EditorState
  {
    var text := if 0 <= index < |Commands| then Commands[index] else "";
    EditorState(text, |text|, index, None, 0, 0)
  }

  /** UpArrow shows the previous entry, and stays on the first. */
  lemma UpBrowses(i: int)
    requires 0 <= i <= 3
    ensures Step(Browsing(i), Commands, None, Up) == Stepped(Browsing(if i > 0 then i - 1 else 0), false)
  {
    ArrowSteps(Browsing(i), Commands, None);
  }

  /** DownArrow shows the next entry, or an empty line after the last. */
  lemma DownBrowses(i: int)
    requires 0 <= i < 3
    ensures Step(Browsing(i), Commands, None, Down) == Stepped(Browsing(i + 1), false)
  {
    ArrowSteps(Browsing(i), Commands, None);
  }

  const ThreeUp: seq<KeyInfo> := [Up, Up, Up]
  const ThreeDown: seq<KeyInfo> := [Down, Down, Down]

  /** Three UpArrows from past the end reach the oldest line. */
  lemma ThreeUps()
    ensures Run(Browsing(3), Commands, None, ThreeUp) == Stepped(Browsing(0), false)
  {
    var keys := ThreeUp;
    UpBrowses(3);
    UpBrowses(2);
    UpBrowses(1);
    RunFirst(Browsing(3), Commands, None, keys);
    RunFirst(Browsing(2), Commands, None, keys[1..]);
    RunSingle(Browsing(1), Commands, None, Up);
    assert keys[1..][1..] == [Up];
  }

  /** Three DownArrows from the oldest line return to an empty line. */
  lemma ThreeDowns()
    ensures Run(Browsing(0), Commands, None, ThreeDown) == Stepped(Browsing(3), false)
  {
    var keys := ThreeDown;
    DownBrowses(0);
    DownBrowses(1);
    DownBrowses(2);
    RunFirst(Browsing(0), Commands, None, keys);
    RunFirst(Browsing(1), Commands, None, keys[1..]);
    RunSingle(Browsing(2), Commands, None, Down);
    assert keys[1..][1..] == [Down];
  }

  /**
   * A KeyHandler over a three-line history starts past its end: UpArrow shows the
   * newest line, three show the oldest, a fourth changes nothing, and DownArrows
   * walk forward again to an empty line.
   */
  lemma BrowseThreeCommands()
    ensures Run(Initial(3), Commands, None, [Up]).state.text == "git init"
    ensures Run(Initial(3), Commands, None, ThreeUp).state.text == "ls -a"
    ensures Run(Initial(3), Commands, None, ThreeUp + [Up]).state == Browsing(0)
    ensures Run(Initial(3), Commands, None, ThreeUp + ThreeDown).state == Initial(3)
  {
    assert Initial(3) == Browsing(3);
    UpBrowses(3);
    RunSingle(Browsing(3), Commands, None, Up);
    ThreeUps();
    UpBrowses(0);
    RunSplits(Browsing(3), Commands, None, ThreeUp, [Up]);
    RunSingle(Browsing(0), Commands, None, Up);
    ThreeDowns();
    RunSplits(Browsing(3), Commands, None, ThreeUp, ThreeDown);
  }

  // ---------------------------------------------------------------- completion

  /** Suggests four git sub-commands for a line starting with "git ", nothing otherwise. */
  function GitSuggestions(text: string, index: int): Option<seq<string>>
  {
    if |text| >= 4 && text[..4] == "git " then Some(["init", "clone", "pull", "push"]) else None
  }

  const GitProvider := CompletionProvider({' ', '.', '/', '\\', ':'}, GitSuggestions)

  const GitCommands: seq<string> := ["init", "clone", "pull", "push"]

  /** "git " followed by candidate `index`, inside a session started at offset 4. */
  function Completing(index: int): EditorState
    requires 0 <= index < 4
  {
    var text := "git " + GitCommands[index];
    EditorState(text, |text|, 0, Some(GitCommands), 4, index)
  }

  /** Tab and Shift+Tab keep any session and run Tabbed and ShiftTabbed. */
  lemma TabSteps(s: EditorState, history: seq<string>, provider: Option<CompletionProvider>)
    requires Wf(s, history)
    ensures Step(s, history, provider, TabKey) == Stepped(Tabbed(s, provider), false)
    ensures Step(s, history, provider, ShiftTab) == Stepped(ShiftTabbed(s), false)
  {
    assert Resolve(BuildKeyInput(TabKey)) == Complete;
    assert Resolve(BuildKeyInput(ShiftTab)) == CompleteBackward;
  }

  /** The token after "git " starts at offset 4, and the provider offers the four sub-commands. */
  lemma GitSuggestsAfterSpace()
    ensures CompletionStart("git ", GitProvider.separators) == 4
    ensures GitProvider.suggestions("git ", 4) == Some(GitCommands)
  {
    assert "git "[3] == ' ';
    assert "git "[..4] == "git ";
  }

  /** The first Tab starts a session on "git init". */
  lemma FirstTab()
    ensures Step(Line("git ", 4), [], Some(GitProvider), TabKey) == Stepped(Completing(0), false)
  {
    TabSteps(Line("git ", 4), [], Some(GitProvider));
    GitSuggestsAfterSpace();
    assert "git "[..4] == "git ";
  }

  /** Inside the session, Tab moves to the next candidate and Shift+Tab back. */
  lemma TabsCycle(i: int)
    requires 0 <= i < 3
    ensures Step(Completing(i), [], Some(GitProvider), TabKey) == Stepped(Completing(i + 1), false)
    ensures Step(Completing(i + 1), [], Some(GitProvider), ShiftTab) == Stepped(Completing(i), false)
  {
    TabSteps(Completing(i), [], Some(GitProvider));
    TabSteps(Completing(i + 1), [], Some(GitProvider));
    assert Completing(i).text[..4] == "git ";
    assert Completing(i + 1).text[..4] == "git ";
  }

  /** Tab after "git " shows "git init"; another Tab "git clone"; Shift+Tab goes back to "git init". */
  lemma CompleteGitCommand()
    ensures Run(Line("git ", 4), [], Some(GitProvider), [TabKey]) == Stepped(Completing(0), false)
    ensures Run(Line("git ", 4), [], Some(GitProvider), [TabKey, TabKey]) == Stepped(Completing(1), false)
    ensures Run(Line("git ", 4), [], Some(GitProvider), [TabKey, TabKey, ShiftTab]) == Stepped(Completing(0), false)
  {
    var keys := [TabKey, TabKey, ShiftTab];
    FirstTab();
    TabsCycle(0);
    RunSingle(Line("git ", 4), [], Some(GitProvider), TabKey);
    RunFirst(Line("git ", 4), [], Some(GitProvider), keys[..2]);
    RunSingle(Completing(0), [], Some(GitProvider), TabKey);
    assert keys[..2][1..] == [TabKey];
    RunFirst(Line("git ", 4), [], Some(GitProvider), keys);
    RunFirst(Completing(0), [], Some(GitProvider), keys[1..]);
    RunSingle(Completing(1), [], Some(GitProvider), ShiftTab);
    assert keys[1..][1..] == [ShiftTab];
  }

  // ---------------------------------------------------------------- two reads

  /** Typing "a" and Enter on an empty line with no history reads "a". */
  lemma ReadsA()
    ensures ReadLoop(Line("", 0), [], None, [Lower('a'), EnterKey]) == LoopResult(Line("a", 1), Ok("a"), [])
  {
    var keys := [Lower('a'), EnterKey];
    LettersType('a', 'A');
    TypeAtEnd("", [], Lower('a'));
    ReadLoopFirst(Line("", 0), [], None, keys);
    ReadLoopFirst(Line("a", 1), [], None, keys[1..]);
    assert keys[1..][1..] == [];
  }

  /** With "a" still in the buffer and the history cursor at 0, UpArrow, "b", Enter reads "ab". */
  lemma ReadsAB()
    ensures ReadLoop(Line("a", 1), ["a"], None, [Up, Lower('b'), EnterKey]) == LoopResult(Line("ab", 2), Ok("ab"), [])
  {
    var keys := [Up, Lower('b'), EnterKey];
    LettersType('b', 'A');
    ArrowSteps(Line("a", 1), ["a"], None);
    TypeAtEnd("a", ["a"], Lower('b'));
    assert HistoryPrevious(Line("a", 1), ["a"]) == Line("a", 1);
    assert "a" + ['b'] == "ab";
    ReadLoopFirst(Line("a", 1), ["a"], None, keys);
    assert keys[1..] == [Lower('b'), EnterKey];
    ReadLoopFirst(Line("a", 1), ["a"], None, keys[1..]);
    assert keys[1..][1..] == [EnterKey];
    ReadLoopFirst(Line("ab", 2), ["a"], None, keys[1..][1..]);
    assert keys[1..][1..][1..] == [];
  }

  /**
   * One LineReader with recording on reads "a", then UpArrow, "b": the buffer is not
   * cleared between reads and the history cursor stays at 0, so UpArrow does nothing
   * and the second line is "ab"; both lines are recorded.
   */
  method TwoReadsShareTheBuffer() returns (first: Result<string, ReadError>, second: Result<string, ReadError>, recorded: seq<string>)
    ensures first == Ok("a") && second == Ok("ab") && recorded == ["a", "ab"]
  {
    var console := new TestConsole();
    var reader := new LineReader(console, None);
    reader.historyEnabled := true;
    var rest;
    ReadsA();
    first, rest := reader.Read("> ", "", [Lower('a'), EnterKey]);
    assert reader.keyHandler.State() == Line("a", 1);
    assert reader.history.entries == ["a"];
    ReadsAB();
    second, rest := reader.Read("> ", "", [Up, Lower('b'), EnterKey]);
    recorded := reader.history.entries;
  }
}
