/**
 * The KeyHandler: a text buffer, a logical cursor and its tracked length, a history
 * cursor over a shared history list, and an optional completion session. Every
 * method changes the fields as the LineModel function of the same action says, and
 * the primitive moves and writes also say where the console's cursor ends.
 */
module KeyHandling {
  import opened Wrappers
  import opened ConsoleKeys
  import opened Terminal
  import opened LineModel

  /** The history List<string>, shared by reference between a LineReader and its KeyHandler. */
  class HistoryList {
    var entries: seq<string>

    constructor ()
      ensures entries == []
    {
      entries := [];
    }

    /** List.Add: appends one line at the end. */
    method Add(line: string)
      modifies this
      ensures entries == old(entries) + [line]
    {
      entries := entries + [line];
    }
  }

  /** One step right on screen: past the last column the cursor goes to column 0 of the next row. */
  function StepRight(p: Position, width: int): (r: Position)
    ensures 0 <= p.left < width ==> 0 <= r.left < width && p.top <= r.top <= p.top + 1
  {
    if p.left == width - 1 then Position(0, p.top + 1) else Position(p.left + 1, p.top)
  }

  /**
   * `count` steps left on screen as MoveCursorLeft does it: a move past column 0
   * goes to the last column of the previous row, whatever the count.
   */
  function StepLeft(p: Position, width: int, count: int): (r: Position)
    ensures 0 <= p.left < width && 0 <= count ==> 0 <= r.left < width && p.top - 1 <= r.top <= p.top
  {
    if count > p.left then Position(width - 1, p.top - 1) else Position(p.left - count, p.top)
  }

  /** `n` single steps right. */
  function StepsRight(p: Position, width: int, n: nat): (r: Position)
    ensures 0 <= p.left < width ==> 0 <= r.left < width && p.top <= r.top <= p.top + n
  {
    if n == 0 then p else StepRight(StepsRight(p, width, n - 1), width)
  }

  /** The cursor motion and deletion actions. */
  predicate IsEdit(a: Action)
  {
    !(a.PrevHistory? || a.NextHistory? || a.TransposeChars? || a.Complete? || a.CompleteBackward? || a.WriteTypedChar?)
  }

  class KeyHandler {
    var text: string
    const history: HistoryList
    const console: TestConsole
    const provider: Option<CompletionProvider>
    var cursorPos: int
    var cursorLimit: int
    var historyIndex: int
    var keyInfo: KeyInfo
    var completions: Option<seq<string>>
    var completionStart: int
    var completionsIndex: int

    /** The fields as a LineModel state. */
    function State(): EditorState
      reads this
    {
      EditorState(text, cursorPos, historyIndex, completions, completionStart, completionsIndex)
    }

    /** The buffer, the cursor and the tracked length agree. */
    ghost predicate LineOk()
      reads this
    {
      0 <= cursorPos <= cursorLimit == |text|
    }

    /** The object invariant: `0 <= cursorPos <= cursorLimit == |text|`, the history cursor within the history, a consistent session. */
    ghost predicate Valid()
      reads this, history
    {
      cursorLimit == |text| && Wf(State(), history.entries)
    }

    /** The console's geometry and password mode are left alone. */
    twostate predicate ConsoleKept()
      reads this, console
    {
      && console.bufferWidth == old(console.bufferWidth)
      && console.bufferHeight == old(console.bufferHeight)
      && console.passwordMode == old(console.passwordMode)
    }

    /** As ConsoleKept, and the last key is left alone. */
    twostate predicate Kept()
      reads this, console
    {
      ConsoleKept() && keyInfo == old(keyInfo)
    }

    /** At the start of the line exactly when a left move has nowhere to go. */
    predicate IsStartOfLine()
      reads this
      ensures 0 <= cursorPos <= |text| ==> (IsStartOfLine() <==> MovedLeft(State(), 1) == State())
    {
      cursorPos == 0
    }

    /** At the end of the line exactly when a right move has nowhere to go. */
    predicate IsEndOfLine()
      reads this
      ensures LineOk() ==> (IsEndOfLine() <==> MovedRight(State()) == State())
    {
      cursorPos == cursorLimit
    }

    /** In the last column: the next step right wraps to the next row. */
    predicate IsEndOfBuffer()
      reads this, console
      ensures IsEndOfBuffer() <==> StepRight(console.Cursor(), console.bufferWidth).top == console.cursorTop + 1
    {
      console.cursorLeft == console.bufferWidth - 1
    }

    /** In a session exactly when ResetAutoComplete has one to end; the cursor is then at the end. */
    predicate IsInAutoCompleteMode()
      reads this
      ensures IsInAutoCompleteMode() <==> SessionReset(State()).completions != completions
      ensures IsInAutoCompleteMode() && LineOk() && SessionWf(State()) ==> IsEndOfLine()
    {
      completions.Some?
    }

    /** The Text property: the buffer's contents. */
    function Text(): (r: string)
      reads this
      ensures LineOk() ==> |r| == cursorLimit
    {
      text
    }

    /** A KeyHandler over `history`, or over a fresh empty list when it is null. */
    constructor (console: TestConsole, history: HistoryList?, provider: Option<CompletionProvider>)
      ensures this.console == console && this.provider == provider
      ensures history != null ==> this.history == history
      ensures history == null ==> fresh(this.history) && this.history.entries == []
      ensures Valid() && cursorLimit == 0 && keyInfo == NoKey
      ensures State() == Initial(|this.history.entries|)
    {
      var list: HistoryList;
      if history == null {
        list := new HistoryList();
      } else {
        list := history;
      }
      this.console := console;
      this.history := list;
      this.provider := provider;
      historyIndex := |list.entries|;
      text := [];
      cursorPos, cursorLimit := 0, 0;
      keyInfo := NoKey;
      completions := None;
      completionStart, completionsIndex := 0, 0;
    }

    // ------------------------------------------------------------ cursor motion

    /** Moves `count` left, clamped to the cursor offset; on screen wraps at most one row. */
    method MoveCursorLeft(count: int)
      requires 0 <= cursorPos && 0 <= count
      modifies this, console
      ensures cursorPos == old(cursorPos) - Clamp(count, old(cursorPos))
      ensures State() == old(State()).(pos := cursorPos) && cursorLimit == old(cursorLimit)
      ensures console.Cursor() == StepLeft(old(console.Cursor()), console.bufferWidth, Clamp(count, old(cursorPos)))
      ensures Kept()
    {
      var n := Clamp(count, cursorPos);
      if n > console.cursorLeft {
        console.SetCursorPosition(console.bufferWidth - 1, console.cursorTop - 1);
      } else {
        console.SetCursorPosition(console.cursorLeft - n, console.cursorTop);
      }
      cursorPos := cursorPos - n;
    }

    method MoveCursorHome()
      requires LineOk()
      modifies this, console
      ensures LineOk() && State() == MovedLeft(old(State()), old(cursorPos)) && cursorPos == 0
      ensures console.Cursor() == StepLeft(old(console.Cursor()), console.bufferWidth, old(cursorPos))
      ensures Kept()
    {
      MoveCursorLeft(cursorPos);
    }

    /** One step right unless at the end of the line; on screen wraps past the last column. */
    method MoveCursorRight()
      modifies this, console
      ensures cursorPos == if old(IsEndOfLine()) then old(cursorPos) else old(cursorPos) + 1
      ensures State() == old(State()).(pos := cursorPos) && cursorLimit == old(cursorLimit)
      ensures console.Cursor() ==
        if old(IsEndOfLine()) then old(console.Cursor()) else StepRight(old(console.Cursor()), console.bufferWidth)
      ensures Kept()
    {
      if IsEndOfLine() {
        return;
      }
      if IsEndOfBuffer() {
        console.SetCursorPosition(0, console.cursorTop + 1);
      } else {
        console.SetCursorPosition(console.cursorLeft + 1, console.cursorTop);
      }
      cursorPos := cursorPos + 1;
    }

    /** Steps right until the end of the line. */
    method MoveCursorEnd()
      requires cursorPos <= cursorLimit
      modifies this, console
      ensures cursorPos == cursorLimit
      ensures State() == old(State()).(pos := cursorPos) && cursorLimit == old(cursorLimit)
      ensures console.Cursor() == StepsRight(old(console.Cursor()), console.bufferWidth, old(cursorLimit - cursorPos))
      ensures Kept()
    {
      while !IsEndOfLine()
        invariant old(cursorPos) <= cursorPos <= cursorLimit == old(cursorLimit)
        invariant State() == old(State()).(pos := cursorPos)
        invariant console.Cursor() == StepsRight(old(console.Cursor()), console.bufferWidth, cursorPos - old(cursorPos))
        invariant Kept()
        decreases cursorLimit - cursorPos
      {
        MoveCursorRight();
      }
    }

    // ------------------------------------------------------------ insertion

    /**
     * Inserts `c` at the cursor. At the end of the line it is written and the column
     * advances by one; otherwise the suffix is repainted and the cursor goes one step right.
     */
    method WriteChar(c: char)
      requires LineOk()
      modifies this, console
      ensures LineOk() && State() == Inserted(old(State()), c)
      ensures console.Cursor() ==
        if old(IsEndOfLine()) then Position(old(console.cursorLeft) + 1, old(console.cursorTop))
        else StepRight(old(console.Cursor()), console.bufferWidth)
      ensures Kept()
    {
      if IsEndOfLine() {
        text := text + [c];
        console.Write([c]);
        cursorPos := cursorPos + 1;
      } else {
        var left, top := console.cursorLeft, console.cursorTop;
        var rest := text[cursorPos..];
        text := text[..cursorPos] + [c] + text[cursorPos..];
        console.Write([c] + rest);
        console.SetCursorPosition(left, top);
        MoveCursorRight();
      }
      cursorLimit := cursorLimit + 1;
    }

    /** The fallback action: writes the key's character unless it is a control character. */
    method WriteTypedChar()
      requires LineOk()
      modifies this, console
      ensures LineOk()
      ensures State() == if IsControl(keyInfo.keyChar) then old(State()) else Inserted(old(State()), keyInfo.keyChar)
      ensures Kept()
    {
      if !IsControl(keyInfo.keyChar) {
        WriteChar(keyInfo.keyChar);
      }
    }

    /** Writes the characters of `str` one by one. */
    method WriteString(str: string)
      requires LineOk()
      modifies this, console
      ensures LineOk() && State() == InsertedString(old(State()), str)
      ensures old(IsEndOfLine()) ==>
        IsEndOfLine() && console.Cursor() == Position(old(console.cursorLeft) + |str|, old(console.cursorTop))
      ensures Kept()
    {
      for i := 0 to |str|
        invariant LineOk() && State() == InsertedString(old(State()), str[..i])
        invariant old(IsEndOfLine()) ==>
          IsEndOfLine() && console.Cursor() == Position(old(console.cursorLeft) + i, old(console.cursorTop))
        invariant Kept()
      {
        assert str[..i + 1][..i] == str[..i];
        WriteChar(str[i]);
      }
      assert str[..|str|] == str;
    }

    // ------------------------------------------------------------ deletion

    /** Removes up to `count` characters before the cursor and repaints the suffix. */
    method Backspace(count: int)
      requires LineOk() && 0 <= count
      modifies this, console
      ensures LineOk() && State() == Backspaced(old(State()), count)
      ensures console.Cursor() == StepLeft(old(console.Cursor()), console.bufferWidth, Clamp(count, old(cursorPos)))
      ensures Kept()
    {
      var n := Clamp(count, cursorPos);
      MoveCursorLeft(n);
      var index := cursorPos;
      text := text[..index] + text[index + n..];
      var replacement := text[index..];
      var left, top := console.cursorLeft, console.cursorTop;
      console.Write(replacement + seq(n, _ => ' '));
      console.SetCursorPosition(left, top);
      cursorLimit := cursorLimit - n;
    }

    /** Removes the character at the cursor, if any; the screen cursor stays. */
    method Delete()
      requires LineOk()
      modifies this, console
      ensures LineOk() && State() == Deleted(old(State()))
      ensures console.Cursor() == old(console.Cursor())
      ensures Kept()
    {
      if IsEndOfLine() {
        return;
      }
      var index := cursorPos;
      text := text[..index] + text[index + 1..];
      var replacement := text[index..];
      var left, top := console.cursorLeft, console.cursorTop;
      console.Write(replacement + " ");
      console.SetCursorPosition(left, top);
      cursorLimit := cursorLimit - 1;
    }

    /** Moves to the end, then backspaces the whole line. */
    method ClearLine()
      requires LineOk()
      modifies this, console
      ensures LineOk() && State() == Cleared(old(State()))
      ensures console.Cursor() ==
        StepLeft(StepsRight(old(console.Cursor()), console.bufferWidth, old(cursorLimit - cursorPos)),
                 console.bufferWidth, old(cursorLimit))
      ensures Kept()
    {
      MoveCursorEnd();
      Backspace(cursorPos);
    }

    /** Clears the line, then writes `str`; the screen cursor ends `|str|` columns past the cleared position. */
    method WriteNewString(str: string)
      requires LineOk()
      modifies this, console
      ensures LineOk() && State() == Rewritten(old(State()), str)
      ensures
        var cleared := StepLeft(StepsRight(old(console.Cursor()), console.bufferWidth, old(cursorLimit - cursorPos)),
                                console.bufferWidth, old(cursorLimit));
        console.Cursor() == Position(cleared.left + |str|, cleared.top)
      ensures Kept()
    {
      ClearLine();
      WriteString(str);
    }

    /** Control+U. */
    method KillToStart()
      requires LineOk()
      modifies this, console
      ensures LineOk() && State() == KilledToStart(old(State()))
      ensures console.Cursor() == StepLeft(old(console.Cursor()), console.bufferWidth, old(cursorPos))
      ensures Kept()
    {
      Backspace(cursorPos);
    }

    /** Control+K. */
    method KillToEnd()
      requires LineOk()
      modifies this, console
      ensures LineOk() && State() == KilledToEnd(old(State()))
      ensures Kept()
    {
      var pos := cursorPos;
      MoveCursorEnd();
      Backspace(cursorPos - pos);
    }

    /** Control+W: single backspaces while the character before the cursor is not a space. */
    method DeleteWord()
      requires LineOk()
      modifies this, console
      ensures LineOk() && State() == WordDeleted(old(State()))
      ensures Kept()
    {
      ghost var start := WordStart(text, cursorPos);
      while !IsStartOfLine() && text[cursorPos - 1] != ' '
        invariant LineOk() && start <= cursorPos <= old(cursorPos)
        invariant text == old(text)[..cursorPos] + old(text)[old(cursorPos)..]
        invariant State() == old(State()).(text := text, pos := cursorPos)
        invariant Kept()
        decreases cursorPos
      {
        assert text[cursorPos - 1] == old(text)[cursorPos - 1];
        Backspace(1);
        assert text == old(text)[..cursorPos] + old(text)[old(cursorPos)..];
      }
    }

    /**
     * Control+T. Returns false where the source throws IndexOutOfRangeException
     * (cursor at the end of a one-character line); nothing has changed then.
     */
    method TransposeChars() returns (ok: bool)
      requires LineOk()
      modifies this, console
      ensures LineOk()
      ensures ok == Transposed(old(State())).Some?
      ensures ok ==> State() == Transposed(old(State())).value
      ensures !ok ==> State() == old(State()) && console.Cursor() == old(console.Cursor())
      ensures Kept()
    {
      if IsStartOfLine() {
        return true;
      }
      var firstIdx := if IsEndOfLine() then cursorPos - 2 else cursorPos - 1;
      var secondIdx := if IsEndOfLine() then cursorPos - 1 else cursorPos;
      if firstIdx < 0 {
        return false;
      }
      var secondChar := text[secondIdx];
      text := text[secondIdx := text[firstIdx]];
      text := text[firstIdx := secondChar];
      assert text == Swapped(old(text), firstIdx, secondIdx);
      var almostEndOfLine := cursorLimit - cursorPos == 1;
      var left := if almostEndOfLine then console.cursorLeft + 1 else console.cursorLeft;
      var cursorPosition := if almostEndOfLine then cursorPos + 1 else cursorPos;
      WriteNewString(text);
      console.SetCursorPosition(left, console.cursorTop);
      cursorPos := cursorPosition;
      MoveCursorRight();
      ok := true;
    }

    // ------------------------------------------------------------ completion

    method StartAutoComplete()
      requires LineOk() && completions.Some? && |completions.value| > 0
      requires 0 <= completionStart <= cursorPos == cursorLimit
      modifies this, console
      ensures LineOk() && State() == CompletionStarted(old(State()))
      ensures Kept()
    {
      Backspace(cursorPos - completionStart);
      completionsIndex := 0;
      WriteString(completions.value[completionsIndex]);
    }

    method NextAutoComplete()
      requires LineOk() && InSession(State())
      modifies this, console
      ensures LineOk() && State() == CompletionAdvanced(old(State()))
      ensures Kept()
    {
      Backspace(cursorPos - completionStart);
      completionsIndex := completionsIndex + 1;
      if completionsIndex == |completions.value| {
        completionsIndex := 0;
      }
      WriteString(completions.value[completionsIndex]);
    }

    method PreviousAutoComplete()
      requires LineOk() && InSession(State())
      modifies this, console
      ensures LineOk() && State() == CompletionRetreated(old(State()))
      ensures Kept()
    {
      Backspace(cursorPos - completionStart);
      completionsIndex := completionsIndex - 1;
      if completionsIndex == -1 {
        completionsIndex := |completions.value| - 1;
      }
      WriteString(completions.value[completionsIndex]);
    }

    method ResetAutoComplete()
      modifies this
      ensures State() == SessionReset(old(State())) && cursorLimit == old(cursorLimit)
      ensures keyInfo == old(keyInfo)
    {
      completions := None;
      completionsIndex := 0;
    }

    /** The Tab action. */
    method Complete()
      requires LineOk() && SessionWf(State())
      modifies this, console
      ensures LineOk() && State() == Tabbed(old(State()), provider)
      ensures Kept()
    {
      if IsInAutoCompleteMode() {
        NextAutoComplete();
      } else {
        if provider.None? || !IsEndOfLine() {
          return;
        }
        var t := text;
        completionStart := LastIndexOfAny(t, provider.value.separators);
        completionStart := if completionStart == -1 then 0 else completionStart + 1;
        completions := provider.value.suggestions(t, completionStart);
        completions := if completions.Some? && |completions.value| == 0 then None else completions;
        if completions.None? {
          return;
        }
        StartAutoComplete();
      }
    }

    /** The Shift+Tab action. */
    method CompleteBackward()
      requires LineOk() && SessionWf(State())
      modifies this, console
      ensures LineOk() && State() == ShiftTabbed(old(State()))
      ensures Kept()
    {
      if IsInAutoCompleteMode() {
        PreviousAutoComplete();
      }
    }

    // ------------------------------------------------------------ history

    method PrevHistory()
      requires LineOk() && 0 <= historyIndex <= |history.entries|
      modifies this, console
      ensures LineOk() && State() == HistoryPrevious(old(State()), history.entries)
      ensures Kept()
    {
      if historyIndex > 0 {
        historyIndex := historyIndex - 1;
        WriteNewString(history.entries[historyIndex]);
      }
    }

    method NextHistory()
      requires LineOk() && 0 <= historyIndex <= |history.entries|
      modifies this, console
      ensures LineOk() && State() == HistoryNext(old(State()), history.entries)
      ensures Kept()
    {
      if historyIndex < |history.entries| {
        historyIndex := historyIndex + 1;
        if historyIndex == |history.entries| {
          ClearLine();
        } else {
          WriteNewString(history.entries[historyIndex]);
        }
      }
    }

    // ------------------------------------------------------------ dispatch

    /**
     * Handles one key: a key other than Tab ends the completion session, then the
     * chord's action runs (writing the typed character when the chord is unbound).
     * Returns false where the source throws.
     */
    method Handle(k: KeyInfo) returns (ok: bool)
      requires Valid()
      modifies this, console
      ensures Valid() && keyInfo == k
      ensures var r := Step(old(State()), history.entries, provider, k);
        State() == r.state && ok == !r.faulted
      ensures ConsoleKept()
    {
      keyInfo := k;
      if IsInAutoCompleteMode() && keyInfo.key != Tab {
        ResetAutoComplete();
      }
      ok := Perform(Resolve(BuildKeyInput(keyInfo)));
    }

    /** Runs one action of the table. */
    method Perform(a: Action) returns (ok: bool)
      requires Valid()
      requires completions.Some? ==> KeepsSession(a)
      modifies this, console
      ensures Valid()
      ensures var r := Dispatch(old(State()), history.entries, provider, a, keyInfo.keyChar);
        State() == r.state && ok == !r.faulted
      ensures Kept()
    {
      ok := true;
      match a {
        case PrevHistory => PrevHistory();
        case NextHistory => NextHistory();
        case TransposeChars => ok := TransposeChars();
        case Complete => Complete();
        case CompleteBackward => CompleteBackward();
        case WriteTypedChar => WriteTypedChar();
        case _ => PerformEdit(a);
      }
    }

    /** Runs one of the cursor motion and deletion actions, none of which throws. */
    method PerformEdit(a: Action)
      requires Valid() && IsEdit(a) && completions.None?
      modifies this, console
      ensures Valid()
      ensures State() == Dispatch(old(State()), history.entries, provider, a, keyInfo.keyChar).state
      ensures Kept()
    {
      match a {
        case MoveCursorLeft => MoveCursorLeft(1);
        case MoveCursorHome => MoveCursorHome();
        case MoveCursorEnd => MoveCursorEnd();
        case MoveCursorRight => MoveCursorRight();
        case Backspace => Backspace(1);
        case Delete => Delete();
        case ClearLine => ClearLine();
        case KillToStart => KillToStart();
        case KillToEnd => KillToEnd();
        case DeleteWord => DeleteWord();
      }
    }
  }
}
