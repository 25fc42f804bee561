/**
 * The logical state of a KeyHandler (text buffer, cursor, history cursor and
 * completion session) and the effect of every bound action on it, as functions.
 * The KeyHandler class is proved to change its fields exactly as these say.
 */
module LineModel {
  import opened Wrappers
  import opened ConsoleKeys

  /** An IAutoCompleteHandler: its separator characters and its suggestion function (None is null). */
  datatype CompletionProvider = CompletionProvider(
    separators: set<char>,
    suggestions: (string, int) -> Option<seq<string>>)

  /**
   * The fields of a KeyHandler. `completions` is None outside a completion session;
   * `completionStart` and `completionsIndex` keep their last values then.
   * The tracked length `_cursorLimit` is always `|text|` and is not repeated here.
   */
  datatype EditorState = EditorState(
    text: string,
    pos: int,
    historyIndex: int,
    completions: Option<seq<string>>,
    completionStart: int,
    completionsIndex: int)

  /** A new KeyHandler: empty buffer, history cursor at the end of the history, no session. */
  function Initial(historyLength: nat): (r: EditorState)
    ensures LineWf(r) && SessionWf(r) && r.text == [] && r.completions.None?
    ensures r.historyIndex == historyLength
  {
    EditorState([], 0, historyLength, None, 0, 0)
  }

  /** The logical cursor lies within the text. */
  predicate LineWf(s: EditorState)
  {
    0 <= s.pos <= |s.text|
  }

  /** A session has candidates, a valid index, and the cursor at the end, past the start offset. */
  predicate SessionWf(s: EditorState)
  {
    s.completions.Some? ==>
      && |s.completions.value| > 0
      && 0 <= s.completionsIndex < |s.completions.value|
      && 0 <= s.completionStart <= s.pos == |s.text|
  }

  /** The invariant of a KeyHandler over a history list. */
  predicate Wf(s: EditorState, history: seq<string>)
  {
    LineWf(s) && 0 <= s.historyIndex <= |history| && SessionWf(s)
  }

  /** The count a backspace or a left move really uses: never more than the cursor offset. */
  function Clamp(count: int, pos: int): int
  {
    if count > pos then pos else count
  }

  // ---------------------------------------------------------------- cursor motion

  /** MoveCursorLeft(count): the cursor goes `count` left, stopping at the start. */
  function MovedLeft(s: EditorState, count: nat): (r: EditorState)
    requires LineWf(s)
    ensures LineWf(r) && r == s.(pos := r.pos)
    ensures r.pos == if s.pos <= count then 0 else s.pos - count
  {
    s.(pos := s.pos - Clamp(count, s.pos))
  }

  /** MoveCursorRight: one step right, or nothing at the end of the line. */
  function MovedRight(s: EditorState): (r: EditorState)
    requires LineWf(s)
    ensures LineWf(r) && r == s.(pos := r.pos)
    ensures s.pos < |s.text| ==> r.pos == s.pos + 1
    ensures s.pos == |s.text| ==> r == s
  {
    if s.pos == |s.text| then s else s.(pos := s.pos + 1)
  }

  /** MoveCursorEnd: the cursor ends at the end of the line. */
  function MovedEnd(s: EditorState): (r: EditorState)
    requires LineWf(s)
    ensures LineWf(r) && r == s.(pos := r.pos)
    ensures r.pos == |s.text|
  {
    s.(pos := |s.text|)
  }

  // ---------------------------------------------------------------- insertion

  /** WriteChar(c): `c` goes in at the cursor and the cursor moves past it. */
  function Inserted(s: EditorState, c: char): (r: EditorState)
    requires LineWf(s)
    ensures LineWf(r) && r == s.(text := r.text, pos := r.pos)
    ensures |r.text| == |s.text| + 1 && r.pos == s.pos + 1
    ensures r.text[s.pos] == c
    ensures r.text[..s.pos] == s.text[..s.pos] && r.text[r.pos..] == s.text[s.pos..]
  {
    s.(text := s.text[..s.pos] + [c] + s.text[s.pos..], pos := s.pos + 1)
  }

  /** WriteString(str): the characters of `str`, one WriteChar each, in order. */
  function InsertedString(s: EditorState, str: string): (r: EditorState)
    requires LineWf(s)
    ensures LineWf(r) && r == s.(text := r.text, pos := r.pos)
    ensures r.text == s.text[..s.pos] + str + s.text[s.pos..]
    ensures r.pos == s.pos + |str|
    decreases |str|
  {
    if str == [] then s
    else
      var before := InsertedString(s, str[..|str| - 1]);
      var r := Inserted(before, str[|str| - 1]);
      assert r.text == s.text[..s.pos] + str + s.text[s.pos..] by {
        assert before.text[..before.pos] == s.text[..s.pos] + str[..|str| - 1];
        assert before.text[before.pos..] == s.text[s.pos..];
        assert str == str[..|str| - 1] + [str[|str| - 1]];
      }
      r
  }

  // ---------------------------------------------------------------- deletion

  /** Backspace(count): removes up to `count` characters before the cursor. */
  function Backspaced(s: EditorState, count: nat): (r: EditorState)
    requires LineWf(s)
    ensures LineWf(r) && r == s.(text := r.text, pos := r.pos)
    ensures r.pos == if s.pos <= count then 0 else s.pos - count
    ensures r.text == s.text[..r.pos] + s.text[s.pos..]
  {
    var n := Clamp(count, s.pos);
    s.(text := s.text[..s.pos - n] + s.text[s.pos..], pos := s.pos - n)
  }

  /** Delete: removes the character at the cursor; nothing at the end of the line. */
  function Deleted(s: EditorState): (r: EditorState)
    requires LineWf(s)
    ensures LineWf(r) && r == s.(text := r.text)
    ensures s.pos == |s.text| ==> r == s
    ensures s.pos < |s.text| ==> |r.text| == |s.text| - 1 && r.text == s.text[..s.pos] + s.text[s.pos + 1..]
  {
    if s.pos == |s.text| then s else s.(text := s.text[..s.pos] + s.text[s.pos + 1..])
  }

  /** ClearLine (move to the end, then backspace the whole line): an empty line. */
  function Cleared(s: EditorState): (r: EditorState)
    requires LineWf(s)
    ensures r == Backspaced(MovedEnd(s), |s.text|)
  {
    s.(text := [], pos := 0)
  }

  /** WriteNewString(str) (clear the line, then write `str`): the line is `str`, the cursor at its end. */
  function Rewritten(s: EditorState, str: string): (r: EditorState)
    requires LineWf(s)
    ensures LineWf(r) && r.text == str
  {
    s.(text := str, pos := |str|)
  }

  /** Control+U (backspace as far as the cursor goes): the text after the cursor, the cursor at the start. */
  function KilledToStart(s: EditorState): (r: EditorState)
    requires LineWf(s)
    ensures r == Backspaced(s, s.pos)
  {
    s.(text := s.text[s.pos..], pos := 0)
  }

  /** Control+K (move to the end, backspace back to the old cursor): the text before the cursor. */
  function KilledToEnd(s: EditorState): (r: EditorState)
    requires LineWf(s)
    ensures r == Backspaced(MovedEnd(s), |s.text| - s.pos)
  {
    s.(text := s.text[..s.pos])
  }

  /**
   * Where Control+W stops: stepping back from `pos` while the character before is
   * not a space. It is the start of the line or just after a space, and no space
   * lies between it and `pos`.
   */
  function WordStart(text: string, pos: int): (start: int)
    requires 0 <= pos <= |text|
    ensures 0 <= start <= pos
    ensures forall i :: start <= i < pos ==> text[i] != ' '
    ensures start == 0 || text[start - 1] == ' '
    decreases pos
  {
    if pos > 0 && text[pos - 1] != ' ' then WordStart(text, pos - 1) else pos
  }

  /** Control+W: the characters from the word start up to the cursor are removed. */
  function WordDeleted(s: EditorState): (r: EditorState)
    requires LineWf(s)
    ensures LineWf(r) && r.pos == WordStart(s.text, s.pos)
    ensures r == Backspaced(s, s.pos - WordStart(s.text, s.pos))
  {
    var start := WordStart(s.text, s.pos);
    s.(text := s.text[..start] + s.text[s.pos..], pos := start)
  }

  // ---------------------------------------------------------------- transposition

  /** The text with the characters at `i` and `j` exchanged. */
  function Swapped(text: string, i: nat, j: nat): (r: string)
    requires i < |text| && j < |text|
    ensures |r| == |text| && r[i] == text[j] && r[j] == text[i]
    ensures forall k :: 0 <= k < |text| && k != i && k != j ==> r[k] == text[k]
  {
    text[i := text[j]][j := text[i]]
  }

  /**
   * Control+T. Nothing at the start of the line. Otherwise the characters at
   * `pos-1` and `pos` change places, or the last two when the cursor is at the end,
   * and the cursor ends just past the pair. At the end of a one-character line the
   * first index is -1 and the source throws: that is the `None` result.
   */
  function Transposed(s: EditorState): (r: Option<EditorState>)
    requires LineWf(s)
    ensures r.None? <==> s.pos == |s.text| == 1
    ensures r.Some? ==> LineWf(r.value) && |r.value.text| == |s.text|
    ensures s.pos == 0 ==> r == Some(s)
  {
    if s.pos == 0 then Some(s)
    else
      var second := if s.pos == |s.text| then s.pos - 1 else s.pos;
      if second - 1 < 0 then None
      else Some(s.(text := Swapped(s.text, second - 1, second), pos := second + 1))
  }

  // ---------------------------------------------------------------- history

  /** UpArrow/Control+P: step back through the history, showing that entry. */
  function HistoryPrevious(s: EditorState, history: seq<string>): (r: EditorState)
    requires LineWf(s) && 0 <= s.historyIndex <= |history|
    ensures LineWf(r) && 0 <= r.historyIndex <= |history|
    ensures r.(text := s.text, pos := s.pos, historyIndex := s.historyIndex) == s
    ensures s.historyIndex == 0 ==> r == s
    ensures s.historyIndex > 0 ==>
      r.historyIndex == s.historyIndex - 1 && r.text == history[r.historyIndex] && r.pos == |r.text|
  {
    if s.historyIndex > 0 then
      s.(historyIndex := s.historyIndex - 1, text := history[s.historyIndex - 1], pos := |history[s.historyIndex - 1]|)
    else s
  }

  /**
   * DownArrow/Control+N: step forward through the history; stepping onto the end
   * of the history clears the line.
   */
  function HistoryNext(s: EditorState, history: seq<string>): (r: EditorState)
    requires LineWf(s) && 0 <= s.historyIndex <= |history|
    ensures LineWf(r) && 0 <= r.historyIndex <= |history|
    ensures r.(text := s.text, pos := s.pos, historyIndex := s.historyIndex) == s
    ensures s.historyIndex == |history| ==> r == s
    ensures s.historyIndex < |history| ==>
      && r.historyIndex == s.historyIndex + 1
      && r.text == (if r.historyIndex == |history| then [] else history[r.historyIndex])
      && r.pos == |r.text|
  {
    if s.historyIndex < |history| then
      var shown := if s.historyIndex + 1 == |history| then [] else history[s.historyIndex + 1];
      s.(historyIndex := s.historyIndex + 1, text := shown, pos := |shown|)
    else s
  }

  // ---------------------------------------------------------------- completion

  /** string.LastIndexOfAny: the last index holding a separator, or -1. */
  function LastIndexOfAny(text: string, separators: set<char>): (r: int)
    ensures -1 <= r < |text|
    ensures r >= 0 ==> text[r] in separators
    ensures forall i :: r < i < |text| ==> text[i] !in separators
    decreases |text|
  {
    if text == [] then -1
    else if text[|text| - 1] in separators then |text| - 1
    else LastIndexOfAny(text[..|text| - 1], separators)
  }

  /** Where the completed token starts: one past the last separator, or 0. */
  function CompletionStart(text: string, separators: set<char>): (start: int)
    ensures 0 <= start <= |text|
    ensures start > 0 ==> text[start - 1] in separators
    ensures forall i :: start <= i < |text| ==> text[i] !in separators
  {
    var last := LastIndexOfAny(text, separators);
    if last == -1 then 0 else last + 1
  }

  /** A state inside a completion session whose start offset and cursor are consistent. */
  predicate InSession(s: EditorState)
  {
    s.completions.Some? && SessionWf(s)
  }

  /** The candidate list of a session. */
  function Candidates(s: EditorState): seq<string>
    requires s.completions.Some?
  {
    s.completions.value
  }

  /**
   * Backspace back to the start offset, then write candidate `index`: the line is
   * the text before the offset followed by that candidate.
   */
  function Shown(s: EditorState, index: int): EditorState
    requires s.completions.Some? && 0 <= index < |Candidates(s)| && 0 <= s.completionStart <= |s.text|
  {
    var line := s.text[..s.completionStart] + Candidates(s)[index];
    s.(text := line, pos := |line|, completionsIndex := index)
  }

  /** StartAutoComplete: the token after the start offset becomes candidate 0. */
  function CompletionStarted(s: EditorState): (r: EditorState)
    requires s.completions.Some? && |Candidates(s)| > 0
    requires 0 <= s.completionStart <= s.pos == |s.text|
    ensures InSession(r) && r.completionsIndex == 0
    ensures r.text == s.text[..s.completionStart] + Candidates(s)[0]
    ensures r == s.(text := r.text, pos := r.pos, completionsIndex := 0)
  {
    Shown(s, 0)
  }

  /** NextAutoComplete: the next candidate, back to the first after the last; the start offset's prefix stays. */
  function CompletionAdvanced(s: EditorState): (r: EditorState)
    requires InSession(s)
    ensures InSession(r)
    ensures r.completionsIndex == if s.completionsIndex + 1 < |Candidates(s)| then s.completionsIndex + 1 else 0
    ensures r.text == s.text[..s.completionStart] + Candidates(s)[r.completionsIndex]
    ensures r == s.(text := r.text, pos := r.pos, completionsIndex := r.completionsIndex)
  {
    var next := s.completionsIndex + 1;
    Shown(s, if next == |Candidates(s)| then 0 else next)
  }

  /** PreviousAutoComplete: the previous candidate, round to the last before the first. */
  function CompletionRetreated(s: EditorState): (r: EditorState)
    requires InSession(s)
    ensures InSession(r)
    ensures r.completionsIndex == if s.completionsIndex > 0 then s.completionsIndex - 1 else |Candidates(s)| - 1
    ensures r.text == s.text[..s.completionStart] + Candidates(s)[r.completionsIndex]
    ensures r == s.(text := r.text, pos := r.pos, completionsIndex := r.completionsIndex)
  {
    var previous := s.completionsIndex - 1;
    Shown(s, if previous == -1 then |Candidates(s)| - 1 else previous)
  }

  /** The suggestions with an empty list read as no suggestions. */
  function Normalized(suggestions: Option<seq<string>>): (r: Option<seq<string>>)
    ensures r.Some? <==> suggestions.Some? && |suggestions.value| > 0
    ensures r.Some? ==> r == suggestions
  {
    if suggestions.Some? && |suggestions.value| == 0 then None else suggestions
  }

  /**
   * Tab. Inside a session it cycles forward. Outside one it needs a provider and the
   * cursor at the end; it then records the start offset, asks for suggestions and
   * starts a session on a non-empty list.
   */
  function Tabbed(s: EditorState, provider: Option<CompletionProvider>): (r: EditorState)
    requires LineWf(s) && SessionWf(s)
    ensures LineWf(r) && SessionWf(r)
    ensures r.historyIndex == s.historyIndex
    ensures s.completions.Some? ==> r == CompletionAdvanced(s)
    ensures s.completions.None? && (provider.None? || s.pos != |s.text|) ==> r == s
    ensures s.completions.None? && provider.Some? && s.pos == |s.text| ==>
      var start := CompletionStart(s.text, provider.value.separators);
      var found := provider.value.suggestions(s.text, start);
      && r.completionStart == start
      && (r.completions.Some? <==> found.Some? && |found.value| > 0)
      && (r.completions.None? ==> r == s.(completionStart := start))
      && (r.completions.Some? ==>
            r.completions == found && r.completionsIndex == 0
            && r.text == s.text[..start] + found.value[0] && r.pos == |r.text|)
  {
    if s.completions.Some? then CompletionAdvanced(s)
    else if provider.None? || s.pos != |s.text| then s
    else
      var start := CompletionStart(s.text, provider.value.separators);
      var found := Normalized(provider.value.suggestions(s.text, start));
      var asked := s.(completionStart := start, completions := found);
      if found.None? then asked else CompletionStarted(asked)
  }

  /** Shift+Tab: cycles backward inside a session, nothing otherwise. */
  function ShiftTabbed(s: EditorState): (r: EditorState)
    requires LineWf(s) && SessionWf(s)
    ensures LineWf(r) && SessionWf(r)
    ensures s.completions.None? ==> r == s
    ensures s.completions.Some? ==> r == CompletionRetreated(s)
  {
    if s.completions.Some? then CompletionRetreated(s) else s
  }

  /** ResetAutoComplete: leaves the session. */
  function SessionReset(s: EditorState): (r: EditorState)
    ensures r.completions.None? && r == s.(completions := None, completionsIndex := 0)
  {
    s.(completions := None, completionsIndex := 0)
  }

  // ---------------------------------------------------------------- key bindings

  /** The actions of the KeyHandler's table; `WriteTypedChar` is the fallback. */
  datatype Action =
    | MoveCursorLeft | MoveCursorHome | MoveCursorEnd | MoveCursorRight
    | Backspace | Delete | ClearLine
    | PrevHistory | NextHistory
    | KillToStart | KillToEnd | DeleteWord | TransposeChars
    | Complete | CompleteBackward
    | WriteTypedChar

  /** The table of Control+letter chords. */
  function ControlBinding(l: Upper): (r: Option<Action>)
    ensures r.Some? <==> l in "ABDEFHKLNPTUW"
    ensures r != Some(Complete) && r != Some(CompleteBackward) && r != Some(WriteTypedChar)
  {
    if l == 'A' then Some(MoveCursorHome)
    else if l == 'B' then Some(MoveCursorLeft)
    else if l == 'F' then Some(MoveCursorRight)
    else if l == 'E' then Some(MoveCursorEnd)
    else if l == 'D' then Some(Action.Delete)
    else if l == 'H' then Some(Action.Backspace)
    else if l == 'L' then Some(ClearLine)
    else if l == 'P' then Some(PrevHistory)
    else if l == 'N' then Some(NextHistory)
    else if l == 'U' then Some(KillToStart)
    else if l == 'K' then Some(KillToEnd)
    else if l == 'W' then Some(DeleteWord)
    else if l == 'T' then Some(TransposeChars)
    else None
  }

  /** The KeyHandler's table from chord to action; None for an unbound chord. */
  function Binding(c: Chord): (r: Option<Action>)
    ensures r != Some(WriteTypedChar)
    ensures r == Some(Complete) <==> c == Chord(NoPrefix, Tab)
    ensures r == Some(CompleteBackward) <==> c == Chord(ShiftPrefix, Tab)
    ensures c.prefix == ShiftPrefix ==> (r.Some? <==> c.key == Tab)
    ensures c.key == Enter ==> r.None?
  {
    match c.prefix
    case NoPrefix =>
      (match c.key
       case LeftArrow => Some(MoveCursorLeft)
       case Home => Some(MoveCursorHome)
       case End => Some(MoveCursorEnd)
       case RightArrow => Some(MoveCursorRight)
       case Backspace => Some(Action.Backspace)
       case Delete => Some(Action.Delete)
       case Escape => Some(ClearLine)
       case UpArrow => Some(PrevHistory)
       case DownArrow => Some(NextHistory)
       case Tab => Some(Complete)
       case _ => None)
    case ControlPrefix =>
      (match c.key
       case Letter(l) => ControlBinding(l)
       case _ => None)
    case ShiftPrefix =>
      if c.key == Tab then Some(CompleteBackward) else None
  }

  /** Every action of the table is bound to some chord; only the fallback is not. */
  lemma EveryActionBound(a: Action)
    ensures a != WriteTypedChar <==> exists c :: Binding(c) == Some(a)
  {
    var c := match a
      case MoveCursorLeft => Chord(NoPrefix, LeftArrow)
      case MoveCursorHome => Chord(NoPrefix, Home)
      case MoveCursorEnd => Chord(NoPrefix, End)
      case MoveCursorRight => Chord(NoPrefix, RightArrow)
      case Backspace => Chord(NoPrefix, ConsoleKey.Backspace)
      case Delete => Chord(NoPrefix, ConsoleKey.Delete)
      case ClearLine => Chord(NoPrefix, Escape)
      case PrevHistory => Chord(NoPrefix, UpArrow)
      case NextHistory => Chord(NoPrefix, DownArrow)
      case KillToStart => Chord(ControlPrefix, Letter('U'))
      case KillToEnd => Chord(ControlPrefix, Letter('K'))
      case DeleteWord => Chord(ControlPrefix, Letter('W'))
      case TransposeChars => Chord(ControlPrefix, Letter('T'))
      case Complete => Chord(NoPrefix, Tab)
      case CompleteBackward => Chord(ShiftPrefix, Tab)
      case WriteTypedChar => Chord(NoPrefix, Enter);
    if a != WriteTypedChar {
      assert Binding(c) == Some(a);
    }
  }

  /** The action Handle runs for a chord: the bound one, or writing the typed character. */
  function Resolve(c: Chord): (a: Action)
    ensures a == WriteTypedChar <==> Binding(c).None?
    ensures a in {Complete, CompleteBackward} ==> c.key == Tab
    ensures c.key == Tab ==> KeepsSession(a)
    ensures a == TransposeChars <==> c == Chord(ControlPrefix, Letter('T'))
  {
    match Binding(c)
    case Some(a) => a
    case None => WriteTypedChar
  }

  /** Actions that a key press can reach while a session survives the reset. */
  predicate KeepsSession(a: Action)
  {
    a == Complete || a == CompleteBackward || a == WriteTypedChar
  }

  // ---------------------------------------------------------------- dispatch

  /** The state after one action, and whether the action threw. */
  datatype Stepped = Stepped(state: EditorState, faulted: bool)

  /** Runs one action; `typed` is the key's character, used by the fallback. */
  function Dispatch(s: EditorState, history: seq<string>, provider: Option<CompletionProvider>,
                    a: Action, typed: char): (r: Stepped)
    requires Wf(s, history)
    requires s.completions.Some? ==> KeepsSession(a)
    ensures Wf(r.state, history)
    ensures r.faulted <==> a == TransposeChars && s.pos == |s.text| == 1
    ensures r.faulted ==> r.state == s
  {
    match a
    case MoveCursorLeft => Stepped(MovedLeft(s, 1), false)
    case MoveCursorHome => Stepped(MovedLeft(s, s.pos), false)
    case MoveCursorEnd => Stepped(MovedEnd(s), false)
    case MoveCursorRight => Stepped(MovedRight(s), false)
    case Backspace => Stepped(Backspaced(s, 1), false)
    case Delete => Stepped(Deleted(s), false)
    case ClearLine => Stepped(Cleared(s), false)
    case PrevHistory => Stepped(HistoryPrevious(s, history), false)
    case NextHistory => Stepped(HistoryNext(s, history), false)
    case KillToStart => Stepped(KilledToStart(s), false)
    case KillToEnd => Stepped(KilledToEnd(s), false)
    case DeleteWord => Stepped(WordDeleted(s), false)
    case TransposeChars =>
      (match Transposed(s)
       case None => Stepped(s, true)
       case Some(t) => Stepped(t, false))
    case Complete => Stepped(Tabbed(s, provider), false)
    case CompleteBackward => Stepped(ShiftTabbed(s), false)
    case WriteTypedChar => Stepped(if IsControl(typed) then s else Inserted(s, typed), false)
  }

  /**
   * Handle: a key other than Tab ends any session; then the chord's action runs.
   * Only Control+T at the end of a one-character line throws.
   */
  function Step(s: EditorState, history: seq<string>, provider: Option<CompletionProvider>,
                k: KeyInfo): (r: Stepped)
    requires Wf(s, history)
    ensures Wf(r.state, history)
    ensures k.key != Tab ==> r.state.completions.None?
    ensures r.faulted <==> BuildKeyInput(k) == Chord(ControlPrefix, Letter('T')) && s.pos == |s.text| == 1
  {
    var cleared := if s.completions.Some? && k.key != Tab then SessionReset(s) else s;
    Dispatch(cleared, history, provider, Resolve(BuildKeyInput(k)), k.keyChar)
  }

  /** Handle applied to every key in order, stopping at the first that throws. */
  function Run(s: EditorState, history: seq<string>, provider: Option<CompletionProvider>,
               keys: seq<KeyInfo>): (r: Stepped)
    requires Wf(s, history)
    ensures Wf(r.state, history)
    decreases |keys|
  {
    if keys == [] then Stepped(s, false)
    else
      var first := Step(s, history, provider, keys[0]);
      if first.faulted then first else Run(first.state, history, provider, keys[1..])
  }

  // ---------------------------------------------------------------- the read loop

  /** Why a read loop ends without a line: a key threw, or the keys ran out before Enter. */
  datatype ReadError = IndexOutOfRange | EndOfInput

  /** The state after a read loop, the line or the error, and the keys not consumed. */
  datatype LoopResult = LoopResult(state: EditorState, outcome: Result<string, ReadError>, rest: seq<KeyInfo>)

  /**
   * GetText: read keys and hand each to Handle until Enter, which is consumed but
   * not dispatched; the line is the buffer's text.
   */
  function ReadLoop(s: EditorState, history: seq<string>, provider: Option<CompletionProvider>,
                    keys: seq<KeyInfo>): (r: LoopResult)
    requires Wf(s, history)
    ensures Wf(r.state, history)
    ensures r.outcome.Ok? ==> r.outcome.value == r.state.text
    decreases |keys|
  {
    if keys == [] then LoopResult(s, Err(EndOfInput), [])
    else if keys[0].key == Enter then LoopResult(s, Ok(s.text), keys[1..])
    else
      var first := Step(s, history, provider, keys[0]);
      if first.faulted then LoopResult(first.state, Err(IndexOutOfRange), keys[1..])
      else ReadLoop(first.state, history, provider, keys[1..])
  }

  /** A read loop's first key: Enter ends it with the text, any other key is handed to Handle. */
  lemma ReadLoopFirst(s: EditorState, history: seq<string>, provider: Option<CompletionProvider>, keys: seq<KeyInfo>)
    requires Wf(s, history) && keys != []
    ensures keys[0].key == Enter ==> ReadLoop(s, history, provider, keys) == LoopResult(s, Ok(s.text), keys[1..])
    ensures var first := Step(s, history, provider, keys[0]);
      keys[0].key != Enter ==>
        ReadLoop(s, history, provider, keys)
        == if first.faulted then LoopResult(first.state, Err(IndexOutOfRange), keys[1..])
           else ReadLoop(first.state, history, provider, keys[1..])
  {
  }
}
