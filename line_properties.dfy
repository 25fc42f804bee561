/**
 * Properties of the editor model that relate several actions: inverses, repeated
 * moves, history browsing there and back, completion cycling, the read loop, and the
 * screen cursor arithmetic.
 */
module LineProperties {
  import opened Wrappers
  import opened ConsoleKeys
  import opened Terminal
  import opened LineModel
  import opened KeyHandling

  // ---------------------------------------------------------------- editing

  /** Backspace right after inserting a character restores the buffer and the cursor. */
  lemma BackspaceUndoesInsert(s: EditorState, c: char)
    requires LineWf(s)
    ensures Backspaced(Inserted(s, c), 1) == s
  {
    var t := Inserted(s, c);
    assert t.text[..s.pos] + t.text[t.pos..] == s.text;
  }

  /** Delete after inserting a character and stepping back over it restores the buffer and the cursor. */
  lemma DeleteUndoesInsert(s: EditorState, c: char)
    requires LineWf(s)
    ensures Deleted(MovedLeft(Inserted(s, c), 1)) == s
  {
    var t := MovedLeft(Inserted(s, c), 1);
    assert t.text[..t.pos] + t.text[t.pos + 1..] == s.text;
  }

  /** Two left moves are one move by the sum: once at the start, further left moves change nothing. */
  lemma {:induction false} LeftMovesCompose(s: EditorState, a: nat, b: nat)
    requires LineWf(s)
    ensures MovedLeft(MovedLeft(s, a), b) == MovedLeft(s, a + b)
  {
  }

  /**
   * Control+T away from the start of the line exchanges the character before the
   * cursor with the one at it (the last two at the end of the line), leaves every
   * other character and the multiset of characters as they were, and puts the
   * cursor just past the pair.
   */
  lemma TransposeExchangesPair(s: EditorState)
    requires LineWf(s) && s.pos > 0 && !(s.pos == |s.text| == 1)
    ensures Transposed(s).Some?
    ensures var r := Transposed(s).value;
      var second := if s.pos == |s.text| then s.pos - 1 else s.pos;
      && 1 <= second < |s.text| && r.pos == second + 1
      && r.text[second - 1] == s.text[second] && r.text[second] == s.text[second - 1]
      && (forall i :: 0 <= i < |s.text| && i != second - 1 && i != second ==> r.text[i] == s.text[i])
      && multiset(r.text) == multiset(s.text)
      && r.historyIndex == s.historyIndex && r.completions == s.completions
  {
    var second := if s.pos == |s.text| then s.pos - 1 else s.pos;
    var mid := s.text[second - 1 := s.text[second]];
    assert multiset(mid) == multiset(s.text) - multiset{s.text[second - 1]} + multiset{s.text[second]};
  }

  /** At the end of a line of two or more characters, Control+T twice restores the line and the cursor. */
  lemma TransposeTwiceAtEnd(s: EditorState)
    requires LineWf(s) && s.pos == |s.text| >= 2
    ensures var once := Transposed(s).value;
      once.pos == |once.text| && Transposed(once) == Some(s)
  {
    var once := Transposed(s).value;
    TransposeExchangesPair(s);
    TransposeExchangesPair(once);
    var twice := Transposed(once).value;
    assert twice.text == s.text;
  }

  /** Control+W right after Control+W changes nothing: the cursor already follows a space or is at the start. */
  lemma DeleteWordIdempotent(s: EditorState)
    requires LineWf(s)
    ensures WordDeleted(WordDeleted(s)) == WordDeleted(s)
  {
    var r := WordDeleted(s);
    var start := WordStart(s.text, s.pos);
    if start > 0 {
      assert r.text[start - 1] == s.text[start - 1];
    }
    assert r.text[..start] + r.text[start..] == r.text;
  }

  /**
   * Control+W removes the longest run of non-space characters that ends at the
   * cursor: the cursor moves back to the start of the line or to just after a
   * space, and the text is what lay before that point joined to what lay after
   * the old cursor.
   */
  lemma DeleteWordRemovesRun(s: EditorState)
    requires LineWf(s)
    ensures var r := WordDeleted(s);
      && 0 <= r.pos <= s.pos
      && r.text == s.text[..r.pos] + s.text[s.pos..]
      && (forall i :: r.pos <= i < s.pos ==> s.text[i] != ' ')
      && (r.pos == 0 || s.text[r.pos - 1] == ' ')
      && r.historyIndex == s.historyIndex && r.completions == s.completions
  {
  }

  /** Control+W changes the line exactly when a non-space character lies just before the cursor. */
  lemma DeleteWordActsIff(s: EditorState)
    requires LineWf(s)
    ensures WordDeleted(s) == s <==> s.pos == 0 || s.text[s.pos - 1] == ' '
  {
    if s.pos == 0 || s.text[s.pos - 1] == ' ' {
      assert s.text[..s.pos] + s.text[s.pos..] == s.text;
    } else {
      assert WordStart(s.text, s.pos) == WordStart(s.text, s.pos - 1);
    }
  }

  /** Control+U and Control+K split the line at the cursor: what each keeps, joined, is the line. */
  lemma KillsSplitLine(s: EditorState)
    requires LineWf(s)
    ensures KilledToEnd(s).text + KilledToStart(s).text == s.text
    ensures KilledToStart(s).pos == 0 && KilledToEnd(s).pos == s.pos
  {
    assert s.text[..s.pos] + s.text[s.pos..] == s.text;
  }

  /** A key that the table leaves unbound and whose character is printable. */
  predicate IsTypingKey(k: KeyInfo)
  {
    Resolve(BuildKeyInput(k)) == WriteTypedChar && !IsControl(k.keyChar)
  }

  /** The characters the keys type. */
  function Chars(keys: seq<KeyInfo>): (r: string)
    ensures |r| == |keys| && forall i :: 0 <= i < |keys| ==> r[i] == keys[i].keyChar
  {
    seq(|keys|, i requires 0 <= i < |keys| => keys[i].keyChar)
  }

  /** The characters of a non-empty key sequence: the first key's, then the rest's. */
  lemma CharsCons(keys: seq<KeyInfo>)
    requires keys != []
    ensures Chars(keys) == [keys[0].keyChar] + Chars(keys[1..])
  {
    assert Chars(keys) == [keys[0].keyChar] + Chars(keys[1..]);
  }

  /** WriteNewString is ClearLine followed by WriteString: the string written into an empty line. */
  lemma RewriteClearsThenWrites(s: EditorState, str: string)
    requires LineWf(s)
    ensures Rewritten(s, str) == InsertedString(Cleared(s), str)
  {
    assert Cleared(s).text[..0] + str + Cleared(s).text[0..] == str;
  }

  /** Appending one character and then a string is appending the two together. */
  lemma AppendAssociates(a: string, c: char, b: string)
    ensures a + ([c] + b) == (a + [c]) + b
  {
  }

  /** One typing key at the end of the line appends its character, without throwing and without touching the history cursor. */
  lemma StepTypes(s: EditorState, history: seq<string>, provider: Option<CompletionProvider>, k: KeyInfo)
    requires Wf(s, history) && s.pos == |s.text| && IsTypingKey(k)
    ensures var r := Step(s, history, provider, k);
      !r.faulted && r.state.text == s.text + [k.keyChar] && r.state.pos == |r.state.text|
      && r.state.historyIndex == s.historyIndex
    ensures s.completions.None? ==> Step(s, history, provider, k).state == s.(text := s.text + [k.keyChar], pos := |s.text| + 1)
  {
    var cleared := if s.completions.Some? && k.key != Tab then SessionReset(s) else s;
    var r := Dispatch(cleared, history, provider, WriteTypedChar, k.keyChar);
    assert Step(s, history, provider, k).state == r.state;
    assert r.state.text == s.text[..s.pos] + [k.keyChar] + s.text[s.pos..];
    assert s.text[..s.pos] == s.text && s.text[s.pos..] == [];
  }

  /**
   * Typing printable characters at the end of the line appends them in order and
   * leaves the cursor at the new end; no key throws. Outside a completion session
   * nothing else in the state changes.
   */
  lemma {:induction false} TypingAppends(s: EditorState, history: seq<string>,
                                         provider: Option<CompletionProvider>, keys: seq<KeyInfo>)
    requires Wf(s, history) && s.pos == |s.text|
    requires forall i :: 0 <= i < |keys| ==> IsTypingKey(keys[i])
    ensures var r := Run(s, history, provider, keys);
      !r.faulted && r.state.text == s.text + Chars(keys) && r.state.pos == |r.state.text|
      && r.state.historyIndex == s.historyIndex
    ensures s.completions.None? ==>
      Run(s, history, provider, keys).state == s.(text := s.text + Chars(keys), pos := |s.text| + |keys|)
    decreases |keys|
  {
    if keys == [] {
      assert Chars(keys) == [];
    } else {
      var first := Step(s, history, provider, keys[0]);
      StepTypes(s, history, provider, keys[0]);
      assert forall i :: 0 <= i < |keys[1..]| ==> IsTypingKey(keys[1..][i]) by {
        forall i | 0 <= i < |keys[1..]| ensures IsTypingKey(keys[1..][i]) {
          assert keys[1..][i] == keys[i + 1];
        }
      }
      TypingAppends(first.state, history, provider, keys[1..]);
      CharsCons(keys);
      AppendAssociates(s.text, keys[0].keyChar, Chars(keys[1..]));
    }
  }

  // ---------------------------------------------------------------- history

  /** A fresh KeyHandler keeps the invariant; UpArrow shows the newest entry and DownArrow does nothing. */
  lemma FreshHandlerBrowses(history: seq<string>)
    ensures Wf(Initial(|history|), history)
    ensures HistoryNext(Initial(|history|), history) == Initial(|history|)
    ensures history != [] ==>
      HistoryPrevious(Initial(|history|), history) == Initial(|history|).(
        historyIndex := |history| - 1, text := history[|history| - 1], pos := |history[|history| - 1]|)
  {
  }

  /** `k` presses of UpArrow. */
  function Previous(s: EditorState, history: seq<string>, k: nat): (r: EditorState)
    requires LineWf(s) && 0 <= s.historyIndex <= |history|
    ensures LineWf(r) && 0 <= r.historyIndex <= |history|
  {
    if k == 0 then s else HistoryPrevious(Previous(s, history, k - 1), history)
  }

  /** `k` presses of DownArrow. */
  function Next(s: EditorState, history: seq<string>, k: nat): (r: EditorState)
    requires LineWf(s) && 0 <= s.historyIndex <= |history|
    ensures LineWf(r) && 0 <= r.historyIndex <= |history|
  {
    if k == 0 then s else HistoryNext(Next(s, history, k - 1), history)
  }

  /** `k` UpArrows from index `i` (k <= i) reach entry `i - k` and show it. */
  lemma {:induction false} PreviousReaches(s: EditorState, history: seq<string>, k: nat)
    requires LineWf(s) && 0 <= s.historyIndex <= |history| && k <= s.historyIndex
    ensures var r := Previous(s, history, k);
      r.historyIndex == s.historyIndex - k && (k > 0 ==> r.text == history[r.historyIndex] && r.pos == |r.text|)
  {
    if k > 0 {
      PreviousReaches(s, history, k - 1);
    }
  }

  /** UpArrows past the first entry change nothing more. */
  lemma {:induction false} PreviousStopsAtFirst(s: EditorState, history: seq<string>, k: nat)
    requires LineWf(s) && 0 <= s.historyIndex <= |history| && 0 < s.historyIndex <= k
    ensures Previous(s, history, k) == Previous(s, history, s.historyIndex)
  {
    if k > s.historyIndex {
      PreviousStopsAtFirst(s, history, k - 1);
      PreviousReaches(s, history, s.historyIndex);
    }
  }

  /** `k` DownArrows from index `i` (i + k <= |history|) reach `i + k`; the end of the history shows an empty line. */
  lemma {:induction false} NextReaches(s: EditorState, history: seq<string>, k: nat)
    requires LineWf(s) && 0 <= s.historyIndex && s.historyIndex + k <= |history|
    ensures var r := Next(s, history, k);
      && r.historyIndex == s.historyIndex + k
      && (k > 0 ==> r.text == (if r.historyIndex == |history| then [] else history[r.historyIndex]) && r.pos == |r.text|)
  {
    if k > 0 {
      NextReaches(s, history, k - 1);
      var before := Next(s, history, k - 1);
      assert before.historyIndex < |history|;
      assert Next(s, history, k) == HistoryNext(before, history);
    }
  }

  /**
   * From the fresh-line state, `k` UpArrows then `k` DownArrows (0 < k <= |history|)
   * come back to an empty line that is not browsing the history.
   */
  lemma BrowseAndReturn(s: EditorState, history: seq<string>, k: nat)
    requires LineWf(s) && s.historyIndex == |history| && 0 < k <= |history|
    ensures var r := Next(Previous(s, history, k), history, k);
      r.historyIndex == |history| && r.text == [] && r.pos == 0
  {
    PreviousReaches(s, history, k);
    NextReaches(Previous(s, history, k), history, k);
  }

  // ---------------------------------------------------------------- completion

  /** `k` presses of Tab inside a session. */
  function Advanced(s: EditorState, k: nat): (r: EditorState)
    requires InSession(s)
    ensures InSession(r)
  {
    if k == 0 then s else CompletionAdvanced(Advanced(s, k - 1))
  }

  /** A positive multiple of `n` is at least `n`. */
  lemma {:induction false} MultipleAtLeast(d: nat, n: nat)
    requires d >= 1
    ensures d * n >= n
    decreases d
  {
    if d > 1 {
      MultipleAtLeast(d - 1, n);
      assert d * n == (d - 1) * n + n;
    }
  }

  /** The remainder is the unique `r` in `[0, n)` with `a == q * n + r`. */
  lemma RemainderUnique(a: int, q: int, n: int, r: int)
    requires n > 0 && 0 <= r < n && a == q * n + r
    ensures a % n == r
  {
    var q' := a / n;
    var r' := a % n;
    assert a == q' * n + r';
    assert (q - q') * n == r' - r;
    assert (q' - q) * n == r - r';
    if q > q' {
      MultipleAtLeast(q - q', n);
    } else if q < q' {
      MultipleAtLeast(q' - q, n);
    }
  }

  /** A position in a cycle of `n`: `a` with whole turns taken off, by subtraction. */
  function Wrap(a: nat, n: nat): (r: nat)
    requires n > 0
    ensures r < n
    decreases a
  {
    if a < n then a else Wrap(a - n, n)
  }

  /** Wrap is the remainder. */
  lemma {:induction false} WrapIsMod(a: nat, n: nat)
    requires n > 0
    ensures Wrap(a, n) == a % n
    decreases a
  {
    if a < n {
      RemainderUnique(a, 0, n, a);
    } else {
      WrapIsMod(a - n, n);
      var b := a - n;
      assert b == (b / n) * n + b % n;
      assert a == (b / n + 1) * n + b % n;
      RemainderUnique(a, b / n + 1, n, b % n);
    }
  }

  /** One step further round the cycle: `y` is `x + 1`. */
  lemma {:induction false} WrapStep(x: nat, y: nat, n: nat)
    requires n > 0 && y == x + 1
    ensures Wrap(y, n) == if Wrap(x, n) + 1 < n then Wrap(x, n) + 1 else 0
    decreases x
  {
    if y == n {
      assert Wrap(y, n) == Wrap(0, n);
    } else if y > n {
      WrapStep(x - n, y - n, n);
    }
  }

  /** NextAutoComplete moves the index one forward modulo the candidate count. */
  lemma AdvanceIsModular(s: EditorState)
    requires InSession(s)
    ensures CompletionAdvanced(s).completionsIndex == (s.completionsIndex + 1) % |Candidates(s)|
  {
    var n := |Candidates(s)|;
    if s.completionsIndex + 1 < n {
      RemainderUnique(s.completionsIndex + 1, 0, n, s.completionsIndex + 1);
    } else {
      RemainderUnique(s.completionsIndex + 1, 1, n, 0);
    }
  }

  /** PreviousAutoComplete moves the index one back modulo the candidate count. */
  lemma RetreatIsModular(s: EditorState)
    requires InSession(s)
    ensures CompletionRetreated(s).completionsIndex == (s.completionsIndex - 1 + |Candidates(s)|) % |Candidates(s)|
  {
    var n := |Candidates(s)|;
    if s.completionsIndex > 0 {
      RemainderUnique(s.completionsIndex - 1 + n, 1, n, s.completionsIndex - 1);
    } else {
      RemainderUnique(s.completionsIndex - 1 + n, 0, n, n - 1);
    }
  }

  /** Tab `k` times inside a session keeps the session's candidates and offset and the history cursor. */
  lemma {:induction false} AdvancedKeeps(s: EditorState, k: nat)
    requires InSession(s)
    ensures var r := Advanced(s, k);
      r.completions == s.completions && r.completionStart == s.completionStart
      && r.historyIndex == s.historyIndex
  {
    if k > 0 {
      AdvancedKeeps(s, k - 1);
      assert Advanced(s, k) == CompletionAdvanced(Advanced(s, k - 1));
    }
  }

  /** A number below the modulus is its own position in the cycle. */
  lemma WrapBelow(a: nat, n: nat)
    requires a < n
    ensures Wrap(a, n) == a
  {
  }

  /** One whole turn round the cycle comes back to the start. */
  lemma WrapTurn(a: nat, n: nat)
    requires a < n
    ensures Wrap(a + n, n) == a
  {
    WrapBelow(a, n);
  }

  /** The `k`-th Tab moves the index of the `(k-1)`-th state one forward, back to 0 after the last. */
  lemma AdvancedStepIndex(s: EditorState, k: nat)
    requires InSession(s) && k > 0
    ensures var b := Advanced(s, k - 1).completionsIndex;
      Advanced(s, k).completionsIndex == if b + 1 < |Candidates(s)| then b + 1 else 0
  {
    AdvancedKeeps(s, k - 1);
  }

  /** Tab `k` times inside a session moves the candidate index `k` steps round the cycle. */
  lemma {:induction false} AdvancedIndex(s: EditorState, k: nat)
    requires InSession(s)
    ensures Advanced(s, k).completionsIndex == Wrap(s.completionsIndex + k, |Candidates(s)|)
  {
    if k == 0 {
      WrapBelow(s.completionsIndex + k, |Candidates(s)|);
    } else {
      AdvancedIndex(s, k - 1);
      AdvancedStepIndex(s, k);
      WrapStep(s.completionsIndex + (k - 1), s.completionsIndex + k, |Candidates(s)|);
    }
  }

  /** After at least one Tab the line shows the current candidate after the start offset, with the cursor at the end. */
  lemma AdvancedShows(s: EditorState, k: nat)
    requires InSession(s) && k > 0
    ensures var r := Advanced(s, k);
      r.text == s.text[..s.completionStart] + Candidates(r)[r.completionsIndex] && r.pos == |r.text|
  {
    var before := Advanced(s, k - 1);
    AdvancedKeeps(s, k - 1);
    assert before.text[..before.completionStart] == s.text[..s.completionStart];
  }

  /**
   * Tab `k` times (k > 0) inside a session lands on candidate `(i + k) mod N` and
   * shows it after the start offset; the session's candidates and offset stay.
   */
  lemma AdvancedLandsOn(s: EditorState, k: nat)
    requires InSession(s) && k > 0
    ensures var r := Advanced(s, k);
      && r.completions == s.completions && r.completionStart == s.completionStart
      && r.completionsIndex == (s.completionsIndex + k) % |Candidates(s)|
      && r.text == s.text[..s.completionStart] + Candidates(s)[r.completionsIndex]
      && r.pos == |r.text| && r.historyIndex == s.historyIndex
  {
    AdvancedKeeps(s, k);
    AdvancedIndex(s, k);
    WrapIsMod(s.completionsIndex + k, |Candidates(s)|);
    AdvancedShows(s, k);
  }

  /** Tab as many times as there are candidates shows the candidate it started from. */
  lemma FullCycle(s: EditorState)
    requires InSession(s)
    ensures var r := Advanced(s, |Candidates(s)|);
      r.completionsIndex == s.completionsIndex
      && r.text == s.text[..s.completionStart] + Candidates(s)[s.completionsIndex]
  {
    AdvancedKeeps(s, |Candidates(s)|);
    AdvancedIndex(s, |Candidates(s)|);
    WrapTurn(s.completionsIndex, |Candidates(s)|);
    AdvancedShows(s, |Candidates(s)|);
  }

  /** Shift+Tab after `j + 1` Tabs (j > 0) gives back exactly the state after `j` Tabs. */
  lemma RetreatStepsBack(s: EditorState, j: nat)
    requires InSession(s) && j > 0
    ensures CompletionRetreated(Advanced(s, j + 1)) == Advanced(s, j)
  {
    var a := Advanced(s, j);
    assert Advanced(s, j + 1) == CompletionAdvanced(a);
    var before := Advanced(s, j - 1);
    assert a == CompletionAdvanced(before);
    AdvancedKeeps(s, j - 1);
    RetreatUndoesAdvance(a);
    assert before.text[..before.completionStart] == a.text[..a.completionStart];
  }

  /** Shift+Tab undoes Tab inside a session. */
  lemma RetreatUndoesAdvance(s: EditorState)
    requires InSession(s)
    ensures var r := CompletionRetreated(CompletionAdvanced(s));
      r.completionsIndex == s.completionsIndex
      && r.text == s.text[..s.completionStart] + Candidates(s)[s.completionsIndex]
  {
    var n := |Candidates(s)|;
    var a := CompletionAdvanced(s);
    assert a.text[..a.completionStart] == s.text[..s.completionStart];
  }

  // ---------------------------------------------------------------- the read loop

  /** The index of the first Enter key, or the number of keys when there is none. */
  function FirstEnter(keys: seq<KeyInfo>): (e: nat)
    ensures e <= |keys|
    ensures e < |keys| ==> keys[e].key == Enter
    ensures forall i :: 0 <= i < e ==> keys[i].key != Enter
  {
    if keys == [] then 0
    else if keys[0].key == Enter then 0
    else 1 + FirstEnter(keys[1..])
  }

  /**
   * The read loop is Handle applied to exactly the keys before the first Enter, in
   * order: its line is the text that leaves, and the keys after that Enter are left
   * for the next read. A key that throws ends it with the error, and running out of
   * keys before an Enter ends it with EndOfInput.
   */
  lemma {:induction false} ReadLoopDispatchesPrefix(s: EditorState, history: seq<string>,
                                                    provider: Option<CompletionProvider>, keys: seq<KeyInfo>)
    requires Wf(s, history)
    ensures var e := FirstEnter(keys);
      var run := Run(s, history, provider, keys[..e]);
      var loop := ReadLoop(s, history, provider, keys);
      && loop.state == run.state
      && (run.faulted ==> loop.outcome == Err(IndexOutOfRange))
      && (!run.faulted && e < |keys| ==> loop.outcome == Ok(run.state.text) && loop.rest == keys[e + 1..])
      && (!run.faulted && e == |keys| ==> loop.outcome == Err(EndOfInput) && loop.rest == [])
    decreases |keys|
  {
    if keys != [] && keys[0].key != Enter {
      var first := Step(s, history, provider, keys[0]);
      var e := FirstEnter(keys);
      assert e == 1 + FirstEnter(keys[1..]);
      assert ReadLoop(s, history, provider, keys)
          == if first.faulted then LoopResult(first.state, Err(IndexOutOfRange), keys[1..])
             else ReadLoop(first.state, history, provider, keys[1..]);
      assert Run(s, history, provider, keys[..e])
          == if first.faulted then first else Run(first.state, history, provider, keys[..e][1..]);
      assert keys[..e][0] == keys[0];
      assert keys[..e][1..] == keys[1..][..e - 1];
      if !first.faulted {
        ReadLoopDispatchesPrefix(first.state, history, provider, keys[1..]);
        if e < |keys| {
          assert keys[1..][e - 1 + 1..] == keys[e + 1..];
        }
      }
    }
  }

  // ---------------------------------------------------------------- the screen cursor

  /** The cell's offset from the top-left of a buffer `width` columns wide. */
  function Offset(p: Position, width: int): int
  {
    p.top * width + p.left
  }

  /** A step right is the next cell of the buffer, read row by row. */
  lemma StepRightAdvances(p: Position, width: int)
    requires 0 <= p.left < width
    ensures Offset(StepRight(p, width), width) == Offset(p, width) + 1
  {
    if p.left == width - 1 {
      assert (p.top + 1) * width == p.top * width + width;
    }
  }

  /** `n` steps right are `n` cells further on, however many rows they wrap. */
  lemma {:induction false} StepsRightAdvance(p: Position, width: int, n: nat)
    requires 0 <= p.left < width
    ensures Offset(StepsRight(p, width, n), width) == Offset(p, width) + n
  {
    if n > 0 {
      StepsRightAdvance(p, width, n - 1);
      StepRightAdvances(StepsRight(p, width, n - 1), width);
    }
  }

  /**
   * A left move within the row goes back `count` cells; one past column 0 goes to
   * the cell just before the row, however far the count reaches.
   */
  lemma StepLeftRetreats(p: Position, width: int, count: int)
    requires 0 <= count
    ensures count <= p.left ==> Offset(StepLeft(p, width, count), width) == Offset(p, width) - count
    ensures count > p.left ==> Offset(StepLeft(p, width, count), width) == p.top * width - 1
  {
    if count > p.left {
      assert (p.top - 1) * width == p.top * width - width;
    }
  }

  /** Within one row, `n` steps right advance the column by `n`. */
  lemma {:induction false} StepsRightWithinRow(p: Position, width: int, n: nat)
    requires p.left + n < width
    ensures StepsRight(p, width, n) == Position(p.left + n, p.top)
  {
    if n > 0 {
      StepsRightWithinRow(p, width, n - 1);
    }
  }

  /** Within one row, `count` steps left and then `count` steps right put the screen cursor back where it was. */
  lemma LeftThenRightWithinRow(p: Position, width: int, count: nat)
    requires count <= p.left < width
    ensures StepsRight(StepLeft(p, width, count), width, count) == p
  {
    StepsRightWithinRow(StepLeft(p, width, count), width, count);
  }

  /**
   * Past one row the screen cursor falls out of step: on a two-column buffer, four
   * steps right from (0,0) reach (0,2), but moving four left from there lands at (1,1).
   */
  lemma LeftWrapsOneRowOnly()
    ensures StepsRight(Position(0, 0), 2, 4) == Position(0, 2)
    ensures StepLeft(Position(0, 2), 2, 4) == Position(1, 1)
  {
    assert StepsRight(Position(0, 0), 2, 2) == Position(0, 1);
  }
}
