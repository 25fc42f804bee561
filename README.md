# ReadLine line editor, modelled in Dafny

A model of the line editor of the C# ReadLine library (webmaster442/readline):

- the `KeyHandler` state machine, which turns key presses into edits of a text buffer;
- the `LineReader` that feeds it keys until Enter;
- the `TestConsole` that stands in for the terminal.

## What the model holds

The state of a `KeyHandler` is:

- a text buffer, with a logical cursor and the tracked length `_cursorLimit`;
- a history cursor over a history list shared with its `LineReader`;
- an optional tab-completion session: candidates, start offset and index.

There are two layers:

- `LineModel` (line_model.dfy) gives every action of the key table as a pure function on an `EditorState`. `Step` is one `Handle` call, `Run` is a sequence of them, and `ReadLoop` is the `GetText` loop.
- `KeyHandling.KeyHandler` (key_handler.dfy) is a class with the source's fields and methods. Each method changes the fields exactly as the matching `LineModel` function says, and keeps the invariant `0 <= cursorPos <= cursorLimit == |text|`. The primitive moves and writes also say where the console's cursor ends.

The key table is a datatype of actions and a `match` on a canonical chord (`Chord(prefix, key)`), not a dictionary of delegates and strings. `BuildKeyInput` builds the chord from the modifiers, as the source's string does.

`Reader.LineReader` (line_reader.dfy) holds one `KeyHandler`, built in the constructor, over the reader's own history list. The blocking `ReadKey` is a sequence of key events. Each read returns the keys it did not consume, and running out of keys before Enter is the error `EndOfInput`.

Two behaviours of the source are modelled as written:

- **Control+T can throw.** At the end of a one-character line, Control+T indexes position -1 and .NET throws `IndexOutOfRangeException`. Here that is a `faulted` step: `Handle` returns `false`, and the read ends with `IndexOutOfRange`.
- **Password mode can stay on.** `ReadPassword` has no `finally`, so password mode stays on after a read that ends in an error.

`LineProperties` (line_properties.dfy) relates several actions, for example:

- backspace undoes an insertion;
- transposing twice restores the line;
- Tab k times lands on candidate `(i + k) mod N`;
- the read loop dispatches exactly the keys before the first Enter.

`Scenarios` (scenarios.dfy) states the result of concrete key sequences under `Run`, `ReadLoop` and `LineReader`.

Two more behaviours of the code, as written:

- **The history cursor is set once.** It is set only in the `KeyHandler` constructor, to the history length at that moment (src/ReadLine/KeyHandler.cs:264). A `LineReader` builds its one `KeyHandler` over an empty list (src/ReadLine/ReadLine.cs:19-20), so the cursor starts at 0. The buffer and the history cursor are not fresh for each read: the second read of `TwoReadsShareTheBuffer` starts from the first read's text.
- **UpArrow browses from the newest entry.** From a fresh `KeyHandler` over `["ls -a", "dotnet run", "git init"]`, the first UpArrow shows "git init" and the third shows "ls -a"; a fourth changes nothing (`BrowseThreeCommands`).

## Model

| member | source | states |
|---|---|---|
| ConsoleKeys.BuildKeyInput | src/ReadLine/KeyHandler.cs:54-59 | the chord's key is the pressed key; its prefix is Control (Shift) exactly when the modifiers are exactly {Control} ({Shift}), and no prefix otherwise |
| ConsoleKeys.ModifiersCollapse | src/ReadLine/KeyHandler.cs:54-59 | any other modifier set, Alt and combinations included, gives the same chord as no modifier |
| Terminal.TestConsole.constructor | test/ReadLine.Tests/Abstractions/TestConsole.cs:23-29 | a fresh console has its cursor at (0,0), a 100 x 100 buffer and password mode off |
| Terminal.TestConsole.SetBufferSize | test/ReadLine.Tests/Abstractions/TestConsole.cs:31-35 | sets width and height; the cursor and password mode are unchanged |
| Terminal.TestConsole.SetCursorPosition | test/ReadLine.Tests/Abstractions/TestConsole.cs:37-41 | the cursor becomes exactly (left, top), with no clamping; the buffer size and password mode are unchanged |
| Terminal.TestConsole.Write | test/ReadLine.Tests/Abstractions/TestConsole.cs:43-46 | the column grows by the string's length and the row stays, with no wrap at the buffer width |
| Terminal.TestConsole.WriteLine | test/ReadLine.Tests/Abstractions/TestConsole.cs:48-51 | as Write: the line break moves neither row nor column |
| KeyHandling.HistoryList.Add | src/ReadLine/ReadLine.cs:37-40 | History.Add appends exactly one line at the end |
| KeyHandling.HistoryList.constructor | src/ReadLine/ReadLine.cs:19 | a new history list is empty |
| KeyHandling.StepRight | src/ReadLine/KeyHandler.cs:66-69 | from a column inside the buffer, the screen cursor stays inside it and moves down at most one row; `StepRightAdvances` gives the exact cell |
| KeyHandling.StepLeft | src/ReadLine/KeyHandler.cs:43-46 | from a column inside the buffer, the screen cursor stays inside it and moves up at most one row, whatever the count; `StepLeftRetreats` gives the exact cell |
| KeyHandling.StepsRight | src/ReadLine/KeyHandler.cs:74-78 | n steps right stay inside the buffer's columns and move down at most n rows; `StepsRightAdvance` gives the exact cell |
| KeyHandling.KeyHandler.constructor | src/ReadLine/KeyHandler.cs:259-266 | a null history becomes a fresh empty list; the history cursor is the list's length; the buffer is empty, with no session; the invariant holds |
| KeyHandling.KeyHandler.IsStartOfLine | src/ReadLine/KeyHandler.cs:23-24 | within the line, true exactly when a left move leaves the state unchanged |
| KeyHandling.KeyHandler.IsEndOfLine | src/ReadLine/KeyHandler.cs:26-27 | when the tracked length is the buffer's length, true exactly when a right move leaves the state unchanged |
| KeyHandling.KeyHandler.IsEndOfBuffer | src/ReadLine/KeyHandler.cs:29-30 | true exactly when the next step right wraps to the next row |
| KeyHandling.KeyHandler.IsInAutoCompleteMode | src/ReadLine/KeyHandler.cs:32-33 | true exactly when ResetAutoComplete has a session to end; under the invariant, a session puts the cursor at the end of the line |
| KeyHandling.KeyHandler.Text | src/ReadLine/KeyHandler.cs:251-257 | the buffer's contents, whose length is the tracked `_cursorLimit` under the invariant |
| KeyHandling.KeyHandler.MoveCursorLeft | src/ReadLine/KeyHandler.cs:38-49 | the cursor moves left by the count clamped to the cursor offset; the screen cursor moves back that many columns, or to the last column of the previous row when the count exceeds the column |
| KeyHandling.KeyHandler.MoveCursorHome | src/ReadLine/KeyHandler.cs:51-52 | the cursor goes to 0 and only the cursor changes |
| KeyHandling.KeyHandler.MoveCursorRight | src/ReadLine/KeyHandler.cs:61-72 | at the end of the line nothing changes; otherwise the cursor moves one right, and the screen cursor one column right, or to column 0 of the next row from the last column |
| KeyHandling.KeyHandler.MoveCursorEnd | src/ReadLine/KeyHandler.cs:74-78 | the cursor reaches the tracked length; the screen cursor takes that many single steps right; the loop keeps the other fields |
| KeyHandling.KeyHandler.WriteChar | src/ReadLine/KeyHandler.cs:105-125 | the buffer becomes `old[..pos] + [c] + old[pos..]`; cursor and length each grow by one, at or before the end of the line; at the end the column advances by one, before it the screen cursor takes one step right |
| KeyHandling.KeyHandler.WriteTypedChar | src/ReadLine/KeyHandler.cs:99-103 | the key's character is inserted unless it is a control character; otherwise nothing changes |
| KeyHandling.KeyHandler.WriteString | src/ReadLine/KeyHandler.cs:93-97 | the loop inserts the string at the cursor, in order, with the cursor after it; from the end of the line the column advances by its length |
| KeyHandling.KeyHandler.Backspace | src/ReadLine/KeyHandler.cs:132-147 | the count is clamped to the cursor offset; that many characters before the cursor are removed; cursor and length drop by the clamped count; the screen cursor moves as MoveCursorLeft does |
| KeyHandling.KeyHandler.Delete | src/ReadLine/KeyHandler.cs:149-162 | at the end of the line nothing changes; otherwise the character at the cursor is removed, the cursor stays, and the screen cursor stays |
| KeyHandling.KeyHandler.ClearLine | src/ReadLine/KeyHandler.cs:80-84 | the buffer is empty with the cursor at 0; the screen cursor goes right to the end, then back by the line's length |
| KeyHandling.KeyHandler.WriteNewString | src/ReadLine/KeyHandler.cs:86-91 | the buffer is the string with the cursor at its end; the screen cursor is the cleared position plus the string's length |
| KeyHandling.KeyHandler.KillToStart | src/ReadLine/KeyHandler.cs:286 | Control+U: the buffer keeps `old[pos..]` with the cursor at 0 |
| KeyHandling.KeyHandler.KillToEnd | src/ReadLine/KeyHandler.cs:287-292 | Control+K: the buffer keeps `old[..pos]` with the cursor at its end |
| KeyHandling.KeyHandler.DeleteWord | src/ReadLine/KeyHandler.cs:293-297 | Control+W: the loop removes the characters from the word start (`WordStart`) up to the cursor, one backspace at a time |
| KeyHandling.KeyHandler.TransposeChars | src/ReadLine/KeyHandler.cs:164-189 | succeeds exactly when `Transposed` has a result, and the fields are then that result; when it fails (the source throws) nothing has changed |
| KeyHandling.KeyHandler.StartAutoComplete | src/ReadLine/KeyHandler.cs:191-198 | the token after the start offset is replaced by candidate 0 and the index is 0 |
| KeyHandling.KeyHandler.NextAutoComplete | src/ReadLine/KeyHandler.cs:200-210 | the index moves one forward, to 0 after the last, and the line is the prefix plus that candidate |
| KeyHandling.KeyHandler.PreviousAutoComplete | src/ReadLine/KeyHandler.cs:212-222 | the index moves one back, to the last before the first, and the line is the prefix plus that candidate |
| KeyHandling.KeyHandler.ResetAutoComplete | src/ReadLine/KeyHandler.cs:245-249 | the session ends with the index at 0; buffer, cursor and offset stay |
| KeyHandling.KeyHandler.Complete | src/ReadLine/KeyHandler.cs:300-324 | the Tab action changes the fields exactly as `Tabbed` |
| KeyHandling.KeyHandler.CompleteBackward | src/ReadLine/KeyHandler.cs:326-332 | the Shift+Tab action changes the fields exactly as `ShiftTabbed`: nothing outside a session |
| KeyHandling.KeyHandler.PrevHistory | src/ReadLine/KeyHandler.cs:224-231 | the fields change exactly as `HistoryPrevious`; the history list is not modified |
| KeyHandling.KeyHandler.NextHistory | src/ReadLine/KeyHandler.cs:233-243 | the fields change exactly as `HistoryNext`; the history list is not modified |
| KeyHandling.KeyHandler.Perform | src/ReadLine/KeyHandler.cs:268-298 | runs the table's action: the fields change exactly as `Dispatch`, and it reports a fault exactly when `Dispatch` does |
| KeyHandling.KeyHandler.PerformEdit | src/ReadLine/KeyHandler.cs:268-297 | a motion or deletion action of the table changes the fields exactly as `Dispatch`, keeps the invariant and never throws |
| KeyHandling.KeyHandler.Handle | src/ReadLine/KeyHandler.cs:335-346 | records the key; the fields change exactly as `Step`; returns false exactly where the source throws; the invariant `0 <= cursorPos <= cursorLimit == |text|` and the history-cursor range are kept |
| LineModel.Initial | src/ReadLine/KeyHandler.cs:263-265 | a fresh KeyHandler: an empty, well-formed line with no session and the history cursor at the history's length |
| LineModel.MovedLeft | src/ReadLine/KeyHandler.cs:38-49 | only the cursor changes; it drops by the count, or to 0 when the count reaches the offset |
| LineModel.MovedRight | src/ReadLine/KeyHandler.cs:61-72 | only the cursor changes: one right before the end of the line, nothing at the end |
| LineModel.MovedEnd | src/ReadLine/KeyHandler.cs:74-78 | only the cursor changes, to the end of the line |
| LineModel.Inserted | src/ReadLine/KeyHandler.cs:105-125 | the text grows by one, with `c` at the old cursor, the prefix before it and the suffix after it unchanged; the cursor is one further |
| LineModel.InsertedString | src/ReadLine/KeyHandler.cs:93-97 | the string goes in at the cursor, `old[..pos] + str + old[pos..]`, and the cursor moves past it |
| LineModel.Backspaced | src/ReadLine/KeyHandler.cs:132-147 | the cursor drops by the count, or to 0; the text is the part before the new cursor joined to the part from the old one |
| LineModel.Deleted | src/ReadLine/KeyHandler.cs:149-162 | nothing at the end of the line; otherwise the text is one shorter with the character at the cursor gone |
| LineModel.Cleared | src/ReadLine/KeyHandler.cs:80-84 | ClearLine is MoveCursorEnd followed by a Backspace of the whole line |
| LineModel.Rewritten | src/ReadLine/KeyHandler.cs:86-91 | the line becomes the string, well formed |
| LineModel.KilledToStart | src/ReadLine/KeyHandler.cs:286 | Control+U is a Backspace by the cursor offset |
| LineModel.KilledToEnd | src/ReadLine/KeyHandler.cs:287-292 | Control+K is MoveCursorEnd followed by a Backspace by the distance the cursor moved |
| LineModel.WordStart | src/ReadLine/KeyHandler.cs:293-297 | where Control+W stops: no space between it and the cursor, and it is the start of the line or just after a space, so the run removed is maximal |
| LineModel.WordDeleted | src/ReadLine/KeyHandler.cs:293-297 | Control+W puts the cursor at `WordStart` and is one Backspace by the length of the run between it and the cursor |
| LineModel.Swapped | src/ReadLine/KeyHandler.cs:176-178 | the two characters change places and every other character stays |
| LineModel.Transposed | src/ReadLine/KeyHandler.cs:164-189 | does nothing at the start of the line; fails exactly at the end of a one-character line (index -1); otherwise keeps the length and the cursor within the line |
| LineModel.HistoryPrevious | src/ReadLine/KeyHandler.cs:224-231 | nothing at index 0; otherwise the index drops by one and the line is that entry, with the cursor at its end; the index stays in `[0, |history|]` and the session fields stay |
| LineModel.HistoryNext | src/ReadLine/KeyHandler.cs:233-243 | nothing at the end of the history; otherwise the index grows by one and the line is that entry, or empty when the index reaches the end |
| LineModel.LastIndexOfAny | src/ReadLine/KeyHandler.cs:313 | the last separator position, or -1: no separator lies after it |
| LineModel.CompletionStart | src/ReadLine/KeyHandler.cs:313-314 | one past the last separator, or 0; no separator lies after it |
| LineModel.CompletionStarted | src/ReadLine/KeyHandler.cs:191-198 | a valid session on index 0 whose line is the text before the offset followed by candidate 0 |
| LineModel.CompletionAdvanced | src/ReadLine/KeyHandler.cs:200-210 | the index becomes the next one, or 0 after the last; the line is the prefix plus that candidate; nothing else changes |
| LineModel.CompletionRetreated | src/ReadLine/KeyHandler.cs:212-222 | the index becomes the previous one, or the last before the first; the line is the prefix plus that candidate |
| LineModel.Normalized | src/ReadLine/KeyHandler.cs:317 | an empty suggestion list counts as none; any other list is kept |
| LineModel.Tabbed | src/ReadLine/KeyHandler.cs:300-324 | in a session: the next candidate. Outside one with no provider, or away from the end of the line: nothing. Otherwise the start offset is recorded, a session starts exactly when the suggestions are non-empty, and the line is then the text before the offset plus candidate 0 |
| LineModel.ShiftTabbed | src/ReadLine/KeyHandler.cs:326-332 | nothing outside a session; the previous candidate inside one |
| LineModel.ControlBinding | src/ReadLine/KeyHandler.cs:271-298 | exactly the letters A, B, D, E, F, H, K, L, N, P, T, U and W are bound under Control, and none of them completes |
| LineModel.Binding | src/ReadLine/KeyHandler.cs:268-332 | no chord is bound to the fallback; Tab alone is the only chord that completes and Shift+Tab the only one that completes backwards; Shift binds nothing but Tab; Enter is unbound |
| LineModel.EveryActionBound | src/ReadLine/KeyHandler.cs:268-332 | every action but the fallback is bound to some chord, and the fallback to none |
| LineModel.Resolve | src/ReadLine/KeyHandler.cs:268-332 | the fallback runs exactly for unbound chords; only Tab chords complete; Control+T is the only chord that transposes |
| LineModel.Dispatch | src/ReadLine/KeyHandler.cs:343-345 | keeps the state well formed; faults exactly for Control+T at the end of a one-character line, and a fault changes nothing |
| LineModel.Step | src/ReadLine/KeyHandler.cs:335-346 | any key but Tab ends the session; the step faults exactly for the Control+T chord at the end of a one-character line |
| LineModel.Run | src/ReadLine/KeyHandler.cs:335-346 | Handle over any key sequence keeps the invariant |
| LineModel.ReadLoop | src/ReadLine/ReadLine.cs:54-65 | a line it returns is the buffer's final text |
| LineProperties.BackspaceUndoesInsert | src/ReadLine/KeyHandler.cs:105-147 | Backspace right after inserting a character restores text and cursor |
| LineProperties.DeleteUndoesInsert | src/ReadLine/KeyHandler.cs:35-162 | inserting, stepping left, then Delete restores text and cursor |
| LineProperties.LeftMovesCompose | src/ReadLine/KeyHandler.cs:38-49 | two left moves are one move by the sum of the counts |
| LineProperties.TransposeExchangesPair | src/ReadLine/KeyHandler.cs:164-189 | away from the start, Control+T swaps the characters at `pos-1` and `pos` (the last two at the end of the line); every other character and the multiset of characters stay; the cursor ends just past the pair |
| LineProperties.TransposeTwiceAtEnd | src/ReadLine/KeyHandler.cs:164-189 | at the end of a line of two or more characters, Control+T twice restores the line and the cursor |
| LineProperties.DeleteWordRemovesRun | src/ReadLine/KeyHandler.cs:293-297 | Control+W removes the longest run of non-space characters ending at the cursor. The cursor goes back to the start of the line or to just after a space, and the rest of the line is kept |
| LineProperties.DeleteWordIdempotent | src/ReadLine/KeyHandler.cs:293-297 | Control+W twice is Control+W once |
| LineProperties.DeleteWordActsIff | src/ReadLine/KeyHandler.cs:293-297 | Control+W changes the line exactly when a non-space character is just before the cursor |
| LineProperties.KillsSplitLine | src/ReadLine/KeyHandler.cs:286-292 | what Control+K keeps, followed by what Control+U keeps, is the whole line; the cursors end at the old cursor and at 0 |
| LineProperties.RewriteClearsThenWrites | src/ReadLine/KeyHandler.cs:86-91 | WriteNewString is ClearLine followed by WriteString of the new line |
| LineProperties.StepTypes | src/ReadLine/KeyHandler.cs:99-125 | an unbound printable key at the end of the line appends its character without throwing; outside a session nothing else changes |
| LineProperties.TypingAppends | src/ReadLine/KeyHandler.cs:99-125 | typing printable keys at the end of the line appends their characters in order, with the cursor at the end; no key throws; outside a session nothing else changes |
| LineProperties.PreviousReaches | src/ReadLine/KeyHandler.cs:224-231 | k UpArrows from index i (k <= i) reach entry i - k and show it |
| LineProperties.FreshHandlerBrowses | src/ReadLine/KeyHandler.cs:224-264 | a fresh KeyHandler keeps the invariant; its first UpArrow shows the newest entry with the cursor at its end, and DownArrow does nothing |
| LineProperties.PreviousStopsAtFirst | src/ReadLine/KeyHandler.cs:224-231 | UpArrows past the first entry change nothing more |
| LineProperties.NextReaches | src/ReadLine/KeyHandler.cs:233-243 | k DownArrows reach index i + k; at the end of the history the line is empty |
| LineProperties.BrowseAndReturn | src/ReadLine/KeyHandler.cs:224-243 | from past the end, k UpArrows then k DownArrows give back an empty line past the end |
| LineProperties.AdvanceIsModular | src/ReadLine/KeyHandler.cs:200-210 | Tab in a session sets the index to `(i + 1) mod N` |
| LineProperties.RetreatIsModular | src/ReadLine/KeyHandler.cs:212-222 | Shift+Tab in a session sets the index to `(i - 1 + N) mod N` |
| LineProperties.AdvancedKeeps | src/ReadLine/KeyHandler.cs:200-210 | Tab k times keeps the candidates, the start offset and the history cursor |
| LineProperties.AdvancedIndex | src/ReadLine/KeyHandler.cs:200-210 | Tab k times moves the index k steps round the cycle of candidates |
| LineProperties.AdvancedShows | src/ReadLine/KeyHandler.cs:200-210 | after Tabs, the line is the text before the offset followed by the current candidate, with the cursor at the end |
| LineProperties.AdvancedLandsOn | src/ReadLine/KeyHandler.cs:200-210 | Tab k times (k > 0) lands on candidate `(i + k) mod N` and shows it after the offset |
| LineProperties.FullCycle | src/ReadLine/KeyHandler.cs:200-210 | Tab N times, for N candidates, shows the candidate it started from |
| LineProperties.RetreatUndoesAdvance | src/ReadLine/KeyHandler.cs:200-222 | Shift+Tab after Tab comes back to the same index and line |
| LineProperties.RetreatStepsBack | src/ReadLine/KeyHandler.cs:200-222 | Shift+Tab after j + 1 Tabs is exactly the state after j Tabs |
| LineProperties.FirstEnter | src/ReadLine/ReadLine.cs:56-61 | the position of the first Enter key, or the number of keys |
| LineProperties.ReadLoopDispatchesPrefix | src/ReadLine/ReadLine.cs:54-65 | the read loop is Handle over exactly the keys before the first Enter. Its line is the resulting text, and the keys after that Enter are left over. A throwing key gives `IndexOutOfRange`; no Enter gives `EndOfInput` |
| LineProperties.StepsRightWithinRow | src/ReadLine/KeyHandler.cs:61-72 | within one row, n steps right advance the column by n |
| LineProperties.StepRightAdvances | src/ReadLine/KeyHandler.cs:66-69 | a step right is the next cell of the buffer, read row by row |
| LineProperties.StepsRightAdvance | src/ReadLine/KeyHandler.cs:74-78 | n steps right are n cells further on, however many rows they wrap |
| LineProperties.StepLeftRetreats | src/ReadLine/KeyHandler.cs:43-46 | a left move within the row goes back by the count; one past column 0 lands on the cell just before the row, however large the count |
| LineProperties.LeftThenRightWithinRow | src/ReadLine/KeyHandler.cs:38-72 | within one row, moving left by n then n steps right brings the screen cursor back |
| LineProperties.LeftWrapsOneRowOnly | src/ReadLine/KeyHandler.cs:43-44 | a left move wraps at most one row: on a two-column buffer, 4 steps right from (0,0) reach (0,2), but 4 left from there land on (1,1) |
| Reader.Chosen | src/ReadLine/ReadLine.cs:33-36 | the default replaces the typed text exactly when the text is blank and the default is not |
| Reader.Recorded | src/ReadLine/ReadLine.cs:37-40 | the history grows by exactly the typed line, at the end, when recording is on and no substitution happened; otherwise it is unchanged |
| Reader.LineReader.constructor | src/ReadLine/ReadLine.cs:16-21 | an empty history, recording off, and one KeyHandler over that history, so its history cursor is 0 |
| Reader.LineReader.GetText | src/ReadLine/ReadLine.cs:54-65 | the loop leaves the KeyHandler in the `ReadLoop` state and returns its line or error and the unread keys; the console geometry and password mode are kept |
| Reader.LineReader.Read | src/ReadLine/ReadLine.cs:27-43 | returns the chosen line; the history is `Recorded` on success and unchanged on an error; the KeyHandler keeps its state between reads |
| Reader.LineReader.ReadPassword | src/ReadLine/ReadLine.cs:45-52 | the loop's state, line or error and unread keys are those of `ReadLoop`; password mode is switched on before the loop, which `GetText` proves it leaves alone, and afterwards it is off exactly when the read succeeded |
| Scenarios.RunSplits | src/ReadLine/KeyHandler.cs:335-346 | running two key sequences in turn is running their concatenation, unless the first throws |
| Scenarios.InsertInMiddle | src/ReadLine/KeyHandler.cs:35-125 | "hello", three LeftArrows, then "XY" gives "heXYllo" with the cursor at 4 |
| Scenarios.TransposeAtEnd | src/ReadLine/KeyHandler.cs:164-189 | "ab", then Control+T at the end, gives "ba" with the cursor at 2 |
| Scenarios.TransposeSingleCharacterThrows | src/ReadLine/KeyHandler.cs:171-178 | "a", then Control+T, throws and leaves "a" |
| Scenarios.BrowseThreeCommands | src/ReadLine/KeyHandler.cs:224-243 | over three commands: one UpArrow shows the newest, three show the oldest, a fourth changes nothing, and three DownArrows come back to the fresh empty line |
| Scenarios.CompleteGitCommand | src/ReadLine/KeyHandler.cs:300-332 | after "git ", Tab shows "git init", a second Tab "git clone", and Shift+Tab "git init" again |
| Scenarios.TwoReadsShareTheBuffer | src/ReadLine/ReadLine.cs:16-43 | with recording on, reading "a", then UpArrow "b", returns "a" and then "ab", and records both |

## Left out

- The convenience constructor `LineReader(IAutoCompleteHandler)` over a `SystemConsole`, the `SystemConsole` itself and the demo program are not modelled. They are terminal I/O.
- `Read` writes its prompt through `System.Console`, not through the driver (src/ReadLine/ReadLine.cs:29). The model takes the prompt but writes nothing.
- `ReadKey` blocks for the next key. In the model the keys are a finite sequence, and a read that runs out of keys before Enter ends with `EndOfInput`.
- The strings written to the screen are not tracked: the repainted suffixes and the space padding. A write only advances the console's column by its length, as in `TestConsole`.
- Null history lists are modelled. Null history entries, a null default and a null suggestion element are not: strings are never null here.
- Integers are unbounded. The source's 32-bit cursor and index fields cannot overflow for any line shorter than 2^31 characters.
- .NET `char` is a UTF-16 code unit, while Dafny's `char` is a Unicode scalar value, so a lone surrogate `KeyChar` cannot be represented.
- `IsControl` and `IsWhiteSpace` give the Unicode ranges of .NET's `char.IsControl` and `char.IsWhiteSpace`. Keys other than the ones the table binds are collapsed into `OtherKey`.
- The only exception modelled is the one Control+T can throw. No other action can throw when the invariant holds.
- KeyHandling.KeyHandler.Handle: does not state where the screen cursor ends. It states only that the buffer size and password mode are kept, because the screen cursor loses step with the logical one past a row wrap (see LeftWrapsOneRowOnly).
- KeyHandling.KeyHandler.Perform: as Handle, no screen cursor.
- KeyHandling.KeyHandler.TransposeChars: states the screen cursor only when it fails, where it has not moved.
- KeyHandling.KeyHandler.KillToEnd: does not state the screen cursor.
- KeyHandling.KeyHandler.DeleteWord: does not state the screen cursor.
- KeyHandling.KeyHandler.WriteTypedChar: does not state the screen cursor. WriteChar states it.
- KeyHandling.KeyHandler.WriteString: states the screen cursor only when it starts at the end of the line.
- KeyHandling.KeyHandler.StartAutoComplete: does not state the screen cursor. The same holds for NextAutoComplete, PreviousAutoComplete, Complete, CompleteBackward, PrevHistory and NextHistory.
- LineModel.Rewritten: its own contract says only that the line becomes the string. Its relation to ClearLine and WriteString is the separate lemma RewriteClearsThenWrites, because as a contract it makes every proof that rewrites the line too costly.
- The history list is shared by reference with the `LineReader`, and callers may change `History` between reads. The model's KeyHandler requires its history cursor to stay within the list, so changes that shrink the list below the cursor are not modelled.
