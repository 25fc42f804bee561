/**
 * The LineReader: one KeyHandler built at construction over the reader's own history
 * list, and a read loop that hands it every key up to Enter. The blocking key stream
 * is a sequence of key events; each read returns the keys it did not consume.
 */
module Reader {
  import opened Wrappers
  import opened ConsoleKeys
  import opened Terminal
  import opened LineModel
  import opened KeyHandling

  /** Read replaces a blank line by the default when the default is not blank. */
  predicate Substitutes(typed: string, default: string)
  {
    IsBlank(typed) && !IsBlank(default)
  }

  /** The line Read returns: the typed text, or the default in its place. */
  function Chosen(typed: string, default: string): (r: string)
    ensures r == typed || r == default
    ensures !IsBlank(typed) ==> r == typed
    ensures IsBlank(default) ==> r == typed
    ensures IsBlank(r) ==> IsBlank(typed) && IsBlank(default)
  {
    if Substitutes(typed, default) then default else typed
  }

  /**
   * The history after Read: the typed line is appended, once, when recording is
   * enabled and no substitution took place; otherwise it is left alone.
   */
  function Recorded(history: seq<string>, typed: string, default: string, enabled: bool): (r: seq<string>)
    ensures |history| <= |r| <= |history| + 1 && r[..|history|] == history
    ensures |r| == |history| + 1 <==> enabled && !Substitutes(typed, default)
    ensures |r| == |history| + 1 ==> r[|history|] == typed
  {
    if Substitutes(typed, default) then history
    else if enabled then history + [typed]
    else history
  }

  class LineReader {
    const console: TestConsole
    const keyHandler: KeyHandler
    const history: HistoryList
    var historyEnabled: bool

    /** The KeyHandler shares this reader's console and history list, and keeps its invariant. */
    ghost predicate Valid()
      reads this, keyHandler, history
    {
      keyHandler.console == console && keyHandler.history == history && keyHandler.Valid()
    }

    /**
     * A reader with an empty history, recording off, and its single KeyHandler,
     * whose history cursor is therefore 0.
     */
    constructor (console: TestConsole, provider: Option<CompletionProvider>)
      ensures Valid() && fresh(keyHandler) && fresh(history)
      ensures this.console == console && keyHandler.provider == provider
      ensures history.entries == [] && !historyEnabled
      ensures keyHandler.State() == Initial(0)
    {
      var list := new HistoryList();
      this.console := console;
      history := list;
      keyHandler := new KeyHandler(console, list, provider);
      historyEnabled := false;
    }

    /**
     * GetText: hands every key before the first Enter to Handle, in order; Enter is
     * consumed, not dispatched, and the line is the KeyHandler's Text.
     */
    method GetText(keys: seq<KeyInfo>) returns (r: Result<string, ReadError>, rest: seq<KeyInfo>)
      requires Valid()
      modifies keyHandler, console
      ensures Valid()
      ensures var loop := ReadLoop(old(keyHandler.State()), history.entries, keyHandler.provider, keys);
        keyHandler.State() == loop.state && r == loop.outcome && rest == loop.rest
      ensures console.passwordMode == old(console.passwordMode)
      ensures console.bufferWidth == old(console.bufferWidth) && console.bufferHeight == old(console.bufferHeight)
    {
      if keys == [] {
        return Err(EndOfInput), [];
      }
      ghost var loop := ReadLoop(keyHandler.State(), history.entries, keyHandler.provider, keys);
      var keyInfo := keys[0];
      var next := 1;
      while keyInfo.key != Enter
        invariant 1 <= next <= |keys| && keyInfo == keys[next - 1]
        invariant Valid()
        invariant ReadLoop(keyHandler.State(), history.entries, keyHandler.provider, keys[next - 1..]) == loop
        invariant console.passwordMode == old(console.passwordMode)
        invariant console.bufferWidth == old(console.bufferWidth) && console.bufferHeight == old(console.bufferHeight)
        decreases |keys| - next
      {
        assert keys[next - 1..][1..] == keys[next..];
        ReadLoopFirst(keyHandler.State(), history.entries, keyHandler.provider, keys[next - 1..]);
        var ok := keyHandler.Handle(keyInfo);
        if !ok {
          return Err(IndexOutOfRange), keys[next..];
        }
        if next == |keys| {
          return Err(EndOfInput), [];
        }
        keyInfo := keys[next];
        next := next + 1;
      }
      assert keys[next - 1..][1..] == keys[next..];
      ReadLoopFirst(keyHandler.State(), history.entries, keyHandler.provider, keys[next - 1..]);
      console.WriteLine("");
      r := Ok(keyHandler.Text());
      rest := keys[next..];
    }

    /**
     * Read: the typed line, or the default in place of a blank line; a line that is
     * returned as typed is appended to the history when recording is on.
     */
    method Read(prompt: string, default: string, keys: seq<KeyInfo>) returns (r: Result<string, ReadError>, rest: seq<KeyInfo>)
      requires Valid()
      modifies keyHandler, console, history
      ensures Valid()
      ensures var loop := ReadLoop(old(keyHandler.State()), old(history.entries), keyHandler.provider, keys);
        && keyHandler.State() == loop.state && rest == loop.rest
        && (loop.outcome.Err? ==> r == loop.outcome && history.entries == old(history.entries))
        && (loop.outcome.Ok? ==>
              && r == Ok(Chosen(loop.outcome.value, default))
              && history.entries == Recorded(old(history.entries), loop.outcome.value, default, historyEnabled))
    {
      var text;
      text, rest := GetText(keys);
      if text.Err? {
        return text, rest;
      }
      if IsBlank(text.value) && !IsBlank(default) {
        r := Ok(default);
      } else {
        if historyEnabled {
          history.Add(text.value);
        }
        r := text;
      }
    }

    /**
     * ReadPassword: writes the prompt, switches password mode on and off again after
     * the key loop; GetText leaves the mode alone, so it is on for the whole loop.
     * There is no finally block: when the loop ends with an error the mode stays on.
     */
    method ReadPassword(prompt: string, keys: seq<KeyInfo>)
      returns (r: Result<string, ReadError>, rest: seq<KeyInfo>)
      requires Valid()
      modifies keyHandler, console
      ensures Valid()
      ensures var loop := ReadLoop(old(keyHandler.State()), history.entries, keyHandler.provider, keys);
        keyHandler.State() == loop.state && r == loop.outcome && rest == loop.rest
      ensures console.passwordMode == r.Err?
    {
      console.Write(prompt);
      console.passwordMode := true;
      r, rest := GetText(keys);
      if r.Err? {
        return;
      }
      console.passwordMode := false;
    }
  }
}
