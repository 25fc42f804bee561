/**
 * The deterministic console of the test suite, used here as the model of the
 * console driver: it tracks a cursor and a buffer size and writes nothing.
 */
module Terminal {

  /** A physical cursor position: column (`left`) and row (`top`). */
  datatype Position = Position(left: int, top: int)

  class TestConsole {
    var cursorLeft: int
    var cursorTop: int
    var bufferWidth: int
    var bufferHeight: int
    var passwordMode: bool

    function Cursor(): Position
      reads this
    {
      Position(cursorLeft, cursorTop)
    }

    /** A fresh console has its cursor at (0,0) and a 100 x 100 buffer. */
    constructor ()
      ensures Cursor() == Position(0, 0)
      ensures bufferWidth == 100 && bufferHeight == 100
      ensures !passwordMode
    {
      cursorLeft, cursorTop := 0, 0;
      bufferWidth, bufferHeight := 100, 100;
      passwordMode := false;
    }

    /** Changes the buffer size only. */
    method SetBufferSize(width: int, height: int)
      modifies this
      ensures bufferWidth == width && bufferHeight == height
      ensures Cursor() == old(Cursor()) && passwordMode == old(passwordMode)
    {
      bufferWidth, bufferHeight := width, height;
    }

    /** Puts the cursor exactly where asked: no clamping to the buffer. */
    method SetCursorPosition(left: int, top: int)
      modifies this
      ensures Cursor() == Position(left, top)
      ensures bufferWidth == old(bufferWidth) && bufferHeight == old(bufferHeight)
      ensures passwordMode == old(passwordMode)
    {
      cursorLeft, cursorTop := left, top;
    }

    /** Advances the column by the length written, with no wrap at the buffer width. */
    method Write(value: string)
      modifies this
      ensures Cursor() == Position(old(cursorLeft) + |value|, old(cursorTop))
      ensures bufferWidth == old(bufferWidth) && bufferHeight == old(bufferHeight)
      ensures passwordMode == old(passwordMode)
    {
      cursorLeft := cursorLeft + |value|;
    }

    /** Like Write: the line break moves neither the row nor the column. */
    method WriteLine(value: string)
      modifies this
      ensures Cursor() == Position(old(cursorLeft) + |value|, old(cursorTop))
      ensures bufferWidth == old(bufferWidth) && bufferHeight == old(bufferHeight)
      ensures passwordMode == old(passwordMode)
    {
      cursorLeft := cursorLeft + |value|;
    }
  }
}
