/** The scrolling text log: a fixed array of lines sized from the surface's
    font, filled from the top and, once full, scrolled up by one line per
    insertion. Long lines are hard-wrapped at a character count. Every
    public operation ends by redrawing the whole log. */
module ScrollingText {
  import opened DotNet
  import opened Sequences
  import opened Graphics

  /** The strings of `chunks` joined end to end. */
  function Concat(chunks: seq<string>): string
    decreases |chunks|
  {
    if chunks == [] then [] else chunks[0] + Concat(chunks[1..])
  }

  /** The lines `AddLinesToBuffer` inserts for `line`: pieces of exactly
      `limit` characters while more than `limit` remain, then the rest. With
      a zero limit only the empty line terminates. */
  function Chunks(line: string, limit: nat): seq<string>
    requires limit > 0 || line == []
    decreases |line|
  {
    if |line| > limit then [line[..limit]] + Chunks(line[limit..], limit) else [line]
  }

  /** Wrapping loses and reorders nothing: the chunks put back together are
      the line, every chunk but the last is exactly `limit` long, and the
      last is at most `limit` long (and is the whole line when it fits). */
  lemma {:induction false} ChunksSplit(line: string, limit: nat)
    requires limit > 0 || line == []
    ensures var chunks := Chunks(line, limit);
      && |chunks| >= 1
      && Concat(chunks) == line
      && (forall i :: 0 <= i < |chunks| - 1 ==> |chunks[i]| == limit)
      && |chunks[|chunks| - 1]| <= limit
      && (|line| <= limit <==> chunks == [line])
    decreases |line|
  {
    if |line| > limit {
      ChunksSplit(line[limit..], limit);
      var rest := Chunks(line[limit..], limit);
      assert Chunks(line, limit) == [line[..limit]] + rest;
      assert ([line[..limit]] + rest)[1..] == rest;
      assert line[..limit] + line[limit..] == line;
    }
  }

  /** One turn of the wrapping loop: the first chunk moves from the pending
      chunks to the inserted lines. */
  lemma ChunksStep(inserted: seq<string>, line: string, limit: nat)
    requires 0 < limit < |line|
    ensures inserted + Chunks(line, limit) == (inserted + [line[..limit]]) + Chunks(line[limit..], limit)
  {
  }

  /** The text events of a redraw: line `i` at (0, lineHeight * i), in
      `color`, top to bottom. */
  function Rows(lines: seq<string>, lineHeight: int, color: Color, font: Font, rotation: Rotation): (rows: seq<Event>)
    ensures |rows| == |lines|
    decreases |lines|
  {
    if lines == [] then []
    else
      var n := |lines| - 1;
      Rows(lines[..n], lineHeight, color, font, rotation) + [Text(0, lineHeight * n, lines[n], Some(color), font, rotation)]
  }

  /** One more line drawn extends the rows by its text event. */
  lemma RowsSnoc(lines: seq<string>, lineHeight: int, color: Color, font: Font, rotation: Rotation, i: int)
    requires 0 <= i < |lines|
    ensures Rows(lines[..i + 1], lineHeight, color, font, rotation)
      == Rows(lines[..i], lineHeight, color, font, rotation) + [Text(0, lineHeight * i, lines[i], Some(color), font, rotation)]
  {
    assert lines[..i + 1][..i] == lines[..i];
  }

  /** A whole redraw: clear, the rows, show. */
  function Redraw(lines: seq<string>, lineHeight: int, color: Color, font: Font, rotation: Rotation): seq<Event> {
    [Cleared] + Rows(lines, lineHeight, color, font, rotation) + [Shown]
  }

  /** How many lines a write inserts: one when the line fits, otherwise
      the length divided by the limit, rounded up. */
  lemma {:induction false} ChunkCount(line: string, limit: nat)
    requires limit > 0
    ensures |Chunks(line, limit)| == if |line| <= limit then 1 else (|line| + limit - 1) / limit
    decreases |line|
  {
    if |line| > limit {
      var rest := line[limit..];
      ChunkCount(rest, limit);
      assert |Chunks(line, limit)| == 1 + |Chunks(rest, limit)|;
      if |rest| <= limit {
        assert limit < |line| <= 2 * limit;
        DivBetween(|line| + limit - 1, limit, 2);
      } else {
        assert (|line| + limit - 1) / limit == (|rest| + limit - 1) / limit + 1 by {
          DivShift(|rest| + limit - 1, limit);
        }
      }
    }
  }

  /** Euclidean division is the quotient `q` the bounds pin down. */
  lemma DivBetween(a: int, b: int, q: int)
    requires b > 0 && q * b <= a < (q + 1) * b
    ensures a / b == q
  {
    var d := a / b;
    assert d * b + a % b == a && 0 <= a % b < b;
    if d > q {
      MulMonotone(b, q + 1, d);
      assert false;
    } else if d < q {
      MulMonotone(b, d + 1, q);
      assert false;
    }
  }

  lemma MulMonotone(b: int, x: int, y: int)
    requires b > 0 && x <= y
    ensures x * b <= y * b
  {
    assert y * b == x * b + (y - x) * b;
  }

  lemma DivShift(a: int, b: int)
    requires b > 0 && a >= 0
    ensures (a + b) / b == a / b + 1
  {
    var q := a / b;
    assert q * b <= a < (q + 1) * b;
    assert (q + 1) * b == q * b + b && (q + 2) * b == (q + 1) * b + b;
    DivBetween(a + b, b, q + 1);
  }

  /** A line of two limits and three characters wraps onto three lines
      whenever the limit is at least three. */
  lemma WrapTwoLimitsAndThree(line: string, limit: nat)
    requires limit >= 3 && |line| == 2 * limit + 3
    ensures |Chunks(line, limit)| == 3
    ensures |Chunks(line, limit)[2]| == 3
  {
    ChunkCount(line, limit);
    DivBetween(|line| + limit - 1, limit, 3);
    ChunksSplit(line, limit);
    var chunks := Chunks(line, limit);
    ConcatLength(chunks);
    assert chunks[1..][1..] == [chunks[2]] && [chunks[2]][1..] == [];
    assert SumLengths([chunks[2]]) == |chunks[2]|;
    assert SumLengths(chunks[1..]) == |chunks[1]| + |chunks[2]|;
  }

  /** The total length of joined strings. */
  lemma {:induction false} ConcatLength(chunks: seq<string>)
    ensures |Concat(chunks)| == SumLengths(chunks)
    decreases |chunks|
  {
    if chunks != [] {
      ConcatLength(chunks[1..]);
    }
  }

  function SumLengths(chunks: seq<string>): nat
    decreases |chunks|
  {
    if chunks == [] then 0 else |chunks[0]| + SumLengths(chunks[1..])
  }

  /** Line `i` of the log is drawn as the `i`th text event, at the left edge
      and `i` line heights down. */
  lemma {:induction false} RowsAt(lines: seq<string>, lineHeight: int, color: Color, font: Font, rotation: Rotation, i: int)
    requires 0 <= i < |lines|
    ensures Rows(lines, lineHeight, color, font, rotation)[i] == Text(0, lineHeight * i, lines[i], Some(color), font, rotation)
    decreases |lines|
  {
    var n := |lines| - 1;
    if i < n {
      RowsAt(lines[..n], lineHeight, color, font, rotation, i);
    }
  }

  /** A redraw is a clear, one text event per line top to bottom in the
      log's colour, and a show. */
  lemma RedrawShape(lines: seq<string>, lineHeight: int, color: Color, font: Font, rotation: Rotation)
    ensures var r := Redraw(lines, lineHeight, color, font, rotation);
      && |r| == |lines| + 2 && r[0] == Cleared && r[|r| - 1] == Shown
      && forall i :: 0 <= i < |lines| ==> r[i + 1] == Text(0, lineHeight * i, lines[i], Some(color), font, rotation)
  {
    forall i | 0 <= i < |lines|
      ensures Redraw(lines, lineHeight, color, font, rotation)[i + 1] == Text(0, lineHeight * i, lines[i], Some(color), font, rotation)
    {
      RowsAt(lines, lineHeight, color, font, rotation, i);
    }
  }

  /** The slots holding `lines`, top to bottom. */
  function Somes(lines: seq<string>): (slots: seq<Option<string>>)
    ensures |slots| == |lines| && forall i :: 0 <= i < |lines| ==> slots[i] == Some(lines[i])
  {
    seq(|lines|, i requires 0 <= i < |lines| => Some(lines[i]))
  }

  /** The log's invariant on the slots themselves: the cursor is within
      them, the slots before it hold the last `|slots|` lines of `history` in
      order, and the slots after it hold `blank`. */
  ghost predicate Log(slots: seq<Option<string>>, cursor: int, history: seq<string>, blank: Option<string>) {
    0 <= cursor <= |slots| && slots == Somes(LastN(history, |slots|)) + Repeat(blank, |slots| - cursor)
  }

  /** Blank slots and an empty history: the log after construction or a
      clear. */
  lemma BlankLog(n: nat, blank: Option<string>)
    ensures Log(Repeat(blank, n), 0, [], blank)
  {
    assert Somes(LastN([], n)) == [];
  }

  /** A log that is not full takes the new line at the cursor. */
  lemma PlaceStep(slots: seq<Option<string>>, cursor: int, history: seq<string>, blank: Option<string>, x: string)
    requires Log(slots, cursor, history, blank) && cursor < |slots|
    ensures Log(slots[cursor := Some(x)], cursor + 1, history + [x], blank)
  {
    var n := |slots|;
    assert |LastN(history, n)| == cursor;
    assert LastN(history + [x], n) == history + [x];
    var next, want := slots[cursor := Some(x)], Somes(history + [x]) + Repeat(blank, n - cursor - 1);
    assert |next| == |want|;
    forall i | 0 <= i < n
      ensures next[i] == want[i]
    {
      if i < cursor {
        assert slots[i] == Somes(history)[i];
      } else if cursor < i {
        assert slots[i] == Repeat(blank, n - cursor)[i - cursor];
      }
    }
  }

  /** A full log drops its top line and takes the new line last. */
  lemma ScrollStep(slots: seq<Option<string>>, history: seq<string>, blank: Option<string>, x: string)
    requires Log(slots, |slots|, history, blank) && |slots| > 0
    ensures Log(slots[1..] + [Some(x)], |slots|, history + [x], blank)
  {
    var n := |slots|;
    var kept := LastN(history, n);
    assert |kept| == n && slots == Somes(kept);
    LastNOfLastN(history, [x], n);
    assert LastN(kept + [x], n) == kept[1..] + [x];
    var next, want := slots[1..] + [Some(x)], Somes(kept[1..] + [x]) + Repeat(blank, 0);
    assert |next| == |want|;
    forall i | 0 <= i < n
      ensures next[i] == want[i]
    {
      if i < n - 1 {
        assert next[i] == slots[i + 1];
      }
    }
  }

  class ScrollingTextDisplay {
    const graphicsLibrary: GraphicsLibrary
    /** The slots, `None` standing for a `null` string. */
    const lineBuffer: array<Option<string>>
    const lineHeight: int
    const lineLimit: int
    const characterLimit: int
    /** The next free slot; `lineLimit` once the log is full. */
    var currentLine: int
    var color: Color

    /** Every line inserted since construction or the last clear, oldest
        first. */
    ghost var History: seq<string>
    /** What the unfilled slots hold: `null` until the first clear, the empty
        string after it. */
    ghost var Blank: Option<string>

    /** The log's invariant: the cursor is within the array, the slots before
        it hold the last `lineLimit` inserted lines in order, and the slots
        after it are blank. */
    ghost predicate Valid()
      reads this, lineBuffer
    {
      && lineHeight > 0 && characterLimit >= 0
      && lineBuffer.Length == lineLimit
      && Log(lineBuffer[..], currentLine, History, Blank)
    }

    /** The lines the log shows, top to bottom: the occupied slots. */
    ghost function Lines(): (lines: seq<string>)
      reads this, lineBuffer
      requires Valid()
      ensures |lines| == currentLine
      ensures forall i :: 0 <= i < currentLine ==> lineBuffer[i] == Some(lines[i])
    {
      assert forall i :: 0 <= i < currentLine ==> lineBuffer[i] == lineBuffer[..][i];
      LastN(History, lineLimit)
    }

    /** Sizes the log from the surface's current font: one slot per font
        height of `height`, one character per font width of `width`. */
    constructor (graphicsLibrary: GraphicsLibrary, height: int, width: int)
      requires graphicsLibrary.CurrentFont.height > 0 && graphicsLibrary.CurrentFont.width > 0
      requires height >= 0 && width >= 0
      ensures Valid() && fresh(lineBuffer)
      ensures this.graphicsLibrary == graphicsLibrary
      ensures lineHeight == graphicsLibrary.CurrentFont.height
      ensures lineLimit == height / lineHeight && lineBuffer.Length == lineLimit
      ensures characterLimit == width / graphicsLibrary.CurrentFont.width
      ensures forall i :: 0 <= i < lineBuffer.Length ==> lineBuffer[i] == None
      ensures currentLine == 0 && color == White && History == [] && Blank == None
    {
      this.graphicsLibrary := graphicsLibrary;
      lineHeight := graphicsLibrary.CurrentFont.height;
      lineLimit := height / graphicsLibrary.CurrentFont.height;
      characterLimit := width / graphicsLibrary.CurrentFont.width;
      lineBuffer := new Option<string>[height / graphicsLibrary.CurrentFont.height](_ => None);
      currentLine := 0;
      color := White;
      History, Blank := [], None;
      new;
      assert lineBuffer[..] == Repeat(None, lineLimit);
      BlankLog(lineLimit, None);
    }

    /** The `Color` setter: takes the new colour and redraws in it. */
    method SetColor(value: Color)
      requires Valid()
      modifies this`color, graphicsLibrary`Trace
      ensures Valid() && color == value
      ensures graphicsLibrary.Trace == old(graphicsLibrary.Trace)
                + Redraw(Lines(), lineHeight, value, graphicsLibrary.CurrentFont, graphicsLibrary.CurrentRotation)
    {
      color := value;
      DrawBuffer();
    }

    /** Inserts `line`, wrapped at the character limit, and redraws; a log
        without slots throws on the first insertion and draws nothing. */
    method WriteLine(line: string) returns (status: Status)
      requires Valid()
      requires characterLimit > 0 || line == [] || lineLimit == 0
      modifies this`currentLine, this`History, lineBuffer, graphicsLibrary`Trace
      ensures Valid()
      ensures status == Ok <==> lineLimit > 0
      ensures status == Ok ==> History == old(History) + Chunks(line, characterLimit)
      ensures status == Ok ==>
                graphicsLibrary.Trace == old(graphicsLibrary.Trace)
                  + Redraw(Lines(), lineHeight, color, graphicsLibrary.CurrentFont, graphicsLibrary.CurrentRotation)
      ensures status != Ok ==>
                currentLine == old(currentLine) && History == old(History)
                && graphicsLibrary.Trace == old(graphicsLibrary.Trace)
    {
      status := AddLinesToBuffer(line);
      if status.Threw? {
        return;
      }
      DrawBuffer();
    }

    /** Inserts the chunks of `line` one after another. */
    method AddLinesToBuffer(line: string) returns (status: Status)
      requires Valid()
      requires characterLimit > 0 || line == [] || lineLimit == 0
      modifies this`currentLine, this`History, lineBuffer
      ensures Valid()
      ensures status == Ok <==> lineLimit > 0
      ensures status == Ok ==> History == old(History) + Chunks(line, characterLimit)
      ensures status != Ok ==> currentLine == old(currentLine) && History == old(History)
    {
      var rest := line;
      while |rest| > characterLimit
        invariant Valid()
        invariant lineLimit > 0 ==> characterLimit > 0 || rest == []
        invariant lineLimit > 0 ==>
                    old(History) + Chunks(line, characterLimit) == History + Chunks(rest, characterLimit)
        invariant lineLimit == 0 ==> rest == line && History == old(History)
        decreases |rest|
      {
        var substr := rest[..characterLimit];
        ghost var before, whole := History, rest;
        status := AddToBuffer(substr);
        if status.Threw? {
          return;
        }
        rest := rest[characterLimit..];
        ChunksStep(before, whole, characterLimit);
      }
      status := AddToBuffer(rest);
    }

    /** Clears the log and redraws it (a blank frame). */
    method Clear()
      requires Valid()
      modifies this`currentLine, this`History, this`Blank, lineBuffer, graphicsLibrary`Trace
      ensures Valid() && currentLine == 0 && History == []
      ensures forall i :: 0 <= i < lineBuffer.Length ==> lineBuffer[i] == Some("")
      ensures graphicsLibrary.Trace == old(graphicsLibrary.Trace)
                + Redraw([], lineHeight, color, graphicsLibrary.CurrentFont, graphicsLibrary.CurrentRotation)
    {
      ClearBuffer();
      DrawBuffer();
    }

    /** Sets every slot to the empty string and the cursor to 0. */
    method ClearBuffer()
      requires Valid()
      modifies this`currentLine, this`History, this`Blank, lineBuffer
      ensures Valid() && currentLine == 0 && History == [] && Blank == Some("")
      ensures forall i :: 0 <= i < lineBuffer.Length ==> lineBuffer[i] == Some("")
    {
      for i := 0 to lineBuffer.Length
        invariant forall k :: 0 <= k < i ==> lineBuffer[k] == Some("")
      {
        lineBuffer[i] := Some("");
      }
      currentLine := 0;
      History, Blank := [], Some("");
      assert lineBuffer[..] == Repeat(Some(""), lineLimit);
      BlankLog(lineLimit, Some(""));
    }

    /** Writes `newLine` at the cursor and advances it; once the log is full,
        moves every line up one slot, dropping the top one, and writes
        `newLine` in the last slot. An empty log throws. */
    method AddToBuffer(newLine: string) returns (status: Status)
      requires Valid()
      modifies this`currentLine, this`History, lineBuffer
      ensures Valid()
      ensures status == Ok <==> lineLimit > 0
      ensures status == Ok ==> History == old(History) + [newLine]
      ensures old(currentLine) < lineLimit ==>
                currentLine == old(currentLine) + 1
                && lineBuffer[..] == old(lineBuffer[..])[old(currentLine) := Some(newLine)]
      ensures 0 < lineLimit == old(currentLine) ==>
                currentLine == lineLimit
                && lineBuffer[..] == old(lineBuffer[..])[1..] + [Some(newLine)]
      ensures status != Ok ==> unchanged(this) && unchanged(lineBuffer)
    {
      status := Ok;
      if currentLine < lineLimit {
        Place(newLine);
      } else if lineBuffer.Length == 0 {
        status := Threw(IndexOutOfRange);
      } else {
        ScrollUp(newLine);
      }
    }

    /** The not-yet-full case of `AddToBuffer`. */
    method Place(newLine: string)
      requires Valid() && currentLine < lineLimit
      modifies this`currentLine, this`History, lineBuffer
      ensures Valid()
      ensures History == old(History) + [newLine]
      ensures currentLine == old(currentLine) + 1
      ensures lineBuffer[..] == old(lineBuffer[..])[old(currentLine) := Some(newLine)]
    {
      ghost var slots := lineBuffer[..];
      PlaceStep(slots, currentLine, History, Blank, newLine);
      lineBuffer[currentLine] := Some(newLine);
      assert lineBuffer[..] == slots[currentLine := Some(newLine)];
      currentLine := currentLine + 1;
      History := History + [newLine];
    }

    /** The full case of `AddToBuffer`: the shift loop, then the last slot. */
    method ScrollUp(newLine: string)
      requires Valid() && 0 < currentLine == lineLimit
      modifies this`History, lineBuffer
      ensures Valid() && currentLine == lineLimit
      ensures History == old(History) + [newLine]
      ensures lineBuffer[..] == old(lineBuffer[..])[1..] + [Some(newLine)]
    {
      ScrollStep(lineBuffer[..], History, Blank, newLine);
      ShiftIn(newLine);
      History := History + [newLine];
    }

    /** The body of `ScrollUp`: every slot takes its successor's contents and
        the last slot takes `newLine`. */
    method ShiftIn(newLine: string)
      requires lineBuffer.Length > 0
      modifies lineBuffer
      ensures lineBuffer[..] == old(lineBuffer[..])[1..] + [Some(newLine)]
    {
      for i := 0 to lineBuffer.Length - 1
        invariant forall k :: 0 <= k < i ==> lineBuffer[k] == old(lineBuffer[k + 1])
        invariant forall k :: i <= k < lineBuffer.Length ==> lineBuffer[k] == old(lineBuffer[k])
      {
        lineBuffer[i] := lineBuffer[i + 1];
      }
      lineBuffer[lineBuffer.Length - 1] := Some(newLine);
      assert lineBuffer[..] == old(lineBuffer[..])[1..] + [Some(newLine)];
    }

    /** Clears the surface, draws the occupied lines top to bottom and shows
        the result. */
    method DrawBuffer()
      requires Valid()
      modifies graphicsLibrary`Trace
      ensures graphicsLibrary.Trace == old(graphicsLibrary.Trace)
                + Redraw(Lines(), lineHeight, color, graphicsLibrary.CurrentFont, graphicsLibrary.CurrentRotation)
    {
      DrawLines(Lines());
    }

    /** The body of `DrawBuffer`, given the lines the occupied slots hold. */
    method DrawLines(ghost lines: seq<string>)
      requires 0 <= currentLine == |lines| <= lineBuffer.Length
      requires forall i :: 0 <= i < currentLine ==> lineBuffer[i] == Some(lines[i])
      modifies graphicsLibrary`Trace
      ensures graphicsLibrary.Trace == old(graphicsLibrary.Trace)
                + Redraw(lines, lineHeight, color, graphicsLibrary.CurrentFont, graphicsLibrary.CurrentRotation)
    {
      ghost var font, rotation := graphicsLibrary.CurrentFont, graphicsLibrary.CurrentRotation;
      graphicsLibrary.Clear();
      for i := 0 to currentLine
        invariant graphicsLibrary.Trace == old(graphicsLibrary.Trace) + [Cleared] + Rows(lines[..i], lineHeight, color, font, rotation)
      {
        graphicsLibrary.DrawText(0, lineHeight * i, lineBuffer[i].value, Some(color));
        RowsSnoc(lines, lineHeight, color, font, rotation, i);
      }
      assert lines[..currentLine] == lines;
      graphicsLibrary.Show();
    }
  }
}
