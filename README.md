# Scrolling graph and scrolling text displays, modelled in Dafny

Two small rendering engines of the Meadow examples, both of which draw on a
`GraphicsLibrary` surface.

- **ScrollingGraphDisplay** keeps a FIFO queue of `int` samples.
  - `AddData` enqueues a sample and, once a plotting pane exists, dequeues
    from the front until the queue fits the pane's width.
  - `Draw` renders one frame: it clears the surface, lays out up to three
    `DisplayLabel`s (title, x-axis and y-axis captions), draws a border, and
    plots one segment per pair of consecutive samples. The samples are
    normalised by their range over the pane's height, and a flat signal is
    centred. Then it shows the frame.
- **ScrollingTextDisplay** is a log of lines in a fixed array sized from
  the surface's font.
  - Long lines are hard-wrapped at a character count.
  - Lines fill the array from the top. Once it is full, every line moves up
    one slot per insertion.
  - Every public operation ends by redrawing the whole log.

The surface (`Graphics.GraphicsLibrary`) is a class with the two fields the
engines read and write, `CurrentFont` and `CurrentRotation`. It also has a
ghost `Trace` that records every call made on it, in order. The engines are
classes whose methods change their fields, the queue (a `seq`), the line
array (an `array`) and the surface's trace. Each method is proved against a
specification function:

| method | specification function |
|---|---|
| `DrawLabels` | `LayoutPane` and `DecorationEvents` |
| `DrawData` | `DataPlot` |
| `GetMinMax` | `MinOf` and `MaxOf` |
| `DrawBuffer` | `Redraw` |
| `AddLinesToBuffer` | `Chunks` |

The text log's class invariant `Valid()` says three things:
- the occupied slots hold exactly the last `lineLimit` lines inserted since
  construction or the last clear, in order (`LastN(History, lineLimit)`);
- the slots after the cursor are blank;
- the cursor is within the array.

Lemmas then relate these functions to what the code promises. Among them:
- the queue keeps the last `w` samples pushed;
- wrapping loses nothing;
- the data line is a connected run of unit-wide segments;
- a flat signal is drawn at the pane's vertical centre;
- a non-flat signal stays within the pane, from its top edge to its bottom
  edge, and its minimum lies on the
  bottom edge;
- the border is closed.

Exceptions the code can raise appear in the model as `Status = Ok |
Threw(e)`:
- `Queue.Dequeue` on an empty queue, when the pane's width is negative;
- the `_lineBuffer[-1]` store of a log without slots.

The C# `(int)` cast truncates toward zero (`DotNet.Truncate`). The C# `/ 2`
on `int` truncates too (`DotNet.Half`). The model follows the code here:
nothing is rounded. The y-axis branch of `DrawLabels` subtracts the title's
band from the width, `graphWidth -= graphY`, rather than its own. It is
modelled as written, and `GraphProperties.YAxisOverrun` states what that
does to the border.

## Model

| member | source | states |
|---|---|---|
| DotNet.Min | MeadowExamples/ScrollingGraphDisplay/ScrollingGraphDisplay.cs:148 | `Math.Min`: a lower bound of both arguments that is one of them |
| DotNet.Max | MeadowExamples/ScrollingGraphDisplay/ScrollingGraphDisplay.cs:149 | `Math.Max`: an upper bound of both arguments that is one of them |
| DotNet.Half | MeadowExamples/ScrollingGraphDisplay/ScrollingGraphDisplay.cs:98-99 | C# `h / 2`: the remainder is 0 or 1 for non-negative `h` and 0 or -1 for negative `h` (truncation toward zero) |
| DotNet.Truncate | MeadowExamples/ScrollingGraphDisplay/ScrollingGraphDisplay.cs:117-122 | the `(int)` cast: the largest whole number not above a non-negative value, the smallest not below a negative one |
| Sequences.LastN | MeadowExamples/ScrollingGraphDisplay/ScrollingGraphDisplay.cs:46-49 | what the dequeue-while-too-long loop keeps: a suffix of the queue of length `min(|s|, n)` |
| Sequences.SuffixIsLastN | MeadowExamples/ScrollingGraphDisplay/ScrollingGraphDisplay.cs:84-89 | any suffix no longer than `n`, and as long as `n` allows, is the last `n` elements |
| Sequences.LastNOfLastN | MeadowExamples/ScrollingTextDisplay/ScrollingTextDisplay.cs:71-78 | trimming to `n` before appending more and trimming again equals trimming once at the end |
| Sequences.PushAllIsLastN | MeadowExamples/ScrollingGraphDisplay/ScrollingGraphDisplay.cs:41-51 | after a run of pushes, each followed by trimming to `n`, the queue is the last `n` of everything pushed, in order, and at most `n` long |
| Sequences.PushAll | MeadowExamples/ScrollingGraphDisplay/ScrollingGraphDisplay.cs:41-51 | definition: the queue after pushing each value in turn, trimming to `n` after every push |
| Graphics.GraphicsLibrary.Clear | MeadowExamples/ScrollingGraphDisplay/ScrollingGraphDisplay.cs:55 | the surface's trace gains one clear event |
| Graphics.GraphicsLibrary.DrawLine | MeadowExamples/ScrollingGraphDisplay/ScrollingGraphDisplay.cs:196-199 | the trace gains one line event with exactly these endpoints and colour |
| Graphics.GraphicsLibrary.DrawText | MeadowExamples/ScrollingGraphDisplay/ScrollingGraphDisplay.cs:223-230 | the trace gains one text event, recording the font and rotation in force |
| Graphics.GraphicsLibrary.Show | MeadowExamples/ScrollingGraphDisplay/ScrollingGraphDisplay.cs:70 | the trace gains one show event |
| ScrollingGraph.NextRotation | MeadowExamples/ScrollingGraphDisplay/ScrollingGraphDisplay.cs:203-207 | the next orientation modulo 4 (3 wraps to 0) |
| ScrollingGraph.PreviousRotation | MeadowExamples/ScrollingGraphDisplay/ScrollingGraphDisplay.cs:209-213 | the previous orientation modulo 4 (0 wraps to 3) |
| ScrollingGraph.GetStartX | MeadowExamples/ScrollingGraphDisplay/ScrollingGraphDisplay.cs:237-255 | text as wide as the space or wider, and left-aligned text, starts at 0; right-aligned text ends at the right edge; centred text leaves equal margins, the left one up to a pixel smaller; text that fits stays inside the space |
| ScrollingGraph.Normalise | MeadowExamples/ScrollingGraphDisplay/ScrollingGraphDisplay.cs:92-104 | definition: a zero range keeps the factor 1 and lowers the minimum by half the pane height (C#'s truncating `/ 2`); a non-zero range over a zero height gives the infinite factor `Unbounded`; otherwise the factor is the range over the height |
| ScrollingGraph.Scaled | MeadowExamples/ScrollingGraphDisplay/ScrollingGraphDisplay.cs:117-122 | definition: the `(int)(d / normalize)` cast, truncating toward zero; every value scales to 0 under `Unbounded` |
| ScrollingGraph.Region | MeadowExamples/ScrollingGraphDisplay/ScrollingGraphDisplay.cs:155-190 | definition: the title's band comes off the top, the x-axis band off the bottom, the y-axis band sets the left edge, and a shown y-axis label narrows the width by the title's band (as written, not by its own) |
| ScrollingGraph.LayoutPane | MeadowExamples/ScrollingGraphDisplay/ScrollingGraphDisplay.cs:190 | definition: the plotting pane is the free region moved in by 2 pixels on every side |
| ScrollingGraph.DecorationEvents | MeadowExamples/ScrollingGraphDisplay/ScrollingGraphDisplay.cs:153-190 | definition: the label events of the shown labels, then the four border lines one pixel inside the free region |
| ScrollingGraph.IsShown | MeadowExamples/ScrollingGraphDisplay/ScrollingGraphDisplay.cs:161-179 | definition: a label takes part when it is not null and `string.IsNullOrWhiteSpace` is false for its text |
| DotNet.IsNullOrWhiteSpace | MeadowExamples/ScrollingGraphDisplay/ScrollingGraphDisplay.cs:161-179 | definition: true exactly when every character is white space, so for the empty string too |
| DotNet.IsWhiteSpace | MeadowExamples/ScrollingGraphDisplay/ScrollingGraphDisplay.cs:161-179 | definition: the characters `char.IsWhiteSpace` accepts: U+0009..U+000D, U+0020, U+0085, U+00A0, U+1680, U+2000..U+200A, U+2028, U+2029, U+202F, U+205F, U+3000 |
| ScrollingGraph.Inset | MeadowExamples/ScrollingGraphDisplay/ScrollingGraphDisplay.cs:191 | the pane is the free region moved in by `d` pixels on each of its four edges |
| ScrollingGraph.DecorationTrace | MeadowExamples/ScrollingGraphDisplay/ScrollingGraphDisplay.cs:153-192 | the title events, then the x-axis events, then the y-axis events, then the border drawn one pixel inside the free region, make up one frame's decoration |
| ScrollingGraph.MinOf | MeadowExamples/ScrollingGraphDisplay/ScrollingGraphDisplay.cs:141-151 | `int.MaxValue` for no samples; otherwise a sample that is at most every sample |
| ScrollingGraph.MaxOf | MeadowExamples/ScrollingGraphDisplay/ScrollingGraphDisplay.cs:141-151 | `int.MinValue` for no samples; otherwise a sample that is at least every sample |
| ScrollingGraph.Polyline | MeadowExamples/ScrollingGraphDisplay/ScrollingGraphDisplay.cs:110-126 | one segment per pair of consecutive values, and none for fewer than two values |
| ScrollingGraph.DataPlot | MeadowExamples/ScrollingGraphDisplay/ScrollingGraphDisplay.cs:90-105 | definition: the polyline of the samples scaled by `Normalise` of their minimum and maximum over the pane's height, with the scaled minimum on the bottom edge |
| ScrollingGraph.ScrollingGraphDisplay.constructor | MeadowExamples/ScrollingGraphDisplay/ScrollingGraphDisplay.cs:24-39 | no pane, an empty queue, no labels, a yellow line and a white border |
| ScrollingGraph.ScrollingGraphDisplay.AddData | MeadowExamples/ScrollingGraphDisplay/ScrollingGraphDisplay.cs:41-51 | before the first frame the sample is only appended; afterwards the queue is the last `width` samples; a negative width empties the queue and throws `InvalidOperationException` |
| ScrollingGraph.ScrollingGraphDisplay.TrimTo | MeadowExamples/ScrollingGraphDisplay/ScrollingGraphDisplay.cs:84-89 | the dequeue loop leaves the last `w` samples, or throws on the empty queue when `w` is negative |
| ScrollingGraph.ScrollingGraphDisplay.Draw | MeadowExamples/ScrollingGraphDisplay/ScrollingGraphDisplay.cs:53-71 | the pane is the layout of the current labels; the trace gains a clear, the decoration, the data line of the trimmed queue and a show; with fewer than two samples there is no data line, and when the dequeue throws there is no show; the font and rotation are left as found |
| ScrollingGraph.ScrollingGraphDisplay.DrawData | MeadowExamples/ScrollingGraphDisplay/ScrollingGraphDisplay.cs:81-107 | fewer than two samples draw nothing; otherwise the queue is trimmed to the pane width (a negative width throws) and `DataPlot` of what remains is drawn |
| ScrollingGraph.ScrollingGraphDisplay.DrawDataLine | MeadowExamples/ScrollingGraphDisplay/ScrollingGraphDisplay.cs:110-126 | with a pane, the trace gains exactly the polyline of the scaled samples, with the scaled minimum on the bottom edge; with fewer than two samples nothing is drawn, with or without a pane |
| ScrollingGraph.ScrollingGraphDisplay.DrawLine | MeadowExamples/ScrollingGraphDisplay/ScrollingGraphDisplay.cs:128-138 | one line in the line colour, at pane-relative x, with y flipped so larger values plot higher |
| ScrollingGraph.ScrollingGraphDisplay.GetMinMax | MeadowExamples/ScrollingGraphDisplay/ScrollingGraphDisplay.cs:141-151 | the minimum and maximum sample, each one of the samples, bounding every sample; the two seeds for no samples |
| ScrollingGraph.ScrollingGraphDisplay.DrawLabels | MeadowExamples/ScrollingGraphDisplay/ScrollingGraphDisplay.cs:153-192 | returns `LayoutPane` of the labels; the trace gains `DecorationEvents`; the font and rotation are left as found |
| ScrollingGraph.ScrollingGraphDisplay.DrawTitle | MeadowExamples/ScrollingGraphDisplay/ScrollingGraphDisplay.cs:161-170 | the title is drawn at the top, aligned in the width; its font height is the band it takes |
| ScrollingGraph.ScrollingGraphDisplay.DrawXAxisLabel | MeadowExamples/ScrollingGraphDisplay/ScrollingGraphDisplay.cs:171-178 | the x-axis label is drawn flush with the bottom; its font height is the band it takes |
| ScrollingGraph.ScrollingGraphDisplay.DrawYAxisLabel | MeadowExamples/ScrollingGraphDisplay/ScrollingGraphDisplay.cs:179-189 | the y-axis label is drawn turned back one orientation; the rotation is restored afterwards; its font height is the band it takes from the left |
| ScrollingGraph.ScrollingGraphDisplay.DrawBorder | MeadowExamples/ScrollingGraphDisplay/ScrollingGraphDisplay.cs:194-200 | four lines in the border colour: left, bottom, right, top |
| ScrollingGraph.ScrollingGraphDisplay.DrawLabel | MeadowExamples/ScrollingGraphDisplay/ScrollingGraphDisplay.cs:215-235 | one text event in the label's font if it has one, in the current font otherwise; the surface's font is put back |
| GraphProperties.RotationRoundTrip | MeadowExamples/ScrollingGraphDisplay/ScrollingGraphDisplay.cs:186-188 | turning back and then forward, in either order, restores the orientation |
| GraphProperties.PolylineAt | MeadowExamples/ScrollingGraphDisplay/ScrollingGraphDisplay.cs:113-125 | segment `i` joins value `i` at x offset `i` to value `i + 1` at offset `i + 1` |
| GraphProperties.PolylineConnected | MeadowExamples/ScrollingGraphDisplay/ScrollingGraphDisplay.cs:110-138 | the data line is a connected run of unit-wide segments from the pane's left edge, each starting where the previous one ends |
| GraphProperties.TruncateWhole | MeadowExamples/ScrollingGraphDisplay/ScrollingGraphDisplay.cs:117 | the cast gives back a whole number held in a double |
| GraphProperties.TruncateMonotone | MeadowExamples/ScrollingGraphDisplay/ScrollingGraphDisplay.cs:117-122 | the cast never reverses an order |
| GraphProperties.FlatSignal | MeadowExamples/ScrollingGraphDisplay/ScrollingGraphDisplay.cs:95-100 | constant samples keep the factor 1, lower the minimum by half the pane height, and draw horizontal segments at the pane's vertical centre |
| GraphProperties.UnitScale | MeadowExamples/ScrollingGraphDisplay/ScrollingGraphDisplay.cs:94 | dividing by the factor 1 and casting back gives the value itself |
| GraphProperties.UnitYs | MeadowExamples/ScrollingGraphDisplay/ScrollingGraphDisplay.cs:113-125 | with the factor 1 every sample plots at its own value |
| GraphProperties.MinimumOnBottomEdge | MeadowExamples/ScrollingGraphDisplay/ScrollingGraphDisplay.cs:101-104 | outside the flat case, the minimum sample plots on the pane's bottom edge |
| GraphProperties.WithinPane | MeadowExamples/ScrollingGraphDisplay/ScrollingGraphDisplay.cs:101-104 | outside the flat case, with a positive height, every sample plots between the pane's top edge and its bottom edge |
| GraphProperties.NormaliseFlat | MeadowExamples/ScrollingGraphDisplay/ScrollingGraphDisplay.cs:95-100 | a zero range keeps the factor 1 and lowers the minimum by half the height |
| GraphProperties.NormaliseRange | MeadowExamples/ScrollingGraphDisplay/ScrollingGraphDisplay.cs:101-104 | a non-zero range over a non-zero height gives the factor `range / height` and keeps the minimum |
| GraphProperties.PlotBounds | MeadowExamples/ScrollingGraphDisplay/ScrollingGraphDisplay.cs:117-137 | a sample between the minimum and the maximum plots between the pane's top edge and its bottom edge |
| GraphProperties.TruncateGap | MeadowExamples/ScrollingGraphDisplay/ScrollingGraphDisplay.cs:117-122 | casting both ends of a span of whole length `h >= 0` gives ends at most `h` apart |
| GraphProperties.QuotientSpan | MeadowExamples/ScrollingGraphDisplay/ScrollingGraphDisplay.cs:103 | the factor is positive, and the scaled range is the pane height again |
| GraphProperties.LayoutWithoutLabels | MeadowExamples/ScrollingGraphDisplay/ScrollingGraphDisplay.cs:155-191 | with no label shown, the pane is the surface inset by 2 pixels |
| GraphProperties.LayoutBands | MeadowExamples/ScrollingGraphDisplay/ScrollingGraphDisplay.cs:161-191 | the title's font height comes off the top, the x-axis label's off the bottom and the y-axis label's off the left; the x-axis label is flush with the bottom |
| GraphProperties.YAxisOverrun | MeadowExamples/ScrollingGraphDisplay/ScrollingGraphDisplay.cs:184-190 | as written, with no title the right edge of the border lies past the last column of the surface whenever the y-axis font has height |
| GraphProperties.PaneInsideBorder | MeadowExamples/ScrollingGraphDisplay/ScrollingGraphDisplay.cs:190-191 | the pane lies one pixel inside the border on every side |
| GraphProperties.BorderClosed | MeadowExamples/ScrollingGraphDisplay/ScrollingGraphDisplay.cs:194-200 | the border is a closed loop of four lines through the rectangle's four corners |
| GraphProperties.FlatRunThenTop | MeadowExamples/ScrollingGraphDisplay/ScrollingGraphDisplay.cs:46-49 | `k` copies of `v` and then `top`, trimmed to a width `0 < w <= k`, leave `w - 1` copies of `v` and then `top` (from the empty queue, what `Sequences.PushAllIsLastN` says such a run of `AddData` calls leaves) |
| GraphProperties.StepResponse | MeadowExamples/ScrollingGraphDisplay/ScrollingGraphDisplay.cs:91-138 | a flat run followed by one sample a pane height above it: the factor is 1, the run lies on the bottom edge and the last segment rises to the top edge |
| ScrollingText.ChunksSplit | MeadowExamples/ScrollingTextDisplay/ScrollingTextDisplay.cs:39-48 | wrapping loses and reorders nothing: the chunks joined are the line, every chunk but the last is exactly the limit long, the last is at most the limit, and a line that fits is one chunk |
| ScrollingText.Chunks | MeadowExamples/ScrollingTextDisplay/ScrollingTextDisplay.cs:39-48 | definition: pieces of exactly `limit` characters while more than `limit` remain, then the rest as the last piece |
| ScrollingText.ChunkCount | MeadowExamples/ScrollingTextDisplay/ScrollingTextDisplay.cs:39-48 | a write inserts one line when it fits, otherwise its length divided by the limit, rounded up |
| ScrollingText.WrapTwoLimitsAndThree | MeadowExamples/ScrollingTextDisplay/ScrollingTextDisplay.cs:39-48 | for a limit of at least 3, a line of two limits plus three characters wraps onto three lines, the last of three characters |
| ScrollingText.Rows | MeadowExamples/ScrollingTextDisplay/ScrollingTextDisplay.cs:84-87 | one text event per line |
| ScrollingText.Redraw | MeadowExamples/ScrollingTextDisplay/ScrollingTextDisplay.cs:81-89 | definition: a clear, the rows of the lines top to bottom, and a show |
| ScrollingText.RowsAt | MeadowExamples/ScrollingTextDisplay/ScrollingTextDisplay.cs:84-87 | line `i` is drawn at the left edge, `i` line heights down, in the log's colour |
| ScrollingText.RedrawShape | MeadowExamples/ScrollingTextDisplay/ScrollingTextDisplay.cs:81-89 | a redraw is a clear, one text event per line from top to bottom, and a show |
| ScrollingText.Log | MeadowExamples/ScrollingTextDisplay/ScrollingTextDisplay.cs:56-79 | definition: the cursor is within the slots, the slots before it hold the last `|slots|` lines of the history in order, and the slots after it hold the blank value |
| ScrollingText.ScrollingTextDisplay.constructor | MeadowExamples/ScrollingTextDisplay/ScrollingTextDisplay.cs:15-22 | one slot per font height of the height, one character per font width of the width, every slot null, the cursor at 0, white |
| ScrollingText.ScrollingTextDisplay.SetColor | MeadowExamples/ScrollingTextDisplay/ScrollingTextDisplay.cs:24-31 | the colour is set and the log is redrawn in it |
| ScrollingText.ScrollingTextDisplay.WriteLine | MeadowExamples/ScrollingTextDisplay/ScrollingTextDisplay.cs:33-37 | the wrapped chunks of the line are inserted in order and the log is redrawn; a log without slots throws and draws nothing; the invariant is kept |
| ScrollingText.ScrollingTextDisplay.AddLinesToBuffer | MeadowExamples/ScrollingTextDisplay/ScrollingTextDisplay.cs:39-48 | the history grows by exactly `Chunks(line, characterLimit)`, so the slots hold the last `lineLimit` lines; it throws exactly when the log has no slots |
| ScrollingText.ScrollingTextDisplay.Clear | MeadowExamples/ScrollingTextDisplay/ScrollingTextDisplay.cs:50-54 | every slot is empty, the cursor and history are reset, and a blank frame is drawn |
| ScrollingText.ScrollingTextDisplay.ClearBuffer | MeadowExamples/ScrollingTextDisplay/ScrollingTextDisplay.cs:56-63 | every slot holds the empty string and the cursor is 0 |
| ScrollingText.ScrollingTextDisplay.AddToBuffer | MeadowExamples/ScrollingTextDisplay/ScrollingTextDisplay.cs:65-79 | a log that is not full gains the line at the cursor; a full log moves every line up one slot and puts the line last; a log without slots throws and changes nothing; the slots stay the last `lineLimit` lines |
| ScrollingText.ScrollingTextDisplay.Place | MeadowExamples/ScrollingTextDisplay/ScrollingTextDisplay.cs:67-70 | the slot at the cursor gets the line and the cursor advances; no other slot changes |
| ScrollingText.ScrollingTextDisplay.ScrollUp | MeadowExamples/ScrollingTextDisplay/ScrollingTextDisplay.cs:71-78 | the array becomes its old slots 1 onwards followed by the new line |
| ScrollingText.ScrollingTextDisplay.DrawBuffer | MeadowExamples/ScrollingTextDisplay/ScrollingTextDisplay.cs:81-89 | the trace gains `Redraw` of the occupied slots: clear, the lines top to bottom, show |
| ScrollingText.ScrollingTextDisplay.DrawLines | MeadowExamples/ScrollingTextDisplay/ScrollingTextDisplay.cs:81-89 | for lines held in the occupied slots, the trace gains `Redraw` of those lines |
| ScrollingText.ScrollingTextDisplay.ShiftIn | MeadowExamples/ScrollingTextDisplay/ScrollingTextDisplay.cs:71-78 | the array becomes its old slots 1 onwards followed by the new line |

## Left out

- The two `MeadowApp` demo programs, the hardware they drive, their timers and the data they generate are not part of this model.
- The surface's rasterisation, the fonts' glyphs and the colour values are not modelled. Drawing is a trace of calls.
- `ClearGraphPane` is never called; the code that would call it is commented out. It is not modelled.
- The `max = max + _graphPane.Height / 2` of the flat case is not modelled, because `max` is not read afterwards.
- Doubles are idealised as reals. A zero pane height with a non-zero range gives an infinite factor, modelled as `Unbounded`, under which every value scales to 0. Rounding inside `range / height` and `d / normalize` is not modelled.
- `max - min` is computed on unbounded integers. The C# subtraction wraps when the samples span more than `int.MaxValue`; that case is not modelled.
- The out-of-range `(int)` cast of a double is not modelled.
- ScrollingGraph.ScrollingGraphDisplay.DrawDataLine: requires a pane when there are two or more samples. Called before the first `Draw`, the public method raises `NullReferenceException` once it draws a segment, that is with two or more samples; that case is not modelled. With fewer samples it reads no pane and draws nothing, which the model states.
- ScrollingGraph.ScrollingGraphDisplay.DrawLine: requires a pane. Without one the C# method raises `NullReferenceException`; that case is not modelled.
- ScrollingGraph.ScrollingGraphDisplay.DrawData: requires a pane. Its only caller, `Draw`, sets the pane first.
- A `null` label text is represented by the empty string. Both are skipped by `string.IsNullOrWhiteSpace`, and the text is not used otherwise.
- ScrollingText.ScrollingTextDisplay.WriteLine: requires a positive character limit when the line is non-empty and the log has slots. With a zero limit the wrapping loop never ends, because `Substring(0, 0)` removes nothing.
- ScrollingText.ScrollingTextDisplay.AddLinesToBuffer: requires a positive character limit when the line is non-empty and the log has slots, for the same reason.
- ScrollingText.ScrollingTextDisplay.constructor: requires a font with positive width and height; otherwise the code divides by zero. It also requires a non-negative height and width.
  - A negative height gives a negative array size or, through C#'s truncating division, an empty array.
  - A width of `-fontWidth` or less gives a negative character limit, on which `Substring` throws. A negative width above `-fontWidth` truncates to a limit of 0, with which the wrapping loop never ends on a non-empty line.
  - Those error paths are not modelled.
- A `null` argument to `WriteLine` is not modelled, because Dafny strings are never null.
- `DrawLabels` is modelled as one method plus three helper methods, one per label block. `AddToBuffer` is modelled with two helpers, `Place` and `ScrollUp`, and the shifting loop of `ScrollUp` is its own method, `ShiftIn`. The drawing loop of `DrawBuffer` is its own method, `DrawLines`. The dequeue loop that `AddData` and `DrawData` share is one method, `TrimTo`. The behaviour is the same as the inline code.
- The y-axis quirk `graphWidth -= graphY` is modelled as written. `GraphProperties.YAxisOverrun` states its effect.
- ScrollingText.Chunks, ScrollingText.ScrollingTextDisplay.AddLinesToBuffer and ScrollingGraph.GetStartX: a Dafny `string` counts Unicode scalar values, while C#'s `Length` and `Substring` count UTF-16 code units. For any character outside the Basic Multilingual Plane the two differ. For example, with a limit of 3, "😀😀" has C# length 4 and is wrapped into two chunks, splitting a surrogate pair; the model keeps it as one chunk of length 2. GetStartX measures such text one unit per character too.
- ScrollingGraph.ScrollingGraphDisplay.DrawLabel: a `null` `CurrentFont` is not modelled; the surface always has a font. The code restores the font only `if (oldFont != null)`, so after a label with its own font drawn on a fontless surface the label's font stays installed, and a fontless label on a fontless surface throws `NullReferenceException` (ScrollingGraphDisplay.cs:166 and :239). The font-restoring ensures of DrawLabel, DrawLabels and Draw rely on this.
