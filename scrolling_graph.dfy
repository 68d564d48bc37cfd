/** The scrolling line graph: a FIFO of integer samples, trimmed to the width
    of the plotting pane, and a frame renderer that lays out up to three
    labels, draws a border and plots one segment per pair of consecutive
    samples. Functions in this module state what each step draws; the class
    at the end performs the steps on a surface and is proved against them. */
module ScrollingGraph {
  import opened DotNet
  import opened Sequences
  import opened Graphics
  import opened DisplayLabels

  /** A rectangle in surface pixels: the plotting pane, or the region the
      labels leave free. */
  datatype GraphPane = GraphPane(x: int, y: int, width: int, height: int)

  // ---------------------------------------------------------------------
  // Rotation helpers

  /** The next of the four orientations, 3 wrapping to 0. */
  function NextRotation(rotation: Rotation): (r: Rotation)
    ensures r == (rotation + 1) % 4
  {
    if rotation == 3 then 0 else rotation + 1
  }

  /** The previous of the four orientations, 0 wrapping to 3. */
  function PreviousRotation(rotation: Rotation): (r: Rotation)
    ensures r == (rotation + 3) % 4
  {
    if rotation == 0 then 3 else rotation - 1
  }

  // ---------------------------------------------------------------------
  // Labels and layout

  /** A label takes part in the layout when it exists and its text is not
      blank. */
  predicate IsShown(lbl: Option<DisplayLabel>) {
    lbl.Some? && !IsNullOrWhiteSpace(lbl.value.text)
  }

  /** The font a label is drawn in. */
  function LabelFont(lbl: DisplayLabel, current: Font): Font {
    lbl.font.GetOr(current)
  }

  /** Where a label of the given alignment starts in `width` pixels. Text
      that does not fit starts at 0 whatever its alignment. */
  function GetStartX(lbl: DisplayLabel, width: int, current: Font): (startX: int)
    ensures var textLength := |lbl.text| * LabelFont(lbl, current).width;
      && (textLength >= width || lbl.textAlignment == Left ==> startX == 0)
      && (textLength < width && lbl.textAlignment == Right ==> startX == width - textLength)
      && (textLength < width && lbl.textAlignment == Center ==>
            startX <= width - textLength - startX <= startX + 1)
      && (textLength < width ==> 0 <= startX && startX + textLength <= width)
  {
    var fontWidth := LabelFont(lbl, current).width;
    var textLength := |lbl.text| * fontWidth;
    var startX := 0;
    if textLength < width && lbl.textAlignment != Left then
      var rightAligned := width - textLength;
      if lbl.textAlignment == Center then Half(rightAligned) else rightAligned
    else
      startX
  }

  /** Pixels the title takes from the top, the x-axis label from the bottom
      and the y-axis label from the left: each label's own font height. */
  function TopBand(title: Option<DisplayLabel>, current: Font): nat {
    if IsShown(title) then LabelFont(title.value, current).height else 0
  }

  function BottomBand(xAxis: Option<DisplayLabel>, current: Font): nat {
    if IsShown(xAxis) then LabelFont(xAxis.value, current).height else 0
  }

  function LeftBand(yAxis: Option<DisplayLabel>, current: Font): nat {
    if IsShown(yAxis) then LabelFont(yAxis.value, current).height else 0
  }

  /** The region the labels leave free on a `width` by `height` surface. As
      the code is written, a y-axis label narrows the region by the title's
      band, not by its own. */
  function Region(title: Option<DisplayLabel>, xAxis: Option<DisplayLabel>, yAxis: Option<DisplayLabel>,
                  width: int, height: int, current: Font): GraphPane
  {
    var top := TopBand(title, current);
    GraphPane(LeftBand(yAxis, current), top,
              width - (if IsShown(yAxis) then top else 0),
              height - top - BottomBand(xAxis, current))
  }

  /** `r` shrunk by `d` pixels on every side. */
  function Inset(r: GraphPane, d: int): (s: GraphPane)
    ensures s.x == r.x + d && s.y == r.y + d
    ensures s.x + s.width == r.x + r.width - d && s.y + s.height == r.y + r.height - d
  {
    GraphPane(r.x + d, r.y + d, r.width - 2 * d, r.height - 2 * d)
  }

  /** The plotting pane: the free region inset by 2 pixels. */
  function LayoutPane(title: Option<DisplayLabel>, xAxis: Option<DisplayLabel>, yAxis: Option<DisplayLabel>,
                      width: int, height: int, current: Font): GraphPane
  {
    Inset(Region(title, xAxis, yAxis, width, height, current), 2)
  }

  /** The text event for a label drawn at (x, y) under `rotation`. */
  function LabelEvent(lbl: DisplayLabel, x: int, y: int, current: Font, rotation: Rotation): Event {
    Text(x, y, lbl.text, lbl.color, LabelFont(lbl, current), rotation)
  }

  /** The title, if shown: at the top, aligned in the width. */
  function TitleEvents(title: Option<DisplayLabel>, width: int, current: Font, rotation: Rotation): seq<Event> {
    if IsShown(title) then [LabelEvent(title.value, GetStartX(title.value, width, current), 0, current, rotation)] else []
  }

  /** The x-axis label, if shown: flush with the bottom, aligned in the
      width. */
  function XAxisEvents(xAxis: Option<DisplayLabel>, width: int, height: int, current: Font, rotation: Rotation): seq<Event> {
    if IsShown(xAxis)
    then [LabelEvent(xAxis.value, GetStartX(xAxis.value, width, current), height - BottomBand(xAxis, current), current, rotation)]
    else []
  }

  /** The y-axis label, if shown: at the origin of the frame turned back by
      one orientation, aligned in the height. */
  function YAxisEvents(yAxis: Option<DisplayLabel>, height: int, current: Font, rotation: Rotation): seq<Event> {
    if IsShown(yAxis)
    then [LabelEvent(yAxis.value, GetStartX(yAxis.value, height, current), 0, current, PreviousRotation(rotation))]
    else []
  }

  /** The labels of one frame, title first. */
  function LabelEvents(title: Option<DisplayLabel>, xAxis: Option<DisplayLabel>, yAxis: Option<DisplayLabel>,
                       width: int, height: int, current: Font, rotation: Rotation): seq<Event>
  {
    TitleEvents(title, width, current, rotation) + XAxisEvents(xAxis, width, height, current, rotation)
    + YAxisEvents(yAxis, height, current, rotation)
  }

  /** The four sides of the rectangle (x1, y1)-(x2, y2), drawn left, bottom,
      right, top. */
  function BorderEvents(x1: int, y1: int, x2: int, y2: int, color: Color): seq<Event> {
    [Line(x1, y1, x1, y2, color), Line(x1, y2, x2, y2, color),
     Line(x2, y2, x2, y1, color), Line(x2, y1, x1, y1, color)]
  }

  /** Everything a frame draws before the data: labels, then the border one
      pixel inside the free region. */
  function DecorationEvents(title: Option<DisplayLabel>, xAxis: Option<DisplayLabel>, yAxis: Option<DisplayLabel>,
                            width: int, height: int, current: Font, rotation: Rotation,
                            borderColor: Color): seq<Event>
  {
    var r := Region(title, xAxis, yAxis, width, height, current);
    LabelEvents(title, xAxis, yAxis, width, height, current, rotation)
    + BorderEvents(r.x + 1, r.y + 1, r.x + r.width - 1, r.y + r.height - 1, borderColor)
  }

  /** Assembles the trace of `DrawLabels` from the traces of its steps. */
  lemma DecorationTrace(title: Option<DisplayLabel>, xAxis: Option<DisplayLabel>, yAxis: Option<DisplayLabel>,
                        width: int, height: int, current: Font, rotation: Rotation, borderColor: Color, r: GraphPane,
                        t0: seq<Event>, t1: seq<Event>, t2: seq<Event>, t3: seq<Event>, t4: seq<Event>)
    requires r == Region(title, xAxis, yAxis, width, height, current)
    requires t1 == t0 + TitleEvents(title, width, current, rotation)
    requires t2 == t1 + XAxisEvents(xAxis, width, height, current, rotation)
    requires t3 == t2 + YAxisEvents(yAxis, height, current, rotation)
    requires t4 == t3 + BorderEvents(r.x + 1, r.y + 1, r.x + r.width - 1, r.y + r.height - 1, borderColor)
    ensures t4 == t0 + DecorationEvents(title, xAxis, yAxis, width, height, current, rotation, borderColor)
  {
  }

  // ---------------------------------------------------------------------
  // Samples: minimum, maximum and normalisation

  /** The running minimum of the samples, seeded with `int.MaxValue`. */
  function MinOf(s: seq<Int32>): (m: Int32)
    ensures s == [] ==> m == IntMaxValue
    ensures s != [] ==> m in s && forall i :: 0 <= i < |s| ==> m <= s[i]
    decreases |s|
  {
    if s == [] then IntMaxValue else Min(MinOf(s[..|s| - 1]), s[|s| - 1])
  }

  /** The running maximum of the samples, seeded with `int.MinValue`. */
  function MaxOf(s: seq<Int32>): (m: Int32)
    ensures s == [] ==> m == IntMinValue
    ensures s != [] ==> m in s && forall i :: 0 <= i < |s| ==> s[i] <= m
    decreases |s|
  {
    if s == [] then IntMinValue else Max(MaxOf(s[..|s| - 1]), s[|s| - 1])
  }

  /** The factor samples are divided by. The code computes it in double
      precision; here it is a non-zero real, or an infinite value when the
      range is non-zero and the pane has no height (`range / 0.0`), in which
      case every quotient is zero. */
  type NonZeroReal = q: real | q != 0.0 witness 1.0

  datatype Normaliser = Ratio(q: NonZeroReal) | Unbounded

  /** `(double)range / (double)height`, for a range and a height that are
      not zero. */
  function Quotient(range: int, height: int): NonZeroReal
    requires range != 0 && height != 0
  {
    range as real / height as real
  }

  /** `(int)(d / normalize)`. */
  function Scaled(d: int, normalize: Normaliser): int {
    match normalize
    case Ratio(q) => Truncate(d as real / q)
    case Unbounded => 0
  }

  /** Every sample scaled, in order. */
  function Ys(data: seq<int>, normalize: Normaliser): (ys: seq<int>)
    ensures |ys| == |data|
    ensures forall i :: 0 <= i < |data| ==> ys[i] == Scaled(data[i], normalize)
  {
    seq(|data|, i requires 0 <= i < |data| => Scaled(data[i], normalize))
  }

  /** The normaliser and the (possibly widened) minimum a frame plots with. */
  datatype Scaling = Scaling(normalize: Normaliser, min: int)

  /** A flat signal keeps the factor 1 and lowers the minimum by half the
      pane height, which centres the line; otherwise the factor is the range
      over the pane height. */
  function Normalise(min: int, max: int, paneHeight: int): Scaling {
    var range := max - min;
    if range == 0 then Scaling(Ratio(1.0), min - Half(paneHeight))
    else if paneHeight == 0 then Scaling(Unbounded, min)
    else Scaling(Ratio(Quotient(range, paneHeight)), min)
  }

  // ---------------------------------------------------------------------
  // Plotting

  /** The y coordinate on the surface of a scaled value `y`: larger values
      plot higher, and `minVal` sits on the pane's bottom edge. */
  function PlotY(pane: GraphPane, minVal: int, y: int): int {
    pane.y + pane.height + minVal - y
  }

  /** The segment `ScrollingGraphDisplay.DrawLine` draws: pane-relative x,
      scaled y, mapped to the surface. */
  function Segment(pane: GraphPane, x1: int, y1: int, x2: int, y2: int, minVal: int, color: Color): Event {
    Line(pane.x + x1, PlotY(pane, minVal, y1), pane.x + x2, PlotY(pane, minVal, y2), color)
  }

  /** One segment per pair of consecutive scaled values, value `i` at pane
      x offset `i`. */
  function Polyline(pane: GraphPane, ys: seq<int>, minVal: int, color: Color): (lines: seq<Event>)
    ensures |lines| == if |ys| < 2 then 0 else |ys| - 1
    decreases |ys|
  {
    if |ys| < 2 then []
    else
      var n := |ys|;
      Polyline(pane, ys[..n - 1], minVal, color) + [Segment(pane, n - 2, ys[n - 2], n - 1, ys[n - 1], minVal, color)]
  }

  /** The data line of a frame for samples already trimmed to the pane. */
  function DataPlot(pane: GraphPane, samples: seq<Int32>, color: Color): seq<Event> {
    var s := Normalise(MinOf(samples), MaxOf(samples), pane.height);
    Polyline(pane, Ys(samples, s.normalize), Scaled(s.min, s.normalize), color)
  }

  // ---------------------------------------------------------------------
  // The engine

  class ScrollingGraphDisplay {
    const graphicsLibrary: GraphicsLibrary
    const height: int
    const width: int
    /** The pane of the last frame; `None` before the first `Draw`. */
    var graphPane: Option<GraphPane>

    var XAxis: Option<DisplayLabel>
    var YAxis: Option<DisplayLabel>
    var Title: Option<DisplayLabel>
    var LineColor: Color
    var BorderColor: Color

    /** The sample queue, oldest first. */
    var data: seq<Int32>

    constructor (graphicsLibrary: GraphicsLibrary, height: int, width: int)
      ensures this.graphicsLibrary == graphicsLibrary && this.height == height && this.width == width
      ensures graphPane == None && data == []
      ensures XAxis == None && YAxis == None && Title == None
      ensures LineColor == Yellow && BorderColor == White
    {
      this.graphicsLibrary := graphicsLibrary;
      this.height := height;
      this.width := width;
      graphPane := None;
      XAxis, YAxis, Title := None, None, None;
      LineColor, BorderColor := Yellow, White;
      data := [];
    }

    /** Enqueues `val`; once a pane exists, dequeues from the front until the
        queue fits its width. A negative width empties the queue and then
        fails on the empty queue. */
    method AddData(val: Int32) returns (status: Status)
      modifies this`data
      ensures graphPane.None? ==> status == Ok && data == old(data) + [val]
      ensures graphPane.Some? && graphPane.value.width >= 0 ==>
                status == Ok && data == LastN(old(data) + [val], graphPane.value.width)
      ensures graphPane.Some? && graphPane.value.width < 0 ==>
                status == Threw(InvalidOperation) && data == []
    {
      status := Ok;
      data := data + [val];
      if graphPane.Some? {
        status := TrimTo(graphPane.value.width);
      }
    }

    /** The dequeue loop shared by `AddData` and `DrawData`: drops the oldest
        samples until at most `w` remain. A negative `w` empties the queue
        and then fails on the empty queue. */
    method TrimTo(w: int) returns (status: Status)
      modifies this`data
      ensures w >= 0 ==> status == Ok && data == LastN(old(data), w)
      ensures w < 0 ==> status == Threw(InvalidOperation) && data == []
    {
      status := Ok;
      ghost var full := data;
      while |data| > w
        invariant |data| <= |full| && data == full[|full| - |data|..]
        invariant 0 <= w ==> |data| >= if |full| <= w then |full| else w
        decreases |data|
      {
        if data == [] {
          status := Threw(InvalidOperation);
          return;
        }
        data := data[1..];
      }
      if 0 <= w {
        SuffixIsLastN(full, data, w);
      }
    }

    /** Renders one frame: clear, lay out labels and border, plot, show. */
    method Draw() returns (status: Status)
      modifies this`graphPane, this`data, graphicsLibrary
      ensures graphicsLibrary.CurrentFont == old(graphicsLibrary.CurrentFont)
      ensures graphicsLibrary.CurrentRotation == old(graphicsLibrary.CurrentRotation)
      ensures graphPane == Some(LayoutPane(Title, XAxis, YAxis, width, height, old(graphicsLibrary.CurrentFont)))
      ensures var pane := graphPane.value;
              var before := old(graphicsLibrary.Trace) + [Cleared]
                + DecorationEvents(Title, XAxis, YAxis, width, height, old(graphicsLibrary.CurrentFont),
                                   old(graphicsLibrary.CurrentRotation), BorderColor);
              if |old(data)| < 2 then
                status == Ok && data == old(data) && graphicsLibrary.Trace == before + [Shown]
              else if pane.width < 0 then
                status == Threw(InvalidOperation) && data == [] && graphicsLibrary.Trace == before
              else
                status == Ok && data == LastN(old(data), pane.width)
                && graphicsLibrary.Trace == before + DataPlot(pane, data, LineColor) + [Shown]
    {
      graphicsLibrary.Clear();
      var pane := DrawLabels();
      graphPane := Some(pane);
      status := DrawData();
      if status.Threw? {
        return;
      }
      graphicsLibrary.Show();
    }

    /** Plots the queue in the current pane, after trimming it to the pane's
        width; fewer than two samples draw nothing. */
    method DrawData() returns (status: Status)
      requires graphPane.Some?
      modifies this`data, graphicsLibrary`Trace
      ensures var pane := graphPane.value;
              if |old(data)| < 2 then
                status == Ok && data == old(data) && graphicsLibrary.Trace == old(graphicsLibrary.Trace)
              else if pane.width < 0 then
                status == Threw(InvalidOperation) && data == [] && graphicsLibrary.Trace == old(graphicsLibrary.Trace)
              else
                status == Ok && data == LastN(old(data), pane.width)
                && graphicsLibrary.Trace == old(graphicsLibrary.Trace) + DataPlot(pane, data, LineColor)
    {
      status := Ok;
      if |data| < 2 {
        return;
      }
      var pane := graphPane.value;
      status := TrimTo(pane.width);
      if status.Threw? {
        return;
      }
      var min: int, max: int := GetMinMax(data);
      var range := max - min;
      ghost var scaling := Normalise(min, max, pane.height);
      var dataNorm := Ratio(1.0);
      if range == 0 {
        min := min - Half(pane.height);
      } else if pane.height == 0 {
        dataNorm := Unbounded;
      } else {
        dataNorm := Ratio(Quotient(range, pane.height));
      }
      assert Scaling(dataNorm, min) == scaling;
      DrawDataLine(data, dataNorm, min);
    }

    /** Draws one segment per pair of consecutive samples, the first sample
        at pane x offset 0. The pane is read only to draw a segment, so fewer
        than two samples draw nothing, with or without a pane. */
    method DrawDataLine(data: seq<int>, normalize: Normaliser, min: int)
      requires graphPane.Some? || |data| < 2
      modifies graphicsLibrary`Trace
      ensures |data| < 2 ==> graphicsLibrary.Trace == old(graphicsLibrary.Trace)
      ensures graphPane.Some? ==>
                graphicsLibrary.Trace
                == old(graphicsLibrary.Trace) + Polyline(graphPane.value, Ys(data, normalize), Scaled(min, normalize), LineColor)
    {
      ghost var ys := Ys(data, normalize);
      var x, startY := 0, 0;
      while x < |data|
        invariant 0 <= x <= |data|
        invariant x > 0 ==> startY == ys[x - 1]
        invariant x <= 1 ==> graphicsLibrary.Trace == old(graphicsLibrary.Trace)
        invariant graphPane.Some? ==>
                    graphicsLibrary.Trace
                    == old(graphicsLibrary.Trace) + Polyline(graphPane.value, ys[..x], Scaled(min, normalize), LineColor)
      {
        var d := data[x];
        if x == 0 {
          startY := Scaled(d, normalize);
        } else {
          var endY := Scaled(d, normalize);
          DrawLine(x - 1, startY, x, endY, Scaled(min, normalize));
          assert ys[..x + 1][..x] == ys[..x];
          startY := endY;
        }
        x := x + 1;
      }
      assert ys[..|data|] == ys;
    }

    /** Draws a segment given in pane-relative x and scaled y. */
    method DrawLine(x1: int, y1: int, x2: int, y2: int, minVal: int)
      requires graphPane.Some?
      modifies graphicsLibrary`Trace
      ensures graphicsLibrary.Trace
                == old(graphicsLibrary.Trace) + [Segment(graphPane.value, x1, y1, x2, y2, minVal, LineColor)]
    {
      var pane := graphPane.value;
      graphicsLibrary.DrawLine(pane.x + x1, pane.y + pane.height + minVal - y1,
                               pane.x + x2, pane.y + pane.height + minVal - y2, LineColor);
    }

    /** The smallest and largest sample in one pass, seeded with
        `int.MaxValue` and `int.MinValue`. */
    static method GetMinMax(data: seq<Int32>) returns (min: Int32, max: Int32)
      ensures data == [] ==> min == IntMaxValue && max == IntMinValue
      ensures data != [] ==> min in data && max in data
      ensures forall i :: 0 <= i < |data| ==> min <= data[i] <= max
      ensures min == MinOf(data) && max == MaxOf(data)
    {
      min, max := IntMaxValue, IntMinValue;
      for i := 0 to |data|
        invariant min == MinOf(data[..i]) && max == MaxOf(data[..i])
      {
        assert data[..i + 1][..i] == data[..i];
        min := Min(min, data[i]);
        max := Max(max, data[i]);
      }
      assert data[..|data|] == data;
    }

    /** Draws the non-blank labels, narrows the free region for each, draws
        the border one pixel inside it and returns it inset by 2 pixels. The
        three label blocks are the three methods that follow. */
    method DrawLabels() returns (pane: GraphPane)
      modifies graphicsLibrary
      ensures graphicsLibrary.CurrentFont == old(graphicsLibrary.CurrentFont)
      ensures graphicsLibrary.CurrentRotation == old(graphicsLibrary.CurrentRotation)
      ensures pane == LayoutPane(Title, XAxis, YAxis, width, height, old(graphicsLibrary.CurrentFont))
      ensures graphicsLibrary.Trace == old(graphicsLibrary.Trace)
                + DecorationEvents(Title, XAxis, YAxis, width, height, old(graphicsLibrary.CurrentFont),
                                   old(graphicsLibrary.CurrentRotation), BorderColor)
    {
      var graphX, graphY, graphWidth, graphHeight := 0, 0, width, height;
      ghost var trace0 := graphicsLibrary.Trace;
      if IsShown(Title) {
        graphY := DrawTitle();
        graphHeight := graphHeight - graphY;
      }
      ghost var trace1 := graphicsLibrary.Trace;
      if IsShown(XAxis) {
        var fontHeight := DrawXAxisLabel();
        graphHeight := graphHeight - fontHeight;
      }
      ghost var trace2 := graphicsLibrary.Trace;
      if IsShown(YAxis) {
        graphX := DrawYAxisLabel();
        graphWidth := graphWidth - graphY;
      }
      ghost var trace3 := graphicsLibrary.Trace;
      ghost var region := GraphPane(graphX, graphY, graphWidth, graphHeight);
      DrawBorder(graphX + 1, graphY + 1, graphX + graphWidth - 1, graphY + graphHeight - 1);
      pane := GraphPane(graphX + 2, graphY + 2, graphWidth - 4, graphHeight - 4);
      DecorationTrace(Title, XAxis, YAxis, width, height, old(graphicsLibrary.CurrentFont),
                      old(graphicsLibrary.CurrentRotation), BorderColor, region,
                      trace0, trace1, trace2, trace3, graphicsLibrary.Trace);
    }

    /** The title block: drawn at the top, aligned in the width; returns its
        font height, the band it takes from the top. */
    method DrawTitle() returns (graphY: int)
      requires IsShown(Title)
      modifies graphicsLibrary
      ensures graphicsLibrary.CurrentFont == old(graphicsLibrary.CurrentFont)
      ensures graphicsLibrary.CurrentRotation == old(graphicsLibrary.CurrentRotation)
      ensures graphY == TopBand(Title, old(graphicsLibrary.CurrentFont))
      ensures graphicsLibrary.Trace == old(graphicsLibrary.Trace)
                + TitleEvents(Title, width, old(graphicsLibrary.CurrentFont), old(graphicsLibrary.CurrentRotation))
    {
      var lbl := Title.value;
      var x := GetStartX(lbl, width, graphicsLibrary.CurrentFont);
      var y := 0;
      graphY := if lbl.font.None? then graphicsLibrary.CurrentFont.height else lbl.font.value.height;
      DrawLabel(x, y, lbl.text, lbl.font, lbl.color);
    }

    /** The x-axis block: drawn flush with the bottom, aligned in the width;
        returns its font height, the band it takes from the bottom. */
    method DrawXAxisLabel() returns (fontHeight: int)
      requires IsShown(XAxis)
      modifies graphicsLibrary
      ensures graphicsLibrary.CurrentFont == old(graphicsLibrary.CurrentFont)
      ensures graphicsLibrary.CurrentRotation == old(graphicsLibrary.CurrentRotation)
      ensures fontHeight == BottomBand(XAxis, old(graphicsLibrary.CurrentFont))
      ensures graphicsLibrary.Trace == old(graphicsLibrary.Trace)
                + XAxisEvents(XAxis, width, height, old(graphicsLibrary.CurrentFont), old(graphicsLibrary.CurrentRotation))
    {
      var lbl := XAxis.value;
      var x := GetStartX(lbl, width, graphicsLibrary.CurrentFont);
      fontHeight := if lbl.font.None? then graphicsLibrary.CurrentFont.height else lbl.font.value.height;
      var y := height - fontHeight;
      DrawLabel(x, y, lbl.text, lbl.font, lbl.color);
    }

    /** The y-axis block: turns the surface back one orientation, draws the
        label aligned in the height, turns the surface forward again; returns
        its font height, the band it takes from the left. */
    method DrawYAxisLabel() returns (graphX: int)
      requires IsShown(YAxis)
      modifies graphicsLibrary
      ensures graphicsLibrary.CurrentFont == old(graphicsLibrary.CurrentFont)
      ensures graphicsLibrary.CurrentRotation == old(graphicsLibrary.CurrentRotation)
      ensures graphX == LeftBand(YAxis, old(graphicsLibrary.CurrentFont))
      ensures graphicsLibrary.Trace == old(graphicsLibrary.Trace)
                + YAxisEvents(YAxis, height, old(graphicsLibrary.CurrentFont), old(graphicsLibrary.CurrentRotation))
    {
      var lbl := YAxis.value;
      var x := GetStartX(lbl, height, graphicsLibrary.CurrentFont);
      var y := 0;
      graphX := if lbl.font.None? then graphicsLibrary.CurrentFont.height else lbl.font.value.height;
      graphicsLibrary.CurrentRotation := PreviousRotation(graphicsLibrary.CurrentRotation);
      DrawLabel(x, y, lbl.text, lbl.font, lbl.color);
      graphicsLibrary.CurrentRotation := NextRotation(graphicsLibrary.CurrentRotation);
    }

    method DrawBorder(x1: int, y1: int, x2: int, y2: int)
      modifies graphicsLibrary`Trace
      ensures graphicsLibrary.Trace == old(graphicsLibrary.Trace) + BorderEvents(x1, y1, x2, y2, BorderColor)
    {
      graphicsLibrary.DrawLine(x1, y1, x1, y2, BorderColor);
      graphicsLibrary.DrawLine(x1, y2, x2, y2, BorderColor);
      graphicsLibrary.DrawLine(x2, y2, x2, y1, BorderColor);
      graphicsLibrary.DrawLine(x2, y1, x1, y1, BorderColor);
    }

    /** Draws `text` at (x, y), in `font` if one is given; the surface's font
        is put back afterwards. */
    method DrawLabel(x: int, y: int, text: string, font: Option<Font>, color: Option<Color>)
      modifies graphicsLibrary
      ensures graphicsLibrary.CurrentFont == old(graphicsLibrary.CurrentFont)
      ensures graphicsLibrary.CurrentRotation == old(graphicsLibrary.CurrentRotation)
      ensures graphicsLibrary.Trace == old(graphicsLibrary.Trace)
                + [Text(x, y, text, color, font.GetOr(old(graphicsLibrary.CurrentFont)), old(graphicsLibrary.CurrentRotation))]
    {
      var oldFont: Option<Font> := None;
      if font.Some? {
        oldFont := Some(graphicsLibrary.CurrentFont);
        graphicsLibrary.CurrentFont := font.value;
      }
      graphicsLibrary.DrawText(x, y, text, color);
      if oldFont.Some? {
        graphicsLibrary.CurrentFont := oldFont.value;
      }
    }
  }
}
