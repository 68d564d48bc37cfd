/** What the scrolling graph's frames look like, stated over the functions
    its engine is proved against: the data line, the flat and non-flat
    scalings, the layout and the border. */
module GraphProperties {
  import opened DotNet
  import opened Sequences
  import opened Graphics
  import opened DisplayLabels
  import opened ScrollingGraph

  // ---------------------------------------------------------------------
  // Rotation

  /** Turning back and then forward, or forward and then back, restores the
      orientation: the y-axis label leaves the surface as it found it. */
  lemma RotationRoundTrip(r: Rotation)
    ensures NextRotation(PreviousRotation(r)) == r
    ensures PreviousRotation(NextRotation(r)) == r
  {
  }

  // ---------------------------------------------------------------------
  // The data line

  /** Segment `i` joins value `i` at pane x offset `i` to value `i + 1` at
      offset `i + 1`. */
  lemma {:induction false} PolylineAt(pane: GraphPane, ys: seq<int>, minVal: int, color: Color, i: int)
    requires 0 <= i < |ys| - 1
    ensures Polyline(pane, ys, minVal, color)[i] == Segment(pane, i, ys[i], i + 1, ys[i + 1], minVal, color)
    decreases |ys|
  {
    var n := |ys|;
    if i < n - 2 {
      PolylineAt(pane, ys[..n - 1], minVal, color, i);
      assert ys[..n - 1][i] == ys[i] && ys[..n - 1][i + 1] == ys[i + 1];
    }
  }

  /** The data line is one connected run of unit-wide segments from the
      pane's left edge: segment `i` spans x = pane.x + i to pane.x + i + 1,
      and each starts where the previous one ends. */
  lemma PolylineConnected(pane: GraphPane, ys: seq<int>, minVal: int, color: Color)
    ensures var lines := Polyline(pane, ys, minVal, color);
      && (forall i :: 0 <= i < |lines| ==>
            lines[i].Line? && lines[i].color == color
            && lines[i].x1 == pane.x + i && lines[i].x2 == pane.x + i + 1
            && lines[i].y1 == PlotY(pane, minVal, ys[i]) && lines[i].y2 == PlotY(pane, minVal, ys[i + 1]))
      && (forall i :: 0 < i < |lines| ==> lines[i].x1 == lines[i - 1].x2 && lines[i].y1 == lines[i - 1].y2)
  {
    var lines := Polyline(pane, ys, minVal, color);
    forall i | 0 <= i < |lines|
      ensures lines[i] == Segment(pane, i, ys[i], i + 1, ys[i + 1], minVal, color)
    {
      PolylineAt(pane, ys, minVal, color, i);
    }
  }

  /** The C# cast of a whole number held in a double gives it back. */
  lemma TruncateWhole(x: int)
    ensures Truncate(x as real) == x
  {
  }

  /** Truncation toward zero never reverses an order. */
  lemma TruncateMonotone(a: real, b: real)
    requires a <= b
    ensures Truncate(a) <= Truncate(b)
  {
  }

  /** Constant samples: the factor stays 1, the minimum drops by half the
      pane height, and every segment is horizontal at the pane's vertical
      centre, `pane.height / 2` above its bottom edge. */
  lemma FlatSignal(pane: GraphPane, samples: seq<Int32>, color: Color, v: int)
    requires |samples| >= 2 && forall i :: 0 <= i < |samples| ==> samples[i] == v
    ensures Normalise(MinOf(samples), MaxOf(samples), pane.height) == Scaling(Ratio(1.0), v - Half(pane.height))
    ensures var lines := DataPlot(pane, samples, color);
            var y := pane.y + pane.height - Half(pane.height);
      && |lines| == |samples| - 1
      && forall i :: 0 <= i < |lines| ==> lines[i] == Line(pane.x + i, y, pane.x + i + 1, y, color)
  {
    assert samples[0] == v;
    assert MinOf(samples) == v && MaxOf(samples) == v;
    NormaliseFlat(v, pane.height);
    var minVal := v - Half(pane.height);
    UnitYs(samples);
    UnitScale(minVal);
    assert DataPlot(pane, samples, color) == Polyline(pane, samples, minVal, color);
    var y := pane.y + pane.height - Half(pane.height);
    forall i | 0 <= i < |samples| - 1
      ensures Polyline(pane, samples, minVal, color)[i] == Line(pane.x + i, y, pane.x + i + 1, y, color)
    {
      PolylineAt(pane, samples, minVal, color, i);
    }
  }

  /** Dividing by the factor 1 and casting back gives the value itself. */
  lemma UnitScale(x: int)
    ensures Scaled(x, Ratio(1.0)) == x
  {
    assert x as real / 1.0 == x as real;
    TruncateWhole(x);
  }

  /** With the factor 1 every sample is plotted at its own value. */
  lemma UnitYs(data: seq<int>)
    ensures Ys(data, Ratio(1.0)) == data
  {
    forall i | 0 <= i < |data|
      ensures Ys(data, Ratio(1.0))[i] == data[i]
    {
      UnitScale(data[i]);
    }
  }

  /** Outside the flat case the minimum plots on the pane's bottom edge. */
  lemma MinimumOnBottomEdge(pane: GraphPane, samples: seq<Int32>, i: int)
    requires 0 <= i < |samples| && samples[i] == MinOf(samples) && MinOf(samples) != MaxOf(samples)
    ensures var s := Normalise(MinOf(samples), MaxOf(samples), pane.height);
      PlotY(pane, Scaled(s.min, s.normalize), Ys(samples, s.normalize)[i]) == pane.y + pane.height
  {
  }

  /** Outside the flat case, with a pane of positive height, every sample
      plots between the pane's top edge and its bottom edge (reals stand in
      for doubles). */
  lemma WithinPane(pane: GraphPane, samples: seq<Int32>, i: int)
    requires 0 <= i < |samples| && pane.height > 0 && MinOf(samples) != MaxOf(samples)
    ensures var s := Normalise(MinOf(samples), MaxOf(samples), pane.height);
            var y := PlotY(pane, Scaled(s.min, s.normalize), Ys(samples, s.normalize)[i]);
      pane.y <= y <= pane.y + pane.height
  {
    var lo: int, hi: int := MinOf(samples), MaxOf(samples);
    var d: int := samples[i];
    assert lo <= d <= hi;
    NormaliseRange(lo, hi, pane.height);
    PlotBounds(pane, lo, d, hi);
  }

  /** In the flat case the factor is 1 and the minimum drops by half the
      height. */
  lemma NormaliseFlat(v: int, h: int)
    ensures Normalise(v, v, h) == Scaling(Ratio(1.0), v - Half(h))
  {
  }

  /** Outside the flat case the factor is the range over the height and the
      minimum is kept. */
  lemma NormaliseRange(lo: int, hi: int, h: int)
    requires lo != hi && h != 0
    ensures Normalise(lo, hi, h) == Scaling(Ratio(Quotient(hi - lo, h)), lo)
  {
  }

  /** The bound of `WithinPane` for one sample `d` between `lo` and `hi`. */
  lemma PlotBounds(pane: GraphPane, lo: int, d: int, hi: int)
    requires lo <= d <= hi && lo < hi && pane.height > 0
    ensures var q := Ratio(Quotient(hi - lo, pane.height));
            var y := PlotY(pane, Scaled(lo, q), Scaled(d, q));
      pane.y <= y <= pane.y + pane.height
  {
    var q := Quotient(hi - lo, pane.height);
    var a, m, b := lo as real / q, d as real / q, hi as real / q;
    QuotientSpan(lo, hi, pane.height);
    DivideMonotone(lo as real, d as real, q);
    DivideMonotone(d as real, hi as real, q);
    TruncateMonotone(a, m);
    TruncateMonotone(m, b);
    TruncateGap(a, b, pane.height);
  }

  /** Truncating toward zero never widens a span of whole length `h`: ends
      of one sign keep the same fraction, ends of opposite signs both move
      toward zero. */
  lemma TruncateGap(a: real, b: real, h: int)
    requires h >= 0 && b - a == h as real
    ensures Truncate(b) - Truncate(a) <= h
  {
  }

  /** The factor of a positive range over a positive height is positive, and
      the scaled range is the height again. */
  lemma QuotientSpan(lo: int, hi: int, h: int)
    requires lo < hi && h > 0
    ensures Quotient(hi - lo, h) > 0.0
    ensures hi as real / Quotient(hi - lo, h) - lo as real / Quotient(hi - lo, h) == h as real
  {
    var r, hr := (hi - lo) as real, h as real;
    var q := r / hr;
    assert q * hr == r;
    assert q > 0.0;
    assert hi as real / q - lo as real / q == r / q;
    assert r / q == hr;
  }

  lemma DivideMonotone(x: real, y: real, q: real)
    requires x <= y && q > 0.0
    ensures x / q <= y / q
  {
    assert y / q - x / q == (y - x) / q;
  }

  // ---------------------------------------------------------------------
  // Layout and border

  /** With no shown label the pane is the surface inset by 2 pixels. */
  lemma LayoutWithoutLabels(title: Option<DisplayLabel>, xAxis: Option<DisplayLabel>, yAxis: Option<DisplayLabel>,
                            width: int, height: int, current: Font)
    requires !IsShown(title) && !IsShown(xAxis) && !IsShown(yAxis)
    ensures LayoutPane(title, xAxis, yAxis, width, height, current) == GraphPane(2, 2, width - 4, height - 4)
  {
  }

  /** Each label's font height is taken from its own side: the title's from
      the top, the x-axis label's from the bottom, the y-axis label's from
      the left; the x-axis label is drawn flush with the bottom. */
  lemma LayoutBands(title: Option<DisplayLabel>, xAxis: Option<DisplayLabel>, yAxis: Option<DisplayLabel>,
                    width: int, height: int, current: Font, rotation: Rotation)
    ensures var p := LayoutPane(title, xAxis, yAxis, width, height, current);
      && p.y == 2 + (if IsShown(title) then title.value.font.GetOr(current).height else 0)
      && p.y + p.height == height - 2 - (if IsShown(xAxis) then xAxis.value.font.GetOr(current).height else 0)
      && p.x == 2 + (if IsShown(yAxis) then yAxis.value.font.GetOr(current).height else 0)
    ensures IsShown(xAxis) ==>
      XAxisEvents(xAxis, width, height, current, rotation)[0].y == height - xAxis.value.font.GetOr(current).height
  {
  }

  /** The y-axis label narrows the region by the title's band rather than by
      its own width: with no title, the border's right edge lies at
      `width + h - 1` for a y-axis font of height `h`, past the surface's
      last column whenever `h > 0`. */
  lemma YAxisOverrun(xAxis: Option<DisplayLabel>, yAxis: Option<DisplayLabel>, width: int, height: int, current: Font)
    requires IsShown(yAxis)
    ensures var r := Region(None, xAxis, yAxis, width, height, current);
            var h := yAxis.value.font.GetOr(current).height;
      && r.x + r.width - 1 == width + h - 1
      && (h > 0 ==> r.x + r.width - 1 >= width)
  {
  }

  /** The pane sits one pixel inside the border on every side. */
  lemma PaneInsideBorder(title: Option<DisplayLabel>, xAxis: Option<DisplayLabel>, yAxis: Option<DisplayLabel>,
                         width: int, height: int, current: Font)
    ensures var r := Region(title, xAxis, yAxis, width, height, current);
            var p := LayoutPane(title, xAxis, yAxis, width, height, current);
      && p.x == (r.x + 1) + 1 && p.y == (r.y + 1) + 1
      && p.x + p.width == (r.x + r.width - 1) - 1 && p.y + p.height == (r.y + r.height - 1) - 1
  {
  }

  /** The border is a closed loop of four lines: each starts where the
      previous ends, the last ends where the first starts, and together they
      touch every corner of the rectangle. */
  lemma BorderClosed(x1: int, y1: int, x2: int, y2: int, color: Color)
    ensures var b := BorderEvents(x1, y1, x2, y2, color);
      && |b| == 4
      && (forall i :: 0 <= i < 4 ==> b[i].Line? && b[i].color == color)
      && (forall i :: 0 < i < 4 ==> b[i].x1 == b[i - 1].x2 && b[i].y1 == b[i - 1].y2)
      && b[3].x2 == b[0].x1 && b[3].y2 == b[0].y1
      && b[0].x1 == x1 && b[0].y1 == y1 && b[1].x1 == x1 && b[1].y1 == y2
      && b[2].x1 == x2 && b[2].y1 == y2 && b[3].x1 == x2 && b[3].y1 == y1
  {
  }

  // ---------------------------------------------------------------------
  // Eviction

  /** A flat run of `k` copies of `v` and then `top`, trimmed to a pane of
      width `w` no longer than the run, keeps `w - 1` copies of `v` and
      `top`: with `Sequences.PushAllIsLastN` (from the empty queue), the queue
      that pushing such a run leaves, and the input of `StepResponse`. */
  lemma FlatRunThenTop(v: Int32, top: Int32, k: nat, w: nat)
    requires 0 < w <= k
    ensures LastN(Repeat(v, k) + [top], w) == Repeat(v, w - 1) + [top]
  {
    var pushed := Repeat(v, k) + [top];
    var kept, last := Repeat(v, w - 1) + [top], LastN(pushed, w);
    assert |last| == w && last == pushed[k + 1 - w..];
    forall i | 0 <= i < w
      ensures last[i] == kept[i]
    {
      assert last[i] == pushed[k + 1 - w + i];
    }
  }

  /** A range equal to the pane height gives the factor 1. */
  lemma SelfQuotient(h: int)
    requires h != 0
    ensures Quotient(h, h) == 1.0
  {
    var r := h as real;
    assert r / r == 1.0;
  }

  /** A flat run of `lo` followed by one sample `hi` exactly a pane height
      above it: the factor is 1, the run plots on the pane's bottom edge and
      the last segment rises to its top edge. */
  lemma StepResponse(pane: GraphPane, samples: seq<Int32>, lo: int, hi: int, color: Color)
    requires |samples| >= 2 && pane.height > 0 && hi - lo == pane.height
    requires forall i :: 0 <= i < |samples| - 1 ==> samples[i] == lo
    requires samples[|samples| - 1] == hi
    ensures MinOf(samples) == lo && MaxOf(samples) == hi
    ensures Normalise(lo, hi, pane.height) == Scaling(Ratio(1.0), lo)
    ensures |DataPlot(pane, samples, color)| == |samples| - 1
    ensures forall i :: 0 <= i < |samples| - 2 ==>
      DataPlot(pane, samples, color)[i] == Line(pane.x + i, pane.y + pane.height, pane.x + i + 1, pane.y + pane.height, color)
    ensures DataPlot(pane, samples, color)[|samples| - 2]
      == Line(pane.x + |samples| - 2, pane.y + pane.height, pane.x + |samples| - 1, pane.y, color)
  {
    var n := |samples|;
    assert samples[0] == lo;
    assert forall i :: 0 <= i < n ==> lo <= samples[i] <= hi;
    assert MinOf(samples) == lo && MaxOf(samples) == hi;
    NormaliseRange(lo, hi, pane.height);
    SelfQuotient(pane.height);
    UnitYs(samples);
    UnitScale(lo);
    assert DataPlot(pane, samples, color) == Polyline(pane, samples, lo, color);
    StepPolyline(pane, samples, lo, hi, color);
  }

  /** `StepResponse` for values already scaled. */
  lemma StepPolyline(pane: GraphPane, ys: seq<int>, lo: int, hi: int, color: Color)
    requires |ys| >= 2 && hi - lo == pane.height
    requires forall i :: 0 <= i < |ys| - 1 ==> ys[i] == lo
    requires ys[|ys| - 1] == hi
    ensures |Polyline(pane, ys, lo, color)| == |ys| - 1
    ensures forall i :: 0 <= i < |ys| - 2 ==>
      Polyline(pane, ys, lo, color)[i] == Line(pane.x + i, pane.y + pane.height, pane.x + i + 1, pane.y + pane.height, color)
    ensures Polyline(pane, ys, lo, color)[|ys| - 2]
      == Line(pane.x + |ys| - 2, pane.y + pane.height, pane.x + |ys| - 1, pane.y, color)
  {
    var n := |ys|;
    var lines := Polyline(pane, ys, lo, color);
    var bottom := pane.y + pane.height;
    forall i | 0 <= i < n - 2
      ensures lines[i] == Line(pane.x + i, bottom, pane.x + i + 1, bottom, color)
    {
      PolylineAt(pane, ys, lo, color, i);
      assert ys[i] == lo && ys[i + 1] == lo;
    }
    PolylineAt(pane, ys, lo, color, n - 2);
  }
}
