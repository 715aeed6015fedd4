/**
 * The coordinate mapping of drawChart: a history of percentages becomes a
 * polyline across the canvas, closed along the bottom edge for the area
 * fill. Only the coordinates are modelled; the canvas calls that consume
 * them (clearRect, stroke, gradient, fill) are not.
 */
module Chart {

  datatype Point = Point(x: real, y: real)

  /**
   * What one call of drawChart leaves on the canvas: either only the
   * cleared surface (fewer than two samples), or the stroked line through
   * `line` and the filled region bounded by `area`.
   */
  datatype Frame = Cleared | Plotted(line: seq<Point>, area: seq<Point>)

  /** y = height - (value / 100) * height: 0 % at the bottom, 100 % at the top. */
  function PlotY(value: real, height: real): (y: real)
    ensures 0.0 <= value <= 100.0 && height >= 0.0 ==> 0.0 <= y <= height
  {
    var t := value / 100.0;
    assert 0.0 <= value <= 100.0 && height >= 0.0 ==> 0.0 <= t * height <= height by {
      if 0.0 <= value <= 100.0 && height >= 0.0 {
        MulMono(t, 1.0, height);
        MulMono(0.0, t, height);
      }
    }
    height - (value / 100.0) * height
  }

  /** x = index * stepX with stepX = width / (count - 1). */
  function PlotX(index: nat, count: nat, width: real): (x: real)
    requires count >= 2
    ensures index < count && width >= 0.0 ==> 0.0 <= x <= width
  {
    var g := (count - 1) as real;
    var step := width / g;
    assert index < count && width >= 0.0 ==> 0.0 <= (index as real) * step <= width by {
      if index < count && width >= 0.0 {
        MulMono(0.0, index as real, step);
        MulMono(index as real, g, step);
      }
    }
    (index as real) * step
  }

  /** The points the forEach visits, one per sample, in sample order. */
  function LinePoints(data: seq<real>, width: real, height: real): (pts: seq<Point>)
    requires |data| >= 2
    ensures |pts| == |data|
  {
    seq(|data|, i requires 0 <= i < |data| => Point(PlotX(i, |data|, width), PlotY(data[i], height)))
  }

  /** drawChart(ctx, data, color) on a canvas of the given size. */
  function Render(data: seq<real>, width: real, height: real): (f: Frame)
    ensures f.Cleared? <==> |data| < 2
    ensures f.Plotted? ==> |f.line| == |data| && |f.area| == |data| + 2
  {
    if |data| < 2 then Cleared
    else
      var line := LinePoints(data, width, height);
      Plotted(line, line + [Point(width, height), Point(0.0, height)])
  }

  /** The step between neighbouring points times the number of gaps is the width. */
  lemma StepSpansWidth(count: nat, width: real)
    requires count >= 2
    ensures PlotX(count - 1, count, width) == width
    ensures PlotX(0, count, width) == 0.0
  {
  }

  /**
   * With at least two samples the line starts at the left edge and ends
   * at the right edge, and the fill closes the line down to the
   * bottom-right and bottom-left corners.
   */
  lemma LineSpansCanvas(data: seq<real>, width: real, height: real)
    requires |data| >= 2
    ensures var f := Render(data, width, height);
      && f.Plotted?
      && f.line[0].x == 0.0
      && f.line[|data| - 1].x == width
      && f.area[..|data|] == f.line
      && f.area[|data|] == Point(width, height)
      && f.area[|data| + 1] == Point(0.0, height)
  {
  }

  /** On a canvas of positive width, x strictly increases with the sample index. */
  lemma XStrictlyIncreasing(data: seq<real>, width: real, height: real, i: nat, j: nat)
    requires |data| >= 2 && width > 0.0
    requires i < j < |data|
    ensures Render(data, width, height).line[i].x < Render(data, width, height).line[j].x
  {
  }

  /**
   * Every percentage maps to a y inside the canvas; 0 % maps to the bottom
   * edge and 100 % to the top edge.
   */
  lemma PercentMapsIntoCanvas(value: real, height: real)
    requires 0.0 <= value <= 100.0 && height >= 0.0
    ensures 0.0 <= PlotY(value, height) <= height
    ensures PlotY(0.0, height) == height
    ensures PlotY(100.0, height) == 0.0
  {
    var t := value / 100.0;
    assert 0.0 <= t <= 1.0;
    assert 0.0 <= t * height <= height by {
      assert t * height <= 1.0 * height by { MulMono(t, 1.0, height); }
    }
  }

  lemma MulMono(a: real, b: real, c: real)
    requires a <= b && c >= 0.0
    ensures a * c <= b * c
  {
    assert b * c - a * c == (b - a) * c;
  }

  /** A higher reading is drawn strictly higher up (smaller y) on a non-empty canvas. */
  lemma HigherValueHigherPoint(v: real, w: real, height: real)
    requires v < w && height > 0.0
    ensures PlotY(w, height) < PlotY(v, height)
  {
    var gap := (w - v) / 100.0;
    assert gap > 0.0;
    MulPositive(gap, height);
    assert PlotY(v, height) - PlotY(w, height) == gap * height;
  }

  lemma MulPositive(a: real, b: real)
    requires a > 0.0 && b > 0.0
    ensures a * b > 0.0
  {
  }

  /** Every point of the line lies inside a canvas when the history holds percentages. */
  lemma LineInsideCanvas(data: seq<real>, width: real, height: real)
    requires |data| >= 2 && width >= 0.0 && height >= 0.0
    requires forall k :: 0 <= k < |data| ==> 0.0 <= data[k] <= 100.0
    ensures forall k :: 0 <= k < |data| ==>
      0.0 <= Render(data, width, height).line[k].x <= width &&
      0.0 <= Render(data, width, height).line[k].y <= height
  {
    forall k | 0 <= k < |data|
      ensures 0.0 <= PlotX(k, |data|, width) <= width
      ensures 0.0 <= PlotY(data[k], height) <= height
    {
      PercentMapsIntoCanvas(data[k], height);
      var step := width / ((|data| - 1) as real);
      assert step >= 0.0;
      MulMono(k as real, (|data| - 1) as real, step);
    }
  }

  /** A history [0, 100] on a 100 x 60 canvas runs from (0, 60) to (100, 0). */
  lemma TwoSampleExample()
    ensures Render([0.0, 100.0], 100.0, 60.0).line == [Point(0.0, 60.0), Point(100.0, 0.0)]
  {
  }
}
