/**
 * The page-level state of the dashboard script and the per-tick updates
 * that change it: the CPU and RAM histories, the start time, and the two
 * chart canvases' sizes. Each update takes the random draw, the sine or
 * cosine value and the clock reading it needs as parameters.
 */
module Monitor {
  import opened Gauge
  import opened RollingHistory
  import Chart
  import Uptime

  /** The fixed canvas height set by initializeCharts. */
  const ChartHeight: nat := 60

  class Dashboard {
    const cpuHistory: History
    const ramHistory: History
    /** The page-load time in milliseconds (startTime = Date.now()). */
    const startTime: int
    /** The chart canvases' widths, copied from their layout width. */
    const cpuWidth: nat
    const ramWidth: nat

    /**
     * The two histories are distinct buffers, each showing the last
     * Capacity appended values, and every recorded sample is a percentage.
     */
    ghost predicate Valid()
      reads this, cpuHistory, ramHistory
    {
      && cpuHistory != ramHistory
      && cpuHistory.Valid() && ramHistory.Valid()
      && AllPercent(cpuHistory.samples) && AllPercent(ramHistory.samples)
    }

    /** Page load: empty histories, the clock reading and the canvas widths. */
    constructor (now: int, cpuCanvasWidth: nat, ramCanvasWidth: nat)
      ensures Valid()
      ensures fresh(cpuHistory) && fresh(ramHistory)
      ensures cpuHistory.samples == [] && ramHistory.samples == []
      ensures startTime == now && cpuWidth == cpuCanvasWidth && ramWidth == ramCanvasWidth
    {
      cpuHistory := new History();
      ramHistory := new History();
      startTime := now;
      cpuWidth := cpuCanvasWidth;
      ramWidth := ramCanvasWidth;
    }

    /**
     * updateCPU: clamp the raw reading, record it in the CPU history and
     * redraw the CPU chart from the updated history. The RAM history is
     * not touched.
     */
    method UpdateCpu(u: real, wave: real) returns (shown: real, frame: Chart.Frame)
      requires Valid()
      modifies cpuHistory
      ensures Valid()
      ensures shown == Clamp(CpuReading(u, wave)) && IsPercent(shown)
      ensures cpuHistory.samples == Push(old(cpuHistory.samples), shown)
      ensures cpuHistory.Log == old(cpuHistory.Log) + [shown]
      ensures frame == Chart.Render(cpuHistory.samples, cpuWidth as real, ChartHeight as real)
      ensures unchanged(ramHistory)
    {
      shown := Clamp(CpuReading(u, wave));
      cpuHistory.Append(shown);
      AllPercentPush(old(cpuHistory.samples), shown);
      frame := Chart.Render(cpuHistory.samples, cpuWidth as real, ChartHeight as real);
    }

    /** updateRAM: the same steps on the RAM history and chart. */
    method UpdateRam(u: real, wave: real) returns (shown: real, frame: Chart.Frame)
      requires Valid()
      modifies ramHistory
      ensures Valid()
      ensures shown == Clamp(RamReading(u, wave)) && IsPercent(shown)
      ensures ramHistory.samples == Push(old(ramHistory.samples), shown)
      ensures ramHistory.Log == old(ramHistory.Log) + [shown]
      ensures frame == Chart.Render(ramHistory.samples, ramWidth as real, ChartHeight as real)
      ensures unchanged(cpuHistory)
    {
      shown := Clamp(RamReading(u, wave));
      ramHistory.Append(shown);
      AllPercentPush(old(ramHistory.samples), shown);
      frame := Chart.Render(ramHistory.samples, ramWidth as real, ChartHeight as real);
    }

    /**
     * updateUptime: the text for the time elapsed since page load. From
     * page load on, it shows whole hours, minutes below 60 and seconds
     * below 60 that add up to the elapsed time rounded down to a second.
     */
    method UpdateUptime(now: int) returns (text: string)
      ensures text == Uptime.UptimeText(now - startTime)
      ensures now >= startTime ==> exists d: Uptime.Duration ::
        && text == Uptime.Format(d)
        && d.hours >= 0 && 0 <= d.minutes < 60 && 0 <= d.seconds < 60
        && d.hours * Uptime.MillisPerHour + d.minutes * Uptime.MillisPerMinute
           + d.seconds * Uptime.MillisPerSecond <= now - startTime
        && now - startTime < d.hours * Uptime.MillisPerHour + d.minutes * Uptime.MillisPerMinute
           + d.seconds * Uptime.MillisPerSecond + Uptime.MillisPerSecond
    {
      text := Uptime.UptimeText(now - startTime);
    }
  }

  /** Pushing a percentage onto a history of percentages keeps only percentages. */
  lemma AllPercentPush(h: seq<real>, v: real)
    requires AllPercent(h) && IsPercent(v)
    ensures AllPercent(Push(h, v))
  {
  }

  /**
   * Every chart a valid dashboard draws stays inside its canvas: once a
   * history holds two samples, each point of its line lies between the
   * left and right edges of that chart's canvas and between its top and
   * bottom.
   */
  lemma ChartStaysOnCanvas(d: Dashboard)
    requires d.Valid()
    ensures var h := d.cpuHistory.samples;
      var f := Chart.Render(h, d.cpuWidth as real, ChartHeight as real);
      |h| >= 2 ==> forall k :: 0 <= k < |h| ==>
        0.0 <= f.line[k].x <= d.cpuWidth as real && 0.0 <= f.line[k].y <= ChartHeight as real
    ensures var h := d.ramHistory.samples;
      var f := Chart.Render(h, d.ramWidth as real, ChartHeight as real);
      |h| >= 2 ==> forall k :: 0 <= k < |h| ==>
        0.0 <= f.line[k].x <= d.ramWidth as real && 0.0 <= f.line[k].y <= ChartHeight as real
  {
    if |d.cpuHistory.samples| >= 2 {
      Chart.LineInsideCanvas(d.cpuHistory.samples, d.cpuWidth as real, ChartHeight as real);
    }
    if |d.ramHistory.samples| >= 2 {
      Chart.LineInsideCanvas(d.ramHistory.samples, d.ramWidth as real, ChartHeight as real);
    }
  }
}
