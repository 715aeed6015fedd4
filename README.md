# System monitor dashboard — verified model of its core logic

The dashboard is one browser script (`script.js`) that shows synthetic
system metrics. Every second it computes a CPU, RAM and disk percentage from
random draws and a slow sine or cosine drift, clamps each to [0, 100], appends
the CPU and RAM values to 30-sample rolling histories, and redraws a line
chart of each history. It also regenerates a sorted list of five synthetic
processes and shows the time since page load. At start-up it guesses the
operating system and browser from the user-agent string.

This project models the logic inside that glue, one Dafny module per concern:

- `Gauge` (gauge.dfy): the clamp `Math.max(0, Math.min(100, x))` and the raw
  CPU, RAM and disk formulas.
- `RollingHistory` (history.dfy): the `History` class, a buffer of at most 30
  samples. `Append` pushes a sample and then shifts the oldest one out when
  the length passes 30. A ghost log of every appended value states what the
  buffer holds.
- `Uptime` (uptime.dfy): the split of elapsed milliseconds into hours,
  minutes and seconds, with JavaScript's floor division and sign-keeping `%`.
  It also models the `"{h}h {m}m {s}s"` text.
- `Chart` (chart.dfy): drawChart's early exit and its coordinate mapping.
  The polyline points and the closed area outline are modelled in exact
  real arithmetic.
- `Processes` (processes.dfy): the five-row generation loop and the sort.
  The rows go into an array, and the sort by cpu, highest first, is an
  in-place insertion sort.
- `SystemInfo` (sysinfo.dfy): `indexOf`, the ordered OS and browser tests
  (proved equal to a first-match rule table), and the 50-character
  user-agent truncation.
- `Monitor` (monitor.dfy): the `Dashboard` class holding the page-level state
  (`cpuHistory`, `ramHistory`, `startTime`, canvas widths). Its methods
  `UpdateCpu`, `UpdateRam` and `UpdateUptime` are the per-tick updates.

Random draws (`Math.random()`, each a real in [0, 1)), the values of
`Math.sin`/`Math.cos`, the clock (`Date.now()`), the canvas width and the
user-agent string are parameters.

Two points where the model follows the code rather than the design intent:

- The clamp is there in case the sine/cosine term pushes a reading outside
  [0, 100]. The code's formulas never do. CPU stays in [0, 69], RAM in
  [25, 74] and disk in [60, 70] (`Gauge.CpuReadingInRange` and its two
  siblings), so the clamp never changes a reading.
- The process rows' cpu and memory are the strings `toFixed(1)` and
  `toFixed(0)` produce. The comparator converts them back to numbers. They
  are modelled as integers (tenths of a percent, whole megabytes) obtained by
  rounding half up, which is toFixed's rule on exact values.
- The OS tests are ordered Win, Mac, Linux, Android, iOS. Real Android
  user agents contain "Linux" and iPhone ones contain "Mac OS X", so the
  Android and iOS outcomes are reached only by strings that name none of the
  earlier systems (`SystemInfo.AndroidIsLinux`, `SystemInfo.IosIsMacOs`).

## Model

| member | source | states |
|---|---|---|
| `Gauge.Clamp` | script.js:58 | the result is in [0, 100]; equals the reading when it is already in range; is 0 below the range and 100 above it (the same expression is at lines 87 and 119) |
| `Gauge.FloorScaled` | script.js:57 | `Math.floor(Math.random() * n)` is the integer part of u·n, and lies in [0, n) for a draw u in [0, 1) |
| `Gauge.CpuReading` | script.js:57 | for a draw u in [0, 1) and a sine value in [-1, 1] the raw CPU reading lies in [0, 69] |
| `Gauge.RamReading` | script.js:86 | for a draw u in [0, 1) and a cosine value in [-1, 1] the raw RAM reading lies in [25, 74] |
| `Gauge.DiskReading` | script.js:118 | for a sine value in [-1, 1] the raw disk reading lies in [60, 70] |
| `Gauge.CpuReadingInRange` | script.js:57-58 | for every draw and every sine value the CPU reading lies in [0, 69], so the clamp leaves it unchanged |
| `Gauge.RamReadingInRange` | script.js:86-87 | for every draw and every cosine value the RAM reading lies in [25, 74], so the clamp leaves it unchanged |
| `Gauge.DiskReadingInRange` | script.js:118-119 | for every sine value the disk reading lies in [60, 70], so the clamp leaves it unchanged |
| `RollingHistory.LastN` | script.js:79-80 | the window has min(length, n) elements, which are the last elements of the sequence in their original order |
| `RollingHistory.Push` | script.js:79-80 | the pushed history ends with the new value and, starting from at most 30 samples, holds at most 30 (the full shape is `PushShape`) |
| `RollingHistory.Replay` | script.js:79-80 | any run of appends from empty leaves at most 30 samples (which ones is `ReplayIsLastN`) |
| `RollingHistory.PushShape` | script.js:79-80 | a push onto a history of at most 30 keeps at most 30; below 30 it appends; at 30 it drops exactly the oldest sample, keeps the rest in order, and ends with the new value |
| `RollingHistory.PushLastN` | script.js:79-80 | pushing onto the last-30 window of a log gives the last-30 window of the extended log |
| `RollingHistory.ReplayIsLastN` | script.js:79-80 | any sequence of appends from an empty history leaves exactly the last min(n, 30) appended values, oldest first |
| `RollingHistory.ReplayLength` | script.js:79-80 | after n appends from empty the history length is min(n, 30), never above 30 |
| `RollingHistory.History.constructor` | script.js:2-3 | a history starts empty with an empty log |
| `RollingHistory.History.Append` | script.js:79-80 | the log gains the value; the buffer is the old buffer plus the value, minus the oldest sample once 30 are held; the buffer keeps showing the last 30 logged values |
| `Uptime.FloorDiv` | script.js:218-220 | `Math.floor(a / b)`: the quotient q satisfies q·b ≤ a < q·b + b |
| `Uptime.JsRem` | script.js:218-219 | JavaScript `%`: agrees with the mathematical remainder for a non-negative dividend; for a negative one it lies in (−b, 0] and a = −((−a) div b)·b + r, i.e. the quotient is truncated toward zero |
| `Uptime.Split` | script.js:217-220 | for elapsed ≥ 0 the hours are non-negative and the minutes and seconds lie in [0, 60) (recombination in `SplitBounds`) |
| `Uptime.SplitBounds` | script.js:217-220 | for elapsed ≥ 0: seconds and minutes lie in [0, 60); hours are elapsed div 3600000 with no day roll-over; h·3600000 + m·60000 + s·1000 ≤ elapsed < that sum + 1000 |
| `Uptime.ShowNat` | script.js:222 | the decimal text of a number is non-empty, all digits, and has no leading zero |
| `Uptime.ShowNatRoundTrip` | script.js:222 | reading back the decimal digits gives the number, so the text determines the value |
| `Uptime.ShowInt` | script.js:222 | the text of an integer starts with a minus sign exactly when it is negative, followed by the digits of its magnitude |
| `Uptime.Format` | script.js:222 | the template text is at least 8 characters and ends in "s"; that it can be read back is `FormatDeterminesDuration` |
| `Uptime.FormatDeterminesDuration` | script.js:222 | for non-negative fields two durations with the same text are equal: the text determines hours, minutes and seconds |
| `Uptime.UptimeText` | script.js:216-222 | for elapsed ≥ 0 the text renders hours ≥ 0, minutes and seconds in [0, 60) whose total h·3600000 + m·60000 + s·1000 lies within one second below elapsed |
| `Uptime.UptimeOneHourOneMinuteOneSecond` | script.js:217-222 | 3661000 ms splits into 1 h 1 m 1 s and shows "1h 1m 1s" |
| `Uptime.UptimeFiftyNineSeconds` | script.js:217-222 | 59000 ms shows "0h 0m 59s" |
| `Uptime.UptimeTwentyFiveHours` | script.js:217-222 | 90000000 ms shows "25h 0m 0s": hours are unbounded |
| `Uptime.UptimeBeforeStart` | script.js:217-222 | with a clock set back one second every field is negative: "-1h -1m -1s" |
| `Chart.LinePoints` | script.js:241-252 | one point per sample |
| `Chart.PlotX` | script.js:241-244 | for an index below the count and a non-negative width, x lies in [0, width] |
| `Chart.PlotY` | script.js:245 | for a value in [0, 100] and a non-negative height, y lies in [0, height] |
| `Chart.Render` | script.js:232-259 | nothing but the cleared canvas exactly when there are fewer than 2 samples; otherwise a line with one point per sample and an area outline with two more points |
| `Chart.StepSpansWidth` | script.js:241-244 | index 0 maps to x = 0 and the last index to x = width |
| `Chart.LineSpansCanvas` | script.js:241-259 | the line starts at the left edge and ends at the right edge; the area outline is the line followed by the bottom-right and bottom-left corners |
| `Chart.XStrictlyIncreasing` | script.js:241-244 | on a canvas of positive width, x strictly increases with the sample index |
| `Chart.PercentMapsIntoCanvas` | script.js:245 | every value in [0, 100] maps to a y in [0, height]; 0 maps to height (bottom) and 100 to 0 (top) |
| `Chart.HigherValueHigherPoint` | script.js:245 | a strictly higher value is drawn strictly higher (smaller y) |
| `Chart.LineInsideCanvas` | script.js:241-245 | for a history of percentages every point lies within [0, width] × [0, height] |
| `Chart.TwoSampleExample` | script.js:241-245 | the history [0, 100] on a 100 × 60 canvas maps to (0, 60) and (100, 0) |
| `Processes.RoundHalfUp` | script.js:159-160 | `toFixed` on an exact value: the integer within half a unit of x, halves going up |
| `Processes.NameIndex` | script.js:158 | the name index drawn from u in [0, 1) always lies inside the ten-name pool |
| `Processes.MakeRow` | script.js:158-161 | a row's name comes from the pool, its cpu lies in [0, 25] % (in tenths, [0, 250]) and its memory in [200, 1000] MB |
| `Processes.SwapWithPrevious` | script.js:165 | exchanges two neighbouring rows, changes nothing else, and keeps the multiset of rows |
| `Processes.SinkRow` | script.js:165 | one insertion step: the prefix up to i becomes non-increasing by cpu, the rows are a permutation, and rows beyond i are untouched |
| `Processes.SortByCpuDescending` | script.js:165 | the array ends non-increasing by cpu and is a permutation of its former contents |
| `Processes.UpdateProcesses` | script.js:155-165 | exactly 5 rows, one per draw; non-increasing by cpu; a permutation of the generated rows; each row's name, cpu and memory in range |
| `SystemInfo.IndexFrom` | script.js:186 | `indexOf`: the first index at or after `from` where the substring occurs, or −1 exactly when there is none |
| `SystemInfo.IndexOf` | script.js:186 | `indexOf(sub)`: −1, or an index where the substring occurs with no occurrence before it; −1 only when it occurs nowhere |
| `SystemInfo.Contains` | script.js:186 | `indexOf(sub) !== -1` holds exactly when the substring occurs somewhere |
| `SystemInfo.DetectOs` | script.js:185-190 | the OS is one of Windows, macOS, Linux, Android, iOS and "Unknown OS" (which test decides is `DetectOsIsFirstMatch` and `OsFirstMatchWins`) |
| `SystemInfo.DetectBrowser` | script.js:194-199 | the browser is one of Chrome, Safari, Firefox, Edge and "Unknown Browser" (which test decides is `DetectBrowserIsFirstMatch` and `BrowserRulesHold`) |
| `SystemInfo.FirstMatch` | script.js:185-199 | the outcome of the first matching rule (no earlier one matches), or the fallback when no rule matches |
| `SystemInfo.DetectOsIsFirstMatch` | script.js:185-190 | OS detection equals first-match over the table Win, Mac, Linux, Android, iOS with fallback "Unknown OS" |
| `SystemInfo.DetectBrowserIsFirstMatch` | script.js:195-199 | browser detection equals first-match over Chrome-without-Edg, Safari-without-Chrome, Firefox, Edg, with fallback "Unknown Browser" |
| `SystemInfo.OsFirstMatchWins` | script.js:185-190 | each OS outcome holds exactly when its test succeeds and all earlier tests fail |
| `SystemInfo.WindowsBeatsLinux` | script.js:185-190 | a string containing both "Win" and "Linux" is reported as Windows |
| `SystemInfo.AndroidIsLinux` | script.js:185-189 | a string containing "Linux" and then "Android" but neither "Win" nor "Mac" is reported as Linux |
| `SystemInfo.IosIsMacOs` | script.js:185-190 | a string containing "Mac" and then "iOS" but no "Win" is reported as macOS |
| `SystemInfo.BrowserRulesHold` | script.js:195-199 | each browser outcome holds exactly when its test, with its exclusion, succeeds and all earlier tests fail |
| `SystemInfo.ChromiumEdgeIsEdge` | script.js:195-199 | a string with "Chrome" and "Edg" and no "Firefox" is reported as Edge |
| `SystemInfo.TruncateUa` | script.js:208 | a string of at most 50 characters is unchanged; a longer one becomes its first 50 characters followed by "...", 53 in all |
| `SystemInfo.GetSystemInfo` | script.js:180-209 | the OS is one of the six names, the browser one of the five names, and the shown user agent has at most 53 characters |
| `Monitor.Dashboard.constructor` | script.js:2-35 | both histories start empty (lines 2-3), the start time is the clock reading (line 6), and the canvas widths are the layout widths initializeCharts copies (lines 32-35) |
| `Monitor.Dashboard.UpdateCpu` | script.js:55-82 | the shown value is the clamped CPU reading, a percentage; the CPU history receives it as one push-then-shift; the frame is the chart of the new history on a canvas 60 high; the RAM history is unchanged; all samples stay percentages |
| `Monitor.Dashboard.UpdateRam` | script.js:84-114 | the same for RAM, leaving the CPU history unchanged |
| `Monitor.Dashboard.UpdateUptime` | script.js:216-223 | once now ≥ startTime the text renders hours ≥ 0, minutes and seconds in [0, 60) whose total in milliseconds lies within one second below now − startTime |
| `Monitor.AllPercentPush` | script.js:79-80 | pushing a percentage onto a history of percentages keeps every sample a percentage |
| `Monitor.ChartStaysOnCanvas` | script.js:226-245 | for a valid dashboard, once a history holds two samples every point of its chart lies within [0, canvas width] × [0, 60], the canvas sizes set at lines 32-35 |

## Left out

- DOM work is not modelled: element lookup, `textContent` and `style` writes, building and appending the process-row elements. It is presentation only.
- The canvas calls are not modelled: `clearRect`, `stroke`, gradient creation and `fill`. They belong to the host's rendering API. Only the coordinates handed to them are modelled.
- The one-time SVG gradient setup (lines 269-293) is not modelled: it is declarative decoration.
- Timers are not modelled: `setInterval`, the load handler and the order in `updateMetrics`. Each update is a method the caller invokes once per tick.
- `Math.random`, `Math.sin`, `Math.cos` and `Date.now` are not modelled. Their results are parameters.
- Floating point is not modelled: all arithmetic is exact, so rounding error, NaN and infinities are absent.
- The gauge circumference and dash offset, `Math.round` of the shown value, the CPU temperature and clock speed, and the core count (`navigator.hardwareConcurrency || 4`) are not modelled. They are display-only or read from the host.
- The RAM and disk gigabyte figures, `toLocaleTimeString` time stamps, and `updateNetwork` (upload and download rates and their running totals) are not modelled. They are float formatting with no logic to verify.
- The screen resolution and time zone are not modelled: they are host-environment reads.
- Strings are sequences of Dafny characters; JavaScript strings are UTF-16 code units. The two agree for the ASCII substrings the detection looks for.
- Processes.SortByCpuDescending: does not state that rows with equal cpu keep their generation order. The engine's stable sort guarantees it, and insertion sort happens to keep it, but the model proves only ordering and permutation.
