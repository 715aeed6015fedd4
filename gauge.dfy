/**
 * The gauge readings of the dashboard: the raw CPU, RAM and disk formulas
 * and the clamp to the percentage range that every gauge applies before
 * its value is displayed or recorded.
 *
 * Math.random() draws and the Math.sin / Math.cos results are parameters:
 * `u` stands for a draw in [0, 1) and `wave` for a sine or cosine value
 * in [-1, 1]. Arithmetic is exact (real), an idealisation of IEEE doubles.
 */
module Gauge {

  /** True when `v` is a valid percentage. */
  predicate IsPercent(v: real) {
    0.0 <= v <= 100.0
  }

  /** True when every sample of `s` is a valid percentage. */
  predicate AllPercent(s: seq<real>) {
    forall i :: 0 <= i < |s| ==> IsPercent(s[i])
  }

  /** A Math.random() draw lies in [0, 1). */
  predicate IsDraw(u: real) { 0.0 <= u < 1.0 }

  /** A Math.sin or Math.cos value lies in [-1, 1]. */
  predicate IsWave(w: real) { -1.0 <= w <= 1.0 }

  function Min(a: real, b: real): real { if a <= b then a else b }
  function Max(a: real, b: real): real { if a >= b then a else b }

  /**
   * Math.max(0, Math.min(100, x)): the result is always a percentage; a
   * reading already in range passes through unchanged, and a reading
   * outside the range is pinned to the nearer bound.
   */
  function Clamp(x: real): (r: real)
    ensures IsPercent(r)
    ensures IsPercent(x) ==> r == x
    ensures x < 0.0 ==> r == 0.0
    ensures x > 100.0 ==> r == 100.0
  {
    Max(0.0, Min(100.0, x))
  }

  /** Math.floor(u * n) for a draw `u`: an index in [0, n) when 0 <= u < 1. */
  function FloorScaled(u: real, n: nat): (k: int)
    ensures 0.0 <= u < 1.0 && n > 0 ==> 0 <= k < n
    ensures (k as real) <= u * (n as real) < (k as real) + 1.0
  {
    ScaleBelow(u, n);
    (u * (n as real)).Floor
  }

  lemma ScaleBelow(u: real, n: nat)
    ensures 0.0 <= u < 1.0 && n > 0 ==> 0.0 <= u * (n as real) < n as real
  {
  }

  /** updateCPU: Math.floor(Math.random() * 30) + 20 + Math.sin(now / 10000) * 20. */
  function CpuReading(u: real, wave: real): (x: real)
    ensures IsDraw(u) && IsWave(wave) ==> 0.0 <= x <= 69.0
  {
    (FloorScaled(u, 30) as real) + 20.0 + wave * 20.0
  }

  /** updateRAM: Math.floor(Math.random() * 20) + 40 + Math.cos(now / 15000) * 15. */
  function RamReading(u: real, wave: real): (x: real)
    ensures IsDraw(u) && IsWave(wave) ==> 25.0 <= x <= 74.0
  {
    (FloorScaled(u, 20) as real) + 40.0 + wave * 15.0
  }

  /** updateDisk: 65 + Math.sin(now / 50000) * 5 (drift only, no noise). */
  function DiskReading(wave: real): (x: real)
    ensures IsWave(wave) ==> 60.0 <= x <= 70.0
  {
    65.0 + wave * 5.0
  }

  /**
   * For every draw and every sine value the CPU formula stays within
   * [0, 69], so its clamp never changes the reading.
   */
  lemma CpuReadingInRange(u: real, wave: real)
    requires 0.0 <= u < 1.0 && -1.0 <= wave <= 1.0
    ensures 0.0 <= CpuReading(u, wave) <= 69.0
    ensures Clamp(CpuReading(u, wave)) == CpuReading(u, wave)
  {
  }

  /** The RAM formula stays within [25, 74]: its clamp never fires either. */
  lemma RamReadingInRange(u: real, wave: real)
    requires 0.0 <= u < 1.0 && -1.0 <= wave <= 1.0
    ensures 25.0 <= RamReading(u, wave) <= 74.0
    ensures Clamp(RamReading(u, wave)) == RamReading(u, wave)
  {
  }

  /** The disk formula stays within [60, 70]. */
  lemma DiskReadingInRange(wave: real)
    requires -1.0 <= wave <= 1.0
    ensures 60.0 <= DiskReading(wave) <= 70.0
    ensures Clamp(DiskReading(wave)) == DiskReading(wave)
  {
  }
}
