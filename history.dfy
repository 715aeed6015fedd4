/**
 * The rolling sample history behind the CPU and RAM charts
 * (cpuHistory / ramHistory): every tick pushes one sample and, once the
 * history holds more than Capacity samples, shifts the oldest one out.
 */
module RollingHistory {

  /** The bound the source tests after each push. */
  const Capacity: nat := 30

  function MinNat(a: nat, b: nat): nat { if a <= b then a else b }

  /** The last min(|xs|, n) elements of `xs`, in their original order. */
  function LastN<T>(xs: seq<T>, n: nat): (r: seq<T>)
    ensures |r| == MinNat(|xs|, n)
    ensures forall i :: 0 <= i < |r| ==> r[i] == xs[|xs| - |r| + i]
  {
    xs[|xs| - MinNat(|xs|, n)..]
  }

  /** One tick on a history value: push `v`, then shift once if over Capacity. */
  function Push(h: seq<real>, v: real): (r: seq<real>)
    ensures |h| <= Capacity ==> |r| <= Capacity
    ensures |r| >= 1 && r[|r| - 1] == v
  {
    var pushed := h + [v];
    if |pushed| > Capacity then pushed[1..] else pushed
  }

  /** The history after appending `vs` one by one, starting from []. */
  function Replay(vs: seq<real>): (r: seq<real>)
    ensures |r| <= Capacity
  {
    if vs == [] then [] else Push(Replay(vs[..|vs| - 1]), vs[|vs| - 1])
  }

  /**
   * A push onto a history of at most Capacity samples keeps at most
   * Capacity: below the bound it appends, at the bound it drops exactly
   * the oldest sample and keeps the others in order.
   */
  lemma PushShape(h: seq<real>, v: real)
    requires |h| <= Capacity
    ensures |Push(h, v)| <= Capacity
    ensures |h| < Capacity ==> Push(h, v) == h + [v]
    ensures |h| == Capacity ==> Push(h, v) == h[1..] + [v]
    ensures Push(h, v)[|Push(h, v)| - 1] == v
  {
  }

  /** Pushing onto the window of the log gives the window of the extended log. */
  lemma PushLastN(xs: seq<real>, v: real)
    ensures Push(LastN(xs, Capacity), v) == LastN(xs + [v], Capacity)
  {
  }

  /**
   * Replaying any sequence of appends from an empty history leaves the
   * last min(n, Capacity) appended values, oldest first.
   */
  lemma {:induction false} ReplayIsLastN(vs: seq<real>)
    ensures Replay(vs) == LastN(vs, Capacity)
  {
    if vs != [] {
      var init := vs[..|vs| - 1];
      ReplayIsLastN(init);
      PushLastN(init, vs[|vs| - 1]);
      assert init + [vs[|vs| - 1]] == vs;
    }
  }

  /** After n appends from empty the history holds exactly min(n, Capacity) samples. */
  lemma ReplayLength(vs: seq<real>)
    ensures |Replay(vs)| == MinNat(|vs|, Capacity)
    ensures |Replay(vs)| <= Capacity
  {
  }

  /**
   * A history buffer. `samples` is the array the source pushes to and
   * shifts; the ghost `Log` records every value ever appended.
   */
  class History {
    var samples: seq<real>
    ghost var Log: seq<real>

    /** The buffer always shows the last Capacity values of the log. */
    ghost predicate Valid()
      reads this
    {
      samples == LastN(Log, Capacity)
    }

    constructor ()
      ensures Valid() && samples == [] && Log == []
    {
      samples := [];
      Log := [];
    }

    /** push(value); if (length > 30) shift(); */
    method Append(v: real)
      requires Valid()
      modifies this
      ensures Valid()
      ensures Log == old(Log) + [v]
      ensures samples == Push(old(samples), v)
      ensures |samples| <= Capacity
      ensures |old(samples)| < Capacity ==> samples == old(samples) + [v]
      ensures |old(samples)| == Capacity ==> samples == old(samples)[1..] + [v]
    {
      PushShape(samples, v);
      PushLastN(Log, v);
      var pushed := samples + [v];
      if |pushed| > Capacity {
        pushed := pushed[1..];
      }
      assert pushed == Push(samples, v);
      samples := pushed;
      Log := Log + [v];
    }
  }
}
