/** The speed histogram of one kind of particle: `speedTicks` bins of width
    `speedInterval`, counting how many particles move at speeds in each bin. */
module Histograms {
  import opened Vectors
  import opened Particles

  /** A body whose squared speed is `speedSq` moves faster than `t`; with `speed`
      its non-negative square root this is `speed > t` (see `FasterThanIsSpeed`). */
  predicate FasterThan(speedSq: real, t: real)
  {
    t < 0.0 || speedSq > Sq(t)
  }

  lemma FasterThanIsSpeed(speedSq: real, t: real, speed: real)
    requires speed >= 0.0 && Sq(speed) == speedSq
    ensures FasterThan(speedSq, t) <==> speed > t
  {
    if t >= 0.0 {
      SqCompare(t, speed);
    }
  }

  /** Moving faster than a threshold means moving faster than every lower one,
      and a greater speed is faster than every threshold a smaller one is. */
  lemma FasterThanMonotone(speedSq: real, speedSq': real, t: real, t': real)
    requires t' <= t && speedSq <= speedSq' && FasterThan(speedSq, t)
    ensures FasterThan(speedSq', t')
  {
    if t' >= 0.0 {
      SqOrdered(t', t);
    }
  }

  /** The upper edge of bin `bin`, the least speed of the bin after it. */
  function UpperEdge(bin: nat, interval: real): real
  {
    (bin + 1) as real * interval
  }

  lemma UpperEdgeMonotone(i: nat, j: nat, interval: real)
    requires i <= j && interval >= 0.0
    ensures UpperEdge(i, interval) <= UpperEdge(j, interval)
  {
    var gap := (j - i) as real;
    assert UpperEdge(j, interval) == UpperEdge(i, interval) + gap * interval;
  }

  /** The bin the counting loop settles on when it starts from bin `bin`: it
      moves up while the speed exceeds the current bin's upper edge and a
      higher bin exists. */
  function BinFrom(speedSq: real, ticks: nat, interval: real, bin: nat): (r: nat)
    requires bin < ticks
    decreases ticks - bin
    ensures bin <= r < ticks
    ensures forall i :: bin <= i < r ==> FasterThan(speedSq, UpperEdge(i, interval))
    ensures r < ticks - 1 ==> !FasterThan(speedSq, UpperEdge(r, interval))
  {
    if FasterThan(speedSq, UpperEdge(bin, interval)) && bin < ticks - 1 then
      BinFrom(speedSq, ticks, interval, bin + 1)
    else
      bin
  }

  /** The bin of a body with squared speed `speedSq`. */
  function Bin(speedSq: real, ticks: nat, interval: real): (r: nat)
    requires ticks >= 1
    ensures r < ticks
  {
    BinFrom(speedSq, ticks, interval, 0)
  }

  /** The bin is the first whose upper edge the speed does not exceed, or the
      last bin when it exceeds them all; no other bin has that property. */
  lemma BinIsFirstNotExceeded(speedSq: real, ticks: nat, interval: real, k: nat)
    requires ticks >= 1 && k < ticks
    ensures k == Bin(speedSq, ticks, interval) <==>
      (forall i :: 0 <= i < k ==> FasterThan(speedSq, UpperEdge(i, interval))) &&
      (k < ticks - 1 ==> !FasterThan(speedSq, UpperEdge(k, interval)))
  {
    if (forall i :: 0 <= i < k ==> FasterThan(speedSq, UpperEdge(i, interval))) &&
       (k < ticks - 1 ==> !FasterThan(speedSq, UpperEdge(k, interval)))
    {
      BinFromFirstNotExceeded(speedSq, ticks, interval, 0, k);
    }
  }

  lemma {:induction false} BinFromFirstNotExceeded(speedSq: real, ticks: nat, interval: real, bin: nat, k: nat)
    requires bin <= k < ticks
    requires forall i :: bin <= i < k ==> FasterThan(speedSq, UpperEdge(i, interval))
    requires k < ticks - 1 ==> !FasterThan(speedSq, UpperEdge(k, interval))
    ensures BinFrom(speedSq, ticks, interval, bin) == k
    decreases k - bin
  {
    if bin < k {
      assert FasterThan(speedSq, UpperEdge(bin, interval));
      BinFromFirstNotExceeded(speedSq, ticks, interval, bin + 1, k);
    }
  }

  /** A speed lies in its bin: above the bin's lower edge unless it is the
      first bin, and at most its upper edge unless it is the last bin. A speed
      exactly on an edge therefore belongs to the lower bin. */
  lemma BinBrackets(speedSq: real, ticks: nat, interval: real)
    requires ticks >= 1
    ensures var r := Bin(speedSq, ticks, interval);
      (r == 0 || FasterThan(speedSq, r as real * interval)) &&
      (r == ticks - 1 || !FasterThan(speedSq, (r + 1) as real * interval))
  {
    var r := Bin(speedSq, ticks, interval);
    if r > 0 {
      assert FasterThan(speedSq, UpperEdge(r - 1, interval));
    }
  }

  /** A speed on the upper edge of bin `k` is counted in bin `k`. */
  lemma BinOfEdge(ticks: nat, interval: real, k: nat, speed: real)
    requires k < ticks && interval > 0.0
    requires speed == (k + 1) as real * interval
    ensures Bin(Sq(speed), ticks, interval) == k
  {
    forall i | 0 <= i < k
      ensures FasterThan(Sq(speed), UpperEdge(i, interval))
    {
      var gap := (k - i) as real;
      assert speed == UpperEdge(i, interval) + gap * interval;
      SqStrictlyOrdered(UpperEdge(i, interval), speed);
    }
    BinIsFirstNotExceeded(Sq(speed), ticks, interval, k);
  }

  /** A particle at rest is counted in the first bin. */
  lemma BinOfRest(ticks: nat, interval: real)
    requires ticks >= 1 && interval > 0.0
    ensures Bin(0.0, ticks, interval) == 0
  {
    SqPositive(interval);
  }

  /** Every speed above the lower edge of the last bin is counted in the last bin. */
  lemma BinOfFast(speedSq: real, ticks: nat, interval: real)
    requires ticks >= 1
    requires FasterThan(speedSq, (ticks - 1) as real * interval)
    ensures Bin(speedSq, ticks, interval) == ticks - 1
  {
    if ticks >= 2 && interval >= 0.0 {
      BinFromOfFast(speedSq, ticks, interval, 0);
    } else if ticks >= 2 {
      forall i | 0 <= i < ticks - 1
        ensures FasterThan(speedSq, UpperEdge(i, interval))
      {
        var steps := (i + 1) as real;
        assert steps > 0.0;
        assert UpperEdge(i, interval) == steps * interval;
      }
      BinIsFirstNotExceeded(speedSq, ticks, interval, ticks - 1);
    }
  }

  lemma {:induction false} BinFromOfFast(speedSq: real, ticks: nat, interval: real, bin: nat)
    requires bin < ticks && ticks >= 2 && interval >= 0.0
    requires FasterThan(speedSq, UpperEdge(ticks - 2, interval))
    ensures BinFrom(speedSq, ticks, interval, bin) == ticks - 1
    decreases ticks - bin
  {
    if bin < ticks - 1 {
      UpperEdgeMonotone(bin, ticks - 2, interval);
      FasterThanMonotone(speedSq, speedSq, UpperEdge(ticks - 2, interval), UpperEdge(bin, interval));
      BinFromOfFast(speedSq, ticks, interval, bin + 1);
    }
  }

  /** A greater speed is never counted in a lower bin. */
  lemma BinMonotone(speedSq: real, speedSq': real, ticks: nat, interval: real)
    requires ticks >= 1 && speedSq <= speedSq'
    ensures Bin(speedSq, ticks, interval) <= Bin(speedSq', ticks, interval)
  {
    BinFromMonotone(speedSq, speedSq', ticks, interval, 0);
  }

  lemma {:induction false} BinFromMonotone(speedSq: real, speedSq': real, ticks: nat, interval: real, bin: nat)
    requires bin < ticks && speedSq <= speedSq'
    ensures BinFrom(speedSq, ticks, interval, bin) <= BinFrom(speedSq', ticks, interval, bin)
    decreases ticks - bin
  {
    var t := UpperEdge(bin, interval);
    if FasterThan(speedSq, t) && bin < ticks - 1 {
      FasterThanMonotone(speedSq, speedSq', t, t);
      BinFromMonotone(speedSq, speedSq', ticks, interval, bin + 1);
    }
  }

  /** The sum of a sequence of counts. */
  function Sum(s: seq<nat>): nat
  {
    if |s| == 0 then 0 else Sum(s[..|s| - 1]) + s[|s| - 1]
  }

  /** `n` empty bins. */
  function Zeros(n: nat): (r: seq<nat>)
    ensures |r| == n && forall i :: 0 <= i < n ==> r[i] == 0
  {
    seq(n, _ => 0)
  }

  /** The counts with one more particle in bin `bin`. */
  function Increment(s: seq<nat>, bin: nat): (r: seq<nat>)
    requires bin < |s|
    ensures |r| == |s| && r[bin] == s[bin] + 1
    ensures forall i :: 0 <= i < |s| && i != bin ==> r[i] == s[i]
  {
    s[bin := s[bin] + 1]
  }

  lemma {:induction false} SumZeros(n: nat)
    ensures Sum(Zeros(n)) == 0
  {
    if n > 0 {
      assert Zeros(n)[..n - 1] == Zeros(n - 1);
      SumZeros(n - 1);
    }
  }

  /** Counting one more particle adds one to the total. */
  lemma {:induction false} SumIncrement(s: seq<nat>, bin: nat)
    requires bin < |s|
    ensures Sum(Increment(s, bin)) == Sum(s) + 1
  {
    var last := |s| - 1;
    if bin == last {
      assert Increment(s, bin)[..last] == s[..last];
    } else {
      assert Increment(s, bin)[..last] == Increment(s[..last], bin);
      SumIncrement(s[..last], bin);
    }
  }

  class Histogram {
    const speedTicks: nat
    const speedInterval: real
    const frequencyTicks: nat
    /** The display colour, carried along but never inspected. */
    const color: string
    /** The number of particles counted in each bin. */
    var frequencies: array<nat>

    /** A histogram whose bins are not allocated until the first `ResetCount`. */
    constructor (speedTicks: nat, speedInterval: real, frequencyTicks: nat, color: string)
      ensures this.speedTicks == speedTicks && this.speedInterval == speedInterval
      ensures this.frequencyTicks == frequencyTicks && this.color == color
      ensures fresh(frequencies) && frequencies.Length == 0
    {
      this.speedTicks := speedTicks;
      this.speedInterval := speedInterval;
      this.frequencyTicks := frequencyTicks;
      this.color := color;
      frequencies := new nat[0];
    }

    /** Empties every bin. */
    method ResetCount()
      modifies this
      ensures fresh(frequencies) && frequencies[..] == Zeros(speedTicks)
    {
      frequencies := new nat[speedTicks](_ => 0);
    }

    /** Counts `p` in the bin of its speed. */
    method CountParticle(p: Particle)
      requires speedTicks >= 1 && frequencies.Length == speedTicks
      modifies frequencies
      ensures frequencies[..] == Increment(old(frequencies[..]), Bin(NormSq(p.velocity), speedTicks, speedInterval))
    {
      var speedSq := NormSq(p.velocity);
      var bin := 0;
      while FasterThan(speedSq, UpperEdge(bin, speedInterval)) && bin < speedTicks - 1
        invariant bin < speedTicks
        invariant BinFrom(speedSq, speedTicks, speedInterval, bin) == Bin(speedSq, speedTicks, speedInterval)
        decreases speedTicks - bin
      {
        bin := bin + 1;
      }
      frequencies[bin] := frequencies[bin] + 1;
    }

    /** The total number of particles counted, the sum the drawing code
        computes before it scales the bars. */
    method TotalFrequency() returns (total: nat)
      ensures total == Sum(frequencies[..])
    {
      total := 0;
      var i := 0;
      while i < frequencies.Length
        invariant 0 <= i <= frequencies.Length
        invariant total == Sum(frequencies[..i])
      {
        assert frequencies[..i + 1][..i] == frequencies[..i];
        total := total + frequencies[i];
        i := i + 1;
      }
      assert frequencies[..i] == frequencies[..];
    }
  }
}
