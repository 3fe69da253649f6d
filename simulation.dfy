/** The simulation: a fixed population of particles in a box, and one speed
    histogram per kind of particle. Each frame moves the particles, runs the
    collision sweep and recounts the histograms. */
module Simulations {
  import opened Vectors
  import opened Particles
  import opened Histograms
  import opened Sweep

  /** The settings of one kind of particle; `amount` is how many the random
      start-up creates. */
  datatype ParticleConfig = ParticleConfig(kind: nat, color: string, radius: real, mass: real, amount: nat)

  const ParticleConfigs: seq<ParticleConfig> := [
    ParticleConfig(0, "red", 20.0, 100.0, 20),
    ParticleConfig(1, "blue", 10.0, 50.0, 10),
    ParticleConfig(2, "green", 10.0, 500.0, 5),
    ParticleConfig(3, "yellow", 20.0, 500.0, 5)
  ]

  const SpeedTicks: nat := 8
  const SpeedInterval: real := 0.5
  const FrequencyTicks: nat := 6

  /** Every configured mass is positive, so any two particles may collide. */
  lemma ConfigMassesPositive()
    ensures forall t :: 0 <= t < |ParticleConfigs| ==> ParticleConfigs[t].mass > 0.0
  {
  }

  /** A body of a configured kind, with that kind's radius and mass. */
  predicate Configured(b: Body)
  {
    b.kind < |ParticleConfigs| &&
    b.radius == ParticleConfigs[b.kind].radius &&
    b.mass == ParticleConfigs[b.kind].mass
  }

  /** The number of bodies of kind `t`. */
  function CountOfKind(s: seq<Body>, t: nat): nat
  {
    if |s| == 0 then 0
    else CountOfKind(s[..|s| - 1], t) + (if s[|s| - 1].kind == t then 1 else 0)
  }

  /** The number of bodies of kind `t` whose speed falls in bin `k`. */
  function CountInBin(s: seq<Body>, t: nat, ticks: nat, interval: real, k: nat): nat
    requires ticks >= 1
  {
    if |s| == 0 then 0
    else
      var b := s[|s| - 1];
      CountInBin(s[..|s| - 1], t, ticks, interval, k) +
      (if b.kind == t && Bin(NormSq(b.velocity), ticks, interval) == k then 1 else 0)
  }

  /** The bins of the histogram of kind `t` after a reset and counting the
      bodies `s` in order. */
  function Tally(s: seq<Body>, t: nat, ticks: nat, interval: real): (r: seq<nat>)
    requires ticks >= 1
    ensures |r| == ticks
  {
    if |s| == 0 then Zeros(ticks)
    else
      var b := s[|s| - 1];
      var counted := Tally(s[..|s| - 1], t, ticks, interval);
      if b.kind == t then Increment(counted, Bin(NormSq(b.velocity), ticks, interval)) else counted
  }

  /** Each bin of the tally holds the number of bodies of its kind whose speed
      falls in the bin. */
  lemma {:induction false} TallyCountsBins(s: seq<Body>, t: nat, ticks: nat, interval: real)
    requires ticks >= 1
    ensures forall k :: 0 <= k < ticks ==> Tally(s, t, ticks, interval)[k] == CountInBin(s, t, ticks, interval, k)
  {
    if |s| > 0 {
      TallyCountsBins(s[..|s| - 1], t, ticks, interval);
    }
  }

  /** Counting one more body changes the tally of its own kind only. */
  lemma TallyNext(s: seq<Body>, k: nat, ticks: nat, interval: real)
    requires k < |s| && ticks >= 1
    ensures forall t ::
              Tally(s[..k + 1], t, ticks, interval) ==
              if s[k].kind == t then Increment(Tally(s[..k], t, ticks, interval), Bin(NormSq(s[k].velocity), ticks, interval))
              else Tally(s[..k], t, ticks, interval)
  {
    assert s[..k + 1][..k] == s[..k];
  }

  /** A histogram's total is the number of bodies of its kind. */
  lemma {:induction false} TallySum(s: seq<Body>, t: nat, ticks: nat, interval: real)
    requires ticks >= 1
    ensures Sum(Tally(s, t, ticks, interval)) == CountOfKind(s, t)
  {
    if |s| == 0 {
      SumZeros(ticks);
    } else {
      var b := s[|s| - 1];
      TallySum(s[..|s| - 1], t, ticks, interval);
      if b.kind == t {
        SumIncrement(Tally(s[..|s| - 1], t, ticks, interval), Bin(NormSq(b.velocity), ticks, interval));
      }
    }
  }

  /** Bodies of the same kinds, position by position, have the same number of each kind. */
  lemma {:induction false} CountOfKindSameKinds(s: seq<Body>, r: seq<Body>, t: nat)
    requires |r| == |s| && forall k :: 0 <= k < |s| ==> r[k].kind == s[k].kind
    ensures CountOfKind(r, t) == CountOfKind(s, t)
  {
    if |s| > 0 {
      CountOfKindSameKinds(s[..|s| - 1], r[..|r| - 1], t);
    }
  }

  /** A frame neither creates nor destroys particles of any kind. */
  lemma StepKeepsKinds(s: seq<Body>, box: Box, t: nat)
    ensures CountOfKind(Step(s, box), t) == CountOfKind(s, t)
  {
    StepMoves(s, box);
    CountOfKindSameKinds(s, Step(s, box), t);
  }

  /** The histogram settings the simulation gives the histogram of kind `t`. */
  predicate HistogramOf(h: Histogram, t: nat)
    requires t < |ParticleConfigs|
  {
    h.speedTicks == SpeedTicks && h.speedInterval == SpeedInterval &&
    h.frequencyTicks == FrequencyTicks && h.color == ParticleConfigs[t].color
  }

  /** A particle of a configured kind, with that kind's colour, radius and mass. */
  predicate FollowsConfig(p: Particle)
  {
    p.kind < |ParticleConfigs| &&
    p.color == ParticleConfigs[p.kind].color &&
    p.radius == ParticleConfigs[p.kind].radius &&
    p.mass == ParticleConfigs[p.kind].mass
  }

  class Simulation {
    const box: Box
    const particles: seq<Particle>
    var histograms: seq<Histogram>

    /** One histogram per configured kind, in configuration order; distinct
        particles and histograms; every particle of a configured kind. */
    predicate Valid()
      reads this
    {
      |histograms| == |ParticleConfigs| &&
      (forall t :: 0 <= t < |histograms| ==> HistogramOf(histograms[t], t)) &&
      (forall u, w :: 0 <= u < w < |histograms| ==> histograms[u] != histograms[w]) &&
      (forall k, m :: 0 <= k < m < |particles| ==> particles[k] != particles[m]) &&
      (forall k :: 0 <= k < |particles| ==> particles[k].mass > 0.0) &&
      (forall k :: 0 <= k < |particles| ==> FollowsConfig(particles[k]))
    }

    /** The particles' current values, in order. */
    function Bodies(): (r: seq<Body>)
      reads particles
      ensures |r| == |particles|
      ensures forall k :: 0 <= k < |particles| ==> r[k] == particles[k].State()
    {
      seq(|particles|, k requires 0 <= k < |particles| reads particles => particles[k].State())
    }

    /** A simulation of the given population in the box with top-left corner
        `corner`; its histograms are empty until the first `Update`. */
    constructor (corner: Vec, width: real, height: real, initial: seq<Body>)
      requires forall k :: 0 <= k < |initial| ==> Configured(initial[k])
      ensures Valid() && box == Box(corner, width, height) && Bodies() == initial
      ensures forall t :: 0 <= t < |histograms| ==> histograms[t].frequencies.Length == 0
    {
      box := Box(corner, width, height);
      var created: seq<Particle> := [];
      for k := 0 to |initial|
        invariant |created| == k
        invariant forall m :: 0 <= m < k ==> fresh(created[m]) && created[m].State() == initial[m]
        invariant forall m :: 0 <= m < k ==> created[m].color == ParticleConfigs[initial[m].kind].color
        invariant forall m, m' :: 0 <= m < m' < k ==> created[m] != created[m']
      {
        var b := initial[k];
        var p := new Particle(b.kind, b.position, b.velocity, ParticleConfigs[b.kind].color, b.radius, b.mass);
        created := created + [p];
      }
      particles := created;
      histograms := [];
      new;
      ConfigMassesPositive();
      InitializeHistograms();
    }

    /** Adds one histogram per configured kind, in configuration order. */
    method InitializeHistograms()
      modifies this
      ensures |histograms| == |old(histograms)| + |ParticleConfigs|
      ensures histograms[..|old(histograms)|] == old(histograms)
      ensures forall u :: |old(histograms)| <= u < |histograms| ==>
        fresh(histograms[u]) && HistogramOf(histograms[u], u - |old(histograms)|) &&
        histograms[u].frequencies.Length == 0
      ensures forall u, w :: |old(histograms)| <= u < w < |histograms| ==> histograms[u] != histograms[w]
    {
      var before := |histograms|;
      for t := 0 to |ParticleConfigs|
        invariant |histograms| == before + t
        invariant histograms[..before] == old(histograms)
        invariant forall u :: before <= u < |histograms| ==>
          fresh(histograms[u]) && HistogramOf(histograms[u], u - before) &&
          histograms[u].frequencies.Length == 0
        invariant forall u, w :: before <= u < w < |histograms| ==> histograms[u] != histograms[w]
      {
        var h := new Histogram(SpeedTicks, SpeedInterval, FrequencyTicks, ParticleConfigs[t].color);
        histograms := histograms + [h];
      }
    }

    /** Moves every particle one frame. */
    method ProcessParticleMovement()
      requires Valid()
      modifies particles
      ensures Bodies() == MoveAll(old(Bodies()))
    {
      for k := 0 to |particles|
        invariant forall m :: 0 <= m < k ==> particles[m].State() == Moved(old(particles[m].State()))
        invariant forall m :: k <= m < |particles| ==> particles[m].State() == old(particles[m].State())
      {
        particles[k].ProcessMovement();
      }
    }

    /** Checks every particle against the walls and every later particle,
        colliding the pairs that collide. */
    method ProcessParticleCollision()
      requires Valid()
      modifies particles
      ensures Bodies() == Swept(old(Bodies()), box)
    {
      var n := |particles|;
      SweepIsSwept(Bodies(), box);
      ghost var target := SweepFrom(0, Bodies(), box);
      var i := 0;
      while i < n
        invariant i <= n
        invariant SweepFrom(i, Bodies(), box) == target
      {
        ghost var before := Bodies();
        ProcessWallCollisions(i);
        ProcessPairsOf(i);
        SweepFromNext(i, before, Bodies(), box);
        i := i + 1;
      }
    }

    /** Particle `i` visits every later particle in turn. */
    method ProcessPairsOf(i: nat)
      requires Valid() && i < |particles|
      modifies particles
      ensures Bodies() == SweepPairs(i, i + 1, old(Bodies()), box)
    {
      var n := |particles|;
      ghost var target := SweepPairs(i, i + 1, Bodies(), box);
      var j := i + 1;
      while j < n
        invariant i < j <= n
        invariant SweepPairs(i, j, Bodies(), box) == target
      {
        ghost var before := Bodies();
        ProcessPair(i, j);
        SweepPairsNext(i, j, before, Bodies(), box);
        j := j + 1;
      }
    }

    /** The four wall checks the sweep makes on particle `i`: left, right,
        top, then bottom. */
    method ProcessWallCollisions(i: nat)
      requires Valid() && i < |particles|
      modifies particles[i]
      ensures Bodies() == Visited(WallVisit(i), old(Bodies()), box)
    {
      var p := particles[i];
      p.ProcessXWallCollision(box.corner.x);
      p.ProcessXWallCollision(box.corner.x + box.width);
      p.ProcessYWallCollision(box.corner.y);
      p.ProcessYWallCollision(box.corner.y + box.height);
    }

    /** The sweep's visit of the pair `i`, `j`: they collide if they touch and
        approach each other. */
    method ProcessPair(i: nat, j: nat)
      requires Valid() && i < j < |particles|
      modifies particles[i], particles[j]
      ensures Bodies() == Visited(PairVisit(i, j), old(Bodies()), box)
    {
      if CheckCollision(particles[i].State(), particles[j].State()) {
        CheckCollisionNeedsRelativeMotion(particles[i].State(), particles[j].State());
        CollideParticles(particles[i], particles[j]);
      }
    }

    /** Recounts every histogram from the particles' current speeds. */
    method UpdateHistogram()
      requires Valid()
      modifies histograms
      ensures forall t :: 0 <= t < |histograms| ==>
        histograms[t].frequencies[..] == Tally(Bodies(), t, SpeedTicks, SpeedInterval)
    {
      ResetCounts();
      CountParticles();
    }

    /** The second half of the recount: every particle counted, in order, in
        the histogram of its kind. */
    method CountParticles()
      requires Valid()
      requires forall t :: 0 <= t < |histograms| ==> histograms[t].frequencies[..] == Zeros(SpeedTicks)
      requires forall u, w :: 0 <= u < |histograms| && 0 <= w < |histograms| && u != w ==>
        histograms[u].frequencies != histograms[w].frequencies
      modifies set t | 0 <= t < |histograms| :: histograms[t].frequencies
      ensures forall t :: 0 <= t < |histograms| ==>
        histograms[t].frequencies[..] == Tally(Bodies(), t, SpeedTicks, SpeedInterval)
    {
      ghost var bodies := Bodies();
      for k := 0 to |particles|
        invariant Bodies() == bodies
        invariant forall t :: 0 <= t < |histograms| ==>
          histograms[t].frequencies[..] == Tally(bodies[..k], t, SpeedTicks, SpeedInterval)
      {
        TallyNext(bodies, k, SpeedTicks, SpeedInterval);
        assert bodies[k].kind == particles[k].kind && bodies[k].velocity == particles[k].velocity;
        CountInHistogramOfKind(particles[k]);
      }
      assert bodies[..|particles|] == bodies;
    }

    /** Counts `p` in the histogram of its kind, leaving the others as they are. */
    method CountInHistogramOfKind(p: Particle)
      requires p.kind < |histograms|
      requires forall t :: 0 <= t < |histograms| ==> histograms[t].frequencies.Length == SpeedTicks
      requires forall u, w :: 0 <= u < |histograms| && 0 <= w < |histograms| && u != w ==>
        histograms[u].frequencies != histograms[w].frequencies
      requires Valid()
      modifies histograms[p.kind].frequencies
      ensures forall t :: 0 <= t < |histograms| ==>
        histograms[t].frequencies[..] ==
        if t == p.kind then Increment(old(histograms[t].frequencies[..]), Bin(NormSq(p.velocity), SpeedTicks, SpeedInterval))
        else old(histograms[t].frequencies[..])
    {
      histograms[p.kind].CountParticle(p);
    }

    /** The first half of the recount: every histogram's bins emptied, each
        in a fresh array of its own. */
    method ResetCounts()
      requires Valid()
      modifies histograms
      ensures forall t :: 0 <= t < |histograms| ==>
        fresh(histograms[t].frequencies) && histograms[t].frequencies[..] == Zeros(SpeedTicks)
      ensures forall u, w :: 0 <= u < |histograms| && 0 <= w < |histograms| && u != w ==>
        histograms[u].frequencies != histograms[w].frequencies
    {
      for t := 0 to |histograms|
        invariant forall u :: 0 <= u < t ==>
          fresh(histograms[u].frequencies) && histograms[u].frequencies[..] == Zeros(SpeedTicks)
        invariant forall u, w :: 0 <= u < t && 0 <= w < t && u != w ==>
          histograms[u].frequencies != histograms[w].frequencies
      {
        histograms[t].ResetCount();
      }
    }

    /** One frame: motion, the collision sweep, then the histogram recount. */
    method Update()
      requires Valid()
      modifies particles, histograms
      ensures Bodies() == Step(old(Bodies()), box)
      ensures forall t :: 0 <= t < |histograms| ==>
        histograms[t].frequencies[..] == Tally(Bodies(), t, SpeedTicks, SpeedInterval)
    {
      ProcessParticleMovement();
      ProcessParticleCollision();
      UpdateHistogram();
    }
  }
}
