/** The collision sweep of one simulation frame, as a sequence of visits.
    Particle `i` is first checked against the four walls, then against every
    later particle `j`; the next particle follows. Each visit sees the bodies
    as the visits before it have left them. */
module Sweep {
  import opened Vectors
  import opened Particles

  /** The container: top-left corner, width and height. */
  datatype Box = Box(corner: Vec, width: real, height: real)

  datatype Visit = WallVisit(i: nat) | PairVisit(i: nat, j: nat)

  predicate ValidVisit(v: Visit, n: nat)
  {
    match v
    case WallVisit(i) => i < n
    case PairVisit(i, j) => i < j < n
  }

  /** The visits of particle `i` to particles `j`, `j + 1`, ..., `n - 1`. */
  function PairVisits(i: nat, j: nat, n: nat): seq<Visit>
    decreases n - j
  {
    if j < n then [PairVisit(i, j)] + PairVisits(i, j + 1, n) else []
  }

  /** The visits of the sweep from particle `i` on. */
  function VisitsFrom(i: nat, n: nat): seq<Visit>
    decreases n - i
  {
    if i < n then [WallVisit(i)] + PairVisits(i, i + 1, n) + VisitsFrom(i + 1, n) else []
  }

  /** The visits of the whole sweep over `n` particles, in order. */
  function Schedule(n: nat): seq<Visit>
  {
    VisitsFrom(0, n)
  }

  /** The position of a visit in the sweep order: particle `i`'s wall visit
      comes before its pair visits, which are ordered by the other particle. */
  function Rank(v: Visit): (nat, nat)
  {
    match v
    case WallVisit(i) => (i, i)
    case PairVisit(i, j) => (i, j)
  }

  predicate Before(u: Visit, v: Visit)
  {
    Rank(u).0 < Rank(v).0 || (Rank(u).0 == Rank(v).0 && Rank(u).1 < Rank(v).1)
  }

  predicate Increasing(vs: seq<Visit>)
  {
    forall a, b :: 0 <= a < b < |vs| ==> Before(vs[a], vs[b])
  }

  /** Bodies `r` are bodies `s` with, at most, other velocities. */
  predicate Unmoved(s: seq<Body>, r: seq<Body>)
  {
    |r| == |s| && forall k :: 0 <= k < |s| ==> r[k] == s[k].(velocity := r[k].velocity)
  }

  /** A body after the four wall checks, in the order the sweep makes them. */
  function WallsChecked(b: Body, box: Box): Body
  {
    var left := XWallBounced(b, box.corner.x);
    var right := XWallBounced(left, box.corner.x + box.width);
    var top := YWallBounced(right, box.corner.y);
    YWallBounced(top, box.corner.y + box.height)
  }

  lemma WallsCheckedKeepsBody(b: Body, box: Box)
    ensures WallsChecked(b, box) == b.(velocity := WallsChecked(b, box).velocity)
    ensures NormSq(WallsChecked(b, box).velocity) == NormSq(b.velocity)
  {
    var left := XWallBounced(b, box.corner.x);
    var right := XWallBounced(left, box.corner.x + box.width);
    var top := YWallBounced(right, box.corner.y);
    XWallKeepsSpeed(b, box.corner.x);
    XWallKeepsSpeed(left, box.corner.x + box.width);
    YWallKeepsSpeed(right, box.corner.y);
    YWallKeepsSpeed(top, box.corner.y + box.height);
  }

  /** The bodies after one visit. A pair collides when the two touch and
      approach each other; a pair whose masses sum to zero, for which the
      collision formula would divide by zero, is left as it is. */
  function Visited(v: Visit, s: seq<Body>, box: Box): (r: seq<Body>)
    ensures |r| == |s|
  {
    if !ValidVisit(v, |s|) then s
    else match v
    case WallVisit(i) =>
      s[i := WallsChecked(s[i], box)]
    case PairVisit(i, j) =>
      if CheckCollision(s[i], s[j]) && s[i].mass + s[j].mass != 0.0 then
        CheckCollisionNeedsRelativeMotion(s[i], s[j]);
        var (a, b) := Collide(s[i], s[j]);
        s[i := a][j := b]
      else
        s
  }

  /** A visit changes the velocities of the bodies it visits, and nothing else. */
  lemma VisitedChangesVelocitiesOnly(v: Visit, s: seq<Body>, box: Box)
    ensures Unmoved(s, Visited(v, s, box))
    ensures forall k :: 0 <= k < |s| && k != v.i && (v.PairVisit? ==> k != v.j) ==> Visited(v, s, box)[k] == s[k]
  {
    if ValidVisit(v, |s|) {
      match v
      case WallVisit(i) =>
        WallsCheckedKeepsBody(s[i], box);
        assert Visited(v, s, box) == s[i := WallsChecked(s[i], box)];
      case PairVisit(i, j) =>
        if CheckCollision(s[i], s[j]) && s[i].mass + s[j].mass != 0.0 {
          CollideKeepsBodies(s[i], s[j]);
          assert Visited(v, s, box) == s[i := Collide(s[i], s[j]).0][j := Collide(s[i], s[j]).1];
        } else {
          assert Visited(v, s, box) == s;
        }
    } else {
      assert Visited(v, s, box) == s;
    }
  }

  /** The bodies after the visits `vs`, made one after the other. */
  function Run(vs: seq<Visit>, s: seq<Body>, box: Box): (r: seq<Body>)
    ensures |r| == |s|
  {
    if |vs| == 0 then s else Run(vs[1..], Visited(vs[0], s, box), box)
  }

  /** Visits change velocities only. */
  lemma {:induction false} RunChangesVelocitiesOnly(vs: seq<Visit>, s: seq<Body>, box: Box)
    ensures Unmoved(s, Run(vs, s, box))
  {
    if |vs| > 0 {
      var next := Visited(vs[0], s, box);
      VisitedChangesVelocitiesOnly(vs[0], s, box);
      RunChangesVelocitiesOnly(vs[1..], next, box);
    }
  }

  /** Running two lists of visits one after the other is running their concatenation. */
  lemma {:induction false} RunAppend(us: seq<Visit>, vs: seq<Visit>, s: seq<Body>, box: Box)
    ensures Run(us + vs, s, box) == Run(vs, Run(us, s, box), box)
  {
    if |us| > 0 {
      assert (us + vs)[1..] == us[1..] + vs;
      RunAppend(us[1..], vs, Visited(us[0], s, box), box);
    } else {
      assert us + vs == vs;
    }
  }

  lemma {:induction false} PairVisitsRange(i: nat, j: nat, n: nat)
    ensures forall v :: v in PairVisits(i, j, n) <==> v.PairVisit? && v.i == i && j <= v.j < n
    ensures |PairVisits(i, j, n)| == if j < n then n - j else 0
    decreases n - j
  {
    if j < n {
      PairVisitsRange(i, j + 1, n);
    }
  }

  lemma {:induction false} PairVisitsIncreasing(i: nat, j: nat, n: nat)
    ensures Increasing(PairVisits(i, j, n))
    decreases n - j
  {
    if j < n {
      PairVisitsIncreasing(i, j + 1, n);
      PairVisitsRange(i, j + 1, n);
      IncreasingAppend([PairVisit(i, j)], PairVisits(i, j + 1, n));
    }
  }

  /** The sweep from particle `i` on visits exactly the valid visits whose
      first particle is `i` or later. */
  lemma {:induction false} VisitsFromRange(i: nat, n: nat)
    ensures forall v :: v in VisitsFrom(i, n) <==> ValidVisit(v, n) && v.i >= i
    decreases n - i
  {
    if i < n {
      VisitsFromRange(i + 1, n);
      PairVisitsRange(i, i + 1, n);
    }
  }

  lemma {:induction false} VisitsFromIncreasing(i: nat, n: nat)
    ensures Increasing(VisitsFrom(i, n))
    decreases n - i
  {
    if i < n {
      VisitsFromIncreasing(i + 1, n);
      VisitsFromRange(i + 1, n);
      PairVisitsIncreasing(i, i + 1, n);
      PairVisitsRange(i, i + 1, n);
      IncreasingAppend([WallVisit(i)], PairVisits(i, i + 1, n));
      IncreasingAppend([WallVisit(i)] + PairVisits(i, i + 1, n), VisitsFrom(i + 1, n));
    }
  }

  lemma IncreasingAppend(us: seq<Visit>, vs: seq<Visit>)
    requires Increasing(us) && Increasing(vs)
    requires forall u, v :: u in us && v in vs ==> Before(u, v)
    ensures Increasing(us + vs)
  {
    forall a, b | 0 <= a < b < |us + vs|
      ensures Before((us + vs)[a], (us + vs)[b])
    {
      if b < |us| {
      } else if a < |us| {
        assert us[a] in us && vs[b - |us|] in vs;
      } else {
      }
    }
  }

  /** The sweep visits every wall check and every unordered pair, and nothing else. */
  lemma ScheduleCoversAll(n: nat)
    ensures forall v :: v in Schedule(n) <==> ValidVisit(v, n)
  {
    VisitsFromRange(0, n);
  }

  /** The sweep visits in increasing rank, so it makes every visit exactly once,
      checks particle `i` against the walls after every pair `(k, i)` and before
      every pair `(i, j)`, and visits the pairs of `i` in increasing order of `j`. */
  lemma ScheduleInRankOrder(n: nat)
    ensures Increasing(Schedule(n))
    ensures forall a, b :: 0 <= a < b < |Schedule(n)| ==> Schedule(n)[a] != Schedule(n)[b]
    ensures |Schedule(n)| == n + n * (n - 1) / 2
  {
    VisitsFromIncreasing(0, n);
    VisitsFromLength(0, n);
  }

  lemma {:induction false} VisitsFromLength(i: nat, n: nat)
    requires i <= n
    ensures |VisitsFrom(i, n)| == (n - i) + (n - i) * (n - i - 1) / 2
    decreases n - i
  {
    if i < n {
      VisitsFromLength(i + 1, n);
      PairVisitsRange(i, i + 1, n);
      TriangleStep(n - i);
    }
  }

  lemma TriangleStep(m: nat)
    requires m >= 1
    ensures m * (m - 1) / 2 == (m - 1) + (m - 1) * (m - 2) / 2
  {
    assert m * (m - 1) == 2 * (m - 1) + (m - 1) * (m - 2);
  }

  /** No body is within its radius of a wall, and no two bodies overlap. */
  predicate Quiet(s: seq<Body>, box: Box)
  {
    (forall k :: 0 <= k < |s| ==> ClearOfWalls(s[k], box)) &&
    (forall i, j :: 0 <= i < j < |s| ==> !WithinReach(s[i], s[j]))
  }

  predicate ClearOfWalls(b: Body, box: Box)
  {
    Abs(b.position.x - box.corner.x) > b.radius &&
    Abs(b.position.x - (box.corner.x + box.width)) > b.radius &&
    Abs(b.position.y - box.corner.y) > b.radius &&
    Abs(b.position.y - (box.corner.y + box.height)) > b.radius
  }

  /** When nothing is near a wall or another body, the sweep changes nothing. */
  lemma {:induction false} RunQuiet(vs: seq<Visit>, s: seq<Body>, box: Box)
    requires Quiet(s, box)
    ensures Run(vs, s, box) == s
  {
    if |vs| > 0 {
      var v := vs[0];
      if v.WallVisit? && v.i < |s| {
        var b := s[v.i];
        assert WallsChecked(b, box) == b;
        assert s[v.i := b] == s;
      }
      assert Visited(v, s, box) == s;
      RunQuiet(vs[1..], s, box);
    }
  }

  /** Every body one frame later. */
  function MoveAll(s: seq<Body>): (r: seq<Body>)
    ensures |r| == |s|
  {
    seq(|s|, k requires 0 <= k < |s| => Moved(s[k]))
  }

  /** The bodies after the collision sweep. */
  function Swept(s: seq<Body>, box: Box): seq<Body>
  {
    Run(Schedule(|s|), s, box)
  }

  /** The bodies after particle `i` has visited particles `j` and on, in
      order: the inner loop of the sweep. */
  function SweepPairs(i: nat, j: nat, s: seq<Body>, box: Box): (r: seq<Body>)
    requires i < j <= |s|
    ensures |r| == |s|
    decreases |s| - j
  {
    if j < |s| then SweepPairs(i, j + 1, Visited(PairVisit(i, j), s, box), box) else s
  }

  /** The bodies after the sweep from particle `i` on, each particle checking
      the walls and then visiting every later particle: the outer loop. */
  function SweepFrom(i: nat, s: seq<Body>, box: Box): (r: seq<Body>)
    requires i <= |s|
    ensures |r| == |s|
    decreases |s| - i
  {
    if i < |s| then SweepFrom(i + 1, SweepPairs(i, i + 1, Visited(WallVisit(i), s, box), box), box) else s
  }

  /** One turn of the inner loop: the visit to `j` leaves the visits from `j + 1` on. */
  lemma SweepPairsNext(i: nat, j: nat, s: seq<Body>, r: seq<Body>, box: Box)
    requires i < j < |s| && r == Visited(PairVisit(i, j), s, box)
    ensures |r| == |s| && SweepPairs(i, j + 1, r, box) == SweepPairs(i, j, s, box)
  {
  }

  /** One turn of the outer loop: the wall checks and the pair visits of `i`
      leave the sweep from `i + 1` on. */
  lemma SweepFromNext(i: nat, s: seq<Body>, r: seq<Body>, box: Box)
    requires i < |s| && r == SweepPairs(i, i + 1, Visited(WallVisit(i), s, box), box)
    ensures |r| == |s| && SweepFrom(i + 1, r, box) == SweepFrom(i, s, box)
  {
  }

  /** The inner loop makes particle `i`'s pair visits from `j` on, in order. */
  lemma {:induction false} SweepPairsIsRun(i: nat, j: nat, s: seq<Body>, box: Box)
    requires i < j <= |s|
    ensures SweepPairs(i, j, s, box) == Run(PairVisits(i, j, |s|), s, box)
    decreases |s| - j
  {
    var n := |s|;
    if j < n {
      var visited := Visited(PairVisit(i, j), s, box);
      SweepPairsIsRun(i, j + 1, visited, box);
      RunCons(PairVisit(i, j), PairVisits(i, j + 1, n), s, box);
    }
  }

  /** The first of a list of visits is made first. */
  lemma RunCons(v: Visit, vs: seq<Visit>, s: seq<Body>, box: Box)
    ensures Run([v] + vs, s, box) == Run(vs, Visited(v, s, box), box)
  {
    assert ([v] + vs)[0] == v && ([v] + vs)[1..] == vs;
  }

  /** The outer loop makes the sweep's visits from particle `i` on, in order. */
  lemma {:induction false} SweepFromIsRun(i: nat, s: seq<Body>, box: Box)
    requires i <= |s|
    ensures SweepFrom(i, s, box) == Run(VisitsFrom(i, |s|), s, box)
    decreases |s| - i
  {
    var n := |s|;
    if i < n {
      var walled := Visited(WallVisit(i), s, box);
      var pairs := PairVisits(i, i + 1, n);
      var rest := VisitsFrom(i + 1, n);
      var vs := VisitsFrom(i, n);
      assert vs[0] == WallVisit(i) && vs[1..] == pairs + rest;
      SweepPairsIsRun(i, i + 1, walled, box);
      var paired := SweepPairs(i, i + 1, walled, box);
      calc {
        Run(vs, s, box);
        Run(pairs + rest, walled, box);
        { RunAppend(pairs, rest, walled, box); }
        Run(rest, paired, box);
        { SweepFromIsRun(i + 1, paired, box); }
        SweepFrom(i + 1, paired, box);
        SweepFrom(i, s, box);
      }
    }
  }

  /** The two nested loops of the sweep make exactly the visits of the
      schedule, in its order. */
  lemma SweepIsSwept(s: seq<Body>, box: Box)
    ensures SweepFrom(0, s, box) == Swept(s, box)
  {
    SweepFromIsRun(0, s, box);
  }

  /** The bodies after one whole frame: motion, then the collision sweep. */
  function Step(s: seq<Body>, box: Box): seq<Body>
  {
    Swept(MoveAll(s), box)
  }

  /** A frame moves every body by its velocity from before the frame; the
      sweep then changes velocities only, and nothing but velocities. */
  lemma StepMoves(s: seq<Body>, box: Box)
    ensures |Step(s, box)| == |s|
    ensures forall k :: 0 <= k < |s| ==>
      Step(s, box)[k] == Moved(s[k]).(velocity := Step(s, box)[k].velocity)
  {
    var moved := MoveAll(s);
    RunChangesVelocitiesOnly(Schedule(|s|), moved, box);
  }

  /** When, after moving, nothing is near a wall or another body, the frame
      is pure motion. */
  lemma StepQuiet(s: seq<Body>, box: Box)
    requires Quiet(MoveAll(s), box)
    ensures Step(s, box) == MoveAll(s)
  {
    RunQuiet(Schedule(|s|), MoveAll(s), box);
  }

  /** Visit `k` of the sweep is the wall check of particle `i`, and visits `a`
      and `c` are the pairs `(h, i)` and `(i, j)`: then `a < k < c`. */
  lemma WallsBetweenPairs(n: nat, a: nat, k: nat, c: nat, h: nat, i: nat, j: nat)
    requires a < |Schedule(n)| && k < |Schedule(n)| && c < |Schedule(n)|
    requires Schedule(n)[a] == PairVisit(h, i) && Schedule(n)[k] == WallVisit(i) && Schedule(n)[c] == PairVisit(i, j)
    ensures a < k < c
  {
    ScheduleInRankOrder(n);
    ScheduleCoversAll(n);
    assert Schedule(n)[a] in Schedule(n) && Schedule(n)[c] in Schedule(n);
  }
}
