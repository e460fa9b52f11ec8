/**
  Snowball flight (utils.ts) and the victim search that game.ts and bot.ts share.

  The search samples the flight at 61 instants and tests a vertical cylinder
  around every player.  It is proved to return the earliest sampled hit, and to
  miss nobody whose closest approach is within a clearance that the speed and
  the sampling step determine; the clearance is shown to be the best possible.
 */
module Ballistics {
  import opened Protocol

  function Mul(a: Vec3, s: real): Vec3 {
    Vec3(a.x * s, a.y * s, a.z * s)
  }

  function Len2(a: Vec3): real {
    a.x * a.x + a.y * a.y + a.z * a.z
  }

  /** `len` is the value of `Math.hypot` on the components of `v`. */
  predicate IsHypot(len: real, v: Vec3) {
    len >= 0.0 && len * len == Len2(v)
  }

  /** Divides by the length, or by one when the length is zero. */
  function Norm(v: Vec3, len: real): Vec3 {
    var l := if len == 0.0 then 1.0 else len;
    Vec3(v.x / l, v.y / l, v.z / l)
  }

  lemma Square(a: real, p: real)
    requires p == a * a
    ensures p >= 0.0
    ensures a != 0.0 ==> p > 0.0
  {
    if a > 0.0 {
      MulPositive(a, a, p);
    } else if a < 0.0 {
      MulPositive(-a, -a, p);
    }
  }

  lemma MulPositive(a: real, b: real, p: real)
    requires a > 0.0 && b > 0.0 && p == a * b
    ensures p > 0.0
  {}

  lemma MulMonotone(a: real, b: real, c: real)
    requires a <= b && c >= 0.0
    ensures a * c <= b * c
  {}

  lemma SquareBound(d: real, e: real)
    requires -e <= d <= e
    ensures d * d <= e * e
  {}

  lemma SquaresVanish(a: real, b: real, c: real)
    requires a * a + b * b + c * c == 0.0
    ensures a == 0.0 && b == 0.0 && c == 0.0
  {
    Square(a, a * a);
    Square(b, b * b);
    Square(c, c * c);
  }

  lemma UnitLength(u: Vec3, len: real)
    requires len > 0.0 && Len2(Mul(u, len)) == len * len
    ensures Len2(u) == 1.0
  {
    var m := len * len;
    assert (u.x * len) * (u.x * len) == u.x * u.x * m;
    assert (u.y * len) * (u.y * len) == u.y * u.y * m;
    assert (u.z * len) * (u.z * len) == u.z * u.z * m;
    var e := Len2(u) - 1.0;
    assert e * m == 0.0;
    Square(len, m);
    Cancel(e, m);
  }

  lemma Cancel(e: real, m: real)
    requires e * m == 0.0 && m > 0.0
    ensures e == 0.0
  {}

  lemma HypotVanishes(v: Vec3, len: real)
    requires IsHypot(len, v)
    ensures len == 0.0 <==> v == ZERO
  {
    if len == 0.0 {
      SquaresVanish(v.x, v.y, v.z);
    } else {
      Square(len, len * len);
    }
  }

  /** A normalised vector is a unit vector in the same direction; the zero vector is kept. */
  lemma NormIsUnitOrZero(v: Vec3, len: real)
    requires IsHypot(len, v)
    ensures if v == ZERO then Norm(v, len) == ZERO
            else len > 0.0 && Mul(Norm(v, len), len) == v && Len2(Norm(v, len)) == 1.0
  {
    HypotVanishes(v, len);
    if v != ZERO {
      NormScales(v, len);
      UnitScaled(v, Norm(v, len), len);
    }
  }

  /** The direction of a shot is at most a unit vector. */
  lemma NormIsShort(v: Vec3, len: real)
    requires IsHypot(len, v)
    ensures Len2(Norm(v, len)) <= 1.0
  {
    NormIsUnitOrZero(v, len);
  }

  lemma UnitScaled(v: Vec3, u: Vec3, len: real)
    requires len > 0.0 && len * len == Len2(v) && Mul(u, len) == v
    ensures Len2(u) == 1.0
  {
    UnitLength(u, len);
  }

  lemma NormScales(v: Vec3, len: real)
    requires IsHypot(len, v) && len != 0.0
    ensures Mul(Norm(v, len), len) == v
  {}

  function PosAt(origin: Vec3, v0: Vec3, t: real): Vec3 {
    Vec3(origin.x + v0.x * t,
         origin.y + v0.y * t - 0.5 * GRAVITY * t * t,
         origin.z + v0.z * t)
  }

  /** Squared horizontal distance. */
  function Dist2(p: Vec3, q: Vec3): real {
    (p.x - q.x) * (p.x - q.x) + (p.z - q.z) * (p.z - q.z)
  }

  predicate WithinHeight(p: Vec3, player: Vec3) {
    player.y <= p.y <= player.y + HIT_HEIGHT
  }

  predicate IntersectsCylinder(p: Vec3, player: Vec3) {
    && Dist2(p, player) <= HIT_RADIUS * HIT_RADIUS
    && WithinHeight(p, player)
  }

  function SampleTime(i: nat): real {
    i as real * (SNOWBALL_LIFE_SEC / SIM_STEPS as real)
  }

  function Sample(origin: Vec3, v0: Vec3, i: nat): Vec3 {
    PosAt(origin, v0, SampleTime(i))
  }

  predicate HitsAt(origin: Vec3, v0: Vec3, player: Vec3, i: nat) {
    IntersectsCylinder(Sample(origin, v0, i), player)
  }

  predicate Airborne(origin: Vec3, v0: Vec3, i: nat) {
    Sample(origin, v0, i).y >= 0.0
  }

  predicate Eligible(p: Snapshot, shooter: Id, now: int) {
    p.id != shooter && !(p.hp <= 0 && p.deadUntil > now)
  }

  /** The first sample, from `i` on, that hits; the search stops at the first sample below the ground. */
  function FirstHit(origin: Vec3, v0: Vec3, player: Vec3, i: nat): (r: Option<nat>)
    requires i <= SIM_STEPS + 1
    decreases SIM_STEPS + 1 - i, player
  {
    if i > SIM_STEPS then None
    else if !Airborne(origin, v0, i) then None
    else if HitsAt(origin, v0, player, i) then Some(i)
    else FirstHit(origin, v0, player, i + 1)
  }

  lemma {:induction false} FirstHitIsFirst(origin: Vec3, v0: Vec3, player: Vec3, i: nat)
    requires i <= SIM_STEPS + 1
    ensures var r := FirstHit(origin, v0, player, i);
            && (r.Some? ==>
                  && i <= r.value <= SIM_STEPS && HitsAt(origin, v0, player, r.value)
                  && (forall j: nat :: i <= j <= r.value ==> Airborne(origin, v0, j))
                  && (forall j: nat :: i <= j < r.value ==> !HitsAt(origin, v0, player, j)))
            && (r.None? ==> forall k: nat :: i <= k <= SIM_STEPS && HitsAt(origin, v0, player, k) ==>
                  exists j: nat :: i <= j <= k && !Airborne(origin, v0, j))
    decreases SIM_STEPS + 1 - i, player
  {
    if i <= SIM_STEPS && Airborne(origin, v0, i) && !HitsAt(origin, v0, player, i) {
      FirstHitIsFirst(origin, v0, player, i + 1);
    }
  }

  /** Which player is hit (a position in the list) and at which sample. */
  datatype Strike = Strike(index: nat, step: nat)

  /** The strike with the smallest sample number, the first such in the list. */
  function Earliest(hits: seq<Option<nat>>): (r: Option<Strike>)
    ensures r.Some? ==> r.value.index < |hits| && hits[r.value.index] == Some(r.value.step)
  {
    if |hits| == 0 then None
    else
      var last := |hits| - 1;
      var best := Earliest(hits[..last]);
      if hits[last].Some? && (best.None? || hits[last].value < best.value.step)
      then Some(Strike(last, hits[last].value)) else best
  }

  lemma {:induction false} EarliestIsMinimal(hits: seq<Option<nat>>)
    ensures var r := Earliest(hits);
            && (r.None? ==> forall k :: 0 <= k < |hits| ==> hits[k].None?)
            && (r.Some? ==> forall k :: 0 <= k < |hits| && hits[k].Some? ==>
                  r.value.step < hits[k].value || (r.value.step == hits[k].value && r.value.index <= k))
  {
    if |hits| > 0 {
      var front := hits[..|hits| - 1];
      EarliestIsMinimal(front);
      assert forall k :: 0 <= k < |front| ==> hits[k] == front[k];
    }
  }

  /** The first hit on every player, in iteration order; players who cannot be hit have none. */
  function FirstHits(players: seq<Snapshot>, shooter: Id, origin: Vec3, v0: Vec3, now: int): (hits: seq<Option<nat>>)
    ensures |hits| == |players|
    ensures forall k :: 0 <= k < |hits| && hits[k].Some? ==> Eligible(players[k], shooter, now)
  {
    seq(|players|, k requires 0 <= k < |players| =>
      if Eligible(players[k], shooter, now) then FirstHit(origin, v0, players[k].pos, 0) else None)
  }

  function FindVictim(players: seq<Snapshot>, shooter: Id, origin: Vec3, v0: Vec3, now: int): (r: Option<Strike>)
    ensures r.Some? ==> r.value.index < |players| && Eligible(players[r.value.index], shooter, now)
  {
    Earliest(FirstHits(players, shooter, origin, v0, now))
  }

  // --- the earliest-hit specification ---

  /** Player `k` is hit at sample `i`, no sample up to `i` is below the ground, and no earlier sample hits. */
  ghost predicate Reached(players: seq<Snapshot>, shooter: Id, origin: Vec3, v0: Vec3, now: int, k: nat, i: nat)
    requires k < |players|
  {
    && Eligible(players[k], shooter, now)
    && i <= SIM_STEPS
    && HitsAt(origin, v0, players[k].pos, i)
    && (forall j: nat :: j <= i ==> Airborne(origin, v0, j))
    && (forall j: nat :: j < i ==> !HitsAt(origin, v0, players[k].pos, j))
  }

  lemma ReachedIsFirstHit(players: seq<Snapshot>, shooter: Id, origin: Vec3, v0: Vec3, now: int, k: nat, i: nat)
    requires k < |players|
    ensures Reached(players, shooter, origin, v0, now, k, i)
            <==> Eligible(players[k], shooter, now) && FirstHit(origin, v0, players[k].pos, 0) == Some(i)
  {
    var f := FirstHit(origin, v0, players[k].pos, 0);
    FirstHitIsFirst(origin, v0, players[k].pos, 0);
    if Reached(players, shooter, origin, v0, now, k, i) {
      assert f.Some?;
      assert f.value == i;
    }
  }

  /**
    The search returns the eligible player with the earliest hitting sample, ties going to
    the first in iteration order, and nobody exactly when no eligible player is reached.
   */
  lemma FindVictimIsEarliest(players: seq<Snapshot>, shooter: Id, origin: Vec3, v0: Vec3, now: int)
    ensures var r := FindVictim(players, shooter, origin, v0, now);
            && (r.None? <==> forall k: nat, i: nat :: k < |players| ==> !Reached(players, shooter, origin, v0, now, k, i))
            && (r.Some? ==>
                  && Reached(players, shooter, origin, v0, now, r.value.index, r.value.step)
                  && forall k: nat, i: nat :: k < |players| && Reached(players, shooter, origin, v0, now, k, i) ==>
                       r.value.step < i || (r.value.step == i && r.value.index <= k))
  {
    var hits := FirstHits(players, shooter, origin, v0, now);
    EarliestIsMinimal(hits);
    forall k: nat, i: nat | k < |players|
      ensures Reached(players, shooter, origin, v0, now, k, i) <==> hits[k] == Some(i)
    {
      ReachedIsFirstHit(players, shooter, origin, v0, now, k, i);
    }
  }

  /** The inner loop of the search: walks the samples of one player. */
  method SearchSamples(origin: Vec3, v0: Vec3, player: Vec3) returns (r: Option<nat>)
    ensures r == FirstHit(origin, v0, player, 0)
  {
    var i := 0;
    while i <= SIM_STEPS
      invariant i <= SIM_STEPS + 1
      invariant FirstHit(origin, v0, player, 0) == FirstHit(origin, v0, player, i)
    {
      var pos := Sample(origin, v0, i);
      if pos.y < 0.0 { return None; }
      if IntersectsCylinder(pos, player) { return Some(i); }
      i := i + 1;
    }
    return None;
  }

  /** The search loop of serverHandleSnowball and botShoot; the source compares times, not sample numbers. */
  method SearchVictim(players: seq<Snapshot>, shooter: Id, origin: Vec3, v0: Vec3, now: int) returns (best: Option<Strike>)
    ensures best == FindVictim(players, shooter, origin, v0, now)
  {
    best := None;
    var bestTime := 0.0;
    ghost var hits := FirstHits(players, shooter, origin, v0, now);
    for k := 0 to |players|
      invariant best == Earliest(hits[..k])
      invariant best.Some? ==> bestTime == SampleTime(best.value.step)
    {
      var p := players[k];
      assert hits[..k + 1][..k] == hits[..k];
      if p.id == shooter { continue; }
      if p.hp <= 0 && p.deadUntil > now { continue; }
      var hit := SearchSamples(origin, v0, p.pos);
      if hit.Some? && (best.None? || SampleTime(hit.value) < bestTime) {
        best, bestTime := Some(Strike(k, hit.value)), SampleTime(hit.value);
      }
    }
    assert hits[..|players|] == hits;
  }

  // --- the flight is a free fall ---

  /**
    A snowball starts where it is thrown, moves by a twentieth of its velocity per sample along the
    ground, and its height falls off from sample to sample by gravity alone.
   */
  lemma FreeFall(origin: Vec3, v0: Vec3, i: nat)
    ensures Sample(origin, v0, 0) == origin
    ensures Sample(origin, v0, 1).y == origin.y + 0.05 * v0.y - 0.025
    ensures var a, b, c := Sample(origin, v0, i), Sample(origin, v0, i + 1), Sample(origin, v0, i + 2);
            && b.x - a.x == 0.05 * v0.x && b.z - a.z == 0.05 * v0.z
            && (c.y - b.y) - (b.y - a.y) == -20.0 * 0.05 * 0.05
  {
    var t := SampleTime(i);
    assert SampleTime(i + 1) == t + 0.05 && SampleTime(i + 2) == t + 0.1;
    assert (t + 0.05) * (t + 0.05) == t * t + 0.1 * t + 0.0025;
    assert (t + 0.1) * (t + 0.1) == t * t + 0.2 * t + 0.01;
    FallAt(origin.y, v0.y, t, t * t);
    FallAt(origin.y, v0.y, t + 0.05, (t + 0.05) * (t + 0.05));
    FallAt(origin.y, v0.y, t + 0.1, (t + 0.1) * (t + 0.1));
  }

  lemma FallAt(y: real, vy: real, t: real, t2: real)
    requires t2 == t * t
    ensures y + vy * t - 0.5 * GRAVITY * t * t == y + vy * t - 10.0 * t2
  {
    assert 0.5 * GRAVITY * t * t == 10.0 * (t * t);
  }

  /** A ball strikes a player exactly within 0.9 of the player's axis and between the feet and 2.2 above them. */
  lemma HitVolume(player: Vec3, dx: real, h: real, dz: real)
    ensures IntersectsCylinder(Vec3(player.x + dx, player.y + h, player.z + dz), player)
            <==> dx * dx + dz * dz <= 0.81 && 0.0 <= h <= 2.2
  {
    assert HIT_RADIUS * HIT_RADIUS == 0.81;
  }

  // --- the range of a level shot ---

  /** The height of a level shot from 1.3 above the ground: in the air up to sample 7, below the ground from sample 8 on. */
  lemma LevelHeight(origin: Vec3, v0: Vec3, i: nat)
    requires origin.y == 1.3 && v0.y == 0.0
    ensures Sample(origin, v0, i).y == 1.3 - 0.025 * (i * i) as real
    ensures Airborne(origin, v0, i) <==> i <= 7
  {
    var t := SampleTime(i);
    var r := i as real;
    assert t == 0.05 * r;
    assert t * t == 0.0025 * (r * r);
    FallAt(origin.y, v0.y, t, t * t);
    assert (i * i) as real == r * r;
    if i >= 8 { SquareBound(8.0, r); } else { SquareBound(r, 7.0); }
  }

  /** If the parts of a way are at most `a` and `b` long, the way is at most `a + b` long. */
  lemma Triangle(ax: real, az: real, bx: real, bz: real, a: real, b: real)
    requires a > 0.0 && b > 0.0 && ax * ax + az * az <= a * a && bx * bx + bz * bz <= b * b
    ensures (ax + bx) * (ax + bx) + (az + bz) * (az + bz) <= (a + b) * (a + b)
  {
    DotBound(ax, az, bx, bz, a, b);
    assert (ax + bx) * (ax + bx) == ax * ax + 2.0 * (ax * bx) + bx * bx;
    assert (az + bz) * (az + bz) == az * az + 2.0 * (az * bz) + bz * bz;
    assert (a + b) * (a + b) == a * a + 2.0 * (a * b) + b * b;
  }

  lemma DotBound(ax: real, az: real, bx: real, bz: real, a: real, b: real)
    requires a > 0.0 && b > 0.0 && ax * ax + az * az <= a * a && bx * bx + bz * bz <= b * b
    ensures ax * bx + az * bz <= a * b
  {
    var p, q, m := a * a, b * b, a * b;
    var px, pz, qx, qz := ax * ax, az * az, bx * bx, bz * bz;
    var cx, cz := ax * bx, az * bz;
    CrossSquare(a, b, ax, bx, p, q, m, px, qx, cx);
    CrossSquare(a, b, az, bz, p, q, m, pz, qz, cz);
    MulMonotone(px + pz, p, q);
    MulMonotone(qx + qz, q, p);
    assert q * px + q * pz == (px + pz) * q && p * qx + p * qz == (qx + qz) * p;
    assert 2.0 * (m * cx) + 2.0 * (m * cz) <= 2.0 * (p * q);
    assert p * q == m * m;
    MulPositive(a, b, m);
    assert (cx + cz - m) * m == m * cx + m * cz - m * m;
    if cx + cz > m {
      MulPositive(cx + cz - m, m, (cx + cz - m) * m);
    }
  }

  lemma CrossSquare(a: real, b: real, x: real, y: real, p: real, q: real, m: real, px: real, qy: real, c: real)
    requires p == a * a && q == b * b && m == a * b && px == x * x && qy == y * y && c == x * y
    ensures 2.0 * (m * c) <= q * px + p * qy
  {
    var e := b * x - a * y;
    Square(e, e * e);
    assert e * e == (b * x) * (b * x) - 2.0 * ((b * x) * (a * y)) + (a * y) * (a * y);
    assert (b * x) * (b * x) == q * px;
    assert (a * y) * (a * y) == p * qy;
    assert (b * x) * (a * y) == m * c;
  }

  lemma LevelWay(v0: Vec3, t: real, i: nat)
    requires v0.x * v0.x + v0.z * v0.z == 625.0 && i <= 7 && t == 0.05 * i as real
    ensures (v0.x * t) * (v0.x * t) + (v0.z * t) * (v0.z * t) <= 8.75 * 8.75
  {
    var t2 := t * t;
    assert (v0.x * t) * (v0.x * t) == (v0.x * v0.x) * t2;
    assert (v0.z * t) * (v0.z * t) == (v0.z * v0.z) * t2;
    assert (v0.x * v0.x) * t2 + (v0.z * v0.z) * t2 == 625.0 * t2;
    SquareBound(t, 0.35);
  }

  /**
    The range of a level shot over level ground: thrown from 1.3 above it at full speed in any
    direction, it strikes nobody farther than 9.65 away.
   */
  lemma LevelRange(origin: Vec3, v0: Vec3, player: Vec3)
    requires origin.y == 1.3 && v0.y == 0.0 && v0.x * v0.x + v0.z * v0.z == 625.0
    requires Dist2(player, origin) > 9.65 * 9.65
    ensures FirstHit(origin, v0, player, 0).None?
  {
    forall i: nat | i <= 7 ensures !HitsAt(origin, v0, player, i) {
      LevelMisses(origin, v0, player, i);
    }
    LevelHeight(origin, v0, 8);
    StopsShort(origin, v0, player, 7);
  }

  lemma StopsShort(origin: Vec3, v0: Vec3, player: Vec3, n: nat)
    requires !Airborne(origin, v0, n + 1) && forall i: nat :: i <= n ==> !HitsAt(origin, v0, player, i)
    ensures FirstHit(origin, v0, player, 0).None?
  {
    FirstHitIsFirst(origin, v0, player, 0);
  }

  lemma LevelMisses(origin: Vec3, v0: Vec3, player: Vec3, i: nat)
    requires v0.x * v0.x + v0.z * v0.z == 625.0 && i <= 7 && Dist2(player, origin) > 9.65 * 9.65
    ensures !HitsAt(origin, v0, player, i)
  {
    var p := Sample(origin, v0, i);
    if Dist2(p, player) <= HIT_RADIUS * HIT_RADIUS {
      var t := SampleTime(i);
      assert t == 0.05 * i as real;
      LevelWay(v0, t, i);
      var ax, az, bx, bz := v0.x * t, v0.z * t, player.x - p.x, player.z - p.z;
      assert p.x - origin.x == ax && p.z - origin.z == az;
      assert bx * bx + bz * bz == Dist2(p, player);
      assert player.x - origin.x == ax + bx && player.z - origin.z == az + bz;
      Triangle(ax, az, bx, bz, 8.75, 0.9);
    }
  }

  /** And that range is attained: thrown along the x axis, it strikes everybody on the axis up to exactly 9.65 away. */
  lemma LevelRangeIsExact(d: real)
    requires d >= 0.0
    ensures FirstHit(Vec3(0.0, 1.3, 0.0), EASTWARD, Vec3(d, 0.0, 0.0), 0).Some? <==> d <= 9.65
  {
    var origin, player := Vec3(0.0, 1.3, 0.0), Vec3(d, 0.0, 0.0);
    if d <= 9.65 {
      var i: nat := if d >= 8.75 then 7 else (d / 1.25 + 0.5).Floor;
      LevelHeight(origin, EASTWARD, i);
      EastHits(d, i);
      BreakEqualsSkip(origin, EASTWARD, player);
    } else {
      SquareGrows(9.65, d);
      assert Dist2(player, origin) == d * d;
      LevelRange(origin, EASTWARD, player);
    }
  }

  lemma SquareGrows(a: real, b: real)
    requires 0.0 <= a < b
    ensures a * a < b * b
  {
    MulMonotone(a, b, a);
    MulPositive(b - a, b, (b - a) * b);
  }

  lemma EastHits(d: real, i: nat)
    requires i <= 7 && -0.9 <= 1.25 * i as real - d <= 0.9
    ensures HitsAt(Vec3(0.0, 1.3, 0.0), EASTWARD, Vec3(d, 0.0, 0.0), i)
  {
    var origin := Vec3(0.0, 1.3, 0.0);
    var p := Sample(origin, EASTWARD, i);
    LevelHeight(origin, EASTWARD, i);
    EastNear(p, d, 1.25 * i as real - d);
  }

  lemma EastNear(p: Vec3, d: real, x: real)
    requires p.x - d == x && p.z == 0.0 && -0.9 <= x <= 0.9
    ensures Dist2(p, Vec3(d, 0.0, 0.0)) <= HIT_RADIUS * HIT_RADIUS
  {
    SquareBound(x, 0.9);
    assert Dist2(p, Vec3(d, 0.0, 0.0)) == x * x;
  }

  // --- stopping at the ground ---

  lemma ScaledHeight(a: real, b: real, s: real, t: real, ys: real, m: real)
    requires ys == a + b * s - 0.5 * GRAVITY * s * s && m == s * t
    ensures t * ys == t * a + b * m - 10.0 * (s * m)
  {
    assert t * (b * s) == b * m;
    assert t * (s * s) == s * m;
  }

  lemma Concave(a: real, b: real, s: real, t: real, ys: real, yt: real)
    requires a >= 0.0 && 0.0 <= s <= t && 0.0 < t && yt >= 0.0
    requires ys == a + b * s - 0.5 * GRAVITY * s * s
    requires yt == a + b * t - 0.5 * GRAVITY * t * t
    ensures ys >= 0.0
  {
    var m := s * t;
    ScaledHeight(a, b, s, t, ys, m);
    ScaledHeight(a, b, t, s, yt, m);
    MulMonotone(0.0, s, t);
    MulMonotone(s, t, m);
    MulMonotone(s, t, a);
    MulMonotone(0.0, s, yt);
    HeightsCompare(t * ys, s * yt, t * a, s * a, b * m, s * m, t * m);
    if ys < 0.0 { MulPositive(t, -ys, -(t * ys)); }
  }

  lemma HeightsCompare(tys: real, syt: real, ta: real, sa: real, bm: real, sm: real, tm: real)
    requires tys == ta + bm - 10.0 * sm && syt == sa + bm - 10.0 * tm && sa <= ta && sm <= tm && 0.0 <= syt
    ensures tys >= 0.0
  {}

  /** The flight is concave: a sample between two samples above the ground is above the ground. */
  lemma AboveGroundBetween(origin: Vec3, v0: Vec3, j: nat, k: nat)
    requires origin.y >= 0.0 && j <= k && Airborne(origin, v0, k)
    ensures Airborne(origin, v0, j)
  {
    var s, t := SampleTime(j), SampleTime(k);
    if t > 0.0 {
      var ys, yt := PosAt(origin, v0, s).y, PosAt(origin, v0, t).y;
      assert 0.0 <= s <= t;
      Concave(origin.y, v0.y, s, t, ys, yt);
    }
  }

  /**
    For a shot from above the ground, breaking off at the first sample below it equals
    skipping such samples; a shot from below the ground never hits anybody.
   */
  lemma BreakEqualsSkip(origin: Vec3, v0: Vec3, player: Vec3)
    ensures var r := FirstHit(origin, v0, player, 0);
            && (origin.y < 0.0 ==> r.None?)
            && (origin.y >= 0.0 ==>
                  && (r.Some? <==> exists i: nat :: i <= SIM_STEPS && Airborne(origin, v0, i) && HitsAt(origin, v0, player, i))
                  && (r.Some? ==> forall i: nat :: Airborne(origin, v0, i) && HitsAt(origin, v0, player, i) ==> r.value <= i))
  {
    var r := FirstHit(origin, v0, player, 0);
    FirstHitIsFirst(origin, v0, player, 0);
    assert Sample(origin, v0, 0).y == origin.y;
    if origin.y >= 0.0 {
      forall i: nat, j: nat | j <= i && Airborne(origin, v0, i)
        ensures Airborne(origin, v0, j)
      {
        AboveGroundBetween(origin, v0, j, i);
      }
    }
  }

  // --- no tunnelling ---

  /** The squared clearance that sampling cannot step over: hitRadius^2 less half a sampling step, squared. */
  const CLEARANCE2 := 0.419375

  function NearestSample(t: real): (i: nat)
    requires 0.0 <= t <= SNOWBALL_LIFE_SEC
    ensures i <= SIM_STEPS
    ensures -0.025 <= SampleTime(i) - t <= 0.025
  {
    (t * 20.0 + 0.5).Floor
  }

  /** At `t` the ball is horizontally closest to the player: the separation is orthogonal to the motion. */
  predicate ClosestAt(origin: Vec3, v0: Vec3, player: Vec3, t: real) {
    var p := PosAt(origin, v0, t);
    (p.x - player.x) * v0.x + (p.z - player.z) * v0.z == 0.0
  }

  lemma SquareOfSum(e: real, v: real, d: real)
    ensures (e + v * d) * (e + v * d) == e * e + 2.0 * (e * v) * d + (v * v) * (d * d)
  {
    var f := v * d;
    assert (e + f) * (e + f) == e * e + 2.0 * (e * f) + f * f;
    assert e * f == (e * v) * d;
    assert f * f == (v * v) * (d * d);
  }

  /** Pythagoras around the closest approach: `drift` is the squared way the ball makes in time `d`. */
  lemma DistanceFromClosest(origin: Vec3, v0: Vec3, player: Vec3, t: real, d: real, drift: real)
    requires ClosestAt(origin, v0, player, t)
    requires drift == (v0.x * v0.x + v0.z * v0.z) * (d * d)
    ensures Dist2(PosAt(origin, v0, t + d), player) == Dist2(PosAt(origin, v0, t), player) + drift
  {
    var p, q := PosAt(origin, v0, t), PosAt(origin, v0, t + d);
    MovesEvenly(origin.x, v0.x, t, d);
    MovesEvenly(origin.z, v0.z, t, d);
    AroundClosest(p, q, player, v0.x, v0.z, d, drift);
  }

  lemma MovesEvenly(x: real, v: real, t: real, d: real)
    ensures x + v * (t + d) == x + v * t + v * d
  {}

  lemma AroundClosest(p: Vec3, q: Vec3, player: Vec3, vx: real, vz: real, d: real, drift: real)
    requires q.x == p.x + vx * d && q.z == p.z + vz * d
    requires (p.x - player.x) * vx + (p.z - player.z) * vz == 0.0 && drift == (vx * vx + vz * vz) * (d * d)
    ensures Dist2(q, player) == Dist2(p, player) + drift
  {
    var ex, ez := p.x - player.x, p.z - player.z;
    assert q.x - player.x == ex + vx * d && q.z - player.z == ez + vz * d;
    Pythagoras(ex, ez, vx, vz, d, drift);
  }

  lemma Pythagoras(ex: real, ez: real, vx: real, vz: real, d: real, drift: real)
    requires ex * vx + ez * vz == 0.0 && drift == (vx * vx + vz * vz) * (d * d)
    ensures (ex + vx * d) * (ex + vx * d) + (ez + vz * d) * (ez + vz * d) == ex * ex + ez * ez + drift
  {
    SquareOfSum(ex, vx, d);
    SquareOfSum(ez, vz, d);
    CrossTermsVanish(ex * vx, ez * vz, d);
    assert drift == (vx * vx) * (d * d) + (vz * vz) * (d * d);
  }

  lemma CrossTermsVanish(a: real, b: real, d: real)
    requires a + b == 0.0
    ensures 2.0 * a * d + 2.0 * b * d == 0.0
  {
    assert b == -a;
  }

  /** In half a sampling step the ball moves at most 0.625 horizontally. */
  lemma HalfStepDrift(dir: Vec3, v0: Vec3, d: real, drift: real)
    requires Len2(dir) <= 1.0 && v0 == Mul(dir, SNOWBALL_SPEED) && -0.025 <= d <= 0.025
    requires drift == (v0.x * v0.x + v0.z * v0.z) * (d * d)
    ensures drift <= 0.390625
  {
    var h2 := dir.x * dir.x + dir.z * dir.z;
    assert 0.0 <= h2 <= 1.0 by {
      Square(dir.x, dir.x * dir.x);
      Square(dir.y, dir.y * dir.y);
      Square(dir.z, dir.z * dir.z);
    }
    SquareBound(d, 0.025);
    Square(d, d * d);
    var q := v0.x * v0.x + v0.z * v0.z;
    assert q == 625.0 * h2;
    ScaledProduct(q, d * d);
  }

  lemma ScaledProduct(q: real, d2: real)
    requires q <= 625.0 && 0.0 <= d2 <= 0.000625
    ensures q * d2 <= 0.390625
  {
    MulMonotone(q, 625.0, d2);
  }

  lemma NearestSampleHits(origin: Vec3, dir: Vec3, v0: Vec3, player: Vec3, t: real)
    requires Len2(dir) <= 1.0 && v0 == Mul(dir, SNOWBALL_SPEED) && 0.0 <= t <= SNOWBALL_LIFE_SEC
    requires ClosestAt(origin, v0, player, t) && Dist2(PosAt(origin, v0, t), player) <= CLEARANCE2
    requires WithinHeight(Sample(origin, v0, NearestSample(t)), player)
    ensures HitsAt(origin, v0, player, NearestSample(t))
  {
    var d := SampleTime(NearestSample(t)) - t;
    var drift := (v0.x * v0.x + v0.z * v0.z) * (d * d);
    HalfStepDrift(dir, v0, d, drift);
    DistanceFromClosest(origin, v0, player, t, d, drift);
    assert t + d == SampleTime(NearestSample(t));
    assert HIT_RADIUS * HIT_RADIUS == 0.81;
  }

  /**
    No tunnelling: a player whose closest approach, within the life of the snowball, is within
    the clearance and at the right height at the nearest sample is found, so the shot has a victim.
   */
  lemma NoTunnelling(players: seq<Snapshot>, shooter: Id, origin: Vec3, dir: Vec3, now: int, k: nat, t: real)
    requires k < |players| && Eligible(players[k], shooter, now)
    requires Len2(dir) <= 1.0 && origin.y >= 0.0 && players[k].pos.y >= 0.0
    requires 0.0 <= t <= SNOWBALL_LIFE_SEC
    requires var v0 := Mul(dir, SNOWBALL_SPEED);
             && ClosestAt(origin, v0, players[k].pos, t)
             && Dist2(PosAt(origin, v0, t), players[k].pos) <= CLEARANCE2
             && WithinHeight(Sample(origin, v0, NearestSample(t)), players[k].pos)
    ensures var v0 := Mul(dir, SNOWBALL_SPEED);
            var r := FindVictim(players, shooter, origin, v0, now);
            && FirstHit(origin, v0, players[k].pos, 0).Some?
            && r.Some?
            && r.value.step <= FirstHit(origin, v0, players[k].pos, 0).value <= NearestSample(t)
  {
    var v0 := Mul(dir, SNOWBALL_SPEED);
    var i := NearestSample(t);
    NearestSampleHits(origin, dir, v0, players[k].pos, t);
    assert Airborne(origin, v0, i);
    BreakEqualsSkip(origin, v0, players[k].pos);
    var f := FirstHit(origin, v0, players[k].pos, 0);
    ReachedIsFirstHit(players, shooter, origin, v0, now, k, f.value);
    FindVictimIsEarliest(players, shooter, origin, v0, now);
  }

  /**
    The clearance is sharp: for every larger distance there is a horizontal unit shot whose closest
    approach, at that distance, falls between two samples and which hits nobody, at whatever height.
   */
  lemma ClearanceIsSharp(d: real, originY: real, playerY: real)
    requires d * d > CLEARANCE2
    ensures ClosestAt(Vec3(0.0, originY, 0.0), EASTWARD, Vec3(0.625, playerY, d), 0.025)
    ensures Dist2(PosAt(Vec3(0.0, originY, 0.0), EASTWARD, 0.025), Vec3(0.625, playerY, d)) == d * d
    ensures FirstHit(Vec3(0.0, originY, 0.0), EASTWARD, Vec3(0.625, playerY, d), 0).None?
  {
    var origin, player := Vec3(0.0, originY, 0.0), Vec3(0.625, playerY, d);
    forall i: nat
      ensures !HitsAt(origin, EASTWARD, player, i)
    {
      SampleStaysOff(d, originY, playerY, i);
    }
    NeverHit(origin, EASTWARD, player);
  }

  /** The velocity of a snowball thrown along the x axis. */
  const EASTWARD := Vec3(SNOWBALL_SPEED, 0.0, 0.0)

  lemma NeverHit(origin: Vec3, v0: Vec3, player: Vec3)
    requires forall i: nat :: !HitsAt(origin, v0, player, i)
    ensures FirstHit(origin, v0, player, 0).None?
  {
    FirstHitIsFirst(origin, v0, player, 0);
  }

  lemma SampleStaysOff(d: real, originY: real, playerY: real, i: nat)
    requires d * d > CLEARANCE2
    ensures !HitsAt(Vec3(0.0, originY, 0.0), EASTWARD, Vec3(0.625, playerY, d), i)
  {
    var p := Sample(Vec3(0.0, originY, 0.0), EASTWARD, i);
    var x := 1.25 * i as real - 0.625;
    assert p.x - 0.625 == x && p.z == 0.0;
    assert (0.0 - d) * (0.0 - d) == d * d;
    SquareBound(0.625, if x >= 0.0 then x else -x);
    assert x * x >= 0.625 * 0.625 == 0.390625;
    assert HIT_RADIUS * HIT_RADIUS == 0.81;
  }
}
