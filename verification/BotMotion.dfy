/** How the bots of bot.ts choose places, walk and aim. */
module BotMotion {
  import opened Protocol
  import opened Ballistics

  datatype Bot = Bot(
    name: string,
    pos: Vec3,
    rotY: real,
    vel: Vec3,
    hp: int,
    target: Option<Vec3>,
    lastShotAt: real,
    moveTimer: int)

  const SPAWN_SPAN := MAP_HALF * 1.5
  const SAFE_ZONE := MAP_HALF - 40.0
  const TREE_RADIUS := 25.0
  const BOT_SPEED := 3.0
  const BOT_DT := 0.05
  const ARRIVAL := 0.5
  const SHOT_INTERVAL := 10000.0
  const MOVE_INTERVAL := 3000

  /** How far a bot walks in one tick. */
  const STRIDE := 0.15

  predicate NearTree(x: real, z: real) {
    x * x + z * z <= TREE_RADIUS * TREE_RADIUS
  }

  function Clamp(v: real, half: real): (r: real)
    ensures half >= 0.0 ==> -half <= r <= half
  {
    var m := if v < half then v else half;
    if m > -half then m else -half
  }

  /**
    What a bot draws and computes while it chooses a place: `rand` is Math.random, `heading(n)` the
    cosine and sine of its n-th angle, `reach` its distance from the centre, `height` the terrain.
   */
  datatype Draws = Draws(rand: nat -> real, heading: nat -> (real, real), reach: real, height: (real, real) -> real)

  predicate IsUnit(h: (real, real)) {
    h.0 * h.0 + h.1 * h.1 == 1.0
  }

  ghost predicate DrawsOk(d: Draws) {
    && (forall i :: 0.0 <= d.rand(i) < 1.0)
    && (forall i :: IsUnit(d.heading(i)))
  }

  /** The n-th value drawn, between the first value of the interval and its end. */
  function Between(d: Draws, n: nat, from: real, width: real): real {
    from + d.rand(n) * width
  }

  lemma BetweenRange(d: Draws, n: nat, from: real, width: real)
    requires DrawsOk(d) && width > 0.0
    ensures from <= Between(d, n, from, width) < from + width
  {
    var r := d.rand(n);
    MulMonotone(0.0, r, width);
    MulPositive(1.0 - r, width, (1.0 - r) * width);
  }

  // --- spawn points ---

  const SPAWN_TRIES: nat := 50

  function SpawnX(d: Draws, n: nat): real { (d.rand(2 * n) - 0.5) * SPAWN_SPAN }
  function SpawnZ(d: Draws, n: nat): real { (d.rand(2 * n + 1) - 0.5) * SPAWN_SPAN }

  /** The first attempt, from the n-th on, that is away from the tree, or the last one. */
  function SpawnAttempt(d: Draws, n: nat): (r: nat)
    requires n < SPAWN_TRIES
    ensures n <= r < SPAWN_TRIES
    ensures forall m: nat :: n <= m < r ==> NearTree(SpawnX(d, m), SpawnZ(d, m))
    ensures r < SPAWN_TRIES - 1 ==> !NearTree(SpawnX(d, r), SpawnZ(d, r))
    decreases SPAWN_TRIES - n, d
  {
    if !NearTree(SpawnX(d, n), SpawnZ(d, n)) || n + 1 == SPAWN_TRIES then n else SpawnAttempt(d, n + 1)
  }

  function SpawnPos(d: Draws): Vec3 {
    var n := SpawnAttempt(d, 0);
    var x, z := Clamp(SpawnX(d, n), MAP_HALF), Clamp(SpawnZ(d, n), MAP_HALF);
    Vec3(x, d.height(x, z), z)
  }

  lemma SpawnRange(r: real)
    requires 0.0 <= r < 1.0
    ensures -SPAWN_SPAN / 2.0 <= (r - 0.5) * SPAWN_SPAN <= SPAWN_SPAN / 2.0
  {}

  /** A spawn point is the first random candidate away from the tree, or the 50th; within 142.5, so the clamp is idle. */
  lemma SpawnIsFirstClear(d: Draws)
    requires DrawsOk(d)
    ensures var n, p := SpawnAttempt(d, 0), SpawnPos(d);
            && p.x == SpawnX(d, n) && p.z == SpawnZ(d, n)
            && (n < 49 ==> p.x * p.x + p.z * p.z > 25.0 * 25.0)
            && InSquare(p, SPAWN_SPAN / 2.0) && InSquare(p, SAFE_ZONE)
  {
    var n := SpawnAttempt(d, 0);
    SpawnRange(d.rand(2 * n));
    SpawnRange(d.rand(2 * n + 1));
  }

  /** Every place of the square at least 25 from the centre is the spawn point of some random stream. */
  lemma SpawnReaches(x: real, z: real, height: (real, real) -> real) returns (d: Draws)
    requires -142.5 <= x < 142.5 && -142.5 <= z < 142.5 && x * x + z * z > 25.0 * 25.0
    ensures DrawsOk(d) && SpawnPos(d) == Vec3(x, height(x, z), z)
  {
    var rx, rz := x / 285.0 + 0.5, z / 285.0 + 0.5;
    d := Draws((n: nat) => if n % 2 == 0 then rx else rz, _ => (1.0, 0.0), 0.0, height);
    assert SpawnX(d, 0) == x && SpawnZ(d, 0) == z;
  }

  /** The attempts loop of getRandomSpawnPos. */
  method RandomSpawnPos(d: Draws) returns (p: Vec3)
    ensures p == SpawnPos(d)
    ensures DrawsOk(d) ==> InSquare(p, SPAWN_SPAN / 2.0)
  {
    var attempts := 0;
    var x, z := 0.0, 0.0;
    while attempts < SPAWN_TRIES
      invariant attempts <= SPAWN_TRIES
      invariant attempts < SPAWN_TRIES ==> SpawnAttempt(d, 0) == SpawnAttempt(d, attempts)
      invariant attempts == SPAWN_TRIES ==>
                  SpawnAttempt(d, 0) == attempts - 1 && x == SpawnX(d, attempts - 1) && z == SpawnZ(d, attempts - 1)
    {
      x := (d.rand(2 * attempts) - 0.5) * SPAWN_SPAN;
      z := (d.rand(2 * attempts + 1) - 0.5) * SPAWN_SPAN;
      assert x == SpawnX(d, attempts) && z == SpawnZ(d, attempts);
      attempts := attempts + 1;
      if !NearTree(x, z) { break; }
    }
    x, z := Clamp(x, MAP_HALF), Clamp(z, MAP_HALF);
    p := Vec3(x, d.height(x, z), z);
    if DrawsOk(d) { SpawnIsFirstClear(d); }
  }

  // --- walking targets ---

  const TARGET_TRIES: nat := 20

  function Candidate(cur: Vec3, heading: (real, real), distance: real): (real, real) {
    (Clamp(cur.x + heading.0 * distance, SAFE_ZONE), Clamp(cur.z + heading.1 * distance, SAFE_ZONE))
  }

  /** The n-th candidate of a bot in the safe zone: 10 to 30 away in a random direction. */
  function Nearby(cur: Vec3, d: Draws, n: nat): (real, real) {
    Candidate(cur, d.heading(n), Between(d, 2 * n + 1, 10.0, 20.0))
  }

  /** The first attempt, from the n-th on, that is away from the tree, or the last one. */
  function NearbyAttempt(cur: Vec3, d: Draws, n: nat): (r: nat)
    requires n < TARGET_TRIES
    ensures n <= r < TARGET_TRIES
    ensures forall m: nat :: n <= m < r ==> NearTree(Nearby(cur, d, m).0, Nearby(cur, d, m).1)
    ensures r < TARGET_TRIES - 1 ==> !NearTree(Nearby(cur, d, r).0, Nearby(cur, d, r).1)
    decreases TARGET_TRIES - n, d
  {
    var c := Nearby(cur, d, n);
    if !NearTree(c.0, c.1) || n + 1 == TARGET_TRIES then n else NearbyAttempt(cur, d, n + 1)
  }

  function NearbyTarget(cur: Vec3, d: Draws): (real, real) {
    Nearby(cur, d, NearbyAttempt(cur, d, 0))
  }

  /** The heading towards the centre; the arctangent of the origin itself is 0. */
  function Homeward(cur: Vec3, reach: real): (real, real) {
    if reach > 0.0 then (-cur.x / reach, -cur.z / reach) else (1.0, 0.0)
  }

  /** The target of a bot outside the safe zone: towards the centre, or a little off that line when it leads to the tree. */
  function HomewardTarget(cur: Vec3, d: Draws): (real, real) {
    var distance := Between(d, 0, 40.0, 30.0);
    var c := Candidate(cur, Homeward(cur, d.reach), distance);
    if c.0 * c.0 + c.1 * c.1 < TREE_RADIUS * TREE_RADIUS then Candidate(cur, d.heading(1), distance) else c
  }

  function MoveTarget(cur: Vec3, d: Draws): Vec3 {
    var c := if InSquare(cur, SAFE_ZONE) then NearbyTarget(cur, d) else HomewardTarget(cur, d);
    Vec3(c.0, d.height(c.0, c.1), c.1)
  }

  /** Clamping to the safe zone does not lengthen a step from inside it. */
  lemma ClampShortens(from: real, step: real)
    requires -SAFE_ZONE <= from <= SAFE_ZONE
    ensures var s := Clamp(from + step, SAFE_ZONE) - from; s * s <= step * step
  {
    var s := Clamp(from + step, SAFE_ZONE) - from;
    SquareBound(s, if step >= 0.0 then step else -step);
  }

  lemma UnitStep(h: (real, real), distance: real)
    requires IsUnit(h) && 10.0 <= distance <= 30.0
    ensures (h.0 * distance) * (h.0 * distance) + (h.1 * distance) * (h.1 * distance) <= 900.0
  {
    var m := distance * distance;
    assert (h.0 * distance) * (h.0 * distance) == h.0 * h.0 * m;
    assert (h.1 * distance) * (h.1 * distance) == h.1 * h.1 * m;
    assert h.0 * h.0 * m + h.1 * h.1 * m == (h.0 * h.0 + h.1 * h.1) * m;
    SquareBound(distance, 30.0);
  }

  lemma ClampedStep(cur: Vec3, dx: real, dz: real, p: Vec3)
    requires InSquare(cur, SAFE_ZONE) && dx * dx + dz * dz <= 900.0
    requires p.x == Clamp(cur.x + dx, SAFE_ZONE) && p.z == Clamp(cur.z + dz, SAFE_ZONE)
    ensures Dist2(p, cur) <= 900.0
  {
    ClampShortens(cur.x, dx);
    ClampShortens(cur.z, dz);
  }

  lemma CandidateIsNear(cur: Vec3, h: (real, real), distance: real, p: Vec3)
    requires InSquare(cur, SAFE_ZONE) && IsUnit(h) && 10.0 <= distance <= 30.0
    requires (p.x, p.z) == Candidate(cur, h, distance)
    ensures Dist2(p, cur) <= 900.0
  {
    UnitStep(h, distance);
    ClampedStep(cur, h.0 * distance, h.1 * distance, p);
  }

  /** Every target is in the safe zone. */
  lemma MoveTargetIsSafe(cur: Vec3, d: Draws)
    ensures InSquare(MoveTarget(cur, d), SAFE_ZONE)
  {}

  /**
    From inside the safe zone the target is the first of at most 20 candidates away from the
    tree, else the 20th, and at most 30 away.
   */
  lemma MoveTargetIsNearby(cur: Vec3, d: Draws)
    requires InSquare(cur, SAFE_ZONE) && DrawsOk(d)
    ensures var p, n := MoveTarget(cur, d), NearbyAttempt(cur, d, 0);
            && (p.x, p.z) == Nearby(cur, d, n)
            && (n < 19 ==> p.x * p.x + p.z * p.z > 25.0 * 25.0)
    ensures Dist2(MoveTarget(cur, d), cur) <= 900.0
  {
    NearbyIsNear(cur, d, NearbyAttempt(cur, d, 0), MoveTarget(cur, d));
  }

  lemma NearbyIsNear(cur: Vec3, d: Draws, n: nat, p: Vec3)
    requires InSquare(cur, SAFE_ZONE) && DrawsOk(d) && (p.x, p.z) == Nearby(cur, d, n)
    ensures Dist2(p, cur) <= 900.0
  {
    BetweenRange(d, 2 * n + 1, 10.0, 20.0);
    CandidateIsNear(cur, d.heading(n), Between(d, 2 * n + 1, 10.0, 20.0), p);
  }

  /** Every place of the zone that is 10 to 30 away in some direction and away from the tree is the target of some random stream. */
  lemma TargetReaches(cur: Vec3, h: (real, real), r: real, q: Vec3, height: (real, real) -> real) returns (d: Draws)
    requires InSquare(cur, SAFE_ZONE) && IsUnit(h) && 10.0 <= r < 30.0
    requires q.x == cur.x + h.0 * r && q.z == cur.z + h.1 * r && InSquare(q, 150.0) && q.x * q.x + q.z * q.z > 25.0 * 25.0
    ensures DrawsOk(d) && MoveTarget(cur, d) == Vec3(q.x, height(q.x, q.z), q.z)
  {
    var f := (r - 10.0) / 20.0;
    d := Draws(_ => f, _ => h, 0.0, height);
    assert Between(d, 1, 10.0, 20.0) == r;
    ClampedIsSame(cur, h, r, q);
    assert Nearby(cur, d, 0) == Candidate(cur, h, r);
  }

  lemma ClampedIsSame(cur: Vec3, h: (real, real), r: real, q: Vec3)
    requires q.x == cur.x + h.0 * r && q.z == cur.z + h.1 * r && InSquare(q, 150.0)
    ensures Candidate(cur, h, r) == (q.x, q.z)
  {
    ClampIsIdle(cur.x + h.0 * r);
    ClampIsIdle(cur.z + h.1 * r);
    assert Candidate(cur, h, r).0 == q.x && Candidate(cur, h, r).1 == q.z;
  }

  lemma ClampIsIdle(v: real)
    requires -150.0 <= v <= 150.0
    ensures Clamp(v, SAFE_ZONE) == v
  {}

  lemma OutsideIsFar(cur: Vec3, reach: real)
    requires IsDist(reach, cur, ZERO) && !InSquare(cur, SAFE_ZONE)
    ensures reach > SAFE_ZONE
  {
    Square(cur.x, cur.x * cur.x);
    Square(cur.z, cur.z * cur.z);
    var far := if cur.x > SAFE_ZONE then cur.x else if -cur.x > SAFE_ZONE then -cur.x else if cur.z > SAFE_ZONE then cur.z else -cur.z;
    SquareGrows(SAFE_ZONE, far);
    if reach <= SAFE_ZONE { SquareBound(reach, SAFE_ZONE); }
  }

  lemma FractionBelowOne(part: real, whole: real, f: real)
    requires 0.0 < part < whole && f * whole == part
    ensures 0.0 < f < 1.0
  {
    if f >= 1.0 { MulMonotone(1.0, f, whole); }
    if f <= 0.0 { MulMonotone(f, 0.0, whole); }
  }

  /** A step of `distance` along the unit heading from `x` to the centre. */
  lemma HomewardShrinks(x: real, reach: real, distance: real, h: real)
    requires 0.0 < distance < reach && h * reach == -x
    ensures var c := Clamp(x + h * distance, SAFE_ZONE);
            if x >= 0.0 then 0.0 <= c <= x else x <= c <= 0.0
  {
    var f := distance / reach;
    assert f * reach == distance;
    FractionBelowOne(distance, reach, f);
    assert h * distance == h * (f * reach) == f * (h * reach);
    assert f * (h * reach) == f * (0.0 - x);
    ConvexBounds(x, 0.0, f, x + h * distance);
  }

  lemma DivideBack(a: real, r: real)
    requires r > 0.0
    ensures -a / r * r == -a
  {}

  lemma HomewardHeading(cur: Vec3, reach: real)
    requires reach > 0.0
    ensures var h := Homeward(cur, reach); h.0 * reach == -cur.x && h.1 * reach == -cur.z
  {
    DivideBack(cur.x, reach);
    DivideBack(cur.z, reach);
  }

  lemma HomewardLine(cur: Vec3, reach: real, h: (real, real), distance: real)
    requires 0.0 < distance < reach && h.0 * reach == -cur.x && h.1 * reach == -cur.z
    ensures var c := Candidate(cur, h, distance);
            && (if cur.x >= 0.0 then 0.0 <= c.0 <= cur.x else cur.x <= c.0 <= 0.0)
            && (if cur.z >= 0.0 then 0.0 <= c.1 <= cur.z else cur.z <= c.1 <= 0.0)
  {
    HomewardShrinks(cur.x, reach, distance, h.0);
    HomewardShrinks(cur.z, reach, distance, h.1);
  }

  /** From outside the safe zone the first candidate leads towards the centre in both coordinates. */
  lemma HomewardApproaches(cur: Vec3, reach: real, distance: real)
    requires IsDist(reach, cur, ZERO) && !InSquare(cur, SAFE_ZONE) && 40.0 <= distance < 70.0
    ensures var c := Candidate(cur, Homeward(cur, reach), distance);
            && (if cur.x >= 0.0 then 0.0 <= c.0 <= cur.x else cur.x <= c.0 <= 0.0)
            && (if cur.z >= 0.0 then 0.0 <= c.1 <= cur.z else cur.z <= c.1 <= 0.0)
  {
    assert reach > SAFE_ZONE by { OutsideIsFar(cur, reach); }
    HomewardHeading(cur, reach);
    HomewardLine(cur, reach, Homeward(cur, reach), distance);
  }

  /**
    A bot outside the zone heads 40 to 70 units for the centre, `h` being that direction, or as far aside
    if that leads closer than 25 to it, and not beyond the zone.
   */
  lemma HomewardIsDrawn(cur: Vec3, d: Draws, h: (real, real))
    requires !InSquare(cur, 150.0) && d.reach > 0.0 && h.0 * d.reach == -cur.x && h.1 * d.reach == -cur.z
    ensures var r, p := 40.0 + d.rand(0) * 30.0, MoveTarget(cur, d);
            var c := Candidate(cur, h, r);
            (p.x, p.z) == if c.0 * c.0 + c.1 * c.1 < 25.0 * 25.0 then Candidate(cur, d.heading(1), r) else c
  {
    HeadingIs(cur, d.reach, h);
    OutsideHeadsHome(cur, d);
  }

  lemma OutsideHeadsHome(cur: Vec3, d: Draws)
    requires !InSquare(cur, 150.0)
    ensures var r, h, p := 40.0 + d.rand(0) * 30.0, Homeward(cur, d.reach), MoveTarget(cur, d);
            var c := Candidate(cur, h, r);
            (p.x, p.z) == if c.0 * c.0 + c.1 * c.1 < 25.0 * 25.0 then Candidate(cur, d.heading(1), r) else c
  {}

  lemma HeadingIs(cur: Vec3, reach: real, h: (real, real))
    requires reach > 0.0 && h.0 * reach == -cur.x && h.1 * reach == -cur.z
    ensures Homeward(cur, reach) == h
  {
    QuotientIs(-cur.x, reach, h.0);
    QuotientIs(-cur.z, reach, h.1);
  }

  lemma QuotientIs(a: real, b: real, q: real)
    requires b > 0.0 && q * b == a
    ensures a / b == q
  {}

  /** The branch of getRandomMoveTarget for bots outside the safe zone. */
  method MoveHomeward(cur: Vec3, d: Draws) returns (c: (real, real))
    ensures c == HomewardTarget(cur, d)
  {
    var distance := 40.0 + d.rand(0) * 30.0;
    c := Candidate(cur, Homeward(cur, d.reach), distance);
    if c.0 * c.0 + c.1 * c.1 < TREE_RADIUS * TREE_RADIUS {
      c := Candidate(cur, d.heading(1), distance);
    }
  }

  /** getRandomMoveTarget. */
  method RandomMoveTarget(cur: Vec3, d: Draws) returns (p: Vec3)
    ensures p == MoveTarget(cur, d)
    ensures InSquare(p, SAFE_ZONE)
  {
    var c := (0.0, 0.0);
    MoveTargetIsSafe(cur, d);
    if cur.x > SAFE_ZONE || -cur.x > SAFE_ZONE || cur.z > SAFE_ZONE || -cur.z > SAFE_ZONE {
      c := MoveHomeward(cur, d);
      return Vec3(c.0, d.height(c.0, c.1), c.1);
    }
    var attempts := 0;
    while attempts < TARGET_TRIES
      invariant attempts <= TARGET_TRIES
      invariant attempts < TARGET_TRIES ==> NearbyAttempt(cur, d, 0) == NearbyAttempt(cur, d, attempts)
      invariant attempts == TARGET_TRIES ==> NearbyAttempt(cur, d, 0) == attempts - 1 && c == Nearby(cur, d, attempts - 1)
    {
      c := Candidate(cur, d.heading(attempts), 10.0 + d.rand(2 * attempts + 1) * 20.0);
      assert c == Nearby(cur, d, attempts);
      attempts := attempts + 1;
      if !NearTree(c.0, c.1) { break; }
    }
    p := Vec3(c.0, d.height(c.0, c.1), c.1);
  }

  // --- walking ---

  /** `d` is the horizontal distance from `p` to `q`. */
  predicate IsDist(d: real, p: Vec3, q: Vec3) {
    d >= 0.0 && d * d == Dist2(p, q)
  }

  function Walked(from: real, to: real, dist: real): real
    requires dist > ARRIVAL
  {
    Clamp(from + (to - from) / dist * BOT_SPEED * BOT_DT, MAP_HALF)
  }

  /** One tick of movement; the bot follows the terrain. */
  function Advance(b: Bot, dist: real, height: (real, real) -> real, yaw: real): Bot {
    if b.target.None? then b
    else
      var t := b.target.value;
      if dist > ARRIVAL then
        var x, z := Walked(b.pos.x, t.x, dist), Walked(b.pos.z, t.z, dist);
        b.(vel := Vec3((t.x - b.pos.x) / dist * BOT_SPEED, b.vel.y, (t.z - b.pos.z) / dist * BOT_SPEED),
           rotY := yaw,
           pos := Vec3(x, height(x, z), z))
      else
        b.(vel := Vec3(0.0, b.vel.y, 0.0), target := None)
  }

  function Retarget(b: Bot, now: int, target: Vec3): Bot {
    if b.target.None? || now - b.moveTimer > MOVE_INTERVAL then b.(target := Some(target), moveTimer := now) else b
  }

  /** The walking part of a bot's turn, on the bot's own fields. */
  method WalkOneTick(bot: Bot, tickAt: int, d: Draws, dist: real, yaw: real) returns (b: Bot)
    ensures b == Advance(Retarget(bot, tickAt, MoveTarget(bot.pos, d)), dist, d.height, yaw)
  {
    b := bot;
    if b.target.None? || tickAt - b.moveTimer > MOVE_INTERVAL {
      var target := RandomMoveTarget(b.pos, d);
      b := b.(target := Some(target), moveTimer := tickAt);
    }
    var goal := b.target.value;
    if dist > ARRIVAL {
      var vx := (goal.x - b.pos.x) / dist * BOT_SPEED;
      var vz := (goal.z - b.pos.z) / dist * BOT_SPEED;
      var x, z := Clamp(b.pos.x + vx * BOT_DT, MAP_HALF), Clamp(b.pos.z + vz * BOT_DT, MAP_HALF);
      b := b.(vel := Vec3(vx, b.vel.y, vz), rotY := yaw, pos := Vec3(x, d.height(x, z), z));
    } else {
      b := b.(vel := Vec3(0.0, b.vel.y, 0.0), target := None);
    }
  }

  lemma Fraction(dist: real)
    requires dist > ARRIVAL
    ensures 0.0 < STRIDE / dist < 1.0 && STRIDE / dist * dist == STRIDE
  {}

  /** A stride is a convex step towards the target, and the map clamp never changes it. */
  lemma WalkedIsConvex(from: real, to: real, dist: real)
    requires dist > ARRIVAL
    requires -SAFE_ZONE <= from <= SAFE_ZONE && -SAFE_ZONE <= to <= SAFE_ZONE
    ensures var f := STRIDE / dist;
            Walked(from, to, dist) == from + f * (to - from)
            && to - Walked(from, to, dist) == (1.0 - f) * (to - from)
    ensures -SAFE_ZONE <= Walked(from, to, dist) <= SAFE_ZONE
  {
    var f := STRIDE / dist;
    Fraction(dist);
    assert (to - from) / dist * BOT_SPEED * BOT_DT == f * (to - from) by {
      var q := (to - from) / dist;
      assert q * dist == to - from;
      assert q * BOT_SPEED * BOT_DT == q * STRIDE;
      assert f * (to - from) == f * (q * dist) == (f * dist) * q;
    }
    var w := from + f * (to - from);
    ConvexBounds(from, to, f, w);
  }

  lemma ConvexBounds(from: real, to: real, f: real, w: real)
    requires 0.0 < f < 1.0 && w == from + f * (to - from)
    ensures from <= to ==> from <= w <= to
    ensures to <= from ==> to <= w <= from
  {
    if from <= to {
      var d := to - from;
      MulMonotone(0.0, f, d);
      MulMonotone(f, 1.0, d);
      assert w == from + f * d;
    } else {
      var d := from - to;
      MulMonotone(0.0, f, d);
      MulMonotone(f, 1.0, d);
      assert f * (to - from) == -(f * d);
      assert w == from - f * d;
    }
  }

  /** One tick keeps a bot in the safe zone and, while it walks, brings it exactly 0.15 closer to its target. */
  lemma AdvanceStaysAndApproaches(b: Bot, dist: real, height: (real, real) -> real, yaw: real)
    requires InSquare(b.pos, SAFE_ZONE)
    requires b.target.Some? ==> InSquare(b.target.value, SAFE_ZONE) && IsDist(dist, b.pos, b.target.value)
    ensures var r := Advance(b, dist, height, yaw);
            && InSquare(r.pos, SAFE_ZONE)
            && (r.target.Some? ==> r.target == b.target && dist > ARRIVAL && IsDist(dist - STRIDE, r.pos, b.target.value))
            && (r.target.None? ==> r.pos == b.pos)
  {
    if b.target.Some? && dist > ARRIVAL {
      var t := b.target.value;
      WalkedIsConvex(b.pos.x, t.x, dist);
      WalkedIsConvex(b.pos.z, t.z, dist);
      Shrink(t.x - b.pos.x, t.z - b.pos.z, dist, t.x - Walked(b.pos.x, t.x, dist), t.z - Walked(b.pos.z, t.z, dist));
    }
  }

  lemma SpeedIsThree(dx: real, dz: real, dist: real, vx: real, vz: real)
    requires dist > ARRIVAL && dist * dist == dx * dx + dz * dz && vx == dx / dist * 3.0 && vz == dz / dist * 3.0
    ensures vx * vx + vz * vz == 9.0
  {
    var qx, qz := dx / dist, dz / dist;
    var m := dist * dist;
    assert qx * dist == dx && qz * dist == dz;
    assert (qx * dist) * (qx * dist) == qx * qx * m && (qz * dist) * (qz * dist) == qz * qz * m;
    var e := qx * qx + qz * qz - 1.0;
    assert e * m == 0.0;
    Square(dist, m);
    Cancel(e, m);
    assert vx * vx == 9.0 * (qx * qx) && vz * vz == 9.0 * (qz * qz);
  }

  /**
    A walking bot moves at 3 units per second straight to its target, by its velocity times a twentieth of
    a second, on the ground; within half a unit of the target it stops and drops it.
   */
  lemma WalkIsStraight(b: Bot, dist: real, height: (real, real) -> real, yaw: real)
    requires InSquare(b.pos, SAFE_ZONE) && b.target.Some? && InSquare(b.target.value, SAFE_ZONE) && IsDist(dist, b.pos, b.target.value)
    ensures var r, t := Advance(b, dist, height, yaw), b.target.value;
            && (dist > 0.5 ==>
                  && r.target == b.target && r.rotY == yaw
                  && r.vel.x * r.vel.x + r.vel.z * r.vel.z == 9.0
                  && r.vel.x * dist == 3.0 * (t.x - b.pos.x) && r.vel.z * dist == 3.0 * (t.z - b.pos.z)
                  && r.pos.x == b.pos.x + 0.05 * r.vel.x && r.pos.z == b.pos.z + 0.05 * r.vel.z
                  && r.pos.y == height(r.pos.x, r.pos.z))
            && (dist <= 0.5 ==> r.target.None? && r.pos == b.pos && r.vel.x == 0.0 && r.vel.z == 0.0)
            && r.lastShotAt == b.lastShotAt && r.moveTimer == b.moveTimer && r.name == b.name
  {
    if dist > ARRIVAL { VelocityIsStraight(b.pos, b.target.value, dist, Advance(b, dist, height, yaw).vel); }
  }

  lemma VelocityIsStraight(p: Vec3, t: Vec3, dist: real, v: Vec3)
    requires InSquare(p, SAFE_ZONE) && InSquare(t, SAFE_ZONE) && IsDist(dist, p, t) && dist > ARRIVAL
    requires v.x == (t.x - p.x) / dist * 3.0 && v.z == (t.z - p.z) / dist * 3.0
    ensures v.x * v.x + v.z * v.z == 9.0 && v.x * dist == 3.0 * (t.x - p.x) && v.z * dist == 3.0 * (t.z - p.z)
    ensures Walked(p.x, t.x, dist) == p.x + 0.05 * v.x && Walked(p.z, t.z, dist) == p.z + 0.05 * v.z
  {
    WalkedByVelocity(p.x, t.x, dist, v.x);
    WalkedByVelocity(p.z, t.z, dist, v.z);
    OppositeSquares(p, t);
    SpeedIsThree(t.x - p.x, t.z - p.z, dist, v.x, v.z);
  }

  lemma OppositeSquares(p: Vec3, q: Vec3)
    ensures Dist2(p, q) == (q.x - p.x) * (q.x - p.x) + (q.z - p.z) * (q.z - p.z)
  {}

  lemma WalkedByVelocity(from: real, to: real, dist: real, v: real)
    requires dist > ARRIVAL && -SAFE_ZONE <= from <= SAFE_ZONE && -SAFE_ZONE <= to <= SAFE_ZONE && v == (to - from) / dist * 3.0
    ensures Walked(from, to, dist) == from + 0.05 * v && v * dist == 3.0 * (to - from)
  {
    WalkedIsConvex(from, to, dist);
    var q := (to - from) / dist;
    assert q * dist == to - from;
  }

  /** A target is at most 3 s old when the bot walks towards it, and is dropped before that only on arrival. */
  lemma TargetsAreFresh(b: Bot, now: int, target: Vec3)
    ensures var r := Retarget(b, now, target);
            && r.target.Some? && now - r.moveTimer <= 3000 && r.pos == b.pos && r.lastShotAt == b.lastShotAt
            && (if b.target.Some? && now - b.moveTimer <= 3000 then r == b else r.target == Some(target) && r.moveTimer == now)
  {}

  lemma Shrink(dx: real, dz: real, dist: real, ex: real, ez: real)
    requires dist > ARRIVAL && dist * dist == dx * dx + dz * dz
    requires ex == (1.0 - STRIDE / dist) * dx && ez == (1.0 - STRIDE / dist) * dz
    ensures (dist - STRIDE) * (dist - STRIDE) == ex * ex + ez * ez
  {}

  /** `n` ticks towards a fixed target. */
  function AdvanceN(b: Bot, dist: real, height: (real, real) -> real, yaw: real, n: nat): (r: Bot)
    requires b.target.Some? && InSquare(b.pos, SAFE_ZONE) && InSquare(b.target.value, SAFE_ZONE)
    requires IsDist(dist, b.pos, b.target.value)
    requires n > 0 ==> dist - STRIDE * (n - 1) as real > ARRIVAL
    ensures r.target == b.target && InSquare(r.pos, SAFE_ZONE)
    ensures IsDist(dist - STRIDE * n as real, r.pos, b.target.value)
    decreases n
  {
    if n == 0 then b
    else
      AdvanceStaysAndApproaches(b, dist, height, yaw);
      var next := Advance(b, dist, height, yaw);
      AdvanceN(next, dist - STRIDE, height, yaw, n - 1)
  }

  // --- aiming ---

  predicate IsBotId(id: Id) {
    "bot-" <= id
  }

  predicate Targetable(p: Snapshot) {
    !IsBotId(p.id) && p.hp > 0
  }

  /** The nearest living human among the first `n` players, the first of equals. */
  function NearestUpTo(players: seq<Snapshot>, from: Vec3, n: nat): (r: Option<nat>)
    requires n <= |players|
    ensures r.Some? ==> r.value < n && Targetable(players[r.value])
  {
    if n == 0 then None
    else
      var best := NearestUpTo(players, from, n - 1);
      if Targetable(players[n - 1]) && (best.None? || Dist2(players[n - 1].pos, from) < Dist2(players[best.value].pos, from))
      then Some(n - 1) else best
  }

  function Nearest(players: seq<Snapshot>, from: Vec3): (r: Option<nat>)
    ensures r.Some? ==> r.value < |players| && Targetable(players[r.value])
  {
    NearestUpTo(players, from, |players|)
  }

  lemma {:induction false} NearestIsMinimal(players: seq<Snapshot>, from: Vec3, n: nat)
    requires n <= |players|
    ensures var r := NearestUpTo(players, from, n);
            && (r.None? ==> forall k :: 0 <= k < n ==> !Targetable(players[k]))
            && (r.Some? ==> forall k :: 0 <= k < n && Targetable(players[k]) ==>
                  Dist2(players[r.value].pos, from) < Dist2(players[k].pos, from)
                  || (Dist2(players[r.value].pos, from) == Dist2(players[k].pos, from) && r.value <= k))
  {
    if n > 0 {
      NearestIsMinimal(players, from, n - 1);
    }
  }

  /** The loop of findNearestPlayer, comparing squared distances. */
  method FindNearestPlayer(players: seq<Snapshot>, from: Vec3) returns (nearest: Option<nat>)
    ensures nearest == Nearest(players, from)
    ensures nearest.None? <==> forall k :: 0 <= k < |players| ==> !Targetable(players[k])
    ensures nearest.Some? ==> nearest.value < |players| && Targetable(players[nearest.value])
    ensures nearest.Some? ==> forall k :: 0 <= k < |players| && Targetable(players[k]) ==>
              Dist2(players[nearest.value].pos, from) <= Dist2(players[k].pos, from)
  {
    nearest := None;
    var minDist := 0.0;
    for k := 0 to |players|
      invariant nearest == NearestUpTo(players, from, k)
      invariant nearest.Some? ==> minDist == Dist2(players[nearest.value].pos, from)
    {
      var p := players[k];
      if IsBotId(p.id) { continue; }
      if p.hp <= 0 { continue; }
      var dist := Dist2(p.pos, from);
      if nearest.None? || dist < minDist {
        nearest, minDist := Some(k), dist;
      }
    }
    NearestIsMinimal(players, from, |players|);
  }
}
