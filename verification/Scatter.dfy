/** The placement of scenery models by bounded rejection sampling (client_src/environment.js). */
module Scatter {
  import opened Protocol

  const HALF := MAP_HALF - 10.0
  const FLAT_OFFSET := 4.0
  const MAX_SLOPE := 0.3
  const INSTANCES: nat := 2
  const MIN_DISTANCE := 15.0
  const CENTRE_RADIUS := 25.0
  const MAX_ATTEMPTS: nat := 50

  /** `turn` is the rotation as a fraction of a full turn. */
  datatype Placement = Placement(name: string, x: real, y: real, z: real, turn: real, scale: real)

  /** The models placed, and how many random numbers were drawn. */
  datatype Scene = Scene(placed: seq<Placement>, drawn: nat)

  function Gap2(x: real, z: real, p: Placement): real {
    (x - p.x) * (x - p.x) + (z - p.z) * (z - p.z)
  }

  predicate TooClose(placed: seq<Placement>, x: real, z: real) {
    || x * x + z * z < CENTRE_RADIUS * CENTRE_RADIUS
    || exists i :: 0 <= i < |placed| && Gap2(x, z, placed[i]) < MIN_DISTANCE * MIN_DISTANCE
  }

  method IsTooClose(placed: seq<Placement>, x: real, z: real) returns (close: bool)
    ensures close == TooClose(placed, x, z)
  {
    if x * x + z * z < CENTRE_RADIUS * CENTRE_RADIUS { return true; }
    for i := 0 to |placed|
      invariant forall k :: 0 <= k < i ==> Gap2(x, z, placed[k]) >= MIN_DISTANCE * MIN_DISTANCE
    {
      var dx, dz := x - placed[i].x, z - placed[i].z;
      var gap := dx * dx + dz * dz;
      assert gap == Gap2(x, z, placed[i]);
      if gap < MIN_DISTANCE * MIN_DISTANCE { return true; }
    }
    return false;
  }

  /** The terrain heights at a place and its eight neighbours. */
  function Heights(terrain: (real, real) -> real, x: real, z: real): (h: seq<real>)
    ensures |h| == 9 && h[0] == terrain(x, z)
  {
    var o := FLAT_OFFSET;
    [terrain(x, z), terrain(x + o, z), terrain(x - o, z), terrain(x, z + o), terrain(x, z - o),
     terrain(x + o, z + o), terrain(x - o, z + o), terrain(x + o, z - o), terrain(x - o, z - o)]
  }

  function MinOf(h: seq<real>): (m: real)
    requires |h| > 0
    ensures m in h && forall i :: 0 <= i < |h| ==> m <= h[i]
  {
    if |h| == 1 then h[0] else var m := MinOf(h[1..]); if h[0] < m then h[0] else m
  }

  function MaxOf(h: seq<real>): (m: real)
    requires |h| > 0
    ensures m in h && forall i :: 0 <= i < |h| ==> h[i] <= m
  {
    if |h| == 1 then h[0] else var m := MaxOf(h[1..]); if h[0] > m then h[0] else m
  }

  predicate TooSteep(terrain: (real, real) -> real, x: real, z: real) {
    var h := Heights(terrain, x, z);
    MaxOf(h) - MinOf(h) > MAX_SLOPE
  }

  function Steepness(terrain: (real, real) -> real): (real, real) -> bool {
    (x, z) => TooSteep(terrain, x, z)
  }

  function Coordinate(r: real): real {
    (r - 0.5) * HALF * 2.0
  }

  /** The candidate drawn at position `at` of the random stream can be taken; `steep` says where the ground is too steep. */
  predicate Acceptable(rng: nat -> real, steep: (real, real) -> bool, placed: seq<Placement>, at: nat) {
    var x, z := Coordinate(rng(at)), Coordinate(rng(at + 1));
    !TooClose(placed, x, z) && !steep(x, z)
  }

  /** Where in the random stream the accepted candidate is, if one of the remaining attempts succeeds. */
  function Search(rng: nat -> real, steep: (real, real) -> bool, placed: seq<Placement>, at: nat, attempts: nat): (r: Option<nat>)
    requires attempts <= MAX_ATTEMPTS
    ensures r.Some? ==> at <= r.value <= at + 2 * (MAX_ATTEMPTS - attempts) - 2
    decreases MAX_ATTEMPTS - attempts, placed
  {
    if attempts == MAX_ATTEMPTS then None
    else if Acceptable(rng, steep, placed, at) then Some(at)
    else Search(rng, steep, placed, at + 2, attempts + 1)
  }

  lemma {:induction false} SearchFindsAcceptable(rng: nat -> real, steep: (real, real) -> bool, placed: seq<Placement>, at: nat, attempts: nat)
    requires attempts <= MAX_ATTEMPTS
    ensures var r := Search(rng, steep, placed, at, attempts);
            r.Some? ==> Acceptable(rng, steep, placed, r.value)
    decreases MAX_ATTEMPTS - attempts
  {
    if attempts < MAX_ATTEMPTS && !Acceptable(rng, steep, placed, at) {
      SearchFindsAcceptable(rng, steep, placed, at + 2, attempts + 1);
    }
  }

  /** A search takes the first acceptable candidate, and fails only if all its candidates are unacceptable. */
  lemma {:induction false} SearchIsFirst(rng: nat -> real, steep: (real, real) -> bool, placed: seq<Placement>, at: nat, attempts: nat, k: nat)
    requires attempts <= MAX_ATTEMPTS && k < MAX_ATTEMPTS - attempts
    requires var r := Search(rng, steep, placed, at, attempts); r.Some? ==> at + 2 * k < r.value
    ensures !Acceptable(rng, steep, placed, at + 2 * k)
    decreases MAX_ATTEMPTS - attempts, placed
  {
    if k > 0 {
      SearchIsFirst(rng, steep, placed, at + 2, attempts + 1, k - 1);
      assert at + 2 + 2 * (k - 1) == at + 2 * k;
    }
  }

  function Place(name: string, rng: nat -> real, terrain: (real, real) -> real, at: nat): Placement {
    var x, z := Coordinate(rng(at)), Coordinate(rng(at + 1));
    Placement(name, x, terrain(x, z), z, rng(at + 2), (0.7 + rng(at + 3) * 0.6) * 9.0)
  }

  /** The scene with one more instance, of the model `name`. */
  function AddInstance(s: Scene, name: string, rng: nat -> real, terrain: (real, real) -> real, steep: (real, real) -> bool): Scene {
    match Search(rng, steep, s.placed, s.drawn, 0)
    case None => Scene(s.placed, s.drawn + 2 * MAX_ATTEMPTS)
    case Some(at) => Scene(s.placed + [Place(name, rng, terrain, at)], at + 4)
  }

  /** The scene after the first `n` instances; instance `i` shows model `names[i / 2]`. */
  function SceneOf(names: seq<string>, rng: nat -> real, terrain: (real, real) -> real, steep: (real, real) -> bool, n: nat): Scene
    requires n <= INSTANCES * |names|
  {
    if n == 0 then Scene([], 0)
    else AddInstance(SceneOf(names, rng, terrain, steep, n - 1), names[(n - 1) / INSTANCES], rng, terrain, steep)
  }

  // --- what every scene satisfies ---

  ghost predicate WellPlaced(terrain: (real, real) -> real, steep: (real, real) -> bool, p: Placement) {
    && -HALF <= p.x <= HALF && -HALF <= p.z <= HALF
    && p.x * p.x + p.z * p.z >= CENTRE_RADIUS * CENTRE_RADIUS
    && p.y == terrain(p.x, p.z)
    && !steep(p.x, p.z)
  }

  ghost predicate Separated(placed: seq<Placement>) {
    forall i, j :: 0 <= i < j < |placed| ==> Gap2(placed[j].x, placed[j].z, placed[i]) >= MIN_DISTANCE * MIN_DISTANCE
  }

  ghost predicate SceneOk(s: Scene, terrain: (real, real) -> real, steep: (real, real) -> bool) {
    Separated(s.placed) && forall i :: 0 <= i < |s.placed| ==> WellPlaced(terrain, steep, s.placed[i])
  }

  function Shown(placed: seq<Placement>, name: string): nat {
    if |placed| == 0 then 0 else Shown(placed[..|placed| - 1], name) + (if placed[|placed| - 1].name == name then 1 else 0)
  }

  function Slots(names: seq<string>, n: nat, name: string): nat
    requires n <= INSTANCES * |names|
  {
    if n == 0 then 0 else Slots(names, n - 1, name) + (if names[(n - 1) / INSTANCES] == name then 1 else 0)
  }

  function Occurrences(names: seq<string>, name: string): nat {
    if |names| == 0 then 0 else Occurrences(names[..|names| - 1], name) + (if names[|names| - 1] == name then 1 else 0)
  }

  lemma {:induction false} SlotsArePairs(names: seq<string>, k: nat, name: string)
    requires k <= |names|
    ensures Slots(names, INSTANCES * k, name) == INSTANCES * Occurrences(names[..k], name)
  {
    if k > 0 {
      SlotsArePairs(names, k - 1, name);
      assert names[..k][..k - 1] == names[..k - 1];
      assert (2 * k - 1) / INSTANCES == k - 1 && (2 * k - 2) / INSTANCES == k - 1;
    }
  }

  lemma PlaceIsGood(name: string, rng: nat -> real, terrain: (real, real) -> real, steep: (real, real) -> bool, placed: seq<Placement>, at: nat)
    requires 0.0 <= rng(at) < 1.0 && 0.0 <= rng(at + 1) < 1.0
    requires Acceptable(rng, steep, placed, at) && Separated(placed)
    ensures var p := Place(name, rng, terrain, at);
            WellPlaced(terrain, steep, p) && Separated(placed + [p])
  {}

  lemma AddInstanceIsGood(s: Scene, name: string, rng: nat -> real, terrain: (real, real) -> real, steep: (real, real) -> bool)
    requires SceneOk(s, terrain, steep) && forall i :: 0.0 <= rng(i) < 1.0
    ensures SceneOk(AddInstance(s, name, rng, terrain, steep), terrain, steep)
  {
    var found := Search(rng, steep, s.placed, s.drawn, 0);
    SearchFindsAcceptable(rng, steep, s.placed, s.drawn, 0);
    if found.Some? { PlaceIsGood(name, rng, terrain, steep, s.placed, found.value); }
  }

  lemma AddInstanceCounts(s: Scene, name: string, rng: nat -> real, terrain: (real, real) -> real, steep: (real, real) -> bool, other: string)
    ensures var s' := AddInstance(s, name, rng, terrain, steep);
            && s'.drawn <= s.drawn + 102
            && Shown(s'.placed, other) <= Shown(s.placed, other) + (if name == other then 1 else 0)
  {}

  // --- nothing acceptable is passed over ---

  /** The candidate is at least 25 from the centre, at least 15 from every placed model, and on ground that is not steep. */
  ghost predicate Roomy(placed: seq<Placement>, steep: (real, real) -> bool, x: real, z: real) {
    && x * x + z * z >= 25.0 * 25.0 && !steep(x, z)
    && forall i :: 0 <= i < |placed| ==> (x - placed[i].x) * (x - placed[i].x) + (z - placed[i].z) * (z - placed[i].z) >= 15.0 * 15.0
  }

  lemma AcceptableIsRoomy(rng: nat -> real, steep: (real, real) -> bool, placed: seq<Placement>, at: nat)
    ensures Acceptable(rng, steep, placed, at) <==> Roomy(placed, steep, (rng(at) - 0.5) * 360.0, (rng(at + 1) - 0.5) * 360.0)
  {
    var x, z := (rng(at) - 0.5) * 360.0, (rng(at + 1) - 0.5) * 360.0;
    assert Coordinate(rng(at)) == x && Coordinate(rng(at + 1)) == z;
    assert forall i :: 0 <= i < |placed| ==>
             Gap2(x, z, placed[i]) == (x - placed[i].x) * (x - placed[i].x) + (z - placed[i].z) * (z - placed[i].z);
  }

  /** None of the first `n` candidates of an instance is acceptable. */
  ghost predicate AllRefused(s: Scene, rng: nat -> real, steep: (real, real) -> bool, n: nat) {
    forall j: nat :: j < n ==> !Acceptable(rng, steep, s.placed, s.drawn + 2 * j)
  }

  lemma Refused(s: Scene, rng: nat -> real, steep: (real, real) -> bool, n: nat)
    requires n <= 50
    requires var r := Search(rng, steep, s.placed, s.drawn, 0); r.Some? ==> s.drawn + 2 * n <= r.value
    ensures AllRefused(s, rng, steep, n)
  {
    forall j: nat | j < n ensures !Acceptable(rng, steep, s.placed, s.drawn + 2 * j) {
      SearchIsFirst(rng, steep, s.placed, s.drawn, 0, j);
    }
  }

  /** An instance is placed at its first roomy candidate, and skipped exactly if none of its 50 candidates is roomy. */
  lemma InstanceIsPlaced(s: Scene, name: string, rng: nat -> real, terrain: (real, real) -> real, steep: (real, real) -> bool)
    returns (k: nat)
    ensures k <= 50 && AllRefused(s, rng, steep, k)
    ensures k == 50 ==> AddInstance(s, name, rng, terrain, steep) == Scene(s.placed, s.drawn + 100)
    ensures k < 50 ==>
              var at := s.drawn + 2 * k;
              var x, z := (rng(at) - 0.5) * 360.0, (rng(at + 1) - 0.5) * 360.0;
              && Roomy(s.placed, steep, x, z)
              && AddInstance(s, name, rng, terrain, steep)
                 == Scene(s.placed + [Placement(name, x, terrain(x, z), z, rng(at + 2), 6.3 + rng(at + 3) * 5.4)], at + 4)
  {
    var r := Search(rng, steep, s.placed, s.drawn, 0);
    if r.None? {
      k := 50;
      Refused(s, rng, steep, 50);
    } else {
      SearchFindsAcceptable(rng, steep, s.placed, s.drawn, 0);
      SearchIsEven(rng, steep, s.placed, s.drawn, 0);
      k := (r.value - s.drawn) / 2;
      assert s.drawn + 2 * k == r.value;
      Refused(s, rng, steep, k);
      AcceptableIsRoomy(rng, steep, s.placed, r.value);
      PlaceIsDrawn(name, rng, terrain, r.value);
    }
  }

  lemma PlaceIsDrawn(name: string, rng: nat -> real, terrain: (real, real) -> real, at: nat)
    ensures var x, z := (rng(at) - 0.5) * 360.0, (rng(at + 1) - 0.5) * 360.0;
            Place(name, rng, terrain, at) == Placement(name, x, terrain(x, z), z, rng(at + 2), 6.3 + rng(at + 3) * 5.4)
  {}

  lemma {:induction false} SearchIsEven(rng: nat -> real, steep: (real, real) -> bool, placed: seq<Placement>, at: nat, attempts: nat)
    requires attempts <= MAX_ATTEMPTS
    ensures var r := Search(rng, steep, placed, at, attempts); r.Some? ==> (r.value - at) % 2 == 0
    decreases MAX_ATTEMPTS - attempts, placed
  {
    if attempts < MAX_ATTEMPTS && !Acceptable(rng, steep, placed, at) { SearchIsEven(rng, steep, placed, at + 2, attempts + 1); }
  }

  predicate Offset(o: real) {
    o == -4.0 || o == 0.0 || o == 4.0
  }

  ghost predicate Flat(terrain: (real, real) -> real, x: real, z: real) {
    forall a, b, c, d :: Offset(a) && Offset(b) && Offset(c) && Offset(d) ==> terrain(x + a, z + b) - terrain(x + c, z + d) <= 0.3
  }

  lemma SteepIsNotFlat(terrain: (real, real) -> real, x: real, z: real)
    requires TooSteep(terrain, x, z)
    ensures !Flat(terrain, x, z)
  {
    var h := Heights(terrain, x, z);
    var a, b := WhichPoint(terrain, x, z, MaxOf(h));
    var c, d := WhichPoint(terrain, x, z, MinOf(h));
  }

  lemma WhichPoint(terrain: (real, real) -> real, x: real, z: real, y: real) returns (a: real, b: real)
    requires y in Heights(terrain, x, z)
    ensures Offset(a) && Offset(b) && terrain(x + a, z + b) == y
  {
    var i :| 0 <= i < 9 && Heights(terrain, x, z)[i] == y;
    a, b := EAST[i], NORTH[i];
    NinePoints(terrain, x, z, i);
  }

  lemma PointBetween(terrain: (real, real) -> real, x: real, z: real, a: real, b: real)
    requires Offset(a) && Offset(b)
    ensures var h := Heights(terrain, x, z); MinOf(h) <= terrain(x + a, z + b) <= MaxOf(h)
  {
    var i := if b == 0.0 then (if a == 0.0 then 0 else if a == 4.0 then 1 else 2)
             else if b == 4.0 then (if a == 0.0 then 3 else if a == 4.0 then 5 else 6)
             else if a == 0.0 then 4 else if a == 4.0 then 7 else 8;
    NinePoints(terrain, x, z, i);
    assert Heights(terrain, x, z)[i] in Heights(terrain, x, z);
  }

  lemma NearIsFlat(terrain: (real, real) -> real, x: real, z: real)
    requires !TooSteep(terrain, x, z)
    ensures Flat(terrain, x, z)
  {
    forall a, b, c, d | Offset(a) && Offset(b) && Offset(c) && Offset(d)
      ensures terrain(x + a, z + b) - terrain(x + c, z + d) <= 0.3
    {
      PointBetween(terrain, x, z, a, b);
      PointBetween(terrain, x, z, c, d);
    }
  }

  /** The ground at a place is flat enough exactly if the heights of the place and its eight neighbours differ by at most 0.3. */
  lemma FlatGround(terrain: (real, real) -> real, x: real, z: real)
    ensures !TooSteep(terrain, x, z) <==> Flat(terrain, x, z)
  {
    if TooSteep(terrain, x, z) { SteepIsNotFlat(terrain, x, z); } else { NearIsFlat(terrain, x, z); }
  }

  const EAST: seq<real> := [0.0, 4.0, -4.0, 0.0, 0.0, 4.0, -4.0, 4.0, -4.0]
  const NORTH: seq<real> := [0.0, 0.0, 0.0, 4.0, -4.0, 4.0, 4.0, -4.0, -4.0]

  lemma NinePoints(terrain: (real, real) -> real, x: real, z: real, i: nat)
    requires i < 9
    ensures Offset(EAST[i]) && Offset(NORTH[i]) && Heights(terrain, x, z)[i] == terrain(x + EAST[i], z + NORTH[i])
  {
    assert x + 0.0 == x && z + 0.0 == z && x + -4.0 == x - 4.0 && z + -4.0 == z - 4.0;
  }

  lemma {:induction false} SceneIsGood(names: seq<string>, rng: nat -> real, terrain: (real, real) -> real, steep: (real, real) -> bool, n: nat)
    requires n <= INSTANCES * |names| && forall i :: 0.0 <= rng(i) < 1.0
    ensures SceneOk(SceneOf(names, rng, terrain, steep, n), terrain, steep)
  {
    if n > 0 {
      SceneIsGood(names, rng, terrain, steep, n - 1);
      AddInstanceIsGood(SceneOf(names, rng, terrain, steep, n - 1), names[(n - 1) / INSTANCES], rng, terrain, steep);
    }
  }

  lemma {:induction false} SceneDraws(names: seq<string>, rng: nat -> real, terrain: (real, real) -> real, steep: (real, real) -> bool, n: nat, s: Scene)
    requires n <= INSTANCES * |names| && s == SceneOf(names, rng, terrain, steep, n)
    ensures s.drawn <= 102 * n
    decreases n
  {
    if n > 0 {
      var s0 := SceneOf(names, rng, terrain, steep, n - 1);
      SceneDraws(names, rng, terrain, steep, n - 1, s0);
      AddInstanceCounts(s0, names[(n - 1) / INSTANCES], rng, terrain, steep, "");
    }
  }

  lemma {:induction false} SceneShows(names: seq<string>, rng: nat -> real, terrain: (real, real) -> real, steep: (real, real) -> bool, n: nat, name: string)
    requires n <= INSTANCES * |names|
    ensures Shown(SceneOf(names, rng, terrain, steep, n).placed, name) <= Slots(names, n, name)
  {
    if n > 0 {
      SceneShows(names, rng, terrain, steep, n - 1, name);
      AddInstanceCounts(SceneOf(names, rng, terrain, steep, n - 1), names[(n - 1) / INSTANCES], rng, terrain, steep, name);
    }
  }

  // --- the loops ---

  /** Draws one candidate and tests it. */
  method TryCandidate(rng: nat -> real, steep: (real, real) -> bool, placed: seq<Placement>, at: nat) returns (ok: bool)
    ensures ok == Acceptable(rng, steep, placed, at)
  {
    var x, z := Coordinate(rng(at)), Coordinate(rng(at + 1));
    var close := IsTooClose(placed, x, z);
    if close { return false; }
    return !steep(x, z);
  }

  lemma SearchStep(rng: nat -> real, steep: (real, real) -> bool, placed: seq<Placement>, at: nat, attempts: nat, ok: bool)
    requires attempts < MAX_ATTEMPTS && ok == Acceptable(rng, steep, placed, at)
    ensures Search(rng, steep, placed, at, attempts) == if ok then Some(at) else Search(rng, steep, placed, at + 2, attempts + 1)
  {}

  /** The attempts loop: draws pairs until one is acceptable or 50 have failed. */
  method FindPlace(rng: nat -> real, steep: (real, real) -> bool, placed: seq<Placement>, start: nat) returns (found: Option<nat>, drawn: nat)
    ensures found == Search(rng, steep, placed, start, 0)
    ensures drawn == if found.Some? then found.value + 2 else start + 2 * MAX_ATTEMPTS
  {
    drawn := start;
    var attempts := 0;
    ghost var goal := Search(rng, steep, placed, start, 0);
    while attempts < MAX_ATTEMPTS
      invariant attempts <= MAX_ATTEMPTS && drawn == start + 2 * attempts
      invariant goal == Search(rng, steep, placed, drawn, attempts)
    {
      var ok := TryCandidate(rng, steep, placed, drawn);
      SearchStep(rng, steep, placed, drawn, attempts, ok);
      attempts := attempts + 1;
      drawn := drawn + 2;
      if ok { return Some(drawn - 2), drawn; }
    }
    return None, drawn;
  }

  /** One instance: find a place and, if there is one, draw its rotation and scale. */
  method PlaceOne(s: Scene, name: string, rng: nat -> real, terrain: (real, real) -> real, steep: (real, real) -> bool) returns (r: Scene)
    ensures r == AddInstance(s, name, rng, terrain, steep)
  {
    var found, drawn := FindPlace(rng, steep, s.placed, s.drawn);
    if found.None? { return Scene(s.placed, drawn); }
    var x, z := Coordinate(rng(found.value)), Coordinate(rng(found.value + 1));
    var turn, scale := rng(drawn), (0.7 + rng(drawn + 1) * 0.6) * 9.0;
    return Scene(s.placed + [Placement(name, x, terrain(x, z), z, turn, scale)], drawn + 2);
  }

  function AddInstances(s: Scene, name: string, rng: nat -> real, terrain: (real, real) -> real, steep: (real, real) -> bool, n: nat): Scene {
    if n == 0 then s else AddInstance(AddInstances(s, name, rng, terrain, steep, n - 1), name, rng, terrain, steep)
  }

  lemma {:induction false} SceneOfModel(names: seq<string>, rng: nat -> real, terrain: (real, real) -> real, steep: (real, real) -> bool, k: nat, n: nat)
    requires k < |names| && n <= INSTANCES
    ensures SceneOf(names, rng, terrain, steep, INSTANCES * k + n)
            == AddInstances(SceneOf(names, rng, terrain, steep, INSTANCES * k), names[k], rng, terrain, steep, n)
  {
    if n > 0 {
      SceneOfModel(names, rng, terrain, steep, k, n - 1);
      assert (INSTANCES * k + n - 1) / INSTANCES == k;
    }
  }

  method PlaceInstances(s0: Scene, name: string, rng: nat -> real, terrain: (real, real) -> real, steep: (real, real) -> bool, count: nat)
    returns (s: Scene)
    ensures s == AddInstances(s0, name, rng, terrain, steep, count)
  {
    s := s0;
    for n := 0 to count
      invariant s == AddInstances(s0, name, rng, terrain, steep, n)
    {
      s := PlaceOne(s, name, rng, terrain, steep);
    }
  }

  method PlaceAll(names: seq<string>, rng: nat -> real, terrain: (real, real) -> real, steep: (real, real) -> bool) returns (s: Scene)
    ensures s == SceneOf(names, rng, terrain, steep, INSTANCES * |names|)
  {
    s := Scene([], 0);
    for k := 0 to |names|
      invariant s == SceneOf(names, rng, terrain, steep, INSTANCES * k)
    {
      SceneOfModel(names, rng, terrain, steep, k, INSTANCES);
      assert INSTANCES * (k + 1) == INSTANCES * k + INSTANCES;
      s := PlaceInstances(s, names[k], rng, terrain, steep, INSTANCES);
    }
  }

  /**
    For every random stream and every terrain: models are pairwise at least 15 apart, at least 25
    from the centre, inside the map margin and on flat ground; a model listed once is shown at
    most twice; and each instance draws at most 102 random numbers.
   */
  method ScatterModels(names: seq<string>, rng: nat -> real, terrain: (real, real) -> real) returns (s: Scene)
    requires forall i :: 0.0 <= rng(i) < 1.0
    ensures s == SceneOf(names, rng, terrain, Steepness(terrain), INSTANCES * |names|)
    ensures Separated(s.placed)
    ensures forall i :: 0 <= i < |s.placed| ==> WellPlaced(terrain, Steepness(terrain), s.placed[i])
    ensures forall name :: Shown(s.placed, name) <= INSTANCES * Occurrences(names, name)
    ensures s.drawn <= 204 * |names|
  {
    var steep := Steepness(terrain);
    s := PlaceAll(names, rng, terrain, steep);
    SceneIsGood(names, rng, terrain, steep, INSTANCES * |names|);
    SceneDraws(names, rng, terrain, steep, INSTANCES * |names|, s);
    forall name ensures Shown(s.placed, name) <= INSTANCES * Occurrences(names, name) {
      SceneShows(names, rng, terrain, steep, INSTANCES * |names|, name);
      SlotsArePairs(names, |names|, name);
      assert names[..|names|] == names;
    }
  }
}
