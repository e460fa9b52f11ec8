/**
  From the message to the hit: which snowball a message or a bot's turn throws,
  that the server resolves exactly the snowballs it announced, and whom they
  strike.
 */
module Throws {
  import opened Protocol
  import opened OrderedMap
  import opened Ballistics
  import opened BotMotion
  import opened GameWorld
  import opened Invariants
  import opened Evolution
  import ShotFilter

  // --- what a throw announces ---

  /** The event is a snowball of `owner` from 1.3 above `feet`, at full speed. */
  predicate ThrownFrom(b: Body, owner: Id, feet: Vec3) {
    && b.Snowball? && b.ownerId == owner && b.speed == 25.0
    && b.origin == Vec3(feet.x, feet.y + 1.3, feet.z) && Len2(b.dir) <= 1.0
  }

  /** `len` times the announced direction is the vector `v`. */
  predicate Directed(b: Body, v: Vec3, len: real)
    requires b.Snowball?
  {
    b.dir.x * len == v.x && b.dir.y * len == v.y && b.dir.z * len == v.z
  }

  lemma NormIsDirected(v: Vec3, len: real)
    requires IsHypot(len, v)
    ensures var u := Norm(v, len); u.x * len == v.x && u.y * len == v.y && u.z * len == v.z && Len2(u) <= 1.0
  {
    NormIsShort(v, len);
    HypotVanishes(v, len);
    if len != 0.0 { NormScales(v, len); }
  }

  /**
    A client's message throws exactly one snowball, along the vector of the message from 1.3 above
    the client's place, under the message's id if that is 8 to 64 long; it throws none if the vector
    is not finite, the id was seen less than 10 s ago, or the client has no snapshot.
   */
  lemma ClientThrows(w: World, id: Id, dir: Option<Vec3>, len: real, msgId: string, uuid: string) returns (b: Option<Body>)
    requires dir.Some? ==> IsHypot(len, dir.value)
    ensures var w' := HandleSnowball(w, id, dir, len, msgId, uuid);
            var x := if 8 <= |msgId| <= 64 then msgId else uuid;
            && (b.None? <==> dir.None? || ShotFilter.Refuses(w.shots, x, w.now) || id !in w.cache.entries)
            && (b.None? ==> w'.log == w.log && w'.tasks == w.tasks)
            && (b.Some? ==>
                  && Appends(w, w', b.value) && b.value.Snowball? && b.value.id == x
                  && ThrownFrom(b.value, id, w.cache.entries[id].pos) && Directed(b.value, dir.value, len))
            && w'.cache == w.cache
  {
    SnowballLogs(w, id, dir, len, msgId, uuid);
    b := SnowballOf(w, id, dir, len, msgId, uuid);
    if b.Some? { NormIsDirected(dir.value, len); }
  }

  /** Nobody is nearer to `from` among the living humans than the one with this id. */
  ghost predicate NearestHuman(cache: Dict<Snapshot>, id: Id, from: Vec3) {
    && id in cache.entries && !IsBotId(cache.entries[id].id) && cache.entries[id].hp > 0
    && forall k :: k in cache.entries && !IsBotId(cache.entries[k].id) && cache.entries[k].hp > 0 ==>
         Dist2(cache.entries[id].pos, from) <= Dist2(cache.entries[k].pos, from)
  }

  lemma NearestBeats(cache: Dict<Snapshot>, from: Vec3, k: Id)
    requires k in cache.entries && !IsBotId(cache.entries[k].id) && cache.entries[k].hp > 0
    ensures var players := Values(cache);
            var r := Nearest(players, from);
            r.Some? && Dist2(players[r.value].pos, from) <= Dist2(cache.entries[k].pos, from)
  {
    var players := Values(cache);
    NearestIsMinimal(players, from, |players|);
    assert k in cache.order;
    var i :| 0 <= i < |cache.order| && cache.order[i] == k;
    assert Targetable(players[i]);
  }

  lemma NearestIsNearest(cache: Dict<Snapshot>, from: Vec3)
    ensures var r := Nearest(Values(cache), from);
            && (r.Some? ==> NearestHuman(cache, cache.order[r.value], from))
            && (r.None? ==> !SomebodyLives(cache))
  {
    forall k | k in cache.entries && !IsBotId(cache.entries[k].id) && cache.entries[k].hp > 0
      ensures var r := Nearest(Values(cache), from);
              r.Some? && Dist2(Values(cache)[r.value].pos, from) <= Dist2(cache.entries[k].pos, from)
    {
      NearestBeats(cache, from, k);
    }
  }

  ghost predicate SomebodyLives(cache: Dict<Snapshot>) {
    exists k :: k in cache.entries && !IsBotId(cache.entries[k].id) && cache.entries[k].hp > 0
  }

  /** A bot's own step changes nothing about the humans. */
  lemma HumansStay(w: World, bot: Id, b: Bot)
    requires bot in w.bots && bot in w.cache.entries && w.cache.entries[bot].id == bot && IsBotId(bot)
    ensures var c, c' := w.cache, WalkBot(w, bot, b).cache;
            && (forall k, from :: NearestHuman(c', k, from) <==> NearestHuman(c, k, from))
            && (forall k :: k in c.entries && !IsBotId(c.entries[k].id) ==> k in c'.entries && c'.entries[k] == c.entries[k])
            && c'.entries.Keys == c.entries.Keys && IsBotId(c'.entries[bot].id)
  {
    var c, c' := w.cache, WalkBot(w, bot, b).cache;
    assert c'.entries == c.entries[bot := c.entries[bot].(pos := b.pos)];
    forall k, from ensures NearestHuman(c', k, from) <==> NearestHuman(c, k, from) {
      assert k == bot ==> !NearestHuman(c', k, from) && !NearestHuman(c, k, from);
    }
  }

  /**
    A living bot's turn throws a snowball exactly if its last shot is more than 10 s old and a human is
    alive; it comes from 1.3 above the bot's new place and points at 1.0 above the feet of the nearest.
   */
  lemma BotThrows(w: World, t: nat, bot: Id, b: Bot, tickAt: int, rest: seq<Id>, c: BotChoice) returns (body: Option<Body>, target: Id)
    requires bot in w.bots && bot in w.cache.entries && AimOk(w, bot, b, c) && w.cache.entries[bot].id == bot && IsBotId(bot)
    ensures var w' := BotActs(w, t, bot, b, tickAt, rest, c);
            && (body.Some? <==> tickAt as real - b.lastShotAt > 10000.0 && SomebodyLives(w.cache))
            && (body.None? ==> w'.log == w.log)
            && (body.Some? ==>
                  && Appends(w, w', body.value) && ThrownFrom(body.value, bot, b.pos) && body.value.id == c.shotId
                  && NearestHuman(w.cache, target, b.pos)
                  && (var p := w.cache.entries[target].pos;
                      Directed(body.value, Vec3(p.x - b.pos.x, p.y + 1.0 - (b.pos.y + 1.3), p.z - b.pos.z), c.aimLen)))
  {
    var w1 := WalkBot(w, bot, b);
    var players := Values(w1.cache);
    var r := Nearest(players, b.pos);
    NearestIsNearest(w1.cache, b.pos);
    HumansStay(w, bot, b);
    body, target := None, bot;
    if r.Some? {
      target := w1.cache.order[r.value];
      assert SomebodyLives(w.cache);
      if tickAt as real - b.lastShotAt > SHOT_INTERVAL {
        body := BotThrowsAt(w, t, bot, b, tickAt, rest, c, r.value);
      }
    }
  }

  lemma BotActsLogsThrow(w: World, t: nat, bot: Id, b: Bot, tickAt: int, rest: seq<Id>, c: BotChoice, k: nat, u: Vec3)
    requires bot in w.bots && bot in w.cache.entries && tickAt as real - b.lastShotAt > SHOT_INTERVAL
    requires Nearest(Values(WalkBot(w, bot, b).cache), b.pos) == Some(k)
    requires u == Norm(AimVector(b.pos, Values(WalkBot(w, bot, b).cache)[k].pos), c.aimLen)
    ensures Appends(w, BotActs(w, t, bot, b, tickAt, rest, c), Snowball(c.shotId, bot, Muzzle(b.pos), u, SNOWBALL_SPEED))
  {}

  lemma BotThrowsAt(w: World, t: nat, bot: Id, b: Bot, tickAt: int, rest: seq<Id>, c: BotChoice, k: nat) returns (body: Option<Body>)
    requires bot in w.bots && bot in w.cache.entries && AimOk(w, bot, b, c) && tickAt as real - b.lastShotAt > SHOT_INTERVAL
    requires Nearest(Values(WalkBot(w, bot, b).cache), b.pos) == Some(k)
    ensures var w', p := BotActs(w, t, bot, b, tickAt, rest, c), Values(WalkBot(w, bot, b).cache)[k].pos;
            && body.Some? && Appends(w, w', body.value) && ThrownFrom(body.value, bot, b.pos) && body.value.id == c.shotId
            && Directed(body.value, Vec3(p.x - b.pos.x, p.y + 1.0 - (b.pos.y + 1.3), p.z - b.pos.z), c.aimLen)
  {
    var aim := AimVector(b.pos, Values(WalkBot(w, bot, b).cache)[k].pos);
    var u := Norm(aim, c.aimLen);
    BotActsLogsThrow(w, t, bot, b, tickAt, rest, c, k, u);
    body := Some(Snowball(c.shotId, bot, Muzzle(b.pos), u, SNOWBALL_SPEED));
    AimIsDirected(b.pos, Values(WalkBot(w, bot, b).cache)[k].pos, c.aimLen, bot, c.shotId, u);
  }

  lemma AimIsDirected(from: Vec3, p: Vec3, len: real, bot: Id, shotId: string, u: Vec3)
    requires IsHypot(len, AimVector(from, p)) && u == Norm(AimVector(from, p), len)
    ensures var b := Snowball(shotId, bot, Muzzle(from), u, SNOWBALL_SPEED);
            ThrownFrom(b, bot, from) && Directed(b, Vec3(p.x - from.x, p.y + 1.0 - (from.y + 1.3), p.z - from.z), len)
  {
    NormIsDirected(AimVector(from, p), len);
  }

  // --- every shot under way was announced ---

  predicate Announces(b: Body, f: Task) {
    && b.Snowball? && f.Flight? && b.id == f.shotId && b.ownerId == f.owner
    && b.origin == f.origin && b.dir == f.dir && b.speed == 25.0
  }

  /** The hit of which a suspended death is the consequence. */
  predicate Foretells(e: Event, d: Task) {
    && e.body.Hit? && d.Doom? && e.body.attackerId == d.attackerId && e.body.victimId == d.victimId
    && e.body.victimHp == 0 && e.body.shotId == d.shotId && e.at == d.hitAt && d.respawnAt == e.at + 3000
  }

  /** The event in the history accounts for the suspended shot or death. */
  predicate Accounts(e: Event, k: Task) {
    (k.Flight? ==> Announces(e.body, k)) && (k.Doom? ==> Foretells(e, k))
  }

  ghost predicate Accounted(h: seq<Event>, k: Task) {
    k.Flight? || k.Doom? ==> exists i :: 0 <= i < |h| && Accounts(h[i], k)
  }

  ghost predicate AllAccounted(w: World) {
    forall t :: t in w.tasks ==> Accounted(w.log.history, w.tasks[t])
  }

  lemma StaysAccounted(h: seq<Event>, h': seq<Event>, k: Task)
    requires Accounted(h, k) && |h| <= |h'| && forall i :: 0 <= i < |h| ==> h'[i] == h[i]
    ensures Accounted(h', k)
  {
    if k.Flight? || k.Doom? {
      var i :| 0 <= i < |h| && Accounts(h[i], k);
      assert Accounts(h'[i], k);
    }
  }

  /** The step touches at most task `t`, and what it leaves there is accounted for. */
  lemma TouchedOnly(w: World, w': World, t: nat)
    requires AllAccounted(w) && |w.log.history| <= |w'.log.history|
    requires forall i :: 0 <= i < |w.log.history| ==> w'.log.history[i] == w.log.history[i]
    requires forall u :: u in w'.tasks && u != t ==> u in w.tasks && w'.tasks[u] == w.tasks[u]
    requires t in w'.tasks ==> Accounted(w'.log.history, w'.tasks[t]) || (t in w.tasks && w'.tasks[t] == w.tasks[t])
    ensures AllAccounted(w')
  {
    forall u | u in w'.tasks ensures Accounted(w'.log.history, w'.tasks[u]) {
      if u in w.tasks && w'.tasks[u] == w.tasks[u] { StaysAccounted(w.log.history, w'.log.history, w.tasks[u]); }
    }
  }

  lemma LaunchIsAccounted(w: World, t: nat, owner: Id, shotId: string, origin: Vec3, dir: Vec3, turn: Turn)
    ensures var w' := Launch(w, t, owner, shotId, origin, dir, turn);
            && t in w'.tasks && Accounted(w'.log.history, w'.tasks[t]) && w'.tasks == w.tasks[t := w'.tasks[t]]
            && w'.log.history == w.log.history + [w'.log.history[|w.log.history|]]
  {
    var w' := Launch(w, t, owner, shotId, origin, dir, turn);
    assert Accounts(w'.log.history[|w.log.history|], w'.tasks[t]);
  }

  lemma StrikeIsAccounted(w: World, t: nat, victim: Snapshot)
    requires t in w.tasks && w.tasks[t].Flight?
    ensures var w' := HandleStrike(w, t, victim);
            && (t in w'.tasks ==> Accounted(w'.log.history, w'.tasks[t]))
            && (forall u :: u in w'.tasks && u != t ==> u in w.tasks && w'.tasks[u] == w.tasks[u])
            && Appends(w, w', Hit(w.tasks[t].owner, victim.id, HpAfterHit(victim.hp), w.tasks[t].shotId))
  {
    var w1 := AfterHit(w, w.tasks[t], victim);
    HitIsAppended(w, w.tasks[t], victim);
    StruckIsAccounted(w1, t, victim, w1.log.history[|w.log.history|]);
  }

  lemma HitIsAppended(w: World, f: Task, victim: Snapshot)
    requires f.Flight?
    ensures var w' := AfterHit(w, f, victim);
            && Appends(w, w', Hit(f.owner, victim.id, HpAfterHit(victim.hp), f.shotId))
            && w'.tasks == w.tasks && w'.now == w.now
  {}

  lemma StruckIsAccounted(w: World, t: nat, victim: Snapshot, e: Event)
    requires t in w.tasks && w.tasks[t].Flight? && e in w.log.history && e.at == w.now
    requires e.body == Hit(w.tasks[t].owner, victim.id, HpAfterHit(victim.hp), w.tasks[t].shotId)
    ensures var w' := StruckTask(w, t, victim);
            && w'.log == w.log && (t in w'.tasks ==> Accounted(w'.log.history, w'.tasks[t]))
            && (forall u :: u in w'.tasks && u != t ==> u in w.tasks && w'.tasks[u] == w.tasks[u])
  {
    var w' := StruckTask(w, t, victim);
    if HpAfterHit(victim.hp) == 0 { assert Accounts(e, w'.tasks[t]); }
  }

  lemma FlightStaysAccounted(w: World, t: nat)
    requires Ready(w, ResumeFlight(t)) && AllAccounted(w)
    ensures AllAccounted(HandleFlight(w, t))
  {
    var v := VictimOf(w, w.tasks[t]);
    if v.Some? { StrikeIsAccounted(w, t, v.value); }
    TouchedOnly(w, HandleFlight(w, t), t);
  }

  lemma DoomStaysAccounted(w: World, t: nat, killId: string)
    requires Ready(w, ResumeDoom(t, killId)) && AllAccounted(w)
    ensures AllAccounted(HandleDoom(w, t, killId))
  {
    TouchedOnly(w, HandleDoom(w, t, killId), t);
  }

  lemma SnowballStaysAccounted(w: World, id: Id, dir: Option<Vec3>, len: real, msgId: string, uuid: string)
    requires AllAccounted(w)
    ensures AllAccounted(HandleSnowball(w, id, dir, len, msgId, uuid))
  {
    var w' := HandleSnowball(w, id, dir, len, msgId, uuid);
    var shotId := if UuidLike(msgId) then msgId else uuid;
    var w1 := w.(shots := ShotFilter.Accept(w.shots, shotId, w.now));
    if dir.None? || ShotFilter.Refuses(w.shots, shotId, w.now) {
      assert w' == w;
    } else if id !in w.cache.entries {
      assert w' == w1;
    } else {
      var w2, origin, u := w1.(nextTask := w.nextTask + 1), Muzzle(w.cache.entries[id].pos), Norm(dir.value, len);
      assert w' == Launch(w2, w.nextTask, id, shotId, origin, u, Human);
      LaunchIsAccounted(w2, w.nextTask, id, shotId, origin, u, Human);
      TouchedOnly(w, w', w.nextTask);
    }
  }

  lemma BotActsStaysAccounted(w: World, t: nat, bot: Id, b: Bot, tickAt: int, rest: seq<Id>, c: BotChoice)
    requires AllAccounted(w) && bot in w.bots && bot in w.cache.entries
    ensures AllAccounted(BotActs(w, t, bot, b, tickAt, rest, c))
  {
    var w1, w' := WalkBot(w, bot, b), BotActs(w, t, bot, b, tickAt, rest, c);
    var players := Values(w1.cache);
    var target := Nearest(players, b.pos);
    if tickAt as real - b.lastShotAt > SHOT_INTERVAL && target.Some? {
      var w2, dir := w1.(bots := w1.bots[bot := b.(rotY := c.aimYaw)]), Norm(AimVector(b.pos, players[target.value].pos), c.aimLen);
      var turn := BotTurn(bot, w.cache.entries[bot], tickAt, rest);
      assert w' == Launch(w2, t, bot, c.shotId, Muzzle(b.pos), dir, turn);
      LaunchIsAccounted(w2, t, bot, c.shotId, Muzzle(b.pos), dir, turn);
      TouchedOnly(w, w', t);
    } else {
      assert w'.tasks == w.tasks && w'.log == w.log;
    }
  }

  lemma VisitStaysAccounted(w: World, t: nat, c: BotChoice)
    requires Ready(w, VisitBot(t, c)) && AllAccounted(w)
    ensures AllAccounted(HandleVisit(w, t, c))
  {
    var tickAt, rest := w.tasks[t].tickAt, w.tasks[t].rest;
    if rest != [] {
      var w1 := w.(tasks := w.tasks[t := Visit(tickAt, rest[1..])]);
      TouchedOnly(w, w1, t);
      if rest[0] in w.cache.entries {
        if w.cache.entries[rest[0]].hp > 0 {
          BotActsStaysAccounted(w1, t, rest[0], MovedBot(w.bots[rest[0]], tickAt, c), tickAt, rest[1..], c);
        } else if w.cache.entries[rest[0]].deadUntil <= tickAt {
          TouchedOnly(w1, BotRevives(w1, rest[0], tickAt, SpawnPos(c.draws)), t);
        }
      }
    }
  }

  lemma OtherTasksStay(w: World, a: Action)
    requires Ready(w, a) && !a.ResumeFlight? && !a.ResumeDoom? && !a.OnSnowball? && !a.VisitBot?
    ensures forall u :: u in Step(w, a).tasks ==>
              (u in w.tasks && Step(w, a).tasks[u] == w.tasks[u]) || Step(w, a).tasks[u].Visit?
  {}

  lemma OtherStepsStayAccounted(w: World, a: Action)
    requires Ready(w, a) && AllAccounted(w) && !a.ResumeFlight? && !a.ResumeDoom? && !a.OnSnowball? && !a.VisitBot?
    ensures AllAccounted(Step(w, a))
  {
    var body := StepLogs(w, a);
    OtherTasksStay(w, a);
    SameOrVisit(w, Step(w, a), body);
  }

  lemma SameOrVisit(w: World, w': World, body: Option<Body>)
    requires AllAccounted(w) && LogIs(w, w', body)
    requires forall u :: u in w'.tasks ==> (u in w.tasks && w'.tasks[u] == w.tasks[u]) || w'.tasks[u].Visit?
    ensures AllAccounted(w')
  {
    forall u | u in w'.tasks ensures Accounted(w'.log.history, w'.tasks[u]) {
      if u in w.tasks && w'.tasks[u] == w.tasks[u] { StaysAccounted(w.log.history, w'.log.history, w.tasks[u]); }
    }
  }

  lemma StepStaysAccounted(w: World, a: Action)
    requires Ready(w, a) && AllAccounted(w)
    ensures AllAccounted(Step(w, a))
  {
    if a.ResumeFlight? {
      FlightStaysAccounted(w, a.t);
    } else if a.ResumeDoom? {
      DoomStaysAccounted(w, a.t, a.killId);
    } else if a.OnSnowball? {
      SnowballStaysAccounted(w, a.id, a.dir, a.len, a.shotId, a.uuid);
    } else if a.VisitBot? {
      VisitStaysAccounted(w, a.t, a.choice);
    } else {
      OtherStepsStayAccounted(w, a);
    }
  }

  lemma {:induction false} RunStaysAccounted(w: World, acts: seq<Action>)
    requires Runs(w, acts) && AllAccounted(w)
    ensures AllAccounted(After(w, acts))
    decreases |acts|
  {
    if acts != [] {
      StepStaysAccounted(w, acts[0]);
      RunStaysAccounted(Step(w, acts[0]), acts[1..]);
    }
  }

  // --- whom an announced snowball strikes ---

  /** Not the thrower, and not a corpse whose time has not come. */
  predicate MayBeHit(s: Snapshot, owner: Id, now: int) {
    s.id != owner && (s.hp > 0 || s.deadUntil <= now)
  }

  /** The announced ball is within the body of the player at sample `i`, and above the ground until then. */
  ghost predicate Meets(b: Body, feet: Vec3, i: nat)
    requires b.Snowball?
  {
    var v0 := Vec3(25.0 * b.dir.x, 25.0 * b.dir.y, 25.0 * b.dir.z);
    var p := Sample(b.origin, v0, i);
    && i <= 60
    && (p.x - feet.x) * (p.x - feet.x) + (p.z - feet.z) * (p.z - feet.z) <= 0.81 && feet.y <= p.y <= feet.y + 2.2
    && forall j: nat :: j <= i ==> Sample(b.origin, v0, j).y >= 0.0
  }

  lemma MeetsIsReached(players: seq<Snapshot>, owner: Id, b: Body, now: int, k: nat, i: nat)
    requires k < |players| && b.Snowball? && MayBeHit(players[k], owner, now) && Meets(b, players[k].pos, i)
    ensures exists j: nat :: j <= i && Reached(players, owner, b.origin, Mul(b.dir, SNOWBALL_SPEED), now, k, j)
  {
    var v0 := Mul(b.dir, SNOWBALL_SPEED);
    assert v0 == Vec3(25.0 * b.dir.x, 25.0 * b.dir.y, 25.0 * b.dir.z);
    MeetsHits(b, v0, players[k].pos, i);
    FirstHitIsFirst(b.origin, v0, players[k].pos, 0);
    var f := FirstHit(b.origin, v0, players[k].pos, 0);
    ReachedIsFirstHit(players, owner, b.origin, v0, now, k, f.value);
  }

  lemma InBody(p: Vec3, feet: Vec3)
    ensures IntersectsCylinder(p, feet)
            <==> (p.x - feet.x) * (p.x - feet.x) + (p.z - feet.z) * (p.z - feet.z) <= 0.81 && feet.y <= p.y <= feet.y + 2.2
  {
    assert HIT_RADIUS * HIT_RADIUS == 0.81;
  }

  lemma MeetsHits(b: Body, v0: Vec3, feet: Vec3, i: nat)
    requires b.Snowball? && v0 == Vec3(25.0 * b.dir.x, 25.0 * b.dir.y, 25.0 * b.dir.z)
    ensures Meets(b, feet, i) <==> i <= SIM_STEPS && HitsAt(b.origin, v0, feet, i) && forall j: nat :: j <= i ==> Airborne(b.origin, v0, j)
  {
    InBody(Sample(b.origin, v0, i), feet);
    assert forall j: nat :: Airborne(b.origin, v0, j) <==> Sample(b.origin, v0, j).y >= 0.0;
  }

  /** The snapshot at position `m` of the player table. */
  function At(w: World, m: nat): Snapshot
    requires m < |w.cache.order|
  {
    Values(w.cache)[m]
  }

  /** The player at position `m` is met at sample `i`, and nobody who may be hit is met earlier, or at the same sample and before it in the table. */
  ghost predicate FirstMet(w: World, b: Body, owner: Id, m: nat, i: nat)
    requires b.Snowball? && m < |w.cache.order|
  {
    && MayBeHit(At(w, m), owner, w.now) && Meets(b, At(w, m).pos, i)
    && forall k: nat, j: nat :: k < |w.cache.order| && MayBeHit(At(w, k), owner, w.now) && Meets(b, At(w, k).pos, j) ==>
         i < j || (i == j && m <= k)
  }

  ghost predicate MeetsNobody(w: World, b: Body, owner: Id)
    requires b.Snowball?
  {
    forall k: nat, j: nat :: k < |w.cache.order| && MayBeHit(At(w, k), owner, w.now) ==> !Meets(b, At(w, k).pos, j)
  }

  lemma SearchMeets(players: seq<Snapshot>, owner: Id, b: Body, now: int)
    requires b.Snowball?
    ensures var r := FindVictim(players, owner, b.origin, Mul(b.dir, SNOWBALL_SPEED), now);
            && (r.Some? ==> MayBeHit(players[r.value.index], owner, now) && Meets(b, players[r.value.index].pos, r.value.step))
            && (forall k: nat, j: nat :: k < |players| && MayBeHit(players[k], owner, now) && Meets(b, players[k].pos, j) ==>
                  r.Some? && (r.value.step < j || (r.value.step == j && r.value.index <= k)))
  {
    var v0 := Mul(b.dir, SNOWBALL_SPEED);
    var r := FindVictim(players, owner, b.origin, v0, now);
    FindVictimIsEarliest(players, owner, b.origin, v0, now);
    assert v0 == Vec3(25.0 * b.dir.x, 25.0 * b.dir.y, 25.0 * b.dir.z);
    if r.Some? { MeetsHits(b, v0, players[r.value.index].pos, r.value.step); }
    forall k: nat, j: nat | k < |players| && MayBeHit(players[k], owner, now) && Meets(b, players[k].pos, j)
      ensures r.Some? && (r.value.step < j || (r.value.step == j && r.value.index <= k))
    {
      MeetsIsReached(players, owner, b, now, k, j);
      var i: nat :| i <= j && Reached(players, owner, b.origin, v0, now, k, i);
    }
  }

  /** Ten points less, down to zero. */
  function LessTen(hp: int): int {
    if hp > 10 then hp - 10 else 0
  }

  lemma FlightMeets(w: World, t: nat, b: Body)
    requires CacheOk(w) && Ready(w, ResumeFlight(t)) && Announces(b, w.tasks[t])
    ensures var w' := HandleFlight(w, t);
            || (MeetsNobody(w, b, b.ownerId) && w'.log == w.log && w'.cache == w.cache)
            || (exists m: nat, i: nat :: m < |w.cache.order| && FirstMet(w, b, b.ownerId, m, i)
                  && Appends(w, w', Hit(b.ownerId, At(w, m).id, LessTen(At(w, m).hp), b.id)))
  {
    SearchMeets(Values(w.cache), b.ownerId, b, w.now);
    var r := FindVictim(Values(w.cache), b.ownerId, b.origin, Mul(b.dir, SNOWBALL_SPEED), w.now);
    if r.Some? {
      FirstIsMet(w, b, r.value.index, r.value.step);
      StrikeIsAccounted(w, t, At(w, r.value.index));
    }
  }

  lemma FirstIsMet(w: World, b: Body, m: nat, i: nat)
    requires b.Snowball? && m < |w.cache.order| && MayBeHit(At(w, m), b.ownerId, w.now) && Meets(b, At(w, m).pos, i)
    requires forall k: nat, j: nat :: k < |w.cache.order| && MayBeHit(Values(w.cache)[k], b.ownerId, w.now) && Meets(b, Values(w.cache)[k].pos, j) ==>
               i < j || (i == j && m <= k)
    ensures FirstMet(w, b, b.ownerId, m, i)
  {
    forall k: nat, j: nat | k < |w.cache.order| && MayBeHit(At(w, k), b.ownerId, w.now) && Meets(b, At(w, k).pos, j)
      ensures i < j || (i == j && m <= k)
    {
      assert MayBeHit(Values(w.cache)[k], b.ownerId, w.now) && Meets(b, Values(w.cache)[k].pos, j);
    }
  }

  /**
    In every run, resolving a shot strikes whom the snowball in the event stream strikes: every
    suspended shot has its snowball in the history, and the hit, if any, falls on the player whom
    that snowball meets first, ties going to the first in the player table.
   */
  lemma AnnouncedShotsStrike(w0: World, acts: seq<Action>, w: World, t: nat) returns (e: Event)
    requires Initial(w0) && Runs(w0, acts) && w == After(w0, acts) && Ready(w, ResumeFlight(t))
    ensures e in w.log.history && Announces(e.body, w.tasks[t])
    ensures var w', b := Step(w, ResumeFlight(t)), e.body;
            || (MeetsNobody(w, b, b.ownerId) && w'.log == w.log && w'.cache == w.cache)
            || (exists m: nat, i: nat :: m < |w.cache.order| && FirstMet(w, b, b.ownerId, m, i)
                  && Appends(w, w', Hit(b.ownerId, At(w, m).id, LessTen(At(w, m).hp), b.id)))
  {
    InitialIsSane(w0);
    RunKeepsSane(w0, acts);
    RunStaysAccounted(w0, acts);
    assert Accounted(w.log.history, w.tasks[t]);
    var i :| 0 <= i < |w.log.history| && Accounts(w.log.history[i], w.tasks[t]);
    e := w.log.history[i];
    FlightMeets(w, t, e.body);
  }

  /** A hit of that snowball on somebody in the table is announced, at ten points less. */
  ghost predicate StrikesSomebody(w: World, w': World, b: Body)
    requires b.Snowball?
  {
    exists m: nat :: m < |w.cache.order| && Appends(w, w', Hit(b.ownerId, At(w, m).id, LessTen(At(w, m).hp), b.id))
  }

  /**
    No tunnelling in any run: if, while the shot is suspended, somebody who may be hit stands within the
    clearance of the announced flight and at the right height, resolving it appends a hit.
   */
  lemma RunsDoNotTunnel(w0: World, acts: seq<Action>, w: World, t: nat, k: nat, time: real) returns (e: Event)
    requires Initial(w0) && Runs(w0, acts) && w == After(w0, acts) && Ready(w, ResumeFlight(t)) && k < |w.cache.order|
    requires 0.0 <= time <= SNOWBALL_LIFE_SEC
    ensures e in w.log.history && Announces(e.body, w.tasks[t])
    ensures var b, v0, p := e.body, Mul(e.body.dir, 25.0), At(w, k).pos;
            && MayBeHit(At(w, k), b.ownerId, w.now) && b.origin.y >= 0.0 && p.y >= 0.0
            && ClosestAt(b.origin, v0, p, time) && Dist2(PosAt(b.origin, v0, time), p) <= CLEARANCE2
            && WithinHeight(Sample(b.origin, v0, NearestSample(time)), p)
            ==> StrikesSomebody(w, Step(w, ResumeFlight(t)), b)
  {
    e := AnnouncedShotsStrike(w0, acts, w, t);
    var b, v0, p := e.body, Mul(e.body.dir, 25.0), At(w, k).pos;
    InitialIsSane(w0);
    RunKeepsSane(w0, acts);
    if MayBeHit(At(w, k), b.ownerId, w.now) && b.origin.y >= 0.0 && p.y >= 0.0
       && ClosestAt(b.origin, v0, p, time) && Dist2(PosAt(b.origin, v0, time), p) <= CLEARANCE2
       && WithinHeight(Sample(b.origin, v0, NearestSample(time)), p)
    {
      assert TaskOk(w, w.tasks[t]);
      NoTunnelling(Values(w.cache), b.ownerId, b.origin, b.dir, w.now, k, time);
      var body := StepLogs(w, ResumeFlight(t));
      assert Step(w, ResumeFlight(t)).log != w.log;
    }
  }
}
