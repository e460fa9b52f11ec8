/**
  A bot's turn from its beginning to its write-back, and how often a bot throws.
 */
module BotTurns {
  import opened Protocol
  import opened OrderedMap
  import opened Ballistics
  import opened BotMotion
  import opened GameWorld
  import opened Invariants
  import opened Evolution
  import opened Bookkeeping
  import opened BotLife
  import opened Messages
  import opened Throws
  import EventLog

  // --- what a turn leaves ---

  /** A bot that is not in the table, or dead and not due, is passed over. */
  lemma PassedOver(w: World, t: nat, c: BotChoice)
    requires Ready(w, VisitBot(t, c)) && w.tasks[t].rest != []
    requires var bot := w.tasks[t].rest[0];
             bot !in w.cache.entries || (w.cache.entries[bot].hp <= 0 && w.cache.entries[bot].deadUntil > w.tasks[t].tickAt)
    ensures HandleVisit(w, t, c) == w.(tasks := w.tasks[t := Visit(w.tasks[t].tickAt, w.tasks[t].rest[1..])])
  {}

  /** A bot that is due comes back at a drawn spawn point, standing still and without a target, with an event. */
  lemma DueBotReturns(w: World, t: nat, c: BotChoice)
    requires Ready(w, VisitBot(t, c)) && w.tasks[t].rest != [] && w.tasks[t].rest[0] in w.cache.entries
    requires var s := w.cache.entries[w.tasks[t].rest[0]]; s.hp <= 0 && s.deadUntil <= w.tasks[t].tickAt
    ensures var w', bot, p := HandleVisit(w, t, c), w.tasks[t].rest[0], SpawnPos(c.draws);
            && bot in w'.cache.entries && OnlyTouches(w, w', bot) && Appends(w, w', Respawn(bot, p, 100))
            && w'.cache.entries[bot] == w.cache.entries[bot].(pos := p, hp := 100, deadUntil := 0, updatedAt := w.now)
            && w'.bots == w.bots[bot := w.bots[bot].(pos := p, hp := 100, vel := Vec3(0.0, 0.0, 0.0), target := None)]
  {
    var bot, p, tickAt := w.tasks[t].rest[0], SpawnPos(c.draws), w.tasks[t].tickAt;
    var w1 := w.(tasks := w.tasks[t := Visit(tickAt, w.tasks[t].rest[1..])]);
    BotReturned(w1, bot, tickAt, p);
    OneEntry(w, HandleVisit(w, t, c), bot, w.cache.entries[bot].(pos := p, hp := 100, deadUntil := 0, updatedAt := w.now));
  }

  lemma BotReturned(w: World, bot: Id, tickAt: int, p: Vec3)
    requires bot in w.bots && bot in w.cache.entries
    ensures var w' := BotRevives(w, bot, tickAt, p);
            && w'.cache.entries == w.cache.entries[bot := w.cache.entries[bot].(pos := p, hp := 100, deadUntil := 0, updatedAt := w.now)]
            && w'.bots == w.bots[bot := w.bots[bot].(pos := p, hp := 100, vel := Vec3(0.0, 0.0, 0.0), target := None)]
            && Appends(w, w', Respawn(bot, p, 100))
  {}

  /**
    A living bot walks to `b`.  If it does not throw, the table shows it at once with its new pose and the time of
    the tick; a bot that found nobody to throw at waits for its next shot.  If it throws, the table
    only moves it, and its turn is suspended with the snapshot that it began with.
   */
  lemma LivingTurn(w: World, t: nat, bot: Id, b: Bot, tickAt: int, rest: seq<Id>, c: BotChoice)
    requires bot in w.bots && bot in w.cache.entries
    ensures var w', s := BotActs(w, t, bot, b, tickAt, rest, c), w.cache.entries[bot];
            && bot in w'.cache.entries && OnlyTouches(w, w', bot) && bot in w'.bots && w'.bots == w.bots[bot := w'.bots[bot]]
            && (if w'.log == w.log
                then && w'.cache.entries[bot] == s.(pos := b.pos, rotY := b.rotY, vel := b.vel, updatedAt := tickAt)
                     && w'.tasks == w.tasks
                     && w'.bots[bot] == b.(lastShotAt := if tickAt as real - b.lastShotAt > 10000.0 then tickAt as real else b.lastShotAt)
                else && w'.cache.entries[bot] == s.(pos := b.pos) && w'.bots[bot] == b.(rotY := c.aimYaw)
                     && t in w'.tasks && w'.tasks[t].Flight? && w'.tasks[t].turn == BotTurn(bot, s, tickAt, rest))
  {
    var w1, w' := WalkBot(w, bot, b), BotActs(w, t, bot, b, tickAt, rest, c);
    var s := w.cache.entries[bot];
    var players := Values(w1.cache);
    var target := Nearest(players, b.pos);
    if tickAt as real - b.lastShotAt > SHOT_INTERVAL && target.Some? {
      TurnThrows(w, t, bot, b, tickAt, rest, c, target.value);
      OneEntry(w, w', bot, s.(pos := b.pos));
    } else {
      TurnWrites(w, t, bot, b, tickAt, rest, c);
      OneEntry(w, w', bot, s.(pos := b.pos, rotY := b.rotY, vel := b.vel, updatedAt := tickAt));
    }
  }

  lemma TurnThrows(w: World, t: nat, bot: Id, b: Bot, tickAt: int, rest: seq<Id>, c: BotChoice, k: nat)
    requires bot in w.bots && bot in w.cache.entries && tickAt as real - b.lastShotAt > SHOT_INTERVAL
    requires Nearest(Values(WalkBot(w, bot, b).cache), b.pos) == Some(k)
    ensures var w', s := BotActs(w, t, bot, b, tickAt, rest, c), w.cache.entries[bot];
            && w'.cache.entries == w.cache.entries[bot := s.(pos := b.pos)] && w'.bots == w.bots[bot := b.(rotY := c.aimYaw)]
            && t in w'.tasks && w'.tasks == w.tasks[t := w'.tasks[t]] && w'.now == w.now
            && w'.tasks[t].Flight? && w'.tasks[t].turn == BotTurn(bot, s, tickAt, rest)
            && |w'.log.history| == |w.log.history| + 1
  {}

  lemma TurnWrites(w: World, t: nat, bot: Id, b: Bot, tickAt: int, rest: seq<Id>, c: BotChoice)
    requires bot in w.bots && bot in w.cache.entries
    requires tickAt as real - b.lastShotAt <= SHOT_INTERVAL || Nearest(Values(WalkBot(w, bot, b).cache), b.pos).None?
    ensures var w', s := BotActs(w, t, bot, b, tickAt, rest, c), w.cache.entries[bot];
            && w'.cache.entries == w.cache.entries[bot := s.(pos := b.pos, rotY := b.rotY, vel := b.vel, updatedAt := tickAt)]
            && w'.log == w.log && w'.tasks == w.tasks && w'.now == w.now
            && w'.bots == w.bots[bot := b.(lastShotAt := if tickAt as real - b.lastShotAt > 10000.0 then tickAt as real else b.lastShotAt)]
  {}

  /**
    Where a living bot walks in its turn: to its target, if that is at most 3 s old, or else to a freshly drawn one,
    0.15 units on the straight line; within half a unit it stops and drops the target.  The table shows the new place at once.
   */
  lemma VisitWalks(w: World, t: nat, c: BotChoice) returns (to: Vec3)
    requires Sane(w) && Enabled(w, VisitBot(t, c)) && w.tasks[t].rest != [] && w.tasks[t].rest[0] in w.cache.entries
    requires w.cache.entries[w.tasks[t].rest[0]].hp > 0
    ensures var w', bot := HandleVisit(w, t, c), w.tasks[t].rest[0];
            var b := w.bots[bot];
            && bot in w'.bots && bot in w'.cache.entries && w'.cache.entries[bot].pos == w'.bots[bot].pos
            && (to == if b.target.Some? && w.tasks[t].tickAt - b.moveTimer <= 3000 then b.target.value else MoveTarget(b.pos, c.draws))
            && StepsTowards(b.pos, to, c.dist, c.draws.height, w'.bots[bot])
  {
    var bot, tickAt, rest := w.tasks[t].rest[0], w.tasks[t].tickAt, w.tasks[t].rest;
    var b, w1 := w.bots[bot], w.(tasks := w.tasks[t := Visit(tickAt, rest[1..])]);
    assert BotOk(b);
    to := MovedBotSteps(b, tickAt, c);
    WalksInTable(w1, t, bot, MovedBot(b, tickAt, c), tickAt, rest[1..], c, to);
  }

  lemma WalksInTable(w: World, t: nat, bot: Id, m: Bot, tickAt: int, rest: seq<Id>, c: BotChoice, to: Vec3)
    requires bot in w.bots && bot in w.cache.entries && StepsTowards(w.bots[bot].pos, to, c.dist, c.draws.height, m)
    ensures var w' := BotActs(w, t, bot, m, tickAt, rest, c);
            && bot in w'.bots && bot in w'.cache.entries && w'.cache.entries[bot].pos == w'.bots[bot].pos
            && StepsTowards(w.bots[bot].pos, to, c.dist, c.draws.height, w'.bots[bot])
  {
    LivingTurn(w, t, bot, m, tickAt, rest, c);
    SameSteps(w.bots[bot].pos, to, c.dist, c.draws.height, m, BotActs(w, t, bot, m, tickAt, rest, c).bots[bot]);
  }

  lemma SameSteps(from: Vec3, to: Vec3, dist: real, height: (real, real) -> real, b: Bot, b': Bot)
    requires StepsTowards(from, to, dist, height, b) && b'.pos == b.pos && b'.target == b.target
    ensures StepsTowards(from, to, dist, height, b')
  {}

  /** The bot stands 0.15 units nearer to the target, on the ground; or, within half a unit of it, where it was, without a target. */
  predicate StepsTowards(from: Vec3, to: Vec3, dist: real, height: (real, real) -> real, b: Bot) {
    && IsDist(dist, from, to)
    && (if dist > 0.5
        then && b.target == Some(to) && b.pos.y == height(b.pos.x, b.pos.z)
             && (b.pos.x - from.x) * dist == 0.15 * (to.x - from.x) && (b.pos.z - from.z) * dist == 0.15 * (to.z - from.z)
        else b.target.None? && b.pos == from)
  }

  lemma MovedBotSteps(b: Bot, tickAt: int, c: BotChoice) returns (to: Vec3)
    requires BotOk(b) && DistOk(b, tickAt, c)
    ensures to == if b.target.Some? && tickAt - b.moveTimer <= 3000 then b.target.value else MoveTarget(b.pos, c.draws)
    ensures StepsTowards(b.pos, to, c.dist, c.draws.height, MovedBot(b, tickAt, c))
  {
    var r := Retarget(b, tickAt, MoveTarget(b.pos, c.draws));
    MoveTargetIsSafe(b.pos, c.draws);
    TargetsAreFresh(b, tickAt, MoveTarget(b.pos, c.draws));
    to := r.target.value;
    AdvanceSteps(r, c.dist, c.draws.height, c.yaw);
  }

  lemma AdvanceSteps(b: Bot, dist: real, height: (real, real) -> real, yaw: real)
    requires BotOk(b) && b.target.Some? && IsDist(dist, b.pos, b.target.value)
    ensures StepsTowards(b.pos, b.target.value, dist, height, Advance(b, dist, height, yaw))
  {
    var m, to := Advance(b, dist, height, yaw), b.target.value;
    WalkIsStraight(b, dist, height, yaw);
    if dist > 0.5 {
      StrideIsVelocity(b.pos.x, to.x, dist, m.vel.x, m.pos.x);
      StrideIsVelocity(b.pos.z, to.z, dist, m.vel.z, m.pos.z);
    }
  }

  lemma StrideIsVelocity(from: real, to: real, dist: real, v: real, at: real)
    requires v * dist == 3.0 * (to - from) && at == from + 0.05 * v
    ensures (at - from) * dist == 0.15 * (to - from)
  {
    assert (at - from) * dist == 0.05 * (v * dist);
  }

  /** The end of a suspended turn: the table shows the snapshot that the turn began with, in the bot's present pose, and the tick goes on. */
  lemma TurnEnds(w: World, t: nat)
    requires Ready(w, SettleBot(t))
    ensures var w', k := HandleSettle(w, t), w.tasks[t];
            var b := w.bots[k.bot];
            && k.bot in w'.cache.entries && OnlyTouches(w, w', k.bot) && w'.log == w.log
            && w'.cache.entries[k.bot] == k.before.(pos := b.pos, rotY := b.rotY, vel := b.vel, updatedAt := k.tickAt)
            && w'.bots == w.bots[k.bot := b.(lastShotAt := if k.shotAt.Some? then k.shotAt.value as real else b.lastShotAt)]
            && w'.tasks == w.tasks[t := Visit(k.tickAt, k.rest)]
  {
    var k := w.tasks[t];
    var b := w.bots[k.bot];
    OneEntry(w, HandleSettle(w, t), k.bot, k.before.(pos := b.pos, rotY := b.rotY, vel := b.vel, updatedAt := k.tickAt));
  }

  // --- the rate of fire ---

  predicate IsThrow(e: Event, b: Id) {
    e.body.Snowball? && e.body.ownerId == b
  }

  /** Throws of the bot are more than 10 s apart. */
  ghost predicate ThrowsSpaced(h: seq<Event>, b: Id) {
    forall i, j :: 0 <= i < j < |h| && IsThrow(h[i], b) && IsThrow(h[j], b) ==> h[i].at + 10000 < h[j].at
  }

  ghost predicate ThrowsBy(h: seq<Event>, b: Id, bound: real) {
    forall i :: 0 <= i < |h| && IsThrow(h[i], b) ==> h[i].at as real <= bound
  }

  /** While a turn of the bot is suspended there, the time by which it has thrown. */
  function BoundOf(w: World, k: Task, b: Id): Option<real> {
    match k
    case Flight(_, _, _, _, turn) => if turn.BotTurn? && turn.bot == b then Some(w.now as real) else None
    case Doom(_, _, _, _, _, hitAt, turn) => if turn.BotTurn? && turn.bot == b then Some(hitAt as real) else None
    case Visit(_, _) => None
    case Settle(bot, _, shotAt, _, _) =>
      if bot != b then None
      else if shotAt.Some? then Some(shotAt.value as real)
      else if b in w.bots then Some(w.bots[b].lastShotAt) else None
  }

  function BoundAt(w: World, t: nat, b: Id): Option<real> {
    if t in w.tasks then BoundOf(w, w.tasks[t], b) else None
  }

  ghost predicate Idling(w: World, b: Id) {
    forall t :: BoundAt(w, t, b).None?
  }

  ghost predicate FireOk(w: World, b: Id) {
    && b in w.bots && ThrowsSpaced(w.log.history, b)
    && (forall t, u :: BoundAt(w, t, b).Some? && BoundAt(w, u, b).Some? ==> t == u)
    && (forall t :: BoundAt(w, t, b).Some? ==> ThrowsBy(w.log.history, b, BoundAt(w, t, b).value))
    && (Idling(w, b) ==> ThrowsBy(w.log.history, b, w.bots[b].lastShotAt))
  }

  /** The bot is not visited while a turn of it is suspended. */
  ghost predicate OneTurn(w: World, a: Action, b: Id)
    requires Ready(w, a)
  {
    a.VisitBot? && w.tasks[a.t].rest != [] && w.tasks[a.t].rest[0] == b ==> Idling(w, b)
  }

  ghost predicate OneTurnRuns(w: World, acts: seq<Action>, b: Id)
    decreases |acts|
  {
    acts == [] || (Enabled(w, acts[0]) && OneTurn(w, acts[0], b) && OneTurnRuns(Step(w, acts[0]), acts[1..], b))
  }

  /** The step adds no throw of the bot. */
  ghost predicate NoThrow(w: World, w': World, b: Id) {
    w'.log == w.log || exists body :: Logged(w, w', body) && !(body.Snowball? && body.ownerId == b)
  }

  lemma NoThrowKeeps(w: World, w': World, b: Id, bound: real, bound': real)
    requires NoThrow(w, w', b) && ThrowsBy(w.log.history, b, bound) && bound <= bound'
    ensures ThrowsBy(w'.log.history, b, bound')
  {}

  lemma NoThrowSpaced(w: World, w': World, b: Id)
    requires NoThrow(w, w', b) && ThrowsSpaced(w.log.history, b)
    ensures ThrowsSpaced(w'.log.history, b)
  {}

  /** The bot's suspended turns are the same, possibly with later bounds. */
  ghost predicate SameTurns(w: World, w': World, b: Id) {
    forall t :: (BoundAt(w', t, b).Some? <==> BoundAt(w, t, b).Some?)
                && (BoundAt(w, t, b).Some? ==> BoundAt(w, t, b).value <= BoundAt(w', t, b).value)
  }

  lemma QuietFire(w: World, w': World, b: Id)
    requires FireOk(w, b) && NoThrow(w, w', b) && SameTurns(w, w', b)
    requires b in w'.bots && w'.bots[b].lastShotAt == w.bots[b].lastShotAt
    ensures FireOk(w', b)
  {
    NoThrowSpaced(w, w', b);
    forall t | BoundAt(w', t, b).Some? ensures ThrowsBy(w'.log.history, b, BoundAt(w', t, b).value) {
      NoThrowKeeps(w, w', b, BoundAt(w, t, b).value, BoundAt(w', t, b).value);
    }
    if Idling(w', b) { NoThrowKeeps(w, w', b, w.bots[b].lastShotAt, w'.bots[b].lastShotAt); }
  }

  /** The only suspended turn of the bot, in task `t`, goes on to another stage. */
  lemma TurnGoesOn(w: World, w': World, b: Id, t: nat)
    requires FireOk(w, b) && NoThrow(w, w', b) && b in w'.bots && BoundAt(w, t, b).Some?
    requires forall u :: u != t ==> (u in w'.tasks <==> u in w.tasks) && (u in w.tasks ==> w'.tasks[u] == w.tasks[u])
    requires BoundAt(w', t, b).Some? ==> BoundAt(w, t, b).value <= BoundAt(w', t, b).value
    requires BoundAt(w', t, b).None? ==> BoundAt(w, t, b).value <= w'.bots[b].lastShotAt
    ensures FireOk(w', b)
  {
    NoThrowSpaced(w, w', b);
    forall u | BoundAt(w', u, b).Some? ensures u == t && ThrowsBy(w'.log.history, b, BoundAt(w', u, b).value) {
      if u != t { SettleBoundSame(w, w', u, b); }
      NoThrowKeeps(w, w', b, BoundAt(w, t, b).value, BoundAt(w', t, b).value);
    }
    if Idling(w', b) { NoThrowKeeps(w, w', b, BoundAt(w, t, b).value, w'.bots[b].lastShotAt); }
  }

  lemma SettleBoundSame(w: World, w': World, u: nat, b: Id)
    requires u in w.tasks && u in w'.tasks && w'.tasks[u] == w.tasks[u] && b in w.bots && b in w'.bots
    ensures BoundAt(w', u, b).Some? <==> BoundAt(w, u, b).Some?
  {}

  /** A throw: the bot's last shot was more than 10 s before the tick, and its turn is now suspended in task `t`. */
  lemma ThrowFire(w: World, w': World, b: Id, t: nat, tickAt: int, body: Body)
    requires FireOk(w, b) && Idling(w, b) && Logged(w, w', body) && tickAt as real - w.bots[b].lastShotAt > 10000.0 && tickAt <= w.now
    requires b in w'.bots && w'.now == w.now && t in w'.tasks && BoundAt(w', t, b) == Some(w.now as real)
    requires forall u :: u != t ==> (u in w'.tasks <==> u in w.tasks) && (u in w.tasks ==> w'.tasks[u] == w.tasks[u])
    requires EventLog.LogBefore(w.log, w.now)
    ensures FireOk(w', b)
  {
    forall u | BoundAt(w', u, b).Some? ensures u == t {
      if u != t { SettleBoundSame(w, w', u, b); }
    }
    assert ThrowsBy(w'.log.history, b, w.now as real);
  }

  // --- every step keeps the rate of fire ---

  /** Handlers other than `t` stay suspended where they were. */
  ghost predicate OnlyTask(w: World, w': World, t: nat) {
    forall u :: u != t ==> (u in w'.tasks <==> u in w.tasks) && (u in w.tasks ==> w'.tasks[u] == w.tasks[u])
  }

  ghost predicate SameAim(w: World, w': World, b: Id) {
    b in w.bots && b in w'.bots && w'.bots[b].lastShotAt == w.bots[b].lastShotAt && w.now <= w'.now
  }

  lemma OthersTask(w: World, w': World, b: Id, t: nat)
    requires FireOk(w, b) && NoThrow(w, w', b) && OnlyTask(w, w', t) && SameAim(w, w', b)
    requires BoundAt(w, t, b).None? && BoundAt(w', t, b).None?
    ensures FireOk(w', b)
  {
    QuietFire(w, w', b);
  }

  lemma FlightTask(w: World, t: nat)
    requires Ready(w, ResumeFlight(t))
    ensures var w', k := HandleFlight(w, t), w.tasks[t];
            && OnlyTask(w, w', t) && w'.now == w.now && w'.bots.Keys == w.bots.Keys
            && (forall b :: b in w.bots && !(k.turn.BotTurn? && k.turn.bot == b) ==> w'.bots[b] == w.bots[b])
            && (k.turn.Human? ==> t in w'.tasks ==> w'.tasks[t].Doom? && w'.tasks[t].turn.Human?)
            && (k.turn.BotTurn? ==> BoundAt(w', t, k.turn.bot) == Some(w.now as real))
            && (k.turn.BotTurn? ==> forall b :: b != k.turn.bot ==> BoundAt(w', t, b).None?)
  {
    var k, v := w.tasks[t], VictimOf(w, w.tasks[t]);
    if v.Some? {
      var w1 := AfterHit(w, k, v.value);
      assert w1.tasks == w.tasks && w1.bots == w.bots && w1.now == w.now;
    }
  }

  lemma FlightFire(w: World, t: nat, b: Id)
    requires FireOk(w, b) && Ready(w, ResumeFlight(t)) && NoThrow(w, HandleFlight(w, t), b)
    ensures FireOk(HandleFlight(w, t), b)
  {
    var w', k := HandleFlight(w, t), w.tasks[t];
    FlightTask(w, t);
    if k.turn.BotTurn? && k.turn.bot == b {
      TurnGoesOn(w, w', b, t);
    } else {
      OthersTask(w, w', b, t);
    }
  }

  lemma DoomFire(w: World, t: nat, killId: string, b: Id)
    requires FireOk(w, b) && Ready(w, ResumeDoom(t, killId)) && NoThrow(w, HandleDoom(w, t, killId), b)
    ensures FireOk(HandleDoom(w, t, killId), b)
  {
    var w', k := HandleDoom(w, t, killId), w.tasks[t];
    assert OnlyTask(w, w', t) && w'.bots == w.bots && w'.now == w.now;
    if k.turn.BotTurn? && k.turn.bot == b {
      TurnGoesOn(w, w', b, t);
    } else {
      OthersTask(w, w', b, t);
    }
  }

  lemma SettleFire(w: World, t: nat, b: Id)
    requires FireOk(w, b) && Ready(w, SettleBot(t))
    ensures FireOk(HandleSettle(w, t), b)
  {
    var w', k := HandleSettle(w, t), w.tasks[t];
    TurnEnds(w, t);
    assert OnlyTask(w, w', t) && w'.log == w.log && w'.now == w.now;
    if k.bot == b {
      TurnGoesOn(w, w', b, t);
    } else {
      OthersTask(w, w', b, t);
    }
  }

  lemma OthersVisit(w: World, t: nat, c: BotChoice, b: Id)
    requires FireOk(w, b) && Ready(w, VisitBot(t, c)) && NoThrow(w, HandleVisit(w, t, c), b)
    requires w.tasks[t].rest == [] || w.tasks[t].rest[0] != b
    ensures FireOk(HandleVisit(w, t, c), b)
  {
    var w' := HandleVisit(w, t, c);
    VisitTask(w, t, c);
    OthersTask(w, w', b, t);
  }

  /** A visit touches its own task and the visited bot only. */
  lemma VisitTask(w: World, t: nat, c: BotChoice)
    requires Ready(w, VisitBot(t, c))
    ensures var w', k := HandleVisit(w, t, c), w.tasks[t];
            && OnlyTask(w, w', t) && w'.now == w.now
            && (forall b :: b in w.bots && (k.rest == [] || k.rest[0] != b) ==>
                  SameAim(w, w', b) && BoundAt(w', t, b).None?)
  {
    var tickAt, rest := w.tasks[t].tickAt, w.tasks[t].rest;
    VisitIsStill(w, t, c);
    if rest != [] && rest[0] in w.cache.entries {
      var w1 := w.(tasks := w.tasks[t := Visit(tickAt, rest[1..])]);
      LivingTask(w1, t, rest[0], MovedBot(w.bots[rest[0]], tickAt, c), tickAt, rest[1..], c);
    }
  }

  lemma LivingTask(w: World, t: nat, bot: Id, b: Bot, tickAt: int, rest: seq<Id>, c: BotChoice)
    requires bot in w.bots && bot in w.cache.entries && t in w.tasks && w.tasks[t].Visit?
    ensures var w' := BotActs(w, t, bot, b, tickAt, rest, c);
            && OnlyTask(w, w', t) && w'.now == w.now && w'.bots.Keys == w.bots.Keys
            && (forall o :: o in w.bots && o != bot ==> w'.bots[o] == w.bots[o] && BoundAt(w', t, o).None?)
  {
    var target := Nearest(Values(WalkBot(w, bot, b).cache), b.pos);
    if tickAt as real - b.lastShotAt > SHOT_INTERVAL && target.Some? {
      TurnThrows(w, t, bot, b, tickAt, rest, c, target.value);
    } else {
      TurnWrites(w, t, bot, b, tickAt, rest, c);
    }
  }

  /** An idle bot stays idle, with its last shot no earlier. */
  lemma IdleFire(w: World, w': World, b: Id, t: nat)
    requires FireOk(w, b) && Idling(w, b) && NoThrow(w, w', b) && OnlyTask(w, w', t) && BoundAt(w', t, b).None?
    requires b in w'.bots && w.bots[b].lastShotAt <= w'.bots[b].lastShotAt
    ensures FireOk(w', b) && Idling(w', b)
  {
    NoThrowSpaced(w, w', b);
    forall u | BoundAt(w', u, b).Some? ensures false {
      SettleBoundSame(w, w', u, b);
    }
    NoThrowKeeps(w, w', b, w.bots[b].lastShotAt, w'.bots[b].lastShotAt);
  }

  lemma LivingFire(w: World, t: nat, b: Id, m: Bot, tickAt: int, rest: seq<Id>, c: BotChoice)
    requires FireOk(w, b) && Idling(w, b) && b in w.cache.entries && t in w.tasks && w.tasks[t].Visit?
    requires m.lastShotAt == w.bots[b].lastShotAt && tickAt <= w.now && EventLog.LogBefore(w.log, w.now)
    ensures FireOk(BotActs(w, t, b, m, tickAt, rest, c), b)
  {
    var w' := BotActs(w, t, b, m, tickAt, rest, c);
    var body := BotActsLogs(w, t, b, m, tickAt, rest, c);
    var target := Nearest(Values(WalkBot(w, b, m).cache), m.pos);
    if tickAt as real - m.lastShotAt > SHOT_INTERVAL && target.Some? {
      TurnThrows(w, t, b, m, tickAt, rest, c, target.value);
      ThrowFire(w, w', b, t, tickAt, body.value);
    } else {
      TurnWrites(w, t, b, m, tickAt, rest, c);
      IdleFire(w, w', b, t);
    }
  }

  lemma OwnVisit(w: World, t: nat, c: BotChoice, b: Id)
    requires FireOk(w, b) && Ready(w, VisitBot(t, c)) && Idling(w, b) && w.tasks[t].rest != [] && w.tasks[t].rest[0] == b
    requires w.tasks[t].tickAt <= w.now && EventLog.LogBefore(w.log, w.now)
    ensures FireOk(HandleVisit(w, t, c), b)
  {
    var w', tickAt, rest := HandleVisit(w, t, c), w.tasks[t].tickAt, w.tasks[t].rest;
    var w1 := w.(tasks := w.tasks[t := Visit(tickAt, rest[1..])]);
    IdleFire(w, w1, b, t);
    if b in w.cache.entries {
      if w.cache.entries[b].hp > 0 {
        assert w' == BotActs(w1, t, b, MovedBot(w.bots[b], tickAt, c), tickAt, rest[1..], c);
        LivingFire(w1, t, b, MovedBot(w.bots[b], tickAt, c), tickAt, rest[1..], c);
      } else if w.cache.entries[b].deadUntil <= tickAt {
        assert w' == BotRevives(w1, b, tickAt, SpawnPos(c.draws));
        ReturnFire(w1, b, tickAt, SpawnPos(c.draws), t);
      }
    }
  }

  lemma ReturnFire(w: World, b: Id, tickAt: int, p: Vec3, t: nat)
    requires FireOk(w, b) && Idling(w, b) && b in w.cache.entries
    ensures FireOk(BotRevives(w, b, tickAt, p), b)
  {
    var w' := BotRevives(w, b, tickAt, p);
    assert Logged(w, w', Respawn(b, p, FULL_HP));
    assert w'.tasks == w.tasks;
    if t in w.tasks { SettleBoundSame(w, w', t, b); }
    IdleFire(w, w', b, t);
  }

  /** Messages and timers: at most a new task that is not a bot's. */
  lemma QuietStepFire(w: World, a: Action, b: Id)
    requires FireOk(w, b) && Sane(w) && Ready(w, a) && NoThrow(w, Step(w, a), b)
    requires !a.ResumeFlight? && !a.ResumeDoom? && !a.VisitBot? && !a.SettleBot?
    ensures FireOk(Step(w, a), b)
  {
    var w' := Step(w, a);
    QuietTask(w, a);
    OthersTask(w, w', b, w.nextTask);
  }

  /** The one new task is a tick or the shot of a client. */
  predicate NewTask(w: World, w': World) {
    && w.nextTask in w'.tasks && w'.tasks == w.tasks[w.nextTask := w'.tasks[w.nextTask]]
    && var k := w'.tasks[w.nextTask]; k.Visit? || (k.Flight? && k.turn.Human?)
  }

  lemma QuietTask(w: World, a: Action)
    requires Ready(w, a) && !a.ResumeFlight? && !a.ResumeDoom? && !a.VisitBot? && !a.SettleBot?
    ensures var w' := Step(w, a);
            && w'.bots == w.bots && w.now <= w'.now
            && (w'.tasks == w.tasks || NewTask(w, w'))
  {
    match a
    case OnSnowball(id, dir, len, msgId, uuid) => ShotTask(w, id, dir, len, msgId, uuid);
    case OnHello(id, name, spawn, askedAt) => HelloFrame(w, id, name, spawn, askedAt);
    case OnState(id, msg, spawn) => StateTask(w, id, msg, spawn);
    case _ =>
  }

  lemma StateTask(w: World, id: Id, msg: StateMsg, spawn: Vec3)
    requires id in w.names
    ensures var w' := HandleState(w, id, msg, spawn); w'.bots == w.bots && w'.now == w.now && w'.tasks == w.tasks
  {}

  lemma ShotTask(w: World, id: Id, dir: Option<Vec3>, len: real, msgId: string, uuid: string)
    ensures var w' := HandleSnowball(w, id, dir, len, msgId, uuid);
            && w'.bots == w.bots && w'.now == w.now
            && (w'.tasks == w.tasks || NewTask(w, w'))
  {}

  /** Only a visit of the bot adds a throw of it. */
  lemma OthersThrow(w: World, a: Action, b: Id)
    requires Ready(w, a) && IdsOk(w) && b in w.bots
    requires a.VisitBot? ==> w.tasks[a.t].rest == [] || w.tasks[a.t].rest[0] != b
    ensures NoThrow(w, Step(w, a), b)
  {
    var body := StepLogs(w, a);
    if body.Some? {
      assert body.value.Snowball? ==> a.OnSnowball? || a.VisitBot?;
      assert Logged(w, Step(w, a), body.value);
    }
  }

  lemma TaskStepFire(w: World, a: Action, b: Id)
    requires FireOk(w, b) && Ready(w, a) && NoThrow(w, Step(w, a), b)
    requires a.ResumeFlight? || a.ResumeDoom? || a.SettleBot? || (a.VisitBot? && (w.tasks[a.t].rest == [] || w.tasks[a.t].rest[0] != b))
    ensures FireOk(Step(w, a), b)
  {
    match a
    case ResumeFlight(t) => FlightFire(w, t, b);
    case ResumeDoom(t, killId) => DoomFire(w, t, killId, b);
    case VisitBot(t, c) => OthersVisit(w, t, c, b);
    case SettleBot(t) => SettleFire(w, t, b);
  }

  lemma StepFire(w: World, a: Action, b: Id)
    requires FireOk(w, b) && Sane(w) && Ready(w, a) && OneTurn(w, a, b) && EventLog.LogBefore(w.log, w.now)
    ensures FireOk(Step(w, a), b)
  {
    if a.VisitBot? && w.tasks[a.t].rest != [] && w.tasks[a.t].rest[0] == b {
      assert TaskOk(w, w.tasks[a.t]);
      OwnVisit(w, a.t, a.choice, b);
    } else {
      OthersThrow(w, a, b);
      if a.ResumeFlight? || a.ResumeDoom? || a.VisitBot? || a.SettleBot? {
        TaskStepFire(w, a, b);
      } else {
        QuietStepFire(w, a, b);
      }
    }
  }

  lemma {:induction false} RunFire(w: World, acts: seq<Action>, b: Id)
    requires FireOk(w, b) && Sane(w) && EventLog.LogOk(w.log) && EventLog.LogBefore(w.log, w.now)
    requires Runs(w, acts) && OneTurnRuns(w, acts, b)
    ensures FireOk(After(w, acts), b)
    decreases |acts|
  {
    if acts != [] {
      StepFire(w, acts[0], b);
      StepKeepsSane(w, acts[0]);
      StepKeepsLog(w, acts[0]);
      RunFire(Step(w, acts[0]), acts[1..], b);
    }
  }

  /**
    Over every run from the start in which the bot is not visited while a turn of it is suspended, any two of
    its throws are more than 10 s apart.
   */
  lemma BotsFireSlowly(w0: World, acts: seq<Action>, b: Id)
    requires Initial(w0) && Runs(w0, acts) && b in w0.bots && OneTurnRuns(w0, acts, b)
    ensures ThrowsSpaced(After(w0, acts).log.history, b)
  {
    InitialIsSane(w0);
    RunFire(w0, acts, b);
  }

  /** If ticks do not overlap, no bot is visited during its own turn. */
  lemma {:induction false} SerialRunsAreOneTurn(w: World, acts: seq<Action>, b: Id)
    requires Sane(w) && OneTick(w) && Punctual(w, LONGEST_LAG, 0) && w.lastTick <= w.now && SerialRuns(w, acts)
    ensures OneTurnRuns(w, acts, b)
    decreases |acts|
  {
    if acts != [] {
      var a := acts[0];
      if a.VisitBot? {
        assert DutyAt(w, a.t).Some?;
        assert forall u :: BoundAt(w, u, b).Some? ==> DutyAt(w, u).Some?;
      }
      StepKeepsSane(w, a);
      LastTickIsPast(w, a);
      SerialStep(w, a);
      SerialRunsAreOneTurn(Step(w, a), acts[1..], b);
    }
  }

  lemma SerialBotsFireSlowly(w0: World, acts: seq<Action>, b: Id)
    requires Initial(w0) && SerialRuns(w0, acts) && b in w0.bots
    ensures Runs(w0, acts) && ThrowsSpaced(After(w0, acts).log.history, b)
  {
    InitialIsSane(w0);
    assert forall t :: DutyAt(w0, t).None?;
    SerialTicksCollectNobody(w0, acts, b);
    SerialRunsAreOneTurn(w0, acts, b);
    BotsFireSlowly(w0, acts, b);
  }

  /** The tick visits next a living bot whose last shot is more than 10 s before it, and a human is alive. */
  ghost predicate AboutToThrow(w: World, t: nat, b: Id) {
    && t in w.tasks && w.tasks[t].Visit? && w.tasks[t].rest != [] && w.tasks[t].rest[0] == b
    && b in w.bots && b in w.cache.entries && w.cache.entries[b].id == b && IsBotId(b)
    && w.cache.entries[b].hp > 0 && w.tasks[t].tickAt as real - w.bots[b].lastShotAt > 10000.0 && SomebodyLives(w.cache)
  }

  /** The step appends a throw of the bot, and changes its task, place and pose only. */
  ghost predicate Threw(w: World, w': World, t: nat, b: Id)
    requires b in w.bots && b in w.cache.entries
  {
    && |w'.log.history| == |w.log.history| + 1 && w.log.history <= w'.log.history
    && IsThrow(w'.log.history[|w.log.history|], b) && w'.log.history[|w.log.history|].at == w.now
    && w'.now == w.now && OnlyTask(w, w', t) && SameAim(w, w', b)
    && b in w'.cache.entries && w'.cache.entries == w.cache.entries[b := w.cache.entries[b].(pos := w'.cache.entries[b].pos)]
  }

  lemma LivingThrows(w: World, t: nat, b: Id, m: Bot, tickAt: int, rest: seq<Id>, c: BotChoice)
    requires b in w.bots && b in w.cache.entries && w.cache.entries[b].id == b && IsBotId(b) && m.lastShotAt == w.bots[b].lastShotAt
    requires tickAt as real - m.lastShotAt > 10000.0 && SomebodyLives(w.cache)
    ensures Threw(w, BotActs(w, t, b, m, tickAt, rest, c), t, b)
  {
    var walked := WalkBot(w, b, m).cache;
    HumansStay(w, b, m);
    assert SomebodyLives(walked);
    NearestIsNearest(walked, m.pos);
    var k := Nearest(Values(walked), m.pos).value;
    BotActsLogsThrow(w, t, b, m, tickAt, rest, c, k, Norm(AimVector(m.pos, Values(walked)[k].pos), c.aimLen));
    TurnThrows(w, t, b, m, tickAt, rest, c, k);
  }

  lemma VisitThrows(w: World, t: nat, c: BotChoice, b: Id)
    requires AboutToThrow(w, t, b)
    ensures Threw(w, HandleVisit(w, t, c), t, b)
  {
    var tickAt, rest := w.tasks[t].tickAt, w.tasks[t].rest;
    LivingThrows(w.(tasks := w.tasks[t := Visit(tickAt, rest[1..])]), t, b, MovedBot(w.bots[b], tickAt, c), tickAt, rest[1..], c);
  }

  lemma StillAboutToThrow(w: World, w': World, t: nat, u: nat, b: Id)
    requires t != u && AboutToThrow(w, u, b) && Threw(w, w', t, b)
    ensures AboutToThrow(w', u, b)
  {
    var k :| k in w.cache.entries && !IsBotId(w.cache.entries[k].id) && w.cache.entries[k].hp > 0;
    assert k in w'.cache.entries && w'.cache.entries[k] == w.cache.entries[k];
  }

  /** Overlapping ticks break the rate: two of them that are about to throw with the same bot both do, at the same time. */
  lemma OverlapThrowsTwice(w: World, t: nat, u: nat, c: BotChoice, d: BotChoice, b: Id)
    requires t != u && AboutToThrow(w, t, b) && AboutToThrow(w, u, b)
    ensures AboutToThrow(HandleVisit(w, t, c), u, b)
    ensures !ThrowsSpaced(HandleVisit(HandleVisit(w, t, c), u, d).log.history, b)
  {
    var w1 := HandleVisit(w, t, c);
    VisitThrows(w, t, c, b);
    StillAboutToThrow(w, w1, t, u, b);
    VisitThrows(w1, u, d, b);
    ThrownTwice(w, w1, HandleVisit(w1, u, d), t, u, b);
  }

  lemma ThrownTwice(w: World, w1: World, w2: World, t: nat, u: nat, b: Id)
    requires b in w.bots && b in w.cache.entries && Threw(w, w1, t, b) && Threw(w1, w2, u, b)
    ensures !ThrowsSpaced(w2.log.history, b)
  {
    var h, n := w2.log.history, |w.log.history|;
    assert h[n] == w1.log.history[n];
    assert IsThrow(h[n], b) && IsThrow(h[n + 1], b) && h[n].at == h[n + 1].at;
  }
}
