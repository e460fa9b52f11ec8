/** What every step of the server keeps, under every interleaving of its segments. */
module Invariants {
  import opened Protocol
  import opened OrderedMap
  import opened Ballistics
  import opened BotMotion
  import opened GameWorld
  import ShotFilter
  import KillLedger

  /** Hit points are a multiple of 10 in [0, 100], zero exactly while a respawn time is set; the place is on the map. */
  ghost predicate SnapOk(id: Id, s: Snapshot) {
    && s.id == id
    && 0 <= s.hp <= FULL_HP && s.hp % DAMAGE == 0
    && s.deadUntil >= 0
    && (s.hp == 0 <==> s.deadUntil > 0)
    && InSquare(s.pos, MAP_HALF + 5.0)
  }

  ghost predicate CacheOk(w: World) {
    forall id :: id in w.cache.entries ==> SnapOk(id, w.cache.entries[id])
  }

  ghost predicate Known(w: World, id: Id) {
    id in w.names || id in w.bots
  }

  /** Connected clients have a snapshot; nobody is cached whom the server never met; nobody is both client and bot. */
  ghost predicate IdsOk(w: World) {
    && w.now >= 0
    && (forall id :: id in w.online ==> id in w.cache.entries && id in w.names)
    && (forall id :: id in w.cache.entries ==> Known(w, id))
    && (forall id :: id in w.names ==> id !in w.bots)
  }

  ghost predicate BotOk(b: Bot) {
    InSquare(b.pos, SAFE_ZONE) && (b.target.Some? ==> InSquare(b.target.value, SAFE_ZONE))
  }

  /** Bots and their targets stay in the safe zone, and a cached bot is where the bot is. */
  ghost predicate BotsOk(w: World) {
    && (forall id :: id in w.roster ==> id in w.bots)
    && (forall id :: id in w.bots ==> BotOk(w.bots[id]))
    && (forall id :: id in w.bots && id in w.cache.entries ==> w.cache.entries[id].pos == w.bots[id].pos)
  }

  ghost predicate RestOk(w: World, tickAt: int, rest: seq<Id>) {
    tickAt <= w.now && forall id :: id in rest ==> id in w.bots
  }

  ghost predicate BotTurnOk(w: World, bot: Id, before: Snapshot, tickAt: int, rest: seq<Id>) {
    bot in w.bots && SnapOk(bot, before) && before.hp > 0 && RestOk(w, tickAt, rest)
  }

  ghost predicate ShooterOk(w: World, id: Id, turn: Turn) {
    match turn
    case Human => id in w.names
    case BotTurn(bot, before, tickAt, rest) => id == bot && BotTurnOk(w, bot, before, tickAt, rest)
  }

  ghost predicate TaskOk(w: World, k: Task) {
    match k
    case Flight(owner, _, _, dir, turn) => ShooterOk(w, owner, turn) && Len2(dir) <= 1.0
    case Doom(attacker, victim, _, _, respawnAt, hitAt, turn) =>
      && ShooterOk(w, attacker, turn) && Known(w, victim) && victim != attacker
      && 0 <= hitAt <= w.now && respawnAt == hitAt + RESPAWN_MS
    case Visit(tickAt, rest) => RestOk(w, tickAt, rest)
    case Settle(bot, before, _, tickAt, rest) => BotTurnOk(w, bot, before, tickAt, rest)
  }

  ghost predicate TasksOk(w: World) {
    forall t :: t in w.tasks ==> t < w.nextTask && TaskOk(w, w.tasks[t])
  }

  /** Whose life the event is about: who joins, leaves, is hit, dies or respawns. */
  function Subject(b: Body): Option<Id> {
    match b
    case Join(p) => Some(p.id)
    case Leave(id, _) => Some(id)
    case Hit(_, id, _, _) => Some(id)
    case Death(id, _, _, _, _, _) => Some(id)
    case Respawn(id, _, _) => Some(id)
    case _ => None
  }

  ghost predicate HistoryOk(w: World) {
    forall i :: 0 <= i < |w.log.history| ==>
      var s := Subject(w.log.history[i].body); s.Some? ==> Known(w, s.value)
  }

  ghost predicate Sane(w: World) {
    CacheOk(w) && IdsOk(w) && BotsOk(w) && TasksOk(w) && HistoryOk(w)
  }

  lemma NewBotIsOk(id: Id, b: Bot, s: Snapshot, now: int)
    requires NewBot(id, b, s, now)
    ensures SnapOk(id, s) && BotOk(b) && s.pos == b.pos
  {}

  lemma InitialIsSane(w: World)
    requires Initial(w)
    ensures Sane(w)
  {
    forall id | id in w.bots
      ensures SnapOk(id, w.cache.entries[id]) && BotOk(w.bots[id]) && w.cache.entries[id].pos == w.bots[id].pos
    {
      NewBotIsOk(id, w.bots[id], w.cache.entries[id], w.now);
    }
    assert IdsOk(w);
  }

  // --- small facts about the parts of a step ---

  lemma VictimIsCached(w: World, f: Task)
    requires CacheOk(w) && f.Flight?
    ensures var v := VictimOf(w, f);
            v.Some? ==>
              && v.value.id in w.cache.entries && w.cache.entries[v.value.id] == v.value
              && Eligible(v.value, f.owner, w.now)
  {}

  lemma WoundedIsOk(id: Id, s: Snapshot, now: int)
    requires SnapOk(id, s) && now >= 0
    ensures SnapOk(id, Wounded(s, now))
    ensures Wounded(s, now).hp == HpAfterHit(s.hp)
  {}

  lemma WalkedBotIsOk(b: Bot, tickAt: int, c: BotChoice)
    requires BotOk(b) && DistOk(b, tickAt, c)
    ensures BotOk(MovedBot(b, tickAt, c))
  {
    MoveTargetIsSafe(b.pos, c.draws);
    AdvanceStaysAndApproaches(Retarget(b, tickAt, MoveTarget(b.pos, c.draws)), c.dist, c.draws.height, c.yaw);
  }

  // --- respawns ---

  /** The step brings a dead player back. */
  predicate Revives(w: World, a: Action)
    requires Ready(w, a)
  {
    match a
    case OnState(id, msg, _) => StateRevives(w, id, msg)
    case VisitBot(t, _) => VisitRevives(w, t)
    case _ => false
  }

  predicate StateRevives(w: World, id: Id, msg: StateMsg) {
    && msg.pos.Some? && msg.rotY.Some? && !OffMap(msg.pos.value)
    && Dead(w, id) && w.cache.entries[id].deadUntil <= w.now
  }

  predicate VisitRevives(w: World, t: nat)
    requires t in w.tasks && w.tasks[t].Visit?
  {
    && w.tasks[t].rest != [] && Dead(w, w.tasks[t].rest[0])
    && w.cache.entries[w.tasks[t].rest[0]].deadUntil <= w.tasks[t].tickAt
  }

  // --- preservation by the pieces of which the handlers are made ---

  /** Tasks and history do not look at the player table. */
  lemma TasksFrame(w: World, w': World)
    requires TasksOk(w) && w'.tasks == w.tasks && w'.nextTask >= w.nextTask && w'.now >= w.now
    requires w.names.Keys <= w'.names.Keys && w.bots.Keys <= w'.bots.Keys
    ensures TasksOk(w')
  {}

  lemma HistoryFrame(w: World, w': World)
    requires HistoryOk(w) && w'.log == w.log
    requires w.names.Keys <= w'.names.Keys && w.bots.Keys <= w'.bots.Keys
    ensures HistoryOk(w')
  {}

  ghost predicate BodyOk(w: World, body: Body) {
    match body
    case Join(p) => SnapOk(p.id, p) && p.id in w.names
    case Leave(id, _) => id in w.names && id !in w.online
    case Hit(_, id, hp, _) => id in w.cache.entries && w.cache.entries[id].hp == hp
    case Death(id, _, _, _, _, respawnAt) => Known(w, id) && respawnAt > 0
    case Respawn(id, pos, hp) => id in w.cache.entries && w.cache.entries[id].pos == pos && w.cache.entries[id].hp == hp == FULL_HP
    case Moved(_, _, _, _, _) => false
    case _ => true
  }

  lemma ApplyKeepsCache(w: World, ev: Event)
    requires CacheOk(w) && BodyOk(w, ev.body)
    ensures CacheOk(w.(cache := ApplyEvent(w.cache, ev)))
  {}

  lemma ApplyKeepsIds(w: World, ev: Event)
    requires IdsOk(w) && BodyOk(w, ev.body)
    ensures IdsOk(w.(cache := ApplyEvent(w.cache, ev)))
  {}

  lemma ApplyKeepsBots(w: World, ev: Event)
    requires IdsOk(w) && BotsOk(w) && BodyOk(w, ev.body)
    ensures BotsOk(w.(cache := ApplyEvent(w.cache, ev)))
  {}

  lemma EmitKeepsSane(w: World, body: Body)
    requires Sane(w) && BodyOk(w, body)
    ensures Sane(Emit(w, body))
  {
    var w' := Emit(w, body);
    var ev := Event(w.log.latestSeq + 1, w.now, body);
    ApplyKeepsCache(w, ev);
    ApplyKeepsIds(w, ev);
    ApplyKeepsBots(w, ev);
    TasksFrame(w, w');
    assert HistoryOk(w');
  }

  lemma SetKeepsSane(w: World, id: Id, s: Snapshot)
    requires Sane(w) && SnapOk(id, s) && Known(w, id)
    requires id in w.bots ==> s.pos == w.bots[id].pos
    ensures Sane(w.(cache := Set(w.cache, id, s)))
  {
    var w' := w.(cache := Set(w.cache, id, s));
    TasksFrame(w, w');
    HistoryFrame(w, w');
  }

  lemma TaskKeepsSane(w: World, t: nat, k: Task)
    requires Sane(w) && t < w.nextTask && TaskOk(w, k)
    ensures Sane(w.(tasks := w.tasks[t := k]))
  {}

  lemma DropTaskKeepsSane(w: World, t: nat)
    requires Sane(w)
    ensures Sane(w.(tasks := w.tasks - {t}))
  {}

  lemma BotKeepsSane(w: World, id: Id, b: Bot)
    requires Sane(w) && id in w.bots && BotOk(b) && b.pos == w.bots[id].pos
    ensures Sane(w.(bots := w.bots[id := b]))
  {}

  lemma WalkKeepsTables(w: World, w': World, id: Id, b: Bot, s: Snapshot)
    requires CacheOk(w) && IdsOk(w) && id in w.bots && SnapOk(id, s)
    requires w'.cache.entries == w.cache.entries[id := s] && w'.bots == w.bots[id := b]
    requires w'.names == w.names && w'.online == w.online && w'.now == w.now
    ensures CacheOk(w') && IdsOk(w')
  {}

  lemma WalkKeepsBots(w: World, w': World, id: Id, b: Bot, s: Snapshot)
    requires BotsOk(w) && id in w.bots && BotOk(b) && b.pos == s.pos
    requires w'.cache.entries == w.cache.entries[id := s] && w'.bots == w.bots[id := b] && w'.roster == w.roster
    ensures BotsOk(w')
  {}

  lemma WalkKeepsSane(w: World, id: Id, b: Bot, s: Snapshot)
    requires Sane(w) && id in w.bots && BotOk(b) && b.pos == s.pos && SnapOk(id, s)
    ensures Sane(w.(bots := w.bots[id := b], cache := Set(w.cache, id, s)))
  {
    var w' := w.(bots := w.bots[id := b], cache := Set(w.cache, id, s));
    WalkKeepsTables(w, w', id, b, s);
    WalkKeepsBots(w, w', id, b, s);
    TasksFrame(w, w');
    HistoryFrame(w, w');
  }

  lemma NameKeepsSane(w: World, id: Id, name: string)
    requires Sane(w) && id !in w.bots
    ensures Sane(w.(names := w.names[id := name]))
  {}

  lemma OnlineKeepsSane(w: World, id: Id)
    requires Sane(w) && id in w.names && id in w.cache.entries
    ensures Sane(w.(online := w.online + {id}))
  {}

  /** Neither the shot filter nor the ledger matters to the invariant. */
  lemma BooksKeepSane(w: World, shots: ShotFilter.ShotBook, ledger: KillLedger.Ledger)
    requires Sane(w)
    ensures Sane(w.(shots := shots, ledger := ledger))
  {}

  // --- preservation by the handlers ---

  lemma HelloKeepsSane(w: World, id: Id, name: string, spawn: Vec3, askedAt: int)
    requires Sane(w) && Enabled(w, OnHello(id, name, spawn, askedAt))
    ensures Sane(HandleHello(w, id, name, spawn, askedAt))
  {
    var snap := Newcomer(id, name, spawn, askedAt);
    var w1 := w.(names := w.names[id := name]);
    NameKeepsSane(w, id, name);
    SetKeepsSane(w1, id, snap);
    OnlineKeepsSane(w1.(cache := Set(w.cache, id, snap)), id);
    EmitKeepsSane(w.(online := w.online + {id}, names := w.names[id := name], cache := Set(w.cache, id, snap)), Join(snap));
  }

  lemma CloseKeepsSane(w: World, id: Id)
    requires Sane(w) && Enabled(w, OnClose(id))
    ensures Sane(HandleClose(w, id))
  {
    var w1 := w.(online := w.online - {id});
    TasksFrame(w, w1);
    EmitKeepsSane(w1, Leave(id, w.names[id]));
  }

  lemma RenameKeepsSane(w: World, id: Id, raw: string, clamped: string)
    requires Sane(w) && Enabled(w, OnRename(id, raw, clamped))
    ensures Sane(HandleRename(w, id, raw, clamped))
  {
    var w1 := w.(names := w.names[id := raw]);
    NameKeepsSane(w, id, raw);
    if clamped != "" {
      if id in w.cache.entries {
        var s := w.cache.entries[id].(name := clamped, updatedAt := w.now);
        SetKeepsSane(w1, id, s);
        EmitKeepsSane(w1.(cache := Set(w.cache, id, s)), Rename(id, clamped));
      } else {
        EmitKeepsSane(w1, Rename(id, clamped));
      }
    }
  }

  lemma StateKeepsSane(w: World, id: Id, msg: StateMsg, spawn: Vec3)
    requires Sane(w) && Enabled(w, OnState(id, msg, spawn))
    ensures Sane(HandleState(w, id, msg, spawn))
  {
    if msg.pos.Some? && msg.rotY.Some? && !OffMap(msg.pos.value) {
      if Dead(w, id) {
        if w.cache.entries[id].deadUntil <= w.now {
          var s := RevivedSnapshot(w.cache.entries[id], spawn, msg.rotY.value, msg.pingMs, w.now);
          SetKeepsSane(w, id, s);
          EmitKeepsSane(w.(cache := Set(w.cache, id, s)), Respawn(id, spawn, FULL_HP));
        }
      } else {
        SetKeepsSane(w, id, Reported(w, id, msg));
      }
    }
  }

  lemma LaunchKeepsSane(w: World, t: nat, owner: Id, shotId: string, origin: Vec3, dir: Vec3, turn: Turn)
    requires Sane(w) && t < w.nextTask && ShooterOk(w, owner, turn) && Len2(dir) <= 1.0
    ensures Sane(Launch(w, t, owner, shotId, origin, dir, turn))
  {
    var k := Flight(owner, shotId, origin, dir, turn);
    TaskKeepsSane(w, t, k);
    EmitKeepsSane(w.(tasks := w.tasks[t := k]), Snowball(shotId, owner, origin, dir, SNOWBALL_SPEED));
  }

  lemma FireKeepsSane(w: World, id: Id, shots: ShotFilter.ShotBook, shotId: string, origin: Vec3, dir: Vec3)
    requires Sane(w) && id in w.names && Len2(dir) <= 1.0
    ensures Sane(Launch(w.(shots := shots, nextTask := w.nextTask + 1), w.nextTask, id, shotId, origin, dir, Human))
  {}

  lemma SnowballKeepsSane(w: World, id: Id, dir: Option<Vec3>, len: real, msgId: string, uuid: string)
    requires Sane(w) && id in w.names && (dir.Some? ==> IsHypot(len, dir.value))
    ensures Sane(HandleSnowball(w, id, dir, len, msgId, uuid))
  {
    var shotId := if UuidLike(msgId) then msgId else uuid;
    var shots := ShotFilter.Accept(w.shots, shotId, w.now);
    var w' := HandleSnowball(w, id, dir, len, msgId, uuid);
    if dir.None? || ShotFilter.Refuses(w.shots, shotId, w.now) {
      assert w' == w;
    } else if id !in w.cache.entries {
      assert w' == w.(shots := shots, ledger := w.ledger);
      BooksKeepSane(w, shots, w.ledger);
    } else {
      var origin, u := Muzzle(w.cache.entries[id].pos), Norm(dir.value, len);
      assert w' == Launch(w.(shots := shots, nextTask := w.nextTask + 1), w.nextTask, id, shotId, origin, u, Human);
      NormIsShort(dir.value, len);
      FireKeepsSane(w, id, shots, shotId, origin, u);
    }
  }

  lemma EndShotKeepsSane(w: World, t: nat, id: Id, turn: Turn, shotAt: Option<int>)
    requires Sane(w) && t < w.nextTask && ShooterOk(w, id, turn)
    ensures Sane(EndShot(w, t, turn, shotAt))
  {
    match turn
    case Human => DropTaskKeepsSane(w, t);
    case BotTurn(bot, before, tickAt, rest) => TaskKeepsSane(w, t, Settle(bot, before, shotAt, tickAt, rest));
  }

  lemma HitKeepsSane(w: World, f: Task, victim: Snapshot)
    requires Sane(w) && f.Flight? && victim.id in w.cache.entries && w.cache.entries[victim.id] == victim
    ensures Sane(AfterHit(w, f, victim))
  {
    WoundedIsOk(victim.id, victim, w.now);
    SetKeepsSane(w, victim.id, Wounded(victim, w.now));
    EmitKeepsSane(w.(cache := Set(w.cache, victim.id, Wounded(victim, w.now))),
                  Hit(f.owner, victim.id, HpAfterHit(victim.hp), f.shotId));
  }

  lemma StruckTaskKeepsSane(w: World, t: nat, victim: Snapshot)
    requires Sane(w) && t in w.tasks && w.tasks[t].Flight? && Known(w, victim.id) && victim.id != w.tasks[t].owner
    ensures Sane(StruckTask(w, t, victim))
  {
    var f := w.tasks[t];
    assert TaskOk(w, f);
    if HpAfterHit(victim.hp) == 0 {
      var doom := Doom(f.owner, victim.id, victim.name, f.shotId, w.now + RESPAWN_MS, w.now, f.turn);
      assert StruckTask(w, t, victim) == w.(tasks := w.tasks[t := doom]);
      assert TaskOk(w, doom);
      TaskKeepsSane(w, t, doom);
    } else {
      assert StruckTask(w, t, victim) == EndShot(w, t, f.turn, Some(w.now));
      EndShotKeepsSane(w, t, f.owner, f.turn, Some(w.now));
    }
  }

  lemma StrikeKeepsSane(w: World, t: nat, victim: Snapshot)
    requires Sane(w) && Enabled(w, ResumeFlight(t))
    requires victim.id in w.cache.entries && w.cache.entries[victim.id] == victim && victim.id != w.tasks[t].owner
    ensures Sane(HandleStrike(w, t, victim))
  {
    HitKeepsSane(w, w.tasks[t], victim);
    StruckTaskKeepsSane(AfterHit(w, w.tasks[t], victim), t, victim);
  }

  lemma MissKeepsSane(w: World, t: nat)
    requires Sane(w) && Enabled(w, ResumeFlight(t))
    ensures Sane(HandleMiss(w, t))
  {
    var f := w.tasks[t];
    if f.turn.BotTurn? {
      var b := w.bots[f.turn.bot].(lastShotAt := w.now as real);
      BotKeepsSane(w, f.turn.bot, b);
      EndShotKeepsSane(w.(bots := w.bots[f.turn.bot := b]), t, f.owner, f.turn, None);
    } else {
      EndShotKeepsSane(w, t, f.owner, f.turn, None);
    }
  }

  lemma FlightKeepsSane(w: World, t: nat)
    requires Sane(w) && Enabled(w, ResumeFlight(t))
    ensures Sane(HandleFlight(w, t))
  {
    VictimIsCached(w, w.tasks[t]);
    var v := VictimOf(w, w.tasks[t]);
    if v.None? {
      MissKeepsSane(w, t);
    } else {
      StrikeKeepsSane(w, t, v.value);
    }
  }

  lemma DoomKeepsSane(w: World, t: nat, killId: string)
    requires Sane(w) && Enabled(w, ResumeDoom(t, killId))
    ensures Sane(HandleDoom(w, t, killId))
  {
    var d := w.tasks[t];
    var w1 := if d.turn.Human? then w.(ledger := KillLedger.Record(w.ledger, KillRow(w, d, killId))) else w;
    BooksKeepSane(w, w.shots, w1.ledger);
    var death := DeathBody(w, d);
    EmitKeepsSane(w1, death);
    EndShotKeepsSane(Emit(w1, death), t, d.attackerId, d.turn, Some(d.hitAt));
  }

  lemma WriteBackKeepsSane(w: World, bot: Id, before: Snapshot, tickAt: int)
    requires Sane(w) && bot in w.bots && SnapOk(bot, before)
    ensures Sane(WriteBack(w, bot, before, tickAt))
  {
    var b := w.bots[bot];
    SetKeepsSane(w, bot, before.(pos := b.pos, rotY := b.rotY, vel := b.vel, updatedAt := tickAt));
  }

  lemma WalkBotKeepsSane(w: World, bot: Id, b: Bot)
    requires Sane(w) && bot in w.bots && bot in w.cache.entries && BotOk(b)
    ensures Sane(WalkBot(w, bot, b))
  {
    WalkKeepsSane(w, bot, b, w.cache.entries[bot].(pos := b.pos));
  }

  lemma BotActsKeepsSane(w: World, t: nat, bot: Id, b: Bot, tickAt: int, rest: seq<Id>, c: BotChoice)
    requires Sane(w) && bot in w.bots && bot in w.cache.entries && BotOk(b)
    requires t < w.nextTask && w.cache.entries[bot].hp > 0 && RestOk(w, tickAt, rest) && AimOk(w, bot, b, c)
    ensures Sane(BotActs(w, t, bot, b, tickAt, rest, c))
  {
    var before := w.cache.entries[bot];
    WalkBotKeepsSane(w, bot, b);
    var w1 := WalkBot(w, bot, b);
    var players := Values(w1.cache);
    var target := Nearest(players, b.pos);
    if tickAt as real - b.lastShotAt > SHOT_INTERVAL {
      if target.None? {
        BotKeepsSane(w1, bot, b.(lastShotAt := tickAt as real));
        WriteBackKeepsSane(w1.(bots := w1.bots[bot := b.(lastShotAt := tickAt as real)]), bot, before, tickAt);
      } else {
        BotKeepsSane(w1, bot, b.(rotY := c.aimYaw));
        NormIsShort(AimVector(b.pos, players[target.value].pos), c.aimLen);
        LaunchKeepsSane(w1.(bots := w1.bots[bot := b.(rotY := c.aimYaw)]), t, bot, c.shotId, Muzzle(b.pos),
                        Norm(AimVector(b.pos, players[target.value].pos), c.aimLen), BotTurn(bot, before, tickAt, rest));
      }
    } else {
      WriteBackKeepsSane(w1, bot, before, tickAt);
    }
  }

  lemma BotRevivesKeepsSane(w: World, bot: Id, tickAt: int, spawn: Vec3)
    requires Sane(w) && bot in w.bots && bot in w.cache.entries && InSquare(spawn, SPAWN_SPAN / 2.0)
    ensures Sane(BotRevives(w, bot, tickAt, spawn))
  {
    var snap := w.cache.entries[bot].(pos := spawn, hp := FULL_HP, deadUntil := 0, updatedAt := tickAt);
    var b := w.bots[bot].(pos := spawn, hp := FULL_HP, vel := ZERO, target := None);
    WalkKeepsSane(w, bot, b, snap);
    EmitKeepsSane(w.(bots := w.bots[bot := b], cache := Set(w.cache, bot, snap)), Respawn(bot, spawn, FULL_HP));
  }

  lemma TurnKeepsSane(w: World, t: nat, bot: Id, tickAt: int, rest: seq<Id>, c: BotChoice)
    requires Sane(w) && bot in w.bots && bot in w.cache.entries && ChoiceOk(w, bot, tickAt, c)
    requires t < w.nextTask && w.cache.entries[bot].hp > 0 && RestOk(w, tickAt, rest)
    ensures Sane(BotActs(w, t, bot, MovedBot(w.bots[bot], tickAt, c), tickAt, rest, c))
  {
    WalkedBotIsOk(w.bots[bot], tickAt, c);
    BotActsKeepsSane(w, t, bot, MovedBot(w.bots[bot], tickAt, c), tickAt, rest, c);
  }

  lemma ChoiceFrame(w: World, w': World, bot: Id, tickAt: int, c: BotChoice)
    requires bot in w.bots && bot in w.cache.entries && ChoiceOk(w, bot, tickAt, c) && w'.bots == w.bots && w'.cache == w.cache
    ensures ChoiceOk(w', bot, tickAt, c)
  {
    var b := MovedBot(w.bots[bot], tickAt, c);
    assert WalkBot(w', bot, b).cache == WalkBot(w, bot, b).cache;
  }

  lemma VisitKeepsSane(w: World, t: nat, c: BotChoice)
    requires Sane(w) && Enabled(w, VisitBot(t, c))
    ensures Sane(HandleVisit(w, t, c))
  {
    var tickAt, rest := w.tasks[t].tickAt, w.tasks[t].rest;
    if rest == [] {
      LastTickKeepsSane(w, t, tickAt);
    } else {
      var bot := rest[0];
      var w1 := w.(tasks := w.tasks[t := Visit(tickAt, rest[1..])]);
      assert TaskOk(w, w.tasks[t]);
      TaskKeepsSane(w, t, Visit(tickAt, rest[1..]));
      if bot in w.cache.entries {
        if w.cache.entries[bot].hp > 0 {
          ChoiceFrame(w, w1, bot, tickAt, c);
          TurnKeepsSane(w1, t, bot, tickAt, rest[1..], c);
        } else if w.cache.entries[bot].deadUntil <= tickAt {
          SpawnIsFirstClear(c.draws);
          BotRevivesKeepsSane(w1, bot, tickAt, SpawnPos(c.draws));
        }
      }
    }
  }

  lemma LastTickKeepsSane(w: World, t: nat, tickAt: int)
    requires Sane(w)
    ensures Sane(w.(tasks := w.tasks - {t}, lastTick := tickAt))
  {
    DropTaskKeepsSane(w, t);
    var w1 := w.(tasks := w.tasks - {t});
    TasksFrame(w1, w1.(lastTick := tickAt));
  }

  lemma SettleKeepsSane(w: World, t: nat)
    requires Sane(w) && Enabled(w, SettleBot(t))
    ensures Sane(HandleSettle(w, t))
  {
    var s := w.tasks[t];
    var w1 := w;
    if s.shotAt.Some? {
      var b := w.bots[s.bot].(lastShotAt := s.shotAt.value as real);
      BotKeepsSane(w, s.bot, b);
      w1 := w.(bots := w.bots[s.bot := b]);
    }
    WriteBackKeepsSane(w1, s.bot, s.before, s.tickAt);
    TaskKeepsSane(WriteBack(w1, s.bot, s.before, s.tickAt), t, Visit(s.tickAt, s.rest));
  }

  lemma PassKeepsSane(w: World, until: int)
    requires Sane(w) && until >= w.now
    ensures Sane(w.(now := until))
  {}

  lemma ShrinkKeepsSane(w: World, c: Dict<Snapshot>)
    requires Sane(w)
    requires forall id :: id in c.entries ==> id in w.cache.entries && c.entries[id] == w.cache.entries[id]
    requires forall id :: id in w.online ==> id in c.entries
    ensures Sane(w.(cache := c))
  {}

  lemma ScanIdleKeepsSane(w: World)
    requires Sane(w)
    ensures Sane(HandleScanIdle(w))
  {
    ShrinkKeepsSane(w, Sweep(w.cache, IdleAmong(w, w.cache.order)));
  }

  lemma StartBotsKeepsSane(w: World)
    requires Sane(w)
    ensures Sane(HandleStartBots(w))
  {}

  lemma ResumedKeepsSane(w: World, a: Action)
    requires Sane(w) && Enabled(w, a) && (a.ResumeFlight? || a.ResumeDoom? || a.VisitBot? || a.SettleBot?)
    ensures Sane(Step(w, a))
  {
    match a
    case ResumeFlight(t) => FlightKeepsSane(w, t);
    case ResumeDoom(t, killId) => DoomKeepsSane(w, t, killId);
    case VisitBot(t, c) => VisitKeepsSane(w, t, c);
    case SettleBot(t) => SettleKeepsSane(w, t);
  }

  lemma TimerKeepsSane(w: World, a: Action)
    requires Sane(w) && Enabled(w, a) && (a.Pass? || a.StartBots? || a.ScanIdle? || a.ScanShots? || a.ScanKills?)
    ensures Sane(Step(w, a))
  {
    match a
    case Pass(until) => PassKeepsSane(w, until);
    case StartBots => StartBotsKeepsSane(w);
    case ScanIdle => ScanIdleKeepsSane(w);
    case ScanShots => BooksKeepSane(w, ShotFilter.Expire(w.shots, w.now), w.ledger);
    case ScanKills => BooksKeepSane(w, w.shots, KillLedger.Cleanup(w.ledger, w.now));
  }

  lemma MessageKeepsSane(w: World, a: Action)
    requires Sane(w) && Enabled(w, a)
    requires a.OnHello? || a.OnClose? || a.OnState? || a.OnRename? || a.OnChat? || a.OnPing? || a.OnSnowball?
    ensures Sane(Step(w, a))
  {
    match a
    case OnHello(id, name, spawn, askedAt) => HelloKeepsSane(w, id, name, spawn, askedAt);
    case OnClose(id) => CloseKeepsSane(w, id);
    case OnState(id, msg, spawn) => StateKeepsSane(w, id, msg, spawn);
    case OnRename(id, raw, clamped) => RenameKeepsSane(w, id, raw, clamped);
    case OnChat(id, text) => if text != "" { EmitKeepsSane(w, Chat(id, w.names[id], text)); }
    case OnPing(id) =>
      if id in w.cache.entries { SetKeepsSane(w, id, w.cache.entries[id].(updatedAt := w.now)); }
    case OnSnowball(id, dir, len, shotId, uuid) => SnowballKeepsSane(w, id, dir, len, shotId, uuid);
  }

  /** Every segment keeps the invariant. */
  lemma StepKeepsSane(w: World, a: Action)
    requires Sane(w) && Enabled(w, a)
    ensures Sane(Step(w, a))
  {
    if a.ResumeFlight? || a.ResumeDoom? || a.VisitBot? || a.SettleBot? {
      ResumedKeepsSane(w, a);
    } else if a.Pass? || a.StartBots? || a.ScanIdle? || a.ScanShots? || a.ScanKills? {
      TimerKeepsSane(w, a);
    } else {
      MessageKeepsSane(w, a);
    }
  }

  /** Every run from a fresh server keeps the invariant, however its segments interleave. */
  lemma {:induction false} RunKeepsSane(w: World, acts: seq<Action>)
    requires Sane(w) && Runs(w, acts)
    ensures Sane(After(w, acts))
    decreases |acts|
  {
    if acts != [] {
      StepKeepsSane(w, acts[0]);
      RunKeepsSane(Step(w, acts[0]), acts[1..]);
    }
  }

  /**
    The player table in every reachable state, under every interleaving: hit points are a multiple
    of ten between 0 and 100 and zero exactly while a respawn time is set, everybody is on the
    map, and every connected client has a snapshot.
   */
  lemma CacheInvariant(w0: World, acts: seq<Action>)
    requires Initial(w0) && Runs(w0, acts)
    ensures var w := After(w0, acts);
            && (forall id :: id in w.cache.entries ==>
                  var s := w.cache.entries[id];
                  && s.id == id && 0 <= s.hp <= 100 && s.hp % 10 == 0
                  && (s.hp == 0 <==> s.deadUntil > 0)
                  && InSquare(s.pos, 195.0))
            && (forall id :: id in w.online ==> id in w.cache.entries)
  {
    InitialIsSane(w0);
    RunKeepsSane(w0, acts);
    var w := After(w0, acts);
    forall id | id in w.cache.entries
      ensures var s := w.cache.entries[id];
              s.id == id && 0 <= s.hp <= 100 && s.hp % 10 == 0 && (s.hp == 0 <==> s.deadUntil > 0) && InSquare(s.pos, 195.0)
    {
      assert SnapOk(id, w.cache.entries[id]);
    }
  }
}
