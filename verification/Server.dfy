/**
  The server as the program it is: tables that handlers update in place.  Each
  method is one synchronous segment and is proved to do what the step system
  says; `now` is the value of Date.now() during the segment.
 */
module Server {
  import opened Protocol
  import opened OrderedMap
  import opened Ballistics
  import opened BotMotion
  import opened GameWorld
  import opened EventLog
  import opened ShotFilter
  import opened KillLedger
  import Invariants
  import Bookkeeping

  lemma BotIdIsNew(i: nat)
    requires i < |BOT_IDS|
    ensures BOT_IDS[i] !in BOT_IDS[..i]
  {}

  /** The first `i` bots are in both tables, healthy and at their spawn points. */
  ghost predicate Seeded(cache: Dict<Snapshot>, bots: map<Id, Bot>, i: nat, now: int)
    requires i <= |BOT_IDS|
  {
    && cache.order == BOT_IDS[..i] && bots.Keys == cache.entries.Keys
    && forall id :: id in bots ==> NewBot(id, bots[id], cache.entries[id], now)
  }

  lemma SeedNext(cache: Dict<Snapshot>, bots: map<Id, Bot>, i: nat, now: int, b: Bot, s: Snapshot)
    requires i < |BOT_IDS| && Seeded(cache, bots, i, now)
    requires s.id == BOT_IDS[i] && NewBot(s.id, b, s, now)
    ensures Seeded(Set(cache, s.id, s), bots[s.id := b], i + 1, now)
  {
    BotIdIsNew(i);
    assert s.id !in cache.order;
    assert BOT_IDS[..i + 1] == BOT_IDS[..i] + [BOT_IDS[i]];
    NewBotsStay(cache.entries, bots, Set(cache, s.id, s).entries, bots[s.id := b], now, b, s);
  }

  lemma NewBotsStay(entries: map<Id, Snapshot>, bots: map<Id, Bot>, entries': map<Id, Snapshot>, bots': map<Id, Bot>, now: int, b: Bot, s: Snapshot)
    requires bots.Keys == entries.Keys && NewBot(s.id, b, s, now)
    requires forall id :: id in bots ==> NewBot(id, bots[id], entries[id], now)
    requires entries' == entries[s.id := s] && bots' == bots[s.id := b]
    ensures bots'.Keys == entries'.Keys
    ensures forall id :: id in bots' ==> NewBot(id, bots'[id], entries'[id], now)
  {}

  /** The bot stands in the table under its name at its spawn point, its first shot 10 s and a random delay away. */
  ghost predicate Entered(entries: map<Id, Snapshot>, bots: map<Id, Bot>, id: Id, name: string, spawn: Vec3, yaw: real, now: int, delay: real) {
    && id in bots && id in entries
    && bots[id] == Bot(name, spawn, yaw, Vec3(0.0, 0.0, 0.0), 100, None, now as real + 10000.0 * delay, now)
    && entries[id] == Snapshot(id, name, spawn, yaw, Vec3(0.0, 0.0, 0.0), 100, false, 0, now, None)
  }

  ghost predicate AllEntered(entries: map<Id, Snapshot>, bots: map<Id, Bot>, draws: seq<Draws>, yaws: seq<real>, delays: seq<real>, n: nat, now: int)
    requires n <= |BOT_IDS| && |draws| == |yaws| == |delays| == |BOT_IDS|
  {
    forall i :: 0 <= i < n ==> Entered(entries, bots, BOT_IDS[i], BOT_NAMES[i], SpawnPos(draws[i]), yaws[i], now, delays[i])
  }

  lemma EnterNext(entries: map<Id, Snapshot>, bots: map<Id, Bot>, draws: seq<Draws>, yaws: seq<real>, delays: seq<real>, n: nat, now: int, b: Bot, s: Snapshot)
    requires n < |BOT_IDS| && |draws| == |yaws| == |delays| == |BOT_IDS| && AllEntered(entries, bots, draws, yaws, delays, n, now)
    requires Entered(map[BOT_IDS[n] := s], map[BOT_IDS[n] := b], BOT_IDS[n], BOT_NAMES[n], SpawnPos(draws[n]), yaws[n], now, delays[n])
    ensures AllEntered(entries[BOT_IDS[n] := s], bots[BOT_IDS[n] := b], draws, yaws, delays, n + 1, now)
  {
    BotIdIsNew(n);
    forall i | 0 <= i < n
      ensures Entered(entries[BOT_IDS[n] := s], bots[BOT_IDS[n] := b], BOT_IDS[i], BOT_NAMES[i], SpawnPos(draws[i]), yaws[i], now, delays[i])
    {
      assert BOT_IDS[i] in BOT_IDS[..n];
    }
  }

  /** One more key of the scan: it is still in the table, and is deleted exactly if it is idle. */
  lemma SweepNext(w: World, i: nat)
    requires i < |w.cache.order|
    ensures var id := w.cache.order[i];
            var swept := Sweep(w.cache, IdleAmong(w, w.cache.order[..i]));
            && id in w.cache.entries && id in swept.entries && swept.entries[id] == w.cache.entries[id]
            && Sweep(w.cache, IdleAmong(w, w.cache.order[..i + 1])) == if Idle(w, id) then Delete(swept, id) else swept
  {
    var order, id := w.cache.order, w.cache.order[i];
    var gone := IdleAmong(w, order[..i]);
    assert order[..i + 1][..i] == order[..i];
    assert id in order && id !in order[..i];
    assert (gone + [id])[..|gone|] == gone && gone + [] == gone;
  }

  class GameServer {
    var playersCache: Dict<Snapshot>
    var clients: set<Id>
    var names: map<Id, string>
    var bots: map<Id, Bot>
    var tasks: map<nat, Task>
    var nextTask: nat
    ghost var lastTick: int
    const roster: seq<Id>
    const stream: EventStream
    const shots: SeenShots
    const store: KillStore

    ghost function View(now: int): World
      reads this, stream, shots, store
    {
      World(now, playersCache, clients, names, stream.View(), shots.View(), store.View(), bots, roster, tasks, nextTask, lastTick)
    }

    /** A server on the database that earlier processes left. */
    constructor (store: KillStore, now: int)
      ensures this.store == store && store.View() == old(store.View())
      ensures fresh(stream) && fresh(shots)
      ensures View(now) == World(now, Empty(), {}, map[], EMPTY_LOG, EMPTY_BOOK, store.View(), map[], BOT_IDS, map[], 0, now)
    {
      playersCache, clients, names, bots, tasks, nextTask := Empty(), {}, map[], map[], map[], 0;
      lastTick := now;
      roster := BOT_IDS;
      stream := new EventStream();
      shots := new SeenShots();
      this.store := store;
    }

    /** Draws a spawn point for one bot, and enters the bot. */
    method EnterBot(i: nat, draws: seq<Draws>, yaws: seq<real>, delays: seq<real>, now: int)
      requires i < |BOT_IDS| == |draws| == |yaws| == |delays| && DrawsOk(draws[i]) && 0.0 <= delays[i] < 1.0
      requires Seeded(playersCache, bots, i, now) && AllEntered(playersCache.entries, bots, draws, yaws, delays, i, now)
      modifies this`playersCache, this`bots
      ensures Seeded(playersCache, bots, i + 1, now) && AllEntered(playersCache.entries, bots, draws, yaws, delays, i + 1, now)
    {
      var id := BOT_IDS[i];
      var spawn := RandomSpawnPos(draws[i]);
      var bot := Bot(BOT_NAMES[i], spawn, yaws[i], ZERO, FULL_HP, None, now as real + delays[i] * SHOT_INTERVAL, now);
      var snapshot := Snapshot(id, bot.name, bot.pos, bot.rotY, bot.vel, bot.hp, false, 0, now, None);
      SeedNext(playersCache, bots, i, now, bot, snapshot);
      EnterNext(playersCache.entries, bots, draws, yaws, delays, i, now, bot, snapshot);
      bots := bots[id := bot];
      playersCache := Set(playersCache, id, snapshot);
    }

    /** Puts the five bots into the player table, without join events. */
    method InitBots(draws: seq<Draws>, yaws: seq<real>, delays: seq<real>, now: int)
      requires |draws| == |yaws| == |delays| == |BOT_IDS|
      requires forall i :: 0 <= i < |BOT_IDS| ==> DrawsOk(draws[i]) && 0.0 <= delays[i] < 1.0
      requires now >= 0 && LedgerOk(store.View(), now)
      requires View(now) == World(now, Empty(), {}, map[], EMPTY_LOG, EMPTY_BOOK, store.View(), map[], BOT_IDS, map[], 0, now)
      modifies this`playersCache, this`bots
      ensures Initial(View(now))
      ensures AllEntered(playersCache.entries, bots, draws, yaws, delays, |BOT_IDS|, now)
    {
      for i := 0 to |BOT_IDS|
        invariant Seeded(playersCache, bots, i, now)
        invariant AllEntered(playersCache.entries, bots, draws, yaws, delays, i, now)
      {
        EnterBot(i, draws, yaws, delays, now);
      }
      assert BOT_IDS[..|BOT_IDS|] == BOT_IDS;
    }

    // --- state.ts ---

    method ApplyEventToCache(ev: Event)
      modifies this`playersCache
      ensures playersCache == ApplyEvent(old(playersCache), ev)
    {
      match ev.body {
        case Join(player) => playersCache := Set(playersCache, player.id, player);
        case Leave(id, _) => playersCache := Delete(playersCache, id);
        case Moved(id, pos, rotY, vel, crouch) =>
          if id in playersCache.entries {
            var prev := playersCache.entries[id];
            playersCache := Set(playersCache, id, prev.(pos := pos, rotY := rotY, vel := vel, crouch := crouch, updatedAt := ev.at));
          }
        case Rename(id, name) =>
          if id in playersCache.entries {
            playersCache := Set(playersCache, id, playersCache.entries[id].(name := name, updatedAt := ev.at));
          }
        case Respawn(id, pos, hp) =>
          if id in playersCache.entries {
            playersCache := Set(playersCache, id, playersCache.entries[id].(pos := pos, hp := hp, deadUntil := 0, updatedAt := ev.at));
          }
        case Hit(_, id, victimHp, _) =>
          if id in playersCache.entries {
            playersCache := Set(playersCache, id, playersCache.entries[id].(hp := victimHp, updatedAt := ev.at));
          }
        case Death(id, _, _, _, _, respawnAt) =>
          if id in playersCache.entries {
            playersCache := Set(playersCache, id, playersCache.entries[id].(hp := 0, deadUntil := respawnAt, updatedAt := ev.at));
          }
        case _ =>
      }
    }

    /** appendEventInMem, up to its broadcast. */
    method AppendEvent(body: Body, now: int)
      modifies this`playersCache, stream
      ensures View(now) == Emit(old(View(now)), body)
    {
      var full := stream.Push(body, now);
      ApplyEventToCache(full);
    }

    method ScanIdlePlayers(now: int)
      modifies this`playersCache
      ensures View(now) == HandleScanIdle(old(View(now)))
    {
      ghost var w := View(now);
      var order := playersCache.order;
      for i := 0 to |order|
        invariant playersCache == Sweep(w.cache, IdleAmong(w, order[..i]))
      {
        var id := order[i];
        SweepNext(w, i);
        if id !in clients {
          var age := now - playersCache.entries[id].updatedAt;
          if age > CLEANUP_IDLE_MS {
            playersCache := Delete(playersCache, id);
          }
        }
      }
      assert order[..|order|] == order;
    }

    // --- ws.ts: connections ---

    method OnHello(id: Id, name: string, spawn: Vec3, askedAt: int, now: int)
      modifies this, stream
      ensures View(now) == HandleHello(old(View(now)), id, name, spawn, askedAt)
    {
      var snap := Snapshot(id, name, spawn, 0.0, ZERO, FULL_HP, false, 0, askedAt, None);
      names := names[id := snap.name];
      clients := clients + {id};
      playersCache := Set(playersCache, snap.id, snap);
      AppendEvent(Join(snap), now);
    }

    method OnClose(id: Id, now: int)
      requires id in names
      modifies this, stream
      ensures View(now) == HandleClose(old(View(now)), id)
    {
      clients := clients - {id};
      AppendEvent(Leave(id, names[id]), now);
    }

    method OnPing(id: Id, now: int)
      modifies this`playersCache
      ensures View(now) == HandlePing(old(View(now)), id)
    {
      if id in playersCache.entries {
        playersCache := Set(playersCache, id, playersCache.entries[id].(updatedAt := now));
      }
    }

    method OnRename(id: Id, raw: string, clamped: string, now: int)
      modifies this, stream
      ensures View(now) == HandleRename(old(View(now)), id, raw, clamped)
    {
      names := names[id := raw];
      if clamped == "" { return; }
      if id in playersCache.entries {
        playersCache := Set(playersCache, id, playersCache.entries[id].(name := clamped, updatedAt := now));
      }
      AppendEvent(Rename(id, clamped), now);
    }

    method OnChat(id: Id, text: string, now: int)
      requires id in names
      modifies this`playersCache, stream
      ensures View(now) == HandleChat(old(View(now)), id, text)
    {
      if text == "" { return; }
      AppendEvent(Chat(id, names[id], text), now);
    }

    // --- game.ts ---

    method OnState(id: Id, msg: StateMsg, spawn: Vec3, now: int)
      requires id in names
      modifies this`playersCache, stream
      ensures View(now) == HandleState(old(View(now)), id, msg, spawn)
    {
      if msg.pos.None? || msg.rotY.None? { return; }
      var pos := msg.pos.value;
      var vel := if msg.vel.Some? then msg.vel.value else ZERO;
      if pos.x > MAP_HALF + 5.0 || -pos.x > MAP_HALF + 5.0 || pos.z > MAP_HALF + 5.0 || -pos.z > MAP_HALF + 5.0
         || pos.y > 5000.0 || -pos.y > 5000.0 { return; }

      if id in playersCache.entries {
        var prev := playersCache.entries[id];
        if prev.hp <= 0 && prev.deadUntil > now { return; }
        var pingMs := if msg.pingMs.Some? then msg.pingMs else prev.pingMs;
        if prev.hp <= 0 && prev.deadUntil <= now {
          var revived := prev.(pos := spawn, rotY := msg.rotY.value, vel := ZERO, hp := FULL_HP, crouch := false,
                               deadUntil := 0, updatedAt := now, pingMs := pingMs);
          playersCache := Set(playersCache, id, revived);
          AppendEvent(Respawn(id, spawn, FULL_HP), now);
          return;
        }
        var next := Snapshot(id, names[id], pos, msg.rotY.value, vel, prev.hp, msg.crouch, prev.deadUntil, now, pingMs);
        playersCache := Set(playersCache, id, next);
      } else {
        var next := Snapshot(id, names[id], pos, msg.rotY.value, vel, FULL_HP, msg.crouch, 0, now, msg.pingMs);
        playersCache := Set(playersCache, id, next);
      }
    }

    method OnSnowball(id: Id, dir: Option<Vec3>, len: real, msgId: string, uuid: string, now: int)
      modifies this, stream, shots
      ensures View(now) == HandleSnowball(old(View(now)), id, dir, len, msgId, uuid)
    {
      if dir.None? { return; }
      var shotId := if 8 <= |msgId| <= 64 then msgId else uuid;
      var seen := shots.SeenShotBefore(shotId, now);
      if seen { return; }
      if id !in playersCache.entries { return; }
      var pos := playersCache.entries[id].pos;
      var u := Norm(dir.value, len);
      var origin := Vec3(pos.x, pos.y + 1.3, pos.z);
      tasks := tasks[nextTask := Flight(id, shotId, origin, u, Human)];
      nextTask := nextTask + 1;
      AppendEvent(Snowball(shotId, id, origin, u, SNOWBALL_SPEED), now);
    }

    /** Ends a shot: the handler of a client is finished, a bot's turn goes on. */
    method FinishShot(t: nat, turn: Turn, shotAt: Option<int>, now: int)
      modifies this`tasks
      ensures View(now) == EndShot(old(View(now)), t, turn, shotAt)
    {
      match turn {
        case Human => tasks := tasks - {t};
        case BotTurn(bot, before, tickAt, rest) => tasks := tasks[t := Settle(bot, before, shotAt, tickAt, rest)];
      }
    }

    method MissShot(t: nat, now: int)
      requires t in tasks && tasks[t].Flight? && TurnOk(View(now), tasks[t].turn)
      modifies this`bots, this`tasks
      ensures View(now) == HandleMiss(old(View(now)), t)
    {
      var f := tasks[t];
      if f.turn.BotTurn? {
        bots := bots[f.turn.bot := bots[f.turn.bot].(lastShotAt := now as real)];
      }
      FinishShot(t, f.turn, None, now);
    }

    method DamageVictim(f: Task, victim: Snapshot, now: int) returns (newHp: int)
      requires f.Flight?
      modifies this`playersCache, stream
      ensures View(now) == AfterHit(old(View(now)), f, victim) && newHp == HpAfterHit(victim.hp)
    {
      newHp := if victim.hp - DAMAGE > 0 then victim.hp - DAMAGE else 0;
      var deadUntil := if newHp == 0 then now + RESPAWN_MS else victim.deadUntil;
      var updatedVictim := victim.(hp := newHp, deadUntil := deadUntil, updatedAt := now);
      assert updatedVictim == Wounded(victim, now);
      playersCache := Set(playersCache, victim.id, updatedVictim);
      AppendEvent(Hit(f.owner, victim.id, newHp, f.shotId), now);
    }

    method StrikeVictim(t: nat, victim: Snapshot, now: int)
      requires t in tasks && tasks[t].Flight?
      modifies this, stream
      ensures View(now) == HandleStrike(old(View(now)), t, victim)
    {
      var f := tasks[t];
      var newHp := DamageVictim(f, victim, now);
      if newHp == 0 {
        tasks := tasks[t := Doom(f.owner, victim.id, victim.name, f.shotId, now + RESPAWN_MS, now, f.turn)];
      } else {
        FinishShot(t, f.turn, Some(now), now);
      }
    }

    method ResumeFlight(t: nat, now: int)
      requires t in tasks && tasks[t].Flight? && TurnOk(View(now), tasks[t].turn)
      modifies this, stream
      ensures View(now) == HandleFlight(old(View(now)), t)
    {
      var f := tasks[t];
      var players := Values(playersCache);
      var best := SearchVictim(players, f.owner, f.origin, Mul(f.dir, SNOWBALL_SPEED), now);
      if best.None? {
        MissShot(t, now);
      } else {
        StrikeVictim(t, players[best.value.index], now);
      }
    }

    method ResumeDoom(t: nat, killId: string, now: int)
      requires t in tasks && tasks[t].Doom? && TurnOk(View(now), tasks[t].turn)
      modifies this, stream, store
      ensures View(now) == HandleDoom(old(View(now)), t, killId)
    {
      var d := tasks[t];
      var attackerName := "Unknown";
      if d.turn.BotTurn? {
        attackerName := bots[d.turn.bot].name;
      } else {
        if d.attackerId in playersCache.entries && playersCache.entries[d.attackerId].name != "" {
          attackerName := playersCache.entries[d.attackerId].name;
        }
        var _ := store.RecordKill(killId, d.attackerId, attackerName, d.victimId, d.victimName, d.shotId, now);
      }
      AppendEvent(Death(d.victimId, d.victimName, d.attackerId, attackerName, d.shotId, d.respawnAt), now);
      FinishShot(t, d.turn, Some(d.hitAt), now);
    }

    // --- bot.ts ---

    method StartBots(now: int)
      modifies this`tasks, this`nextTask
      ensures View(now) == HandleStartBots(old(View(now)))
    {
      tasks := tasks[nextTask := Visit(now, roster)];
      nextTask := nextTask + 1;
    }

    method WriteBackBot(bot: Id, before: Snapshot, tickAt: int, now: int)
      requires bot in bots
      modifies this`playersCache
      ensures View(now) == WriteBack(old(View(now)), bot, before, tickAt)
    {
      var b := bots[bot];
      playersCache := Set(playersCache, bot, before.(pos := b.pos, rotY := b.rotY, vel := b.vel, updatedAt := tickAt));
    }

    method ReviveBot(bot: Id, tickAt: int, spawn: Vec3, now: int)
      requires bot in bots && bot in playersCache.entries
      modifies this, stream
      ensures View(now) == BotRevives(old(View(now)), bot, tickAt, spawn)
    {
      bots := bots[bot := bots[bot].(pos := spawn, hp := FULL_HP, vel := ZERO, target := None)];
      var snapshot := playersCache.entries[bot];
      playersCache := Set(playersCache, bot, snapshot.(pos := spawn, hp := FULL_HP, deadUntil := 0, updatedAt := tickAt));
      AppendEvent(Respawn(bot, spawn, FULL_HP), now);
    }

    /** The random walk of one bot; its position object is shared with the cached snapshot. */
    method MoveBot(bot: Id, tickAt: int, c: BotChoice, now: int)
      requires bot in bots && bot in playersCache.entries
      modifies this`bots, this`playersCache
      ensures View(now) == WalkBot(old(View(now)), bot, MovedBot(old(bots[bot]), tickAt, c))
    {
      var b := WalkOneTick(bots[bot], tickAt, c.draws, c.dist, c.yaw);
      bots := bots[bot := b];
      playersCache := Set(playersCache, bot, playersCache.entries[bot].(pos := b.pos));
    }

    /** The first part of botShoot. */
    method ThrowBotSnowball(t: nat, bot: Id, target: Vec3, c: BotChoice, turn: Turn, now: int)
      requires bot in bots
      modifies this, stream
      ensures var w := old(View(now));
              var b := w.bots[bot];
              View(now) == Launch(w.(bots := w.bots[bot := b.(rotY := c.aimYaw)]), t, bot, c.shotId, Muzzle(b.pos),
                                  Norm(AimVector(b.pos, target), c.aimLen), turn)
    {
      var b := bots[bot];
      bots := bots[bot := b.(rotY := c.aimYaw)];
      var aim := Vec3(target.x - b.pos.x, (target.y + 1.0) - (b.pos.y + 1.3), target.z - b.pos.z);
      var dir, origin := Norm(aim, c.aimLen), Vec3(b.pos.x, b.pos.y + 1.3, b.pos.z);
      tasks := tasks[t := Flight(bot, c.shotId, origin, dir, turn)];
      AppendEvent(Snowball(c.shotId, bot, origin, dir, SNOWBALL_SPEED), now);
    }

    method ActBot(t: nat, bot: Id, tickAt: int, rest: seq<Id>, c: BotChoice, now: int)
      requires bot in bots && bot in playersCache.entries
      modifies this, stream
      ensures View(now) == BotActs(old(View(now)), t, bot, MovedBot(old(bots[bot]), tickAt, c), tickAt, rest, c)
    {
      var before := playersCache.entries[bot];
      MoveBot(bot, tickAt, c, now);
      var b := bots[bot];
      if tickAt as real - b.lastShotAt > SHOT_INTERVAL {
        var players := Values(playersCache);
        var target := FindNearestPlayer(players, b.pos);
        if target.Some? {
          ThrowBotSnowball(t, bot, players[target.value].pos, c, BotTurn(bot, before, tickAt, rest), now);
          return;
        }
        bots := bots[bot := b.(lastShotAt := tickAt as real)];
      }
      WriteBackBot(bot, before, tickAt, now);
    }

    method VisitBot(t: nat, c: BotChoice, now: int)
      requires t in tasks && tasks[t].Visit? && VisitReady(View(now), t)
      modifies this, stream
      ensures View(now) == HandleVisit(old(View(now)), t, c)
    {
      var tickAt, rest := tasks[t].tickAt, tasks[t].rest;
      if rest == [] {
        tasks := tasks - {t};
        lastTick := tickAt;
        return;
      }
      var bot := rest[0];
      tasks := tasks[t := Visit(tickAt, rest[1..])];
      if bot !in playersCache.entries { return; }
      var snapshot := playersCache.entries[bot];
      if snapshot.hp <= 0 && snapshot.deadUntil <= tickAt {
        var spawn := RandomSpawnPos(c.draws);
        ReviveBot(bot, tickAt, spawn, now);
        return;
      }
      if snapshot.hp <= 0 { return; }
      ActBot(t, bot, tickAt, rest[1..], c, now);
    }

    method SettleBot(t: nat, now: int)
      requires t in tasks && tasks[t].Settle? && tasks[t].bot in bots
      modifies this
      ensures View(now) == HandleSettle(old(View(now)), t)
    {
      var s := tasks[t];
      if s.shotAt.Some? {
        bots := bots[s.bot := bots[s.bot].(lastShotAt := s.shotAt.value as real)];
      }
      WriteBackBot(s.bot, s.before, s.tickAt, now);
      tasks := tasks[t := Visit(s.tickAt, s.rest)];
    }

    // --- the event loop ---

    /** Every method above is the step that its action names. */
    method Handle(a: Action, now: int)
      requires Ready(View(now), a) && !a.Pass?
      modifies this, stream, shots, store
      ensures View(now) == Step(old(View(now)), a)
    {
      match a {
        case OnHello(id, name, spawn, askedAt) => OnHello(id, name, spawn, askedAt, now);
        case OnClose(id) => OnClose(id, now);
        case OnState(id, msg, spawn) => OnState(id, msg, spawn, now);
        case OnRename(id, raw, clamped) => OnRename(id, raw, clamped, now);
        case OnChat(id, text) => OnChat(id, text, now);
        case OnPing(id) => OnPing(id, now);
        case OnSnowball(id, dir, len, shotId, uuid) => OnSnowball(id, dir, len, shotId, uuid, now);
        case ResumeFlight(t) => ResumeFlight(t, now);
        case ResumeDoom(t, killId) => ResumeDoom(t, killId, now);
        case StartBots => StartBots(now);
        case VisitBot(t, c) => VisitBot(t, c, now);
        case SettleBot(t) => SettleBot(t, now);
        case ScanIdle => ScanIdlePlayers(now);
        case ScanShots => shots.CollectGarbage(now);
        case ScanKills => var _ := store.CleanupOldKills(now);
        case Pass(_) => assert false;
      }
    }

    /** One turn of the event loop, which keeps the tables consistent with each other and with their histories. */
    method Dispatch(a: Action, now: int)
      requires Ready(View(now), a) && !a.Pass?
      modifies this, stream, shots, store
      ensures View(now) == Step(old(View(now)), a)
      ensures old(Invariants.Sane(View(now)) && Enabled(View(now), a)) ==> Invariants.Sane(View(now))
      ensures old(Bookkeeping.BooksOk(View(now))) ==> Bookkeeping.BooksOk(View(now))
    {
      ghost var w := View(now);
      Handle(a, now);
      if Invariants.Sane(w) && Enabled(w, a) { Invariants.StepKeepsSane(w, a); }
      if Bookkeeping.BooksOk(w) { Bookkeeping.StepKeepsBooks(w, a); }
    }

    /**
      The event loop, for any schedule of segments: the program is where the step system says, so
      every result about runs is a result about the program.
     */
    method Serve(acts: seq<Action>, now: int) returns (end: int)
      requires Runs(View(now), acts)
      modifies this, stream, shots, store
      ensures View(end) == After(old(View(now)), acts)
      ensures old(Initial(View(now))) ==> Invariants.Sane(View(end)) && Bookkeeping.BooksOk(View(end))
    {
      ghost var w := View(now);
      end := now;
      for i := 0 to |acts|
        invariant Runs(View(end), acts[i..]) && After(View(end), acts[i..]) == After(w, acts)
      {
        assert acts[i..][1..] == acts[i + 1..];
        if acts[i].Pass? {
          end := acts[i].until;
        } else {
          Dispatch(acts[i], end);
        }
      }
      if Initial(w) {
        Invariants.InitialIsSane(w);
        Invariants.RunKeepsSane(w, acts);
        Bookkeeping.RunKeepsBooks(w, acts);
      }
    }
  }
}
