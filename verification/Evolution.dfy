/**
  One case analysis of all steps, as seen from one player: nothing happens to
  the player's life, or it is hit, dies, or comes back.  The life-cycle, damage
  and event-sourcing results follow from this relation alone.
 */
module Evolution {
  import opened Protocol
  import opened OrderedMap
  import opened BotMotion
  import opened GameWorld
  import opened Invariants
  import EventLog
  import ShotFilter
  import KillLedger
  import opened Ballistics

  /** The suspended deaths of a player, by task, with their respawn times. */
  function Dooms(w: World, v: Id): map<nat, int> {
    map t | t in w.tasks && w.tasks[t].Doom? && w.tasks[t].victimId == v :: w.tasks[t].respawnAt
  }

  datatype Effect = Quiet | Struck(t: nat) | Died(t: nat) | Revived

  function EffectOf(w: World, a: Action, v: Id): Effect
    requires Ready(w, a)
  {
    match a
    case ResumeFlight(t) =>
      var victim := VictimOf(w, w.tasks[t]);
      if victim.Some? && victim.value.id == v then Struck(t) else Quiet
    case ResumeDoom(t, _) => if w.tasks[t].victimId == v then Died(t) else Quiet
    case OnState(id, _, _) => if id == v && Revives(w, a) then Revived else Quiet
    case VisitBot(t, _) => if Revives(w, a) && w.tasks[t].rest[0] == v then Revived else Quiet
    case _ => Quiet
  }

  /** The step appends exactly this event. */
  ghost predicate Logged(w: World, w': World, body: Body) {
    w'.log == EventLog.Append(w.log, body, w.now)
  }

  /** The step appends this event and no other. */
  ghost predicate Appends(w: World, w': World, b: Body) {
    w'.log.history == w.log.history + [Event(w.log.latestSeq + 1, w.now, b)]
  }

  /** The vital signs and suspended deaths of `v` are the same; a corpse does not move. */
  ghost predicate Unharmed(w: World, w': World, v: Id) {
    && v in w.cache.entries && v in w'.cache.entries
    && w'.cache.entries[v].hp == w.cache.entries[v].hp
    && w'.cache.entries[v].deadUntil == w.cache.entries[v].deadUntil
    && (w.cache.entries[v].hp == 0 ==> w'.cache.entries[v].pos == w.cache.entries[v].pos)
    && Dooms(w', v) == Dooms(w, v)
  }

  /** The step appends nothing, or one event about somebody else. */
  ghost predicate Unmentioned(w: World, w': World, v: Id) {
    w'.log == w.log || exists b :: Logged(w, w', b) && Subject(b) != Some(v) && !b.Moved?
  }

  ghost predicate GotStruck(w: World, w': World, v: Id, t: nat) {
    && v in w.cache.entries && v in w'.cache.entries
    && (var s, s' := w.cache.entries[v], w'.cache.entries[v];
        && (s.hp > 0 || s.deadUntil <= w.now)
        && s'.hp == HpAfterHit(s.hp) && s'.pos == s.pos
        && s'.deadUntil == (if s'.hp == 0 then w.now + RESPAWN_MS else s.deadUntil)
        && t !in Dooms(w, v)
        && Dooms(w', v) == (if s'.hp == 0 then Dooms(w, v)[t := w.now + RESPAWN_MS] else Dooms(w, v))
        && exists attacker, shotId :: Logged(w, w', Hit(attacker, v, s'.hp, shotId)))
  }

  ghost predicate GotKilled(w: World, w': World, v: Id, t: nat) {
    && v in w.cache.entries && v in w'.cache.entries
    && (var s, s' := w.cache.entries[v], w'.cache.entries[v];
        && t in Dooms(w, v)
        && s'.hp == 0 && s'.deadUntil == Dooms(w, v)[t] && s'.pos == s.pos
        && Dooms(w', v) == Dooms(w, v) - {t}
        && exists name, attacker, attackerName, shotId ::
             Logged(w, w', Death(v, name, attacker, attackerName, shotId, s'.deadUntil)))
  }

  ghost predicate GotRevived(w: World, w': World, v: Id) {
    && v in w.cache.entries && v in w'.cache.entries
    && (var s, s' := w.cache.entries[v], w'.cache.entries[v];
        && s.hp <= 0 && s.deadUntil <= w.now
        && s'.hp == FULL_HP && s'.deadUntil == 0
        && Dooms(w', v) == Dooms(w, v)
        && Logged(w, w', Respawn(v, s'.pos, FULL_HP)))
  }

  /** The step from `w` to `w'` has this effect on `v`. */
  ghost predicate Caused(w: World, w': World, v: Id, e: Effect) {
    match e
    case Quiet => Unharmed(w, w', v) && Unmentioned(w, w', v)
    case Struck(t) => GotStruck(w, w', v, t)
    case Died(t) => GotKilled(w, w', v, t)
    case Revived => GotRevived(w, w', v)
  }

  ghost predicate Evolves(w: World, a: Action, v: Id)
    requires Ready(w, a)
  {
    Caused(w, Step(w, a), v, EffectOf(w, a, v))
  }

  /**
    `v` is a connected client before and after the step, or a bot that the step does not
    remove and whose vital signs a write-back of an old snapshot does not change.
   */
  ghost predicate Followed(w: World, a: Action, v: Id)
    requires Ready(w, a)
  {
    || (v in w.online && v in Step(w, a).online)
    || (&& v in w.bots && v in w.cache.entries && v in Step(w, a).cache.entries
        && (a.SettleBot? && w.tasks[a.t].bot == v ==>
              w.tasks[a.t].before.hp == w.cache.entries[v].hp && w.tasks[a.t].before.deadUntil == w.cache.entries[v].deadUntil))
  }

  // --- the parts of which the handlers are made ---

  lemma DoomsAfterTask(w: World, t: nat, k: Task, v: Id)
    ensures Dooms(w.(tasks := w.tasks[t := k]), v)
            == if k.Doom? && k.victimId == v then Dooms(w, v)[t := k.respawnAt] else Dooms(w, v) - {t}
  {}

  lemma DoomsAfterShot(w: World, t: nat, turn: Turn, shotAt: Option<int>, v: Id)
    ensures Dooms(EndShot(w, t, turn, shotAt), v) == Dooms(w, v) - {t}
  {}

  /** Suspended deaths depend on the suspended handlers only. */
  lemma DoomsFrame(w: World, w': World, v: Id)
    requires w'.tasks == w.tasks
    ensures Dooms(w', v) == Dooms(w, v)
  {}

  lemma UnharmedTwice(w: World, w': World, w'': World, v: Id)
    requires Unharmed(w, w', v) && Unharmed(w', w'', v)
    ensures Unharmed(w, w'', v)
  {}

  lemma LaunchUnharmed(w: World, t: nat, owner: Id, shotId: string, origin: Vec3, dir: Vec3, turn: Turn, v: Id)
    requires v in w.cache.entries && t !in Dooms(w, v)
    ensures Unharmed(w, Launch(w, t, owner, shotId, origin, dir, turn), v)
  {}

  // --- the handlers ---

  lemma MissUnharmed(w: World, t: nat, v: Id)
    requires t in w.tasks && w.tasks[t].Flight? && TurnOk(w, w.tasks[t].turn) && v in w.cache.entries
    ensures Unharmed(w, HandleMiss(w, t), v) && HandleMiss(w, t).log == w.log
  {}

  lemma HitApplied(c: Dict<Snapshot>, e: Event, v: Id)
    requires e.body.Hit? && v in c.entries
    ensures var c' := ApplyEvent(c, e);
            && v in c'.entries && c'.entries[v].pos == c.entries[v].pos && c'.entries[v].deadUntil == c.entries[v].deadUntil
            && c'.entries[v].hp == if v == e.body.victimId then e.body.victimHp else c.entries[v].hp
  {}

  lemma HitVictim(w: World, f: Task, victim: Snapshot, v: Id)
    requires f.Flight? && v in w.cache.entries && victim.id in w.cache.entries && w.cache.entries[victim.id] == victim
    ensures var w' := AfterHit(w, f, victim);
            && Logged(w, w', Hit(f.owner, victim.id, HpAfterHit(victim.hp), f.shotId))
            && w'.tasks == w.tasks && w'.now == w.now
            && v in w'.cache.entries && w'.cache.entries[v].pos == w.cache.entries[v].pos
            && w'.cache.entries[v].hp == (if v == victim.id then HpAfterHit(victim.hp) else w.cache.entries[v].hp)
            && w'.cache.entries[v].deadUntil
               == (if v == victim.id && HpAfterHit(victim.hp) == 0 then w.now + RESPAWN_MS else w.cache.entries[v].deadUntil)
  {
    HitApplied(Set(w.cache, victim.id, Wounded(victim, w.now)),
               Event(w.log.latestSeq + 1, w.now, Hit(f.owner, victim.id, HpAfterHit(victim.hp), f.shotId)), v);
  }

  lemma DoomsAfterStrike(w: World, t: nat, victim: Snapshot, v: Id)
    requires t in w.tasks && w.tasks[t].Flight?
    ensures t !in Dooms(w, v)
    ensures Dooms(HandleStrike(w, t, victim), v)
            == if HpAfterHit(victim.hp) == 0 && victim.id == v then Dooms(w, v)[t := w.now + RESPAWN_MS] else Dooms(w, v)
  {
    var f := w.tasks[t];
    var w1 := AfterHit(w, f, victim);
    DoomsFrame(w, w1, v);
    assert Dooms(w, v) - {t} == Dooms(w, v);
    if HpAfterHit(victim.hp) == 0 {
      DoomsAfterTask(w1, t, Doom(f.owner, victim.id, victim.name, f.shotId, w.now + RESPAWN_MS, w.now, f.turn), v);
    } else {
      DoomsAfterShot(w1, t, f.turn, Some(w.now), v);
    }
  }

  lemma StrikeIsHit(w: World, t: nat, victim: Snapshot)
    requires t in w.tasks && w.tasks[t].Flight?
    ensures var w', w1 := HandleStrike(w, t, victim), AfterHit(w, w.tasks[t], victim);
            w'.cache == w1.cache && w'.log == w1.log
  {}

  lemma HitEvolves(w: World, t: nat, victim: Snapshot, v: Id)
    requires t in w.tasks && w.tasks[t].Flight? && v in w.cache.entries
    requires victim.id in w.cache.entries && w.cache.entries[victim.id] == victim
    requires victim.hp > 0 || victim.deadUntil <= w.now
    ensures var w' := HandleStrike(w, t, victim);
            && Logged(w, w', Hit(w.tasks[t].owner, victim.id, HpAfterHit(victim.hp), w.tasks[t].shotId))
            && (if v == victim.id then GotStruck(w, w', v, t) else Unharmed(w, w', v))
  {
    HitVictim(w, w.tasks[t], victim, v);
    StrikeIsHit(w, t, victim);
    DoomsAfterStrike(w, t, victim, v);
  }

  lemma DeathLands(w: World, t: nat, killId: string, v: Id)
    requires t in w.tasks && w.tasks[t].Doom? && TurnOk(w, w.tasks[t].turn) && v in w.cache.entries
    ensures var w' := HandleDoom(w, t, killId);
            && Logged(w, w', DeathBody(w, w.tasks[t]))
            && v in w'.cache.entries && w'.cache.entries[v].pos == w.cache.entries[v].pos
            && w'.cache.entries[v].hp == (if v == w.tasks[t].victimId then 0 else w.cache.entries[v].hp)
            && w'.cache.entries[v].deadUntil == (if v == w.tasks[t].victimId then w.tasks[t].respawnAt else w.cache.entries[v].deadUntil)
  {}

  lemma DeathEvolves(w: World, t: nat, killId: string, v: Id)
    requires Ready(w, ResumeDoom(t, killId)) && v in w.cache.entries
    ensures Evolves(w, ResumeDoom(t, killId), v)
  {
    var d := w.tasks[t];
    var w1 := if d.turn.Human? then w.(ledger := KillLedger.Record(w.ledger, KillRow(w, d, killId))) else w;
    var w2 := Emit(w1, DeathBody(w, d));
    DeathLands(w, t, killId, v);
    DoomsAfterShot(w2, t, d.turn, Some(d.hitAt), v);
    DoomsFrame(w, w2, v);
    if v != d.victimId { assert Dooms(w, v) - {t} == Dooms(w, v); }
  }

  lemma StateRevivesEvolves(w: World, id: Id, msg: StateMsg, spawn: Vec3, v: Id)
    requires id in w.names && v in w.cache.entries && StateRevives(w, id, msg)
    ensures var w' := HandleState(w, id, msg, spawn);
            && Logged(w, w', Respawn(id, spawn, FULL_HP))
            && (if id == v then GotRevived(w, w', v) else Unharmed(w, w', v))
  {}

  lemma StateUnharmed(w: World, id: Id, msg: StateMsg, spawn: Vec3, v: Id)
    requires id in w.names && v in w.cache.entries && !StateRevives(w, id, msg)
    ensures Unharmed(w, HandleState(w, id, msg, spawn), v) && HandleState(w, id, msg, spawn).log == w.log
  {}

  lemma FiredUnharmed(w: World, w1: World, t: nat, id: Id, shotId: string, origin: Vec3, dir: Vec3, v: Id)
    requires v in w.cache.entries && t !in w.tasks
    requires w1.tasks == w.tasks && w1.cache == w.cache && w1.log == w.log && w1.now == w.now
    ensures Unharmed(w, Launch(w1, t, id, shotId, origin, dir, Human), v)
    ensures Unmentioned(w, Launch(w1, t, id, shotId, origin, dir, Human), v)
  {}

  lemma ShootEvolves(w: World, id: Id, dir: Option<Vec3>, len: real, msgId: string, uuid: string, v: Id)
    requires w.nextTask !in w.tasks && v in w.cache.entries
    ensures Unharmed(w, HandleSnowball(w, id, dir, len, msgId, uuid), v)
    ensures Unmentioned(w, HandleSnowball(w, id, dir, len, msgId, uuid), v)
  {
    var shotId := if UuidLike(msgId) then msgId else uuid;
    var w1 := w.(shots := ShotFilter.Accept(w.shots, shotId, w.now));
    var w' := HandleSnowball(w, id, dir, len, msgId, uuid);
    if dir.None? || ShotFilter.Refuses(w.shots, shotId, w.now) {
      assert w' == w;
    } else if id !in w.cache.entries {
      assert w' == w1;
      DoomsFrame(w, w1, v);
    } else {
      FiredUnharmed(w, w1.(nextTask := w.nextTask + 1), w.nextTask, id, shotId, Muzzle(w.cache.entries[id].pos), Norm(dir.value, len), v);
    }
  }

  lemma BotRevivesEvolves(w: World, bot: Id, tickAt: int, spawn: Vec3, v: Id)
    requires bot in w.bots && bot in w.cache.entries && v in w.cache.entries
    requires w.cache.entries[bot].hp <= 0 && w.cache.entries[bot].deadUntil <= tickAt <= w.now
    ensures var w' := BotRevives(w, bot, tickAt, spawn);
            && Logged(w, w', Respawn(bot, spawn, FULL_HP))
            && (if bot == v then GotRevived(w, w', v) else Unharmed(w, w', v))
  {}

  lemma WalkUnharmed(w: World, bot: Id, b: Bot, v: Id)
    requires bot in w.bots && bot in w.cache.entries && w.cache.entries[bot].hp > 0 && v in w.cache.entries
    ensures Unharmed(w, WalkBot(w, bot, b), v)
  {}

  lemma WriteBackUnharmed(w: World, bot: Id, before: Snapshot, tickAt: int, v: Id)
    requires bot in w.bots && v in w.cache.entries
    requires bot == v ==> before.hp > 0 && before.hp == w.cache.entries[v].hp && before.deadUntil == w.cache.entries[v].deadUntil
    ensures Unharmed(w, WriteBack(w, bot, before, tickAt), v)
  {}

  lemma BotActsUnharmed(w: World, t: nat, bot: Id, b: Bot, tickAt: int, rest: seq<Id>, c: BotChoice, v: Id)
    requires bot in w.bots && bot in w.cache.entries && w.cache.entries[bot].hp > 0 && v in w.cache.entries
    requires t !in Dooms(w, v)
    ensures Unharmed(w, BotActs(w, t, bot, b, tickAt, rest, c), v)
    ensures Unmentioned(w, BotActs(w, t, bot, b, tickAt, rest, c), v)
  {
    var before := w.cache.entries[bot];
    var w1 := WalkBot(w, bot, b);
    WalkUnharmed(w, bot, b, v);
    var players := Values(w1.cache);
    var target := Nearest(players, b.pos);
    if tickAt as real - b.lastShotAt <= SHOT_INTERVAL {
      WriteBackUnharmed(w1, bot, before, tickAt, v);
      UnharmedTwice(w, w1, WriteBack(w1, bot, before, tickAt), v);
    } else if target.None? {
      var w2 := w1.(bots := w1.bots[bot := b.(lastShotAt := tickAt as real)]);
      DoomsFrame(w1, w2, v);
      WriteBackUnharmed(w2, bot, before, tickAt, v);
      UnharmedTwice(w, w2, WriteBack(w2, bot, before, tickAt), v);
    } else {
      var w2 := w1.(bots := w1.bots[bot := b.(rotY := c.aimYaw)]);
      DoomsFrame(w1, w2, v);
      var origin, dir := Muzzle(b.pos), Norm(AimVector(b.pos, players[target.value].pos), c.aimLen);
      var turn := BotTurn(bot, before, tickAt, rest);
      LaunchUnharmed(w2, t, bot, c.shotId, origin, dir, turn, v);
      UnharmedTwice(w, w2, Launch(w2, t, bot, c.shotId, origin, dir, turn), v);
      assert Logged(w, Launch(w2, t, bot, c.shotId, origin, dir, turn), Snowball(c.shotId, bot, origin, dir, SNOWBALL_SPEED));
    }
  }

  lemma RevivalEvolves(w: World, bot: Id, tickAt: int, spawn: Vec3, v: Id)
    requires bot in w.bots && bot in w.cache.entries && v in w.cache.entries
    requires w.cache.entries[bot].hp <= 0 && w.cache.entries[bot].deadUntil <= tickAt <= w.now
    ensures Caused(w, BotRevives(w, bot, tickAt, spawn), v, if bot == v then Revived else Quiet)
  {
    BotRevivesEvolves(w, bot, tickAt, spawn, v);
  }

  /** Handing the next bot to the loop changes nobody's life. */
  lemma VisitedFrom(w: World, w1: World, w': World, t: nat, rest: seq<Id>, v: Id, e: Effect)
    requires t in w.tasks && w.tasks[t].Visit? && w1 == w.(tasks := w.tasks[t := Visit(w.tasks[t].tickAt, rest)])
    requires Caused(w1, w', v, e) && (e.Quiet? || e.Revived?)
    ensures Caused(w, w', v, e)
  {
    DoomsAfterTask(w, t, Visit(w.tasks[t].tickAt, rest), v);
    assert Dooms(w, v) - {t} == Dooms(w, v);
  }

  lemma VisitEvolves(w: World, t: nat, c: BotChoice, v: Id)
    requires t in w.tasks && w.tasks[t].Visit? && VisitReady(w, t) && w.tasks[t].tickAt <= w.now && v in w.cache.entries
    ensures Caused(w, HandleVisit(w, t, c), v, if VisitRevives(w, t) && w.tasks[t].rest[0] == v then Revived else Quiet)
  {
    var tickAt, rest, w' := w.tasks[t].tickAt, w.tasks[t].rest, HandleVisit(w, t, c);
    if rest == [] {
      assert Dooms(w', v) == Dooms(w, v);
    } else {
      var bot, w1 := rest[0], w.(tasks := w.tasks[t := Visit(tickAt, rest[1..])]);
      assert t !in Dooms(w1, v);
      if bot !in w.cache.entries || (w.cache.entries[bot].hp <= 0 && w.cache.entries[bot].deadUntil > tickAt) {
        VisitedFrom(w, w1, w', t, rest[1..], v, Quiet);
      } else if w.cache.entries[bot].hp > 0 {
        BotActsUnharmed(w1, t, bot, MovedBot(w.bots[bot], tickAt, c), tickAt, rest[1..], c, v);
        VisitedFrom(w, w1, w', t, rest[1..], v, Quiet);
      } else {
        RevivalEvolves(w1, bot, tickAt, SpawnPos(c.draws), v);
        VisitedFrom(w, w1, w', t, rest[1..], v, if bot == v then Revived else Quiet);
      }
    }
  }

  lemma SettleUnharmed(w: World, t: nat, v: Id)
    requires t in w.tasks && w.tasks[t].Settle? && w.tasks[t].bot in w.bots && v in w.cache.entries
    requires w.tasks[t].bot == v ==>
               && w.tasks[t].before.hp > 0
               && w.tasks[t].before.hp == w.cache.entries[v].hp && w.tasks[t].before.deadUntil == w.cache.entries[v].deadUntil
    ensures Unharmed(w, HandleSettle(w, t), v) && HandleSettle(w, t).log == w.log
  {
    assert Dooms(HandleSettle(w, t), v) == Dooms(w, v);
  }

  /** Nothing happens to the life of `v`, and nothing is said about it. */
  ghost predicate Untouched(w: World, w': World, v: Id) {
    Caused(w, w', v, Quiet)
  }

  lemma HelloUnharmed(w: World, id: Id, name: string, spawn: Vec3, askedAt: int, v: Id)
    requires v in w.cache.entries && v != id
    ensures Untouched(w, HandleHello(w, id, name, spawn, askedAt), v)
  {
    var w' := HandleHello(w, id, name, spawn, askedAt);
    DoomsFrame(w, w', v);
    assert Logged(w, w', Join(Newcomer(id, name, spawn, askedAt)));
  }

  lemma CloseUnharmed(w: World, id: Id, v: Id)
    requires id in w.names && v in w.cache.entries && v != id
    ensures Untouched(w, HandleClose(w, id), v)
  {
    var w' := HandleClose(w, id);
    DoomsFrame(w, w', v);
    assert Logged(w, w', Leave(id, w.names[id]));
  }

  lemma RenamedUnharmed(w: World, w2: World, id: Id, name: string, v: Id)
    requires v in w.cache.entries && v in w2.cache.entries && w2.tasks == w.tasks && w2.log == w.log && w2.now == w.now
    requires w2.cache.entries[v].(name := "", updatedAt := 0) == w.cache.entries[v].(name := "", updatedAt := 0)
    ensures Untouched(w, Emit(w2, Rename(id, name)), v)
  {
    var w' := Emit(w2, Rename(id, name));
    DoomsFrame(w, w', v);
    assert Logged(w, w', Rename(id, name));
  }

  lemma RenameUnharmed(w: World, id: Id, raw: string, clamped: string, v: Id)
    requires v in w.cache.entries
    ensures Untouched(w, HandleRename(w, id, raw, clamped), v)
  {
    var w1 := w.(names := w.names[id := raw]);
    DoomsFrame(w, w1, v);
    if clamped != "" {
      var w2 := if id in w.cache.entries
                then w1.(cache := Set(w.cache, id, w.cache.entries[id].(name := clamped, updatedAt := w.now))) else w1;
      RenamedUnharmed(w, w2, id, clamped, v);
    }
  }

  lemma ChatUnharmed(w: World, id: Id, text: string, v: Id)
    requires id in w.names && v in w.cache.entries
    ensures Untouched(w, HandleChat(w, id, text), v)
  {
    var w' := HandleChat(w, id, text);
    DoomsFrame(w, w', v);
    if text != "" { assert Logged(w, w', Chat(id, w.names[id], text)); }
  }

  lemma PingUnharmed(w: World, id: Id, v: Id)
    requires v in w.cache.entries
    ensures Untouched(w, HandlePing(w, id), v)
  {
    DoomsFrame(w, HandlePing(w, id), v);
  }

  lemma ClockUnharmed(w: World, w': World, v: Id)
    requires v in w.cache.entries && v in w'.cache.entries && w'.cache.entries[v] == w.cache.entries[v]
    requires w'.tasks == w.tasks && w'.log == w.log
    ensures Untouched(w, w', v)
  {
    DoomsFrame(w, w', v);
  }

  lemma StartUnharmed(w: World, v: Id)
    requires v in w.cache.entries && w.nextTask !in w.tasks
    ensures Untouched(w, HandleStartBots(w), v)
  {
    DoomsAfterTask(w, w.nextTask, Visit(w.now, w.roster), v);
    assert Dooms(w, v) - {w.nextTask} == Dooms(w, v);
    DoomsFrame(w.(tasks := w.tasks[w.nextTask := Visit(w.now, w.roster)]), HandleStartBots(w), v);
  }

  lemma FlightEvolves(w: World, t: nat, v: Id)
    requires CacheOk(w) && Ready(w, ResumeFlight(t)) && v in w.cache.entries
    ensures Caused(w, HandleFlight(w, t), v, EffectOf(w, ResumeFlight(t), v))
  {
    var victim := VictimOf(w, w.tasks[t]);
    VictimIsCached(w, w.tasks[t]);
    if victim.Some? {
      HitEvolves(w, t, victim.value, v);
    } else {
      MissUnharmed(w, t, v);
    }
  }

  lemma StateEvolves(w: World, id: Id, msg: StateMsg, spawn: Vec3, v: Id)
    requires Ready(w, OnState(id, msg, spawn)) && v in w.cache.entries
    ensures Evolves(w, OnState(id, msg, spawn), v)
  {
    if StateRevives(w, id, msg) {
      StateRevivesEvolves(w, id, msg, spawn, v);
    } else {
      StateUnharmed(w, id, msg, spawn, v);
    }
  }

  /** What the invariant says about a followed player, as far as the step matters. */
  ghost predicate StepFacts(w: World, a: Action, v: Id)
    requires Ready(w, a)
  {
    && CacheOk(w) && v in w.cache.entries && w.nextTask !in w.tasks
    && (a.OnHello? || a.OnClose? ==> a.id != v)
    && (a.ScanIdle? ==> !Idle(w, v))
    && (a.VisitBot? ==> w.tasks[a.t].tickAt <= w.now)
    && (a.SettleBot? && w.tasks[a.t].bot == v ==>
          var before := w.tasks[a.t].before;
          before.hp > 0 && before.hp == w.cache.entries[v].hp && before.deadUntil == w.cache.entries[v].deadUntil)
  }

  lemma FollowedFacts(w: World, a: Action, v: Id)
    requires Sane(w) && Enabled(w, a) && Followed(w, a, v)
    ensures StepFacts(w, a, v)
  {
    StepFrame(w, a);
    if a.VisitBot? || a.SettleBot? { assert TaskOk(w, w.tasks[a.t]); }
  }

  lemma ScanSpares(w: World, v: Id)
    requires v in w.cache.entries && !Idle(w, v)
    ensures Untouched(w, HandleScanIdle(w), v)
  {
    ClockUnharmed(w, HandleScanIdle(w), v);
  }

  lemma TaskEvolves(w: World, a: Action, v: Id)
    requires Ready(w, a) && StepFacts(w, a, v) && (a.ResumeFlight? || a.ResumeDoom? || a.VisitBot? || a.SettleBot?)
    ensures Evolves(w, a, v)
  {
    match a
    case ResumeFlight(t) => FlightEvolves(w, t, v);
    case ResumeDoom(t, killId) => DeathEvolves(w, t, killId, v);
    case VisitBot(t, c) => VisitEvolves(w, t, c, v);
    case SettleBot(t) => SettleUnharmed(w, t, v);
  }

  lemma MessageEvolves(w: World, a: Action, v: Id)
    requires Ready(w, a) && StepFacts(w, a, v) && !a.ResumeFlight? && !a.ResumeDoom? && !a.VisitBot? && !a.SettleBot?
    ensures Evolves(w, a, v)
  {
    match a
    case OnState(id, msg, spawn) => StateEvolves(w, id, msg, spawn, v);
    case OnSnowball(id, dir, len, msgId, uuid) => ShootEvolves(w, id, dir, len, msgId, uuid, v);
    case OnHello(id, name, spawn, askedAt) => HelloUnharmed(w, id, name, spawn, askedAt, v);
    case OnClose(id) => CloseUnharmed(w, id, v);
    case OnRename(id, raw, clamped) => RenameUnharmed(w, id, raw, clamped, v);
    case OnChat(id, text) => ChatUnharmed(w, id, text, v);
    case OnPing(id) => PingUnharmed(w, id, v);
    case StartBots => StartUnharmed(w, v);
    case ScanIdle => ScanSpares(w, v);
    case Pass(until) => ClockUnharmed(w, w.(now := until), v);
    case ScanShots => ClockUnharmed(w, Step(w, ScanShots), v);
    case ScanKills => ClockUnharmed(w, Step(w, ScanKills), v);
  }

  /** Every step does one of four things to the life of a followed player. */
  lemma StepEvolves(w: World, a: Action, v: Id)
    requires Sane(w) && Enabled(w, a) && Followed(w, a, v)
    ensures Evolves(w, a, v)
  {
    FollowedFacts(w, a, v);
    if a.ResumeFlight? || a.ResumeDoom? || a.VisitBot? || a.SettleBot? {
      TaskEvolves(w, a, v);
    } else {
      MessageEvolves(w, a, v);
    }
  }

  // --- who comes and goes, and what is logged ---

  ghost predicate LogIs(w: World, w': World, body: Option<Body>) {
    if body.None? then w'.log == w.log else Logged(w, w', body.value)
  }

  predicate ThrownBy(id: Id, body: Body) {
    body.Snowball? && body.ownerId == id
  }

  /** The snowball event of a client's message: there is one if the shot is accepted and the shooter has a snapshot. */
  function SnowballOf(w: World, id: Id, dir: Option<Vec3>, len: real, msgId: string, uuid: string): Option<Body> {
    var shotId := if UuidLike(msgId) then msgId else uuid;
    if dir.None? || ShotFilter.Refuses(w.shots, shotId, w.now) || id !in w.cache.entries then None
    else Some(Snowball(shotId, id, Muzzle(w.cache.entries[id].pos), Norm(dir.value, len), SNOWBALL_SPEED))
  }

  /** The event that an action may append. */
  ghost predicate Fits(w: World, a: Action, body: Option<Body>)
    requires Ready(w, a)
  {
    match a
    case OnHello(id, name, spawn, askedAt) => body == Some(Join(Newcomer(id, name, spawn, askedAt)))
    case OnClose(id) => body == Some(Leave(id, w.names[id]))
    case OnState(_, _, _) => body.None? || body.value.Respawn?
    case OnRename(_, _, _) => body.None? || body.value.Rename?
    case OnChat(_, _) => body.None? || body.value.Chat?
    case OnSnowball(id, dir, len, msgId, uuid) => body == SnowballOf(w, id, dir, len, msgId, uuid)
    case ResumeFlight(t) =>
      var v := VictimOf(w, w.tasks[t]);
      body == if v.None? then None else Some(Hit(w.tasks[t].owner, v.value.id, HpAfterHit(v.value.hp), w.tasks[t].shotId))
    case ResumeDoom(t, _) => body == Some(DeathBody(w, w.tasks[t]))
    case VisitBot(t, _) => body.None? || body.value.Respawn? || (w.tasks[t].rest != [] && ThrownBy(w.tasks[t].rest[0], body.value))
    case _ => body.None?
  }

  lemma BotActsLogs(w: World, t: nat, bot: Id, b: Bot, tickAt: int, rest: seq<Id>, c: BotChoice) returns (body: Option<Body>)
    requires bot in w.bots && bot in w.cache.entries
    ensures LogIs(w, BotActs(w, t, bot, b, tickAt, rest, c), body) && (body.None? || ThrownBy(bot, body.value))
  {
    var players := Values(WalkBot(w, bot, b).cache);
    var target := Nearest(players, b.pos);
    if tickAt as real - b.lastShotAt > SHOT_INTERVAL && target.Some? {
      body := Some(Snowball(c.shotId, bot, Muzzle(b.pos), Norm(AimVector(b.pos, players[target.value].pos), c.aimLen), SNOWBALL_SPEED));
    } else {
      body := None;
    }
  }

  lemma VisitLogs(w: World, t: nat, c: BotChoice) returns (body: Option<Body>)
    requires t in w.tasks && w.tasks[t].Visit? && VisitReady(w, t)
    ensures LogIs(w, HandleVisit(w, t, c), body)
    ensures body.None? || body.value.Respawn? || (w.tasks[t].rest != [] && ThrownBy(w.tasks[t].rest[0], body.value))
  {
    body := None;
    var tickAt, rest := w.tasks[t].tickAt, w.tasks[t].rest;
    if rest != [] && rest[0] in w.cache.entries {
      if w.cache.entries[rest[0]].hp > 0 {
        body := BotActsLogs(w.(tasks := w.tasks[t := Visit(tickAt, rest[1..])]), t, rest[0], MovedBot(w.bots[rest[0]], tickAt, c), tickAt, rest[1..], c);
      } else if w.cache.entries[rest[0]].deadUntil <= tickAt {
        body := Some(Respawn(rest[0], SpawnPos(c.draws), FULL_HP));
      }
    }
  }

  lemma SnowballLogs(w: World, id: Id, dir: Option<Vec3>, len: real, msgId: string, uuid: string)
    ensures LogIs(w, HandleSnowball(w, id, dir, len, msgId, uuid), SnowballOf(w, id, dir, len, msgId, uuid))
  {}

  lemma TaskLogs(w: World, a: Action) returns (body: Option<Body>)
    requires Ready(w, a) && (a.ResumeFlight? || a.ResumeDoom? || a.VisitBot? || a.SettleBot?)
    ensures LogIs(w, Step(w, a), body) && Fits(w, a, body)
  {
    match a
    case ResumeFlight(t) =>
      var v := VictimOf(w, w.tasks[t]);
      body := if v.None? then None else Some(Hit(w.tasks[t].owner, v.value.id, HpAfterHit(v.value.hp), w.tasks[t].shotId));
    case ResumeDoom(t, _) => body := Some(DeathBody(w, w.tasks[t]));
    case VisitBot(t, c) => body := VisitLogs(w, t, c);
    case SettleBot(_) => body := None;
  }

  lemma MessageLogs(w: World, a: Action) returns (body: Option<Body>)
    requires Ready(w, a) && (a.OnHello? || a.OnClose? || a.OnState? || a.OnRename? || a.OnChat? || a.OnSnowball?)
    ensures LogIs(w, Step(w, a), body) && Fits(w, a, body)
  {
    match a
    case OnHello(id, name, spawn, askedAt) => body := Some(Join(Newcomer(id, name, spawn, askedAt)));
    case OnClose(id) => body := Some(Leave(id, w.names[id]));
    case OnState(id, msg, spawn) => body := if StateRevives(w, id, msg) then Some(Respawn(id, spawn, FULL_HP)) else None;
    case OnRename(id, _, clamped) => body := if clamped == "" then None else Some(Rename(id, clamped));
    case OnChat(id, text) => body := if text == "" then None else Some(Chat(id, w.names[id], text));
    case OnSnowball(id, dir, len, msgId, uuid) =>
      SnowballLogs(w, id, dir, len, msgId, uuid);
      body := SnowballOf(w, id, dir, len, msgId, uuid);
  }

  /** Every step appends at most one event, of the kind its action allows. */
  lemma StepLogs(w: World, a: Action) returns (body: Option<Body>)
    requires Ready(w, a)
    ensures LogIs(w, Step(w, a), body) && Fits(w, a, body)
  {
    if a.ResumeFlight? || a.ResumeDoom? || a.VisitBot? || a.SettleBot? {
      body := TaskLogs(w, a);
    } else if a.OnHello? || a.OnClose? || a.OnState? || a.OnRename? || a.OnChat? || a.OnSnowball? {
      body := MessageLogs(w, a);
    } else {
      body := None;
    }
  }

  /** Nobody connects or disconnects, the clock stands, the bots are the same ones. */
  ghost predicate Still(w: World, w': World) {
    && w'.online == w.online && w'.names == w.names && w'.now == w.now
    && w'.bots.Keys == w.bots.Keys && w'.roster == w.roster
  }

  lemma LaunchIsStill(w: World, t: nat, owner: Id, shotId: string, origin: Vec3, dir: Vec3, turn: Turn)
    ensures Still(w, Launch(w, t, owner, shotId, origin, dir, turn))
  {}

  lemma BotActsIsStill(w: World, t: nat, bot: Id, b: Bot, tickAt: int, rest: seq<Id>, c: BotChoice)
    requires bot in w.bots && bot in w.cache.entries
    ensures Still(w, BotActs(w, t, bot, b, tickAt, rest, c))
  {
    var w1 := WalkBot(w, bot, b);
    assert Still(w, w1);
    var players := Values(w1.cache);
    var target := Nearest(players, b.pos);
    if tickAt as real - b.lastShotAt > SHOT_INTERVAL && target.Some? {
      var w2 := w1.(bots := w1.bots[bot := b.(rotY := c.aimYaw)]);
      assert Still(w, w2);
      LaunchIsStill(w2, t, bot, c.shotId, Muzzle(b.pos), Norm(AimVector(b.pos, players[target.value].pos), c.aimLen),
                    BotTurn(bot, w.cache.entries[bot], tickAt, rest));
    }
  }

  lemma VisitIsStill(w: World, t: nat, c: BotChoice)
    requires t in w.tasks && w.tasks[t].Visit? && VisitReady(w, t)
    ensures Still(w, HandleVisit(w, t, c))
  {
    var tickAt, rest := w.tasks[t].tickAt, w.tasks[t].rest;
    if rest != [] && rest[0] in w.cache.entries {
      BotActsIsStill(w.(tasks := w.tasks[t := Visit(tickAt, rest[1..])]), t, rest[0], MovedBot(w.bots[rest[0]], tickAt, c), tickAt, rest[1..], c);
    }
  }

  lemma FlightIsStill(w: World, t: nat)
    requires t in w.tasks && w.tasks[t].Flight? && TurnOk(w, w.tasks[t].turn)
    ensures Still(w, HandleFlight(w, t))
  {}

  lemma SettleIsStill(w: World, t: nat)
    requires t in w.tasks && w.tasks[t].Settle? && w.tasks[t].bot in w.bots
    ensures Still(w, HandleSettle(w, t))
  {}

  lemma DoomIsStill(w: World, t: nat, killId: string)
    requires t in w.tasks && w.tasks[t].Doom? && TurnOk(w, w.tasks[t].turn)
    ensures Still(w, HandleDoom(w, t, killId))
  {}

  lemma SnowballIsStill(w: World, id: Id, dir: Option<Vec3>, len: real, msgId: string, uuid: string)
    ensures Still(w, HandleSnowball(w, id, dir, len, msgId, uuid))
  {}

  lemma StateIsStill(w: World, id: Id, msg: StateMsg, spawn: Vec3)
    requires id in w.names
    ensures Still(w, HandleState(w, id, msg, spawn))
  {}

  lemma StepIsStill(w: World, a: Action)
    requires Ready(w, a) && !a.OnHello? && !a.OnClose? && !a.OnRename? && !a.Pass?
    ensures Still(w, Step(w, a))
  {
    match a
    case VisitBot(t, c) => VisitIsStill(w, t, c);
    case ResumeFlight(t) => FlightIsStill(w, t);
    case ResumeDoom(t, killId) => DoomIsStill(w, t, killId);
    case SettleBot(t) => SettleIsStill(w, t);
    case OnSnowball(id, dir, len, msgId, uuid) => SnowballIsStill(w, id, dir, len, msgId, uuid);
    case OnState(id, msg, spawn) => StateIsStill(w, id, msg, spawn);
    case _ =>
  }

  /** Who is connected changes only by hello and close, the clock only forwards, the bots' ids never. */
  lemma StepFrame(w: World, a: Action)
    requires Ready(w, a)
    ensures var w' := Step(w, a);
            && w'.online == (if a.OnHello? then w.online + {a.id} else if a.OnClose? then w.online - {a.id} else w.online)
            && w'.names.Keys == (if a.OnHello? || a.OnRename? then w.names.Keys + {a.id} else w.names.Keys)
            && w'.bots.Keys == w.bots.Keys && w'.roster == w.roster
            && w'.now == (if a.Pass? then a.until else w.now)
  {
    match a
    case OnHello(id, name, spawn, askedAt) => HelloFrame(w, id, name, spawn, askedAt);
    case OnClose(id) =>
    case OnRename(id, raw, clamped) => RenameFrame(w, id, raw, clamped);
    case Pass(_) =>
    case _ => StepIsStill(w, a);
  }

  lemma HelloFrame(w: World, id: Id, name: string, spawn: Vec3, askedAt: int)
    ensures var w' := HandleHello(w, id, name, spawn, askedAt);
            && w'.online == w.online + {id} && w'.names.Keys == w.names.Keys + {id}
            && w'.bots == w.bots && w'.roster == w.roster && w'.now == w.now
  {}

  lemma RenameFrame(w: World, id: Id, raw: string, clamped: string)
    ensures var w' := HandleRename(w, id, raw, clamped);
            && w'.online == w.online && w'.names.Keys == w.names.Keys + {id}
            && w'.bots == w.bots && w'.roster == w.roster && w'.now == w.now
  {}

  /** The first moment of a life: the newcomer is healthy and nothing was ever said about it. */
  lemma JoinBegins(w: World, a: Action)
    requires Sane(w) && Enabled(w, a) && a.OnHello?
    ensures var w' := Step(w, a);
            && a.id in w'.cache.entries && w'.cache.entries[a.id].hp == FULL_HP && w'.cache.entries[a.id].deadUntil == 0
            && Dooms(w', a.id) == map[]
            && Logged(w, w', Join(w'.cache.entries[a.id]))
            && forall i :: 0 <= i < |w.log.history| ==> Subject(w.log.history[i].body) != Some(a.id)
  {
    DoomsFrame(w, Step(w, a), a.id);
    assert forall t :: t in w.tasks ==> TaskOk(w, w.tasks[t]);
  }
}
