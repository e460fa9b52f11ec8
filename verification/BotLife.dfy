/**
  The bots' place in the player table, under every interleaving of messages,
  shots and timers with `updateBots` calls that may themselves overlap: if the
  calls are regular, no bot is ever collected as idle, not even a dead one.
 */
module BotLife {
  import opened Protocol
  import opened OrderedMap
  import opened Ballistics
  import opened BotMotion
  import opened GameWorld
  import opened Invariants
  import opened Evolution

  /** The longest silence after which a bot is certainly not idle: 5000 ms less the 2999 ms for which a corpse may wait. */
  const LONGEST_LAG := CLEANUP_IDLE_MS - RESPAWN_MS + 1

  /** What an `updateBots` call still has to do; `busy` is the bot whose turn is suspended. */
  datatype Duty = Duty(tickAt: int, rest: seq<Id>, busy: Option<Id>)

  function TurnDuty(turn: Turn): Option<Duty> {
    match turn
    case Human => None
    case BotTurn(bot, _, tickAt, rest) => Some(Duty(tickAt, rest, Some(bot)))
  }

  function DutyOf(k: Task): Option<Duty> {
    match k
    case Flight(_, _, _, _, turn) => TurnDuty(turn)
    case Doom(_, _, _, _, _, _, turn) => TurnDuty(turn)
    case Visit(tickAt, rest) => Some(Duty(tickAt, rest, None))
    case Settle(bot, _, _, tickAt, rest) => Some(Duty(tickAt, rest, Some(bot)))
  }

  function DutyAt(w: World, t: nat): Option<Duty> {
    if t in w.tasks then DutyOf(w.tasks[t]) else None
  }

  predicate Waiting(d: Duty, b: Id) {
    b in d.rest || d.busy == Some(b)
  }

  // --- regular ticks ---

  /**
    The call that finished last began at most `gap` ago; a call that still runs began at most `slack`
    before that one, and at most `slack` before any other that still runs.
   */
  ghost predicate Punctual(w: World, gap: int, slack: nat) {
    && w.now <= w.lastTick + gap
    && (forall t :: DutyAt(w, t).Some? ==> w.lastTick - slack <= DutyAt(w, t).value.tickAt)
    && (forall t, u :: DutyAt(w, t).Some? && DutyAt(w, u).Some? ==> DutyAt(w, u).value.tickAt - slack <= DutyAt(w, t).value.tickAt)
  }

  ghost predicate PunctualRuns(w: World, acts: seq<Action>, gap: int, slack: nat)
    decreases |acts|
  {
    Punctual(w, gap, slack) && (acts == [] || (Enabled(w, acts[0]) && PunctualRuns(Step(w, acts[0]), acts[1..], gap, slack)))
  }

  // --- the invariant ---

  /** The snapshot was refreshed at `since` or later, or is a corpse that was not yet due then. */
  ghost predicate Fresh(s: Snapshot, since: int) {
    && (s.hp == 0 ==> s.deadUntil <= s.updatedAt + RESPAWN_MS)
    && (s.updatedAt >= since || (s.hp == 0 && s.deadUntil > since))
  }

  ghost predicate SameVitals(s: Snapshot, s': Snapshot) {
    s.hp == s'.hp && s.deadUntil == s'.deadUntil
  }

  /** Fresh since the last finished call, and since every running call that is done with the bot, up to `slack`. */
  ghost predicate BotFresh(w: World, b: Id, slack: nat) {
    && b in w.cache.entries
    && Fresh(w.cache.entries[b], w.lastTick - slack)
    && (forall t :: DutyAt(w, t).Some? && !Waiting(DutyAt(w, t).value, b) ==>
          Fresh(w.cache.entries[b], DutyAt(w, t).value.tickAt - slack))
  }

  ghost predicate Alive(w: World, slack: nat) {
    && w.lastTick <= w.now
    && (forall b :: b in w.bots ==> b in w.roster)
    && (forall b :: b in w.bots ==> BotFresh(w, b, slack))
  }

  /** A fresh bot is not idle, because a corpse waits at most 2999 ms longer than a living bot. */
  lemma FreshIsNotIdle(w: World, b: Id, gap: int, slack: nat)
    requires BotFresh(w, b, slack) && w.now <= w.lastTick + gap && gap + slack <= LONGEST_LAG
    ensures !Idle(w, b)
  {}

  // --- how one step may touch a bot's snapshot ---

  /** Untouched as far as collection goes, or refreshed at `since` or later. */
  ghost predicate Refreshed(w: World, w': World, b: Id, since: int) {
    && b in w.cache.entries && b in w'.cache.entries
    && (var s, s' := w.cache.entries[b], w'.cache.entries[b];
        || (s'.updatedAt == s.updatedAt && SameVitals(s, s'))
        || (s'.updatedAt >= since && (s'.hp == 0 ==> s'.deadUntil <= s'.updatedAt + RESPAWN_MS)))
  }

  lemma StrikeRefreshes(w: World, t: nat, victim: Snapshot, b: Id)
    requires t in w.tasks && w.tasks[t].Flight? && b in w.cache.entries
    requires victim.id in w.cache.entries && w.cache.entries[victim.id] == victim && SnapOk(victim.id, victim)
    ensures Refreshed(w, HandleStrike(w, t, victim), b, w.now)
  {
    assert HandleStrike(w, t, victim).cache == AfterHit(w, w.tasks[t], victim).cache;
  }

  lemma HitRefreshes(w: World, t: nat, b: Id)
    requires CacheOk(w) && Ready(w, ResumeFlight(t)) && b in w.cache.entries
    ensures Refreshed(w, HandleFlight(w, t), b, w.now)
  {
    var v := VictimOf(w, w.tasks[t]);
    VictimIsCached(w, w.tasks[t]);
    if v.Some? {
      assert SnapOk(v.value.id, v.value);
      StrikeRefreshes(w, t, v.value, b);
    }
  }

  lemma DoomRefreshes(w: World, t: nat, killId: string, b: Id)
    requires Ready(w, ResumeDoom(t, killId)) && b in w.cache.entries && w.tasks[t].respawnAt <= w.now + RESPAWN_MS
    ensures Refreshed(w, HandleDoom(w, t, killId), b, w.now)
  {}

  lemma BotActsRefreshes(w: World, t: nat, bot: Id, m: Bot, tickAt: int, rest: seq<Id>, c: BotChoice, b: Id)
    requires bot in w.bots && bot in w.cache.entries && b in w.cache.entries && w.cache.entries[bot].hp > 0
    ensures Refreshed(w, BotActs(w, t, bot, m, tickAt, rest, c), b, tickAt)
  {
    var w1 := WalkBot(w, bot, m);
    assert SameVitals(w.cache.entries[b], w1.cache.entries[b]) && w1.cache.entries[b].updatedAt == w.cache.entries[b].updatedAt;
    if tickAt as real - m.lastShotAt > SHOT_INTERVAL {
      var players := Values(w1.cache);
      var target := Nearest(players, m.pos);
      if target.Some? {
        assert BotActs(w, t, bot, m, tickAt, rest, c).cache == w1.cache;
      }
    }
  }

  lemma BotRevivesRefreshes(w: World, bot: Id, tickAt: int, spawn: Vec3, b: Id)
    requires bot in w.bots && bot in w.cache.entries && b in w.cache.entries
    ensures Refreshed(w, BotRevives(w, bot, tickAt, spawn), b, w.now)
  {}

  lemma VisitRefreshes(w: World, t: nat, c: BotChoice, b: Id)
    requires t in w.tasks && w.tasks[t].Visit? && VisitReady(w, t) && w.tasks[t].tickAt <= w.now && b in w.cache.entries
    ensures Refreshed(w, HandleVisit(w, t, c), b, w.tasks[t].tickAt)
  {
    var tickAt, rest := w.tasks[t].tickAt, w.tasks[t].rest;
    if rest != [] && rest[0] in w.cache.entries {
      var w1 := w.(tasks := w.tasks[t := Visit(tickAt, rest[1..])]);
      if w.cache.entries[rest[0]].hp > 0 {
        BotActsRefreshes(w1, t, rest[0], MovedBot(w.bots[rest[0]], tickAt, c), tickAt, rest[1..], c, b);
      } else if w.cache.entries[rest[0]].deadUntil <= tickAt {
        BotRevivesRefreshes(w1, rest[0], tickAt, SpawnPos(c.draws), b);
      }
    }
  }

  lemma SettleRefreshes(w: World, t: nat, b: Id)
    requires Ready(w, SettleBot(t)) && w.tasks[t].before.hp > 0 && b in w.cache.entries
    ensures Refreshed(w, HandleSettle(w, t), b, w.tasks[t].tickAt)
  {}

  /** Messages and timers do not touch the bots at all. */
  lemma EmitLeaves(w: World, body: Body, b: Id)
    requires b in w.cache.entries && Subject(body) != Some(b) && !body.Moved? && (body.Rename? ==> body.playerId != b)
    ensures b in Emit(w, body).cache.entries && Emit(w, body).cache.entries[b] == w.cache.entries[b]
  {}

  lemma ConnectionsLeaveBots(w: World, a: Action, b: Id)
    requires Ready(w, a) && b in w.cache.entries && (a.OnHello? || a.OnClose? || a.OnPing?) && a.id != b
    ensures b in Step(w, a).cache.entries && Step(w, a).cache.entries[b] == w.cache.entries[b]
  {}

  lemma StateLeavesBots(w: World, id: Id, msg: StateMsg, spawn: Vec3, b: Id)
    requires id in w.names && b in w.cache.entries && id != b
    ensures var w' := HandleState(w, id, msg, spawn);
            b in w'.cache.entries && w'.cache.entries[b] == w.cache.entries[b]
  {}

  lemma RenameLeavesBots(w: World, id: Id, raw: string, clamped: string, b: Id)
    requires b in w.cache.entries && id != b
    ensures var w' := HandleRename(w, id, raw, clamped);
            b in w'.cache.entries && w'.cache.entries[b] == w.cache.entries[b]
  {}

  lemma MessagesLeaveBots(w: World, a: Action, b: Id)
    requires Ready(w, a) && IdsOk(w) && b in w.bots && b in w.cache.entries
    requires a.OnHello? || a.OnClose? || a.OnState? || a.OnRename? || a.OnChat? || a.OnPing?
    ensures b in Step(w, a).cache.entries && Step(w, a).cache.entries[b] == w.cache.entries[b]
  {
    assert a.id != b;
    match a
    case OnState(id, msg, spawn) => StateLeavesBots(w, id, msg, spawn, b);
    case OnRename(id, raw, clamped) => RenameLeavesBots(w, id, raw, clamped, b);
    case OnChat(id, text) => if text != "" { EmitLeaves(w, Chat(id, w.names[id], text), b); }
    case _ => ConnectionsLeaveBots(w, a, b);
  }

  lemma ShotLeavesCache(w: World, id: Id, dir: Option<Vec3>, len: real, msgId: string, uuid: string)
    ensures HandleSnowball(w, id, dir, len, msgId, uuid).cache == w.cache
  {}

  lemma TimersLeaveBots(w: World, a: Action, b: Id)
    requires Ready(w, a) && b in w.cache.entries
    requires a.Pass? || a.StartBots? || a.ScanIdle? || a.ScanShots? || a.ScanKills?
    requires a.ScanIdle? ==> !Idle(w, b)
    ensures b in Step(w, a).cache.entries && Step(w, a).cache.entries[b] == w.cache.entries[b]
  {}

  /** Whatever else runs, a bot that is not idle keeps its snapshot or has it refreshed now. */
  lemma OthersRefresh(w: World, a: Action, b: Id)
    requires Sane(w) && Ready(w, a) && !a.VisitBot? && !a.SettleBot? && b in w.bots && b in w.cache.entries
    requires a.ScanIdle? ==> !Idle(w, b)
    ensures Refreshed(w, Step(w, a), b, w.now)
  {
    if a.ResumeFlight? {
      HitRefreshes(w, a.t, b);
    } else if a.ResumeDoom? {
      assert TaskOk(w, w.tasks[a.t]);
      DoomRefreshes(w, a.t, a.killId, b);
    } else if a.OnSnowball? {
      ShotLeavesCache(w, a.id, a.dir, a.len, a.shotId, a.uuid);
    } else {
      RestLeavesBots(w, a, b);
    }
  }

  lemma RestLeavesBots(w: World, a: Action, b: Id)
    requires IdsOk(w) && Ready(w, a) && b in w.bots && b in w.cache.entries && (a.ScanIdle? ==> !Idle(w, b))
    requires !a.VisitBot? && !a.SettleBot? && !a.ResumeFlight? && !a.ResumeDoom? && !a.OnSnowball?
    ensures b in Step(w, a).cache.entries && Step(w, a).cache.entries[b] == w.cache.entries[b]
  {
    if a.Pass? || a.StartBots? || a.ScanIdle? || a.ScanShots? || a.ScanKills? {
      TimersLeaveBots(w, a, b);
    } else {
      MessagesLeaveBots(w, a, b);
    }
  }

  // --- how one step may change the duties ---

  lemma EndShotKeepsDuty(w: World, t: nat, turn: Turn, shotAt: Option<int>, u: nat)
    requires t in w.tasks && DutyOf(w.tasks[t]) == TurnDuty(turn)
    ensures DutyAt(EndShot(w, t, turn, shotAt), u) == DutyAt(w, u)
  {}

  lemma FlightKeepsDuties(w: World, t: nat, u: nat)
    requires Ready(w, ResumeFlight(t))
    ensures DutyAt(HandleFlight(w, t), u) == DutyAt(w, u) && HandleFlight(w, t).lastTick == w.lastTick
  {
    var f, v := w.tasks[t], VictimOf(w, w.tasks[t]);
    if v.None? {
      var w1 := if f.turn.BotTurn? then w.(bots := w.bots[f.turn.bot := w.bots[f.turn.bot].(lastShotAt := w.now as real)]) else w;
      EndShotKeepsDuty(w1, t, f.turn, None, u);
    } else if HpAfterHit(v.value.hp) > 0 {
      EndShotKeepsDuty(AfterHit(w, f, v.value), t, f.turn, Some(w.now), u);
    }
  }

  lemma DoomKeepsDuties(w: World, t: nat, killId: string, u: nat)
    requires Ready(w, ResumeDoom(t, killId))
    ensures DutyAt(HandleDoom(w, t, killId), u) == DutyAt(w, u) && HandleDoom(w, t, killId).lastTick == w.lastTick
  {
    var d := w.tasks[t];
    var w1 := if d.turn.Human? then w.(ledger := HandleDoom(w, t, killId).ledger) else w;
    EndShotKeepsDuty(Emit(w1, DeathBody(w, d)), t, d.turn, Some(d.hitAt), u);
  }

  /** Only the segments of `updateBots` itself change what its calls have to do. */
  lemma OthersKeepDuties(w: World, a: Action, u: nat)
    requires Ready(w, a) && TasksOk(w) && !a.StartBots? && !a.VisitBot? && !a.SettleBot?
    ensures DutyAt(Step(w, a), u) == DutyAt(w, u) && Step(w, a).lastTick == w.lastTick
  {
    match a
    case ResumeFlight(t) => FlightKeepsDuties(w, t, u);
    case ResumeDoom(t, killId) => DoomKeepsDuties(w, t, killId, u);
    case OnSnowball(id, dir, len, msgId, uuid) => ShotKeepsDuties(w, id, dir, len, msgId, uuid, u);
    case _ =>
  }

  lemma ShotKeepsDuties(w: World, id: Id, dir: Option<Vec3>, len: real, msgId: string, uuid: string, u: nat)
    requires w.nextTask !in w.tasks
    ensures var w' := HandleSnowball(w, id, dir, len, msgId, uuid);
            DutyAt(w', u) == DutyAt(w, u) && w'.lastTick == w.lastTick
  {}

  // --- staying fresh ---

  /** Every start of a running or finished call is at most `slack` after `since`. */
  ghost predicate Recent(w: World, slack: nat, since: int) {
    w.lastTick - slack <= since && forall t :: DutyAt(w, t).Some? ==> DutyAt(w, t).value.tickAt - slack <= since
  }

  /** A refreshed bot stays fresh if the step makes no call finish and each call that lets go of the bot leaves it fresh. */
  lemma StillFresh(w: World, w': World, b: Id, slack: nat, since: int)
    requires BotFresh(w, b, slack) && Refreshed(w, w', b, since) && Recent(w', slack, since) && w'.lastTick == w.lastTick
    requires forall t :: DutyAt(w', t).Some? && !Waiting(DutyAt(w', t).value, b) ==>
               || Fresh(w'.cache.entries[b], DutyAt(w', t).value.tickAt)
               || (DutyAt(w, t).Some? && !Waiting(DutyAt(w, t).value, b) && DutyAt(w, t).value.tickAt == DutyAt(w', t).value.tickAt)
    ensures BotFresh(w', b, slack)
  {}

  lemma NowIsRecent(w: World, slack: nat)
    requires TasksOk(w) && w.lastTick <= w.now
    ensures Recent(w, slack, w.now)
  {
    forall t | DutyAt(w, t).Some? ensures DutyAt(w, t).value.tickAt <= w.now {
      assert TaskOk(w, w.tasks[t]);
    }
  }

  lemma OthersStayFresh(w: World, a: Action, b: Id, gap: int, slack: nat)
    requires Sane(w) && Alive(w, slack) && Punctual(w, gap, slack) && gap + slack <= LONGEST_LAG && b in w.bots
    requires Ready(w, a) && !a.StartBots? && !a.VisitBot? && !a.SettleBot?
    ensures BotFresh(Step(w, a), b, slack)
  {
    FreshIsNotIdle(w, b, gap, slack);
    OthersRefresh(w, a, b);
    NowIsRecent(w, slack);
    forall t: nat ensures DutyAt(Step(w, a), t) == DutyAt(w, t) { OthersKeepDuties(w, a, t); }
    OthersKeepDuties(w, a, 0);
    StillFresh(w, Step(w, a), b, slack, w.now);
  }

  lemma StartStaysFresh(w: World, b: Id, slack: nat)
    requires BotFresh(w, b, slack) && b in w.roster && w.lastTick <= w.now && TasksOk(w)
    ensures BotFresh(HandleStartBots(w), b, slack)
  {
    var w' := HandleStartBots(w);
    assert DutyAt(w', w.nextTask) == Some(Duty(w.now, w.roster, None));
    assert forall t :: t != w.nextTask ==> DutyAt(w', t) == DutyAt(w, t);
  }

  lemma SettleStaysFresh(w: World, t: nat, b: Id, gap: int, slack: nat)
    requires TasksOk(w) && BotFresh(w, b, slack) && Punctual(w, gap, slack) && Ready(w, SettleBot(t))
    ensures BotFresh(HandleSettle(w, t), b, slack)
  {
    var w', s := HandleSettle(w, t), w.tasks[t];
    assert TaskOk(w, s);
    SettleRefreshes(w, t, b);
    assert DutyAt(w, t) == Some(Duty(s.tickAt, s.rest, Some(s.bot)));
    assert DutyAt(w', t) == Some(Duty(s.tickAt, s.rest, None));
    assert forall u :: u != t ==> DutyAt(w', u) == DutyAt(w, u);
    StillFresh(w, w', b, slack, s.tickAt);
  }

  /** What a visit leaves: the bot's turn is suspended on a shot, or the call is done with a fresh bot. */
  ghost predicate Served(w: World, w': World, t: nat, bot: Id, tickAt: int, rest: seq<Id>) {
    && t in w'.tasks && bot in w'.cache.entries
    && w'.tasks == w.tasks[t := w'.tasks[t]] && w'.lastTick == w.lastTick
    && (|| DutyOf(w'.tasks[t]) == Some(Duty(tickAt, rest, Some(bot)))
        || (DutyOf(w'.tasks[t]) == Some(Duty(tickAt, rest, None)) && Fresh(w'.cache.entries[bot], tickAt)))
  }

  lemma BotActsDuty(w: World, t: nat, bot: Id, m: Bot, tickAt: int, rest: seq<Id>, c: BotChoice)
    requires t in w.tasks && w.tasks[t] == Visit(tickAt, rest) && bot in w.bots && bot in w.cache.entries && w.cache.entries[bot].hp > 0
    ensures Served(w, BotActs(w, t, bot, m, tickAt, rest, c), t, bot, tickAt, rest)
  {
    var w1 := WalkBot(w, bot, m);
    var players := Values(w1.cache);
    var target := Nearest(players, m.pos);
    var w' := BotActs(w, t, bot, m, tickAt, rest, c);
    if tickAt as real - m.lastShotAt > SHOT_INTERVAL && target.Some? {
      var dir := Norm(AimVector(m.pos, players[target.value].pos), c.aimLen);
      assert w'.tasks == w.tasks[t := Flight(bot, c.shotId, Muzzle(m.pos), dir, BotTurn(bot, w.cache.entries[bot], tickAt, rest))];
    } else {
      assert w'.tasks == w.tasks && w'.cache.entries[bot].updatedAt == tickAt && w'.cache.entries[bot].hp > 0;
    }
  }

  lemma RevivalDuty(w: World, t: nat, bot: Id, tickAt: int, rest: seq<Id>, spawn: Vec3)
    requires t in w.tasks && w.tasks[t] == Visit(tickAt, rest) && bot in w.bots && bot in w.cache.entries && tickAt <= w.now
    ensures Served(w, BotRevives(w, bot, tickAt, spawn), t, bot, tickAt, rest)
  {}

  lemma SkipDuty(w: World, t: nat, bot: Id, tickAt: int, rest: seq<Id>)
    requires t in w.tasks && w.tasks[t] == Visit(tickAt, rest) && bot in w.cache.entries
    requires var s := w.cache.entries[bot]; s.hp == 0 && s.deadUntil > tickAt && s.deadUntil <= s.updatedAt + RESPAWN_MS
    ensures Served(w, w, t, bot, tickAt, rest)
  {}

  lemma ServedFrom(w: World, w1: World, w': World, t: nat, bot: Id, tickAt: int, rest: seq<Id>)
    requires t in w.tasks && w1 == w.(tasks := w.tasks[t := Visit(tickAt, rest)]) && Served(w1, w', t, bot, tickAt, rest)
    ensures Served(w, w', t, bot, tickAt, rest)
  {}

  lemma VisitDuty(w: World, t: nat, c: BotChoice)
    requires t in w.tasks && w.tasks[t].Visit? && w.tasks[t].rest != [] && w.tasks[t].rest[0] in w.bots && w.tasks[t].tickAt <= w.now
    requires w.tasks[t].rest[0] in w.cache.entries && w.cache.entries[w.tasks[t].rest[0]].hp >= 0
    requires var s := w.cache.entries[w.tasks[t].rest[0]]; s.hp == 0 ==> s.deadUntil <= s.updatedAt + RESPAWN_MS
    ensures Served(w, HandleVisit(w, t, c), t, w.tasks[t].rest[0], w.tasks[t].tickAt, w.tasks[t].rest[1..])
  {
    var bot, tickAt, rest := w.tasks[t].rest[0], w.tasks[t].tickAt, w.tasks[t].rest[1..];
    var w1 := w.(tasks := w.tasks[t := Visit(tickAt, rest)]);
    if w.cache.entries[bot].hp > 0 {
      BotActsDuty(w1, t, bot, MovedBot(w.bots[bot], tickAt, c), tickAt, rest, c);
    } else if w.cache.entries[bot].deadUntil <= tickAt {
      RevivalDuty(w1, t, bot, tickAt, rest, SpawnPos(c.draws));
    } else {
      SkipDuty(w1, t, bot, tickAt, rest);
    }
    ServedFrom(w, w1, HandleVisit(w, t, c), t, bot, tickAt, rest);
  }

  lemma VisitedStaysFresh(w: World, w': World, t: nat, b: Id, gap: int, slack: nat)
    requires BotFresh(w, b, slack) && Punctual(w, gap, slack) && t in w.tasks && w.tasks[t].Visit? && w.tasks[t].rest != []
    requires Refreshed(w, w', b, w.tasks[t].tickAt)
    requires Served(w, w', t, w.tasks[t].rest[0], w.tasks[t].tickAt, w.tasks[t].rest[1..])
    ensures BotFresh(w', b, slack)
  {
    var tickAt := w.tasks[t].tickAt;
    assert DutyAt(w, t) == Some(Duty(tickAt, w.tasks[t].rest, None)) && DutyAt(w', t) == DutyOf(w'.tasks[t]);
    assert forall u :: u != t ==> DutyAt(w', u) == DutyAt(w, u);
    StillFresh(w, w', b, slack, tickAt);
  }

  lemma TickEndStaysFresh(w: World, w': World, t: nat, b: Id, slack: nat)
    requires BotFresh(w, b, slack) && t in w.tasks && w.tasks[t].Visit? && w.tasks[t].rest == []
    requires w'.tasks == w.tasks - {t} && w'.lastTick == w.tasks[t].tickAt && w'.cache == w.cache
    ensures BotFresh(w', b, slack)
  {
    assert DutyAt(w, t) == Some(Duty(w.tasks[t].tickAt, [], None));
    assert forall u :: DutyAt(w', u).Some? ==> DutyAt(w', u) == DutyAt(w, u);
  }

  lemma VisitStaysFresh(w: World, t: nat, c: BotChoice, b: Id, gap: int, slack: nat)
    requires CacheOk(w) && Alive(w, slack) && Punctual(w, gap, slack) && b in w.bots
    requires Ready(w, VisitBot(t, c)) && w.tasks[t].tickAt <= w.now
    ensures BotFresh(HandleVisit(w, t, c), b, slack)
  {
    var w' := HandleVisit(w, t, c);
    assert BotFresh(w, b, slack);
    if w.tasks[t].rest == [] {
      TickEndStaysFresh(w, w', t, b, slack);
    } else {
      var bot := w.tasks[t].rest[0];
      assert BotFresh(w, bot, slack) && SnapOk(bot, w.cache.entries[bot]);
      VisitDuty(w, t, c);
      VisitRefreshes(w, t, c, b);
      VisitedStaysFresh(w, w', t, b, gap, slack);
    }
  }

  lemma TickStaysFresh(w: World, a: Action, b: Id, gap: int, slack: nat)
    requires Sane(w) && Alive(w, slack) && Punctual(w, gap, slack) && b in w.bots
    requires Ready(w, a) && (a.StartBots? || a.VisitBot? || a.SettleBot?)
    ensures BotFresh(Step(w, a), b, slack)
  {
    assert BotFresh(w, b, slack);
    match a
    case StartBots => StartStaysFresh(w, b, slack);
    case VisitBot(t, c) =>
      assert TaskOk(w, w.tasks[t]);
      VisitStaysFresh(w, t, c, b, gap, slack);
    case SettleBot(t) => SettleStaysFresh(w, t, b, gap, slack);
  }

  lemma BotStaysFresh(w: World, a: Action, b: Id, gap: int, slack: nat)
    requires Sane(w) && Alive(w, slack) && Punctual(w, gap, slack) && gap + slack <= LONGEST_LAG && Enabled(w, a) && b in w.bots
    ensures BotFresh(Step(w, a), b, slack)
  {
    if a.StartBots? || a.VisitBot? || a.SettleBot? {
      TickStaysFresh(w, a, b, gap, slack);
    } else {
      OthersStayFresh(w, a, b, gap, slack);
    }
  }

  lemma LastTickIsPast(w: World, a: Action)
    requires TasksOk(w) && w.lastTick <= w.now && Ready(w, a)
    ensures Step(w, a).lastTick <= Step(w, a).now
  {
    StepFrame(w, a);
    if a.VisitBot? {
      assert TaskOk(w, w.tasks[a.t]);
      VisitLastTick(w, a.t, a.choice);
    } else if !a.SettleBot? && !a.StartBots? {
      OthersKeepDuties(w, a, 0);
    }
  }

  lemma VisitLastTick(w: World, t: nat, c: BotChoice)
    requires t in w.tasks && w.tasks[t].Visit? && VisitReady(w, t)
    ensures HandleVisit(w, t, c).lastTick == if w.tasks[t].rest == [] then w.tasks[t].tickAt else w.lastTick
  {}

  /** Every segment of a punctual run, of whatever handler, keeps every bot cached and fresh. */
  lemma StepStaysAlive(w: World, a: Action, gap: int, slack: nat)
    requires Sane(w) && Alive(w, slack) && Punctual(w, gap, slack) && gap + slack <= LONGEST_LAG && Enabled(w, a)
    ensures Alive(Step(w, a), slack)
  {
    StepFrame(w, a);
    LastTickIsPast(w, a);
    forall b | b in Step(w, a).bots ensures BotFresh(Step(w, a), b, slack) {
      BotStaysFresh(w, a, b, gap, slack);
    }
  }

  // --- the results ---

  lemma InitialIsAlive(w: World, slack: nat)
    requires Initial(w)
    ensures Alive(w, slack)
  {
    assert forall t :: DutyAt(w, t).None?;
    forall b | b in w.bots ensures BotFresh(w, b, slack) {
      assert NewBot(b, w.bots[b], w.cache.entries[b], w.now);
    }
  }

  lemma {:induction false} RunStaysAlive(w: World, acts: seq<Action>, gap: int, slack: nat)
    requires Sane(w) && Alive(w, slack) && gap + slack <= LONGEST_LAG && PunctualRuns(w, acts, gap, slack)
    ensures Runs(w, acts) && Alive(After(w, acts), slack) && Punctual(After(w, acts), gap, slack)
    decreases |acts|
  {
    if acts != [] {
      StepKeepsSane(w, acts[0]);
      StepStaysAlive(w, acts[0], gap, slack);
      RunStaysAlive(Step(w, acts[0]), acts[1..], gap, slack);
    }
  }

  lemma {:induction false} BotsAreConstant(w: World, acts: seq<Action>)
    requires Runs(w, acts)
    ensures After(w, acts).bots.Keys == w.bots.Keys
    decreases |acts|
  {
    if acts != [] {
      StepFrame(w, acts[0]);
      BotsAreConstant(Step(w, acts[0]), acts[1..]);
    }
  }

  /**
    No bot is ever collected, whatever messages, shots and timers run in the middle of a tick and
    even if ticks overlap: every bot stays in the player table and is never idle.
   */
  lemma BotsAreNeverCollected(w0: World, acts: seq<Action>, gap: int, slack: nat, b: Id)
    requires Initial(w0) && PunctualRuns(w0, acts, gap, slack) && gap + slack <= LONGEST_LAG && b in w0.bots
    ensures Runs(w0, acts)
    ensures var w := After(w0, acts);
            b in w.bots && b in w.cache.entries && !Idle(w, b)
  {
    InitialIsSane(w0);
    InitialIsAlive(w0, slack);
    RunStaysAlive(w0, acts, gap, slack);
    BotsAreConstant(w0, acts);
    FreshIsNotIdle(After(w0, acts), b, gap, slack);
  }

  // --- ticks one after the other ---

  ghost predicate InTick(w: World) {
    exists t :: DutyAt(w, t).Some?
  }

  /** A tick begins only when none is running, and the clock stays within the longest lag of the last finished one. */
  ghost predicate Serial(w: World, a: Action) {
    (a.StartBots? ==> !InTick(w)) && (a.Pass? ==> a.until <= w.lastTick + LONGEST_LAG)
  }

  ghost predicate SerialRuns(w: World, acts: seq<Action>)
    decreases |acts|
  {
    acts == [] || (Enabled(w, acts[0]) && Serial(w, acts[0]) && SerialRuns(Step(w, acts[0]), acts[1..]))
  }

  ghost predicate OneTick(w: World) {
    forall t, u :: DutyAt(w, t).Some? && DutyAt(w, u).Some? ==> t == u
  }

  lemma VisitKeepsOthersDuties(w: World, t: nat, c: BotChoice, u: nat)
    requires t in w.tasks && w.tasks[t].Visit? && VisitReady(w, t)
    ensures u != t ==> DutyAt(HandleVisit(w, t, c), u) == DutyAt(w, u)
    ensures DutyAt(HandleVisit(w, t, c), t).Some? ==> DutyAt(HandleVisit(w, t, c), t).value.tickAt == w.tasks[t].tickAt
    ensures DutyAt(HandleVisit(w, t, c), t).None? <==> w.tasks[t].rest == []
  {
    var tickAt, rest := w.tasks[t].tickAt, w.tasks[t].rest;
    if rest != [] && rest[0] in w.cache.entries && w.cache.entries[rest[0]].hp > 0 {
      BotActsDuty(w.(tasks := w.tasks[t := Visit(tickAt, rest[1..])]), t, rest[0], MovedBot(w.bots[rest[0]], tickAt, c), tickAt, rest[1..], c);
    }
  }

  /** No step gives a duty to a task that had none, except the start of a tick, or moves the start of a running tick. */
  lemma DutiesPersist(w: World, a: Action, u: nat)
    requires TasksOk(w) && Ready(w, a) && !a.StartBots? && DutyAt(Step(w, a), u).Some?
    ensures DutyAt(w, u).Some? && DutyAt(Step(w, a), u).value.tickAt == DutyAt(w, u).value.tickAt
  {
    match a
    case VisitBot(t, c) => VisitKeepsOthersDuties(w, t, c, u);
    case SettleBot(t) =>
    case _ => OthersKeepDuties(w, a, u);
  }

  lemma SerialStep(w: World, a: Action)
    requires TasksOk(w) && Enabled(w, a) && Serial(w, a) && OneTick(w) && Punctual(w, LONGEST_LAG, 0) && w.lastTick <= w.now
    ensures OneTick(Step(w, a)) && Punctual(Step(w, a), LONGEST_LAG, 0)
  {
    var w' := Step(w, a);
    StepFrame(w, a);
    if a.StartBots? {
      assert forall u :: u != w.nextTask ==> DutyAt(w', u) == DutyAt(w, u);
    } else {
      forall u | DutyAt(w', u).Some?
        ensures DutyAt(w, u).Some? && DutyAt(w', u).value.tickAt == DutyAt(w, u).value.tickAt
      {
        DutiesPersist(w, a, u);
      }
      SerialLastTick(w, a);
    }
  }

  lemma SerialLastTick(w: World, a: Action)
    requires TasksOk(w) && Enabled(w, a) && Serial(w, a) && OneTick(w) && Punctual(w, LONGEST_LAG, 0) && !a.StartBots?
    ensures var w' := Step(w, a);
            && w'.now <= w'.lastTick + LONGEST_LAG
            && (forall u :: DutyAt(w', u).Some? ==> w'.lastTick == w.lastTick)
  {
    StepFrame(w, a);
    if a.VisitBot? {
      assert DutyAt(w, a.t).Some?;
      VisitLastTick(w, a.t, a.choice);
      forall u | DutyAt(Step(w, a), u).Some? ensures w.tasks[a.t].rest != [] {
        DutiesPersist(w, a, u);
        VisitKeepsOthersDuties(w, a.t, a.choice, u);
      }
    } else if !a.SettleBot? {
      OthersKeepDuties(w, a, 0);
    }
  }

  lemma {:induction false} SerialRunsArePunctual(w: World, acts: seq<Action>)
    requires Sane(w) && OneTick(w) && Punctual(w, LONGEST_LAG, 0) && w.lastTick <= w.now && SerialRuns(w, acts)
    ensures PunctualRuns(w, acts, LONGEST_LAG, 0)
    decreases |acts|
  {
    if acts != [] {
      StepKeepsSane(w, acts[0]);
      LastTickIsPast(w, acts[0]);
      SerialStep(w, acts[0]);
      SerialRunsArePunctual(Step(w, acts[0]), acts[1..]);
    }
  }

  /** In particular for ticks that run one after the other, each freely interrupted and taking time, at most 2001 ms from start to finished next tick. */
  lemma SerialTicksCollectNobody(w0: World, acts: seq<Action>, b: Id)
    requires Initial(w0) && SerialRuns(w0, acts) && b in w0.bots
    ensures Runs(w0, acts)
    ensures var w := After(w0, acts);
            b in w.bots && b in w.cache.entries && !Idle(w, b)
  {
    InitialIsSane(w0);
    assert forall t :: DutyAt(w0, t).None?;
    SerialRunsArePunctual(w0, acts);
    BotsAreNeverCollected(w0, acts, LONGEST_LAG, 0, b);
  }
}
