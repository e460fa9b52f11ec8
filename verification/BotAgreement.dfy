/**
  When the event stream describes the bots as exactly as it describes the
  clients.  A bot's turn writes back the snapshot it read before its shot, so
  damage that lands in between is undone in the table but not in the stream;
  the agreement is kept exactly as long as every write-back finds the bot's
  vital signs as its turn found them.
 */
module BotAgreement {
  import opened Protocol
  import opened OrderedMap
  import opened Ballistics
  import opened BotMotion
  import opened GameWorld
  import opened Invariants
  import opened Evolution
  import opened EventSourcing
  import opened BotLife

  // --- one write-back ---

  /** The write-back restores the hit points that the table has, and its respawn time unless a death of the bot is suspended. */
  ghost predicate Faithful(w: World, t: nat)
    requires t in w.tasks && w.tasks[t].Settle?
  {
    var s, bot := w.tasks[t], w.tasks[t].bot;
    && bot in w.cache.entries
    && s.before.hp == w.cache.entries[bot].hp
    && (Dooms(w, bot) == map[] ==> s.before.deadUntil == w.cache.entries[bot].deadUntil)
  }

  lemma WrittenBack(w: World, t: nat)
    requires Ready(w, SettleBot(t))
    ensures var w', b := HandleSettle(w, t), w.tasks[t].bot;
            && w'.log == w.log && Dooms(w', b) == Dooms(w, b)
            && b in w'.cache.entries && SameVitals(w'.cache.entries[b], w.tasks[t].before)
  {
    var w', s := HandleSettle(w, t), w.tasks[t];
    assert w'.tasks == w.tasks[t := Visit(s.tickAt, s.rest)];
    DoomsAfterTask(w, t, Visit(s.tickAt, s.rest), s.bot);
    DoomsFrame(w.(tasks := w.tasks[t := Visit(s.tickAt, s.rest)]), w', s.bot);
  }

  /** With the same history and suspended deaths, agreement is a matter of the vital signs. */
  lemma AgreementIsVital(c0: Dict<Snapshot>, w: World, w': World, b: Id)
    requires Agrees(c0, w, b) && w'.log == w.log && Dooms(w', b) == Dooms(w, b) && b in w'.cache.entries
    ensures var s, s' := w.cache.entries[b], w'.cache.entries[b];
            Agrees(c0, w', b) <==> s'.hp == s.hp && (Dooms(w, b) == map[] ==> s'.deadUntil == s.deadUntil)
  {}

  /** A write-back keeps the agreement on its bot if and only if it is faithful, also when a death of the bot is suspended. */
  lemma WriteBackKeepsAgreementIff(c0: Dict<Snapshot>, w: World, t: nat)
    requires Ready(w, SettleBot(t)) && Agrees(c0, w, w.tasks[t].bot)
    ensures Agrees(c0, HandleSettle(w, t), w.tasks[t].bot) <==> Faithful(w, t)
  {
    WrittenBack(w, t);
    AgreementIsVital(c0, w, HandleSettle(w, t), w.tasks[t].bot);
  }

  // --- runs ---

  /** The bot is never removed, and each of its write-backs finds the vital signs that its turn began with. */
  ghost predicate FollowedRuns(w: World, acts: seq<Action>, b: Id)
    decreases |acts|
  {
    acts == [] || (Enabled(w, acts[0]) && Followed(w, acts[0], b) && FollowedRuns(Step(w, acts[0]), acts[1..], b))
  }

  lemma {:induction false} FollowedRunAgrees(c0: Dict<Snapshot>, w: World, acts: seq<Action>, b: Id)
    requires Sane(w) && b in w.bots && Agrees(c0, w, b) && FollowedRuns(w, acts, b)
    ensures Runs(w, acts) && Agrees(c0, After(w, acts), b)
    decreases |acts|
  {
    if acts != [] {
      StepKeepsSane(w, acts[0]);
      StepFrame(w, acts[0]);
      StepEvolves(w, acts[0], b);
      EvolvedAgrees(c0, w, acts[0], b);
      FollowedRunAgrees(c0, Step(w, acts[0]), acts[1..], b);
    }
  }

  lemma InitialBotAgrees(w0: World, b: Id)
    requires Initial(w0) && b in w0.bots
    ensures Agrees(w0.cache, w0, b)
  {}

  /**
    In every run, whatever interrupts the ticks: as long as a bot is not removed and its write-backs
    find it as its turns did, the replayed history gives it its hit points, and its respawn time
    unless a death is suspended.
   */
  lemma BotEventSourcing(w0: World, acts: seq<Action>, b: Id)
    requires Initial(w0) && b in w0.bots && FollowedRuns(w0, acts, b)
    ensures Runs(w0, acts) && Agrees(w0.cache, After(w0, acts), b)
  {
    InitialIsSane(w0);
    InitialBotAgrees(w0, b);
    FollowedRunAgrees(w0.cache, w0, acts, b);
  }

  /** And the first write-back that is not faithful breaks the agreement: after such a run, the next one keeps it exactly if it is. */
  lemma WriteBackIsExact(w0: World, acts: seq<Action>, w: World, t: nat, b: Id)
    requires Initial(w0) && b in w0.bots && FollowedRuns(w0, acts, b) && Runs(w0, acts) && w == After(w0, acts)
    requires Ready(w, SettleBot(t)) && w.tasks[t].bot == b
    ensures Agrees(w0.cache, HandleSettle(w, t), b) <==> Faithful(w, t)
  {
    BotEventSourcing(w0, acts, b);
    WriteBackKeepsAgreementIff(w0.cache, w, t);
  }

  // --- turns that nothing disturbs ---

  /** Whose turn is suspended in a task, and the snapshot that it will write back. */
  function TurnBusy(turn: Turn): Option<(Id, Snapshot)> {
    match turn
    case Human => None
    case BotTurn(bot, before, _, _) => Some((bot, before))
  }

  function BusyOf(k: Task): Option<(Id, Snapshot)> {
    match k
    case Flight(_, _, _, _, turn) => TurnBusy(turn)
    case Doom(_, _, _, _, _, _, turn) => TurnBusy(turn)
    case Visit(_, _) => None
    case Settle(bot, before, _, _, _) => Some((bot, before))
  }

  function BusyAt(w: World, t: nat): Option<(Id, Snapshot)> {
    if t in w.tasks then BusyOf(w.tasks[t]) else None
  }

  ghost predicate InTurn(w: World, b: Id) {
    exists t :: BusyAt(w, t).Some? && BusyAt(w, t).value.0 == b
  }

  /** The step does not hit, kill or revive the bot in the middle of one of its own turns. */
  ghost predicate LeftAlone(w: World, a: Action, b: Id)
    requires Ready(w, a)
  {
    InTurn(w, b) ==> EffectOf(w, a, b).Quiet?
  }

  /** Nor does it remove the bot. */
  ghost predicate Spared(w: World, a: Action, b: Id)
    requires Ready(w, a)
  {
    b in Step(w, a).cache.entries && LeftAlone(w, a, b)
  }

  ghost predicate SparedRuns(w: World, acts: seq<Action>, b: Id)
    decreases |acts|
  {
    acts == [] || (Enabled(w, acts[0]) && Spared(w, acts[0], b) && SparedRuns(Step(w, acts[0]), acts[1..], b))
  }

  /** Every suspended turn of the bot will write back the vital signs that the table has. */
  ghost predicate TurnsCurrent(w: World, b: Id) {
    && b in w.cache.entries
    && (forall t :: BusyAt(w, t).Some? && BusyAt(w, t).value.0 == b ==> SameVitals(BusyAt(w, t).value.1, w.cache.entries[b]))
  }

  lemma EndShotKeepsBusy(w: World, t: nat, turn: Turn, shotAt: Option<int>, u: nat)
    requires t in w.tasks && BusyOf(w.tasks[t]) == TurnBusy(turn)
    ensures BusyAt(EndShot(w, t, turn, shotAt), u) == BusyAt(w, u)
  {}

  lemma FlightKeepsBusy(w: World, t: nat, u: nat)
    requires Ready(w, ResumeFlight(t))
    ensures BusyAt(HandleFlight(w, t), u) == BusyAt(w, u)
  {
    var f, v := w.tasks[t], VictimOf(w, w.tasks[t]);
    if v.None? {
      var w1 := if f.turn.BotTurn? then w.(bots := w.bots[f.turn.bot := w.bots[f.turn.bot].(lastShotAt := w.now as real)]) else w;
      EndShotKeepsBusy(w1, t, f.turn, None, u);
    } else if HpAfterHit(v.value.hp) > 0 {
      EndShotKeepsBusy(AfterHit(w, f, v.value), t, f.turn, Some(w.now), u);
    }
  }

  lemma DoomKeepsBusy(w: World, t: nat, killId: string, u: nat)
    requires Ready(w, ResumeDoom(t, killId))
    ensures BusyAt(HandleDoom(w, t, killId), u) == BusyAt(w, u)
  {
    var d := w.tasks[t];
    var w1 := if d.turn.Human? then w.(ledger := HandleDoom(w, t, killId).ledger) else w;
    EndShotKeepsBusy(Emit(w1, DeathBody(w, d)), t, d.turn, Some(d.hitAt), u);
  }

  lemma ShotKeepsBusy(w: World, id: Id, dir: Option<Vec3>, len: real, msgId: string, uuid: string, u: nat)
    requires w.nextTask !in w.tasks
    ensures BusyAt(HandleSnowball(w, id, dir, len, msgId, uuid), u) == BusyAt(w, u)
  {}

  lemma BotActsBusy(w: World, t: nat, bot: Id, m: Bot, tickAt: int, rest: seq<Id>, c: BotChoice, u: nat)
    requires t in w.tasks && w.tasks[t] == Visit(tickAt, rest) && bot in w.bots && bot in w.cache.entries
    ensures var w' := BotActs(w, t, bot, m, tickAt, rest, c);
            BusyAt(w', u) == BusyAt(w, u) || (u == t && BusyAt(w', u) == Some((bot, w.cache.entries[bot])))
  {
    var w1 := WalkBot(w, bot, m);
    var players := Values(w1.cache);
    var target := Nearest(players, m.pos);
    var w' := BotActs(w, t, bot, m, tickAt, rest, c);
    if tickAt as real - m.lastShotAt > SHOT_INTERVAL && target.Some? {
      var dir := Norm(AimVector(m.pos, players[target.value].pos), c.aimLen);
      assert w'.tasks == w.tasks[t := Flight(bot, c.shotId, Muzzle(m.pos), dir, BotTurn(bot, w.cache.entries[bot], tickAt, rest))];
    } else {
      assert w'.tasks == w.tasks;
    }
  }

  /** A visit suspends a turn only of the bot it visits, which is alive, with the snapshot that the table has. */
  lemma VisitBusy(w: World, t: nat, c: BotChoice, u: nat)
    requires Ready(w, VisitBot(t, c))
    ensures var w' := HandleVisit(w, t, c);
            || BusyAt(w', u) == BusyAt(w, u)
            || (&& u == t && w.tasks[t].rest != [] && w.tasks[t].rest[0] in w.cache.entries && w.cache.entries[w.tasks[t].rest[0]].hp > 0
                && BusyAt(w', u) == Some((w.tasks[t].rest[0], w.cache.entries[w.tasks[t].rest[0]])))
  {
    var tickAt, rest := w.tasks[t].tickAt, w.tasks[t].rest;
    if rest != [] && rest[0] in w.cache.entries && w.cache.entries[rest[0]].hp > 0 {
      BotActsBusy(w.(tasks := w.tasks[t := Visit(tickAt, rest[1..])]), t, rest[0], MovedBot(w.bots[rest[0]], tickAt, c), tickAt, rest[1..], c, u);
    }
  }

  /** A suspended turn was suspended before the step, or is the turn that the step suspends. */
  lemma BusyOrigin(w: World, a: Action, u: nat)
    requires TasksOk(w) && Ready(w, a) && BusyAt(Step(w, a), u).Some?
    ensures var (b, before) := BusyAt(Step(w, a), u).value;
            || BusyAt(w, u) == Some((b, before))
            || (b in w.cache.entries && before == w.cache.entries[b] && EffectOf(w, a, b).Quiet?)
  {
    match a
    case ResumeFlight(t) => FlightKeepsBusy(w, t, u);
    case ResumeDoom(t, killId) => DoomKeepsBusy(w, t, killId, u);
    case OnSnowball(id, dir, len, msgId, uuid) => ShotKeepsBusy(w, id, dir, len, msgId, uuid, u);
    case VisitBot(t, c) => VisitBusy(w, t, c, u);
    case _ =>
  }

  lemma SparedIsFollowed(w: World, a: Action, b: Id)
    requires Enabled(w, a) && b in w.bots && TurnsCurrent(w, b) && Spared(w, a, b)
    ensures Followed(w, a, b)
  {
    if a.SettleBot? { assert BusyAt(w, a.t) == Some((w.tasks[a.t].bot, w.tasks[a.t].before)); }
  }

  lemma SparedStep(w: World, a: Action, b: Id)
    requires Sane(w) && Enabled(w, a) && b in w.bots && TurnsCurrent(w, b) && Spared(w, a, b)
    ensures TurnsCurrent(Step(w, a), b)
  {
    var w' := Step(w, a);
    SparedIsFollowed(w, a, b);
    StepEvolves(w, a, b);
    forall u | BusyAt(w', u).Some? && BusyAt(w', u).value.0 == b
      ensures SameVitals(BusyAt(w', u).value.1, w'.cache.entries[b])
    {
      BusyOrigin(w, a, u);
      assert EffectOf(w, a, b).Quiet?;
    }
  }

  lemma {:induction false} SparedRunsAreFollowed(w: World, acts: seq<Action>, b: Id)
    requires Sane(w) && b in w.bots && TurnsCurrent(w, b) && SparedRuns(w, acts, b)
    ensures FollowedRuns(w, acts, b)
    decreases |acts|
  {
    if acts != [] {
      SparedIsFollowed(w, acts[0], b);
      SparedStep(w, acts[0], b);
      StepKeepsSane(w, acts[0]);
      StepFrame(w, acts[0]);
      SparedRunsAreFollowed(Step(w, acts[0]), acts[1..], b);
    }
  }

  /** The agreement on a bot holds in every run in which nothing happens to the bot in the middle of its own turns. */
  lemma SparedBotEventSourcing(w0: World, acts: seq<Action>, b: Id)
    requires Initial(w0) && b in w0.bots && SparedRuns(w0, acts, b)
    ensures Runs(w0, acts) && Agrees(w0.cache, After(w0, acts), b)
  {
    InitialIsSane(w0);
    SparedRunsAreFollowed(w0, acts, b);
    BotEventSourcing(w0, acts, b);
  }

  // --- regular ticks ---

  ghost predicate LeftAloneRuns(w: World, acts: seq<Action>, b: Id)
    decreases |acts|
  {
    acts == [] || (Enabled(w, acts[0]) && LeftAlone(w, acts[0], b) && LeftAloneRuns(Step(w, acts[0]), acts[1..], b))
  }

  lemma {:induction false} PunctualRunsSpare(w: World, acts: seq<Action>, gap: int, slack: nat, b: Id)
    requires Sane(w) && b in w.bots && Alive(w, slack) && gap + slack <= LONGEST_LAG
    requires PunctualRuns(w, acts, gap, slack) && LeftAloneRuns(w, acts, b)
    ensures SparedRuns(w, acts, b)
    decreases |acts|
  {
    if acts != [] {
      StepKeepsSane(w, acts[0]);
      StepFrame(w, acts[0]);
      StepStaysAlive(w, acts[0], gap, slack);
      assert BotFresh(Step(w, acts[0]), b, slack);
      PunctualRunsSpare(Step(w, acts[0]), acts[1..], gap, slack, b);
    }
  }

  /** With regular ticks, interrupted or overlapping, the replay agrees on every bot that is left alone in the middle of its own turns. */
  lemma PunctualBotEventSourcing(w0: World, acts: seq<Action>, gap: int, slack: nat, b: Id)
    requires Initial(w0) && b in w0.bots && gap + slack <= LONGEST_LAG
    requires PunctualRuns(w0, acts, gap, slack) && LeftAloneRuns(w0, acts, b)
    ensures Runs(w0, acts) && Agrees(w0.cache, After(w0, acts), b)
  {
    InitialIsSane(w0);
    InitialIsAlive(w0, slack);
    PunctualRunsSpare(w0, acts, gap, slack, b);
    SparedBotEventSourcing(w0, acts, b);
  }

  // --- uninterrupted ticks ---

  /** While a tick runs, only its own segments run and the clock; otherwise anything does. */
  ghost predicate Undisturbed(w: World, a: Action) {
    && Serial(w, a)
    && (InTick(w) ==> a.Pass? || ((a.ResumeFlight? || a.ResumeDoom? || a.VisitBot? || a.SettleBot?) && DutyAt(w, a.t).Some?))
  }

  ghost predicate AtomicRuns(w: World, acts: seq<Action>)
    decreases |acts|
  {
    acts == [] || (Enabled(w, acts[0]) && Undisturbed(w, acts[0]) && AtomicRuns(Step(w, acts[0]), acts[1..]))
  }

  /** An atomic run is a serial run of the server. */
  lemma {:induction false} AtomicRunsAreSerial(w: World, acts: seq<Action>)
    requires AtomicRuns(w, acts)
    ensures SerialRuns(w, acts)
    decreases |acts|
  {
    if acts != [] { AtomicRunsAreSerial(Step(w, acts[0]), acts[1..]); }
  }

  /** A bot is not the victim of its own shot, so the segments of its own tick spare it. */
  lemma OwnTickSpares(w: World, a: Action, b: Id)
    requires Sane(w) && OneTick(w) && Enabled(w, a) && Undisturbed(w, a) && InTurn(w, b)
    ensures EffectOf(w, a, b).Quiet?
  {
    var u :| BusyAt(w, u).Some? && BusyAt(w, u).value.0 == b;
    assert DutyAt(w, u).Some?;
    if !a.Pass? {
      assert a.t == u && TaskOk(w, w.tasks[u]);
      if a.ResumeFlight? { VictimIsCached(w, w.tasks[u]); }
    }
  }

  lemma {:induction false} AtomicRunsSpareBots(w: World, acts: seq<Action>, b: Id)
    requires Sane(w) && b in w.bots && Alive(w, 0) && OneTick(w) && Punctual(w, LONGEST_LAG, 0) && AtomicRuns(w, acts)
    ensures SparedRuns(w, acts, b)
    decreases |acts|
  {
    if acts != [] {
      var a := acts[0];
      StepKeepsSane(w, a);
      StepFrame(w, a);
      SerialStep(w, a);
      StepStaysAlive(w, a, LONGEST_LAG, 0);
      assert BotFresh(Step(w, a), b, 0);
      if InTurn(w, b) { OwnTickSpares(w, a, b); }
      AtomicRunsSpareBots(Step(w, a), acts[1..], b);
    }
  }

  /** With uninterrupted ticks, however long they take, the replay agrees on every bot. */
  lemma AtomicBotEventSourcing(w0: World, acts: seq<Action>, b: Id)
    requires Initial(w0) && AtomicRuns(w0, acts) && b in w0.bots
    ensures Runs(w0, acts) && Agrees(w0.cache, After(w0, acts), b)
  {
    InitialIsSane(w0);
    InitialIsAlive(w0, 0);
    assert forall t :: DutyAt(w0, t).None?;
    AtomicRunsSpareBots(w0, acts, b);
    SparedBotEventSourcing(w0, acts, b);
  }

  // --- where bots are ---

  /**
    In every run, atomic or not, every bot and its target stay in the safe zone and the bot is cached
    where it is; whatever it draws next, its next target comes from the branch for bots inside the
    zone, at most 30 away.
   */
  lemma BotConfinement(w0: World, acts: seq<Action>, b: Id, d: Draws)
    requires Initial(w0) && Runs(w0, acts) && b in w0.bots && DrawsOk(d)
    ensures var w := After(w0, acts);
            && b in w.bots && InSquare(w.bots[b].pos, SAFE_ZONE)
            && (w.bots[b].target.Some? ==> InSquare(w.bots[b].target.value, SAFE_ZONE))
            && (b in w.cache.entries ==> w.cache.entries[b].pos == w.bots[b].pos)
            && (var p, next := w.bots[b].pos, MoveTarget(w.bots[b].pos, d);
                (next.x, next.z) == NearbyTarget(p, d) && Dist2(next, p) <= 900.0)
  {
    InitialIsSane(w0);
    RunKeepsSane(w0, acts);
    BotsAreConstant(w0, acts);
    assert BotOk(After(w0, acts).bots[b]);
    MoveTargetIsNearby(After(w0, acts).bots[b].pos, d);
  }
}
