/** What runs do to the event log, to the shots and to the kill ledger. */
module Bookkeeping {
  import opened Protocol
  import opened GameWorld
  import opened Invariants
  import opened Evolution
  import opened BotMotion
  import Ballistics
  import OrderedMap
  import EventLog
  import ShotFilter
  import KillLedger

  // --- the three books keep their own invariants ---

  ghost predicate BooksOk(w: World) {
    && EventLog.LogOk(w.log) && EventLog.LogBefore(w.log, w.now)
    && ShotFilter.BookOk(w.shots, w.now)
    && KillLedger.LedgerOk(w.ledger, w.now)
  }

  lemma StepKeepsLog(w: World, a: Action)
    requires Ready(w, a) && EventLog.LogOk(w.log) && EventLog.LogBefore(w.log, w.now)
    ensures EventLog.LogOk(Step(w, a).log) && EventLog.LogBefore(Step(w, a).log, Step(w, a).now)
  {
    var body := StepLogs(w, a);
    StepFrame(w, a);
    if body.Some? { EventLog.AppendKeepsLog(w.log, body.value, w.now); }
  }

  function ShotIdOf(a: Action): string
    requires a.OnSnowball?
  {
    if UuidLike(a.shotId) then a.shotId else a.uuid
  }

  /** Only an accepted shot and the collector touch the shot filter, only deaths and the cleanup the ledger. */
  lemma StepShots(w: World, a: Action)
    requires Ready(w, a)
    ensures Step(w, a).shots ==
              if a.OnSnowball? && a.dir.Some? && !ShotFilter.Refuses(w.shots, ShotIdOf(a), w.now)
              then ShotFilter.Accept(w.shots, ShotIdOf(a), w.now)
              else if a.ScanShots? then ShotFilter.Expire(w.shots, w.now)
              else w.shots
  {
    if a.VisitBot? { VisitKeepsBooks(w, a.t, a.choice); }
    if a.ResumeFlight? { FlightKeepsBooks(w, a.t); }
  }

  lemma StepLedger(w: World, a: Action)
    requires Ready(w, a)
    ensures Step(w, a).ledger ==
              if a.ResumeDoom? && w.tasks[a.t].turn.Human? then KillLedger.Record(w.ledger, KillRow(w, w.tasks[a.t], a.killId))
              else if a.ScanKills? then KillLedger.Cleanup(w.ledger, w.now)
              else w.ledger
  {
    if a.VisitBot? { VisitKeepsBooks(w, a.t, a.choice); }
    if a.ResumeFlight? { FlightKeepsBooks(w, a.t); }
  }

  lemma VisitKeepsBooks(w: World, t: nat, c: BotChoice)
    requires t in w.tasks && w.tasks[t].Visit? && VisitReady(w, t)
    ensures HandleVisit(w, t, c).shots == w.shots && HandleVisit(w, t, c).ledger == w.ledger
  {}

  lemma FlightKeepsBooks(w: World, t: nat)
    requires t in w.tasks && w.tasks[t].Flight? && TurnOk(w, w.tasks[t].turn)
    ensures HandleFlight(w, t).shots == w.shots && HandleFlight(w, t).ledger == w.ledger
  {}

  lemma ShotsStayOk(w: World, a: Action)
    requires Ready(w, a) && ShotFilter.BookOk(w.shots, w.now)
    ensures ShotFilter.BookOk(Step(w, a).shots, Step(w, a).now)
  {
    StepShots(w, a);
    StepFrame(w, a);
    match a
    case OnSnowball(_, _, _, _, _) =>
      if !ShotFilter.Refuses(w.shots, ShotIdOf(a), w.now) { ShotFilter.AcceptKeepsBook(w.shots, ShotIdOf(a), w.now); }
    case ScanShots => ShotFilter.ExpireKeepsBook(w.shots, w.now);
    case Pass(until) => ShotFilter.ClockKeepsBook(w.shots, w.now, until);
    case _ =>
  }

  lemma LedgerStaysOk(w: World, a: Action)
    requires Ready(w, a) && KillLedger.LedgerOk(w.ledger, w.now)
    ensures KillLedger.LedgerOk(Step(w, a).ledger, Step(w, a).now)
  {
    StepLedger(w, a);
    StepFrame(w, a);
    match a
    case ResumeDoom(t, killId) => KillLedger.RecordKeepsLedger(w.ledger, KillRow(w, w.tasks[t], killId), w.now);
    case ScanKills => KillLedger.CleanupKeepsLedger(w.ledger, w.now);
    case Pass(until) => KillLedger.ClockKeepsLedger(w.ledger, w.now, until);
    case _ =>
  }

  lemma StepKeepsBooks(w: World, a: Action)
    requires BooksOk(w) && Ready(w, a)
    ensures BooksOk(Step(w, a))
  {
    StepKeepsLog(w, a);
    ShotsStayOk(w, a);
    LedgerStaysOk(w, a);
  }

  /** In every run: the log window is a numbered suffix of history, shots are deduplicated exactly, the tables match the records. */
  lemma {:induction false} RunKeepsBooks(w: World, acts: seq<Action>)
    requires BooksOk(w) && Runs(w, acts)
    ensures BooksOk(After(w, acts))
    decreases |acts|
  {
    if acts != [] {
      StepKeepsBooks(w, acts[0]);
      RunKeepsBooks(Step(w, acts[0]), acts[1..]);
    }
  }

  // --- who is a bot ---

  ghost predicate NamesOk(w: World) {
    (forall id :: id in w.names ==> !IsBotId(id)) && (forall id :: id in w.bots ==> IsBotId(id))
  }

  lemma InitialNames(w0: World)
    requires Initial(w0)
    ensures NamesOk(w0)
  {}

  lemma StepKeepsNames(w: World, a: Action)
    requires Ready(w, a) && NamesOk(w)
    ensures NamesOk(Step(w, a))
  {
    StepFrame(w, a);
  }

  // --- every shot: one snowball, at most one hit, a death exactly for a lethal hit ---

  function CountEvents(h: seq<Event>, p: Body -> bool): nat {
    if |h| == 0 then 0 else CountEvents(h[..|h| - 1], p) + (if p(h[|h| - 1].body) then 1 else 0)
  }

  function Thrown(x: string): Body -> bool { (b: Body) => b.Snowball? && b.id == x }
  function Landed(x: string): Body -> bool { (b: Body) => b.Hit? && b.shotId == x }
  function Lethal(x: string): Body -> bool { (b: Body) => b.Hit? && b.shotId == x && b.victimHp == 0 }
  function Fatal(x: string): Body -> bool { (b: Body) => b.Death? && b.shotId == x }

  /** The suspended handlers that still have to resolve, or to announce the death of, shot `x`. */
  function Flights(tasks: map<nat, Task>, x: string): set<nat> { set t | t in tasks && tasks[t].Flight? && tasks[t].shotId == x }
  function Deaths(tasks: map<nat, Task>, x: string): set<nat> { set t | t in tasks && tasks[t].Doom? && tasks[t].shotId == x }
  function InFlight(w: World, x: string): set<nat> { Flights(w.tasks, x) }
  function Pending(w: World, x: string): set<nat> { Deaths(w.tasks, x) }

  /**
    Of the snowballs thrown under id `x`, some are in flight and the others hit at most once each;
    of the lethal hits, each has had its death event or has it pending.
   */
  ghost predicate ShotsAddUp(w: World, x: string) {
    var h := w.log.history;
    && CountEvents(h, Landed(x)) + |InFlight(w, x)| <= CountEvents(h, Thrown(x))
    && CountEvents(h, Fatal(x)) + |Pending(w, x)| == CountEvents(h, Lethal(x))
  }

  /** How a step changes the suspended handlers of shot `x`. */
  ghost predicate TasksChange(w: World, w': World, x: string, flights: int, dooms: int) {
    |InFlight(w', x)| == |InFlight(w, x)| + flights && |Pending(w', x)| == |Pending(w, x)| + dooms
  }

  lemma SetCount(before: set<nat>, after: set<nat>, t: nat, added: bool)
    requires after == if added then before + {t} else before - {t}
    ensures |after| == |before| + (if added then 1 else 0) - (if t in before then 1 else 0)
  {}

  lemma FlightCount(tasks: map<nat, Task>, t: nat, k: Task, x: string)
    ensures |Flights(tasks[t := k], x)|
            == |Flights(tasks, x)| + (if k.Flight? && k.shotId == x then 1 else 0) - (if t in Flights(tasks, x) then 1 else 0)
    ensures |Flights(tasks - {t}, x)| == |Flights(tasks, x)| - (if t in Flights(tasks, x) then 1 else 0)
  {
    SetCount(Flights(tasks, x), Flights(tasks[t := k], x), t, k.Flight? && k.shotId == x);
    SetCount(Flights(tasks, x), Flights(tasks - {t}, x), t, false);
  }

  lemma DeathCount(tasks: map<nat, Task>, t: nat, k: Task, x: string)
    ensures |Deaths(tasks[t := k], x)|
            == |Deaths(tasks, x)| + (if k.Doom? && k.shotId == x then 1 else 0) - (if t in Deaths(tasks, x) then 1 else 0)
    ensures |Deaths(tasks - {t}, x)| == |Deaths(tasks, x)| - (if t in Deaths(tasks, x) then 1 else 0)
  {
    SetCount(Deaths(tasks, x), Deaths(tasks[t := k], x), t, k.Doom? && k.shotId == x);
    SetCount(Deaths(tasks, x), Deaths(tasks - {t}, x), t, false);
  }

  lemma TaskSetCounts(w: World, w': World, t: nat, k: Task, x: string)
    requires w'.tasks == w.tasks[t := k]
    ensures TasksChange(w, w', x,
              (if k.Flight? && k.shotId == x then 1 else 0) - (if t in InFlight(w, x) then 1 else 0),
              (if k.Doom? && k.shotId == x then 1 else 0) - (if t in Pending(w, x) then 1 else 0))
  {
    FlightCount(w.tasks, t, k, x);
    DeathCount(w.tasks, t, k, x);
  }

  lemma TaskDropCounts(w: World, w': World, t: nat, x: string)
    requires w'.tasks == w.tasks - {t}
    ensures TasksChange(w, w', x, -(if t in InFlight(w, x) then 1 else 0), -(if t in Pending(w, x) then 1 else 0))
  {
    FlightCount(w.tasks, t, Visit(0, []), x);
    DeathCount(w.tasks, t, Visit(0, []), x);
  }

  lemma NothingNewCounts(w: World, w': World, x: string)
    requires w'.tasks == w.tasks
    ensures TasksChange(w, w', x, 0, 0)
  {}

  lemma EndShotCounts(w: World, t: nat, turn: Turn, shotAt: Option<int>, x: string)
    requires t in w.tasks
    ensures TasksChange(w, EndShot(w, t, turn, shotAt), x,
              -(if t in InFlight(w, x) then 1 else 0), -(if t in Pending(w, x) then 1 else 0))
  {
    match turn
    case Human => TaskDropCounts(w, EndShot(w, t, turn, shotAt), t, x);
    case BotTurn(bot, before, tickAt, rest) =>
      TaskSetCounts(w, EndShot(w, t, turn, shotAt), t, Settle(bot, before, shotAt, tickAt, rest), x);
  }

  lemma AddUpAfter(w: World, w': World, body: Option<Body>, x: string, flights: int, dooms: int)
    requires ShotsAddUp(w, x) && LogIs(w, w', body) && TasksChange(w, w', x, flights, dooms)
    requires (if body.Some? && Landed(x)(body.value) then 1 else 0) + flights <= (if body.Some? && Thrown(x)(body.value) then 1 else 0)
    requires (if body.Some? && Fatal(x)(body.value) then 1 else 0) + dooms == (if body.Some? && Lethal(x)(body.value) then 1 else 0)
    ensures ShotsAddUp(w', x)
  {}

  lemma FlightAddsUp(w: World, t: nat, x: string)
    requires Ready(w, ResumeFlight(t)) && ShotsAddUp(w, x)
    ensures ShotsAddUp(HandleFlight(w, t), x)
  {
    var f := w.tasks[t];
    var v := VictimOf(w, f);
    var body := StepLogs(w, ResumeFlight(t));
    var gone := if f.shotId == x then 1 else 0;
    if v.None? {
      var w1 := if f.turn.BotTurn? then w.(bots := w.bots[f.turn.bot := w.bots[f.turn.bot].(lastShotAt := w.now as real)]) else w;
      NothingNewCounts(w, w1, x);
      EndShotCounts(w1, t, f.turn, None, x);
      AddUpAfter(w, HandleFlight(w, t), body, x, -gone, 0);
    } else {
      StrikeCounts(w, t, v.value, x);
      AddUpAfter(w, HandleFlight(w, t), body, x, -gone, if HpAfterHit(v.value.hp) == 0 then gone else 0);
    }
  }

  lemma StrikeCounts(w: World, t: nat, victim: Snapshot, x: string)
    requires t in w.tasks && w.tasks[t].Flight?
    ensures var gone := if w.tasks[t].shotId == x then 1 else 0;
            TasksChange(w, HandleStrike(w, t, victim), x, -gone, if HpAfterHit(victim.hp) == 0 then gone else 0)
  {
    var f := w.tasks[t];
    var w1 := AfterHit(w, f, victim);
    NothingNewCounts(w, w1, x);
    if HpAfterHit(victim.hp) == 0 {
      TaskSetCounts(w1, StruckTask(w1, t, victim), t,
                    Doom(f.owner, victim.id, victim.name, f.shotId, w.now + RESPAWN_MS, w.now, f.turn), x);
    } else {
      EndShotCounts(w1, t, f.turn, Some(w.now), x);
    }
  }

  lemma DoomAddsUp(w: World, t: nat, killId: string, x: string)
    requires Ready(w, ResumeDoom(t, killId)) && ShotsAddUp(w, x)
    ensures ShotsAddUp(HandleDoom(w, t, killId), x)
  {
    var d := w.tasks[t];
    var w1 := if d.turn.Human? then w.(ledger := KillLedger.Record(w.ledger, KillRow(w, d, killId))) else w;
    var w2 := Emit(w1, DeathBody(w, d));
    NothingNewCounts(w, w2, x);
    EndShotCounts(w2, t, d.turn, Some(d.hitAt), x);
    AddUpAfter(w, HandleDoom(w, t, killId), Some(DeathBody(w, d)), x, 0, -(if d.shotId == x then 1 else 0));
  }

  lemma LaunchAddsUp(w: World, t: nat, owner: Id, shotId: string, origin: Vec3, dir: Vec3, turn: Turn, x: string)
    requires ShotsAddUp(w, x) && t !in InFlight(w, x) && t !in Pending(w, x)
    ensures ShotsAddUp(Launch(w, t, owner, shotId, origin, dir, turn), x)
  {
    var w' := Launch(w, t, owner, shotId, origin, dir, turn);
    TaskSetCounts(w, w', t, Flight(owner, shotId, origin, dir, turn), x);
    AddUpAfter(w, w', Some(Snowball(shotId, owner, origin, dir, SNOWBALL_SPEED)), x, if shotId == x then 1 else 0, 0);
  }

  lemma SameTasksAddUp(w: World, w': World, x: string)
    requires ShotsAddUp(w, x) && w'.tasks == w.tasks && w'.log == w.log
    ensures ShotsAddUp(w', x)
  {}

  lemma FireAddsUp(w: World, w2: World, t: nat, id: Id, shotId: string, origin: Vec3, dir: Vec3, x: string)
    requires ShotsAddUp(w, x) && t !in w.tasks && w2.tasks == w.tasks && w2.log == w.log
    ensures ShotsAddUp(Launch(w2, t, id, shotId, origin, dir, Human), x)
  {
    SameTasksAddUp(w, w2, x);
    LaunchAddsUp(w2, t, id, shotId, origin, dir, Human, x);
  }

  lemma SnowballAddsUp(w: World, id: Id, dir: Option<Vec3>, len: real, msgId: string, uuid: string, x: string)
    requires ShotsAddUp(w, x) && w.nextTask !in w.tasks
    ensures ShotsAddUp(HandleSnowball(w, id, dir, len, msgId, uuid), x)
  {
    var shotId := if UuidLike(msgId) then msgId else uuid;
    var w1 := w.(shots := ShotFilter.Accept(w.shots, shotId, w.now));
    var w' := HandleSnowball(w, id, dir, len, msgId, uuid);
    if dir.None? || ShotFilter.Refuses(w.shots, shotId, w.now) {
      assert w' == w;
    } else if id !in w.cache.entries {
      assert w' == w1;
      SameTasksAddUp(w, w1, x);
    } else {
      var w2, origin, u := w1.(nextTask := w.nextTask + 1), Muzzle(w.cache.entries[id].pos), Ballistics.Norm(dir.value, len);
      assert w' == Launch(w2, w.nextTask, id, shotId, origin, u, Human);
      FireAddsUp(w, w2, w.nextTask, id, shotId, origin, u, x);
    }
  }

  lemma BotActsAddsUp(w: World, t: nat, bot: Id, b: Bot, tickAt: int, rest: seq<Id>, c: BotChoice, x: string)
    requires bot in w.bots && bot in w.cache.entries && ShotsAddUp(w, x) && t !in InFlight(w, x) && t !in Pending(w, x)
    ensures ShotsAddUp(BotActs(w, t, bot, b, tickAt, rest, c), x)
  {
    var before := w.cache.entries[bot];
    var w1 := WalkBot(w, bot, b);
    var players := OrderedMap.Values(w1.cache);
    var target := Nearest(players, b.pos);
    if tickAt as real - b.lastShotAt > SHOT_INTERVAL && target.Some? {
      var w2 := w1.(bots := w1.bots[bot := b.(rotY := c.aimYaw)]);
      SameTasksAddUp(w, w2, x);
      LaunchAddsUp(w2, t, bot, c.shotId, Muzzle(b.pos), Ballistics.Norm(AimVector(b.pos, players[target.value].pos), c.aimLen),
                   BotTurn(bot, before, tickAt, rest), x);
    } else {
      SameTasksAddUp(w, BotActs(w, t, bot, b, tickAt, rest, c), x);
    }
  }

  lemma VisitAddsUp(w: World, t: nat, c: BotChoice, x: string)
    requires Ready(w, VisitBot(t, c)) && ShotsAddUp(w, x)
    ensures ShotsAddUp(HandleVisit(w, t, c), x)
  {
    var w' := HandleVisit(w, t, c);
    var tickAt, rest := w.tasks[t].tickAt, w.tasks[t].rest;
    if rest == [] {
      TaskDropCounts(w, w', t, x);
      AddUpAfter(w, w', None, x, 0, 0);
    } else {
      var w1 := w.(tasks := w.tasks[t := Visit(tickAt, rest[1..])]);
      TaskSetCounts(w, w1, t, Visit(tickAt, rest[1..]), x);
      AddUpAfter(w, w1, None, x, 0, 0);
      if rest[0] in w.cache.entries {
        if w.cache.entries[rest[0]].hp > 0 {
          BotActsAddsUp(w1, t, rest[0], MovedBot(w.bots[rest[0]], tickAt, c), tickAt, rest[1..], c, x);
        } else if w.cache.entries[rest[0]].deadUntil <= tickAt {
          var w2 := BotRevives(w1, rest[0], tickAt, SpawnPos(c.draws));
          NothingNewCounts(w1, w2, x);
          AddUpAfter(w1, w2, Some(Respawn(rest[0], SpawnPos(c.draws), FULL_HP)), x, 0, 0);
        }
      }
    }
  }

  lemma StartAddsUp(w: World, x: string)
    requires ShotsAddUp(w, x) && w.nextTask !in w.tasks
    ensures ShotsAddUp(HandleStartBots(w), x)
  {
    TaskSetCounts(w, HandleStartBots(w), w.nextTask, Visit(w.now, w.roster), x);
    AddUpAfter(w, HandleStartBots(w), None, x, 0, 0);
  }

  lemma SettleAddsUp(w: World, t: nat, x: string)
    requires Ready(w, SettleBot(t)) && ShotsAddUp(w, x)
    ensures ShotsAddUp(HandleSettle(w, t), x)
  {
    TaskSetCounts(w, HandleSettle(w, t), t, Visit(w.tasks[t].tickAt, w.tasks[t].rest), x);
    AddUpAfter(w, HandleSettle(w, t), None, x, 0, 0);
  }

  lemma OtherStepsAddUp(w: World, a: Action, x: string)
    requires Ready(w, a) && ShotsAddUp(w, x)
    requires !a.ResumeFlight? && !a.ResumeDoom? && !a.OnSnowball? && !a.VisitBot? && !a.StartBots? && !a.SettleBot?
    ensures ShotsAddUp(Step(w, a), x)
  {
    var body := StepLogs(w, a);
    OtherStepsKeepTasks(w, a);
    NothingNewCounts(w, Step(w, a), x);
    AddUpAfter(w, Step(w, a), body, x, 0, 0);
  }

  lemma OtherStepsKeepTasks(w: World, a: Action)
    requires Ready(w, a)
    requires !a.ResumeFlight? && !a.ResumeDoom? && !a.OnSnowball? && !a.VisitBot? && !a.StartBots? && !a.SettleBot?
    ensures Step(w, a).tasks == w.tasks
  {}

  lemma StepAddsUp(w: World, a: Action, x: string)
    requires TasksOk(w) && Enabled(w, a) && ShotsAddUp(w, x)
    ensures ShotsAddUp(Step(w, a), x)
  {
    assert w.nextTask !in w.tasks;
    match a
    case ResumeFlight(t) => FlightAddsUp(w, t, x);
    case ResumeDoom(t, killId) => DoomAddsUp(w, t, killId, x);
    case OnSnowball(id, dir, len, msgId, uuid) => SnowballAddsUp(w, id, dir, len, msgId, uuid, x);
    case VisitBot(t, c) => VisitAddsUp(w, t, c, x);
    case StartBots => StartAddsUp(w, x);
    case SettleBot(t) => SettleAddsUp(w, t, x);
    case _ => OtherStepsAddUp(w, a, x);
  }

  lemma {:induction false} RunAddsUp(w: World, acts: seq<Action>, x: string)
    requires Sane(w) && Runs(w, acts) && ShotsAddUp(w, x)
    ensures ShotsAddUp(After(w, acts), x)
    decreases |acts|
  {
    if acts != [] {
      StepKeepsSane(w, acts[0]);
      StepAddsUp(w, acts[0], x);
      RunAddsUp(Step(w, acts[0]), acts[1..], x);
    }
  }

  // --- every accepted shot is thrown, unless its shooter is gone ---

  function ClientThrow(x: string): Body -> bool { (b: Body) => b.Snowball? && b.id == x && !IsBotId(b.ownerId) }

  function CountAccepted(accepted: seq<ShotFilter.Acceptance>, x: string): nat {
    if |accepted| == 0 then 0
    else CountAccepted(accepted[..|accepted| - 1], x) + (if accepted[|accepted| - 1].shotId == x then 1 else 0)
  }

  /** The step accepts a shot under id `x`. */
  predicate Accepts(w: World, a: Action, x: string) {
    a.OnSnowball? && a.dir.Some? && ShotIdOf(a) == x && !ShotFilter.Refuses(w.shots, x, w.now)
  }

  /** The step accepts a shot under id `x` from a client who has no snapshot. */
  predicate Misfires(w: World, a: Action, x: string) {
    Accepts(w, a, x) && a.id !in w.cache.entries
  }

  ghost function Misfired(w: World, acts: seq<Action>, x: string): nat
    requires Runs(w, acts)
    decreases |acts|
  {
    if acts == [] then 0 else (if Misfires(w, acts[0], x) then 1 else 0) + Misfired(Step(w, acts[0]), acts[1..], x)
  }

  lemma AcceptCounts(b: ShotFilter.ShotBook, id: string, now: int, x: string)
    ensures CountAccepted(ShotFilter.Accept(b, id, now).accepted, x) == CountAccepted(b.accepted, x) + (if id == x then 1 else 0)
  {
    assert (b.accepted + [ShotFilter.Acceptance(id, now)])[..|b.accepted|] == b.accepted;
  }

  lemma StepAccepts(w: World, a: Action, x: string)
    requires Ready(w, a)
    ensures CountAccepted(Step(w, a).shots.accepted, x) == CountAccepted(w.shots.accepted, x) + (if Accepts(w, a, x) then 1 else 0)
  {
    StepShots(w, a);
    if a.OnSnowball? { AcceptCounts(w.shots, ShotIdOf(a), w.now, x); }
  }

  lemma StepThrows(w: World, a: Action, x: string)
    requires Ready(w, a) && TasksOk(w) && NamesOk(w)
    ensures CountEvents(Step(w, a).log.history, ClientThrow(x))
            == CountEvents(w.log.history, ClientThrow(x)) + (if Accepts(w, a, x) && !Misfires(w, a, x) then 1 else 0)
  {
    var body := StepLogs(w, a);
    if a.VisitBot? { assert TaskOk(w, w.tasks[a.t]); }
    assert (body.Some? && ClientThrow(x)(body.value)) <==> (Accepts(w, a, x) && !Misfires(w, a, x));
  }

  lemma {:induction false} RunThrows(w: World, acts: seq<Action>, x: string)
    requires Sane(w) && Runs(w, acts) && NamesOk(w)
    ensures CountAccepted(After(w, acts).shots.accepted, x) - CountEvents(After(w, acts).log.history, ClientThrow(x))
            == CountAccepted(w.shots.accepted, x) - CountEvents(w.log.history, ClientThrow(x)) + Misfired(w, acts, x)
    decreases |acts|
  {
    if acts != [] {
      StepAccepts(w, acts[0], x);
      StepThrows(w, acts[0], x);
      StepKeepsSane(w, acts[0]);
      StepKeepsNames(w, acts[0]);
      RunThrows(Step(w, acts[0]), acts[1..], x);
    }
  }

  /**
    Shot conservation, in every run and for every shot id: every accepted client shot threw a snowball,
    except those whose shooter had no snapshot; hits and flights do not exceed snowballs; deaths and
    suspended deaths are the lethal hits.
   */
  lemma ShotConservation(w0: World, acts: seq<Action>, x: string)
    requires Initial(w0) && Runs(w0, acts)
    ensures var w := After(w0, acts);
            && CountAccepted(w.shots.accepted, x) == CountEvents(w.log.history, ClientThrow(x)) + Misfired(w0, acts, x)
            && ShotsAddUp(w, x)
  {
    InitialIsSane(w0);
    InitialNames(w0);
    assert InFlight(w0, x) == {} && Pending(w0, x) == {};
    RunThrows(w0, acts, x);
    RunAddsUp(w0, acts, x);
  }

  // --- deduplication, seen in the event stream ---

  predicate ThrownByClient(w: World, e: Event) {
    e.body.Snowball? && e.body.ownerId !in w.bots
  }

  /** Each snowball event of a client stems from an acceptance at that moment; two under one id are 10 s apart. */
  ghost predicate ThrowsDeduplicated(w: World) {
    var h := w.log.history;
    && (forall i :: 0 <= i < |h| && ThrownByClient(w, h[i]) ==> ShotFilter.Acceptance(h[i].body.id, h[i].at) in w.shots.accepted)
    && (forall i, j :: 0 <= i < j < |h| && ThrownByClient(w, h[i]) && ThrownByClient(w, h[j]) && h[i].body.id == h[j].body.id ==>
          h[i].at + 10000 <= h[j].at)
  }

  lemma QuietThrows(w: World, w': World, body: Option<Body>)
    requires ThrowsDeduplicated(w) && LogIs(w, w', body) && w'.bots.Keys == w.bots.Keys
    requires forall x :: x in w.shots.accepted ==> x in w'.shots.accepted
    requires body.Some? && body.value.Snowball? ==> body.value.ownerId in w.bots
    ensures ThrowsDeduplicated(w')
  {}

  /** A throw that the filter lets through comes 10 s after any earlier one under its id. */
  lemma FreshThrow(w: World, w': World, body: Body)
    requires ThrowsDeduplicated(w) && Logged(w, w', body) && w'.bots.Keys == w.bots.Keys && body.Snowball?
    requires ShotFilter.BookOk(w.shots, w.now) && !ShotFilter.Refuses(w.shots, body.id, w.now)
    requires w'.shots == ShotFilter.Accept(w.shots, body.id, w.now)
    ensures ThrowsDeduplicated(w')
  {
    var h, h' := w.log.history, w'.log.history;
    ShotFilter.RefusedIffRecent(w.shots, body.id, w.now);
    forall i | 0 <= i < |h'| && ThrownByClient(w', h'[i])
      ensures ShotFilter.Acceptance(h'[i].body.id, h'[i].at) in w'.shots.accepted
    {
      if i < |h| { assert ThrownByClient(w, h[i]); }
    }
    forall i, j | 0 <= i < j < |h'| && ThrownByClient(w', h'[i]) && ThrownByClient(w', h'[j]) && h'[i].body.id == h'[j].body.id
      ensures h'[i].at + 10000 <= h'[j].at
    {
      assert ThrownByClient(w, h[i]);
      if j < |h| {
        assert ThrownByClient(w, h[j]);
      } else {
        AcceptedLongAgo(w.shots, body.id, h[i].at, w.now);
      }
    }
  }

  lemma AcceptedLongAgo(b: ShotFilter.ShotBook, id: string, at: int, now: int)
    requires ShotFilter.Acceptance(id, at) in b.accepted && !ShotFilter.RecentlyAccepted(b, id, now)
    ensures at + 10000 <= now
  {}

  lemma StepKeepsThrows(w: World, a: Action)
    requires Ready(w, a) && ThrowsDeduplicated(w) && ShotFilter.BookOk(w.shots, w.now)
    ensures ThrowsDeduplicated(Step(w, a))
  {
    var w' := Step(w, a);
    var body := StepLogs(w, a);
    StepFrame(w, a);
    StepShots(w, a);
    if a.OnSnowball? && body.Some? {
      FreshThrow(w, w', body.value);
    } else {
      QuietThrows(w, w', body);
    }
  }

  lemma {:induction false} RunKeepsThrows(w: World, acts: seq<Action>)
    requires Runs(w, acts) && BooksOk(w) && ThrowsDeduplicated(w)
    ensures ThrowsDeduplicated(After(w, acts))
    decreases |acts|
  {
    if acts != [] {
      StepKeepsThrows(w, acts[0]);
      StepKeepsBooks(w, acts[0]);
      RunKeepsThrows(Step(w, acts[0]), acts[1..]);
    }
  }

  /**
    Deduplication over whole runs, whatever the schedule of the collector: an id is refused exactly
    when it was accepted less than 10 s ago, and snowball events of clients under one id are 10 s apart.
   */
  lemma ShotDeduplication(w0: World, acts: seq<Action>, x: string)
    requires Initial(w0) && Runs(w0, acts)
    ensures var w := After(w0, acts);
            && (ShotFilter.Refuses(w.shots, x, w.now) <==> ShotFilter.RecentlyAccepted(w.shots, x, w.now))
            && ShotFilter.Spaced(w.shots)
            && ThrowsDeduplicated(w)
  {
    RunKeepsBooks(w0, acts);
    RunKeepsThrows(w0, acts);
    ShotFilter.RefusedIffRecent(After(w0, acts).shots, x, After(w0, acts).now);
  }

  /** The events are a suffix of the history: exactly those that are at most 120 s older than the newest. */
  ghost predicate LastTwoMinutes(events: seq<Event>, h: seq<Event>) {
    && |events| <= |h|
    && (forall i :: 0 <= i < |events| ==> events[i] == h[|h| - |events| + i])
    && (forall i :: 0 <= i < |h| ==> (i >= |h| - |events| <==> h[i].at >= h[|h| - 1].at - 120000))
  }

  /** In every run the event window is a contiguous numbered suffix of history, namely the last two minutes of it. */
  lemma EventWindow(w0: World, acts: seq<Action>)
    requires Initial(w0) && Runs(w0, acts)
    ensures EventLog.LogOk(After(w0, acts).log)
    ensures LastTwoMinutes(After(w0, acts).log.events, After(w0, acts).log.history)
  {
    RunKeepsBooks(w0, acts);
    WindowIsRecent(After(w0, acts).log);
  }

  lemma WindowIsRecent(l: EventLog.Log)
    requires EventLog.LogOk(l)
    ensures LastTwoMinutes(l.events, l.history)
  {
    var h, events := l.history, l.events;
    forall i | 0 <= i < |h| ensures i >= |h| - |events| <==> h[i].at >= h[|h| - 1].at - 120000 {
      if i >= |h| - |events| { assert events[i - (|h| - |events|)] == h[i]; }
    }
  }

  // --- the kill ledger and the event stream ---

  predicate IsClientKill(e: Event) {
    e.body.Death? && !IsBotId(e.body.attackerId)
  }

  predicate SameKill(r: KillLedger.KillRecord, e: Event)
    requires e.body.Death?
  {
    && r.attackerId == e.body.attackerId && r.attackerName == e.body.attackerName
    && r.victimId == e.body.victimId && r.victimName == e.body.victimName
    && r.shotId == e.body.shotId && r.timestamp == e.at
  }

  /** The rows are the deaths of the history that have a human attacker, in order. */
  ghost predicate RowsFor(rows: seq<KillLedger.KillRecord>, h: seq<Event>)
    decreases |h|
  {
    if |h| == 0 then rows == []
    else if IsClientKill(h[|h| - 1]) then
      |rows| > 0 && SameKill(rows[|rows| - 1], h[|h| - 1]) && RowsFor(rows[..|rows| - 1], h[..|h| - 1])
    else RowsFor(rows, h[..|h| - 1])
  }

  lemma RowsAppend(rows: seq<KillLedger.KillRecord>, h: seq<Event>, e: Event, r: KillLedger.KillRecord)
    requires RowsFor(rows, h)
    ensures !IsClientKill(e) ==> RowsFor(rows, h + [e])
    ensures IsClientKill(e) && SameKill(r, e) ==> RowsFor(rows + [r], h + [e])
  {}

  /** The ledger is what it was before the run, followed by the kills of the run. */
  ghost predicate LedgerFollows(base: seq<KillLedger.KillRecord>, rows: seq<KillLedger.KillRecord>, w: World) {
    NamesOk(w) && w.ledger.all == base + rows && RowsFor(rows, w.log.history)
  }

  lemma KillFollows(base: seq<KillLedger.KillRecord>, rows: seq<KillLedger.KillRecord>, w: World, w': World, e: Event, r: KillLedger.KillRecord)
    requires LedgerFollows(base, rows, w) && NamesOk(w') && w'.log.history == w.log.history + [e]
    requires w'.ledger.all == w.ledger.all + [r] && IsClientKill(e) && SameKill(r, e)
    ensures LedgerFollows(base, rows + [r], w')
  {
    RowsAppend(rows, w.log.history, e, r);
    assert w'.ledger.all == base + (rows + [r]);
  }

  lemma OtherEventFollows(base: seq<KillLedger.KillRecord>, rows: seq<KillLedger.KillRecord>, w: World, w': World, e: Event)
    requires LedgerFollows(base, rows, w) && NamesOk(w') && w'.log.history == w.log.history + [e]
    requires w'.ledger.all == w.ledger.all && !IsClientKill(e)
    ensures LedgerFollows(base, rows, w')
  {
    RowsAppend(rows, w.log.history, e, KillLedger.KillRecord("", "", "", "", "", "", 0));
  }

  lemma DoomLogs(w: World, t: nat, killId: string)
    requires Ready(w, ResumeDoom(t, killId))
    ensures var w' := HandleDoom(w, t, killId);
            && w'.log.history == w.log.history + [Event(w.log.latestSeq + 1, w.now, DeathBody(w, w.tasks[t]))]
            && w'.ledger.all == if w.tasks[t].turn.Human? then w.ledger.all + [KillRow(w, w.tasks[t], killId)] else w.ledger.all
  {}

  lemma DoomFollows(base: seq<KillLedger.KillRecord>, rows: seq<KillLedger.KillRecord>, w: World, t: nat, killId: string)
    returns (rows': seq<KillLedger.KillRecord>)
    requires TasksOk(w) && Ready(w, ResumeDoom(t, killId)) && LedgerFollows(base, rows, w)
    ensures LedgerFollows(base, rows', HandleDoom(w, t, killId))
  {
    var d := w.tasks[t];
    var w' := HandleDoom(w, t, killId);
    var e := Event(w.log.latestSeq + 1, w.now, DeathBody(w, d));
    assert TaskOk(w, d);
    DoomLogs(w, t, killId);
    StepKeepsNames(w, ResumeDoom(t, killId));
    if d.turn.Human? {
      rows' := rows + [KillRow(w, d, killId)];
      KillFollows(base, rows, w, w', e, KillRow(w, d, killId));
    } else {
      rows' := rows;
      OtherEventFollows(base, rows, w, w', e);
    }
  }

  lemma NoKillLogged(w: World, a: Action) returns (body: Option<Body>)
    requires Ready(w, a) && !a.ResumeDoom?
    ensures LogIs(w, Step(w, a), body) && (body.Some? ==> !body.value.Death?)
  {
    body := StepLogs(w, a);
  }

  lemma LedgerIsSame(w: World, a: Action)
    requires Ready(w, a) && !a.ResumeDoom?
    ensures Step(w, a).ledger.all == w.ledger.all
  {
    StepLedger(w, a);
  }

  lemma OtherBodyFollows(base: seq<KillLedger.KillRecord>, rows: seq<KillLedger.KillRecord>, w: World, w': World, body: Option<Body>)
    requires LedgerFollows(base, rows, w) && NamesOk(w') && LogIs(w, w', body) && (body.Some? ==> !body.value.Death?)
    requires w'.ledger.all == w.ledger.all
    ensures LedgerFollows(base, rows, w')
  {
    if body.Some? { OtherEventFollows(base, rows, w, w', Event(w.log.latestSeq + 1, w.now, body.value)); }
  }

  lemma OtherStepFollows(base: seq<KillLedger.KillRecord>, rows: seq<KillLedger.KillRecord>, w: World, a: Action)
    requires Ready(w, a) && LedgerFollows(base, rows, w) && !a.ResumeDoom?
    ensures LedgerFollows(base, rows, Step(w, a))
  {
    LedgerIsSame(w, a);
    StepKeepsNames(w, a);
    var body := NoKillLogged(w, a);
    OtherBodyFollows(base, rows, w, Step(w, a), body);
  }

  lemma StepFollows(base: seq<KillLedger.KillRecord>, rows: seq<KillLedger.KillRecord>, w: World, a: Action)
    returns (rows': seq<KillLedger.KillRecord>)
    requires TasksOk(w) && Ready(w, a) && LedgerFollows(base, rows, w)
    ensures LedgerFollows(base, rows', Step(w, a))
  {
    if a.ResumeDoom? {
      rows' := DoomFollows(base, rows, w, a.t, a.killId);
    } else {
      rows' := rows;
      OtherStepFollows(base, rows, w, a);
    }
  }

  lemma {:induction false} RunFollows(base: seq<KillLedger.KillRecord>, rows: seq<KillLedger.KillRecord>, w: World, acts: seq<Action>)
    returns (rows': seq<KillLedger.KillRecord>)
    requires Sane(w) && Runs(w, acts) && LedgerFollows(base, rows, w)
    ensures LedgerFollows(base, rows', After(w, acts))
    decreases |acts|
  {
    if acts == [] {
      rows' := rows;
    } else {
      StepKeepsSane(w, acts[0]);
      var rows1 := StepFollows(base, rows, w, acts[0]);
      rows' := RunFollows(base, rows1, Step(w, acts[0]), acts[1..]);
    }
  }

  function KillerIs(name: string): Body -> bool { (b: Body) => b.Death? && !IsBotId(b.attackerId) && b.attackerName == name }
  function VictimIs(name: string): Body -> bool { (b: Body) => b.Death? && !IsBotId(b.attackerId) && b.victimName == name }
  function ByClient(): Body -> bool { (b: Body) => b.Death? && !IsBotId(b.attackerId) }

  lemma {:induction false} RowCounts(rows: seq<KillLedger.KillRecord>, h: seq<Event>, name: string)
    requires RowsFor(rows, h)
    ensures KillLedger.KillsBy(rows, name) == CountEvents(h, KillerIs(name))
    ensures KillLedger.DeathsOf(rows, name) == CountEvents(h, VictimIs(name))
    ensures |rows| == CountEvents(h, ByClient())
    decreases |h|
  {
    if |h| > 0 {
      RowCounts(if IsClientKill(h[|h| - 1]) then rows[..|rows| - 1] else rows, h[..|h| - 1], name);
    }
  }

  lemma {:induction false} CountsSplit(base: seq<KillLedger.KillRecord>, rows: seq<KillLedger.KillRecord>, name: string)
    ensures KillLedger.KillsBy(base + rows, name) == KillLedger.KillsBy(base, name) + KillLedger.KillsBy(rows, name)
    ensures KillLedger.DeathsOf(base + rows, name) == KillLedger.DeathsOf(base, name) + KillLedger.DeathsOf(rows, name)
  {
    if rows == [] {
      assert base + rows == base;
    } else {
      CountsSplit(base, rows[..|rows| - 1], name);
      assert (base + rows)[..|base + rows| - 1] == base + rows[..|rows| - 1];
    }
  }

  function KillsIn(stats: map<string, KillLedger.PlayerStats>, name: string): nat { if name in stats then stats[name].kills else 0 }
  function DeathsIn(stats: map<string, KillLedger.PlayerStats>, name: string): nat { if name in stats then stats[name].deaths else 0 }

  /**
    Kill ledger agreement: over any run, the kills and deaths of every name grow by the number of
    death events with a human attacker that carry the name, also when attacker and victim share
    it; total kills and total deaths grow by the number of such events; and no cleanup ever
    changes a leaderboard count for a window of at most 720 hours.
   */
  lemma KillLedgerAgreement(w0: World, acts: seq<Action>, name: string, hours: real)
    requires Initial(w0) && Runs(w0, acts) && hours <= 720.0
    ensures var w := After(w0, acts);
            var since := w.now as real - hours * 60.0 * 60.0 * 1000.0;
            && KillsIn(w.ledger.stats, name) == KillsIn(w0.ledger.stats, name) + CountEvents(w.log.history, KillerIs(name))
            && DeathsIn(w.ledger.stats, name) == DeathsIn(w0.ledger.stats, name) + CountEvents(w.log.history, VictimIs(name))
            && KillLedger.TotalKills(w.ledger.stats) == KillLedger.TotalKills(w0.ledger.stats) + CountEvents(w.log.history, ByClient())
            && KillLedger.TotalDeaths(w.ledger.stats) == KillLedger.TotalDeaths(w0.ledger.stats) + CountEvents(w.log.history, ByClient())
            && KillLedger.KillsSince(w.ledger.kills, name, since) == KillLedger.KillsSince(w.ledger.all, name, since)
  {
    var w := After(w0, acts);
    InitialIsSane(w0);
    InitialNames(w0);
    assert w0.ledger.all + [] == w0.ledger.all;
    var rows := RunFollows(w0.ledger.all, [], w0, acts);
    RunKeepsBooks(w0, acts);
    assert KillLedger.StatsMatch(w.ledger.stats, w.ledger.all, name);
    assert KillLedger.StatsMatch(w0.ledger.stats, w0.ledger.all, name);
    CountsSplit(w0.ledger.all, rows, name);
    RowCounts(rows, w.log.history, name);
    KillLedger.LeaderboardIsExact(w.ledger, w.now, name, hours);
  }
}
