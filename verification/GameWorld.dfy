/**
  The authoritative game server as a step system.

  JavaScript runs one synchronous segment at a time, so a run of the server is a
  sequence of segments cut at `await`.  A `World` is everything those segments
  share; a suspended handler is a `Task` that waits to be resumed; an `Action`
  names the next segment together with what the outside supplies to it (a
  message, random choices, the values of hypot and sqrt).  `Step` is the effect.
 */
module GameWorld {
  import opened Protocol
  import opened OrderedMap
  import opened Ballistics
  import opened BotMotion
  import EventLog
  import ShotFilter
  import KillLedger

  const BOT_IDS: seq<Id> := ["bot-0", "bot-1", "bot-2", "bot-3", "bot-4"]

  const BOT_NAMES: seq<string> :=
    ["\U{96EA}\U{4EBA}Bot-1", "\U{96EA}\U{4EBA}Bot-2", "\U{96EA}\U{4EBA}Bot-3", "\U{96EA}\U{4EBA}Bot-4", "\U{96EA}\U{4EBA}Bot-5"]

  /** Who is behind a suspended shot: a client message, or one turn of a running `updateBots` call. */
  datatype Turn =
    | Human
    | BotTurn(bot: Id, before: Snapshot, tickAt: int, rest: seq<Id>)

  /** A handler suspended at an `await`, with the variables it will use when it resumes. */
  datatype Task =
    | Flight(owner: Id, shotId: string, origin: Vec3, dir: Vec3, turn: Turn)
    | Doom(attackerId: Id, victimId: Id, victimName: string, shotId: string, respawnAt: int, hitAt: int, turn: Turn)
    | Visit(tickAt: int, rest: seq<Id>)
    | Settle(bot: Id, before: Snapshot, shotAt: Option<int>, tickAt: int, rest: seq<Id>)

  /**
    `names` holds the name field of every connection record ever made, `online` the ids
    still registered in `clients`, `roster` the bots in iteration order, `lastTick` the start time of the last finished `updateBots`.
   */
  datatype World = World(
    now: int,
    cache: Dict<Snapshot>,
    online: set<Id>,
    names: map<Id, string>,
    log: EventLog.Log,
    shots: ShotFilter.ShotBook,
    ledger: KillLedger.Ledger,
    bots: map<Id, Bot>,
    roster: seq<Id>,
    tasks: map<nat, Task>,
    nextTask: nat,
    lastTick: int)

  /** The random and numeric values that one bot turn draws. */
  datatype BotChoice = BotChoice(
    draws: Draws, dist: real, yaw: real, aimYaw: real, aimLen: real, shotId: string)

  datatype Action =
    | Pass(until: int)
    | OnHello(id: Id, name: string, spawn: Vec3, askedAt: int)
    | OnClose(id: Id)
    | OnState(id: Id, msg: StateMsg, spawn: Vec3)
    | OnRename(id: Id, raw: string, clamped: string)
    | OnChat(id: Id, text: string)
    | OnPing(id: Id)
    | OnSnowball(id: Id, dir: Option<Vec3>, len: real, shotId: string, uuid: string)
    | ResumeFlight(t: nat)
    | ResumeDoom(t: nat, killId: string)
    | StartBots
    | VisitBot(t: nat, choice: BotChoice)
    | SettleBot(t: nat)
    | ScanIdle
    | ScanShots
    | ScanKills

  // --- events ---

  function ApplyEvent(cache: Dict<Snapshot>, ev: Event): Dict<Snapshot> {
    var m := cache.entries;
    match ev.body
    case Join(player) => Set(cache, player.id, player)
    case Leave(id, _) => Delete(cache, id)
    case Moved(id, pos, rotY, vel, crouch) =>
      if id !in m then cache
      else Set(cache, id, m[id].(pos := pos, rotY := rotY, vel := vel, crouch := crouch, updatedAt := ev.at))
    case Rename(id, name) =>
      if id !in m then cache else Set(cache, id, m[id].(name := name, updatedAt := ev.at))
    case Respawn(id, pos, hp) =>
      if id !in m then cache else Set(cache, id, m[id].(pos := pos, hp := hp, deadUntil := 0, updatedAt := ev.at))
    case Hit(_, id, victimHp, _) =>
      if id !in m then cache else Set(cache, id, m[id].(hp := victimHp, updatedAt := ev.at))
    case Death(id, _, _, _, _, respawnAt) =>
      if id !in m then cache else Set(cache, id, m[id].(hp := 0, deadUntil := respawnAt, updatedAt := ev.at))
    case Chat(_, _, _) => cache
    case Snowball(_, _, _, _, _) => cache
  }

  /** The synchronous part of appendEventInMem. */
  function Emit(w: World, body: Body): World {
    w.(log := EventLog.Append(w.log, body, w.now),
       cache := ApplyEvent(w.cache, Event(w.log.latestSeq + 1, w.now, body)))
  }

  // --- connections ---

  function Newcomer(id: Id, name: string, spawn: Vec3, askedAt: int): Snapshot {
    Snapshot(id, name, spawn, 0.0, ZERO, FULL_HP, false, 0, askedAt, None)
  }

  function HandleHello(w: World, id: Id, name: string, spawn: Vec3, askedAt: int): World {
    var snap := Newcomer(id, name, spawn, askedAt);
    Emit(w.(online := w.online + {id}, names := w.names[id := name], cache := Set(w.cache, id, snap)), Join(snap))
  }

  function HandleClose(w: World, id: Id): World
    requires id in w.names
  {
    Emit(w.(online := w.online - {id}), Leave(id, w.names[id]))
  }

  function HandleRename(w: World, id: Id, raw: string, clamped: string): World {
    var w1 := w.(names := w.names[id := raw]);
    if clamped == "" then w1
    else
      var w2 := if id in w.cache.entries
                then w1.(cache := Set(w.cache, id, w.cache.entries[id].(name := clamped, updatedAt := w.now))) else w1;
      Emit(w2, Rename(id, clamped))
  }

  function HandleChat(w: World, id: Id, text: string): World
    requires id in w.names
  {
    if text == "" then w else Emit(w, Chat(id, w.names[id], text))
  }

  function HandlePing(w: World, id: Id): World {
    if id in w.cache.entries then w.(cache := Set(w.cache, id, w.cache.entries[id].(updatedAt := w.now))) else w
  }

  // --- state reports: freeze, respawn, move ---

  predicate OffMap(p: Vec3) {
    !InSquare(p, MAP_HALF + 5.0) || p.y > 5000.0 || -p.y > 5000.0
  }

  predicate Dead(w: World, id: Id) {
    id in w.cache.entries && w.cache.entries[id].hp <= 0
  }

  function RevivedSnapshot(s: Snapshot, pos: Vec3, rotY: real, pingMs: Option<real>, now: int): Snapshot {
    s.(pos := pos, rotY := rotY, vel := ZERO, hp := FULL_HP, crouch := false, deadUntil := 0, updatedAt := now,
       pingMs := if pingMs.Some? then pingMs else s.pingMs)
  }

  function Reported(w: World, id: Id, msg: StateMsg): Snapshot
    requires id in w.names && msg.pos.Some? && msg.rotY.Some?
  {
    var known := id in w.cache.entries;
    Snapshot(id, w.names[id], msg.pos.value, msg.rotY.value,
             if msg.vel.Some? then msg.vel.value else ZERO,
             if known then w.cache.entries[id].hp else FULL_HP,
             msg.crouch,
             if known then w.cache.entries[id].deadUntil else 0,
             w.now,
             if msg.pingMs.Some? then msg.pingMs else if known then w.cache.entries[id].pingMs else None)
  }

  function HandleState(w: World, id: Id, msg: StateMsg, spawn: Vec3): World
    requires id in w.names
  {
    if msg.pos.None? || msg.rotY.None? then w
    else if OffMap(msg.pos.value) then w
    else if Dead(w, id) && w.cache.entries[id].deadUntil > w.now then w
    else if Dead(w, id) then
      var revived := RevivedSnapshot(w.cache.entries[id], spawn, msg.rotY.value, msg.pingMs, w.now);
      Emit(w.(cache := Set(w.cache, id, revived)), Respawn(id, spawn, FULL_HP))
    else w.(cache := Set(w.cache, id, Reported(w, id, msg)))
  }

  // --- shots ---

  predicate UuidLike(s: string) {
    8 <= |s| <= 64
  }

  function Muzzle(pos: Vec3): Vec3 {
    Vec3(pos.x, pos.y + 1.3, pos.z)
  }

  function Launch(w: World, t: nat, owner: Id, shotId: string, origin: Vec3, dir: Vec3, turn: Turn): World {
    Emit(w.(tasks := w.tasks[t := Flight(owner, shotId, origin, dir, turn)]),
         Snowball(shotId, owner, origin, dir, SNOWBALL_SPEED))
  }

  /** Up to the first `await` of serverHandleSnowball. */
  function HandleSnowball(w: World, id: Id, dir: Option<Vec3>, len: real, msgId: string, uuid: string): World {
    if dir.None? then w
    else
      var shotId := if UuidLike(msgId) then msgId else uuid;
      if ShotFilter.Refuses(w.shots, shotId, w.now) then w
      else
        var w1 := w.(shots := ShotFilter.Accept(w.shots, shotId, w.now));
        if id !in w.cache.entries then w1
        else
          Launch(w1.(nextTask := w.nextTask + 1), w.nextTask, id, shotId,
                 Muzzle(w.cache.entries[id].pos), Norm(dir.value, len), Human)
  }

  function VictimOf(w: World, f: Task): Option<Snapshot>
    requires f.Flight?
  {
    var players := Values(w.cache);
    var best := FindVictim(players, f.owner, f.origin, Mul(f.dir, SNOWBALL_SPEED), w.now);
    if best.None? then None else Some(players[best.value.index])
  }

  function HpAfterHit(hp: int): int {
    if hp - DAMAGE > 0 then hp - DAMAGE else 0
  }

  function Wounded(victim: Snapshot, now: int): Snapshot {
    var hp := HpAfterHit(victim.hp);
    victim.(hp := hp, deadUntil := if hp == 0 then now + RESPAWN_MS else victim.deadUntil, updatedAt := now)
  }

  /** A shot is over: a client's handler ends, a bot's turn goes on to its write-back. */
  function EndShot(w: World, t: nat, turn: Turn, shotAt: Option<int>): World {
    match turn
    case Human => w.(tasks := w.tasks - {t})
    case BotTurn(bot, before, tickAt, rest) => w.(tasks := w.tasks[t := Settle(bot, before, shotAt, tickAt, rest)])
  }

  function HandleMiss(w: World, t: nat): World
    requires t in w.tasks && w.tasks[t].Flight? && TurnOk(w, w.tasks[t].turn)
  {
    var f := w.tasks[t];
    var w1 := if f.turn.BotTurn? then w.(bots := w.bots[f.turn.bot := w.bots[f.turn.bot].(lastShotAt := w.now as real)]) else w;
    EndShot(w1, t, f.turn, None)
  }

  function AfterHit(w: World, f: Task, victim: Snapshot): World
    requires f.Flight?
  {
    Emit(w.(cache := Set(w.cache, victim.id, Wounded(victim, w.now))), Hit(f.owner, victim.id, HpAfterHit(victim.hp), f.shotId))
  }

  /** A lethal hit leaves the death to the next segment. */
  function StruckTask(w: World, t: nat, victim: Snapshot): World
    requires t in w.tasks && w.tasks[t].Flight?
  {
    var f := w.tasks[t];
    if HpAfterHit(victim.hp) == 0
    then w.(tasks := w.tasks[t := Doom(f.owner, victim.id, victim.name, f.shotId, w.now + RESPAWN_MS, w.now, f.turn)])
    else EndShot(w, t, f.turn, Some(w.now))
  }

  function HandleStrike(w: World, t: nat, victim: Snapshot): World
    requires t in w.tasks && w.tasks[t].Flight?
  {
    StruckTask(AfterHit(w, w.tasks[t], victim), t, victim)
  }

  /** From the first to the second `await`: the hit search, the damage and the hit event. */
  function HandleFlight(w: World, t: nat): World
    requires t in w.tasks && w.tasks[t].Flight? && TurnOk(w, w.tasks[t].turn)
  {
    var v := VictimOf(w, w.tasks[t]);
    if v.None? then HandleMiss(w, t) else HandleStrike(w, t, v.value)
  }

  function AttackerName(w: World, d: Task): string
    requires d.Doom? && TurnOk(w, d.turn)
  {
    if d.turn.BotTurn? then w.bots[d.turn.bot].name
    else if d.attackerId in w.cache.entries && w.cache.entries[d.attackerId].name != "" then w.cache.entries[d.attackerId].name
    else "Unknown"
  }

  function KillRow(w: World, d: Task, killId: string): KillLedger.KillRecord
    requires d.Doom? && TurnOk(w, d.turn)
  {
    KillLedger.KillRecord(killId, d.attackerId, AttackerName(w, d), d.victimId, d.victimName, d.shotId, w.now)
  }

  function DeathBody(w: World, d: Task): Body
    requires d.Doom? && TurnOk(w, d.turn)
  {
    Death(d.victimId, d.victimName, d.attackerId, AttackerName(w, d), d.shotId, d.respawnAt)
  }

  /** After the second `await` of a lethal shot: the kill record of a human attacker and the death event. */
  function HandleDoom(w: World, t: nat, killId: string): World
    requires t in w.tasks && w.tasks[t].Doom? && TurnOk(w, w.tasks[t].turn)
  {
    var d := w.tasks[t];
    var w1 := if d.turn.Human? then w.(ledger := KillLedger.Record(w.ledger, KillRow(w, d, killId))) else w;
    EndShot(Emit(w1, DeathBody(w, d)), t, d.turn, Some(d.hitAt))
  }

  // --- bots ---

  predicate TurnOk(w: World, turn: Turn) {
    turn.BotTurn? ==> turn.bot in w.bots
  }

  function HandleStartBots(w: World): World {
    w.(tasks := w.tasks[w.nextTask := Visit(w.now, w.roster)], nextTask := w.nextTask + 1)
  }

  /** The last lines of a bot's turn: the snapshot read at its start is written back with the new pose. */
  function WriteBack(w: World, bot: Id, before: Snapshot, tickAt: int): World
    requires bot in w.bots
  {
    var b := w.bots[bot];
    w.(cache := Set(w.cache, bot, before.(pos := b.pos, rotY := b.rotY, vel := b.vel, updatedAt := tickAt)))
  }

  function MovedBot(b: Bot, tickAt: int, c: BotChoice): Bot {
    Advance(Retarget(b, tickAt, MoveTarget(b.pos, c.draws)), c.dist, c.draws.height, c.yaw)
  }

  predicate DistOk(b: Bot, tickAt: int, c: BotChoice) {
    var r := Retarget(b, tickAt, MoveTarget(b.pos, c.draws));
    r.target.Some? ==> IsDist(c.dist, r.pos, r.target.value)
  }

  /** From a bot's muzzle to one unit above the feet of its target. */
  function AimVector(bot: Vec3, target: Vec3): Vec3 {
    Vec3(target.x - bot.x, (target.y + 1.0) - (bot.y + 1.3), target.z - bot.z)
  }

  /** The bot's position object is shared with its snapshot, so walking moves the cached snapshot at once. */
  function WalkBot(w: World, bot: Id, b: Bot): World
    requires bot in w.bots && bot in w.cache.entries
  {
    w.(bots := w.bots[bot := b], cache := Set(w.cache, bot, w.cache.entries[bot].(pos := b.pos)))
  }

  /** A living bot's turn, `b` being where it walks: shoot when it is time and there is a target, else write back. */
  function BotActs(w: World, t: nat, bot: Id, b: Bot, tickAt: int, rest: seq<Id>, c: BotChoice): World
    requires bot in w.bots && bot in w.cache.entries
  {
    var before := w.cache.entries[bot];
    var w1 := WalkBot(w, bot, b);
    if tickAt as real - b.lastShotAt > SHOT_INTERVAL then
      var players := Values(w1.cache);
      var target := Nearest(players, b.pos);
      if target.None? then
        WriteBack(w1.(bots := w1.bots[bot := b.(lastShotAt := tickAt as real)]), bot, before, tickAt)
      else
        Launch(w1.(bots := w1.bots[bot := b.(rotY := c.aimYaw)]), t, bot, c.shotId, Muzzle(b.pos),
               Norm(AimVector(b.pos, players[target.value].pos), c.aimLen), BotTurn(bot, before, tickAt, rest))
    else WriteBack(w1, bot, before, tickAt)
  }

  function BotRevives(w: World, bot: Id, tickAt: int, spawn: Vec3): World
    requires bot in w.bots && bot in w.cache.entries
  {
    var snap := w.cache.entries[bot].(pos := spawn, hp := FULL_HP, deadUntil := 0, updatedAt := tickAt);
    var b := w.bots[bot].(pos := spawn, hp := FULL_HP, vel := ZERO, target := None);
    Emit(w.(bots := w.bots[bot := b], cache := Set(w.cache, bot, snap)), Respawn(bot, spawn, FULL_HP))
  }

  predicate VisitReady(w: World, t: nat)
    requires t in w.tasks && w.tasks[t].Visit?
  {
    w.tasks[t].rest != [] ==> w.tasks[t].rest[0] in w.bots
  }

  /** One iteration of the loop of updateBots, up to its first `await`. */
  function HandleVisit(w: World, t: nat, c: BotChoice): World
    requires t in w.tasks && w.tasks[t].Visit? && VisitReady(w, t)
  {
    var tickAt, rest := w.tasks[t].tickAt, w.tasks[t].rest;
    if rest == [] then w.(tasks := w.tasks - {t}, lastTick := tickAt)
    else
      var bot := rest[0];
      var w1 := w.(tasks := w.tasks[t := Visit(tickAt, rest[1..])]);
      if bot !in w.cache.entries then w1
      else if w.cache.entries[bot].hp <= 0 && w.cache.entries[bot].deadUntil <= tickAt then BotRevives(w1, bot, tickAt, SpawnPos(c.draws))
      else if w.cache.entries[bot].hp <= 0 then w1
      else BotActs(w1, t, bot, MovedBot(w.bots[bot], tickAt, c), tickAt, rest[1..], c)
  }

  function HandleSettle(w: World, t: nat): World
    requires t in w.tasks && w.tasks[t].Settle? && w.tasks[t].bot in w.bots
  {
    var s := w.tasks[t];
    var b := w.bots[s.bot];
    var w1 := if s.shotAt.Some? then w.(bots := w.bots[s.bot := b.(lastShotAt := s.shotAt.value as real)]) else w;
    WriteBack(w1, s.bot, s.before, s.tickAt).(tasks := w.tasks[t := Visit(s.tickAt, s.rest)])
  }

  // --- timers ---

  predicate Idle(w: World, id: Id) {
    id in w.cache.entries && id !in w.online && w.now - w.cache.entries[id].updatedAt > CLEANUP_IDLE_MS
  }

  /** The keys of `ids` whose players are idle and offline. */
  function IdleAmong(w: World, ids: seq<Id>): (r: seq<Id>)
    ensures forall id :: id in r <==> id in ids && Idle(w, id)
  {
    if |ids| == 0 then []
    else
      var last := |ids| - 1;
      assert ids == ids[..last] + [ids[last]];
      IdleAmong(w, ids[..last]) + (if Idle(w, ids[last]) then [ids[last]] else [])
  }

  function HandleScanIdle(w: World): World {
    w.(cache := Sweep(w.cache, IdleAmong(w, w.cache.order)))
  }

  // --- the step function ---

  predicate SpawnOk(p: Vec3) {
    InSquare(p, 20.0) && p.y == 0.0
  }

  /** `aimLen` is the length of the vector from the bot, at its new place, to the nearest living human. */
  predicate AimOk(w: World, bot: Id, b: Bot, c: BotChoice)
    requires bot in w.bots && bot in w.cache.entries
  {
    var players := Values(WalkBot(w, bot, b).cache);
    var target := Nearest(players, b.pos);
    target.Some? ==> IsHypot(c.aimLen, AimVector(b.pos, players[target.value].pos))
  }

  /** The values of a bot's turn are ones that the source can draw or compute. */
  ghost predicate ChoiceOk(w: World, bot: Id, tickAt: int, c: BotChoice)
    requires bot in w.bots && bot in w.cache.entries
  {
    && DrawsOk(c.draws)
    && DistOk(w.bots[bot], tickAt, c)
    && AimOk(w, bot, MovedBot(w.bots[bot], tickAt, c), c)
  }

  /** The segment can run: the message is from a connection, the handler is suspended at this point. */
  predicate Ready(w: World, a: Action) {
    match a
    case Pass(until) => until >= w.now
    case OnHello(id, _, spawn, askedAt) =>
      id !in w.names && id !in w.bots && !IsBotId(id) && SpawnOk(spawn) && 0 <= askedAt <= w.now
    case OnClose(id) => id in w.online && id in w.names
    case OnState(id, _, spawn) => id in w.names && SpawnOk(spawn)
    case OnRename(id, _, _) => id in w.names
    case OnChat(id, _) => id in w.names
    case OnPing(id) => id in w.names
    case OnSnowball(id, _, _, _, _) => id in w.names
    case ResumeFlight(t) => t in w.tasks && w.tasks[t].Flight? && TurnOk(w, w.tasks[t].turn)
    case ResumeDoom(t, _) => t in w.tasks && w.tasks[t].Doom? && TurnOk(w, w.tasks[t].turn)
    case StartBots => true
    case VisitBot(t, _) => t in w.tasks && w.tasks[t].Visit? && VisitReady(w, t)
    case SettleBot(t) => t in w.tasks && w.tasks[t].Settle? && w.tasks[t].bot in w.bots
    case ScanIdle => true
    case ScanShots => true
    case ScanKills => true
  }

  /** The segment can run, and the numbers it is given are ones that the source can compute or draw. */
  ghost predicate Enabled(w: World, a: Action) {
    && Ready(w, a)
    && (a.OnSnowball? && a.dir.Some? ==> IsHypot(a.len, a.dir.value))
    && (a.VisitBot? && w.tasks[a.t].rest != [] && w.tasks[a.t].rest[0] in w.cache.entries ==>
          ChoiceOk(w, w.tasks[a.t].rest[0], w.tasks[a.t].tickAt, a.choice))
  }

  function Step(w: World, a: Action): World
    requires Ready(w, a)
  {
    match a
    case Pass(until) => w.(now := until)
    case OnHello(id, name, spawn, askedAt) => HandleHello(w, id, name, spawn, askedAt)
    case OnClose(id) => HandleClose(w, id)
    case OnState(id, msg, spawn) => HandleState(w, id, msg, spawn)
    case OnRename(id, raw, clamped) => HandleRename(w, id, raw, clamped)
    case OnChat(id, text) => HandleChat(w, id, text)
    case OnPing(id) => HandlePing(w, id)
    case OnSnowball(id, dir, len, shotId, uuid) => HandleSnowball(w, id, dir, len, shotId, uuid)
    case ResumeFlight(t) => HandleFlight(w, t)
    case ResumeDoom(t, killId) => HandleDoom(w, t, killId)
    case StartBots => HandleStartBots(w)
    case VisitBot(t, c) => HandleVisit(w, t, c)
    case SettleBot(t) => HandleSettle(w, t)
    case ScanIdle => HandleScanIdle(w)
    case ScanShots => w.(shots := ShotFilter.Expire(w.shots, w.now))
    case ScanKills => w.(ledger := KillLedger.Cleanup(w.ledger, w.now))
  }

  // --- runs ---

  /** A bot as initBots makes it: healthy, in the square of the spawn points, with its first shot 10 to 20 s away. */
  ghost predicate NewBot(id: Id, b: Bot, s: Snapshot, now: int) {
    && s.id == id && s.hp == FULL_HP && s.deadUntil == 0 && s.updatedAt == now
    && s.pos == b.pos && InSquare(b.pos, SPAWN_SPAN / 2.0) && b.target.None?
    && now as real <= b.lastShotAt <= now as real + SHOT_INTERVAL
  }

  /** The server just after initBots; the database is whatever earlier processes left. */
  ghost predicate Initial(w: World) {
    && w.now >= 0
    && w.cache.order == w.roster == BOT_IDS
    && w.bots.Keys == w.cache.entries.Keys
    && (forall id :: id in w.bots ==> NewBot(id, w.bots[id], w.cache.entries[id], w.now))
    && w.online == {} && w.names == map[]
    && w.log == EventLog.EMPTY_LOG && w.shots == ShotFilter.EMPTY_BOOK
    && KillLedger.LedgerOk(w.ledger, w.now)
    && w.tasks == map[] && w.nextTask == 0
    && w.lastTick == w.now
  }

  /** Every action of the run is enabled when its turn comes. */
  ghost predicate Runs(w: World, acts: seq<Action>)
    decreases |acts|
  {
    acts == [] || (Enabled(w, acts[0]) && Runs(Step(w, acts[0]), acts[1..]))
  }

  ghost function After(w: World, acts: seq<Action>): World
    requires Runs(w, acts)
    decreases |acts|
  {
    if acts == [] then w else After(Step(w, acts[0]), acts[1..])
  }
}
