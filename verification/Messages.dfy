/**
  What the messages of a client do to the player table and to the event stream,
  and that nothing else decides how the table shows a client.
 */
module Messages {
  import opened Protocol
  import opened OrderedMap
  import opened Ballistics
  import opened BotMotion
  import opened GameWorld
  import opened Invariants
  import opened Evolution

  /** Nobody but `id` comes, goes or changes in the player table. */
  ghost predicate OnlyTouches(w: World, w': World, id: Id) {
    forall k :: k != id ==> (k in w'.cache.entries <==> k in w.cache.entries) && (k in w.cache.entries ==> w'.cache.entries[k] == w.cache.entries[k])
  }

  lemma OneEntry(w: World, w': World, id: Id, s: Snapshot)
    requires w'.cache.entries == w.cache.entries[id := s]
    ensures OnlyTouches(w, w', id) && id in w'.cache.entries && w'.cache.entries[id] == s
  {}

  /** A hello enters a healthy player at the spawn point, under the given name, and announces exactly that player. */
  lemma HelloEnters(w: World, id: Id, name: string, spawn: Vec3, askedAt: int)
    ensures var w', s := HandleHello(w, id, name, spawn, askedAt),
                         Snapshot(id, name, spawn, 0.0, Vec3(0.0, 0.0, 0.0), 100, false, 0, askedAt, None);
            && id in w'.cache.entries && w'.cache.entries[id] == s && OnlyTouches(w, w', id) && Appends(w, w', Join(s))
            && w'.online == w.online + {id} && w'.names == w.names[id := name]
  {
    var w', s := HandleHello(w, id, name, spawn, askedAt), Newcomer(id, name, spawn, askedAt);
    JoinApplied(w.(online := w.online + {id}, names := w.names[id := name], cache := Set(w.cache, id, s)), s);
    SetTwice(w.cache.entries, id, s);
    OneEntry(w, w', id, s);
  }

  /** A join event enters the player it announces. */
  lemma JoinApplied(w: World, s: Snapshot)
    ensures var w' := Emit(w, Join(s));
            w'.cache.entries == w.cache.entries[s.id := s] && Appends(w, w', Join(s)) && w'.online == w.online && w'.names == w.names
  {}

  lemma SetTwice(m: map<Id, Snapshot>, id: Id, s: Snapshot)
    ensures m[id := s][id := s] == m[id := s]
  {}

  /** A close removes the player, and announces who left under the name of the connection. */
  lemma CloseRemoves(w: World, id: Id)
    requires id in w.names
    ensures var w' := HandleClose(w, id);
            && id !in w'.cache.entries && id !in w'.online && OnlyTouches(w, w', id) && Appends(w, w', Leave(id, w.names[id]))
            && w'.online == w.online - {id} && w'.names == w.names
  {}

  /** An event about the name of a player changes that, the time it was seen, and nothing else. */
  lemma RenameApplied(w: World, id: Id, name: string)
    ensures var w' := Emit(w, Rename(id, name));
            && w'.cache.entries.Keys == w.cache.entries.Keys && Appends(w, w', Rename(id, name))
            && w'.cache.entries == if id in w.cache.entries then w.cache.entries[id := w.cache.entries[id].(name := name, updatedAt := w.now)] else w.cache.entries
  {}

  /** A rename renames the connection; a name that is not empty after clamping also the player, and is announced. */
  lemma RenameRenames(w: World, id: Id, raw: string, clamped: string)
    ensures var w' := HandleRename(w, id, raw, clamped);
            && w'.names == w.names[id := raw] && OnlyTouches(w, w', id) && w'.online == w.online
            && (clamped == "" ==> w'.cache == w.cache && w'.log == w.log)
            && (clamped != "" ==> Appends(w, w', Rename(id, clamped)))
            && (id in w'.cache.entries <==> id in w.cache.entries)
            && (clamped != "" && id in w.cache.entries ==> w'.cache.entries[id] == w.cache.entries[id].(name := clamped, updatedAt := w.now))
  {
    var w', w1 := HandleRename(w, id, raw, clamped), w.(names := w.names[id := raw]);
    if clamped != "" {
      if id in w.cache.entries {
        var s := w.cache.entries[id].(name := clamped, updatedAt := w.now);
        var w2 := w1.(cache := Set(w.cache, id, s));
        assert w' == Emit(w2, Rename(id, clamped));
        RenameApplied(w2, id, clamped);
        assert w'.cache.entries == w.cache.entries[id := s];
        OneEntry(w, w', id, s);
      } else {
        assert w' == Emit(w1, Rename(id, clamped));
        RenameApplied(w1, id, clamped);
      }
    }
  }

  /** A chat message that is not empty is announced under the name of the connection; the table stays. */
  lemma ChatIsAnnounced(w: World, id: Id, text: string)
    requires id in w.names
    ensures var w' := HandleChat(w, id, text);
            && w'.cache == w.cache && (text == "" ==> w' == w) && (text != "" ==> Appends(w, w', Chat(id, w.names[id], text)))
  {}

  /** A ping marks the player as seen now, if it is in the table, and does nothing else. */
  lemma PingMarks(w: World, id: Id)
    ensures var w' := HandlePing(w, id);
            && OnlyTouches(w, w', id) && w'.log == w.log && (id in w'.cache.entries <==> id in w.cache.entries)
            && (id in w.cache.entries ==> w'.cache.entries[id] == w.cache.entries[id].(updatedAt := w.now))
  {}

  /** The scan removes exactly the players who are not connected and were not seen for more than five seconds. */
  lemma ScanIsExact(w: World, k: Id)
    ensures var w' := HandleScanIdle(w);
            && (k in w'.cache.entries <==> k in w.cache.entries && (k in w.online || w.now - w.cache.entries[k].updatedAt <= 5000))
            && (k in w'.cache.entries ==> w'.cache.entries[k] == w.cache.entries[k])
            && w'.log == w.log && w'.online == w.online
  {
    if k in w.cache.entries { assert k in w.cache.order; }
  }

  // --- state reports ---

  /** A report is ignored if its place or heading is not finite, the place is off the map, or the player is dead and not yet due. */
  predicate Ignored(w: World, id: Id, msg: StateMsg) {
    || msg.pos.None? || msg.rotY.None?
    || msg.pos.value.x > 195.0 || msg.pos.value.x < -195.0 || msg.pos.value.z > 195.0 || msg.pos.value.z < -195.0
    || msg.pos.value.y > 5000.0 || msg.pos.value.y < -5000.0
    || (id in w.cache.entries && w.cache.entries[id].hp <= 0 && w.cache.entries[id].deadUntil > w.now)
  }

  predicate IsDue(w: World, id: Id) {
    id in w.cache.entries && w.cache.entries[id].hp <= 0 && w.cache.entries[id].deadUntil <= w.now
  }

  /** How the table shows a player, apart from hit points and respawn time. */
  datatype Look = Look(name: string, pos: Vec3, rotY: real, vel: Vec3, crouch: bool, pingMs: Option<real>, seen: int)

  function LookOf(s: Snapshot): Look {
    Look(s.name, s.pos, s.rotY, s.vel, s.crouch, s.pingMs, s.updatedAt)
  }

  /** How a player looks after its own report. */
  function ReportedLook(w: World, id: Id, msg: StateMsg, spawn: Vec3, was: Option<Look>): Look
    requires !Ignored(w, id, msg) && id in w.names
  {
    var ping := if msg.pingMs.Some? || was.None? then msg.pingMs else was.value.pingMs;
    if IsDue(w, id) && was.Some? then Look(was.value.name, spawn, msg.rotY.value, Vec3(0.0, 0.0, 0.0), false, ping, w.now)
    else Look(w.names[id], msg.pos.value, msg.rotY.value, if msg.vel.Some? then msg.vel.value else Vec3(0.0, 0.0, 0.0), msg.crouch, ping, w.now)
  }

  /** What the report leaves in the table and in the stream. */
  ghost predicate Obeyed(w: World, w': World, id: Id, msg: StateMsg, spawn: Vec3)
    requires id in w.names && !Ignored(w, id, msg)
  {
    var known := id in w.cache.entries;
    && id in w'.cache.entries
    && LookOf(w'.cache.entries[id]) == ReportedLook(w, id, msg, spawn, if known then Some(LookOf(w.cache.entries[id])) else None)
    && (if IsDue(w, id)
        then Appends(w, w', Respawn(id, spawn, 100)) && w'.cache.entries[id].hp == 100 && w'.cache.entries[id].deadUntil == 0
        else && w'.log == w.log
             && w'.cache.entries[id].hp == (if known then w.cache.entries[id].hp else 100)
             && w'.cache.entries[id].deadUntil == (if known then w.cache.entries[id].deadUntil else 0))
  }

  /** A state event of the stream shows its player as it says, keeps name, ping, hit points and respawn time, and touches nobody else. */
  lemma MovedApplied(w: World, id: Id, pos: Vec3, rotY: real, vel: Vec3, crouch: bool)
    ensures var w' := Emit(w, Moved(id, pos, rotY, vel, crouch));
            && OnlyTouches(w, w', id) && (id in w'.cache.entries <==> id in w.cache.entries)
            && (id in w.cache.entries ==>
                  var s, s' := w.cache.entries[id], w'.cache.entries[id];
                  LookOf(s') == Look(s.name, pos, rotY, vel, crouch, s.pingMs, w.now) && s'.hp == s.hp && s'.deadUntil == s.deadUntil)
  {
    if id in w.cache.entries {
      var s := w.cache.entries[id].(pos := pos, rotY := rotY, vel := vel, crouch := crouch, updatedAt := w.now);
      OneEntry(w, Emit(w, Moved(id, pos, rotY, vel, crouch)), id, s);
    }
  }

  lemma RespawnApplied(w: World, id: Id, s: Snapshot, spawn: Vec3)
    requires s.pos == spawn && s.hp == FULL_HP && s.deadUntil == 0 && s.updatedAt == w.now
    ensures var w' := Emit(w.(cache := Set(w.cache, id, s)), Respawn(id, spawn, FULL_HP));
            w'.cache.entries == w.cache.entries[id := s] && Appends(w, w', Respawn(id, spawn, 100))
  {}

  lemma DueReport(w: World, id: Id, msg: StateMsg, spawn: Vec3)
    requires id in w.names && !Ignored(w, id, msg) && IsDue(w, id)
    ensures OnlyTouches(w, HandleState(w, id, msg, spawn), id) && Obeyed(w, HandleState(w, id, msg, spawn), id, msg, spawn)
  {
    var s := RevivedSnapshot(w.cache.entries[id], spawn, msg.rotY.value, msg.pingMs, w.now);
    RespawnApplied(w, id, s, spawn);
    OneEntry(w, HandleState(w, id, msg, spawn), id, s);
  }

  lemma LivingReport(w: World, id: Id, msg: StateMsg, spawn: Vec3)
    requires id in w.names && !Ignored(w, id, msg) && !IsDue(w, id)
    ensures OnlyTouches(w, HandleState(w, id, msg, spawn), id) && Obeyed(w, HandleState(w, id, msg, spawn), id, msg, spawn)
  {
    OneEntry(w, HandleState(w, id, msg, spawn), id, Reported(w, id, msg));
  }

  /**
    A state report does one of three things: nothing if it is ignored; it brings a due player back to life at
    the spawn point, with an event; or it is adopted, without an event.  It touches nobody else.
   */
  lemma StateReport(w: World, id: Id, msg: StateMsg, spawn: Vec3)
    requires id in w.names
    ensures var w' := HandleState(w, id, msg, spawn);
            && OnlyTouches(w, w', id) && (if Ignored(w, id, msg) then w' == w else Obeyed(w, w', id, msg, spawn))
  {
    if !Ignored(w, id, msg) {
      if IsDue(w, id) { DueReport(w, id, msg, spawn); } else { LivingReport(w, id, msg, spawn); }
    }
  }

  // --- nothing else decides how a client looks ---

  /** How a connected client looks after a step: its own hello, reports, pings and renames decide, and hits and deaths mark it as seen. */
  ghost function LookAfter(w: World, a: Action, v: Id, was: Look): Look
    requires Ready(w, a)
  {
    match a
    case OnHello(id, name, spawn, askedAt) => if id == v then Look(name, spawn, 0.0, Vec3(0.0, 0.0, 0.0), false, None, askedAt) else was
    case OnState(id, msg, spawn) => if id == v && !Ignored(w, id, msg) then ReportedLook(w, id, msg, spawn, Some(was)) else was
    case OnPing(id) => if id == v then was.(seen := w.now) else was
    case OnRename(id, _, clamped) => if id == v && clamped != "" then was.(name := clamped, seen := w.now) else was
    case ResumeFlight(t) => if EffectOf(w, a, v).Struck? then was.(seen := w.now) else was
    case ResumeDoom(t, _) => if w.tasks[t].victimId == v then was.(seen := w.now) else was
    case _ => was
  }

  ghost predicate Looks(w: World, v: Id, look: Look) {
    v in w.cache.entries && LookOf(w.cache.entries[v]) == look
  }

  lemma HitLooks(w: World, f: Task, victim: Snapshot, v: Id)
    requires f.Flight? && v in w.cache.entries && victim.id in w.cache.entries && w.cache.entries[victim.id] == victim
    ensures var l := LookOf(w.cache.entries[v]);
            Looks(AfterHit(w, f, victim), v, if victim.id == v then l.(seen := w.now) else l)
  {}

  lemma FlightLooks(w: World, t: nat, v: Id)
    requires CacheOk(w) && Ready(w, ResumeFlight(t)) && v in w.cache.entries
    ensures Looks(HandleFlight(w, t), v, LookAfter(w, ResumeFlight(t), v, LookOf(w.cache.entries[v])))
  {
    var victim := VictimOf(w, w.tasks[t]);
    VictimIsCached(w, w.tasks[t]);
    if victim.Some? {
      HitLooks(w, w.tasks[t], victim.value, v);
      StrikeIsHit(w, t, victim.value);
    }
  }

  lemma DeathApplied(c: Dict<Snapshot>, e: Event, v: Id)
    requires e.body.Death? && v in c.entries
    ensures var c', l := ApplyEvent(c, e), LookOf(c.entries[v]);
            v in c'.entries && LookOf(c'.entries[v]) == if e.body.victimId == v then l.(seen := e.at) else l
  {}

  lemma DoomLooks(w: World, t: nat, killId: string, v: Id)
    requires Ready(w, ResumeDoom(t, killId)) && v in w.cache.entries
    ensures Looks(HandleDoom(w, t, killId), v, LookAfter(w, ResumeDoom(t, killId), v, LookOf(w.cache.entries[v])))
  {
    var e := Event(w.log.latestSeq + 1, w.now, DeathBody(w, w.tasks[t]));
    DeathApplied(w.cache, e, v);
    assert HandleDoom(w, t, killId).cache == ApplyEvent(w.cache, e);
  }

  lemma BotActsLooks(w: World, t: nat, bot: Id, b: Bot, tickAt: int, rest: seq<Id>, c: BotChoice, v: Id)
    requires bot in w.bots && bot in w.cache.entries && v in w.cache.entries && v != bot
    ensures Looks(BotActs(w, t, bot, b, tickAt, rest, c), v, LookOf(w.cache.entries[v]))
  {
    var w1 := WalkBot(w, bot, b);
    assert w1.cache.entries[v] == w.cache.entries[v];
    var target := Nearest(Values(w1.cache), b.pos);
    if tickAt as real - b.lastShotAt > SHOT_INTERVAL && target.Some? {
      assert BotActs(w, t, bot, b, tickAt, rest, c).cache == w1.cache;
    }
  }

  lemma VisitLooks(w: World, t: nat, c: BotChoice, v: Id)
    requires Ready(w, VisitBot(t, c)) && v in w.cache.entries && v !in w.bots
    ensures Looks(HandleVisit(w, t, c), v, LookOf(w.cache.entries[v]))
  {
    var tickAt, rest := w.tasks[t].tickAt, w.tasks[t].rest;
    if rest != [] && rest[0] in w.cache.entries {
      var w1 := w.(tasks := w.tasks[t := Visit(tickAt, rest[1..])]);
      if w.cache.entries[rest[0]].hp > 0 {
        BotActsLooks(w1, t, rest[0], MovedBot(w.bots[rest[0]], tickAt, c), tickAt, rest[1..], c, v);
      }
    }
  }

  lemma ConnectionLooks(w: World, a: Action, v: Id)
    requires Ready(w, a) && v in w.cache.entries && (a.OnHello? || a.OnClose?) && a.id != v
    ensures Looks(Step(w, a), v, LookOf(w.cache.entries[v]))
  {
    match a
    case OnHello(id, name, spawn, askedAt) => HelloEnters(w, id, name, spawn, askedAt);
    case OnClose(id) => CloseRemoves(w, id);
  }

  lemma OwnMessageLooks(w: World, a: Action, v: Id)
    requires Ready(w, a) && v in w.cache.entries && (a.OnState? || a.OnRename? || a.OnPing?)
    ensures Looks(Step(w, a), v, LookAfter(w, a, v, LookOf(w.cache.entries[v])))
  {
    match a
    case OnState(id, msg, spawn) => StateReport(w, id, msg, spawn);
    case OnRename(id, raw, clamped) => RenameRenames(w, id, raw, clamped);
    case OnPing(id) => PingMarks(w, id);
  }

  lemma QuietLooks(w: World, a: Action, v: Id)
    requires Ready(w, a) && v in w.cache.entries && (a.ScanIdle? ==> v in w.online) && (a.SettleBot? ==> w.tasks[a.t].bot != v)
    requires a.OnChat? || a.OnSnowball? || a.Pass? || a.StartBots? || a.ScanIdle? || a.ScanShots? || a.ScanKills? || a.SettleBot?
    ensures Looks(Step(w, a), v, LookOf(w.cache.entries[v]))
  {
    match a
    case ScanIdle => ScanIsExact(w, v);
    case OnChat(id, text) => ChatIsAnnounced(w, id, text);
    case OnSnowball(id, dir, len, msgId, uuid) => ShotLooks(w, id, dir, len, msgId, uuid);
    case SettleBot(t) => SettleLooks(w, t, v);
    case Pass(_) =>
    case StartBots =>
    case ScanShots =>
    case ScanKills =>
  }

  lemma ShotLooks(w: World, id: Id, dir: Option<Vec3>, len: real, msgId: string, uuid: string)
    ensures HandleSnowball(w, id, dir, len, msgId, uuid).cache == w.cache
  {}

  lemma SettleLooks(w: World, t: nat, v: Id)
    requires Ready(w, SettleBot(t)) && v in w.cache.entries && w.tasks[t].bot != v
    ensures Looks(HandleSettle(w, t), v, LookOf(w.cache.entries[v]))
  {}

  lemma TaskLooks(w: World, a: Action, v: Id)
    requires CacheOk(w) && Ready(w, a) && v in w.cache.entries && v !in w.bots && (a.ResumeFlight? || a.ResumeDoom? || a.VisitBot?)
    ensures Looks(Step(w, a), v, LookAfter(w, a, v, LookOf(w.cache.entries[v])))
  {
    match a
    case ResumeFlight(t) => FlightLooks(w, t, v);
    case ResumeDoom(t, killId) => DoomLooks(w, t, killId, v);
    case VisitBot(t, c) => VisitLooks(w, t, c, v);
  }

  lemma StepLooks(w: World, a: Action, v: Id)
    requires Sane(w) && Enabled(w, a) && v in w.online && v in Step(w, a).online
    ensures v in w.cache.entries && Looks(Step(w, a), v, LookAfter(w, a, v, LookOf(w.cache.entries[v])))
  {
    StepFrame(w, a);
    if a.ResumeFlight? || a.ResumeDoom? || a.VisitBot? {
      TaskLooks(w, a, v);
    } else if a.OnHello? || a.OnClose? {
      ConnectionLooks(w, a, v);
    } else if a.OnState? || a.OnRename? || a.OnPing? {
      OwnMessageLooks(w, a, v);
    } else {
      QuietLooks(w, a, v);
    }
  }

  ghost function LookAlong(w: World, acts: seq<Action>, v: Id, was: Look): Look
    requires Runs(w, acts)
    decreases |acts|
  {
    if acts == [] then was else LookAlong(Step(w, acts[0]), acts[1..], v, LookAfter(w, acts[0], v, was))
  }

  lemma {:induction false} RunLooks(w: World, acts: seq<Action>, v: Id, was: Look)
    requires Sane(w) && Runs(w, acts) && v in After(w, acts).online && (v in w.online ==> Looks(w, v, was))
    ensures Looks(After(w, acts), v, LookAlong(w, acts, v, was))
    decreases |acts|
  {
    if acts != [] {
      var w1 := Step(w, acts[0]);
      StepKeepsSane(w, acts[0]);
      StepFrame(w, acts[0]);
      if v in w1.online {
        if v in w.online {
          StepLooks(w, acts[0], v);
        } else {
          HelloEnters(w, v, acts[0].name, acts[0].spawn, acts[0].askedAt);
        }
      }
      RunLooks(w1, acts[1..], v, LookAfter(w, acts[0], v, was));
    }
  }

  /**
    In every run a connected client looks in the table as its own latest messages say: the place, heading,
    velocity and stance of its latest adopted report or respawn, the latest name and ping, and when it was
    last heard of, hit or killed.  No other message, shot, bot or timer has a say.
   */
  lemma LatestMessagesDecide(w0: World, acts: seq<Action>, v: Id, any: Look)
    requires Initial(w0) && Runs(w0, acts) && v in After(w0, acts).online
    ensures Looks(After(w0, acts), v, LookAlong(w0, acts, v, any))
  {
    InitialIsSane(w0);
    RunLooks(w0, acts, v, any);
  }
}
