/** Damage, death and respawn of connected players over whole runs. */
module LifeCycle {
  import opened Protocol
  import opened GameWorld
  import opened Invariants
  import opened Evolution

  // --- damage conservation ---

  /** The hits on a player since its latest join or respawn, and whether it died since. */
  datatype Tally = Tally(hits: nat, died: bool)

  function TallyAfter(t: Tally, b: Body, v: Id): Tally {
    if Subject(b) != Some(v) then t
    else match b
      case Hit(_, _, _, _) => Tally(t.hits + 1, t.died)
      case Death(_, _, _, _, _, _) => Tally(t.hits, true)
      case _ => Tally(0, false)
  }

  function TallyOf(h: seq<Event>, v: Id): Tally {
    if |h| == 0 then Tally(0, false)
    else TallyAfter(TallyOf(h[..|h| - 1], v), h[|h| - 1].body, v)
  }

  /** Ten points per hit, down to zero. */
  function HpAfterHits(hits: nat): int {
    if FULL_HP - DAMAGE * hits > 0 then FULL_HP - DAMAGE * hits else 0
  }

  ghost predicate DamageOk(w: World, v: Id) {
    && v in w.cache.entries
    && (var t := TallyOf(w.log.history, v);
        w.cache.entries[v].hp == if t.died then 0 else HpAfterHits(t.hits))
  }

  lemma TallyLogged(w: World, w': World, b: Body, v: Id)
    requires Logged(w, w', b)
    ensures TallyOf(w'.log.history, v) == TallyAfter(TallyOf(w.log.history, v), b, v)
  {}

  lemma TallyQuiet(w: World, w': World, v: Id)
    requires Unmentioned(w, w', v)
    ensures TallyOf(w'.log.history, v) == TallyOf(w.log.history, v)
  {}

  lemma TallyStruck(w: World, w': World, v: Id, t: nat)
    requires GotStruck(w, w', v, t)
    ensures TallyOf(w'.log.history, v) == Tally(TallyOf(w.log.history, v).hits + 1, TallyOf(w.log.history, v).died)
  {}

  lemma TallyKilled(w: World, w': World, v: Id, t: nat)
    requires GotKilled(w, w', v, t)
    ensures TallyOf(w'.log.history, v) == Tally(TallyOf(w.log.history, v).hits, true)
  {}

  lemma EffectKeepsDamage(w: World, w': World, v: Id, e: Effect)
    requires DamageOk(w, v)
    requires Caused(w, w', v, e)
    ensures DamageOk(w', v)
  {
    match e
    case Quiet => TallyQuiet(w, w', v);
    case Struck(t) => TallyStruck(w, w', v, t);
    case Died(t) => TallyKilled(w, w', v, t);
    case Revived => TallyLogged(w, w', Respawn(v, w'.cache.entries[v].pos, FULL_HP), v);
  }

  lemma StepKeepsDamage(w: World, a: Action, v: Id)
    requires Sane(w) && Enabled(w, a) && v in Step(w, a).online
    requires v in w.online ==> DamageOk(w, v)
    ensures DamageOk(Step(w, a), v)
  {
    var w' := Step(w, a);
    StepFrame(w, a);
    if v !in w.online {
      JoinBegins(w, a);
      TallyLogged(w, w', Join(w'.cache.entries[v]), v);
    } else {
      StepEvolves(w, a, v);
      EffectKeepsDamage(w, w', v, EffectOf(w, a, v));
    }
  }

  lemma {:induction false} RunKeepsDamage(w: World, acts: seq<Action>, v: Id)
    requires Sane(w) && Runs(w, acts) && v in After(w, acts).online
    requires v in w.online ==> DamageOk(w, v)
    ensures DamageOk(After(w, acts), v)
    decreases |acts|
  {
    if acts != [] {
      var w1 := Step(w, acts[0]);
      StepKeepsSane(w, acts[0]);
      if v in w1.online { StepKeepsDamage(w, acts[0], v); }
      RunKeepsDamage(w1, acts[1..], v);
    }
  }

  /**
    Damage conservation, under every interleaving: a connected player has lost ten points for
    each hit since it last joined or came back, and has none once a death event was issued.
    So the plain formula fails exactly after a death event that arrived ahead of ten hits.
   */
  lemma DamageConservation(w0: World, acts: seq<Action>, v: Id)
    requires Initial(w0) && Runs(w0, acts) && v in After(w0, acts).online
    ensures var w := After(w0, acts);
            var t := TallyOf(w.log.history, v);
            && v in w.cache.entries
            && w.cache.entries[v].hp == (if t.died then 0 else HpAfterHits(t.hits))
            && (w.cache.entries[v].hp == HpAfterHits(t.hits) <==> !(t.died && t.hits < 10))
  {
    InitialIsSane(w0);
    RunKeepsDamage(w0, acts, v);
  }

  // --- the life cycle, when suspended deaths resume in time ---

  /** No suspended death has outlived its respawn time: each broadcast resumes within respawnMs. */
  ghost predicate Prompt(w: World) {
    forall t :: t in w.tasks && w.tasks[t].Doom? ==> w.now < w.tasks[t].respawnAt
  }

  ghost predicate PromptRuns(w: World, acts: seq<Action>)
    decreases |acts|
  {
    Prompt(w) && (acts == [] || (Enabled(w, acts[0]) && PromptRuns(Step(w, acts[0]), acts[1..])))
  }

  /** A prompt run is a run of the server, and prompt to the end. */
  lemma {:induction false} PromptRunsAreRuns(w: World, acts: seq<Action>)
    requires PromptRuns(w, acts)
    ensures Runs(w, acts) && Prompt(After(w, acts))
    decreases |acts|
  {
    if acts != [] { PromptRunsAreRuns(Step(w, acts[0]), acts[1..]); }
  }

  /** When the player whom the event kills may come back: set by a lethal hit and by a death. */
  function Due(e: Event, v: Id): Option<int> {
    match e.body
    case Hit(_, id, hp, _) => if id == v && hp == 0 then Some(e.at + RESPAWN_MS) else None
    case Death(id, _, _, _, _, respawnAt) => if id == v then Some(respawnAt) else None
    case _ => None
  }

  predicate IsDeath(e: Event, v: Id) { e.body.Death? && e.body.victimId == v }
  predicate IsRespawn(e: Event, v: Id) { e.body.Respawn? && e.body.playerId == v }
  predicate IsWound(e: Event, v: Id) { e.body.Hit? && e.body.victimId == v && e.body.victimHp > 0 }

  /** No respawn comes before it is due. */
  ghost predicate RespawnsWait(h: seq<Event>, v: Id) {
    forall i, j :: 0 <= i < j < |h| && Due(h[i], v).Some? && IsRespawn(h[j], v) ==> h[j].at >= Due(h[i], v).value
  }

  /** Respawn times of successive deaths are at least respawnMs apart. */
  ghost predicate DeathsSpaced(h: seq<Event>, v: Id) {
    forall i, j :: 0 <= i < j < |h| && IsDeath(h[i], v) && IsDeath(h[j], v) ==>
      h[i].body.respawnAt + RESPAWN_MS <= h[j].body.respawnAt
  }

  ghost predicate RisenAfter(h: seq<Event>, v: Id, i: int, j: int)
    requires j <= |h|
  {
    exists k :: 0 <= i < k < j && IsRespawn(h[k], v)
  }

  /** Between a lethal hit or a death and the next respawn, no hit leaves the player alive. */
  ghost predicate DeadStayDead(h: seq<Event>, v: Id) {
    forall i, j :: 0 <= i < j < |h| && Due(h[i], v).Some? && IsWound(h[j], v) ==> RisenAfter(h, v, i, j)
  }

  ghost predicate LifeOk(h: seq<Event>, v: Id) {
    RespawnsWait(h, v) && DeathsSpaced(h, v) && DeadStayDead(h, v)
  }

  ghost predicate DueBy(h: seq<Event>, v: Id, bound: int) {
    forall i :: 0 <= i < |h| && Due(h[i], v).Some? ==> Due(h[i], v).value <= bound
  }

  ghost predicate DeathsBy(h: seq<Event>, v: Id, bound: int) {
    forall i :: 0 <= i < |h| && IsDeath(h[i], v) ==> h[i].body.respawnAt <= bound
  }

  ghost predicate AllRisen(h: seq<Event>, v: Id) {
    forall i :: 0 <= i < |h| && Due(h[i], v).Some? ==> RisenAfter(h, v, i, |h|)
  }

  /** What ties the history of a connected player to its present state. */
  ghost predicate Tied(w: World, v: Id) {
    v in w.cache.entries
    && TiedTo(w.log.history, v, w.cache.entries[v].hp, w.cache.entries[v].deadUntil, Dooms(w, v), w.now)
  }

  // --- appending one event ---

  lemma AppendOther(h: seq<Event>, e: Event, v: Id)
    requires LifeOk(h, v) && Subject(e.body) != Some(v)
    ensures LifeOk(h + [e], v)
    ensures forall b :: DueBy(h, v, b) ==> DueBy(h + [e], v, b)
    ensures forall b :: DeathsBy(h, v, b) ==> DeathsBy(h + [e], v, b)
    ensures AllRisen(h, v) ==> AllRisen(h + [e], v)
  {
    RisenAppend(h, e, v);
  }

  lemma RisenAppend(h: seq<Event>, e: Event, v: Id)
    ensures forall i, j :: j <= |h| && RisenAfter(h, v, i, j) ==> RisenAfter(h + [e], v, i, j) && RisenAfter(h + [e], v, i, |h| + 1)
  {
    forall i, j | j <= |h| && RisenAfter(h, v, i, j)
      ensures RisenAfter(h + [e], v, i, j) && RisenAfter(h + [e], v, i, |h| + 1)
    {
      var k :| 0 <= i < k < j && IsRespawn(h[k], v);
      assert IsRespawn((h + [e])[k], v);
    }
  }

  lemma AppendLethalHit(h: seq<Event>, e: Event, v: Id)
    requires LifeOk(h, v) && Due(e, v).Some? && e.body.Hit?
    ensures LifeOk(h + [e], v)
    ensures forall b :: DueBy(h, v, b) && e.at + RESPAWN_MS <= b ==> DueBy(h + [e], v, b)
    ensures forall b :: DeathsBy(h, v, b) ==> DeathsBy(h + [e], v, b)
  {
    RisenAppend(h, e, v);
  }

  lemma AppendWound(h: seq<Event>, e: Event, v: Id)
    requires LifeOk(h, v) && IsWound(e, v) && AllRisen(h, v)
    ensures LifeOk(h + [e], v) && AllRisen(h + [e], v)
    ensures forall b :: DueBy(h, v, b) ==> DueBy(h + [e], v, b)
  {
    RisenAppend(h, e, v);
    var h' := h + [e];
    forall i, j | 0 <= i < j < |h'| && Due(h'[i], v).Some? && IsWound(h'[j], v)
      ensures RisenAfter(h', v, i, j)
    {
      assert RisenAfter(h, v, i, j);
    }
  }

  lemma AppendDeath(h: seq<Event>, e: Event, v: Id)
    requires LifeOk(h, v) && IsDeath(e, v) && DeathsBy(h, v, e.body.respawnAt - RESPAWN_MS)
    ensures LifeOk(h + [e], v)
    ensures forall b :: DueBy(h, v, b) && e.body.respawnAt <= b ==> DueBy(h + [e], v, b)
  {
    RisenAppend(h, e, v);
  }

  lemma AppendRespawn(h: seq<Event>, e: Event, v: Id)
    requires LifeOk(h, v) && IsRespawn(e, v) && DueBy(h, v, e.at)
    ensures LifeOk(h + [e], v) && AllRisen(h + [e], v) && DueBy(h + [e], v, e.at)
  {
    RisenAppend(h, e, v);
    var h' := h + [e];
    forall i | 0 <= i < |h'| && Due(h'[i], v).Some?
      ensures RisenAfter(h', v, i, |h'|)
    {
      assert IsRespawn(h'[|h|], v) && i < |h|;
    }
  }

  // --- one step ---

  /** What the history of one player says now: it depends on the events, the vital signs and the suspended deaths only. */
  ghost predicate TiedTo(h: seq<Event>, v: Id, hp: int, deadUntil: int, d: map<nat, int>, now: int) {
    && (hp == 0 ==> DueBy(h, v, deadUntil))
    && (hp > 0 ==> DueBy(h, v, now) && AllRisen(h, v) && d == map[])
    && (forall t, u :: t in d && u in d ==> t == u)
    && (forall t :: t in d ==> d[t] == deadUntil && DeathsBy(h, v, d[t] - RESPAWN_MS))
  }

  lemma OtherEventStaysTied(h: seq<Event>, e: Event, v: Id, hp: int, deadUntil: int, d: map<nat, int>, now: int)
    requires TiedTo(h, v, hp, deadUntil, d, now) && LifeOk(h, v) && Subject(e.body) != Some(v)
    ensures TiedTo(h + [e], v, hp, deadUntil, d, now) && LifeOk(h + [e], v)
  {
    AppendOther(h, e, v);
  }

  lemma LaterStaysTied(h: seq<Event>, v: Id, hp: int, deadUntil: int, d: map<nat, int>, now: int, later: int)
    requires TiedTo(h, v, hp, deadUntil, d, now) && now <= later
    ensures TiedTo(h, v, hp, deadUntil, d, later)
  {}

  lemma HitStaysTied(h: seq<Event>, e: Event, v: Id, hp: int, deadUntil: int, now: int, t: nat)
    requires TiedTo(h, v, hp, deadUntil, map[], now) && LifeOk(h, v) && hp >= 0 && (hp > 0 || deadUntil <= now)
    requires e.at == now && e.body.Hit? && e.body.victimId == v && e.body.victimHp == HpAfterHit(hp)
    ensures LifeOk(h + [e], v)
    ensures if HpAfterHit(hp) == 0 then TiedTo(h + [e], v, 0, now + RESPAWN_MS, map[t := now + RESPAWN_MS], now)
            else TiedTo(h + [e], v, HpAfterHit(hp), deadUntil, map[], now)
  {
    assert DueBy(h, v, now);
    if HpAfterHit(hp) == 0 {
      AppendLethalHit(h, e, v);
      assert DeathsBy(h, v, now);
      assert DueBy(h, v, now + RESPAWN_MS);
    } else {
      AppendWound(h, e, v);
    }
  }

  lemma UnmentionedStaysTied(w: World, w': World, v: Id, hp: int, deadUntil: int, d: map<nat, int>)
    requires TiedTo(w.log.history, v, hp, deadUntil, d, w.now) && LifeOk(w.log.history, v) && Unmentioned(w, w', v)
    ensures TiedTo(w'.log.history, v, hp, deadUntil, d, w.now) && LifeOk(w'.log.history, v)
  {
    if w'.log != w.log {
      var b :| Logged(w, w', b) && Subject(b) != Some(v) && !b.Moved?;
      OtherEventStaysTied(w.log.history, Event(w.log.latestSeq + 1, w.now, b), v, hp, deadUntil, d, w.now);
    }
  }

  lemma QuietStaysTied(w: World, w': World, v: Id)
    requires Tied(w, v) && LifeOk(w.log.history, v)
    requires Unharmed(w, w', v) && Unmentioned(w, w', v) && w.now <= w'.now
    ensures Tied(w', v) && LifeOk(w'.log.history, v)
  {
    var s, d := w.cache.entries[v], Dooms(w, v);
    UnmentionedStaysTied(w, w', v, s.hp, s.deadUntil, d);
    LaterStaysTied(w'.log.history, v, s.hp, s.deadUntil, d, w.now, w'.now);
  }

  lemma StruckStaysTied(w: World, w': World, v: Id, t: nat)
    requires Tied(w, v) && LifeOk(w.log.history, v) && w.cache.entries[v].hp >= 0
    requires GotStruck(w, w', v, t) && w.now == w'.now
    requires forall t :: t in Dooms(w, v) ==> w.now < Dooms(w, v)[t]
    ensures Tied(w', v) && LifeOk(w'.log.history, v)
  {
    var s, s' := w.cache.entries[v], w'.cache.entries[v];
    var attacker, shotId :| Logged(w, w', Hit(attacker, v, s'.hp, shotId));
    assert Dooms(w, v) == map[];
    HitStaysTied(w.log.history, Event(w.log.latestSeq + 1, w.now, Hit(attacker, v, s'.hp, shotId)), v, s.hp, s.deadUntil, w.now, t);
  }

  lemma DeathStaysTied(h: seq<Event>, e: Event, v: Id, deadUntil: int, now: int, d: map<nat, int>, t: nat)
    requires TiedTo(h, v, 0, deadUntil, d, now) && LifeOk(h, v) && t in d && IsDeath(e, v) && e.body.respawnAt == d[t]
    ensures TiedTo(h + [e], v, 0, deadUntil, map[], now) && LifeOk(h + [e], v)
  {
    AppendDeath(h, e, v);
  }

  lemma KilledStaysTied(w: World, w': World, v: Id, t: nat)
    requires Tied(w, v) && LifeOk(w.log.history, v) && w.cache.entries[v].hp >= 0
    requires GotKilled(w, w', v, t) && w.now == w'.now
    ensures Tied(w', v) && LifeOk(w'.log.history, v)
    ensures w'.cache.entries[v].hp == w.cache.entries[v].hp && w'.cache.entries[v].deadUntil == w.cache.entries[v].deadUntil
  {
    var s, s' := w.cache.entries[v], w'.cache.entries[v];
    var name, attacker, attackerName, shotId :| Logged(w, w', Death(v, name, attacker, attackerName, shotId, s'.deadUntil));
    var e := Event(w.log.latestSeq + 1, w.now, Death(v, name, attacker, attackerName, shotId, s'.deadUntil));
    assert s.hp == 0;
    DeathStaysTied(w.log.history, e, v, s.deadUntil, w.now, Dooms(w, v), t);
    assert Dooms(w', v) == map[];
  }

  lemma RevivedStaysTied(w: World, w': World, v: Id)
    requires Tied(w, v) && LifeOk(w.log.history, v) && w.cache.entries[v].hp >= 0
    requires GotRevived(w, w', v) && w.now == w'.now
    requires forall t :: t in Dooms(w, v) ==> w.now < Dooms(w, v)[t]
    ensures Tied(w', v) && LifeOk(w'.log.history, v)
  {
    var e := Event(w.log.latestSeq + 1, w.now, Respawn(v, w'.cache.entries[v].pos, FULL_HP));
    assert Dooms(w, v) == map[];
    assert DueBy(w.log.history, v, w.now);
    AppendRespawn(w.log.history, e, v);
  }

  lemma NewcomerIsTied(w: World, w': World, v: Id)
    requires v in w'.cache.entries && w'.cache.entries[v].hp == FULL_HP && Dooms(w', v) == map[]
    requires Logged(w, w', Join(w'.cache.entries[v]))
    requires forall i :: 0 <= i < |w.log.history| ==> Subject(w.log.history[i].body) != Some(v)
    ensures Tied(w', v) && LifeOk(w'.log.history, v)
  {}

  lemma EffectStaysTied(w: World, w': World, v: Id, e: Effect)
    requires Tied(w, v) && LifeOk(w.log.history, v) && w.cache.entries[v].hp >= 0
    requires Caused(w, w', v, e) && w.now <= w'.now && (!e.Quiet? ==> w'.now == w.now)
    requires forall t :: t in Dooms(w, v) ==> w.now < Dooms(w, v)[t]
    ensures Tied(w', v) && LifeOk(w'.log.history, v)
  {
    match e
    case Quiet => QuietStaysTied(w, w', v);
    case Struck(t) => StruckStaysTied(w, w', v, t);
    case Died(t) => KilledStaysTied(w, w', v, t);
    case Revived => RevivedStaysTied(w, w', v);
  }

  lemma StepStaysTied(w: World, a: Action, v: Id)
    requires Sane(w) && Enabled(w, a) && Prompt(w) && v in Step(w, a).online
    requires v in w.online ==> Tied(w, v) && LifeOk(w.log.history, v)
    ensures Tied(Step(w, a), v) && LifeOk(Step(w, a).log.history, v)
  {
    var w' := Step(w, a);
    StepFrame(w, a);
    if v !in w.online {
      JoinBegins(w, a);
      NewcomerIsTied(w, w', v);
    } else {
      StepEvolves(w, a, v);
      assert w.cache.entries[v].hp >= 0 by { assert SnapOk(v, w.cache.entries[v]); }
      EffectStaysTied(w, w', v, EffectOf(w, a, v));
    }
  }

  lemma {:induction false} RunStaysTied(w: World, acts: seq<Action>, v: Id)
    requires Sane(w) && PromptRuns(w, acts) && Runs(w, acts) && v in After(w, acts).online
    requires v in w.online ==> Tied(w, v) && LifeOk(w.log.history, v)
    ensures Tied(After(w, acts), v) && LifeOk(After(w, acts).log.history, v)
    decreases |acts|
  {
    if acts != [] {
      var w1 := Step(w, acts[0]);
      StepKeepsSane(w, acts[0]);
      if v in w1.online { StepStaysTied(w, acts[0], v); }
      RunStaysTied(w1, acts[1..], v);
    }
  }

  /**
    Life-cycle safety: in every run whose broadcasts resume within respawnMs, the history of a
    connected player has no respawn before it is due, no survivable hit on a corpse, and
    successive deaths at least respawnMs apart.
   */
  lemma LifeCycleSafety(w0: World, acts: seq<Action>, v: Id)
    requires Initial(w0) && PromptRuns(w0, acts) && Runs(w0, acts) && v in After(w0, acts).online
    ensures LifeOk(After(w0, acts).log.history, v)
  {
    InitialIsSane(w0);
    RunStaysTied(w0, acts, v);
  }

  // --- the frozen corpse ---

  lemma {:induction false} OfflineForever(w: World, acts: seq<Action>, v: Id)
    requires Runs(w, acts) && v in w.names && v !in w.online
    ensures v !in After(w, acts).online
    decreases |acts|
  {
    if acts != [] {
      StepFrame(w, acts[0]);
      OfflineForever(Step(w, acts[0]), acts[1..], v);
    }
  }

  lemma {:induction false} ClockIsMonotone(w: World, acts: seq<Action>)
    requires Runs(w, acts)
    ensures w.now <= After(w, acts).now
    decreases |acts|
  {
    if acts != [] {
      StepFrame(w, acts[0]);
      ClockIsMonotone(Step(w, acts[0]), acts[1..]);
    }
  }

  ghost predicate SameCorpse(w: World, w': World, v: Id) {
    && v in w.cache.entries && v in w'.cache.entries
    && w'.cache.entries[v].hp == w.cache.entries[v].hp
    && w'.cache.entries[v].deadUntil == w.cache.entries[v].deadUntil
    && w'.cache.entries[v].pos == w.cache.entries[v].pos
  }

  lemma CorpseKeepsStill(w: World, a: Action, v: Id)
    requires Sane(w) && Enabled(w, a) && v in w.online && v in Step(w, a).online && Tied(w, v)
    requires w.cache.entries[v].hp == 0 && w.now < w.cache.entries[v].deadUntil
    ensures SameCorpse(w, Step(w, a), v)
  {
    StepEvolves(w, a, v);
  }

  /**
    From the lethal hit until the respawn time, a player who stays connected keeps its place,
    its zero hit points and its respawn time, whatever else the server does.
   */
  lemma {:induction false} FrozenUntilRespawn(w: World, acts: seq<Action>, v: Id)
    requires Sane(w) && PromptRuns(w, acts) && Runs(w, acts)
    requires v in w.online && Tied(w, v) && LifeOk(w.log.history, v)
    requires v in After(w, acts).online
    requires w.cache.entries[v].hp == 0 && After(w, acts).now < w.cache.entries[v].deadUntil
    ensures SameCorpse(w, After(w, acts), v)
    decreases |acts|
  {
    if acts != [] {
      var w1 := Step(w, acts[0]);
      ClockIsMonotone(w, acts);
      StepFrame(w, acts[0]);
      if v !in w1.online {
        OfflineForever(w1, acts[1..], v);
      }
      CorpseKeepsStill(w, acts[0], v);
      StepKeepsSane(w, acts[0]);
      StepStaysTied(w, acts[0], v);
      FrozenUntilRespawn(w1, acts[1..], v);
    }
  }

  /** The same, for any moment of any prompt run of the server. */
  lemma CorpseIsFrozen(w0: World, before: seq<Action>, after: seq<Action>, v: Id)
    requires Initial(w0) && PromptRuns(w0, before) && Runs(w0, before)
    requires var w := After(w0, before);
             && PromptRuns(w, after) && Runs(w, after)
             && v in w.online && v in After(w, after).online && v in w.cache.entries
             && w.cache.entries[v].hp == 0 && After(w, after).now < w.cache.entries[v].deadUntil
    ensures SameCorpse(After(w0, before), After(After(w0, before), after), v)
  {
    InitialIsSane(w0);
    RunKeepsSane(w0, before);
    RunStaysTied(w0, before, v);
    FrozenUntilRespawn(After(w0, before), after, v);
  }

  // --- the plain damage formula ---

  /** Hit points are 100 less 10 per hit since the latest join or respawn. */
  ghost predicate PlainFormula(w: World, v: Id) {
    v in w.cache.entries && w.cache.entries[v].hp == HpAfterHits(TallyOf(w.log.history, v).hits)
  }

  /** The step does not announce the death of a connected player who is alive, that is, who came back while the death was suspended. */
  ghost predicate Timely(w: World, a: Action, v: Id)
    requires Ready(w, a)
  {
    a.ResumeDoom? && w.tasks[a.t].victimId == v && v in w.online && v in w.cache.entries ==> w.cache.entries[v].hp == 0
  }

  ghost predicate TimelyRuns(w: World, acts: seq<Action>, v: Id)
    decreases |acts|
  {
    acts == [] || (Enabled(w, acts[0]) && Timely(w, acts[0], v) && TimelyRuns(Step(w, acts[0]), acts[1..], v))
  }

  lemma {:induction false} TimelyRunsAreRuns(w: World, acts: seq<Action>, v: Id)
    requires TimelyRuns(w, acts, v)
    ensures Runs(w, acts)
    decreases |acts|
  {
    if acts != [] { TimelyRunsAreRuns(Step(w, acts[0]), acts[1..], v); }
  }

  lemma EffectOnFormula(w: World, w': World, v: Id, e: Effect)
    requires PlainFormula(w, v)
    requires Caused(w, w', v, e)
    ensures PlainFormula(w', v) <==> (e.Died? ==> w.cache.entries[v].hp == 0)
  {
    match e
    case Quiet => TallyQuiet(w, w', v);
    case Struck(t) => TallyStruck(w, w', v, t);
    case Died(t) => TallyKilled(w, w', v, t);
    case Revived => TallyLogged(w, w', Respawn(v, w'.cache.entries[v].pos, FULL_HP), v);
  }

  lemma DiedIsDoom(w: World, a: Action, v: Id)
    requires Ready(w, a) && v in w.online && v in w.cache.entries
    ensures Timely(w, a, v) <==> (EffectOf(w, a, v).Died? ==> w.cache.entries[v].hp == 0)
  {}

  /** Every step keeps the formula of a connected player if and only if it does not announce the death of a living one. */
  lemma FormulaIffTimely(w: World, a: Action, v: Id)
    requires Sane(w) && Enabled(w, a) && v in w.online && v in Step(w, a).online && PlainFormula(w, v)
    ensures PlainFormula(Step(w, a), v) <==> Timely(w, a, v)
  {
    StepEvolves(w, a, v);
    DiedIsDoom(w, a, v);
    EffectOnFormula(w, Step(w, a), v, EffectOf(w, a, v));
  }

  lemma NewcomerFormula(w: World, a: Action)
    requires Sane(w) && Enabled(w, a) && a.OnHello?
    ensures PlainFormula(Step(w, a), a.id)
  {
    JoinBegins(w, a);
    TallyLogged(w, Step(w, a), Join(Step(w, a).cache.entries[a.id]), a.id);
  }

  lemma {:induction false} TimelyRunKeepsFormula(w: World, acts: seq<Action>, v: Id)
    requires Sane(w) && TimelyRuns(w, acts, v) && Runs(w, acts) && v in After(w, acts).online
    requires v in w.online ==> PlainFormula(w, v)
    ensures PlainFormula(After(w, acts), v)
    decreases |acts|
  {
    if acts != [] {
      var w1 := Step(w, acts[0]);
      StepKeepsSane(w, acts[0]);
      StepFrame(w, acts[0]);
      if v in w1.online {
        if v in w.online { FormulaIffTimely(w, acts[0], v); } else { NewcomerFormula(w, acts[0]); }
      }
      TimelyRunKeepsFormula(w1, acts[1..], v);
    }
  }

  /** The formula holds in every run that announces no death of a living player; the first such announcement breaks it. */
  lemma FormulaHoldsWhileTimely(w0: World, acts: seq<Action>, w: World, a: Action, v: Id)
    requires Initial(w0) && TimelyRuns(w0, acts, v) && Runs(w0, acts) && w == After(w0, acts) && v in w.online
    requires Enabled(w, a)
    ensures PlainFormula(w, v)
    ensures v in Step(w, a).online ==> (PlainFormula(Step(w, a), v) <==> Timely(w, a, v))
  {
    InitialIsSane(w0);
    RunKeepsSane(w0, acts);
    TimelyRunKeepsFormula(w0, acts, v);
    if v in Step(w, a).online { FormulaIffTimely(w, a, v); }
  }

  /** A tied player who is alive has no suspended death, so prompt runs are timely. */
  lemma {:induction false} PromptRunsAreTimely(w: World, acts: seq<Action>, v: Id)
    requires Sane(w) && PromptRuns(w, acts) && Runs(w, acts) && v in After(w, acts).online
    requires v in w.online ==> Tied(w, v) && LifeOk(w.log.history, v)
    ensures TimelyRuns(w, acts, v)
    decreases |acts|
  {
    if acts != [] {
      var w1 := Step(w, acts[0]);
      StepKeepsSane(w, acts[0]);
      StepFrame(w, acts[0]);
      if v in w1.online { StepStaysTied(w, acts[0], v); }
      TiedIsTimely(w, acts[0], v);
      PromptRunsAreTimely(w1, acts[1..], v);
    }
  }

  lemma TiedIsTimely(w: World, a: Action, v: Id)
    requires Ready(w, a) && CacheOk(w) && (v in w.online ==> Tied(w, v))
    ensures Timely(w, a, v)
  {
    if a.ResumeDoom? && w.tasks[a.t].victimId == v && v in w.online {
      assert a.t in Dooms(w, v) && SnapOk(v, w.cache.entries[v]);
    }
  }

  /** With prompt broadcasts a connected player's hit points are 100 less 10 per hit since its latest join or respawn. */
  lemma DamageIsHitCount(w0: World, acts: seq<Action>, v: Id)
    requires Initial(w0) && PromptRuns(w0, acts) && Runs(w0, acts) && v in After(w0, acts).online
    ensures PlainFormula(After(w0, acts), v)
  {
    InitialIsSane(w0);
    PromptRunsAreTimely(w0, acts, v);
    TimelyRunKeepsFormula(w0, acts, v);
  }
}
