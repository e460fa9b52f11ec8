/**
  Two races that the code loses, each as a run from every initial state: a death
  announced after its victim came back breaks the damage formula, and a hit that
  lands in the middle of a bot's turn is undone by the bot's write-back.
 */
module Races {
  import opened Protocol
  import opened OrderedMap
  import opened Ballistics
  import opened BotMotion
  import opened GameWorld
  import opened Invariants
  import opened Evolution
  import opened EventSourcing
  import opened LifeCycle
  import opened Bookkeeping
  import opened BotLife
  import opened BotAgreement

  /** The run `acts` leads from `w0` to `w`. */
  ghost predicate Leads(w0: World, acts: seq<Action>, w: World) {
    Runs(w0, acts) && After(w0, acts) == w
  }

  lemma {:induction false} LeadsOn(w0: World, acts: seq<Action>, w: World, a: Action)
    requires Leads(w0, acts, w) && Enabled(w, a)
    ensures Leads(w0, acts + [a], Step(w, a))
    decreases |acts|
  {
    if acts == [] {
      assert [] + [a] == [a];
      LeadsOnce(w, a);
    } else {
      var w1 := Step(w0, acts[0]);
      LeadsOn(w1, acts[1..], w, a);
      LeadsAfter(w0, acts[0], w1, acts[1..] + [a], Step(w, a));
      assert acts + [a] == [acts[0]] + (acts[1..] + [a]);
    }
  }

  lemma LeadsOnce(w: World, a: Action)
    requires Enabled(w, a)
    ensures Leads(w, [a], Step(w, a))
  {
    assert [a][1..] == [];
  }

  lemma LeadsAfter(w0: World, a: Action, w1: World, acts: seq<Action>, w: World)
    requires Enabled(w0, a) && w1 == Step(w0, a) && Leads(w1, acts, w)
    ensures Leads(w0, [a] + acts, w)
  {
    assert ([a] + acts)[1..] == acts;
  }

  lemma LeadsSane(w0: World, acts: seq<Action>, w: World)
    requires Initial(w0) && Leads(w0, acts, w)
    ensures Sane(w)
  {
    InitialIsSane(w0);
    RunKeepsSane(w0, acts);
  }

  function Report(p: Vec3): StateMsg {
    StateMsg(Some(p), Some(0.0), None, false, None)
  }

  /** Shot ids that a client may choose, all different. */
  function ShotName(n: nat): string {
    seq(8 + n, _ => 'x')
  }

  // --- a shot straight down ---

  lemma MuzzleHits(p: Vec3)
    requires p.y >= 0.0
    ensures HitsAt(Muzzle(p), ZERO, p, 0) && Airborne(Muzzle(p), ZERO, 0)
  {}

  lemma HitIsClose(p: Vec3, q: Vec3)
    requires HitsAt(Muzzle(p), ZERO, q, 0)
    ensures p.x - q.x <= HIT_RADIUS
  {
    assert Sample(Muzzle(p), ZERO, 0) == Muzzle(p);
    var dx, dz := p.x - q.x, p.z - q.z;
    Square(dz, dz * dz);
    if dx > HIT_RADIUS { SquareGrows(HIT_RADIUS, dx); }
  }

  /** A snowball dropped at `p`, where an eligible player stands, strikes somebody within its radius, the first player if that one stands there. */
  lemma DropFinds(players: seq<Snapshot>, shooter: Id, p: Vec3, now: int, k: nat)
    requires k < |players| && Eligible(players[k], shooter, now) && players[k].pos == p && p.y >= 0.0
    ensures var r := FindVictim(players, shooter, Muzzle(p), ZERO, now);
            && r.Some? && p.x - players[r.value.index].pos.x <= HIT_RADIUS
            && (k == 0 ==> r.value.index == 0)
  {
    MuzzleHits(p);
    assert Reached(players, shooter, Muzzle(p), ZERO, now, k, 0);
    FindVictimIsEarliest(players, shooter, Muzzle(p), ZERO, now);
    HitIsClose(p, players[FindVictim(players, shooter, Muzzle(p), ZERO, now).value.index].pos);
  }

  /** What the search returns for a snowball dropped at `p`. */
  lemma DropVictim(w: World, f: Task, p: Vec3, r: Option<Strike>)
    requires f.Flight? && f.origin == Muzzle(p) && f.dir == ZERO && r.Some?
    requires r == FindVictim(Values(w.cache), f.owner, Muzzle(p), ZERO, w.now)
    ensures VictimOf(w, f) == Some(Values(w.cache)[r.value.index])
  {
    assert Mul(f.dir, SNOWBALL_SPEED) == ZERO;
  }

  // --- one step at a time ---

  lemma FireFacts(w: World, id: Id, n: nat)
    requires id in w.cache.entries && n <= 56 && ShotName(n) !in w.shots.seen
    ensures var w' := HandleSnowball(w, id, Some(ZERO), 0.0, ShotName(n), "");
            && w'.cache == w.cache && w'.bots == w.bots && w'.nextTask == w.nextTask + 1
            && w'.tasks == w.tasks[w.nextTask := Flight(id, ShotName(n), Muzzle(w.cache.entries[id].pos), ZERO, Human)]
            && w'.shots.seen == w.shots.seen[ShotName(n) := w.now + SHOT_DEDUP_MS]
  {}

  lemma FireEnabled(w: World, id: Id, n: nat)
    requires id in w.names
    ensures Enabled(w, OnSnowball(id, Some(ZERO), 0.0, ShotName(n), ""))
  {}

  lemma ReportFacts(w: World, id: Id, p: Vec3)
    requires id in w.names && id in w.cache.entries && w.cache.entries[id].hp > 0 && !OffMap(p)
    ensures var w' := HandleState(w, id, Report(p), ZERO);
            && w'.cache.entries == w.cache.entries[id := w'.cache.entries[id]] && w'.cache.order == w.cache.order
            && w'.cache.entries[id].pos == p && w'.cache.entries[id].hp == w.cache.entries[id].hp
            && w' == w.(cache := w'.cache)
  {}

  // --- the late death ---

  /** A place on the map that no bot comes near. */
  predicate Remote(p: Vec3) {
    p.x > SAFE_ZONE + 1.0 && p.y >= 0.0 && !OffMap(p)
  }

  /** Two clients stand at a remote place, and the victim has taken `n` hits. */
  ghost predicate Facing(w: World, shooter: Id, victim: Id, p: Vec3, n: nat) {
    && Remote(p) && shooter != victim && shooter in w.online && victim in w.online && w.names.Keys == {shooter, victim}
    && shooter in w.cache.entries && w.cache.entries[shooter].pos == p
    && victim in w.cache.entries && w.cache.entries[victim].pos == p && w.cache.entries[victim].hp == FULL_HP - DAMAGE * n
  }

  ghost predicate Duel(w: World, shooter: Id, victim: Id, p: Vec3, n: nat) {
    Facing(w, shooter, victim, p, n) && forall k: nat :: n <= k ==> ShotName(k) !in w.shots.seen
  }

  lemma NobodyElseThere(w: World, shooter: Id, victim: Id, p: Vec3, n: nat, v: Snapshot)
    requires IdsOk(w) && BotsOk(w) && Facing(w, shooter, victim, p, n)
    requires v.id in w.cache.entries && w.cache.entries[v.id] == v && v.id != shooter && p.x - v.pos.x <= HIT_RADIUS
    ensures v.id == victim
  {}

  lemma VictimStandsThere(w: World, shooter: Id, victim: Id, p: Vec3, n: nat) returns (k: nat)
    requires Facing(w, shooter, victim, p, n) && n < 10 && SnapOk(victim, w.cache.entries[victim])
    ensures k < |w.cache.order| && Values(w.cache)[k] == w.cache.entries[victim] && Eligible(Values(w.cache)[k], shooter, w.now)
  {
    assert victim in w.cache.order;
    k :| 0 <= k < |w.cache.order| && w.cache.order[k] == victim;
  }

  lemma RemoteDrop(w: World, shooter: Id, victim: Id, p: Vec3, n: nat, f: Task)
    requires Facing(w, shooter, victim, p, n) && n < 10 && SnapOk(victim, w.cache.entries[victim])
    requires f.Flight? && f.owner == shooter && f.origin == Muzzle(p) && f.dir == ZERO
    ensures var v := VictimOf(w, f); v.Some? && p.x - v.value.pos.x <= HIT_RADIUS
  {
    var k := VictimStandsThere(w, shooter, victim, p, n);
    DropFinds(Values(w.cache), shooter, p, w.now, k);
    DropVictim(w, f, p, FindVictim(Values(w.cache), shooter, Muzzle(p), ZERO, w.now));
  }

  /** A snowball that the shooter drops there strikes the victim. */
  lemma RemoteVictim(w: World, shooter: Id, victim: Id, p: Vec3, n: nat, t: nat)
    requires Sane(w) && Facing(w, shooter, victim, p, n) && n < 10
    requires t in w.tasks && w.tasks[t].Flight? && w.tasks[t].owner == shooter
    requires w.tasks[t].origin == Muzzle(p) && w.tasks[t].dir == ZERO
    ensures VictimOf(w, w.tasks[t]) == Some(w.cache.entries[victim])
  {
    assert SnapOk(victim, w.cache.entries[victim]);
    RemoteDrop(w, shooter, victim, p, n, w.tasks[t]);
    VictimIsCached(w, w.tasks[t]);
    NobodyElseThere(w, shooter, victim, p, n, VictimOf(w, w.tasks[t]).value);
  }

  lemma StruckThere(w: World, shooter: Id, victim: Id, p: Vec3, n: nat, t: nat)
    requires Sane(w) && Facing(w, shooter, victim, p, n) && n < 10
    requires t in w.tasks && w.tasks[t] == Flight(shooter, ShotName(n), Muzzle(p), ZERO, Human)
    ensures var w' := HandleFlight(w, t);
            && Ready(w, ResumeFlight(t))
            && shooter in w'.cache.entries && w'.cache.entries[shooter].pos == p
            && victim in w'.cache.entries && w'.cache.entries[victim].pos == p && w'.cache.entries[victim].hp == FULL_HP - DAMAGE * (n + 1)
            && w'.shots == w.shots
            && (n == 9 ==> && w'.cache.entries[victim].deadUntil == w.now + RESPAWN_MS
                           && t in w'.tasks && w'.tasks[t].Doom? && w'.tasks[t].victimId == victim && w'.tasks[t].turn.Human?)
  {
    RemoteVictim(w, shooter, victim, p, n, t);
    HitVictim(w, w.tasks[t], w.cache.entries[victim], shooter);
    HitVictim(w, w.tasks[t], w.cache.entries[victim], victim);
    assert SnapOk(victim, w.cache.entries[victim]);
    FlightKeepsBooks(w, t);
  }

  lemma FiredInDuel(w: World, shooter: Id, victim: Id, p: Vec3, n: nat)
    requires Duel(w, shooter, victim, p, n) && n < 10
    ensures var w' := HandleSnowball(w, shooter, Some(ZERO), 0.0, ShotName(n), "");
            && w.nextTask in w'.tasks && w'.tasks[w.nextTask] == Flight(shooter, ShotName(n), Muzzle(p), ZERO, Human)
            && w'.cache == w.cache && w'.online == w.online && w'.names == w.names && w'.now == w.now
            && (forall k: nat :: n < k ==> ShotName(k) !in w'.shots.seen)
  {
    FireFacts(w, shooter, n);
    SnowballIsStill(w, shooter, Some(ZERO), 0.0, ShotName(n), "");
    forall k: nat | n < k ensures ShotName(k) != ShotName(n) {
      assert |ShotName(k)| != |ShotName(n)|;
    }
  }

  lemma DuelFires(w0: World, acts: seq<Action>, w: World, shooter: Id, victim: Id, p: Vec3, n: nat)
    returns (acts': seq<Action>, w': World)
    requires Initial(w0) && Leads(w0, acts, w) && Duel(w, shooter, victim, p, n) && n < 10
    ensures Leads(w0, acts', w') && w'.now == w.now && Sane(w') && Facing(w', shooter, victim, p, n)
    ensures w.nextTask in w'.tasks && w'.tasks[w.nextTask] == Flight(shooter, ShotName(n), Muzzle(p), ZERO, Human)
    ensures forall k: nat :: n < k ==> ShotName(k) !in w'.shots.seen
  {
    var fire := OnSnowball(shooter, Some(ZERO), 0.0, ShotName(n), "");
    FireEnabled(w, shooter, n);
    LeadsOn(w0, acts, w, fire);
    FiredInDuel(w, shooter, victim, p, n);
    acts', w' := acts + [fire], HandleSnowball(w, shooter, Some(ZERO), 0.0, ShotName(n), "");
    LeadsSane(w0, acts', w');
  }

  /** One shot of the duel: the victim loses ten points; the tenth leaves a death suspended. */
  lemma DuelRound(w0: World, acts: seq<Action>, w: World, shooter: Id, victim: Id, p: Vec3, n: nat)
    returns (acts': seq<Action>, w': World, t: nat)
    requires Initial(w0) && Leads(w0, acts, w) && Duel(w, shooter, victim, p, n) && n < 10
    ensures Leads(w0, acts', w') && w'.now == w.now
    ensures n < 9 ==> Duel(w', shooter, victim, p, n + 1)
    ensures n == 9 ==> Fallen(w', victim, t)
  {
    var acts1, w1 := DuelFires(w0, acts, w, shooter, victim, p, n);
    t := w.nextTask;
    ShotResolves(w1, shooter, victim, p, n, t);
    LeadsOn(w0, acts1, w1, ResumeFlight(t));
    acts', w' := acts1 + [ResumeFlight(t)], HandleFlight(w1, t);
  }

  /** The victim is dead, and its death is suspended in task `t`. */
  ghost predicate Fallen(w: World, victim: Id, t: nat) {
    && victim in w.online && victim in w.names && victim in w.cache.entries
    && w.cache.entries[victim].hp == 0 && w.cache.entries[victim].deadUntil == w.now + RESPAWN_MS
    && t in w.tasks && w.tasks[t].Doom? && w.tasks[t].victimId == victim && w.tasks[t].turn.Human?
  }

  lemma ShotResolves(w: World, shooter: Id, victim: Id, p: Vec3, n: nat, t: nat)
    requires Sane(w) && Facing(w, shooter, victim, p, n) && n < 10
    requires forall k: nat :: n < k ==> ShotName(k) !in w.shots.seen
    requires t in w.tasks && w.tasks[t] == Flight(shooter, ShotName(n), Muzzle(p), ZERO, Human)
    ensures Enabled(w, ResumeFlight(t)) && HandleFlight(w, t).now == w.now
    ensures n < 9 ==> Duel(HandleFlight(w, t), shooter, victim, p, n + 1)
    ensures n == 9 ==> Fallen(HandleFlight(w, t), victim, t)
  {
    StruckThere(w, shooter, victim, p, n, t);
    FlightIsStill(w, t);
  }

  lemma {:induction false} Volley(w0: World, acts: seq<Action>, w: World, shooter: Id, victim: Id, p: Vec3, n: nat)
    returns (acts': seq<Action>, w': World, t: nat)
    requires Initial(w0) && Leads(w0, acts, w) && Duel(w, shooter, victim, p, n) && n < 10
    ensures Leads(w0, acts', w') && Fallen(w', victim, t)
    decreases 10 - n
  {
    acts', w', t := DuelRound(w0, acts, w, shooter, victim, p, n);
    if n < 9 {
      acts', w', t := Volley(w0, acts', w', shooter, victim, p, n + 1);
    }
  }

  /** Everything that the join of a client leaves alone. */
  ghost predicate Joined(w: World, w': World, id: Id) {
    && w'.cache.entries == w.cache.entries[id := Newcomer(id, "", ZERO, w.now)] && w'.cache.order == w.cache.order + [id]
    && w'.online == w.online + {id} && w'.names.Keys == w.names.Keys + {id} && w'.now == w.now
    && w'.bots == w.bots && w'.roster == w.roster && w'.tasks == w.tasks && w'.nextTask == w.nextTask && w'.shots == w.shots
  }

  lemma HelloJoins(w: World, id: Id)
    requires id !in w.cache.entries
    ensures Joined(w, HandleHello(w, id, "", ZERO, w.now), id)
  {
    HelloFrame(w, id, "", ZERO, w.now);
  }

  lemma StrangerMayJoin(w: World, id: Id)
    requires IdsOk(w) && NamesOk(w) && !IsBotId(id) && id !in w.names
    ensures Enabled(w, OnHello(id, "", ZERO, w.now)) && id !in w.cache.entries
  {}

  lemma JoinedNames(w: World, w': World, id: Id)
    requires NamesOk(w) && Joined(w, w', id) && !IsBotId(id)
    ensures NamesOk(w')
  {}

  lemma Joins(w0: World, acts: seq<Action>, w: World, id: Id) returns (acts': seq<Action>, w': World)
    requires Initial(w0) && Leads(w0, acts, w) && NamesOk(w) && !IsBotId(id) && id !in w.names
    ensures Leads(w0, acts', w') && Joined(w, w', id) && NamesOk(w')
  {
    LeadsSane(w0, acts, w);
    StrangerMayJoin(w, id);
    LeadsOn(w0, acts, w, OnHello(id, "", ZERO, w.now));
    HelloJoins(w, id);
    acts', w' := acts + [OnHello(id, "", ZERO, w.now)], HandleHello(w, id, "", ZERO, w.now);
    JoinedNames(w, w', id);
  }

  lemma NothingYet(w0: World)
    requires Initial(w0)
    ensures Leads(w0, [], w0) && NamesOk(w0) && w0.names == map[] && w0.shots.seen == map[]
  {
    InitialNames(w0);
  }

  lemma JoinedBoth(w0: World, w1: World, w: World, shooter: Id, victim: Id)
    requires w0.names == map[] && w0.shots.seen == map[] && shooter != victim && Joined(w0, w1, shooter) && Joined(w1, w, victim)
    ensures shooter in w.online && victim in w.online && w.names.Keys == {shooter, victim}
    ensures shooter in w.cache.entries && victim in w.cache.entries
    ensures w.cache.entries[shooter].hp == w.cache.entries[victim].hp == FULL_HP && w.shots.seen == map[]
  {}

  /** Two clients connect. */
  lemma BothJoin(w0: World, shooter: Id, victim: Id) returns (acts: seq<Action>, w: World)
    requires Initial(w0) && shooter != victim && !IsBotId(shooter) && !IsBotId(victim)
    ensures Leads(w0, acts, w) && shooter in w.online && victim in w.online && w.names.Keys == {shooter, victim}
    ensures shooter in w.cache.entries && victim in w.cache.entries
    ensures w.cache.entries[shooter].hp == w.cache.entries[victim].hp == FULL_HP && w.shots.seen == map[]
  {
    NothingYet(w0);
    var w1;
    acts, w1 := Joins(w0, [], w0, shooter);
    acts, w := Joins(w0, acts, w1, victim);
    JoinedBoth(w0, w1, w, shooter, victim);
  }

  lemma Walks(w0: World, acts: seq<Action>, w: World, id: Id, p: Vec3) returns (w': World)
    requires Leads(w0, acts, w) && id in w.names && id in w.cache.entries && w.cache.entries[id].hp > 0 && !OffMap(p)
    ensures Leads(w0, acts + [OnState(id, Report(p), ZERO)], w')
    ensures id in w'.cache.entries && w'.cache.entries == w.cache.entries[id := w'.cache.entries[id]] && w'.cache.order == w.cache.order
    ensures w'.cache.entries[id].pos == p && w'.cache.entries[id].hp == w.cache.entries[id].hp
    ensures w' == w.(cache := w'.cache)
  {
    ReportFacts(w, id, p);
    LeadsOn(w0, acts, w, OnState(id, Report(p), ZERO));
    w' := HandleState(w, id, Report(p), ZERO);
  }

  lemma DuelBegins(w0: World, shooter: Id, victim: Id, p: Vec3) returns (acts: seq<Action>, w: World)
    requires Initial(w0) && shooter != victim && !IsBotId(shooter) && !IsBotId(victim) && Remote(p)
    ensures Leads(w0, acts, w) && Duel(w, shooter, victim, p, 0)
  {
    acts, w := BothJoin(w0, shooter, victim);
    var w1 := Walks(w0, acts, w, shooter, p);
    acts := acts + [OnState(shooter, Report(p), ZERO)];
    w := Walks(w0, acts, w1, victim, p);
    acts := acts + [OnState(victim, Report(p), ZERO)];
  }

  lemma DueRevives(w: World, victim: Id, p: Vec3)
    requires victim in w.names && victim in w.cache.entries && w.cache.entries[victim].hp == 0 && w.cache.entries[victim].deadUntil == w.now
    requires Remote(p)
    ensures var w' := HandleState(w, victim, Report(p), ZERO);
            && Still(w, w') && w'.tasks == w.tasks && GotRevived(w, w', victim)
  {
    assert StateRevives(w, victim, Report(p));
    StateRevivesEvolves(w, victim, Report(p), ZERO, victim);
    StateIsStill(w, victim, Report(p), ZERO);
  }

  lemma RevivedFormula(w: World, w': World, v: Id)
    requires GotRevived(w, w', v)
    ensures PlainFormula(w', v) && w'.cache.entries[v].hp == FULL_HP
  {
    TallyLogged(w, w', Respawn(v, w'.cache.entries[v].pos, FULL_HP), v);
  }

  /** The dead victim reports its state when its time has come, and is back while its death is still suspended. */
  lemma Returns(w: World, victim: Id, t: nat, p: Vec3) returns (w': World)
    requires Fallen(w, victim, t) && Remote(p)
    ensures var w1 := w.(now := w.now + RESPAWN_MS);
            && Enabled(w, Pass(w.now + RESPAWN_MS)) && Enabled(w1, OnState(victim, Report(p), ZERO))
            && w' == Step(w1, OnState(victim, Report(p), ZERO))
    ensures victim in w'.online && PlainFormula(w', victim) && w'.cache.entries[victim].hp == FULL_HP
    ensures Enabled(w', ResumeDoom(t, "")) && w'.tasks[t].victimId == victim
  {
    var w1 := w.(now := w.now + RESPAWN_MS);
    DueRevives(w1, victim, p);
    w' := HandleState(w1, victim, Report(p), ZERO);
    RevivedFormula(w1, w', victim);
  }

  /**
    From every initial state there is a run after which a connected player has no hit points although
    it was not hit since it came back: its death was announced after its respawn.
   */
  lemma LateDeathBreaksFormula(w0: World, shooter: Id, victim: Id, p: Vec3) returns (acts: seq<Action>, w: World)
    requires Initial(w0) && shooter != victim && !IsBotId(shooter) && !IsBotId(victim) && Remote(p)
    ensures Leads(w0, acts, w) && victim in w.online && !PlainFormula(w, victim)
  {
    var t;
    acts, w := DuelBegins(w0, shooter, victim, p);
    acts, w, t := Volley(w0, acts, w, shooter, victim, p, 0);
    LeadsSane(w0, acts, w);
    var w2 := Returns(w, victim, t, p);
    LeadsOn(w0, acts, w, Pass(w.now + RESPAWN_MS));
    var w1 := w.(now := w.now + RESPAWN_MS);
    acts := acts + [Pass(w.now + RESPAWN_MS)];
    LeadsOn(w0, acts, w1, OnState(victim, Report(p), ZERO));
    acts := acts + [OnState(victim, Report(p), ZERO)];
    LeadsSane(w0, acts, w2);
    LeadsOn(w0, acts, w2, ResumeDoom(t, ""));
    acts, w := acts + [ResumeDoom(t, "")], Step(w2, ResumeDoom(t, ""));
    StepFrame(w2, ResumeDoom(t, ""));
    FormulaIffTimely(w2, ResumeDoom(t, ""), victim);
  }

  // --- the lost damage ---

  /** A run that follows the bot all the way, without any write-back. */
  ghost predicate Follows(w0: World, acts: seq<Action>, w: World, b: Id) {
    Leads(w0, acts, w) && FollowedRuns(w0, acts, b) && b in w.bots && b in w.cache.entries
  }

  lemma {:induction false} FollowedOn(w0: World, acts: seq<Action>, w: World, a: Action, b: Id)
    requires Leads(w0, acts, w) && FollowedRuns(w0, acts, b) && Enabled(w, a) && Followed(w, a, b)
    ensures FollowedRuns(w0, acts + [a], b)
    decreases |acts|
  {
    if acts == [] {
      assert [] + [a] == [a];
      assert [a][1..] == [];
    } else {
      FollowedOn(Step(w0, acts[0]), acts[1..], w, a, b);
      assert (acts + [a])[1..] == acts[1..] + [a];
    }
  }

  lemma FollowsOn(w0: World, acts: seq<Action>, w: World, a: Action, b: Id)
    requires Follows(w0, acts, w, b) && Enabled(w, a) && !a.SettleBot? && b in Step(w, a).cache.entries
    ensures Follows(w0, acts + [a], Step(w, a), b)
  {
    LeadsOn(w0, acts, w, a);
    FollowedOn(w0, acts, w, a, b);
    StepFrame(w, a);
  }

  /** Math.random always draws 0, every angle leads east, and the terrain is flat. */
  function Eastward(): Draws {
    Draws(_ => 0.0, _ => (1.0, 0.0), 0.0, (_, _) => 0.0)
  }

  /** Where one tick brings a bot that walks east. */
  function Beside(p: Vec3): Vec3 {
    Vec3(p.x + STRIDE, 0.0, p.z)
  }

  function EastTurn(pos: Vec3): BotChoice {
    BotChoice(Eastward(), Clamp(pos.x + 10.0, SAFE_ZONE) - pos.x, 0.0, 0.0, 0.3, "bot-shot")
  }

  lemma EastTarget(cur: Vec3)
    requires InSquare(cur, SPAWN_SPAN / 2.0)
    ensures MoveTarget(cur, Eastward()) == Vec3(Clamp(cur.x + 10.0, SAFE_ZONE), 0.0, cur.z)
  {}

  lemma EastWalk(x: real, dist: real)
    requires dist > ARRIVAL && -SAFE_ZONE <= x <= SAFE_ZONE
    ensures Walked(x, x + dist, dist) == x + STRIDE && Walked(x, x, dist) == x
  {}

  lemma EastAdvance(b: Bot, dist: real, yaw: real)
    requires b.target.Some? && b.target.value.x == b.pos.x + dist && b.target.value.z == b.pos.z
    requires dist > ARRIVAL && InSquare(b.pos, SAFE_ZONE)
    ensures var m := Advance(b, dist, Eastward().height, yaw); m.pos == Beside(b.pos) && m.lastShotAt == b.lastShotAt
    ensures IsDist(dist, b.pos, b.target.value)
  {
    EastWalk(b.pos.x, dist);
    EastWalk(b.pos.z, dist);
    assert b.pos.x - b.target.value.x == -dist;
    assert (-dist) * (-dist) == dist * dist;
  }

  lemma Strolls(b: Bot, tickAt: int)
    requires b.target.None? && InSquare(b.pos, SPAWN_SPAN / 2.0)
    ensures var c := EastTurn(b.pos);
            var m := MovedBot(b, tickAt, c);
            m.pos == Beside(b.pos) && m.lastShotAt == b.lastShotAt && DistOk(b, tickAt, c)
  {
    var c := EastTurn(b.pos);
    EastTarget(b.pos);
    EastAdvance(Retarget(b, tickAt, MoveTarget(b.pos, c.draws)), c.dist, c.yaw);
  }

  /** Everybody but one client, who stands at `q`, is a bot. */
  ghost predicate OneClient(cache: Dict<Snapshot>, id: Id, q: Vec3) {
    && !IsBotId(id) && id in cache.entries && cache.entries[id].pos == q && cache.entries[id].hp > 0
    && forall k :: k in cache.entries ==> cache.entries[k].id == k && (k == id || IsBotId(k))
  }

  lemma NearestIsTheClient(cache: Dict<Snapshot>, id: Id, q: Vec3, from: Vec3)
    requires OneClient(cache, id, q)
    ensures var r := Nearest(Values(cache), from); r.Some? && Values(cache)[r.value].pos == q
  {
    var players := Values(cache);
    assert id in cache.order;
    var k :| 0 <= k < |cache.order| && cache.order[k] == id;
    assert Targetable(players[k]);
    NearestIsMinimal(players, from, |players|);
  }

  /** A bot that comes to stand where the client stands aims 0.3 down. */
  lemma AimsDown(w: World, bot: Id, id: Id, m: Bot, c: BotChoice)
    requires bot in w.bots && bot in w.cache.entries && bot != id && IsBotId(bot) && OneClient(w.cache, id, m.pos) && c.aimLen == 0.3
    ensures AimOk(w, bot, m, c)
    ensures Nearest(Values(WalkBot(w, bot, m).cache), m.pos).Some?
  {
    assert OneClient(WalkBot(w, bot, m).cache, id, m.pos);
    NearestIsTheClient(WalkBot(w, bot, m).cache, id, m.pos, m.pos);
  }

  /** The bot whose turn comes next is due to shoot at the client, who waits where the bot will be. */
  ghost predicate Ambush(w: World, t: nat, bot: Id, id: Id) {
    && t in w.tasks && w.tasks[t].Visit? && w.tasks[t].rest != [] && w.tasks[t].rest[0] == bot && IsBotId(bot)
    && bot in w.bots && bot in w.cache.entries && w.cache.entries[bot].hp == FULL_HP
    && w.bots[bot].target.None? && InSquare(w.bots[bot].pos, SPAWN_SPAN / 2.0)
    && w.tasks[t].tickAt as real - w.bots[bot].lastShotAt > SHOT_INTERVAL
    && OneClient(w.cache, id, Beside(w.bots[bot].pos))
  }

  lemma EastwardIsOk()
    ensures DrawsOk(Eastward())
  {}

  lemma AmbushChoice(w: World, bot: Id, tickAt: int, id: Id)
    requires bot in w.bots && bot in w.cache.entries && bot != id && IsBotId(bot)
    requires w.bots[bot].target.None? && InSquare(w.bots[bot].pos, SPAWN_SPAN / 2.0)
    requires OneClient(w.cache, id, Beside(w.bots[bot].pos))
    ensures var c := EastTurn(w.bots[bot].pos);
            && ChoiceOk(w, bot, tickAt, c)
            && Nearest(Values(WalkBot(w, bot, MovedBot(w.bots[bot], tickAt, c)).cache), Beside(w.bots[bot].pos)).Some?
  {
    EastwardIsOk();
    Strolls(w.bots[bot], tickAt);
    AimsDown(w, bot, id, MovedBot(w.bots[bot], tickAt, EastTurn(w.bots[bot].pos)), EastTurn(w.bots[bot].pos));
  }

  lemma AmbushEnabled(w: World, t: nat, bot: Id, id: Id)
    requires Ambush(w, t, bot, id)
    ensures Enabled(w, VisitBot(t, EastTurn(w.bots[bot].pos)))
  {
    AmbushChoice(w, bot, w.tasks[t].tickAt, id);
  }

  /** The bot's turn is suspended on its shot, with the healthy snapshot that it will write back. */
  ghost predicate Aiming(w: World, t: nat, bot: Id) {
    && t in w.tasks && w.tasks[t].Flight? && w.tasks[t].owner == bot
    && w.tasks[t].turn.BotTurn? && w.tasks[t].turn.bot == bot && w.tasks[t].turn.before.hp == FULL_HP
  }

  lemma BotActsAims(w: World, t: nat, bot: Id, m: Bot, tickAt: int, rest: seq<Id>, c: BotChoice)
    requires bot in w.bots && bot in w.cache.entries && w.cache.entries[bot].hp == FULL_HP
    requires tickAt as real - m.lastShotAt > SHOT_INTERVAL && Nearest(Values(WalkBot(w, bot, m).cache), m.pos).Some?
    ensures var w' := BotActs(w, t, bot, m, tickAt, rest, c);
            && Aiming(w', t, bot)
            && w'.cache.entries == w.cache.entries[bot := w.cache.entries[bot].(pos := m.pos)] && w'.cache.order == w.cache.order
            && w'.nextTask == w.nextTask && w'.shots == w.shots
  {}

  /** The visit leaves the bot aiming, next to the client. */
  lemma AmbushSprings(w: World, t: nat, bot: Id, id: Id)
    requires Ambush(w, t, bot, id)
    ensures var w' := HandleVisit(w, t, EastTurn(w.bots[bot].pos));
            && Aiming(w', t, bot)
            && w'.cache.entries == w.cache.entries[bot := w.cache.entries[bot].(pos := Beside(w.bots[bot].pos))]
            && w'.cache.order == w.cache.order && w'.nextTask == w.nextTask && w'.shots == w.shots
  {
    var tickAt, rest, c := w.tasks[t].tickAt, w.tasks[t].rest[1..], EastTurn(w.bots[bot].pos);
    AmbushChoice(w, bot, tickAt, id);
    Strolls(w.bots[bot], tickAt);
    BotActsAims(w.(tasks := w.tasks[t := Visit(tickAt, rest)]), t, bot, MovedBot(w.bots[bot], tickAt, c), tickAt, rest, c);
  }

  /** A snowball dropped on the first player of the table strikes that player. */
  lemma FirstIsVictim(w: World, f: Task, v: Id)
    requires f.Flight? && f.dir == ZERO && w.cache.order != [] && w.cache.order[0] == v && v in w.cache.entries
    requires Eligible(w.cache.entries[v], f.owner, w.now) && w.cache.entries[v].pos.y >= 0.0
    requires f.origin == Muzzle(w.cache.entries[v].pos)
    ensures VictimOf(w, f) == Some(w.cache.entries[v])
  {
    var p := w.cache.entries[v].pos;
    DropFinds(Values(w.cache), f.owner, p, w.now, 0);
    DropVictim(w, f, p, FindVictim(Values(w.cache), f.owner, Muzzle(p), ZERO, w.now));
  }

  /** The aiming bot lost ten points, and nobody else any. */
  ghost predicate Hurt(w: World, w': World, t: nat, bot: Id) {
    && Aiming(w', t, bot) && bot in w'.cache.entries && w'.cache.entries[bot].hp == FULL_HP - DAMAGE
    && w'.cache.entries.Keys == w.cache.entries.Keys
    && forall k :: k in w.cache.entries && k != bot ==> w'.cache.entries[k].hp == w.cache.entries[k].hp
  }

  lemma StrikeLands(w: World, u: nat, t: nat, bot: Id, victim: Snapshot)
    requires u in w.tasks && w.tasks[u].Flight? && w.tasks[u].turn.Human? && Aiming(w, t, bot)
    requires bot in w.cache.entries && w.cache.entries[bot] == victim && victim.id == bot && victim.hp == FULL_HP
    ensures Hurt(w, HandleStrike(w, u, victim), t, bot)
  {
    assert HandleStrike(w, u, victim) == EndShot(AfterHit(w, w.tasks[u], victim), u, Human, Some(w.now));
    HitVictim(w, w.tasks[u], victim, bot);
  }

  lemma FlightStrikes(w: World, u: nat, v: Snapshot)
    requires Ready(w, ResumeFlight(u)) && VictimOf(w, w.tasks[u]) == Some(v)
    ensures HandleFlight(w, u) == HandleStrike(w, u, v)
  {}

  /** The client drops a snowball on the aiming bot. */
  lemma ClientStrikes(w: World, u: nat, t: nat, bot: Id)
    requires u in w.tasks && w.tasks[u].Flight? && w.tasks[u].turn.Human? && Aiming(w, t, bot)
    requires bot in w.cache.entries && w.cache.entries[bot].id == bot && w.cache.entries[bot].hp == FULL_HP
    requires VictimOf(w, w.tasks[u]) == Some(w.cache.entries[bot])
    ensures Hurt(w, HandleFlight(w, u), t, bot)
  {
    FlightStrikes(w, u, w.cache.entries[bot]);
    StrikeLands(w, u, t, bot, w.cache.entries[bot]);
  }

  /** The bot's own shot ends, whatever it hits, and its write-back is next. */
  lemma BotShotEnds(w: World, t: nat, bot: Id)
    requires CacheOk(w) && Ready(w, ResumeFlight(t)) && Aiming(w, t, bot) && bot in w.cache.entries
    requires forall k :: k in w.cache.entries && k != bot ==> w.cache.entries[k].hp == FULL_HP
    ensures var w' := HandleFlight(w, t);
            && t in w'.tasks && w'.tasks[t].Settle? && w'.tasks[t].bot == bot && w'.tasks[t].before.hp == FULL_HP
            && bot in w'.cache.entries && w'.cache.entries[bot].hp == w.cache.entries[bot].hp
  {
    VictimIsCached(w, w.tasks[t]);
    FlightEvolves(w, t, bot);
    var v := VictimOf(w, w.tasks[t]);
    if v.Some? { assert HpAfterHit(v.value.hp) == 90; }
  }

  // --- the run ---

  /** The first bot of the table, the only client and everybody else before the ambush. */
  ghost predicate Before(w: World, bot: Id, id: Id) {
    && id in w.online && w.names.Keys == {id} && NamesOk(w) && bot in w.bots && w.roster != [] && w.roster[0] == bot
    && w.cache.order != [] && w.cache.order[0] == bot && bot in w.cache.entries && id in w.cache.entries
    && (forall k :: k in w.cache.entries ==> w.cache.entries[k].hp == FULL_HP)
    && w.bots[bot].target.None? && InSquare(w.bots[bot].pos, SPAWN_SPAN / 2.0)
    && w.shots.seen == map[]
  }

  lemma InitialBefore(w0: World, w: World, id: Id)
    requires Initial(w0) && Joined(w0, w, id) && NamesOk(w)
    ensures Before(w, BOT_IDS[0], id) && w.bots[BOT_IDS[0]].lastShotAt <= w.now as real + SHOT_INTERVAL
  {
    assert BOT_IDS[0] in w0.cache.order;
    assert forall k :: k in w0.bots ==> NewBot(k, w0.bots[k], w0.cache.entries[k], w0.now);
  }

  lemma ClientJoins(w0: World, id: Id) returns (acts: seq<Action>, w: World)
    requires Initial(w0) && !IsBotId(id)
    ensures Follows(w0, acts, w, BOT_IDS[0]) && Before(w, BOT_IDS[0], id)
    ensures w.bots[BOT_IDS[0]].lastShotAt <= w.now as real + SHOT_INTERVAL
  {
    NothingYet(w0);
    assert BOT_IDS[0] in w0.cache.order;
    assert Follows(w0, [], w0, BOT_IDS[0]);
    assert id !in w0.cache.entries;
    HelloJoins(w0, id);
    acts, w := [] + [OnHello(id, "", ZERO, w0.now)], HandleHello(w0, id, "", ZERO, w0.now);
    FollowsOn(w0, [], w0, OnHello(id, "", ZERO, w0.now), BOT_IDS[0]);
    InitialBefore(w0, w, id);
  }

  lemma ClockKeepsBefore(w: World, until: int, bot: Id, id: Id)
    requires Before(w, bot, id)
    ensures Before(w.(now := until), bot, id)
  {}

  lemma BesideIsOnMap(p: Vec3)
    requires InSquare(p, SPAWN_SPAN / 2.0)
    ensures !OffMap(Beside(p))
  {}

  lemma ClientSteps(w0: World, acts: seq<Action>, w: World, bot: Id, id: Id) returns (acts': seq<Action>, w': World)
    requires Follows(w0, acts, w, bot) && Before(w, bot, id) && bot != id
    ensures Follows(w0, acts', w', bot) && Before(w', bot, id) && w'.now == w.now && w'.bots == w.bots
    ensures w'.cache.entries[id].pos == Beside(w'.bots[bot].pos)
  {
    var p := Beside(w.bots[bot].pos);
    BesideIsOnMap(w.bots[bot].pos);
    ReportFacts(w, id, p);
    FollowsOn(w0, acts, w, OnState(id, Report(p), ZERO), bot);
    acts', w' := acts + [OnState(id, Report(p), ZERO)], HandleState(w, id, Report(p), ZERO);
  }

  /** The client joins, waits until the bot is due to shoot, and steps where the bot will be. */
  lemma ClientWaits(w0: World, id: Id) returns (acts: seq<Action>, w: World)
    requires Initial(w0) && !IsBotId(id)
    ensures Follows(w0, acts, w, BOT_IDS[0]) && Before(w, BOT_IDS[0], id)
    ensures w.now as real - w.bots[BOT_IDS[0]].lastShotAt > SHOT_INTERVAL && w.cache.entries[id].pos == Beside(w.bots[BOT_IDS[0]].pos)
  {
    var w1;
    acts, w1 := ClientJoins(w0, id);
    FollowsOn(w0, acts, w1, Pass(w1.now + 20001), BOT_IDS[0]);
    ClockKeepsBefore(w1, w1.now + 20001, BOT_IDS[0], id);
    acts, w := ClientSteps(w0, acts + [Pass(w1.now + 20001)], w1.(now := w1.now + 20001), BOT_IDS[0], id);
  }

  lemma BeforeIsAmbush(w: World, bot: Id, id: Id)
    requires CacheOk(w) && IdsOk(w) && Before(w, bot, id) && w.nextTask !in w.tasks
    requires w.now as real - w.bots[bot].lastShotAt > SHOT_INTERVAL && w.cache.entries[id].pos == Beside(w.bots[bot].pos)
    ensures Ambush(HandleStartBots(w), w.nextTask, bot, id)
  {
    forall k | k in w.cache.entries ensures w.cache.entries[k].id == k && (k == id || IsBotId(k)) {
      assert SnapOk(k, w.cache.entries[k]);
    }
  }

  /** The bot aims at the client from the client's own place; everybody is healthy. */
  ghost predicate AimedAt(w: World, t: nat, bot: Id, id: Id) {
    && Aiming(w, t, bot) && id in w.names && id in w.cache.entries && bot in w.cache.entries && id != bot
    && w.cache.entries[id].pos == w.cache.entries[bot].pos && w.cache.entries[id].pos.y == 0.0
    && w.cache.order != [] && w.cache.order[0] == bot && w.shots.seen == map[]
    && forall k :: k in w.cache.entries ==> w.cache.entries[k].hp == FULL_HP
  }

  lemma AmbushAims(w: World, t: nat, bot: Id, id: Id)
    requires Ambush(w, t, bot, id) && Before(w, bot, id)
    ensures AimedAt(HandleVisit(w, t, EastTurn(w.bots[bot].pos)), t, bot, id)
  {
    AmbushSprings(w, t, bot, id);
    VisitIsStill(w, t, EastTurn(w.bots[bot].pos));
  }

  lemma StartKeepsBefore(w: World, bot: Id, id: Id)
    requires Before(w, bot, id)
    ensures Before(HandleStartBots(w), bot, id)
  {}

  lemma TickBegins(w0: World, id: Id) returns (acts: seq<Action>, w: World, t: nat)
    requires Initial(w0) && !IsBotId(id)
    ensures Follows(w0, acts, w, BOT_IDS[0]) && Ambush(w, t, BOT_IDS[0], id) && Before(w, BOT_IDS[0], id)
  {
    var w1;
    acts, w1 := ClientWaits(w0, id);
    LeadsSane(w0, acts, w1);
    t := w1.nextTask;
    BeforeIsAmbush(w1, BOT_IDS[0], id);
    StartKeepsBefore(w1, BOT_IDS[0], id);
    FollowsOn(w0, acts, w1, StartBots, BOT_IDS[0]);
    acts, w := acts + [StartBots], HandleStartBots(w1);
  }

  /** A tick begins, and the bot's turn is suspended on its shot. */
  lemma BotAims(w0: World, id: Id) returns (acts: seq<Action>, w: World, t: nat)
    requires Initial(w0) && !IsBotId(id)
    ensures Follows(w0, acts, w, BOT_IDS[0]) && AimedAt(w, t, BOT_IDS[0], id)
  {
    var w1;
    acts, w1, t := TickBegins(w0, id);
    var visit := VisitBot(t, EastTurn(w1.bots[BOT_IDS[0]].pos));
    AmbushEnabled(w1, t, BOT_IDS[0], id);
    AmbushAims(w1, t, BOT_IDS[0], id);
    FollowsOn(w0, acts, w1, visit, BOT_IDS[0]);
    acts, w := acts + [visit], Step(w1, visit);
  }

  /** The client's snowball strikes the aiming bot, whose own shot then ends. */
  lemma BotIsStruck(w0: World, id: Id) returns (acts: seq<Action>, w: World, t: nat)
    requires Initial(w0) && !IsBotId(id)
    ensures Follows(w0, acts, w, BOT_IDS[0]) && w.cache.entries[BOT_IDS[0]].hp == FULL_HP - DAMAGE
    ensures Ready(w, SettleBot(t)) && w.tasks[t].bot == BOT_IDS[0] && w.tasks[t].before.hp == FULL_HP
  {
    var bot := BOT_IDS[0];
    var w1, w2;
    acts, w1, t := BotAims(w0, id);
    acts, w2 := ClientFires(w0, acts, w1, t, bot, id);
    LeadsSane(w0, acts, w2);
    BotShotEnds(w2, t, bot);
    FollowsOn(w0, acts, w2, ResumeFlight(t), bot);
    acts, w := acts + [ResumeFlight(t)], HandleFlight(w2, t);
  }

  lemma AimedVictim(w: World, t: nat, bot: Id, id: Id, w': World, u: nat)
    requires AimedAt(w, t, bot, id) && w.cache.entries[bot].id == bot && w'.cache == w.cache && u !in w.tasks
    requires w'.tasks == w.tasks[u := Flight(id, ShotName(0), Muzzle(w.cache.entries[id].pos), ZERO, Human)]
    ensures Aiming(w', t, bot) && VictimOf(w', w'.tasks[u]) == Some(w'.cache.entries[bot])
  {
    FirstIsVictim(w', w'.tasks[u], bot);
  }

  lemma AimedFire(w: World, t: nat, bot: Id, id: Id)
    requires AimedAt(w, t, bot, id) && w.nextTask !in w.tasks && w.cache.entries[bot].id == bot
    ensures var w' := HandleSnowball(w, id, Some(ZERO), 0.0, ShotName(0), "");
            && w'.cache == w.cache && Aiming(w', t, bot)
            && w.nextTask in w'.tasks && w'.tasks[w.nextTask].Flight? && w'.tasks[w.nextTask].turn.Human?
            && VictimOf(w', w'.tasks[w.nextTask]) == Some(w'.cache.entries[bot])
  {
    FireFacts(w, id, 0);
    AimedVictim(w, t, bot, id, HandleSnowball(w, id, Some(ZERO), 0.0, ShotName(0), ""), w.nextTask);
  }

  lemma ClientFires(w0: World, acts: seq<Action>, w: World, t: nat, bot: Id, id: Id) returns (acts': seq<Action>, w': World)
    requires Initial(w0) && Follows(w0, acts, w, bot) && AimedAt(w, t, bot, id)
    ensures Follows(w0, acts', w', bot) && Hurt(w, w', t, bot)
  {
    var fire, u := OnSnowball(id, Some(ZERO), 0.0, ShotName(0), ""), w.nextTask;
    LeadsSane(w0, acts, w);
    assert u !in w.tasks && SnapOk(bot, w.cache.entries[bot]);
    FireEnabled(w, id, 0);
    AimedFire(w, t, bot, id);
    FollowsOn(w0, acts, w, fire, bot);
    var w1 := Step(w, fire);
    ClientStrikes(w1, u, t, bot);
    FollowsOn(w0, acts + [fire], w1, ResumeFlight(u), bot);
    acts', w' := acts + [fire] + [ResumeFlight(u)], Step(w1, ResumeFlight(u));
  }

  /**
    From every initial state there is a run after which a bot has all its hit points in the player
    table although the event stream says that it was hit: the bot's write-back undid the damage.
   */
  lemma WriteBackLosesDamage(w0: World, id: Id) returns (acts: seq<Action>, w: World)
    requires Initial(w0) && !IsBotId(id)
    ensures Leads(w0, acts, w)
    ensures var bot, r := BOT_IDS[0], Replay(w0.cache, w.log.history);
            && bot in w.cache.entries && w.cache.entries[bot].hp == FULL_HP
            && bot in r.entries && r.entries[bot].hp == FULL_HP - DAMAGE
  {
    var bot, w1, t := BOT_IDS[0], w0, 0;
    acts, w1, t := BotIsStruck(w0, id);
    assert bot in w0.bots by { BotsAreConstant(w0, acts); }
    BotEventSourcing(w0, acts, bot);
    LeadsOn(w0, acts, w1, SettleBot(t));
    WrittenBack(w1, t);
    acts, w := acts + [SettleBot(t)], HandleSettle(w1, t);
  }
}
