/**
  Who gets the credit for a kill: the names in death events and kill rows, and
  what the leaderboard of a time window counts.
 */
module KillCredit {
  import opened Protocol
  import opened BotMotion
  import opened GameWorld
  import opened Invariants
  import opened Evolution
  import opened Bookkeeping
  import opened Throws
  import KillLedger

  // --- names ---

  /** The name the player table has for `id`, or "Unknown" if it has none. */
  function TableName(w: World, id: Id): string {
    if id in w.cache.entries && w.cache.entries[id].name != "" then w.cache.entries[id].name else "Unknown"
  }

  /** The death event of a suspended death, with this name for the attacker. */
  predicate Tells(b: Body, d: Task, attackerName: string) {
    && b.Death? && d.Doom? && b.victimId == d.victimId && b.victimName == d.victimName
    && b.attackerId == d.attackerId && b.attackerName == attackerName && b.shotId == d.shotId && b.respawnAt == d.respawnAt
  }

  /** The row of that death. */
  predicate Records(r: KillLedger.KillRecord, b: Body, killId: string, now: int) {
    && b.Death? && r.id == killId && r.timestamp == now && r.shotId == b.shotId
    && r.attackerId == b.attackerId && r.attackerName == b.attackerName && r.victimId == b.victimId && r.victimName == b.victimName
  }

  lemma ClientDeath(w: World, t: nat, killId: string) returns (b: Body)
    requires Ready(w, ResumeDoom(t, killId)) && w.tasks[t].turn.Human?
    ensures var w' := HandleDoom(w, t, killId);
            && Appends(w, w', b) && Tells(b, w.tasks[t], TableName(w, w.tasks[t].attackerId))
            && |w'.ledger.all| == |w.ledger.all| + 1 && w'.ledger.all[..|w.ledger.all|] == w.ledger.all
            && Records(w'.ledger.all[|w.ledger.all|], b, killId, w.now)
            && w'.ledger.kills == w.ledger.kills + [w'.ledger.all[|w.ledger.all|]]
  {
    b := DeathBody(w, w.tasks[t]);
  }

  lemma BotDeath(w: World, t: nat, killId: string) returns (b: Body)
    requires Ready(w, ResumeDoom(t, killId)) && w.tasks[t].turn.BotTurn? && w.tasks[t].turn.bot == w.tasks[t].attackerId
    ensures var w' := HandleDoom(w, t, killId);
            && Appends(w, w', b) && Tells(b, w.tasks[t], w.bots[w.tasks[t].attackerId].name)
            && w'.ledger == w.ledger
  {
    b := DeathBody(w, w.tasks[t]);
  }

  // --- the victim's name is the one at the lethal hit ---

  /** The victim is about to lose its last points, under the name and at the time that the suspended death carries. */
  predicate LethalFor(w: World, d: Task) {
    && d.Doom? && d.victimId in w.cache.entries && w.cache.entries[d.victimId].hp <= 10
    && d.victimName == w.cache.entries[d.victimId].name && d.hitAt == w.now
  }

  /** Somewhere along the run, the shot of task `t` resolves and is lethal for the victim under this name. */
  ghost predicate NamedAtHit(w: World, acts: seq<Action>, t: nat, d: Task)
    requires Runs(w, acts)
    decreases |acts|
  {
    acts != [] && ((acts[0].ResumeFlight? && acts[0].t == t && LethalFor(w, d)) || NamedAtHit(Step(w, acts[0]), acts[1..], t, d))
  }

  lemma StrikeDooms(w: World, t: nat, victim: Snapshot, u: nat)
    requires t in w.tasks && w.tasks[t].Flight? && victim.id in w.cache.entries && w.cache.entries[victim.id] == victim
    ensures var w' := HandleStrike(w, t, victim);
            u in w'.tasks && w'.tasks[u].Doom? ==> (u in w.tasks && w'.tasks[u] == w.tasks[u]) || (u == t && LethalFor(w, w'.tasks[u]))
  {}

  lemma NewDoom(w: World, a: Action, u: nat)
    requires CacheOk(w) && Ready(w, a)
    ensures var w' := Step(w, a);
            u in w'.tasks && w'.tasks[u].Doom? ==>
              || (u in w.tasks && w'.tasks[u] == w.tasks[u])
              || (a.ResumeFlight? && a.t == u && LethalFor(w, w'.tasks[u]))
  {
    if a.ResumeFlight? {
      var v := VictimOf(w, w.tasks[a.t]);
      VictimIsCached(w, w.tasks[a.t]);
      if v.Some? { StrikeDooms(w, a.t, v.value, u); }
    } else {
      OldDoom(w, a, u);
    }
  }

  lemma VisitDooms(w: World, t: nat, c: BotChoice, u: nat)
    requires Ready(w, VisitBot(t, c))
    ensures var w' := HandleVisit(w, t, c); u in w'.tasks && w'.tasks[u].Doom? ==> u in w.tasks && w'.tasks[u] == w.tasks[u]
  {
    var tickAt, rest := w.tasks[t].tickAt, w.tasks[t].rest;
    if rest != [] && rest[0] in w.cache.entries && w.cache.entries[rest[0]].hp > 0 {
      BotActsDooms(w.(tasks := w.tasks[t := Visit(tickAt, rest[1..])]), t, rest[0], MovedBot(w.bots[rest[0]], tickAt, c), tickAt, rest[1..], c, u);
    }
  }

  lemma BotActsDooms(w: World, t: nat, bot: Id, b: Bot, tickAt: int, rest: seq<Id>, c: BotChoice, u: nat)
    requires bot in w.bots && bot in w.cache.entries
    ensures var w' := BotActs(w, t, bot, b, tickAt, rest, c);
            u in w'.tasks && w'.tasks[u].Doom? ==> u in w.tasks && w'.tasks[u] == w.tasks[u]
  {}

  lemma OldDoom(w: World, a: Action, u: nat)
    requires Ready(w, a) && !a.ResumeFlight?
    ensures var w' := Step(w, a); u in w'.tasks && w'.tasks[u].Doom? ==> u in w.tasks && w'.tasks[u] == w.tasks[u]
  {
    if a.VisitBot? { VisitDooms(w, a.t, a.choice, u); }
  }

  lemma {:induction false} DoomsAreNamed(w: World, acts: seq<Action>, t: nat)
    requires Sane(w) && Runs(w, acts)
    ensures var w' := After(w, acts);
            t in w'.tasks && w'.tasks[t].Doom? ==> (t in w.tasks && w.tasks[t] == w'.tasks[t]) || NamedAtHit(w, acts, t, w'.tasks[t])
    decreases |acts|
  {
    if acts != [] {
      StepKeepsSane(w, acts[0]);
      DoomsAreNamed(Step(w, acts[0]), acts[1..], t);
      NewDoom(w, acts[0], t);
    }
  }

  /**
    The credit for a kill, in every run: the death event follows a lethal hit event of the same
    attacker, victim and shot; it names the victim as the table did at that hit; a client attacker as the
    table does now, or "Unknown"; a bot by its own name.  A row with the same names is recorded
    exactly for client attackers.
   */
  lemma KillCreditIsDue(w0: World, acts: seq<Action>, w: World, t: nat, killId: string) returns (b: Body)
    requires Initial(w0) && Runs(w0, acts) && w == After(w0, acts) && Ready(w, ResumeDoom(t, killId))
    ensures var w', d := Step(w, ResumeDoom(t, killId)), w.tasks[t];
            && (exists i :: 0 <= i < |w.log.history| && Foretells(w.log.history[i], d))
            && NamedAtHit(w0, acts, t, d)
            && Appends(w, w', b)
            && (if IsBotId(d.attackerId)
                then d.attackerId in w.bots && Tells(b, d, w.bots[d.attackerId].name) && w'.ledger == w.ledger
                else && Tells(b, d, TableName(w, d.attackerId))
                     && |w'.ledger.all| == |w.ledger.all| + 1 && w'.ledger.all[..|w.ledger.all|] == w.ledger.all
                     && Records(w'.ledger.all[|w.ledger.all|], b, killId, w.now))
  {
    InitialIsSane(w0);
    RunKeepsSane(w0, acts);
    RunStaysAccounted(w0, acts);
    InitialNames(w0);
    RunKeepsNames(w0, acts);
    DoomsAreNamed(w0, acts, t);
    var d := w.tasks[t];
    assert TaskOk(w, d) && Accounted(w.log.history, d);
    assert exists i :: 0 <= i < |w.log.history| && Foretells(w.log.history[i], d) by {
      var i :| 0 <= i < |w.log.history| && Accounts(w.log.history[i], d);
      assert Foretells(w.log.history[i], d);
    }
    b := DueDeath(w, t, killId);
  }

  lemma DueDeath(w: World, t: nat, killId: string) returns (b: Body)
    requires Ready(w, ResumeDoom(t, killId)) && TaskOk(w, w.tasks[t]) && NamesOk(w)
    ensures var w', d := HandleDoom(w, t, killId), w.tasks[t];
            && Appends(w, w', b)
            && (if IsBotId(d.attackerId)
                then d.attackerId in w.bots && Tells(b, d, w.bots[d.attackerId].name) && w'.ledger == w.ledger
                else && Tells(b, d, TableName(w, d.attackerId))
                     && |w'.ledger.all| == |w.ledger.all| + 1 && w'.ledger.all[..|w.ledger.all|] == w.ledger.all
                     && Records(w'.ledger.all[|w.ledger.all|], b, killId, w.now))
  {
    if w.tasks[t].turn.Human? { b := ClientDeath(w, t, killId); } else { b := BotDeath(w, t, killId); }
  }

  lemma {:induction false} RunKeepsNames(w: World, acts: seq<Action>)
    requires Runs(w, acts) && NamesOk(w)
    ensures NamesOk(After(w, acts))
    decreases |acts|
  {
    if acts != [] {
      StepKeepsNames(w, acts[0]);
      RunKeepsNames(Step(w, acts[0]), acts[1..]);
    }
  }

  // --- the leaderboard of a time window ---

  /** The death events after `since` that a client with this name caused. */
  ghost function DeathsSince(h: seq<Event>, name: string, since: real): set<nat> {
    set i: nat | i < |h| && KilledSince(h[i], name, since)
  }

  predicate KilledSince(e: Event, name: string, since: real) {
    e.body.Death? && !IsBotId(e.body.attackerId) && e.body.attackerName == name && e.at as real > since
  }

  lemma {:induction false} RowsSince(rows: seq<KillLedger.KillRecord>, h: seq<Event>, name: string, since: real)
    requires RowsFor(rows, h)
    ensures KillLedger.KillsSince(rows, name, since) == |DeathsSince(h, name, since)|
    decreases |h|
  {
    if |h| == 0 {
      assert DeathsSince(h, name, since) == {};
    } else {
      var last := |h| - 1;
      RowsSince(if IsClientKill(h[last]) then rows[..|rows| - 1] else rows, h[..last], name, since);
      LastDeath(h, name, since);
    }
  }

  lemma LastDeath(h: seq<Event>, name: string, since: real)
    requires |h| > 0
    ensures |DeathsSince(h, name, since)| == |DeathsSince(h[..|h| - 1], name, since)| + (if KilledSince(h[|h| - 1], name, since) then 1 else 0)
  {
    var last := |h| - 1;
    var before, after := DeathsSince(h[..last], name, since), DeathsSince(h, name, since);
    forall i: nat ensures i in after <==> i in before || (i == last && KilledSince(h[last], name, since)) {
      if i < last { assert h[..last][i] == h[i]; }
    }
    OneMore(before, after, last, KilledSince(h[last], name, since));
  }

  lemma OneMore(a: set<nat>, b: set<nat>, n: nat, more: bool)
    requires n !in a && forall i :: i in b <==> i in a || (i == n && more)
    ensures |b| == |a| + (if more then 1 else 0)
  {
    if more { assert b == a + {n}; } else { assert b == a; }
  }

  lemma {:induction false} SinceSplits(base: seq<KillLedger.KillRecord>, rows: seq<KillLedger.KillRecord>, name: string, since: real)
    requires forall i :: 0 <= i < |base| ==> base[i].timestamp as real <= since
    ensures KillLedger.KillsSince(base + rows, name, since) == KillLedger.KillsSince(rows, name, since)
    decreases |base| + |rows|
  {
    if |rows| > 0 {
      SinceSplits(base, rows[..|rows| - 1], name, since);
      assert (base + rows)[..|base + rows| - 1] == base + rows[..|rows| - 1];
    } else if |base| > 0 {
      assert base + rows == base;
      SinceSplits(base[..|base| - 1], [], name, since);
      assert base[..|base| - 1] + [] == base[..|base| - 1];
    }
  }

  /**
    The time leaderboard counts kills, in every run: for a window of at most 720 hours that begins within
    the run, the count for a name over the kill table is the number of death events since then that a
    client of that name caused.
   */
  lemma LeaderboardCountsDeaths(w0: World, acts: seq<Action>, w: World, name: string, hours: real, since: real)
    requires Initial(w0) && Runs(w0, acts) && w == After(w0, acts) && hours <= 720.0
    requires since == w.now as real - hours * 60.0 * 60.0 * 1000.0 && since >= w0.now as real
    ensures KillLedger.KillsSince(w.ledger.kills, name, since) == |DeathsSince(w.log.history, name, since)|
  {
    InitialIsSane(w0);
    InitialNames(w0);
    assert w0.ledger.all + [] == w0.ledger.all;
    var rows := RunFollows(w0.ledger.all, [], w0, acts);
    RunKeepsBooks(w0, acts);
    KillLedger.LeaderboardIsExact(w.ledger, w.now, name, hours);
    SinceSplits(w0.ledger.all, rows, name, since);
    RowsSince(rows, w.log.history, name, since);
  }

  // --- last seen ---

  /** A client kill that mentions the name, and no later one does. */
  ghost predicate LastNamed(h: seq<Event>, name: string, i: nat) {
    && i < |h| && Mentions(h[i], name)
    && forall j :: i < j < |h| ==> !Mentions(h[j], name)
  }

  predicate Mentions(e: Event, name: string) {
    IsClientKill(e) && (e.body.attackerName == name || e.body.victimName == name)
  }

  lemma {:induction false} RowsMention(base: seq<KillLedger.KillRecord>, rows: seq<KillLedger.KillRecord>, h: seq<Event>, name: string, i: nat)
    requires RowsFor(rows, h) && LastNamed(h, name, i)
    ensures KillLedger.LastMention(base + rows, name)
            == Some((h[i].at, if h[i].body.victimName == name then h[i].body.victimId else h[i].body.attackerId))
    decreases |h|
  {
    var last := |h| - 1;
    var all := base + rows;
    if IsClientKill(h[last]) {
      assert all[..|all| - 1] == base + rows[..|rows| - 1] && all[|all| - 1] == rows[|rows| - 1];
    }
    if i < last {
      assert !Mentions(h[last], name);
      RowsMention(base, if IsClientKill(h[last]) then rows[..|rows| - 1] else rows, h[..last], name, i);
    }
  }

  /** In every run, a name's statistics carry the time of the latest client kill that mentions it and the id under which it does. */
  lemma LastSeenAgreement(w0: World, acts: seq<Action>, w: World, name: string, i: nat)
    requires Initial(w0) && Runs(w0, acts) && w == After(w0, acts) && LastNamed(w.log.history, name, i)
    ensures var e, stats := w.log.history[i], w.ledger.stats;
            && name in stats && stats[name].lastSeen == e.at
            && stats[name].lastPlayerId == if e.body.victimName == name then e.body.victimId else e.body.attackerId
  {
    InitialIsSane(w0);
    InitialNames(w0);
    assert w0.ledger.all + [] == w0.ledger.all;
    var rows := RunFollows(w0.ledger.all, [], w0, acts);
    RunKeepsBooks(w0, acts);
    assert KillLedger.StatsMatch(w.ledger.stats, w.ledger.all, name);
    RowsMention(w0.ledger.all, rows, w.log.history, name, i);
  }
}
