/**
  The player table agrees with the event stream: replaying the whole history
  with applyEventToCache from the initial bots gives the same membership, hit
  points and respawn times, in spite of all the direct writes to the table.
 */
module EventSourcing {
  import opened Protocol
  import opened OrderedMap
  import opened GameWorld
  import opened Invariants
  import opened Evolution

  function Replay(c0: Dict<Snapshot>, h: seq<Event>): Dict<Snapshot> {
    if |h| == 0 then c0 else ApplyEvent(Replay(c0, h[..|h| - 1]), h[|h| - 1])
  }

  lemma ReplayLogged(c0: Dict<Snapshot>, w: World, w': World, b: Body)
    requires Logged(w, w', b)
    ensures Replay(c0, w'.log.history)
            == ApplyEvent(Replay(c0, w.log.history), Event(w.log.latestSeq + 1, w.now, b))
  {}

  /** An event about somebody else keeps a player's membership and vital signs. */
  lemma ApplyOther(c: Dict<Snapshot>, e: Event, v: Id)
    requires Subject(e.body) != Some(v)
    ensures var c' := ApplyEvent(c, e);
            && (v in c'.entries <==> v in c.entries)
            && (v in c.entries ==> c'.entries[v].hp == c.entries[v].hp && c'.entries[v].deadUntil == c.entries[v].deadUntil)
  {}

  /** The replica agrees with the table on `v`; the respawn time may lag while a death is suspended. */
  ghost predicate Agrees(c0: Dict<Snapshot>, w: World, v: Id) {
    var r := Replay(c0, w.log.history);
    && v in w.cache.entries && v in r.entries
    && r.entries[v].hp == w.cache.entries[v].hp
    && (Dooms(w, v) == map[] ==> r.entries[v].deadUntil == w.cache.entries[v].deadUntil)
  }

  lemma QuietAgrees(c0: Dict<Snapshot>, w: World, w': World, v: Id)
    requires Agrees(c0, w, v) && Unharmed(w, w', v) && Unmentioned(w, w', v)
    ensures Agrees(c0, w', v)
  {
    if w'.log != w.log {
      var b :| Logged(w, w', b) && Subject(b) != Some(v) && !b.Moved?;
      ReplayLogged(c0, w, w', b);
      ApplyOther(Replay(c0, w.log.history), Event(w.log.latestSeq + 1, w.now, b), v);
    }
  }

  /** What a hit, a death and a respawn of a member do to its vital signs. */
  lemma ApplyToSubject(c: Dict<Snapshot>, e: Event, v: Id)
    requires v in c.entries && Subject(e.body) == Some(v) && (e.body.Hit? || e.body.Death? || e.body.Respawn?)
    ensures var c' := ApplyEvent(c, e);
            && v in c'.entries
            && (e.body.Hit? ==> c'.entries[v].hp == e.body.victimHp && c'.entries[v].deadUntil == c.entries[v].deadUntil)
            && (e.body.Death? ==> c'.entries[v].hp == 0 && c'.entries[v].deadUntil == e.body.respawnAt)
            && (e.body.Respawn? ==> c'.entries[v].hp == e.body.hp && c'.entries[v].deadUntil == 0)
  {}

  lemma ReplaySubject(c0: Dict<Snapshot>, w: World, w': World, b: Body, v: Id)
    requires Logged(w, w', b) && Agrees(c0, w, v) && Subject(b) == Some(v) && (b.Hit? || b.Death? || b.Respawn?)
    ensures var r, r' := Replay(c0, w.log.history), Replay(c0, w'.log.history);
            && v in r'.entries
            && (b.Hit? ==> r'.entries[v].hp == b.victimHp && r'.entries[v].deadUntil == r.entries[v].deadUntil)
            && (b.Death? ==> r'.entries[v].hp == 0 && r'.entries[v].deadUntil == b.respawnAt)
            && (b.Respawn? ==> r'.entries[v].hp == b.hp && r'.entries[v].deadUntil == 0)
  {
    ReplayLogged(c0, w, w', b);
    ApplyToSubject(Replay(c0, w.log.history), Event(w.log.latestSeq + 1, w.now, b), v);
  }

  lemma StruckAgrees(c0: Dict<Snapshot>, w: World, w': World, v: Id, t: nat)
    requires Agrees(c0, w, v) && GotStruck(w, w', v, t)
    ensures Agrees(c0, w', v)
  {
    var attacker, shotId :| Logged(w, w', Hit(attacker, v, w'.cache.entries[v].hp, shotId));
    ReplaySubject(c0, w, w', Hit(attacker, v, w'.cache.entries[v].hp, shotId), v);
    assert w'.cache.entries[v].hp == 0 ==> t in Dooms(w', v);
  }

  lemma KilledAgrees(c0: Dict<Snapshot>, w: World, w': World, v: Id, t: nat)
    requires Agrees(c0, w, v) && GotKilled(w, w', v, t)
    ensures Agrees(c0, w', v)
  {
    var name, attacker, attackerName, shotId :|
      Logged(w, w', Death(v, name, attacker, attackerName, shotId, w'.cache.entries[v].deadUntil));
    ReplaySubject(c0, w, w', Death(v, name, attacker, attackerName, shotId, w'.cache.entries[v].deadUntil), v);
  }

  lemma RevivedAgrees(c0: Dict<Snapshot>, w: World, w': World, v: Id)
    requires Agrees(c0, w, v) && GotRevived(w, w', v)
    ensures Agrees(c0, w', v)
  {
    ReplaySubject(c0, w, w', Respawn(v, w'.cache.entries[v].pos, FULL_HP), v);
  }

  lemma CausedAgrees(c0: Dict<Snapshot>, w: World, w': World, v: Id, e: Effect)
    requires Caused(w, w', v, e) && Agrees(c0, w, v)
    ensures Agrees(c0, w', v)
  {
    match e
    case Quiet => QuietAgrees(c0, w, w', v);
    case Struck(t) => StruckAgrees(c0, w, w', v, t);
    case Died(t) => KilledAgrees(c0, w, w', v, t);
    case Revived => RevivedAgrees(c0, w, w', v);
  }

  lemma EvolvedAgrees(c0: Dict<Snapshot>, w: World, a: Action, v: Id)
    requires Ready(w, a) && Evolves(w, a, v) && Agrees(c0, w, v)
    ensures Agrees(c0, Step(w, a), v)
  {
    CausedAgrees(c0, w, Step(w, a), v, EffectOf(w, a, v));
  }

  lemma StepKeepsAgreement(c0: Dict<Snapshot>, w: World, a: Action, v: Id)
    requires Sane(w) && Enabled(w, a) && v in Step(w, a).online
    requires v in w.online ==> Agrees(c0, w, v)
    ensures Agrees(c0, Step(w, a), v)
  {
    StepFrame(w, a);
    if v !in w.online {
      JoinBegins(w, a);
      var w' := Step(w, a);
      ReplayLogged(c0, w, w', Join(w'.cache.entries[v]));
      assert w'.cache.entries[v].id == v by { StepKeepsSane(w, a); assert SnapOk(v, w'.cache.entries[v]); }
    } else {
      StepEvolves(w, a, v);
      EvolvedAgrees(c0, w, a, v);
    }
  }

  // --- membership ---

  /** The members of the replica are exactly the connected clients and the bots. */
  ghost predicate MembersOk(c0: Dict<Snapshot>, w: World) {
    Replay(c0, w.log.history).entries.Keys == w.online + w.bots.Keys
  }

  function MembersAfter(online: set<Id>, body: Option<Body>): set<Id> {
    match body
    case Some(Join(p)) => online + {p.id}
    case Some(Leave(id, _)) => online - {id}
    case _ => online
  }

  lemma LoggedMembers(c0: Dict<Snapshot>, w: World, w': World, body: Option<Body>)
    requires MembersOk(c0, w) && LogIs(w, w', body) && w'.bots.Keys == w.bots.Keys
    requires w'.online == MembersAfter(w.online, body)
    requires body.Some? && body.value.Leave? ==> body.value.playerId !in w.bots
    ensures MembersOk(c0, w')
  {}

  lemma StepMembers(w: World, a: Action, body: Option<Body>)
    requires Ready(w, a) && Fits(w, a, body)
    ensures Step(w, a).online == MembersAfter(w.online, body)
    ensures body.Some? && body.value.Leave? ==> a.OnClose? && body.value.playerId == a.id
  {
    StepFrame(w, a);
  }

  lemma StepKeepsMembers(c0: Dict<Snapshot>, w: World, a: Action)
    requires Ready(w, a) && IdsOk(w) && MembersOk(c0, w)
    ensures MembersOk(c0, Step(w, a))
  {
    var body := StepLogs(w, a);
    StepFrame(w, a);
    StepMembers(w, a, body);
    LoggedMembers(c0, w, Step(w, a), body);
  }

  lemma {:induction false} RunKeepsAgreement(c0: Dict<Snapshot>, w: World, acts: seq<Action>)
    requires Sane(w) && Runs(w, acts) && MembersOk(c0, w)
    requires forall v :: v in w.online ==> Agrees(c0, w, v)
    ensures var w' := After(w, acts);
            MembersOk(c0, w') && forall v :: v in w'.online ==> Agrees(c0, w', v)
    decreases |acts|
  {
    if acts != [] {
      var w1 := Step(w, acts[0]);
      StepKeepsSane(w, acts[0]);
      StepKeepsMembers(c0, w, acts[0]);
      forall v | v in w1.online ensures Agrees(c0, w1, v) {
        StepKeepsAgreement(c0, w, acts[0], v);
      }
      RunKeepsAgreement(c0, w1, acts[1..]);
    }
  }

  /**
    Event-sourcing agreement, under every interleaving and with no timing assumption: the
    replayed history has exactly the connected clients and the bots as members, and every
    connected client has the same hit points, and the same respawn time unless a death of
    that client is suspended.
   */
  lemma EventSourcingAgreement(w0: World, acts: seq<Action>)
    requires Initial(w0) && Runs(w0, acts)
    ensures var w := After(w0, acts);
            var r := Replay(w0.cache, w.log.history);
            && r.entries.Keys == w.online + w.bots.Keys
            && forall v :: v in w.online ==>
                 && v in r.entries && v in w.cache.entries
                 && r.entries[v].hp == w.cache.entries[v].hp
                 && (Dooms(w, v) == map[] ==> r.entries[v].deadUntil == w.cache.entries[v].deadUntil)
  {
    InitialIsSane(w0);
    RunKeepsAgreement(w0.cache, w0, acts);
    var w := After(w0, acts);
    assert forall v :: v in w.online ==> Agrees(w0.cache, w, v);
  }
}
