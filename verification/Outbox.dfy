/** The coalescing state outbox of state.ts: the latest state per player, flushed in batches. */
module Outbox {
  import opened Protocol
  import opened OrderedMap

  datatype PendingState = PendingState(
    id: Id, pos: Vec3, rotY: real, vel: Vec3, crouch: bool, updatedAt: int, pingMs: Option<real>)

  /** `batches` is what was broadcast since the observed client connected. */
  datatype Box = Box(pending: Dict<PendingState>, batches: seq<seq<PendingState>>)

  datatype Op = Put(s: PendingState) | FlushTick(connected: bool)

  function Enqueue(o: Box, s: PendingState): Box {
    o.(pending := Set(o.pending, s.id, s))
  }

  /** Nothing is sent, and nothing dropped, without clients or without pending states. */
  function Flush(o: Box, connected: bool): Box {
    if !connected || |o.pending.order| == 0 then o else Box(Empty(), o.batches + [Values(o.pending)])
  }

  function Apply(o: Box, op: Op): Box {
    match op
    case Put(s) => Enqueue(o, s)
    case FlushTick(connected) => Flush(o, connected)
  }

  function Run(o: Box, ops: seq<Op>): Box
    decreases |ops|
  {
    if |ops| == 0 then o else Run(Apply(o, ops[0]), ops[1..])
  }

  /** A receiver that applies a list of states one by one to what it knows per player. */
  function Overlay(m: map<Id, PendingState>, list: seq<PendingState>): map<Id, PendingState> {
    if |list| == 0 then m else Overlay(m, list[..|list| - 1])[list[|list| - 1].id := list[|list| - 1]]
  }

  function OverlayBatches(m: map<Id, PendingState>, batches: seq<seq<PendingState>>): map<Id, PendingState> {
    if |batches| == 0 then m else Overlay(OverlayBatches(m, batches[..|batches| - 1]), batches[|batches| - 1])
  }

  /** Applying every enqueued update one by one, with no batching. */
  function OverlayPuts(m: map<Id, PendingState>, ops: seq<Op>): map<Id, PendingState>
    decreases |ops|
  {
    if |ops| == 0 then m
    else OverlayPuts(if ops[0].Put? then m[ops[0].s.id := ops[0].s] else m, ops[1..])
  }

  ghost predicate Keyed(o: Box) {
    forall k :: k in o.pending.entries ==> o.pending.entries[k].id == k
  }

  ghost predicate DistinctIds(list: seq<PendingState>) {
    forall i, j :: 0 <= i < j < |list| ==> list[i].id != list[j].id
  }

  ghost predicate BoxOk(o: Box) {
    Keyed(o) && forall i :: 0 <= i < |o.batches| ==> DistinctIds(o.batches[i])
  }

  lemma {:induction false} OverlayHits(m: map<Id, PendingState>, list: seq<PendingState>, i: nat)
    requires DistinctIds(list) && i < |list|
    ensures list[i].id in Overlay(m, list) && Overlay(m, list)[list[i].id] == list[i]
  {
    if i < |list| - 1 { OverlayHits(m, list[..|list| - 1], i); }
  }

  lemma {:induction false} OverlayMisses(m: map<Id, PendingState>, list: seq<PendingState>, k: Id)
    requires forall i :: 0 <= i < |list| ==> list[i].id != k
    ensures k in Overlay(m, list) <==> k in m
    ensures k in m ==> Overlay(m, list)[k] == m[k]
  {
    if |list| > 0 { OverlayMisses(m, list[..|list| - 1], k); }
  }

  /** A batch overlays exactly the pending table. */
  lemma OverlayValues(m: map<Id, PendingState>, d: Dict<PendingState>)
    requires forall k :: k in d.entries ==> d.entries[k].id == k
    ensures DistinctIds(Values(d))
    ensures Overlay(m, Values(d)) == m + d.entries
  {
    var list := Values(d);
    assert forall i :: 0 <= i < |list| ==> list[i].id == d.order[i];
    var r := Overlay(m, list);
    forall k
      ensures (k in r <==> k in m || k in d.entries) && (k in r ==> r[k] == (m + d.entries)[k])
    {
      if k in d.entries {
        assert k in d.order;
        var i :| 0 <= i < |d.order| && d.order[i] == k;
        OverlayHits(m, list, i);
      } else {
        assert k !in d.order;
        OverlayMisses(m, list, k);
      }
    }
    assert r.Keys == (m + d.entries).Keys;
  }

  /** What the receiver will know once the pending states are sent too. */
  ghost function Eventually(m: map<Id, PendingState>, o: Box): map<Id, PendingState> {
    OverlayBatches(m, o.batches) + o.pending.entries
  }

  lemma FlushIsLossless(m: map<Id, PendingState>, o: Box)
    requires BoxOk(o)
    ensures var o' := Box(Empty(), o.batches + [Values(o.pending)]);
            BoxOk(o') && Eventually(m, o') == Eventually(m, o)
  {
    var batches := o.batches + [Values(o.pending)];
    assert batches[..|o.batches|] == o.batches;
    OverlayValues(OverlayBatches(m, o.batches), o.pending);
    assert forall i :: 0 <= i < |batches| ==> DistinctIds(batches[i]);
    assert OverlayBatches(m, batches) == Eventually(m, o);
  }

  lemma ApplyIsLossless(m: map<Id, PendingState>, o: Box, op: Op)
    requires BoxOk(o)
    ensures BoxOk(Apply(o, op))
    ensures Eventually(m, Apply(o, op))
            == if op.Put? then Eventually(m, o)[op.s.id := op.s] else Eventually(m, o)
  {
    if op.FlushTick? { FlushIsLossless(m, o); }
  }

  lemma {:induction false} RunIsLossless(m: map<Id, PendingState>, o: Box, ops: seq<Op>)
    requires BoxOk(o)
    ensures BoxOk(Run(o, ops))
    ensures Eventually(m, Run(o, ops)) == OverlayPuts(Eventually(m, o), ops)
    decreases |ops|
  {
    if |ops| > 0 {
      ApplyIsLossless(m, o, ops[0]);
      RunIsLossless(m, Apply(o, ops[0]), ops[1..]);
    }
  }

  /**
    Coalescing is lossless per player: whenever nothing is pending, what a client knows from the
    batches is what it would know from every update one by one, starting with the states that
    were pending when it connected; and no batch names a player twice.
   */
  lemma CoalescingIsLossless(m: map<Id, PendingState>, o: Box, ops: seq<Op>)
    requires Keyed(o) && o.batches == []
    ensures var o' := Run(o, ops);
            && (forall i :: 0 <= i < |o'.batches| ==> DistinctIds(o'.batches[i]))
            && OverlayBatches(m, o'.batches) + o'.pending.entries == OverlayPuts(m + o.pending.entries, ops)
            && (o'.pending == Empty<PendingState>() ==> OverlayBatches(m, o'.batches) == OverlayPuts(m + o.pending.entries, ops))
  {
    RunIsLossless(m, o, ops);
    var o' := Run(o, ops);
    if o'.pending == Empty<PendingState>() {
      assert OverlayBatches(m, o'.batches) + o'.pending.entries == OverlayBatches(m, o'.batches);
    }
  }

  // --- a flush sends ---

  /** With a client connected a flush leaves nothing pending, and sends each pending state once; otherwise it does nothing. */
  lemma FlushSends(o: Box)
    requires Keyed(o)
    ensures Flush(o, false) == o
    ensures var o' := Flush(o, true);
            && o'.pending.entries == map[]
            && (o.pending.entries == map[] ==> o'.batches == o.batches)
            && (o.pending.entries != map[] ==>
                  && |o'.batches| == |o.batches| + 1 && o'.batches[..|o.batches|] == o.batches
                  && (var sent := o'.batches[|o.batches|];
                      DistinctIds(sent) && forall s :: s in sent <==> s.id in o.pending.entries && o.pending.entries[s.id] == s))
  {
    OverlayValues(map[], o.pending);
    var list := Values(o.pending);
    forall s: PendingState | s.id in o.pending.entries && o.pending.entries[s.id] == s ensures s in list {
      assert s.id in o.pending.order;
      var i :| 0 <= i < |o.pending.order| && o.pending.order[i] == s.id;
      assert list[i] == s;
    }
    if |o.pending.order| == 0 {
      assert o.pending.entries == map[] by { assert forall k :: k in o.pending.entries ==> k in o.pending.order; }
    } else {
      assert o.pending.order[0] in o.pending.order;
    }
  }

  lemma {:induction false} RunOn(o: Box, ops: seq<Op>, op: Op)
    ensures Run(o, ops + [op]) == Apply(Run(o, ops), op)
    decreases |ops|
  {
    if |ops| == 0 {
      assert ops + [op] == [op];
    } else {
      assert (ops + [op])[1..] == ops[1..] + [op];
      RunOn(Apply(o, ops[0]), ops[1..], op);
    }
  }

  /**
    After every flush with a client connected, what the client knows from the batches is what it would
    know from every update one by one; a flush without clients changes nothing.
   */
  lemma FlushDelivers(m: map<Id, PendingState>, o: Box, ops: seq<Op>)
    requires Keyed(o) && o.batches == []
    ensures OverlayBatches(m, Run(o, ops + [FlushTick(true)]).batches) == OverlayPuts(m + o.pending.entries, ops)
    ensures Run(o, ops + [FlushTick(false)]) == Run(o, ops)
  {
    var o1, o' := Run(o, ops), Run(o, ops + [FlushTick(true)]);
    RunOn(o, ops, FlushTick(true));
    RunOn(o, ops, FlushTick(false));
    RunIsLossless(m, o, ops);
    ApplyIsLossless(m, o1, FlushTick(true));
    FlushSends(o1);
    assert OverlayBatches(m, o'.batches) + o'.pending.entries == OverlayBatches(m, o'.batches);
  }

  class StateOutbox {
    var pendingStates: Dict<PendingState>
    ghost var batches: seq<seq<PendingState>>

    ghost function View(): Box
      reads this
    {
      Box(pendingStates, batches)
    }

    constructor ()
      ensures View() == Box(Empty(), [])
    {
      pendingStates, batches := Empty(), [];
    }

    method EnqueuePendingState(s: PendingState)
      modifies this
      ensures View() == Enqueue(old(View()), s)
    {
      pendingStates := Set(pendingStates, s.id, s);
    }

    /** One round of the flush loop; `sent` is the list broadcast to the clients, if any. */
    method FlushOnce(clientCount: nat) returns (sent: Option<seq<PendingState>>)
      modifies this
      ensures View() == Flush(old(View()), clientCount > 0)
      ensures batches == old(batches) + (if sent.Some? then [sent.value] else [])
    {
      sent := None;
      if clientCount == 0 { return; }
      if |pendingStates.order| == 0 { return; }
      var list := Values(pendingStates);
      pendingStates := Empty();
      batches := batches + [list];
      sent := Some(list);
    }
  }
}
