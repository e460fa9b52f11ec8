/**
  The client's list and table of player models (client_src/network.js).  Only
  who is modelled matters here, so a message is reduced to the ids it names; a
  model is identified by a handle that no other model has.
 */
module ClientReplica {
  import opened Protocol
  import opened OrderedMap

  datatype Model = Model(handle: nat, id: Id, remote: bool)

  datatype Replica = Replica(
    players: seq<Model>,
    byId: Dict<Model>,
    localId: Option<Id>,
    local: Option<Model>,
    pendingSnapshot: Option<seq<Id>>,
    nextHandle: nat)

  datatype Msg =
    | Welcome(id: Id)
    | SnapshotMsg(ids: seq<Id>)
    | StatesMsg(ids: seq<Id>)
    | JoinEvent(id: Id)
    | LeaveEvent(id: Id)

  const NEW_CLIENT := Replica([], Empty(), None, None, None, 0)

  /** JavaScript's `!localPlayerId`. */
  predicate NoLocalId(r: Replica) {
    r.localId.None? || r.localId.value == ""
  }

  function AddModel(r: Replica, id: Id, remote: bool): Replica {
    var m := Model(r.nextHandle, id, remote);
    r.(players := r.players + [m], byId := Set(r.byId, id, m), nextHandle := r.nextHandle + 1)
  }

  function CreateLocal(r: Replica, id: Id): Replica {
    AddModel(r, id, false).(local := Some(Model(r.nextHandle, id, false)))
  }

  /** `splice` at the first index of `m`, if there is one. */
  function RemoveFirst(s: seq<Model>, m: Model): seq<Model> {
    if |s| == 0 then [] else if s[0] == m then s[1..] else [s[0]] + RemoveFirst(s[1..], m)
  }

  function Remove(r: Replica, id: Id): Replica {
    if id !in r.byId.entries then r
    else r.(byId := Delete(r.byId, id), players := RemoveFirst(r.players, r.byId.entries[id]))
  }

  /** One entry of a `states` message. */
  function SeeState(r: Replica, id: Id): Replica {
    if id == "" || Some(id) == r.localId || id in r.byId.entries then r else AddModel(r, id, true)
  }

  function SeeStates(r: Replica, ids: seq<Id>): Replica {
    if |ids| == 0 then r else SeeState(SeeStates(r, ids[..|ids| - 1]), ids[|ids| - 1])
  }

  /** One entry of a snapshot. */
  function SeeEntry(r: Replica, id: Id): Replica {
    if id == "" then r
    else if Some(id) == r.localId then (if r.local.None? then CreateLocal(r, id) else r)
    else if id in r.byId.entries then r
    else AddModel(r, id, true)
  }

  function SeeEntries(r: Replica, ids: seq<Id>): Replica {
    if |ids| == 0 then r else SeeEntry(SeeEntries(r, ids[..|ids| - 1]), ids[|ids| - 1])
  }

  predicate IsStray(r: Replica, id: Id, ids: seq<Id>) {
    Some(id) != r.localId && (id == "" || id !in ids)
  }

  /** Removes, in order, the strays among `keys`. */
  function DropStrays(r: Replica, keys: seq<Id>, ids: seq<Id>): Replica {
    if |keys| == 0 then r
    else
      var r' := DropStrays(r, keys[..|keys| - 1], ids);
      if IsStray(r, keys[|keys| - 1], ids) then Remove(r', keys[|keys| - 1]) else r'
  }

  function ApplySnapshot(r: Replica, ids: seq<Id>): Replica {
    var r1 := SeeEntries(r, ids);
    DropStrays(r1, r1.byId.order, ids)
  }

  /** A new identity: the old local player goes, and a snapshot that came early is applied. */
  function Adopt(r: Replica, id: Id): Replica {
    var r1 := if r.local.Some? && r.local.value.id != id then Remove(r, r.local.value.id).(local := None) else r;
    r1.(localId := Some(id))
  }

  function Receive(r: Replica, msg: Msg): Replica {
    match msg
    case Welcome(id) =>
      var r1 := Adopt(r, id);
      if r1.pendingSnapshot.Some? then ApplySnapshot(r1, r1.pendingSnapshot.value).(pendingSnapshot := None) else r1
    case SnapshotMsg(ids) => if NoLocalId(r) then r.(pendingSnapshot := Some(ids)) else ApplySnapshot(r, ids)
    case StatesMsg(ids) => SeeStates(r, ids)
    case JoinEvent(id) =>
      if NoLocalId(r) then r
      else if Some(id) == r.localId then (if r.local.None? then CreateLocal(r, id) else r)
      else if id in r.byId.entries then r
      else AddModel(r, id, true)
    case LeaveEvent(id) => Remove(r, id)
  }

  // --- consistency ---

  /** The list and the values of the table are the same set of models, without repetition. */
  ghost predicate Consistent(r: Replica) {
    && (forall i, j :: 0 <= i < j < |r.players| ==> r.players[i] != r.players[j])
    && (forall m :: m in r.players ==> m.id in r.byId.entries && r.byId.entries[m.id] == m)
    && (forall k :: k in r.byId.entries ==> r.byId.entries[k].id == k && r.byId.entries[k] in r.players)
    && (forall m :: m in r.players ==> m.handle < r.nextHandle)
  }

  /** The local model has the own id, and the own id is not in the table as long as there is no local model. */
  ghost predicate LocalOk(r: Replica) {
    && (r.local.Some? ==> r.localId == Some(r.local.value.id))
    && (!NoLocalId(r) && r.local.None? ==> r.localId.value !in r.byId.entries)
  }

  ghost predicate Good(r: Replica) {
    Consistent(r) && LocalOk(r)
  }

  lemma {:induction false} RemoveFirstKeeps(s: seq<Model>, m: Model)
    requires forall i, j :: 0 <= i < j < |s| ==> s[i] != s[j]
    ensures var t := RemoveFirst(s, m);
            && (forall i, j :: 0 <= i < j < |t| ==> t[i] != t[j])
            && forall x :: x in t <==> x in s && x != m
  {
    if |s| > 0 {
      RemoveFirstKeeps(s[1..], m);
      assert s == [s[0]] + s[1..];
      assert s[0] !in s[1..];
      var rest := RemoveFirst(s[1..], m);
      assert forall i :: 0 <= i < |rest| ==> rest[i] in s[1..];
    }
  }

  lemma AddKeepsConsistent(r: Replica, id: Id, remote: bool)
    requires Consistent(r) && id !in r.byId.entries
    ensures Consistent(AddModel(r, id, remote))
  {}

  lemma RemoveKeepsConsistent(r: Replica, id: Id)
    requires Consistent(r)
    ensures Consistent(Remove(r, id))
    ensures Remove(r, id).byId.entries.Keys == r.byId.entries.Keys - {id}
  {
    if id in r.byId.entries { RemoveFirstKeeps(r.players, r.byId.entries[id]); }
  }

  lemma SeeEntryKeepsGood(r: Replica, id: Id)
    requires Good(r)
    ensures Good(SeeEntry(r, id)) && SeeEntry(r, id).localId == r.localId
  {
    if id != "" && id !in r.byId.entries {
      if Some(id) == r.localId {
        if r.local.None? { AddKeepsConsistent(r, id, false); }
      } else {
        AddKeepsConsistent(r, id, true);
      }
    }
  }

  /** The non-empty ids of a message, other than the own. */
  ghost function Others(r: Replica, ids: seq<Id>): set<Id> {
    set id | id in ids && id != "" && Some(id) != r.localId
  }

  lemma {:induction false} SeeEntriesKeepGood(r: Replica, ids: seq<Id>)
    requires Good(r)
    ensures Good(SeeEntries(r, ids)) && SeeEntries(r, ids).localId == r.localId
  {
    if |ids| > 0 {
      SeeEntriesKeepGood(r, ids[..|ids| - 1]);
      SeeEntryKeepsGood(SeeEntries(r, ids[..|ids| - 1]), ids[|ids| - 1]);
    }
  }

  /** Seeing entries keeps all keys, adds all other players, and adds nobody else. */
  lemma {:induction false} SeeEntriesKeys(r: Replica, ids: seq<Id>, k: Id)
    ensures var r' := SeeEntries(r, ids);
            && r'.localId == r.localId
            && (k in r.byId.entries ==> k in r'.byId.entries)
            && (k in ids && k != "" && Some(k) != r.localId ==> k in r'.byId.entries)
            && (k in r'.byId.entries && k !in r.byId.entries ==> k in ids && k != "")
  {
    if |ids| > 0 {
      var last := |ids| - 1;
      SeeEntriesKeys(r, ids[..last], k);
      assert ids == ids[..last] + [ids[last]];
    }
  }

  lemma {:induction false} DropStraysKeepsGood(r: Replica, keys: seq<Id>, ids: seq<Id>)
    requires Good(r)
    ensures var r' := DropStrays(r, keys, ids);
            && Good(r') && r'.localId == r.localId
            && r'.byId.entries.Keys == r.byId.entries.Keys - (set k | k in keys && IsStray(r, k, ids))
  {
    if |keys| > 0 {
      var last := |keys| - 1;
      DropStraysKeepsGood(r, keys[..last], ids);
      RemoveKeepsConsistent(DropStrays(r, keys[..last], ids), keys[last]);
      assert keys == keys[..last] + [keys[last]];
    }
  }

  /** After a snapshot the remote players are exactly the snapshot's players without the own. */
  lemma SnapshotRepairs(r: Replica, ids: seq<Id>)
    requires Good(r)
    ensures var r' := ApplySnapshot(r, ids);
            && Good(r') && r'.localId == r.localId
            && (set k | k in r'.byId.entries && Some(k) != r'.localId) == Others(r, ids)
  {
    var r1 := SeeEntries(r, ids);
    SeeEntriesKeepGood(r, ids);
    DropStraysKeepsGood(r1, r1.byId.order, ids);
    var r' := ApplySnapshot(r, ids);
    forall k
      ensures k in r'.byId.entries && Some(k) != r'.localId <==> k in Others(r, ids)
    {
      SeeEntriesKeys(r, ids, k);
    }
  }

  lemma {:induction false} SeeStatesKeepGood(r: Replica, ids: seq<Id>)
    requires Good(r)
    ensures Good(SeeStates(r, ids)) && SeeStates(r, ids).localId == r.localId
  {
    if |ids| > 0 {
      var r1 := SeeStates(r, ids[..|ids| - 1]);
      SeeStatesKeepGood(r, ids[..|ids| - 1]);
      var id := ids[|ids| - 1];
      if id !in r1.byId.entries { AddKeepsConsistent(r1, id, true); }
    }
  }

  // --- all message sequences ---

  /** The new own id is not already in the table as somebody else's. */
  ghost predicate Clean(r: Replica, id: Id) {
    id == "" || id !in r.byId.entries || (r.local.Some? && r.local.value.id == id)
  }

  lemma AdoptKeepsGood(r: Replica, id: Id)
    requires Good(r) && Clean(r, id)
    ensures Good(Adopt(r, id))
  {
    if r.local.Some? { RemoveKeepsConsistent(r, r.local.value.id); }
  }

  lemma ReceiveKeepsGood(r: Replica, msg: Msg)
    requires Good(r) && (msg.Welcome? ==> Clean(r, msg.id))
    ensures Good(Receive(r, msg))
  {
    match msg
    case Welcome(id) =>
      AdoptKeepsGood(r, id);
      if r.pendingSnapshot.Some? { SnapshotRepairs(Adopt(r, id), r.pendingSnapshot.value); }
    case SnapshotMsg(ids) => SnapshotRepairs(r, ids);
    case StatesMsg(ids) => SeeStatesKeepGood(r, ids);
    case JoinEvent(id) => if id !in r.byId.entries { AddKeepsConsistent(r, id, Some(id) != r.localId); }
    case LeaveEvent(id) => RemoveKeepsConsistent(r, id);
  }

  function ReceiveAll(r: Replica, msgs: seq<Msg>): Replica {
    if |msgs| == 0 then r else Receive(ReceiveAll(r, msgs[..|msgs| - 1]), msgs[|msgs| - 1])
  }

  /** Over every message sequence whose welcomes are clean, list and table stay the same duplicate-free set. */
  lemma {:induction false} ReplicaStaysConsistent(r: Replica, msgs: seq<Msg>)
    requires Good(r)
    requires forall i :: 0 <= i < |msgs| && msgs[i].Welcome? ==> Clean(ReceiveAll(r, msgs[..i]), msgs[i].id)
    ensures Good(ReceiveAll(r, msgs))
  {
    if |msgs| > 0 {
      var front := msgs[..|msgs| - 1];
      assert forall i :: 0 <= i < |front| ==> front[..i] == msgs[..i];
      ReplicaStaysConsistent(r, front);
      ReceiveKeepsGood(ReceiveAll(r, front), msgs[|msgs| - 1]);
    }
  }

  // --- who is modelled ---

  lemma {:induction false} SeeStatesIds(r: Replica, ids: seq<Id>)
    ensures SeeStates(r, ids).localId == r.localId && SeeStates(r, ids).local == r.local
    ensures SeeStates(r, ids).byId.entries.Keys == r.byId.entries.Keys + Others(r, ids)
  {
    if |ids| > 0 {
      var last := |ids| - 1;
      SeeStatesIds(r, ids[..last]);
      assert ids == ids[..last] + [ids[last]];
      assert Others(r, ids) == Others(r, ids[..last]) + Others(r, [ids[last]]);
    }
  }

  /** A join adds its player, a leave removes it, a states message adds all others it names. */
  lemma EventMembers(r: Replica, msg: Msg)
    requires msg.JoinEvent? || msg.LeaveEvent? || msg.StatesMsg?
    ensures var ids, ids' := r.byId.entries.Keys, Receive(r, msg).byId.entries.Keys;
            && (msg.JoinEvent? ==>
                  ids' == if NoLocalId(r) || (r.localId == Some(msg.id) && r.local.Some?) then ids else ids + {msg.id})
            && (msg.LeaveEvent? ==> ids' == ids - {msg.id})
            && (msg.StatesMsg? ==> ids' == ids + Others(r, msg.ids))
    ensures Receive(r, msg).localId == r.localId
  {
    if msg.StatesMsg? { SeeStatesIds(r, msg.ids); }
  }

  /** A first own entry of a snapshot makes the local model. */
  lemma {:induction false} SeeEntriesOwn(r: Replica, ids: seq<Id>, own: Id)
    requires r.localId == Some(own) && own != ""
    ensures var r' := SeeEntries(r, ids);
            && (r'.local.Some? <==> r.local.Some? || own in ids)
            && (own in r'.byId.entries <==> own in r.byId.entries || (own in ids && r.local.None?))
            && r'.localId == r.localId
  {
    if |ids| > 0 {
      var last := |ids| - 1;
      SeeEntriesOwn(r, ids[..last], own);
      assert ids == ids[..last] + [ids[last]];
    }
  }

  /** After a snapshot the own id is modelled if it was, or if the snapshot names it and there was no local model; then there is one. */
  lemma SnapshotOwn(r: Replica, ids: seq<Id>, own: Id)
    requires Good(r) && r.localId == Some(own) && own != ""
    ensures var r' := Receive(r, SnapshotMsg(ids));
            && (r'.local.Some? <==> r.local.Some? || own in ids)
            && (own in r'.byId.entries <==> own in r.byId.entries || (own in ids && r.local.None?))
  {
    var r1 := SeeEntries(r, ids);
    SeeEntriesOwn(r, ids, own);
    SeeEntriesKeepGood(r, ids);
    DropStraysKeepsGood(r1, r1.byId.order, ids);
    DropKeepsLocal(r1, r1.byId.order, ids);
  }

  /** A welcome removes the old local player, if it has another id, and nobody else, and sets the own id. */
  lemma WelcomeMembers(r: Replica, id: Id)
    requires r.pendingSnapshot.None?
    ensures var r' := Receive(r, Welcome(id));
            && r'.localId == Some(id)
            && r'.byId.entries.Keys == r.byId.entries.Keys - (if r.local.Some? && r.local.value.id != id then {r.local.value.id} else {})
            && r'.local == if r.local.Some? && r.local.value.id != id then None else r.local
  {}

  ghost function Remotes(r: Replica): set<Id> {
    set k | k in r.byId.entries && Some(k) != r.localId
  }

  /** The server's view of who is there besides the client: joins and states add, leaves remove. */
  ghost function Present(others: set<Id>, own: Option<Id>, msgs: seq<Msg>): set<Id> {
    if |msgs| == 0 then others
    else
      var s := Present(others, own, msgs[..|msgs| - 1]);
      match msgs[|msgs| - 1]
      case JoinEvent(id) => if own == Some(id) then s else s + {id}
      case LeaveEvent(id) => s - {id}
      case StatesMsg(ids) => s + (set id | id in ids && id != "" && own != Some(id))
      case _ => s
  }

  /** After a snapshot, the remote players are at any time the snapshot's, plus those who joined or moved since, less those who left. */
  lemma {:induction false} ReplicaFollowsServer(r: Replica, ids: seq<Id>, msgs: seq<Msg>)
    requires Good(r) && !NoLocalId(r)
    requires forall i :: 0 <= i < |msgs| ==> msgs[i].JoinEvent? || msgs[i].LeaveEvent? || msgs[i].StatesMsg?
    ensures var r' := ReceiveAll(ApplySnapshot(r, ids), msgs);
            r'.localId == r.localId && Remotes(r') == Present(Others(r, ids), r.localId, msgs)
    decreases |msgs|
  {
    if |msgs| == 0 {
      SnapshotRepairs(r, ids);
    } else {
      var front, msg := msgs[..|msgs| - 1], msgs[|msgs| - 1];
      ReplicaFollowsServer(r, ids, front);
      EventMembers(ReceiveAll(ApplySnapshot(r, ids), front), msg);
    }
  }

  // --- a snapshot that comes before the welcome ---

  lemma {:induction false} EntriesIgnorePending(r: Replica, ids: seq<Id>, p: Option<seq<Id>>)
    ensures SeeEntries(r.(pendingSnapshot := p), ids) == SeeEntries(r, ids).(pendingSnapshot := p)
  {
    if |ids| > 0 { EntriesIgnorePending(r, ids[..|ids| - 1], p); }
  }

  lemma {:induction false} StraysIgnorePending(r: Replica, keys: seq<Id>, ids: seq<Id>, p: Option<seq<Id>>)
    ensures DropStrays(r.(pendingSnapshot := p), keys, ids) == DropStrays(r, keys, ids).(pendingSnapshot := p)
  {
    if |keys| > 0 { StraysIgnorePending(r, keys[..|keys| - 1], ids, p); }
  }

  /** A snapshot that comes before the first welcome waits for it: the client ends as if they had come the other way round. */
  lemma EarlySnapshotWaits(r: Replica, ids: seq<Id>, id: Id)
    requires NoLocalId(r) && r.pendingSnapshot.None? && id != ""
    ensures Receive(Receive(r, SnapshotMsg(ids)), Welcome(id)) == Receive(Receive(r, Welcome(id)), SnapshotMsg(ids))
    ensures Receive(Receive(r, SnapshotMsg(ids)), Welcome(id)).pendingSnapshot.None?
  {
    var r1 := Adopt(r, id);
    EntriesIgnorePending(r1, ids, Some(ids));
    EntriesIgnorePending(r1, ids, None);
    var r2 := SeeEntries(r1, ids);
    StraysIgnorePending(r2, r2.byId.order, ids, Some(ids));
    StraysIgnorePending(r2, r2.byId.order, ids, None);
    assert Adopt(r.(pendingSnapshot := Some(ids)), id) == r1.(pendingSnapshot := Some(ids));
    assert r1 == r1.(pendingSnapshot := None);
  }

  // --- local and remote models ---

  /** Exactly the models other than the local one are remote. */
  ghost predicate Flagged(r: Replica) {
    && (r.local.Some? ==> !r.local.value.remote)
    && (forall m :: m in r.players ==> (m.remote <==> r.local != Some(m)))
  }

  lemma SeeEntryKeepsFlags(r: Replica, id: Id)
    requires Flagged(r)
    ensures Flagged(SeeEntry(r, id)) && Flagged(SeeState(r, id))
  {}

  lemma {:induction false} SeeingKeepsFlags(r: Replica, ids: seq<Id>)
    requires Flagged(r)
    ensures Flagged(SeeEntries(r, ids)) && Flagged(SeeStates(r, ids))
  {
    if |ids| > 0 {
      SeeingKeepsFlags(r, ids[..|ids| - 1]);
      SeeEntryKeepsFlags(SeeEntries(r, ids[..|ids| - 1]), ids[|ids| - 1]);
      SeeEntryKeepsFlags(SeeStates(r, ids[..|ids| - 1]), ids[|ids| - 1]);
    }
  }

  lemma RemoveKeepsFlags(r: Replica, id: Id)
    requires Good(r) && Flagged(r)
    ensures Flagged(Remove(r, id)) && Consistent(Remove(r, id))
    ensures forall m :: m in Remove(r, id).players ==> m.id != id
  {
    RemoveKeepsConsistent(r, id);
    if id in r.byId.entries { RemoveFirstKeeps(r.players, r.byId.entries[id]); }
  }

  lemma {:induction false} DropStraysKeepsFlags(r: Replica, keys: seq<Id>, ids: seq<Id>)
    requires Good(r) && Flagged(r)
    ensures Flagged(DropStrays(r, keys, ids))
  {
    if |keys| > 0 {
      DropStraysKeepsFlags(r, keys[..|keys| - 1], ids);
      DropStraysKeepsGood(r, keys[..|keys| - 1], ids);
      RemoveKeepsFlags(DropStrays(r, keys[..|keys| - 1], ids), keys[|keys| - 1]);
    }
  }

  lemma SnapshotKeepsFlags(r: Replica, ids: seq<Id>)
    requires Good(r) && Flagged(r)
    ensures Flagged(ApplySnapshot(r, ids))
  {
    SeeEntriesKeepGood(r, ids);
    SeeingKeepsFlags(r, ids);
    DropStraysKeepsFlags(SeeEntries(r, ids), SeeEntries(r, ids).byId.order, ids);
  }

  lemma AdoptKeepsFlags(r: Replica, id: Id)
    requires Good(r) && Flagged(r)
    ensures Flagged(Adopt(r, id))
  {
    if r.local.Some? { RemoveKeepsFlags(r, r.local.value.id); }
  }

  lemma ReceiveKeepsFlags(r: Replica, msg: Msg)
    requires Good(r) && Flagged(r) && (msg.Welcome? ==> Clean(r, msg.id))
    ensures Flagged(Receive(r, msg))
  {
    match msg
    case Welcome(id) =>
      AdoptKeepsGood(r, id);
      AdoptKeepsFlags(r, id);
      if r.pendingSnapshot.Some? { SnapshotKeepsFlags(Adopt(r, id), r.pendingSnapshot.value); }
    case SnapshotMsg(ids) => SnapshotKeepsFlags(r, ids);
    case StatesMsg(ids) => SeeingKeepsFlags(r, ids);
    case JoinEvent(_) =>
    case LeaveEvent(id) => RemoveKeepsFlags(r, id);
  }

  /** Over every message sequence whose welcomes are clean, a new client has at most one model that is not remote, the local one. */
  lemma {:induction false} OnlyLocalIsNotRemote(msgs: seq<Msg>)
    requires forall i :: 0 <= i < |msgs| && msgs[i].Welcome? ==> Clean(ReceiveAll(NEW_CLIENT, msgs[..i]), msgs[i].id)
    ensures Good(ReceiveAll(NEW_CLIENT, msgs)) && Flagged(ReceiveAll(NEW_CLIENT, msgs))
  {
    ReplicaStaysConsistent(NEW_CLIENT, msgs);
    if |msgs| > 0 {
      var front := msgs[..|msgs| - 1];
      assert forall i :: 0 <= i < |front| ==> front[..i] == msgs[..i];
      OnlyLocalIsNotRemote(front);
      ReceiveKeepsFlags(ReceiveAll(NEW_CLIENT, front), msgs[|msgs| - 1]);
    }
  }

  // --- the welcome condition is exact ---

  /** A model of the own id is in the list although the table holds another one. */
  ghost predicate Orphaned(r: Replica, m: Model) {
    && m in r.players && r.localId == Some(m.id) && m.id != "" && r.local.Some?
    && m.id in r.byId.entries && r.byId.entries[m.id] != m
    && (forall k :: k in r.byId.entries ==> r.byId.entries[k].id == k)
  }

  lemma {:induction false} RemoveFirstSpares(s: seq<Model>, p: Model, m: Model)
    requires m in s && p != m
    ensures m in RemoveFirst(s, p)
  {
    if s[0] != m && s[0] != p { RemoveFirstSpares(s[1..], p, m); }
  }

  lemma {:induction false} OrphanSurvivesDrop(r: Replica, keys: seq<Id>, ids: seq<Id>, m: Model)
    requires Orphaned(r, m)
    ensures Orphaned(DropStrays(r, keys, ids), m)
  {
    if |keys| > 0 {
      var last := |keys| - 1;
      OrphanSurvivesDrop(r, keys[..last], ids, m);
      var r1 := DropStrays(r, keys[..last], ids);
      DropKeepsLocal(r, keys[..last], ids);
      if IsStray(r, keys[last], ids) && keys[last] in r1.byId.entries {
        RemoveFirstSpares(r1.players, r1.byId.entries[keys[last]], m);
      }
    }
  }

  lemma {:induction false} DropKeepsLocal(r: Replica, keys: seq<Id>, ids: seq<Id>)
    ensures DropStrays(r, keys, ids).localId == r.localId && DropStrays(r, keys, ids).local == r.local
  {
    if |keys| > 0 { DropKeepsLocal(r, keys[..|keys| - 1], ids); }
  }

  /** While the own id is in the table as a remote and there is no local model, its first entry in a snapshot orphans the remote. */
  lemma {:induction false} EntryOrphans(r: Replica, ids: seq<Id>, m: Model)
    requires Consistent(r) && r.localId == Some(m.id) && m.id != "" && r.local.None? && m in r.players && m.id in ids
    ensures Orphaned(SeeEntries(r, ids), m)
  {
    var last := |ids| - 1;
    var front := ids[..last];
    assert ids == front + [ids[last]];
    if m.id in front {
      EntryOrphans(r, front, m);
      var r1 := SeeEntries(r, front);
      assert SeeEntries(r, ids) == SeeEntry(r1, ids[last]);
    } else {
      EntriesBeforeOwn(r, front, m);
    }
  }

  lemma EntryBeforeOwn(r: Replica, id: Id, m: Model)
    requires Consistent(r) && r.localId == Some(m.id) && r.local.None? && m in r.players && m.id != id
    ensures var r' := SeeEntry(r, id);
            Consistent(r') && r'.localId == r.localId && r'.local.None? && m in r'.players
  {
    if id !in r.byId.entries { AddKeepsConsistent(r, id, true); }
  }

  lemma {:induction false} EntriesBeforeOwn(r: Replica, ids: seq<Id>, m: Model)
    requires Consistent(r) && r.localId == Some(m.id) && r.local.None? && m in r.players && m.id !in ids
    ensures var r' := SeeEntries(r, ids);
            Consistent(r') && r'.localId == r.localId && r'.local.None? && m in r'.players
  {
    if |ids| > 0 {
      var front, last := ids[..|ids| - 1], ids[|ids| - 1];
      EntriesBeforeOwn(r, front, m);
      assert last in ids;
      EntryBeforeOwn(SeeEntries(r, front), last, m);
    }
  }

  lemma UncleanWelcomeOrphans(r: Replica, id: Id, ids: seq<Id>)
    requires Good(r) && !Clean(r, id) && id in ids
    ensures !Consistent(ApplySnapshot(Adopt(r, id), ids))
  {
    var m := r.byId.entries[id];
    var r1 := Adopt(r, id);
    if r.local.Some? {
      var former := r.local.value.id;
      RemoveKeepsConsistent(r, former);
      if former in r.byId.entries { RemoveFirstKeeps(r.players, r.byId.entries[former]); }
    }
    assert Consistent(r1) && m in r1.players && m.id == id;
    EntryOrphans(r1, ids, m);
    var r2 := SeeEntries(r1, ids);
    OrphanSurvivesDrop(r2, r2.byId.order, ids, m);
  }

  /**
    The condition is exact: when a welcome is followed by a snapshot that names the own id, list
    and table agree if and only if the welcome was clean.
   */
  lemma WelcomeConditionIsExact(r: Replica, id: Id, ids: seq<Id>)
    requires Good(r) && r.pendingSnapshot.None? && id != "" && id in ids
    ensures Consistent(ReceiveAll(r, [Welcome(id), SnapshotMsg(ids)])) <==> Clean(r, id)
  {
    var msgs := [Welcome(id), SnapshotMsg(ids)];
    assert msgs[..1] == [Welcome(id)] && msgs[..1][..0] == [];
    assert ReceiveAll(r, msgs[..1]) == Adopt(r, id);
    assert ReceiveAll(r, msgs) == ApplySnapshot(Adopt(r, id), ids);
    if Clean(r, id) {
      AdoptKeepsGood(r, id);
      SnapshotRepairs(Adopt(r, id), ids);
    } else {
      UncleanWelcomeOrphans(r, id, ids);
    }
  }

  /**
    The server announces a join before it sends the welcome, and a reconnecting client still has
    its old id: the join makes a remote model of the new own id, the welcome is not clean, and
    the snapshot leaves that model orphaned.  A first connection ignores the join and is safe.
   */
  lemma ReconnectLeavesOrphan(r: Replica, id: Id, ids: seq<Id>)
    requires Good(r) && r.pendingSnapshot.None? && id != "" && id in ids && id !in r.byId.entries
    requires r.local.Some? ==> r.local.value.id != id
    requires r.localId != Some(id)
    ensures Consistent(ReceiveAll(r, [JoinEvent(id), Welcome(id), SnapshotMsg(ids)])) <==> NoLocalId(r)
  {
    var msgs := [JoinEvent(id), Welcome(id), SnapshotMsg(ids)];
    var r1 := Receive(r, JoinEvent(id));
    ReceiveKeepsGood(r, JoinEvent(id));
    WelcomeConditionIsExact(r1, id, ids);
    assert msgs[..2] == [JoinEvent(id), Welcome(id)] && msgs[..2][..1] == [JoinEvent(id)] && msgs[..2][..1][..0] == [];
    assert [Welcome(id), SnapshotMsg(ids)][..1] == [Welcome(id)] && [Welcome(id)][..0] == [];
    assert ReceiveAll(r, [JoinEvent(id)]) == r1;
    assert ReceiveAll(r, msgs[..2]) == Receive(r1, Welcome(id)) == ReceiveAll(r1, [Welcome(id)]);
    assert ReceiveAll(r, msgs) == ReceiveAll(r1, [Welcome(id), SnapshotMsg(ids)]);
  }

  // --- the program ---

  /** The module variables of the client and the handlers that update them. */
  class NetworkManager {
    var players: seq<Model>
    var playersById: Dict<Model>
    var localPlayerId: Option<Id>
    var localPlayer: Option<Model>
    var pendingSnapshot: Option<seq<Id>>
    var nextHandle: nat

    ghost function View(): Replica
      reads this
    {
      Replica(players, playersById, localPlayerId, localPlayer, pendingSnapshot, nextHandle)
    }

    constructor ()
      ensures View() == NEW_CLIENT && Good(View())
    {
      players, playersById, localPlayerId, localPlayer, pendingSnapshot, nextHandle := [], Empty(), None, None, None, 0;
    }

    method AddRemotePlayer(id: Id)
      modifies this
      ensures View() == AddModel(old(View()), id, true)
    {
      var rp := Model(nextHandle, id, true);
      nextHandle := nextHandle + 1;
      players := players + [rp];
      playersById := Set(playersById, id, rp);
    }

    method CreateLocalPlayer(id: Id)
      modifies this
      ensures View() == CreateLocal(old(View()), id)
    {
      var p := Model(nextHandle, id, false);
      nextHandle := nextHandle + 1;
      localPlayer := Some(p);
      players := players + [p];
      playersById := Set(playersById, id, p);
    }

    method RemovePlayer(id: Id)
      modifies this
      ensures View() == Remove(old(View()), id)
    {
      if id in playersById.entries {
        var p := playersById.entries[id];
        playersById := Delete(playersById, id);
        players := RemoveFirst(players, p);
      }
    }

    method OnStates(ids: seq<Id>)
      modifies this
      ensures View() == SeeStates(old(View()), ids)
    {
      ghost var r := View();
      for i := 0 to |ids|
        invariant View() == SeeStates(r, ids[..i])
      {
        assert ids[..i + 1][..i] == ids[..i];
        if ids[i] == "" { continue; }
        if Some(ids[i]) == localPlayerId { continue; }
        if ids[i] !in playersById.entries { AddRemotePlayer(ids[i]); }
      }
      assert ids[..|ids|] == ids;
    }

    method OnSnapshot(list: seq<Id>)
      modifies this
      ensures View() == ApplySnapshot(old(View()), list)
    {
      ghost var r := View();
      var ids := {};
      for i := 0 to |list|
        invariant View() == SeeEntries(r, list[..i])
        invariant forall k :: k in ids <==> k in list[..i] && k != ""
      {
        assert list[..i + 1][..i] == list[..i];
        assert list[..i + 1] == list[..i] + [list[i]];
        if list[i] == "" { continue; }
        ids := ids + {list[i]};
        if Some(list[i]) == localPlayerId {
          if localPlayer.None? { CreateLocalPlayer(list[i]); }
        } else if list[i] !in playersById.entries {
          AddRemotePlayer(list[i]);
        }
      }
      assert list[..|list|] == list;
      RemoveStrays(ids, list);
    }

    method RemoveStrays(ids: set<Id>, ghost list: seq<Id>)
      requires forall k :: k in ids <==> k in list && k != ""
      modifies this
      ensures View() == DropStrays(old(View()), old(View()).byId.order, list)
    {
      ghost var r := View();
      var keys := playersById.order;
      for i := 0 to |keys|
        invariant View() == DropStrays(r, keys[..i], list)
      {
        assert keys[..i + 1][..i] == keys[..i];
        DropKeepsLocal(r, keys[..i], list);
        if Some(keys[i]) != localPlayerId && keys[i] !in ids { RemovePlayer(keys[i]); }
      }
      assert keys[..|keys|] == keys;
    }

    method OnWelcome(id: Id)
      modifies this
      ensures View() == Receive(old(View()), Welcome(id))
    {
      if localPlayer.Some? && localPlayer.value.id != id {
        RemovePlayer(localPlayer.value.id);
        localPlayer := None;
      }
      localPlayerId := Some(id);
      if pendingSnapshot.Some? {
        OnSnapshot(pendingSnapshot.value);
        pendingSnapshot := None;
      }
    }

    method OnMessage(msg: Msg)
      modifies this
      ensures View() == Receive(old(View()), msg)
      ensures Good(old(View())) && (msg.Welcome? ==> Clean(old(View()), msg.id)) ==> Good(View())
    {
      ghost var r := View();
      match msg {
        case Welcome(id) => OnWelcome(id);
        case SnapshotMsg(ids) =>
          if localPlayerId.None? || localPlayerId.value == "" { pendingSnapshot := Some(ids); } else { OnSnapshot(ids); }
        case StatesMsg(ids) => OnStates(ids);
        case JoinEvent(id) =>
          if localPlayerId.Some? && localPlayerId.value != "" {
            if Some(id) == localPlayerId {
              if localPlayer.None? { CreateLocalPlayer(id); }
            } else if id !in playersById.entries {
              AddRemotePlayer(id);
            }
          }
        case LeaveEvent(id) => RemovePlayer(id);
      }
      if Good(r) && (msg.Welcome? ==> Clean(r, msg.id)) { ReceiveKeepsGood(r, msg); }
    }
  }
}
