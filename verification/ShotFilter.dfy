/** Shot deduplication of game.ts: a table of expiry times with a garbage collector. */
module ShotFilter {
  import opened Protocol

  datatype Acceptance = Acceptance(shotId: string, at: int)

  /** `accepted` is every acceptance ever made; the program keeps only `seen`. */
  datatype ShotBook = ShotBook(seen: map<string, int>, accepted: seq<Acceptance>)

  const EMPTY_BOOK := ShotBook(map[], [])

  predicate Refuses(b: ShotBook, id: string, now: int) {
    id in b.seen && b.seen[id] != 0 && b.seen[id] > now
  }

  function Accept(b: ShotBook, id: string, now: int): ShotBook {
    ShotBook(b.seen[id := now + SHOT_DEDUP_MS], b.accepted + [Acceptance(id, now)])
  }

  function Expire(b: ShotBook, now: int): ShotBook {
    b.(seen := map k | k in b.seen && b.seen[k] > now :: b.seen[k])
  }

  /** Every acceptance that can still matter is covered by an entry that expires no earlier. */
  ghost predicate Covered(b: ShotBook, now: int) {
    forall i :: 0 <= i < |b.accepted| ==>
      var a := b.accepted[i];
      && 0 <= a.at <= now
      && (a.at + SHOT_DEDUP_MS <= now || (a.shotId in b.seen && a.at + SHOT_DEDUP_MS <= b.seen[a.shotId]))
  }

  /** Every entry stems from an acceptance. */
  ghost predicate Backed(b: ShotBook) {
    forall id :: id in b.seen ==> Acceptance(id, b.seen[id] - SHOT_DEDUP_MS) in b.accepted
  }

  /** Acceptances of one id are at least 10 s apart. */
  ghost predicate Spaced(b: ShotBook) {
    forall i, j :: 0 <= i < j < |b.accepted| && b.accepted[i].shotId == b.accepted[j].shotId ==>
      b.accepted[i].at + 10000 <= b.accepted[j].at
  }

  ghost predicate BookOk(b: ShotBook, now: int) {
    now >= 0 && Covered(b, now) && Backed(b) && Spaced(b)
  }

  ghost predicate RecentlyAccepted(b: ShotBook, id: string, now: int) {
    exists i :: 0 <= i < |b.accepted| && b.accepted[i].shotId == id && now - b.accepted[i].at < 10000
  }

  /** Whatever the garbage collector did, an id is refused exactly when it was accepted less than 10 s ago. */
  lemma RefusedIffRecent(b: ShotBook, id: string, now: int)
    requires BookOk(b, now)
    ensures Refuses(b, id, now) <==> RecentlyAccepted(b, id, now)
  {}

  lemma AcceptKeepsBacked(b: ShotBook, id: string, now: int)
    requires Backed(b)
    ensures Backed(Accept(b, id, now))
  {}

  lemma AcceptKeepsCovered(b: ShotBook, id: string, now: int)
    requires Covered(b, now) && Backed(b) && now >= 0
    ensures Covered(Accept(b, id, now), now)
  {}

  lemma AcceptKeepsSpaced(b: ShotBook, id: string, now: int)
    requires Spaced(b) && !RecentlyAccepted(b, id, now)
    ensures Spaced(Accept(b, id, now))
  {
    var r := Accept(b, id, now);
    assert forall i :: 0 <= i < |b.accepted| ==> r.accepted[i] == b.accepted[i];
  }

  /** Acceptance keeps the book, so two acceptances of one id are always at least 10 s apart. */
  lemma AcceptKeepsBook(b: ShotBook, id: string, now: int)
    requires BookOk(b, now) && !Refuses(b, id, now)
    ensures BookOk(Accept(b, id, now), now)
  {
    AcceptKeepsBacked(b, id, now);
    AcceptKeepsCovered(b, id, now);
    RefusedIffRecent(b, id, now);
    AcceptKeepsSpaced(b, id, now);
  }

  lemma ExpireKeepsBook(b: ShotBook, now: int)
    requires BookOk(b, now)
    ensures BookOk(Expire(b, now), now)
  {}

  lemma ClockKeepsBook(b: ShotBook, now: int, later: int)
    requires BookOk(b, now) && now <= later
    ensures BookOk(b, later)
  {}

  /** After a collection the table holds exactly the ids that were accepted less than 10 s ago. */
  lemma CollectionIsExact(b: ShotBook, now: int, id: string)
    requires BookOk(b, now)
    ensures id in Expire(b, now).seen <==> RecentlyAccepted(b, id, now)
    ensures Expire(b, now).accepted == b.accepted
  {
    RefusedIffRecent(b, id, now);
  }

  class SeenShots {
    var seenShots: map<string, int>
    ghost var accepted: seq<Acceptance>

    ghost function View(): ShotBook
      reads this
    {
      ShotBook(seenShots, accepted)
    }

    constructor ()
      ensures View() == EMPTY_BOOK
    {
      seenShots, accepted := map[], [];
    }

    method SeenShotBefore(shotId: string, now: int) returns (seen: bool)
      modifies this
      ensures seen == Refuses(old(View()), shotId, now)
      ensures View() == if seen then old(View()) else Accept(old(View()), shotId, now)
    {
      if shotId in seenShots {
        var exp := seenShots[shotId];
        if exp != 0 && exp > now { return true; }
      }
      seenShots := seenShots[shotId := now + SHOT_DEDUP_MS];
      accepted := accepted + [Acceptance(shotId, now)];
      return false;
    }

    method CollectGarbage(now: int)
      modifies this
      ensures View() == Expire(old(View()), now)
    {
      var todo := seenShots.Keys;
      while todo != {}
        invariant accepted == old(accepted) && todo <= seenShots.Keys
        invariant forall k :: k in seenShots <==> k in old(seenShots) && (k in todo || old(seenShots)[k] > now)
        invariant forall k :: k in seenShots ==> seenShots[k] == old(seenShots)[k]
        decreases |todo|
      {
        var id :| id in todo;
        todo := todo - {id};
        if seenShots[id] <= now {
          seenShots := seenShots - {id};
        }
      }
    }
  }
}
