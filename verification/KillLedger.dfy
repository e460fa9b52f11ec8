/**
  The kill tables of storage.ts: an append-only kills table with a 30-day
  cleanup, and per-name statistics maintained by an upsert.
 */
module KillLedger {
  import opened Protocol

  datatype KillRecord = KillRecord(
    id: string, attackerId: Id, attackerName: string, victimId: Id, victimName: string, shotId: string, timestamp: int)

  datatype PlayerStats = PlayerStats(kills: nat, deaths: nat, lastSeen: int, lastPlayerId: Id)

  const THIRTY_DAYS_MS := 30 * 24 * 60 * 60 * 1000

  /**
    `all` is every record ever inserted and `cutoff` the latest cutoff a cleanup used;
    the database holds only `kills` and `stats`.
   */
  datatype Ledger = Ledger(kills: seq<KillRecord>, stats: map<string, PlayerStats>, all: seq<KillRecord>, cutoff: int)

  /** INSERT ... ON CONFLICT(player_name) DO UPDATE. */
  function Upsert(stats: map<string, PlayerStats>, name: string, k: nat, d: nat, seen: int, id: Id): map<string, PlayerStats> {
    if name in stats
    then stats[name := PlayerStats(stats[name].kills + k, stats[name].deaths + d, seen, id)]
    else stats[name := PlayerStats(k, d, seen, id)]
  }

  function Record(l: Ledger, r: KillRecord): Ledger {
    Ledger(
      l.kills + [r],
      Upsert(Upsert(l.stats, r.attackerName, 1, 0, r.timestamp, r.attackerId), r.victimName, 0, 1, r.timestamp, r.victimId),
      l.all + [r],
      l.cutoff)
  }

  /** DELETE FROM kills WHERE timestamp < cutoff. */
  function Keep(rows: seq<KillRecord>, cutoff: int): seq<KillRecord> {
    if |rows| == 0 then []
    else
      var last := |rows| - 1;
      if rows[last].timestamp < cutoff then Keep(rows[..last], cutoff) else Keep(rows[..last], cutoff) + [rows[last]]
  }

  function Cleanup(l: Ledger, now: int): Ledger {
    l.(kills := Keep(l.kills, now - THIRTY_DAYS_MS), cutoff := now - THIRTY_DAYS_MS)
  }

  /** COUNT(*) of the rows newer than `since` whose attacker has this name. */
  function KillsSince(rows: seq<KillRecord>, name: string, since: real): nat {
    if |rows| == 0 then 0
    else
      var r := rows[|rows| - 1];
      KillsSince(rows[..|rows| - 1], name, since)
      + (if r.attackerName == name && r.timestamp as real > since then 1 else 0)
  }

  // --- independent readings of the record history ---

  function KillsBy(rows: seq<KillRecord>, name: string): nat {
    if |rows| == 0 then 0
    else KillsBy(rows[..|rows| - 1], name) + (if rows[|rows| - 1].attackerName == name then 1 else 0)
  }

  function DeathsOf(rows: seq<KillRecord>, name: string): nat {
    if |rows| == 0 then 0
    else DeathsOf(rows[..|rows| - 1], name) + (if rows[|rows| - 1].victimName == name then 1 else 0)
  }

  /** When a name last appeared, and under which player id; a record names its victim after its attacker. */
  function LastMention(rows: seq<KillRecord>, name: string): Option<(int, Id)> {
    if |rows| == 0 then None
    else
      var r := rows[|rows| - 1];
      if r.victimName == name then Some((r.timestamp, r.victimId))
      else if r.attackerName == name then Some((r.timestamp, r.attackerId))
      else LastMention(rows[..|rows| - 1], name)
  }

  ghost predicate StatsMatch(stats: map<string, PlayerStats>, rows: seq<KillRecord>, name: string) {
    && (name in stats <==> LastMention(rows, name).Some?)
    && (name in stats ==>
          && stats[name].kills == KillsBy(rows, name)
          && stats[name].deaths == DeathsOf(rows, name)
          && LastMention(rows, name) == Some((stats[name].lastSeen, stats[name].lastPlayerId)))
    && (name !in stats ==> KillsBy(rows, name) == DeathsOf(rows, name) == 0)
  }

  // --- totals ---

  ghost function TotalKills(stats: map<string, PlayerStats>): nat {
    if stats == map[] then 0 else var k :| k in stats; stats[k].kills + TotalKills(stats - {k})
  }

  ghost function TotalDeaths(stats: map<string, PlayerStats>): nat {
    if stats == map[] then 0 else var k :| k in stats; stats[k].deaths + TotalDeaths(stats - {k})
  }

  lemma {:induction false} TotalsSplit(stats: map<string, PlayerStats>, k: string)
    requires k in stats
    ensures TotalKills(stats) == stats[k].kills + TotalKills(stats - {k})
    ensures TotalDeaths(stats) == stats[k].deaths + TotalDeaths(stats - {k})
    decreases |stats|
  {
    var a :| a in stats && TotalKills(stats) == stats[a].kills + TotalKills(stats - {a});
    if a != k {
      TotalsSplit(stats - {a}, k);
      TotalsSplit(stats - {k}, a);
      assert stats - {a} - {k} == stats - {k} - {a};
    }
    var b :| b in stats && TotalDeaths(stats) == stats[b].deaths + TotalDeaths(stats - {b});
    if b != k {
      TotalsSplit(stats - {b}, k);
      TotalsSplit(stats - {k}, b);
      assert stats - {b} - {k} == stats - {k} - {b};
    }
  }

  lemma UpsertAddsToTotals(stats: map<string, PlayerStats>, name: string, k: nat, d: nat, seen: int, id: Id)
    ensures TotalKills(Upsert(stats, name, k, d, seen, id)) == TotalKills(stats) + k
    ensures TotalDeaths(Upsert(stats, name, k, d, seen, id)) == TotalDeaths(stats) + d
  {
    var r := Upsert(stats, name, k, d, seen, id);
    TotalsSplit(r, name);
    if name in stats {
      TotalsSplit(stats, name);
      assert r - {name} == stats - {name};
    } else {
      assert r - {name} == stats;
    }
  }

  // --- the ledger invariant ---

  /** The tables agree with the record history: per name, in total, and row by row above the cutoff. */
  ghost predicate LedgerOk(l: Ledger, now: int) {
    && (forall name :: StatsMatch(l.stats, l.all, name))
    && TotalKills(l.stats) == TotalDeaths(l.stats) == |l.all|
    && l.kills == Keep(l.all, l.cutoff)
    && l.cutoff <= now - THIRTY_DAYS_MS
    && (forall i :: 0 <= i < |l.all| ==> l.all[i].timestamp <= now)
  }

  lemma RecordKeepsLedger(l: Ledger, r: KillRecord, now: int)
    requires LedgerOk(l, now) && r.timestamp == now
    ensures LedgerOk(Record(l, r), now)
  {
    var l' := Record(l, r);
    assert l'.all[..|l.all|] == l.all;
    forall name
      ensures StatsMatch(l'.stats, l'.all, name)
    {
      assert StatsMatch(l.stats, l.all, name);
    }
    var mid := Upsert(l.stats, r.attackerName, 1, 0, r.timestamp, r.attackerId);
    UpsertAddsToTotals(l.stats, r.attackerName, 1, 0, r.timestamp, r.attackerId);
    UpsertAddsToTotals(mid, r.victimName, 0, 1, r.timestamp, r.victimId);
  }

  lemma {:induction false} KeepTwice(rows: seq<KillRecord>, c: int, c': int)
    requires c <= c'
    ensures Keep(Keep(rows, c), c') == Keep(rows, c')
  {
    if |rows| > 0 {
      var last := |rows| - 1;
      KeepTwice(rows[..last], c, c');
      var front := Keep(rows[..last], c);
      assert (front + [rows[last]])[..|front|] == front;
    }
  }

  lemma CleanupKeepsLedger(l: Ledger, now: int)
    requires LedgerOk(l, now)
    ensures LedgerOk(Cleanup(l, now), now)
  {
    KeepTwice(l.all, l.cutoff, now - THIRTY_DAYS_MS);
  }

  lemma ClockKeepsLedger(l: Ledger, now: int, later: int)
    requires LedgerOk(l, now) && now <= later
    ensures LedgerOk(l, later)
  {}

  lemma {:induction false} KeepPreservesCounts(rows: seq<KillRecord>, cutoff: int, name: string, since: real)
    requires since >= cutoff as real
    ensures KillsSince(Keep(rows, cutoff), name, since) == KillsSince(rows, name, since)
  {
    if |rows| > 0 {
      var last := |rows| - 1;
      KeepPreservesCounts(rows[..last], cutoff, name, since);
      var front := Keep(rows[..last], cutoff);
      assert (front + [rows[last]])[..|front|] == front;
    }
  }

  /** The positions of the rows that the leaderboard query counts: this attacker's name, strictly after `since`. */
  ghost function Counted(rows: seq<KillRecord>, name: string, since: real): set<nat> {
    set i: nat | i < |rows| && rows[i].attackerName == name && rows[i].timestamp as real > since
  }

  /** The count is the number of rows with this attacker's name and a timestamp after `since`. */
  lemma {:induction false} KillsSinceIsCount(rows: seq<KillRecord>, name: string, since: real)
    ensures KillsSince(rows, name, since) == |Counted(rows, name, since)|
  {
    if |rows| == 0 {
      assert Counted(rows, name, since) == {};
    } else {
      var last := |rows| - 1;
      KillsSinceIsCount(rows[..last], name, since);
      var before, after := Counted(rows[..last], name, since), Counted(rows, name, since);
      if rows[last].attackerName == name && rows[last].timestamp as real > since {
        assert after == before + {last};
      } else {
        assert after == before;
      }
    }
  }

  /** A window that begins before all rows counts all kills of the name. */
  lemma {:induction false} WholeWindow(rows: seq<KillRecord>, name: string, since: real)
    requires forall i :: 0 <= i < |rows| ==> rows[i].timestamp as real > since
    ensures KillsSince(rows, name, since) == KillsBy(rows, name)
  {
    if |rows| > 0 { WholeWindow(rows[..|rows| - 1], name, since); }
  }

  /** The cleanup keeps every row from the cutoff on, as often as it occurs, and no other. */
  lemma {:induction false} KeepIsFilter(rows: seq<KillRecord>, cutoff: int, r: KillRecord)
    ensures multiset(Keep(rows, cutoff))[r] == if r.timestamp >= cutoff then multiset(rows)[r] else 0
  {
    if |rows| > 0 {
      var last := |rows| - 1;
      KeepIsFilter(rows[..last], cutoff, r);
      assert rows == rows[..last] + [rows[last]];
    }
  }

  /** And it keeps their order: what is kept of two runs of rows is what is kept of each. */
  lemma {:induction false} KeepSplits(a: seq<KillRecord>, b: seq<KillRecord>, cutoff: int)
    ensures Keep(a + b, cutoff) == Keep(a, cutoff) + Keep(b, cutoff)
  {
    if |b| == 0 {
      assert a + b == a;
    } else {
      KeepSplits(a, b[..|b| - 1], cutoff);
      assert (a + b)[..|a + b| - 1] == a + b[..|b| - 1];
    }
  }

  /** Cleanup is invisible to the leaderboard: for windows of at most 720 hours its counts are exact over all history. */
  lemma LeaderboardIsExact(l: Ledger, now: int, name: string, hours: real)
    requires LedgerOk(l, now) && hours <= 720.0
    ensures var since := now as real - hours * 60.0 * 60.0 * 1000.0;
            KillsSince(l.kills, name, since) == KillsSince(l.all, name, since)
  {
    KeepPreservesCounts(l.all, l.cutoff, name, now as real - hours * 60.0 * 60.0 * 1000.0);
  }

  /**
    A result of the leaderboard query over `rows`: at most `limit` different names with their kills since
    then, the most kills first, and nobody left out who has more kills than somebody on the board.
   */
  ghost predicate IsBoard(board: seq<(string, nat)>, rows: seq<KillRecord>, since: real, limit: nat) {
    && |board| <= limit
    && (forall i, j :: 0 <= i < j < |board| ==> board[i].0 != board[j].0 && board[i].1 >= board[j].1)
    && (forall i :: 0 <= i < |board| ==> board[i].1 > 0 && board[i].1 == KillsSince(rows, board[i].0, since))
    && (forall name :: KillsSince(rows, name, since) == 0
          || (exists i :: 0 <= i < |board| && board[i].0 == name)
          || (|board| == limit && forall i :: 0 <= i < |board| ==> KillsSince(rows, name, since) <= board[i].1))
  }

  /** So the leaderboards over the cleaned table are those over all history. */
  lemma BoardIsExact(l: Ledger, now: int, board: seq<(string, nat)>, hours: real, limit: nat)
    requires LedgerOk(l, now) && hours <= 720.0
    ensures var since := now as real - hours * 60.0 * 60.0 * 1000.0;
            IsBoard(board, l.kills, since, limit) <==> IsBoard(board, l.all, since, limit)
  {
    var since := now as real - hours * 60.0 * 60.0 * 1000.0;
    forall name: string ensures KillsSince(l.kills, name, since) == KillsSince(l.all, name, since) {
      LeaderboardIsExact(l, now, name, hours);
    }
    SameCountsSameBoard(board, l.kills, l.all, since, limit);
  }

  lemma SameCountsSameBoard(board: seq<(string, nat)>, rows: seq<KillRecord>, all: seq<KillRecord>, since: real, limit: nat)
    requires forall name: string :: KillsSince(rows, name, since) == KillsSince(all, name, since)
    ensures IsBoard(board, rows, since, limit) <==> IsBoard(board, all, since, limit)
  {
    BoardTransfers(board, rows, all, since, limit);
    BoardTransfers(board, all, rows, since, limit);
  }

  lemma BoardTransfers(board: seq<(string, nat)>, rows: seq<KillRecord>, all: seq<KillRecord>, since: real, limit: nat)
    requires forall name: string :: KillsSince(rows, name, since) == KillsSince(all, name, since)
    ensures IsBoard(board, rows, since, limit) ==> IsBoard(board, all, since, limit)
  {}

  /** The database of storage.ts. */
  class KillStore {
    var kills: seq<KillRecord>
    var stats: map<string, PlayerStats>
    ghost var all: seq<KillRecord>
    ghost var cutoff: int

    ghost function View(): Ledger
      reads this
    {
      Ledger(kills, stats, all, cutoff)
    }

    /** A new database file. */
    constructor (ghost now: int)
      ensures View() == Ledger([], map[], [], now - THIRTY_DAYS_MS) && LedgerOk(View(), now)
    {
      kills, stats, all, cutoff := [], map[], [], now - THIRTY_DAYS_MS;
    }

    method UpsertStats(name: string, k: nat, d: nat, seen: int, id: Id)
      modifies this`stats
      ensures stats == Upsert(old(stats), name, k, d, seen, id)
    {
      if name in stats {
        var row := stats[name];
        stats := stats[name := PlayerStats(row.kills + k, row.deaths + d, seen, id)];
      } else {
        stats := stats[name := PlayerStats(k, d, seen, id)];
      }
    }

    method RecordKill(id: string, attackerId: Id, attackerName: string, victimId: Id, victimName: string, shotId: string, timestamp: int)
      returns (r: KillRecord)
      modifies this
      ensures r == KillRecord(id, attackerId, attackerName, victimId, victimName, shotId, timestamp)
      ensures View() == Record(old(View()), r)
    {
      r := KillRecord(id, attackerId, attackerName, victimId, victimName, shotId, timestamp);
      kills := kills + [r];
      UpsertStats(attackerName, 1, 0, timestamp, attackerId);
      UpsertStats(victimName, 0, 1, timestamp, victimId);
      all := all + [r];
    }

    method CleanupOldKills(now: int) returns (deleted: nat)
      modifies this
      ensures View() == Cleanup(old(View()), now)
      ensures deleted == |old(kills)| - |kills|
    {
      var before := kills;
      kills := Keep(kills, now - THIRTY_DAYS_MS);
      KeepShrinks(before, now - THIRTY_DAYS_MS);
      deleted := |before| - |kills|;
      cutoff := now - THIRTY_DAYS_MS;
    }
  }

  lemma KeepShrinks(rows: seq<KillRecord>, cutoff: int)
    ensures |Keep(rows, cutoff)| <= |rows|
  {}
}
