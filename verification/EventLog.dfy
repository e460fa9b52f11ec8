/** The numbered event stream of state.ts and its two-minute window. */
module EventLog {
  import opened Protocol

  /** `history` is every event ever appended; the program keeps only `events`. */
  datatype Log = Log(latestSeq: nat, lastSeenSeq: nat, events: seq<Event>, history: seq<Event>)

  const EMPTY_LOG := Log(0, 0, [], [])

  function DropOld(events: seq<Event>, cutoff: int): seq<Event> {
    if |events| > 0 && events[0].at < cutoff then DropOld(events[1..], cutoff) else events
  }

  function Append(l: Log, body: Body, now: int): (r: Log)
    ensures r.history == l.history + [Event(l.latestSeq + 1, now, body)]
  {
    var full := Event(l.latestSeq + 1, now, body);
    Log(l.latestSeq + 1, l.latestSeq + 1, DropOld(l.events + [full], now - EVENT_MS), l.history + [full])
  }

  /** `part` is what remains of `whole` after dropping the events older than `cutoff` from the front. */
  ghost predicate Remains(part: seq<Event>, whole: seq<Event>, cutoff: int) {
    && |part| <= |whole|
    && (forall i :: 0 <= i < |part| ==> part[i] == whole[|whole| - |part| + i] && part[i].at >= cutoff)
    && (forall i :: 0 <= i < |whole| - |part| ==> whole[i].at < cutoff)
  }

  ghost predicate InOrder(h: seq<Event>) {
    forall i, j :: 0 <= i <= j < |h| ==> h[i].at <= h[j].at
  }

  ghost predicate Numbered(h: seq<Event>) {
    forall i :: 0 <= i < |h| ==> h[i].seqNo == i + 1
  }

  /**
    The window is a contiguous suffix of the numbered history, and it holds exactly the
    events that were no older than EVENT_MS when the newest one was appended.
   */
  ghost predicate LogOk(l: Log) {
    && l.latestSeq == l.lastSeenSeq == |l.history|
    && Numbered(l.history)
    && InOrder(l.history)
    && (l.history == [] ==> l.events == [])
    && (l.history != [] ==> Remains(l.events, l.history, l.history[|l.history| - 1].at - EVENT_MS))
  }

  ghost predicate LogBefore(l: Log, now: int) {
    forall i :: 0 <= i < |l.history| ==> l.history[i].at <= now
  }

  lemma RemainsOfTail(part: seq<Event>, events: seq<Event>, rest: seq<Event>, cutoff: int)
    requires |events| > 0 && events[0].at < cutoff && rest == events[1..] && Remains(part, rest, cutoff)
    ensures Remains(part, events, cutoff)
  {
    forall i | 0 <= i < |part| ensures part[i] == events[|events| - |part| + i] && part[i].at >= cutoff {
      assert part[i] == rest[|rest| - |part| + i];
    }
    forall i | 0 <= i < |events| - |part| ensures events[i].at < cutoff {
      if i > 0 { assert events[i] == rest[i - 1]; }
    }
  }

  lemma InOrderTail(events: seq<Event>, rest: seq<Event>)
    requires InOrder(events) && |events| > 0 && rest == events[1..]
    ensures InOrder(rest)
  {
    forall i, j | 0 <= i <= j < |rest| ensures rest[i].at <= rest[j].at {
      assert events[i + 1].at <= events[j + 1].at;
    }
  }

  /** On a time-ordered list, dropping from the front removes exactly the old events. */
  lemma {:induction false} DropOldIsFilter(events: seq<Event>, cutoff: int)
    requires InOrder(events)
    ensures Remains(DropOld(events, cutoff), events, cutoff)
  {
    if |events| > 0 && events[0].at < cutoff {
      var rest := events[1..];
      InOrderTail(events, rest);
      DropOldIsFilter(rest, cutoff);
      RemainsOfTail(DropOld(rest, cutoff), events, rest, cutoff);
    } else {
      forall i | 0 <= i < |events| ensures events[i].at >= cutoff {
        assert events[0].at <= events[i].at;
      }
    }
  }

  lemma RemainsLater(part: seq<Event>, window: seq<Event>, whole: seq<Event>, c: int, c': int)
    requires Remains(window, whole, c) && Remains(part, window, c') && c <= c'
    ensures Remains(part, whole, c')
  {
    var off := |whole| - |window|;
    forall i | 0 <= i < |whole| - |part|
      ensures whole[i].at < c'
    {
      if i >= off { assert window[i - off] == whole[i]; }
    }
  }

  lemma RemainsAppend(part: seq<Event>, whole: seq<Event>, c: int, e: Event)
    requires Remains(part, whole, c) && c <= e.at
    ensures Remains(part + [e], whole + [e], c)
  {}

  lemma RemainsInOrder(part: seq<Event>, whole: seq<Event>, c: int)
    requires Remains(part, whole, c) && InOrder(whole)
    ensures InOrder(part)
  {}

  lemma InOrderAppend(h: seq<Event>, e: Event)
    requires InOrder(h) && forall i :: 0 <= i < |h| ==> h[i].at <= e.at
    ensures InOrder(h + [e])
  {}

  lemma PrunedWindow(events: seq<Event>, history: seq<Event>, c: int, e: Event)
    requires Remains(events, history, c) && InOrder(history + [e]) && c <= e.at - EVENT_MS
    ensures Remains(DropOld(events + [e], e.at - EVENT_MS), history + [e], e.at - EVENT_MS)
  {
    var w, h := events + [e], history + [e];
    RemainsAppend(events, history, c, e);
    RemainsInOrder(w, h, c);
    DropOldIsFilter(w, e.at - EVENT_MS);
    RemainsLater(DropOld(w, e.at - EVENT_MS), w, h, c, e.at - EVENT_MS);
  }

  lemma NewestRemains(part: seq<Event>, whole: seq<Event>, c: int)
    requires Remains(part, whole, c) && |whole| > 0 && whole[|whole| - 1].at >= c
    ensures |part| > 0 && part[|part| - 1] == whole[|whole| - 1]
  {}

  lemma HistoryGrows(h: seq<Event>, full: Event)
    requires Numbered(h) && InOrder(h) && full.seqNo == |h| + 1 && forall i :: 0 <= i < |h| ==> h[i].at <= full.at
    ensures Numbered(h + [full]) && InOrder(h + [full])
    ensures forall i :: 0 <= i < |h + [full]| ==> (h + [full])[i].at <= full.at
  {
    InOrderAppend(h, full);
  }

  /** Every append keeps the window a contiguous, numbered suffix; the newest event is never pruned. */
  lemma AppendKeepsLog(l: Log, body: Body, now: int)
    requires LogOk(l) && LogBefore(l, now)
    ensures var r := Append(l, body, now);
            LogOk(r) && LogBefore(r, now) && |r.events| > 0 && r.events[|r.events| - 1] == Event(r.latestSeq, now, body)
  {
    var full := Event(l.latestSeq + 1, now, body);
    var c := if l.history == [] then now - EVENT_MS else l.history[|l.history| - 1].at - EVENT_MS;
    var h', events' := l.history + [full], DropOld(l.events + [full], now - EVENT_MS);
    HistoryGrows(l.history, full);
    PrunedWindow(l.events, l.history, c, full);
    NewestRemains(events', h', now - EVENT_MS);
    LogIsOk(Append(l, body, now), full);
  }

  lemma LogIsOk(l: Log, full: Event)
    requires l.history != [] && l.history[|l.history| - 1] == full && l.latestSeq == l.lastSeenSeq == |l.history|
    requires Numbered(l.history) && InOrder(l.history) && Remains(l.events, l.history, full.at - EVENT_MS)
    ensures LogOk(l)
  {}

  /** Window positions and sequence numbers correspond: events[i].seq = latestSeq - length + 1 + i. */
  lemma WindowIsContiguous(l: Log, i: nat)
    requires LogOk(l) && i < |l.events|
    ensures l.events[i].seqNo == l.latestSeq - |l.events| + 1 + i
    ensures l.events[i] == l.history[l.events[i].seqNo - 1]
  {}

  class EventStream {
    var latestSeq: nat
    var lastSeenSeq: nat
    var events: seq<Event>
    ghost var history: seq<Event>

    ghost function View(): Log
      reads this
    {
      Log(latestSeq, lastSeenSeq, events, history)
    }

    constructor ()
      ensures View() == EMPTY_LOG
    {
      latestSeq, lastSeenSeq, events, history := 0, 0, [], [];
    }

    method PruneEvents(now: int)
      modifies this`events
      ensures events == DropOld(old(events), now - EVENT_MS)
    {
      var cutoff := now - EVENT_MS;
      while |events| > 0 && events[0].at < cutoff
        invariant DropOld(events, cutoff) == DropOld(old(events), cutoff)
        decreases |events|
      {
        events := events[1..];
      }
    }

    method Push(body: Body, now: int) returns (full: Event)
      modifies this
      ensures View() == Append(old(View()), body, now)
      ensures full == Event(latestSeq, now, body)
    {
      latestSeq := latestSeq + 1;
      full := Event(latestSeq, now, body);
      lastSeenSeq := latestSeq;
      events := events + [full];
      history := history + [full];
      PruneEvents(now);
    }
  }
}
