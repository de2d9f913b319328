/**
 The bounded event log of one agent record, and the paging by which a client follows
 it: what a client did not see is always told to it as a gap.
 */
module AgentEvents {

  const RETAINED := 200
  const PAGE := 100

  datatype Event = Event(sequence: nat, kind: string)

  datatype Page = Page(events: seq<Event>, nextCursor: nat, observed: nat, retained: nat, dropped: nat, cursorGap: nat)

  /** Sequence numbers run without holes up to the count. */
  ghost predicate Consecutive(events: seq<Event>, count: nat) {
    |events| <= count && forall i | 0 <= i < |events| :: events[i].sequence == count - |events| + i + 1
  }

  class EventLog {
    var events: seq<Event>
    var count: nat
    /** Every event there ever was. */
    ghost var all: seq<Event>

    /** The newest events, as many as are kept. */
    ghost predicate Valid()
      reads this
    {
      && Consecutive(all, count) && |all| == count
      && |events| == (if count < RETAINED then count else RETAINED)
      && events == all[count - |events|..]
    }

    constructor ()
      ensures Valid() && count == 0
    {
      events, count, all := [], 0, [];
    }

    method Record(kind: string)
      requires Valid()
      modifies this
      ensures Valid() && count == old(count) + 1 && all == old(all) + [Event(count, kind)]
    {
      count := count + 1;
      var event := Event(count, kind);
      events := (if |events| == RETAINED then events[1..] else events) + [event];
      all := all + [event];
    }

    /** The page after a cursor: the retained events beyond it, and how many beyond it are gone. */
    method Read(cursor: nat, limit: nat) returns (page: Page)
      requires Valid() && 1 <= limit <= PAGE
      ensures Continues(page, all, |events|, cursor, limit)
    {
      var from := FirstAfter(cursor);
      page := PageFrom(events, count, cursor, from, limit);
      hide Continues, Consecutive, PageFrom;
      PageContinues(all, events, cursor, from, limit);
    }

    /** The place of the first retained event beyond a cursor. */
    method FirstAfter(cursor: nat) returns (from: nat)
      requires Valid()
      ensures from <= |events|
      ensures cursor <= count - |events| ==> from == 0
      ensures count - |events| < cursor <= count ==> from == cursor - (count - |events|)
      ensures cursor >= count ==> from == |events|
    {
      RetainedSequences(all, events, count);
      hide Consecutive;
      from := 0;
      while from < |events| && events[from].sequence <= cursor
        invariant from <= |events|
        invariant from > 0 ==> events[from - 1].sequence <= cursor
      {
        from := from + 1;
      }
    }
  }

  /** How many events beyond a cursor are no longer retained. */
  function Missing(events: seq<Event>, count: nat, cursor: nat): nat {
    var oldest := if events != [] then events[0].sequence else count + 1;
    if oldest > cursor + 1 then oldest - cursor - 1 else 0
  }

  /**
   A page shows what comes after a cursor, in order and without holes, until its limit
   or the end; events that are gone are told as the gap before it.
   */
  ghost predicate Continues(page: Page, all: seq<Event>, retained: nat, cursor: nat, limit: nat) {
    && page.observed == |all| && page.retained == retained && page.dropped == |all| - retained
    && (page.events == [] <==> cursor >= |all|)
    && (page.events == [] ==> page.nextCursor == cursor && page.cursorGap == 0)
    && (page.events != [] ==>
          && page.nextCursor == cursor + page.cursorGap + |page.events| <= |all|
          && page.events == all[cursor + page.cursorGap..page.nextCursor]
          && (|page.events| == limit || page.nextCursor == |all|))
    && (page.cursorGap > 0 ==> cursor + page.cursorGap == page.dropped)
    && |page.events| <= limit
  }

  function PageFrom(events: seq<Event>, count: nat, cursor: nat, from: nat, limit: nat): Page
    requires from <= |events| <= count
  {
    var shown := events[from..if from + limit < |events| then from + limit else |events|];
    Page(shown, if shown != [] then shown[|shown| - 1].sequence else cursor, count, |events|, count - |events|,
         Missing(events, count, cursor))
  }

  lemma PageContinues(all: seq<Event>, events: seq<Event>, cursor: nat, from: nat, limit: nat)
    requires |events| <= |all| && events == all[|all| - |events|..] && (all != [] ==> events != []) && limit > 0
    requires Consecutive(all, |all|)
    requires cursor <= |all| - |events| ==> from == 0
    requires |all| - |events| < cursor <= |all| ==> from == cursor - (|all| - |events|)
    requires cursor >= |all| ==> from == |events|
    requires from <= |events|
    ensures Continues(PageFrom(events, |all|, cursor, from, limit), all, |events|, cursor, limit)
  {
    RetainedSequences(all, events, |all|);
    var to := if from + limit < |events| then from + limit else |events|;
    var start := |all| - |events|;
    assert events[from..to] == all[start + from..start + to];
  }

  lemma RetainedSequences(all: seq<Event>, events: seq<Event>, count: nat)
    requires Consecutive(all, count) && |all| == count && |events| <= count && events == all[count - |events|..]
    ensures forall i | 0 <= i < |events| :: events[i].sequence == count - |events| + i + 1
  {
    assert forall i | 0 <= i < |events| :: events[i] == all[count - |events| + i];
  }

  /** One client following the log from its beginning. */
  class Follower {
    const log: EventLog
    var cursor: nat
    var gaps: nat
    var seen: seq<Event>

    /** What was seen and what was reported missing add up to the cursor; nothing is seen twice or out of order. */
    ghost predicate Valid()
      reads this, log
    {
      log.Valid() && cursor == |seen| + gaps <= log.count && InOrder(seen, cursor, log.all)
    }

    constructor (log: EventLog)
      requires log.Valid()
      ensures Valid() && this.log == log && fresh(this)
    {
      this.log := log;
      cursor, gaps, seen := 0, 0, [];
    }

    lemma Books()
      requires Valid()
      ensures log.Valid() && cursor == |seen| + gaps <= log.count
    {
    }

    method Poll(limit: nat)
      requires Valid() && 1 <= limit <= PAGE
      modifies this
      ensures Valid()
      ensures old(cursor) < log.count ==> cursor > old(cursor)
      ensures old(seen) <= seen
    {
      hide InOrder;
      ghost var before, was := cursor, seen;
      var page := log.Read(cursor, limit);
      cursor := page.nextCursor;
      gaps := gaps + page.cursorGap;
      seen := seen + page.events;
      if page.events != [] {
        SeenMore(was, before, page.events, page.cursorGap, log.all);
      } else {
        assert was + [] == was;
      }
    }
  }

  /** Events of the log up to the cursor, none twice and none out of order. */
  ghost predicate InOrder(seen: seq<Event>, cursor: nat, all: seq<Event>) {
    && cursor <= |all|
    && (forall i | 0 <= i < |seen| :: 1 <= seen[i].sequence <= cursor && seen[i] == all[seen[i].sequence - 1])
    && (forall i, j | 0 <= i < j < |seen| :: seen[i].sequence < seen[j].sequence)
  }

  lemma SeenMore(seen: seq<Event>, cursor: nat, events: seq<Event>, gap: nat, all: seq<Event>)
    requires InOrder(seen, cursor, all) && Consecutive(all, |all|) && cursor + gap + |events| <= |all|
    requires events == all[cursor + gap..cursor + gap + |events|]
    ensures InOrder(seen + events, cursor + gap + |events|, all)
  {
    assert forall i | 0 <= i < |events| :: events[i] == all[cursor + gap + i];
    assert forall i | 0 <= i < |events| :: events[i].sequence == cursor + gap + i + 1;
  }

  lemma StillInOrder(seen: seq<Event>, cursor: nat, all: seq<Event>, more: seq<Event>)
    requires InOrder(seen, cursor, all) && all <= more
    ensures InOrder(seen, cursor, more)
  {
  }

  /** One more event in the log, for its follower to find. */
  method Happen(log: EventLog, follower: Follower, kind: string)
    requires follower.Valid() && follower.log == log
    modifies log
    ensures follower.Valid()
  {
    ghost var all := log.all;
    hide InOrder, EventLog.Valid;
    log.Record(kind);
    StillInOrder(follower.seen, follower.cursor, all, log.all);
  }

  /** Any interleaving of new events and polls: the books balance, and a last round of polls reaches the end. */
  method Follow(kinds: seq<seq<string>>, limit: nat) returns (log: EventLog, follower: Follower)
    requires 1 <= limit <= PAGE
    ensures follower.Valid() && follower.log == log && follower.cursor == log.count
    ensures log.count == |follower.seen| + follower.gaps
  {
    hide Follower.Valid, EventLog.Valid;
    log := new EventLog();
    follower := new Follower(log);
    for n := 0 to |kinds|
      invariant follower.Valid() && follower.log == log && fresh(log) && fresh(follower)
    {
      for k := 0 to |kinds[n]|
        invariant follower.Valid() && follower.log == log && fresh(log) && fresh(follower)
      {
        Happen(log, follower, kinds[n][k]);
      }
      follower.Poll(limit);
    }
    while follower.cursor < log.count
      invariant follower.Valid() && follower.log == log && fresh(log) && fresh(follower)
      decreases log.count - follower.cursor
    {
      follower.Books();
      follower.Poll(limit);
      follower.Books();
    }
    follower.Books();
  }
}
