/**
 * Incremental scanning of a room. However scans split a growing timeline, and whichever of them
 * fail, the committed tables are those of one fold over the log and every message is applied once.
 */
module Scanner {
  import opened Options
  import opened Multispend
  import opened RoomTablesModule
  import opened Timeline

  /** The last event that carries an identifier: where the next scan continues. */
  function LastId(events: seq<TimelineEvent>): Option<EventId> {
    if events == [] then None
    else if IdOf(events[|events| - 1]).Some? then IdOf(events[|events| - 1])
    else LastId(events[..|events| - 1])
  }

  /** What one room has committed: its tables and how far they reach. */
  class RoomScanner {
    var tables: RoomTables
    var cursor: Option<EventId>

    constructor ()
      ensures fresh(tables) && tables.View() == EMPTY && cursor == None
    {
      tables := new RoomTables(EMPTY);
      cursor := None;
    }

    /**
     * One scan inside its own transaction. When the room cannot be read, nothing changes. Otherwise
     * the fetched messages are folded in order and the cursor moves past everything fetched.
     */
    method Scan(env: Env, fetched: Option<seq<TimelineEvent>>, ctx: Context) returns (fault: bool)
      modifies this, ctx
      ensures fetched.None? ==>
                !fault && tables == old(tables) && tables.View() == old(tables.View()) && cursor == old(cursor)
      ensures fetched.Some? ==>
                (fault <==> Run(env, ctx.ourId, old(tables.View()), Messages(fetched.value)).None?)
      ensures fault ==>
                tables == old(tables) && tables.View() == old(tables.View()) && cursor == old(cursor)
      ensures fetched.Some? && !fault ==>
                && Some(tables.View()) == Run(env, ctx.ourId, old(tables.View()), Messages(fetched.value))
                && cursor == (if LastId(fetched.value).Some? then LastId(fetched.value) else old(cursor))
    {
      if fetched.None? { return false; }
      hide Run;
      hide Step;
      var events := fetched.value;
      var log := MessagesOf(events);
      ghost var before := tables.View();
      var transaction := new RoomTables(tables.View());
      RunNothing(env, ctx.ourId, before);
      assert log[..0] == [];
      for i := 0 to |log|
        modifies transaction, ctx
        invariant fresh(transaction) && transaction != tables
        invariant Some(transaction.View()) == Run(env, ctx.ourId, before, log[..i])
      {
        RunStep(env, ctx.ourId, before, log, i);
        fault := transaction.Process(env, log[i], ctx);
        if fault {
          FaultStays(env, ctx.ourId, before, log, i + 1);
          return true;
        }
      }
      assert log[..|log|] == log;
      tables := transaction;
      var latest := LastId(events);
      if latest.Some? { cursor := latest; }
      return false;
    }

    /**
     * Reads the room back to the cursor, or without one to position `lo`, and folds what it finds: one
     * `ScanOnce` of the room as it is then. A failed read or a panicking fold leaves everything as it was.
     */
    method Rescan(env: Env, cache: EventCache, replies: nat -> Reply, fails: bool, ctx: Context)
        returns (fault: bool, ghost lo: nat)
      requires cache.Valid() && RepliesKeepIds(cache.timeline, replies, 0)
      modifies this, ctx, cache
      ensures cache.Valid() && old(cache.timeline) <= cache.timeline
      ensures lo == 0 || (lo <= |cache.timeline| && CutByDate(cache.timeline, lo))
      ensures var before := Stored(Some(old(tables.View())), old(cursor), []);
              var after := ScanOnce(env, ctx.ourId, before, Attempt(cache.timeline, lo, fails));
              && (fault <==> after.tables.None?)
              && (fault || fails ==>
                    tables == old(tables) && tables.View() == old(tables.View()) && cursor == old(cursor))
              && (!fault ==> Some(tables.View()) == after.tables && cursor == after.cursor)
    {
      hide Run;
      var events := AllMessageSince(cache, cursor, replies);
      lo := if cursor.None? && events != cache.timeline then cache.lo else 0;
      assert events == Fetched(Attempt(cache.timeline, lo, fails), cursor) by {
        assert cache.timeline[0..] == cache.timeline;
      }
      fault := Scan(env, if fails then None else Some(events), ctx);
    }

    static method MessagesOf(events: seq<TimelineEvent>) returns (log: seq<LogEvent>)
      ensures log == Messages(events)
    {
      log := [];
      for i := 0 to |events|
        invariant log == Messages(events[..i])
      {
        assert events[..i + 1][..i] == events[..i];
        if events[i].Message? { log := log + [events[i].message]; }
      }
      assert events[..|events|] == events;
    }
  }

  lemma RunStep(env: Env, me: UserId, t: Tables, log: seq<LogEvent>, n: nat)
    requires n < |log|
    ensures Run(env, me, t, log[..n + 1])
         == match Run(env, me, t, log[..n]) case None => None case Some(t') => Step(env, me, t', log[n])
  {
    hide Step;
    assert log[..n + 1][..n] == log[..n];
  }

  lemma {:induction false} FaultStays(env: Env, me: UserId, t: Tables, log: seq<LogEvent>, n: nat)
    requires n <= |log| && Run(env, me, t, log[..n]).None?
    ensures Run(env, me, t, log).None?
    decreases |log| - n
  {
    hide Step;
    if n == |log| {
      assert log[..n] == log;
    } else {
      assert log[..n + 1][..n] == log[..n];
      FaultStays(env, me, t, log, n + 1);
    }
  }

  // ---------------------------------------------------------------- many scans

  /**
   * One attempt to scan: the room as it is then, how far back a scan without a cursor would read it, and
   * whether reading it fails.
   */
  datatype Attempt = Attempt(timeline: seq<TimelineEvent>, lo: nat, fails: bool)

  /** What the attempt has to process. */
  function Fetched(a: Attempt, cursor: Option<EventId>): seq<TimelineEvent> {
    if cursor.None? && a.lo <= |a.timeline| then a.timeline[a.lo..] else Since(a.timeline, cursor)
  }

  datatype Stored = Stored(tables: Option<Tables>, cursor: Option<EventId>, applied: seq<LogEvent>)

  function ScanOnce(env: Env, me: UserId, s: Stored, a: Attempt): Stored {
    if a.fails then s else
      var events := Fetched(a, s.cursor);
      var log := Messages(events);
      Stored(
        match s.tables case None => None case Some(t) => Run(env, me, t, log),
        if LastId(events).Some? then LastId(events) else s.cursor,
        s.applied + log)
  }

  function ScanAll(env: Env, me: UserId, attempts: seq<Attempt>): Stored {
    if attempts == [] then Stored(Some(EMPTY), None, []) else
      ScanOnce(env, me, ScanAll(env, me, attempts[..|attempts| - 1]), attempts[|attempts| - 1])
  }

  /** The attempt reads everything, or a room whose times make the release date a safe place to stop. */
  ghost predicate CutIsSafe(a: Attempt) {
    a.lo == 0 || (a.lo <= |a.timeline| && CutByDate(a.timeline, a.lo)
                  && OrderedTimes(a.timeline) && NoEarlyMessages(a.timeline))
  }

  /** The server keeps the room's events, in one order and with distinct identifiers. */
  ghost predicate GrowingRoom(attempts: seq<Attempt>) {
    && (forall i :: 0 <= i < |attempts| ==> CutIsSafe(attempts[i]))
    && (forall i :: 0 <= i < |attempts| ==> DistinctIds(attempts[i].timeline))
    && (forall i :: 0 < i < |attempts| ==> attempts[i - 1].timeline <= attempts[i].timeline)
  }

  /** The room as of the last attempt that did not fail. */
  function LastScanned(attempts: seq<Attempt>): seq<TimelineEvent> {
    if attempts == [] then []
    else if attempts[|attempts| - 1].fails then LastScanned(attempts[..|attempts| - 1])
    else attempts[|attempts| - 1].timeline
  }

  lemma {:induction false} LastIdMeaning(room: seq<TimelineEvent>) returns (p: nat)
    ensures LastId(room).None? ==> forall i :: 0 <= i < |room| ==> IdOf(room[i]).None?
    ensures LastId(room).Some? ==> p < |room| && IdOf(room[p]) == LastId(room)
                                   && forall i :: p < i < |room| ==> IdOf(room[i]).None?
  {
    p := 0;
    if room != [] {
      if IdOf(room[|room| - 1]).Some? {
        p := |room| - 1;
      } else {
        p := LastIdMeaning(room[..|room| - 1]);
      }
    }
  }

  lemma {:induction false} LastIdAfter(front: seq<TimelineEvent>, rest: seq<TimelineEvent>)
    ensures LastId(front + rest) == if LastId(rest).Some? then LastId(rest) else LastId(front)
  {
    if rest == [] {
      assert front + rest == front;
    } else {
      var whole := front + rest;
      assert whole[..|whole| - 1] == front + rest[..|rest| - 1];
      LastIdAfter(front, rest[..|rest| - 1]);
    }
  }

  lemma SilentTail(room: seq<TimelineEvent>, p: nat)
    requires p <= |room| && forall i :: p <= i < |room| ==> IdOf(room[i]).None?
    ensures Messages(room) == Messages(room[..p])
  {
    NoMessages(room[p..]);
    MessagesConcat(room[..p], room[p..]);
    assert room == room[..p] + room[p..];
  }

  /** Continuing after the cursor of an earlier, shorter room picks up exactly the new messages. */
  lemma SinceIsTheRest(room: seq<TimelineEvent>, longer: seq<TimelineEvent>)
    requires room <= longer && DistinctIds(longer)
    ensures Messages(longer) == Messages(room) + Messages(Since(longer, LastId(room)))
    ensures var events := Since(longer, LastId(room));
            LastId(longer) == if LastId(events).Some? then LastId(events) else LastId(room)
  {
    var p := LastIdMeaning(room);
    if LastId(room).None? {
      NoMessages(room);
    } else {
      assert longer[p] == room[p];
      FindIsUnique(longer, LastId(room).value, p);
      SilentTail(room, p + 1);
      SplitAfterCursor(room, longer, p);
    }
  }

  lemma SplitAfterCursor(room: seq<TimelineEvent>, longer: seq<TimelineEvent>, p: nat)
    requires room <= longer && p < |room| && IdOf(room[p]).Some? && LastId(room) == IdOf(room[p])
    ensures Messages(longer) == Messages(room[..p + 1]) + Messages(longer[p + 1..])
    ensures LastId(longer) == if LastId(longer[p + 1..]).Some? then LastId(longer[p + 1..]) else LastId(room)
  {
    hide Messages;
    var head := room[..p + 1];
    assert head == longer[..p + 1] && longer == head + longer[p + 1..];
    MessagesConcat(head, longer[p + 1..]);
    LastIdAfter(head, longer[p + 1..]);
    assert head[|head| - 1] == room[p];
  }

  /** The cursor stands at the end of the room scanned last, unless nothing in it was worth a cursor yet. */
  ghost predicate CursorFits(cursor: Option<EventId>, room: seq<TimelineEvent>) {
    cursor == LastId(room) || (cursor.None? && Messages(room) == [])
  }

  /** Continuing from such a cursor, cut or not, picks up exactly the new messages. */
  lemma FetchedIsTheRest(room: seq<TimelineEvent>, a: Attempt, cursor: Option<EventId>)
    requires room <= a.timeline && DistinctIds(a.timeline) && CutIsSafe(a) && CursorFits(cursor, room)
    ensures var events := Fetched(a, cursor);
      && Messages(a.timeline) == Messages(room) + Messages(events)
      && CursorFits(if LastId(events).Some? then LastId(events) else cursor, a.timeline)
  {
    hide CutIsSafe;
    hide DistinctIds;
    hide Find;
    if cursor.Some? {
      SinceIsTheRest(room, a.timeline);
    } else {
      NoIdNoMessages(room);
      CutFetches(a);
      var events := Fetched(a, cursor);
      LastIdAfter(a.timeline[..a.lo], events);
      assert a.timeline == a.timeline[..a.lo] + events;
      NoIdNoMessages(events);
    }
  }

  lemma NoIdNoMessages(events: seq<TimelineEvent>)
    ensures LastId(events).None? ==> Messages(events) == []
  {
    var p := LastIdMeaning(events);
    if LastId(events).None? {
      NoMessages(events);
    }
  }

  lemma NothingScanned()
    ensures CursorFits(None, [])
  {
  }

  lemma CutFetches(a: Attempt)
    requires CutIsSafe(a)
    ensures a.lo <= |a.timeline| && Messages(a.timeline[a.lo..]) == Messages(a.timeline)
  {
    if a.lo == 0 {
      assert a.timeline[0..] == a.timeline;
    } else {
      CutKeepsMessages(a.timeline, a.lo);
    }
  }

  /**
   * Main result: after any attempts over a growing room, those without a cursor cut at the release date
   * or not, the tables are those of one fold over the room as of the last scan that succeeded, and the
   * messages applied so far are exactly that room's messages, each once and in order.
   */
  lemma {:induction false} ScansRefineOneFold(env: Env, me: UserId, attempts: seq<Attempt>)
    requires GrowingRoom(attempts)
    ensures var s := ScanAll(env, me, attempts);
            && s.tables == Run(env, me, EMPTY, Messages(LastScanned(attempts)))
            && s.applied == Messages(LastScanned(attempts))
            && CursorFits(s.cursor, LastScanned(attempts))
  {
    hide Run;
    hide CutIsSafe;
    hide CursorFits;
    if attempts == [] {
      RunNothing(env, me, EMPTY);
      NothingScanned();
    } else {
      var front, last := attempts[..|attempts| - 1], attempts[|attempts| - 1];
      ScansRefineOneFold(env, me, front);
      if !last.fails {
        var room, s := LastScanned(front), ScanAll(env, me, front);
        LastScannedGrows(attempts);
        FetchedIsTheRest(room, last, s.cursor);
        RunConcat(env, me, EMPTY, Messages(room), Messages(Fetched(last, s.cursor)));
      }
    }
  }

  lemma RunNothing(env: Env, me: UserId, t: Tables)
    ensures Run(env, me, t, []) == Some(t)
  {
  }

  lemma {:induction false} LastScannedGrows(attempts: seq<Attempt>)
    requires GrowingRoom(attempts) && attempts != []
    ensures LastScanned(attempts[..|attempts| - 1]) <= attempts[|attempts| - 1].timeline
  {
    var front := attempts[..|attempts| - 1];
    if front != [] {
      LastScannedGrows(front);
      assert front[|front| - 1].timeline <= attempts[|attempts| - 1].timeline;
    }
  }

  /** Reading only back to the release date folds to the same tables as the full history. */
  lemma CutHistoryFoldsAlike(env: Env, me: UserId, timeline: seq<TimelineEvent>, lo: nat)
    requires lo <= |timeline| && OrderedTimes(timeline) && NoEarlyMessages(timeline) && CutByDate(timeline, lo)
    ensures Run(env, me, EMPTY, Messages(timeline[lo..])) == Run(env, me, EMPTY, Messages(timeline))
  {
    hide Run;
    CutKeepsMessages(timeline, lo);
  }
}
