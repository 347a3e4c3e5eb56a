/**
 * Reading a room's history: the event cache holds a suffix of the timeline that paging extends
 * backwards in batches while new events keep arriving.
 */
module Timeline {
  import opened Options
  import opened Multispend

  /** Multispend messages always carry an identifier; other events may lack one or be unreadable. */
  datatype TimelineEvent =
    | Message(message: LogEvent)
    | Other(otherId: Option<EventId>, otherTime: Option<nat>)

  /** The feature's release, in seconds since the epoch (2025-03-12). */
  const RELEASE_TIMESTAMP: nat := 1741737600
  const BATCH_SIZE: nat := 20

  function IdOf(e: TimelineEvent): Option<EventId> {
    match e
    case Message(m) => Some(m.id)
    case Other(id, _) => id
  }

  /** Server timestamp in milliseconds. */
  function TimeOf(e: TimelineEvent): Option<nat> {
    match e
    case Message(m) => Some(m.time)
    case Other(_, time) => time
  }

  predicate IsOld(e: TimelineEvent) {
    TimeOf(e).Some? && TimeOf(e).value / 1000 < RELEASE_TIMESTAMP
  }

  /** The multispend messages of a stretch of the timeline, in order. */
  function Messages(events: seq<TimelineEvent>): seq<LogEvent> {
    if events == [] then [] else
      var front, last := events[..|events| - 1], events[|events| - 1];
      if last.Message? then Messages(front) + [last.message] else Messages(front)
  }

  lemma {:induction false} MessagesConcat(a: seq<TimelineEvent>, b: seq<TimelineEvent>)
    ensures Messages(a + b) == Messages(a) + Messages(b)
  {
    if b == [] {
      assert a + b == a;
    } else {
      var front := b[..|b| - 1];
      MessagesConcat(a, front);
      assert (a + b)[..|a + b| - 1] == a + front;
    }
  }

  lemma {:induction false} NoMessages(events: seq<TimelineEvent>)
    requires forall i :: 0 <= i < |events| ==> !events[i].Message?
    ensures Messages(events) == []
  {
    if events != [] {
      NoMessages(events[..|events| - 1]);
    }
  }

  /** Every message of the stretch is listed after those before it. */
  lemma MessageIsListed(events: seq<TimelineEvent>, i: nat)
    requires i < |events| && events[i].Message?
    ensures Messages(events[..i + 1]) == Messages(events[..i]) + [events[i].message]
    ensures Messages(events) == Messages(events[..i]) + [events[i].message] + Messages(events[i + 1..])
  {
    assert events[..i + 1][..i] == events[..i];
    assert events == events[..i + 1] + events[i + 1..];
    MessagesConcat(events[..i + 1], events[i + 1..]);
  }

  /** And everything listed is one of its messages. */
  lemma {:induction false} ListedIsMessage(events: seq<TimelineEvent>, k: nat) returns (i: nat)
    requires k < |Messages(events)|
    ensures i < |events| && events[i] == Message(Messages(events)[k]) && |Messages(events[..i])| == k
  {
    var front, last := events[..|events| - 1], |events| - 1;
    if k < |Messages(front)| {
      i := ListedIsMessage(front, k);
      assert front[..i] == events[..i];
    } else {
      i := last;
    }
  }

  ghost predicate DistinctIds(timeline: seq<TimelineEvent>) {
    forall i, j :: 0 <= i < j < |timeline| ==> IdOf(timeline[i]).None? || IdOf(timeline[i]) != IdOf(timeline[j])
  }

  /** Position of the event with this identifier. */
  function Find(timeline: seq<TimelineEvent>, id: EventId): (p: Option<nat>)
    ensures p.Some? ==> p.value < |timeline| && IdOf(timeline[p.value]) == Some(id)
    ensures p.None? ==> forall i :: 0 <= i < |timeline| ==> IdOf(timeline[i]) != Some(id)
  {
    if timeline == [] then None
    else if IdOf(timeline[0]) == Some(id) then Some(0)
    else match Find(timeline[1..], id)
      case None => None
      case Some(p) => assert timeline[1..][p] == timeline[p + 1]; Some(p + 1)
  }

  lemma FindIsUnique(timeline: seq<TimelineEvent>, id: EventId, i: nat)
    requires DistinctIds(timeline) && i < |timeline| && IdOf(timeline[i]) == Some(id)
    ensures Find(timeline, id) == Some(i)
  {
  }

  /** What a scan must process: everything after the cursor, or everything there is. */
  function Since(timeline: seq<TimelineEvent>, cursor: Option<EventId>): seq<TimelineEvent> {
    if cursor.None? then timeline else
      match Find(timeline, cursor.value)
      case None => timeline
      case Some(p) => timeline[p + 1..]
  }

  /** One answer of the server: how much it loads, whether it says so at the start, what arrived. */
  datatype Reply = Reply(count: nat, atStart: bool, arrived: seq<TimelineEvent>)

  /** Event cache of one room: `timeline` from `lo` on is loaded. */
  class EventCache {
    var timeline: seq<TimelineEvent>
    var lo: nat

    ghost predicate Valid()
      reads this
    {
      lo <= |timeline| && DistinctIds(timeline)
    }

    constructor (room: seq<TimelineEvent>, unloaded: nat)
      requires unloaded <= |room| && DistinctIds(room)
      ensures Valid() && timeline == room && lo == unloaded
    {
      timeline, lo := room, unloaded;
    }

    /**
     * Loads between one and `limit` events before the loaded ones, as the server pleases; the start
     * is reported once everything is loaded, possibly one call late.
     */
    method RunBackwardsOnce(limit: nat, reply: Reply) returns (reachedStart: bool, batch: seq<TimelineEvent>)
      requires Valid() && limit > 0 && DistinctIds(timeline + reply.arrived)
      modifies this
      ensures Valid() && timeline == old(timeline) + reply.arrived
      ensures lo <= old(lo) <= lo + limit && batch == timeline[lo..old(lo)]
      ensures reachedStart ==> lo == 0
      ensures !reachedStart ==> lo < old(lo)
    {
      timeline := timeline + reply.arrived;
      if lo == 0 {
        return true, [];
      }
      var most := if limit < lo then limit else lo;
      var count := 1 + reply.count % most;
      batch := timeline[lo - count..lo];
      lo := lo - count;
      reachedStart := lo == 0 && reply.atStart;
    }
  }

  /** Every event the server may add while we page keeps identifiers distinct. */
  ghost predicate RepliesKeepIds(timeline: seq<TimelineEvent>, replies: nat -> Reply, n: nat) {
    forall k: nat :: k >= n ==> ReplyKeepsIds(timeline, replies, n, k)
  }

  ghost predicate ReplyKeepsIds(timeline: seq<TimelineEvent>, replies: nat -> Reply, n: nat, k: nat)
    requires n <= k
  {
    DistinctIds(timeline + ArrivedBy(replies, n, k))
  }

  /** Everything that arrives with replies `n` to `k`. */
  ghost function ArrivedBy(replies: nat -> Reply, n: nat, k: nat): seq<TimelineEvent>
    requires n <= k
    decreases k - n
  {
    if n == k then replies(n).arrived else replies(n).arrived + ArrivedBy(replies, n + 1, k)
  }

  lemma RepliesAdvance(timeline: seq<TimelineEvent>, replies: nat -> Reply, n: nat)
    requires RepliesKeepIds(timeline, replies, n)
    ensures DistinctIds(timeline + replies(n).arrived)
    ensures RepliesKeepIds(timeline + replies(n).arrived, replies, n + 1)
  {
    hide DistinctIds;
    assert ReplyKeepsIds(timeline, replies, n, n);
    assert ArrivedBy(replies, n, n) == replies(n).arrived;
    var grown, next := timeline + replies(n).arrived, n + 1;
    forall k: nat | k >= next ensures ReplyKeepsIds(grown, replies, next, k) {
      assert ReplyKeepsIds(timeline, replies, n, k);
      assert timeline + replies(n).arrived + ArrivedBy(replies, n + 1, k) == timeline + ArrivedBy(replies, n, k);
    }
  }

  /** Whether the batch ends paging, and whether it does so by the release date alone. */
  method BatchStops(batch: seq<TimelineEvent>, cursor: Option<EventId>) returns (stops: bool, byDate: bool)
    ensures stops <==> exists i :: 0 <= i < |batch| &&
                         ((cursor.Some? && IdOf(batch[i]) == cursor) || (cursor.None? && IsOld(batch[i])))
    ensures byDate <==> stops && cursor.None?
  {
    byDate := false;
    for i := 0 to |batch|
      invariant !byDate
      invariant forall k :: 0 <= k < i ==>
                  !((cursor.Some? && IdOf(batch[k]) == cursor) || (cursor.None? && IsOld(batch[k])))
    {
      if cursor.Some? && IdOf(batch[i]) == cursor {
        return true, false;
      } else if cursor.None? && IsOld(batch[i]) {
        return true, true;
      }
    }
    stops := false;
  }

  /** The loaded part leaves out only a front that precedes some event older than the release. */
  ghost predicate CutByDate(timeline: seq<TimelineEvent>, lo: nat) {
    exists i :: lo <= i < |timeline| && IsOld(timeline[i])
  }

  /** Nothing calls for reading back beyond this event: neither the cursor, nor an age before the release. */
  predicate ReadsPast(e: TimelineEvent, cursor: Option<EventId>) {
    match cursor
    case Some(id) => IdOf(e) != Some(id)
    case None => TimeOf(e).None? || TimeOf(e).value >= RELEASE_TIMESTAMP * 1000
  }

  /**
   * All events after the cursor. With a cursor the result is exactly that suffix of the room, or the
   * whole room when the server no longer has the cursor; without one it is the whole room, or what
   * is left of it after cutting at the release date. Paging goes at most one batch further back than it
   * must. The assertion at the end never fails.
   */
  method AllMessageSince(cache: EventCache, cursor: Option<EventId>, replies: nat -> Reply)
    returns (events: seq<TimelineEvent>)
    requires cache.Valid() && RepliesKeepIds(cache.timeline, replies, 0)
    modifies cache
    ensures cache.Valid() && old(cache.timeline) <= cache.timeline
    ensures cursor.Some? ==> events == Since(cache.timeline, cursor)
    ensures cursor.None? && events != cache.timeline ==>
              events == cache.timeline[cache.lo..] && CutByDate(cache.timeline, cache.lo)
    ensures forall k :: cache.lo + BATCH_SIZE <= k < old(cache.lo) ==> ReadsPast(cache.timeline[k], cursor)
  {
    if cursor.Some? {
      var loaded := cache.timeline[cache.lo..];
      var position := Find(loaded, cursor.value);
      if position.Some? {
        SuffixFind(cache.timeline, cache.lo, cursor.value);
        return loaded[position.value + 1..];
      }
    }
    var startReached, timestampHackUsed := false, false;
    var n: nat := 0;
    while true
      invariant cache.Valid() && old(cache.timeline) <= cache.timeline
      invariant RepliesKeepIds(cache.timeline, replies, n)
      invariant !timestampHackUsed && !startReached && cache.lo <= old(cache.lo)
      invariant forall k :: cache.lo <= k < old(cache.lo) ==> ReadsPast(cache.timeline[k], cursor)
      decreases cache.lo
    {
      RepliesAdvance(cache.timeline, replies, n);
      ghost var before := cache.lo;
      var reached, batch := cache.RunBackwardsOnce(BATCH_SIZE, replies(n));
      n := n + 1;
      if reached {
        startReached := true;
        break;
      }
      var stops, byDate := BatchStops(batch, cursor);
      if stops {
        BatchIsLoaded(cache.timeline, cache.lo, before, batch, cursor);
        timestampHackUsed := byDate;
        break;
      }
      assert forall k :: cache.lo <= k < before ==> batch[k - cache.lo] == cache.timeline[k];
    }
    var loaded := cache.timeline[cache.lo..];
    var position := if cursor.Some? then Find(loaded, cursor.value) else None;
    if position.Some? {
      SuffixFind(cache.timeline, cache.lo, cursor.value);
      return loaded[position.value + 1..];
    }
    assert startReached || timestampHackUsed;
    return loaded;
  }

  /** What stopped paging lies in the loaded part. */
  lemma BatchIsLoaded(timeline: seq<TimelineEvent>, lo: nat, hi: nat, batch: seq<TimelineEvent>, cursor: Option<EventId>)
    requires lo <= hi <= |timeline| && batch == timeline[lo..hi]
    requires exists i :: 0 <= i < |batch| &&
               ((cursor.Some? && IdOf(batch[i]) == cursor) || (cursor.None? && IsOld(batch[i])))
    ensures cursor.Some? ==> Find(timeline[lo..], cursor.value).Some?
    ensures cursor.None? ==> CutByDate(timeline, lo)
  {
    var i :| 0 <= i < |batch| && ((cursor.Some? && IdOf(batch[i]) == cursor) || (cursor.None? && IsOld(batch[i])));
    assert timeline[lo..][i] == batch[i] == timeline[lo + i];
  }

  /** With distinct identifiers, the cursor is found at the same place from any loaded part. */
  lemma SuffixFind(timeline: seq<TimelineEvent>, lo: nat, id: EventId)
    requires DistinctIds(timeline) && lo <= |timeline| && Find(timeline[lo..], id).Some?
    ensures Find(timeline, id) == Some(lo + Find(timeline[lo..], id).value)
    ensures timeline[lo..][Find(timeline[lo..], id).value + 1..] == Since(timeline, Some(id))
  {
    var p := Find(timeline[lo..], id).value;
    assert timeline[lo..][p] == timeline[lo + p];
    FindIsUnique(timeline, id, lo + p);
  }

  // ---------------------------------------------------------------- the release-date cut-off

  ghost predicate OrderedTimes(timeline: seq<TimelineEvent>) {
    forall i, j :: 0 <= i < j < |timeline| && TimeOf(timeline[i]).Some? && TimeOf(timeline[j]).Some? ==>
      TimeOf(timeline[i]).value <= TimeOf(timeline[j]).value
  }

  ghost predicate NoEarlyMessages(timeline: seq<TimelineEvent>) {
    forall i :: 0 <= i < |timeline| && timeline[i].Message? ==> !IsOld(timeline[i])
  }

  /** Cutting at the release date loses no multispend message. */
  lemma CutKeepsMessages(timeline: seq<TimelineEvent>, lo: nat)
    requires lo <= |timeline| && OrderedTimes(timeline) && NoEarlyMessages(timeline) && CutByDate(timeline, lo)
    ensures Messages(timeline[lo..]) == Messages(timeline)
  {
    hide OrderedTimes;
    hide NoEarlyMessages;
    hide CutByDate;
    hide Messages;
    FrontHasNoMessages(timeline, lo);
    NoMessages(timeline[..lo]);
    MessagesConcat(timeline[..lo], timeline[lo..]);
    assert timeline == timeline[..lo] + timeline[lo..];
  }

  lemma FrontHasNoMessages(timeline: seq<TimelineEvent>, lo: nat)
    requires lo <= |timeline| && OrderedTimes(timeline) && NoEarlyMessages(timeline) && CutByDate(timeline, lo)
    ensures forall k :: 0 <= k < lo ==> !timeline[k].Message?
  {
    var i :| lo <= i < |timeline| && IsOld(timeline[i]);
  }
}
