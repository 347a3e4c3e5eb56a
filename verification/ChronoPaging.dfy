/**
 * The chronological index of a room: counters stay dense, each event is listed under one counter
 * with its data stored, and chained pages show every event once, newest first, even while the room
 * goes on.
 */
module ChronoPaging {
  import opened Options
  import opened Ordered
  import opened Multispend
  import opened GroupInvariants
  import opened RoomTablesModule

  ghost function Size(chrono: map<nat, ChronoEntry>): nat {
    |chrono.Keys|
  }

  ghost predicate IsRange(keys: set<nat>) {
    forall c: nat :: c in keys <==> c < |keys|
  }

  ghost predicate Dense(chrono: map<nat, ChronoEntry>) {
    IsRange(chrono.Keys)
  }

  ghost function Listable(t: Tables): set<EventId> {
    t.withdrawals.Keys + t.deposits.Keys
  }

  ghost predicate NamesOnly(chrono: map<nat, ChronoEntry>, ids: set<EventId>) {
    forall c :: c in chrono ==> chrono[c].eventId in ids
  }

  ghost predicate NamesOnce(chrono: map<nat, ChronoEntry>) {
    forall c, d :: c in chrono && d in chrono && c != d ==> chrono[c].eventId != chrono[d].eventId
  }

  ghost predicate Named(chrono: map<nat, ChronoEntry>, id: EventId) {
    exists c :: c in chrono && chrono[c].eventId == id
  }

  ghost predicate NamesAll(chrono: map<nat, ChronoEntry>, ids: set<EventId>) {
    forall r :: r in ids ==> Named(chrono, r)
  }

  /** Counters 0 to n-1, each naming a stored withdrawal or deposit, and each of these named once. */
  ghost predicate IndexMatchesEvents(t: Tables) {
    && Dense(t.chrono) && NamesOnly(t.chrono, Listable(t)) && NamesOnce(t.chrono)
    && NamesAll(t.chrono, Listable(t))
  }

  lemma DenseCount(chrono: map<nat, ChronoEntry>)
    requires Dense(chrono)
    ensures ChronoCount(chrono) == Size(chrono)
  {
    if chrono.Keys != {} {
      var top := Maximum(chrono.Keys);
      assert top < Size(chrono) && Size(chrono) - 1 in chrono.Keys;
    }
  }

  lemma NextKeepsRange(keys: set<nat>)
    requires IsRange(keys)
    ensures IsRange(keys + {|keys|}) && |keys + {|keys|}| == |keys| + 1
  {
  }

  lemma AppendKeepsDense(chrono: map<nat, ChronoEntry>, entry: ChronoEntry)
    requires Dense(chrono)
    ensures var after := chrono[Size(chrono) := entry];
            Dense(after) && Size(after) == Size(chrono) + 1 && Extends(chrono, after)
  {
    assert Size(chrono) !in chrono.Keys;
    hide IsRange;
    NextKeepsRange(chrono.Keys);
    assert chrono[Size(chrono) := entry].Keys == chrono.Keys + {Size(chrono)};
  }

  lemma AppendKeepsNames(chrono: map<nat, ChronoEntry>, ids: set<EventId>, n: nat, entry: ChronoEntry)
    requires n !in chrono && NamesOnly(chrono, ids) && NamesOnce(chrono) && NamesAll(chrono, ids)
    requires entry.eventId !in ids
    ensures var after := chrono[n := entry];
            && NamesOnly(after, ids + {entry.eventId}) && NamesOnce(after)
            && NamesAll(after, ids + {entry.eventId})
  {
    var after := chrono[n := entry];
    forall r | r in ids + {entry.eventId} ensures Named(after, r) {
      if r == entry.eventId {
        assert after[n].eventId == r;
      } else {
        assert Named(chrono, r);
        var c :| c in chrono && chrono[c].eventId == r;
        assert after[c].eventId == r;
      }
    }
  }

  /** Adding an event under the next counter keeps the index exact. */
  lemma InsertKeepsIndex(t: Tables, t': Tables, id: EventId, time: nat)
    requires IndexMatchesEvents(t) && id !in Listable(t)
    requires t'.chrono == WithChrono(t, id, time).chrono && Listable(t') == Listable(t) + {id}
    ensures IndexMatchesEvents(t') && Extends(t.chrono, t'.chrono)
  {
    DenseCount(t.chrono);
    assert Size(t.chrono) !in t.chrono.Keys;
    hide NamesOnly;
    hide NamesOnce;
    hide NamesAll;
    AppendKeepsDense(t.chrono, ChronoEntry(id, time));
    AppendKeepsNames(t.chrono, Listable(t), Size(t.chrono), ChronoEntry(id, time));
    hide Dense;
  }

  /** An event inserts under the next counter, or leaves the index and the listed events alone. */
  lemma IndexAfterStep(env: Env, me: UserId, t: Tables, e: LogEvent)
    requires Step(env, me, t, e).Some?
    ensures var t' := Step(env, me, t, e).value;
            if (e.event.RequestWithdrawal? || e.event.NotifyDeposit?) && FinalizedGroupOf(t).Some? then
              t'.chrono == WithChrono(t, e.id, e.time).chrono && Listable(t') == Listable(t) + {e.id}
            else t'.chrono == t.chrono && Listable(t') == Listable(t)
  {
    hide Step;
    if e.event.RespondToWithdrawal? {
      ResponseKeepsListable(env, me, t, e);
    } else if e.event.RequestWithdrawal? || e.event.NotifyDeposit? {
      InsertionStep(env, me, t, e);
    } else {
      GroupEventKeepsIndex(env, me, t, e);
    }
  }

  lemma InsertionStep(env: Env, me: UserId, t: Tables, e: LogEvent)
    requires e.event.RequestWithdrawal? || e.event.NotifyDeposit?
    requires Step(env, me, t, e).Some?
    ensures var t' := Step(env, me, t, e).value;
            if FinalizedGroupOf(t).Some? then
              t'.chrono == WithChrono(t, e.id, e.time).chrono && Listable(t') == Listable(t) + {e.id}
            else t'.chrono == t.chrono && Listable(t') == Listable(t)
  {
    hide ChronoCount;
  }

  lemma GroupEventKeepsIndex(env: Env, me: UserId, t: Tables, e: LogEvent)
    requires e.event.InviteGroup? || e.event.Reannounce? || e.event.VoteOnInvitation? || e.event.CancelInvitation?
    requires Step(env, me, t, e).Some?
    ensures var t' := Step(env, me, t, e).value;
            t'.chrono == t.chrono && t'.withdrawals == t.withdrawals && t'.deposits == t.deposits
  {
    hide ToFinalized;
    hide WithVote;
    hide NewInvitation;
  }

  lemma ResponseKeepsListable(env: Env, me: UserId, t: Tables, e: LogEvent)
    requires e.event.RespondToWithdrawal? && Step(env, me, t, e).Some?
    ensures var t' := Step(env, me, t, e).value;
            t'.chrono == t.chrono && t'.withdrawals.Keys == t.withdrawals.Keys && t'.deposits == t.deposits
  {
    hide WithResponse;
    hide RowFor;
  }

  lemma StepKeepsIndex(env: Env, me: UserId, t: Tables, e: LogEvent)
    requires IndexMatchesEvents(t) && e.id !in Listable(t) && Step(env, me, t, e).Some?
    ensures IndexMatchesEvents(Step(env, me, t, e).value)
    ensures Extends(t.chrono, Step(env, me, t, e).value.chrono)
  {
    hide Step;
    hide IndexMatchesEvents;
    IndexAfterStep(env, me, t, e);
    if (e.event.RequestWithdrawal? || e.event.NotifyDeposit?) && FinalizedGroupOf(t).Some? {
      InsertKeepsIndex(t, Step(env, me, t, e).value, e.id, e.time);
    } else {
      IndexUntouched(t, Step(env, me, t, e).value);
    }
  }

  lemma IndexUntouched(t: Tables, t': Tables)
    requires IndexMatchesEvents(t) && t'.chrono == t.chrono && Listable(t') == Listable(t)
    ensures IndexMatchesEvents(t') && Extends(t.chrono, t'.chrono)
  {
  }

  ghost predicate Extends(before: map<nat, ChronoEntry>, after: map<nat, ChronoEntry>) {
    forall c :: c in before ==> c in after && after[c] == before[c]
  }

  /** A room begins with an exact index: an empty one. */
  lemma EmptyIsIndexed()
    ensures IndexMatchesEvents(EMPTY)
  {
    assert EMPTY.chrono.Keys == {} && Listable(EMPTY) == {};
  }

  /** Over any fresh log the index stays exact and no entry ever moves. */
  lemma {:induction false} RunKeepsIndex(env: Env, me: UserId, t: Tables, seen: set<EventId>, log: seq<LogEvent>)
    requires Consistent(env, t) && IndexMatchesEvents(t) && StoredIn(t, seen)
    requires FreshLog(seen, log) && Run(env, me, t, log).Some?
    ensures IndexMatchesEvents(Run(env, me, t, log).value)
    ensures Extends(t.chrono, Run(env, me, t, log).value.chrono)
  {
    hide Step;
    hide Consistent;
    hide IndexMatchesEvents;
    if log != [] {
      var front, e := log[..|log| - 1], log[|log| - 1];
      RunKeepsIndex(env, me, t, seen, front);
      RunKeepsConsistent(env, me, t, seen, front);
      StepKeepsIndex(env, me, Run(env, me, t, front).value, e);
    }
  }

  // ---------------------------------------------------------------- one page

  /** The counters n-1, n-2, ... down to n-m. */
  ghost function Down(n: nat, m: nat): (list: seq<nat>)
    requires m <= n
    ensures |list| == m
  {
    if m == 0 then [] else [n - 1] + Down(n - 1, m - 1)
  }

  ghost function Min(a: nat, b: nat): nat {
    if a <= b then a else b
  }

  lemma {:induction false} DescendingRange(s: set<nat>, n: nat)
    requires forall x: nat :: x in s <==> x < n
    ensures Descending(s) == Down(n, n)
  {
    hide Descending;
    if n != 0 {
      var top: nat := n - 1;
      var rest := s - {top};
      assert top in s && forall x: nat :: x in rest <==> x < top;
      DescendingRange(rest, top);
      DescendingStep(s, top);
    } else {
      assert s == {};
      NothingDescends();
    }
  }

  lemma NothingDescends()
    ensures Descending({}) == []
  {
  }

  lemma DescendingStep(s: set<nat>, top: nat)
    requires top in s && forall x :: x in s ==> x <= top
    ensures Descending(s) == [top] + Descending(s - {top})
  {
    assert Maximum(s) == top;
  }

  lemma {:induction false} DownTake(n: nat, k: nat, m: nat)
    requires m <= k <= n
    ensures Down(n, k)[..m] == Down(n, m)
  {
    if m != 0 {
      DownTake(n - 1, k - 1, m - 1);
      assert Down(n, k)[..m] == [n - 1] + Down(n - 1, k - 1)[..m - 1];
    }
  }

  lemma {:induction false} DownSplit(n: nat, m: nat, k: nat)
    requires m + k <= n
    ensures Down(n, m) + Down(n - m, k) == Down(n, m + k)
  {
    if m != 0 {
      DownSplit(n - 1, m - 1, k);
      assert Down(n, m) + Down(n - m, k) == [n - 1] + (Down(n - 1, m - 1) + Down(n - m, k));
    }
  }

  lemma {:induction false} DownLast(n: nat, m: nat)
    requires 0 < m <= n
    ensures Down(n, m)[m - 1] == n - m
  {
    if m > 1 {
      DownLast(n - 1, m - 1);
    }
  }

  /** The page after `startAfter` shows the next counters below it, without gaps. */
  lemma PageIsNextCounters(chrono: map<nat, ChronoEntry>, startAfter: Option<nat>, limit: nat)
    requires Dense(chrono)
    ensures var top := if startAfter.Some? then Min(startAfter.value, Size(chrono)) else Size(chrono);
            PageCounters(chrono, startAfter, limit) == Down(top, Min(top, limit))
  {
    var top := if startAfter.Some? then Min(startAfter.value, Size(chrono)) else Size(chrono);
    hide Descending;
    hide Down;
    DescendingRange(CountersBelow(chrono, startAfter), top);
    DownTake(top, top, Min(top, limit));
  }

  ghost predicate Lists(t: Tables, item: ListedEvent, c: nat) {
    && c in t.chrono && item.counter == c
    && item.eventId == t.chrono[c].eventId && item.time == t.chrono[c].time
    && DataOf(t, item.eventId) == Some(item.data)
  }

  /** Every listed event has stored data, so the listing is one entry per counter. */
  lemma {:induction false} PageIsComplete(t: Tables, counters: seq<nat>, n: nat)
    requires IndexMatchesEvents(t) && n <= |counters|
    requires forall i :: 0 <= i < |counters| ==> counters[i] in t.chrono
    ensures var page := PageOf(t, counters, n);
            |page| == n && forall i :: 0 <= i < n ==> Lists(t, page[i], counters[i])
  {
    hide DataOf;
    hide IndexMatchesEvents;
    if n != 0 {
      PageIsComplete(t, counters, n - 1);
      ListedDataExists(t, counters[n - 1]);
    }
  }

  lemma ListedDataExists(t: Tables, c: nat)
    requires IndexMatchesEvents(t) && c in t.chrono
    ensures DataOf(t, t.chrono[c].eventId).Some?
  {
  }

  // ---------------------------------------------------------------- chained pages

  /** Tables seen by successive pages: only new entries appear from one page to the next. */
  ghost predicate Growing(snapshots: seq<Tables>) {
    && (forall i :: 0 <= i < |snapshots| ==> IndexMatchesEvents(snapshots[i]))
    && (forall i :: 0 < i < |snapshots| ==> Extends(snapshots[i - 1].chrono, snapshots[i].chrono))
  }

  ghost function LastOf(shown: seq<nat>): Option<nat> {
    if shown == [] then None else Some(shown[|shown| - 1])
  }

  /**
   * Counters shown by the first `k` pages: each page starts after the last counter shown so far.
   */
  ghost function Chained(snapshots: seq<Tables>, limits: seq<nat>, k: nat): seq<nat>
    requires k <= |snapshots| == |limits|
  {
    if k == 0 then [] else
      var shown := Chained(snapshots, limits, k - 1);
      shown + PageCounters(snapshots[k - 1].chrono, LastOf(shown), limits[k - 1])
  }

  ghost function Total(limits: seq<nat>, k: nat): nat
    requires k <= |limits|
  {
    if k == 0 then 0 else Total(limits, k - 1) + limits[k - 1]
  }

  lemma {:induction false} GrowsFrom(snapshots: seq<Tables>, k: nat)
    requires Growing(snapshots) && k < |snapshots|
    ensures Size(snapshots[0].chrono) <= Size(snapshots[k].chrono)
  {
    hide IndexMatchesEvents;
    if k > 0 {
      GrowsFrom(snapshots, k - 1);
      var before, after := snapshots[k - 1].chrono, snapshots[k].chrono;
      SubsetSize(before.Keys, after.Keys);
    }
  }

  /**
   * Main result: pages of any positive limits over a growing room show, together, the counters that
   * existed at the first page in descending order without gap or repetition, and all of them as
   * soon as the limits add up to their number.
   */
  lemma {:induction false} ChainedPagesListOnce(snapshots: seq<Tables>, limits: seq<nat>, k: nat)
    requires Growing(snapshots) && 0 < k <= |snapshots| == |limits|
    requires Size(snapshots[0].chrono) > 0 && forall i :: 0 <= i < |limits| ==> limits[i] > 0
    ensures var n := Size(snapshots[0].chrono);
            Chained(snapshots, limits, k) == Down(n, Min(n, Total(limits, k)))
  {
    hide PageCounters;
    hide Chained;
    hide Down;
    hide Size;
    hide LastOf;
    GrowsFrom(snapshots, k - 1);
    GrowingIsDense(snapshots, k - 1);
    ChainedStep(snapshots, limits, k);
    var n, chrono := Size(snapshots[0].chrono), snapshots[k - 1].chrono;
    if k == 1 {
      hide Growing;
      FirstPage(chrono, limits[0]);
      ChainStarts(snapshots, limits);
    } else {
      ChainedPagesListOnce(snapshots, limits, k - 1);
      hide Growing;
      TotalIsPositive(limits, k - 1);
      NextPageExtends(chrono, n, Min(n, Total(limits, k - 1)), limits[k - 1]);
    }
  }

  lemma GrowingIsDense(snapshots: seq<Tables>, k: nat)
    requires Growing(snapshots) && k < |snapshots|
    ensures Dense(snapshots[k].chrono)
  {
    hide Dense;
    hide NamesOnly;
    hide NamesOnce;
    hide NamesAll;
    hide Extends;
  }

  lemma ChainStarts(snapshots: seq<Tables>, limits: seq<nat>)
    requires 1 <= |snapshots| == |limits|
    ensures Chained(snapshots, limits, 0) == [] && Total(limits, 0) == 0 && Total(limits, 1) == limits[0]
  {
  }

  lemma FirstPage(chrono: map<nat, ChronoEntry>, limit: nat)
    requires Dense(chrono)
    ensures [] + PageCounters(chrono, LastOf([]), limit) == Down(Size(chrono), Min(Size(chrono), limit))
  {
    hide PageCounters;
    hide Dense;
    hide Down;
    PageIsNextCounters(chrono, None, limit);
  }

  lemma ChainedStep(snapshots: seq<Tables>, limits: seq<nat>, k: nat)
    requires 0 < k <= |snapshots| == |limits|
    ensures Chained(snapshots, limits, k)
         == Chained(snapshots, limits, k - 1)
            + PageCounters(snapshots[k - 1].chrono, LastOf(Chained(snapshots, limits, k - 1)), limits[k - 1])
  {
    hide PageCounters;
  }

  /** After the first `m` counters below `n`, the next page continues without gap. */
  lemma NextPageExtends(chrono: map<nat, ChronoEntry>, n: nat, m: nat, limit: nat)
    requires Dense(chrono) && 0 < m <= n <= Size(chrono)
    ensures Down(n, m) + PageCounters(chrono, LastOf(Down(n, m)), limit) == Down(n, Min(n, m + limit))
  {
    hide PageCounters;
    DownLast(n, m);
    hide Down;
    hide Dense;
    PageIsNextCounters(chrono, Some(n - m), limit);
    DownSplit(n, m, Min(n - m, limit));
  }

  lemma {:induction false} TotalIsPositive(limits: seq<nat>, k: nat)
    requires 0 < k <= |limits| && forall i :: 0 <= i < |limits| ==> limits[i] > 0
    ensures Total(limits, k) > 0
  {
    if k > 1 {
      TotalIsPositive(limits, k - 1);
    }
  }
}
