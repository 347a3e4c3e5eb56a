/**
 * Daily log files: compressing past days and pruning old ones, with a crash possible between any two
 * steps. Directory changes become durable only when the directory is synced, file contents only when
 * the file is.
 */
module LogRotation {
  import opened Options
  import opened Ordered

  type Day = nat
  type Content = nat

  const LEGACY_DAY: Day := 10

  /** A compressed file: whole, or with unknown contents. */
  datatype Zip = Whole(content: Content) | Torn

  /**
   * The log directory. `raw`, `zip` and `legacy` are what programs see; the rest is what a crash may
   * still bring back or take away.
   */
  datatype Disk = Disk(
    raw: map<Day, Content>,
    zip: map<Day, Zip>,
    legacy: Option<Content>,
    goneRaw: map<Day, Content>,   // removed, the removal not synced
    goneZip: map<Day, Zip>,
    newZip: set<Day>,             // created, the entry not synced
    moved: Option<Content>)       // the legacy file was renamed, the rename not synced

  predicate Synced(d: Disk) {
    d.goneRaw == map[] && d.goneZip == map[] && d.newZip == {} && d.moved.None?
  }

  /** The raw entry a crash can leave for a day. */
  predicate RawAfter(d: Disk, o: Disk, x: Day) {
    if x == LEGACY_DAY && d.moved.Some? then
      || (x in d.raw && x in o.raw && o.raw[x] == d.raw[x] && o.legacy.None?)
      || (o.legacy == d.moved && (x in o.raw ==> x in d.goneRaw && o.raw[x] == d.goneRaw[x]))
    else if x in d.raw then x in o.raw && o.raw[x] == d.raw[x]
    else x in o.raw ==> x in d.goneRaw && o.raw[x] == d.goneRaw[x]
  }

  predicate ZipAfter(d: Disk, o: Disk, x: Day) {
    if x in o.zip then
      || (x in d.zip && o.zip[x] == d.zip[x])
      || (x in d.goneZip && o.zip[x] == d.goneZip[x] && (x in d.zip ==> x in d.newZip))
    else x !in d.zip || x in d.newZip
  }

  /** `o` is a directory a crash of `d` can leave. */
  ghost predicate Crashes(d: Disk, o: Disk) {
    && Synced(o)
    && (d.moved.None? ==> o.legacy == d.legacy)
    && (forall x :: RawAfter(d, o, x))
    && (forall x :: ZipAfter(d, o, x))
  }

  // ---------------------------------------------------------------- what a directory holds

  /** The raw log of a past day; the undated legacy file stands for day 10. */
  function RawOf(d: Disk, current: Day, x: Day): Option<Content> {
    if x == current then None
    else if x in d.raw then Some(d.raw[x])
    else if x == LEGACY_DAY then d.legacy
    else None
  }

  /** A day's log: the raw file is the canonical copy, a compressed one counts when it is whole. */
  function LogOf(d: Disk, current: Day, x: Day): Option<Content> {
    if RawOf(d, current, x).Some? then RawOf(d, current, x)
    else if x in d.zip && d.zip[x].Whole? then Some(d.zip[x].content)
    else None
  }

  /** The logs are `logs`, day by day. */
  ghost predicate Holds(d: Disk, current: Day, logs: map<Day, Content>) {
    forall x :: LogOf(d, current, x) == if x in logs then Some(logs[x]) else None
  }

  /** The days retention keeps. */
  function Newest(days: set<Day>, n: nat): set<Day> {
    if days == {} || n == 0 then {} else {Maximum(days)} + Newest(days - {Maximum(days)}, n - 1)
  }

  /** What may be lost of `logs`: none of the days `kept`, and what is left is unchanged. */
  ghost predicate Preserves(d: Disk, current: Day, logs: map<Day, Content>, kept: set<Day>) {
    forall x ::
      && (LogOf(d, current, x).Some? ==> x in logs && LogOf(d, current, x).value == logs[x])
      && (x in kept ==> LogOf(d, current, x).Some?)
  }

  /** Torn compressed files are only leftovers beside the raw file they are made from. */
  ghost predicate Orderly(d: Disk, current: Day) {
    forall x :: x in d.zip && d.zip[x].Torn? ==> RawOf(d, current, x).Some?
  }

  // ---------------------------------------------------------------- safety at every crash point

  /** Whatever a crash at this point leaves, the logs are preserved. */
  ghost predicate CrashSafe(d: Disk, current: Day, logs: map<Day, Content>, kept: set<Day>) {
    forall o :: Crashes(d, o) ==> Preserves(o, current, logs, kept) && Orderly(o, current)
  }

  /** The raw sources of a day, any of which a crash may leave. */
  predicate HasRaw(d: Disk, current: Day, x: Day) {
    x != current && (x in d.raw || (x == LEGACY_DAY && d.legacy.Some?))
  }

  predicate ZipIs(z: Zip, logs: map<Day, Content>, x: Day) {
    z.Whole? && x in logs && z.content == logs[x]
  }

  /** The condition on one day that makes a directory crash-safe. */
  predicate DayGuarded(d: Disk, current: Day, logs: map<Day, Content>, kept: set<Day>, x: Day) {
    // the active day's file has not been removed, and every past raw copy there is or may be again is
    // the day's log
    && (x == current ==> x !in d.goneRaw)
    && (x != current && x in d.raw ==> x in logs && d.raw[x] == logs[x])
    && (x != current && x in d.goneRaw ==> x in logs && d.goneRaw[x] == logs[x])
    && (x == LEGACY_DAY && d.legacy.Some? && x !in d.raw && x != current ==> x in logs && d.legacy.value == logs[x])
    && (x == LEGACY_DAY && d.moved.Some? ==>
          x != current && x in d.raw && d.moved.value == d.raw[x] && d.legacy.None?)
    // without one, every compressed copy is whole and is the day's log
    && (!HasRaw(d, current, x) ==>
          && (x in d.zip ==> ZipIs(d.zip[x], logs, x))
          && (x in d.goneZip ==> ZipIs(d.goneZip[x], logs, x)))
    // and a day that must be kept is there for sure
    && (x in kept && !HasRaw(d, current, x) ==> x in d.zip && x !in d.newZip)
  }

  ghost predicate Guarded(d: Disk, current: Day, logs: map<Day, Content>, kept: set<Day>) {
    forall x :: DayGuarded(d, current, logs, kept, x)
  }

  lemma GuardedDayIsSafe(d: Disk, o: Disk, current: Day, logs: map<Day, Content>, kept: set<Day>, x: Day)
    requires DayGuarded(d, current, logs, kept, x) && RawAfter(d, o, x) && ZipAfter(d, o, x)
    requires d.moved.None? ==> o.legacy == d.legacy
    ensures LogOf(o, current, x).Some? ==> x in logs && LogOf(o, current, x).value == logs[x]
    ensures x in kept ==> LogOf(o, current, x).Some?
    ensures x in o.zip && o.zip[x].Torn? ==> RawOf(o, current, x).Some?
  {
  }

  lemma GuardedIsCrashSafe(d: Disk, current: Day, logs: map<Day, Content>, kept: set<Day>)
    requires Guarded(d, current, logs, kept)
    ensures CrashSafe(d, current, logs, kept)
  {
    forall o | Crashes(d, o) ensures Preserves(o, current, logs, kept) && Orderly(o, current) {
      forall x
        ensures LogOf(o, current, x).Some? ==> x in logs && LogOf(o, current, x).value == logs[x]
        ensures x in kept ==> LogOf(o, current, x).Some?
        ensures x in o.zip && o.zip[x].Torn? ==> RawOf(o, current, x).Some?
      {
        assert DayGuarded(d, current, logs, kept, x) && RawAfter(d, o, x) && ZipAfter(d, o, x);
        GuardedDayIsSafe(d, o, current, logs, kept, x);
      }
    }
  }

  /** A directory with nothing unsynced guards exactly the logs it holds, and all of them. */
  lemma HoldsIsGuarded(d: Disk, current: Day, logs: map<Day, Content>)
    requires Synced(d) && Orderly(d, current) && Holds(d, current, logs)
    ensures Guarded(d, current, logs, logs.Keys)
  {
    forall x ensures DayGuarded(d, current, logs, logs.Keys, x) {
      assert LogOf(d, current, x) == if x in logs then Some(logs[x]) else None;
    }
  }

  // ---------------------------------------------------------------- retention

  lemma {:induction false} NewestIsWithin(days: set<Day>, n: nat)
    ensures Newest(days, n) <= days
    decreases days
  {
    if days != {} && n != 0 {
      NewestIsWithin(days - {Maximum(days)}, n - 1);
    }
  }

  /** The newest days are that many of them, or all, and none is older than a day left out. */
  lemma {:induction false} NewestMeans(days: set<Day>, n: nat)
    ensures Newest(days, n) <= days && |Newest(days, n)| == if n <= |days| then n else |days|
    ensures forall x: Day, y: Day :: x in Newest(days, n) && y in days && y !in Newest(days, n) ==> y < x
    decreases days
  {
    if days != {} && n != 0 {
      var m := Maximum(days);
      var rest := days - {m};
      assert |rest| == |days| - 1;
      NewestMeans(rest, n - 1);
      forall x: Day, y: Day | x in Newest(days, n) && y in days && y !in Newest(days, n) ensures y < x {
        assert x == m || x in Newest(rest, n - 1);
        assert y in rest;
      }
    }
  }

  /** Losing days retention would not keep anyway does not change what it keeps. */
  lemma {:induction false} NewestOfRest(days: set<Day>, rest: set<Day>, n: nat)
    requires rest <= days && Newest(days, n) <= rest
    ensures Newest(rest, n) == Newest(days, n)
    decreases days
  {
    if days != {} && n != 0 {
      var m := Maximum(days);
      assert m in Newest(days, n) && Maximum(rest) == m;
      NewestIsWithin(days - {m}, n - 1);
      NewestOfRest(days - {m}, rest - {m}, n - 1);
    }
  }

  lemma DescendingParts(days: set<Day>)
    requires days != {}
    ensures Descending(days) == [Maximum(days)] + Descending(days - {Maximum(days)})
  {
  }

  lemma NewestParts(days: set<Day>, n: nat)
    ensures n == 0 ==> Newest(days, n) == {}
    ensures days != {} && n != 0 ==> Newest(days, n) == {Maximum(days)} + Newest(days - {Maximum(days)}, n - 1)
  {
  }

  lemma {:induction false} NewestAreFirst(days: set<Day>, n: nat, i: nat)
    requires i < |days|
    ensures Descending(days)[i] in Newest(days, n) <==> i < n
    decreases |days|
  {
    hide Descending;
    hide Newest;
    hide Maximum;
    var m := Maximum(days);
    var rest := days - {m};
    DescendingParts(days);
    NewestParts(days, n);
    assert |rest| == |days| - 1;
    if i == 0 {
      assert Descending(days)[0] == m;
    } else if n != 0 {
      NewestAreFirst(rest, n - 1, i - 1);
      assert Descending(days)[i] == Descending(rest)[i - 1];
      assert Descending(rest)[i - 1] in rest;
    }
  }

  // ---------------------------------------------------------------- the directory's primitives

  function Opened(d: Disk, x: Day): Disk {
    d.(zip := d.zip[x := Torn], newZip := if x in d.zip then d.newZip else d.newZip + {x})
  }

  function Written(d: Disk, x: Day, content: Content): Disk {
    d.(zip := d.zip[x := Whole(content)])
  }

  function AfterSync(d: Disk): Disk {
    Disk(d.raw, d.zip, d.legacy, map[], map[], {}, None)
  }

  function WithoutRaw(d: Disk, x: Day): Disk
    requires x in d.raw
  {
    d.(raw := d.raw - {x}, goneRaw := d.goneRaw[x := d.raw[x]])
  }

  function WithoutZip(d: Disk, x: Day): Disk
    requires x in d.zip
  {
    d.(zip := d.zip - {x}, goneZip := d.goneZip[x := d.zip[x]], newZip := d.newZip - {x})
  }

  function Renamed(d: Disk): Disk
    requires d.legacy.Some?
  {
    d.(raw := d.raw[LEGACY_DAY := d.legacy.value], legacy := None, moved := d.legacy)
  }

  lemma OverwritingKeepsRaw(d: Disk, x: Day)
    ensures Opened(d, x).raw == d.raw && Opened(d, x).legacy == d.legacy
    ensures forall content :: var w := Written(Opened(d, x), x, content);
              w.raw == d.raw && w.legacy == d.legacy && w.zip == d.zip[x := Whole(content)]
  {
  }

  lemma CompressKeepsGuarded(d: Disk, current: Day, logs: map<Day, Content>, kept: set<Day>, x: Day)
    requires Guarded(d, current, logs, kept) && x in d.raw && x != current
    ensures Guarded(Opened(d, x), current, logs, kept)
    ensures Guarded(Written(d, x, d.raw[x]), current, logs, kept)
  {
    forall y
      ensures DayGuarded(Opened(d, x), current, logs, kept, y)
      ensures DayGuarded(Written(d, x, d.raw[x]), current, logs, kept, y)
    {
      assert DayGuarded(d, current, logs, kept, y);
    }
  }

  lemma SyncKeepsGuarded(d: Disk, current: Day, logs: map<Day, Content>, kept: set<Day>)
    requires Guarded(d, current, logs, kept)
    ensures Guarded(AfterSync(d), current, logs, kept)
  {
    forall y ensures DayGuarded(AfterSync(d), current, logs, kept, y) {
      assert DayGuarded(d, current, logs, kept, y);
    }
  }

  /** A raw file may go once its compressed copy is whole and durable. */
  lemma RemoveRawKeepsGuarded(d: Disk, current: Day, logs: map<Day, Content>, kept: set<Day>, x: Day)
    requires Guarded(d, current, logs, kept) && Synced(d) && x in d.raw && x != current && d.legacy.None?
    requires x in d.zip && d.zip[x] == Whole(d.raw[x])
    ensures Guarded(WithoutRaw(d, x), current, logs, kept)
  {
    forall y ensures DayGuarded(WithoutRaw(d, x), current, logs, kept, y) {
      assert DayGuarded(d, current, logs, kept, y);
    }
  }

  /** A compressed file may go once it need not be kept. */
  lemma RemoveZipKeepsGuarded(d: Disk, current: Day, logs: map<Day, Content>, kept: set<Day>, x: Day)
    requires Guarded(d, current, logs, kept) && x in d.zip && !HasRaw(d, current, x) && x !in kept
    ensures Guarded(WithoutZip(d, x), current, logs, kept)
  {
    forall y ensures DayGuarded(WithoutZip(d, x), current, logs, kept, y) {
      assert DayGuarded(d, current, logs, kept, y);
    }
  }

  lemma RenameKeepsGuarded(d: Disk, current: Day, logs: map<Day, Content>, kept: set<Day>)
    requires Guarded(d, current, logs, kept) && d.legacy.Some? && LEGACY_DAY !in d.raw && current != LEGACY_DAY
    ensures Guarded(Renamed(d), current, logs, kept)
  {
    forall y ensures DayGuarded(Renamed(d), current, logs, kept, y) {
      assert DayGuarded(d, current, logs, kept, y);
    }
  }

  /** A directory, every state it has been in, and how many operations on it have failed; any may. */
  class LogDirectory {
    var disk: Disk
    ghost var trace: seq<Disk>
    ghost var failures: nat

    constructor (d: Disk)
      ensures disk == d && trace == [d] && failures == 0
    {
      disk := d;
      trace := [d];
      failures := 0;
    }

    method Attempt() returns (ok: bool)
      modifies this`failures
      ensures failures == old(failures) + if ok then 0 else 1
    {
      ok := *;
      if !ok {
        failures := failures + 1;
      }
    }

    method Become(d: Disk)
      modifies this`disk, this`trace
      ensures disk == d && trace == old(trace) + [d]
    {
      disk := d;
      trace := trace + [d];
    }

    method Sync() returns (ok: bool)
      modifies this
      ensures disk == if ok then AfterSync(old(disk)) else old(disk)
      ensures trace == old(trace) + if ok then [disk] else []
      ensures failures == old(failures) + if ok then 0 else 1
    {
      ok := Attempt();
      if ok {
        Become(AfterSync(disk));
      }
    }

    /** `compress_log_file`: the destination is truncated, filled, and synced. */
    method CompressLogFile(x: Day) returns (ok: bool)
      requires x in disk.raw
      modifies this
      ensures disk == old(disk) || disk == Opened(old(disk), x)
              || disk == Written(Opened(old(disk), x), x, old(disk).raw[x])
      ensures ok ==> disk == Written(Opened(old(disk), x), x, old(disk).raw[x])
      ensures trace == old(trace)
              || trace == old(trace) + [Opened(old(disk), x)]
              || trace == old(trace) + [Opened(old(disk), x), Written(Opened(old(disk), x), x, old(disk).raw[x])]
      ensures failures == old(failures) + if ok then 0 else 1
    {
      ok := Attempt();
      if !ok {
        return;
      }
      Become(Opened(disk, x));
      ok := Attempt();
      if ok {
        Become(Written(disk, x, disk.raw[x]));
      }
    }

    method RemoveRaw(x: Day) returns (ok: bool)
      requires x in disk.raw
      modifies this
      ensures disk == if ok then WithoutRaw(old(disk), x) else old(disk)
      ensures trace == old(trace) + if ok then [disk] else []
      ensures failures == old(failures) + if ok then 0 else 1
    {
      ok := Attempt();
      if ok {
        Become(WithoutRaw(disk, x));
      }
    }

    method RemoveZip(x: Day) returns (ok: bool)
      requires x in disk.zip
      modifies this
      ensures disk == if ok then WithoutZip(old(disk), x) else old(disk)
      ensures trace == old(trace) + if ok then [disk] else []
      ensures failures == old(failures) + if ok then 0 else 1
    {
      ok := Attempt();
      if ok {
        Become(WithoutZip(disk, x));
      }
    }

    method RenameLegacy() returns (ok: bool)
      requires disk.legacy.Some?
      modifies this
      ensures disk == if ok then Renamed(old(disk)) else old(disk)
      ensures trace == old(trace) + if ok then [disk] else []
      ensures failures == old(failures) + if ok then 0 else 1
    {
      ok := Attempt();
      if ok {
        Become(Renamed(disk));
      }
    }

    /** Every state since `since` guards the days `kept` and has the active file, and so does the present one. */
    ghost predicate SafeSince(since: nat, current: Day, logs: map<Day, Content>, kept: set<Day>)
      reads this
    {
      && since <= |trace| && Guarded(disk, current, logs, kept) && current in disk.raw
      && forall k :: since <= k < |trace| ==> Guarded(trace[k], current, logs, kept) && current in trace[k].raw
    }

    /** `migrate_legacy_log_file`. */
    method MigrateLegacyLogFile(current: Day, ghost logs: map<Day, Content>, ghost kept: set<Day>, ghost since: nat)
        returns (ok: bool)
      requires SafeSince(since, current, logs, kept)
      modifies this
      ensures SafeSince(since, current, logs, kept) && old(trace) <= trace
      ensures (disk.raw == old(disk).raw && disk.legacy == old(disk).legacy)
              || (old(disk).legacy.Some? && LEGACY_DAY !in old(disk).raw && disk.legacy.None?
                  && disk.raw == old(disk).raw[LEGACY_DAY := old(disk).legacy.value])
      ensures disk.zip == old(disk).zip
      ensures ok ==> disk.legacy.None?
      ensures ok <==> failures == old(failures) && (old(disk).legacy.None? || LEGACY_DAY !in old(disk).raw)
      ensures old(failures) <= failures
    {
      if disk.legacy.None? {
        return true;
      }
      if LEGACY_DAY in disk.raw {
        return false;
      }
      RenameKeepsGuarded(disk, current, logs, kept);
      ok := RenameLegacy();
      if ok {
        SyncKeepsGuarded(disk, current, logs, kept);
        ok := Sync();
      }
    }

    /** Compressing one past day and making the new entry durable, the raw file still beside it. */
    method CompressDurably(x: Day, current: Day, ghost logs: map<Day, Content>, ghost kept: set<Day>, ghost since: nat)
        returns (ok: bool)
      requires SafeSince(since, current, logs, kept) && x in disk.raw && x != current
      modifies this
      ensures SafeSince(since, current, logs, kept) && old(trace) <= trace
      ensures disk.raw == old(disk).raw && disk.legacy == old(disk).legacy
      ensures ok ==> Synced(disk) && disk.zip == old(disk).zip[x := Whole(old(disk).raw[x])]
      ensures failures == old(failures) + if ok then 0 else 1
    {
      hide Guarded;
      hide Opened;
      hide Written;
      OverwritingKeepsRaw(disk, x);
      CompressKeepsGuarded(disk, current, logs, kept, x);
      CompressKeepsGuarded(Opened(disk, x), current, logs, kept, x);
      ok := CompressLogFile(x);
      if ok {
        SyncKeepsGuarded(disk, current, logs, kept);
        ok := Sync();
      }
    }

    /** One past day: compress, make the entry durable, remove the raw file, make that durable. */
    method RotateDay(x: Day, current: Day, ghost logs: map<Day, Content>, ghost kept: set<Day>, ghost since: nat)
        returns (ok: bool)
      requires SafeSince(since, current, logs, kept) && x in disk.raw && x != current && disk.legacy.None?
      modifies this
      ensures SafeSince(since, current, logs, kept) && old(trace) <= trace
      ensures disk.raw == old(disk).raw || disk.raw == old(disk).raw - {x}
      ensures disk.legacy.None?
      ensures ok ==> disk.raw == old(disk).raw - {x} && disk.zip == old(disk).zip[x := Whole(old(disk).raw[x])]
      ensures failures == old(failures) + if ok then 0 else 1
    {
      hide Guarded;
      ok := CompressDurably(x, current, logs, kept, since);
      if ok {
        RemoveRawKeepsGuarded(disk, current, logs, kept, x);
        ok := RemoveRaw(x);
        if ok {
          SyncKeepsGuarded(disk, current, logs, kept);
          ok := Sync();
        }
      }
    }

    /** Every past day, in whatever order the directory lists them. */
    method RotateAll(current: Day, ghost logs: map<Day, Content>, ghost kept: set<Day>, ghost since: nat)
        returns (ok: bool)
      requires SafeSince(since, current, logs, kept) && disk.legacy.None?
      modifies this
      ensures SafeSince(since, current, logs, kept) && old(trace) <= trace && disk.legacy.None?
      ensures current in disk.raw && disk.raw[current] == old(disk).raw[current]
      ensures ok ==> disk.raw.Keys == {current}
      ensures failures == old(failures) + if ok then 0 else 1
    {
      hide Guarded;
      var todo := disk.raw.Keys - {current};
      ok := true;
      while todo != {} && ok
        invariant SafeSince(since, current, logs, kept) && old(trace) <= trace && disk.legacy.None?
        invariant current in disk.raw && disk.raw[current] == old(disk).raw[current]
        invariant current !in todo && todo <= disk.raw.Keys
        invariant ok ==> disk.raw.Keys == todo + {current}
        invariant failures == old(failures) + if ok then 0 else 1
        decreases |todo|
      {
        var x :| x in todo;
        todo := todo - {x};
        ok := RotateDay(x, current, logs, kept, since);
      }
    }

    /** Every state since `since` guards all days but those pruning has removed, and so does the present one. */
    ghost predicate PrunesSince(since: nat, current: Day, logs: map<Day, Content>, kept: set<Day>, n: nat)
      reads this
    {
      && since <= |trace| && Pruning(disk, current, logs, kept, n)
      && forall k :: since <= k < |trace| ==> Pruning(trace[k], current, logs, kept, n)
    }

    /** Removing the compressed files retention does not keep, one durable removal at a time. */
    method Prune(current: Day, ghost logs: map<Day, Content>, ghost kept: set<Day>, n: nat) returns (ok: bool)
      requires Guarded(disk, current, logs, kept) && Newest(logs.Keys, n) <= kept
      requires disk.raw.Keys == {current} && disk.legacy.None?
      modifies this
      ensures old(trace) <= trace && PrunesSince(|old(trace)|, current, logs, kept, n)
      ensures disk.raw == old(disk).raw && disk.legacy.None?
      ensures ok ==> disk.zip.Keys == Newest(logs.Keys, n)
      ensures failures == old(failures) + if ok then 0 else 1
    {
      hide Guarded;
      hide Newest;
      hide Descending;
      hide Pruning;
      var list := Descending(disk.zip.Keys);
      ghost var all := disk.zip.Keys;
      KeptZips(disk, current, logs, kept, n);
      PruningStarts(disk, current, logs, kept, n);
      var i := n;
      while i < |list|
        invariant n <= i && |list| == |all| && list == Descending(all)
        invariant PrunesSince(|old(trace)|, current, logs, kept, n) && old(trace) <= trace && disk.raw == old(disk).raw
        invariant disk.legacy.None? && failures == old(failures)
        invariant forall j :: 0 <= j < |list| ==> (list[j] in disk.zip <==> j < n || j >= i)
        invariant disk.zip.Keys <= all
      {
        NewestAreFirst(all, n, i);
        RemoveZipKeepsPruning(disk, current, logs, kept, n, list[i]);
        ok := RemoveZip(list[i]);
        if !ok {
          return;
        }
        SyncKeepsPruning(disk, current, logs, kept, n);
        ok := Sync();
        if !ok {
          return;
        }
        i := i + 1;
      }
      PrunedIsNewest(all, disk.zip.Keys, n, i);
      return true;
    }

    /**
     * `run_log_maintenance_pass`. Until it prunes, every state it goes through is safe for all the days
     * `kept`, whatever retention says; from then on a state has lost only the days whose compressed files
     * are already removed, and never one of the newest `n`. When it ends well, exactly those remain; and it
     * ends well exactly when no operation fails and no raw file of day 10 stands in the way of the undated one.
     */
    method RunLogMaintenancePass(current: Day, ghost logs: map<Day, Content>, ghost kept: set<Day>, n: nat)
        returns (ok: bool, ghost pruning: nat)
      requires Guarded(disk, current, logs, kept) && Newest(logs.Keys, n) <= kept && current in disk.raw
      modifies this
      ensures old(trace) <= trace && |old(trace)| <= pruning <= |trace|
      ensures forall k :: |old(trace)| <= k < pruning ==>
                && Guarded(trace[k], current, logs, kept) && current in trace[k].raw
                && CrashSafe(trace[k], current, logs, kept)
      ensures forall k :: pruning <= k < |trace| ==>
                && Pruning(trace[k], current, logs, kept, n)
                && CrashSafe(trace[k], current, logs, kept * trace[k].zip.Keys)
      ensures Guarded(disk, current, logs, kept) || Pruning(disk, current, logs, kept, n)
      ensures current in disk.raw && disk.raw[current] == old(disk).raw[current]
      ensures ok ==> Finished(disk, current, logs, n)
      ensures ok <==> failures == old(failures) && (old(disk).legacy.None? || LEGACY_DAY !in old(disk).raw)
    {
      hide Guarded;
      hide CrashSafe;
      hide Newest;
      hide Pruning;
      ghost var since := |trace|;
      ok := MigrateLegacyLogFile(current, logs, kept, since);
      if ok {
        ok := RotateAll(current, logs, kept, since);
      }
      pruning := |trace|;
      ghost var rotated := trace;
      if ok {
        ok := Prune(current, logs, kept, n);
        FinishedMeans(disk, current, logs, kept, n);
      }
      assert forall k :: since <= k < pruning ==> trace[k] == rotated[k];
      forall k | since <= k < pruning ensures CrashSafe(trace[k], current, logs, kept) {
        GuardedIsCrashSafe(trace[k], current, logs, kept);
      }
      forall k | pruning <= k < |trace| ensures CrashSafe(trace[k], current, logs, kept * trace[k].zip.Keys) {
        PruningIsCrashSafe(trace[k], current, logs, kept, n);
      }
    }

    /**
     * `spawn_log_maintenance_thread`: one launch's pass, whose failure is only reported. Whatever state it
     * stops in, and however it ends, is what `PassThrough` and `PassEnds` say of a launch.
     */
    method LaunchPass(current: Day, ghost logs: map<Day, Content>, n: nat) returns (ok: bool)
      requires Guarded(disk, current, logs, Newest(logs.Keys, n)) && current in disk.raw
      modifies this
      ensures old(trace) <= trace
      ensures forall k :: |old(trace)| <= k < |trace| ==> PassThrough(Launch(old(disk), current, logs, trace[k]), n)
      ensures PassThrough(Launch(old(disk), current, logs, disk), n)
      ensures ok ==> PassEnds(Launch(old(disk), current, logs, disk), disk, n)
      ensures ok <==> failures == old(failures) && (old(disk).legacy.None? || LEGACY_DAY !in old(disk).raw)
    {
      hide Guarded;
      hide Newest;
      hide CrashSafe;
      ghost var kept := Newest(logs.Keys, n);
      ghost var pruning: nat;
      ok, pruning := RunLogMaintenancePass(current, logs, kept, n);
      forall k | pruning <= k < |trace| ensures Guarded(trace[k], current, logs, kept) && current in trace[k].raw {
        PruningGuardsNewest(trace[k], current, logs, n);
      }
      if Pruning(disk, current, logs, kept, n) {
        PruningGuardsNewest(disk, current, logs, n);
      }
    }
  }

  // ---------------------------------------------------------------- pruning

  /** What is left to lose while pruning: the days whose compressed files remain, the newest among them. */
  ghost predicate Pruning(d: Disk, current: Day, logs: map<Day, Content>, kept: set<Day>, n: nat) {
    && Guarded(d, current, logs, kept * d.zip.Keys)
    && Newest(logs.Keys, n) <= kept * d.zip.Keys
    && d.raw.Keys == {current} && d.legacy.None?
  }

  /** Pruning starts with every day still there. */
  lemma PruningStarts(d: Disk, current: Day, logs: map<Day, Content>, kept: set<Day>, n: nat)
    requires Guarded(d, current, logs, kept) && Newest(logs.Keys, n) <= kept
    requires d.raw.Keys == {current} && d.legacy.None?
    ensures Pruning(d, current, logs, kept, n) && kept <= d.zip.Keys
  {
    forall x | x in kept ensures x in d.zip {
      assert DayGuarded(d, current, logs, kept, x);
    }
    assert kept * d.zip.Keys == kept;
  }

  /** Fewer days to keep is a weaker guard. */
  lemma GuardsFewer(d: Disk, current: Day, logs: map<Day, Content>, kept: set<Day>, fewer: set<Day>)
    requires Guarded(d, current, logs, kept) && fewer <= kept
    ensures Guarded(d, current, logs, fewer)
  {
    forall x ensures DayGuarded(d, current, logs, fewer, x) {
      assert DayGuarded(d, current, logs, kept, x);
    }
  }

  lemma RemoveZipKeepsPruning(d: Disk, current: Day, logs: map<Day, Content>, kept: set<Day>, n: nat, x: Day)
    requires Pruning(d, current, logs, kept, n) && x in d.zip && x !in Newest(logs.Keys, n)
    ensures Pruning(WithoutZip(d, x), current, logs, kept, n)
  {
    hide Guarded;
    hide Newest;
    var fewer := kept * d.zip.Keys - {x};
    GuardsFewer(d, current, logs, kept * d.zip.Keys, fewer);
    RemoveZipKeepsGuarded(d, current, logs, fewer, x);
    assert kept * WithoutZip(d, x).zip.Keys == fewer;
  }

  lemma SyncKeepsPruning(d: Disk, current: Day, logs: map<Day, Content>, kept: set<Day>, n: nat)
    requires Pruning(d, current, logs, kept, n)
    ensures Pruning(AfterSync(d), current, logs, kept, n)
  {
    hide Guarded;
    hide Newest;
    SyncKeepsGuarded(d, current, logs, kept * d.zip.Keys);
  }

  /** When only the newest days are asked for, pruning keeps guarding all of them. */
  lemma PruningGuardsNewest(d: Disk, current: Day, logs: map<Day, Content>, n: nat)
    requires Pruning(d, current, logs, Newest(logs.Keys, n), n)
    ensures Guarded(d, current, logs, Newest(logs.Keys, n)) && current in d.raw
  {
    hide Guarded;
    hide Newest;
    assert Newest(logs.Keys, n) * d.zip.Keys == Newest(logs.Keys, n);
  }

  lemma PruningIsCrashSafe(d: Disk, current: Day, logs: map<Day, Content>, kept: set<Day>, n: nat)
    requires Pruning(d, current, logs, kept, n)
    ensures CrashSafe(d, current, logs, kept * d.zip.Keys)
  {
    hide Guarded;
    hide Newest;
    hide CrashSafe;
    GuardedIsCrashSafe(d, current, logs, kept * d.zip.Keys);
  }

  /** Only the active raw file is left, and of the past days the newest, compressed and whole. */
  ghost predicate Finished(d: Disk, current: Day, logs: map<Day, Content>, n: nat) {
    && d.raw.Keys == {current} && d.legacy.None? && d.zip.Keys == Newest(logs.Keys, n)
    && forall x :: x in d.zip ==> x in logs && d.zip[x] == Whole(logs[x])
  }

  lemma FinishedMeans(d: Disk, current: Day, logs: map<Day, Content>, kept: set<Day>, n: nat)
    requires Pruning(d, current, logs, kept, n)
    ensures d.zip.Keys == Newest(logs.Keys, n) ==> Finished(d, current, logs, n)
  {
    forall x | x in d.zip ensures x in logs && d.zip[x] == Whole(logs[x]) {
      assert DayGuarded(d, current, logs, kept * d.zip.Keys, x);
    }
  }

  /** With every past day compressed, retention sees the same newest days as in the full list. */
  lemma KeptZips(d: Disk, current: Day, logs: map<Day, Content>, kept: set<Day>, n: nat)
    requires Guarded(d, current, logs, kept) && Newest(logs.Keys, n) <= kept
    requires d.raw.Keys == {current} && d.legacy.None?
    ensures d.zip.Keys <= logs.Keys && Newest(d.zip.Keys, n) == Newest(logs.Keys, n)
  {
    forall x ensures x in d.zip ==> x in logs {
      assert DayGuarded(d, current, logs, kept, x);
    }
    forall x ensures x in Newest(logs.Keys, n) ==> x in d.zip {
      assert DayGuarded(d, current, logs, kept, x);
    }
    NewestOfRest(logs.Keys, d.zip.Keys, n);
  }

  lemma PrunedIsNewest(all: set<Day>, kept: set<Day>, n: nat, i: nat)
    requires kept <= all && i >= |all|
    requires forall j :: 0 <= j < |all| ==> (Descending(all)[j] in kept <==> j < n || j >= i)
    ensures kept == Newest(all, n)
  {
    NewestIsWithin(all, n);
    forall x | x in all ensures x in kept <==> x in Newest(all, n) {
      var list := Descending(all);
      assert x in list;
      var j :| 0 <= j < |list| && list[j] == x;
      NewestAreFirst(all, n, j);
    }
  }

  // ---------------------------------------------------------------- across restarts

  /** Whatever a crash leaves, the next pass can start from it with the same logs at stake. */
  lemma CrashCanResume(d: Disk, o: Disk, current: Day, logs: map<Day, Content>, kept: set<Day>)
    requires CrashSafe(d, current, logs, kept) && Crashes(d, o)
    ensures Guarded(o, current, logs, kept)
  {
    forall x ensures DayGuarded(o, current, logs, kept, x) {
      assert LogOf(o, current, x).Some? ==> x in logs && LogOf(o, current, x).value == logs[x];
      assert x in kept ==> LogOf(o, current, x).Some?;
      assert x in o.zip && o.zip[x].Torn? ==> RawOf(o, current, x).Some?;
    }
  }

  /** Meanwhile the logger appends to the active day's file. */
  lemma LoggingKeepsGuarded(d: Disk, current: Day, logs: map<Day, Content>, kept: set<Day>, longer: Content)
    requires Guarded(d, current, logs, kept)
    ensures Guarded(d.(raw := d.raw[current := longer]), current, logs, kept)
  {
    var d' := d.(raw := d.raw[current := longer]);
    forall x ensures DayGuarded(d', current, logs, kept, x) {
      assert DayGuarded(d, current, logs, kept, x);
    }
  }

  /** On a later day the file that was active is one more past log to keep. */
  lemma NextDayKeepsGuarded(d: Disk, current: Day, logs: map<Day, Content>, kept: set<Day>, next: Day, opening: Content)
    requires Guarded(d, current, logs, kept) && current in d.raw && next != current && next !in logs
    ensures Guarded(d.(raw := d.raw[next := opening]), next, logs[current := d.raw[current]], kept + {current})
  {
    var d' := d.(raw := d.raw[next := opening]);
    var logs' := logs[current := d.raw[current]];
    forall x ensures DayGuarded(d', next, logs', kept + {current}, x) {
      assert DayGuarded(d, current, logs, kept, x);
      assert DayGuarded(d, current, logs, kept, next);
    }
  }

  /** One more past day pushes out at most the oldest of the newest. */
  lemma {:induction false} NewestGrow(days: set<Day>, c: Day, n: nat)
    ensures Newest(days + {c}, n) <= Newest(days, n) + {c}
    decreases days
  {
    if n != 0 && c !in days && days != {} {
      var m := Maximum(days);
      if c > m {
        assert Maximum(days + {c}) == c && days + {c} - {c} == days;
        NewestShrink(days, n);
      } else {
        assert Maximum(days + {c}) == m && days + {c} - {m} == days - {m} + {c};
        NewestGrow(days - {m}, c, n - 1);
      }
    } else if c in days {
      assert days + {c} == days;
    } else {
      NewestIsWithin({c}, n);
    }
  }

  lemma {:induction false} NewestShrink(days: set<Day>, n: nat)
    requires n > 0
    ensures Newest(days, n - 1) <= Newest(days, n)
    decreases days
  {
    if days != {} && n > 1 {
      NewestShrink(days - {Maximum(days)}, n - 1);
    }
  }

  /** One launch: the directory its pass finds, the day, the past logs, and the state the pass had reached. */
  datatype Launch = Launch(boot: Disk, day: Day, logs: map<Day, Content>, state: Disk)

  /** What `LaunchPass` promises of a launch and a state its pass goes through. */
  ghost predicate PassThrough(a: Launch, n: nat) {
    Guarded(a.boot, a.day, a.logs, Newest(a.logs.Keys, n)) && a.day in a.boot.raw ==>
      Guarded(a.state, a.day, a.logs, Newest(a.logs.Keys, n)) && a.day in a.state.raw
  }

  /** What it promises of a pass from `a.boot` that ends well in `after`. */
  ghost predicate PassEnds(a: Launch, after: Disk, n: nat) {
    Guarded(a.boot, a.day, a.logs, Newest(a.logs.Keys, n)) && a.day in a.boot.raw ==>
      Finished(after, a.day, a.logs, n)
  }

  /** What is on disk when launch `a` is over: killed, as it stands; after a crash, what that leaves. */
  ghost predicate Leaves(d: Disk, o: Disk) {
    o == d || Crashes(d, o)
  }

  /**
   * `b` is the launch after `a`, which logged up to `tail`. On the same day it reopens the same file; on
   * another one it opens a new file, and the previous one becomes a past log.
   */
  ghost predicate Follows(a: Launch, b: Launch, o: Disk, tail: Content, opening: Content) {
    && Leaves(a.state, o)
    && if b.day == a.day then
         b.logs == a.logs && b.boot == o.(raw := o.raw[a.day := tail])
       else
         && b.day !in a.logs && b.logs == a.logs[a.day := tail]
         && b.boot == o.(raw := o.raw[a.day := tail][b.day := opening])
  }

  ghost predicate Launches(launches: seq<Launch>, n: nat) {
    && launches != []
    && (forall i :: 0 <= i < |launches| ==> PassThrough(launches[i], n))
    && forall i, j :: 0 <= i && j == i + 1 && j < |launches| ==>
         exists o, tail, opening :: Follows(launches[i], launches[j], o, tail, opening)
  }

  /** The next launch starts with the newest days guarded, among them the day that has just become past. */
  lemma NextLaunchIsGuarded(a: Launch, b: Launch, o: Disk, tail: Content, opening: Content, n: nat)
    requires Follows(a, b, o, tail, opening)
    requires Guarded(a.state, a.day, a.logs, Newest(a.logs.Keys, n)) && a.day in a.state.raw
    ensures Guarded(b.boot, b.day, b.logs, Newest(b.logs.Keys, n)) && b.day in b.boot.raw
  {
    hide Guarded;
    hide CrashSafe;
    hide Crashes;
    hide Newest;
    var kept := Newest(a.logs.Keys, n);
    if o != a.state {
      GuardedIsCrashSafe(a.state, a.day, a.logs, kept);
      CrashCanResume(a.state, o, a.day, a.logs, kept);
    }
    LoggingKeepsGuarded(o, a.day, a.logs, kept, tail);
    if b.day != a.day {
      var logged := o.(raw := o.raw[a.day := tail]);
      NextDayKeepsGuarded(logged, a.day, a.logs, kept, b.day, opening);
      NewestGrow(a.logs.Keys, a.day, n);
      assert b.logs.Keys == a.logs.Keys + {a.day};
      GuardsFewer(b.boot, b.day, b.logs, kept + {a.day}, Newest(b.logs.Keys, n));
    }
  }

  lemma {:induction false} LaunchesAreGuarded(launches: seq<Launch>, i: nat, n: nat)
    requires Launches(launches, n) && i < |launches|
    requires Guarded(launches[0].boot, launches[0].day, launches[0].logs, Newest(launches[0].logs.Keys, n))
    requires launches[0].day in launches[0].boot.raw
    ensures Guarded(launches[i].boot, launches[i].day, launches[i].logs, Newest(launches[i].logs.Keys, n))
    ensures launches[i].day in launches[i].boot.raw
    ensures launches[i].day == launches[0].day || launches[i].day !in launches[0].logs
    ensures forall x :: x in launches[0].logs && x != launches[0].day ==>
              x in launches[i].logs && launches[i].logs[x] == launches[0].logs[x]
  {
    hide Guarded;
    hide Leaves;
    hide Newest;
    if i > 0 {
      LaunchesAreGuarded(launches, i - 1, n);
      var a, b := launches[i - 1], launches[i];
      assert PassThrough(a, n);
      var o, tail, opening :| Follows(a, b, o, tail, opening);
      NextLaunchIsGuarded(a, b, o, tail, opening, n);
    }
  }

  /** The compressed files that retention leaves of a history of logs. */
  function Retained(logs: map<Day, Content>, n: nat): map<Day, Zip> {
    map x | x in logs.Keys && x in Newest(logs.Keys, n) :: Whole(logs[x])
  }

  /**
   * Crashes only delay a pass. Over any number of launches, on one day or on several, each stopped by a
   * kill or a crash in any state, a pass that then finishes leaves the compressed files that the history
   * of logs determines, and that history has lost nothing: the past logs of the beginning are in it.
   */
  lemma CrashesOnlyDelay(launches: seq<Launch>, n: nat, finished: Disk)
    requires Launches(launches, n)
    requires Synced(launches[0].boot) && Orderly(launches[0].boot, launches[0].day)
    requires Holds(launches[0].boot, launches[0].day, launches[0].logs) && launches[0].day in launches[0].boot.raw
    requires PassEnds(launches[|launches| - 1], finished, n)
    ensures finished.zip == Retained(launches[|launches| - 1].logs, n)
    ensures forall x :: x in launches[0].logs && x != launches[0].day ==>
              && x in launches[|launches| - 1].logs
              && launches[|launches| - 1].logs[x] == launches[0].logs[x]
  {
    hide Guarded;
    hide Newest;
    var first, last := launches[0], launches[|launches| - 1];
    HoldsIsGuarded(first.boot, first.day, first.logs);
    NewestIsWithin(first.logs.Keys, n);
    GuardsFewer(first.boot, first.day, first.logs, first.logs.Keys, Newest(first.logs.Keys, n));
    LaunchesAreGuarded(launches, |launches| - 1, n);
    NewestIsWithin(last.logs.Keys, n);
    assert finished.zip.Keys == Retained(last.logs, n).Keys;
  }

  /**
   * One old log can be lost for good. With an undated legacy file and no raw file of day 10, a whole
   * compressed day 10 is overwritten; every finished pass keeps the legacy contents in its place.
   */
  lemma LegacyReplacesDayTen(d: Disk, current: Day, logs: map<Day, Content>, n: nat, finished: Disk)
    requires Holds(d, current, logs) && current != LEGACY_DAY && Finished(finished, current, logs, n)
    requires LEGACY_DAY in d.zip && d.zip[LEGACY_DAY].Whole? && LEGACY_DAY in finished.zip
    ensures finished.zip[LEGACY_DAY] == d.zip[LEGACY_DAY] <==>
              RawOf(d, current, LEGACY_DAY).None? || RawOf(d, current, LEGACY_DAY) == Some(d.zip[LEGACY_DAY].content)
  {
    assert LogOf(d, current, LEGACY_DAY) == if LEGACY_DAY in logs then Some(logs[LEGACY_DAY]) else None;
  }
}
