/** The size gauge across restarts: at a graceful shutdown it is written to a file as an unsigned number, and the next
    process reads it back as a signed one. */
module Restart {
  import opened Basics
  import opened Sums
  import opened FileSystem
  import opened CacheMachine
  import opened Accounting

  const TWO_63: int := 0x8000_0000_0000_0000
  const TWO_64: int := 0x1_0000_0000_0000_0000

  predicate IsI64(x: int) { -TWO_63 <= x < TWO_63 }

  predicate IsU64(x: int) { 0 <= x < TWO_64 }

  /** `as u64` of an `i64`. */
  function AsU64(x: int): int { if x < 0 then x + TWO_64 else x }

  /** `as i64` of a `u64`. */
  function AsI64(x: int): int { if x >= TWO_63 then x - TWO_64 else x }

  /** What a 64-bit gauge shows after arithmetic that leads to `x`. */
  function Wrap(x: int): int { (x + TWO_63) % TWO_64 - TWO_63 }

  /** The conversion loses nothing in either direction, whatever the sign. */
  lemma CastsInvert(x: int, y: int)
    requires IsI64(x) && IsU64(y)
    ensures IsU64(AsU64(x)) && AsI64(AsU64(x)) == x
    ensures IsI64(AsI64(y)) && AsU64(AsI64(y)) == y
  {
  }

  /** Wrapping at every step is wrapping once. */
  lemma WrapOnce(x: int, d: int)
    ensures IsI64(Wrap(x)) && Wrap(Wrap(x) + d) == Wrap(x + d)
    ensures IsI64(x) ==> Wrap(x) == x
  {
  }

  datatype CacheStatistics = CacheStatistics(
    root: string,
    startTime: nat,
    uptime: nat,
    sizeBytesCurrent: int,
    sizeBytesMax: int)

  /** The file the statistics are kept in. */
  datatype StateFile = Missing | Unreadable | Holds(stats: CacheStatistics)

  /** Writing it may fail, and a write that fails may leave something that cannot be read. */
  datatype SaveIO = NotSerialised | NotWritten | Garbled | Saved

  function Fetch(file: StateFile): Option<CacheStatistics> {
    if file.Holds? then Some(file.stats) else None
  }

  /** The size a new process starts with. */
  function Carried(file: StateFile): int {
    match Fetch(file)
    case Some(stats) => AsI64(stats.sizeBytesCurrent)
    case None => 0
  }

  function Left(file: StateFile, stats: CacheStatistics, io: SaveIO): StateFile {
    match io
    case NotSerialised => file
    case NotWritten => file
    case Garbled => Unreadable
    case Saved => Holds(stats)
  }

  /** The size gauge of one cache process, with the file of its directory. `started` and `changes` are its history. */
  class Process {
    const root: string
    const startTime: nat
    var sizeBytes: int
    var file: StateFile
    ghost const started: int
    ghost var changes: seq<int>

    /** The gauge shows what it started with and all changes since, in 64 bits. */
    ghost predicate Valid()
      reads this
    {
      && IsI64(started) && sizeBytes == Wrap(started + Total(changes))
      && (file.Holds? ==> IsU64(file.stats.sizeBytesCurrent))
    }

    constructor (root: string, file: StateFile, now: nat)
      requires file.Holds? ==> IsU64(file.stats.sizeBytesCurrent)
      ensures Valid() && sizeBytes == Carried(file) && this.file == file && this.root == root && startTime == now
      ensures started == Carried(file) && changes == []
      ensures if file.Holds? then AsU64(sizeBytes) == file.stats.sizeBytesCurrent else sizeBytes == 0
    {
      var prevSize := 0;
      if file.Holds? {
        prevSize := AsI64(file.stats.sizeBytesCurrent);
      }
      this.root, startTime, sizeBytes, this.file := root, now, prevSize, file;
      started, changes := prevSize, [];
      CastsInvert(0, if file.Holds? then file.stats.sizeBytesCurrent else 0);
      WrapOnce(prevSize, 0);
    }

    /** `size_bytes.add` and `size_bytes.sub` wrap around, each time; that comes to wrapping the sum of all changes. */
    method Change(d: int)
      requires Valid()
      modifies this`sizeBytes, this`changes
      ensures Valid() && changes == old(changes) + [d]
      ensures sizeBytes == Wrap(started + Total(old(changes)) + d)
    {
      WrapOnce(started + Total(changes), d);
      sizeBytes := Wrap(sizeBytes + d);
      changes := changes + [d];
      assert changes[..|changes| - 1] == old(changes);
    }

    /** `start`, once the shutdown has been announced. */
    method Start(now: nat, maxBytes: nat, io: SaveIO)
      requires Valid() && startTime <= now
      modifies this`file
      ensures Valid()
      ensures Carried(file) == (match io case Saved => sizeBytes case Garbled => 0 case _ => Carried(old(file)))
      ensures Carried(old(file)) == started ==> Carried(file) == NextStart(started, Session(changes, [], io))
      ensures file == Left(old(file), CacheStatistics(root, startTime, now - startTime, AsU64(sizeBytes), maxBytes), io)
    {
      var stats := CacheStatistics(root, startTime, now - startTime, AsU64(sizeBytes), maxBytes);
      WrapOnce(started + Total(changes), 0);
      CastsInvert(sizeBytes, 0);
      GaugeIsSum(started, changes);
      if io.NotSerialised? {
        return;
      }
      match io {
        case Saved => file := Holds(stats);
        case Garbled => file := Unreadable;
        case _ =>
      }
    }
  }

  // - - - sessions in a row

  /** What happens to the gauge in one session: the changes before the shutdown write, and those that come too late. */
  datatype Session = Session(before: seq<int>, late: seq<int>, io: SaveIO)

  function Total(changes: seq<int>): int {
    if changes == [] then 0 else Total(changes[..|changes| - 1]) + changes[|changes| - 1]
  }

  /** The gauge, wrapping at every change. */
  function Gauge(start: int, changes: seq<int>): int {
    if changes == [] then start else Wrap(Gauge(start, changes[..|changes| - 1]) + changes[|changes| - 1])
  }

  lemma {:induction false} GaugeIsSum(start: int, changes: seq<int>)
    requires IsI64(start)
    ensures Gauge(start, changes) == Wrap(start + Total(changes)) && IsI64(Gauge(start, changes))
  {
    WrapOnce(start, 0);
    if changes != [] {
      var rest := changes[..|changes| - 1];
      GaugeIsSum(start, rest);
      WrapOnce(start + Total(rest), changes[|changes| - 1]);
      WrapOnce(start + Total(changes), 0);
    }
  }

  /** What the next session starts with, when this one started with `start`: a file that could not be written still
      says what it said at the start of this one. */
  function NextStart(start: int, s: Session): int {
    match s.io
    case Saved => AsI64(AsU64(Gauge(start, s.before)))
    case Garbled => 0
    case _ => start
  }

  /** A session hands on the gauge it ends with exactly when the changes that came too late cancel out; and it hands
      on a stale size, or none, if its write fails. */
  lemma HandedOn(start: int, s: Session)
    requires IsI64(start)
    ensures var next := NextStart(start, s);
      && IsI64(next)
      && (s.io.Saved? ==> (next == Gauge(start, s.before + s.late) <==> Total(s.late) % TWO_64 == 0))
      && (s.io.NotSerialised? || s.io.NotWritten? ==> next == start)
  {
    GaugeIsSum(start, s.before);
    GaugeIsSum(start, s.before + s.late);
    TotalAppend(s.before, s.late);
    CastsInvert(Gauge(start, s.before), 0);
    WrapSame(start + Total(s.before), Total(s.late));
  }

  lemma WrapSame(x: int, d: int)
    ensures Wrap(x + d) == Wrap(x) <==> d % TWO_64 == 0
  {
  }

  lemma {:induction false} TotalAppend(a: seq<int>, b: seq<int>)
    ensures Total(a + b) == Total(a) + Total(b)
  {
    if b == [] {
      assert a + b == a;
    } else {
      TotalAppend(a, b[..|b| - 1]);
      assert (a + b)[..|a + b| - 1] == a + b[..|b| - 1];
    }
  }

  // - - - whole lives of the cache

  /** One life of the cache process: the disk it finds, and everything it does. */
  datatype Life = Life(disk: FS, acts: seq<Action>)

  ghost function Final(size: int, life: Life): State {
    Run(Boot(life.disk, size), life.acts)
  }

  /** The gauge after a number of lives, each ending with a successful shutdown write after its last change. */
  ghost function GaugeAfter(size: int, lives: seq<Life>): int {
    if lives == [] then size
    else
      var start := GaugeAfter(size, lives[..|lives| - 1]);
      AsI64(AsU64(Wrap(Final(start, lives[|lives| - 1]).shared.metrics.sizeBytes)))
  }

  /** All sizes reported as created in all lives, minus all bytes counted as evicted. */
  ghost function Flow(size: int, lives: seq<Life>): int {
    if lives == [] then 0
    else
      var rest := lives[..|lives| - 1];
      var s := Final(GaugeAfter(size, rest), lives[|lives| - 1]);
      Flow(size, rest) + Sum(s.writers, Reported) - s.shared.metrics.evictedBytes
  }

  /** No life ends while a purge is between its two byte counters. */
  ghost predicate Settled(size: int, lives: seq<Life>) {
    lives == []
    || (Settled(size, lives[..|lives| - 1])
        && BetweenPurges(Final(GaugeAfter(size, lives[..|lives| - 1]), lives[|lives| - 1])))
  }

  /** Gauge conservation over any number of restarts, even if the gauge is negative or wraps around: it is the size at
      the very start plus everything created minus everything evicted, in all lives. */
  lemma {:induction false} LivesConserve(size: int, lives: seq<Life>)
    requires IsI64(size) && Settled(size, lives)
    ensures IsI64(GaugeAfter(size, lives)) && GaugeAfter(size, lives) == Wrap(size + Flow(size, lives))
  {
    WrapOnce(size, 0);
    if lives != [] {
      var rest, last := lives[..|lives| - 1], lives[|lives| - 1];
      hide Run, BetweenPurges;
      LivesConserve(size, rest);
      var start := GaugeAfter(size, rest);
      GaugeConservation(last.disk, start, last.acts);
      var s := Final(start, last);
      WrapOnce(size + Flow(size, rest), Sum(s.writers, Reported) - s.shared.metrics.evictedBytes);
      WrapOnce(s.shared.metrics.sizeBytes, 0);
      CastsInvert(Wrap(s.shared.metrics.sizeBytes), 0);
    }
  }
}
