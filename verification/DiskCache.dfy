/** The cache as the objects the program works with: the disk cache itself, and the miss handlers and hit handlers it
    hands out. Here each call runs from beginning to end. Every method is shown to do what the call of the step machine
    does, so that whatever is proved of all runs holds of these objects.

    File operations that may fail take their outcome from a parameter. */
module DiskCaches {
  import opened Basics
  import opened FileSystem
  import opened HitSpec
  import opened CacheMachine
  import opened CoreInvariant
  import opened ReaderIsolation
  import opened SnapshotSafety
  import opened WholeCalls
  import opened CallOutcomes

  datatype Outcome<+T> = Ok(value: T) | Err

  /** Keys onto whose body some finish has copied, and lookups whose open file it was. */
  datatype Scars = Scars(copied: set<Key>, spoiled: set<nat>)

  /** All lookups but the spoiled ones have what they opened, and stream it. */
  ghost predicate ReadersOk(s: State, spoiled: set<nat>) {
    forall id :: id in s.lookups && id !in spoiled ==> Streaming(s.shared.fs, s.lookups[id])
  }

  function SpoiledBy(s: State, cut: set<nat>): set<nat> {
    set id | id in s.lookups && s.lookups[id].body.Opened? && s.lookups[id].body.inode in cut
  }

  lemma {:induction false} BodiesStay(s: State, acts: seq<Action>, inode: nat, k: Key)
    requires Core(s) && IsBody(s.shared.fs, inode, k)
    ensures Core(Run(s, acts)) && IsBody(Run(s, acts).shared.fs, inode, k)
  {
    hide Core, Step, IsBody;
    if acts != [] {
      var rest, a := acts[..|acts| - 1], acts[|acts| - 1];
      BodiesStay(s, rest, inode, k);
      OnlyCopiesDisturb(Run(s, rest), a, inode, k);
      StepCore(Run(s, rest), a);
    }
  }

  lemma ReadersKept(s: State, t: State, copied: set<Key>, spoiled: set<nat>, cut: set<nat>)
    requires Core(s) && Reaches(s, t, copied) && ReadersOk(s, spoiled)
    requires BodiesKept(s.shared.fs, t.shared.fs, cut)
    requires forall id :: id in t.lookups && id !in spoiled ==>
      (id in s.lookups && t.lookups[id] == s.lookups[id]) || Streaming(t.shared.fs, t.lookups[id])
    ensures ReadersOk(t, spoiled + SpoiledBy(s, cut))
  {
    hide Core;
    var acts :| Run(s, acts) == t && CopiesOnly(s, acts, copied);
    forall id | id in t.lookups && id !in spoiled + SpoiledBy(s, cut) ensures Streaming(t.shared.fs, t.lookups[id]) {
      if id in s.lookups && t.lookups[id] == s.lookups[id] && s.lookups[id].body.Opened? {
        assert Streaming(s.shared.fs, s.lookups[id]);
        BodiesStay(s, acts, s.lookups[id].body.inode, s.lookups[id].key);
      }
    }
  }

  lemma LookupCallStreams(sh: Shared, k: Key, io: LookupIO)
    requires WellFormed(sh.fs)
    ensures Streaming(sh.fs, LookupCall(sh, k, io).1)
  {
    LookupOutcome(sh, k, io);
  }

  class DiskCache {
    var fs: FS
    var metrics: Metrics

    ghost const start: FS
    ghost const carried: int
    ghost var world: State     // this disk and these counters, with the records of all calls made so far
    ghost var scars: Scars     // what finishes that had to copy have done

    /** The cache is in a state that some run of the step machine leads to, and its readers stream what they opened. */
    ghost predicate Valid()
      reads this
    {
      && world.shared == Shared(fs, metrics)
      && Core(world) && Bootable(start) && Reaches(Boot(start, carried), world, scars.copied)
      && ReadersOk(world, scars.spoiled)
    }

    /** `new`: the gauge starts at the size that the previous process left behind. */
    constructor (disk: FS, size: int)
      requires Bootable(disk)
      ensures Valid() && fs == disk && world == Boot(disk, size) && scars == Scars({}, {})
    {
      fs, metrics := disk, Metrics(0, 0, 0, 0, 0, 0, 0, size);
      start, carried, world, scars := disk, size, Boot(disk, size), Scars({}, {});
      ReachesHere(Boot(disk, size), {});
    }

    /** A call that is a run leads from a valid state to a valid one. */
    ghost method Record(t: State, copied: set<Key>, cut: set<nat>)
      requires Bootable(start) && Core(world) && Reaches(Boot(start, carried), world, scars.copied)
      requires ReadersOk(world, scars.spoiled)
      requires Reaches(world, t, copied) && t.shared == Shared(fs, metrics) && BodiesKept(world.shared.fs, fs, cut)
      requires forall id :: id in t.lookups && id !in scars.spoiled && id !in world.lookups ==>
        Streaming(fs, t.lookups[id])
      requires forall id :: id in t.lookups && id !in scars.spoiled && id in world.lookups ==>
        t.lookups[id] == world.lookups[id] || Streaming(fs, t.lookups[id])
      modifies this`world, this`scars
      ensures Valid() && world == t
      ensures scars == Scars(old(scars).copied + copied, old(scars).spoiled + SpoiledBy(old(world), cut))
    {
      hide Core, Bootable, Reaches, Streaming, BodiesKept;
      ReachesCore(world, t, copied);
      ReachesLoose(Boot(start, carried), world, scars.copied, scars.copied + copied);
      ReachesLoose(world, t, copied, scars.copied + copied);
      ReachesOn(Boot(start, carried), world, t, scars.copied + copied);
      ReadersKept(world, t, copied, scars.spoiled, cut);
      scars := Scars(scars.copied + copied, scars.spoiled + SpoiledBy(world, cut));
      world := t;
    }

    /** A call that copies nothing. */
    ghost method RecordQuiet(t: State)
      requires Bootable(start) && Core(world) && Reaches(Boot(start, carried), world, scars.copied)
      requires ReadersOk(world, scars.spoiled)
      requires Reaches(world, t, {}) && t.shared == Shared(fs, metrics) && BodiesKept(world.shared.fs, fs, {})
      requires forall id :: id in t.lookups && id !in scars.spoiled && id !in world.lookups ==>
        Streaming(fs, t.lookups[id])
      requires forall id :: id in t.lookups && id !in scars.spoiled && id in world.lookups ==>
        t.lookups[id] == world.lookups[id] || Streaming(fs, t.lookups[id])
      modifies this`world, this`scars
      ensures Valid() && world == t && scars == old(scars)
    {
      hide Core, Bootable, Reaches, Streaming, BodiesKept, ReadersOk;
      assert SpoiledBy(world, {}) == {};
      Record(t, {}, {});
      assert scars == old(scars);
    }

    /** Entries of keys that no finish ever copied onto are in order, whatever happened to others. */
    lemma UncopiedIsSafe(k: Key)
      requires Valid() && k !in scars.copied
      ensures Safe(world, k)
    {
      var acts :| Run(Boot(start, carried), acts) == world && CopiesOnly(Boot(start, carried), acts, scars.copied);
      RunSafe(start, carried, acts, k);
    }

    method Lookup(ghost id: nat, k: Key, io: LookupIO) returns (r: Outcome<Option<(CacheMeta, DiskHitHandler)>>)
      requires Valid() && id !in world.lookups
      modifies this
      ensures Valid() && scars == old(scars) && fs == old(fs)
      ensures var (m, l) := LookupCall(old(world.shared), k, io);
        && world == SetLookup(old(world), id, m, l)
        && (r.Err? <==> l.stage.LookupFailed?)
        && (r.Ok? && r.value.Some? <==> l.stage.Serving?)
      ensures r.Ok? && r.value.Some? ==>
        var (meta, hit) := r.value.value;
        && fresh(hit) && hit.cache == this && hit.Valid()
        && Get(OnDisk(fs), k) == Some(Entry(meta, hit.snapshot))
        && hit.View() == NewHit(|hit.snapshot|)
      ensures io == LOOKUP_WORKS ==> r.Ok? && (r.value.Some? <==> k in OnDisk(fs))
    {
      hide Reaches, Bootable, Core, WellFormed, Streaming;
      ghost var (m, l) := LookupCall(world.shared, k, io);
      LookupIsRun(world, id, k, io);
      LookupOutcome(world.shared, k, io);
      CoreIsWellFormed(world);
      LookupCallStreams(world.shared, k, io);
      ghost var t := SetLookup(world, id, m, l);
      if !io.root {
        RecordQuiet(t);
        return Err;
      }
      var metaBin := if io.meta && k in fs.metas then Some(fs.metas[k].data) else None;
      var hdrBin := if io.hdr && k in fs.hdrs then Some(fs.hdrs[k].data) else None;
      var file := if io.body && k in fs.bodies then Some(fs.bodies[k]) else None;
      if metaBin.Some? && hdrBin.Some? && file.Some? {
        if !io.size {
          RecordQuiet(t);
          return Err;
        }
        var totalLen := |Content(fs, file.value)|;
        metrics := metrics.(lookupHits := metrics.lookupHits + 1);
        RecordQuiet(t);
        if !io.decode {
          return Err;
        }
        var hit := new DiskHitHandler(this, id, file.value, totalLen);
        return Ok(Some((CacheMeta(metaBin.value, hdrBin.value), hit)));
      }
      metrics := metrics.(misses := metrics.misses + 1);
      RecordQuiet(t);
      return Ok(None);
    }

    method GetMissHandler(id: nat, k: Key, meta: CacheMeta, io: AdmitIO) returns (r: Outcome<DiskMissHandler>)
      requires Valid() && id !in world.writers && id !in fs.tmps
      modifies this
      ensures Valid() && scars == old(scars)
      ensures var (sh, w) := AdmitCall(old(world.shared), id, k, meta, io);
        world == SetWriter(old(world), id, sh, w) && (r.Ok? <==> w.stage.Open?)
      ensures OpensDraft(old(fs), fs, id, k, io, r.Ok?)
      ensures r.Ok? ==>
        && fresh(r.value) && r.value.cache == this && r.value.Valid()
        && r.value.tmp == id && r.value.key == k && r.value.Meta() == meta
        && r.value.tmpBytesWritten == 0 && r.value.Draft() == []
    {
      hide Reaches, Bootable, Core, OpensDraft, WellFormed;
      ghost var (sh, w) := AdmitCall(world.shared, id, k, meta, io);
      AdmitIsRun(world, id, k, meta, io);
      CoreIsWellFormed(world);
      AdmitOutcome(world.shared, id, k, meta, io);
      ghost var t := SetWriter(world, id, sh, w);
      metrics := metrics.(misses := metrics.misses + 1);
      if !io.serialised {
        RecordQuiet(t);
        return Err;
      }
      if io.dir { fs := MakeDir(fs, k); }
      if io.parent { fs := MakeDir(fs, k); }
      if !(io.create && k in fs.dirs) {
        RecordQuiet(t);
        return Err;
      }
      fs := CreateTmp(fs, id, k);
      RecordQuiet(t);
      var handler := new DiskMissHandler(this, id, k, meta);
      return Ok(handler);
    }

    method Purge(ghost id: nat, k: Key, io: PurgeIO) returns (existed: bool)
      requires Valid() && id !in world.purges
      modifies this
      ensures Valid() && scars == old(scars)
      ensures var (sh, p) := PurgeCall(old(world.shared), k, io);
        world == SetPurge(old(world), id, sh, p) && existed == p.existed
      ensures PurgesEntry(old(fs), fs, k, io, existed)
    {
      hide Reaches, PurgesEntry, Bootable, Core, Streaming, BodiesKept, PurgeCall, Content;
      hide RemoveBody, RemoveMeta, RemoveHdr, RemoveDir;
      ghost var before := world.shared;
      metrics := metrics.(purgeAttempts := metrics.purgeAttempts + 1);
      var bodyBytes := if io.measure && k in fs.bodies then |Content(fs, fs.bodies[k])| else 0;
      existed := io.body && k in fs.bodies;
      if existed {
        fs := RemoveBody(fs, k);
        metrics := metrics.(evictions := metrics.evictions + 1);
        metrics := metrics.(evictedBytes := metrics.evictedBytes + bodyBytes);
        metrics := metrics.(sizeBytes := metrics.sizeBytes - bodyBytes);
      }
      if io.meta { fs := RemoveMeta(fs, k); }
      if io.hdr { fs := RemoveHdr(fs, k); }
      if io.dir { fs := RemoveDir(fs, k); }
      ghost var (sh, p) := PurgeCall(before, k, io);
      PurgeIsRun(world, id, k, io);
      PurgeOutcome(before, k, io);
      PurgeSteps(before, k, io);
      PurgeKeepsBodies(before, k, io);
      RecordQuiet(SetPurge(world, id, sh, p));
    }

    method UpdateMeta(id: nat, k: Key, meta: CacheMeta, io: UpdateIO) returns (r: Outcome<bool>)
      requires Valid() && id !in world.updates
      modifies this
      ensures Valid() && scars == old(scars)
      ensures var (sh, u) := UpdateCall(old(world.shared), id, k, meta, io);
        world == SetUpdate(old(world), id, sh, u)
      ensures RenewsEntry(old(fs), fs, k, meta, io, if r.Ok? then Updated(r.value) else UpdateFailed)
    {
      hide Reaches, Bootable, Core, RenewsEntry, WellFormed;
      ghost var (sh, u) := UpdateCall(world.shared, id, k, meta, io);
      UpdateIsRun(world, id, k, meta, io);
      CoreIsWellFormed(world);
      UpdateOutcome(world.shared, id, k, meta, io);
      ghost var t := SetUpdate(world, id, sh, u);
      if io.seen && k in fs.bodies {
        if !io.serialised {
          RecordQuiet(t);
          return Err;
        }
        if io.meta.Refused? || k !in fs.dirs {
          RecordQuiet(t);
          return Err;
        }
        fs := PutMeta(fs, k, SmallLeft(meta.internal, io.meta), ByUpdate(id));
        if io.meta.Partly? || io.hdr.Refused? {
          RecordQuiet(t);
          return Err;
        }
        fs := PutHdr(fs, k, SmallLeft(meta.header, io.hdr), ByUpdate(id));
        RecordQuiet(t);
        if io.hdr.Partly? {
          return Err;
        }
        return Ok(true);
      }
      RecordQuiet(t);
      return Ok(false);
    }
  }

  ghost function Told(r: Outcome<Option<Bytes>>): ReadResult {
    if r.Err? then ReadError else if r.value.None? then EndOfBody else Chunk(r.value.value)
  }

  /** What a write leaves in the file: all, part or nothing of the data. */
  function Landed(data: Bytes, io: WriteIO): Bytes {
    match io
    case OpenFails => []
    case WriteFails(partial) => data[..Min(partial, |data|)]
    case WriteWorks => data
  }

  lemma PurgeSteps(sh: Shared, k: Key, io: PurgeIO)
    ensures var existed := io.body && k in sh.fs.bodies;
      var fs := if existed then RemoveBody(sh.fs, k) else sh.fs;
      var fs := if io.meta then RemoveMeta(fs, k) else fs;
      var fs := if io.hdr then RemoveHdr(fs, k) else fs;
      var fs := if io.dir then RemoveDir(fs, k) else fs;
      var bytes := if io.measure && k in sh.fs.bodies then |Content(sh.fs, sh.fs.bodies[k])| else 0;
      var m := sh.metrics.(purgeAttempts := sh.metrics.purgeAttempts + 1);
      var counted := m.(evictions := m.evictions + 1, evictedBytes := m.evictedBytes + bytes,
                        sizeBytes := m.sizeBytes - bytes);
      var (after, p) := PurgeCall(sh, k, io);
      p.existed == existed && after == Shared(fs, if existed then counted else m)
  {
    hide RemoveDir, RemoveMeta, RemoveHdr;
  }

  lemma FinishKeepsBodies(sh: Shared, id: nat, w: Writer, io: FinishIO)
    requires WellFormed(sh.fs) && WriterOk(sh.fs, id, w) && w.stage.Open?
    ensures BodiesKept(sh.fs, FinishCall(sh, id, w, io).0.fs, Cut(sh.fs, w.key, io))
  {
    hide FinishCall, WellFormed, WriterOk, BodiesKept;
    FinishOutcome(sh, id, w, io);
  }

  lemma CreatedForCopy(fs: FS, k: Key, t: nat)
    requires WellFormed(fs) && t in fs.tmps && fs.tmps[t].key == k && k in fs.dirs
    ensures var after := CreateBody(fs, k, t);
      && k in after.bodies && after.bodies[k] != fs.tmps[t].inode
      && after.tmps == fs.tmps && after.dirs == fs.dirs
  {
  }

  lemma PurgeKeepsBodies(sh: Shared, k: Key, io: PurgeIO)
    ensures BodiesKept(sh.fs, PurgeCall(sh, k, io).0.fs, {})
  {
    hide PurgeCall;
    PurgeEffect(sh, k, io);
  }

  lemma OnlyThese(s: State, acts: seq<Action>, copied: set<Key>)
    requires CopiesOnly(s, acts, copied)
    ensures forall k :: k !in copied ==> NoCopies(s, acts, k)
  {
  }

  lemma CoreIsWellFormed(s: State)
    requires Core(s)
    ensures WellFormed(s.shared.fs)
  {
  }

  /** The handler of one cache hit: an open body file and the range of it that is being read. */
  class DiskHitHandler {
    const cache: DiskCache
    const inode: nat           // the open file
    var cursor: nat            // its offset
    var totalLen: nat
    var rangeStart: nat
    var rangeEnd: nat
    var pos: nat
    var pendingSeek: bool
    var chunk: nat

    ghost const id: nat
    ghost const snapshot: Bytes      // the body when it was opened
    ghost var emitted: Bytes         // what was returned since the last accepted seek

    ghost function View(): Hit
      reads this
    {
      Hit(totalLen, rangeStart, rangeEnd, pos, pendingSeek, chunk, cursor, emitted)
    }

    ghost predicate Valid()
      reads this, cache
    {
      && cache.Valid()
      && id in cache.world.lookups
      && cache.world.lookups[id].stage == Serving(View())
      && cache.world.lookups[id].body == Opened(inode, snapshot)
    }

    constructor (cache: DiskCache, ghost id: nat, inode: nat, len: nat)
      ensures this.cache == cache && this.id == id && this.inode == inode && View() == NewHit(len)
      ensures snapshot == Content(cache.fs, inode)
    {
      this.cache, this.id, this.inode, snapshot := cache, id, inode, Content(cache.fs, inode);
      cursor, totalLen, rangeStart, rangeEnd, pos := 0, len, 0, len, 0;
      pendingSeek, chunk, emitted := false, DEFAULT_READ_BUFFER_SIZE, [];
    }

    /** Records a step of this handler in the history of the cache. */
    ghost method Log(a: LookupAction)
      requires cache.Valid() && id in cache.world.lookups && cache.world.lookups[id].body == Opened(inode, snapshot)
      requires var (m, l) := MoveLookup(Shared(cache.fs, cache.world.shared.metrics), cache.world.lookups[id], a);
        m == cache.world.shared.metrics && l.stage == Serving(View()) && l.body == Opened(inode, snapshot)
      modifies cache`world, cache`scars
      ensures Valid() && cache.scars == old(cache.scars)
    {
      hide Reaches, Core, Bootable, WellFormed, Streaming, MoveLookup;
      var t := StepLookup(cache.world, id, a);
      CoreIsWellFormed(cache.world);
      if id !in cache.scars.spoiled {
        LookupStreams(cache.world.shared, cache.world.lookups[id], a);
      }
      ReachesHere(cache.world, {});
      ReachesStep(cache.world, cache.world, OfLookup(id, a), {});
      cache.RecordQuiet(t);
    }

    ghost method LogRead(io: ReadIO)
      requires cache.Valid() && id in cache.world.lookups && cache.world.lookups[id].body == Opened(inode, snapshot)
      requires cache.world.lookups[id].stage.Serving?
      requires View() == HitSpec.ReadBody(cache.world.lookups[id].stage.hit, Content(cache.fs, inode), io).0
      modifies cache`world, cache`scars
      ensures Valid() && cache.scars == old(cache.scars)
    {
      hide Reaches, Core, Bootable, HitSpec.ReadBody;
      Log(ReadHit(io));
    }

    /** Unless a finish has copied onto the open file since, it is what it was, and the handler streams it: whatever
        happens to the key, and whatever other handlers do. */
    lemma Isolated()
      requires Valid() && id !in cache.scars.spoiled
      ensures Content(cache.fs, inode) == snapshot && Streams(View(), snapshot)
    {
      assert Streaming(cache.fs, cache.world.lookups[id]);
    }

    /** So the next `ReadBody` goes on streaming it: if it works, it returns the next bytes of the range, as many as the
        buffer and the call give, and it reports the end exactly if the whole range has been returned. */
    lemma NextReadIsolated(io: ReadIO)
      requires Valid() && id !in cache.scars.spoiled
      ensures var (after, r) := HitSpec.ReadBody(View(), Content(cache.fs, inode), io);
        && Streams(after, snapshot)
        && after.emitted == emitted + (if r.Chunk? then r.data else [])
        && (r.EndOfBody? ==> after.emitted == snapshot[rangeStart..rangeEnd])
        && (Works(io) ==> (r.EndOfBody? <==> Remaining(View()) == 0))
        && (Works(io) && Remaining(View()) > 0 ==>
              var at := NextAt(View());
              && r.Chunk? && |r.data| == Min(io.limit + 1, Min(chunk, Remaining(View())))
              && r.data == snapshot[at..at + |r.data|])
    {
      Isolated();
      ReadStreams(View(), snapshot, io);
      ReadDelivers(View(), snapshot, io);
    }

    method Seek(start: nat, end: Option<nat>) returns (ok: bool)
      requires Valid()
      modifies this, cache`world, cache`scars
      ensures Valid() && cache.scars == old(cache.scars)
      ensures ok == (start <= (if end.Some? then end.value else totalLen) <= totalLen)
      ensures View() == HitSpec.Seek(old(View()), start, end)
      ensures ok ==> NextAt(View()) == start && Remaining(View()) == StopAt(end, totalLen) - start && emitted == []
      ensures !ok ==> View() == old(View())
    {
      hide Reaches, Core, Bootable;
      var stop := if end.Some? then end.value else totalLen;
      if end.Some? && end.value > totalLen {
        return false;
      }
      if start > stop {
        return false;
      }
      rangeStart := start;
      rangeEnd := stop;
      pendingSeek := true;
      emitted := [];
      Log(SeekHit(start, end));
      return true;
    }

    /** `read` on the open file: fills the front of the buffer. */
    method ReadFile(buf: array<byte>, limit: nat) returns (n: nat)
      modifies buf, this`cursor
      ensures n == Min(limit + 1, Min(buf.Length, if old(cursor) < |Content(cache.fs, inode)|
                                                  then |Content(cache.fs, inode)| - old(cursor) else 0))
      ensures cursor == old(cursor) + n && n <= buf.Length
      ensures n > 0 ==> buf[..n] == Content(cache.fs, inode)[old(cursor)..cursor]
    {
      var content := Content(cache.fs, inode);
      var available := if cursor < |content| then |content| - cursor else 0;
      n := Min(limit + 1, Min(buf.Length, available));
      var i := 0;
      while i < n
        invariant 0 <= i <= n && cursor == old(cursor)
        invariant n > 0 ==> buf[..i] == content[cursor..cursor + i]
      {
        buf[i] := content[cursor + i];
        i := i + 1;
      }
      cursor := cursor + n;
    }

    method ReadBody(io: ReadIO) returns (r: Outcome<Option<Bytes>>)
      requires Valid()
      modifies this, cache`world, cache`scars
      ensures Valid() && cache.scars == old(cache.scars)
      ensures (View(), Told(r)) == HitSpec.ReadBody(old(View()), Content(cache.fs, inode), io)
      ensures id !in cache.scars.spoiled && Works(io) ==>
        var at, left := NextAt(old(View())), Remaining(old(View()));
        && r.Ok? && (r.value.Some? <==> left > 0)
        && (left > 0 ==> |r.value.value| == Min(io.limit + 1, Min(old(chunk), left))
                         && r.value.value == snapshot[at..at + |r.value.value|])
    {
      hide Reaches, Core, Bootable, HitSpec.ReadBody, NextAt, Remaining;
      if id !in cache.scars.spoiled { NextReadIsolated(io); }
      r := ReadRange(io);
      LogRead(io);
    }

    method ReadRange(io: ReadIO) returns (r: Outcome<Option<Bytes>>)
      modifies this
      ensures (View(), Told(r)) == HitSpec.ReadBody(old(View()), Content(cache.fs, inode), io)
    {
      if pendingSeek {
        if !io.seekOk {
          return Err;
        }
        cursor := rangeStart;
        pos := rangeStart;
        pendingSeek := false;
      }
      if pos >= rangeEnd {
        return Ok(None);
      }
      var toRead := Min(chunk, rangeEnd - pos);
      var buf := new byte[toRead];
      if !io.readOk {
        return Err;
      }
      var n := ReadFile(buf, io.limit);
      if n == 0 {
        pos := rangeEnd;
        return Ok(None);
      }
      pos := pos + n;
      var data := buf[..n];
      emitted := emitted + data;
      return Ok(Some(data));
    }

    method Finish()
      requires Valid()
      modifies cache
      ensures cache.Valid() && cache.fs == old(cache.fs) && cache.scars == old(cache.scars)
      ensures cache.metrics == old(cache.metrics).(servedHits := old(cache.metrics).servedHits + 1)
      ensures var l := old(cache.world.lookups);
        cache.world.lookups == l[id := l[id].(stage := Served(View()))]
    {
      hide Reaches, Core, Bootable;
      ghost var t := StepLookup(cache.world, id, FinishHit);
      ReachesHere(cache.world, {});
      ReachesStep(cache.world, cache.world, OfLookup(id, FinishHit), {});
      cache.metrics := cache.metrics.(servedHits := cache.metrics.servedHits + 1);
      cache.RecordQuiet(t);
    }

    function GetEvictionWeight(): nat
      reads this
    {
      totalLen
    }

    /** The weight is the length of the body that was opened, however far it has been read. */
    lemma WeightOfBody()
      requires Valid() && id !in cache.scars.spoiled
      ensures GetEvictionWeight() == |snapshot|
    {
      Isolated();
    }

    /** It is the size that the finish which made the body has reported, exactly if no failed write left bytes behind,
        and otherwise more. */
    lemma WeightIsSize(w: nat)
      requires Valid() && cache.world.lookups[id].key !in cache.scars.copied
      requires w in cache.world.writers && cache.world.writers[w].key == cache.world.lookups[id].key
      requires cache.world.writers[w].stage.Closed? && cache.world.writers[w].stage.result.Created?
      requires cache.world.writers[w].inode == inode
      ensures var size, torn := cache.world.writers[w].stage.result.size, cache.world.writers[w].torn;
        GetEvictionWeight() >= size && (GetEvictionWeight() == size <==> !torn)
    {
      hide Core, Bootable, CopiesOnly;
      var boot := Boot(cache.start, cache.carried);
      var acts :| Run(boot, acts) == cache.world && CopiesOnly(boot, acts, cache.scars.copied);
      assert NoCopies(boot, acts, cache.world.lookups[id].key) by { OnlyThese(boot, acts, cache.scars.copied); }
      EvictionWeight(cache.start, cache.carried, acts, id, w);
    }
  }

  /** The handler of one cache miss: a private tmp file that becomes the body when it is finished. */
  class DiskMissHandler {
    const cache: DiskCache
    const tmp: nat                   // the unique part of the tmp file's name
    const key: Key
    const metaInternal: Bytes
    const metaHeader: Bytes
    var tmpBytesWritten: nat

    ghost predicate Valid()
      reads this, cache
    {
      && cache.Valid()
      && tmp in cache.world.writers
      && var w := cache.world.writers[tmp];
         && w.stage.Open? && w.key == key && w.meta == Meta() && w.written == tmpBytesWritten
    }

    ghost function Meta(): CacheMeta {
      CacheMeta(metaInternal, metaHeader)
    }

    /** What the tmp file holds. */
    ghost function Draft(): Bytes
      requires Valid()
      reads this, cache
    {
      Content(cache.fs, cache.world.writers[tmp].inode)
    }

    constructor (cache: DiskCache, tmp: nat, key: Key, meta: CacheMeta)
      ensures this.cache == cache && this.tmp == tmp && this.key == key && Meta() == meta && tmpBytesWritten == 0
    {
      this.cache, this.tmp, this.key := cache, tmp, key;
      metaInternal, metaHeader, tmpBytesWritten := meta.internal, meta.header, 0;
    }

    /** The tmp file is there and holds what the record says. */
    lemma OwnTmp()
      requires Valid()
      ensures WellFormed(cache.fs) && tmp in cache.fs.tmps && WriterOk(cache.fs, tmp, cache.world.writers[tmp])
      ensures cache.fs.tmps[tmp] == Tmp(key, cache.world.writers[tmp].inode) && key in cache.fs.dirs
      ensures IsTmp(cache.fs, cache.world.writers[tmp].inode, tmp)
    {
      assert WriterOk(cache.fs, tmp, cache.world.writers[tmp]);
    }

    method WriteBody(data: Bytes, io: WriteIO) returns (ok: bool)
      requires Valid()
      modifies this, cache
      ensures Valid() && cache.scars == old(cache.scars) && cache.metrics == old(cache.metrics)
      ensures var (sh, w) := MoveWrite(old(cache.world.shared), tmp, old(cache.world.writers[tmp]), data, io);
        cache.world == SetWriter(old(cache.world), tmp, sh, w)
      ensures ok == io.WriteWorks?
      ensures tmpBytesWritten == old(tmpBytesWritten) + (if ok then |data| else 0)
      ensures Draft() == old(Draft()) + Landed(data, io)
      ensures OnDisk(cache.fs) == old(OnDisk(cache.fs))
    {
      hide Reaches, Bootable, Core, WellFormed, WriterOk, OnDisk;
      OwnTmp();
      ghost var (sh, w) := MoveWrite(cache.world.shared, tmp, cache.world.writers[tmp], data, io);
      WriterCallsAreRuns(cache.world, tmp, data, io, true);
      ghost var t := SetWriter(cache.world, tmp, sh, w);
      var inode := cache.fs.tmps[tmp].inode;
      var sofar := Content(cache.fs, inode);
      TmpWriteInvisible(cache.fs, tmp, Content(sh.fs, inode));
      if io.OpenFails? {
        cache.RecordQuiet(t);
        assert sofar + Landed(data, io) == sofar;
        return false;
      }
      if io.WriteFails? {
        cache.fs := SetContent(cache.fs, inode, sofar + data[..Min(io.partial, |data|)]);
        cache.RecordQuiet(t);
        return false;
      }
      cache.fs := SetContent(cache.fs, inode, sofar + data);
      cache.RecordQuiet(t);
      tmpBytesWritten := tmpBytesWritten + |data|;
      return true;
    }

    /** Dropped before `finish`: the tmp file is removed, whatever error that gives. */
    method Drop(ok: bool)
      requires Valid()
      modifies cache
      ensures cache.Valid() && cache.scars == old(cache.scars) && cache.metrics == old(cache.metrics)
      ensures var (sh, w) := DropCall(old(cache.world.shared), tmp, old(cache.world.writers[tmp]), ok);
        cache.world == SetWriter(old(cache.world), tmp, sh, w)
      ensures OnDisk(cache.fs) == old(OnDisk(cache.fs)) && (ok ==> tmp !in cache.fs.tmps)
    {
      hide Reaches, Bootable, Core, WellFormed, WriterOk, OnDisk;
      OwnTmp();
      TmpWriteInvisible(cache.fs, tmp, []);
      ghost var (sh, w) := DropCall(cache.world.shared, tmp, cache.world.writers[tmp], ok);
      WriterCallsAreRuns(cache.world, tmp, [], WriteWorks, ok);
      if ok { cache.fs := RemoveTmp(cache.fs, tmp); }
      cache.RecordQuiet(SetWriter(cache.world, tmp, sh, w));
    }

    /** The handler is consumed: it is dropped at the end, however the call ends. */
    method Finish(io: FinishIO) returns (r: WriterResult)
      requires Valid()
      modifies cache
      ensures cache.Valid()
      ensures cache.scars == Scars(old(cache.scars).copied + Copied(key, io),
                                   old(cache.scars).spoiled + SpoiledBy(old(cache.world), Cut(old(cache.fs), key, io)))
      ensures var (sh, w) := FinishCall(old(cache.world.shared), tmp, old(cache.world.writers[tmp]), io);
        cache.world == SetWriter(old(cache.world), tmp, sh, w)
      ensures r == if Commits(io) then Created(tmpBytesWritten) else Failed
      ensures CommitsEntry(old(cache.fs), cache.fs, key, Entry(Meta(), old(Draft())), io)
    {
      hide Reaches, Bootable, Core, WellFormed, WriterOk, CommitsEntry, FromMeta, AfterRename, MoveRename, Run, Boot;
      hide Streaming, BodiesKept;
      OwnTmp();
      ghost var before, w := cache.world.shared, cache.world.writers[tmp];
      FinishIsRun(cache.world, tmp, io);
      FinishEntries(before, tmp, w, io);
      FinishKeepsBodies(before, tmp, w, io);
      ghost var (end, v) := FinishCall(before, tmp, w, io);
      DirsSpare(cache.fs, key);
      if io.dir { cache.fs := MakeDir(cache.fs, key); }
      ghost var (sh1, w1) := MoveMakeDirs(before, w.(stage := FinishDir), io.dir);
      assert Shared(cache.fs, cache.metrics) == sh1;
      var placed: bool;
      ghost var w2: Writer;
      placed, w2 := PlaceBody(io, w1);
      if placed {
        r, w2 := WriteMetas(io, w2);
      } else {
        r := Failed;
      }
      if io.drop { cache.fs := RemoveTmp(cache.fs, tmp); }
      cache.Record(SetWriter(cache.world, tmp, end, v), Copied(key, io), Cut(before.fs, key, io));
    }

    /** Promotes the tmp file to the body: by `rename`, or else by copying it. */
    method PlaceBody(io: FinishIO, ghost w: Writer) returns (placed: bool, ghost v: Writer)
      requires w.stage.Promote? && w.key == key && WellFormed(cache.fs)
      requires tmp in cache.fs.tmps && cache.fs.tmps[tmp] == Tmp(key, w.inode) && key in cache.fs.dirs
      modifies cache`fs
      ensures v.key == key && v.meta == w.meta && v.written == w.written
      ensures if placed then v.stage.PuttingMeta? && key in cache.fs.dirs else v.stage == Dropping(Failed)
      ensures var (sh, w2) := MoveRename(Shared(old(cache.fs), cache.metrics), tmp, w, io.rename);
        AfterRename(sh, tmp, w2, io) ==
          if placed then FromMeta(Shared(cache.fs, cache.metrics), tmp, v, io)
          else MoveDrop(Shared(cache.fs, cache.metrics), tmp, v, io.drop)
    {
      hide FromMeta, FromCopyEnd, CreateBody, MoveCopyChunk;
      if io.rename {
        v := MoveRename(Shared(cache.fs, cache.metrics), tmp, w, true).1;
        cache.fs := Rename(cache.fs, tmp);
        return true, v;
      }
      v := w.(stage := CopyOpening);
      if !io.open {
        return false, v.(stage := Dropping(Failed));
      }
      v := v.(stage := CopyCreating);
      if !io.create {
        return false, v.(stage := Dropping(Failed));
      }
      v := MoveCopyCreate(Shared(cache.fs, cache.metrics), tmp, v, true).1;
      cache.fs := CreateBody(cache.fs, key, tmp);
      CreatedForCopy(old(cache.fs), key, tmp);
      placed, v := CopyBody(io, v);
    }

    /** Copies the tmp file to the empty body, and removes it. */
    method CopyBody(io: FinishIO, ghost w: Writer) returns (copied: bool, ghost v: Writer)
      requires key in cache.fs.bodies && w.stage == Copying(cache.fs.bodies[key], 0) && w.key == key
      requires tmp in cache.fs.tmps && cache.fs.tmps[tmp] == Tmp(key, w.inode) && key in cache.fs.dirs
      requires w.inode != cache.fs.bodies[key]
      modifies cache`fs
      ensures v.key == key && v.meta == w.meta && v.written == w.written
      ensures if copied then v.stage.PuttingMeta? && key in cache.fs.dirs else v.stage == Dropping(Failed)
      ensures FromCopying(Shared(old(cache.fs), cache.metrics), tmp, w, io) ==
        if copied then FromMeta(Shared(cache.fs, cache.metrics), tmp, v, io)
        else MoveDrop(Shared(cache.fs, cache.metrics), tmp, v, io.drop)
    {
      hide FromMeta, WriteAt;
      var from, to := Content(cache.fs, cache.fs.tmps[tmp].inode), cache.fs.bodies[key];
      var n := Min(if io.copy then |from| else io.copied, |from|);
      v := MoveCopyChunk(Shared(cache.fs, cache.metrics), w, if io.copy then |from| else io.copied).1;
      cache.fs := SetContent(cache.fs, to, WriteAt(Content(cache.fs, to), 0, from[0..n]));
      v := MoveCopyEnd(Shared(cache.fs, cache.metrics), v, io.copy).1;
      if !io.copy {
        return false, v;
      }
      if io.clean { cache.fs := RemoveTmp(cache.fs, tmp); }
      return true, v.(stage := PuttingMeta);
    }

    /** Writes meta, then hdr, and only then counts the entry. */
    method WriteMetas(io: FinishIO, ghost w: Writer) returns (r: WriterResult, ghost v: Writer)
      requires w.stage.PuttingMeta? && w.key == key && w.meta == Meta() && w.written == tmpBytesWritten
      requires key in cache.fs.dirs
      modifies cache`fs, cache`metrics
      ensures v.stage == Dropping(r)
      ensures FromMeta(Shared(old(cache.fs), old(cache.metrics)), tmp, w, io)
        == MoveDrop(Shared(cache.fs, cache.metrics), tmp, v, io.drop)
    {
      hide MoveDrop, SmallLeft;
      if io.meta.Refused? {
        return Failed, w.(stage := Dropping(Failed));
      }
      cache.fs := PutMeta(cache.fs, key, SmallLeft(metaInternal, io.meta), ByWriter(tmp));
      v := w.(metaLeft := Some(SmallLeft(metaInternal, io.meta)));
      if io.meta.Partly? || io.hdr.Refused? {
        return Failed, v.(stage := Dropping(Failed));
      }
      cache.fs := PutHdr(cache.fs, key, SmallLeft(metaHeader, io.hdr), ByWriter(tmp));
      v := v.(hdrLeft := Some(SmallLeft(metaHeader, io.hdr)));
      if io.hdr.Partly? {
        return Failed, v.(stage := Dropping(Failed));
      }
      cache.metrics := cache.metrics.(inserts := cache.metrics.inserts + 1);
      cache.metrics := cache.metrics.(sizeBytes := cache.metrics.sizeBytes + tmpBytesWritten);
      return Created(tmpBytesWritten), v.(stage := Dropping(Created(tmpBytesWritten)), credited := tmpBytesWritten);
    }
  }
}
