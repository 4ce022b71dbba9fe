/** What each call of the `Storage` interface does to the entries on disk and to the counters when it runs from
    beginning to end, for every pattern of failures of its file operations. */
module CallOutcomes {
  import opened Basics
  import opened FileSystem
  import opened HitSpec
  import opened CacheMachine
  import opened CoreInvariant
  import opened WholeCalls

  datatype Entry = Entry(meta: CacheMeta, body: Bytes)

  type Entries = map<Key, Entry>

  /** What `lookup` can find on a disk. */
  function OnDisk(fs: FS): Entries {
    map k | k in fs.bodies && k in fs.metas && k in fs.hdrs ::
      Entry(CacheMeta(fs.metas[k].data, fs.hdrs[k].data), Content(fs, fs.bodies[k]))
  }

  /** A key has all three files or no body. */
  ghost predicate Complete(fs: FS) {
    forall k :: k in fs.bodies ==> k in fs.metas && k in fs.hdrs
  }

  // - - - the map contract

  function Put(m: Entries, k: Key, e: Entry): Entries { m[k := e] }

  function Remove(m: Entries, k: Key): Entries { m - {k} }

  function Refresh(m: Entries, k: Key, meta: CacheMeta): Entries {
    if k in m then m[k := m[k].(meta := meta)] else m
  }

  function Get(m: Entries, k: Key): Option<Entry> {
    if k in m then Some(m[k]) else None
  }

  /** At most the entry of `k` differs. */
  predicate OnlyAt(k: Key, before: Entries, after: Entries) {
    after - {k} == before - {k}
  }

  function BodyAt(fs: FS, k: Key): Option<Bytes> {
    if k in fs.bodies then Some(Content(fs, fs.bodies[k])) else None
  }

  /** At most the three files of `k` differ. */
  ghost predicate FilesOnlyAt(k: Key, fs: FS, after: FS) {
    && after.metas - {k} == fs.metas - {k}
    && after.hdrs - {k} == fs.hdrs - {k}
    && forall j :: j != k ==> BodyAt(after, j) == BodyAt(fs, j)
  }

  lemma EntriesOnlyAt(k: Key, fs: FS, after: FS)
    requires FilesOnlyAt(k, fs, after)
    ensures OnlyAt(k, OnDisk(fs), OnDisk(after))
  {
    forall j | j != k
      ensures (j in OnDisk(after) <==> j in OnDisk(fs)) && (j in OnDisk(fs) ==> OnDisk(after)[j] == OnDisk(fs)[j])
    {
      assert BodyAt(after, j) == BodyAt(fs, j);
      assert j in after.metas <==> j in after.metas - {k};
      assert j in after.hdrs <==> j in after.hdrs - {k};
    }
  }

  /** Every file that is or was a body holds what it held, except for those in `cut`. */
  ghost predicate BodiesKept(fs: FS, after: FS, cut: set<nat>) {
    forall i :: 0 <= i < |fs.inodes| && fs.inodes[i].role.BodyFile? && i !in cut ==> Content(after, i) == Content(fs, i)
  }

  // - - - get_miss_handler and write_body

  const ADMIT_WORKS: AdmitIO := AdmitIO(true, true, true, true)

  /** Nothing but a tmp file is made, and none if the call fails. */
  ghost predicate OpensDraft(fs: FS, after: FS, id: nat, k: Key, io: AdmitIO, open: bool) {
    && open == (io.serialised && io.create && (io.dir || io.parent || k in fs.dirs))
    && OnDisk(after) == OnDisk(fs) && (Complete(fs) ==> Complete(after))
    && after.tmps == (if open then fs.tmps[id := Tmp(k, |fs.inodes|)] else fs.tmps)
    && (open ==> Content(after, |fs.inodes|) == [])
  }

  lemma AdmitOutcome(sh: Shared, id: nat, k: Key, meta: CacheMeta, io: AdmitIO)
    requires WellFormed(sh.fs) && id !in sh.fs.tmps
    ensures var (after, w) := AdmitCall(sh, id, k, meta, io);
      && OpensDraft(sh.fs, after.fs, id, k, io, w.stage.Open?)
      && after.metrics == sh.metrics.(misses := sh.metrics.misses + 1) && BodiesKept(sh.fs, after.fs, {})
      && (w.stage.Open? ==> w == NewWriter(k, meta, true).(stage := Open, inode := |sh.fs.inodes|))
      && (!w.stage.Open? ==> w.stage == Closed(Failed))
  {
    var sh0 := sh.(metrics := sh.metrics.(misses := sh.metrics.misses + 1));
    var (sh1, w1) := MoveMakeDirs(sh0, NewWriter(k, meta, io.serialised), io.dir);
    var (sh2, w2) := MoveMakeDirs(sh1, w1, io.parent);
    var dirs := if io.serialised && (io.dir || io.parent) then sh.fs.dirs + {k} else sh.fs.dirs;
    assert sh2.fs == sh.fs.(dirs := dirs);
    NewTmpInvisible(sh.fs, sh.fs.(dirs := dirs), id, k);
  }

  lemma NewTmpInvisible(fs: FS, wider: FS, id: nat, k: Key)
    requires WellFormed(fs) && wider == fs.(dirs := wider.dirs)
    ensures OnDisk(wider) == OnDisk(fs) && OnDisk(CreateTmp(wider, id, k)) == OnDisk(fs)
    ensures BodiesKept(fs, wider, {}) && BodiesKept(fs, CreateTmp(wider, id, k), {})
  {
  }

  lemma TmpWriteInvisible(fs: FS, id: nat, content: Bytes)
    requires WellFormed(fs) && id in fs.tmps
    ensures var after := SetContent(fs, fs.tmps[id].inode, content);
      OnDisk(after) == OnDisk(fs) && BodiesKept(fs, after, {})
    ensures OnDisk(RemoveTmp(fs, id)) == OnDisk(fs)
  {
  }

  /** A body write, failed or not, changes nothing but the tmp file. */
  lemma WriteOutcome(sh: Shared, id: nat, w: Writer, data: Bytes, io: WriteIO)
    requires WellFormed(sh.fs) && WriterOk(sh.fs, id, w) && w.stage.Open?
    ensures var (after, v) := MoveWrite(sh, id, w, data, io);
      && OnDisk(after.fs) == OnDisk(sh.fs) && (Complete(sh.fs) ==> Complete(after.fs)) && after.metrics == sh.metrics
      && BodiesKept(sh.fs, after.fs, {})
      && v == w.(chunks := v.chunks, written := v.written, torn := v.torn)
      && (io.WriteWorks? ==> v.chunks == w.chunks + [data] && v.torn == w.torn)
  {
    hide WellFormed;
    TmpWriteInvisible(sh.fs, id, Content(MoveWrite(sh, id, w, data, io).0.fs, w.inode));
  }

  lemma DropOutcome(sh: Shared, id: nat, w: Writer, ok: bool)
    requires WellFormed(sh.fs) && id in sh.fs.tmps
    ensures var (after, v) := DropCall(sh, id, w, ok);
      && OnDisk(after.fs) == OnDisk(sh.fs) && (Complete(sh.fs) ==> Complete(after.fs)) && after.metrics == sh.metrics
      && v == w.(stage := Closed(Abandoned), leaked := !ok) && BodiesKept(sh.fs, after.fs, {})
      && after.fs.tmps == (if ok then sh.fs.tmps - {id} else sh.fs.tmps)
  {
    hide WellFormed;
    TmpWriteInvisible(sh.fs, id, []);
  }

  // - - - finish

  const FINISH_WORKS: FinishIO := FinishIO(true, true, true, true, 0, true, true, Whole, Whole, true)

  /** The body gets to its place, by rename or by copy. */
  predicate Places(io: FinishIO) {
    io.rename || (io.open && io.create && io.copy)
  }

  predicate Commits(io: FinishIO) {
    Places(io) && io.meta.Whole? && io.hdr.Whole?
  }

  /** What `finish` leaves at the body path. */
  function BodyLeft(before: Option<Bytes>, whole: Bytes, io: FinishIO): Option<Bytes> {
    if Places(io) then Some(whole)
    else if io.open && io.create then Some(whole[..Min(io.copied, |whole|)])
    else before
  }

  /** The file that a finish truncates in place, if it comes to that. */
  function Cut(fs: FS, k: Key, io: FinishIO): set<nat> {
    if k in fs.bodies && k in Copied(k, io) then {fs.bodies[k]} else {}
  }

  /** What a write of one small file makes of the small files. */
  function SmallAfter(m: map<Key, Small>, k: Key, data: Bytes, from: Source, io: SmallIO): map<Key, Small> {
    if io.Refused? then m else m[k := Small(SmallLeft(data, io), from)]
  }

  /** What a finish leaves behind, given which of its steps were failed. */
  ghost predicate FinishLeaves(sh: Shared, id: nat, w: Writer, after: Shared, v: Writer, io: FinishIO) {
    && v.stage == Closed(if Commits(io) then Created(w.written) else Failed) && v.key == w.key && v.torn == w.torn
    && after.metrics == (if Commits(io) then
         sh.metrics.(inserts := sh.metrics.inserts + 1, sizeBytes := sh.metrics.sizeBytes + w.written) else sh.metrics)
    && BodyAt(after.fs, w.key) == BodyLeft(BodyAt(sh.fs, w.key), Content(sh.fs, w.inode), io)
    && (forall j :: j != w.key ==> BodyAt(after.fs, j) == BodyAt(sh.fs, j))
    && after.fs.metas == (if Places(io) then SmallAfter(sh.fs.metas, w.key, w.meta.internal, ByWriter(id), io.meta)
                          else sh.fs.metas)
    && after.fs.hdrs == (if Places(io) && io.meta.Whole?
                         then SmallAfter(sh.fs.hdrs, w.key, w.meta.header, ByWriter(id), io.hdr) else sh.fs.hdrs)
    && after.fs.tmps == (if io.rename || (Places(io) && io.clean) || io.drop then sh.fs.tmps - {id} else sh.fs.tmps)
    && BodiesKept(sh.fs, after.fs, Cut(sh.fs, w.key, io))
  }

  lemma CountingOutcome(sh: Shared, id: nat, w: Writer, io: FinishIO)
    requires w.stage.CountingInsert?
    ensures var (after, v) := FromCounting(sh, id, w, io);
      && v.stage == Closed(Created(w.written)) && v.key == w.key && v.torn == w.torn
      && after.metrics == sh.metrics.(inserts := sh.metrics.inserts + 1, sizeBytes := sh.metrics.sizeBytes + w.written)
      && after.fs == sh.fs.(tmps := if io.drop then sh.fs.tmps - {id} else sh.fs.tmps)
  {
  }

  lemma HdrOutcome(sh: Shared, id: nat, w: Writer, io: FinishIO)
    requires w.stage.PuttingHdr? && w.key in sh.fs.dirs
    ensures var (after, v) := FromHdr(sh, id, w, io);
      && v.stage == Closed(if io.hdr.Whole? then Created(w.written) else Failed) && v.key == w.key && v.torn == w.torn
      && after.metrics == (if io.hdr.Whole? then
           sh.metrics.(inserts := sh.metrics.inserts + 1, sizeBytes := sh.metrics.sizeBytes + w.written)
         else sh.metrics)
      && after.fs == sh.fs.(hdrs := after.fs.hdrs, tmps := after.fs.tmps)
      && after.fs.hdrs == SmallAfter(sh.fs.hdrs, w.key, w.meta.header, ByWriter(id), io.hdr)
      && after.fs.tmps == (if io.drop then sh.fs.tmps - {id} else sh.fs.tmps)
  {
    if io.hdr.Whole? {
      hide FromCounting;
      var (sh1, w1) := MoveHdr(sh, id, w, Whole);
      CountingOutcome(sh1, id, w1, io);
    }
  }

  /** From the meta write on. */
  lemma MetaOutcome(sh: Shared, id: nat, w: Writer, io: FinishIO)
    requires w.stage.PuttingMeta? && w.key in sh.fs.dirs
    ensures var (after, v) := FromMeta(sh, id, w, io);
      var done := io.meta.Whole? && io.hdr.Whole?;
      && v.stage == Closed(if done then Created(w.written) else Failed) && v.key == w.key && v.torn == w.torn
      && after.metrics == (if done then
           sh.metrics.(inserts := sh.metrics.inserts + 1, sizeBytes := sh.metrics.sizeBytes + w.written)
         else sh.metrics)
      && after.fs == sh.fs.(metas := after.fs.metas, hdrs := after.fs.hdrs, tmps := after.fs.tmps)
      && after.fs.metas == SmallAfter(sh.fs.metas, w.key, w.meta.internal, ByWriter(id), io.meta)
      && after.fs.hdrs == (if io.meta.Whole?
                           then SmallAfter(sh.fs.hdrs, w.key, w.meta.header, ByWriter(id), io.hdr) else sh.fs.hdrs)
      && after.fs.tmps == (if io.drop then sh.fs.tmps - {id} else sh.fs.tmps)
  {
    if io.meta.Whole? {
      hide FromHdr;
      var (sh1, w1) := MoveMeta(sh, id, w, Whole);
      HdrOutcome(sh1, id, w1, io);
    }
  }

  /** The body is in place; what follows is the meta write. */
  lemma PlacedOutcome(sh: Shared, id: nat, w: Writer, placed: Shared, p: Writer, io: FinishIO)
    requires Places(io) && p.stage.PuttingMeta? && w.key in placed.fs.dirs
    requires p.key == w.key && p.meta == w.meta && p.written == w.written && p.torn == w.torn
    requires placed.metrics == sh.metrics && placed.fs.metas == sh.fs.metas && placed.fs.hdrs == sh.fs.hdrs
    requires BodyAt(placed.fs, w.key) == Some(Content(sh.fs, w.inode))
    requires forall j :: j != w.key ==> BodyAt(placed.fs, j) == BodyAt(sh.fs, j)
    requires placed.fs.tmps == if io.rename || io.clean then sh.fs.tmps - {id} else sh.fs.tmps
    requires BodiesKept(sh.fs, placed.fs, Cut(sh.fs, w.key, io))
    ensures var (after, v) := FromMeta(placed, id, p, io); FinishLeaves(sh, id, w, after, v, io)
  {
    hide FromMeta;
    MetaOutcome(placed, id, p, io);
    var after := FromMeta(placed, id, p, io).0;
    forall j ensures BodyAt(after.fs, j) == BodyAt(placed.fs, j) {}
  }

  lemma FreshCopy(whole: Bytes, n: nat)
    requires n <= |whole|
    ensures WriteAt([], 0, whole[0..n]) == whole[..n] && whole[..|whole|] == whole
  {
  }

  /** Truncating or creating the body. */
  lemma TruncateOutcome(fs: FS, k: Key, t: nat)
    requires WellFormed(fs) && t in fs.tmps && fs.tmps[t].key == k
    ensures var after := CreateBody(fs, k, t);
      && BodyAt(after, k) == Some([]) && (forall j :: j != k ==> BodyAt(after, j) == BodyAt(fs, j))
      && Content(after, fs.tmps[t].inode) == Content(fs, fs.tmps[t].inode) && after.bodies[k] != fs.tmps[t].inode
      && after.tmps == fs.tmps && after.metas == fs.metas && after.hdrs == fs.hdrs && after.dirs == fs.dirs
      && (forall j :: j in after.bodies && j != k ==> after.bodies[j] != after.bodies[k])
      && after.bodies[k] < |after.inodes| && (k in fs.bodies ==> after.bodies[k] == fs.bodies[k])
      && (k !in fs.bodies ==> after.bodies[k] == |fs.inodes|)
      && BodiesKept(fs, after, {after.bodies[k]})
  {
  }

  /** The copy fallback from the moment the body was created or truncated. */
  lemma CopyOutcome(sh: Shared, id: nat, w: Writer, io: FinishIO)
    requires WellFormed(sh.fs) && w.stage.CopyCreating? && w.key in sh.fs.dirs && !io.rename && io.open && io.create
    requires id in sh.fs.tmps && sh.fs.tmps[id] == Tmp(w.key, w.inode)
    ensures var (after, v) := FromCopyCreate(sh, id, w, io);
      FinishLeaves(sh, id, w, after, v, io)
  {
    hide FromCopyEnd, WriteAt, CreateBody, WellFormed, BodiesKept, FinishLeaves, Copied;
    TruncateOutcome(sh.fs, w.key, id);
    var (sh1, w1) := MoveCopyCreate(sh, id, w, true);
    var whole := Content(sh.fs, w.inode);
    var n := if io.copy then |whole| else io.copied;
    ChunkOutcome(sh, w.key, w.inode, sh1.fs, Min(n, |whole|));
    var (sh2, w2) := MoveCopyChunk(sh1, w1, n);
    assert sh2.fs == Appended(sh1.fs, sh1.fs.bodies[w.key], whole[0..Min(n, |whole|)]);
    CopyEndOutcome(sh, id, w, sh2, w2, io);
  }

  function Appended(fs: FS, inode: nat, data: Bytes): FS {
    SetContent(fs, inode, WriteAt(Content(fs, inode), 0, data))
  }

  /** The first chunk written to the empty body. */
  lemma ChunkOutcome(sh: Shared, k: Key, from: nat, fs: FS, n: nat)
    requires k in fs.bodies && fs.bodies[k] < |fs.inodes| && fs.bodies[k] != from && n <= |Content(sh.fs, from)|
    requires BodyAt(fs, k) == Some([]) && Content(fs, from) == Content(sh.fs, from)
    requires forall j :: j in fs.bodies && j != k ==> fs.bodies[j] != fs.bodies[k]
    requires forall j :: j != k ==> BodyAt(fs, j) == BodyAt(sh.fs, j)
    requires BodiesKept(sh.fs, fs, {fs.bodies[k]})
    ensures var whole := Content(sh.fs, from);
      var after := Appended(fs, fs.bodies[k], whole[0..n]);
      && BodyAt(after, k) == Some(whole[..n]) && whole[..|whole|] == whole && Content(after, from) == whole
      && (forall j :: j != k ==> BodyAt(after, j) == BodyAt(sh.fs, j))
      && BodiesKept(sh.fs, after, {fs.bodies[k]})
  {
    var whole := Content(sh.fs, from);
    FreshCopy(whole, n);
    var after := Appended(fs, fs.bodies[k], whole[0..n]);
    forall j | j != k ensures BodyAt(after, j) == BodyAt(sh.fs, j) {
      assert BodyAt(fs, j) == BodyAt(sh.fs, j);
    }
  }

  lemma CopyEndOutcome(sh: Shared, id: nat, w: Writer, copied: Shared, p: Writer, io: FinishIO)
    requires !io.rename && io.open && io.create && p.stage.Copying? && w.key in copied.fs.dirs
    requires io.copy ==> p.stage.offset == |Content(copied.fs, p.inode)|
    requires p.key == w.key && p.meta == w.meta && p.written == w.written && p.torn == w.torn
    requires copied.metrics == sh.metrics && copied.fs.metas == sh.fs.metas && copied.fs.hdrs == sh.fs.hdrs
    requires copied.fs.tmps == sh.fs.tmps
    requires BodyAt(copied.fs, w.key) == BodyLeft(BodyAt(sh.fs, w.key), Content(sh.fs, w.inode), io)
    requires forall j :: j != w.key ==> BodyAt(copied.fs, j) == BodyAt(sh.fs, j)
    requires w.key in copied.fs.bodies && BodiesKept(sh.fs, copied.fs, {copied.fs.bodies[w.key]})
    requires if w.key in sh.fs.bodies then copied.fs.bodies[w.key] == sh.fs.bodies[w.key]
             else copied.fs.bodies[w.key] == |sh.fs.inodes|
    ensures var (after, v) := FromCopyEnd(copied, id, p, io); FinishLeaves(sh, id, w, after, v, io)
  {
    hide FromMeta;
    if io.copy {
      var (sh4, w4) := MoveCopyClean(copied, id, p.(stage := CopyCleaning), io.clean);
      PlacedOutcome(sh, id, w, sh4, w4, io);
    }
  }

  lemma RenameOutcome(fs: FS, id: nat)
    requires WellFormed(fs) && id in fs.tmps
    ensures var k, after := fs.tmps[id].key, Rename(fs, id);
      && BodyAt(after, k) == Some(Content(fs, fs.tmps[id].inode))
      && (forall j :: j != k ==> BodyAt(after, j) == BodyAt(fs, j))
      && BodiesKept(fs, after, {})
  {
    forall j | j != fs.tmps[id].key ensures BodyAt(Rename(fs, id), j) == BodyAt(fs, j) {
      if j in fs.bodies { assert IsBody(fs, fs.bodies[j], j); }
    }
  }

  lemma RenamedOutcome(sh: Shared, id: nat, w: Writer, p: Writer, io: FinishIO)
    requires WellFormed(sh.fs) && id in sh.fs.tmps && sh.fs.tmps[id] == Tmp(w.key, w.inode) && io.rename
    requires p == w.(stage := Promote)
    ensures var (placed, q) := MoveRename(sh, id, p, true);
      var (after, v) := FromMeta(placed, id, q, io); FinishLeaves(sh, id, w, after, v, io)
  {
    hide FromMeta, FinishLeaves;
    RenameOutcome(sh.fs, id);
    var (placed, q) := MoveRename(sh, id, p, true);
    PlacedOutcome(sh, id, w, placed, q, io);
  }

  /** `finish` in every case. */
  lemma FinishOutcome(sh: Shared, id: nat, w: Writer, io: FinishIO)
    requires WellFormed(sh.fs) && WriterOk(sh.fs, id, w) && w.stage.Open?
    ensures var (after, v) := FinishCall(sh, id, w, io); FinishLeaves(sh, id, w, after, v, io)
  {
    hide FromMeta, FromCopyCreate, HoldsChunks, Flatten;
    assert id in sh.fs.tmps && sh.fs.tmps[id] == Tmp(w.key, w.inode) && w.key in sh.fs.dirs;
    assert sh.fs.dirs + {w.key} == sh.fs.dirs;
    hide FinishLeaves, WriterOk, WellFormed;
    var p := w.(stage := Promote);
    assert MoveMakeDirs(sh, w.(stage := FinishDir), io.dir) == (sh, p);
    if io.rename {
      RenamedOutcome(sh, id, w, p, io);
    } else {
      CopyOrGiveUp(sh, id, w, p.(stage := CopyOpening), io);
    }
  }

  /** What a finish leaves does not depend on the stage of the record it is told for. */
  lemma LeavesAtAnyStage(sh: Shared, id: nat, w: Writer, stage: WriterStage, after: Shared, v: Writer, io: FinishIO)
    requires FinishLeaves(sh, id, w.(stage := stage), after, v, io)
    ensures FinishLeaves(sh, id, w, after, v, io)
  {
    hide BodiesKept, BodyAt, BodyLeft, SmallAfter, Cut, Content;
  }

  lemma GiveUpOutcome(sh: Shared, id: nat, w: Writer, io: FinishIO)
    requires w.stage.CopyOpening? && !io.rename && !(io.open && io.create)
    requires id in sh.fs.tmps
    ensures var (after, v) := AfterRename(sh, id, w, io); FinishLeaves(sh, id, w, after, v, io)
  {
    hide FromCopyEnd, FromCleaning, CreateBody;
  }

  lemma CopyOrGiveUp(sh: Shared, id: nat, w: Writer, p: Writer, io: FinishIO)
    requires WellFormed(sh.fs) && p == w.(stage := CopyOpening) && w.key in sh.fs.dirs && !io.rename
    requires id in sh.fs.tmps && sh.fs.tmps[id] == Tmp(w.key, w.inode)
    ensures var (after, v) := AfterRename(sh, id, p, io); FinishLeaves(sh, id, w, after, v, io)
  {
    hide FromCopyCreate, WellFormed, FinishLeaves;
    var (after, v) := AfterRename(sh, id, p, io);
    if io.open && io.create {
      CopyOutcome(sh, id, p.(stage := CopyCreating), io);
      LeavesAtAnyStage(sh, id, w, CopyCreating, after, v, io);
    } else {
      GiveUpOutcome(sh, id, p, io);
      LeavesAtAnyStage(sh, id, w, CopyOpening, after, v, io);
    }
  }

  /** What `finish` reports as created is in the map, whole and with its own meta, wherever the body came from; and
      whatever goes wrong, no other entry is touched. */
  ghost predicate CommitsEntry(fs: FS, after: FS, k: Key, e: Entry, io: FinishIO) {
    && OnlyAt(k, OnDisk(fs), OnDisk(after))
    && (Commits(io) ==> OnDisk(after) == Put(OnDisk(fs), k, e))
    && (Commits(io) && Complete(fs) ==> Complete(after))
  }

  lemma FinishEntries(sh: Shared, id: nat, w: Writer, io: FinishIO)
    requires WellFormed(sh.fs) && WriterOk(sh.fs, id, w) && w.stage.Open?
    ensures var (after, v) := FinishCall(sh, id, w, io);
      && v.stage == Closed(if Commits(io) then Created(w.written) else Failed)
      && CommitsEntry(sh.fs, after.fs, w.key, Entry(w.meta, Content(sh.fs, w.inode)), io)
  {
    hide FinishCall;
    FinishOutcome(sh, id, w, io);
    var after := FinishCall(sh, id, w, io).0.fs;
    EntriesOnlyAt(w.key, sh.fs, after);
    var put := Put(OnDisk(sh.fs), w.key, Entry(w.meta, Content(sh.fs, w.inode)));
    if Commits(io) {
      assert BodyAt(after, w.key) == Some(Content(sh.fs, w.inode));
      assert OnDisk(after)[w.key] == put[w.key];
      forall j ensures j in OnDisk(after) <==> j in put {
        assert j != w.key ==> (j in OnDisk(after) <==> j in OnDisk(after) - {w.key});
      }
      forall j | j in put ensures OnDisk(after)[j] == put[j] {
        assert j != w.key ==> OnDisk(after)[j] == (OnDisk(after) - {w.key})[j];
      }
      assert OnDisk(after) == put;
      forall j | Complete(sh.fs) && j in after.bodies ensures j in after.metas && j in after.hdrs {
        assert j != w.key ==> BodyAt(after, j) == BodyAt(sh.fs, j);
      }
    }
  }

  // - - - purge, update_meta, lookup

  const PURGE_WORKS: PurgeIO := PurgeIO(true, true, true, true, true)

  lemma PurgeEffect(sh: Shared, k: Key, io: PurgeIO)
    ensures var (after, p) := PurgeCall(sh, k, io);
      && p.stage == Purged && p.key == k
      && p.existed == (io.body && k in sh.fs.bodies)
      && p.measured == (if io.measure then BodyLen(sh.fs, k) else 0)
      && p.removed == (if p.existed then BodyLen(sh.fs, k) else 0)
      && after.fs == sh.fs.(bodies := if p.existed then sh.fs.bodies - {k} else sh.fs.bodies,
                            metas := if io.meta then sh.fs.metas - {k} else sh.fs.metas,
                            hdrs := if io.hdr then sh.fs.hdrs - {k} else sh.fs.hdrs,
                            dirs := if io.dir && DirEmpty(after.fs, k) then sh.fs.dirs - {k} else sh.fs.dirs)
      && after.metrics == (
           var m := sh.metrics.(purgeAttempts := sh.metrics.purgeAttempts + 1);
           if p.existed then m.(evictions := m.evictions + 1, evictedBytes := m.evictedBytes + p.measured,
                                sizeBytes := m.sizeBytes - p.measured) else m)
  {
  }

  /** The entry is gone as soon as one of its files could be removed, but only the unlinked body is reported. */
  ghost predicate PurgesEntry(fs: FS, after: FS, k: Key, io: PurgeIO, existed: bool) {
    && existed == (io.body && k in fs.bodies)
    && OnDisk(after) == (if existed || io.meta || io.hdr then Remove(OnDisk(fs), k) else OnDisk(fs))
    && (Complete(fs) && io.body ==> existed == (k in OnDisk(fs)) && Complete(after))
  }

  lemma PurgeOutcome(sh: Shared, k: Key, io: PurgeIO)
    ensures var (after, p) := PurgeCall(sh, k, io);
      PurgesEntry(sh.fs, after.fs, k, io, p.existed)
  {
    hide PurgeCall;
    PurgeEffect(sh, k, io);
    var (after, p) := PurgeCall(sh, k, io);
    assert OnDisk(after.fs) == if p.existed || io.meta || io.hdr then Remove(OnDisk(sh.fs), k) else OnDisk(sh.fs);
  }

  const UPDATE_WORKS: UpdateIO := UpdateIO(true, true, Whole, Whole)

  /** What `update_meta` leaves in the two small files. */
  ghost predicate UpdateLeaves(fs: FS, after: FS, id: nat, k: Key, meta: CacheMeta, io: UpdateIO) {
    var writes := io.seen && k in fs.bodies && io.serialised;
    && after == fs.(metas := after.metas, hdrs := after.hdrs)
    && after.metas == (if writes then SmallAfter(fs.metas, k, meta.internal, ByUpdate(id), io.meta) else fs.metas)
    && after.hdrs == (if writes && io.meta.Whole?
                      then SmallAfter(fs.hdrs, k, meta.header, ByUpdate(id), io.hdr) else fs.hdrs)
  }

  /** With meta and hdr written, the entry has the new meta. A write that fails leaves the file as it was, or cut short;
      one that fails between the two leaves half of the new meta in front of half of the old. */
  ghost predicate RenewsEntry(fs: FS, after: FS, k: Key, meta: CacheMeta, io: UpdateIO, result: UpdateResult) {
    var seen := io.seen && k in fs.bodies;
    && result == (if !seen then Updated(false)
                  else if io.serialised && io.meta.Whole? && io.hdr.Whole? then Updated(true) else UpdateFailed)
    && OnlyAt(k, OnDisk(fs), OnDisk(after))
    && (!(seen && io.serialised) || io.meta.Refused? ==> OnDisk(after) == OnDisk(fs))
    && (seen && io.serialised && !io.meta.Refused? ==>
          Get(OnDisk(after), k) == Assembled(SmallLeft(meta.internal, io.meta),
            if io.meta.Whole? && !io.hdr.Refused? then Some(SmallLeft(meta.header, io.hdr))
            else if k in fs.hdrs then Some(fs.hdrs[k].data) else None, BodyAt(fs, k).value))
    && (Complete(fs) ==> Complete(after))
  }

  function Assembled(internal: Bytes, header: Option<Bytes>, body: Bytes): Option<Entry> {
    if header.Some? then Some(Entry(CacheMeta(internal, header.value), body)) else None
  }

  lemma UpdateOutcome(sh: Shared, id: nat, k: Key, meta: CacheMeta, io: UpdateIO)
    requires WellFormed(sh.fs)
    ensures var (after, u) := UpdateCall(sh, id, k, meta, io);
      && u.stage.UpdateDone? && u.key == k && u.meta == meta
      && UpdateLeaves(sh.fs, after.fs, id, k, meta, io)
      && RenewsEntry(sh.fs, after.fs, k, meta, io, u.stage.result)
      && after.metrics == sh.metrics
  {
    UpdateFiles(sh, id, k, meta, io);
    hide UpdateCall, OnlyAt, Complete;
    RenewedEntry(sh.fs, UpdateCall(sh, id, k, meta, io).0.fs, id, k, meta, io);
  }

  lemma UpdateFiles(sh: Shared, id: nat, k: Key, meta: CacheMeta, io: UpdateIO)
    requires WellFormed(sh.fs)
    ensures var (after, u) := UpdateCall(sh, id, k, meta, io);
      && u.stage.UpdateDone? && u.key == k && u.meta == meta && after.metrics == sh.metrics
      && u.stage.result == (if !(io.seen && k in sh.fs.bodies) then Updated(false)
                            else if io.serialised && io.meta.Whole? && io.hdr.Whole? then Updated(true)
                            else UpdateFailed)
      && UpdateLeaves(sh.fs, after.fs, id, k, meta, io)
  {
  }

  lemma RenewedEntry(fs: FS, after: FS, id: nat, k: Key, meta: CacheMeta, io: UpdateIO)
    requires UpdateLeaves(fs, after, id, k, meta, io)
    ensures var seen := io.seen && k in fs.bodies;
      RenewsEntry(fs, after, k, meta, io,
                  if !seen then Updated(false)
                  else if io.serialised && io.meta.Whole? && io.hdr.Whole? then Updated(true) else UpdateFailed)
  {
    forall j ensures BodyAt(after, j) == BodyAt(fs, j) {}
    EntriesOnlyAt(k, fs, after);
  }

  /** Nothing failed and no entry was incomplete: then the call does what the map does. */
  lemma RenewIsRefresh(fs: FS, after: FS, k: Key, meta: CacheMeta, result: UpdateResult)
    requires RenewsEntry(fs, after, k, meta, UPDATE_WORKS, result) && (k in fs.bodies ==> k in OnDisk(fs))
    ensures OnDisk(after) == Refresh(OnDisk(fs), k, meta) && result == Updated(k in OnDisk(fs))
  {
    hide OnDisk;
    var m, n := OnDisk(fs), OnDisk(after);
    assert k in m ==> m[k].body == BodyAt(fs, k).value by { EntryBody(fs, k); }
    forall j | j != k ensures (j in n <==> j in m) && (j in m ==> n[j] == m[j]) {
      assert (j in n <==> j in n - {k}) && (j in m <==> j in m - {k});
    }
  }

  lemma EntryBody(fs: FS, k: Key)
    ensures k in OnDisk(fs) ==> k in fs.bodies && OnDisk(fs)[k].body == BodyAt(fs, k).value
  {
  }

  const LOOKUP_WORKS: LookupIO := LookupIO(true, true, true, true, true, true)

  /** What a lookup hands to its caller: the meta, and the body its handler will stream. */
  function Found(l: Lookup): Option<Entry> {
    if l.stage.Serving? && l.meta.Got? && l.hdr.Got? && l.body.Opened?
    then Some(Entry(CacheMeta(l.meta.file.data, l.hdr.file.data), l.body.snapshot))
    else None
  }

  /** A failure can hide an entry, as a miss or an error, but never makes one up. */
  lemma LookupOutcome(sh: Shared, k: Key, io: LookupIO)
    ensures var (m, l) := LookupCall(sh, k, io);
      var read := io.root && io.meta && io.hdr && io.body && k in OnDisk(sh.fs);
      && Found(l) == (if io == LOOKUP_WORKS then Get(OnDisk(sh.fs), k) else None)
      && (l.stage.LookupFailed? <==> !io.root || (read && !(io.size && io.decode)))
      && (l.stage.Missed? <==> io.root && !read)
      && (l.stage.Serving? ==>
            && l.stage == Serving(NewHit(|l.body.snapshot|))
            && l.body == OpenFile(sh.fs, k, true) && Streams(l.stage.hit, l.body.snapshot))
      && l.key == k && (l.stage.LookupFailed? || l.stage.Missed? || l.stage.Serving?)
      && m == sh.metrics.(misses := sh.metrics.misses + (if l.stage.Missed? then 1 else 0),
                          lookupHits := sh.metrics.lookupHits + (if read && io.size then 1 else 0))
  {
  }
}
