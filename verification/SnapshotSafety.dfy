/** Where the parts of an entry come from. In every run in which no finish of the key falls back to copying, a body
    never changes once it has its name: it is what one handler wrote. Each part a lookup returns is traced back to the
    call that wrote it. What happens to other keys makes no difference. */
module SnapshotSafety {
  import opened Basics
  import opened FileSystem
  import opened HitSpec
  import opened CacheMachine
  import opened CoreInvariant
  import opened KeyIsolation
  import opened ReaderIsolation

  /** A body that was renamed into place is what its writer had written. */
  ghost predicate Vouched(start: FS, writers: map<nat, Writer>, i: nat, r: Role)
    requires r.BodyFile?
  {
    match r.maker
    case None => i < |start.inodes| && start.inodes[i].role == r
    case Some(t) =>
      && t in writers && writers[t].promoted && writers[t].inode == i && writers[t].key == r.key
      && HoldsChunks(r.born, writers[t])
  }

  ghost predicate MetaFrom(s: State, k: Key, f: Small) {
    match f.from
    case AtStart => k in s.start.metas && s.start.metas[k] == f
    case ByWriter(t) =>
      t in s.writers && s.writers[t].key == k && s.writers[t].promoted && s.writers[t].metaLeft == Some(f.data)
    case ByUpdate(u) => u in s.updates && s.updates[u].key == k && s.updates[u].metaLeft == Some(f.data)
  }

  ghost predicate HdrFrom(s: State, k: Key, f: Small) {
    match f.from
    case AtStart => k in s.start.hdrs && s.start.hdrs[k] == f
    case ByWriter(t) =>
      t in s.writers && s.writers[t].key == k && s.writers[t].promoted && s.writers[t].hdrLeft == Some(f.data)
    case ByUpdate(u) => u in s.updates && s.updates[u].key == k && s.updates[u].hdrLeft == Some(f.data)
  }

  /** The handler may be at this stage without having copied: what the stage stands for has been done. */
  predicate Earned(w: Writer, stage: WriterStage) {
    && !stage.Copying? && !stage.CopyCleaning?
    && (stage.PuttingMeta? || stage.PuttingHdr? || stage.CountingInsert? || stage.CountingSize? ==> w.promoted)
    && (stage.Dropping? && stage.pending.Created? ==> w.promoted && stage.pending.size == w.written)
    && (stage.Closed? && stage.result.Created? ==> w.promoted && stage.result.size == w.written)
  }

  ghost predicate WriterGood(fs: FS, id: nat, w: Writer) {
    && (w.promoted ==>
          && IsBody(fs, w.inode, w.key)
          && fs.inodes[w.inode].role.maker == Some(id)
          && HoldsChunks(fs.inodes[w.inode].role.born, w))
    && Earned(w, w.stage)
  }

  /** An opened body is what it was when it was opened, and a hit handler streams it. */
  ghost predicate BodyGood(fs: FS, l: Lookup) {
    && (l.body.Opened? ==>
          IsBody(fs, l.body.inode, l.key) && fs.inodes[l.body.inode].role.born == l.body.snapshot)
    && (l.stage.Sizing? || l.stage.Decoding? || HasHit(l.stage) ==> l.body.Opened? && l.meta.Got? && l.hdr.Got?)
    && (l.stage.Decoding? ==> l.stage.size == |l.body.snapshot|)
    && (HasHit(l.stage) ==> Streams(l.stage.hit, l.body.snapshot))
  }

  ghost predicate LookupGood(s: State, l: Lookup) {
    && (l.meta.Got? ==> MetaFrom(s, l.key, l.meta.file))
    && (l.hdr.Got? ==> HdrFrom(s, l.key, l.hdr.file))
    && BodyGood(s.shared.fs, l)
  }

  /** Bodies of `k` are what they were when they became bodies, and vouched for. */
  ghost predicate Frozen(s: State, k: Key) {
    forall i :: 0 <= i < |s.shared.fs.inodes| && IsBody(s.shared.fs, i, k) ==>
      && s.shared.fs.inodes[i].content == s.shared.fs.inodes[i].role.born
      && Vouched(s.start, s.writers, i, s.shared.fs.inodes[i].role)
  }

  /** Everything that has to do with `k` is in order. */
  ghost predicate Safe(s: State, k: Key) {
    && Core(s)
    && Frozen(s, k)
    && (k in s.shared.fs.metas ==> MetaFrom(s, k, s.shared.fs.metas[k]))
    && (k in s.shared.fs.hdrs ==> HdrFrom(s, k, s.shared.fs.hdrs[k]))
    && (forall id :: id in s.writers && s.writers[id].key == k ==> WriterGood(s.shared.fs, id, s.writers[id]))
    && (forall id :: id in s.lookups && s.lookups[id].key == k ==> LookupGood(s, s.lookups[id]))
  }

  lemma BootSafe(fs: FS, size: int, k: Key)
    requires Bootable(fs)
    ensures Safe(Boot(fs, size), k)
  {
  }

  // - - - one step of one call

  /** What a step may do to the disk: bodies, metas and hdrs are left alone or go away, except that writer `id`
      (now `v`) may put its own in place. */
  ghost predicate Adds(fs: FS, after: FS, id: nat, v: Writer) {
    && (forall i :: 0 <= i < |after.inodes| && after.inodes[i].role.BodyFile? ==>
          (i < |fs.inodes| && after.inodes[i] == fs.inodes[i])
          || (i == v.inode && v.promoted && after.inodes[i].role.maker == Some(id) && after.inodes[i].role.key == v.key
              && after.inodes[i].content == after.inodes[i].role.born && HoldsChunks(after.inodes[i].content, v)))
    && (forall k :: k in after.metas ==>
          (k in fs.metas && after.metas[k] == fs.metas[k])
          || (k == v.key && v.promoted && v.metaLeft.Some? && after.metas[k] == Small(v.metaLeft.value, ByWriter(id))))
    && (forall k :: k in after.hdrs ==>
          (k in fs.hdrs && after.hdrs[k] == fs.hdrs[k])
          || (k == v.key && v.promoted && v.hdrLeft.Some? && after.hdrs[k] == Small(v.hdrLeft.value, ByWriter(id))))
  }

  /** What others may rely on about a writer never changes back. */
  predicate Follows(w: Writer, v: Writer) {
    && v.key == w.key && v.meta == w.meta
    && (w.promoted ==>
          && v.promoted && v.inode == w.inode
          && v.chunks == w.chunks && v.torn == w.torn && v.written == w.written)
    && (w.metaLeft.Some? ==> v.metaLeft == w.metaLeft) && (w.hdrLeft.Some? ==> v.hdrLeft == w.hdrLeft)
  }

  ghost predicate GoodMove(sh: Shared, id: nat, w: Writer, after: Shared, v: Writer) {
    Adds(sh.fs, after.fs, id, v) && Follows(w, v) && WriterGood(after.fs, id, v)
  }

  /** The step begins to copy. */
  predicate BeginsCopy(sh: Shared, w: Writer, a: WriterAction) {
    a == CopyCreate(true) && w.stage.CopyCreating? && w.key in sh.fs.dirs
  }

  lemma RenameGood(sh: Shared, id: nat, w: Writer)
    requires WellFormed(sh.fs) && WriterOk(sh.fs, id, w) && WriterGood(sh.fs, id, w) && w.stage.Promote?
    ensures var (after, v) := MoveRename(sh, id, w, true); GoodMove(sh, id, w, after, v)
  {
  }

  lemma WriteGood(sh: Shared, id: nat, w: Writer, data: Bytes, io: WriteIO)
    requires WellFormed(sh.fs) && WriterOk(sh.fs, id, w) && WriterGood(sh.fs, id, w) && w.stage.Open?
    ensures var (after, v) := MoveWrite(sh, id, w, data, io); GoodMove(sh, id, w, after, v)
  {
  }

  lemma CreateGood(sh: Shared, id: nat, w: Writer, ok: bool)
    requires WellFormed(sh.fs) && WriterOk(sh.fs, id, w) && WriterGood(sh.fs, id, w) && w.stage.CreatingTmp?
    ensures var (after, v) := MoveCreate(sh, id, w, ok); GoodMove(sh, id, w, after, v)
  {
  }

  lemma SmallGood(sh: Shared, id: nat, w: Writer, io: SmallIO)
    requires LeftOk(w) && WriterGood(sh.fs, id, w)
    ensures w.stage.PuttingMeta? ==> var (after, v) := MoveMeta(sh, id, w, io); GoodMove(sh, id, w, after, v)
    ensures w.stage.PuttingHdr? ==> var (after, v) := MoveHdr(sh, id, w, io); GoodMove(sh, id, w, after, v)
  {
  }

  lemma ForwardGood(sh: Shared, id: nat, w: Writer, after: Shared, v: Writer)
    requires WriterGood(sh.fs, id, w) && after.fs == sh.fs
    requires v == w.(stage := v.stage, credited := v.credited) && Earned(w, v.stage)
    ensures GoodMove(sh, id, w, after, v)
  {
  }

  /** The steps around a copy, as long as it does not begin. */
  lemma CopyStepForward(sh: Shared, id: nat, w: Writer, a: WriterAction)
    requires Earned(w, w.stage) && !BeginsCopy(sh, w, a) && (a == RenameTmp(true) ==> !w.stage.Promote?)
    requires a.RenameTmp? || a.CopyOpen? || a.CopyCreate? || a.CopyChunk? || a.CopyEnd? || a.CopyClean?
    ensures var v := MoveWriter(sh, id, w, a).1; v == w.(stage := v.stage) && Earned(w, v.stage)
    ensures MoveWriter(sh, id, w, a).0.fs == sh.fs
  {
  }

  lemma CountStepForward(sh: Shared, id: nat, w: Writer, a: WriterAction)
    requires Earned(w, w.stage) && (a.Finish? || a.CountInsert? || a.CountSize? || a.Abandon?)
    ensures var v := MoveWriter(sh, id, w, a).1; v == w.(stage := v.stage, credited := v.credited) && Earned(w, v.stage)
    ensures MoveWriter(sh, id, w, a).0.fs == sh.fs
  {
  }

  /** The action does nothing, or only moves the handler on. */
  lemma StandingGood(sh: Shared, id: nat, w: Writer, a: WriterAction)
    requires WriterGood(sh.fs, id, w) && !BeginsCopy(sh, w, a) && !a.MakeDirs? && !a.Drop?
    requires a.Create? ==> !w.stage.CreatingTmp?
    requires a.Write? ==> !w.stage.Open?
    requires a == RenameTmp(true) ==> !w.stage.Promote?
    requires a.WriteMeta? ==> !w.stage.PuttingMeta?
    requires a.WriteHdr? ==> !w.stage.PuttingHdr?
    ensures var (after, v) := MoveWriter(sh, id, w, a); GoodMove(sh, id, w, after, v)
  {
    assert Earned(w, w.stage);
    hide GoodMove, WriterGood, Earned, BeginsCopy;
    var (after, v) := MoveWriter(sh, id, w, a);
    if a.RenameTmp? || a.CopyOpen? || a.CopyCreate? || a.CopyChunk? || a.CopyEnd? || a.CopyClean? {
      hide MoveWriter;
      CopyStepForward(sh, id, w, a);
    } else if a.Finish? || a.CountInsert? || a.CountSize? || a.Abandon? {
      hide MoveWriter;
      CountStepForward(sh, id, w, a);
    }
    ForwardGood(sh, id, w, after, v);
  }

  /** The action changes directories or tmp names only. */
  lemma NamesOnlyGood(fs: FS, after: FS, id: nat, w: Writer, v: Writer)
    requires WriterGood(fs, id, w) && after.inodes == fs.inodes && after.metas == fs.metas && after.hdrs == fs.hdrs
    requires v == w.(stage := v.stage, leaked := v.leaked)
    requires v.stage == w.stage || Early(v.stage) || v.stage.Promote?
      || (w.stage.Dropping? && v.stage == Closed(w.stage.pending))
    ensures Adds(fs, after, id, v) && Follows(w, v) && WriterGood(after, id, v)
  {
  }

  lemma MakeDirsGood(sh: Shared, id: nat, w: Writer, ok: bool)
    requires WriterGood(sh.fs, id, w)
    ensures var (after, v) := MoveMakeDirs(sh, w, ok); GoodMove(sh, id, w, after, v)
  {
    hide WriterGood, MoveMakeDirs;
    MakeDirsFree(sh, w, ok);
    var (after, v) := MoveMakeDirs(sh, w, ok);
    NamesOnlyGood(sh.fs, after.fs, id, w, v);
  }

  lemma DropGood(sh: Shared, id: nat, w: Writer, ok: bool)
    requires WriterGood(sh.fs, id, w)
    ensures var (after, v) := MoveWriter(sh, id, w, Drop(ok)); GoodMove(sh, id, w, after, v)
  {
  }

  lemma WriterMoveGood(sh: Shared, id: nat, w: Writer, a: WriterAction)
    requires WellFormed(sh.fs) && WriterOk(sh.fs, id, w) && LeftOk(w) && WriterGood(sh.fs, id, w)
    requires !BeginsCopy(sh, w, a)
    ensures var (after, v) := MoveWriter(sh, id, w, a); GoodMove(sh, id, w, after, v)
  {
    assert !w.stage.Copying? && !w.stage.CopyCleaning?;
    hide GoodMove, WriterGood, WriterOk, LeftOk, WellFormed, MoveMeta, MoveHdr, MoveCreate, MoveWrite, MoveDrop;
    hide MoveMakeDirs, RemoveTmp;
    match a
    case Create(ok) => if w.stage.CreatingTmp? { CreateGood(sh, id, w, ok); } else { StandingGood(sh, id, w, a); }
    case Write(data, io) => if w.stage.Open? { WriteGood(sh, id, w, data, io); } else { StandingGood(sh, id, w, a); }
    case RenameTmp(ok) =>
      if w.stage.Promote? && ok { RenameGood(sh, id, w); } else { StandingGood(sh, id, w, a); }
    case WriteMeta(io) => if w.stage.PuttingMeta? { SmallGood(sh, id, w, io); } else { StandingGood(sh, id, w, a); }
    case WriteHdr(io) => if w.stage.PuttingHdr? { SmallGood(sh, id, w, io); } else { StandingGood(sh, id, w, a); }
    case MakeDirs(ok) => MakeDirsGood(sh, id, w, ok);
    case Drop(ok) => DropGood(sh, id, w, ok);
    case _ => StandingGood(sh, id, w, a);
  }

  /** A purge only takes names away; a lookup changes nothing on disk. */
  ghost predicate TakesAway(fs: FS, after: FS) {
    && after.inodes == fs.inodes
    && (forall k :: k in after.metas ==> k in fs.metas && after.metas[k] == fs.metas[k])
    && (forall k :: k in after.hdrs ==> k in fs.hdrs && after.hdrs[k] == fs.hdrs[k])
  }

  lemma PurgeMoveGood(sh: Shared, p: Purge, a: PurgeAction)
    ensures TakesAway(sh.fs, MovePurge(sh, p, a).0.fs)
  {
  }

  predicate UpdateFollows(u: Update, v: Update) {
    && v.key == u.key && v.meta == u.meta
    && (u.metaLeft.Some? ==> v.metaLeft == u.metaLeft) && (u.hdrLeft.Some? ==> v.hdrLeft == u.hdrLeft)
  }

  /** An update writes its own meta and hdr at its key and nothing else. */
  ghost predicate Replaces(fs: FS, after: FS, id: nat, u: Update) {
    && after.inodes == fs.inodes
    && (forall k :: k in after.metas ==>
          (k in fs.metas && after.metas[k] == fs.metas[k])
          || (k == u.key && u.metaLeft.Some? && after.metas[k] == Small(u.metaLeft.value, ByUpdate(id))))
    && (forall k :: k in after.hdrs ==>
          (k in fs.hdrs && after.hdrs[k] == fs.hdrs[k])
          || (k == u.key && u.hdrLeft.Some? && after.hdrs[k] == Small(u.hdrLeft.value, ByUpdate(id))))
  }

  lemma UpdateMoveGood(sh: Shared, id: nat, u: Update, a: UpdateAction)
    requires UpdateOk(u)
    ensures var (after, v) := MoveUpdate(sh, id, u, a); Replaces(sh.fs, after.fs, id, v) && UpdateFollows(u, v)
  {
  }

  lemma LookupMoveGood(s: State, l: Lookup, a: LookupAction)
    requires Safe(s, l.key) && LookupGood(s, l)
    ensures LookupGood(s, MoveLookup(s.shared, l, a).1)
  {
    match a
    case ReadHit(io) => if l.stage.Serving? { ReadStreams(l.stage.hit, l.body.snapshot, io); }
    case _ =>
  }

  // - - - everybody else

  /** Nothing that a good state relies on is lost from `s` to `t`. */
  ghost predicate Extends(s: State, t: State) {
    && t.start == s.start
    && (forall i :: 0 <= i < |s.shared.fs.inodes| && s.shared.fs.inodes[i].role.BodyFile? ==>
          i < |t.shared.fs.inodes| && t.shared.fs.inodes[i].role == s.shared.fs.inodes[i].role)
    && (forall id :: id in s.writers ==> id in t.writers && Follows(s.writers[id], t.writers[id]))
    && (forall id :: id in s.updates ==> id in t.updates && UpdateFollows(s.updates[id], t.updates[id]))
  }

  lemma OriginsStay(s: State, t: State, k: Key, f: Small)
    requires Extends(s, t)
    ensures MetaFrom(s, k, f) ==> MetaFrom(t, k, f)
    ensures HdrFrom(s, k, f) ==> HdrFrom(t, k, f)
  {
  }

  lemma LookupStays(s: State, t: State, l: Lookup)
    requires Extends(s, t) && LookupGood(s, l)
    ensures LookupGood(t, l)
  {
  }

  lemma VouchedStays(s: State, t: State, i: nat, r: Role)
    requires Extends(s, t) && r.BodyFile? && Vouched(s.start, s.writers, i, r)
    ensures Vouched(t.start, t.writers, i, r)
  {
  }

  lemma WriterStays(s: State, t: State, id: nat, w: Writer)
    requires Extends(s, t) && WriterGood(s.shared.fs, id, w)
    ensures WriterGood(t.shared.fs, id, w)
  {
  }

  /** A state that extends a safe one is safe if the calls that moved are good and what they put on disk is theirs. */
  lemma ExtensionSafe(s: State, t: State, k: Key)
    requires Safe(s, k) && Extends(s, t) && Core(t)
    requires forall i :: 0 <= i < |t.shared.fs.inodes| && IsBody(t.shared.fs, i, k) ==>
      (i < |s.shared.fs.inodes| && t.shared.fs.inodes[i] == s.shared.fs.inodes[i])
      || (t.shared.fs.inodes[i].content == t.shared.fs.inodes[i].role.born
          && Vouched(t.start, t.writers, i, t.shared.fs.inodes[i].role))
    requires k in t.shared.fs.metas ==>
      (k in s.shared.fs.metas && t.shared.fs.metas[k] == s.shared.fs.metas[k]) || MetaFrom(t, k, t.shared.fs.metas[k])
    requires k in t.shared.fs.hdrs ==>
      (k in s.shared.fs.hdrs && t.shared.fs.hdrs[k] == s.shared.fs.hdrs[k]) || HdrFrom(t, k, t.shared.fs.hdrs[k])
    requires forall id :: id in t.writers && t.writers[id].key == k ==>
      (id in s.writers && t.writers[id] == s.writers[id]) || WriterGood(t.shared.fs, id, t.writers[id])
    requires forall id :: id in t.lookups && t.lookups[id].key == k ==>
      (id in s.lookups && t.lookups[id] == s.lookups[id]) || LookupGood(t, t.lookups[id])
    ensures Safe(t, k)
  {
    var before, now := s.shared.fs, t.shared.fs;
    forall i | 0 <= i < |now.inodes| && IsBody(now, i, k)
      ensures Vouched(t.start, t.writers, i, now.inodes[i].role) && now.inodes[i].content == now.inodes[i].role.born
    {
      if i < |before.inodes| && now.inodes[i] == before.inodes[i] {
        assert IsBody(before, i, k);
        VouchedStays(s, t, i, now.inodes[i].role);
      }
    }
    if k in now.metas { OriginsStay(s, t, k, now.metas[k]); }
    if k in now.hdrs { OriginsStay(s, t, k, now.hdrs[k]); }
    forall id | id in t.writers && t.writers[id].key == k ensures WriterGood(now, id, t.writers[id]) {
      if id in s.writers && t.writers[id] == s.writers[id] { WriterStays(s, t, id, t.writers[id]); }
    }
    forall id | id in t.lookups && t.lookups[id].key == k ensures LookupGood(t, t.lookups[id]) {
      if id in s.lookups && t.lookups[id] == s.lookups[id] { LookupStays(s, t, t.lookups[id]); }
    }
  }

  /** A step of a handler of the key itself. */
  lemma OwnWriterSafe(s: State, id: nat, sh: Shared, v: Writer, k: Key)
    requires Safe(s, k) && id in s.writers && Core(SetWriter(s, id, sh, v))
    requires Spares(s.shared.fs, sh.fs, id) && GoodMove(s.shared, id, s.writers[id], sh, v)
    ensures Safe(SetWriter(s, id, sh, v), k)
  {
    hide WellFormed, WriterOk, WriterGood, LookupGood;
    ExtensionSafe(s, SetWriter(s, id, sh, v), k);
  }

  /** A step of a handler of another key, which may well be copying. */
  lemma OtherWriterSafe(s: State, id: nat, sh: Shared, v: Writer, k: Key)
    requires Safe(s, k) && id in s.writers && Core(SetWriter(s, id, sh, v)) && v.key != k
    requires Spares(s.shared.fs, sh.fs, id) && SameAt(k, s.shared.fs, sh.fs) && Follows(s.writers[id], v)
    ensures Safe(SetWriter(s, id, sh, v), k)
  {
    hide WellFormed, WriterOk, WriterGood, LookupGood;
    ExtensionSafe(s, SetWriter(s, id, sh, v), k);
  }

  lemma MoveFollows(sh: Shared, id: nat, w: Writer, a: WriterAction)
    requires WriterOk(sh.fs, id, w) && LeftOk(w)
    ensures Follows(w, MoveWriter(sh, id, w, a).1)
  {
    hide WellFormed, LeftOk;
    if w.promoted {
      PromotedMoveFollows(sh, id, w, a);
    } else {
      FreshMoveFollows(sh, id, w, a);
    }
  }

  lemma FreshMoveFollows(sh: Shared, id: nat, w: Writer, a: WriterAction)
    requires !w.promoted && LeftOk(w)
    ensures Follows(w, MoveWriter(sh, id, w, a).1)
  {
    hide MoveMakeDirs, Rename, SetContent, CreateTmp, CreateBody, WriteAt, Content, BodyLen, PutMeta, PutHdr, RemoveTmp;
    if a.MakeDirs? { MakeDirsFree(sh, w, a.ok); }
  }

  lemma SafeWriter(s: State, id: nat, k: Key)
    requires Safe(s, k)
    ensures Core(s) && WellFormed(s.shared.fs)
    ensures id in s.writers ==> WriterOk(s.shared.fs, id, s.writers[id]) && LeftOk(s.writers[id])
    ensures id in s.writers && s.writers[id].key == k ==> WriterGood(s.shared.fs, id, s.writers[id])
    ensures id in s.updates ==> UpdateOk(s.updates[id])
  {
  }

  lemma BeginWriterSafe(s: State, id: nat, key: Key, meta: CacheMeta, serialised: bool, k: Key)
    requires Safe(s, k) && id !in s.writers && Core(BeginWriter(s, id, key, meta, serialised))
    ensures Safe(BeginWriter(s, id, key, meta, serialised), k)
  {
    hide WellFormed, WriterOk, LookupGood, Vouched;
    ExtensionSafe(s, BeginWriter(s, id, key, meta, serialised), k);
  }

  lemma StepWriterSafe(s: State, id: nat, a: WriterAction, k: Key)
    requires Safe(s, k) && !StartsCopy(s, OfWriter(id, a), k)
    ensures Safe(StepWriter(s, id, a), k)
  {
    hide Safe, Core, MoveWriter, GoodMove, Spares, SameAt, Follows, WellFormed, WriterOk, WriterGood, BeginWriter;
    hide LeftOk;
    SafeWriter(s, id, k);
    StepWriterCore(s, id, a);
    if id in s.writers {
      var w := s.writers[id];
      var (sh, v) := MoveWriter(s.shared, id, w, a);
      MoveWriterOk(s.shared, id, w, a);
      if w.key == k {
        WriterMoveGood(s.shared, id, w, a);
        OwnWriterSafe(s, id, sh, v, k);
      } else {
        WriterElsewhere(s.shared, id, w, a, k);
        MoveFollows(s.shared, id, w, a);
        OtherWriterSafe(s, id, sh, v, k);
      }
    } else if a.Begin? && id !in s.shared.fs.tmps {
      BeginWriterSafe(s, id, a.key, a.meta, a.serialised, k);
    }
  }

  lemma StepPurgeSafe(s: State, id: nat, a: PurgeAction, k: Key)
    requires Safe(s, k)
    ensures Safe(StepPurge(s, id, a), k)
  {
    hide WellFormed, WriterOk, WriterGood, LookupGood, Vouched, MovePurge;
    StepPurgeCore(s, id, a);
    if id in s.purges {
      PurgeMoveGood(s.shared, s.purges[id], a);
    }
    ExtensionSafe(s, StepPurge(s, id, a), k);
  }

  lemma UpdateMovesSafe(s: State, id: nat, sh: Shared, v: Update, k: Key)
    requires Safe(s, k) && id in s.updates && Core(SetUpdate(s, id, sh, v))
    requires Replaces(s.shared.fs, sh.fs, id, v) && UpdateFollows(s.updates[id], v)
    ensures Safe(SetUpdate(s, id, sh, v), k)
  {
    hide WellFormed, WriterOk, LeftOk, UpdateOk, WriterGood, LookupGood, Vouched;
    ExtensionSafe(s, SetUpdate(s, id, sh, v), k);
  }

  lemma BeginUpdateSafe(s: State, id: nat, u: Update, k: Key)
    requires Safe(s, k) && id !in s.updates && Core(SetUpdate(s, id, s.shared, u))
    ensures Safe(SetUpdate(s, id, s.shared, u), k)
  {
    hide WellFormed, WriterOk, LeftOk, UpdateOk, WriterGood, LookupGood, Vouched;
    ExtensionSafe(s, SetUpdate(s, id, s.shared, u), k);
  }

  lemma StepUpdateSafe(s: State, id: nat, a: UpdateAction, k: Key)
    requires Safe(s, k)
    ensures Safe(StepUpdate(s, id, a), k)
  {
    SafeWriter(s, id, k);
    hide Safe, Core, UpdateOk, MoveUpdate, Replaces, UpdateFollows;
    StepUpdateCore(s, id, a);
    if id in s.updates {
      var (sh, v) := MoveUpdate(s.shared, id, s.updates[id], a);
      UpdateMoveGood(s.shared, id, s.updates[id], a);
      UpdateMovesSafe(s, id, sh, v, k);
    } else if a.BeginUpdate? {
      BeginUpdateSafe(s, id, NewUpdate(a.key, a.meta), k);
    }
  }

  lemma LookupMovesSafe(s: State, id: nat, m: Metrics, l: Lookup, k: Key)
    requires Safe(s, k) && (l.key == k ==> LookupGood(s, l)) && Core(SetLookup(s, id, m, l))
    ensures Safe(SetLookup(s, id, m, l), k)
  {
    hide WellFormed, WriterOk, WriterGood;
    var t := SetLookup(s, id, m, l);
    if l.key == k { LookupStays(s, t, l); }
    ExtensionSafe(s, t, k);
  }

  lemma StepLookupSafe(s: State, id: nat, a: LookupAction, k: Key)
    requires Safe(s, k)
    ensures Safe(StepLookup(s, id, a), k)
  {
    hide WellFormed, WriterOk, WriterGood, LookupGood, Frozen, MoveLookup;
    StepLookupCore(s, id, a);
    if id in s.lookups {
      var (m, l) := MoveLookup(s.shared, s.lookups[id], a);
      MoveLookupKey(s.shared, s.lookups[id], a);
      if l.key == k { LookupMoveGood(s, s.lookups[id], a); }
      LookupMovesSafe(s, id, m, l, k);
    } else if a.BeginLookup? {
      NewLookupGood(s, a.key);
      LookupMovesSafe(s, id, s.shared.metrics, NewLookup(a.key), k);
    }
  }

  lemma MoveLookupKey(sh: Shared, l: Lookup, a: LookupAction)
    ensures MoveLookup(sh, l, a).1.key == l.key
  {
  }

  lemma NewLookupGood(s: State, k: Key)
    ensures LookupGood(s, NewLookup(k))
  {
  }

  /** What becomes of one key depends on no rename of another: the invariant for `k` holds in every run in which no
      finish of `k` falls back to copying. */
  lemma {:induction false} RunSafe(fs: FS, size: int, acts: seq<Action>, k: Key)
    requires Bootable(fs) && NoCopies(Boot(fs, size), acts, k)
    ensures Safe(Run(Boot(fs, size), acts), k) && Run(Boot(fs, size), acts).start == fs
  {
    if acts == [] {
      BootSafe(fs, size, k);
    } else {
      hide Safe, Step, StartsCopy;
      var rest := acts[..|acts| - 1];
      RunSafe(fs, size, rest, k);
      StepSafe(Run(Boot(fs, size), rest), acts[|acts| - 1], k);
    }
  }

  lemma StepSafe(s: State, a: Action, k: Key)
    requires Safe(s, k) && !StartsCopy(s, a, k)
    ensures Safe(Step(s, a), k) && Step(s, a).start == s.start
  {
    hide Safe, StartsCopy;
    match a
    case OfWriter(id, w) => StepWriterSafe(s, id, w, k);
    case OfPurge(id, p) => StepPurgeSafe(s, id, p, k);
    case OfUpdate(id, u) => StepUpdateSafe(s, id, u, k);
    case OfLookup(id, l) => StepLookupSafe(s, id, l, k);
  }

  // - - - when there are no copies

  /** The system fails a rename of a handler of `k`. */
  predicate FailsRename(s: State, a: Action, k: Key) {
    && a.OfWriter? && a.id in s.writers && a.w == RenameTmp(false)
    && s.writers[a.id].stage.Promote? && s.writers[a.id].key == k
  }

  ghost predicate RenamesWork(s: State, acts: seq<Action>, k: Key) {
    acts == []
    || (RenamesWork(s, acts[..|acts| - 1], k) && !FailsRename(Run(s, acts[..|acts| - 1]), acts[|acts| - 1], k))
  }

  predicate CopyStage(stage: WriterStage) {
    stage.CopyOpening? || stage.CopyCreating? || stage.Copying? || stage.CopyCleaning?
  }

  lemma NoCopyStage(sh: Shared, id: nat, w: Writer, a: WriterAction)
    requires WellFormed(sh.fs) && WriterOk(sh.fs, id, w) && !CopyStage(w.stage)
    requires !(a == RenameTmp(false) && w.stage.Promote?)
    ensures var v := MoveWriter(sh, id, w, a).1; v.key == w.key && !CopyStage(v.stage)
  {
    hide WellFormed, WriterOk, CopyStage;
    hide MoveMakeDirs, MoveCreate, MoveWrite, MoveMeta, MoveHdr, MoveRename, MoveCountInsert, MoveCountSize, MoveDrop;
    NotCopying(sh, id, w);
    match a
    case Begin(_, _, _) =>
    case MakeDirs(ok) => DirsNoCopy(sh, w, ok);
    case Create(ok) => FilesNoCopy(sh, id, w, ok);
    case Write(data, io) => WriteKeepsStage(sh, id, w, data, io);
    case RenameTmp(ok) => if w.stage.Promote? { RenameNoCopy(sh, id, w); }
    case WriteMeta(io) => SmallNoCopy(sh, id, w, io);
    case WriteHdr(io) => SmallNoCopy(sh, id, w, io);
    case CountInsert => CountsNoCopy(sh, id, w, true);
    case CountSize => CountsNoCopy(sh, id, w, true);
    case Finish => CountsNoCopy(sh, id, w, true);
    case Abandon => CountsNoCopy(sh, id, w, true);
    case Drop(ok) => CountsNoCopy(sh, id, w, ok);
    case _ =>
  }

  lemma NotCopying(sh: Shared, id: nat, w: Writer)
    requires WellFormed(sh.fs) && WriterOk(sh.fs, id, w) && !CopyStage(w.stage)
    ensures w.stage.Promote? ==> id in sh.fs.tmps && w.key in sh.fs.dirs
    ensures !w.stage.CopyOpening? && !w.stage.CopyCreating? && !w.stage.Copying? && !w.stage.CopyCleaning?
  {
  }

  lemma DirsNoCopy(sh: Shared, w: Writer, ok: bool)
    requires !CopyStage(w.stage)
    ensures var v := MoveMakeDirs(sh, w, ok).1; v.key == w.key && !CopyStage(v.stage)
  {
    hide MoveMakeDirs, MakeDir;
    MakeDirsFree(sh, w, ok);
  }

  lemma RenameNoCopy(sh: Shared, id: nat, w: Writer)
    requires id in sh.fs.tmps && w.key in sh.fs.dirs
    ensures var v := MoveRename(sh, id, w, true).1; v.key == w.key && !CopyStage(v.stage)
  {
  }

  lemma CountsNoCopy(sh: Shared, id: nat, w: Writer, ok: bool)
    ensures var v := MoveCountInsert(sh, w).1; v.key == w.key && !CopyStage(v.stage)
    ensures var v := MoveCountSize(sh, w).1; v.key == w.key && !CopyStage(v.stage)
    ensures w.stage.Dropping? ==> var v := MoveDrop(sh, id, w, ok).1; v.key == w.key && !CopyStage(v.stage)
    ensures !CopyStage(FinishDir) && !CopyStage(Dropping(Abandoned))
  {
  }

  lemma FilesNoCopy(sh: Shared, id: nat, w: Writer, ok: bool)
    ensures var v := MoveCreate(sh, id, w, ok).1; v.key == w.key && !CopyStage(v.stage)
  {
  }

  lemma SmallNoCopy(sh: Shared, id: nat, w: Writer, io: SmallIO)
    ensures var v := MoveMeta(sh, id, w, io).1; v.key == w.key && !CopyStage(v.stage)
    ensures var v := MoveHdr(sh, id, w, io).1; v.key == w.key && !CopyStage(v.stage)
  {
  }

  lemma WriteKeepsStage(sh: Shared, id: nat, w: Writer, data: Bytes, io: WriteIO)
    ensures var v := MoveWrite(sh, id, w, data, io).1; v.key == w.key && v.stage == w.stage
  {
  }

  ghost predicate NobodyCopies(s: State, k: Key) {
    forall id :: id in s.writers && s.writers[id].key == k ==> !CopyStage(s.writers[id].stage)
  }

  /** A finish copies only if the system fails its rename; the code itself never does. */
  lemma {:induction false} RenamesWorkNoCopies(s: State, acts: seq<Action>, k: Key)
    requires Core(s) && NobodyCopies(s, k) && RenamesWork(s, acts, k)
    ensures NoCopies(s, acts, k) && NobodyCopies(Run(s, acts), k)
  {
    if acts != [] {
      var rest, a := acts[..|acts| - 1], acts[|acts| - 1];
      RenamesWorkNoCopies(s, rest, k);
      RunCore(s, rest);
      StepNobodyCopies(Run(s, rest), a, k);
    }
  }

  lemma StepNobodyCopies(s: State, a: Action, k: Key)
    requires Core(s) && NobodyCopies(s, k) && !FailsRename(s, a, k)
    ensures !StartsCopy(s, a, k) && NobodyCopies(Step(s, a), k)
  {
    hide WellFormed, WriterOk, MoveWriter, MovePurge, MoveUpdate, MoveLookup;
    if a.OfWriter? && a.id in s.writers {
      assert WriterOk(s.shared.fs, a.id, s.writers[a.id]);
      if s.writers[a.id].key == k {
        NoCopyStage(s.shared, a.id, s.writers[a.id], a.w);
      } else {
        MoveWriterOk(s.shared, a.id, s.writers[a.id], a.w);
      }
    }
  }

  // - - - theorems

  /** No partial body is ever visible: the file at a key's body path is the one found there at start, unchanged, or
      the complete tmp file of one handler created for that key, which writes no more; and that is the
      concatenation of its chunks exactly when no failed write left bytes behind. */
  lemma {:induction false} NoPartialBody(fs: FS, size: int, acts: seq<Action>, k: Key)
    requires Bootable(fs) && NoCopies(Boot(fs, size), acts, k)
    requires k in Run(Boot(fs, size), acts).shared.fs.bodies
    ensures var s := Run(Boot(fs, size), acts);
      var inode := s.shared.fs.bodies[k];
      var content := Content(s.shared.fs, inode);
      || (k in fs.bodies && fs.bodies[k] == inode && content == Content(fs, inode))
      || exists t :: && t in s.writers && s.writers[t].key == k && s.writers[t].promoted && Placed(s.writers[t].stage)
                     && s.writers[t].inode == inode
                     && (content == Flatten(s.writers[t].chunks) <==> !s.writers[t].torn)
                     && (|content| == s.writers[t].written <==> !s.writers[t].torn)
  {
    RunSafe(fs, size, acts, k);
    var s := Run(Boot(fs, size), acts);
    var inode := s.shared.fs.bodies[k];
    var role := s.shared.fs.inodes[inode].role;
    assert IsBody(s.shared.fs, inode, k);
    assert Vouched(fs, s.writers, inode, role);
    if role.maker.Some? {
      assert WriterOk(s.shared.fs, role.maker.value, s.writers[role.maker.value]);
    }
  }

  /** Every part of a hit was written for the key that was looked up: by a handler that had already put its body in
      place, by a meta update, or before the start. It is what that call left in the file. */
  lemma {:induction false} HitProvenance(fs: FS, size: int, acts: seq<Action>, id: nat)
    requires Bootable(fs)
    requires var s := Run(Boot(fs, size), acts);
      id in s.lookups && HasHit(s.lookups[id].stage) && NoCopies(Boot(fs, size), acts, s.lookups[id].key)
    ensures var s := Run(Boot(fs, size), acts);
      var l := s.lookups[id];
      && l.meta.Got? && l.hdr.Got? && l.body.Opened?
      && MetaFrom(s, l.key, l.meta.file) && HdrFrom(s, l.key, l.hdr.file)
      && IsBody(s.shared.fs, l.body.inode, l.key)
      && Vouched(fs, s.writers, l.body.inode, s.shared.fs.inodes[l.body.inode].role)
  {
    RunSafe(fs, size, acts, Run(Boot(fs, size), acts).lookups[id].key);
    assert LookupGood(Run(Boot(fs, size), acts), Run(Boot(fs, size), acts).lookups[id]);
  }

  /** Only one handler ever put a body in place for the key, nothing was there before, and no update touched it. */
  ghost predicate CommittedOnlyBy(s: State, k: Key, w: nat) {
    && k !in s.start.bodies && k !in s.start.metas && k !in s.start.hdrs
    && (forall id :: id in s.writers && s.writers[id].key == k && s.writers[id].promoted ==> id == w)
    && (forall u :: u in s.updates ==> s.updates[u].key != k)
  }

  /** Commit without tearing: although a lookup reads three files at three moments and the commit writes them at
      three others, with purges in between, a hit has the one committed body and internal meta, and the header that the
      commit left: the whole one, unless its hdr write, and so the commit, failed and left the file cut short. */
  lemma {:induction false} CommitWithoutTearing(fs: FS, size: int, acts: seq<Action>, id: nat, w: nat)
    requires Bootable(fs)
    requires var s := Run(Boot(fs, size), acts);
      && id in s.lookups && HasHit(s.lookups[id].stage)
      && NoCopies(Boot(fs, size), acts, s.lookups[id].key) && CommittedOnlyBy(s, s.lookups[id].key, w)
    ensures var s := Run(Boot(fs, size), acts);
      var l := s.lookups[id];
      && w in s.writers && s.writers[w].key == l.key && s.writers[w].promoted
      && l.meta.Got? && l.hdr.Got? && l.meta.file.data == s.writers[w].meta.internal
      && s.writers[w].hdrLeft == Some(l.hdr.file.data) && l.hdr.file.data <= s.writers[w].meta.header
      && (AfterSmall(s.writers[w].stage) ==> CacheMeta(l.meta.file.data, l.hdr.file.data) == s.writers[w].meta)
      && l.body.Opened? && l.body.inode == s.writers[w].inode
      && (l.body.snapshot == Flatten(s.writers[w].chunks) <==> !s.writers[w].torn)
  {
    var s := Run(Boot(fs, size), acts);
    RunSafe(fs, size, acts, s.lookups[id].key);
    HitProvenance(fs, size, acts, id);
    var l := s.lookups[id];
    assert LookupGood(s, l);
    var role := s.shared.fs.inodes[l.body.inode].role;
    assert WriterOk(s.shared.fs, w, s.writers[w]) && LeftOk(s.writers[w]);
  }

  lemma WriterNeverRelinks(sh: Shared, id: nat, w: Writer, a: WriterAction, k: Key, inode: nat)
    requires WellFormed(sh.fs) && WriterOk(sh.fs, id, w)
    requires IsBody(sh.fs, inode, k) && !Linked(sh.fs, k, inode)
    ensures !Linked(MoveWriter(sh, id, w, a).0.fs, k, inode)
  {
  }

  lemma PurgeNeverRelinks(sh: Shared, p: Purge, a: PurgeAction, k: Key, inode: nat)
    requires !Linked(sh.fs, k, inode)
    ensures !Linked(MovePurge(sh, p, a).0.fs, k, inode)
  {
  }

  lemma StepNeverRelinks(s: State, a: Action, k: Key, inode: nat)
    requires Core(s) && IsBody(s.shared.fs, inode, k) && !Linked(s.shared.fs, k, inode)
    ensures !Linked(Step(s, a).shared.fs, k, inode)
  {
    hide WellFormed, WriterOk, LeftOk, UpdateOk, LookupOk, MoveWriter, MovePurge, MoveLookup;
    match a
    case OfWriter(id, w) =>
      if id in s.writers {
        assert WriterOk(s.shared.fs, id, s.writers[id]);
        WriterNeverRelinks(s.shared, id, s.writers[id], w, k, inode);
      }
    case OfPurge(id, p) => if id in s.purges { PurgeNeverRelinks(s.shared, s.purges[id], p, k, inode); }
    case OfUpdate(id, u) =>
    case OfLookup(id, l) =>
  }

  /** In every run, with copies or not: a body that lost its name never gets it back. */
  lemma {:induction false} UnlinkedForGood(s: State, acts: seq<Action>, k: Key, inode: nat)
    requires Core(s) && IsBody(s.shared.fs, inode, k) && !Linked(s.shared.fs, k, inode)
    ensures Core(Run(s, acts)) && IsBody(Run(s, acts).shared.fs, inode, k) && !Linked(Run(s, acts).shared.fs, k, inode)
  {
    if acts != [] {
      hide Core, Step, Linked;
      var rest, a := acts[..|acts| - 1], acts[|acts| - 1];
      UnlinkedForGood(s, rest, k, inode);
      StepCore(Run(s, rest), a);
      StepNeverRelinks(Run(s, rest), a, k, inode);
      OnlyCopiesDisturb(Run(s, rest), a, inode, k);
    }
  }

  lemma PromotedStep(s: State, a: Action, w: nat)
    requires Core(s) && w in s.writers && s.writers[w].promoted
    ensures w in Step(s, a).writers && Follows(s.writers[w], Step(s, a).writers[w])
  {
    hide MoveWriter, MovePurge, MoveUpdate, MoveLookup, WellFormed, LeftOk, UpdateOk, LookupOk, HoldsChunks, Flatten;
    assert WriterOk(s.shared.fs, w, s.writers[w]) && LeftOk(s.writers[w]);
    if a.OfWriter? && a.id == w {
      PromotedMoveFollows(s.shared, w, s.writers[w], a.w);
    }
  }

  lemma {:induction false} PromotedForGood(s: State, acts: seq<Action>, w: nat)
    requires Core(s) && w in s.writers && s.writers[w].promoted
    ensures w in Run(s, acts).writers && Follows(s.writers[w], Run(s, acts).writers[w])
  {
    hide Core, Step;
    if acts != [] {
      var rest := acts[..|acts| - 1];
      PromotedForGood(s, rest, w);
      RunCore(s, rest);
      PromotedStep(Run(s, rest), acts[|acts| - 1], w);
    }
  }

  lemma PromotedMoveFollows(sh: Shared, id: nat, w: Writer, a: WriterAction)
    requires w.promoted && Placed(w.stage) && LeftOk(w)
    ensures Follows(w, MoveWriter(sh, id, w, a).1)
  {
    hide MoveMakeDirs, Rename, SetContent, CreateTmp, CreateBody, WriteAt, Content, BodyLen, PutMeta, PutHdr, RemoveTmp;
    if a.MakeDirs? { MakeDirsFree(sh, w, a.ok); }
  }

  /** Once the only committed body has been unlinked, every later lookup of the key that still has to open the body
      misses it. */
  lemma {:induction false} GoneStaysGone(fs: FS, size: int, before: seq<Action>, after: seq<Action>, k: Key, w: nat)
    requires Bootable(fs) && NoCopies(Boot(fs, size), before + after, k)
    requires var s := Run(Boot(fs, size), before);
      w in s.writers && s.writers[w].key == k && s.writers[w].promoted && k !in s.shared.fs.bodies
    requires CommittedOnlyBy(Run(Boot(fs, size), before + after), k, w)
    ensures var t := Run(Boot(fs, size), before + after);
      k !in t.shared.fs.bodies && OpenFile(t.shared.fs, k, true) == NoFile
  {
    var s, t := Run(Boot(fs, size), before), Run(Boot(fs, size), before + after);
    NoCopiesAppend(Boot(fs, size), before, after, k);
    RunSafe(fs, size, before, k);
    RunSafe(fs, size, before + after, k);
    RunAppend(Boot(fs, size), before, after);
    assert WriterGood(s.shared.fs, w, s.writers[w]);
    UnlinkedForGood(s, after, k, s.writers[w].inode);
    PromotedForGood(s, after, w);
    if k in t.shared.fs.bodies {
      NoPartialBody(fs, size, before + after, k);
    }
  }

  /** Admission and eviction agree: the weight of every hit handler opened on a promoted body is the size reported
      when it was admitted, exactly when no failed write left bytes behind (otherwise the weight is larger). */
  lemma {:induction false} EvictionWeight(fs: FS, size: int, acts: seq<Action>, id: nat, w: nat)
    requires Bootable(fs)
    requires var s := Run(Boot(fs, size), acts);
      && id in s.lookups && HasHit(s.lookups[id].stage) && s.lookups[id].body.Opened?
      && NoCopies(Boot(fs, size), acts, s.lookups[id].key)
      && w in s.writers && s.writers[w].stage.Closed? && s.writers[w].stage.result.Created?
      && s.lookups[id].key == s.writers[w].key && s.lookups[id].body.inode == s.writers[w].inode
    ensures var s := Run(Boot(fs, size), acts);
      var weight, created := s.lookups[id].stage.hit.totalLen, s.writers[w].stage.result.size;
      weight >= created && (weight == created <==> !s.writers[w].torn)
  {
    var s := Run(Boot(fs, size), acts);
    RunSafe(fs, size, acts, s.writers[w].key);
    assert LookupGood(s, s.lookups[id]);
    assert WriterGood(s.shared.fs, w, s.writers[w]);
    assert WriterOk(s.shared.fs, w, s.writers[w]);
  }
}
