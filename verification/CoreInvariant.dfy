/** What every step of every run keeps, whatever fails: the file system stays well formed, and tmp files are
    private. */
module CoreInvariant {
  import opened Basics
  import opened FileSystem
  import opened HitSpec
  import opened CacheMachine

  /** Stages in which the handler's tmp file must exist. */
  predicate OwnsTmp(stage: WriterStage) {
    stage.Open? || stage.FinishDir? || stage.Promote? || stage.CopyOpening? || stage.CopyCreating?
    || stage.Copying? || stage.CopyCleaning?
  }

  /** Stages before the tmp file is created. */
  predicate Early(stage: WriterStage) {
    stage.EnsureDir? || stage.EnsureParent? || stage.CreatingTmp?
  }

  /** Stages reached only after the body was put in place, or after the handler gave up. */
  predicate Placed(stage: WriterStage) {
    stage.PuttingMeta? || stage.PuttingHdr? || stage.CountingInsert? || stage.CountingSize?
    || stage.Dropping? || stage.Closed?
  }

  /** The inode holds the written chunks, and more than those exactly when a failed write left bytes behind. */
  predicate HoldsChunks(content: Bytes, w: Writer) {
    if w.torn then |content| > w.written else content == Flatten(w.chunks)
  }

  /** Stages before the meta write. */
  predicate BeforeSmall(stage: WriterStage) {
    OwnsTmp(stage) || Early(stage) || stage.PuttingMeta?
  }

  /** Stages reached only with both small files written. */
  predicate AfterSmall(stage: WriterStage) {
    stage.CountingInsert? || stage.CountingSize?
    || (stage.Dropping? && stage.pending.Created?) || (stage.Closed? && stage.result.Created?)
  }

  /** What the meta and hdr writes left, so far: the one comes before the other and is complete by then. */
  predicate LeftOk(w: Writer) {
    && (BeforeSmall(w.stage) ==> w.metaLeft == None)
    && (BeforeSmall(w.stage) || w.stage.PuttingHdr? ==> w.hdrLeft == None)
    && (w.stage.PuttingHdr? || AfterSmall(w.stage) || w.hdrLeft.Some? ==> w.metaLeft == Some(w.meta.internal))
    && (AfterSmall(w.stage) ==> w.hdrLeft == Some(w.meta.header))
    && (w.metaLeft.Some? ==> w.metaLeft.value <= w.meta.internal)
    && (w.hdrLeft.Some? ==> w.hdrLeft.value <= w.meta.header)
  }

  /** The same for a meta update. */
  predicate UpdateOk(u: Update) {
    && (u.stage.Checking? || u.stage.UpdatingMeta? ==> u.metaLeft == None)
    && (u.stage.Checking? || u.stage.UpdatingMeta? || u.stage.UpdatingHdr? ==> u.hdrLeft == None)
    && (u.stage.UpdatingHdr? || u.hdrLeft.Some? ==> u.metaLeft == Some(u.meta.internal))
    && (u.stage == UpdateDone(Updated(true)) ==>
          u.metaLeft == Some(u.meta.internal) && u.hdrLeft == Some(u.meta.header))
    && (u.metaLeft.Some? ==> u.metaLeft.value <= u.meta.internal)
    && (u.hdrLeft.Some? ==> u.hdrLeft.value <= u.meta.header)
  }

  ghost predicate WriterOk(fs: FS, id: nat, w: Writer) {
    && w.written == |Flatten(w.chunks)|
    && (OwnsTmp(w.stage) ==> id in fs.tmps)
    && (id in fs.tmps ==>
          && fs.tmps[id] == Tmp(w.key, w.inode)
          && !Early(w.stage) && !w.promoted
          && (w.stage.Closed? ==> w.leaked)
          && HoldsChunks(Content(fs, w.inode), w))
    && (w.promoted ==> Placed(w.stage))
    && (w.stage.Copying? ==> IsBody(fs, w.stage.to, w.key))
    && (Early(w.stage) ==> w.chunks == [] && !w.torn)
  }

  ghost predicate LookupOk(fs: FS, l: Lookup) {
    l.body.Opened? ==> IsBody(fs, l.body.inode, l.key)
  }

  ghost predicate Core(s: State) {
    && WellFormed(s.shared.fs)
    && (forall id :: id in s.writers ==> WriterOk(s.shared.fs, id, s.writers[id]))
    && (forall id :: id in s.writers ==> LeftOk(s.writers[id]))
    && (forall id :: id in s.updates ==> UpdateOk(s.updates[id]))
    && (forall id :: id in s.lookups ==> LookupOk(s.shared.fs, s.lookups[id]))
  }

  /** A change of the file system that leaves alone every tmp file but the one of `who`, and every inode that has
      become a body remains one. */
  ghost predicate Spares(fs: FS, after: FS, who: int) {
    && |fs.inodes| <= |after.inodes|
    && (forall i :: 0 <= i < |fs.inodes| && fs.inodes[i].role.BodyFile? ==> after.inodes[i].role == fs.inodes[i].role)
    && (forall t :: t in after.tmps && t != who ==> t in fs.tmps)
    && (forall t :: t in fs.tmps && t != who ==>
          t in after.tmps && after.tmps[t] == fs.tmps[t]
          && Content(after, fs.tmps[t].inode) == Content(fs, fs.tmps[t].inode))
  }

  lemma RenameSpares(fs: FS, t: nat)
    requires WellFormed(fs) && t in fs.tmps
    ensures WellFormed(Rename(fs, t)) && Spares(fs, Rename(fs, t), t)
  {
  }

  lemma WriteSpares(fs: FS, t: nat, content: Bytes)
    requires WellFormed(fs) && t in fs.tmps
    ensures var after := SetContent(fs, fs.tmps[t].inode, content);
      WellFormed(after) && Spares(fs, after, t) && Content(after, fs.tmps[t].inode) == content
  {
  }

  lemma CreateBodySpares(fs: FS, k: Key, t: nat)
    requires WellFormed(fs) && k in fs.dirs
    ensures var after := CreateBody(fs, k, t);
      WellFormed(after) && Spares(fs, after, -1) && IsBody(after, after.bodies[k], k)
  {
    if k in fs.bodies {
      OverwriteSpares(fs, fs.bodies[k], k, []);
    }
  }

  lemma OverwriteSpares(fs: FS, inode: nat, k: Key, content: Bytes)
    requires WellFormed(fs) && IsBody(fs, inode, k)
    ensures var after := SetContent(fs, inode, content);
      WellFormed(after) && Spares(fs, after, -1) && IsBody(after, inode, k)
  {
  }

  lemma SmallFilesSpare(fs: FS, k: Key, data: Bytes, from: Source)
    requires WellFormed(fs) && k in fs.dirs
    ensures WellFormed(PutMeta(fs, k, data, from)) && Spares(fs, PutMeta(fs, k, data, from), -1)
    ensures WellFormed(PutHdr(fs, k, data, from)) && Spares(fs, PutHdr(fs, k, data, from), -1)
  {
  }

  lemma DirsSpare(fs: FS, k: Key)
    requires WellFormed(fs)
    ensures WellFormed(MakeDir(fs, k)) && Spares(fs, MakeDir(fs, k), -1)
    ensures WellFormed(RemoveDir(fs, k)) && Spares(fs, RemoveDir(fs, k), -1)
  {
  }

  /** A writer relies on nothing that others change. */
  lemma WriterFrame(fs: FS, after: FS, id: nat, w: Writer, who: int)
    requires WriterOk(fs, id, w) && Spares(fs, after, who) && who != id
    ensures WriterOk(after, id, w)
  {
  }

  /** Moving on without touching tmp files or inodes. */
  lemma Advance(fs: FS, id: nat, w: Writer, v: Writer)
    requires WriterOk(fs, id, w)
    requires v == w.(stage := v.stage, metaLeft := v.metaLeft, hdrLeft := v.hdrLeft, credited := v.credited)
    requires (OwnsTmp(v.stage) ==> OwnsTmp(w.stage)) && (Early(v.stage) ==> Early(w.stage))
    requires (Placed(w.stage) ==> Placed(v.stage)) && !v.stage.Copying? && !v.stage.Closed?
    ensures WriterOk(fs, id, v)
  {
  }

  ghost predicate WriterMoveOk(sh: Shared, id: nat, w: Writer, after: Shared, v: Writer) {
    WellFormed(after.fs) && Spares(sh.fs, after.fs, id) && WriterOk(after.fs, id, v) && v.key == w.key
  }

  lemma MoveCreateOk(sh: Shared, id: nat, w: Writer, ok: bool)
    requires WellFormed(sh.fs) && WriterOk(sh.fs, id, w) && w.stage.CreatingTmp?
    ensures var (after, v) := MoveCreate(sh, id, w, ok); WriterMoveOk(sh, id, w, after, v)
  {
  }

  lemma MoveWriteOk(sh: Shared, id: nat, w: Writer, data: Bytes, io: WriteIO)
    requires WellFormed(sh.fs) && WriterOk(sh.fs, id, w) && w.stage.Open?
    ensures var (after, v) := MoveWrite(sh, id, w, data, io); WriterMoveOk(sh, id, w, after, v)
  {
    FlattenSnoc(w.chunks, data);
    var sofar := Content(sh.fs, w.inode);
    match io
    case OpenFails =>
    case WriteWorks => WriteSpares(sh.fs, id, sofar + data);
    case WriteFails(partial) => WriteSpares(sh.fs, id, sofar + data[..Min(partial, |data|)]);
  }

  lemma MoveRenameOk(sh: Shared, id: nat, w: Writer, ok: bool)
    requires WellFormed(sh.fs) && WriterOk(sh.fs, id, w) && w.stage.Promote?
    ensures var (after, v) := MoveRename(sh, id, w, ok); WriterMoveOk(sh, id, w, after, v)
  {
    RenameSpares(sh.fs, id);
  }

  lemma MoveCopyCreateOk(sh: Shared, id: nat, w: Writer, ok: bool)
    requires WellFormed(sh.fs) && WriterOk(sh.fs, id, w) && w.stage.CopyCreating?
    ensures var (after, v) := MoveCopyCreate(sh, id, w, ok); WriterMoveOk(sh, id, w, after, v)
  {
    if ok && w.key in sh.fs.dirs {
      CreateBodySpares(sh.fs, w.key, id);
    }
  }

  lemma MoveCopyChunkOk(sh: Shared, id: nat, w: Writer, size: nat)
    requires WellFormed(sh.fs) && WriterOk(sh.fs, id, w) && w.stage.Copying?
    ensures var (after, v) := MoveCopyChunk(sh, w, size); WriterMoveOk(sh, id, w, after, v)
  {
    hide WellFormed, WriteAt, Flatten;
    var to, offset := w.stage.to, w.stage.offset;
    var from := Content(sh.fs, w.inode);
    NoStepOk(sh, id, w);
    if offset <= |from| {
      var n := Min(size, |from| - offset);
      var content := WriteAt(Content(sh.fs, to), offset, from[offset..offset + n]);
      OverwriteSpares(sh.fs, to, w.key, content);
      SparesLoosen(sh.fs, SetContent(sh.fs, to, content), id);
      WriterFrame(sh.fs, SetContent(sh.fs, to, content), id, w, -1);
    }
  }

  lemma SparesLoosen(fs: FS, after: FS, who: nat)
    ensures Spares(fs, fs, who)
    ensures Spares(fs, after, -1) ==> Spares(fs, after, who)
  {
  }

  lemma MoveMetaOk(sh: Shared, id: nat, w: Writer, io: SmallIO)
    requires WellFormed(sh.fs) && WriterOk(sh.fs, id, w) && w.stage.PuttingMeta?
    ensures var (after, v) := MoveMeta(sh, id, w, io); WriterMoveOk(sh, id, w, after, v)
  {
    hide WellFormed, Spares, WriterOk;
    var (after, v) := MoveMeta(sh, id, w, io);
    SparesLoosen(sh.fs, after.fs, id);
    if !io.Refused? && w.key in sh.fs.dirs {
      SmallFilesSpare(sh.fs, w.key, SmallLeft(w.meta.internal, io), ByWriter(id));
      WriterFrame(sh.fs, after.fs, id, w, -1);
    }
    Advance(after.fs, id, w, v);
  }

  lemma MoveHdrOk(sh: Shared, id: nat, w: Writer, io: SmallIO)
    requires WellFormed(sh.fs) && WriterOk(sh.fs, id, w) && w.stage.PuttingHdr?
    ensures var (after, v) := MoveHdr(sh, id, w, io); WriterMoveOk(sh, id, w, after, v)
  {
    hide WellFormed, Spares, WriterOk;
    var (after, v) := MoveHdr(sh, id, w, io);
    SparesLoosen(sh.fs, after.fs, id);
    if !io.Refused? && w.key in sh.fs.dirs {
      SmallFilesSpare(sh.fs, w.key, SmallLeft(w.meta.header, io), ByWriter(id));
      WriterFrame(sh.fs, after.fs, id, w, -1);
    }
    Advance(after.fs, id, w, v);
  }

  /** `create_dir_all`, wherever it occurs, has no effect but on directories. */
  lemma MakeDirsFree(sh: Shared, w: Writer, ok: bool)
    ensures var (after, v) := MoveMakeDirs(sh, w, ok);
      && (after == sh || after == sh.(fs := MakeDir(sh.fs, w.key)))
      && v == w.(stage := v.stage)
      && ((v == w && after == sh) || (Early(w.stage) && Early(v.stage)) || (w.stage.FinishDir? && v.stage.Promote?))
  {
  }

  lemma MoveMakeDirsOk(sh: Shared, id: nat, w: Writer, ok: bool)
    requires WellFormed(sh.fs) && WriterOk(sh.fs, id, w)
    ensures var (after, v) := MoveMakeDirs(sh, w, ok); WriterMoveOk(sh, id, w, after, v)
  {
    hide WellFormed, Spares, WriterOk, MakeDir, MoveMakeDirs;
    var (after, v) := MoveMakeDirs(sh, w, ok);
    MakeDirsFree(sh, w, ok);
    DirsSpare(sh.fs, w.key);
    SparesLoosen(sh.fs, MakeDir(sh.fs, w.key), id);
    WriterFrame(sh.fs, MakeDir(sh.fs, w.key), id, w, -1);
    if v != w {
      Advance(after.fs, id, w, v);
    }
  }

  /** Steps that change neither disk nor ownership. */
  lemma MoveQuietOk(sh: Shared, id: nat, w: Writer, a: WriterAction)
    requires WellFormed(sh.fs) && WriterOk(sh.fs, id, w)
    requires a.CopyOpen? || a.CopyEnd? || a.Finish? || a.CountInsert? || a.CountSize? || a.Abandon?
    ensures var (after, v) := MoveWriter(sh, id, w, a); WriterMoveOk(sh, id, w, after, v)
  {
    hide WellFormed, Spares, WriterOk;
    SparesLoosen(sh.fs, sh.fs, id);
    var (after, v) := MoveWriter(sh, id, w, a);
    if v != w {
      Advance(sh.fs, id, w, v);
    }
  }

  lemma MoveDropOk(sh: Shared, id: nat, w: Writer, ok: bool)
    requires WellFormed(sh.fs) && WriterOk(sh.fs, id, w)
    ensures w.stage.CopyCleaning? ==> var (after, v) := MoveCopyClean(sh, id, w, ok); WriterMoveOk(sh, id, w, after, v)
    ensures w.stage.Dropping? ==> var (after, v) := MoveDrop(sh, id, w, ok); WriterMoveOk(sh, id, w, after, v)
  {
  }

  lemma NoStepOk(sh: Shared, id: nat, w: Writer)
    requires WellFormed(sh.fs) && WriterOk(sh.fs, id, w)
    ensures WriterMoveOk(sh, id, w, sh, w)
  {
  }

  /** A writer's step touches no tmp file but its own, and keeps what the writer relies on. */
  lemma MoveWriterOk(sh: Shared, id: nat, w: Writer, a: WriterAction)
    requires WellFormed(sh.fs) && WriterOk(sh.fs, id, w)
    ensures var (after, v) := MoveWriter(sh, id, w, a); WriterMoveOk(sh, id, w, after, v)
  {
    hide WellFormed, Spares, WriterOk, WriterMoveOk, MoveMakeDirs, MoveCreate, MoveWrite, MoveRename, MoveCopyCreate;
    hide MoveCopyChunk, MoveCopyClean, MoveMeta, MoveHdr, MoveDrop, MoveCopyOpen, MoveCopyEnd, MoveCountInsert;
    hide MoveCountSize;
    NoStepOk(sh, id, w);
    match a
    case Create(ok) => if w.stage.CreatingTmp? { MoveCreateOk(sh, id, w, ok); }
    case Write(data, io) => if w.stage.Open? { MoveWriteOk(sh, id, w, data, io); }
    case RenameTmp(ok) => if w.stage.Promote? { MoveRenameOk(sh, id, w, ok); }
    case CopyCreate(ok) => if w.stage.CopyCreating? { MoveCopyCreateOk(sh, id, w, ok); }
    case CopyChunk(size) => if w.stage.Copying? { MoveCopyChunkOk(sh, id, w, size); }
    case CopyClean(ok) => if w.stage.CopyCleaning? { MoveDropOk(sh, id, w, ok); }
    case MakeDirs(ok) => MoveMakeDirsOk(sh, id, w, ok);
    case WriteMeta(io) => if w.stage.PuttingMeta? { MoveMetaOk(sh, id, w, io); }
    case WriteHdr(io) => if w.stage.PuttingHdr? { MoveHdrOk(sh, id, w, io); }
    case Drop(ok) => if w.stage.Dropping? { MoveDropOk(sh, id, w, ok); }
    case Begin(_, _, _) =>
    case _ => MoveQuietOk(sh, id, w, a);
  }

  lemma SmallLeftOk(sh: Shared, id: nat, w: Writer, io: SmallIO)
    requires LeftOk(w)
    ensures w.stage.PuttingMeta? ==> LeftOk(MoveMeta(sh, id, w, io).1)
    ensures w.stage.PuttingHdr? ==> LeftOk(MoveHdr(sh, id, w, io).1)
  {
  }

  /** The other steps leave nothing in small files. */
  predicate NoSmallStep(w: Writer, v: Writer) {
    && v.meta == w.meta && v.metaLeft == w.metaLeft && v.hdrLeft == w.hdrLeft
    && (BeforeSmall(v.stage) ==> BeforeSmall(w.stage)) && (v.stage.PuttingHdr? ==> w.stage.PuttingHdr?)
    && (AfterSmall(v.stage) ==> AfterSmall(w.stage))
  }

  lemma StageLeftOk(w: Writer, v: Writer)
    requires LeftOk(w) && NoSmallStep(w, v)
    ensures LeftOk(v)
  {
  }

  lemma FileStepLeft(sh: Shared, id: nat, w: Writer, a: WriterAction)
    requires a.MakeDirs? || a.Create? || a.Write? || a.RenameTmp? || a.Drop?
    ensures NoSmallStep(w, MoveWriter(sh, id, w, a).1)
  {
    hide MoveMakeDirs, CreateTmp, SetContent, Rename, RemoveTmp, Content, BodyLen;
    if a.MakeDirs? { MakeDirsFree(sh, w, a.ok); }
  }

  lemma CopyStepLeft(sh: Shared, id: nat, w: Writer, a: WriterAction)
    requires a.CopyOpen? || a.CopyCreate? || a.CopyChunk? || a.CopyEnd? || a.CopyClean?
    ensures NoSmallStep(w, MoveWriter(sh, id, w, a).1)
  {
    hide WriteAt;
  }

  lemma CountStepLeft(sh: Shared, id: nat, w: Writer, a: WriterAction)
    requires a.Begin? || a.Finish? || a.CountInsert? || a.CountSize? || a.Abandon?
    ensures NoSmallStep(w, MoveWriter(sh, id, w, a).1)
  {
  }

  lemma MoveLeftOk(sh: Shared, id: nat, w: Writer, a: WriterAction)
    requires LeftOk(w)
    ensures LeftOk(MoveWriter(sh, id, w, a).1)
  {
    hide LeftOk, NoSmallStep;
    if a.WriteMeta? || a.WriteHdr? {
      SmallLeftOk(sh, id, w, a.put);
    } else {
      hide MoveWriter;
      if a.CopyOpen? || a.CopyCreate? || a.CopyChunk? || a.CopyEnd? || a.CopyClean? {
        CopyStepLeft(sh, id, w, a);
      } else if a.MakeDirs? || a.Create? || a.Write? || a.RenameTmp? || a.Drop? {
        FileStepLeft(sh, id, w, a);
      } else {
        CountStepLeft(sh, id, w, a);
      }
      StageLeftOk(w, MoveWriter(sh, id, w, a).1);
    }
  }

  lemma MovePurgeOk(sh: Shared, p: Purge, a: PurgeAction)
    requires WellFormed(sh.fs)
    ensures var after := MovePurge(sh, p, a).0; WellFormed(after.fs) && Spares(sh.fs, after.fs, -1)
  {
  }

  lemma MoveUpdateOk(sh: Shared, id: nat, u: Update, a: UpdateAction)
    requires WellFormed(sh.fs)
    ensures var after := MoveUpdate(sh, id, u, a).0; WellFormed(after.fs) && Spares(sh.fs, after.fs, -1)
  {
  }

  /** Everybody else keeps what they had. */
  lemma OthersKeep(s: State, fs: FS, who: int)
    requires Core(s) && Spares(s.shared.fs, fs, who)
    ensures forall j :: j in s.writers && j != who ==> WriterOk(fs, j, s.writers[j])
    ensures forall j :: j in s.lookups ==> LookupOk(fs, s.lookups[j])
  {
  }

  lemma NewWriterOk(fs: FS, id: nat, key: Key, meta: CacheMeta, serialised: bool)
    requires id !in fs.tmps
    ensures var w := NewWriter(key, meta, serialised); WriterOk(fs, id, w) && LeftOk(w)
  {
  }

  lemma StepWriterCore(s: State, id: nat, a: WriterAction)
    requires Core(s)
    ensures Core(StepWriter(s, id, a))
  {
    hide WellFormed, WriterOk, LeftOk, UpdateOk, LookupOk, MoveWriter, Spares, NewWriter;
    if id in s.writers {
      MoveLeftOk(s.shared, id, s.writers[id], a);
      MoveWriterOk(s.shared, id, s.writers[id], a);
      OthersKeep(s, MoveWriter(s.shared, id, s.writers[id], a).0.fs, id);
    } else if a.Begin? && id !in s.shared.fs.tmps {
      NewWriterOk(s.shared.fs, id, a.key, a.meta, a.serialised);
    }
  }

  lemma StepPurgeCore(s: State, id: nat, a: PurgeAction)
    requires Core(s)
    ensures Core(StepPurge(s, id, a))
  {
    hide WellFormed, WriterOk, LeftOk, UpdateOk, LookupOk, MovePurge, Spares;
    if id in s.purges {
      MovePurgeOk(s.shared, s.purges[id], a);
      OthersKeep(s, MovePurge(s.shared, s.purges[id], a).0.fs, -1);
    }
  }

  lemma StepUpdateCore(s: State, id: nat, a: UpdateAction)
    requires Core(s)
    ensures Core(StepUpdate(s, id, a))
  {
    hide WellFormed, WriterOk, LeftOk, LookupOk, UpdateOk, MoveUpdate, Spares;
    if id in s.updates {
      MoveUpdateOk(s.shared, id, s.updates[id], a);
      UpdateStaysOk(s.shared, id, s.updates[id], a);
      OthersKeep(s, MoveUpdate(s.shared, id, s.updates[id], a).0.fs, -1);
    } else if a.BeginUpdate? {
      NewUpdateOk(a.key, a.meta);
    }
  }

  lemma UpdateStaysOk(sh: Shared, id: nat, u: Update, a: UpdateAction)
    requires UpdateOk(u)
    ensures UpdateOk(MoveUpdate(sh, id, u, a).1)
  {
  }

  lemma NewUpdateOk(key: Key, meta: CacheMeta)
    ensures UpdateOk(NewUpdate(key, meta))
  {
  }

  lemma LookupStaysOk(sh: Shared, l: Lookup, a: LookupAction)
    requires WellFormed(sh.fs) && LookupOk(sh.fs, l)
    ensures LookupOk(sh.fs, MoveLookup(sh, l, a).1)
  {
  }

  lemma NewLookupOk(fs: FS, key: Key)
    ensures LookupOk(fs, NewLookup(key))
  {
  }

  lemma StepLookupCore(s: State, id: nat, a: LookupAction)
    requires Core(s)
    ensures Core(StepLookup(s, id, a))
  {
    hide WellFormed, WriterOk, LeftOk, UpdateOk, LookupOk, MoveLookup;
    if id in s.lookups {
      LookupStaysOk(s.shared, s.lookups[id], a);
    } else if a.BeginLookup? {
      NewLookupOk(s.shared.fs, a.key);
    }
  }

  lemma StepCore(s: State, a: Action)
    requires Core(s)
    ensures Core(Step(s, a))
  {
    hide Core, StepWriter, StepPurge, StepUpdate, StepLookup;
    match a
    case OfWriter(id, w) => StepWriterCore(s, id, w);
    case OfPurge(id, p) => StepPurgeCore(s, id, p);
    case OfUpdate(id, u) => StepUpdateCore(s, id, u);
    case OfLookup(id, l) => StepLookupCore(s, id, l);
  }

  lemma {:induction false} RunCore(s: State, acts: seq<Action>)
    requires Core(s)
    ensures Core(Run(s, acts))
  {
    if acts != [] {
      RunCore(s, acts[..|acts| - 1]);
      StepCore(Run(s, acts[..|acts| - 1]), acts[|acts| - 1]);
    }
  }

  lemma BootCore(fs: FS, size: int)
    requires Bootable(fs)
    ensures Core(Boot(fs, size))
  {
  }

  // - - - the life of tmp files

  ghost predicate Accounted(s: State, fs: FS) {
    s.start == fs && forall t :: t in s.shared.fs.tmps ==> t in fs.tmps || t in s.writers
  }

  lemma {:induction false} RunAccounted(fs: FS, size: int, acts: seq<Action>)
    requires Bootable(fs)
    ensures Core(Run(Boot(fs, size), acts)) && Accounted(Run(Boot(fs, size), acts), fs)
  {
    hide WellFormed, WriterOk, LeftOk, UpdateOk, LookupOk, MoveWriter, MovePurge, MoveUpdate;
    RunCore(Boot(fs, size), acts);
    if acts != [] {
      var rest := acts[..|acts| - 1];
      RunAccounted(fs, size, rest);
      var s, a := Run(Boot(fs, size), rest), acts[|acts| - 1];
      match a
      case OfWriter(id, w) => if id in s.writers { MoveWriterOk(s.shared, id, s.writers[id], w); }
      case OfPurge(id, p) => if id in s.purges { MovePurgeOk(s.shared, s.purges[id], p); }
      case OfUpdate(id, u) => if id in s.updates { MoveUpdateOk(s.shared, id, s.updates[id], u); }
      case OfLookup(id, l) =>
    }
  }

  /** A handler that has not yet placed its body owns one tmp file, in an existing directory; no other tmp file and
      no body shares its inode. A tmp file that was not there at start belongs to a handler, and to one that is
      closed only if the removal at its end failed. */
  lemma {:induction false} TmpLifecycle(fs: FS, size: int, acts: seq<Action>)
    requires Bootable(fs)
    ensures var s := Run(Boot(fs, size), acts);
      var now := s.shared.fs;
      && (forall id :: id in s.writers && OwnsTmp(s.writers[id].stage) ==>
            var w := s.writers[id];
            && id in now.tmps && now.tmps[id] == Tmp(w.key, w.inode) && w.key in now.dirs
            && (forall t :: t in now.tmps && t != id ==> now.tmps[t].inode != w.inode)
            && (forall k :: k in now.bodies ==> now.bodies[k] != w.inode))
      && (forall t :: t in now.tmps && t !in fs.tmps ==>
            t in s.writers && !Early(s.writers[t].stage) && (s.writers[t].stage.Closed? ==> s.writers[t].leaked))
  {
    hide LeftOk, UpdateOk, LookupOk, HoldsChunks, Run;
    RunAccounted(fs, size, acts);
    var s := Run(Boot(fs, size), acts);
    var now := s.shared.fs;
    forall id | id in s.writers && OwnsTmp(s.writers[id].stage)
      ensures id in now.tmps && now.tmps[id] == Tmp(s.writers[id].key, s.writers[id].inode)
    {
      assert WriterOk(now, id, s.writers[id]);
    }
    forall t | t in now.tmps && t !in fs.tmps
      ensures !Early(s.writers[t].stage) && (s.writers[t].stage.Closed? ==> s.writers[t].leaked)
    {
      assert WriterOk(now, t, s.writers[t]);
    }
  }

  /** The tmp file and the directory that `rename` needs are there, whatever purges ran in between: rename can
      only fail if the operating system makes it fail. */
  lemma {:induction false} RenameFindsItsFiles(fs: FS, size: int, acts: seq<Action>, id: nat)
    requires Bootable(fs)
    requires var s := Run(Boot(fs, size), acts); id in s.writers && s.writers[id].stage == Promote
    ensures var s := Run(Boot(fs, size), acts + [OfWriter(id, RenameTmp(true))]);
      && s.writers[id].promoted && s.writers[id].stage == PuttingMeta
      && s.writers[id].key in s.shared.fs.bodies && s.shared.fs.bodies[s.writers[id].key] == s.writers[id].inode
  {
    TmpLifecycle(fs, size, acts);
    RunSnoc(Boot(fs, size), acts, OfWriter(id, RenameTmp(true)));
  }
}
