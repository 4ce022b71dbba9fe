/** When a finish succeeds, and what it leaves. Its steps may be interleaved with any number of other calls. If none of
    them touches the files of its key, it succeeds unless one of its own operations is failed, and leaves exactly what
    it reports. Whatever they do, it succeeds exactly if its directory is there when it writes a small file. */
module UndisturbedFinish {
  import opened Basics
  import opened FileSystem
  import opened HitSpec
  import opened CacheMachine
  import opened CoreInvariant
  import opened KeyIsolation
  import opened ReaderIsolation
  import opened CallOutcomes
  import opened LookupResults
  import opened LookupOverlap

  predicate ReportsCreated(stage: WriterStage) {
    (stage.Dropping? && stage.pending.Created?) || (stage.Closed? && stage.result.Created?)
  }

  /** Stages after the hdr write, after the meta write, and after the body was placed. */
  predicate HdrDone(stage: WriterStage) {
    stage.CountingInsert? || stage.CountingSize? || ReportsCreated(stage)
  }

  predicate MetaDone(stage: WriterStage) {
    stage.PuttingHdr? || HdrDone(stage)
  }

  predicate BodyDone(stage: WriterStage) {
    stage.CopyCleaning? || stage.PuttingMeta? || MetaDone(stage)
  }

  /** What the handler has done so far is on the disk. */
  ghost predicate InPlace(fs: FS, w: Writer) {
    && (w.stage.Copying? ==>
          && w.key in fs.bodies && fs.bodies[w.key] == w.stage.to
          && w.stage.offset <= |Content(fs, w.inode)|
          && Content(fs, w.stage.to) == Content(fs, w.inode)[..w.stage.offset])
    && (BodyDone(w.stage) ==> w.key in fs.bodies && HoldsChunks(Content(fs, fs.bodies[w.key]), w))
    && (MetaDone(w.stage) ==> w.key in fs.metas && fs.metas[w.key].data == w.meta.internal)
    && (HdrDone(w.stage) ==> w.key in fs.hdrs && fs.hdrs[w.key].data == w.meta.header)
    && (w.stage.Dropping? && w.stage.pending.Created? ==> w.stage.pending.size == w.written)
    && (w.stage.Closed? && w.stage.result.Created? ==> w.stage.result.size == w.written)
  }

  /** A copy that goes on where it stopped. */
  lemma CopyGoesOn(whole: Bytes, offset: nat, n: nat)
    requires offset + n <= |whole|
    ensures WriteAt(whole[..offset], offset, whole[offset..offset + n]) == whole[..offset + n]
  {
  }

  lemma CopyChunkInPlace(sh: Shared, id: nat, w: Writer, size: nat)
    requires WellFormed(sh.fs) && WriterOk(sh.fs, id, w) && InPlace(sh.fs, w) && w.stage.Copying?
    ensures var (after, v) := MoveCopyChunk(sh, w, size); InPlace(after.fs, v)
  {
    var whole, offset := Content(sh.fs, w.inode), w.stage.offset;
    CopyGoesOn(whole, offset, Min(size, |whole| - offset));
  }

  /** Nothing is claimed before the body is worked on, or after the handler gave up. */
  lemma NothingClaimed(fs: FS, w: Writer)
    requires !w.stage.Copying? && !BodyDone(w.stage)
    ensures InPlace(fs, w)
  {
  }

  lemma RenameInPlace(sh: Shared, id: nat, w: Writer, ok: bool)
    requires WellFormed(sh.fs) && WriterOk(sh.fs, id, w) && w.stage.Promote?
    ensures var (after, v) := MoveRename(sh, id, w, ok); InPlace(after.fs, v)
  {
  }

  lemma TruncateInPlace(sh: Shared, id: nat, w: Writer, ok: bool)
    requires WellFormed(sh.fs) && WriterOk(sh.fs, id, w) && w.stage.CopyCreating?
    ensures var (after, v) := MoveCopyCreate(sh, id, w, ok); InPlace(after.fs, v)
  {
  }

  lemma CopiedInPlace(sh: Shared, id: nat, w: Writer, ok: bool)
    requires WriterOk(sh.fs, id, w) && InPlace(sh.fs, w)
    ensures w.stage.Copying? ==> var (after, v) := MoveCopyEnd(sh, w, ok); InPlace(after.fs, v)
    ensures w.stage.CopyCleaning? ==> var (after, v) := MoveCopyClean(sh, id, w, ok); InPlace(after.fs, v)
  {
  }

  lemma WrittenInPlace(sh: Shared, id: nat, w: Writer, io: SmallIO)
    requires InPlace(sh.fs, w)
    ensures w.stage.PuttingMeta? ==> var (after, v) := MoveMeta(sh, id, w, io); InPlace(after.fs, v)
    ensures w.stage.PuttingHdr? ==> var (after, v) := MoveHdr(sh, id, w, io); InPlace(after.fs, v)
  {
    hide Flatten;
  }

  lemma CountedInPlace(sh: Shared, id: nat, w: Writer, ok: bool)
    requires InPlace(sh.fs, w)
    ensures w.stage.CountingInsert? ==> var (after, v) := MoveCountInsert(sh, w); InPlace(after.fs, v)
    ensures w.stage.CountingSize? ==> var (after, v) := MoveCountSize(sh, w); InPlace(after.fs, v)
    ensures w.stage.Dropping? ==> var (after, v) := MoveDrop(sh, id, w, ok); InPlace(after.fs, v)
  {
  }

  /** Steps before the body is worked on, and the abandoning of the handler. */
  lemma EarlyStep(sh: Shared, id: nat, w: Writer, a: WriterAction)
    requires InPlace(sh.fs, w)
    requires a.Begin? || a.MakeDirs? || a.Create? || a.Write? || a.Finish? || a.CopyOpen? || a.Abandon?
    ensures var (after, v) := MoveWriter(sh, id, w, a); InPlace(after.fs, v)
  {
    hide InPlace, MoveMakeDirs, SetContent, CreateTmp, MakeDir, BodyDone;
    BodyDoneStages();
    var (after, v) := MoveWriter(sh, id, w, a);
    if !v.stage.Copying? && !BodyDone(v.stage) {
      NothingClaimed(after.fs, v);
    }
    match a
    case MakeDirs(ok) => MakeDirsFree(sh, w, ok);
    case Write(_, _) =>
    case Create(_) =>
    case Abandon =>
    case CopyOpen(_) =>
    case Finish =>
    case Begin(_, _, _) =>
  }

  lemma BodyDoneStages()
    ensures !BodyDone(Open) && !BodyDone(FinishDir) && !BodyDone(Promote) && !BodyDone(CopyOpening)
    ensures !BodyDone(CopyCreating) && !BodyDone(EnsureDir) && !BodyDone(EnsureParent) && !BodyDone(CreatingTmp)
    ensures !BodyDone(Closed(Failed)) && !BodyDone(Dropping(Failed)) && !BodyDone(Dropping(Abandoned))
  {
  }

  lemma OwnStep(sh: Shared, id: nat, w: Writer, a: WriterAction)
    requires WellFormed(sh.fs) && WriterOk(sh.fs, id, w) && InPlace(sh.fs, w)
    ensures var (after, v) := MoveWriter(sh, id, w, a); InPlace(after.fs, v)
  {
    hide InPlace, WellFormed, WriterOk, MoveCopyChunk, MoveCopyCreate, MoveCopyEnd, MoveCopyClean, MoveRename;
    hide MoveMeta, MoveHdr, MoveDrop, MoveCountInsert, MoveCountSize;
    match a
    case CopyChunk(size) => if w.stage.Copying? { CopyChunkInPlace(sh, id, w, size); }
    case RenameTmp(ok) => if w.stage.Promote? { RenameInPlace(sh, id, w, ok); }
    case CopyCreate(ok) => if w.stage.CopyCreating? { TruncateInPlace(sh, id, w, ok); }
    case CopyEnd(ok) => CopiedInPlace(sh, id, w, ok);
    case CopyClean(ok) => CopiedInPlace(sh, id, w, ok);
    case WriteMeta(io) => WrittenInPlace(sh, id, w, io);
    case WriteHdr(io) => WrittenInPlace(sh, id, w, io);
    case CountInsert => CountedInPlace(sh, id, w, true);
    case CountSize => CountedInPlace(sh, id, w, true);
    case Drop(ok) => CountedInPlace(sh, id, w, ok);
    case _ => EarlyStep(sh, id, w, a);
  }

  /** A handler that has its tmp file relies on nothing but that and the files of its key. */
  lemma OthersKeepInPlace(fs: FS, after: FS, id: nat, w: Writer, who: int)
    requires WriterOk(fs, id, w) && InPlace(fs, w)
    requires SameAt(w.key, fs, after) && Spares(fs, after, who) && who != id
    ensures InPlace(after, w)
  {
  }

  /** The handler's own steps, and those of calls that work on other keys. */
  ghost predicate Undisturbed(s: State, acts: seq<Action>, id: nat)
    requires id in s.writers
  {
    acts == []
    || (Undisturbed(s, acts[..|acts| - 1], id)
        && (Own(acts[|acts| - 1], id) || !Concerns(Run(s, acts[..|acts| - 1]), acts[|acts| - 1], s.writers[id].key)))
  }

  predicate Own(a: Action, id: nat) {
    a.OfWriter? && a.id == id
  }

  lemma StepSpares(s: State, a: Action, id: nat)
    requires Core(s) && id in s.writers && !Own(a, id)
    ensures id in Step(s, a).writers && Step(s, a).writers[id] == s.writers[id]
    ensures exists who: int :: who != id && Spares(s.shared.fs, Step(s, a).shared.fs, who)
  {
    hide WellFormed, WriterOk, MoveWriter, MovePurge, MoveUpdate, MoveLookup;
    assert Spares(s.shared.fs, s.shared.fs, -1);
    match a
    case OfWriter(j, x) =>
      if j in s.writers {
        MoveWriterOk(s.shared, j, s.writers[j], x);
        assert Spares(s.shared.fs, MoveWriter(s.shared, j, s.writers[j], x).0.fs, j);
      }
    case OfPurge(j, x) => if j in s.purges { MovePurgeOk(s.shared, s.purges[j], x); }
    case OfUpdate(j, x) => if j in s.updates { MoveUpdateOk(s.shared, j, s.updates[j], x); }
    case OfLookup(j, x) =>
  }

  lemma StepInPlace(s: State, a: Action, id: nat)
    requires Core(s) && id in s.writers && InPlace(s.shared.fs, s.writers[id])
    requires Own(a, id) || !Concerns(s, a, s.writers[id].key)
    ensures var t := Step(s, a);
      id in t.writers && t.writers[id].key == s.writers[id].key && InPlace(t.shared.fs, t.writers[id])
  {
    hide InPlace, WellFormed, MoveWriter, Spares, SameAt;
    assert WriterOk(s.shared.fs, id, s.writers[id]);
    if Own(a, id) {
      OwnStep(s.shared, id, s.writers[id], a.w);
      MoveWriterOk(s.shared, id, s.writers[id], a.w);
    } else {
      StepElsewhere(s, a, s.writers[id].key);
      StepSpares(s, a, id);
      var after := Step(s, a).shared.fs;
      var who: int :| who != id && Spares(s.shared.fs, after, who);
      OthersKeepInPlace(s.shared.fs, after, id, s.writers[id], who);
    }
  }

  lemma {:induction false} RunInPlace(s: State, acts: seq<Action>, id: nat)
    requires Core(s) && id in s.writers && InPlace(s.shared.fs, s.writers[id]) && Undisturbed(s, acts, id)
    ensures var t := Run(s, acts);
      Core(t) && id in t.writers && t.writers[id].key == s.writers[id].key && InPlace(t.shared.fs, t.writers[id])
  {
    hide Core, InPlace, Step, Concerns;
    if acts != [] {
      var rest := acts[..|acts| - 1];
      RunInPlace(s, rest, id);
      StepInPlace(Run(s, rest), acts[|acts| - 1], id);
      StepCore(Run(s, rest), acts[|acts| - 1]);
    }
  }

  /** A miss handler that is open in `s` and reports success after a run in which no other call worked on its key has
      left exactly what it reports: the entry of its key has its meta and the bytes it wrote. That is so however its
      steps are interleaved with other calls, whatever failed on the way, and whether it renamed or copied. */
  lemma {:induction false} FinishOnIdleKey(s: State, acts: seq<Action>, id: nat)
    requires Core(s) && id in s.writers && s.writers[id].stage.Open? && Undisturbed(s, acts, id)
    ensures id in Run(s, acts).writers
    ensures var t := Run(s, acts);
      var w := t.writers[id];
      w.stage.Closed? && w.stage.result.Created? ==>
        && w.key in OnDisk(t.shared.fs) && w.stage.result.size == |Flatten(w.chunks)|
        && OnDisk(t.shared.fs)[w.key].meta == w.meta
        && (OnDisk(t.shared.fs)[w.key].body == Flatten(w.chunks) <==> !w.torn)
  {
    NothingClaimed(s.shared.fs, s.writers[id]);
    RunInPlace(s, acts, id);
    var t := Run(s, acts);
    assert WriterOk(t.shared.fs, id, t.writers[id]);
  }

  /** What was committed is what is found. A lookup that begins once the handler has reported success returns, if it
      hits, the committed entry, unless something is put at its key while it runs. It hits unless one of its reads was
      failed or a file of its key was taken away. */
  lemma {:induction false} CommitThenLookup(s: State, acts: seq<Action>, id: nat, lid: nat, after: seq<Action>)
    requires Core(s) && id in s.writers && s.writers[id].stage.Open? && Undisturbed(s, acts, id)
    requires var t := Run(s, acts);
      && id in t.writers && t.writers[id].stage.Closed? && t.writers[id].stage.result.Created? && !t.writers[id].torn
      && lid in t.lookups && t.lookups[lid] == NewLookup(t.writers[id].key)
      && PutFree(t, after, t.writers[id].key)
    ensures lid in Run(Run(s, acts), after).lookups
    ensures var w := Run(s, acts).writers[id];
      var l := Run(Run(s, acts), after).lookups[lid];
      && (HasHit(l.stage) ==> Returned(l) == Some(Entry(w.meta, Flatten(w.chunks))))
      && (l.stage.Missed? ==> !Idle(Run(s, acts), after, w.key) || !ReadsWork(after, lid))
  {
    hide Core, InPlace, Idle, PutFree, Undisturbed, ReadsWork;
    NothingClaimed(s.shared.fs, s.writers[id]);
    RunInPlace(s, acts, id);
    FinishOnIdleKey(s, acts, id);
    LookupWithoutPuts(Run(s, acts), after, lid);
  }

  // - - - when it succeeds

  /** The steps by which a handler gives up. A failed rename is none of them, since it leads to the copy; the copy fails
      if one of its operations does, or if it ends before everything is copied. */
  predicate GivesUp(sh: Shared, w: Writer, a: WriterAction) {
    || a == CopyOpen(false) || a == CopyCreate(false) || a == CopyEnd(false)
    || (a.CopyEnd? && w.stage.Copying? && w.stage.offset != |Content(sh.fs, w.inode)|)
    || ((a.WriteMeta? || a.WriteHdr?) && !a.put.Whole?) || a.Abandon?
  }

  ghost predicate GoesThrough(s: State, acts: seq<Action>, id: nat) {
    acts == []
    || (GoesThrough(s, acts[..|acts| - 1], id)
        && var t, a := Run(s, acts[..|acts| - 1]), acts[|acts| - 1];
           !(Own(a, id) && id in t.writers && GivesUp(t.shared, t.writers[id], a.w)))
  }

  /** The handler is about to write its meta or hdr file, and the directory is gone. */
  predicate FindsNoDir(s: State, a: Action, id: nat) {
    && Own(a, id) && id in s.writers && s.writers[id].key !in s.shared.fs.dirs
    && WritesSmall(s.writers[id].stage, a.w)
  }

  ghost predicate FindsItsDir(s: State, acts: seq<Action>, id: nat) {
    acts == []
    || (FindsItsDir(s, acts[..|acts| - 1], id) && !FindsNoDir(Run(s, acts[..|acts| - 1]), acts[|acts| - 1], id))
  }

  predicate OnItsWay(stage: WriterStage) {
    stage.Open? || stage.FinishDir? || stage.Promote? || Copies(stage) || stage.PuttingMeta? || stage.PuttingHdr?
    || stage.CountingInsert? || stage.CountingSize? || ReportsCreated(stage)
  }

  predicate Copies(stage: WriterStage) {
    stage.CopyOpening? || stage.CopyCreating? || stage.Copying? || stage.CopyCleaning?
  }

  predicate GaveUp(stage: WriterStage) {
    stage == Dropping(Failed) || stage == Closed(Failed)
  }

  /** The handler goes on its way, or else has just found its directory gone. */
  predicate Follows(sh: Shared, w: Writer, a: WriterAction, v: Writer) {
    && (OnItsWay(v.stage) || GaveUp(v.stage)) && v.key == w.key
    && (OnItsWay(v.stage) <==> OnItsWay(w.stage) && !(w.key !in sh.fs.dirs && WritesSmall(w.stage, a)))
  }

  predicate WritesSmall(stage: WriterStage, a: WriterAction) {
    (a.WriteMeta? && stage.PuttingMeta?) || (a.WriteHdr? && stage.PuttingHdr?)
  }

  lemma FileStepFollows(sh: Shared, id: nat, w: Writer, ok: bool)
    requires OwnsTmp(w.stage) ==> id in sh.fs.tmps && w.key in sh.fs.dirs
    requires OnItsWay(w.stage)
    ensures w.stage.Promote? ==> Follows(sh, w, RenameTmp(ok), MoveRename(sh, id, w, ok).1)
    ensures w.stage.PuttingMeta? ==> Follows(sh, w, WriteMeta(Whole), MoveMeta(sh, id, w, Whole).1)
    ensures w.stage.PuttingHdr? ==> Follows(sh, w, WriteHdr(Whole), MoveHdr(sh, id, w, Whole).1)
  {
  }

  lemma CopyStepFollows(sh: Shared, id: nat, w: Writer, a: WriterAction)
    requires Copies(w.stage) && id in sh.fs.tmps && w.key in sh.fs.dirs && !GivesUp(sh, w, a)
    requires a.CopyOpen? || a.CopyCreate? || a.CopyChunk? || a.CopyEnd? || a.CopyClean?
    ensures Follows(sh, w, a, MoveWriter(sh, id, w, a).1)
  {
    hide CreateBody, SetContent, WriteAt;
  }

  lemma QuietStepFollows(sh: Shared, id: nat, w: Writer, a: WriterAction)
    requires OnItsWay(w.stage) || GaveUp(w.stage)
    requires a.MakeDirs? || a.Finish? || a.CountInsert? || a.CountSize? || a.Write?
    ensures Follows(sh, w, a, MoveWriter(sh, id, w, a).1)
  {
    hide MoveMakeDirs;
    if a.MakeDirs? { MakeDirsFree(sh, w, a.ok); }
  }

  lemma DropFollows(sh: Shared, id: nat, w: Writer, ok: bool)
    requires w.stage.Dropping? && (OnItsWay(w.stage) || GaveUp(w.stage))
    ensures Follows(sh, w, Drop(ok), MoveDrop(sh, id, w, ok).1)
  {
  }

  lemma NoStepFollows(sh: Shared, w: Writer, a: WriterAction)
    requires OnItsWay(w.stage) || GaveUp(w.stage)
    ensures !WritesSmall(w.stage, a) ==> Follows(sh, w, a, w)
    ensures !w.stage.CreatingTmp?
    ensures w.stage.Promote? || w.stage.PuttingMeta? || w.stage.PuttingHdr? ==> OnItsWay(w.stage)
  {
  }

  lemma GoesOn(sh: Shared, id: nat, w: Writer, a: WriterAction)
    requires WellFormed(sh.fs) && WriterOk(sh.fs, id, w) && !GivesUp(sh, w, a)
    requires OnItsWay(w.stage) || GaveUp(w.stage)
    ensures Follows(sh, w, a, MoveWriter(sh, id, w, a).1)
  {
    assert OwnsTmp(w.stage) ==> id in sh.fs.tmps && w.key in sh.fs.dirs;
    NoStepFollows(sh, w, a);
    if Copies(w.stage) && (a.CopyOpen? || a.CopyCreate? || a.CopyChunk? || a.CopyEnd? || a.CopyClean?) {
      CopyStepFollows(sh, id, w, a);
      return;
    }
    hide WellFormed, WriterOk, Follows, MoveRename, MoveMeta, MoveHdr, MoveDrop, OnItsWay, GaveUp;
    match a
    case RenameTmp(ok) => if w.stage.Promote? { FileStepFollows(sh, id, w, ok); }
    case WriteMeta(_) => if w.stage.PuttingMeta? { FileStepFollows(sh, id, w, true); }
    case WriteHdr(_) => if w.stage.PuttingHdr? { FileStepFollows(sh, id, w, true); }
    case Drop(ok) => if w.stage.Dropping? { DropFollows(sh, id, w, ok); }
    case MakeDirs(_) => QuietStepFollows(sh, id, w, a);
    case Finish => QuietStepFollows(sh, id, w, a);
    case Write(_, _) => QuietStepFollows(sh, id, w, a);
    case CountInsert => QuietStepFollows(sh, id, w, a);
    case CountSize => QuietStepFollows(sh, id, w, a);
    case _ =>
  }

  lemma {:induction false} RunOnItsWay(s: State, acts: seq<Action>, id: nat)
    requires Core(s) && id in s.writers && OnItsWay(s.writers[id].stage) && GoesThrough(s, acts, id)
    ensures Core(Run(s, acts)) && id in Run(s, acts).writers
    ensures var w := Run(s, acts).writers[id];
      && w.key == s.writers[id].key
      && (OnItsWay(w.stage) || GaveUp(w.stage)) && (OnItsWay(w.stage) <==> FindsItsDir(s, acts, id))
  {
    if acts != [] {
      hide WellFormed, WriterOk, LookupOk, Step, MoveWriter, OnItsWay, GaveUp, GivesUp;
      var rest, a := acts[..|acts| - 1], acts[|acts| - 1];
      RunOnItsWay(s, rest, id);
      var t := Run(s, rest);
      StepCore(t, a);
      StepOfWriter(t, a, id);
      if Own(a, id) { GoesOn(t.shared, id, t.writers[id], a.w); }
    }
  }

  lemma StepOfWriter(s: State, a: Action, id: nat)
    requires id in s.writers
    ensures var t := Step(s, a);
      && id in t.writers
      && t.writers[id] == if Own(a, id) then MoveWriter(s.shared, id, s.writers[id], a.w).1 else s.writers[id]
  {
  }

  /** Whatever other calls do meanwhile, a handler that does not give up, whether it renames or copies, has succeeded
      when it is closed exactly if its directory was there each time it wrote a small file. The truncation of the copy
      needs it too, and always finds it, since the tmp file is still there. */
  lemma {:induction false} FinishSucceedsExactly(s: State, acts: seq<Action>, id: nat)
    requires Core(s) && id in s.writers && s.writers[id].stage.Open? && GoesThrough(s, acts, id)
    requires id in Run(s, acts).writers && Run(s, acts).writers[id].stage.Closed?
    ensures Run(s, acts).writers[id].stage.result.Created? <==> FindsItsDir(s, acts, id)
  {
    hide Core, GoesThrough, FindsItsDir, Run;
    RunOnItsWay(s, acts, id);
  }

  /** The last step of a purge of `k`, if it has found nothing left in the directory. */
  predicate RemovesDir(s: State, a: Action, k: Key) {
    && a.OfPurge? && a.id in s.purges && s.purges[a.id].key == k && s.purges[a.id].stage.RemovingDir?
    && a.p == RemoveDirectory(true) && DirEmpty(s.shared.fs, k)
  }

  ghost predicate DirLeft(s: State, acts: seq<Action>, k: Key) {
    acts == []
    || (DirLeft(s, acts[..|acts| - 1], k) && !RemovesDir(Run(s, acts[..|acts| - 1]), acts[|acts| - 1], k))
  }

  lemma WriterKeepsDirs(sh: Shared, id: nat, w: Writer, a: WriterAction)
    ensures sh.fs.dirs <= MoveWriter(sh, id, w, a).0.fs.dirs
  {
  }

  lemma OnlyPurgesRemoveDirs(s: State, a: Action, k: Key)
    requires k in s.shared.fs.dirs
    ensures k !in Step(s, a).shared.fs.dirs <==> RemovesDir(s, a, k)
  {
    hide MoveWriter;
    if a.OfWriter? && a.id in s.writers { WriterKeepsDirs(s.shared, a.id, s.writers[a.id], a.w); }
  }

  lemma {:induction false} DirStays(s: State, acts: seq<Action>, id: nat)
    requires Core(s) && id in s.writers && s.writers[id].key in s.shared.fs.dirs
    requires DirLeft(s, acts, s.writers[id].key)
    ensures id in Run(s, acts).writers && Run(s, acts).writers[id].key == s.writers[id].key
    ensures Core(Run(s, acts)) && s.writers[id].key in Run(s, acts).shared.fs.dirs && FindsItsDir(s, acts, id)
  {
    if acts != [] {
      hide Core, Step, MoveWriter, RemovesDir, WriterOk, WellFormed;
      var rest, a := acts[..|acts| - 1], acts[|acts| - 1];
      DirStays(s, rest, id);
      var t := Run(s, rest);
      StepCore(t, a);
      StepOfWriter(t, a, id);
      OnlyPurgesRemoveDirs(t, a, s.writers[id].key);
      KeyStays(t, a, id);
    }
  }

  /** So a failure that is not of its own making is that of a purge: one that found the directory empty, which it only
      is after that purge or another has unlinked the body just renamed. */
  lemma {:induction false} OnlyPurgesFailFinish(s: State, acts: seq<Action>, id: nat)
    requires Core(s) && id in s.writers && s.writers[id].stage.Open? && GoesThrough(s, acts, id)
    requires id in Run(s, acts).writers && Run(s, acts).writers[id].stage.Closed?
    requires !Run(s, acts).writers[id].stage.result.Created?
    ensures !DirLeft(s, acts, s.writers[id].key)
  {
    hide LookupOk, GoesThrough, FindsItsDir, DirLeft, Run;
    assert WriterOk(s.shared.fs, id, s.writers[id]);
    if DirLeft(s, acts, s.writers[id].key) { DirStays(s, acts, id); }
    FinishSucceedsExactly(s, acts, id);
  }

  lemma KeyStays(s: State, a: Action, id: nat)
    requires Core(s) && id in s.writers
    ensures Step(s, a).writers[id].key == s.writers[id].key
  {
    hide WellFormed, WriterOk, MoveWriter;
    if Own(a, id) { MoveWriterOk(s.shared, id, s.writers[id], a.w); }
  }

  /** A finish that no other call disturbs succeeds, unless one of its own operations is failed. */
  lemma {:induction false} UndisturbedSucceeds(s: State, acts: seq<Action>, id: nat)
    requires Core(s) && id in s.writers && s.writers[id].stage.Open?
    requires Undisturbed(s, acts, id) && GoesThrough(s, acts, id)
    requires id in Run(s, acts).writers && Run(s, acts).writers[id].stage.Closed?
    ensures Run(s, acts).writers[id].stage.result.Created?
  {
    hide Core, Undisturbed, GoesThrough, FindsItsDir, Run, InPlace;
    NothingClaimed(s.shared.fs, s.writers[id]);
    UndisturbedFindsItsDir(s, acts, id);
    FinishSucceedsExactly(s, acts, id);
  }

  lemma {:induction false} UndisturbedFindsItsDir(s: State, acts: seq<Action>, id: nat)
    requires Core(s) && id in s.writers && InPlace(s.shared.fs, s.writers[id]) && Undisturbed(s, acts, id)
    ensures FindsItsDir(s, acts, id)
  {
    if acts != [] {
      hide WriterOk, Step, Concerns, LookupOk;
      UndisturbedFindsItsDir(s, acts[..|acts| - 1], id);
      RunInPlace(s, acts[..|acts| - 1], id);
    }
  }
}
