/** Which steps touch the files of a key. Calls on other keys never do, whatever fails and whatever is copied; and of
    the calls on the key itself only a few steps do. */
module KeyIsolation {
  import opened Basics
  import opened FileSystem
  import opened HitSpec
  import opened CacheMachine
  import opened CoreInvariant

  /** The three files of `k` are what they were, and so is every inode that ever was its body. */
  ghost predicate SameAt(k: Key, fs: FS, after: FS) {
    && (forall i :: 0 <= i < |after.inodes| && IsBody(after, i, k) ==>
          i < |fs.inodes| && after.inodes[i] == fs.inodes[i])
    && (k in after.bodies <==> k in fs.bodies)
    && (k in fs.bodies ==> after.bodies[k] == fs.bodies[k] && Content(after, fs.bodies[k]) == Content(fs, fs.bodies[k]))
    && (k in after.metas <==> k in fs.metas) && (k in fs.metas ==> after.metas[k] == fs.metas[k])
    && (k in after.hdrs <==> k in fs.hdrs) && (k in fs.hdrs ==> after.hdrs[k] == fs.hdrs[k])
  }

  /** The steps of a miss handler that touch the files of its key; before its rename it only works on its tmp file. */
  predicate PutAction(a: WriterAction) {
    a.RenameTmp? || a.CopyCreate? || a.CopyChunk? || a.WriteMeta? || a.WriteHdr?
  }

  lemma WriterElsewhere(sh: Shared, id: nat, w: Writer, a: WriterAction, k: Key)
    requires WellFormed(sh.fs) && WriterOk(sh.fs, id, w) && (k != w.key || !PutAction(a))
    ensures SameAt(k, sh.fs, MoveWriter(sh, id, w, a).0.fs)
  {
    hide SameAt, WellFormed, SetContent, CreateTmp, Rename, CreateBody, WriteAt;
    NothingElsewhere(sh.fs, k);
    match a
    case Create(ok) => if w.stage.CreatingTmp? { TmpElsewhere(sh.fs, id, w.key, [], k); }
    case Write(data, io) => if w.stage.Open? { WriteElsewhere(sh, id, w, data, io, k); }
    case RenameTmp(ok) => if w.stage.Promote? { RenameElsewhere(sh.fs, id, k); }
    case CopyCreate(_) => CreateBodyElsewhere(sh.fs, w.key, id, k);
    case CopyChunk(size) => if w.stage.Copying? { ChunkElsewhere(sh, id, w, size, k); }
    case _ => NamesElsewhere(sh, id, w, a, k);
  }

  lemma WriteElsewhere(sh: Shared, id: nat, w: Writer, data: Bytes, io: WriteIO, k: Key)
    requires WellFormed(sh.fs) && WriterOk(sh.fs, id, w) && w.stage.Open?
    ensures SameAt(k, sh.fs, MoveWrite(sh, id, w, data, io).0.fs)
  {
    hide WellFormed, SetContent, SameAt;
    NothingElsewhere(sh.fs, k);
    var sofar := Content(sh.fs, w.inode);
    match io
    case OpenFails =>
    case WriteWorks => TmpElsewhere(sh.fs, id, w.key, sofar + data, k);
    case WriteFails(partial) => TmpElsewhere(sh.fs, id, w.key, sofar + data[..Min(partial, |data|)], k);
  }

  lemma ChunkElsewhere(sh: Shared, id: nat, w: Writer, size: nat, k: Key)
    requires WellFormed(sh.fs) && WriterOk(sh.fs, id, w) && w.stage.Copying? && k != w.key
    ensures SameAt(k, sh.fs, MoveCopyChunk(sh, w, size).0.fs)
  {
    hide WellFormed, SameAt, WriteAt;
    NothingElsewhere(sh.fs, k);
    OverwriteElsewhere(sh.fs, w.stage.to, w.key, Content(MoveCopyChunk(sh, w, size).0.fs, w.stage.to), k);
  }

  lemma NothingElsewhere(fs: FS, k: Key)
    ensures SameAt(k, fs, fs)
  {
  }

  lemma TmpElsewhere(fs: FS, t: nat, key: Key, content: Bytes, k: Key)
    requires WellFormed(fs)
    ensures SameAt(k, fs, CreateTmp(fs, t, key))
    ensures t in fs.tmps ==> SameAt(k, fs, SetContent(fs, fs.tmps[t].inode, content))
  {
    if k in fs.bodies { assert IsBody(fs, fs.bodies[k], k); }
  }

  lemma RenameElsewhere(fs: FS, t: nat, k: Key)
    requires WellFormed(fs) && t in fs.tmps && fs.tmps[t].key != k
    ensures SameAt(k, fs, Rename(fs, t))
  {
    if k in fs.bodies { assert IsBody(fs, fs.bodies[k], k); }
  }

  lemma CreateBodyElsewhere(fs: FS, key: Key, t: nat, k: Key)
    requires WellFormed(fs) && key != k
    ensures SameAt(k, fs, CreateBody(fs, key, t))
  {
    if k in fs.bodies { assert IsBody(fs, fs.bodies[k], k); }
  }

  lemma OverwriteElsewhere(fs: FS, inode: nat, key: Key, content: Bytes, k: Key)
    requires WellFormed(fs) && IsBody(fs, inode, key) && key != k
    ensures SameAt(k, fs, SetContent(fs, inode, content))
  {
    if k in fs.bodies { assert IsBody(fs, fs.bodies[k], k); }
  }

  /** Steps that leave all inodes and bodies alone. */
  lemma NamesElsewhere(sh: Shared, id: nat, w: Writer, a: WriterAction, k: Key)
    requires k != w.key || !PutAction(a)
    requires !a.Create? && !a.Write? && !a.RenameTmp? && !a.CopyCreate? && !a.CopyChunk?
    ensures SameAt(k, sh.fs, MoveWriter(sh, id, w, a).0.fs)
  {
  }

  lemma PurgeElsewhere(sh: Shared, p: Purge, a: PurgeAction, k: Key)
    requires k != p.key || !(a.UnlinkBody? || a.UnlinkMeta? || a.UnlinkHdr?)
    ensures SameAt(k, sh.fs, MovePurge(sh, p, a).0.fs)
  {
    match a
    case _ =>
  }

  lemma UpdateElsewhere(sh: Shared, id: nat, u: Update, a: UpdateAction, k: Key)
    requires k != u.key || !(a.UpdateMeta? || a.UpdateHdr?)
    ensures SameAt(k, sh.fs, MoveUpdate(sh, id, u, a).0.fs)
  {
  }

  /** The step may put something at the files of `k`. */
  predicate Puts(s: State, a: Action, k: Key) {
    match a
    case OfWriter(id, x) => id in s.writers && s.writers[id].key == k && PutAction(x)
    case OfUpdate(id, x) => id in s.updates && s.updates[id].key == k && (x.UpdateMeta? || x.UpdateHdr?)
    case _ => false
  }

  /** The step may take a file of `k` away. */
  predicate TakesFrom(s: State, a: Action, k: Key) {
    a.OfPurge? && a.id in s.purges && s.purges[a.id].key == k && (a.p.UnlinkBody? || a.p.UnlinkMeta? || a.p.UnlinkHdr?)
  }

  predicate Concerns(s: State, a: Action, k: Key) {
    Puts(s, a, k) || TakesFrom(s, a, k)
  }

  lemma StepElsewhere(s: State, a: Action, k: Key)
    requires Core(s) && !Concerns(s, a, k)
    ensures SameAt(k, s.shared.fs, Step(s, a).shared.fs)
  {
    hide SameAt, WellFormed, WriterOk, MoveWriter, MovePurge, MoveUpdate, MoveLookup;
    NothingElsewhere(s.shared.fs, k);
    match a
    case OfWriter(id, w) => if id in s.writers { WriterElsewhere(s.shared, id, s.writers[id], w, k); }
    case OfPurge(id, p) => if id in s.purges { PurgeElsewhere(s.shared, s.purges[id], p, k); }
    case OfUpdate(id, u) => if id in s.updates { UpdateElsewhere(s.shared, id, s.updates[id], u, k); }
    case OfLookup(id, l) =>
  }

  /** No step of the run touches the files of `k`. */
  ghost predicate Idle(s: State, acts: seq<Action>, k: Key) {
    acts == []
    || (Idle(s, acts[..|acts| - 1], k) && !Concerns(Run(s, acts[..|acts| - 1]), acts[|acts| - 1], k))
  }

  lemma {:induction false} RunElsewhere(s: State, acts: seq<Action>, k: Key)
    requires Core(s) && Idle(s, acts, k)
    ensures Core(Run(s, acts)) && SameAt(k, s.shared.fs, Run(s, acts).shared.fs)
  {
    if acts != [] {
      var rest := acts[..|acts| - 1];
      RunElsewhere(s, rest, k);
      StepElsewhere(Run(s, rest), acts[|acts| - 1], k);
      StepCore(Run(s, rest), acts[|acts| - 1]);
    }
  }
}
