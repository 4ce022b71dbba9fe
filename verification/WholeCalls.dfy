/** The calls of the `Storage` interface run from beginning to end, one at a time. With no failures the disk cache
    is then a map from keys to entries. Each call, failing anywhere or not, is a run of the step machine, so what is
    proved of all runs holds of any sequence of calls. */
module WholeCalls {
  import opened Basics
  import opened FileSystem
  import opened HitSpec
  import opened CacheMachine
  import opened CoreInvariant

  // - - - the calls

  datatype AdmitIO = AdmitIO(serialised: bool, dir: bool, parent: bool, create: bool)

  function AdmitCall(sh: Shared, id: nat, key: Key, meta: CacheMeta, io: AdmitIO): (Shared, Writer) {
    var sh := sh.(metrics := sh.metrics.(misses := sh.metrics.misses + 1));
    var w := NewWriter(key, meta, io.serialised);
    if !io.serialised then (sh, w)
    else
      var (sh, w) := MoveMakeDirs(sh, w, io.dir);
      var (sh, w) := MoveMakeDirs(sh, w, io.parent);
      MoveCreate(sh, id, w, io.create)
  }

  /** `copied` is how far a failing copy gets; a copy that works copies everything. */
  datatype FinishIO = FinishIO(
    dir: bool, rename: bool,
    open: bool, create: bool, copied: nat, copy: bool, clean: bool,
    meta: SmallIO, hdr: SmallIO, drop: bool)

  // `finish` from the given point on; a step that gave up leads to the drop of the handler.

  function FromSizing(sh: Shared, id: nat, w: Writer, io: FinishIO): (Shared, Writer) {
    var (sh, w) := MoveCountSize(sh, w);
    MoveDrop(sh, id, w, io.drop)
  }

  function FromCounting(sh: Shared, id: nat, w: Writer, io: FinishIO): (Shared, Writer) {
    if w.stage.Dropping? then MoveDrop(sh, id, w, io.drop)
    else
      var (sh, w) := MoveCountInsert(sh, w);
      FromSizing(sh, id, w, io)
  }

  function FromHdr(sh: Shared, id: nat, w: Writer, io: FinishIO): (Shared, Writer) {
    if w.stage.Dropping? then MoveDrop(sh, id, w, io.drop)
    else
      var (sh, w) := MoveHdr(sh, id, w, io.hdr);
      FromCounting(sh, id, w, io)
  }

  function FromMeta(sh: Shared, id: nat, w: Writer, io: FinishIO): (Shared, Writer) {
    if w.stage.Dropping? then MoveDrop(sh, id, w, io.drop)
    else
      var (sh, w) := MoveMeta(sh, id, w, io.meta);
      FromHdr(sh, id, w, io)
  }

  function FromCleaning(sh: Shared, id: nat, w: Writer, io: FinishIO): (Shared, Writer) {
    if w.stage.Dropping? then MoveDrop(sh, id, w, io.drop)
    else
      var (sh, w) := MoveCopyClean(sh, id, w, io.clean);
      FromMeta(sh, id, w, io)
  }

  function FromCopyEnd(sh: Shared, id: nat, w: Writer, io: FinishIO): (Shared, Writer)
    requires w.stage.Copying?
  {
    var (sh, w) := MoveCopyEnd(sh, w, io.copy);
    FromCleaning(sh, id, w, io)
  }

  function FromCopying(sh: Shared, id: nat, w: Writer, io: FinishIO): (Shared, Writer)
    requires w.stage.Copying? || w.stage.Dropping?
  {
    if w.stage.Dropping? then MoveDrop(sh, id, w, io.drop)
    else
      var (sh, w) := MoveCopyChunk(sh, w, if io.copy then |Content(sh.fs, w.inode)| else io.copied);
      FromCopyEnd(sh, id, w, io)
  }

  function FromCopyCreate(sh: Shared, id: nat, w: Writer, io: FinishIO): (Shared, Writer) {
    if w.stage.Dropping? then MoveDrop(sh, id, w, io.drop)
    else
      var (sh, w) := MoveCopyCreate(sh, id, w, io.create);
      FromCopying(sh, id, w, io)
  }

  function AfterRename(sh: Shared, id: nat, w: Writer, io: FinishIO): (Shared, Writer) {
    if w.stage.CopyOpening? then
      var (sh, w) := MoveCopyOpen(sh, id, w, io.open);
      FromCopyCreate(sh, id, w, io)
    else FromMeta(sh, id, w, io)
  }

  function FinishCall(sh: Shared, id: nat, w: Writer, io: FinishIO): (Shared, Writer) {
    var (sh, w) := MoveMakeDirs(sh, w.(stage := FinishDir), io.dir);
    var (sh, w) := MoveRename(sh, id, w, io.rename);
    AfterRename(sh, id, w, io)
  }

  function DropCall(sh: Shared, id: nat, w: Writer, ok: bool): (Shared, Writer) {
    MoveDrop(sh, id, w.(stage := Dropping(Abandoned)), ok)
  }

  datatype PurgeIO = PurgeIO(measure: bool, body: bool, meta: bool, hdr: bool, dir: bool)

  function PurgeCounts(sh: Shared, p: Purge): (Shared, Purge) {
    if p.stage.CountingEviction? then
      var (sh, p) := MoveCountEviction(sh, p);
      var (sh, p) := MoveCountBytes(sh, p);
      MoveCountDown(sh, p)
    else (sh, p)
  }

  function PurgeRest(sh: Shared, p: Purge, io: PurgeIO): (Shared, Purge) {
    var sh := if io.meta then sh.(fs := RemoveMeta(sh.fs, p.key)) else sh;
    var sh := if io.hdr then sh.(fs := RemoveHdr(sh.fs, p.key)) else sh;
    var sh := if io.dir then sh.(fs := RemoveDir(sh.fs, p.key)) else sh;
    (sh, p.(stage := Purged))
  }

  function PurgeCall(sh: Shared, key: Key, io: PurgeIO): (Shared, Purge) {
    var sh := sh.(metrics := sh.metrics.(purgeAttempts := sh.metrics.purgeAttempts + 1));
    var (sh, p) := MoveMeasure(sh, NewPurge(key), io.measure);
    var (sh, p) := MoveUnlinkBody(sh, p, io.body);
    var (sh, p) := PurgeCounts(sh, p);
    PurgeRest(sh, p, io)
  }

  datatype UpdateIO = UpdateIO(seen: bool, serialised: bool, meta: SmallIO, hdr: SmallIO)

  function UpdateCall(sh: Shared, id: nat, key: Key, meta: CacheMeta, io: UpdateIO): (Shared, Update) {
    var (sh, u) := MoveCheck(sh, NewUpdate(key, meta), io.seen, io.serialised);
    if u.stage.UpdateDone? then (sh, u)
    else
      var (sh, u) := MoveUpdateMeta(sh, id, u, io.meta);
      if u.stage.UpdateDone? then (sh, u) else MoveUpdateHdr(sh, id, u, io.hdr)
  }

  datatype LookupIO = LookupIO(root: bool, meta: bool, hdr: bool, body: bool, size: bool, decode: bool)

  /** The three joined reads, with nothing in between. */
  function LookupReads(sh: Shared, key: Key, io: LookupIO): Lookup {
    Lookup(key, Reading, ReadSmall(sh.fs.metas, key, io.meta), ReadSmall(sh.fs.hdrs, key, io.hdr),
           OpenFile(sh.fs, key, io.body))
  }

  function AfterJoin(sh: Shared, m: Metrics, l: Lookup, io: LookupIO): (Metrics, Lookup) {
    if !l.stage.Sizing? then (m, l)
    else
      var (m, l) := MoveSize(sh, l, io.size);
      if l.stage.Decoding? then MoveDecode(sh, l, io.decode) else (m, l)
  }

  function LookupCall(sh: Shared, key: Key, io: LookupIO): (Metrics, Lookup) {
    if !io.root then (sh.metrics, NewLookup(key).(stage := LookupFailed(false)))
    else
      var (m, l) := MoveJoin(sh, LookupReads(sh, key, io));
      AfterJoin(sh, m, l, io)
  }

  // - - - calls are runs

  /** Some run leads from `s` to `t` in which finishes copy onto the bodies of keys in `copied` only. */
  ghost predicate Reaches(s: State, t: State, copied: set<Key>) {
    exists acts :: Run(s, acts) == t && CopiesOnly(s, acts, copied)
  }

  ghost predicate CopiesOnly(s: State, acts: seq<Action>, copied: set<Key>) {
    forall k :: k !in copied ==> NoCopies(s, acts, k)
  }

  lemma ReachesHere(s: State, copied: set<Key>)
    ensures Reaches(s, s, copied)
  {
    assert Run(s, []) == s && CopiesOnly(s, [], copied);
  }

  lemma ReachesStep(s: State, t: State, a: Action, copied: set<Key>)
    requires Reaches(s, t, copied) && forall k :: StartsCopy(t, a, k) ==> k in copied
    ensures Reaches(s, Step(t, a), copied)
  {
    var acts :| Run(s, acts) == t && CopiesOnly(s, acts, copied);
    RunSnoc(s, acts, a);
    forall k | k !in copied ensures NoCopies(s, acts + [a], k) {
      NoCopiesSnoc(s, acts, a, k);
    }
    assert Run(s, acts + [a]) == Step(t, a) && CopiesOnly(s, acts + [a], copied);
  }

  lemma ReachesLoose(s: State, t: State, copied: set<Key>, more: set<Key>)
    requires Reaches(s, t, copied) && copied <= more
    ensures Reaches(s, t, more)
  {
    var acts :| Run(s, acts) == t && CopiesOnly(s, acts, copied);
    assert CopiesOnly(s, acts, more);
  }

  lemma ReachesOn(s: State, t: State, u: State, copied: set<Key>)
    requires Reaches(s, t, copied) && Reaches(t, u, copied)
    ensures Reaches(s, u, copied)
  {
    var first :| Run(s, first) == t && CopiesOnly(s, first, copied);
    var second :| Run(t, second) == u && CopiesOnly(t, second, copied);
    RunAppend(s, first, second);
    forall k | k !in copied ensures NoCopies(s, first + second, k) {
      NoCopiesAppend(s, first, second, k);
    }
    assert Run(s, first + second) == u && CopiesOnly(s, first + second, copied);
  }

  lemma ReachesCore(s: State, t: State, copied: set<Key>)
    requires Core(s) && Reaches(s, t, copied)
    ensures Core(t)
  {
    var acts :| Run(s, acts) == t && CopiesOnly(s, acts, copied);
    RunCore(s, acts);
  }

  /** One more step of the writer whose record was last stored. */
  lemma ReachesMove(s: State, t: State, id: nat, sh: Shared, w: Writer, a: WriterAction, copied: set<Key>)
    requires Reaches(s, SetWriter(t, id, sh, w), copied) && (a == CopyCreate(true) ==> w.key in copied)
    ensures var (after, v) := MoveWriter(sh, id, w, a); Reaches(s, SetWriter(t, id, after, v), copied)
  {
    hide Reaches;
    var here := SetWriter(t, id, sh, w);
    ReachesStep(s, here, OfWriter(id, a), copied);
    var (after, v) := MoveWriter(sh, id, w, a);
    assert here.writers[id := v] == t.writers[id := v];
  }

  lemma SizingIsRun(s: State, t: State, id: nat, sh: Shared, w: Writer, io: FinishIO, copied: set<Key>)
    requires Reaches(s, SetWriter(t, id, sh, w), copied) && w.stage.CountingSize?
    ensures var (after, v) := FromSizing(sh, id, w, io); Reaches(s, SetWriter(t, id, after, v), copied)
  {
    hide Reaches;
    var (sh1, w1) := MoveCountSize(sh, w);
    ReachesMove(s, t, id, sh, w, CountSize, copied);
    ReachesMove(s, t, id, sh1, w1, Drop(io.drop), copied);
  }

  lemma CountingIsRun(s: State, t: State, id: nat, sh: Shared, w: Writer, io: FinishIO, copied: set<Key>)
    requires Reaches(s, SetWriter(t, id, sh, w), copied) && (w.stage.Dropping? || w.stage.CountingInsert?)
    ensures var (after, v) := FromCounting(sh, id, w, io); Reaches(s, SetWriter(t, id, after, v), copied)
  {
    hide Reaches;
    if w.stage.Dropping? {
      ReachesMove(s, t, id, sh, w, Drop(io.drop), copied);
    } else {
      var (sh1, w1) := MoveCountInsert(sh, w);
      ReachesMove(s, t, id, sh, w, CountInsert, copied);
      SizingIsRun(s, t, id, sh1, w1, io, copied);
    }
  }

  lemma HdrIsRun(s: State, t: State, id: nat, sh: Shared, w: Writer, io: FinishIO, copied: set<Key>)
    requires Reaches(s, SetWriter(t, id, sh, w), copied) && (w.stage.Dropping? || w.stage.PuttingHdr?)
    ensures var (after, v) := FromHdr(sh, id, w, io); Reaches(s, SetWriter(t, id, after, v), copied)
  {
    hide Reaches;
    if w.stage.Dropping? {
      ReachesMove(s, t, id, sh, w, Drop(io.drop), copied);
    } else {
      var (sh1, w1) := MoveHdr(sh, id, w, io.hdr);
      ReachesMove(s, t, id, sh, w, WriteHdr(io.hdr), copied);
      CountingIsRun(s, t, id, sh1, w1, io, copied);
    }
  }

  lemma MetaIsRun(s: State, t: State, id: nat, sh: Shared, w: Writer, io: FinishIO, copied: set<Key>)
    requires Reaches(s, SetWriter(t, id, sh, w), copied) && (w.stage.Dropping? || w.stage.PuttingMeta?)
    ensures var (after, v) := FromMeta(sh, id, w, io); Reaches(s, SetWriter(t, id, after, v), copied)
  {
    hide Reaches;
    if w.stage.Dropping? {
      ReachesMove(s, t, id, sh, w, Drop(io.drop), copied);
    } else {
      var (sh1, w1) := MoveMeta(sh, id, w, io.meta);
      ReachesMove(s, t, id, sh, w, WriteMeta(io.meta), copied);
      HdrIsRun(s, t, id, sh1, w1, io, copied);
    }
  }

  lemma CleaningIsRun(s: State, t: State, id: nat, sh: Shared, w: Writer, io: FinishIO, copied: set<Key>)
    requires Reaches(s, SetWriter(t, id, sh, w), copied) && (w.stage.Dropping? || w.stage.CopyCleaning?)
    ensures var (after, v) := FromCleaning(sh, id, w, io); Reaches(s, SetWriter(t, id, after, v), copied)
  {
    hide Reaches;
    if w.stage.Dropping? {
      ReachesMove(s, t, id, sh, w, Drop(io.drop), copied);
    } else {
      var (sh1, w1) := MoveCopyClean(sh, id, w, io.clean);
      ReachesMove(s, t, id, sh, w, CopyClean(io.clean), copied);
      MetaIsRun(s, t, id, sh1, w1, io, copied);
    }
  }

  lemma CopyEndIsRun(s: State, t: State, id: nat, sh: Shared, w: Writer, io: FinishIO, copied: set<Key>)
    requires Reaches(s, SetWriter(t, id, sh, w), copied) && w.stage.Copying?
    ensures var (after, v) := FromCopyEnd(sh, id, w, io); Reaches(s, SetWriter(t, id, after, v), copied)
  {
    hide Reaches;
    var (sh1, w1) := MoveCopyEnd(sh, w, io.copy);
    ReachesMove(s, t, id, sh, w, CopyEnd(io.copy), copied);
    CleaningIsRun(s, t, id, sh1, w1, io, copied);
  }

  lemma CopyingIsRun(s: State, t: State, id: nat, sh: Shared, w: Writer, io: FinishIO, copied: set<Key>)
    requires Reaches(s, SetWriter(t, id, sh, w), copied) && (w.stage.Dropping? || w.stage.Copying?)
    ensures var (after, v) := FromCopying(sh, id, w, io); Reaches(s, SetWriter(t, id, after, v), copied)
  {
    hide Reaches;
    if w.stage.Dropping? {
      ReachesMove(s, t, id, sh, w, Drop(io.drop), copied);
    } else {
      var n := if io.copy then |Content(sh.fs, w.inode)| else io.copied;
      var (sh1, w1) := MoveCopyChunk(sh, w, n);
      ReachesMove(s, t, id, sh, w, CopyChunk(n), copied);
      CopyEndIsRun(s, t, id, sh1, w1, io, copied);
    }
  }

  lemma CopyCreateIsRun(s: State, t: State, id: nat, sh: Shared, w: Writer, io: FinishIO, copied: set<Key>)
    requires Reaches(s, SetWriter(t, id, sh, w), copied) && (w.stage.Dropping? || w.stage.CopyCreating?)
    requires w.stage.CopyCreating? && io.create ==> w.key in copied
    ensures var (after, v) := FromCopyCreate(sh, id, w, io); Reaches(s, SetWriter(t, id, after, v), copied)
  {
    hide Reaches;
    if w.stage.Dropping? {
      ReachesMove(s, t, id, sh, w, Drop(io.drop), copied);
    } else {
      var (sh1, w1) := MoveCopyCreate(sh, id, w, io.create);
      ReachesMove(s, t, id, sh, w, CopyCreate(io.create), copied);
      CopyingIsRun(s, t, id, sh1, w1, io, copied);
    }
  }

  lemma CopyOpenIsRun(s: State, t: State, id: nat, sh: Shared, w: Writer, io: FinishIO, copied: set<Key>)
    requires Reaches(s, SetWriter(t, id, sh, w), copied) && w.stage.CopyOpening?
    requires io.open && io.create ==> w.key in copied
    ensures var (after, v) := AfterRename(sh, id, w, io); Reaches(s, SetWriter(t, id, after, v), copied)
  {
    hide Reaches;
    var (sh1, w1) := MoveCopyOpen(sh, id, w, io.open);
    ReachesMove(s, t, id, sh, w, CopyOpen(io.open), copied);
    CopyCreateIsRun(s, t, id, sh1, w1, io, copied);
  }

  lemma RenameIsRun(s: State, t: State, id: nat, sh: Shared, w: Writer, io: FinishIO, copied: set<Key>)
    requires Reaches(s, SetWriter(t, id, sh, w), copied) && w.stage.Promote?
    requires id in sh.fs.tmps && w.key in sh.fs.dirs && Copied(w.key, io) <= copied
    ensures var (sh1, w1) := MoveRename(sh, id, w, io.rename);
      var (after, v) := AfterRename(sh1, id, w1, io); Reaches(s, SetWriter(t, id, after, v), copied)
  {
    hide Reaches;
    var (sh1, w1) := MoveRename(sh, id, w, io.rename);
    ReachesMove(s, t, id, sh, w, RenameTmp(io.rename), copied);
    if io.rename {
      MetaIsRun(s, t, id, sh1, w1, io, copied);
    } else {
      CopyOpenIsRun(s, t, id, sh1, w1, io, copied);
    }
  }

  /** The keys whose body a finish copies onto: its own key if the rename is failed and the copy gets under way. */
  function Copied(key: Key, io: FinishIO): set<Key> {
    if io.rename || !io.open || !io.create then {} else {key}
  }

  /** `finish` is a run, and one that copies only if its rename is failed. */
  lemma FinishIsRun(s: State, id: nat, io: FinishIO)
    requires Core(s) && id in s.writers && s.writers[id].stage.Open?
    ensures var (after, v) := FinishCall(s.shared, id, s.writers[id], io);
      Reaches(s, SetWriter(s, id, after, v), Copied(s.writers[id].key, io))
  {
    hide Reaches, AfterRename, MoveRename, Flatten, HoldsChunks, LeftOk, UpdateOk, LookupOk;
    var w := s.writers[id];
    var copied := Copied(w.key, io);
    assert WriterOk(s.shared.fs, id, w);
    assert id in s.shared.fs.tmps && w.key in s.shared.fs.dirs;
    hide WriterOk, WellFormed, Core;
    ReachesHere(s, copied);
    assert SetWriter(s, id, s.shared, w) == s;
    ReachesMove(s, s, id, s.shared, w, Finish, copied);
    var w0 := w.(stage := FinishDir);
    var (sh1, w1) := MoveMakeDirs(s.shared, w0, io.dir);
    ReachesMove(s, s, id, s.shared, w0, MakeDirs(io.dir), copied);
    RenameIsRun(s, s, id, sh1, w1, io, copied);
  }

  lemma WriterCallsAreRuns(s: State, id: nat, data: Bytes, io: WriteIO, ok: bool)
    requires id in s.writers && s.writers[id].stage.Open?
    ensures var (after, v) := MoveWrite(s.shared, id, s.writers[id], data, io);
      Reaches(s, SetWriter(s, id, after, v), {})
    ensures var (after, v) := DropCall(s.shared, id, s.writers[id], ok);
      Reaches(s, SetWriter(s, id, after, v), {})
  {
    hide Reaches;
    var w := s.writers[id];
    ReachesHere(s, {});
    assert SetWriter(s, id, s.shared, w) == s;
    ReachesMove(s, s, id, s.shared, w, Write(data, io), {});
    ReachesMove(s, s, id, s.shared, w, Abandon, {});
    ReachesMove(s, s, id, s.shared, w.(stage := Dropping(Abandoned)), Drop(ok), {});
  }

  lemma AdmitIsRun(s: State, id: nat, key: Key, meta: CacheMeta, io: AdmitIO)
    requires id !in s.writers && id !in s.shared.fs.tmps
    ensures var (after, v) := AdmitCall(s.shared, id, key, meta, io); Reaches(s, SetWriter(s, id, after, v), {})
  {
    hide Reaches;
    var sh := s.shared.(metrics := s.shared.metrics.(misses := s.shared.metrics.misses + 1));
    var w := NewWriter(key, meta, io.serialised);
    ReachesHere(s, {});
    ReachesStep(s, s, OfWriter(id, Begin(key, meta, io.serialised)), {});
    if io.serialised {
      var (sh1, w1) := MoveMakeDirs(sh, w, io.dir);
      ReachesMove(s, s, id, sh, w, MakeDirs(io.dir), {});
      var (sh2, w2) := MoveMakeDirs(sh1, w1, io.parent);
      ReachesMove(s, s, id, sh1, w1, MakeDirs(io.parent), {});
      ReachesMove(s, s, id, sh2, w2, Create(io.create), {});
    }
  }

  lemma ReachesPurgeMove(s: State, t: State, id: nat, sh: Shared, p: Purge, a: PurgeAction)
    requires Reaches(s, SetPurge(t, id, sh, p), {})
    ensures var (after, q) := MovePurge(sh, p, a); Reaches(s, SetPurge(t, id, after, q), {})
  {
    ReachesStep(s, SetPurge(t, id, sh, p), OfPurge(id, a), {});
    var (after, q) := MovePurge(sh, p, a);
    assert SetPurge(t, id, sh, p).purges[id := q] == t.purges[id := q];
  }

  lemma PurgeCountsIsRun(s: State, t: State, id: nat, sh: Shared, p: Purge)
    requires Reaches(s, SetPurge(t, id, sh, p), {}) && (p.stage.CountingEviction? || p.stage.RemovingMeta?)
    ensures var (after, q) := PurgeCounts(sh, p); Reaches(s, SetPurge(t, id, after, q), {}) && q.stage.RemovingMeta?
  {
    hide Reaches;
    if p.stage.CountingEviction? {
      var (sh1, p1) := MoveCountEviction(sh, p);
      ReachesPurgeMove(s, t, id, sh, p, CountEviction);
      var (sh2, p2) := MoveCountBytes(sh1, p1);
      ReachesPurgeMove(s, t, id, sh1, p1, CountEvictedBytes);
      ReachesPurgeMove(s, t, id, sh2, p2, CountDown);
    }
  }

  lemma PurgeRestIsRun(s: State, t: State, id: nat, sh: Shared, p: Purge, io: PurgeIO)
    requires Reaches(s, SetPurge(t, id, sh, p), {}) && p.stage.RemovingMeta?
    ensures var (after, q) := PurgeRest(sh, p, io); Reaches(s, SetPurge(t, id, after, q), {})
  {
    hide Reaches;
    var sh1 := if io.meta then sh.(fs := RemoveMeta(sh.fs, p.key)) else sh;
    ReachesPurgeMove(s, t, id, sh, p, UnlinkMeta(io.meta));
    var p1 := p.(stage := RemovingHdr);
    var sh2 := if io.hdr then sh1.(fs := RemoveHdr(sh1.fs, p.key)) else sh1;
    ReachesPurgeMove(s, t, id, sh1, p1, UnlinkHdr(io.hdr));
    ReachesPurgeMove(s, t, id, sh2, p1.(stage := RemovingDir), RemoveDirectory(io.dir));
  }

  lemma PurgeIsRun(s: State, id: nat, key: Key, io: PurgeIO)
    requires id !in s.purges
    ensures var (after, p) := PurgeCall(s.shared, key, io); Reaches(s, SetPurge(s, id, after, p), {})
  {
    hide Reaches;
    var sh := s.shared.(metrics := s.shared.metrics.(purgeAttempts := s.shared.metrics.purgeAttempts + 1));
    ReachesHere(s, {});
    ReachesStep(s, s, OfPurge(id, BeginPurge(key)), {});
    var (sh1, p1) := MoveMeasure(sh, NewPurge(key), io.measure);
    ReachesPurgeMove(s, s, id, sh, NewPurge(key), Measure(io.measure));
    var (sh2, p2) := MoveUnlinkBody(sh1, p1, io.body);
    ReachesPurgeMove(s, s, id, sh1, p1, UnlinkBody(io.body));
    var (sh3, p3) := PurgeCounts(sh2, p2);
    PurgeCountsIsRun(s, s, id, sh2, p2);
    PurgeRestIsRun(s, s, id, sh3, p3, io);
  }

  lemma UpdateIsRun(s: State, id: nat, key: Key, meta: CacheMeta, io: UpdateIO)
    requires id !in s.updates
    ensures var (after, u) := UpdateCall(s.shared, id, key, meta, io); Reaches(s, SetUpdate(s, id, after, u), {})
  {
    hide Reaches;
    ReachesHere(s, {});
    ReachesStep(s, s, OfUpdate(id, BeginUpdate(key, meta)), {});
    var s0 := SetUpdate(s, id, s.shared, NewUpdate(key, meta));
    var (sh1, u1) := MoveCheck(s.shared, NewUpdate(key, meta), io.seen, io.serialised);
    ReachesStep(s, s0, OfUpdate(id, Check(io.seen, io.serialised)), {});
    var s1 := SetUpdate(s, id, sh1, u1);
    assert s0.updates[id := u1] == s1.updates;
    if u1.stage.UpdatingMeta? {
      var (sh2, u2) := MoveUpdateMeta(sh1, id, u1, io.meta);
      ReachesStep(s, s1, OfUpdate(id, UpdateMeta(io.meta)), {});
      var s2 := SetUpdate(s, id, sh2, u2);
      assert s1.updates[id := u2] == s2.updates;
      if u2.stage.UpdatingHdr? {
        var (sh3, u3) := MoveUpdateHdr(sh2, id, u2, io.hdr);
        ReachesStep(s, s2, OfUpdate(id, UpdateHdr(io.hdr)), {});
        assert s2.updates[id := u3] == s.updates[id := u3];
      }
    }
  }

  lemma ReachesLookupMove(s: State, t: State, id: nat, m: Metrics, l: Lookup, a: LookupAction)
    requires Reaches(s, SetLookup(t, id, m, l), {})
    ensures var (n, k) := MoveLookup(t.shared.(metrics := m), l, a); Reaches(s, SetLookup(t, id, n, k), {})
  {
    ReachesStep(s, SetLookup(t, id, m, l), OfLookup(id, a), {});
    var (n, k) := MoveLookup(t.shared.(metrics := m), l, a);
    assert SetLookup(t, id, m, l).lookups[id := k] == t.lookups[id := k];
  }

  lemma LookupReadsAreRun(s: State, id: nat, key: Key, io: LookupIO)
    requires id !in s.lookups && io.root
    ensures Reaches(s, SetLookup(s, id, s.shared.metrics, LookupReads(s.shared, key, io)), {})
  {
    hide Reaches;
    var m := s.shared.metrics;
    var l := NewLookup(key);
    ReachesHere(s, {});
    ReachesStep(s, s, OfLookup(id, BeginLookup(key)), {});
    ReachesLookupMove(s, s, id, m, l, MakeRoot(true));
    var l1 := l.(stage := Reading);
    ReachesLookupMove(s, s, id, m, l1, ReadMeta(io.meta));
    var l2 := l1.(meta := ReadSmall(s.shared.fs.metas, key, io.meta));
    ReachesLookupMove(s, s, id, m, l2, ReadHdr(io.hdr));
    var l3 := l2.(hdr := ReadSmall(s.shared.fs.hdrs, key, io.hdr));
    ReachesLookupMove(s, s, id, m, l3, OpenBody(io.body));
  }

  lemma AfterJoinIsRun(s: State, id: nat, m: Metrics, l: Lookup, io: LookupIO)
    requires l.stage.Sizing? ==> m == s.shared.metrics
    requires Reaches(s, SetLookup(s, id, m, l), {})
    ensures var (n, k) := AfterJoin(s.shared, m, l, io); Reaches(s, SetLookup(s, id, n, k), {})
  {
    hide Reaches;
    if l.stage.Sizing? {
      var (m2, l2) := MoveSize(s.shared, l, io.size);
      ReachesLookupMove(s, s, id, m, l, Size(io.size));
      if l2.stage.Decoding? {
        ReachesLookupMove(s, s, id, m2, l2, Decode(io.decode));
      }
    }
  }

  lemma LookupIsRun(s: State, id: nat, key: Key, io: LookupIO)
    requires id !in s.lookups
    ensures var (m, l) := LookupCall(s.shared, key, io); Reaches(s, SetLookup(s, id, m, l), {})
  {
    hide Reaches;
    if !io.root {
      ReachesHere(s, {});
      ReachesStep(s, s, OfLookup(id, BeginLookup(key)), {});
      ReachesLookupMove(s, s, id, s.shared.metrics, NewLookup(key), MakeRoot(false));
    } else {
      LookupReadsAreRun(s, id, key, io);
      var l0 := LookupReads(s.shared, key, io);
      var (m1, l1) := MoveJoin(s.shared, l0);
      ReachesLookupMove(s, s, id, s.shared.metrics, l0, Join);
      AfterJoinIsRun(s, id, m1, l1, io);
    }
  }
}
