/** The counters against the disk. `size_bytes` is not the number of bytes on disk, and the laws say what the
    difference is: in every run, with every failure, copy and interleaving, at every moment, it is the difference
    at start plus what each call contributed to it. */
module Accounting {
  import opened Basics
  import opened Sums
  import opened FileSystem
  import opened HitSpec
  import opened CacheMachine
  import opened CoreInvariant
  import opened ReaderIsolation
  import opened SnapshotSafety

  /** What a miss handler adds to `size_bytes` minus the bytes on disk: nothing if it replaced no body, all it wrote
      was counted, and all it counted was placed. */
  function WriterDrift(w: Writer): int {
    w.displaced - w.arrived + w.credited
  }

  /** The same for a purge: nothing if the length it measured was the length it unlinked, and it got to count it. */
  function PurgeDrift(p: Purge): int {
    p.removed - p.debited
  }

  ghost function Drift(s: State): int {
    Sum(s.writers, WriterDrift) + Sum(s.purges, PurgeDrift)
  }

  ghost function Gap(sh: Shared): int {
    sh.metrics.sizeBytes - BytesOnDisk(sh.fs)
  }

  // - - - one step

  /** The step changes at most the body of `k`. */
  ghost predicate Confined(fs: FS, after: FS, k: Key) {
    forall j :: j != k ==> (j in after.bodies <==> j in fs.bodies) && BodyLen(after, j) == BodyLen(fs, j)
  }

  lemma CopyCreateConfined(fs: FS, k: Key, t: nat)
    requires WellFormed(fs)
    ensures Confined(fs, CreateBody(fs, k, t), k) && BodyLen(CreateBody(fs, k, t), k) == 0
  {
  }

  lemma OverwriteConfined(fs: FS, inode: nat, k: Key, content: Bytes)
    requires WellFormed(fs) && IsBody(fs, inode, k)
    ensures var after := SetContent(fs, inode, content);
      && Confined(fs, after, k)
      && BodyLen(after, k) == if k in fs.bodies && fs.bodies[k] == inode then |content| else BodyLen(fs, k)
  {
  }

  lemma RenameConfined(fs: FS, t: nat)
    requires WellFormed(fs) && t in fs.tmps
    ensures var k := fs.tmps[t].key;
      Confined(fs, Rename(fs, t), k) && BodyLen(Rename(fs, t), k) == |Content(fs, fs.tmps[t].inode)|
  {
  }

  lemma CreateTmpConfined(fs: FS, t: nat, k: Key)
    requires WellFormed(fs)
    ensures Confined(fs, CreateTmp(fs, t, k), k) && BodyLen(CreateTmp(fs, t, k), k) == BodyLen(fs, k)
  {
  }

  lemma WriteAtGrows(content: Bytes, offset: nat, data: Bytes)
    ensures |WriteAt(content, offset, data)| == Max(Max(|content|, offset), offset + |data|)
  {
  }

  /** Stages before the handler touches the body path. */
  predicate BeforeBody(stage: WriterStage) {
    Early(stage) || stage.Open? || stage.FinishDir? || stage.Promote? || stage.CopyOpening? || stage.CopyCreating?
  }

  /** What a miss handler may have in its ledger at each stage. */
  predicate LedgerOk(w: Writer) {
    && (BeforeBody(w.stage) ==> w.displaced == 0 && w.arrived == 0)
    && (!(w.stage.Dropping? || w.stage.Closed?) ==> w.credited == 0)
  }

  /** The body of the writer's key and the size counter change by what the ledger says. */
  ghost predicate Balanced(sh: Shared, w: Writer, after: Shared, v: Writer) {
    && Confined(sh.fs, after.fs, w.key)
    && (after.metrics.sizeBytes - BodyLen(after.fs, w.key)) - (sh.metrics.sizeBytes - BodyLen(sh.fs, w.key))
       == WriterDrift(v) - WriterDrift(w)
    && LedgerOk(v)
  }

  lemma CopyChunkBalanced(sh: Shared, id: nat, w: Writer, size: nat)
    requires WellFormed(sh.fs) && WriterOk(sh.fs, id, w) && LedgerOk(w) && w.stage.Copying?
    ensures var (after, v) := MoveCopyChunk(sh, w, size); Balanced(sh, w, after, v)
  {
    var to, offset := w.stage.to, w.stage.offset;
    var from := Content(sh.fs, w.inode);
    if offset <= |from| {
      var n := Min(size, |from| - offset);
      WriteAtGrows(Content(sh.fs, to), offset, from[offset..offset + n]);
      OverwriteConfined(sh.fs, to, w.key, WriteAt(Content(sh.fs, to), offset, from[offset..offset + n]));
    }
  }

  lemma WriteBalanced(sh: Shared, id: nat, w: Writer, data: Bytes, io: WriteIO)
    requires WellFormed(sh.fs) && WriterOk(sh.fs, id, w) && LedgerOk(w) && w.stage.Open?
    ensures var (after, v) := MoveWrite(sh, id, w, data, io); Balanced(sh, w, after, v)
  {
  }

  lemma PlaceBalanced(sh: Shared, id: nat, w: Writer, ok: bool)
    requires WellFormed(sh.fs) && WriterOk(sh.fs, id, w) && LedgerOk(w)
    ensures w.stage.Promote? ==> var (after, v) := MoveRename(sh, id, w, ok); Balanced(sh, w, after, v)
    ensures w.stage.CopyCreating? ==> var (after, v) := MoveCopyCreate(sh, id, w, ok); Balanced(sh, w, after, v)
    ensures w.stage.CreatingTmp? ==> var (after, v) := MoveCreate(sh, id, w, ok); Balanced(sh, w, after, v)
  {
    hide CreateBody, CreateTmp, Rename, WellFormed;
    if w.stage.Promote? {
      RenameConfined(sh.fs, id);
    }
    CopyCreateConfined(sh.fs, w.key, id);
    CreateTmpConfined(sh.fs, id, w.key);
  }

  lemma WriterBalanced(sh: Shared, id: nat, w: Writer, a: WriterAction)
    requires WellFormed(sh.fs) && WriterOk(sh.fs, id, w) && LedgerOk(w)
    ensures var (after, v) := MoveWriter(sh, id, w, a); Balanced(sh, w, after, v)
  {
    hide WellFormed, WriterOk, Balanced, LedgerOk, MoveRename, MoveCopyCreate, MoveCreate, MoveWrite, MoveCopyChunk;
    NoStepBalanced(sh, w);
    match a
    case CopyChunk(size) => if w.stage.Copying? { CopyChunkBalanced(sh, id, w, size); }
    case Create(ok) => PlaceBalanced(sh, id, w, ok);
    case Write(data, io) => if w.stage.Open? { WriteBalanced(sh, id, w, data, io); }
    case RenameTmp(ok) => PlaceBalanced(sh, id, w, ok);
    case CopyCreate(ok) => PlaceBalanced(sh, id, w, ok);
    case CountSize => if w.stage.CountingSize? { CountBalanced(sh, w); }
    case CountInsert => if w.stage.CountingInsert? { CountBalanced(sh, w); }
    case _ => SideStepBalanced(sh, id, w, a);
  }

  lemma NoStepBalanced(sh: Shared, w: Writer)
    requires LedgerOk(w)
    ensures Balanced(sh, w, sh, w)
  {
  }

  lemma CountBalanced(sh: Shared, w: Writer)
    requires LedgerOk(w)
    ensures w.stage.CountingInsert? ==> var (after, v) := MoveCountInsert(sh, w); Balanced(sh, w, after, v)
    ensures w.stage.CountingSize? ==> var (after, v) := MoveCountSize(sh, w); Balanced(sh, w, after, v)
  {
  }

  predicate SideStep(a: WriterAction) {
    !a.CopyChunk? && !a.Create? && !a.Write? && !a.RenameTmp? && !a.CopyCreate? && !a.CountSize? && !a.CountInsert?
  }

  /** Steps that leave bodies and counters alone, and the ledger of the writer. */
  lemma SideStepBalanced(sh: Shared, id: nat, w: Writer, a: WriterAction)
    requires LedgerOk(w) && SideStep(a)
    ensures var (after, v) := MoveWriter(sh, id, w, a); Balanced(sh, w, after, v)
  {
    hide MoveWriter, SideStep, LedgerOk, WriterDrift;
    SideStepFiles(sh, id, w, a);
    SideStepLedger(sh, id, w, a);
  }

  lemma SideStepFiles(sh: Shared, id: nat, w: Writer, a: WriterAction)
    requires SideStep(a)
    ensures var after := MoveWriter(sh, id, w, a).0;
      after.fs.bodies == sh.fs.bodies && after.fs.inodes == sh.fs.inodes && after.metrics == sh.metrics
  {
  }

  lemma SideStepLedger(sh: Shared, id: nat, w: Writer, a: WriterAction)
    requires LedgerOk(w) && SideStep(a)
    ensures var v := MoveWriter(sh, id, w, a).1; WriterDrift(v) == WriterDrift(w) && LedgerOk(v)
  {
    hide MoveWriter, LedgerOk, WriterDrift;
    if a.CopyOpen? || a.CopyEnd? || a.CopyClean? || a.WriteMeta? || a.WriteHdr? {
      WriteStepLedger(sh, id, w, a);
    } else {
      OtherStepLedger(sh, id, w, a);
    }
  }

  lemma WriteStepLedger(sh: Shared, id: nat, w: Writer, a: WriterAction)
    requires LedgerOk(w) && (a.CopyOpen? || a.CopyEnd? || a.CopyClean? || a.WriteMeta? || a.WriteHdr?)
    ensures var v := MoveWriter(sh, id, w, a).1; WriterDrift(v) == WriterDrift(w) && LedgerOk(v)
  {
  }

  lemma OtherStepLedger(sh: Shared, id: nat, w: Writer, a: WriterAction)
    requires LedgerOk(w) && (a.MakeDirs? || a.Finish? || a.Abandon? || a.Drop? || a.Begin?)
    ensures var v := MoveWriter(sh, id, w, a).1; WriterDrift(v) == WriterDrift(w) && LedgerOk(v)
  {
    hide MoveMakeDirs;
    if a.MakeDirs? { MakeDirsFree(sh, w, a.ok); }
  }

  predicate BeforeUnlink(stage: PurgeStage) {
    stage.Measuring? || stage.RemovingBody?
  }

  predicate Counting(stage: PurgeStage) {
    stage.CountingEviction? || stage.CountingBytes? || stage.CountingDown?
  }

  predicate PurgeLedgerOk(p: Purge) {
    && (BeforeUnlink(p.stage) ==> p.removed == 0)
    && (BeforeUnlink(p.stage) || Counting(p.stage) ==> p.debited == 0)
  }

  lemma PurgeBalanced(sh: Shared, p: Purge, a: PurgeAction)
    requires WellFormed(sh.fs) && PurgeLedgerOk(p)
    ensures var (after, q) := MovePurge(sh, p, a);
      && Confined(sh.fs, after.fs, p.key)
      && (after.metrics.sizeBytes - BodyLen(after.fs, p.key)) - (sh.metrics.sizeBytes - BodyLen(sh.fs, p.key))
         == PurgeDrift(q) - PurgeDrift(p)
      && PurgeLedgerOk(q)
  {
  }

  // - - - whole runs

  ghost predicate Ledgers(s: State) {
    && (forall id :: id in s.writers ==> LedgerOk(s.writers[id]))
    && (forall id :: id in s.purges ==> PurgeLedgerOk(s.purges[id]))
  }

  lemma StepWriterBalanced(s: State, id: nat, a: WriterAction)
    requires Core(s) && Ledgers(s)
    ensures var t := StepWriter(s, id, a);
      Ledgers(t) && Gap(t.shared) - Gap(s.shared) == Sum(t.writers, WriterDrift) - Sum(s.writers, WriterDrift)
  {
    hide WellFormed, WriterOk, LeftOk, UpdateOk, LookupOk, MoveWriter, BytesOnDisk;
    if id in s.writers {
      var w := s.writers[id];
      var (after, v) := MoveWriter(s.shared, id, w, a);
      assert WriterOk(s.shared.fs, id, w);
      WriterBalanced(s.shared, id, w, a);
      BytesOnDiskChange(s.shared.fs, after.fs, w.key);
      SumUpdate(s.writers, WriterDrift, id, v);
    } else if a.Begin? {
      SumUpdate(s.writers, WriterDrift, id, NewWriter(a.key, a.meta, a.serialised));
    }
  }

  lemma StepPurgeBalanced(s: State, id: nat, a: PurgeAction)
    requires Core(s) && Ledgers(s)
    ensures var t := StepPurge(s, id, a);
      Ledgers(t) && Gap(t.shared) - Gap(s.shared) == Sum(t.purges, PurgeDrift) - Sum(s.purges, PurgeDrift)
  {
    if id in s.purges {
      var p := s.purges[id];
      var (after, q) := MovePurge(s.shared, p, a);
      PurgeBalanced(s.shared, p, a);
      BytesOnDiskChange(s.shared.fs, after.fs, p.key);
      SumUpdate(s.purges, PurgeDrift, id, q);
    } else if a.BeginPurge? {
      SumUpdate(s.purges, PurgeDrift, id, NewPurge(a.key));
    }
  }

  lemma StepUpdateBalanced(s: State, id: nat, a: UpdateAction)
    ensures var t := StepUpdate(s, id, a);
      && Gap(t.shared) == Gap(s.shared) && t.writers == s.writers && t.purges == s.purges
  {
    if id in s.updates {
      BytesOnDiskChange(s.shared.fs, MoveUpdate(s.shared, id, s.updates[id], a).0.fs, s.updates[id].key);
    }
  }

  lemma StepLookupBalanced(s: State, id: nat, a: LookupAction)
    ensures var t := StepLookup(s, id, a);
      && Gap(t.shared) == Gap(s.shared) && t.writers == s.writers && t.purges == s.purges
  {
  }

  lemma StepBalanced(s: State, a: Action)
    requires Core(s) && Ledgers(s)
    ensures Ledgers(Step(s, a)) && Gap(Step(s, a).shared) - Gap(s.shared) == Drift(Step(s, a)) - Drift(s)
  {
    match a
    case OfWriter(id, w) => StepWriterBalanced(s, id, w);
    case OfPurge(id, p) => StepPurgeBalanced(s, id, p);
    case OfUpdate(id, u) => StepUpdateBalanced(s, id, u);
    case OfLookup(id, l) => StepLookupBalanced(s, id, l);
  }

  /** The accounting law. */
  lemma {:induction false} ExactAccounting(fs: FS, size: int, acts: seq<Action>)
    requires Bootable(fs)
    ensures var s := Run(Boot(fs, size), acts);
      && Core(s) && Ledgers(s)
      && s.shared.metrics.sizeBytes - BytesOnDisk(s.shared.fs) == size - BytesOnDisk(fs) + Drift(s)
  {
    RunCore(Boot(fs, size), acts);
    if acts != [] {
      ExactAccounting(fs, size, acts[..|acts| - 1]);
      StepBalanced(Run(Boot(fs, size), acts[..|acts| - 1]), acts[|acts| - 1]);
    }
  }

  // - - - when every call has ended

  /** In runs without copies: what a handler placed is what it wrote, unless a failed write left bytes behind, and
      what it was credited is what it reported. */
  predicate Paid(w: Writer) {
    && (w.promoted ==> w.arrived >= w.written && (w.arrived == w.written <==> !w.torn))
    && (!w.promoted ==> w.arrived == 0 && w.displaced == 0)
    && w.credited == Reported(w)
    && (Reports(w) ==> w.promoted && Reported(w) == w.written)
  }

  predicate Reports(w: Writer) {
    (w.stage.Dropping? && w.stage.pending.Created?) || (w.stage.Closed? && w.stage.result.Created?)
  }

  /** The size the handler told the eviction manager. */
  function Reported(w: Writer): int {
    if w.stage.Dropping? && w.stage.pending.Created? then w.stage.pending.size
    else if w.stage.Closed? && w.stage.result.Created? then w.stage.result.size
    else 0
  }

  predicate PurgePaid(p: Purge) {
    && (BeforeUnlink(p.stage) ==> !p.existed)
    && (!p.existed ==> p.removed == 0 && p.debited == 0 && !Counting(p.stage))
    && (p.existed && !BeforeUnlink(p.stage) && !Counting(p.stage) ==> p.debited == p.measured)
  }

  lemma WriterPays(sh: Shared, id: nat, w: Writer, a: WriterAction)
    requires WellFormed(sh.fs) && WriterOk(sh.fs, id, w) && WriterGood(sh.fs, id, w) && Paid(w)
    requires !BeginsCopy(sh, w, a)
    ensures Paid(MoveWriter(sh, id, w, a).1)
  {
    hide WellFormed, Rename, CreateBody, CreateTmp, RemoveTmp, WriteAt, SetContent, PutMeta, PutHdr;
    hide MoveRename, MoveWrite, HoldsChunks;
    match a
    case CopyOpen(_) =>
    case CopyCreate(_) =>
    case CopyChunk(_) =>
    case CopyEnd(_) =>
    case CopyClean(_) =>
    case RenameTmp(ok) => if w.stage.Promote? { RenamePays(sh, id, w, ok); }
    case Write(data, io) => if w.stage.Open? { WritePays(sh, id, w, data, io); }
    case CountSize =>
    case Drop(_) =>
    case WriteMeta(_) =>
    case WriteHdr(_) =>
    case _ => WriterStillPaid(sh, id, w, a);
  }

  lemma WritePays(sh: Shared, id: nat, w: Writer, data: Bytes, io: WriteIO)
    requires Paid(w) && w.stage.Open? && !w.promoted
    ensures Paid(MoveWrite(sh, id, w, data, io).1)
  {
  }

  lemma RenamePays(sh: Shared, id: nat, w: Writer, ok: bool)
    requires WellFormed(sh.fs) && WriterOk(sh.fs, id, w) && Paid(w) && w.stage.Promote?
    ensures Paid(MoveRename(sh, id, w, ok).1)
  {
  }

  /** Steps that neither place nor count nor write anything. */
  lemma WriterStillPaid(sh: Shared, id: nat, w: Writer, a: WriterAction)
    requires Paid(w)
    requires a.Begin? || a.MakeDirs? || a.Create? || a.Finish? || a.CountInsert? || a.Abandon?
    ensures Paid(MoveWriter(sh, id, w, a).1)
  {
    hide MoveMakeDirs;
    match a
    case Begin(_, _, _) =>
    case MakeDirs(ok) => MakeDirsFree(sh, w, ok);
    case Create(_) =>
    case Finish =>
    case CountInsert =>
    case Abandon =>
  }

  lemma PurgePays(sh: Shared, p: Purge, a: PurgeAction)
    requires PurgePaid(p)
    ensures PurgePaid(MovePurge(sh, p, a).1)
  {
  }

  ghost predicate AllPaid(s: State) {
    && (forall id :: id in s.writers ==> Paid(s.writers[id]))
    && (forall id :: id in s.purges ==> PurgePaid(s.purges[id]))
  }

  lemma StepPays(s: State, a: Action)
    requires AllPaid(s)
    requires a.OfWriter? && a.id in s.writers ==>
      Safe(s, s.writers[a.id].key) && !StartsCopy(s, a, s.writers[a.id].key)
    ensures AllPaid(Step(s, a))
  {
    hide Safe, WriterGood, WriterOk, WellFormed, MoveWriter, MovePurge;
    match a
    case OfWriter(id, w) =>
      if id in s.writers {
        SafeWriter(s, id, s.writers[id].key);
        WriterPays(s.shared, id, s.writers[id], w);
      }
    case OfPurge(id, p) => if id in s.purges { PurgePays(s.shared, s.purges[id], p); }
    case OfUpdate(id, u) =>
    case OfLookup(id, l) =>
  }

  /** No finish of the run falls back to copying. */
  ghost predicate NoCopiesAtAll(s: State, acts: seq<Action>) {
    forall k :: NoCopies(s, acts, k)
  }

  lemma {:induction false} RunPays(fs: FS, size: int, acts: seq<Action>)
    requires Bootable(fs) && NoCopiesAtAll(Boot(fs, size), acts)
    ensures AllPaid(Run(Boot(fs, size), acts))
  {
    if acts != [] {
      hide Safe, Step, AllPaid, StartsCopy;
      var rest, a := acts[..|acts| - 1], acts[|acts| - 1];
      var s := Run(Boot(fs, size), rest);
      forall k ensures NoCopies(Boot(fs, size), rest, k) && !StartsCopy(s, a, k) {
        assert NoCopies(Boot(fs, size), acts, k);
      }
      RunPays(fs, size, rest);
      if a.OfWriter? && a.id in s.writers { RunSafe(fs, size, rest, s.writers[a.id].key); }
      StepPays(s, a);
    }
  }

  function Overwritten(w: Writer): int { w.displaced }

  /** Bytes placed by a finish that then failed or was dropped. */
  function Uncredited(w: Writer): int { if Reports(w) then 0 else w.arrived }

  function MinusUncredited(w: Writer): int { -Uncredited(w) }

  lemma {:induction false} SumNegated(m: map<nat, Writer>)
    ensures Sum(m, MinusUncredited) == -Sum(m, Uncredited)
    decreases |m|
  {
    if m != map[] {
      var k :| k in m;
      SumTake(m, MinusUncredited, k);
      SumTake(m, Uncredited, k);
      assert |m - {k}| < |m| by { assert (m - {k}).Keys == m.Keys - {k}; }
      SumNegated(m - {k});
    }
  }

  function Nothing(p: Purge): int { 0 }

  lemma {:induction false} SumNothing(m: map<nat, Purge>)
    ensures Sum(m, Nothing) == 0
    decreases |m|
  {
    if m != map[] {
      var k :| k in m;
      SumTake(m, Nothing, k);
      assert |m - {k}| < |m| by { assert (m - {k}).Keys == m.Keys - {k}; }
      SumNothing(m - {k});
    }
  }

  predicate MeasuredRight(p: Purge) {
    p.stage.Purged? && (p.existed ==> p.measured == p.removed)
  }

  /** The handler is not in the middle of its finish, and what it placed, if anything, is what it had counted. */
  predicate AtRest(w: Writer) {
    (w.stage.Closed? || BeforeBody(w.stage)) && (w.promoted ==> !w.torn)
  }

  /** With no copies, no placed body that a failed write had left bytes in, and purges that measured what they
      unlinked: whenever no finish and no purge is half done, however the calls before interleaved and failed,
      `size_bytes` minus the bytes on disk has grown by the bytes of replaced bodies and shrunk by the bytes of
      finishes that placed a body and then reported failure. */
  lemma {:induction false} AccountingAtRest(fs: FS, size: int, acts: seq<Action>)
    requires Bootable(fs) && NoCopiesAtAll(Boot(fs, size), acts)
    requires var s := Run(Boot(fs, size), acts);
      && (forall id :: id in s.writers ==> AtRest(s.writers[id]))
      && (forall id :: id in s.purges ==> MeasuredRight(s.purges[id]))
    ensures var s := Run(Boot(fs, size), acts);
      s.shared.metrics.sizeBytes - BytesOnDisk(s.shared.fs)
        == size - BytesOnDisk(fs) + Sum(s.writers, Overwritten) - Sum(s.writers, Uncredited)
  {
    ExactAccounting(fs, size, acts);
    RunPays(fs, size, acts);
    var s := Run(Boot(fs, size), acts);
    forall id | id in s.writers
      ensures WriterDrift(s.writers[id]) == Overwritten(s.writers[id]) + MinusUncredited(s.writers[id])
    {
      assert Paid(s.writers[id]) && LedgerOk(s.writers[id]);
    }
    forall id | id in s.purges ensures PurgeDrift(s.purges[id]) == Nothing(s.purges[id]) {
      assert PurgePaid(s.purges[id]);
    }
    SumAdd(s.writers, Overwritten, MinusUncredited, WriterDrift);
    SumNegated(s.writers);
    SumEqual(s.purges, PurgeDrift, Nothing);
    SumNothing(s.purges);
  }

  // - - - the counters among themselves

  /** Counted as evicted, but not yet subtracted. */
  function Pending(p: Purge): int { if p.stage.CountingDown? then p.measured else 0 }

  function EvictionCounted(p: Purge): int { if p.existed && !p.stage.CountingEviction? then 1 else 0 }

  function EvictedBytes(p: Purge): int {
    if p.existed && !p.stage.CountingEviction? && !p.stage.CountingBytes? then p.measured else 0
  }

  function One(p: Purge): int { 1 }

  function OneWriter(w: Writer): int { 1 }

  function Inserted(w: Writer): int { if w.stage.CountingSize? || Reports(w) then 1 else 0 }

  function LookupMissed(l: Lookup): int { if l.stage.Missed? then 1 else 0 }

  function HitCounted(l: Lookup): int {
    if HasHit(l.stage) || l.stage == LookupFailed(true) then 1 else 0
  }

  function HitServed(l: Lookup): int { if l.stage.Served? then 1 else 0 }

  function HitLive(l: Lookup): int { if l.stage.Serving? then 1 else 0 }

  ghost predicate Tallied(s: State, size: int) {
    var m := s.shared.metrics;
    && m.sizeBytes + m.evictedBytes == size + Sum(s.writers, Reported) + Sum(s.purges, Pending)
    && m.evictions == Sum(s.purges, EvictionCounted)
    && m.purgeAttempts == Sum(s.purges, One)
    && m.evictedBytes == Sum(s.purges, EvictedBytes)
    && m.misses == Sum(s.writers, OneWriter) + Sum(s.lookups, LookupMissed)
    && m.inserts == Sum(s.writers, Inserted)
    && m.lookupHits == Sum(s.lookups, HitCounted)
    && m.servedHits == Sum(s.lookups, HitServed)
  }

  predicate OnlySizes(m: Metrics, n: Metrics) {
    n == m.(inserts := n.inserts, sizeBytes := n.sizeBytes)
  }

  lemma WriterTallies(sh: Shared, id: nat, w: Writer, a: WriterAction)
    ensures var (after, v) := MoveWriter(sh, id, w, a);
      && OnlySizes(sh.metrics, after.metrics)
      && after.metrics.sizeBytes - sh.metrics.sizeBytes == Reported(v) - Reported(w)
      && after.metrics.inserts - sh.metrics.inserts == Inserted(v) - Inserted(w)
  {
    match a
    case CountInsert =>
    case CountSize =>
    case Begin(_, _, _) =>
    case Finish =>
    case Abandon =>
    case Drop(_) =>
    case WriteMeta(_) =>
    case WriteHdr(_) =>
    case _ => WriterReportsNothing(sh, id, w, a);
  }

  lemma WriterReportsNothing(sh: Shared, id: nat, w: Writer, a: WriterAction)
    requires a.MakeDirs? || a.Create? || a.Write? || a.RenameTmp? || a.CopyOpen? || a.CopyCreate? || a.CopyChunk?
      || a.CopyEnd? || a.CopyClean?
    ensures var (after, v) := MoveWriter(sh, id, w, a);
      after.metrics == sh.metrics && Reported(v) == Reported(w) && Inserted(v) == Inserted(w)
  {
    hide MoveMakeDirs;
    match a
    case MakeDirs(ok) => MakeDirsFree(sh, w, ok);
    case Create(_) =>
    case Write(_, _) =>
    case RenameTmp(_) =>
    case CopyOpen(_) =>
    case CopyCreate(_) =>
    case CopyChunk(_) =>
    case CopyEnd(_) =>
    case CopyClean(_) =>
  }

  lemma PurgeTallies(sh: Shared, p: Purge, a: PurgeAction)
    requires PurgePaid(p)
    ensures var (after, q) := MovePurge(sh, p, a);
      var m, n := sh.metrics, after.metrics;
      && n == m.(evictions := n.evictions, evictedBytes := n.evictedBytes, sizeBytes := n.sizeBytes)
      && n.sizeBytes + n.evictedBytes - m.sizeBytes - m.evictedBytes == Pending(q) - Pending(p)
      && n.evictions - m.evictions == EvictionCounted(q) - EvictionCounted(p)
      && n.evictedBytes - m.evictedBytes == EvictedBytes(q) - EvictedBytes(p)
  {
  }

  lemma LookupTallies(sh: Shared, l: Lookup, a: LookupAction)
    ensures var (n, k) := MoveLookup(sh, l, a);
      var m := sh.metrics;
      && n == m.(misses := n.misses, lookupHits := n.lookupHits, servedHits := n.servedHits)
      && n.lookupHits - m.lookupHits == HitCounted(k) - HitCounted(l)
      && n.servedHits - m.servedHits == HitServed(k) - HitServed(l)
      && n.misses - m.misses == LookupMissed(k) - LookupMissed(l)
  {
  }

  ghost predicate PurgesOrderly(s: State) {
    forall id :: id in s.purges ==> PurgePaid(s.purges[id])
  }

  lemma StepWriterTallies(s: State, id: nat, a: WriterAction, size: int)
    requires Tallied(s, size)
    ensures Tallied(StepWriter(s, id, a), size)
  {
    if id in s.writers {
      WriterTallies(s.shared, id, s.writers[id], a);
      var v := MoveWriter(s.shared, id, s.writers[id], a).1;
      SumUpdate(s.writers, Reported, id, v);
      SumUpdate(s.writers, Inserted, id, v);
      SumUpdate(s.writers, OneWriter, id, v);
    } else if a.Begin? {
      var v := NewWriter(a.key, a.meta, a.serialised);
      SumUpdate(s.writers, Reported, id, v);
      SumUpdate(s.writers, Inserted, id, v);
      SumUpdate(s.writers, OneWriter, id, v);
    }
  }

  lemma StepPurgeTallies(s: State, id: nat, a: PurgeAction, size: int)
    requires Tallied(s, size) && PurgesOrderly(s)
    ensures Tallied(StepPurge(s, id, a), size) && PurgesOrderly(StepPurge(s, id, a))
  {
    if id in s.purges || a.BeginPurge? {
      var q := if id in s.purges then MovePurge(s.shared, s.purges[id], a).1 else NewPurge(a.key);
      if id in s.purges {
        PurgeTallies(s.shared, s.purges[id], a);
        PurgePays(s.shared, s.purges[id], a);
      }
      SumUpdate(s.purges, Pending, id, q);
      SumUpdate(s.purges, EvictionCounted, id, q);
      SumUpdate(s.purges, EvictedBytes, id, q);
      SumUpdate(s.purges, One, id, q);
    }
  }

  lemma StepLookupTallies(s: State, id: nat, a: LookupAction, size: int)
    requires Tallied(s, size)
    ensures Tallied(StepLookup(s, id, a), size)
  {
    if id in s.lookups || a.BeginLookup? {
      var k := if id in s.lookups then MoveLookup(s.shared, s.lookups[id], a).1 else NewLookup(a.key);
      if id in s.lookups {
        LookupTallies(s.shared, s.lookups[id], a);
      }
      SumUpdate(s.lookups, HitCounted, id, k);
      SumUpdate(s.lookups, HitServed, id, k);
      SumUpdate(s.lookups, LookupMissed, id, k);
    }
  }

  lemma StepUpdateTallies(s: State, id: nat, a: UpdateAction)
    ensures var t := StepUpdate(s, id, a);
      t.shared.metrics == s.shared.metrics && t.writers == s.writers && t.purges == s.purges && t.lookups == s.lookups
  {
  }

  lemma StepTallies(s: State, a: Action, size: int)
    requires Tallied(s, size) && PurgesOrderly(s)
    ensures Tallied(Step(s, a), size) && PurgesOrderly(Step(s, a))
  {
    match a
    case OfWriter(id, x) => StepWriterTallies(s, id, x, size);
    case OfPurge(id, x) => StepPurgeTallies(s, id, x, size);
    case OfUpdate(id, x) => StepUpdateTallies(s, id, x);
    case OfLookup(id, x) => StepLookupTallies(s, id, x, size);
  }

  lemma {:induction false} RunTallies(fs: FS, size: int, acts: seq<Action>)
    ensures Tallied(Run(Boot(fs, size), acts), size) && PurgesOrderly(Run(Boot(fs, size), acts))
  {
    if acts != [] {
      RunTallies(fs, size, acts[..|acts| - 1]);
      StepTallies(Run(Boot(fs, size), acts[..|acts| - 1]), acts[|acts| - 1], size);
    }
  }

  /** No purge has counted its bytes as evicted without having subtracted them from the size. */
  ghost predicate BetweenPurges(s: State) {
    forall id :: id in s.purges ==> !s.purges[id].stage.CountingDown?
  }

  /** Gauge conservation: in every run, whenever no purge is between its two byte counters, `size_bytes` plus
      `evicted_bytes` is the size at start plus all sizes reported as created. */
  lemma {:induction false} GaugeConservation(fs: FS, size: int, acts: seq<Action>)
    requires BetweenPurges(Run(Boot(fs, size), acts))
    ensures var s := Run(Boot(fs, size), acts);
      s.shared.metrics.sizeBytes + s.shared.metrics.evictedBytes == size + Sum(s.writers, Reported)
  {
    RunTallies(fs, size, acts);
    var s := Run(Boot(fs, size), acts);
    SumEqual(s.purges, Pending, Nothing);
    SumNothing(s.purges);
  }

  lemma {:induction false} SumOnes<T>(m: map<nat, T>, f: T -> int)
    requires forall k :: k in m ==> f(m[k]) == 1
    ensures Sum(m, f) == |m|
    decreases |m|
  {
    if m != map[] {
      var k :| k in m;
      SumTake(m, f, k);
      assert |m - {k}| == |m| - 1 by { assert (m - {k}).Keys == m.Keys - {k}; }
      SumOnes(m - {k}, f);
    }
  }

  /** At every moment of every run each counter says what it is meant to: admissions and lookups that missed; handlers
      that have counted their entry; purges; purges that have counted what they unlinked, and the bytes they measured;
      lookups that found all files and were sized; hit handlers that were finished. */
  lemma {:induction false} CountersExact(fs: FS, size: int, acts: seq<Action>)
    ensures var s := Run(Boot(fs, size), acts);
      var m := s.shared.metrics;
      && m.misses == |s.writers| + Sum(s.lookups, LookupMissed)
      && m.inserts == Sum(s.writers, Inserted)
      && m.purgeAttempts == |s.purges|
      && m.evictions == Sum(s.purges, EvictionCounted)
      && m.evictedBytes == Sum(s.purges, EvictedBytes)
      && m.lookupHits == Sum(s.lookups, HitCounted)
      && m.servedHits == Sum(s.lookups, HitServed)
  {
    RunTallies(fs, size, acts);
    SumOnes(Run(Boot(fs, size), acts).writers, OneWriter);
    SumOnes(Run(Boot(fs, size), acts).purges, One);
  }

  /** In every run, hits served plus hit handlers still open never exceed hits counted, and evictions never exceed
      purge attempts. */
  lemma {:induction false} CountersBounded(fs: FS, size: int, acts: seq<Action>)
    ensures var s := Run(Boot(fs, size), acts);
      && s.shared.metrics.servedHits + Sum(s.lookups, HitLive) <= s.shared.metrics.lookupHits
      && s.shared.metrics.evictions <= s.shared.metrics.purgeAttempts
  {
    RunTallies(fs, size, acts);
    var s := Run(Boot(fs, size), acts);
    SumSplit(s.lookups, HitServed, HitLive, HitCounted);
    SumSplit(s.purges, EvictionCounted, Nothing, One);
    SumNothing(s.purges);
  }
}
