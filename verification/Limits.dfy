/** Where the guarantees end. Each lemma takes any state of the described kind and gives a run from it. */
module Limits {
  import opened Basics
  import opened FileSystem
  import opened HitSpec
  import opened CacheMachine
  import opened CoreInvariant
  import opened WholeCalls
  import opened CallOutcomes
  import opened MapRefinement

  /** A lookup up to its first read. */
  lemma BeginWithMeta(s: State, lid: nat, k: Key) returns (t: State)
    requires lid !in s.lookups
    ensures var l := NewLookup(k).(stage := Reading, meta := ReadSmall(s.shared.fs.metas, k, true));
      t == SetLookup(s, lid, s.shared.metrics, l) && Reaches(s, t, {})
  {
    hide Reaches;
    ReachesHere(s, {});
    ReachesStep(s, s, OfLookup(lid, BeginLookup(k)), {});
    ReachesLookupMove(s, s, lid, s.shared.metrics, NewLookup(k), MakeRoot(true));
    var l := NewLookup(k).(stage := Reading);
    ReachesLookupMove(s, s, lid, s.shared.metrics, l, ReadMeta(true));
    t := SetLookup(s, lid, s.shared.metrics, l.(meta := ReadSmall(s.shared.fs.metas, k, true)));
  }

  /** The rest of a lookup that has read its meta. */
  lemma EndAfterMeta(s: State, lid: nat, k: Key) returns (t: State)
    requires lid in s.lookups && s.lookups[lid].key == k && s.lookups[lid].stage.Reading?
    requires s.lookups[lid].meta.Got? && s.lookups[lid].hdr.Unread? && s.lookups[lid].body.Unopened?
    requires k in s.shared.fs.hdrs && k in s.shared.fs.bodies
    ensures Reaches(s, t, {}) && lid in t.lookups && t.lookups[lid].stage.Serving?
    ensures var l := t.lookups[lid];
      && l.meta == s.lookups[lid].meta
      && l.hdr == Got(s.shared.fs.hdrs[k]) && l.body == OpenFile(s.shared.fs, k, true)
  {
    hide Reaches;
    var l := s.lookups[lid];
    var m := s.shared.metrics;
    ReachesHere(s, {});
    assert SetLookup(s, lid, m, l) == s;
    ReachesLookupMove(s, s, lid, m, l, ReadHdr(true));
    var l1 := l.(hdr := Got(s.shared.fs.hdrs[k]));
    ReachesLookupMove(s, s, lid, m, l1, OpenBody(true));
    var l2 := l1.(body := OpenFile(s.shared.fs, k, true));
    ReachesLookupMove(s, s, lid, m, l2, Join);
    var l3 := l2.(stage := Sizing);
    ReachesLookupMove(s, s, lid, m, l3, Size(true));
    var (m4, l4) := MoveSize(s.shared, l3, true);
    ReachesLookupMove(s, s, lid, m4, l4, Decode(true));
    var (m5, l5) := MoveDecode(s.shared, l4, true);
    t := SetLookup(s, lid, m5, l5);
  }

  /** Two commits can tear a lookup. If the key has an entry and another handler for it is open, a lookup that reads
      the meta file before that handler finishes and the other two files after returns the old internal meta with the
      new header and the new body. No finish copies. */
  lemma ReplacementTearsLookup(s: State, id: nat, lid: nat)
    requires Core(s) && IsOpen(s, id) && lid !in s.lookups && s.writers[id].key in OnDisk(s.shared.fs)
    ensures HoldsChunks(Content(s.shared.fs, s.writers[id].inode), s.writers[id])
    ensures exists t :: && Reaches(s, t, {}) && lid in t.lookups
                        && var w := s.writers[id];
                           var meta := CacheMeta(OnDisk(s.shared.fs)[w.key].meta.internal, w.meta.header);
                           Found(t.lookups[lid]) == Some(Entry(meta, Content(s.shared.fs, w.inode)))
  {
    hide Reaches, Core, HoldsChunks;
    OpenHandler(s, id);
    var w := s.writers[id];
    var k := w.key;
    var s1 := BeginWithMeta(s, lid, k);
    ReachesCore(s, s1, {});
    var s2 := CommitEffect(s1, id);
    assert k in OnDisk(s2.shared.fs) && OnDisk(s2.shared.fs)[k] == Entry(w.meta, Content(s.shared.fs, w.inode));
    ReachesOn(s, s1, s2, {});
    var t := EndAfterMeta(s2, lid, k);
    ReachesOn(s, s2, t, {});
  }

  /** So can a meta update: the old internal meta comes with the new header. */
  lemma RenewalTearsLookup(s: State, uid: nat, lid: nat, k: Key, meta: CacheMeta)
    requires Core(s) && uid !in s.updates && lid !in s.lookups && k in OnDisk(s.shared.fs)
    ensures exists t :: && Reaches(s, t, {}) && lid in t.lookups
                        && var before := OnDisk(s.shared.fs)[k];
                           Found(t.lookups[lid])
                             == Some(Entry(CacheMeta(before.meta.internal, meta.header), before.body))
  {
    hide Reaches, Core;
    var s1 := BeginWithMeta(s, lid, k);
    ReachesCore(s, s1, {});
    var s2 := RenewEffect(s1, uid, k, meta);
    assert k in OnDisk(s2.shared.fs) && OnDisk(s2.shared.fs)[k] == Entry(meta, OnDisk(s.shared.fs)[k].body);
    ReachesOn(s, s1, s2, {});
    var t := EndAfterMeta(s2, lid, k);
    ReachesOn(s, s2, t, {});
  }

  /** Tearing by replacement is not exotic: whatever the cache holds at start, two ordinary commits of one key lead
      there. The meta that the lookup returns is half of the one and half of the other. */
  lemma TornByTwoCommits(fs: FS, size: int, k: Key, m1: CacheMeta, m2: CacheMeta, data: Bytes)
    requires Bootable(fs) && 0 !in fs.tmps && 1 !in fs.tmps
    ensures exists t, l :: && Reaches(Boot(fs, size), t, {}) && l in t.lookups
                           && Found(t.lookups[l]) == Some(Entry(CacheMeta(m1.internal, m2.header), data))
  {
    var boot := Boot(fs, size);
    BootCore(fs, size);
    hide Reaches, OnDisk, Bootable, Core;
    var s2 := CommitOne(boot, 0, k, m1);
    var s4 := DraftOne(s2, 1, k, m2, data);
    ReachesOn(boot, s2, s4, {});
    ReplacementTearsLookup(s4, 1, 0);
    var t :| && Reaches(s4, t, {}) && 0 in t.lookups
             && Found(t.lookups[0]) == Some(Entry(CacheMeta(m1.internal, m2.header), data));
    ReachesOn(boot, s4, t, {});
  }

  lemma CommitOne(s: State, id: nat, k: Key, meta: CacheMeta) returns (t: State)
    requires Core(s) && id !in s.writers && id !in s.shared.fs.tmps
    ensures Reaches(s, t, {}) && Core(t) && t.lookups == s.lookups
    ensures t.shared.fs.tmps.Keys == s.shared.fs.tmps.Keys && t.writers.Keys == s.writers.Keys + {id}
    ensures k in OnDisk(t.shared.fs) && OnDisk(t.shared.fs)[k].meta == meta
  {
    hide Reaches, OnDisk, Core;
    var s1 := AdmitEffect(s, id, k, meta);
    t := CommitEffect(s1, id);
    ReachesOn(s, s1, t, {});
  }

  lemma DraftOne(s: State, id: nat, k: Key, meta: CacheMeta, data: Bytes) returns (t: State)
    requires Core(s) && id !in s.writers && id !in s.shared.fs.tmps
    ensures Reaches(s, t, {}) && Core(t) && IsOpen(t, id) && t.lookups == s.lookups
    ensures OnDisk(t.shared.fs) == OnDisk(s.shared.fs)
    ensures t.writers[id].key == k && t.writers[id].meta == meta && Content(t.shared.fs, t.writers[id].inode) == data
  {
    hide Reaches, OnDisk, Core;
    var s1 := AdmitEffect(s, id, k, meta);
    t := AppendEffect(s1, id, data);
    ReachesOn(s, s1, t, {});
  }

  lemma AdmitEffect(s: State, id: nat, k: Key, meta: CacheMeta)
    returns (t: State)
    requires Core(s) && id !in s.writers && id !in s.shared.fs.tmps
    ensures
      && Reaches(s, t, {}) && Core(t) && IsOpen(t, id)
      && t.writers[id] == NewWriter(k, meta, true).(stage := Open, inode := t.writers[id].inode)
      && t.shared.fs.tmps.Keys == s.shared.fs.tmps.Keys + {id} && t.writers.Keys == s.writers.Keys + {id}
      && t.lookups == s.lookups && OnDisk(t.shared.fs) == OnDisk(s.shared.fs)
  {
    hide Reaches, OnDisk, AdmitCall;
    var (sh, w) := AdmitCall(s.shared, id, k, meta, ADMIT_WORKS);
    AdmitOutcome(s.shared, id, k, meta, ADMIT_WORKS);
    AdmitIsRun(s, id, k, meta, ADMIT_WORKS);
    t := SetWriter(s, id, sh, w);
    ReachesCore(s, t, {});
  }

  lemma AppendEffect(s: State, id: nat, data: Bytes)
    returns (t: State)
    requires Core(s) && IsOpen(s, id) && !s.writers[id].torn
    ensures
      && Reaches(s, t, {}) && Core(t) && IsOpen(t, id)
      && t.writers[id].key == s.writers[id].key && t.writers[id].meta == s.writers[id].meta
      && Content(t.shared.fs, t.writers[id].inode) == Flatten(s.writers[id].chunks) + data
      && t.lookups == s.lookups && OnDisk(t.shared.fs) == OnDisk(s.shared.fs)
  {
    hide Core, Reaches, OnDisk, MoveWrite, WellFormed, WriterOk;
    OpenHandler(s, id);
    var w := s.writers[id];
    var (sh, v) := MoveWrite(s.shared, id, w, data, WriteWorks);
    WriterCallsAreRuns(s, id, data, WriteWorks, true);
    WriteOutcome(s.shared, id, w, data, WriteWorks);
    FlattenSnoc(w.chunks, data);
    t := SetWriter(s, id, sh, v);
    ReachesCore(s, t, {});
    OpenHandler(t, id);
  }

  lemma RenewEffect(s: State, id: nat, k: Key, meta: CacheMeta)
    returns (t: State)
    requires Core(s) && id !in s.updates && k in OnDisk(s.shared.fs)
    ensures
      && Reaches(s, t, {}) && t.lookups == s.lookups
      && OnDisk(t.shared.fs) == Refresh(OnDisk(s.shared.fs), k, meta)
  {
    hide Reaches, UpdateCall;
    var (sh, u) := UpdateCall(s.shared, id, k, meta, UPDATE_WORKS);
    UpdateOutcome(s.shared, id, k, meta, UPDATE_WORKS);
    UpdateIsRun(s, id, k, meta, UPDATE_WORKS);
    t := SetUpdate(s, id, sh, u);
  }

  lemma CommitEffect(s: State, id: nat)
    returns (t: State)
    requires Core(s) && IsOpen(s, id)
    ensures
      && Reaches(s, t, {}) && Core(t)
      && t.shared.fs.tmps == s.shared.fs.tmps - {id} && t.writers.Keys == s.writers.Keys
      && t.lookups == s.lookups
      && var w := s.writers[id];
         OnDisk(t.shared.fs) == Put(OnDisk(s.shared.fs), w.key, Entry(w.meta, Content(s.shared.fs, w.inode)))
  {
    hide Core, Reaches, OnDisk, FinishCall, WellFormed, WriterOk;
    OpenHandler(s, id);
    var (sh, v) := FinishCall(s.shared, id, s.writers[id], FINISH_WORKS);
    FinishIsRun(s, id, FINISH_WORKS);
    FinishEntries(s.shared, id, s.writers[id], FINISH_WORKS);
    FinishOutcome(s.shared, id, s.writers[id], FINISH_WORKS);
    t := SetWriter(s, id, sh, v);
    ReachesCore(s, t, {});
  }

  // - - - two finishes at once

  function Both(s: State, sh: Shared, a: nat, v: Writer, b: nat, w: Writer): State {
    s.(shared := sh, writers := s.writers[a := v][b := w])
  }

  lemma FirstMoves(s: State, sh: Shared, a: nat, v: Writer, b: nat, w: Writer, x: WriterAction)
    requires Reaches(s, Both(s, sh, a, v, b, w), {}) && a != b && !x.CopyCreate?
    ensures var (after, u) := MoveWriter(sh, a, v, x); Reaches(s, Both(s, after, a, u, b, w), {})
  {
    hide Reaches, MoveWriter;
    var t := Both(s, sh, a, v, b, w);
    assert SetWriter(t, a, sh, v) == t;
    ReachesMove(s, t, a, sh, v, x, {});
    var (after, u) := MoveWriter(sh, a, v, x);
    assert SetWriter(t, a, after, u) == Both(s, after, a, u, b, w);
  }

  lemma SecondMoves(s: State, sh: Shared, a: nat, v: Writer, b: nat, w: Writer, x: WriterAction)
    requires Reaches(s, Both(s, sh, a, v, b, w), {}) && a != b && !x.CopyCreate?
    ensures var (after, u) := MoveWriter(sh, b, w, x); Reaches(s, Both(s, after, a, v, b, u), {})
  {
    hide Reaches, MoveWriter;
    var t := Both(s, sh, a, v, b, w);
    assert SetWriter(t, b, sh, w) == t;
    ReachesMove(s, t, b, sh, w, x, {});
    var (after, u) := MoveWriter(sh, b, w, x);
    assert SetWriter(t, b, after, u) == Both(s, after, a, v, b, u);
  }

  /** Both handlers have got to their renames. */
  lemma BothAtRename(s: State, a: nat, b: nat)
    requires IsOpen(s, a) && IsOpen(s, b) && a != b && s.writers[a].key == s.writers[b].key
    requires s.writers[a].key in s.shared.fs.dirs
    ensures Reaches(s, Both(s, s.shared, a, s.writers[a].(stage := Promote), b, s.writers[b].(stage := Promote)), {})
  {
    hide Reaches;
    var v, w := s.writers[a], s.writers[b];
    ReachesHere(s, {});
    assert Both(s, s.shared, a, v, b, w) == s;
    assert s.shared.fs.dirs + {v.key} == s.shared.fs.dirs;
    FirstMoves(s, s.shared, a, v, b, w, WriterAction.Finish);
    FirstMoves(s, s.shared, a, v.(stage := FinishDir), b, w, MakeDirs(true));
    var v1 := v.(stage := Promote);
    SecondMoves(s, s.shared, a, v1, b, w, WriterAction.Finish);
    SecondMoves(s, s.shared, a, v1, b, w.(stage := FinishDir), MakeDirs(true));
  }

  /** Both have placed their bodies, the second over the first. */
  lemma BothRename(s: State, a: nat, b: nat) returns (sh: Shared, v: Writer, w: Writer)
    requires Core(s) && IsOpen(s, a) && IsOpen(s, b) && a != b && s.writers[a].key == s.writers[b].key
    ensures Reaches(s, Both(s, sh, a, v, b, w), {})
    ensures v.stage.PuttingMeta? && v.key == s.writers[a].key && v.meta == s.writers[a].meta
    ensures w.stage.PuttingMeta? && w.key == s.writers[b].key && w.meta == s.writers[b].meta
    ensures v.written == s.writers[a].written && w.written == s.writers[b].written
    ensures BodyAt(sh.fs, w.key) == Some(Content(s.shared.fs, s.writers[b].inode)) && w.key in sh.fs.dirs
  {
    hide Reaches, HoldsChunks, Flatten;
    OpenHandler(s, a);
    OpenHandler(s, b);
    BothAtRename(s, a, b);
    var v0, w0 := s.writers[a].(stage := Promote), s.writers[b].(stage := Promote);
    FirstMoves(s, s.shared, a, v0, b, w0, RenameTmp(true));
    var (sh1, v1) := MoveRename(s.shared, a, v0, true);
    SecondMoves(s, sh1, a, v1, b, w0, RenameTmp(true));
    var (sh2, w1) := MoveRename(sh1, b, w0, true);
    sh, v, w := sh2, v1, w1;
  }

  /** Their small files get written crosswise. */
  lemma BothWrite(s: State, sh: Shared, a: nat, v: Writer, b: nat, w: Writer) returns (t: Shared, p: Writer, q: Writer)
    requires Reaches(s, Both(s, sh, a, v, b, w), {}) && a != b
    requires v.stage.PuttingMeta? && w.stage.PuttingMeta? && v.key == w.key && w.key in sh.fs.dirs
    ensures Reaches(s, Both(s, t, a, p, b, q), {})
    ensures p.stage.CountingInsert? && q.stage.CountingInsert? && p.written == v.written && q.written == w.written
    ensures BodyAt(t.fs, w.key) == BodyAt(sh.fs, w.key)
    ensures w.key in t.fs.metas && t.fs.metas[w.key].data == w.meta.internal
    ensures w.key in t.fs.hdrs && t.fs.hdrs[w.key].data == v.meta.header
  {
    hide Reaches;
    FirstMoves(s, sh, a, v, b, w, WriteMeta(Whole));
    var (sh1, v1) := MoveMeta(sh, a, v, Whole);
    SecondMoves(s, sh1, a, v1, b, w, WriteMeta(Whole));
    var (sh2, w1) := MoveMeta(sh1, b, w, Whole);
    SecondMoves(s, sh2, a, v1, b, w1, WriteHdr(Whole));
    var (sh3, w2) := MoveHdr(sh2, b, w1, Whole);
    FirstMoves(s, sh3, a, v1, b, w2, WriteHdr(Whole));
    var (sh4, v2) := MoveHdr(sh3, a, v1, Whole);
    t, p, q := sh4, v2, w2;
  }

  lemma BothCount(s: State, sh: Shared, a: nat, v: Writer, b: nat, w: Writer) returns (t: State)
    requires Reaches(s, Both(s, sh, a, v, b, w), {}) && a != b && v.stage.CountingInsert? && w.stage.CountingInsert?
    ensures Reaches(s, t, {}) && a in t.writers && b in t.writers
    ensures t.writers[a].stage == Closed(Created(v.written)) && t.writers[b].stage == Closed(Created(w.written))
    ensures t.shared.fs == sh.fs.(tmps := t.shared.fs.tmps) && t.purges == s.purges
  {
    hide Reaches;
    FirstMoves(s, sh, a, v, b, w, CountInsert);
    var (sh1, v1) := MoveCountInsert(sh, v);
    FirstMoves(s, sh1, a, v1, b, w, CountSize);
    var (sh2, v2) := MoveCountSize(sh1, v1);
    FirstMoves(s, sh2, a, v2, b, w, Drop(true));
    var (sh3, v3) := MoveDrop(sh2, a, v2, true);
    SecondMoves(s, sh3, a, v3, b, w, CountInsert);
    var (sh4, w1) := MoveCountInsert(sh3, w);
    SecondMoves(s, sh4, a, v3, b, w1, CountSize);
    var (sh5, w2) := MoveCountSize(sh4, w1);
    SecondMoves(s, sh5, a, v3, b, w2, Drop(true));
    var (sh6, w3) := MoveDrop(sh5, b, w2, true);
    t := Both(s, sh6, a, v3, b, w3);
  }

  /** Two finishes of one key that overlap can leave a torn entry on disk for good. Nothing fails, nobody purges, and
      both report success; but the entry has the body and the internal meta of the one and the header of the other. */
  lemma OverlappingFinishesTear(s: State, a: nat, b: nat)
    requires Core(s) && IsOpen(s, a) && IsOpen(s, b) && a != b && s.writers[a].key == s.writers[b].key
    ensures exists t :: && Reaches(s, t, {}) && a in t.writers && b in t.writers && t.purges == s.purges
                        && var (v, w) := (s.writers[a], s.writers[b]);
                           && t.writers[a].stage == Closed(Created(v.written))
                           && t.writers[b].stage == Closed(Created(w.written))
                           && Get(OnDisk(t.shared.fs), w.key)
                                == Some(Entry(CacheMeta(w.meta.internal, v.meta.header), Content(s.shared.fs, w.inode)))
  {
    hide Reaches, Core;
    var sh, v, w := BothRename(s, a, b);
    var sh1, v1, w1 := BothWrite(s, sh, a, v, b, w);
    var t := BothCount(s, sh1, a, v1, b, w1);
    assert BodyAt(t.shared.fs, w.key) == BodyAt(sh1.fs, w.key);
  }

  /** The copy fallback cuts readers off. If a rename fails while a reader is about to stream the body of the same
      key, the copy truncates that very file, and the reader is told that the body ends before it got any of it. No
      other key's body is copied onto. */
  lemma FallbackCutsReader(s: State, id: nat, lid: nat, io: ReadIO)
    requires Core(s) && IsOpen(s, id) && lid !in s.lookups && io.readOk
    requires s.writers[id].key in OnDisk(s.shared.fs) && OnDisk(s.shared.fs)[s.writers[id].key].body != []
    ensures exists t, body :: && Reaches(s, t, {s.writers[id].key})
                              && lid in t.lookups && t.lookups[lid].stage.Serving?
                              && t.lookups[lid].body == body && body.Opened? && body.snapshot != []
                              && Content(t.shared.fs, body.inode) == []
                              && ReadBody(t.lookups[lid].stage.hit, Content(t.shared.fs, body.inode), io).1 == EndOfBody
                              && t.lookups[lid].stage.hit.emitted == []
  {
    hide Reaches, LookupCall, WriterOk;
    OpenHandler(s, id);
    hide Core, WellFormed;
    var w := s.writers[id];
    var k := w.key;
    var (m, l) := LookupCall(s.shared, k, LOOKUP_WORKS);
    LookupOutcome(s.shared, k, LOOKUP_WORKS);
    LookupIsRun(s, lid, k, LOOKUP_WORKS);
    var s1 := SetLookup(s, lid, m, l);
    var t := TruncatedBy(s1, id);
    TruncationIsRun(s1, id);
    ReachesLoose(s, s1, {}, {k});
    ReachesOn(s, s1, t, {k});
    Truncated(s1, id);
    assert Content(t.shared.fs, l.body.inode) == [];
  }

  lemma Truncated(s: State, id: nat)
    requires WellFormed(s.shared.fs) && id in s.writers && s.writers[id].key in s.shared.fs.bodies
    ensures Content(TruncatedBy(s, id).shared.fs, s.shared.fs.bodies[s.writers[id].key]) == []
    ensures TruncatedBy(s, id).lookups == s.lookups
  {
  }

  /** The state in which `finish` has found its rename failed and has just truncated the body. */
  function TruncatedBy(s: State, id: nat): State
    requires id in s.writers
  {
    var w := s.writers[id];
    var sh := s.shared.(fs := MakeDir(s.shared.fs, w.key));
    var (after, v) := MoveCopyCreate(sh, id, w.(stage := CopyCreating), true);
    SetWriter(s, id, after, v)
  }

  /** `finish` up to its rename. */
  lemma UpToRename(s: State, id: nat, copied: set<Key>)
    requires id in s.writers && s.writers[id].stage.Open?
    ensures var w := s.writers[id];
      Reaches(s, SetWriter(s, id, s.shared.(fs := MakeDir(s.shared.fs, w.key)), w.(stage := Promote)), copied)
  {
    hide Reaches;
    var w := s.writers[id];
    ReachesHere(s, copied);
    assert SetWriter(s, id, s.shared, w) == s;
    ReachesMove(s, s, id, s.shared, w, WriterAction.Finish, copied);
    ReachesMove(s, s, id, s.shared, w.(stage := FinishDir), MakeDirs(true), copied);
  }

  lemma TruncationIsRun(s: State, id: nat)
    requires id in s.writers && s.writers[id].stage.Open? && id in s.shared.fs.tmps
    ensures Reaches(s, TruncatedBy(s, id), {s.writers[id].key})
  {
    hide Reaches;
    var w := s.writers[id];
    var sh := s.shared.(fs := MakeDir(s.shared.fs, w.key));
    UpToRename(s, id, {w.key});
    ReachesMove(s, s, id, sh, w.(stage := Promote), RenameTmp(false), {w.key});
    ReachesMove(s, s, id, sh, w.(stage := CopyOpening), CopyOpen(true), {w.key});
    ReachesMove(s, s, id, sh, w.(stage := CopyCreating), CopyCreate(true), {w.key});
  }

  /** A purge in the middle of a finish makes it fail although no file operation was failed by the system, and takes
      the size gauge below the truth: the purge finds the new body, counts it down and removes the directory, so that
      the meta write has nowhere to go and the body is never counted up. */
  lemma PurgeDuringFinish(s: State, id: nat, pid: nat)
    requires Core(s) && IsOpen(s, id) && pid !in s.purges && s.writers[id].key !in s.shared.fs.bodies
    requires forall t :: t in s.shared.fs.tmps && t != id ==> s.shared.fs.tmps[t].key != s.writers[id].key
    ensures exists t :: && Reaches(s, t, {})
                        && id in t.writers && t.writers[id].stage == Closed(Failed)
                        && pid in t.purges && t.purges[pid].stage == Purged && t.purges[pid].existed
                        && s.writers[id].key !in t.shared.fs.bodies
                        && BytesOnDisk(t.shared.fs) == BytesOnDisk(s.shared.fs)
                        && t.shared.metrics.sizeBytes == s.shared.metrics.sizeBytes
                              - |Content(s.shared.fs, s.writers[id].inode)|
  {
    hide Reaches, WriterOk, BytesOnDisk;
    OpenHandler(s, id);
    hide Core, WellFormed;
    var w := s.writers[id];
    var sh0 := s.shared.(fs := MakeDir(s.shared.fs, w.key));
    var (sh1, w1) := MoveRename(sh0, id, w.(stage := Promote), true);
    UpToRename(s, id, {});
    ReachesMove(s, s, id, sh0, w.(stage := Promote), RenameTmp(true), {});
    var s1 := SetWriter(s, id, sh1, w1);
    var t := PurgeThenFail(s1, id, pid);
    ReachesOn(s, s1, t, {});
    RenameThenPurgeBytes(s.shared.fs, sh1.fs, t.shared.fs, id, w.key);
  }

  lemma PurgeThenFail(s: State, id: nat, pid: nat) returns (t: State)
    requires id in s.writers && s.writers[id].stage.PuttingMeta? && pid !in s.purges
    requires s.writers[id].key in s.shared.fs.bodies
    requires forall t :: t in s.shared.fs.tmps ==> s.shared.fs.tmps[t].key != s.writers[id].key
    ensures Reaches(s, t, {})
      && id in t.writers && t.writers[id].stage == Closed(Failed)
      && pid in t.purges && t.purges[pid].stage == Purged && t.purges[pid].existed
      && t.shared.fs.bodies == s.shared.fs.bodies - {s.writers[id].key} && t.shared.fs.inodes == s.shared.fs.inodes
      && t.shared.metrics.sizeBytes == s.shared.metrics.sizeBytes - BodyLen(s.shared.fs, s.writers[id].key)
  {
    var w := s.writers[id];
    var (sh, p) := PurgeCall(s.shared, w.key, PURGE_WORKS);
    PurgeLeavesNoDir(s.shared, w.key);
    PurgeIsRun(s, pid, w.key, PURGE_WORKS);
    var s1 := SetPurge(s, pid, sh, p);
    assert SetWriter(s1, id, sh, w) == s1;
    t := FailedAfterMeta(s, s1, id, sh, w);
  }

  lemma FailedAfterMeta(s: State, s1: State, id: nat, sh: Shared, w: Writer) returns (t: State)
    requires Reaches(s, SetWriter(s1, id, sh, w), {}) && w.stage.PuttingMeta? && w.key !in sh.fs.dirs
    ensures Reaches(s, t, {})
      && id in t.writers && t.writers[id].stage == Closed(Failed) && t.purges == s1.purges
      && t.shared.fs.bodies == sh.fs.bodies && t.shared.fs.inodes == sh.fs.inodes && t.shared.metrics == sh.metrics
  {
    hide Reaches;
    ReachesMove(s, s1, id, sh, w, WriteMeta(Whole), {});
    ReachesMove(s, s1, id, sh, w.(stage := Dropping(Failed)), Drop(true), {});
    var (after, v) := MoveDrop(sh, id, w.(stage := Dropping(Failed)), true);
    t := SetWriter(s1, id, after, v);
  }

  lemma RenameThenPurgeBytes(fs: FS, renamed: FS, after: FS, id: nat, k: Key)
    requires WellFormed(fs) && id in fs.tmps && fs.tmps[id].key == k && k !in fs.bodies
    requires renamed == Rename(MakeDir(fs, k), id)
    requires after.bodies == renamed.bodies - {k} && after.inodes == renamed.inodes
    ensures BytesOnDisk(after) == BytesOnDisk(fs)
  {
    forall j | j != k ensures (j in after.bodies <==> j in fs.bodies) && BodyLen(after, j) == BodyLen(fs, j) {
      if j in fs.bodies { assert IsBody(fs, fs.bodies[j], j); }
    }
    BytesOnDiskChange(fs, after, k);
  }

  lemma PurgeLeavesNoDir(sh: Shared, k: Key)
    requires k in sh.fs.bodies && forall t :: t in sh.fs.tmps ==> sh.fs.tmps[t].key != k
    ensures var (after, p) := PurgeCall(sh, k, PURGE_WORKS);
      && k !in after.fs.dirs && p.existed && p.stage == Purged
      && after.fs.bodies == sh.fs.bodies - {k} && after.fs.inodes == sh.fs.inodes && after.fs.tmps == sh.fs.tmps
      && after.metrics.sizeBytes == sh.metrics.sizeBytes - BodyLen(sh.fs, k)
  {
  }
}
