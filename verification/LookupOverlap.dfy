/** Which steps of which calls matter to a lookup that they overlap. As long as nothing is put at the files of its key,
    a hit is the entry that was there when the lookup began. One step alone can make it return the entry as it is after
    that step, but never a mixture. */
module LookupOverlap {
  import opened Basics
  import opened FileSystem
  import opened HitSpec
  import opened CacheMachine
  import opened CoreInvariant
  import opened KeyIsolation
  import opened ReaderIsolation
  import opened CallOutcomes
  import opened LookupResults

  // - - - without puts

  /** Of the files of `k`, some may be gone, but none has come or holds anything else. */
  ghost predicate OnlyRemoved(k: Key, fs: FS, after: FS) {
    && (k in after.bodies ==> BodyAt(fs, k) == BodyAt(after, k))
    && (k in after.metas ==> k in fs.metas && after.metas[k].data == fs.metas[k].data)
    && (k in after.hdrs ==> k in fs.hdrs && after.hdrs[k].data == fs.hdrs[k].data)
  }

  lemma PurgeOnlyRemoves(sh: Shared, p: Purge, a: PurgeAction)
    ensures OnlyRemoved(p.key, sh.fs, MovePurge(sh, p, a).0.fs)
  {
  }

  lemma SameOnlyRemoved(k: Key, fs: FS, after: FS)
    requires SameAt(k, fs, after)
    ensures OnlyRemoved(k, fs, after)
  {
  }

  lemma StepWithoutPut(s: State, a: Action, k: Key)
    requires Core(s) && !Puts(s, a, k)
    ensures OnlyRemoved(k, s.shared.fs, Step(s, a).shared.fs)
  {
    if TakesFrom(s, a, k) {
      hide Core, MovePurge, OnlyRemoved;
      PurgeOnlyRemoves(s.shared, s.purges[a.id], a.p);
    } else {
      hide Core, Step, SameAt, OnlyRemoved;
      StepElsewhere(s, a, k);
      SameOnlyRemoved(k, s.shared.fs, Step(s, a).shared.fs);
    }
  }

  /** No step of the run may put anything at the files of `k`. */
  ghost predicate PutFree(s: State, acts: seq<Action>, k: Key) {
    acts == []
    || (PutFree(s, acts[..|acts| - 1], k) && !Puts(Run(s, acts[..|acts| - 1]), acts[|acts| - 1], k))
  }

  lemma {:induction false} RunWithoutPut(s: State, acts: seq<Action>, k: Key)
    requires Core(s) && PutFree(s, acts, k)
    ensures Core(Run(s, acts)) && OnlyRemoved(k, s.shared.fs, Run(s, acts).shared.fs)
  {
    if acts != [] {
      hide Core, Step, Puts;
      var rest := acts[..|acts| - 1];
      RunWithoutPut(s, rest, k);
      StepWithoutPut(Run(s, rest), acts[|acts| - 1], k);
      StepCore(Run(s, rest), acts[|acts| - 1]);
    }
  }

  predicate ReadFails(a: LookupAction) {
    a == ReadMeta(false) || a == ReadHdr(false) || a == OpenBody(false)
  }

  /** What it has not found was not there. */
  ghost predicate AgreesOnMisses(fs: FS, l: Lookup) {
    && (l.meta.Gone? ==> l.key !in fs.metas)
    && (l.hdr.Gone? ==> l.key !in fs.hdrs)
    && (l.body.NoFile? ==> l.key !in fs.bodies)
    && (l.stage.Missed? ==> l.meta.Gone? || l.hdr.Gone? || l.body.NoFile?)
  }

  lemma LookupAgreesOnMisses(fs: FS, sh: Shared, l: Lookup, a: LookupAction)
    requires SameAt(l.key, fs, sh.fs) && AgreesOnMisses(fs, l) && !ReadFails(a)
    ensures AgreesOnMisses(fs, MoveLookup(sh, l, a).1)
  {
  }

  ghost predicate ReadsWork(acts: seq<Action>, id: nat) {
    acts == [] || (ReadsWork(acts[..|acts| - 1], id)
                   && (acts[|acts| - 1].OfLookup? && acts[|acts| - 1].id == id ==> !ReadFails(acts[|acts| - 1].l)))
  }

  lemma {:induction false} IdleAgreesOnMisses(s: State, acts: seq<Action>, id: nat)
    requires Core(s) && id in s.lookups && Idle(s, acts, s.lookups[id].key) && ReadsWork(acts, id)
    requires AgreesOnMisses(s.shared.fs, s.lookups[id])
    ensures var t := Run(s, acts);
      id in t.lookups && t.lookups[id].key == s.lookups[id].key && AgreesOnMisses(s.shared.fs, t.lookups[id])
  {
    if acts != [] {
      hide Core, SameAt, MoveLookup, Step, AgreesOnMisses, Concerns;
      var rest, a := acts[..|acts| - 1], acts[|acts| - 1];
      IdleAgreesOnMisses(s, rest, id);
      RunElsewhere(s, rest, s.lookups[id].key);
      var t := Run(s, rest);
      StepOfLookup(t, a, id);
      if a.OfLookup? && a.id == id {
        LookupAgreesOnMisses(s.shared.fs, t.shared, t.lookups[id], a.l);
        MoveLookupKey(t.shared, t.lookups[id], a.l);
      }
    }
  }

  lemma MoveLookupKey(sh: Shared, l: Lookup, a: LookupAction)
    ensures MoveLookup(sh, l, a).1.key == l.key
  {
  }

  /** Whether something may be put does not depend on the lookups under way. */
  lemma {:induction false} PutFreeOthers(s: State, acts: seq<Action>, k: Key, id: nat)
    requires PutFree(s, acts, k) && NothingRead(s, id)
    ensures PutFree(s, Others(acts, id), k)
  {
    if acts != [] {
      hide Run, FoundThere;
      var rest, a := acts[..|acts| - 1], acts[|acts| - 1];
      PutFreeOthers(s, rest, k, id);
      RunFoundThere(s, rest, id);
      var others := Others(rest, id);
      assert Others(acts, id) == if StepOf(a, id) then others else others + [a];
      assert (others + [a])[..|others|] == others;
    }
  }

  lemma {:induction false} PutFreePrefix(s: State, acts: seq<Action>, i: nat, k: Key)
    requires PutFree(s, acts, k) && i <= |acts|
    ensures PutFree(s, acts[..i], k)
  {
    if i < |acts| {
      PutFreePrefix(s, acts[..|acts| - 1], i, k);
      assert acts[..|acts| - 1][..i] == acts[..i];
    } else {
      assert acts[..i] == acts;
    }
  }

  /** Then the parts of an entry were the same at all moments. */
  lemma {:induction false} PartsWithoutPuts(s: State, others: seq<Action>, k: Key, e: Entry)
    requires Core(s) && PutFree(s, others, k) && PartsWere(s, others, k, e)
    ensures Get(OnDisk(s.shared.fs), k) == Some(e)
  {
    hide Core, Run, PutFree;
    forall i | 0 <= i <= |others| ensures OnlyRemoved(k, s.shared.fs, Moment(s, others, i)) {
      PutFreePrefix(s, others, i, k);
      RunWithoutPut(s, others[..i], k);
    }
  }

  /** If nothing may be put at the files of its key while it runs, a lookup that hits returns exactly the entry that was
      there when it began - although purges may take the files away under its eyes. If they do not either, and none of
      its reads is failed, it misses only if there was no entry. */
  lemma {:induction false} LookupWithoutPuts(s: State, acts: seq<Action>, id: nat)
    requires Core(s) && id in s.lookups && s.lookups[id] == NewLookup(s.lookups[id].key)
    requires PutFree(s, acts, s.lookups[id].key)
    ensures id in Run(s, acts).lookups
    ensures var l := Run(s, acts).lookups[id];
      var entry := Get(OnDisk(s.shared.fs), s.lookups[id].key);
      && (HasHit(l.stage) ==> entry.Some? && Returned(l) == entry)
      && (l.stage.Missed? && Idle(s, acts, s.lookups[id].key) && ReadsWork(acts, id) ==> entry == None)
  {
    var k := s.lookups[id].key;
    RunKeepsLookup(s, acts, id);
    HitHasParts(s, acts, id);
    PutFreeOthers(s, acts, k, id);
    var l := Run(s, acts).lookups[id];
    if HasHit(l.stage) { PartsWithoutPuts(s, Others(acts, id), k, Returned(l).value); }
    if Idle(s, acts, k) && ReadsWork(acts, id) { IdleAgreesOnMisses(s, acts, id); }
  }

  /** A lookup that hits has read all three files. */
  lemma {:induction false} RunKeepsLookup(s: State, acts: seq<Action>, id: nat)
    requires id in s.lookups && s.lookups[id] == NewLookup(s.lookups[id].key)
    ensures id in Run(s, acts).lookups && Run(s, acts).lookups[id].key == s.lookups[id].key
    ensures HasAll(Run(s, acts).lookups[id])
  {
    if acts != [] {
      hide Step, MoveLookup, HasAll;
      var t, a := Run(s, acts[..|acts| - 1]), acts[|acts| - 1];
      RunKeepsLookup(s, acts[..|acts| - 1], id);
      StepOfLookup(t, a, id);
      if StepOf(a, id) { MoveHasAll(t.shared, t.lookups[id], a.l); }
    }
  }

  predicate HasAll(l: Lookup) {
    l.stage.Sizing? || l.stage.Decoding? || HasHit(l.stage) ==> l.meta.Got? && l.hdr.Got? && l.body.Opened?
  }

  lemma MoveHasAll(sh: Shared, l: Lookup, a: LookupAction)
    requires HasAll(l)
    ensures HasAll(MoveLookup(sh, l, a).1) && MoveLookup(sh, l, a).1.key == l.key
  {
  }

  // - - - with one put

  /** What a step makes of the entry of `k`, if the entry is still there afterwards. */
  function EntryAfter(s: State, a: Action, k: Key): Entry
    requires k in OnDisk(s.shared.fs)
  {
    var fs, e := s.shared.fs, OnDisk(s.shared.fs)[k];
    match a
    case OfWriter(id, x) =>
      if id in s.writers && s.writers[id].key == k then WriterEntry(s.shared, s.writers[id], x, e) else e
    case OfUpdate(id, x) =>
      if id in s.updates && s.updates[id].key == k then
        var u := s.updates[id];
        if x.UpdateMeta? && !x.put.Refused? && u.stage.UpdatingMeta? then
          e.(meta := e.meta.(internal := SmallLeft(u.meta.internal, x.put)))
        else if x.UpdateHdr? && !x.put.Refused? && u.stage.UpdatingHdr? then
          e.(meta := e.meta.(header := SmallLeft(u.meta.header, x.put)))
        else e
      else e
    case _ => e
  }

  function WriterEntry(sh: Shared, w: Writer, a: WriterAction, e: Entry): Entry {
    match a
    case RenameTmp(ok) => if ok && w.stage.Promote? then e.(body := Content(sh.fs, w.inode)) else e
    case CopyCreate(ok) => if ok && w.stage.CopyCreating? then e.(body := []) else e
    case CopyChunk(size) =>
      if w.stage.Copying? && Linked(sh.fs, w.key, w.stage.to) then
        e.(body := Content(MoveCopyChunk(sh, w, size).0.fs, w.stage.to))
      else e
    case WriteMeta(io) =>
      if !io.Refused? && w.stage.PuttingMeta? then
        e.(meta := e.meta.(internal := SmallLeft(w.meta.internal, io))) else e
    case WriteHdr(io) =>
      if !io.Refused? && w.stage.PuttingHdr? then
        e.(meta := e.meta.(header := SmallLeft(w.meta.header, io))) else e
    case _ => e
  }

  lemma PlacePuts(sh: Shared, id: nat, w: Writer, a: WriterAction)
    requires WellFormed(sh.fs) && WriterOk(sh.fs, id, w) && w.key in OnDisk(sh.fs)
    requires a.RenameTmp? || a.CopyCreate? || a.CopyChunk?
    ensures var after := MoveWriter(sh, id, w, a).0;
      w.key in OnDisk(after.fs) && OnDisk(after.fs)[w.key] == WriterEntry(sh, w, a, OnDisk(sh.fs)[w.key])
  {
    hide WriteAt;
    match a
    case RenameTmp(_) =>
    case CopyCreate(_) =>
    case CopyChunk(_) =>
  }

  lemma SmallPuts(sh: Shared, id: nat, w: Writer, a: WriterAction)
    requires WellFormed(sh.fs) && w.key in OnDisk(sh.fs) && (a.WriteMeta? || a.WriteHdr?)
    ensures var after := MoveWriter(sh, id, w, a).0;
      w.key in OnDisk(after.fs) && OnDisk(after.fs)[w.key] == WriterEntry(sh, w, a, OnDisk(sh.fs)[w.key])
  {
  }

  lemma UpdatePuts(s: State, id: nat, x: UpdateAction, k: Key)
    requires WellFormed(s.shared.fs) && k in OnDisk(s.shared.fs)
    requires id in s.updates && s.updates[id].key == k && (x.UpdateMeta? || x.UpdateHdr?)
    ensures var t := Step(s, OfUpdate(id, x));
      k in OnDisk(t.shared.fs) && OnDisk(t.shared.fs)[k] == EntryAfter(s, OfUpdate(id, x), k)
  {
  }

  lemma RemovalKeepsEntry(k: Key, fs: FS, after: FS)
    requires OnlyRemoved(k, fs, after) && k in OnDisk(fs)
    ensures k in OnDisk(after) ==> OnDisk(after)[k] == OnDisk(fs)[k]
  {
  }

  /** A step leaves the entry as `EntryAfter` says, or takes it away; a put never takes it away. */
  lemma StepEntry(s: State, a: Action, k: Key)
    requires Core(s) && k in OnDisk(s.shared.fs)
    ensures var t := Step(s, a);
      && (k in OnDisk(t.shared.fs) ==> OnDisk(t.shared.fs)[k] == EntryAfter(s, a, k))
      && (Puts(s, a, k) ==> k in OnDisk(t.shared.fs))
      && (!Puts(s, a, k) ==> EntryAfter(s, a, k) == OnDisk(s.shared.fs)[k])
  {
    hide WellFormed, WriterOk, OnDisk, MoveWriter, MovePurge, MoveUpdate, MoveLookup, OnlyRemoved;
    if Puts(s, a, k) {
      match a
      case OfWriter(id, x) =>
        assert WriterOk(s.shared.fs, id, s.writers[id]);
        if x.WriteMeta? || x.WriteHdr? {
          SmallPuts(s.shared, id, s.writers[id], x);
        } else {
          PlacePuts(s.shared, id, s.writers[id], x);
        }
      case OfUpdate(id, x) => UpdatePuts(s, id, x, k);
    } else {
      StepWithoutPut(s, a, k);
      RemovalKeepsEntry(k, s.shared.fs, Step(s, a).shared.fs);
    }
  }

  // - - - a lookup around one step of another call

  /** No more than one of the three files of a key is changed. */
  ghost predicate OneFile(k: Key, fs: FS, after: FS) {
    || (MetaAt(after, k) == MetaAt(fs, k) && HdrAt(after, k) == HdrAt(fs, k))
    || (MetaAt(after, k) == MetaAt(fs, k) && BodyAt(after, k) == BodyAt(fs, k))
    || (HdrAt(after, k) == HdrAt(fs, k) && BodyAt(after, k) == BodyAt(fs, k))
  }

  lemma WriterChangesOne(sh: Shared, id: nat, w: Writer, a: WriterAction, k: Key)
    ensures OneFile(k, sh.fs, MoveWriter(sh, id, w, a).0.fs)
  {
    hide WriteAt;
    match a
    case MakeDirs(ok) => MakeDirsFree(sh, w, ok);
    case _ =>
  }

  lemma PurgeChangesOne(sh: Shared, p: Purge, a: PurgeAction, k: Key)
    ensures OneFile(k, sh.fs, MovePurge(sh, p, a).0.fs)
  {
  }

  lemma UpdateChangesOne(sh: Shared, id: nat, u: Update, a: UpdateAction, k: Key)
    ensures OneFile(k, sh.fs, MoveUpdate(sh, id, u, a).0.fs)
  {
  }

  lemma StepChangesOne(s: State, a: Action, k: Key)
    ensures OneFile(k, s.shared.fs, Step(s, a).shared.fs)
  {
    hide MoveWriter, MovePurge, MoveUpdate, MoveLookup;
    match a
    case OfWriter(id, x) => if id in s.writers { WriterChangesOne(s.shared, id, s.writers[id], x, k); }
    case OfPurge(id, x) => if id in s.purges { PurgeChangesOne(s.shared, s.purges[id], x, k); }
    case OfUpdate(id, x) => if id in s.updates { UpdateChangesOne(s.shared, id, s.updates[id], x, k); }
    case OfLookup(_, _) =>
  }

  lemma MomentsOfOne(s: State, a: Action)
    ensures Moment(s, [a], 0) == s.shared.fs && Moment(s, [a], 1) == Step(s, a).shared.fs
  {
    assert [a][..0] == [] && [a][..1] == [a];
  }

  /** One step never tears a lookup: a hit is the entry before it or the entry after it. */
  lemma OneStepNeverTears(s: State, a: Action, lid: nat, k: Key)
    requires lid !in s.lookups && !StepOf(a, lid)
    ensures !CanTear(s, [a], lid, k)
    ensures forall e :: CanReturn(s, [a], lid, k, e) ==>
      Get(OnDisk(s.shared.fs), k) == Some(e) || Get(OnDisk(Step(s, a).shared.fs), k) == Some(e)
  {
    hide Step, CanReturn, Moment;
    MomentsOfOne(s, a);
    StepChangesOne(s, a, k);
    forall e | CanReturn(s, [a], lid, k, e)
      ensures Get(OnDisk(s.shared.fs), k) == Some(e) || Get(OnDisk(Step(s, a).shared.fs), k) == Some(e)
    {
      HitsExactly(s, [a], lid, k, e);
      OneOfTwo(k, s.shared.fs, Step(s, a).shared.fs, e);
    }
    forall e | CanReturn(s, [a], lid, k, e) ensures EntryWas(s, [a], k, e) {
      assert Get(OnDisk(Moment(s, [a], 0)), k) == Some(e) || Get(OnDisk(Moment(s, [a], 1)), k) == Some(e);
    }
  }

  lemma OneOfTwo(k: Key, fs: FS, after: FS, e: Entry)
    requires OneFile(k, fs, after)
    requires MetaAt(fs, k) == Some(e.meta.internal) || MetaAt(after, k) == Some(e.meta.internal)
    requires HdrAt(fs, k) == Some(e.meta.header) || HdrAt(after, k) == Some(e.meta.header)
    requires BodyAt(fs, k) == Some(e.body) || BodyAt(after, k) == Some(e.body)
    ensures Get(OnDisk(fs), k) == Some(e) || Get(OnDisk(after), k) == Some(e)
  {
  }

  /** The lookup can hit with something else than the entry that was there when it began. */
  ghost predicate CanMislead(s: State, a: Action, lid: nat, k: Key) {
    exists e :: CanReturn(s, [a], lid, k, e) && Get(OnDisk(s.shared.fs), k) != Some(e)
  }

  /** What one step can do is no more than to let the lookup find the entry as it has just become: and that exactly if
      it is a put that changes it. */
  lemma MisleadsExactly(s: State, a: Action, lid: nat, k: Key)
    requires Core(s) && k in OnDisk(s.shared.fs) && lid !in s.lookups && !StepOf(a, lid)
    ensures CanMislead(s, a, lid, k) <==> EntryAfter(s, a, k) != OnDisk(s.shared.fs)[k]
    ensures CanMislead(s, a, lid, k) ==> Puts(s, a, k) && CanReturn(s, [a], lid, k, EntryAfter(s, a, k))
  {
    hide Core, Step, CanReturn, EntryAfter, OnDisk, Puts;
    StepEntry(s, a, k);
    OneStepNeverTears(s, a, lid, k);
    if EntryAfter(s, a, k) != OnDisk(s.shared.fs)[k] {
      ReturnsAfter(s, a, lid, k, EntryAfter(s, a, k));
    }
  }

  lemma ReturnsAfter(s: State, a: Action, lid: nat, k: Key, e: Entry)
    requires lid !in s.lookups && !StepOf(a, lid) && Get(OnDisk(Step(s, a).shared.fs), k) == Some(e)
    ensures CanReturn(s, [a], lid, k, e)
  {
    hide Step, CanReturn, Moment;
    MomentsOfOne(s, a);
    assert MetaAt(Moment(s, [a], 1), k) == Some(e.meta.internal);
    assert HdrAt(Moment(s, [a], 1), k) == Some(e.meta.header);
    assert BodyAt(Moment(s, [a], 1), k) == Some(e.body);
    HitsExactly(s, [a], lid, k, e);
  }
}
