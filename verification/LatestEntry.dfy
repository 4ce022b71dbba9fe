/** What the three files of a key hold after a run: each what was put there last, unless it was unlinked since. So
    when several finishes and updates of one key overlap, its entry need not be that of any one of them: it is made of
    the last body placed, the last meta written and the last hdr written, whosever they are. */
module LatestEntry {
  import opened Basics
  import opened FileSystem
  import opened HitSpec
  import opened CacheMachine
  import opened CoreInvariant
  import opened KeyIsolation
  import opened ReaderIsolation
  import opened SnapshotSafety
  import opened CallOutcomes

  function BodyFile(fs: FS, k: Key): Option<nat> {
    if k in fs.bodies then Some(fs.bodies[k]) else None
  }

  function MetaFile(fs: FS, k: Key): Option<Small> {
    if k in fs.metas then Some(fs.metas[k]) else None
  }

  function HdrFile(fs: FS, k: Key): Option<Small> {
    if k in fs.hdrs then Some(fs.hdrs[k]) else None
  }

  // - - - what a step puts at each of the three

  /** The inode that gets the name of the body: that of the tmp file renamed to it, or a new one made by a copy. */
  function BodyPut(s: State, a: Action, k: Key): Option<nat> {
    var fs := s.shared.fs;
    if a.OfWriter? && a.id in s.writers && s.writers[a.id].key == k then
      var w := s.writers[a.id];
      if a.w == RenameTmp(true) && w.stage.Promote? then Some(w.inode)
      else if a.w == CopyCreate(true) && w.stage.CopyCreating? && k in fs.dirs && k !in fs.bodies then Some(|fs.inodes|)
      else None
    else None
  }

  function PutBy(data: Bytes, from: Source, io: SmallIO): Option<Small> {
    if io.Refused? then None else Some(Small(SmallLeft(data, io), from))
  }

  function MetaPut(s: State, a: Action, k: Key): Option<Small> {
    if k !in s.shared.fs.dirs then None
    else
      match a
      case OfWriter(id, x) =>
        if id in s.writers && s.writers[id].key == k && s.writers[id].stage.PuttingMeta? && x.WriteMeta?
        then PutBy(s.writers[id].meta.internal, ByWriter(id), x.put) else None
      case OfUpdate(id, x) =>
        if id in s.updates && s.updates[id].key == k && s.updates[id].stage.UpdatingMeta? && x.UpdateMeta?
        then PutBy(s.updates[id].meta.internal, ByUpdate(id), x.put) else None
      case _ => None
  }

  function HdrPut(s: State, a: Action, k: Key): Option<Small> {
    if k !in s.shared.fs.dirs then None
    else
      match a
      case OfWriter(id, x) =>
        if id in s.writers && s.writers[id].key == k && s.writers[id].stage.PuttingHdr? && x.WriteHdr?
        then PutBy(s.writers[id].meta.header, ByWriter(id), x.put) else None
      case OfUpdate(id, x) =>
        if id in s.updates && s.updates[id].key == k && s.updates[id].stage.UpdatingHdr? && x.UpdateHdr?
        then PutBy(s.updates[id].meta.header, ByUpdate(id), x.put) else None
      case _ => None
  }

  /** The step is a purge's attempt on a file of `k`, not failed by the system. */
  predicate Unlinks(s: State, a: Action, k: Key, stage: PurgeStage) {
    && a.OfPurge? && a.id in s.purges && s.purges[a.id].key == k && s.purges[a.id].stage == stage
    && a.p == (match stage
               case RemovingBody => UnlinkBody(true)
               case RemovingMeta => UnlinkMeta(true)
               case _ => UnlinkHdr(true))
  }

  // - - - the reference, which looks back through the run

  ghost function LatestBody(s: State, acts: seq<Action>, k: Key): Option<nat> {
    if acts == [] then BodyFile(s.shared.fs, k)
    else
      var rest, a := acts[..|acts| - 1], acts[|acts| - 1];
      if BodyPut(Run(s, rest), a, k).Some? then BodyPut(Run(s, rest), a, k)
      else if Unlinks(Run(s, rest), a, k, RemovingBody) then None
      else LatestBody(s, rest, k)
  }

  ghost function LatestMeta(s: State, acts: seq<Action>, k: Key): Option<Small> {
    if acts == [] then MetaFile(s.shared.fs, k)
    else
      var rest, a := acts[..|acts| - 1], acts[|acts| - 1];
      if MetaPut(Run(s, rest), a, k).Some? then MetaPut(Run(s, rest), a, k)
      else if Unlinks(Run(s, rest), a, k, RemovingMeta) then None
      else LatestMeta(s, rest, k)
  }

  ghost function LatestHdr(s: State, acts: seq<Action>, k: Key): Option<Small> {
    if acts == [] then HdrFile(s.shared.fs, k)
    else
      var rest, a := acts[..|acts| - 1], acts[|acts| - 1];
      if HdrPut(Run(s, rest), a, k).Some? then HdrPut(Run(s, rest), a, k)
      else if Unlinks(Run(s, rest), a, k, RemovingHdr) then None
      else LatestHdr(s, rest, k)
  }

  // - - - one step

  /** The step leaves at each file what it puts there, nothing if it unlinks it, and else what was there. */
  ghost predicate Accords(s: State, a: Action, k: Key, after: FS) {
    var fs := s.shared.fs;
    && BodyFile(after, k) == (if BodyPut(s, a, k).Some? then BodyPut(s, a, k)
                              else if Unlinks(s, a, k, RemovingBody) then None else BodyFile(fs, k))
    && MetaFile(after, k) == (if MetaPut(s, a, k).Some? then MetaPut(s, a, k)
                              else if Unlinks(s, a, k, RemovingMeta) then None else MetaFile(fs, k))
    && HdrFile(after, k) == (if HdrPut(s, a, k).Some? then HdrPut(s, a, k)
                             else if Unlinks(s, a, k, RemovingHdr) then None else HdrFile(fs, k))
  }

  lemma RenameAccords(s: State, id: nat, ok: bool, k: Key)
    requires id in s.writers
    requires var w := s.writers[id];
      w.stage.Promote? ==>
        id in s.shared.fs.tmps && s.shared.fs.tmps[id] == Tmp(w.key, w.inode) && w.key in s.shared.fs.dirs
    ensures Accords(s, OfWriter(id, RenameTmp(ok)), k, MoveWriter(s.shared, id, s.writers[id], RenameTmp(ok)).0.fs)
  {
  }

  lemma CopyAccords(s: State, id: nat, a: WriterAction, k: Key)
    requires id in s.writers && (a.CopyCreate? || a.CopyChunk?)
    ensures Accords(s, OfWriter(id, a), k, MoveWriter(s.shared, id, s.writers[id], a).0.fs)
  {
    hide WriteAt;
  }

  lemma SmallAccords(s: State, id: nat, a: WriterAction, k: Key)
    requires id in s.writers && (a.WriteMeta? || a.WriteHdr?)
    ensures Accords(s, OfWriter(id, a), k, MoveWriter(s.shared, id, s.writers[id], a).0.fs)
  {
  }

  lemma PutAccords(s: State, id: nat, a: WriterAction, k: Key)
    requires WellFormed(s.shared.fs) && id in s.writers && WriterOk(s.shared.fs, id, s.writers[id])
    requires PutAction(a)
    ensures Accords(s, OfWriter(id, a), k, MoveWriter(s.shared, id, s.writers[id], a).0.fs)
  {
    hide Accords, MoveWriter, HoldsChunks, Flatten;
    if a.RenameTmp? {
      RenameAccords(s, id, a.ok, k);
    } else if a.CopyCreate? || a.CopyChunk? {
      CopyAccords(s, id, a, k);
    } else {
      SmallAccords(s, id, a, k);
    }
  }

  lemma NoPutAccords(s: State, id: nat, a: WriterAction, k: Key)
    requires id in s.writers && !PutAction(a)
    ensures Accords(s, OfWriter(id, a), k, MoveWriter(s.shared, id, s.writers[id], a).0.fs)
  {
    if a.MakeDirs? { MakeDirsFree(s.shared, s.writers[id], a.ok); }
  }

  lemma PurgeAccords(s: State, id: nat, a: PurgeAction, k: Key)
    requires id in s.purges
    ensures Accords(s, OfPurge(id, a), k, MovePurge(s.shared, s.purges[id], a).0.fs)
  {
  }

  lemma UpdateAccords(s: State, id: nat, a: UpdateAction, k: Key)
    requires id in s.updates
    ensures Accords(s, OfUpdate(id, a), k, MoveUpdate(s.shared, id, s.updates[id], a).0.fs)
  {
  }

  lemma NothingAccords(s: State, a: Action, k: Key)
    requires a.OfWriter? ==> a.id !in s.writers
    requires a.OfPurge? ==> a.id !in s.purges
    requires a.OfUpdate? ==> a.id !in s.updates
    ensures Accords(s, a, k, s.shared.fs)
  {
  }

  lemma StepAccords(s: State, a: Action, k: Key)
    requires Core(s)
    ensures Accords(s, a, k, Step(s, a).shared.fs)
  {
    hide Accords, WellFormed, WriterOk, LookupOk, MoveWriter, MovePurge, MoveUpdate, MoveLookup;
    match a
    case OfWriter(id, x) =>
      if id in s.writers {
        if PutAction(x) { PutAccords(s, id, x, k); } else { NoPutAccords(s, id, x, k); }
      } else {
        NothingAccords(s, a, k);
      }
    case OfPurge(id, x) => if id in s.purges { PurgeAccords(s, id, x, k); } else { NothingAccords(s, a, k); }
    case OfUpdate(id, x) => if id in s.updates { UpdateAccords(s, id, x, k); } else { NothingAccords(s, a, k); }
    case OfLookup(_, _) => NothingAccords(s, a, k);
  }

  // - - - whole runs

  /** After every run, whatever fails and however calls overlap, each of the three files is the one put there last, or
      gone if it was unlinked since. */
  lemma {:induction false} LatestOfEach(s: State, acts: seq<Action>, k: Key)
    requires Core(s)
    ensures var fs := Run(s, acts).shared.fs;
      && BodyFile(fs, k) == LatestBody(s, acts, k)
      && MetaFile(fs, k) == LatestMeta(s, acts, k)
      && HdrFile(fs, k) == LatestHdr(s, acts, k)
  {
    if acts != [] {
      hide Core, Step, BodyPut, MetaPut, HdrPut, Unlinks, BodyFile, MetaFile, HdrFile;
      var rest := acts[..|acts| - 1];
      LatestOfEach(s, rest, k);
      RunCore(s, rest);
      StepAccords(Run(s, rest), acts[|acts| - 1], k);
    }
  }

  /** So the entry is put together from what three handlers did: the one that placed the last body, the one that wrote
      the last meta, and the one that wrote the last hdr. It is the entry of one of them if they are the same. */
  lemma {:induction false} EntryOfThree(fs: FS, size: int, acts: seq<Action>, k: Key, b: nat, m: nat, h: nat)
    requires Bootable(fs) && NoCopies(Boot(fs, size), acts, k)
    requires var t := Run(Boot(fs, size), acts);
      && b in t.writers && t.writers[b].key == k && t.writers[b].promoted
      && LatestBody(Boot(fs, size), acts, k) == Some(t.writers[b].inode)
      && LatestMeta(Boot(fs, size), acts, k).Some? && LatestMeta(Boot(fs, size), acts, k).value.from == ByWriter(m)
      && LatestHdr(Boot(fs, size), acts, k).Some? && LatestHdr(Boot(fs, size), acts, k).value.from == ByWriter(h)
    ensures var t := Run(Boot(fs, size), acts);
      && m in t.writers && h in t.writers && k in OnDisk(t.shared.fs)
      && t.writers[m].key == k && t.writers[h].key == k
      && Some(OnDisk(t.shared.fs)[k].meta.internal) == t.writers[m].metaLeft
      && Some(OnDisk(t.shared.fs)[k].meta.header) == t.writers[h].hdrLeft
      && (AfterSmall(t.writers[m].stage) ==> OnDisk(t.shared.fs)[k].meta.internal == t.writers[m].meta.internal)
      && (AfterSmall(t.writers[h].stage) ==> OnDisk(t.shared.fs)[k].meta.header == t.writers[h].meta.header)
      && HoldsChunks(OnDisk(t.shared.fs)[k].body, t.writers[b])
      && (b == m == h && !t.writers[b].torn && AfterSmall(t.writers[b].stage) ==>
            OnDisk(t.shared.fs)[k] == Entry(t.writers[b].meta, Flatten(t.writers[b].chunks)))
  {
    var t := Run(Boot(fs, size), acts);
    BootCore(fs, size);
    hide Run, LatestBody, LatestMeta, LatestHdr, WellFormed, WriterOk, LookupGood;
    LatestOfEach(Boot(fs, size), acts, k);
    RunSafe(fs, size, acts, k);
    assert WriterGood(t.shared.fs, b, t.writers[b]) && LeftOk(t.writers[m]) && LeftOk(t.writers[h]);
  }
}
