/** The disk cache as a state machine: one step is one file system call or one counter update of one call in
    progress, and the steps of any number of calls interleave freely. Every file system call may fail.

    Records of calls are never forgotten, so that what happened can be read off the state. An action that the
    code cannot take in a state leaves the state as it is. */
module CacheMachine {
  import opened Basics
  import opened FileSystem
  import opened HitSpec

  datatype Metrics = Metrics(
    lookupHits: int,
    servedHits: int,
    misses: int,
    inserts: int,
    purgeAttempts: int,
    evictions: int,
    evictedBytes: int,
    sizeBytes: int)

  /** What all calls share: the disk and the counters. */
  datatype Shared = Shared(fs: FS, metrics: Metrics)

  // - - - miss handlers

  datatype WriterResult = Created(size: nat) | Failed | Abandoned

  datatype WriterStage =
    | EnsureDir | EnsureParent | CreatingTmp        // get_miss_handler
    | Open                                          // write_body
    | FinishDir | Promote                           // finish
    | CopyOpening | CopyCreating | Copying(to: nat, offset: nat) | CopyCleaning
    | PuttingMeta | PuttingHdr | CountingInsert | CountingSize
    | Dropping(pending: WriterResult)
    | Closed(result: WriterResult)

  datatype Writer = Writer(
    key: Key,
    meta: CacheMeta,
    stage: WriterStage,
    inode: nat,            // of the tmp file, once created
    written: nat,          // tmp_bytes_written
    chunks: seq<Bytes>,    // history: the chunks whose write succeeded
    torn: bool,            // history: a failed write left bytes behind
    promoted: bool,        // history: rename succeeded
    metaLeft: Option<Bytes>,   // history: what its meta write left in the file, if it got to open it
    hdrLeft: Option<Bytes>,
    leaked: bool,          // history: the last removal of the tmp file failed
    displaced: nat,        // history: length of the body this one replaced
    arrived: nat,          // history: bytes this handler put at the body path
    credited: nat)         // history: what was added to `size_bytes`

  /** The outcome of `fs::write` on a small file: everything is written, or the file could not be opened, or, since the
      call truncates the file before it writes, a failure leaves no more than a prefix of the data. */
  datatype SmallIO = Whole | Refused | Partly(left: nat)

  /** What the call leaves in the file it has opened. */
  function SmallLeft(data: Bytes, io: SmallIO): Bytes {
    if io.Partly? then data[..Min(io.left, |data|)] else data
  }

  datatype WriteIO = OpenFails | WriteFails(partial: nat) | WriteWorks

  datatype WriterAction =
    | Begin(key: Key, meta: CacheMeta, serialised: bool)
    | MakeDirs(ok: bool)
    | Create(ok: bool)
    | Write(data: Bytes, io: WriteIO)
    | Finish
    | RenameTmp(ok: bool)
    | CopyOpen(ok: bool)
    | CopyCreate(ok: bool)
    | CopyChunk(size: nat)
    | CopyEnd(ok: bool)
    | CopyClean(ok: bool)
    | WriteMeta(put: SmallIO)
    | WriteHdr(put: SmallIO)
    | CountInsert
    | CountSize
    | Abandon
    | Drop(ok: bool)

  // - - - purges, meta updates, lookups with the hit handler they open

  datatype PurgeStage =
    | Measuring | RemovingBody
    | CountingEviction | CountingBytes | CountingDown
    | RemovingMeta | RemovingHdr | RemovingDir | Purged

  datatype Purge = Purge(
    key: Key,
    stage: PurgeStage,
    measured: nat,         // body_bytes
    existed: bool,
    removed: nat,          // history: length of the body that was unlinked
    debited: nat)          // history: what was subtracted from `size_bytes`

  datatype PurgeAction =
    | BeginPurge(key: Key)
    | Measure(ok: bool)
    | UnlinkBody(ok: bool)
    | CountEviction | CountEvictedBytes | CountDown
    | UnlinkMeta(ok: bool)
    | UnlinkHdr(ok: bool)
    | RemoveDirectory(ok: bool)

  datatype UpdateResult = Updated(existed: bool) | UpdateFailed

  datatype UpdateStage = Checking | UpdatingMeta | UpdatingHdr | UpdateDone(result: UpdateResult)

  datatype Update = Update(
    key: Key,
    meta: CacheMeta,
    stage: UpdateStage,
    metaLeft: Option<Bytes>,   // history: what its meta write left in the file, if it got to open it
    hdrLeft: Option<Bytes>)

  datatype UpdateAction =
    | BeginUpdate(key: Key, meta: CacheMeta)
    | Check(ok: bool, serialised: bool)
    | UpdateMeta(put: SmallIO)
    | UpdateHdr(put: SmallIO)

  datatype SmallRead = Unread | Got(file: Small) | Gone

  datatype FileOpen = Unopened | Opened(inode: nat, snapshot: Bytes) | NoFile

  datatype LookupStage =
    | EnsureRoot
    | Reading              // the three joined reads, in any order
    | Sizing
    | Decoding(size: nat)
    | Serving(hit: Hit)
    | Served(hit: Hit)
    | Released(hit: Hit)
    | Missed
    | LookupFailed(counted: bool)

  datatype Lookup = Lookup(key: Key, stage: LookupStage, meta: SmallRead, hdr: SmallRead, body: FileOpen)

  datatype LookupAction =
    | BeginLookup(key: Key)
    | MakeRoot(ok: bool)
    | ReadMeta(ok: bool)
    | ReadHdr(ok: bool)
    | OpenBody(ok: bool)
    | Join
    | Size(ok: bool)
    | Decode(ok: bool)
    | SeekHit(start: nat, end: Option<nat>)
    | ReadHit(io: ReadIO)
    | FinishHit
    | ReleaseHit

  datatype Action =
    | OfWriter(id: nat, w: WriterAction)
    | OfPurge(id: nat, p: PurgeAction)
    | OfUpdate(id: nat, u: UpdateAction)
    | OfLookup(id: nat, l: LookupAction)

  datatype State = State(
    start: FS,             // history: the file system at start
    shared: Shared,
    writers: map<nat, Writer>,
    purges: map<nat, Purge>,
    updates: map<nat, Update>,
    lookups: map<nat, Lookup>)

  // - - - writers: one step of one miss handler

  function NewWriter(key: Key, meta: CacheMeta, serialised: bool): Writer {
    Writer(key, meta, if serialised then EnsureDir else Closed(Failed),
           0, 0, [], false, false, None, None, false, 0, 0, 0)
  }

  function MoveMakeDirs(sh: Shared, w: Writer, ok: bool): (Shared, Writer) {
    var after := if ok then sh.(fs := MakeDir(sh.fs, w.key)) else sh;
    match w.stage
    case EnsureDir => (after, w.(stage := EnsureParent))
    case EnsureParent => (after, w.(stage := CreatingTmp))
    case FinishDir => (after, w.(stage := Promote))
    case _ => (sh, w)
  }

  function MoveCreate(sh: Shared, id: nat, w: Writer, ok: bool): (Shared, Writer) {
    if ok && w.key in sh.fs.dirs && id !in sh.fs.tmps then
      (sh.(fs := CreateTmp(sh.fs, id, w.key)), w.(stage := Open, inode := |sh.fs.inodes|))
    else (sh, w.(stage := Closed(Failed)))
  }

  function MoveWrite(sh: Shared, id: nat, w: Writer, data: Bytes, io: WriteIO): (Shared, Writer) {
    if id !in sh.fs.tmps then (sh, w)
    else
      var inode := sh.fs.tmps[id].inode;
      var sofar := Content(sh.fs, inode);
      match io
      case OpenFails => (sh, w)
      case WriteWorks =>
        (sh.(fs := SetContent(sh.fs, inode, sofar + data)),
         w.(chunks := w.chunks + [data], written := w.written + |data|))
      case WriteFails(partial) =>
        var n := Min(partial, |data|);
        (sh.(fs := SetContent(sh.fs, inode, sofar + data[..n])), w.(torn := w.torn || n > 0))
  }

  function MoveRename(sh: Shared, id: nat, w: Writer, ok: bool): (Shared, Writer) {
    if ok && id in sh.fs.tmps && w.key in sh.fs.dirs then
      (sh.(fs := Rename(sh.fs, id)),
       w.(stage := PuttingMeta, promoted := true, displaced := BodyLen(sh.fs, w.key),
          arrived := |Content(sh.fs, sh.fs.tmps[id].inode)|))
    else (sh, w.(stage := CopyOpening))
  }

  function MoveCopyOpen(sh: Shared, id: nat, w: Writer, ok: bool): (Shared, Writer) {
    (sh, w.(stage := if ok && id in sh.fs.tmps then CopyCreating else Dropping(Failed)))
  }

  function MoveCopyCreate(sh: Shared, id: nat, w: Writer, ok: bool): (Shared, Writer) {
    if ok && w.key in sh.fs.dirs then
      var fs := CreateBody(sh.fs, w.key, id);
      (sh.(fs := fs), w.(stage := Copying(fs.bodies[w.key], 0), displaced := BodyLen(sh.fs, w.key)))
    else (sh, w.(stage := Dropping(Failed)))
  }

  function MoveCopyChunk(sh: Shared, w: Writer, size: nat): (Shared, Writer)
    requires w.stage.Copying?
  {
    var to, offset := w.stage.to, w.stage.offset;
    var from := Content(sh.fs, w.inode);
    if offset > |from| then (sh, w)
    else
      var n := Min(size, |from| - offset);
      var before := Content(sh.fs, to);
      var after := WriteAt(before, offset, from[offset..offset + n]);
      var linked := w.key in sh.fs.bodies && sh.fs.bodies[w.key] == to;
      (sh.(fs := SetContent(sh.fs, to, after)),
       w.(stage := Copying(to, offset + n),
          arrived := if linked && |after| >= |before| then w.arrived + |after| - |before| else w.arrived))
  }

  function MoveCopyEnd(sh: Shared, w: Writer, ok: bool): (Shared, Writer)
    requires w.stage.Copying?
  {
    (sh, w.(stage := if ok && w.stage.offset == |Content(sh.fs, w.inode)| then CopyCleaning else Dropping(Failed)))
  }

  function MoveCopyClean(sh: Shared, id: nat, w: Writer, ok: bool): (Shared, Writer) {
    (if ok then sh.(fs := RemoveTmp(sh.fs, id)) else sh, w.(stage := PuttingMeta))
  }

  function MoveMeta(sh: Shared, id: nat, w: Writer, io: SmallIO): (Shared, Writer) {
    if io.Refused? || w.key !in sh.fs.dirs then (sh, w.(stage := Dropping(Failed)))
    else
      var left := SmallLeft(w.meta.internal, io);
      (sh.(fs := PutMeta(sh.fs, w.key, left, ByWriter(id))),
       w.(stage := if io.Whole? then PuttingHdr else Dropping(Failed), metaLeft := Some(left)))
  }

  function MoveHdr(sh: Shared, id: nat, w: Writer, io: SmallIO): (Shared, Writer) {
    if io.Refused? || w.key !in sh.fs.dirs then (sh, w.(stage := Dropping(Failed)))
    else
      var left := SmallLeft(w.meta.header, io);
      (sh.(fs := PutHdr(sh.fs, w.key, left, ByWriter(id))),
       w.(stage := if io.Whole? then CountingInsert else Dropping(Failed), hdrLeft := Some(left)))
  }

  function MoveCountInsert(sh: Shared, w: Writer): (Shared, Writer) {
    (sh.(metrics := sh.metrics.(inserts := sh.metrics.inserts + 1)), w.(stage := CountingSize))
  }

  function MoveCountSize(sh: Shared, w: Writer): (Shared, Writer) {
    (sh.(metrics := sh.metrics.(sizeBytes := sh.metrics.sizeBytes + w.written)),
     w.(stage := Dropping(Created(w.written)), credited := w.written))
  }

  /** The handler or its pending `finish` may be dropped at any await point. */
  predicate MayAbandon(stage: WriterStage) {
    stage.Open? || stage.FinishDir? || stage.Promote? || stage.CopyOpening? || stage.CopyCreating?
    || stage.Copying? || stage.CopyCleaning? || stage.PuttingMeta? || stage.PuttingHdr?
  }

  function MoveDrop(sh: Shared, id: nat, w: Writer, ok: bool): (Shared, Writer)
    requires w.stage.Dropping?
  {
    (if ok then sh.(fs := RemoveTmp(sh.fs, id)) else sh, w.(stage := Closed(w.stage.pending), leaked := !ok))
  }

  function MoveWriter(sh: Shared, id: nat, w: Writer, a: WriterAction): (Shared, Writer) {
    match a
    case Begin(_, _, _) => (sh, w)
    case MakeDirs(ok) => MoveMakeDirs(sh, w, ok)
    case Create(ok) => if w.stage.CreatingTmp? then MoveCreate(sh, id, w, ok) else (sh, w)
    case Write(data, io) => if w.stage.Open? then MoveWrite(sh, id, w, data, io) else (sh, w)
    case Finish => if w.stage.Open? then (sh, w.(stage := FinishDir)) else (sh, w)
    case RenameTmp(ok) => if w.stage.Promote? then MoveRename(sh, id, w, ok) else (sh, w)
    case CopyOpen(ok) => if w.stage.CopyOpening? then MoveCopyOpen(sh, id, w, ok) else (sh, w)
    case CopyCreate(ok) => if w.stage.CopyCreating? then MoveCopyCreate(sh, id, w, ok) else (sh, w)
    case CopyChunk(size) => if w.stage.Copying? then MoveCopyChunk(sh, w, size) else (sh, w)
    case CopyEnd(ok) => if w.stage.Copying? then MoveCopyEnd(sh, w, ok) else (sh, w)
    case CopyClean(ok) => if w.stage.CopyCleaning? then MoveCopyClean(sh, id, w, ok) else (sh, w)
    case WriteMeta(io) => if w.stage.PuttingMeta? then MoveMeta(sh, id, w, io) else (sh, w)
    case WriteHdr(io) => if w.stage.PuttingHdr? then MoveHdr(sh, id, w, io) else (sh, w)
    case CountInsert => if w.stage.CountingInsert? then MoveCountInsert(sh, w) else (sh, w)
    case CountSize => if w.stage.CountingSize? then MoveCountSize(sh, w) else (sh, w)
    case Abandon => if MayAbandon(w.stage) then (sh, w.(stage := Dropping(Abandoned))) else (sh, w)
    case Drop(ok) => if w.stage.Dropping? then MoveDrop(sh, id, w, ok) else (sh, w)
  }

  // - - - purges

  function NewPurge(key: Key): Purge {
    Purge(key, Measuring, 0, false, 0, 0)
  }

  function MoveMeasure(sh: Shared, p: Purge, ok: bool): (Shared, Purge) {
    (sh, p.(stage := RemovingBody, measured := if ok then BodyLen(sh.fs, p.key) else 0))
  }

  function MoveUnlinkBody(sh: Shared, p: Purge, ok: bool): (Shared, Purge) {
    if ok && p.key in sh.fs.bodies then
      (sh.(fs := RemoveBody(sh.fs, p.key)),
       p.(stage := CountingEviction, existed := true, removed := BodyLen(sh.fs, p.key)))
    else (sh, p.(stage := RemovingMeta))
  }

  function MoveCountEviction(sh: Shared, p: Purge): (Shared, Purge) {
    (sh.(metrics := sh.metrics.(evictions := sh.metrics.evictions + 1)), p.(stage := CountingBytes))
  }

  function MoveCountBytes(sh: Shared, p: Purge): (Shared, Purge) {
    (sh.(metrics := sh.metrics.(evictedBytes := sh.metrics.evictedBytes + p.measured)), p.(stage := CountingDown))
  }

  function MoveCountDown(sh: Shared, p: Purge): (Shared, Purge) {
    (sh.(metrics := sh.metrics.(sizeBytes := sh.metrics.sizeBytes - p.measured)),
     p.(stage := RemovingMeta, debited := p.measured))
  }

  function MovePurge(sh: Shared, p: Purge, a: PurgeAction): (Shared, Purge) {
    match a
    case BeginPurge(_) => (sh, p)
    case Measure(ok) => if p.stage.Measuring? then MoveMeasure(sh, p, ok) else (sh, p)
    case UnlinkBody(ok) => if p.stage.RemovingBody? then MoveUnlinkBody(sh, p, ok) else (sh, p)
    case CountEviction => if p.stage.CountingEviction? then MoveCountEviction(sh, p) else (sh, p)
    case CountEvictedBytes => if p.stage.CountingBytes? then MoveCountBytes(sh, p) else (sh, p)
    case CountDown => if p.stage.CountingDown? then MoveCountDown(sh, p) else (sh, p)
    case UnlinkMeta(ok) =>
      if p.stage.RemovingMeta? then
        (if ok then sh.(fs := RemoveMeta(sh.fs, p.key)) else sh, p.(stage := RemovingHdr))
      else (sh, p)
    case UnlinkHdr(ok) =>
      if p.stage.RemovingHdr? then
        (if ok then sh.(fs := RemoveHdr(sh.fs, p.key)) else sh, p.(stage := RemovingDir))
      else (sh, p)
    case RemoveDirectory(ok) =>
      if p.stage.RemovingDir? then
        (if ok then sh.(fs := RemoveDir(sh.fs, p.key)) else sh, p.(stage := Purged))
      else (sh, p)
  }

  // - - - meta updates

  function MoveCheck(sh: Shared, u: Update, ok: bool, serialised: bool): (Shared, Update) {
    (sh,
     u.(stage :=
       if !(ok && u.key in sh.fs.bodies) then UpdateDone(Updated(false))
       else if serialised then UpdatingMeta
       else UpdateDone(UpdateFailed)))
  }

  function NewUpdate(key: Key, meta: CacheMeta): Update {
    Update(key, meta, Checking, None, None)
  }

  function MoveUpdateMeta(sh: Shared, id: nat, u: Update, io: SmallIO): (Shared, Update) {
    if io.Refused? || u.key !in sh.fs.dirs then (sh, u.(stage := UpdateDone(UpdateFailed)))
    else
      var left := SmallLeft(u.meta.internal, io);
      (sh.(fs := PutMeta(sh.fs, u.key, left, ByUpdate(id))),
       u.(stage := if io.Whole? then UpdatingHdr else UpdateDone(UpdateFailed), metaLeft := Some(left)))
  }

  function MoveUpdateHdr(sh: Shared, id: nat, u: Update, io: SmallIO): (Shared, Update) {
    if io.Refused? || u.key !in sh.fs.dirs then (sh, u.(stage := UpdateDone(UpdateFailed)))
    else
      var left := SmallLeft(u.meta.header, io);
      (sh.(fs := PutHdr(sh.fs, u.key, left, ByUpdate(id))),
       u.(stage := UpdateDone(if io.Whole? then Updated(true) else UpdateFailed), hdrLeft := Some(left)))
  }

  function MoveUpdate(sh: Shared, id: nat, u: Update, a: UpdateAction): (Shared, Update) {
    match a
    case BeginUpdate(_, _) => (sh, u)
    case Check(ok, serialised) => if u.stage.Checking? then MoveCheck(sh, u, ok, serialised) else (sh, u)
    case UpdateMeta(io) => if u.stage.UpdatingMeta? then MoveUpdateMeta(sh, id, u, io) else (sh, u)
    case UpdateHdr(io) => if u.stage.UpdatingHdr? then MoveUpdateHdr(sh, id, u, io) else (sh, u)
  }

  // - - - lookups and hit handlers: they change counters only

  function NewLookup(key: Key): Lookup {
    Lookup(key, EnsureRoot, Unread, Unread, Unopened)
  }

  function ReadSmall(m: map<Key, Small>, k: Key, ok: bool): SmallRead {
    if ok && k in m then Got(m[k]) else Gone
  }

  function OpenFile(fs: FS, k: Key, ok: bool): FileOpen {
    if ok && k in fs.bodies then Opened(fs.bodies[k], Content(fs, fs.bodies[k])) else NoFile
  }

  function MoveJoin(sh: Shared, l: Lookup): (Metrics, Lookup) {
    if l.meta.Unread? || l.hdr.Unread? || l.body.Unopened? then (sh.metrics, l)
    else if l.meta.Got? && l.hdr.Got? && l.body.Opened? then (sh.metrics, l.(stage := Sizing))
    else (sh.metrics.(misses := sh.metrics.misses + 1), l.(stage := Missed))
  }

  function MoveSize(sh: Shared, l: Lookup, ok: bool): (Metrics, Lookup) {
    (sh.metrics,
     l.(stage := if ok && l.body.Opened? then Decoding(|Content(sh.fs, l.body.inode)|) else LookupFailed(false)))
  }

  function MoveDecode(sh: Shared, l: Lookup, ok: bool): (Metrics, Lookup)
    requires l.stage.Decoding?
  {
    (sh.metrics.(lookupHits := sh.metrics.lookupHits + 1),
     l.(stage := if ok then Serving(NewHit(l.stage.size)) else LookupFailed(true)))
  }

  function MoveRead(sh: Shared, l: Lookup, io: ReadIO): (Metrics, Lookup)
    requires l.stage.Serving?
  {
    var content := if l.body.Opened? then Content(sh.fs, l.body.inode) else [];
    (sh.metrics, l.(stage := Serving(ReadBody(l.stage.hit, content, io).0)))
  }

  function MoveFinishHit(sh: Shared, l: Lookup): (Metrics, Lookup)
    requires l.stage.Serving?
  {
    (sh.metrics.(servedHits := sh.metrics.servedHits + 1), l.(stage := Served(l.stage.hit)))
  }

  function MoveLookup(sh: Shared, l: Lookup, a: LookupAction): (Metrics, Lookup) {
    match a
    case BeginLookup(_) => (sh.metrics, l)
    case MakeRoot(ok) =>
      (sh.metrics, if l.stage.EnsureRoot? then l.(stage := if ok then Reading else LookupFailed(false)) else l)
    case ReadMeta(ok) =>
      (sh.metrics,
       if l.stage.Reading? && l.meta.Unread? then l.(meta := ReadSmall(sh.fs.metas, l.key, ok)) else l)
    case ReadHdr(ok) =>
      (sh.metrics,
       if l.stage.Reading? && l.hdr.Unread? then l.(hdr := ReadSmall(sh.fs.hdrs, l.key, ok)) else l)
    case OpenBody(ok) =>
      (sh.metrics,
       if l.stage.Reading? && l.body.Unopened? then l.(body := OpenFile(sh.fs, l.key, ok)) else l)
    case Join => if l.stage.Reading? then MoveJoin(sh, l) else (sh.metrics, l)
    case Size(ok) => if l.stage.Sizing? then MoveSize(sh, l, ok) else (sh.metrics, l)
    case Decode(ok) => if l.stage.Decoding? then MoveDecode(sh, l, ok) else (sh.metrics, l)
    case SeekHit(start, end) =>
      (sh.metrics, if l.stage.Serving? then l.(stage := Serving(Seek(l.stage.hit, start, end))) else l)
    case ReadHit(io) => if l.stage.Serving? then MoveRead(sh, l, io) else (sh.metrics, l)
    case FinishHit => if l.stage.Serving? then MoveFinishHit(sh, l) else (sh.metrics, l)
    case ReleaseHit => (sh.metrics, if l.stage.Serving? then l.(stage := Released(l.stage.hit)) else l)
  }

  // - - - runs

  function SetWriter(s: State, id: nat, sh: Shared, w: Writer): State {
    s.(shared := sh, writers := s.writers[id := w])
  }

  function SetPurge(s: State, id: nat, sh: Shared, p: Purge): State {
    s.(shared := sh, purges := s.purges[id := p])
  }

  function SetUpdate(s: State, id: nat, sh: Shared, u: Update): State {
    s.(shared := sh, updates := s.updates[id := u])
  }

  function SetLookup(s: State, id: nat, metrics: Metrics, l: Lookup): State {
    s.(shared := s.shared.(metrics := metrics), lookups := s.lookups[id := l])
  }

  /** `get_miss_handler` counts a miss before anything else; the name of its tmp file must be new. */
  function BeginWriter(s: State, id: nat, key: Key, meta: CacheMeta, serialised: bool): State {
    var m := s.shared.metrics;
    SetWriter(s, id, s.shared.(metrics := m.(misses := m.misses + 1)), NewWriter(key, meta, serialised))
  }

  function BeginPurging(s: State, id: nat, key: Key): State {
    var m := s.shared.metrics;
    SetPurge(s, id, s.shared.(metrics := m.(purgeAttempts := m.purgeAttempts + 1)), NewPurge(key))
  }

  function StepWriter(s: State, id: nat, a: WriterAction): State {
    if id in s.writers then
      var (sh, w) := MoveWriter(s.shared, id, s.writers[id], a);
      SetWriter(s, id, sh, w)
    else if a.Begin? && id !in s.shared.fs.tmps then BeginWriter(s, id, a.key, a.meta, a.serialised)
    else s
  }

  function StepPurge(s: State, id: nat, a: PurgeAction): State {
    if id in s.purges then
      var (sh, p) := MovePurge(s.shared, s.purges[id], a);
      SetPurge(s, id, sh, p)
    else if a.BeginPurge? then BeginPurging(s, id, a.key)
    else s
  }

  function StepUpdate(s: State, id: nat, a: UpdateAction): State {
    if id in s.updates then
      var (sh, u) := MoveUpdate(s.shared, id, s.updates[id], a);
      SetUpdate(s, id, sh, u)
    else if a.BeginUpdate? then SetUpdate(s, id, s.shared, NewUpdate(a.key, a.meta))
    else s
  }

  function StepLookup(s: State, id: nat, a: LookupAction): State {
    if id in s.lookups then
      var (m, l) := MoveLookup(s.shared, s.lookups[id], a);
      SetLookup(s, id, m, l)
    else if a.BeginLookup? then SetLookup(s, id, s.shared.metrics, NewLookup(a.key))
    else s
  }

  function Step(s: State, a: Action): State {
    match a
    case OfWriter(id, w) => StepWriter(s, id, w)
    case OfPurge(id, p) => StepPurge(s, id, p)
    case OfUpdate(id, u) => StepUpdate(s, id, u)
    case OfLookup(id, l) => StepLookup(s, id, l)
  }

  /** A file system a cache process may find at start: any bodies, metas and hdrs, complete or not, and any tmp
      files an earlier process left behind. */
  ghost predicate Bootable(fs: FS) {
    && WellFormed(fs)
    && (forall i :: 0 <= i < |fs.inodes| && fs.inodes[i].role.BodyFile? ==>
         && fs.inodes[i].role == BodyFile(fs.inodes[i].role.key, fs.inodes[i].content, None)
         && fs.inodes[i].role.key in fs.bodies && fs.bodies[fs.inodes[i].role.key] == i)
    && (forall k :: k in fs.metas ==> fs.metas[k].from == AtStart)
    && (forall k :: k in fs.hdrs ==> fs.hdrs[k].from == AtStart)
  }

  /** A cache process started with the size carried over from the previous process. */
  function Boot(fs: FS, size: int): State {
    State(fs, Shared(fs, Metrics(0, 0, 0, 0, 0, 0, 0, size)), map[], map[], map[], map[])
  }

  function Run(s: State, acts: seq<Action>): State {
    if acts == [] then s else Step(Run(s, acts[..|acts| - 1]), acts[|acts| - 1])
  }

  lemma {:induction false} RunSnoc(s: State, acts: seq<Action>, a: Action)
    ensures Run(s, acts + [a]) == Step(Run(s, acts), a)
  {
  }

  lemma {:induction false} RunAppend(s: State, first: seq<Action>, second: seq<Action>)
    ensures Run(s, first + second) == Run(Run(s, first), second)
  {
    hide Step;
    if second == [] {
      assert first + second == first;
    } else {
      var rest := second[..|second| - 1];
      RunAppend(s, first, rest);
      assert (first + second)[..|first + second| - 1] == first + rest;
    }
  }

  // - - - the copy fallback

  /** The step creates the body of `k`, or truncates it, in order to copy onto it. */
  predicate StartsCopy(s: State, a: Action, k: Key) {
    && a.OfWriter? && a.id in s.writers && a.w == CopyCreate(true)
    && s.writers[a.id].stage.CopyCreating? && s.writers[a.id].key == k && k in s.shared.fs.dirs
  }

  /** No `finish` falls back to copying onto the body of `k`. */
  ghost predicate NoCopies(s: State, acts: seq<Action>, k: Key) {
    acts == []
    || (NoCopies(s, acts[..|acts| - 1], k) && !StartsCopy(Run(s, acts[..|acts| - 1]), acts[|acts| - 1], k))
  }

  lemma {:induction false} NoCopiesSnoc(s: State, acts: seq<Action>, a: Action, k: Key)
    ensures NoCopies(s, acts + [a], k) <==> NoCopies(s, acts, k) && !StartsCopy(Run(s, acts), a, k)
  {
    assert (acts + [a])[..|acts|] == acts;
  }

  lemma {:induction false} NoCopiesAppend(s: State, first: seq<Action>, second: seq<Action>, k: Key)
    ensures NoCopies(s, first + second, k) <==> NoCopies(s, first, k) && NoCopies(Run(s, first), second, k)
  {
    hide Step, StartsCopy;
    if second == [] {
      assert first + second == first;
    } else {
      var rest := second[..|second| - 1];
      NoCopiesAppend(s, first, rest, k);
      RunAppend(s, first, rest);
      assert (first + second)[..|first + second| - 1] == first + rest;
    }
  }
}
