/** Whole calls one after the other, each with any pattern of failures, and what becomes of the size gauge. */
module FaultyCalls {
  import opened Basics
  import opened FileSystem
  import opened Sums
  import opened HitSpec
  import opened CacheMachine
  import opened CoreInvariant
  import opened Accounting
  import opened WholeCalls
  import opened CallOutcomes

  /** A call, with the outcome of each of its file operations. */
  datatype Attempt =
    | TryAdmit(id: nat, key: Key, meta: CacheMeta, admit: AdmitIO)
    | TryWrite(id: nat, data: Bytes, write: WriteIO)
    | TryFinish(id: nat, finish: FinishIO)
    | TryDrop(id: nat, removed: bool)
    | TryPurge(id: nat, key: Key, purge: PurgeIO)
    | TryUpdate(id: nat, key: Key, meta: CacheMeta, update: UpdateIO)
    | TryLookup(id: nat, key: Key, lookup: LookupIO)

  /** Whether the call can be made: new calls use new names, and a handler is used while it is open. */
  predicate Applies(s: State, c: Attempt) {
    match c
    case TryAdmit(id, _, _, _) => id !in s.writers && id !in s.shared.fs.tmps
    case TryWrite(id, _, _) => id in s.writers && s.writers[id].stage.Open?
    case TryFinish(id, _) => id in s.writers && s.writers[id].stage.Open?
    case TryDrop(id, _) => id in s.writers && s.writers[id].stage.Open?
    case TryPurge(id, _, _) => id !in s.purges
    case TryUpdate(id, _, _, _) => id !in s.updates
    case TryLookup(id, _, _) => id !in s.lookups
  }

  /** The state after the call. */
  function Made(s: State, c: Attempt): State
    requires Applies(s, c)
  {
    match c
    case TryAdmit(id, key, meta, io) => var (sh, w) := AdmitCall(s.shared, id, key, meta, io); SetWriter(s, id, sh, w)
    case TryWrite(id, data, io) =>
      var (sh, w) := MoveWrite(s.shared, id, s.writers[id], data, io); SetWriter(s, id, sh, w)
    case TryFinish(id, io) => var (sh, w) := FinishCall(s.shared, id, s.writers[id], io); SetWriter(s, id, sh, w)
    case TryDrop(id, ok) => var (sh, w) := DropCall(s.shared, id, s.writers[id], ok); SetWriter(s, id, sh, w)
    case TryPurge(id, key, io) => var (sh, p) := PurgeCall(s.shared, key, io); SetPurge(s, id, sh, p)
    case TryUpdate(id, key, meta, io) =>
      var (sh, u) := UpdateCall(s.shared, id, key, meta, io); SetUpdate(s, id, sh, u)
    case TryLookup(id, key, io) => var (m, l) := LookupCall(s.shared, key, io); SetLookup(s, id, m, l)
  }

  function AllMade(s: State, calls: seq<Attempt>): State {
    if calls == [] then s
    else
      var t := AllMade(s, calls[..|calls| - 1]);
      if Applies(t, calls[|calls| - 1]) then Made(t, calls[|calls| - 1]) else t
  }

  /** What is asked of the outcomes: no finish gets as far as copying, no failed write leaves bytes behind, and purges
      learn the length of what they unlink. Anything else may fail. */
  predicate Fair(c: Attempt) {
    match c
    case TryWrite(_, data, io) => io.WriteFails? ==> Min(io.partial, |data|) == 0
    case TryFinish(_, io) => io.rename || !io.open || !io.create
    case TryPurge(_, _, io) => io.measure || !io.body
    case _ => true
  }

  lemma MadeIsRun(s: State, c: Attempt)
    requires Core(s) && Applies(s, c) && Fair(c)
    ensures Reaches(s, Made(s, c), {})
  {
    hide Core, Reaches, AdmitCall, FinishCall, DropCall, PurgeCall, UpdateCall, LookupCall, MoveWrite;
    match c
    case TryAdmit(id, key, meta, io) => AdmitIsRun(s, id, key, meta, io);
    case TryWrite(id, data, io) => WriterCallsAreRuns(s, id, data, io, true);
    case TryFinish(id, io) => FinishIsRun(s, id, io);
    case TryDrop(id, ok) => WriterCallsAreRuns(s, id, [], WriteWorks, ok);
    case TryPurge(id, key, io) => PurgeIsRun(s, id, key, io);
    case TryUpdate(id, key, meta, io) => UpdateIsRun(s, id, key, meta, io);
    case TryLookup(id, key, io) => LookupIsRun(s, id, key, io);
  }

  ghost predicate CallsEnded(s: State) {
    && (forall id :: id in s.writers ==>
          (s.writers[id].stage.Closed? || s.writers[id].stage.Open?) && !s.writers[id].torn)
    && (forall id :: id in s.purges ==> MeasuredRight(s.purges[id]))
  }

  lemma MadeEnds(s: State, c: Attempt)
    requires Core(s) && CallsEnded(s) && Applies(s, c) && Fair(c)
    ensures CallsEnded(Made(s, c))
  {
    hide Core, AdmitCall, FinishCall, DropCall, PurgeCall, UpdateCall, LookupCall, MoveWrite;
    match c
    case TryAdmit(id, key, meta, io) => AdmitEnds(s.shared, id, key, meta, io);
    case TryWrite(id, data, io) => WriteEnds(s.shared, id, s.writers[id], data, io);
    case TryFinish(id, io) => FinishEnds(s, id, io);
    case TryDrop(id, ok) => DropEnds(s.shared, id, s.writers[id], ok);
    case TryPurge(id, key, io) => PurgeEffect(s.shared, key, io);
    case TryUpdate(id, key, meta, io) =>
    case TryLookup(id, key, io) =>
  }

  lemma AdmitEnds(sh: Shared, id: nat, key: Key, meta: CacheMeta, io: AdmitIO)
    ensures var w := AdmitCall(sh, id, key, meta, io).1; (w.stage.Closed? || w.stage.Open?) && !w.torn
  {
  }

  lemma WriteEnds(sh: Shared, id: nat, w: Writer, data: Bytes, io: WriteIO)
    requires io.WriteFails? ==> Min(io.partial, |data|) == 0
    ensures var v := MoveWrite(sh, id, w, data, io).1; v.stage == w.stage && v.torn == w.torn
  {
  }

  lemma FinishEnds(s: State, id: nat, io: FinishIO)
    requires Core(s) && id in s.writers && s.writers[id].stage.Open?
    ensures var v := FinishCall(s.shared, id, s.writers[id], io).1; v.stage.Closed? && v.torn == s.writers[id].torn
  {
    hide FinishCall;
    assert WriterOk(s.shared.fs, id, s.writers[id]);
    FinishOutcome(s.shared, id, s.writers[id], io);
  }

  lemma DropEnds(sh: Shared, id: nat, w: Writer, ok: bool)
    ensures var v := DropCall(sh, id, w, ok).1; v.stage.Closed? && v.torn == w.torn
  {
  }

  lemma {:induction false} AllMadeIsRun(s: State, calls: seq<Attempt>)
    requires Core(s) && CallsEnded(s) && forall c :: c in calls ==> Fair(c)
    ensures var t := AllMade(s, calls); Reaches(s, t, {}) && Core(t) && CallsEnded(t)
  {
    hide Core, Reaches, CallsEnded, Made, Applies, Fair;
    ReachesHere(s, {});
    if calls != [] {
      var rest, c := calls[..|calls| - 1], calls[|calls| - 1];
      AllMadeIsRun(s, rest);
      var t := AllMade(s, rest);
      if Applies(t, c) {
        MadeIsRun(t, c);
        MadeEnds(t, c);
        ReachesCore(t, Made(t, c), {});
        ReachesOn(s, t, Made(t, c), {});
      }
    }
  }

  /** Accounting of whole calls, with nothing asked but of the outcomes of their file operations: whatever fails among
      the rest, the gauge has moved away from the bytes on disk by the bytes of replaced bodies, less those of finishes
      that placed a body and then reported failure. */
  lemma {:induction false} AccountingOfCalls(fs: FS, size: int, calls: seq<Attempt>)
    requires Bootable(fs) && forall c :: c in calls ==> Fair(c)
    ensures var s := AllMade(Boot(fs, size), calls);
      s.shared.metrics.sizeBytes - BytesOnDisk(s.shared.fs)
        == size - BytesOnDisk(fs) + Sum(s.writers, Overwritten) - Sum(s.writers, Uncredited)
  {
    hide AllMade, Fair, BytesOnDisk, Sum, Run;
    var boot := Boot(fs, size);
    AllMadeIsRun(boot, calls);
    var s := AllMade(boot, calls);
    var acts :| Run(boot, acts) == s && CopiesOnly(boot, acts, {});
    AccountingAtRest(fs, size, acts);
  }
}
