/** Run one call at a time and without failures, the disk cache is a map from keys to (meta, body), plus the drafts
    that open miss handlers are writing. */
module MapRefinement {
  import opened Basics
  import opened FileSystem
  import opened HitSpec
  import opened CacheMachine
  import opened CoreInvariant
  import opened WholeCalls
  import opened CallOutcomes

  // - - - sequences of calls

  datatype Call =
    | Admit(id: nat, key: Key, meta: CacheMeta)
    | Append(id: nat, data: Bytes)
    | Commit(id: nat)
    | Forget(id: nat)
    | Evict(id: nat, key: Key)
    | Renew(id: nat, key: Key, meta: CacheMeta)
    | Find(id: nat, key: Key)

  datatype Answer = Silence | Amount(n: nat) | Truth(b: bool) | Given(found: Option<Entry>)

  /** What the reference keeps of an open miss handler. */
  datatype Draft = Draft(key: Key, meta: CacheMeta, body: Bytes)

  datatype Reference = Reference(entries: Entries, drafts: map<nat, Draft>)

  function ReferenceCall(r: Reference, c: Call): (Reference, Answer) {
    match c
    case Admit(id, key, meta) => (r.(drafts := r.drafts[id := Draft(key, meta, [])]), Silence)
    case Append(id, data) =>
      if id in r.drafts then (r.(drafts := r.drafts[id := r.drafts[id].(body := r.drafts[id].body + data)]), Silence)
      else (r, Silence)
    case Commit(id) =>
      if id in r.drafts then
        var d := r.drafts[id];
        (Reference(Put(r.entries, d.key, Entry(d.meta, d.body)), r.drafts - {id}), Amount(|d.body|))
      else (r, Silence)
    case Forget(id) => (r.(drafts := r.drafts - {id}), Silence)
    case Evict(id, key) => (r.(entries := Remove(r.entries, key)), Truth(key in r.entries))
    case Renew(id, key, meta) => (r.(entries := Refresh(r.entries, key, meta)), Truth(key in r.entries))
    case Find(id, key) => (r, Given(Get(r.entries, key)))
  }

  /** Calls use new names, as the code's tmp names are assumed to be. */
  predicate Fresh(s: State, c: Call) {
    match c
    case Admit(id, _, _) => id !in s.writers && id !in s.shared.fs.tmps
    case Evict(id, _) => id !in s.purges
    case Renew(id, _, _) => id !in s.updates
    case Find(id, _) => id !in s.lookups
    case _ => true
  }

  predicate IsOpen(s: State, id: nat) {
    id in s.writers && s.writers[id].stage.Open?
  }

  function CacheCall(s: State, c: Call): (State, Answer) {
    match c
    case Admit(id, key, meta) =>
      var (sh, w) := AdmitCall(s.shared, id, key, meta, ADMIT_WORKS);
      (SetWriter(s, id, sh, w), Silence)
    case Append(id, data) =>
      if IsOpen(s, id) then
        var (sh, w) := MoveWrite(s.shared, id, s.writers[id], data, WriteWorks);
        (SetWriter(s, id, sh, w), Silence)
      else (s, Silence)
    case Commit(id) =>
      if IsOpen(s, id) then
        var (sh, w) := FinishCall(s.shared, id, s.writers[id], FINISH_WORKS);
        (SetWriter(s, id, sh, w),
         if w.stage.Closed? && w.stage.result.Created? then Amount(w.stage.result.size) else Silence)
      else (s, Silence)
    case Forget(id) =>
      if IsOpen(s, id) then
        var (sh, w) := DropCall(s.shared, id, s.writers[id], true);
        (SetWriter(s, id, sh, w), Silence)
      else (s, Silence)
    case Evict(id, key) =>
      var (sh, p) := PurgeCall(s.shared, key, PURGE_WORKS);
      (SetPurge(s, id, sh, p), Truth(p.existed))
    case Renew(id, key, meta) =>
      var (sh, u) := UpdateCall(s.shared, id, key, meta, UPDATE_WORKS);
      (SetUpdate(s, id, sh, u), Truth(u.stage == UpdateDone(Updated(true))))
    case Find(id, key) =>
      var (m, l) := LookupCall(s.shared, key, LOOKUP_WORKS);
      (SetLookup(s, id, m, l), Given(Found(l)))
  }

  function Drafts(writers: map<nat, Writer>): map<nat, Draft> {
    map id | id in writers && writers[id].stage.Open? ::
      Draft(writers[id].key, writers[id].meta, Flatten(writers[id].chunks))
  }

  function Abstraction(s: State): Reference {
    Reference(OnDisk(s.shared.fs), Drafts(s.writers))
  }

  /** Between calls: no call is half done and no write has failed. */
  ghost predicate Quiet(s: State) {
    && Core(s)
    && Complete(s.shared.fs)
    && forall id :: id in s.writers ==>
         s.writers[id].stage.Closed? || (s.writers[id].stage.Open? && !s.writers[id].torn)
  }

  /** The refinement statement for one call. */
  ghost predicate Refines(s: State, c: Call) {
    var (t, answer) := CacheCall(s, c);
    && Reaches(s, t, {}) && Quiet(t)
    && ReferenceCall(Abstraction(s), c) == (Abstraction(t), answer)
  }

  lemma DraftsPut(writers: map<nat, Writer>, id: nat, v: Writer)
    ensures v.stage.Open? ==>
      Drafts(writers[id := v]) == Drafts(writers)[id := Draft(v.key, v.meta, Flatten(v.chunks))]
    ensures !v.stage.Open? ==> Drafts(writers[id := v]) == Drafts(writers) - {id}
  {
  }

  lemma AbstractionAfter(s: State, id: nat, sh: Shared, v: Writer)
    ensures var r, t := Abstraction(s), Abstraction(SetWriter(s, id, sh, v));
      && t.entries == OnDisk(sh.fs)
      && t.drafts == if v.stage.Open? then r.drafts[id := Draft(v.key, v.meta, Flatten(v.chunks))] else r.drafts - {id}
  {
    DraftsPut(s.writers, id, v);
  }

  lemma QuietAfterWriter(s: State, t: State, id: nat, v: Writer)
    requires Quiet(s) && Core(t) && Complete(t.shared.fs) && t.writers == s.writers[id := v]
    requires v.stage.Closed? || (v.stage.Open? && !v.torn)
    ensures Quiet(t)
  {
  }

  /** A writer's call refines the reference if it does so on the disk and in its draft. */
  lemma WriterCallRefines(s: State, c: Call, t: State, id: nat, v: Writer, answer: Answer)
    requires Quiet(s) && Reaches(s, t, {}) && Complete(t.shared.fs) && t.writers == s.writers[id := v]
    requires v.stage.Closed? || (v.stage.Open? && !v.torn)
    requires CacheCall(s, c) == (t, answer)
    requires ReferenceCall(Abstraction(s), c) == (Abstraction(t), answer)
    ensures Refines(s, c)
  {
    ReachesCore(s, t, {});
    QuietAfterWriter(s, t, id, v);
  }

  lemma AdmitRefines(s: State, id: nat, key: Key, meta: CacheMeta)
    requires Quiet(s) && Fresh(s, Admit(id, key, meta))
    ensures Refines(s, Admit(id, key, meta))
  {
    AdmitOutcome(s.shared, id, key, meta, ADMIT_WORKS);
    AdmitIsRun(s, id, key, meta, ADMIT_WORKS);
    var (sh, w) := AdmitCall(s.shared, id, key, meta, ADMIT_WORKS);
    DraftsPut(s.writers, id, w);
    WriterCallRefines(s, Admit(id, key, meta), SetWriter(s, id, sh, w), id, w, Silence);
  }

  lemma NoDraft(writers: map<nat, Writer>, id: nat)
    requires !(id in writers && writers[id].stage.Open?)
    ensures Drafts(writers) - {id} == Drafts(writers)
  {
    assert id !in Drafts(writers);
  }

  lemma OpenIsTracked(s: State, id: nat)
    requires Quiet(s) && IsOpen(s, id)
    ensures Core(s) && Complete(s.shared.fs) && !s.writers[id].torn
    ensures Abstraction(s).entries == OnDisk(s.shared.fs) && id in Abstraction(s).drafts
    ensures var w := s.writers[id]; Abstraction(s).drafts[id] == Draft(w.key, w.meta, Flatten(w.chunks))
  {
  }

  lemma OpenHandler(s: State, id: nat)
    requires Core(s) && IsOpen(s, id)
    ensures WellFormed(s.shared.fs) && WriterOk(s.shared.fs, id, s.writers[id])
    ensures var w := s.writers[id];
      && id in s.shared.fs.tmps && s.shared.fs.tmps[id] == Tmp(w.key, w.inode) && w.key in s.shared.fs.dirs
      && HoldsChunks(Content(s.shared.fs, w.inode), w) && w.written == |Flatten(w.chunks)| && !w.promoted
  {
    assert WriterOk(s.shared.fs, id, s.writers[id]);
  }

  /** Calls on a handler that is not open do nothing, here and in the reference. */
  lemma NotOpenRefines(s: State, id: nat, c: Call)
    requires Quiet(s) && !IsOpen(s, id) && (c == Commit(id) || c == Forget(id) || (c.Append? && c.id == id))
    ensures Refines(s, c)
  {
    hide Reaches, OnDisk, Quiet, Core;
    ReachesHere(s, {});
    NoDraft(s.writers, id);
  }

  lemma AppendCall(s: State, id: nat, data: Bytes, r: Reference)
    requires IsOpen(s, id) && id in r.drafts
    ensures var (sh, v) := MoveWrite(s.shared, id, s.writers[id], data, WriteWorks);
      CacheCall(s, Append(id, data)) == (SetWriter(s, id, sh, v), Silence)
    ensures var d := r.drafts[id];
      ReferenceCall(r, Append(id, data)) == (r.(drafts := r.drafts[id := d.(body := d.body + data)]), Silence)
  {
    hide MoveWrite;
  }

  lemma AppendRefines(s: State, id: nat, data: Bytes)
    requires Quiet(s)
    ensures Refines(s, Append(id, data))
  {
    if IsOpen(s, id) {
      hide Reaches, OnDisk, Drafts, Abstraction, Quiet, Core, Complete, WellFormed, WriterOk, MoveWrite, Refines;
      hide CacheCall, ReferenceCall;
      var w := s.writers[id];
      OpenIsTracked(s, id);
      OpenHandler(s, id);
      WriterCallsAreRuns(s, id, data, WriteWorks, true);
      WriteOutcome(s.shared, id, w, data, WriteWorks);
      var (sh, v) := MoveWrite(s.shared, id, w, data, WriteWorks);
      FlattenSnoc(w.chunks, data);
      AbstractionAfter(s, id, sh, v);
      AppendCall(s, id, data, Abstraction(s));
      WriterCallRefines(s, Append(id, data), SetWriter(s, id, sh, v), id, v, Silence);
    } else {
      NotOpenRefines(s, id, Append(id, data));
    }
  }

  lemma CommitCall(s: State, id: nat, r: Reference)
    requires IsOpen(s, id) && id in r.drafts
    ensures var (sh, v) := FinishCall(s.shared, id, s.writers[id], FINISH_WORKS);
      v.stage == Closed(Created(s.writers[id].written)) ==>
        CacheCall(s, Commit(id)) == (SetWriter(s, id, sh, v), Amount(s.writers[id].written))
    ensures var d := r.drafts[id];
      ReferenceCall(r, Commit(id))
        == (Reference(Put(r.entries, d.key, Entry(d.meta, d.body)), r.drafts - {id}), Amount(|d.body|))
  {
    hide FinishCall;
  }

  lemma ForgetCall(s: State, id: nat, r: Reference)
    requires IsOpen(s, id)
    ensures var (sh, v) := DropCall(s.shared, id, s.writers[id], true);
      CacheCall(s, Forget(id)) == (SetWriter(s, id, sh, v), Silence)
    ensures ReferenceCall(r, Forget(id)) == (Reference(r.entries, r.drafts - {id}), Silence)
  {
    hide DropCall;
  }

  lemma CommitRefines(s: State, id: nat)
    requires Quiet(s)
    ensures Refines(s, Commit(id))
  {
    if IsOpen(s, id) {
      hide Reaches, OnDisk, Drafts, Abstraction, Quiet, Core, Complete, WellFormed, WriterOk, FinishCall, Refines;
      hide CacheCall, ReferenceCall;
      var w := s.writers[id];
      OpenIsTracked(s, id);
      OpenHandler(s, id);
      FinishIsRun(s, id, FINISH_WORKS);
      FinishEntries(s.shared, id, w, FINISH_WORKS);
      var (sh, v) := FinishCall(s.shared, id, w, FINISH_WORKS);
      AbstractionAfter(s, id, sh, v);
      CommitCall(s, id, Abstraction(s));
      WriterCallRefines(s, Commit(id), SetWriter(s, id, sh, v), id, v, Amount(w.written));
    } else {
      NotOpenRefines(s, id, Commit(id));
    }
  }

  lemma ForgetRefines(s: State, id: nat)
    requires Quiet(s)
    ensures Refines(s, Forget(id))
  {
    if IsOpen(s, id) {
      hide Reaches, OnDisk, Drafts, Abstraction, Quiet, Core, Complete, WellFormed, WriterOk, DropCall, Refines;
      hide CacheCall, ReferenceCall;
      OpenIsTracked(s, id);
      OpenHandler(s, id);
      WriterCallsAreRuns(s, id, [], WriteWorks, true);
      DropOutcome(s.shared, id, s.writers[id], true);
      var (sh, v) := DropCall(s.shared, id, s.writers[id], true);
      AbstractionAfter(s, id, sh, v);
      ForgetCall(s, id, Abstraction(s));
      WriterCallRefines(s, Forget(id), SetWriter(s, id, sh, v), id, v, Silence);
    } else {
      NotOpenRefines(s, id, Forget(id));
    }
  }

  lemma EvictRefines(s: State, id: nat, key: Key)
    requires Quiet(s) && Fresh(s, Evict(id, key))
    ensures Refines(s, Evict(id, key))
  {
    PurgeOutcome(s.shared, key, PURGE_WORKS);
    PurgeIsRun(s, id, key, PURGE_WORKS);
    var (sh, p) := PurgeCall(s.shared, key, PURGE_WORKS);
    ReachesCore(s, SetPurge(s, id, sh, p), {});
  }

  lemma CompleteEntry(fs: FS, k: Key)
    requires Complete(fs)
    ensures k in fs.bodies <==> k in OnDisk(fs)
  {
  }

  lemma RenewRefines(s: State, id: nat, key: Key, meta: CacheMeta)
    requires Quiet(s) && Fresh(s, Renew(id, key, meta))
    ensures Refines(s, Renew(id, key, meta))
  {
    hide WellFormed, WriterOk, LeftOk, UpdateOk, LookupOk, UpdateCall, OnDisk, Reaches;
    UpdateOutcome(s.shared, id, key, meta, UPDATE_WORKS);
    UpdateIsRun(s, id, key, meta, UPDATE_WORKS);
    var (sh, u) := UpdateCall(s.shared, id, key, meta, UPDATE_WORKS);
    CompleteEntry(s.shared.fs, key);
    RenewIsRefresh(s.shared.fs, sh.fs, key, meta, u.stage.result);
    ReachesCore(s, SetUpdate(s, id, sh, u), {});
  }

  lemma FindRefines(s: State, id: nat, key: Key)
    requires Quiet(s) && Fresh(s, Find(id, key))
    ensures Refines(s, Find(id, key))
  {
    LookupOutcome(s.shared, key, LOOKUP_WORKS);
    LookupIsRun(s, id, key, LOOKUP_WORKS);
    var (m, l) := LookupCall(s.shared, key, LOOKUP_WORKS);
    ReachesCore(s, SetLookup(s, id, m, l), {});
  }

  lemma CallRefines(s: State, c: Call)
    requires Quiet(s) && Fresh(s, c)
    ensures Refines(s, c)
  {
    match c
    case Admit(id, key, meta) => AdmitRefines(s, id, key, meta);
    case Append(id, data) => AppendRefines(s, id, data);
    case Commit(id) => CommitRefines(s, id);
    case Forget(id) => ForgetRefines(s, id);
    case Evict(id, key) => EvictRefines(s, id, key);
    case Renew(id, key, meta) => RenewRefines(s, id, key, meta);
    case Find(id, key) => FindRefines(s, id, key);
  }

  function CacheCalls(s: State, calls: seq<Call>): (State, seq<Answer>) {
    if calls == [] then (s, [])
    else
      var (t, answers) := CacheCalls(s, calls[..|calls| - 1]);
      var (u, answer) := CacheCall(t, calls[|calls| - 1]);
      (u, answers + [answer])
  }

  function ReferenceCalls(r: Reference, calls: seq<Call>): (Reference, seq<Answer>) {
    if calls == [] then (r, [])
    else
      var (t, answers) := ReferenceCalls(r, calls[..|calls| - 1]);
      var (u, answer) := ReferenceCall(t, calls[|calls| - 1]);
      (u, answers + [answer])
  }

  /** Every call of the sequence uses a new name at the moment it is made. */
  predicate AllFresh(s: State, calls: seq<Call>) {
    calls == []
    || (AllFresh(s, calls[..|calls| - 1]) && Fresh(CacheCalls(s, calls[..|calls| - 1]).0, calls[|calls| - 1]))
  }

  /** The disk cache is a map: after any sequence of calls without failures, every answer given so far, and
      everything a later lookup can find, is what the map and the drafts say. And all of it is a run of the step
      machine, so what holds in all runs holds here. */
  lemma {:induction false} CacheIsAMap(s: State, calls: seq<Call>)
    requires Quiet(s) && AllFresh(s, calls)
    ensures var (t, answers) := CacheCalls(s, calls);
      && Reaches(s, t, {}) && Quiet(t)
      && ReferenceCalls(Abstraction(s), calls) == (Abstraction(t), answers)
  {
    if calls == [] {
      ReachesHere(s, {});
    } else {
      var rest := calls[..|calls| - 1];
      CacheIsAMap(s, rest);
      var t := CacheCalls(s, rest).0;
      CallRefines(t, calls[|calls| - 1]);
      ReachesOn(s, t, CacheCall(t, calls[|calls| - 1]).0, {});
    }
  }

  /** So this holds from the start on, if no entry on the disk is incomplete. */
  lemma BootQuiet(fs: FS, size: int)
    requires Bootable(fs) && Complete(fs)
    ensures Quiet(Boot(fs, size))
  {
  }
}
