/** A lookup reads three files at three moments. What can it return, if any steps of any other calls come in between?
    The entries whose three parts were each on disk at some moment, and no others. So it can return what was on disk at
    no moment exactly if such parts do not all belong together. */
module LookupResults {
  import opened Basics
  import opened FileSystem
  import opened HitSpec
  import opened CacheMachine
  import opened ReaderIsolation
  import opened CallOutcomes

  /** What a hit consists of. */
  function Returned(l: Lookup): Option<Entry> {
    if HasHit(l.stage) && l.meta.Got? && l.hdr.Got? && l.body.Opened?
    then Some(Entry(CacheMeta(l.meta.file.data, l.hdr.file.data), l.body.snapshot))
    else None
  }

  predicate StepOf(a: Action, lid: nat) {
    a.OfLookup? && a.id == lid
  }

  /** The steps of the other calls in a run, in their order. */
  function Others(acts: seq<Action>, lid: nat): seq<Action> {
    if acts == [] then []
    else Others(acts[..|acts| - 1], lid) + (if StepOf(acts[|acts| - 1], lid) then [] else [acts[|acts| - 1]])
  }

  /** The steps of the lookup can be interleaved with `others` in such a way that it hits with `e`. */
  ghost predicate CanReturn(s: State, others: seq<Action>, lid: nat, k: Key, e: Entry) {
    exists acts :: Others(acts, lid) == others && Returns(Run(s, acts), lid, k, e)
  }

  ghost predicate Returns(s: State, lid: nat, k: Key, e: Entry) {
    lid in s.lookups && s.lookups[lid].key == k && Returned(s.lookups[lid]) == Some(e)
  }

  /** The disk after the first `i` steps. */
  function Moment(s: State, acts: seq<Action>, i: nat): FS
    requires i <= |acts|
  {
    Run(s, acts[..i]).shared.fs
  }

  function MetaAt(fs: FS, k: Key): Option<Bytes> {
    if k in fs.metas then Some(fs.metas[k].data) else None
  }

  function HdrAt(fs: FS, k: Key): Option<Bytes> {
    if k in fs.hdrs then Some(fs.hdrs[k].data) else None
  }

  ghost predicate MetaWas(s: State, acts: seq<Action>, k: Key, data: Bytes) {
    exists i :: 0 <= i <= |acts| && MetaAt(Moment(s, acts, i), k) == Some(data)
  }

  ghost predicate HdrWas(s: State, acts: seq<Action>, k: Key, data: Bytes) {
    exists i :: 0 <= i <= |acts| && HdrAt(Moment(s, acts, i), k) == Some(data)
  }

  ghost predicate BodyWas(s: State, acts: seq<Action>, k: Key, content: Bytes) {
    exists i :: 0 <= i <= |acts| && BodyAt(Moment(s, acts, i), k) == Some(content)
  }

  /** Each part of the entry was on disk at some moment, each perhaps at another. */
  ghost predicate PartsWere(s: State, acts: seq<Action>, k: Key, e: Entry) {
    MetaWas(s, acts, k, e.meta.internal) && HdrWas(s, acts, k, e.meta.header) && BodyWas(s, acts, k, e.body)
  }

  ghost predicate EntryWas(s: State, acts: seq<Action>, k: Key, e: Entry) {
    exists i :: 0 <= i <= |acts| && Get(OnDisk(Moment(s, acts, i)), k) == Some(e)
  }

  // Other calls do not notice the lookup.

  /** The same but for lookups and counters. */
  predicate SameFiles(s: State, t: State) {
    t.shared.fs == s.shared.fs && t.writers == s.writers && t.purges == s.purges && t.updates == s.updates
  }

  lemma WriterIgnoresCounters(sh: Shared, m: Metrics, id: nat, w: Writer, a: WriterAction)
    ensures var (after, v) := MoveWriter(sh, id, w, a);
      var (other, x) := MoveWriter(sh.(metrics := m), id, w, a); other.fs == after.fs && x == v
  {
    hide CreateTmp, SetContent, Rename, CreateBody, WriteAt, PutMeta, PutHdr, RemoveTmp, MakeDir, Content, BodyLen;
  }

  lemma PurgeIgnoresCounters(sh: Shared, m: Metrics, p: Purge, a: PurgeAction)
    ensures var (after, q) := MovePurge(sh, p, a);
      var (other, x) := MovePurge(sh.(metrics := m), p, a); other.fs == after.fs && x == q
  {
    hide RemoveBody, RemoveMeta, RemoveHdr, RemoveDir, BodyLen;
  }

  lemma UpdateIgnoresCounters(sh: Shared, m: Metrics, id: nat, u: Update, a: UpdateAction)
    ensures var (after, v) := MoveUpdate(sh, id, u, a);
      var (other, x) := MoveUpdate(sh.(metrics := m), id, u, a); other.fs == after.fs && x == v
  {
    hide PutMeta, PutHdr;
  }

  lemma StepSameFiles(s: State, t: State, a: Action)
    requires SameFiles(s, t)
    ensures SameFiles(Step(s, a), Step(t, a))
  {
    hide MoveWriter, MovePurge, MoveUpdate, MoveLookup;
    assert t.shared == s.shared.(metrics := t.shared.metrics);
    match a
    case OfWriter(id, x) =>
      if id in s.writers { WriterIgnoresCounters(s.shared, t.shared.metrics, id, s.writers[id], x); }
    case OfPurge(id, x) =>
      if id in s.purges { PurgeIgnoresCounters(s.shared, t.shared.metrics, s.purges[id], x); }
    case OfUpdate(id, x) =>
      if id in s.updates { UpdateIgnoresCounters(s.shared, t.shared.metrics, id, s.updates[id], x); }
    case OfLookup(_, _) =>
  }

  lemma LookupStepSameFiles(s: State, a: Action)
    requires a.OfLookup?
    ensures SameFiles(s, Step(s, a))
  {
    hide MoveLookup;
  }

  // No more than that.

  /** All that the lookup has found so far was on disk at some moment. */
  ghost predicate FoundThere(s: State, others: seq<Action>, l: Lookup) {
    && (l.meta.Got? ==> MetaWas(s, others, l.key, l.meta.file.data))
    && (l.hdr.Got? ==> HdrWas(s, others, l.key, l.hdr.file.data))
    && (l.body.Opened? ==> BodyWas(s, others, l.key, l.body.snapshot))
  }

  /** The lookup has not begun, or has done no more than that. */
  predicate NothingRead(s: State, lid: nat) {
    lid in s.lookups ==> s.lookups[lid] == NewLookup(s.lookups[lid].key)
  }

  lemma NewLookupFoundThere(s: State, others: seq<Action>, k: Key)
    ensures FoundThere(s, others, NewLookup(k))
  {
  }

  lemma MoveFoundThere(s: State, others: seq<Action>, sh: Shared, l: Lookup, a: LookupAction)
    requires FoundThere(s, others, l) && sh.fs == Run(s, others).shared.fs
    ensures FoundThere(s, others, MoveLookup(sh, l, a).1)
  {
    hide Run;
    assert others[..|others|] == others;
    assert Moment(s, others, |others|) == sh.fs;
    MoveReads(sh, l, a);
  }

  /** A step of a lookup finds only what is there. */
  lemma MoveReads(sh: Shared, l: Lookup, a: LookupAction)
    ensures var k := MoveLookup(sh, l, a).1;
      && k.key == l.key
      && (k.meta.Got? ==> k.meta == l.meta || MetaAt(sh.fs, k.key) == Some(k.meta.file.data))
      && (k.hdr.Got? ==> k.hdr == l.hdr || HdrAt(sh.fs, k.key) == Some(k.hdr.file.data))
      && (k.body.Opened? ==> k.body == l.body || BodyAt(sh.fs, k.key) == Some(k.body.snapshot))
  {
  }

  lemma SameMoments(s: State, others: seq<Action>, a: Action, i: nat)
    requires i <= |others|
    ensures Moment(s, others + [a], i) == Moment(s, others, i)
  {
    assert (others + [a])[..i] == others[..i];
  }

  lemma LongerFoundThere(s: State, others: seq<Action>, a: Action, l: Lookup)
    requires FoundThere(s, others, l)
    ensures FoundThere(s, others + [a], l)
  {
    hide Moment;
    forall i | 0 <= i <= |others| ensures Moment(s, others + [a], i) == Moment(s, others, i) {
      SameMoments(s, others, a, i);
    }
  }

  lemma {:induction false} RunFoundThere(s: State, acts: seq<Action>, lid: nat)
    requires NothingRead(s, lid)
    ensures SameFiles(Run(s, Others(acts, lid)), Run(s, acts))
    ensures lid in Run(s, acts).lookups ==> FoundThere(s, Others(acts, lid), Run(s, acts).lookups[lid])
  {
    if acts == [] {
      if lid in s.lookups { NewLookupFoundThere(s, [], s.lookups[lid].key); }
    } else {
      hide FoundThere, Step, SameFiles;
      var rest, a := acts[..|acts| - 1], acts[|acts| - 1];
      RunFoundThere(s, rest, lid);
      OneStepFoundThere(s, Others(rest, lid), Run(s, rest), a, lid);
      assert Others(acts, lid) == if StepOf(a, lid) then Others(rest, lid) else Others(rest, lid) + [a];
      RunSnoc(s, Others(rest, lid), a);
    }
  }

  lemma OneStepFoundThere(s: State, others: seq<Action>, t: State, a: Action, lid: nat)
    requires SameFiles(Run(s, others), t) && (lid in t.lookups ==> FoundThere(s, others, t.lookups[lid]))
    ensures var more := if StepOf(a, lid) then others else others + [a];
      && SameFiles(if StepOf(a, lid) then Run(s, others) else Step(Run(s, others), a), Step(t, a))
      && (lid in Step(t, a).lookups ==> FoundThere(s, more, Step(t, a).lookups[lid]))
  {
    hide FoundThere, Run, MoveWriter, MovePurge, MoveUpdate, MoveLookup;
    if StepOf(a, lid) {
      LookupStepSameFiles(t, a);
      if lid in t.lookups {
        MoveFoundThere(s, others, t.shared, t.lookups[lid], a.l);
      } else if a.l.BeginLookup? {
        NewLookupFoundThere(s, others, a.l.key);
      }
    } else {
      StepSameFiles(Run(s, others), t, a);
      if lid in t.lookups { LongerFoundThere(s, others, a, t.lookups[lid]); }
    }
  }

  /** Whatever a hit returns, each of its parts was on disk at some moment since the lookup began. */
  lemma {:induction false} HitHasParts(s: State, acts: seq<Action>, lid: nat)
    requires NothingRead(s, lid) && lid in Run(s, acts).lookups
    ensures var l := Run(s, acts).lookups[lid];
      Returned(l).Some? ==> PartsWere(s, Others(acts, lid), l.key, Returned(l).value)
  {
    hide Run;
    RunFoundThere(s, acts, lid);
  }

  // And all of that.

  /** The moments at which the three files are read. */
  datatype Schedule = Schedule(meta: nat, hdr: nat, body: nat)

  function ReadsNow(lid: nat, c: Schedule, now: nat): seq<Action> {
    (if c.meta == now then [OfLookup(lid, ReadMeta(true))] else [])
    + (if c.hdr == now then [OfLookup(lid, ReadHdr(true))] else [])
    + (if c.body == now then [OfLookup(lid, OpenBody(true))] else [])
  }

  /** The lookup begins, and reads its files as the others go on. */
  function Interleaved(others: seq<Action>, lid: nat, k: Key, c: Schedule): seq<Action> {
    if others == [] then [OfLookup(lid, BeginLookup(k)), OfLookup(lid, MakeRoot(true))] + ReadsNow(lid, c, 0)
    else
      Interleaved(others[..|others| - 1], lid, k, c) + [others[|others| - 1]] + ReadsNow(lid, c, |others|)
  }

  /** What the lookup has read at a moment of its schedule. */
  function SoFar(s: State, others: seq<Action>, k: Key, c: Schedule): Lookup {
    Lookup(k, Reading,
           if c.meta <= |others| then ReadSmall(Moment(s, others, c.meta).metas, k, true) else Unread,
           if c.hdr <= |others| then ReadSmall(Moment(s, others, c.hdr).hdrs, k, true) else Unread,
           if c.body <= |others| then OpenFile(Moment(s, others, c.body), k, true) else Unopened)
  }

  /** One more step of the lookup. */
  lemma OwnStep(t: State, lid: nat, a: LookupAction)
    requires lid in t.lookups
    ensures var u := Run(t, [OfLookup(lid, a)]);
      SameFiles(t, u) && lid in u.lookups && u.lookups[lid] == MoveLookup(t.shared, t.lookups[lid], a).1
  {
    hide MoveLookup;
    var act := OfLookup(lid, a);
    assert [act][..0] == [];
    assert Run(t, [act]) == Step(t, act);
  }

  /** A read, if it is due. */
  lemma ReadIfDue(t: State, lid: nat, due: bool, a: LookupAction)
    requires lid in t.lookups
    ensures var u := Run(t, if due then [OfLookup(lid, a)] else []);
      && SameFiles(t, u) && lid in u.lookups
      && u.lookups[lid] == if due then MoveLookup(t.shared, t.lookups[lid], a).1 else t.lookups[lid]
  {
    hide MoveLookup, Step;
    if due { OwnStep(t, lid, a); }
  }

  lemma ReadsNowAre(t: State, lid: nat, c: Schedule, now: nat)
    requires lid in t.lookups && t.lookups[lid].stage.Reading?
    requires c.meta == now ==> t.lookups[lid].meta.Unread?
    requires c.hdr == now ==> t.lookups[lid].hdr.Unread?
    requires c.body == now ==> t.lookups[lid].body.Unopened?
    ensures var l, u := t.lookups[lid], Run(t, ReadsNow(lid, c, now));
      && SameFiles(t, u) && lid in u.lookups
      && u.lookups[lid] == l.(meta := if c.meta == now then ReadSmall(t.shared.fs.metas, l.key, true) else l.meta,
                              hdr := if c.hdr == now then ReadSmall(t.shared.fs.hdrs, l.key, true) else l.hdr,
                              body := if c.body == now then OpenFile(t.shared.fs, l.key, true) else l.body)
  {
    hide Run, Step, ReadSmall, OpenFile;
    var first := if c.meta == now then [OfLookup(lid, ReadMeta(true))] else [];
    var second := if c.hdr == now then [OfLookup(lid, ReadHdr(true))] else [];
    var third := if c.body == now then [OfLookup(lid, OpenBody(true))] else [];
    RunAppend(t, first + second, third);
    RunAppend(t, first, second);
    ReadIfDue(t, lid, c.meta == now, ReadMeta(true));
    ReadIfDue(Run(t, first), lid, c.hdr == now, ReadHdr(true));
    ReadIfDue(Run(t, first + second), lid, c.body == now, OpenBody(true));
  }

  lemma BeginIsRun(s: State, lid: nat, k: Key)
    requires lid !in s.lookups
    ensures var u := Run(s, [OfLookup(lid, BeginLookup(k)), OfLookup(lid, MakeRoot(true))]);
      SameFiles(s, u) && lid in u.lookups && u.lookups[lid] == NewLookup(k).(stage := Reading)
  {
    var begin, root := OfLookup(lid, BeginLookup(k)), OfLookup(lid, MakeRoot(true));
    assert [begin][..0] == [] && [begin, root][..1] == [begin];
    assert Run(s, [begin]) == Step(s, begin);
    assert Run(s, [begin, root]) == Step(Step(s, begin), root);
  }

  ghost predicate OnSchedule(s: State, others: seq<Action>, t: State, lid: nat, k: Key, c: Schedule) {
    SameFiles(Run(s, others), t) && lid in t.lookups && t.lookups[lid] == SoFar(s, others, k, c)
  }

  lemma ScheduleBegins(s: State, lid: nat, k: Key, c: Schedule)
    requires lid !in s.lookups
    ensures OnSchedule(s, [], Run(s, Interleaved([], lid, k, c)), lid, k, c)
  {
    hide Step, MoveLookup, ReadSmall, OpenFile, ReadsNow;
    BeginIsRun(s, lid, k);
    NoSteps(s);
    var begun := [OfLookup(lid, BeginLookup(k)), OfLookup(lid, MakeRoot(true))];
    RunAppend(s, begun, ReadsNow(lid, c, 0));
    ReadsNowAre(Run(s, begun), lid, c, 0);
    assert Moment(s, [], 0) == s.shared.fs;
  }

  lemma ScheduleGoesOn(s: State, rest: seq<Action>, a: Action, sofar: seq<Action>, lid: nat, k: Key, c: Schedule)
    requires OnSchedule(s, rest, Run(s, sofar), lid, k, c) && !StepOf(a, lid)
    ensures var now := ReadsNow(lid, c, |rest| + 1);
      OnSchedule(s, rest + [a], Run(s, sofar + [a] + now), lid, k, c)
  {
    RunAppend(s, sofar + [a], ReadsNow(lid, c, |rest| + 1));
    RunSnoc(s, sofar, a);
    RunSnoc(s, rest, a);
    hide Run, Step, MoveLookup, ReadSmall, OpenFile, ReadsNow, SoFar;
    StepSameFiles(Run(s, rest), Run(s, sofar), a);
    StepOfLookup(Run(s, sofar), a, lid);
    SoFarGrows(s, rest, a, k, c);
    ReadsNowAre(Run(s, sofar + [a]), lid, c, |rest| + 1);
  }

  lemma {:induction false} InterleavedIsRun(s: State, others: seq<Action>, lid: nat, k: Key, c: Schedule)
    requires lid !in s.lookups && forall a :: a in others ==> !StepOf(a, lid)
    ensures OnSchedule(s, others, Run(s, Interleaved(others, lid, k, c)), lid, k, c)
  {
    hide Run, OnSchedule, ReadsNow;
    if others == [] {
      ScheduleBegins(s, lid, k, c);
    } else {
      var rest, a := others[..|others| - 1], others[|others| - 1];
      InterleavedIsRun(s, rest, lid, k, c);
      assert a in others && rest + [a] == others;
      ScheduleGoesOn(s, rest, a, Interleaved(rest, lid, k, c), lid, k, c);
    }
  }

  lemma NoSteps(s: State)
    ensures Run(s, []) == s
  {
  }

  lemma SoFarGrows(s: State, others: seq<Action>, a: Action, k: Key, c: Schedule)
    ensures var l, n := SoFar(s, others, k, c), |others| + 1;
      var fs := Run(s, others + [a]).shared.fs;
      SoFar(s, others + [a], k, c)
        == l.(meta := if c.meta == n then ReadSmall(fs.metas, k, true) else l.meta,
              hdr := if c.hdr == n then ReadSmall(fs.hdrs, k, true) else l.hdr,
              body := if c.body == n then OpenFile(fs, k, true) else l.body)
    ensures c.meta == |others| + 1 ==> SoFar(s, others, k, c).meta.Unread?
    ensures c.hdr == |others| + 1 ==> SoFar(s, others, k, c).hdr.Unread?
    ensures c.body == |others| + 1 ==> SoFar(s, others, k, c).body.Unopened?
    ensures SoFar(s, others, k, c).stage.Reading? && SoFar(s, others, k, c).key == k
  {
    hide Run, ReadSmall, OpenFile;
    var all := others + [a];
    assert all[..|all|] == all;
    forall i | 0 <= i <= |others| ensures Moment(s, all, i) == Moment(s, others, i) {
      SameMoments(s, others, a, i);
    }
  }

  lemma {:induction false} OthersAppend(first: seq<Action>, second: seq<Action>, lid: nat)
    ensures Others(first + second, lid) == Others(first, lid) + Others(second, lid)
  {
    if second == [] {
      assert first + second == first;
    } else {
      var rest := second[..|second| - 1];
      OthersAppend(first, rest, lid);
      assert (first + second)[..|first + second| - 1] == first + rest;
    }
  }

  lemma {:induction false} OwnStepsOnly(acts: seq<Action>, lid: nat)
    requires forall a :: a in acts ==> StepOf(a, lid)
    ensures Others(acts, lid) == []
  {
    if acts != [] { OwnStepsOnly(acts[..|acts| - 1], lid); }
  }

  lemma ReadsAreOwn(lid: nat, k: Key, c: Schedule, now: nat)
    ensures Others(ReadsNow(lid, c, now), lid) == []
    ensures Others([OfLookup(lid, BeginLookup(k)), OfLookup(lid, MakeRoot(true))], lid) == []
  {
    OwnStepsOnly(ReadsNow(lid, c, now), lid);
    OwnStepsOnly([OfLookup(lid, BeginLookup(k)), OfLookup(lid, MakeRoot(true))], lid);
  }

  lemma OthersSnoc(acts: seq<Action>, a: Action, lid: nat)
    requires !StepOf(a, lid)
    ensures Others(acts + [a], lid) == Others(acts, lid) + [a]
  {
    assert (acts + [a])[..|acts|] == acts;
  }

  lemma {:induction false} InterleavedOthers(others: seq<Action>, lid: nat, k: Key, c: Schedule)
    requires forall a :: a in others ==> !StepOf(a, lid)
    ensures Others(Interleaved(others, lid, k, c), lid) == others
  {
    hide Others, ReadsNow, StepOf;
    var now := ReadsNow(lid, c, |others|);
    ReadsAreOwn(lid, k, c, |others|);
    if others == [] {
      OthersAppend([OfLookup(lid, BeginLookup(k)), OfLookup(lid, MakeRoot(true))], now, lid);
    } else {
      var rest, a := others[..|others| - 1], others[|others| - 1];
      var sofar := Interleaved(rest, lid, k, c);
      InterleavedOthers(rest, lid, k, c);
      OthersAppend(sofar + [a], now, lid);
      OthersSnoc(sofar, a, lid);
    }
  }

  /** Once it has read all three files, a lookup can hit. */
  lemma EndsInHit(t: State, lid: nat, k: Key, e: Entry) returns (end: seq<Action>)
    requires lid in t.lookups && t.lookups[lid].stage.Reading? && t.lookups[lid].key == k
    requires var l := t.lookups[lid];
      l.meta.Got? && l.hdr.Got? && l.body.Opened?
      && e == Entry(CacheMeta(l.meta.file.data, l.hdr.file.data), l.body.snapshot)
    ensures Others(end, lid) == [] && Returns(Run(t, end), lid, k, e)
  {
    hide Run, Step;
    var join, size, decode := [OfLookup(lid, Join)], [OfLookup(lid, Size(true))], [OfLookup(lid, Decode(true))];
    end := join + size + decode;
    OwnStepsOnly(end, lid);
    RunAppend(t, join + size, decode);
    RunAppend(t, join, size);
    OwnStep(t, lid, Join);
    OwnStep(Run(t, join), lid, Size(true));
    OwnStep(Run(t, join + size), lid, Decode(true));
  }

  lemma ScheduledReturn(s: State, others: seq<Action>, lid: nat, k: Key, e: Entry, c: Schedule)
    requires lid !in s.lookups && forall a :: a in others ==> !StepOf(a, lid)
    requires c.meta <= |others| && c.hdr <= |others| && c.body <= |others|
    requires MetaAt(Moment(s, others, c.meta), k) == Some(e.meta.internal)
    requires HdrAt(Moment(s, others, c.hdr), k) == Some(e.meta.header)
    requires BodyAt(Moment(s, others, c.body), k) == Some(e.body)
    ensures CanReturn(s, others, lid, k, e)
  {
    hide Run, Others;
    var acts := Interleaved(others, lid, k, c);
    InterleavedIsRun(s, others, lid, k, c);
    InterleavedOthers(others, lid, k, c);
    var end := EndsInHit(Run(s, acts), lid, k, e);
    RunAppend(s, acts, end);
    OthersAppend(acts, end, lid);
    assert Others(acts + end, lid) == others && Returns(Run(s, acts + end), lid, k, e);
  }

  // - - - the theorems

  /** What a lookup can return, exactly. Whatever steps of other calls overlap it, in whatever state it begins: it can
      hit with an entry if and only if each of the three parts was on disk at some moment. */
  lemma HitsExactly(s: State, others: seq<Action>, lid: nat, k: Key, e: Entry)
    requires lid !in s.lookups && forall a :: a in others ==> !StepOf(a, lid)
    ensures CanReturn(s, others, lid, k, e) <==> PartsWere(s, others, k, e)
  {
    hide Run, Moment, Others;
    if CanReturn(s, others, lid, k, e) {
      var acts :| Others(acts, lid) == others && Returns(Run(s, acts), lid, k, e);
      HitHasParts(s, acts, lid);
    }
    if PartsWere(s, others, k, e) {
      var i :| 0 <= i <= |others| && MetaAt(Moment(s, others, i), k) == Some(e.meta.internal);
      var j :| 0 <= j <= |others| && HdrAt(Moment(s, others, j), k) == Some(e.meta.header);
      var n :| 0 <= n <= |others| && BodyAt(Moment(s, others, n), k) == Some(e.body);
      ScheduledReturn(s, others, lid, k, e, Schedule(i, j, n));
    }
  }

  /** A lookup can be torn: it can return what was on disk at no moment. */
  ghost predicate CanTear(s: State, others: seq<Action>, lid: nat, k: Key) {
    exists e :: CanReturn(s, others, lid, k, e) && !EntryWas(s, others, k, e)
  }

  /** The disk at three moments. */
  function Mixture(s: State, others: seq<Action>, k: Key, c: Schedule): Option<Entry>
    requires c.meta <= |others| && c.hdr <= |others| && c.body <= |others|
  {
    var meta, hdr := MetaAt(Moment(s, others, c.meta), k), HdrAt(Moment(s, others, c.hdr), k);
    var body := BodyAt(Moment(s, others, c.body), k);
    if meta.Some? && hdr.Some? && body.Some? then Some(Entry(CacheMeta(meta.value, hdr.value), body.value)) else None
  }

  predicate Within(c: Schedule, n: nat) {
    c.meta <= n && c.hdr <= n && c.body <= n
  }

  /** It can be torn exactly if the files of the key at some three moments do not make an entry that was there at any
      one. That depends on the steps of the other calls alone. */
  lemma TornExactly(s: State, others: seq<Action>, lid: nat, k: Key)
    requires lid !in s.lookups && forall a :: a in others ==> !StepOf(a, lid)
    ensures CanTear(s, others, lid, k) <==>
      exists c :: Within(c, |others|) && Mixture(s, others, k, c).Some?
                  && !EntryWas(s, others, k, Mixture(s, others, k, c).value)
  {
    hide CanReturn, Moment, EntryWas;
    if CanTear(s, others, lid, k) {
      var e :| CanReturn(s, others, lid, k, e) && !EntryWas(s, others, k, e);
      HitsExactly(s, others, lid, k, e);
      var c := PartsAreMixture(s, others, k, e);
      assert Within(c, |others|) && !EntryWas(s, others, k, Mixture(s, others, k, c).value);
    }
    if c :| Within(c, |others|) && Mixture(s, others, k, c).Some?
            && !EntryWas(s, others, k, Mixture(s, others, k, c).value)
    {
      var e := Mixture(s, others, k, c).value;
      assert PartsWere(s, others, k, e);
      HitsExactly(s, others, lid, k, e);
    }
  }

  lemma PartsAreMixture(s: State, others: seq<Action>, k: Key, e: Entry) returns (c: Schedule)
    requires PartsWere(s, others, k, e)
    ensures Within(c, |others|) && Mixture(s, others, k, c) == Some(e)
  {
    hide Moment;
    var i :| 0 <= i <= |others| && MetaAt(Moment(s, others, i), k) == Some(e.meta.internal);
    var j :| 0 <= j <= |others| && HdrAt(Moment(s, others, j), k) == Some(e.meta.header);
    var n :| 0 <= n <= |others| && BodyAt(Moment(s, others, n), k) == Some(e.body);
    c := Schedule(i, j, n);
  }
}
