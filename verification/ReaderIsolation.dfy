/** What a reader gets from a body it has opened. In every run, whatever fails, only the copy fallback of `finish` can
    change an opened body, and the results say exactly when it does. */
module ReaderIsolation {
  import opened Basics
  import opened FileSystem
  import opened HitSpec
  import opened CacheMachine
  import opened CoreInvariant

  predicate HasHit(stage: LookupStage) {
    stage.Serving? || stage.Served? || stage.Released?
  }

  /** The key's body path leads to the inode. */
  predicate Linked(fs: FS, k: Key, inode: nat) {
    k in fs.bodies && fs.bodies[k] == inode
  }

  /** The step truncates the inode in order to copy onto it, or copies onto it. */
  predicate CopiesOnto(s: State, a: Action, inode: nat) {
    && a.OfWriter? && a.id in s.writers
    && var w := s.writers[a.id];
       || (StartsCopy(s, a, w.key) && Linked(s.shared.fs, w.key, inode))
       || (a.w.CopyChunk? && w.stage.Copying? && w.stage.to == inode)
  }

  /** No step of the run copies onto the inode. */
  ghost predicate Uncopied(s: State, acts: seq<Action>, inode: nat) {
    acts == []
    || (Uncopied(s, acts[..|acts| - 1], inode) && !CopiesOnto(Run(s, acts[..|acts| - 1]), acts[|acts| - 1], inode))
  }

  lemma WriterDisturbs(sh: Shared, id: nat, w: Writer, a: WriterAction, inode: nat, k: Key)
    requires WellFormed(sh.fs) && WriterOk(sh.fs, id, w) && IsBody(sh.fs, inode, k)
    requires !(a == CopyCreate(true) && w.stage.CopyCreating? && w.key in sh.fs.dirs && Linked(sh.fs, w.key, inode))
    requires !(a.CopyChunk? && w.stage.Copying? && w.stage.to == inode)
    ensures Content(MoveWriter(sh, id, w, a).0.fs, inode) == Content(sh.fs, inode)
  {
  }

  /** Nothing but the copy fallback changes a body that readers may hold, and it begins by emptying it. */
  lemma OnlyCopiesDisturb(s: State, a: Action, inode: nat, k: Key)
    requires Core(s) && IsBody(s.shared.fs, inode, k)
    ensures IsBody(Step(s, a).shared.fs, inode, k)
    ensures Content(Step(s, a).shared.fs, inode) != Content(s.shared.fs, inode) ==> CopiesOnto(s, a, inode)
    ensures CopiesOnto(s, a, inode) && a.w.CopyCreate? ==> Content(Step(s, a).shared.fs, inode) == []
  {
    hide WellFormed, WriterOk;
    match a
    case OfWriter(id, w) =>
      if id in s.writers {
        assert WriterOk(s.shared.fs, id, s.writers[id]);
        MoveWriterOk(s.shared, id, s.writers[id], w);
        if CopiesOnto(s, a, inode) {
          if w.CopyCreate? { Truncates(s.shared, id, s.writers[id], inode); }
        } else {
          WriterDisturbs(s.shared, id, s.writers[id], w, inode, k);
        }
      }
    case OfPurge(id, p) => if id in s.purges { NoInodesTouched(s.shared, s.purges[id], p); }
    case OfUpdate(id, u) =>
    case OfLookup(id, l) =>
  }

  lemma Truncates(sh: Shared, id: nat, w: Writer, inode: nat)
    requires inode < |sh.fs.inodes| && Linked(sh.fs, w.key, inode) && w.key in sh.fs.dirs
    ensures Content(MoveCopyCreate(sh, id, w, true).0.fs, inode) == []
  {
  }

  lemma NoInodesTouched(sh: Shared, p: Purge, a: PurgeAction)
    ensures MovePurge(sh, p, a).0.fs.inodes == sh.fs.inodes
  {
  }

  // - - - readers

  /** What was opened is still there, and a hit handler streams it. */
  ghost predicate Streaming(fs: FS, l: Lookup) {
    && (l.body.Opened? ==> IsBody(fs, l.body.inode, l.key) && Content(fs, l.body.inode) == l.body.snapshot)
    && (l.stage.Sizing? || l.stage.Decoding? || HasHit(l.stage) ==> l.body.Opened?)
    && (l.stage.Decoding? ==> l.stage.size == |l.body.snapshot|)
    && (HasHit(l.stage) ==> Streams(l.stage.hit, l.body.snapshot))
  }

  lemma LookupStreams(sh: Shared, l: Lookup, a: LookupAction)
    requires WellFormed(sh.fs) && Streaming(sh.fs, l)
    ensures var k := MoveLookup(sh, l, a).1;
      Streaming(sh.fs, k) && k.key == l.key && (l.body.Opened? ==> k.body == l.body)
  {
    match a
    case ReadHit(io) => if l.stage.Serving? { ReadStreams(l.stage.hit, l.body.snapshot, io); }
    case _ =>
  }

  lemma StepOfLookup(s: State, a: Action, id: nat)
    requires id in s.lookups
    ensures var t := Step(s, a);
      && id in t.lookups
      && t.lookups[id] == if a.OfLookup? && a.id == id then MoveLookup(s.shared, s.lookups[id], a.l).1
                          else s.lookups[id]
  {
  }

  lemma StepStreams(s: State, a: Action, id: nat)
    requires Core(s) && id in s.lookups && s.lookups[id].body.Opened? && Streaming(s.shared.fs, s.lookups[id])
    requires !CopiesOnto(s, a, s.lookups[id].body.inode)
    ensures var t := Step(s, a);
      id in t.lookups && t.lookups[id].body == s.lookups[id].body && Streaming(t.shared.fs, t.lookups[id])
  {
    hide WellFormed, WriterOk, CopiesOnto, MoveLookup, Step;
    var l := s.lookups[id];
    StepOfLookup(s, a, id);
    OnlyCopiesDisturb(s, a, l.body.inode, l.key);
    if a.OfLookup? && a.id == id {
      LookupStreams(s.shared, l, a.l);
    }
  }

  /** The run version: any failures, any other calls, any seeks and reads of the handler itself. */
  lemma {:induction false} IsolatedUnlessCopied(s: State, acts: seq<Action>, id: nat)
    requires Core(s) && id in s.lookups && s.lookups[id].body.Opened? && Streaming(s.shared.fs, s.lookups[id])
    requires Uncopied(s, acts, s.lookups[id].body.inode)
    ensures var t := Run(s, acts);
      && Core(t) && id in t.lookups
      && t.lookups[id].body == s.lookups[id].body && Streaming(t.shared.fs, t.lookups[id])
  {
    hide Core, Streaming, Step, CopiesOnto;
    if acts != [] {
      var rest := acts[..|acts| - 1];
      IsolatedUnlessCopied(s, rest, id);
      StepStreams(Run(s, rest), acts[|acts| - 1], id);
      StepCore(Run(s, rest), acts[|acts| - 1]);
    }
  }

  /** The seeks and reads of a hit handler in a run. */
  ghost function HitCalls(s: State, acts: seq<Action>, id: nat): seq<HitCall> {
    if acts == [] then []
    else
      var rest, a := acts[..|acts| - 1], acts[|acts| - 1];
      var t := Run(s, rest);
      if a.OfLookup? && a.id == id && id in t.lookups && t.lookups[id].stage.Serving?
      then HitCalls(s, rest, id) + CallOf(a.l) else HitCalls(s, rest, id)
  }

  function CallOf(a: LookupAction): seq<HitCall> {
    match a
    case SeekHit(start, end) => [DoSeek(start, end)]
    case ReadHit(io) => [DoRead(io)]
    case _ => []
  }

  /** The handler is what its calls make of a new one. */
  ghost predicate Answers(l: Lookup, calls: seq<HitCall>) {
    && l.body.Opened?
    && (HasHit(l.stage) ==> l.stage.hit == AfterCalls(NewHit(|l.body.snapshot|), l.body.snapshot, calls))
    && (!HasHit(l.stage) ==> calls == [])
  }

  lemma MoveAnswers(sh: Shared, l: Lookup, a: LookupAction, calls: seq<HitCall>)
    requires Streaming(sh.fs, l) && Answers(l, calls)
    ensures Answers(MoveLookup(sh, l, a).1, if l.stage.Serving? then calls + CallOf(a) else calls)
  {
    hide ReadBody, Seek, Streams;
    assert (calls + CallOf(a))[..|calls|] == calls && calls + [] == calls;
    match a
    case SeekHit(start, end) =>
    case ReadHit(io) =>
    case _ =>
  }

  /** The handler acts on its own calls alone. */
  lemma {:induction false} RunAnswers(s: State, acts: seq<Action>, id: nat)
    requires Core(s) && id in s.lookups && s.lookups[id].body.Opened? && Streaming(s.shared.fs, s.lookups[id])
    requires !HasHit(s.lookups[id].stage) && Uncopied(s, acts, s.lookups[id].body.inode)
    ensures id in Run(s, acts).lookups && Answers(Run(s, acts).lookups[id], HitCalls(s, acts, id))
  {
    if acts != [] {
      hide Core, Streaming, Step, CopiesOnto, MoveLookup, Answers;
      var rest, a := acts[..|acts| - 1], acts[|acts| - 1];
      RunAnswers(s, rest, id);
      IsolatedUnlessCopied(s, rest, id);
      var t := Run(s, rest);
      StepOfLookup(t, a, id);
      if a.OfLookup? && a.id == id {
        MoveAnswers(t.shared, t.lookups[id], a.l, HitCalls(s, rest, id));
      }
    } else {
      assert Answers(s.lookups[id], []);
    }
  }

  /** Snapshot isolation: a lookup opens the body of its key, and then anything may happen - the key is purged,
      replaced, its meta updated, the handler seeks back and forth, reads and renames fail - but that a finish copies
      onto the very file that is open. Whatever the reads of the hit handler have returned since its last accepted seek
      is a prefix of the range which that seek asked for, of the body that was there when it was opened; and it is the
      whole range once enough reads worked, or the handler says so. */
  lemma {:induction false} SnapshotIsolation(fs: FS, size: int, before: seq<Action>, id: nat, after: seq<Action>)
    requires Bootable(fs)
    requires var s := Run(Boot(fs, size), before);
      && id in s.lookups && s.lookups[id].stage.Reading? && s.lookups[id].body.Unopened?
      && s.lookups[id].key in s.shared.fs.bodies
      && Uncopied(Step(s, OfLookup(id, OpenBody(true))), after, s.shared.fs.bodies[s.lookups[id].key])
    ensures var s := Run(Boot(fs, size), before);
      var inode := s.shared.fs.bodies[s.lookups[id].key];
      var body := Content(s.shared.fs, inode);
      var begun := Step(s, OfLookup(id, OpenBody(true)));
      var t, calls := Run(begun, after), HitCalls(begun, after, id);
      && id in t.lookups
      && t.lookups[id].body == Opened(inode, body)
      && Content(t.shared.fs, inode) == body
      && (HasHit(t.lookups[id].stage) ==>
            var hit, asked := t.lookups[id].stage.hit, Asked(|body|, calls);
            && hit.totalLen == |body|
            && asked.start <= asked.stop <= |body|
            && hit.emitted == Received(body, calls) <= body[asked.start..asked.stop]
            && (WorkedSince(|body|, calls) >= asked.stop - asked.start ==>
                  hit.emitted == body[asked.start..asked.stop])
            && (!hit.pendingSeek && hit.pos >= hit.rangeEnd ==> hit.emitted == body[asked.start..asked.stop]))
  {
    hide LeftOk, UpdateOk, WriterOk, LookupOk;
    var s := Run(Boot(fs, size), before);
    var open := OfLookup(id, OpenBody(true));
    RunCore(Boot(fs, size), before);
    StepCore(s, open);
    var k := s.lookups[id].key;
    assert IsBody(s.shared.fs, s.shared.fs.bodies[k], k);
    var begun := Step(s, open);
    var body := Content(s.shared.fs, s.shared.fs.bodies[k]);
    IsolatedUnlessCopied(begun, after, id);
    RunAnswers(begun, after, id);
    HistoryHolds(body, HitCalls(begun, after, id));
    AnyHistoryStreams(body, HitCalls(begun, after, id));
  }

  // - - - and only then

  /** No copy onto the inode is under way. */
  ghost predicate NotBeingCopied(s: State, inode: nat) {
    forall id :: id in s.writers ==> !(s.writers[id].stage.Copying? && s.writers[id].stage.to == inode)
  }

  lemma StepNotBeingCopied(s: State, a: Action, inode: nat)
    requires inode < |s.shared.fs.inodes| && NotBeingCopied(s, inode) && !CopiesOnto(s, a, inode)
    ensures NotBeingCopied(Step(s, a), inode)
  {
    if a.OfWriter? && a.id in s.writers {
      NotTheTarget(s.shared, a.id, s.writers[a.id], a.w, inode);
    }
  }

  lemma NotTheTarget(sh: Shared, id: nat, w: Writer, a: WriterAction, inode: nat)
    requires inode < |sh.fs.inodes| && !(w.stage.Copying? && w.stage.to == inode)
    requires !(a == CopyCreate(true) && w.stage.CopyCreating? && w.key in sh.fs.dirs && Linked(sh.fs, w.key, inode))
    ensures var v := MoveWriter(sh, id, w, a).1; !(v.stage.Copying? && v.stage.to == inode)
  {
    match a
    case CopyCreate(_) =>
    case CopyChunk(_) =>
    case _ => NoNewTarget(sh, id, w, a);
  }

  lemma NoNewTarget(sh: Shared, id: nat, w: Writer, a: WriterAction)
    requires !a.CopyCreate? && !a.CopyChunk?
    ensures var v := MoveWriter(sh, id, w, a).1; v.stage.Copying? ==> v.stage == w.stage
  {
    hide MoveMakeDirs;
    if a.MakeDirs? { MakeDirsFree(sh, w, a.ok); }
  }

  lemma {:induction false} RunNotBeingCopied(s: State, acts: seq<Action>, inode: nat, k: Key)
    requires Core(s) && IsBody(s.shared.fs, inode, k) && NotBeingCopied(s, inode) && Uncopied(s, acts, inode)
    ensures var t := Run(s, acts);
      Core(t) && IsBody(t.shared.fs, inode, k) && NotBeingCopied(t, inode)
      && Content(t.shared.fs, inode) == Content(s.shared.fs, inode)
  {
    hide Core, Step, CopiesOnto, NotBeingCopied;
    if acts != [] {
      var rest, a := acts[..|acts| - 1], acts[|acts| - 1];
      RunNotBeingCopied(s, rest, inode, k);
      OnlyCopiesDisturb(Run(s, rest), a, inode, k);
      StepNotBeingCopied(Run(s, rest), a, inode);
      StepCore(Run(s, rest), a);
    }
  }

  /** At every moment of the run the inode holds the same bytes. */
  ghost predicate AlwaysHolds(s: State, acts: seq<Action>, inode: nat, content: Bytes) {
    && Content(Run(s, acts).shared.fs, inode) == content
    && (acts == [] || AlwaysHolds(s, acts[..|acts| - 1], inode, content))
  }

  /** Both directions: a non-empty body that nobody is copying onto stays what it is, at every moment of a run, exactly
      if no step of the run copies onto it. The first step that does leaves it empty. */
  lemma {:induction false} IsolatedExactlyIfUncopied(s: State, acts: seq<Action>, inode: nat, k: Key)
    requires Core(s) && IsBody(s.shared.fs, inode, k) && NotBeingCopied(s, inode) && Content(s.shared.fs, inode) != []
    ensures AlwaysHolds(s, acts, inode, Content(s.shared.fs, inode)) <==> Uncopied(s, acts, inode)
  {
    hide Core, Step, CopiesOnto, NotBeingCopied;
    if acts != [] {
      var rest, a := acts[..|acts| - 1], acts[|acts| - 1];
      IsolatedExactlyIfUncopied(s, rest, inode, k);
      if Uncopied(s, rest, inode) {
        var t := Run(s, rest);
        RunNotBeingCopied(s, rest, inode, k);
        OnlyCopiesDisturb(t, a, inode, k);
        if CopiesOnto(t, a, inode) { FirstCopyCreates(t, a, inode); }
      }
    }
  }

  lemma FirstCopyCreates(s: State, a: Action, inode: nat)
    requires NotBeingCopied(s, inode) && CopiesOnto(s, a, inode)
    ensures a.w.CopyCreate?
  {
  }

  /** What that means for a reader: from the emptied file, a read that works and has bytes left to deliver reports the
      end without any of them. */
  lemma CutOff(h: Hit, io: ReadIO)
    requires io.seekOk && io.readOk
    ensures ReadBody(h, [], io).1 == EndOfBody && ReadBody(h, [], io).0.emitted == h.emitted
  {
  }
}
