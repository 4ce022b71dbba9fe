/** What a hit handler does to one open file: deferred seeks, short reads, range bounds, and the end of file. */
module HitSpec {
  import opened Basics

  const DEFAULT_READ_BUFFER_SIZE: nat := 256 * 1024

  datatype Hit = Hit(
    totalLen: nat,
    rangeStart: nat,
    rangeEnd: nat,
    pos: nat,
    pendingSeek: bool,
    chunk: nat,
    cursor: nat,       // offset of the file descriptor
    emitted: Bytes)    // history: what was returned since the last accepted seek

  /** The outcome of the file calls of one `read_body`: a read returns at most `limit + 1` bytes. */
  datatype ReadIO = ReadIO(seekOk: bool, readOk: bool, limit: nat)

  datatype ReadResult = ReadError | EndOfBody | Chunk(data: Bytes)

  function NewHit(len: nat): Hit {
    Hit(len, 0, len, 0, false, DEFAULT_READ_BUFFER_SIZE, 0, [])
  }

  function Rewind(h: Hit): Hit {
    if h.pendingSeek then h.(pos := h.rangeStart, cursor := h.rangeStart, pendingSeek := false) else h
  }

  /** How many bytes `read` puts in the buffer. */
  function ReadCount(h: Hit, content: Bytes, limit: nat): nat
    requires h.pos < h.rangeEnd
  {
    var available := if h.cursor < |content| then |content| - h.cursor else 0;
    Min(limit + 1, Min(Min(h.chunk, h.rangeEnd - h.pos), available))
  }

  function ReadBody(h: Hit, content: Bytes, io: ReadIO): (Hit, ReadResult) {
    if h.pendingSeek && !io.seekOk then (h, ReadError)
    else
      var h := Rewind(h);
      if h.pos >= h.rangeEnd then (h, EndOfBody)
      else if !io.readOk then (h, ReadError)
      else
        var n := ReadCount(h, content, io.limit);
        if n == 0 then (h.(pos := h.rangeEnd), EndOfBody)
        else
          var data := content[h.cursor..h.cursor + n];
          (h.(pos := h.pos + n, cursor := h.cursor + n, emitted := h.emitted + data), Chunk(data))
  }

  predicate SeekAccepted(h: Hit, start: nat, end: Option<nat>) {
    && (end.Some? ==> end.value <= h.totalLen)
    && start <= (if end.Some? then end.value else h.totalLen)
  }

  function Seek(h: Hit, start: nat, end: Option<nat>): Hit {
    if SeekAccepted(h, start, end) then
      h.(rangeStart := start, rangeEnd := if end.Some? then end.value else h.totalLen, pendingSeek := true,
         emitted := [])
    else h
  }

  // - - - what is promised

  /** The handler is streaming `content[rangeStart..rangeEnd]`, and has returned its first `pos - rangeStart` bytes. */
  ghost predicate Streams(h: Hit, content: Bytes) {
    && h.chunk > 0
    && h.totalLen == |content|
    && h.rangeStart <= h.rangeEnd <= h.totalLen
    && (if h.pendingSeek then h.emitted == []
        else h.cursor == h.pos && h.rangeStart <= h.pos <= h.rangeEnd && h.emitted == content[h.rangeStart..h.pos])
  }

  /** Bytes the handler may still return. */
  function Remaining(h: Hit): nat {
    if h.pendingSeek then (if h.rangeStart <= h.rangeEnd then h.rangeEnd - h.rangeStart else 0)
    else if h.pos <= h.rangeEnd then h.rangeEnd - h.pos else 0
  }

  /** An unread file is streamed in order: nothing is skipped, repeated or taken from outside the range, and the
      end is reported only when the whole range has been returned. */
  lemma ReadStreams(h: Hit, content: Bytes, io: ReadIO)
    requires Streams(h, content)
    ensures var (after, r) := ReadBody(h, content, io);
      && Streams(after, content)
      && after.rangeStart == h.rangeStart && after.rangeEnd == h.rangeEnd
      && after.emitted == h.emitted + (if r.Chunk? then r.data else [])
      && (r.EndOfBody? ==> after.emitted == content[h.rangeStart..h.rangeEnd])
  {
  }

  /** Progress does not depend on the file: whatever it holds, a chunk is non-empty, at most one buffer long, and
      uses up exactly its length; the end uses up all; an error uses up nothing. */
  lemma ReadProgress(h: Hit, content: Bytes, io: ReadIO)
    ensures var (after, r) := ReadBody(h, content, io);
      && (r.Chunk? ==> 0 < |r.data| <= h.chunk && Remaining(after) == Remaining(h) - |r.data|)
      && (r.EndOfBody? ==> Remaining(after) == 0)
      && (r.ReadError? ==> Remaining(after) == Remaining(h))
      && after.chunk == h.chunk
  {
  }

  /** Where the next byte comes from. */
  function NextAt(h: Hit): nat {
    if h.pendingSeek then h.rangeStart else h.pos
  }

  /** None of the file calls of the read is failed. */
  predicate Works(io: ReadIO) {
    io.seekOk && io.readOk
  }

  /** What a read must return. Bytes left in the range are delivered, as many as the file, the buffer and the call give,
      and they are the next ones of the file; past the end of the file, or of the range, there are none. Only a failed
      seek and a failed read are errors. */
  lemma ReadDelivers(h: Hit, content: Bytes, io: ReadIO)
    requires h.chunk > 0 && (!h.pendingSeek ==> h.cursor == h.pos)
    ensures var (after, r) := ReadBody(h, content, io);
      var at := NextAt(h);
      && (Remaining(h) > 0 && Works(io) && at < |content| ==>
            && r.Chunk? && |r.data| == Min(io.limit + 1, Min(Min(h.chunk, Remaining(h)), |content| - at))
            && r.data == content[at..at + |r.data|] && NextAt(after) == at + |r.data|)
      && (Remaining(h) > 0 && Works(io) && at >= |content| ==> r == EndOfBody)
      && (Remaining(h) == 0 && io.seekOk ==> r == EndOfBody)
      && (h.pendingSeek && !io.seekOk ==> r == ReadError && after == h)
      && (io.seekOk && !io.readOk && Remaining(h) > 0 ==> r == ReadError && NextAt(after) == at)
      && after.rangeStart == h.rangeStart && after.rangeEnd == h.rangeEnd && after.totalLen == h.totalLen
  {
  }

  // - - - whole histories

  datatype HitCall = DoSeek(start: nat, end: Option<nat>) | DoRead(io: ReadIO)

  /** The handler after a history of calls on a file that does not change. */
  function AfterCalls(h: Hit, content: Bytes, calls: seq<HitCall>): Hit {
    if calls == [] then h
    else
      var before := AfterCalls(h, content, calls[..|calls| - 1]);
      match calls[|calls| - 1]
      case DoSeek(start, end) => Seek(before, start, end)
      case DoRead(io) => ReadBody(before, content, io).0
  }

  /** The end of the range that a seek asks for. */
  function StopAt(end: Option<nat>, len: nat): nat {
    if end.Some? then end.value else len
  }

  predicate Accepts(start: nat, end: Option<nat>, len: nat) {
    start <= StopAt(end, len) <= len
  }

  datatype Range = Range(start: nat, stop: nat)

  /** The range that the history asked for: that of the last seek that lies inside the body, or else everything. */
  function Asked(len: nat, calls: seq<HitCall>): Range {
    if calls == [] then Range(0, len)
    else
      match calls[|calls| - 1]
      case DoSeek(start, end) =>
        if Accepts(start, end, len) then Range(start, StopAt(end, len)) else Asked(len, calls[..|calls| - 1])
      case DoRead(_) => Asked(len, calls[..|calls| - 1])
  }

  /** The bytes that the reads since that seek returned. */
  function Received(content: Bytes, calls: seq<HitCall>): Bytes {
    if calls == [] then []
    else
      var rest := calls[..|calls| - 1];
      match calls[|calls| - 1]
      case DoSeek(start, end) => if Accepts(start, end, |content|) then [] else Received(content, rest)
      case DoRead(io) =>
        var r := ReadBody(AfterCalls(NewHit(|content|), content, rest), content, io).1;
        Received(content, rest) + (if r.Chunk? then r.data else [])
  }

  /** How many of those reads worked. */
  function WorkedSince(len: nat, calls: seq<HitCall>): nat {
    if calls == [] then 0
    else
      var rest := calls[..|calls| - 1];
      match calls[|calls| - 1]
      case DoSeek(start, end) => if Accepts(start, end, len) then 0 else WorkedSince(len, rest)
      case DoRead(io) => WorkedSince(len, rest) + (if Works(io) then 1 else 0)
  }

  /** What a seek does: it is obeyed exactly if its range lies inside the body, and otherwise changes nothing. */
  lemma SeekAsks(h: Hit, content: Bytes, start: nat, end: Option<nat>)
    requires Streams(h, content)
    ensures var after, stop := Seek(h, start, end), StopAt(end, |content|);
      && Streams(after, content)
      && (!Accepts(start, end, |content|) ==> after == h)
      && (Accepts(start, end, |content|) ==>
            && after.rangeStart == start && after.rangeEnd == stop && after.emitted == []
            && NextAt(after) == start && Remaining(after) == stop - start)
  {
  }

  lemma HistoryStep(content: Bytes, h: Hit, c: HitCall)
    requires Streams(h, content)
    ensures var after := match c
                         case DoSeek(start, end) => Seek(h, start, end)
                         case DoRead(io) => ReadBody(h, content, io).0;
      && Streams(after, content) && after.chunk == h.chunk
      && (c.DoRead? ==> after.rangeStart == h.rangeStart && after.rangeEnd == h.rangeEnd
                        && Remaining(after) <= Remaining(h) && (Works(c.io) && Remaining(h) > 0 ==>
                              Remaining(after) < Remaining(h)))
  {
    if c.DoRead? {
      ReadStreams(h, content, c.io);
      ReadProgress(h, content, c.io);
      ReadDelivers(h, content, c.io);
    }
  }

  lemma {:induction false} HistoryHolds(content: Bytes, calls: seq<HitCall>)
    ensures var h, asked := AfterCalls(NewHit(|content|), content, calls), Asked(|content|, calls);
      && Streams(h, content)
      && h.rangeStart == asked.start && h.rangeEnd == asked.stop && asked.start <= asked.stop
      && h.emitted == Received(content, calls) && h.chunk == 262144
      && (Remaining(h) > 0 ==> Remaining(h) + WorkedSince(|content|, calls) <= asked.stop - asked.start)
  {
    if calls != [] {
      hide ReadBody, Streams, Remaining;
      var rest, c := calls[..|calls| - 1], calls[|calls| - 1];
      HistoryHolds(content, rest);
      var before := AfterCalls(NewHit(|content|), content, rest);
      HistoryStep(content, before, c);
      match c
      case DoSeek(start, end) => SeekAsks(before, content, start, end);
      case DoRead(io) => ReadStreams(before, content, io);
    } else {
      assert content[0..0] == [];
    }
  }

  /** Any mix of accepted, rejected and failed seeks and of short, failed and complete reads. The reads since the last
      accepted seek return, in order and without gap, the bytes of the range which that seek asked for; and all of
      them, if enough reads worked. */
  lemma {:induction false} AnyHistoryStreams(content: Bytes, calls: seq<HitCall>)
    ensures var asked := Asked(|content|, calls);
      && asked.start <= asked.stop <= |content|
      && Received(content, calls) <= content[asked.start..asked.stop]
      && (WorkedSince(|content|, calls) >= asked.stop - asked.start ==>
            Received(content, calls) == content[asked.start..asked.stop])
  {
    HistoryHolds(content, calls);
  }

  /** The chunks a series of reads returns; `contents[i]` is what the file holds at the i-th read. */
  function Chunks(h: Hit, contents: seq<Bytes>, ios: seq<ReadIO>): seq<Bytes>
    requires |contents| == |ios|
    decreases |ios|
  {
    if ios == [] then []
    else
      var (after, r) := ReadBody(h, contents[0], ios[0]);
      (if r.Chunk? then [r.data] else []) + Chunks(after, contents[1..], ios[1..])
  }

  /** One read in front of a series. */
  lemma ChunksStep(h: Hit, contents: seq<Bytes>, ios: seq<ReadIO>)
    requires |contents| == |ios| > 0
    ensures var (after, r) := ReadBody(h, contents[0], ios[0]);
      var rest := Chunks(after, contents[1..], ios[1..]);
      var chunks := Chunks(h, contents, ios);
      if r.Chunk? then
        |chunks| == |rest| + 1 && Flatten(chunks) == r.data + Flatten(rest)
      else chunks == rest
  {
    var (after, r) := ReadBody(h, contents[0], ios[0]);
    var rest := Chunks(after, contents[1..], ios[1..]);
    if r.Chunk? {
      FlattenCons(r.data, rest);
    } else {
      assert [] + rest == rest;
    }
  }

  /** No more chunks than bytes left, whatever happens to the file. */
  lemma {:induction false} ChunkCount(h: Hit, contents: seq<Bytes>, ios: seq<ReadIO>)
    requires |contents| == |ios|
    ensures var chunks := Chunks(h, contents, ios);
      |chunks| <= |Flatten(chunks)| <= Remaining(h)
    decreases |ios|
  {
    if ios != [] {
      ReadProgress(h, contents[0], ios[0]);
      ChunksStep(h, contents, ios);
      ChunkCount(ReadBody(h, contents[0], ios[0]).0, contents[1..], ios[1..]);
    }
  }

  /** No chunk exceeds the buffer. */
  lemma {:induction false} ChunkSize(h: Hit, contents: seq<Bytes>, ios: seq<ReadIO>)
    requires |contents| == |ios|
    ensures forall i :: 0 <= i < |Chunks(h, contents, ios)| ==> |Chunks(h, contents, ios)[i]| <= h.chunk
    decreases |ios|
  {
    if ios != [] {
      ReadProgress(h, contents[0], ios[0]);
      ChunkSize(ReadBody(h, contents[0], ios[0]).0, contents[1..], ios[1..]);
    }
  }

  lemma {:induction false} FlattenBound(chunks: seq<Bytes>, size: nat)
    requires forall i :: 0 <= i < |chunks| ==> |chunks[i]| <= size
    ensures |Flatten(chunks)| <= |chunks| * size
  {
    if chunks != [] {
      FlattenBound(chunks[..|chunks| - 1], size);
      assert |chunks| * size == (|chunks| - 1) * size + size;
    }
  }

  /** The handler after the same series of reads. */
  function AfterReads(h: Hit, contents: seq<Bytes>, ios: seq<ReadIO>): Hit
    requires |contents| == |ios|
    decreases |ios|
  {
    if ios == [] then h else AfterReads(ReadBody(h, contents[0], ios[0]).0, contents[1..], ios[1..])
  }

  lemma {:induction false} ReadsEmit(h: Hit, contents: seq<Bytes>, ios: seq<ReadIO>)
    requires |contents| == |ios|
    ensures AfterReads(h, contents, ios).emitted == h.emitted + Flatten(Chunks(h, contents, ios))
    decreases |ios|
  {
    if ios != [] {
      var (next, r) := ReadBody(h, contents[0], ios[0]);
      ChunksStep(h, contents, ios);
      ReadsEmit(next, contents[1..], ios[1..]);
    }
  }

  lemma {:induction false} ReadsStream(h: Hit, content: Bytes, contents: seq<Bytes>, ios: seq<ReadIO>)
    requires Streams(h, content) && |contents| == |ios| && forall i :: 0 <= i < |contents| ==> contents[i] == content
    ensures var after := AfterReads(h, contents, ios);
      Streams(after, content) && after.rangeStart == h.rangeStart && after.rangeEnd == h.rangeEnd
    decreases |ios|
  {
    if ios != [] {
      ReadStreams(h, content, ios[0]);
      ReadsStream(ReadBody(h, content, ios[0]).0, content, contents[1..], ios[1..]);
    }
  }

  /** How many of the reads work. */
  function Working(ios: seq<ReadIO>): nat {
    if ios == [] then 0 else (if Works(ios[0]) then 1 else 0) + Working(ios[1..])
  }

  /** Every working read of an unchanged file brings the end nearer. */
  lemma {:induction false} ReadsFinish(h: Hit, content: Bytes, contents: seq<Bytes>, ios: seq<ReadIO>)
    requires Streams(h, content) && |contents| == |ios| && forall i :: 0 <= i < |contents| ==> contents[i] == content
    ensures var left := Remaining(AfterReads(h, contents, ios));
      left == 0 || left + Working(ios) <= Remaining(h)
    decreases |ios|
  {
    if ios != [] {
      var next := ReadBody(h, content, ios[0]).0;
      HistoryStep(content, h, DoRead(ios[0]));
      hide ReadBody, Streams;
      ReadsFinish(next, content, contents[1..], ios[1..]);
    }
  }

  /** A stream with enough working reads, or otherwise read to its end: the chunks are the range of the file, and L
      bytes in buffers of C bytes take between ceil(L / C) and L chunks. */
  lemma FullStream(h: Hit, content: Bytes, contents: seq<Bytes>, ios: seq<ReadIO>)
    requires Streams(h, content) && h.emitted == []
    requires |contents| == |ios| && forall i :: 0 <= i < |contents| ==> contents[i] == content
    requires Working(ios) >= Remaining(h) || Remaining(AfterReads(h, contents, ios)) == 0
    ensures var chunks := Chunks(h, contents, ios);
      var len := h.rangeEnd - h.rangeStart;
      && Flatten(chunks) == content[h.rangeStart..h.rangeEnd]
      && |chunks| <= len <= |chunks| * h.chunk
  {
    ReadsFinish(h, content, contents, ios);
    ReadsEmit(h, contents, ios);
    ReadsStream(h, content, contents, ios);
    ChunkCount(h, contents, ios);
    ChunkSize(h, contents, ios);
    FlattenBound(Chunks(h, contents, ios), h.chunk);
  }

  /** What a range request gets: after an accepted seek and enough working reads, exactly the bytes it asked for,
      whatever the handler had been doing before, and however many reads fail in between. */
  lemma SeekThenStream(h: Hit, content: Bytes, start: nat, end: Option<nat>, contents: seq<Bytes>, ios: seq<ReadIO>)
    requires Streams(h, content) && Accepts(start, end, |content|)
    requires |contents| == |ios| && forall i :: 0 <= i < |contents| ==> contents[i] == content
    requires Working(ios) >= StopAt(end, |content|) - start
    ensures Flatten(Chunks(Seek(h, start, end), contents, ios)) == content[start..StopAt(end, |content|)]
  {
    SeekAsks(h, content, start, end);
    FullStream(Seek(h, start, end), content, contents, ios);
  }
}
