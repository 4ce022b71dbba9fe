/** The write-through component that is meant to admit a miss into both tiers. It is not compiled in yet: the tiered
    store has it commented out. */
module FanOut {
  import opened Basics
  import opened CacheMachine
  import opened CallOutcomes
  import opened DiskCaches
  import opened Stores

  /** What the two open handlers have been given so far. */
  datatype Pair = Pair(primary: Bytes, written: nat, secondary: Option<Bytes>)

  /** One `write_body`: the secondary is only tried once the primary has taken the chunk. */
  datatype Chunk = Chunk(data: Bytes, p: WriteIO, s: WriteIO)

  function Feed(d: Pair, c: Chunk): (r: Pair)
    ensures r.secondary.Some? == d.secondary.Some?
  {
    var d := d.(primary := d.primary + Landed(c.data, c.p));
    if !c.p.WriteWorks? then d
    else
      var d := d.(written := d.written + |c.data|);
      if d.secondary.Some? then d.(secondary := Some(d.secondary.value + Landed(c.data, c.s))) else d
  }

  class FanoutMiss {
    var primary: MissHandler?
    var secondary: MissHandler?
    var createdBytesPrimary: nat

    ghost predicate Valid()
      reads this, primary, secondary
    {
      primary != null && secondary != null ==> primary != secondary && primary.store != secondary.store
    }

    ghost function View(): Pair
      requires primary != null
      reads this, primary, secondary
    {
      Pair(primary.body, primary.written, if secondary == null then None else Some(secondary.body))
    }

    constructor (primary: MissHandler?, secondary: MissHandler?)
      requires primary != null && secondary != null ==> primary != secondary && primary.store != secondary.store
      ensures Valid() && this.primary == primary && this.secondary == secondary
    {
      this.primary, this.secondary, createdBytesPrimary := primary, secondary, 0;
    }

    method WriteBody(data: Bytes, p: WriteIO, s: WriteIO) returns (ok: bool)
      requires Valid()
      modifies primary, secondary
      ensures Valid()
      ensures ok == (primary != null && p.WriteWorks?)
      ensures primary != null ==> View() == Feed(old(View()), Chunk(data, p, s))
      ensures primary == null && secondary != null ==>
        secondary.body == old(secondary.body) && secondary.written == old(secondary.written)
    {
      if primary == null {
        return false;
      }
      ok := primary.WriteBody(data, p);
      if !ok {
        return;
      }
      if secondary != null {
        var ignored := secondary.WriteBody(data, s);
      }
    }

    /** The secondary is finished only after the primary, and its outcome is ignored. */
    method Finish(p: Conduct<nat>, s: Conduct<nat>) returns (r: Outcome<nat>)
      requires Valid()
      modifies this
      modifies if primary == null then {} else {primary.store}
      modifies if secondary == null then {} else {secondary.store}
      ensures old(primary) == null ==> r.Err? && secondary == old(secondary)
      ensures old(primary) != null ==>
        var q := old(primary);
        && (q.store.entries, r) == CommitSpec(old(q.store.entries), q.key, Entry(q.meta, q.body), q.written, p)
        && (r.Ok? ==> createdBytesPrimary == r.value)
      ensures old(secondary) != null ==>
        var q := old(secondary);
        q.store.entries ==
          if r.Ok? then CommitSpec(old(q.store.entries), q.key, Entry(q.meta, q.body), q.written, s).0
          else old(q.store.entries)
      ensures old(primary) != null && old(secondary) != null
              && old(primary).key == old(secondary).key && old(primary).meta == old(secondary).meta ==>
        var (q, z) := (old(primary), old(secondary));
        (q.store.entries, z.store.entries, r)
          == Finished(old(q.store.entries), old(z.store.entries), q.key, q.meta, old(View()), old(z.written), p, s)
    {
      var q := primary;
      primary := null;
      if q == null {
        return Err;
      }
      r := q.Finish(p);
      if r.Err? {
        return;
      }
      createdBytesPrimary := r.value;
      if secondary != null {
        var ignored := secondary.Finish(s);
      }
    }
  }

  // - - - whole streams

  function FeedAll(d: Pair, chunks: seq<Chunk>): (r: Pair)
    ensures r.secondary.Some? == d.secondary.Some?
  {
    if chunks == [] then d else Feed(FeedAll(d, chunks[..|chunks| - 1]), chunks[|chunks| - 1])
  }

  function Empty(mirrored: bool): Pair {
    Pair([], 0, if mirrored then Some([]) else None)
  }

  function Datas(chunks: seq<Chunk>): seq<Bytes> {
    seq(|chunks|, i requires 0 <= i < |chunks| => chunks[i].data)
  }

  /** The chunks whose secondary write succeeded. */
  function Mirrored(chunks: seq<Chunk>): seq<Bytes> {
    if chunks == [] then []
    else
      var last := chunks[|chunks| - 1];
      Mirrored(chunks[..|chunks| - 1]) + (if last.p.WriteWorks? && last.s.WriteWorks? then [last.data] else [])
  }

  ghost predicate PrimaryWorks(chunks: seq<Chunk>) {
    forall i :: 0 <= i < |chunks| ==> chunks[i].p.WriteWorks?
  }

  /** The secondary takes every chunk that the primary takes. */
  ghost predicate SecondaryWorks(chunks: seq<Chunk>) {
    forall i :: 0 <= i < |chunks| && chunks[i].p.WriteWorks? ==> chunks[i].s.WriteWorks?
  }

  predicate AllOrNothing(data: Bytes, io: WriteIO) {
    io.WriteWorks? || Landed(data, io) == []
  }

  /** If the primary takes every chunk, it holds their concatenation and has counted its length, whatever happens to
      the secondary. */
  lemma {:induction false} PrimaryTakesAll(chunks: seq<Chunk>, mirrored: bool)
    requires PrimaryWorks(chunks)
    ensures var d := FeedAll(Empty(mirrored), chunks);
      d.primary == Flatten(Datas(chunks)) && d.written == |d.primary|
  {
    if chunks != [] {
      var rest := chunks[..|chunks| - 1];
      PrimaryTakesAll(rest, mirrored);
      assert Datas(chunks)[..|Datas(chunks)| - 1] == Datas(rest);
    }
  }

  /** If the secondary's failed writes leave nothing behind, it holds the chunks that succeeded, in order. */
  lemma {:induction false} SecondaryFollows(chunks: seq<Chunk>)
    requires forall i :: 0 <= i < |chunks| ==> AllOrNothing(chunks[i].data, chunks[i].s)
    ensures FeedAll(Empty(true), chunks).secondary == Some(Flatten(Mirrored(chunks)))
  {
    if chunks != [] {
      var rest, last := chunks[..|chunks| - 1], chunks[|chunks| - 1];
      SecondaryFollows(rest);
      var so, next := Flatten(Mirrored(rest)), FeedAll(Empty(true), chunks).secondary.value;
      assert so + [] == so && Mirrored(rest) + [] == Mirrored(rest);
      FlattenSnoc(Mirrored(rest), last.data);
      assert AllOrNothing(last.data, last.s);
      if last.p.WriteWorks? && !last.s.WriteWorks? {
        assert next == so + Landed(last.data, last.s);
      }
    }
  }

  /** A stream may even go on after a failed write of the primary, if that leaves nothing behind: as long as the
      secondary takes what the primary took, both hold the same. */
  lemma {:induction false} DraftsAgree(chunks: seq<Chunk>)
    requires SecondaryWorks(chunks) && forall i :: 0 <= i < |chunks| ==> AllOrNothing(chunks[i].data, chunks[i].p)
    ensures var d := FeedAll(Empty(true), chunks); d.secondary == Some(d.primary)
  {
    if chunks != [] {
      var rest, last := chunks[..|chunks| - 1], chunks[|chunks| - 1];
      DraftsAgree(rest);
      var so := FeedAll(Empty(true), rest).primary;
      assert AllOrNothing(last.data, last.p) && so + [] == so;
    }
  }

  /** Both stores after finishing. */
  function Finished(p: Entries, s: Entries, k: Key, meta: CacheMeta, d: Pair, written: nat,
                    c: Conduct<nat>, e: Conduct<nat>): (Entries, Entries, Outcome<nat>)
    requires d.secondary.Some?
  {
    var (first, r) := CommitSpec(p, k, Entry(meta, d.primary), d.written, c);
    if r.Err? then (first, s, r)
    else (first, CommitSpec(s, k, Entry(meta, d.secondary.value), written, e).0, r)
  }

  /** Fan-out agreement: the primary commits the concatenation of all chunks and its result is returned, whatever the
      secondary does; the secondary commits the same if none of its writes fails, and exactly the chunks that succeeded
      if its failed writes leave nothing behind. */
  lemma FanOutAgreement(p: Entries, s: Entries, k: Key, meta: CacheMeta, chunks: seq<Chunk>, written: nat,
                        e: Conduct<nat>)
    requires PrimaryWorks(chunks)
    ensures var body := Flatten(Datas(chunks));
      var (first, second, r) := Finished(p, s, k, meta, FeedAll(Empty(true), chunks), written, Sound, e);
      && first == Put(p, k, Entry(meta, body)) && r == Ok(|body|)
      && OnlyAt(k, s, second)
      && (SecondaryWorks(chunks) && e.Sound? ==> second == Put(s, k, Entry(meta, body)))
      && ((forall i :: 0 <= i < |chunks| ==> AllOrNothing(chunks[i].data, chunks[i].s)) && e.Sound? ==>
            second == Put(s, k, Entry(meta, Flatten(Mirrored(chunks)))))
  {
    hide FeedAll, Flatten, Mirrored;
    PrimaryTakesAll(chunks, true);
    if SecondaryWorks(chunks) {
      DraftsAgree(chunks);
    }
    if forall i :: 0 <= i < |chunks| ==> AllOrNothing(chunks[i].data, chunks[i].s) {
      SecondaryFollows(chunks);
    }
  }
}
