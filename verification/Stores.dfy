/** The `Storage` interface as its callers see it: a map from keys to entries, whose calls may fail. A failing call may
    leave the entry of its own key in any state and give any answer, but touches no other entry. */
module Stores {
  import opened Basics
  import opened FileSystem
  import opened CacheMachine
  import opened WholeCalls
  import opened CallOutcomes
  import opened DiskCaches

  datatype Conduct<+R> = Sound | Faulty(left: Option<Entry>, answer: Outcome<R>)

  function Leave(m: Entries, k: Key, left: Option<Entry>): Entries {
    if left.Some? then Put(m, k, left.value) else Remove(m, k)
  }

  function LookupSpec(m: Entries, k: Key, c: Conduct<Option<Entry>>): Outcome<Option<Entry>> {
    if c.Sound? then Ok(Get(m, k)) else c.answer
  }

  function PurgeSpec(m: Entries, k: Key, c: Conduct<bool>): (Entries, Outcome<bool>) {
    if c.Sound? then (Remove(m, k), Ok(k in m)) else (Leave(m, k, c.left), c.answer)
  }

  function UpdateSpec(m: Entries, k: Key, meta: CacheMeta, c: Conduct<bool>): (Entries, Outcome<bool>) {
    if c.Sound? then (Refresh(m, k, meta), Ok(k in m)) else (Leave(m, k, c.left), c.answer)
  }

  function CommitSpec(m: Entries, k: Key, e: Entry, written: nat, c: Conduct<nat>): (Entries, Outcome<nat>) {
    if c.Sound? then (Put(m, k, e), Ok(written)) else (Leave(m, k, c.left), c.answer)
  }

  // - - - the disk cache is such a store

  lemma {:induction false} LeaveReaches(m: Entries, n: Entries, k: Key)
    requires OnlyAt(k, m, n)
    ensures n == Leave(m, k, Get(n, k))
  {
    forall j ensures (j in n <==> j in Leave(m, k, Get(n, k))) && (j in n ==> n[j] == Leave(m, k, Get(n, k))[j]) {
      if j != k {
        assert (j in m <==> j in m - {k}) && (j in n <==> j in n - {k});
      }
    }
  }

  /** A failed lookup may hide an entry, as an error or a miss, but whatever it shows is there; it answers as the store
      should exactly if nothing fails, or there is nothing to find. */
  lemma DiskLookupIsLookup(sh: Shared, k: Key, io: LookupIO)
    ensures var l := LookupCall(sh, k, io).1;
      var r := if l.stage.LookupFailed? then Err else Ok(Found(l));
      && (r == LookupSpec(OnDisk(sh.fs), k, Sound) <==> io == LOOKUP_WORKS || (io.root && k !in OnDisk(sh.fs)))
      && (r.Ok? && r.value.Some? ==> r.value == Get(OnDisk(sh.fs), k))
  {
    hide LookupCall, OnDisk;
    LookupOutcome(sh, k, io);
  }

  lemma DiskPurgeIsPurge(fs: FS, after: FS, k: Key, io: PurgeIO, existed: bool)
    requires PurgesEntry(fs, after, k, io, existed)
    ensures exists c :: (OnDisk(after), Ok(existed)) == PurgeSpec(OnDisk(fs), k, c)
                        && (io == PURGE_WORKS && Complete(fs) ==> c.Sound?)
  {
    if io == PURGE_WORKS && Complete(fs) {
      assert (OnDisk(after), Ok(existed)) == PurgeSpec(OnDisk(fs), k, Sound);
    } else {
      LeaveReaches(OnDisk(fs), OnDisk(after), k);
      assert (OnDisk(after), Ok(existed)) == PurgeSpec(OnDisk(fs), k, Faulty(Get(OnDisk(after), k), Ok(existed)));
    }
  }

  lemma DiskUpdateIsUpdate(fs: FS, after: FS, k: Key, meta: CacheMeta, io: UpdateIO, r: Outcome<bool>)
    requires RenewsEntry(fs, after, k, meta, io, if r.Ok? then Updated(r.value) else UpdateFailed)
    ensures exists c :: (OnDisk(after), r) == UpdateSpec(OnDisk(fs), k, meta, c)
                        && (io == UPDATE_WORKS && Complete(fs) ==> c.Sound?)
  {
    if io == UPDATE_WORKS && Complete(fs) {
      RenewIsRefresh(fs, after, k, meta, if r.Ok? then Updated(r.value) else UpdateFailed);
      assert (OnDisk(after), r) == UpdateSpec(OnDisk(fs), k, meta, Sound);
    } else {
      LeaveReaches(OnDisk(fs), OnDisk(after), k);
      assert (OnDisk(after), r) == UpdateSpec(OnDisk(fs), k, meta, Faulty(Get(OnDisk(after), k), r));
    }
  }

  lemma DiskFinishIsCommit(fs: FS, after: FS, k: Key, e: Entry, written: nat, io: FinishIO, r: Outcome<nat>)
    requires CommitsEntry(fs, after, k, e, io) && r == if Commits(io) then Ok(written) else Err
    ensures exists c :: (OnDisk(after), r) == CommitSpec(OnDisk(fs), k, e, written, c) && (Commits(io) ==> c.Sound?)
  {
    if Commits(io) {
      assert (OnDisk(after), r) == CommitSpec(OnDisk(fs), k, e, written, Sound);
    } else {
      LeaveReaches(OnDisk(fs), OnDisk(after), k);
      assert (OnDisk(after), r) == CommitSpec(OnDisk(fs), k, e, written, Faulty(Get(OnDisk(after), k), r));
    }
  }

  // - - - as objects

  class Store {
    var entries: Entries

    constructor (entries: Entries)
      ensures this.entries == entries
    {
      this.entries := entries;
    }

    method Lookup(k: Key, c: Conduct<Option<Entry>>) returns (r: Outcome<Option<Entry>>)
      ensures r == LookupSpec(entries, k, c)
    {
      r := LookupSpec(entries, k, c);
    }

    method GetMissHandler(k: Key, meta: CacheMeta, ok: bool) returns (r: Outcome<MissHandler>)
      ensures r.Ok? <==> ok
      ensures r.Ok? ==> fresh(r.value) && r.value.store == this && r.value.key == k && r.value.meta == meta
                        && r.value.body == [] && r.value.written == 0
    {
      if !ok { return Err; }
      var handler := new MissHandler(this, k, meta);
      return Ok(handler);
    }

    method Purge(k: Key, c: Conduct<bool>) returns (r: Outcome<bool>)
      modifies this
      ensures (entries, r) == PurgeSpec(old(entries), k, c)
    {
      var (after, answer) := PurgeSpec(entries, k, c);
      entries := after;
      r := answer;
    }

    method UpdateMeta(k: Key, meta: CacheMeta, c: Conduct<bool>) returns (r: Outcome<bool>)
      modifies this
      ensures (entries, r) == UpdateSpec(old(entries), k, meta, c)
    {
      var (after, answer) := UpdateSpec(entries, k, meta, c);
      entries := after;
      r := answer;
    }
  }

  /** The handler of one miss at some store: a private draft until it is finished. */
  class MissHandler {
    const store: Store
    const key: Key
    const meta: CacheMeta
    var body: Bytes
    var written: nat

    constructor (store: Store, key: Key, meta: CacheMeta)
      ensures this.store == store && this.key == key && this.meta == meta && body == [] && written == 0
    {
      this.store, this.key, this.meta, body, written := store, key, meta, [], 0;
    }

    method WriteBody(data: Bytes, io: WriteIO) returns (ok: bool)
      modifies this
      ensures ok == io.WriteWorks?
      ensures body == old(body) + Landed(data, io) && written == old(written) + (if ok then |data| else 0)
    {
      ok := io.WriteWorks?;
      body := body + Landed(data, io);
      if ok { written := written + |data|; }
    }

    method Finish(c: Conduct<nat>) returns (r: Outcome<nat>)
      modifies store
      ensures (store.entries, r) == CommitSpec(old(store.entries), key, Entry(meta, body), written, c)
    {
      var (after, answer) := CommitSpec(store.entries, key, Entry(meta, body), written, c);
      store.entries := after;
      r := answer;
    }
  }
}
