/** Two stores tried one after the other: what is visible is the secondary overridden by the primary. */
module Tiered {
  import opened Basics
  import opened CallOutcomes
  import opened DiskCaches
  import opened Stores

  datatype Tiers = Tiers(primary: Entries, secondary: Option<Entries>)

  function Lower(t: Tiers): Entries {
    if t.secondary.Some? then t.secondary.value else map[]
  }

  /** The primary overrides the secondary. */
  function Visible(t: Tiers): Entries {
    Lower(t) + t.primary
  }

  datatype PurgeType = Eviction | Invalidation

  datatype WritePolicy = PrimaryOnly | WriteThroughBoth

  function OkOr(r: Outcome<bool>, default: bool): bool {
    if r.Ok? then r.value else default
  }

  /** `p` and `s` are how the two stores conduct themselves, should they be called. */
  function TieredLookup(t: Tiers, k: Key, p: Conduct<Option<Entry>>, s: Conduct<Option<Entry>>):
      Outcome<Option<Entry>>
  {
    var first := LookupSpec(t.primary, k, p);
    if first == Ok(None) && t.secondary.Some? then LookupSpec(t.secondary.value, k, s) else first
  }

  function TieredPurge(t: Tiers, k: Key, kind: PurgeType, p: Conduct<bool>, s: Conduct<bool>): (Tiers, bool) {
    var (primary, first) := PurgeSpec(t.primary, k, p);
    if kind.Eviction? || t.secondary.None? then (t.(primary := primary), OkOr(first, false))
    else
      var (secondary, second) := PurgeSpec(t.secondary.value, k, s);
      (Tiers(primary, Some(secondary)), OkOr(first, false) || OkOr(second, false))
  }

  function TieredUpdate(t: Tiers, k: Key, meta: CacheMeta, p: Conduct<bool>, s: Conduct<bool>): (Tiers, Outcome<bool>) {
    var (primary, first) := UpdateSpec(t.primary, k, meta, p);
    if first.Err? || t.secondary.None? then (t.(primary := primary), first)
    else
      var (secondary, second) := UpdateSpec(t.secondary.value, k, meta, s);
      (Tiers(primary, Some(secondary)), Ok(first.value || OkOr(second, false)))
  }

  class TieredStorage {
    const primary: Store
    const secondary: Store?
    const writePolicy: WritePolicy

    ghost predicate Valid() { primary != secondary }

    ghost function View(): Tiers
      reads primary, secondary
    {
      Tiers(primary.entries, if secondary == null then None else Some(secondary.entries))
    }

    constructor (primary: Store, secondary: Store?, writePolicy: WritePolicy)
      requires primary != secondary
      ensures Valid() && this.primary == primary && this.secondary == secondary && this.writePolicy == writePolicy
    {
      this.primary, this.secondary, this.writePolicy := primary, secondary, writePolicy;
    }

    method Lookup(k: Key, p: Conduct<Option<Entry>>, s: Conduct<Option<Entry>>) returns (r: Outcome<Option<Entry>>)
      requires Valid()
      ensures r == TieredLookup(View(), k, p, s)
      ensures p.Sound? && s.Sound? ==> r == Ok(Get(Visible(View()), k))
    {
      r := primary.Lookup(k, p);
      if r.Err? {
        return;
      }
      if r.value.Some? {
        return;
      }
      if secondary != null {
        r := secondary.Lookup(k, s);
      }
    }

    /** The write policy makes no difference: the miss is always admitted into the primary alone. */
    method GetMissHandler(k: Key, meta: CacheMeta, ok: bool) returns (r: Outcome<MissHandler>)
      requires Valid()
      ensures r.Ok? <==> ok
      ensures r.Ok? ==> fresh(r.value) && r.value.store == primary && r.value.store != secondary
                        && r.value.key == k && r.value.meta == meta && r.value.body == [] && r.value.written == 0
    {
      var primaryMiss := primary.GetMissHandler(k, meta, ok);
      if primaryMiss.Err? {
        return Err;
      }
      if writePolicy.PrimaryOnly? || secondary == null {
        r := primaryMiss;
      } else {
        r := primaryMiss;
      }
    }

    method Purge(k: Key, kind: PurgeType, p: Conduct<bool>, s: Conduct<bool>) returns (existed: bool)
      requires Valid()
      modifies primary, secondary
      ensures (View(), existed) == TieredPurge(old(View()), k, kind, p, s)
    {
      match kind {
        case Eviction =>
          var r := primary.Purge(k, p);
          existed := OkOr(r, false);
        case Invalidation =>
          existed := false;
          var r := primary.Purge(k, p);
          if r.Ok? { existed := existed || r.value; }
          if secondary != null {
            r := secondary.Purge(k, s);
            if r.Ok? { existed := existed || r.value; }
          }
      }
    }

    method UpdateMeta(k: Key, meta: CacheMeta, p: Conduct<bool>, s: Conduct<bool>) returns (r: Outcome<bool>)
      requires Valid()
      modifies primary, secondary
      ensures (View(), r) == TieredUpdate(old(View()), k, meta, p, s)
    {
      r := primary.UpdateMeta(k, meta, p);
      if r.Err? {
        return;
      }
      var updated := r.value;
      if secondary != null {
        var second := secondary.UpdateMeta(k, meta, s);
        if second.Ok? { updated := updated || second.value; }
      }
      r := Ok(updated);
    }
  }

  // - - - single calls, whatever the stores do

  lemma LookupIsVisible(t: Tiers, k: Key)
    ensures TieredLookup(t, k, Sound, Sound) == Ok(Get(Visible(t), k))
  {
  }

  /** The secondary is asked exactly if the primary answers, and has nothing: an error of the primary ends the call. */
  lemma PrimaryComesFirst(t: Tiers, k: Key, p: Conduct<Option<Entry>>, s: Conduct<Option<Entry>>)
    ensures var r := TieredLookup(t, k, p, s);
      && (p.Faulty? && p.answer.Err? ==> r == Err)
      && (p.Sound? && k in t.primary ==> r == Ok(Some(t.primary[k])))
      && (p.Faulty? && p.answer.Ok? && p.answer.value.Some? ==> r == p.answer)
      && (p.Sound? && k !in t.primary && t.secondary.Some? && s.Faulty? ==> r == s.answer)
      && (p.Sound? && k !in t.primary && t.secondary.Some? && s.Sound? ==> r == Ok(Get(t.secondary.value, k)))
      && (p.Sound? && k !in t.primary && t.secondary.None? ==> r == Ok(None))
  {
  }

  /** An eviction leaves the secondary alone, so that its entry shows through; the call never fails. */
  lemma EvictionShowsThrough(t: Tiers, k: Key, p: Conduct<bool>, s: Conduct<bool>)
    ensures var (after, existed) := TieredPurge(t, k, Eviction, p, s);
      && after.secondary == t.secondary
      && OnlyAt(k, Visible(t), Visible(after))
      && (p.Sound? ==> Get(Visible(after), k) == Get(Lower(t), k) && existed == (k in t.primary))
      && (p.Faulty? && p.answer.Err? ==> !existed)
  {
    OnlyAtVisible(t, TieredPurge(t, k, Eviction, p, s).0, k);
  }

  /** An invalidation reaches both stores: a failure of the primary does not keep it from the secondary, and the
      answer is the "or" of the answers that were given. */
  lemma InvalidationReachesBoth(t: Tiers, k: Key, p: Conduct<bool>, s: Conduct<bool>)
    requires t.secondary.Some?
    ensures var (after, existed) := TieredPurge(t, k, Invalidation, p, s);
      && after.secondary.Some?
      && OnlyAt(k, Visible(t), Visible(after))
      && (p.Sound? ==> k !in after.primary) && (s.Sound? ==> k !in after.secondary.value)
      && (p.Sound? && s.Sound? ==> Visible(after) == Remove(Visible(t), k) && existed == (k in Visible(t)))
      && (s.Sound? ==> existed == (OkOr(PurgeSpec(t.primary, k, p).1, false) || k in t.secondary.value))
      && (p.Sound? ==> existed == (k in t.primary || OkOr(PurgeSpec(t.secondary.value, k, s).1, false)))
  {
    var after := TieredPurge(t, k, Invalidation, p, s).0;
    OnlyAtVisible(t, after, k);
    if p.Sound? && s.Sound? {
      assert Visible(after) == Remove(Visible(t), k);
    }
  }

  lemma OnlyAtVisible(t: Tiers, after: Tiers, k: Key)
    requires OnlyAt(k, t.primary, after.primary) && OnlyAt(k, Lower(t), Lower(after))
    ensures OnlyAt(k, Visible(t), Visible(after))
  {
    forall j | j != k
      ensures (j in Visible(t) <==> j in Visible(after)) && (j in Visible(t) ==> Visible(t)[j] == Visible(after)[j])
    {
      assert (j in t.primary <==> j in t.primary - {k}) && (j in after.primary <==> j in after.primary - {k});
      assert (j in Lower(t) <==> j in Lower(t) - {k}) && (j in Lower(after) <==> j in Lower(after) - {k});
    }
  }

  /** A meta update keeps every visible body and changes the visible meta of its key only; an error of the primary
      keeps the secondary untouched and fails the call, an error of the secondary does not. */
  lemma UpdateKeepsBodies(t: Tiers, k: Key, meta: CacheMeta, p: Conduct<bool>, s: Conduct<bool>)
    ensures var (after, r) := TieredUpdate(t, k, meta, p, s);
      && OnlyAt(k, Visible(t), Visible(after))
      && (r.Err? <==> UpdateSpec(t.primary, k, meta, p).1.Err?)
      && (r.Err? ==> after.secondary == t.secondary)
      && (p.Sound? && s.Sound? ==> Visible(after) == Refresh(Visible(t), k, meta) && r == Ok(k in Visible(t)))
      && (p.Sound? && k in t.primary ==> Get(Visible(after), k) == Some(Visible(t)[k].(meta := meta)) && r == Ok(true))
  {
    var after := TieredUpdate(t, k, meta, p, s).0;
    OnlyAtVisible(t, after, k);
    if p.Sound? && s.Sound? {
      assert Visible(after) == Refresh(Visible(t), k, meta);
    }
  }

  // - - - whole runs

  datatype Event =
    | Committed(key: Key, entry: Entry)        // a miss handler of the tiered store was finished
    | Purged(key: Key, kind: PurgeType)
    | Updated(key: Key, meta: CacheMeta)
    | Looked(key: Key)

  datatype Reply = NoReply | Existed(b: bool) | Shown(found: Option<Entry>) | Failed

  function After(t: Tiers, e: Event): Tiers {
    match e
    case Committed(k, entry) => t.(primary := Put(t.primary, k, entry))
    case Purged(k, kind) => TieredPurge(t, k, kind, Sound, Sound).0
    case Updated(k, meta) => TieredUpdate(t, k, meta, Sound, Sound).0
    case Looked(_) => t
  }

  function ReplyTo(t: Tiers, e: Event): Reply {
    match e
    case Committed(_, _) => NoReply
    case Purged(k, kind) => Existed(TieredPurge(t, k, kind, Sound, Sound).1)
    case Updated(k, meta) =>
      var r := TieredUpdate(t, k, meta, Sound, Sound).1;
      if r.Ok? then Existed(r.value) else Failed
    case Looked(k) =>
      var r := TieredLookup(t, k, Sound, Sound);
      if r.Ok? then Shown(r.value) else Failed
  }

  function AfterAll(t: Tiers, events: seq<Event>): Tiers {
    if events == [] then t else After(AfterAll(t, events[..|events| - 1]), events[|events| - 1])
  }

  /** The answers given along a run. */
  function Replies(t: Tiers, events: seq<Event>): seq<Reply> {
    if events == [] then []
    else
      var before := events[..|events| - 1];
      Replies(t, before) + [ReplyTo(AfterAll(t, before), events[|events| - 1])]
  }

  function WithMeta(e: Option<Entry>, meta: CacheMeta): Option<Entry> {
    if e.Some? then Some(e.value.(meta := meta)) else None
  }

  /** The reference, which looks back through the history of one key: what the secondary holds was there at start and
      was not invalidated since. */
  function LowerLately(start: Option<Entry>, events: seq<Event>, k: Key): Option<Entry> {
    if events == [] then start
    else
      var earlier := LowerLately(start, events[..|events| - 1], k);
      match events[|events| - 1]
      case Purged(j, Invalidation) => if j == k then None else earlier
      case Updated(j, meta) => if j == k then WithMeta(earlier, meta) else earlier
      case _ => earlier
  }

  /** What the primary holds: the most recent commit, unless the key was purged since, in whatever way. */
  function UpperLately(start: Option<Entry>, events: seq<Event>, k: Key): Option<Entry> {
    if events == [] then start
    else
      var earlier := UpperLately(start, events[..|events| - 1], k);
      match events[|events| - 1]
      case Committed(j, e) => if j == k then Some(e) else earlier
      case Purged(j, _) => if j == k then None else earlier
      case Updated(j, meta) => if j == k then WithMeta(earlier, meta) else earlier
      case Looked(_) => earlier
  }

  /** The most recent commit of the key, unless it was purged since: by an eviction, which uncovers the secondary, or
      by an invalidation, which leaves nothing. */
  function Lately(upper: Option<Entry>, lower: Option<Entry>, events: seq<Event>, k: Key): Option<Entry> {
    if events == [] then (if upper.Some? then upper else lower)
    else
      var before := events[..|events| - 1];
      var earlier := Lately(upper, lower, before, k);
      match events[|events| - 1]
      case Committed(j, e) => if j == k then Some(e) else earlier
      case Purged(j, Eviction) => if j == k then LowerLately(lower, before, k) else earlier
      case Purged(j, Invalidation) => if j == k then None else earlier
      case Updated(j, meta) => if j == k then WithMeta(earlier, meta) else earlier
      case Looked(_) => earlier
  }

  /** The reply that the history calls for: an eviction tells of the primary, everything else of what is visible. */
  function ReplyLately(t: Tiers, before: seq<Event>, e: Event): Reply {
    match e
    case Committed(_, _) => NoReply
    case Purged(k, Eviction) => Existed(UpperLately(Get(t.primary, k), before, k).Some?)
    case Purged(k, Invalidation) => Existed(Lately(Get(t.primary, k), Get(Lower(t), k), before, k).Some?)
    case Updated(k, _) => Existed(Lately(Get(t.primary, k), Get(Lower(t), k), before, k).Some?)
    case Looked(k) => Shown(Lately(Get(t.primary, k), Get(Lower(t), k), before, k))
  }

  function RepliesLately(t: Tiers, events: seq<Event>): seq<Reply> {
    if events == [] then []
    else
      var before := events[..|events| - 1];
      RepliesLately(t, before) + [ReplyLately(t, before, events[|events| - 1])]
  }

  lemma EventShows(t: Tiers, e: Event, k: Key)
    ensures Get(Lower(After(t, e)), k) == (
      match e
      case Purged(j, Invalidation) => if j == k then None else Get(Lower(t), k)
      case Updated(j, meta) => if j == k then WithMeta(Get(Lower(t), k), meta) else Get(Lower(t), k)
      case _ => Get(Lower(t), k))
    ensures Get(After(t, e).primary, k) == (
      match e
      case Committed(j, entry) => if j == k then Some(entry) else Get(t.primary, k)
      case Purged(j, _) => if j == k then None else Get(t.primary, k)
      case Updated(j, meta) => if j == k then WithMeta(Get(t.primary, k), meta) else Get(t.primary, k)
      case Looked(_) => Get(t.primary, k))
    ensures Get(Visible(After(t, e)), k) == (
      match e
      case Committed(j, entry) => if j == k then Some(entry) else Get(Visible(t), k)
      case Purged(j, Eviction) => if j == k then Get(Lower(t), k) else Get(Visible(t), k)
      case Purged(j, Invalidation) => if j == k then None else Get(Visible(t), k)
      case Updated(j, meta) => if j == k then WithMeta(Get(Visible(t), k), meta) else Get(Visible(t), k)
      case Looked(_) => Get(Visible(t), k))
  {
  }

  /** Every run without errors shows of every key what its history says. */
  lemma {:induction false} RunShows(t: Tiers, events: seq<Event>, k: Key)
    ensures var now := AfterAll(t, events);
      && Get(Visible(now), k) == Lately(Get(t.primary, k), Get(Lower(t), k), events, k)
      && Get(Lower(now), k) == LowerLately(Get(Lower(t), k), events, k)
      && Get(now.primary, k) == UpperLately(Get(t.primary, k), events, k)
  {
    if events != [] {
      hide After, Visible, Get;
      RunShows(t, events[..|events| - 1], k);
      EventShows(AfterAll(t, events[..|events| - 1]), events[|events| - 1], k);
    }
  }

  lemma ReplyShows(t: Tiers, e: Event)
    ensures ReplyTo(t, e) == (
      match e
      case Committed(_, _) => NoReply
      case Purged(k, Eviction) => Existed(Get(t.primary, k).Some?)
      case Purged(k, Invalidation) => Existed(Get(Visible(t), k).Some?)
      case Updated(k, _) => Existed(Get(Visible(t), k).Some?)
      case Looked(k) => Shown(Get(Visible(t), k)))
  {
    if e.Looked? { LookupIsVisible(t, e.key); }
  }

  /** Every answer given in a run without errors is the one that the history of its key calls for, and so is what the
      run leaves visible of every key. */
  lemma {:induction false} TieredRefinement(t: Tiers, events: seq<Event>)
    ensures Replies(t, events) == RepliesLately(t, events)
    ensures forall k :: Get(Visible(AfterAll(t, events)), k) == Lately(Get(t.primary, k), Get(Lower(t), k), events, k)
  {
    hide Visible, Get, Lately, AfterAll, UpperLately, ReplyTo;
    forall k ensures Get(Visible(AfterAll(t, events)), k) == Lately(Get(t.primary, k), Get(Lower(t), k), events, k) {
      RunShows(t, events, k);
    }
    if events != [] {
      var before, e := events[..|events| - 1], events[|events| - 1];
      TieredRefinement(t, before);
      RunShows(t, before, e.key);
      ReplyShows(AfterAll(t, before), e);
    }
  }

  /** Without a secondary, the tiered store is its primary. */
  lemma NoSecondary(m: Entries, k: Key, kind: PurgeType, meta: CacheMeta, p: Conduct<bool>, s: Conduct<bool>,
                    q: Conduct<Option<Entry>>, r: Conduct<Option<Entry>>)
    ensures Visible(Tiers(m, None)) == m
    ensures TieredLookup(Tiers(m, None), k, q, r) == LookupSpec(m, k, q)
    ensures var (n, answer) := PurgeSpec(m, k, p);
      TieredPurge(Tiers(m, None), k, kind, p, s) == (Tiers(n, None), OkOr(answer, false))
    ensures var (n, answer) := UpdateSpec(m, k, meta, p);
      TieredUpdate(Tiers(m, None), k, meta, p, s) == (Tiers(n, None), answer)
  {
  }
}
