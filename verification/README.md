# The cache of an edge CDN store, modelled and verified

The program is a caching HTTP proxy. This project models the part of it that keeps and shares data: a disk cache whose
entries are three files each, the handlers that write and read them while other requests run, the tiered store on top,
the size gauge that survives restarts, and the functions that decide which requests share a cached body. Everything is
stated and proved for all inputs, all interleavings and all failures of file operations, unless a hypothesis says
otherwise.

## How it is built

* `FileSystem.dfy` is the part of a POSIX file system the cache relies on. Body and tmp files are inodes, since handlers
  keep them open and `rename` moves them. `Layout.dfy` shows that the paths keep the files of different keys apart.
* `CacheMachine.dfy` is the disk cache as a state machine. One step is one file system call or one counter update of one
  miss handler, purge, meta update, or lookup with its hit handler; the steps of any number of them interleave freely,
  and every file system call may fail. Records of calls are kept for ever, so that a state tells its history.
* `CoreInvariant.dfy`, `ReaderIsolation.dfy`, `SnapshotSafety.dfy` and `Accounting.dfy` prove what holds in all runs of that
  machine. `KeyIsolation.dfy`, `LookupResults.dfy`, `LookupOverlap.dfy`, `UndisturbedFinish.dfy` and `LatestEntry.dfy` say
  what overlapping calls do to a lookup, to a finish and to an entry; `Limits.dfy` gives the runs that show where the
  guarantees end.
* `WholeCalls.dfy` composes the steps into whole calls and shows that every whole call is a run, `CallOutcomes.dfy` says
  what each call does for every pattern of failures, `MapRefinement.dfy` proves that calls without failures make the
  cache a map, and `FaultyCalls.dfy` follows the gauge through calls that may fail.
* `DiskCache.dfy` has the objects of the program, written as the program writes them, each method proved against the step
  machine and against its effect on the entries. `HitHandler.dfy` specifies the streaming reader.
* `Stores.dfy`, `Tiered.dfy` and `FanOut.dfy` are the storage interface, the tiered store and the fan-out writer.
* `Restart.dfy` is the gauge across restarts, `Requests.dfy` the Host parser, the upstream selection and the cache key,
  `HtmlEscape.dfy` the HTML escaping. `Basics.dfy`, `Sums.dfy` and `Numerals.dfy` are shared vocabulary.

## Assumptions

* The unique part of a tmp file's name (process id and nanoseconds) is unique among the handlers of a run and the files
  found at start. `rename` is atomic and keeps the inode; an unlinked file lives on while it is open.
* `fs::write` and `fs::read` of the small `meta` and `hdr` files are single steps. A failed `fs::write` leaves the old file,
  if it could not open it, or else, since it truncates the file first, any prefix of the data. A `write_all` that reports
  success has appended all its data, in order; one that reports failure may have appended any prefix.
* A `CacheMeta` serialises to two byte strings that determine it. Keys are `key.combined()`, which is taken to be
  injective, at least four characters long and free of slashes.
* Lengths and positions are unbounded numbers; on a 64-bit platform the casts between `u64` and `usize` change nothing.
  The wrap-around of the gauge is modelled where it is persisted.
* What a cache finds at start may be any combination of files, complete or not, including tmp files left behind.

## Where the code differs from what is written about it

* `docs/README.md:309` says that `get_miss_handler` writes the metadata to storage. It only serialises it; the two files
  are written by `finish` (`src/disk_cache/mod.rs:204-205`, `src/disk_cache/handle_miss.rs:118-125`).
* The comment at `src/utils.rs:32` says that the scheme falls back to http. The function returns nothing, and its callers
  fall back to the port of the listener (`src/proxy.rs:80-85`, `src/proxy.rs:138-146`).
* `src/tiered/mod.rs:50` announces a fan-out write to the secondary. The write policy makes no difference
  (`src/tiered/mod.rs:116-126`), and the fan-out writer is not compiled in (`src/tiered/mod.rs:1-2`); it is modelled as
  the intended write-through component.

## What does not hold

* A lookup can be torn. It reads three files at three moments, and a second commit of the same key, or a meta update, can
  come in between and leave it with half of one meta and half of another (`ReplacementTearsLookup`, `RenewalTearsLookup`,
  `TornByTwoCommits`). Whatever overlaps it, it can hit with exactly those entries each of whose three parts was on disk at
  some moment (`HitsExactly`); so it can be torn exactly if the files of the key at some three moments make an entry that
  was there at none (`TornExactly`). One step of another call is not enough (`OneStepNeverTears`), and while nothing is put
  at its key, a hit is the entry that was there when the lookup began, even if purges take it away meanwhile
  (`LookupWithoutPuts`). Nor can it be torn if the key was committed only once (`CommitWithoutTearing`).
* An entry can be torn on disk, for good. Two finishes of one key that overlap can both report success, with nothing
  failed, and leave the body and the internal meta of the one with the header of the other (`OverlappingFinishesTear`).
  After every run the entry consists of the last body placed, the last meta and the last hdr written (`LatestOfEach`,
  `EntryOfThree`).
* Readers are not isolated from the copy that `finish` falls back to when `rename` fails (`FallbackCutsReader`). In every
  run, with every failure, a body that is being read stays as it is exactly if no copy goes onto that very file
  (`IsolatedExactlyIfUncopied`), and then the reader gets it whole (`SnapshotIsolation`).
* A finish can fail without any failing file operation, if a purge removes the directory before its meta or hdr write
  (`PurgeDuringFinish`). It succeeds exactly if the directory is there at those two moments (`FinishSucceedsExactly`),
  only purges remove it (`OnlyPurgesFailFinish`), and without calls on its key it succeeds (`UndisturbedSucceeds`).
* `size_bytes` is not the number of bytes on disk. `ExactAccounting` and `AccountingAtRest` say by how much it differs:
  replaced bodies are not subtracted, and bodies whose finish failed later are not added. A purge during a finish is
  enough to take the gauge below the truth without any failing file operation (`PurgeDuringFinish`).
* The port is not part of the cache key, so requests that share a cached body are sent to one origin exactly when their
  explicit or implied ports agree (`SharedBodySharedOrigin`, `PortsCollide`). A bracketed host may contain a slash, and
  then even different hosts can share a key (`BracketsCollide`).
* An accepted host may be empty: exactly for headers that start with "[]", and for those without '/' and ' ' that start
  with a colon (`EmptyHostAccepted`).
* Whitespace in front of trailing slashes is not trimmed (`UnwrappedOuter`); `OuterInvariance` says exactly when that
  makes a difference to the result, and `InnerTabStays` is an instance.
* A gauge change after the shutdown write is lost to the next process (`HandedOn`).

## Model

| member | source | states |
|---|---|---|
| Layout.KeysApart | src/disk_cache/mod.rs:108-115 | Two files in the directories of two keys have the same path exactly when key and file name are the same. |
| Layout.EntryFiles | src/disk_cache/mod.rs:108-115 | The directory of an entry is the root, the first two characters of the hash, the next two, and the hash; the files in it are named body, meta and hdr. |
| Layout.EntryFilesApart | src/disk_cache/mod.rs:108-115 | The three files of an entry have different paths, and none is the path of a file of another entry. |
| Layout.TmpNamesApart | src/disk_cache/handle_miss.rs:35-47 | Tmp names of a key are equal exactly when process and moment are, and never equal the name of an entry file. |
| CoreInvariant.RunCore | src/disk_cache/handle_miss.rs:35-148 | In every run, whatever fails: files live in existing directories, no two names share an inode, every handler that has not placed its body has its own tmp file with exactly the bytes it wrote, and more only after a failed write. |
| CoreInvariant.TmpLifecycle | src/disk_cache/handle_miss.rs:35-51 | In every run each live miss handler owns one tmp file in an existing directory that shares its inode with no other tmp file and no body; a tmp file that was not there at start belongs to a handler, and to a closed one only if its last removal failed. |
| CoreInvariant.RenameFindsItsFiles | src/disk_cache/handle_miss.rs:88-92 | Whatever purges ran in between, `rename` finds its tmp file and its directory; it can only fail if the system makes it fail, and otherwise the handler's inode is the body of its key. |
| ReaderIsolation.SnapshotIsolation | src/disk_cache/handle_hit.rs:30-119 | In every run, whatever fails and whatever other calls do, as long as no finish copies onto the very file that was opened: it never changes, and what the reads of the hit handler returned since its last accepted seek is, in order and without gap, the beginning of the range that this seek asked for, and all of it once enough reads worked or the end is reported, even if the key is purged or replaced meanwhile. |
| ReaderIsolation.IsolatedUnlessCopied | src/disk_cache/handle_hit.rs:30-70 | The same from any state of any run in which a handler is streaming its body. |
| ReaderIsolation.IsolatedExactlyIfUncopied | src/disk_cache/handle_miss.rs:93-116 | A non-empty body that nobody is copying onto holds the same bytes at every moment of a run exactly if no step of the run copies onto it. |
| ReaderIsolation.OnlyCopiesDisturb | src/disk_cache/handle_miss.rs:93-116 | The only steps that change an inode that is or was a body are those of the copy fallback that aim at it, and the first of them empties it. |
| ReaderIsolation.CutOff | src/disk_cache/handle_hit.rs:49-64 | A read that works on the emptied file reports the end without any further byte. |
| SnapshotSafety.RenamesWorkNoCopies | src/disk_cache/handle_miss.rs:92-93 | A finish copies only if the system fails its rename: without a failed rename of the key, no run copies onto a body of the key. |
| SnapshotSafety.NoPartialBody | src/disk_cache/handle_miss.rs:62-92 | For a key none of whose finishes falls back to copying, whatever becomes of other keys: the file at its body path is one found at start, unchanged, or the complete tmp file of one handler created for that key that writes no more; it is the concatenation of the chunks exactly when no failed write left bytes behind. |
| SnapshotSafety.HitProvenance | src/disk_cache/mod.rs:141-184 | Each of the three parts of a hit is what a call left for the looked-up key: found at start, or written by a meta update, or by a handler whose body had already been put in place. Assumes only that no finish of that key copied. |
| SnapshotSafety.CommitWithoutTearing | src/disk_cache/mod.rs:141-184 | For a key with no files at start, one handler that placed a body, no copy and no meta update, every lookup that hits, however interleaved with the commit and with purges, returns exactly that handler's internal meta and body, and the header it left: the whole one, unless its hdr write failed and left a prefix. |
| SnapshotSafety.UnlinkedForGood | src/disk_cache/mod.rs:243 | In every run, with copies or not, a body that lost its name never gets it back. |
| SnapshotSafety.GoneStaysGone | src/disk_cache/mod.rs:243-259 | Once the only committed body of a key is unlinked, every later open of its body path misses, unless a finish of that key copies. |
| SnapshotSafety.EvictionWeight | src/disk_cache/handle_hit.rs:122-125 | In every run the length a hit handler has for a promoted body, of a key none of whose finishes copied, is at least the size reported at admission, and equal exactly when no failed write left bytes behind. |
| SnapshotSafety.RunSafe | src/disk_cache/handle_miss.rs:84-133 | The invariant for one key holds in every run in which no finish of that key falls back to copying: its bodies are frozen, vouched for by the handler that made them, and all that its lookups have read was written for it. |
| KeyIsolation.RunElsewhere | src/disk_cache/mod.rs:98-116 | Calls on other keys leave the three files of a key alone, whatever fails and whatever is copied; so do the calls of the key itself but for the steps that put or unlink one of the three files. |
| LookupOverlap.LookupWithoutPuts | src/disk_cache/mod.rs:121-189 | If nothing is put at its key while it runs, a hit is exactly the entry that was there when the lookup began, whatever is purged or drafted meanwhile. If nothing is removed either and none of its reads is failed, a miss means there was none. |
| LookupOverlap.StepEntry | src/disk_cache/handle_miss.rs:84-133 | What a step of any call makes of the entry of a key: a put changes it to what it says and never takes it away; nothing else changes it other than by taking it away. |
| LookupResults.HitsExactly | src/disk_cache/mod.rs:141-184 | Whatever steps of other calls overlap it, failed or not, some interleaving of a lookup with them hits with a given entry if and only if the entry's internal meta, header and body were each on disk at some moment, possibly at three different ones. |
| LookupResults.TornExactly | src/disk_cache/mod.rs:141-146 | A lookup can return what was on disk at no moment exactly if the three files of the key at some three moments make an entry that was there at none; the condition speaks of the other calls alone. |
| LookupOverlap.OneStepNeverTears | src/disk_cache/mod.rs:141-146 | With a single step of another call anywhere inside it, a lookup that hits returns the entry before that step or the entry after it. |
| LookupOverlap.MisleadsExactly | src/disk_cache/mod.rs:141-146 | Such a step can make the lookup return something else than the entry that was there when it began exactly if it is a put that changes the entry, and then it returns the entry as changed. |
| UndisturbedFinish.FinishOnIdleKey | src/disk_cache/handle_miss.rs:84-133 | A miss handler that reports success after a run in which no other call put anything at its key or took anything away, however its steps were interleaved with other calls, whatever failed, and whether it renamed or copied, has left the entry it reports: its meta, and its chunks exactly when no failed write left bytes behind. |
| UndisturbedFinish.CommitThenLookup | src/disk_cache/mod.rs:141-184 | A lookup that begins after such a success returns, if it hits, the committed entry, unless something is put at the key meanwhile; it can only miss if one of its reads was failed or a file was taken away. |
| UndisturbedFinish.FinishSucceedsExactly | src/disk_cache/handle_miss.rs:84-132 | Whatever other calls do: a handler that does not give up - it may rename or, if its rename is failed, copy - succeeds exactly if its directory is there when it writes meta and hdr. |
| UndisturbedFinish.OnlyPurgesFailFinish | src/disk_cache/mod.rs:257-259 | If such a handler fails, a purge of its key has removed the directory, having found it empty. |
| UndisturbedFinish.UndisturbedSucceeds | src/disk_cache/handle_miss.rs:84-133 | If no other call touches the files of its key, such a handler succeeds, by rename or by copy. |
| LatestEntry.LatestOfEach | src/disk_cache/handle_miss.rs:84-133 | After every run, whatever fails and however calls overlap, each of the three files of a key is the one put there last, or gone if it was unlinked since. |
| LatestEntry.EntryOfThree | src/disk_cache/handle_miss.rs:118-125 | If no finish of the key copied, its entry has the body of the handler that placed the last body, and what the last meta write and the last hdr write left, whosever they were: the whole internal meta and header of those handlers if they succeeded. It is one handler's entry if the three are the same. |
| Accounting.ExactAccounting | src/disk_cache/handle_miss.rs:92-128 | In every run with every failure, copy and interleaving, at every moment, `size_bytes` minus the bytes on disk is that difference at start plus what each handler and each purge contributed to it. |
| Accounting.AccountingAtRest | src/disk_cache/mod.rs:240-255 | Whenever no finish and no purge is half done, with no copies, no placed body that a failed write had left bytes in, and purges that measured what they unlinked, the difference has grown by the bytes of replaced bodies and shrunk by the bytes of finishes that placed a body and then failed. |
| FaultyCalls.AccountingOfCalls | src/disk_cache/mod.rs:240-255 | The same after every sequence of whole calls, with nothing assumed but of the outcomes of file operations: no finish gets to copying, no failed write leaves bytes behind, and a purge that unlinks has measured. Everything else may fail. |
| Accounting.GaugeConservation | src/disk_cache/handle_miss.rs:127-132 | In every run, whenever no purge is between its two byte counters, `size_bytes + evicted_bytes` is the starting size plus all sizes reported as created. |
| Accounting.CountersBounded | src/disk_cache/handle_hit.rs:73-82 | In every run served hits plus open hit handlers never exceed lookup hits, and evictions never exceed purge attempts. |
| Accounting.CountersExact | src/metrics.rs:15-30 | At every moment of every run each counter is exactly the number of what it counts: misses of admissions and lookups, insertions, purges, evictions, evicted bytes, lookup hits, served hits. |
| HitSpec.ReadDelivers | src/disk_cache/handle_hit.rs:34-69 | Which bytes a read returns, on any file: with bytes left in the range, a read that works returns as many as the file, the buffer and the call give, and they are the next ones of the file; past the end of the file or of the range it reports the end; only a failed seek or a failed read is an error, and then nothing is lost. |
| HitSpec.ReadStreams | src/disk_cache/handle_hit.rs:30-70 | A read of an unchanged file, short, failed or complete, continues the range exactly where it was, and reports the end only when the whole range was returned. |
| HitSpec.SeekAsks | src/disk_cache/handle_hit.rs:90-119 | A seek inside the body makes the handler stream exactly the range it asks for, from its start; any other seek changes nothing. |
| HitSpec.ReadProgress | src/disk_cache/handle_hit.rs:44-64 | Whatever the file holds, even if it shrinks: a chunk is non-empty, at most a buffer long and uses up exactly its length; the end uses up everything, an error nothing. |
| HitSpec.AnyHistoryStreams | src/disk_cache/handle_hit.rs:30-119 | After any history of accepted and rejected seeks, failed file seeks and reads of any outcome, what the reads since the last accepted seek returned is a prefix of the range which that seek asked for, and all of it once as many of them worked as the range has bytes. |
| HitSpec.SeekThenStream | src/disk_cache/handle_hit.rs:30-119 | After an accepted seek and enough working reads, with any failing ones in between, the chunks are exactly the bytes the seek asked for, whatever the handler did before. |
| HitSpec.ChunkCount | src/disk_cache/handle_hit.rs:44-64 | A handler never returns more chunks, nor more bytes, than were left in its range, even on a changing file. |
| HitSpec.FullStream | src/disk_cache/handle_hit.rs:49-69 | With enough working reads, or read to its end, a range of L bytes comes out whole, in k chunks of at most C bytes with k <= L <= k * C. |
| WholeCalls.AdmitIsRun | src/disk_cache/mod.rs:192-226 | Opening a miss handler, with any failures, is a run of the step machine. |
| WholeCalls.WriterCallsAreRuns | src/disk_cache/handle_miss.rs:57-81 | A body write, failed or not, and a drop are runs of the step machine. |
| WholeCalls.FinishIsRun | src/disk_cache/handle_miss.rs:84-133 | A finish, with or without the copy fallback and with any failures, is a run of the step machine, which copies onto a body of its own key only, and that only if its rename is failed. |
| WholeCalls.PurgeIsRun | src/disk_cache/mod.rs:229-263 | A purge with any failures is a run of the step machine. |
| WholeCalls.UpdateIsRun | src/disk_cache/mod.rs:266-300 | A meta update with any failures is a run of the step machine. |
| WholeCalls.LookupIsRun | src/disk_cache/mod.rs:121-189 | A lookup with any failures is a run of the step machine. |
| CallOutcomes.AdmitOutcome | src/disk_cache/mod.rs:200-215 | Opening a miss handler shows nothing to lookups, counts a miss even if it fails, and works exactly when serialising and file creation work and some directory creation did or was not needed. |
| CallOutcomes.FinishOutcome | src/disk_cache/handle_miss.rs:84-133 | For every pattern of failures: result, counters, the body left behind (new, cut short by a failed copy, or old), the meta and hdr files (new, cut short by a failed write, or old) and the tmp files; and no file that ever was a body changes, other than the one a copy truncates. |
| CallOutcomes.FinishEntries | src/disk_cache/handle_miss.rs:84-133 | A finish reports its size exactly when the body was placed, by rename or by copy, and both small files were written; then it is the map's put with the tmp file's content. Other keys never change. |
| CallOutcomes.PurgeOutcome | src/disk_cache/mod.rs:240-259 | The entry is gone as soon as any of its files could be removed, but the answer is true only if the body was. |
| CallOutcomes.PurgeEffect | src/disk_cache/mod.rs:238-259 | Counters move by the measured length exactly when the body was unlinked. |
| CallOutcomes.UpdateOutcome | src/disk_cache/mod.rs:278-296 | A complete update replaces the meta and keeps the body; a failed write leaves its file as it was or cut short, and one that fails between the two leaves new internal meta with the old header; nothing happens without a body. |
| CallOutcomes.LookupOutcome | src/disk_cache/mod.rs:129-188 | A whole lookup finds the entry exactly when nothing fails; a failure hides it as a miss or an error, never makes one up, and is counted as the code counts it. |
| MapRefinement.CallRefines | src/disk_cache/mod.rs:121-300 | Each call without failures does to the entries, to the open drafts and in its answer what the map does: put, remove, refresh, get. |
| MapRefinement.CacheIsAMap | src/disk_cache/mod.rs:121-300 | After every sequence of calls without failures, all answers given and everything a lookup can find are those of the map with its drafts; and the sequence is a run of the step machine. |
| Limits.ReplacementTearsLookup | src/disk_cache/mod.rs:141-146 | From every state of every run with an entry and an open handler for its key, there is a run without copies in which a lookup returns old internal meta with new header and new body. |
| Limits.RenewalTearsLookup | src/disk_cache/mod.rs:283-290 | From every state of every run with an entry, there is a run without copies in which a meta update makes a lookup return old internal meta with the new header. |
| Limits.TornByTwoCommits | src/disk_cache/handle_miss.rs:118-125 | Two ordinary commits of one key are enough for that, whatever combination of files the cache finds at start. |
| Limits.OverlappingFinishesTear | src/disk_cache/handle_miss.rs:84-133 | From every state with two open handlers of one key there is a run without copies, failures or purges in which both report success and the entry on disk has the body and internal meta of one and the header of the other. |
| Limits.FallbackCutsReader | src/disk_cache/handle_miss.rs:103-112 | From every state of every run with an entry and an open handler for its key, there is a run that copies onto the body of this key only, and in which a reader is told that the body ends before it got any of it. |
| Limits.PurgeDuringFinish | src/disk_cache/mod.rs:243-259 | From every state with an open handler whose key has no body and no other tmp file: a purge between the finish's rename and its meta write makes it fail without any failing file operation, and leaves the gauge below the bytes on disk by the size of the body. |
| DiskCaches.DiskCache.constructor | src/disk_cache/mod.rs:73-95 | A new cache starts with zero counters and the carried size. |
| DiskCaches.DiskCache.Lookup | src/disk_cache/mod.rs:121-189 | Is the lookup of the step machine; a hit carries the entry's meta and a fresh handler at the start of its body. |
| DiskCaches.DiskCache.GetMissHandler | src/disk_cache/mod.rs:192-226 | Is the admission of the step machine; a handler that is returned owns an empty draft that no lookup can see. |
| DiskCaches.DiskCache.Purge | src/disk_cache/mod.rs:229-263 | Is the purge of the step machine, and purges the entry in the sense of `PurgeOutcome`. |
| DiskCaches.DiskCache.UpdateMeta | src/disk_cache/mod.rs:266-300 | Is the meta update of the step machine, and renews the entry in the sense of `UpdateOutcome`. |
| DiskCaches.DiskCache.UncopiedIsSafe | src/disk_cache/handle_miss.rs:92 | For every key that no finish has copied onto, the objects are in a state that satisfies the invariant of that key, whatever happened to other keys. |
| DiskCaches.DiskHitHandler.Seek | src/disk_cache/handle_hit.rs:90-119 | Accepts exactly the ranges inside the body; then exactly the range asked for is left to be read, from its start. A rejected seek changes nothing. |
| DiskCaches.DiskHitHandler.ReadRange | src/disk_cache/handle_hit.rs:30-70 | Is the specified read on the open file, for every outcome of its file calls. |
| DiskCaches.DiskHitHandler.ReadBody | src/disk_cache/handle_hit.rs:30-70 | Is the specified read and the read of the step machine, for every outcome of its file calls. |
| DiskCaches.DiskHitHandler.NextReadIsolated | src/disk_cache/handle_hit.rs:30-70 | Unless a finish has copied onto the very file it has open, the next read of a hit handler, if it works, returns the next bytes of the body as it was when the handler was opened, as many as the buffer and the call give, and it reports the end exactly when the whole range was returned. |
| DiskCaches.DiskHitHandler.WeightOfBody | src/disk_cache/handle_hit.rs:122-125 | Under the same condition the eviction weight is the length of that body, however far it has been read. |
| DiskCaches.DiskHitHandler.WeightIsSize | src/disk_cache/handle_hit.rs:122-125 | For a key that no finish has copied onto, the eviction weight of a hit handler is the size that the finish of its body reported, exactly when no failed write left bytes behind, and otherwise more. |
| DiskCaches.DiskHitHandler.Finish | src/disk_cache/handle_hit.rs:73-82 | Counts one served hit and ends the handler. |
| DiskCaches.DiskMissHandler.WriteBody | src/disk_cache/handle_miss.rs:57-81 | Appends the data and counts it, or fails and counts nothing, possibly leaving a prefix; no lookup sees any of it. |
| DiskCaches.DiskMissHandler.PlaceBody | src/disk_cache/handle_miss.rs:91-116 | Promotes the tmp file by rename or else by copy, with the error exits of the step machine. |
| DiskCaches.DiskMissHandler.CopyBody | src/disk_cache/handle_miss.rs:103-116 | Copies the tmp file onto the emptied body as the step machine does, and removes it. |
| DiskCaches.DiskMissHandler.WriteMetas | src/disk_cache/handle_miss.rs:118-132 | Writes meta, then hdr, and counts the entry only after both. |
| DiskCaches.DiskMissHandler.Finish | src/disk_cache/handle_miss.rs:84-133 | Is the finish of the step machine; it creates the entry with exactly the draft, or fails and touches no other key. |
| DiskCaches.DiskMissHandler.Drop | src/disk_cache/handle_miss.rs:144-148 | Removes the tmp file and shows nothing to lookups. |
| Stores.DiskLookupIsLookup | src/disk_cache/mod.rs:121-189 | The lookup of a disk cache answers as a store with its entries does exactly if nothing fails or there is no entry and the root is there; and whatever entry it shows, even if something failed, is the one on disk. |
| Stores.DiskPurgeIsPurge | src/disk_cache/mod.rs:229-263 | The purge of a disk cache conducts itself as the purge of a store, soundly if nothing fails and every body has its meta and hdr. |
| Stores.DiskUpdateIsUpdate | src/disk_cache/mod.rs:266-300 | The meta update of a disk cache conducts itself as the update of a store, soundly if nothing fails and every body has its meta and hdr. |
| Stores.DiskFinishIsCommit | src/disk_cache/handle_miss.rs:84-133 | The finish of a disk miss handler conducts itself as the commit of a store, soundly whenever it reports success. |
| Tiered.TieredStorage.Lookup | src/tiered/mod.rs:77-101 | Tries the primary, then the secondary only after a miss; an error of the primary ends the call; without errors it finds what is visible. |
| Tiered.TieredStorage.GetMissHandler | src/tiered/mod.rs:104-130 | Whatever the write policy, the handler admits into the primary and not into the secondary. |
| Tiered.TieredStorage.Purge | src/tiered/mod.rs:133-168 | Drives the two stores as specified, never failing. |
| Tiered.TieredStorage.UpdateMeta | src/tiered/mod.rs:171-191 | Drives the two stores as specified. |
| Tiered.PrimaryComesFirst | src/tiered/mod.rs:85-97 | The secondary is asked exactly if the primary answers and has nothing; an error of the primary ends the call, with or without a secondary. |
| Tiered.EvictionShowsThrough | src/tiered/mod.rs:143-147 | An eviction leaves the secondary alone, so that its entry shows through; an error counts as "did not exist". |
| Tiered.InvalidationReachesBoth | src/tiered/mod.rs:148-163 | A failing primary does not keep an invalidation from the secondary; without errors the key is gone and the answer is whether it was visible. |
| Tiered.UpdateKeepsBodies | src/tiered/mod.rs:181-187 | An update keeps every visible body and changes one key's visible meta only; an error of the primary leaves the secondary untouched, one of the secondary never fails the call. |
| Tiered.TieredRefinement | src/tiered/mod.rs:77-191 | In every run without errors, every answer of a lookup, purge or update is the one that looking back through the history of its key calls for, and so is what the run leaves visible of every key: its latest commit, what an eviction uncovered, or nothing after an invalidation. |
| Tiered.NoSecondary | src/tiered/mod.rs:88-97 | Without a secondary the tiered store is its primary. |
| FanOut.FanoutMiss.WriteBody | src/tiered/fan_out.rs:21-40 | The secondary gets a chunk only after the primary took it, and its failures are ignored. |
| FanOut.FanoutMiss.Finish | src/tiered/fan_out.rs:43-71 | The primary is finished first and gives the result; the secondary is finished only if that worked. |
| FanOut.PrimaryTakesAll | src/tiered/fan_out.rs:25-29 | If the primary takes every chunk, it holds their concatenation whatever happens to the secondary. |
| FanOut.SecondaryFollows | src/tiered/fan_out.rs:31-36 | If failed secondary writes leave nothing behind, the secondary holds exactly the chunks that succeeded, in order. |
| FanOut.DraftsAgree | src/tiered/fan_out.rs:21-40 | Both drafts are the same as long as the secondary takes what the primary takes. |
| FanOut.FanOutAgreement | src/tiered/fan_out.rs:21-71 | A finished stream commits the concatenation to the primary with the primary's result, and to the secondary the same or exactly the chunks that succeeded. |
| Restart.CastsInvert | src/disk_cache/cache_statistics.rs:54 | The conversion from `i64` to `u64` and back loses nothing, also for negative gauges. |
| Restart.Process.constructor | src/disk_cache/mod.rs:76-94 | A process starts with the size in a readable statistics file, and with zero otherwise. |
| Restart.Process.Change | src/metrics.rs:28 | At every moment the gauge shows the carried size plus all changes since the start, wrapped to 64 bits: wrapping at each change comes to wrapping their sum. |
| Restart.Process.Start | src/disk_cache/cache_statistics.rs:40-66 | The shutdown write makes the next process start with the gauge as it is, with a stale size or with zero, depending on its outcome; this is the next start of the session made of all changes so far. |
| Restart.HandedOn | src/disk_cache/cache_statistics.rs:43-60 | After a successful write, the next process starts with the final gauge exactly when the changes that came after the write cancel out. |
| Restart.LivesConserve | src/metrics.rs:28 | Over any number of restarts, the gauge is the first starting size plus everything reported as created minus everything counted as evicted, up to 64-bit wrap-around. |
| Requests.PlainRoundTrip | src/utils.rs:70-80 | A plain host with any optional port is parsed back as printed. |
| Requests.BracketRoundTrip | src/utils.rs:60-66 | A bracketed literal without ']' with any optional port is parsed back as printed. |
| Requests.UnwrappedOuter | src/utils.rs:54 | Trailing slashes, with whitespace around it all, are gone for good exactly if there is no whitespace in front of them, or nothing else. |
| Requests.OuterInvariance | src/utils.rs:52-83 | The result is the same with outer whitespace and trailing slashes as without exactly if there is no whitespace in front of the slashes, or nothing else, or else no port follows the brackets, or the text without brackets is rejected either way, or it has a colon but no port behind it, and neither '/' nor ' '. |
| Requests.AcceptedHosts | src/utils.rs:52-83 | An accepted host has no ':', '/' or ' ', or, in brackets, no ']'; a port is below 65536. |
| Requests.RejectedExactly | src/utils.rs:52-83 | What is rejected, always with status 400: nothing at all, an open bracket without a closing one, and a slash or a space outside of brackets. |
| Requests.PortsExactly | src/utils.rs:66-79 | A port is a decimal number below 65536, perhaps with a plus sign or zeros in front; any other text counts as no port. |
| Requests.SpacesAre | src/utils.rs:54 | What `trim` takes away, character by character. |
| Requests.EmptyHostAccepted | src/utils.rs:60-79 | A Host header is accepted with an empty host exactly if, trimmed, it starts with "[]", or starts with a colon and has no '/' and no ' '. |
| Requests.SameHost | src/proxy.rs:64-77 | Upstream selection and key construction succeed for the same requests, and see the same host and port. |
| Requests.PeerExactly | src/proxy.rs:64-93 | For every request: the error without a Host header and with a malformed one; else TLS exactly if ":scheme", or without it x-forwarded-proto, spells https in any case, or without either the request came through the https listener, or the port is 443; the port given, or else 443 or 80 by scheme; the host, and it as sni exactly with TLS. |
| Requests.KeyText | src/proxy.rs:126-148 | The primary key of every request, letter by letter: "https://" or "http://" by the same rule, the host in lower case, and the path, none counting as "/". |
| Requests.KeyExactly | src/proxy.rs:126-148 | For slash-free hosts and paths that begin with a slash, two requests have the same key exactly when they agree in whether they count as https, in the host ignoring case, and in the path. |
| Requests.KeysApart | src/proxy.rs:144-148 | Two primary keys are equal exactly when the schemes agree and host and path put together do. |
| Requests.SharedBodySharedOrigin | src/proxy.rs:59-97 | Requests with one key go to the same host, and to the same origin exactly when their explicit or implied ports agree; so always when neither gives a port. |
| Requests.PortsCollide | src/proxy.rs:133-148 | Two ports of one host share every key, though not the upstream. |
| Requests.BracketsCollide | src/utils.rs:63-66 | Two different bracketed hosts can share a key. |
| HtmlEscape.EscapeFuses | src/utils.rs:87-89 | The three replacements equal one pass that maps each character on its own. |
| HtmlEscape.NothingOpensATag | src/utils.rs:87-89 | The output has no '<' and no '>'. |
| HtmlEscape.UnescapeInverts | src/utils.rs:87-89 | Unescaping recovers the text. |
| HtmlEscape.OrderMatters | src/utils.rs:88 | Replacing '&' last would give the same text exactly for texts without '<' and '>'. |

## Left out

- ReaderIsolation.SnapshotIsolation: assumes that no finish copies onto the opened file, because the copy truncates it in place and the property is then false (`IsolatedExactlyIfUncopied`, `FallbackCutsReader`).
- SnapshotSafety.NoPartialBody: assumes that no finish of the key falls back to copying, because a copy makes the body appear piece by piece; what a failed copy leaves is in `FinishOutcome`.
- Restart.LivesConserve: assumes that each shutdown write succeeds and comes after the last change; `HandedOn` says what happens otherwise.
- Asynchronous scheduling below one file system call, buffering, permissions and the causes of failures: a call works or fails, and a write may do part of its work.
- Dropping the future of `get_miss_handler` between its awaits, or those of `purge`, `update_meta` and `lookup`; miss handlers and their `finish` can be dropped at every await.
- Creation and removal of the directories above an entry's own, and of the cache root, except that creating the root may fail.
- Two processes writing the same cache directory at the same time.
- The copy loop of `tokio::io::copy` inside whole calls is one chunk; in the step machine it is any number of chunks.
- The counters are one value in the cache object, not an object shared with the handlers; handlers reach them through the cache.
- Logging, tracing, `as_any`, `streaming_write_tag`, and the uptime field.
- The eviction manager, the HTTP cache driver, key hashing and the encoding of `CacheMeta`: not part of this model; they may call in any order.
- The inspector, request and response filters, environment variables, statics, `main`, `hex2str` and the key formatters: single branches or plumbing.
- Name resolution of the selected upstream, and the connection to it.
- The standard library's number parsing, `trim` and `replace` are modelled by their documented behaviour.
