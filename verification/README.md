# A verified model of the concurrent cuckoo hash table

The key-value server keeps its data in one `cuckoohash_map`, a hash table with two candidate buckets
per key, striped spinlocks and lazy doubling (`src/com/libcuckoo/cuckoohash_map.hh`,
`src/com/libcuckoo/bucket_container.hh`). This project models that table in Dafny and proves what its
users rely on. The number of slots per bucket, the number of lock stripes (a power of two) and the hash
function are parameters; keys and values are abstract types. `dafny verify dfyconfig.toml` checks
everything.

The model has two layers.

**The table as objects updated in place.** `Container.BucketContainer` and `CuckooTable.CuckooMap` have
the source's fields, and the source's loops are loops here: lookup, the breadth-first eviction search
with its queue and packed path codes, the displacement of keys along a path, bucket-by-bucket migration,
doubling, expansion into a temporary map, iteration, comparison. A slot is empty, live, or moved-from
(still marked occupied after its entry was moved to the new array). A half-migrated table stands for the
array that an eager rehash would have produced (`Doubling.View`), and the contents of that array are the
plain map against which every operation is specified, entry by entry (`MapSpec.Does`). An insertion doubles
the table exactly as often as it has to (`Insertion.Uprase`), a resize ends at the hash power asked for unless
an entry does not fit there (`Expand.ExpandSimple`), and an exception is thrown exactly when a limit calls for
it.

**The lock protocol as a state machine.** In `Protocol` any number of threads share one table and take
turns, one atomic step at a time: read the hash power (possibly a stale one), look up the current lock
container, take locks one by one, recheck the hash power, migrate old buckets one by one, lower the
counter, release the old buckets, work, let go of the locks one by one. Insertion drops its locks during
the path search and comes back with any path at all. The results hold for every schedule
(`Runs.Exec`) up to the point where the lock array grows, and a table with as many buckets as there can be
locks never grows it (`Runs.NeverGrows`): the table is linearizable, no key is ever stored twice, no thread
sees a bucket change under a lock it holds, the old buckets are released once and not too early, and there
is no deadlock. A command fails only for a reason that holds at that moment, and never merely because
another thread resized the table meanwhile (`Verdicts.ThrowsExactly`, `Runs.EveryRun`). A thread that is left alone gets an
absent key inserted without doubling unless no four evictions make room, whatever others have left unfinished
(`Solo.InsertsAlone`). The doubling, resizing and clearing steps of the state machine take over the very values
that the methods of the object model are proved to produce (`Resize.DoubledImage`, `Resize.RebuiltImage`,
`Resize.ClearedImage`).

Three properties one would expect turn out to hold only under a condition, which is then shown to be exact:

- *Mutual exclusion*. Take a table that has no maximum hash power, or one above the hash power it is
  created with. Two threads exclude each other in every run if and only if the table is created with at
  least as many buckets as there can be locks (`Growth.ExclusionExact`). Below that size the lock array
  can grow, and two things go wrong. A thread that has looked up the old lock container, and waits while
  the table grows and shrinks back to the hash power it has seen, passes the hash power check and enters
  its critical section under locks that nobody else uses any more (`Growth.StaleLocks`). And a thread that
  releases all locks looks for further containers only after releasing the last lock it knows of; if
  another thread has appended a container by then, it releases that thread's locks as well
  (`Growth.OverrunLocks`). The second run never shrinks the table and reads the true hash power throughout,
  and where enough keys share a hash it needs no call for a resize: while one thread is about to return from
  clearing the table, insertions by the other make the lock array grow (`Overrun.OverrunByInserts`,
  `Overrun.OverrunExact`). So appending the container before changing the hash power, on which the source's
  comments rely, is not enough. The default size of 2^16 buckets equals the number of locks, so a
  default-constructed table is safe.
- *Path codes* of 16 bits decode to the path that was encoded if and only if 2 * slots^5 <= 2^16
  (`PathCode.CodeExact`). The guard in the source also admits 9 slots per bucket, where it fails
  (`PathCode.GuardAdmitsNine`).
- *Termination of the insertion loop*. `Insertion.InsertRound` is one round of the loop: it goes on if and
  only if the key is absent, no four evictions make room and the limits allow for doubling, and then the
  table is the doubled one. The number of rounds is bounded as soon as the minimum load factor is positive
  or a maximum hash power is set (`Insertion.RoundsBounded`). On a table that holds 2 * slots keys of the
  hash of an absent key, the loop comes to an end if and only if one of the two is the case
  (`Crowding.StopsExactly`); such tables exist (`Crowding.CrowdFits`), and the loop run on one of them
  without limits is still running after any number of rounds (`Crowding.RoundsOnCrowd`).

The two candidate buckets of a key coincide if and only if its partial key plus one is a multiple of the number
of buckets, hence never from 2^9 buckets on (`Candidates.TwoHomes`). The source only remarks that the tag is
nonzero; what matters is that the multiplier is odd.

The comment on the per-lock element counter says that it counts the elements under its lock. It does not:
displacing a key does not adjust it. Only the sum over all locks is the size of the table, and that is what
is proved.

| file | what it holds |
|---|---|
| `Bits`, `Hashing`, `Candidates` | the two bucket indices of a key, what doubling does to them, and when they coincide |
| `Layout`, `Doubling` | arrays of buckets as plain maps; splitting old buckets; half-migrated tables |
| `Container`, `Capacity`, `Lookup`, `Table` | the container, sizes, scanning a bucket, the map and stripe migration |
| `PathCode`, `Eviction`, `PathSearch`, `PathMove` | path codes, eviction paths, the search, the displacements |
| `MapSpec` | what the operations do to a plain map |
| `Resize`, `Insertion`, `Crowding`, `Filling`, `Expand`, `LockedTable` | doubling, the operations, termination, filling a table, expansion, the locked view |
| `Protocol`, `Safety` | the thread steps and the invariant |
| `Steps`, `Work`, `Whole`, `Verdicts` | every step keeps the invariant; when commands fail and what happens to the hash power |
| `Runs`, `Guarantees`, `Migration`, `Solo` | whole runs: linearizability, absence of races and deadlock, lazy migration, a thread left alone |
| `Growth`, `Overrun` | runs in which the lock array grows |

## Model

| member | source | states |
|---|---|---|
| Hashing.AltInvolution | src/com/libcuckoo/cuckoohash_map.hh:767-778 | the alternate bucket of the alternate bucket is the bucket itself, for every hash power, partial key and in-range index |
| Hashing.AltOfHome | src/com/libcuckoo/cuckoohash_map.hh:763-778 | from either candidate bucket of a key, the alternate index leads to the other one |
| Hashing.PartialKeyIsByte | src/com/libcuckoo/cuckoohash_map.hh:750-759 | folding a 64-bit hash gives a value below 256 |
| Hashing.HomesGrow | src/com/libcuckoo/cuckoohash_map.hh:746-778 | doubling the table adds one bit on top: each candidate bucket stays where it is or moves up by the old size |
| Hashing.StripeOfCopy | src/com/libcuckoo/cuckoohash_map.hh:1093-1095 | a bucket and its upper copy in the doubled table share a lock stripe once the table has at least as many buckets as stripes |
| Candidates.AltFixes | src/com/libcuckoo/cuckoohash_map.hh:771-778 | the alternate of a bucket is the bucket itself if and only if the partial key plus one is a multiple of the number of buckets |
| Candidates.AltSeparates | src/com/libcuckoo/cuckoohash_map.hh:771-778 | two partial keys lead from a bucket to the same alternate if and only if they agree modulo the number of buckets; from 2^8 buckets on only equal ones do |
| Candidates.AltOfZero | src/com/libcuckoo/cuckoohash_map.hh:771-778 | from bucket 0 the partial key 0 leads to the low bits of the multiplier of MurmurHash2 |
| Candidates.TwoHomes | src/com/libcuckoo/cuckoohash_map.hh:763-778 | the two candidate buckets of a key coincide if and only if its partial key plus one is a multiple of the number of buckets, and never from 2^9 buckets on |
| Candidates.PartialOfBytes | src/com/libcuckoo/cuckoohash_map.hh:750-759 | the partial key is the exclusive-or of the eight bytes of the hash |
| Container.BucketContainer.constructor | src/com/libcuckoo/bucket_container.hh:110-122 | a new container has 2^hp empty buckets |
| Container.BucketContainer.SetKV | src/com/libcuckoo/bucket_container.hh:200-212 | writes exactly one unoccupied slot |
| Container.BucketContainer.EraseKV | src/com/libcuckoo/bucket_container.hh:215-220 | empties exactly one occupied slot |
| Container.BucketContainer.Clear | src/com/libcuckoo/bucket_container.hh:224-238 | empties every slot and keeps the size |
| Container.BucketContainer.ClearAndDeallocate | src/com/libcuckoo/bucket_container.hh:243-245 | releases the buckets |
| Container.BucketContainer.Swap | src/com/libcuckoo/bucket_container.hh:167-182 | exchanges buckets and hash power |
| Container.BucketContainer.Transfer | src/com/libcuckoo/bucket_container.hh:317-337 | at the same or a larger size, the new buckets equal the old ones slot by slot and the rest is empty; moving leaves the old slots moved-from but occupied, copying leaves them as they were |
| Capacity.ReserveCalc | src/com/libcuckoo/cuckoohash_map.hh:2001-2008 | the capacity at the result holds n exactly when n <= 2^64 - slots (beyond that the 64-bit sum wraps), and then the result is the least such hash power |
| Capacity.ReserveInverts | src/com/libcuckoo/cuckoohash_map.hh:1855-1856 | reserving exactly the capacity of a hash power gives that hash power |
| Lookup.TryReadFromBucket | src/com/libcuckoo/cuckoohash_map.hh:1142-1155 | the first slot holding the key, or -1 if no slot does |
| Lookup.TryFindInsertBucket | src/com/libcuckoo/cuckoohash_map.hh:1287-1307 | refuses exactly when the key is present, with its slot; otherwise the last free slot, or -1 if the bucket is full |
| Layout.AddEntry | src/com/libcuckoo/cuckoohash_map.hh:1274-1280 | writing an absent key to a free slot of a candidate bucket keeps the layout and adds exactly that entry to the map |
| Layout.RemoveEntry | src/com/libcuckoo/cuckoohash_map.hh:1960-1963 | emptying a live slot keeps the layout and removes exactly its key from the map |
| Layout.DisplaceEntry | src/com/libcuckoo/cuckoohash_map.hh:1513-1515 | moving a live slot to a free slot of its alternate bucket keeps the layout and the map |
| Layout.WithinCapacity | src/com/libcuckoo/cuckoohash_map.hh:359-361 | a table never holds more entries than slots |
| CuckooTable.LookupOk | src/com/libcuckoo/cuckoohash_map.hh:1126-1138 | a key is in the map if and only if one of its two buckets holds it, and then with the map's value |
| Doubling.DoubledCorrect | src/com/libcuckoo/cuckoohash_map.hh:1736-1780 | splitting every old bucket puts every entry into one of its two buckets at the new hash power, in a slot of its own, and loses and duplicates nothing |
| Doubling.MoveBucketView | src/com/libcuckoo/cuckoohash_map.hh:1736-1780 | moving one old bucket, whichever it is, keeps the array a half-migrated table stands for and the shape of both arrays |
| Doubling.DoubleView | src/com/libcuckoo/cuckoohash_map.hh:1693-1732 | right after the arrays are exchanged the table stands for the eagerly rehashed array, with the same contents |
| Doubling.ViewEntries | src/com/libcuckoo/cuckoohash_map.hh:933-954 | the logical map is exactly the live slots of the new array together with those of the old one |
| Doubling.NoKeyTwice | src/com/libcuckoo/cuckoohash_map.hh:933-954 | no key is live twice in the new array, twice in the old one, or once in each |
| CuckooTable.CuckooMap.constructor | src/com/libcuckoo/cuckoohash_map.hh:104-117 | an empty map with room for n, at the least hash power that has it, one lock per bucket up to the number of stripes, and the default limits |
| CuckooTable.CuckooMap.MoveBucket | src/com/libcuckoo/cuckoohash_map.hh:1736-1780 | the slot loop turns the two new buckets into the low and high part of the old one and leaves the old slots moved-from |
| CuckooTable.CuckooMap.RehashLock | src/com/libcuckoo/cuckoohash_map.hh:932-954 | migrates exactly the stripe's buckets: only its flag changes, and what the table stands for and the counters do not |
| CuckooTable.CuckooMap.DecrementRemaining | src/com/libcuckoo/cuckoohash_map.hh:2032-2039 | the counter goes down by one and the old buckets are released exactly when it reaches zero, by which time the table does not need them |
| CuckooTable.CuckooMap.LockBucket | src/com/libcuckoo/cuckoohash_map.hh:963-971 | afterwards the bucket can be used in the new array, its stripe and no other has been migrated, and the map is unchanged |
| CuckooTable.CuckooMap.LockTwo | src/com/libcuckoo/cuckoohash_map.hh:982-998 | afterwards both buckets can be used in the new array, whether or not they share a stripe, and no other stripe has been migrated |
| CuckooTable.CuckooMap.SnapshotAndLockTwo | src/com/libcuckoo/cuckoohash_map.hh:1048-1062 | the key's two buckets at the current hash power, both ready, and nothing else migrated |
| CuckooTable.CuckooMap.CuckooFind | src/com/libcuckoo/cuckoohash_map.hh:1126-1138 | found if and only if the key is in the logical map, at a position holding the map's value |
| CuckooTable.CuckooMap.AddToBucket | src/com/libcuckoo/cuckoohash_map.hh:1274-1280 | the logical map gains exactly the entry; the stripe's counter goes up by one |
| CuckooTable.CuckooMap.DelFromBucket | src/com/libcuckoo/cuckoohash_map.hh:1960-1963 | the logical map loses exactly the key; the stripe's counter goes down by one |
| CuckooTable.CuckooMap.MoveEntry | src/com/libcuckoo/cuckoohash_map.hh:1513-1515 | a displacement keeps the logical map and frees the slot it came from |
| CuckooTable.ReleaseOk | src/com/libcuckoo/cuckoohash_map.hh:2025-2031 | once every stripe is migrated the new array is the whole table and the old one can go |
| PathCode.DecodeCode | src/com/libcuckoo/cuckoohash_map.hh:1403-1419 | decoding a code gives back the slots and the starting bucket it was made from |
| PathCode.CodeDecode | src/com/libcuckoo/cuckoohash_map.hh:1403-1419 | encoding what was decoded gives back the code |
| PathCode.CodeExact | src/com/libcuckoo/cuckoohash_map.hh:1532-1558 | all walks of n slots survive packing into 16 bits if and only if 2 * slots^n <= 2^16 |
| PathCode.GuardAdmitsNine | src/com/libcuckoo/cuckoohash_map.hh:1540-1542 | nine slots per bucket pass the guard although some code does not survive |
| Eviction.Search.PathIsSimple | src/com/libcuckoo/cuckoohash_map.hh:1606-1649 | a shortest eviction path never visits a bucket twice |
| Eviction.Search.KnownIsFull | src/com/libcuckoo/cuckoohash_map.hh:1612-1649 | if the search has expanded all nodes of a depth, every bucket within that many evictions is full |
| Eviction.QueueIsTwoTrees | src/com/libcuckoo/cuckoohash_map.hh:1582-1596 | the queue's size is that of two full trees of the search depth, for one slot per bucket as for many |
| PathSearch.RoomForKid | src/com/libcuckoo/cuckoohash_map.hh:1561-1604 | whenever the search queues a child there is room for it |
| PathSearch.BQueue.Enqueue | src/com/libcuckoo/cuckoohash_map.hh:1565-1568 | appends behind what is queued |
| PathSearch.BQueue.Dequeue | src/com/libcuckoo/cuckoohash_map.hh:1570-1575 | takes the oldest entry |
| PathSearch.ScanBucket | src/com/libcuckoo/cuckoohash_map.hh:1622-1645 | returns a free slot, or -1 after queueing a child for every slot of the full bucket |
| PathSearch.SlotSearch | src/com/libcuckoo/cuckoohash_map.hh:1612-1649 | finds a shortest walk to a bucket with a free slot and packs it; reports failure only when every bucket within four evictions is full; the table stands for the same array afterwards |
| PathMove.DecodeSlots | src/com/libcuckoo/cuckoohash_map.hh:1403-1407 | fills the path with the slots that were encoded and ends with the starting bucket's bit |
| PathMove.CuckooPathSearch | src/com/libcuckoo/cuckoohash_map.hh:1396-1447 | -1 if and only if every bucket within four evictions is full; otherwise the records form a chain of distinct buckets ending in a free slot, rebuilt from key hashes |
| PathMove.ChainShrinks | src/com/libcuckoo/cuckoohash_map.hh:1457-1523 | displacing the last entry of a chain leaves a chain that is shorter by one |
| PathMove.LockThree | src/com/libcuckoo/cuckoohash_map.hh:1012-1040 | afterwards all three buckets are ready, however their stripes coincide |
| PathMove.CuckooPathMove | src/com/libcuckoo/cuckoohash_map.hh:1457-1523 | without interference every recheck passes; the map and the counters are unchanged, the first slot of the path is free and both buckets of the key are ready |
| PathMove.RunCuckoo | src/com/libcuckoo/cuckoohash_map.hh:1334-1386 | without interference the first attempt decides; it succeeds if and only if some bucket within four evictions has a free slot |
| Resize.ValidityExact | src/com/libcuckoo/cuckoohash_map.hh:1787-1804 | the resize check fails for the maximum if and only if the new hash power is above it; else for the load if and only if the resize is automatic and entries < limit * capacity; else it succeeds if and only if the hash power is the expected one |
| Resize.MaybeResizeLocks | src/com/libcuckoo/cuckoohash_map.hh:1816-1831 | appends a lock container exactly when there are fewer locks than stripes and than buckets, as long as the smaller of the two, with the old locks copied and the others clean; the containers there were stay as they are |
| Resize.GrownOk | src/com/libcuckoo/cuckoohash_map.hh:1806-1831 | growing the lock array keeps the sum of the counters and covers every bucket of the larger table |
| Resize.RehashAll | src/com/libcuckoo/cuckoohash_map.hh:1942-1954 | migrates what is left, in any order, and releases the old buckets; the table stands for the same array |
| Resize.FastDouble | src/com/libcuckoo/cuckoohash_map.hh:1651-1734 | refused with the exception or status that maximum, load and hash power call for, exactly then, and then unchanged; otherwise the hash power grows by one, the table stands for the doubled array and the map is the same; in normal mode everything is left to migrate exactly if there are at least as many buckets as stripes and nothing otherwise, and arrays, locks and counter are those of the state machine's doubling step |
| Insertion.CuckooInsert | src/com/libcuckoo/cuckoohash_map.hh:1216-1269 | duplicate if and only if the key is present; full if and only if it is absent and no four evictions make room; otherwise a free slot in a candidate bucket, in the first one if that has room, and nothing is evicted if either has |
| Insertion.DoublingsBounded | src/com/libcuckoo/cuckoohash_map.hh:1787-1804 | a table full enough to be doubled has been doubled fewer than d times, for any d with minimum load * 2^d > 1 |
| Insertion.InsertRound | src/com/libcuckoo/cuckoohash_map.hh:1172-1196 | with whatever limits, one round of the insertion loop goes on if and only if the key is absent, no four evictions make room and the limits allow for doubling, and then the table is the doubled one; otherwise it has settled the insertion |
| Insertion.InsertRounds | src/com/libcuckoo/cuckoohash_map.hh:1172-1196 | with whatever limits, the loop is still running after n rounds if and only if each of the n successively doubled tables calls for another round; a loop that has come to an end did so after the first table that does not |
| Insertion.RoundsBounded | src/com/libcuckoo/cuckoohash_map.hh:1787-1804 | a loop still running after n rounds has n <= d for any d with minimum load * 2^d > 1, and has not passed the maximum hash power |
| Insertion.CuckooInsertLoop | src/com/libcuckoo/cuckoohash_map.hh:1172-1196 | with a limit set the loop terminates, within d doublings for any such d, after exactly as many doublings as the successively doubled tables call for, with room for the key, the key's position, or, if and only if the last table has no room, the exception whose condition holds |
| MapSpec.DoesIsAfter | src/com/libcuckoo/cuckoohash_map.hh:465-561 | telling an operation entry by entry and giving the map and answer it leads to are the same |
| Insertion.RunOnKey | src/com/libcuckoo/cuckoohash_map.hh:465-524 | find, update and erase: a stored value v becomes v, f(v), g(v) or is removed as g says, all other entries stay, the old value or a miss is reported, and only the stripes of the key's buckets are migrated |
| Insertion.Uprase | src/com/libcuckoo/cuckoohash_map.hh:547-561 | inserts the value for an absent key, treats a present one as erase does, leaves all other entries alone; doubles the table exactly as often as the loop has to, not at all if the key is present or some four evictions make room, and migrates no other stripes than the key's if the key is present or one of its buckets has room; throws if and only if there is still no room, for the limit that forbids doubling, with the map unchanged |
| Insertion.Clear | src/com/libcuckoo/cuckoohash_map.hh:1967-1976 | the map is empty, every counter is zero and every flag set, whatever was still to be migrated; what is left is what the state machine's clearing step leaves |
| Crowding.NeverRoom | src/com/libcuckoo/cuckoohash_map.hh:1172-1196 | with 2 * slots keys of one hash stored, no eviction makes room for another, and a load limit of zero never stops the doubling |
| Crowding.CrowdedRounds | src/com/libcuckoo/cuckoohash_map.hh:1172-1196 | after any number of doublings such a table still has no room |
| Crowding.DoublingForever | src/com/libcuckoo/cuckoohash_map.hh:1172-1196 | without limits every round on such a table calls for another one |
| Crowding.StopsExactly | src/com/libcuckoo/cuckoohash_map.hh:1172-1196 | on such a table the insertion loop comes to an end if and only if the minimum load is positive or a maximum hash power is set |
| Crowding.RoundsOnCrowd | src/com/libcuckoo/cuckoohash_map.hh:1172-1196 | the loop itself, run for n rounds on such a table without limits, has doubled it n times and is not done |
| Crowding.CrowdFits | src/com/libcuckoo/cuckoohash_map.hh:1172-1196 | such tables exist at every hash power at which the hash has two different buckets |
| Filling.MakesRoom | src/com/libcuckoo/cuckoohash_map.hh:1457-1523 | wherever a walk of evictions, shortest or not, reaches a bucket with a free slot, displacements free a slot in a candidate bucket of the key and keep the map |
| Filling.FitsOrCramps | src/com/libcuckoo/cuckoohash_map.hh:1855-1877 | any entries can be stored at any given hash power, or inserting them may come to a point where the next one does not fit |
| Expand.ParallelRanges | src/com/libcuckoo/cuckoohash_map.hh:1899-1940 | the ranges of the workers are consecutive and cover the work exactly, for any number of workers, and all but the last are equally long |
| Expand.WorkIsPartitioned | src/com/libcuckoo/cuckoohash_map.hh:1899-1940 | every index falls to exactly one worker |
| Expand.CopyAll | src/com/libcuckoo/cuckoohash_map.hh:1859-1877 | inserting all entries into the temporary map, in any order, reproduces the map unless an insertion throws; then the source slots reached are moved-from and the others as they were; the temporary map is doubled only from hash powers at which part of the entries leave no room for another although they meet the load limit, and an exception means that they do not meet it |
| Expand.Adopt | src/com/libcuckoo/cuckoohash_map.hh:1882-1886 | exchanging buckets with the temporary map takes over its map and hash power and keeps the invariant, the old counters included |
| Expand.ExpandSimple | src/com/libcuckoo/cuckoohash_map.hh:1840-1888 | refused exactly as maximum and load call for; else, growing or shrinking, a normal return means the map unchanged, nothing left to migrate, and the hash power asked for, or a higher one if at every lower one from there on part of the entries leave no room for another; an empty map always ends at the hash power asked for; arrays, locks and counter are as in the state machine's rebuilding step; an exception midway is the load limit's, occurs only if part of the entries are too few and leave no room, and leaves the slots reached moved-from and the others as they were |
| LockedTable.Size | src/com/libcuckoo/cuckoohash_map.hh:334-344 | the sum of the counters is the number of entries, in whatever state of migration |
| LockedTable.ConstIterator.constructor | src/com/libcuckoo/cuckoohash_map.hh:2260-2267 | starts at the given slot if it is live and at the next live one otherwise |
| LockedTable.ConstIterator.Inc | src/com/libcuckoo/cuckoohash_map.hh:2178-2192 | goes to the next live slot, or to the end |
| LockedTable.ConstIterator.Dec | src/com/libcuckoo/cuckoohash_map.hh:2204-2224 | goes to the previous live slot |
| LockedTable.BackFromNext | src/com/libcuckoo/cuckoohash_map.hh:2178-2224 | stepping back undoes stepping forward |
| LockedTable.NextFromBack | src/com/libcuckoo/cuckoohash_map.hh:2178-2224 | stepping forward undoes stepping back |
| LockedTable.Traverse | src/com/libcuckoo/cuckoohash_map.hh:2434-2460 | iterating from begin to end visits every live slot once, in position order, in as many steps as there are entries |
| LockedTable.EraseAt | src/com/libcuckoo/cuckoohash_map.hh:2493-2501 | removes the key at the iterator and returns the position of its successor |
| LockedTable.Equal | src/com/libcuckoo/cuckoohash_map.hh:2633-2644 | true if and only if the two maps are equal, although only one inclusion and the sizes are compared |
| LockedTable.NotEqual | src/com/libcuckoo/cuckoohash_map.hh:2646-2657 | true if and only if the two maps differ |
| Steps.PairIsLadder | src/com/libcuckoo/cuckoohash_map.hh:865-884 | two stripes are locked in ascending order, each once, and the managers release exactly these |
| Steps.TripleIsLadder | src/com/libcuckoo/cuckoohash_map.hh:1012-1040 | likewise for three stripes sorted by three exchanges, however many coincide |
| Steps.WantIsLadder | src/com/libcuckoo/cuckoohash_map.hh:963-1090 | every list of locks that any operation goes for is strictly ascending |
| Steps.CheckOk | src/com/libcuckoo/cuckoohash_map.hh:909-915 | a changed hash power sends the thread back without any lock; otherwise it holds what it needs to go on |
| Steps.MoveBucketOk | src/com/libcuckoo/cuckoohash_map.hh:943-948 | moving one old bucket amid other threads keeps the invariant and the shared map |
| Steps.CountOk | src/com/libcuckoo/cuckoohash_map.hh:2032-2039 | lowering the counter keeps it equal to the un-migrated stripes plus the threads about to lower it |
| Steps.FreeOk | src/com/libcuckoo/cuckoohash_map.hh:2032-2039 | releasing the old buckets keeps the invariant and the shared map |
| Safety.PcOkStable | src/com/libcuckoo/cuckoohash_map.hh:1042-1062 | what a thread relies on depends only on the stripes it holds |
| Work.FindIs | src/com/libcuckoo/cuckoohash_map.hh:1126-1138 | with both stripes locked and migrated, scanning two buckets gives the shared map's answer |
| Work.KeyOk | src/com/libcuckoo/cuckoohash_map.hh:465-561 | find, update, erase and the first attempt to insert treat the shared map entry by entry as told for a plain map, and answer from it |
| Work.FreeSlotIsFree | src/com/libcuckoo/cuckoohash_map.hh:1216-1240 | room is found if and only if one of the key's two buckets has a free slot, and in the first one if that has |
| Work.ShiftOk | src/com/libcuckoo/cuckoohash_map.hh:1457-1523 | one displacement along any path, found at any time, keeps the shared map and the placement of all keys; if anything on the path has changed, nothing is written and all locks are given up |
| Work.SettleOk | src/com/libcuckoo/cuckoohash_map.hh:1460-1476 | a path without displacements is taken only if its slot is still free, with both stripes held |
| Work.ReadyOk | src/com/libcuckoo/cuckoohash_map.hh:1245-1263 | after a path the key is looked up again, so that it is inserted only if still absent, into a slot still free |
| Whole.Alone | src/com/libcuckoo/cuckoohash_map.hh:1064-1090 | a thread that holds all locks is the only one inside any critical section |
| Whole.DoubleOk | src/com/libcuckoo/cuckoohash_map.hh:1655-1734 | doubling amid other threads, lazy or eager or refused, keeps the invariant and the shared map; it ends an insertion only with an exception whose condition holds |
| Whole.RebuildOk | src/com/libcuckoo/cuckoohash_map.hh:1840-1888 | an explicit resize amid other threads, growing or shrinking into any well-formed array of the same contents, keeps the invariant and the shared map; the hash power is the one asked for unless an entry may not fit there; it fails if and only if the maximum is below |
| Whole.WipeOk | src/com/libcuckoo/cuckoohash_map.hh:678-681 | clearing amid other threads empties the shared map |
| Whole.StepOk | src/com/libcuckoo/cuckoohash_map.hh:933-1062 | every step of every thread keeps the invariant, changes the shared map only when it commits a command and exactly as that command says, and changes the hash power only by a resize or by a doubling that the limits allow |
| Verdicts.DoubleExact | src/com/libcuckoo/cuckoohash_map.hh:1172-1196 | a thread about to double fails if and only if the next hash power is above the maximum or there are too few entries, with that exception; otherwise it starts over with its operation, on the doubled table unless the hash power has changed meanwhile |
| Verdicts.ThrowsExactly | src/com/libcuckoo/cuckoohash_map.hh:1787-1804 | a step ends an operation on a key with an exception if and only if it is an insertion about to double that a limit forbids to |
| Verdicts.StepGrows | src/com/libcuckoo/cuckoohash_map.hh:1816-1831 | only a doubling or a resize appends a lock container, one at a time, with more locks but no more than stripes, all of them held |
| Verdicts.StepInBounds | src/com/libcuckoo/cuckoohash_map.hh:1787-1804 | also when the lock array grows, the hash power changes only by a resize to what was asked for or more, or by a doubling within the maximum and with enough entries |
| Verdicts.StepFinds | src/com/libcuckoo/cuckoohash_map.hh:1172-1196 | a step leaves the hash power at which a thread searches and gives up as it is, or sets it to that of the table |
| Runs.InvAlways | src/com/libcuckoo/cuckoohash_map.hh:909-1095 | the invariant holds in every state of every run until the lock array grows |
| Runs.NeverGrows | src/com/libcuckoo/cuckoohash_map.hh:1816-1831 | with as many locks as there can be, the lock array never grows in any run |
| Runs.Linearizable | src/com/libcuckoo/cuckoohash_map.hh:465-561 | executing the commands one at a time in the order of their effects gives the shared map and exactly the outcomes handed out; every exception is called for by the limits, the entries and the hash power at that point, and every change of the hash power has its reason |
| Runs.FoundIsSeen | src/com/libcuckoo/cuckoohash_map.hh:1172-1196 | in every run the hash power at which a thread searches or gives up is one the table had at an earlier step of that thread |
| Runs.Bracketed | src/com/libcuckoo/cuckoohash_map.hh:465-561 | every command takes effect exactly once between its invocation and its return, and returns that outcome |
| Runs.EveryRun | src/com/libcuckoo/cuckoohash_map.hh:465-561 | both halves together for every run from an empty table of any size until its lock array grows, hence for ever if it has as many buckets as there can be locks; an insertion fails only because the hash power after one it has seen is above the maximum or because there are too few entries then; the counters add up to the size of the map throughout |
| Guarantees.WritesConfined | src/com/libcuckoo/cuckoohash_map.hh:1042-1062 | a critical section writes only to buckets under its own locks |
| Guarantees.NoInterference | src/com/libcuckoo/cuckoohash_map.hh:1042-1062 | no step of any thread changes the hash power, a bucket or a migration flag under a stripe that another thread holds |
| Guarantees.StoredOnce | src/com/libcuckoo/cuckoohash_map.hh:1216-1269 | in every state that satisfies the invariant no key occupies two live slots of the two arrays |
| Guarantees.MoverHasSource | src/com/libcuckoo/cuckoohash_map.hh:933-954 | while a thread moves entries the old buckets are there and the counter is positive |
| Guarantees.ReleasedOnce | src/com/libcuckoo/cuckoohash_map.hh:2019-2039 | a thread that releases the old buckets is the only one to do so; every stripe is migrated, no entry is left behind and no thread is moving any |
| Guarantees.WaitsUpwards | src/com/libcuckoo/cuckoohash_map.hh:963-1090 | a thread waits only for a thread that, if it waits too, waits for a higher lock |
| Guarantees.NoDeadlock | src/com/libcuckoo/cuckoohash_map.hh:963-1090 | as long as some thread is at work, some thread can take a step |
| Solo.ApproachRun | src/com/libcuckoo/cuckoohash_map.hh:909-954 | a thread left alone gets from looking up its locks to its critical section, whatever is left to migrate, and the table stands for the same array |
| Solo.PathExists | src/com/libcuckoo/cuckoohash_map.hh:1396-1447 | unless no four evictions make room for a key, there is a path for it that the search can write down |
| Solo.PathRun | src/com/libcuckoo/cuckoohash_map.hh:1457-1523 | a thread left alone follows any path that fits the table to its end, with both buckets of the key held and a free slot in one of them |
| Solo.InsertsAlone | src/com/libcuckoo/cuckoohash_map.hh:1172-1269 | whatever others have left unfinished, as long as they hold no lock, an idle thread left alone inserts an absent key without doubling, unless no four evictions make room |
| Solo.PeekAlone | src/com/libcuckoo/cuckoohash_map.hh:1612-1649 | during its search a thread can look at any bucket, which migrates what is left to migrate for it |
| Migration.StepWaits | src/com/libcuckoo/cuckoohash_map.hh:933-954 | every step keeps the new buckets that migration has not reached empty |
| Migration.EmptyUntilMigrated | src/com/libcuckoo/cuckoohash_map.hh:1697-1732 | in every such run the new buckets of a stripe that nobody has migrated or is migrating are empty |
| Growth.SweepAllRun | src/com/libcuckoo/cuckoohash_map.hh:1074-1090 | a thread that takes all locks ends up with those of every lock container there is, from the one it began with |
| Growth.NoCollision | src/com/libcuckoo/cuckoohash_map.hh:1064-1090 | with at least as many buckets as there can be locks at creation, no run lets two threads into critical sections that share a stripe; with fewer, none does before the lock array grows |
| Growth.StaleLocks | src/com/libcuckoo/cuckoohash_map.hh:909-998 | with fewer buckets at creation and no maximum hash power at or below that, for every key and operation some run lets two threads into the critical section of that key |
| Growth.OverrunLocks | src/com/libcuckoo/cuckoohash_map.hh:886-897 | under the same conditions some such run never shrinks the table and always reads the true hash power |
| Growth.ExclusionExact | src/com/libcuckoo/cuckoohash_map.hh:909-1090 | without a maximum hash power at or below the one at creation, two threads exclude each other in every run if and only if the table is created with at least as many buckets as there can be locks; likewise in every run that never shrinks it and reads the true hash power |
| Overrun.OverrunByInserts | src/com/libcuckoo/cuckoohash_map.hh:886-897 | if moreover 2 * slots + 1 keys share a hash that has two buckets, and 2 * slots entries are load enough to double, some such run makes no call for a resize and doubles only when no path makes room |
| Overrun.OverrunExact | src/com/libcuckoo/cuckoohash_map.hh:1806-1831 | for such keys the condition for mutual exclusion in runs without calls for a resize is the same |

## Left out

- The socket server and client, the packet-processing programs, generators, tracers, settings and scripts: they are input and output around the table, and the server's request states cannot be reached from a fresh connection.
- Exchanging, copying and moving whole maps; exchanging maps leaves the old buckets and the migration counter behind and is meaningful only when nothing is left to migrate.
- Allocators, object lifetimes, stream serialization, cache alignment and weak memory: steps are atomic and sequentially consistent. A slot whose entry was moved out is modelled as moved-from.
- The first, unused old-buckets container of a new map is modelled as already released.
- The variant of doubling for types whose move may throw, which falls back to expansion.
- Hash powers of 64 and more, where the source shifts a word by its width.
- Slots per bucket with 2 * slots^5 > 2^16: the table model requires the bound that `PathCode.CodeExact` shows to be exact.
- In the state machine a stale hash power is any for which there are enough locks; this includes every hash power the table has had, because the lock array never shrinks.
- In the state machine the path search is any sequence of single-bucket locks followed by any well-formed path; that the real search finds a shortest one is proved in the object model.
- In the state machine the bodies of doubling, resizing and clearing are single steps, because they run under all locks; their loops are in the object model (`Resize.FastDouble`, `Expand.ExpandSimple`, `Insertion.Clear`).
- The unlocked test by which a resize or a reservation to the current hash power returns early.
- Reading the size without locks, which may be stale by design.
- Expand.CopyAll: takes the workers' insertions into the temporary map one at a time. That they act one at a time is `Runs.EveryRun`, for a temporary map with as many buckets as there can be locks or until its lock array grows.
- Expand.ExpandSimple: after an exception thrown midway it describes the map's own slots; what the temporary map held is destroyed with it.
- In the state machine the minimum load factor and the maximum hash power stay as they are set at creation.
- In the state machine an explicit resize does not fail midway; `Expand.ExpandSimple` says when it can and what is then left.
- Insertion.CuckooInsertLoop: requires a positive minimum load factor or a maximum hash power, without which the source need not terminate (`Crowding.StopsExactly`); `Insertion.InsertRounds` covers the loop without limits, round by round.
- Insertion.Uprase: has the same requirement, for the same reason.
- Whole.RebuildOk: that the new array has the same contents is the guard of the step, and of a hash power above the one asked for it says only that the latter may turn out to be too small; `Expand.ExpandSimple` establishes both and says the same of every hash power in between.
- Runs.EveryRun: covers a table with fewer buckets than stripes only until its lock array grows, because mutual exclusion fails afterwards (`Growth.ExclusionExact`).
- Migration.EmptyUntilMigrated: covers the same runs, for the same reason.
- Growth.ExclusionExact: requires that a maximum hash power, if set, lies above the hash power at creation. Otherwise only a resize that overshoots its target can make the lock array grow, and whether one does depends on the hash function.
- Growth.StaleLocks: has the same requirement.
- Growth.OverrunLocks: has the same requirement.
- Overrun.OverrunExact: says nothing of runs without calls for a resize when no 2 * slots + 1 keys share a hash, or when the load limit is above the load of 2 * slots entries.
