# Lustre LNet and libcfs: a verified model of the message engine

This project models the parts of LNet and libcfs whose correctness rests on invariants that span several functions
and threads, and proves those invariants for every run, every input and every interleaving of the modelled steps.

* **Portals** (`MatchTable`, `MdFill`, `Portal`, `PortalInv`, `PortalSteps`, `PortalAttach`, `PortalTheorems`,
  `PortalVerdicts`, `PortalRace`, `PortalCode`). Incoming messages are matched against hashed lists of match entries, one table for each CPU
  partition (CPT). A bitmap of exhausted lists and a sorted array of enabled tables stand in for a scan. A PUT that
  finds no buffer walks the CPTs on the stealing list while other threads attach buffers.
* **Hash table with incremental rehash** (`Rehash`, `RehashProof`, `RehashTheorems`, `RehashCode`). The table is
  resized bucket by bucket, and the old and the new bucket array share their buckets.
* **Life of a memory descriptor** (`MdLife`): reference count, threshold, ZOMBIE and HANDLING, handlers outside the lock.
* **Tx credits** (`Gate`, `TxCredits`, `TxTheorems`, `TxCode`): two levels of credits with wait queues.
* **Router buffer pool** (`RouterPool`): credits, free buffers, blocked messages, a pool that shrinks and grows.
* **CPT lock** (`PercptLock`) and **workitem scheduler** (`WorkItem`), for any number of threads.
* **Scatter/gather copies** (`IovCopy`) and **page fragments** (`PageFrags`).
* **Path selection** (`PathSelect`) and its **round robin** (`RoundRobin`).
* **CPU partition table** (`CptTable`).

`Common` holds the few definitions that several parts share.

## How to read it

A concurrent part is a state machine: a `State`, a `Step` datatype, `Enabled` and `Apply`, and `IsRun` for a schedule
with its states. The theorems speak about every state of every run. The modules ending in `Code`, and the classes
inside the other modules, hold the code itself: objects and loops that change fields in place, proved against the
functions the machine is built from.

Assumptions about the machines:

* A region under one lock is one step, or several where the code takes a second lock inside. On a portal every region
  under `lnet_ptl_lock` is one step, except that the move of a message from the stealing to the delayed list is two,
  because `lnet_ptl_attach_md` looks at both lists without that lock. The unlocked look, and the unlocked look at
  `mt_enabled`, are steps of their own.
* Which table a message tries first, whether a peer is alive, whether memory can be had, and which thread goes next
  are free choices of the schedule.
* `cfs_hash_bd_compare` is lexicographic on bucket index and offset. The hash of a key is any function into the table
  of the given size; `Rehash.BdFromKey` shows that a hash below 2^bits gives such a location.
* `lnet_md_exhausted` and `lnet_md_unlinkable` are as in `lnet/include/lnet/lib-lnet.h:121-143`.
* At most one thread at a time adjusts the size of a router buffer pool.
* A CPU is in its own sibling and core mask (without this the loops of `cfs_cpt_choose_ncpus` need not end), and the
  masks of the online nodes partition the online CPUs.

Four natural claims turn out not to hold as they stand. Each comes with a concrete case and the exact condition under
which it does hold:

* *No missed match.* A look of an attach is lost if it sees both lists empty while a message that the new buffer takes
  is between the two halves of its move from stealing to delayed (`Portal.LostLook`). A delayed message that an attached
  buffer could take was missed by a lost look of that buffer at that message, at a named step of the run
  (`PortalTheorems.MissedOnlyByRace`, `PortalTheorems.NoMissedMatch`). Conversely, in every reachable state with a
  message between the lists, a look followed by the end of the move leaves the message missed exactly if the look is
  lost (`PortalTheorems.LookLoses`). So a match can be missed if and only if a look can be lost
  (`PortalTheorems.MissedIff`), and with two CPTs it can (`PortalRace.RaceMisses`).
* *The assertion in `lnet_return_rx_credits_locked`* that credits are positive exactly when a buffer is free: while
  `lnet_rtrpool_adjust_bufs` serves blocked messages it drops the lock, and a message that returns its buffer at that
  point finds free buffers and no positive credits (`RouterPool.ReturnAssertionCanFail`). The assertion holds in a
  reachable state exactly when there is no free buffer or there are more of them than blocked messages, and always
  outside that loop (`RouterPool.ReturnAssertionIff`).
* *Round robin stays even.* It does until a 32-bit sequence counter wraps; the next send breaks it
  (`RoundRobin.SendKeepsEven`, `RoundRobin.UnevenAfterWrap`).
* *Every tx queue of a started NI has a credit.* `lnet_startup_lndni` refuses tunables that are zero, and lets negative
  peer credits pass, which can leave a queue without (`TxTheorems.TqCreditsCanBeZero`). It has a credit exactly when
  `max_tx_credits` is positive and moreover the NI has one CPT, or a credit for each CPT, or positive peer credits
  (`TxTheorems.TqCreditsPositive`).

One more observation: for an empty buffer that does not start on a page boundary, `lnet_md_build` counts one fragment
that it does not fill (`PageFrags.CutPages`); the zeroed fragment denotes no bytes.

## Model

| member | source | states |
|---|---|---|
| `MatchTable.ScanFinds` | lnet/lnet/lib-ptl.c:393-409 | the list walk finds a match or drop exactly when some MD on the list takes the message; otherwise the list is unchanged and reported exhausted exactly when no MD on it can match anything |
| `MatchTable.ScanFirst` | lnet/lnet/lib-ptl.c:393-409 | the hit is the first entry in list order that takes the message, it is a drop exactly when the payload does not fit, and only that entry changes |
| `MatchTable.ScanShrinks` | lnet/lnet/lib-ptl.c:137-214 | a walk never lets any MD take a message it could not take before, and never revives an exhausted one |
| `MatchTable.LeftShrinks` | lnet/lnet/lib-ptl.c:200-214 | the same for the one entry that lnet_try_match_md committed to, including auto-unlink of MD and ME |
| `MatchTable.MtPassFacts` | lnet/lnet/lib-ptl.c:388-415 | one pass over a list keeps the exhausted bits honest and reports EXHAUSTED only for a wholly exhausted wildcard table |
| `MatchTable.MtMatchKeeps` | lnet/lnet/lib-ptl.c:374-427 | what a call of lnet_mt_match_md may change, over both of its passes |
| `MatchTable.IndexEqualsScan` | lnet/lnet/lib-ptl.c:374-427 | the indexed search ends with a match or drop exactly when a scan of all 257 lists would find an MD that takes the message |
| `MdFill.LocalFill` | lnet/lnet/lib-ptl.c:170-202 | the messages an MD with locally managed offset accepts lie end to end inside it, pairwise disjoint, each min(rlength, room) long; offset, threshold and references end accordingly |
| `MdFill.RemoteFill` | lnet/lnet/lib-ptl.c:172-202 | with remotely managed offset each message lands where it asks to, inside the MD if it asks for a place inside |
| `MdFill.ScanAnswers` | lnet/lnet/lib-ptl.c:393-409 | the walk answers for the first entry in list order that takes the message: a drop exactly if the message is too big for it and may not be cut |
| `MdFill.ScanEntry` | lnet/lnet/lib-ptl.c:200-214 | that entry keeps its MD, further on, unless the match exhausts an auto-unlink MD; the ME goes exactly with LNET_UNLINK; no other entry changes |
| `MdFill.MtAnswers` | lnet/lnet/lib-ptl.c:374-427 | lnet_mt_match_md answers for the first taker of the ignore list, or else of the hashed list |
| `PortalInv.InsertOk` | lnet/lnet/lib-ptl.c:87-110 | inserting a CPT keeps ptl_mt_maps strictly ascending and adds exactly that CPT |
| `PortalInv.RemoveOk` | lnet/lnet/lib-ptl.c:112-135 | removing a CPT keeps ptl_mt_maps strictly ascending and removes exactly that CPT |
| `PortalInv.CptIsMod` | lnet/lnet/lib-ptl.c:482-482 | the walk's CPT is (first + i) modulo the number of CPTs |
| `PortalInv.CptCovers` | lnet/lnet/lib-ptl.c:478-482 | the walk comes by every CPT exactly once |
| `PortalInv.SweepSplits` | lnet/lnet/lib-ptl.c:676-727 | the sweep past a new MD splits the blocked messages into those taken and those left, each message once |
| `PortalInv.SweepInOrder` | lnet/lnet/lib-ptl.c:676-727 | the messages left on the list are exactly the old list without the taken ones, in the old order |
| `PortalInv.SweepLeavesNone` | lnet/lnet/lib-ptl.c:676-727 | what is left of the new MD can take none of the messages left on the list |
| `PortalInv.SweepShrinks` | lnet/lnet/lib-ptl.c:676-727 | what is left of the new MD takes nothing it did not take at first |
| `PortalSteps.MatchFirstKeeps` | lnet/lnet/lib-ptl.c:562-636 | the first try of a message keeps the portal invariant |
| `PortalSteps.WalkPeekKeeps` | lnet/lnet/lib-ptl.c:484-485 | the unlocked look at mt_enabled keeps the portal invariant |
| `PortalSteps.WalkVisitKeeps` | lnet/lnet/lib-ptl.c:487-543 | one locked iteration of lnet_ptl_match_delay keeps the portal invariant |
| `PortalAttach.MeAttachKeeps` | lnet/lnet/lib-me.c:105-114 | placing a new ME keeps the portal invariant |
| `PortalAttach.AttachBeginKeeps` | lnet/lnet/lib-ptl.c:658-665 | tying a new MD to its ME keeps the portal invariant |
| `PortalAttach.AttachTestKeeps` | lnet/lnet/lib-ptl.c:668-671 | the unlocked look at the lists keeps the portal invariant |
| `PortalAttach.AttachLockedKeeps` | lnet/lnet/lib-ptl.c:673-741 | the locked sweep of lnet_ptl_attach_md with the enabling of the table keeps the portal invariant |
| `PortalAttach.MoveEndKeeps` | lnet/lnet/lib-ptl.c:519-524 | the second half of the move to the delayed list keeps the portal invariant |
| `PortalAttach.MatchEarlyKeeps` | lnet/lnet/lib-ptl.c:430-459 | a message that comes before the portal's type is set keeps the portal invariant |
| `PortalAttach.MdUnlinkKeeps` | lnet/lnet/lib-md.c:41-62 | taking an MD off its portal keeps the portal invariant |
| `PortalAttach.ClearLazyKeeps` | lnet/lnet/lib-ptl.c:925-980 | dropping delayed messages keeps the portal invariant |
| `PortalAttach.StepKeeps` | lnet/lnet/lib-ptl.c:430-741 | every step of the portal keeps its invariant |
| `PortalTheorems.RunInv` | lnet/lnet/lib-ptl.c:430-741 | every state of every run of the portal satisfies the invariant |
| `PortalTheorems.MissedOnlyByRace` | lnet/lnet/lib-ptl.c:668-671 | a delayed message that an attached non-exhausted MD could take was missed at a step of the run that is that very MD's unlocked look, saw nothing to do, and fell into that very message's move |
| `PortalTheorems.NoMissedMatch` | lnet/lnet/lib-ptl.c:461-741 | if no look of the run was lost, no delayed message can be taken by any attached non-exhausted MD outside an attach in progress; looks by MDs that do not take the moving message are allowed |
| `PortalTheorems.LookLoses` | lnet/lnet/lib-ptl.c:519-524 | the converse, from every reachable state with a message between the lists: after a look and the end of the move the message is delayed, and missed exactly if the look saw nothing to do and the MD takes the message |
| `PortalTheorems.MissedIff` | lnet/lnet/lib-ptl.c:519-524 | a reachable state misses a match if and only if a reachable state can lose a look |
| `PortalTheorems.MapsAreEnabled` | lnet/lnet/lib-ptl.c:87-135 | in every run ptl_mt_maps is strictly ascending and lists exactly the enabled tables |
| `PortalTheorems.DisabledHoldsNothing` | lnet/lnet/lib-ptl.c:592-596 | in every run a disabled table of a wildcard portal holds no MD that could still match, unless an attach to it is in progress |
| `PortalTheorems.StepFrame` | lnet/lnet/lib-ptl.c:430-741 | a step changes the verdict and MD of no message but those it speaks about |
| `PortalTheorems.DoneIsOff` | lnet/lnet/lib-ptl.c:505-543 | a message with a verdict is on neither list and is matched exactly if it has an MD |
| `PortalTheorems.OnePlace` | lnet/lnet/lib-ptl.c:487-524 | in every run a message is on at most one list, once, without an MD; on the delayed list exactly while it is parked |
| `PortalTheorems.OneOutcome` | lnet/lnet/lib-ptl.c:478-558 | over a whole run a message gets at most one verdict and one MD, and keeps them |
| `PortalTheorems.WalkerAlone` | lnet/lnet/lib-ptl.c:478-558 | nobody but its own thread moves a walking message along |
| `PortalTheorems.WalkTotal` | lnet/lnet/lib-ptl.c:545-556 | each iteration of the walk ends it with OK, DROP or NONE or brings its end nearer, also when another thread took the message |
| `PortalTheorems.WalkEnds` | lnet/lnet/lib-ptl.c:478-558 | over a whole run a message makes fewer than 2N iterations on N CPTs |
| `PortalVerdicts.FirstTry` | lnet/lnet/lib-ptl.c:562-636 | exactly when the first try of a message ends in a match, a drop, the end of the delayed list, a walk, or nothing, told from the entries of the table |
| `PortalVerdicts.EarlyTry` | lnet/lnet/lib-ptl.c:430-459 | a portal without a type has no entries; a message that comes that early waits or is dropped |
| `PortalVerdicts.WalkTry` | lnet/lnet/lib-ptl.c:487-543 | exactly when one iteration of the walk ends in a match, a drop, the move to the delayed list or the next CPT, told from the entries and from which other tables are enabled |
| `PortalVerdicts.SweepIsOffer` | lnet/lnet/lib-ptl.c:676-727 | the sweep of a new MD, with its early exits, is what would happen if each blocked message came in and walked a list with that MD on it |
| `PortalVerdicts.AttachServes` | lnet/lnet/lib-ptl.c:673-741 | attaching serves the stealing list and then the delayed list in that way; who is taken leaves its list with that MD or dropped |
| `PortalVerdicts.EnabledIff` | lnet/lnet/lib-ptl.c:592-596 | in every run of a wildcard portal with several CPTs a table is enabled exactly while one of its exhausted bits is clear |
| `PortalVerdicts.AttachOrder` | lnet/lnet/lib-me.c:105-114 | a new entry comes first or last on its list, and once it has an MD a message meets it before or after the others accordingly |
| `PortalVerdicts.UnlinkIs` | lnet/lnet/lib-md.c:44-62 | an unlinked MD is gone for every message, its ME exactly with LNET_UNLINK, and nothing else changes |
| `PortalVerdicts.ClearIs` | lnet/lnet/lib-ptl.c:925-980 | the named messages are dropped, the others stay in order, and the portal stops being lazy exactly when all NIs are cleared |
| `PortalRace.RaceMisses` | lnet/lnet/lib-ptl.c:519-524 | a reachable state of two CPTs in which a delayed message could be taken by an attached MD and no attach to that table is left to look again |
| `PortalCode.MtMaps.EnableMt` | lnet/lnet/lib-ptl.c:87-110 | the shifting loop inserts the CPT into the sorted array |
| `PortalCode.MtMaps.DisableMt` | lnet/lnet/lib-ptl.c:112-135 | the shifting loop removes the CPT from the sorted array |
| `PortalCode.TryMatchMeans` | lnet/lnet/lib-ptl.c:137-214 | what each answer of lnet_try_match_md says about the MD and the message; where a match lands and what it leaves are LocalFill, RemoteFill and ScanEntry |
| `PortalCode.MtTable.TestAllExhausted` | lnet/lnet/lib-ptl.c:313-336 | comparing five bitmap words says whether all 257 bits are set |
| `PortalCode.MtTable.SetExhausted` | lnet/lnet/lib-ptl.c:338-354 | exactly the bit of that list changes |
| `PortalCode.MtTable.WalkList` | lnet/lnet/lib-ptl.c:393-409 | the loop over a list is the scan |
| `PortalCode.MtTable.MatchPass` | lnet/lnet/lib-ptl.c:388-415 | one pass, with its edit of list and bitmap in place |
| `PortalCode.MtTable.MatchMd` | lnet/lnet/lib-ptl.c:374-427 | both passes of lnet_mt_match_md in place |
| `PortalCode.SweepLoop` | lnet/lnet/lib-ptl.c:676-727 | the list loop of lnet_ptl_attach_md takes and leaves the messages the specification says |
| `Rehash.BdFromKey` | libcfs/libcfs/hash.c:518-528 | a hash below 2^bits splits into a bucket and a list of the table |
| `RehashProof.MoveAllSites` | libcfs/libcfs/hash.c:1864-1892 | after a bucket is processed every item is at its new location or at its old one in a later bucket, wherever moved items land |
| `RehashProof.MoveAllKeeps` | libcfs/libcfs/hash.c:1864-1892 | processing a bucket keeps the multiset of items and every hsb_count right |
| `RehashProof.LookupRefines` | libcfs/libcfs/hash.c:763-776 | searching the one or two locations of a key finds an item exactly when the table holds one |
| `RehashTheorems.StepRefines` | libcfs/libcfs/hash.c:1232-1392 | every operation and every step of the worker keeps the invariant and does to the items what a plain multimap would |
| `RehashTheorems.RunRefines` | libcfs/libcfs/hash.c:1232-1392 | at every lock release of every run the table is the multimap of the operations so far, and hs_count its size |
| `RehashTheorems.RunSites` | libcfs/libcfs/hash.c:1864-1979 | in every run each item is at its old or new location, and at the new one in the buckets already processed |
| `RehashTheorems.RunLookups` | libcfs/libcfs/hash.c:1374-1392 | in every run a lookup succeeds exactly when the multimap has the key |
| `RehashTheorems.WorkerDropsEmpty` | libcfs/libcfs/hash.c:1922-1986 | every way out of the worker keeps items and hs_count, drops only empty buckets and leaves the others in hs_buckets |
| `RehashTheorems.WorkStartIff` | libcfs/libcfs/hash.c:1919-1945 | the worker rehashes exactly if it got memory and the items for each list are above max_theta or below min_theta, written out without the quotient; otherwise nothing but the withdrawal happens |
| `RehashTheorems.RehashEnds` | libcfs/libcfs/hash.c:1945-1986 | over a run a rehash ends with one bit more or less than at its launch, except a shrink given up because the table goes away |
| `RehashTheorems.LaunchBefore` | libcfs/libcfs/hash.c:1908-1911 | a rehash that is pending or under way was launched at a step of the run |
| `RehashTheorems.DualsAre` | libcfs/libcfs/hash.c:826-867 | the descriptors of a key are exactly its locations for the old and the new size, in locking order |
| `RehashTheorems.WhoIsFound` | libcfs/libcfs/hash.c:390-403 | of several items with one key on a list the last added is found, or with tail insertion the first |
| `RehashCode.HashTable.FindInList` | libcfs/libcfs/hash.c:665-704 | the walk of a list finds the first item of the key |
| `RehashCode.HashTable.DualGet` | libcfs/libcfs/hash.c:826-867 | the descriptors are the locations of the key, ordered and without repetition |
| `RehashCode.HashTable.SearchLists` | libcfs/libcfs/hash.c:762-776 | the loop over the descriptors finds the first hit |
| `RehashCode.HashTable.DualFind` | libcfs/libcfs/hash.c:881-886 | the lookup on the bucket objects is the lookup on the table they stand for |
| `RehashCode.HashTable.BdAdd` | libcfs/libcfs/hash.c:568-586 | one bucket changes, by the item, and both counters go up |
| `RehashCode.HashTable.BdDel` | libcfs/libcfs/hash.c:588-607 | one bucket changes, by the item, and both counters go down |
| `RehashCode.HashTable.BdMove` | libcfs/libcfs/hash.c:609-645 | the item changes its list and hs_count does not change; between equal locations nothing happens |
| `RehashCode.HashTable.Add` | libcfs/libcfs/hash.c:1232-1252 | the step Add |
| `RehashCode.HashTable.AddNew` | libcfs/libcfs/hash.c:790-807 | a new item goes to the rehash location if there are two |
| `RehashCode.HashTable.FindOrAdd` | libcfs/libcfs/hash.c:1255-1282 | the step FindAdd, and the item found |
| `RehashCode.HashTable.FindDel` | libcfs/libcfs/hash.c:808-823 | the step Del, and the item removed, if any |
| `RehashCode.HashTable.DelNode` | libcfs/libcfs/hash.c:588-607 | a node known to be on a list leaves it unsearched, and both counters go down |
| `RehashCode.HashTable.Delete` | libcfs/libcfs/hash.c:1319-1353 | the step Del with or without a node, searched or unsearched, and the object handed back: the one removed, or a given node even if it was on no list |
| `RehashCode.HashTable.RehashItem` | libcfs/libcfs/hash.c:1875-1890 | one item of the walk stays and is passed, or leaves the list, and what is left to do is what the specification says |
| `RehashCode.HashTable.RehashList` | libcfs/libcfs/hash.c:1875-1890 | the walk that moves items while it goes on reaches the end of the list as the specification does |
| `RehashCode.HashTable.RehashBd` | libcfs/libcfs/hash.c:1864-1892 | the nested loops over a bucket move all its items |
| `RehashCode.HashTable.RehashBucket` | libcfs/libcfs/hash.c:1945-1962 | one iteration of the worker's loop on the bucket objects is the step WorkBucket of the machine |
| `RehashCode.HashTable.Realloc` | libcfs/libcfs/hash.c:923-976 | the new array shares the old buckets and adds empty ones |
| `RehashCode.HashTable.Activate` | libcfs/libcfs/hash.c:1944-1945 | the new array comes into use without moving an item: the old buckets and, when growing, empty ones |
| `RehashCode.HashTable.StartRehash` | libcfs/libcfs/hash.c:1908-1943 | the step WorkStart with its three ways: no memory, load back in range, rehash; and exactly when it is the last |
| `RehashCode.HashTable.EndRehash` | libcfs/libcfs/hash.c:1945-1986 | the step WorkEnd: publish the new array, or give a shrink up |
| `MdLife.StepInv` | lnet/lnet/lib-msg.c:337-363 | every step of an MD's life keeps its invariant |
| `MdLife.OneUnlinkedEvent` | lnet/lnet/lib-msg.c:968-1020 | over every run an MD is freed at most once, and one with a handler saw exactly one event with unlinked set, the last, exactly if it was freed |
| `MdLife.HandlersAlone` | lnet/lnet/lib-msg.c:976-1018 | handler calls never overlap; an event starts only when no handler runs; the free happens with refcount 0 and HANDLING clear |
| `MdLife.FreedIsFinal` | lnet/lnet/lib-md.c:60-74 | nothing touches a freed MD; only the handler of its last event can still return |
| `MdLife.ThresholdBounds` | lnet/lnet/lib-msg.c:353-358 | a finite threshold admits that many operations and no more |
| `MdLife.UnlinkCompletes` | lnet/lnet/lib-md.c:452-521 | an unlinked MD is freed or still held, its holders or its running handler can go on, and an exhausted auto-unlink MD without operations is gone |
| `MdLife.MatchMarks` | lnet/lnet/lib-ptl.c:204-213 | a match marks the MD at once exactly if it exhausts an auto-unlink one |
| `MdLife.MarkedIsClosed` | lnet/lnet/lib-md.c:44-62 | over a run no message is matched to a marked MD and nobody finds it by its handle |
| `MdLife.UnlinkReport` | lnet/lnet/lib-md.c:455-469 | an unlink is reported by its own event when nothing is pending, and otherwise by the last completion |
| `MdLife.AssertionsHold` | lnet/lnet/lib-md.c:68-73 | the assertions of attach, detach and unlink hold whenever their steps can happen |
| `MdLife.LibMd.MdUnlink` | lnet/lnet/lib-md.c:41-74 | first call marks, the last reference frees |
| `MdLife.LibMd.MsgAttach` | lnet/lnet/lib-msg.c:337-363 | takes a reference and uses up the threshold |
| `MdLife.LibMd.TryMatchCommit` | lnet/lnet/lib-ptl.c:200-214 | attach, new offset and the auto-unlink that may follow |
| `MdLife.LibMd.MsgDetach` | lnet/lnet/lib-msg.c:982-1007 | drops the reference, decides on unlink, sets HANDLING |
| `MdLife.LibMd.Unlink` | lnet/lnet/lib-md.c:498-514 | marks or frees, and whether an event of its own is reported |
| `Gate.EnterOk` | lnet/lnet/lib-move.c:897-908 | taking a credit keeps credits + holders, the queue length and the order |
| `Gate.LeaveOk` | lnet/lnet/lib-move.c:1069-1082 | returning a credit keeps them, and a waiter is dequeued exactly when there is one |
| `Gate.PastGate` | lnet/lnet/lib-move.c:891-928 | while somebody waits, as many holders as the gate has credits are past it |
| `TxCredits.StepKeeps` | lnet/lnet/lib-move.c:830-941 | every step of posting and returning keeps the credit invariant |
| `TxTheorems.PeerConserved` | lnet/lnet/lib-move.c:891-911 | in every run each peer keeps credits + holders, queue length = max(0, -credits), lpni_txqnob = sum over holders, and first come first past |
| `TxTheorems.TqConserved` | lnet/lnet/lib-move.c:913-928 | in every run each tx queue keeps credits + holders, its queue length and its order |
| `TxTheorems.OrdersGrow` | lnet/lnet/lib-move.c:891-928 | the orders of takers and of those past a gate only grow at their end |
| `TxTheorems.NoOvertaking` | lnet/lnet/lib-move.c:891-911 | while a message waits for a peer credit nobody who took one later gets past |
| `TxTheorems.NoOvertakingTq` | lnet/lnet/lib-move.c:913-928 | while a message waits for a tx queue credit nobody who took one later gets past |
| `TxTheorems.NiConserved` | lnet/lnet/lib-move.c:917-919 | ni_tx_credits minus the sum of the NI's tq_credits never changes |
| `TxTheorems.TqCreditsPositive` | lnet/lnet/api-ni.c:2177-2192 | exactly when the share of a tx queue is at least one, for all signed tunables |
| `TxTheorems.TqCreditsShare` | lnet/lnet/api-ni.c:2177-2192 | the bounds that determine the share: at least an equal part, eight for each peer credit if there are that many, at most all |
| `TxTheorems.TqCreditsCanBeZero` | lnet/lnet/api-ni.c:2421-2422 | tunables that pass the test for zero and leave a tx queue without credits |
| `TxTheorems.NoStall` | lnet/lnet/lib-move.c:891-928 | whenever a message waits, a credit that is waited for is held outside every wait queue |
| `TxTheorems.WaiterGetsOn` | lnet/lnet/lib-move.c:1054-1134 | from there steps that are always open get a waiter dequeued, across both levels, with no failure and no new message |
| `TxTheorems.AllGetOn` | lnet/lnet/lib-move.c:1054-1134 | such steps, with no failure and no new message, empty all wait queues of both levels |
| `TxTheorems.NoCreditStall` | lnet/lnet/lib-move.c:1054-1134 | in every reachable state, for every message that waits: a credit somebody waits for is held outside every queue, and steps that are always open lead to a state in which that message no longer waits |
| `TxCode.PostMeans` | lnet/lnet/lib-move.c:830-941 | a posted message ends with both credits, in the queue of the one it lacks, or unchanged on its way to lnet_finalize |
| `TxCode.TqReturnedMeans` | lnet/lnet/lib-move.c:1061-1085 | after a tx queue credit is returned the queue is its old tail, its old head is out, nobody is left in the middle of posting, and all others are as they were |
| `TxCode.PeerReturnedMeans` | lnet/lnet/lib-move.c:1087-1134 | after a peer credit is returned the same, and the old head is out or at the end of its tx queue exactly if that has no credit |
| `TxCode.TxEngine.TakePeerCredit` | lnet/lnet/lib-move.c:891-911 | the step TakePeer in place |
| `TxCode.TxEngine.TakeTqCredit` | lnet/lnet/lib-move.c:913-928 | the step TakeTq in place |
| `TxCode.TxEngine.PostTq` | lnet/lnet/lib-move.c:913-941 | posting from the tx queue credit on |
| `TxCode.TxEngine.PostSend` | lnet/lnet/lib-move.c:830-941 | a call is the composition of steps `Post`, and what it returns |
| `TxCode.TxEngine.GiveTqCredit` | lnet/lnet/lib-move.c:1061-1083 | the step GiveTq in place, and the waiter to post |
| `TxCode.TxEngine.GivePeerCredit` | lnet/lnet/lib-move.c:1087-1107 | the step GivePeer in place, and the waiter to post |
| `TxCode.TxEngine.ReturnTq` | lnet/lnet/lib-move.c:1061-1085 | the credit goes back and the waiter is posted, in place, with what TqReturnedMeans says of it |
| `TxCode.TxEngine.ReturnPeer` | lnet/lnet/lib-move.c:1087-1134 | the credit goes back and the waiter is posted, in place, with what PeerReturnedMeans says of it |
| `TxCode.TxEngine.ReturnTxCredits` | lnet/lnet/lib-move.c:1054-1134 | both credits go back, the tx queue's first, and no message is left in the middle of posting |
| `RouterPool.StepInv` | lnet/lnet/lib-move.c:1016-1035 | every step of the pool keeps its invariant |
| `RouterPool.PoolConserved` | lnet/lnet/lib-move.c:1189-1231 | in every run credits + holders = rbp_nbuffers; outside the growth loop free buffers = max(0, credits) and blocked messages = max(0, -credits) |
| `RouterPool.NoDiscardWhileBlocked` | lnet/lnet/lib-move.c:1215-1230 | no buffer is discarded while a message is blocked, even while the pool grows |
| `RouterPool.DiscardIff` | lnet/lnet/lib-move.c:1215-1223 | a return discards its buffer exactly if the credits had reached the requested number |
| `RouterPool.ReturnsSettle` | lnet/lnet/lib-move.c:1189-1231 | the size to which returns alone bring the pool never changes on the way, and is reached once all buffers are back |
| `RouterPool.ResizeSettles` | lnet/lnet/router.c:1346-1360 | how far a pool shrinks after its requested size is lowered |
| `RouterPool.GrowthEnds` | lnet/lnet/router.c:1361-1392 | a growth ends with the size asked for, or with the old request back |
| `RouterPool.BlockedInOrder` | lnet/lnet/lib-move.c:1024-1030 | blocked messages join at the end and leave at the head with a buffer |
| `RouterPool.ReturnAssertionIff` | lnet/lnet/lib-move.c:1206-1207 | exactly when the assertion on credits and free buffers holds |
| `RouterPool.ReturnAssertionCanFail` | lnet/lnet/router.c:1394-1400 | a reachable state where it does not |
| `RouterPool.BufferForPost` | lnet/lnet/lib-move.c:1032-1034 | a buffer is there when a post takes one |
| `RouterPool.BlockedGetsServed` | lnet/lnet/lib-move.c:1147-1159 | any return hands its buffer to the first blocked message, and somebody can return exactly when the pool has a buffer |
| `RouterPool.KeepsOne` | lnet/lnet/router.c:1354-1360 | a pool never asked for fewer than one buffer keeps one |
| `RouterPool.RtrBufPool.PostRoutedRecv` | lnet/lnet/lib-move.c:1016-1048 | the step Post in place |
| `RouterPool.RtrBufPool.ScheduleBlocked` | lnet/lnet/lib-move.c:1147-1159 | the first blocked message gets the first free buffer |
| `RouterPool.RtrBufPool.ReturnRxCredits` | lnet/lnet/lib-move.c:1189-1231 | the step Return in place; a discard only with nobody blocked |
| `RouterPool.RtrBufPool.ServeAll` | lnet/lnet/router.c:1397-1400 | blocked messages get the buffers in order until one list is empty |
| `RouterPool.RtrBufPool.AddBuffers` | lnet/lnet/router.c:1388-1402 | the last region of the growth with no other thread in it |
| `RouterPool.Msg2BufPool` | lnet/lnet/lib-move.c:948-966 | the first pool whose buffers are large enough |
| `PercptLock.StepInv` | libcfs/libcfs/libcfs_lock.c:99-155 | every access to a spin lock or to pcl_locked keeps the invariant |
| `PercptLock.Exclusion` | libcfs/libcfs/libcfs_lock.c:99-131 | an exclusive holder is alone, and a private lock has one holder |
| `PercptLock.Granted` | libcfs/libcfs/libcfs_lock.c:99-131 | over a run, who asked for the exclusive lock and got it owns every spin lock, and who asked for a private one owns that and no other |
| `PercptLock.IdleOwnsNone` | libcfs/libcfs/libcfs_lock.c:134-155 | a thread outside lock and unlock owns no spin lock |
| `PercptLock.AssertionsHold` | libcfs/libcfs/libcfs_lock.c:121-153 | pcl_locked is clear before it is set and set before it is cleared |
| `PercptLock.LockedByOne` | libcfs/libcfs/libcfs_lock.c:121-153 | pcl_locked is set exactly while one thread, the owner of lock 0, is between set and clear |
| `PercptLock.NoDeadlock` | libcfs/libcfs/libcfs_lock.c:99-155 | in every reachable state with a thread under way some thread under way can move |
| `PercptLock.NoNewcomers` | libcfs/libcfs/libcfs_lock.c:108-127 | while pcl_locked is set nobody new competes for the spin locks |
| `PercptLock.PassedAtMost` | libcfs/libcfs/libcfs_lock.c:121-127 | over any stretch of a run with pcl_locked set, private locks are taken at most as often as there were competitors at its start |
| `WorkItem.StepInv` | libcfs/libcfs/workitem.c:106-258 | every region under ws_lock keeps the invariant |
| `WorkItem.OneRunner` | libcfs/libcfs/workitem.c:222-258 | ws_nscheduled = length of both queues, no action on two workers, rerunq holds only running items |
| `WorkItem.ScheduleKept` | libcfs/libcfs/workitem.c:106-198 | an accepted schedule goes only by start, deschedule or exit of that item |
| `WorkItem.ScheduleAccepted` | libcfs/libcfs/workitem.c:176-198 | a schedule leaves the item pending and counts it once |
| `WorkItem.PendingComesUp` | libcfs/libcfs/workitem.c:224-240 | over any stretch of a run with more than i starts that does not deschedule it, the item at place i of the run queue is started, whatever happens to the items around it |
| `WorkItem.RerunComesUp` | libcfs/libcfs/workitem.c:245-254 | a rescheduled item goes to the run queue when its action returns |
| `WorkItem.DescheduleQuiets` | libcfs/libcfs/workitem.c:138-168 | after a deschedule that answers 1 the item neither waits nor runs until it is scheduled again |
| `WorkItem.ExitIsFinal` | libcfs/libcfs/workitem.c:106-130 | over a run an item that exited is never queued again and keeps wi_scheduled set |
| `WorkItem.WiSched.ScheduleItem` | libcfs/libcfs/workitem.c:176-198 | the step Schedule in place, and its last assertion |
| `WorkItem.WiSched.DescheduleItem` | libcfs/libcfs/workitem.c:138-168 | the step Deschedule in place; it answers 1 exactly if no worker is in the action |
| `WorkItem.WiSched.ExitItem` | libcfs/libcfs/workitem.c:106-130 | the step Exit in place |
| `WorkItem.WiSched.TakeItem` | libcfs/libcfs/workitem.c:224-238 | the step Start in place |
| `WorkItem.WiSched.PutItem` | libcfs/libcfs/workitem.c:240-254 | the step Finish in place |
| `IovCopy.Skip` | lnet/lnet/lib-move.c:316-331 | skipping whole fragments, empty ones too, finds the fragment of the offset |
| `IovCopy.Advance` | lnet/lnet/lib-move.c:346-358 | the cursor stays on the byte it should, and the bytes passed are a range of addresses |
| `IovCopy.CopyIov2Iov` | lnet/lnet/lib-move.c:304-361 | the destination bytes become the source bytes and nothing else changes |
| `IovCopy.CopyKiov2Kiov` | lnet/lnet/lib-move.c:376-458 | the same between lists of pages, with the mapped addresses kept in step |
| `IovCopy.CopyKiov2Iov` | lnet/lnet/lib-move.c:460-525 | the same from pages |
| `IovCopy.CopyIov2Kiov` | lnet/lnet/lib-move.c:527-600 | the same to pages |
| `PageFrags.CutPages` | lnet/lnet/lib-md.c:219-238 | cutting writes no more fragments than were allocated, each inside its page, and they denote exactly the buffer |
| `PageFrags.AllUsed` | lnet/lnet/lib-md.c:158-163 | a buffer that is not empty uses exactly the fragments counted for it |
| `PageFrags.ExtractKiov` | lnet/lnet/lib-move.c:602-649 | the two loops fill dst with the fragments of the specification and nothing beyond |
| `PageFrags.ExtractDenotes` | lnet/lnet/lib-move.c:602-649 | those fragments denote exactly the requested bytes, stay in their pages and are no more than the source's |
| `PageFrags.ExtractRange` | lnet/lnet/lib-move.c:602-649 | both together |
| `PathSelect.PeerSelected` | lnet/lnet/lib-move.c:1347-1389 | the chain of comparisons is the lexicographic order |
| `PathSelect.SelectPeerNi` | lnet/lnet/lib-move.c:1318-1396 | from no candidate, on one net: the first peer NI that no other is better than |
| `PathSelect.NiSelected` | lnet/lnet/lib-move.c:1684-1706 | the chain of comparisons is the lexicographic order |
| `PathSelect.GetBestNi` | lnet/lnet/lib-move.c:1639-1714 | from no candidate: the first NI without fatal error that no other is better than, distances clamped |
| `PathSelect.CompareRoutes` | lnet/lnet/lib-move.c:1470-1489 | the sign of the lexicographic order on priority and hops, undefined hops counting as one |
| `PathSelect.CompareGw` | lnet/lnet/lib-move.c:1451-1467 | the sign of the lexicographic order on queued bytes and credits |
| `PathSelect.RouteSelected` | lnet/lnet/lib-move.c:1518-1600 | a route replaces the best one exactly when it is usable and the best is not better |
| `PathSelect.FindRoute` | lnet/lnet/lib-move.c:1508-1605 | the last usable route that no other is better than, and the route used last |
| `PathSelect.FirstBestUnique` | lnet/lnet/lib-move.c:1318-1396 | the specification of the selection determines its result |
| `RoundRobin.LeastUsed` | lnet/lnet/lib-move.c:1384-1389 | among NIs alike in all else the selection takes one with the lowest lpni_seq |
| `RoundRobin.SendKeepsEven` | lnet/lnet/lib-move.c:1804-1807 | a send keeps the counters within one of each other exactly when the chosen one does not wrap or is alone |
| `RoundRobin.FairUntilWrap` | lnet/lnet/lib-move.c:1804-1807 | through n * (2^32 - 1) sends the counters stay within one and add up to the sends |
| `RoundRobin.UnevenAfterWrap` | lnet/lnet/lib-move.c:1804-1807 | the next send breaks that |
| `CptTable.Table.SetCpu` | libcfs/libcfs/libcfs_cpu.c:494-524 | an online CPU in no partition is added to that one and no other; any other CPU is refused |
| `CptTable.Table.ChooseAll` | libcfs/libcfs/libcfs_cpu.c:784-797 | the whole mask goes to the partition; it fails only over a CPU already taken |
| `CptTable.Table.ChooseCore` | libcfs/libcfs/libcfs_cpu.c:820-834 | the hyperthreads of one core, until enough are found |
| `CptTable.Table.ChooseSocket` | libcfs/libcfs/libcfs_cpu.c:813-837 | the cores of one socket; ends, its first CPU is used up, and only the last core may be split |
| `CptTable.Table.ChooseNcpus` | libcfs/libcfs/libcfs_cpu.c:772-844 | at most the number asked for, fewer only if the mask is used up; at most one core and one socket are split |
| `CptTable.NumEstimate` | libcfs/libcfs/libcfs_cpu.c:846-870 | the largest divisor of the number of CPUs up to the least number of partitions with at most two cores each |
| `CptTable.DealNode` | libcfs/libcfs/libcfs_cpu.c:916-935 | dealing out one node never fails, always asks for a positive number, and fills partitions in order |
| `CptTable.DealAll` | libcfs/libcfs/libcfs_cpu.c:911-936 | all nodes together place every online CPU |
| `CptTable.AllPlaced` | libcfs/libcfs/libcfs_cpu.c:911-936 | a table filled to its last partition, or with all nodes used up, is both |
| `CptTable.CreateTable` | libcfs/libcfs/libcfs_cpu.c:872-940 | fails only if more partitions are asked for than CPUs; otherwise every online CPU is in exactly one partition and the first (n mod ncpt) have one more |

## Left out

- Range expression lists and other string parsing of `libcfs_string.c` and `config.c`.
- `cfs_hash_rehash_key`, iteration over a hash table, `hsb_version`, depth statistics and the cancelling of a pending rehash.
- Bucket and table locks of the hash table as such: an operation is one step between two lock releases.
- The rotor and CPT choice of `lnet_mt_of_match`: the first table of a message on a wildcard portal is any table.
- Portal cleanup and the sizes of delayed messages' buffers.
- Response trackers, event contents other than `unlinked`, and the DISCARD flag of an MD.
- `lpni_mintxcredits`, `tq_credits_min` and other statistics.
- Router credits of a peer NI and `lp_rtrq`, and a router pool with routing off.
- `kmap` and `kunmap` pairing, and physical pages that are not where their virtual addresses are.
- `lnet_find_best_lpni`, aliveness, preferred NIDs and the selection of a net: inputs of the selection loops.
- NUMA node masks and distances of the partition table, offline CPUs that come back, and partitions given as a pattern.
- RouterPool.RtrBufPool.ServeAll: the lock is not dropped between two iterations; the steps GrowServe show other threads there.
- RouterPool.RtrBufPool.AddBuffers: as one call it does not show other threads between two iterations; the steps GrowServe do.
- PathSelect.FindRoute: signed overflow of lr_seq is not modelled.
- CptTable.Table.SetCpu: does not model the node masks and distances that cfs_cpt_add_node updates.
- MdLife.LibMd.MdUnlink: detaching the ME and invalidating the handle are not part of an MD on its own; the portal's MdUnlink takes the MD off its ME.
- TxTheorems.TqCreditsPositive: signed overflow of eight times the peer credits is not modelled.
- CptTable.NumEstimate: does not model the cap of two partitions on 32-bit systems.
- TxCode.TxEngine.ReturnTxCredits: a call without interference; other threads run between its steps only in the machine.
- PercptLock.NoDeadlock: a thread that spins may be passed by others for ever, since the spin locks are not fair.
- Memory allocation failure is a choice of the schedule in the rehash worker and in the growth of a router pool, and is not modelled elsewhere.
- Truncation of fragment lengths and offsets to 32 bits in the copies, and memory ordering between processors.
