# Verified models of the kernel's file system core

A Dafny 4.11 model of the stateful algorithms in the `fs/` directory of a Linux 2.0.36 kernel, with proofs of
what they keep over whole runs. `dafny verify dfyconfig.toml` checks everything.

The kernel is not preemptive: between two points where it may sleep a task runs alone. Each protocol is therefore
a state machine whose steps are the stretches between sleeps, taken by any number of tasks in any order, and a
*run* is any sequence of such steps. The code inside a step is modelled in the form it has in the source: methods
with loops over arrays, lists and linked nodes, proved against functions that the state machines then use.

| modules | what they model |
|---|---|
| `LockTypes`, `PosixLocks`, `PosixVisit`, `PosixPass`, `Deadlock`, `LockOutcomes`, `LockProtocol`, `LockCalls`, `LockSteps`, `LockWrap`, `FlockOnce`, `LockFindings`, `BlockList` | file locks, fs/locks.c |
| `BufferRings`, `BufferCache`, `BufferTasks`, `RingWalk`, `RefillFreelist`, `RefillCall` | buffer cache queues, `getblk`, `refill_freelist`, fs/buffer.c |
| `PageIo`, `PageCompletion` | page I/O through temporary buffer heads, fs/buffer.c |
| `BlockRead` | the read pipeline of block devices, fs/block_dev.c |
| `InodeCache`, `InodeCode` | look-up, release and reuse of inodes, fs/inode.c |
| `DirCache`, `DirCacheHits`, `DirCacheLinks` | the two-level name cache, fs/dcache.c |
| `Pipe`, `PipeProtocol` | pipes, fs/pipe.c |
| `ArgPages`, `ExecTables`, `Exec` | argument strings and stack tables of a new program, fs/exec.c, fs/binfmt_elf.c, fs/binfmt_aout.c |
| `Quota`, `QuotaRuns` | disk quota accounts, fs/dquot.c |
| `Base`, `Lists` | what the others share |

## Main results

- **POSIX locks.** A successful call changes the map from (owner, byte) to lock type exactly on the bytes asked
  for, through every merge, replace, delete, trim and split, and keeps the list canonical. With a 32-bit `off_t`
  a request up to OFFSET_MAX can miss the locks it should absorb. `PosixApply` has both exact conditions: the list
  loses its form if and only if `WrapHits`, the map is wrong if and only if `MapHits`. `WrappedEnd` and
  `WrappedMap` are concrete cases of the one and the other.
- **Lock protocol.** Over every interleaving of lock, unlock, sleep, wake, signal and close, on any files: no write
  lock overlaps a foreign lock, one file holds locks of one personality, the wait-for graph has no cycle, and a
  sleeping task is on the block list of one lock that still is in its way. `LockSteps` shows that the code takes
  these steps: the table that `posix_locks_deadlock` searches has the wait-for graph of the state as its graph.
  With a 32-bit `off_t`, all states of a run satisfy the invariant if and only if no request with `WrapHits` is
  applied (`LockWrap.RunIff`), and even such a request leaves no write lock on a foreign byte.
- **flock.** The search for a lock of the same open file is not repeated after a sleep. Over every run, no open file
  ever holds two FLOCK locks if and only if no request that slept is granted while its open file has a lock
  (`FlockOnce.OneLockEachIff`). `OneOpenFileTwoLocks` is a run in which one is, and an unlock leaves a lock behind.
- **Page I/O.** For every order of completions the last one, and no other, frees the ring and unlocks the page.
  For a read PG_uptodate tells that all transfers succeeded. For a write it tells only that the first one to
  complete did, which is weaker than one might expect.
- **Buffer cache.** Every buffer is always on the one ring it belongs to, no corruption panic is reachable, and at
  most one buffer exists for a block though `getblk` sleeps. `refill_freelist` terminates; what it does between two
  sleeps is a run of the protocol's steps for growing, reclaiming and dropping; the buffers it frees are used by
  nobody, clean, unlocked and of the size asked for, and no other buffer changes, though some of other sizes may go
  with their page. It gives up short of its goal only after a search in which each ring had nothing to reclaim, a
  locked buffer in the way, or a candidate whose time stamp is the largest there is.
- **block_read.** The bytes delivered are those of the device. On a device with a partial last block the code can
  use a ring slot it never filled; `ReadsTheDevice` gives the exact condition.
- **Inode cache.** One hashed inode for a number, `nr_free_inodes` exact in every state, `__iget` returns the inode
  asked for whatever happens while it sleeps. A file system that hashes a new inode itself keeps this if and only if
  the number is not in use.
- **Name cache.** A name that was hit survives DCACHE_SIZE - 1 touches of others. `dcache_add` changes only the copy
  it finds: hits return the number last added if and only if no look-up flushes a level-2 copy while a level-1 copy
  has another number (`DirCacheHits.HitsReturnLast`); `OldNumber` is a run from the empty cache that returns the
  old one.
- **Quota.** Every step keeps all accounts equal to what the inodes are charged with, except an undo of a transfer
  that the first owner refuses. That step always leaves an inode missing from one account and counted in another
  (`StuckAt`); `StuckRun` reaches one from an empty file system.
- **Pipes, exec.** See the table.

## Model

| member | source | states |
|---|---|---|
| `LockTypes.ConflictIsSymmetric` | fs/locks.c:633-679 | whether two locks conflict does not depend on which one is the request |
| `LockTypes.GrowthKeepsBlocking` | fs/locks.c:906-919 | a lock that grows without changing type or owner still blocks whatever it blocked before |
| `PosixLocks.StraddlerIsFirst` | fs/locks.c:921-960 | a lock of another type that starts before the request is met before anything has been merged, replaced, deleted or marked for trimming |
| `PosixLocks.MergeStep` | fs/locks.c:895-920 | absorbing a lock of the same type keeps the loop invariant of the pass, also for the second and later ones |
| `PosixLocks.ReplaceStep` | fs/locks.c:936-958 | reusing a covered lock of another type for the request keeps the invariant |
| `PosixLocks.DeleteStep` | fs/locks.c:939-947 | deleting a covered lock once the request has been placed, or in an unlock, keeps it |
| `PosixLocks.RebuiltOrdered` | fs/locks.c:883-991 | the caller's run of locks that results is sorted, disjoint and has no touching neighbours of one type |
| `PosixLocks.RebuiltBytes` | fs/locks.c:883-991 | byte by byte the new run is the request on [start, end] and the old run elsewhere |
| `PosixLocks.RebuiltWaiters` | fs/locks.c:906-991 | a lock that keeps its waiters is the old lock or the old lock grown, so it still blocks them |
| `PosixLocks.RebuiltSleepers` | fs/locks.c:906-991 | whoever slept on the caller's run still sleeps on it or has been woken |
| `PosixLocks.JoinCanonical` | fs/locks.c:808-810 | replacing the caller's run by a canonical one between the runs of other owners leaves a canonical list |
| `PosixLocks.RebuiltApplied` | fs/locks.c:883-991 | bytes, canonical form, waiters and identities of the whole list together |
| `PosixPass.Inode.VisitSame` | fs/locks.c:892-920 | the loop body for a lock of the same type does one step of the pass in place |
| `PosixPass.Inode.VisitOther` | fs/locks.c:921-960 | the loop body for a lock of another type does one step of the pass in place |
| `PosixPass.Inode.CutRight` | fs/locks.c:975-987 | the lock cut on its left loses its low bytes and its waiters, and is split off first if the request lay inside it |
| `PosixPass.Inode.CutLeft` | fs/locks.c:988-991 | the lock cut on its right loses its high bytes and its waiters |
| `PosixPass.Inode.Finish` | fs/locks.c:967-991 | insertion and both cuts together turn the list the pass leaves into the result |
| `PosixPass.Inode.PosixApply` | fs/locks.c:875-991 | a mixed list gives EBUSY and no change; otherwise list and wake-ups are those of the function `Applying`, the lock map changes exactly on the request and the list stays canonical; with a wrapping `off_t` the list loses its form exactly when `WrapHits`, and the map is then still right exactly unless `MapHits` |
| `PosixPass.PassHalts` | fs/locks.c:883-960 | the pass, as a function of the caller's run, ends where it should or at the wrapped comparison, with every waiter of a consumed lock accounted for |
| `PosixPass.ApplyingOk` | fs/locks.c:875-991 | what a call makes of a canonical list: the request applied, or, exactly when `WrapHits`, a list that has lost its form, with the exact condition for the map and no byte neither held before nor asked for |
| `PosixPass.StuckNotCanonical` | fs/locks.c:898 | stopping at the wrapped comparison leaves two overlapping locks of one type, and only happens where `WrapHits` |
| `PosixPass.StuckMap` | fs/locks.c:895-920 | when the pass stops at the wrapped comparison, some byte gets a wrong type if and only if the lock that should have been absorbed is followed by one of the caller's of the other type |
| `PosixPass.StopNotHit` | fs/locks.c:898 | a pass that stops where it should has not met a request with `WrapHits` |
| `Deadlock.AcyclicMeansNoCycle` | fs/locks.c:681-690 | every walk along the waits ends if and only if no task waits for itself |
| `Deadlock.AddWait` | fs/locks.c:691-714 | a new wait keeps the graph acyclic if and only if the one waited for does not wait, directly or not, for the new sleeper |
| `Deadlock.SubgraphAcyclic` | fs/locks.c:205-249 | waits that go away never create a cycle |
| `Deadlock.PosixLocksDeadlock` | fs/locks.c:691-714 | on an acyclic graph the search ends, and says yes exactly when the new wait would close a cycle |
| `LockOutcomes.RemoveLocks` | fs/locks.c:416-442 | closing unlinks exactly the closer's locks and wakes all their waiters in order |
| `LockOutcomes.RemainingHolds` | fs/locks.c:416-442 | the closer holds no byte afterwards, everybody else what they held |
| `LockOutcomes.RemainingCanonical` | fs/locks.c:416-442 | the rest of a canonical list is canonical |
| `LockOutcomes.FindBlocker` | fs/locks.c:847-850 | the loop stops at the first lock in the request's way |
| `LockProtocol.AppliedExclusive` | fs/locks.c:841-879 | applying a request nobody else blocks leaves writers alone on their bytes |
| `LockProtocol.UpdateInv` | fs/locks.c:875-1001 | any change of a list that grows, keeps or drops locks and wakes the waiters of the dropped keeps the protocol invariant |
| `LockProtocol.BlockInv` | fs/locks.c:847-865 | going to sleep after a negative deadlock check keeps it |
| `LockProtocol.UnblockInv` | fs/locks.c:205-225 | leaving a block list, whether or not the waker has already emptied it, keeps it |
| `LockProtocol.DrainInv` | fs/locks.c:1053-1077 | unlinking the lock that an upgrade replaces, with its waiters still on it, keeps it |
| `LockProtocol.WakeInv` | fs/locks.c:231-249 | so does waking those waiters |
| `LockProtocol.FreeInv` | fs/locks.c:1053-1077 | so does freeing the lock once its block list is empty |
| `LockProtocol.NextInv` | fs/locks.c:742-1001 | every step of every task keeps the invariant |
| `LockProtocol.LocksAreExclusive` | fs/locks.c:742-879 | in every reachable state the locks of a file are of one personality and no lock blocks another |
| `LockProtocol.NeverDeadlocked` | fs/locks.c:681-714 | in every reachable state no task is on a cycle of waits; `LockSteps.PosixStretch` joins this with the search the code makes |
| `LockProtocol.NoWaiterIsStranded` | fs/locks.c:182-249 | a sleeper not yet woken is on one block list, of an allocated lock that conflicts with its request; one on no list has been woken |
| `LockCalls.MakeRangeIsExact` | fs/locks.c:543-594 | the range computed in 32 bits covers exactly the bytes asked for up to OFFSET_MAX, and the call fails if and only if it would begin outside or has negative length |
| `LockCalls.PosixLockFile` | fs/locks.c:841-1001 | which of error, sleep and application happens, and what each does to the list, wrapped `off_t` included |
| `LockCalls.MandatoryArea` | fs/locks.c:502-538 | an access to a mandatorily locked area waits, fails or proceeds, and never changes the locks |
| `LockCalls.FlockLockFile` | fs/locks.c:776-806 | which of error, sleep and application happens, and what each does to the list |
| `LockCalls.FlockSearchFile` | fs/locks.c:742-772 | finds and removes the lock of the open file unless it already is of the type wanted |
| `LockSteps.TableIsGraph` | fs/locks.c:691-714 | in every reachable state the waits read off the table of all locks are the wait-for graph of the protocol |
| `LockSteps.PosixStretch` | fs/locks.c:841-1001 | `posix_lock_file` from `repeat` on, with its own deadlock search over the table, is one step of the protocol and wakes whom the step wakes |
| `LockSteps.AccessStretch` | fs/locks.c:502-538 | `locks_mandatory_area` from `repeat` on is one step of the protocol |
| `LockSteps.GrantStretch` | fs/locks.c:776-806 | `flock_lock_file` from `repeat` on is one step of the protocol |
| `LockSteps.SearchStretch` | fs/locks.c:742-806 | `flock_lock_file` from `search` on is one step of the protocol |
| `LockWrap.WrapStretch` | fs/locks.c:841-1001 | the same for `posix_lock_file` on a 32-bit `off_t` |
| `LockWrap.WrapNextInv` | fs/locks.c:841-1001 | on a 32-bit `off_t` a step keeps the protocol invariant if and only if it does not apply a request with `WrapHits` |
| `LockWrap.RunIff` | fs/locks.c:841-1001 | over every run all states satisfy the invariant if and only if no such request is applied |
| `LockWrap.StillExclusive` | fs/locks.c:841-1001 | even such a request leaves no write lock on a byte that another task has locked |
| `LockWrap.SpoiledRun` | fs/locks.c:898 | a run of two requests of one task that loses the invariant |
| `FlockOnce.NextOnce` | fs/locks.c:742-806 | a step keeps one FLOCK lock at most for each open file if and only if it is not a grant after a sleep to an open file that has a lock |
| `FlockOnce.OneLockEachIff` | fs/locks.c:742-806 | over every run no open file ever has two FLOCK locks if and only if no such grant is made |
| `FlockOnce.UnlockFrees` | fs/locks.c:742-772 | as long as that holds, an unlock leaves the open file without a lock |
| `LockFindings.OneOpenFileTwoLocks` | fs/locks.c:742-806 | a run in which one open file is granted two FLOCK locks and still holds one after its unlock |
| `LockFindings.WrappedEnd` | fs/locks.c:898 | what the pass makes of a request up to OFFSET_MAX and a lock of its type that it contains: both stay, where without wrapping one lock is left |
| `LockFindings.WrappedMap` | fs/locks.c:895-920 | what the pass makes of a request up to OFFSET_MAX and two locks: one byte is held for reading and for writing by the same owner |
| `BlockList.InsertBlock` | fs/locks.c:182-200 | the waiter becomes the last of the ring |
| `BlockList.DeleteBlock` | fs/locks.c:205-225 | a waiter leaves the ring; one taken off before touches nothing, its blocker least of all |
| `BlockList.WakeUpBlocks` | fs/locks.c:231-249 | all waiters are taken off and woken, first come first |
| `BufferRings.Ring.Remove` | fs/buffer.c:328-361 | the ring without the buffer, head included; all links outside the ring are left alone |
| `BufferRings.Ring.Append` | fs/buffer.c:400-436 | the buffer becomes the last of the ring, also of an empty one |
| `BufferRings.Ring.PutLast` | fs/buffer.c:376-398 | the buffer moves to the end, the others keep their order, also when it is the head |
| `BufferRings.Ring.Splice` | fs/buffer.c:1390-1411 | the buffers of a page go in front of the ring, and the old head to its end; all links outside the ring are left alone |
| `BufferCache.RemoveOk` | fs/buffer.c:317-374 | a buffer comes off its queues, no panic condition holds, and everything else stays well formed |
| `BufferCache.InsertOk` | fs/buffer.c:420-447 | a buffer goes on the queues its fields name, and the cache is well formed if it has no twin |
| `BufferCache.PutLastOk` | fs/buffer.c:376-398 | moving a buffer to the end of its LRU ring keeps the cache well formed |
| `BufferCache.RefileOk` | fs/buffer.c:834-871 | after `refile_buffer` a buffer is on the ring its state asks for, and nothing else has changed |
| `BufferCache.RefileRings` | fs/buffer.c:842-858 | a buffer that is refiled becomes the last of the ring it goes to, which for a recently used locked one may be the ring it came from; all other rings keep their order |
| `BufferCache.ReclaimOk` | fs/buffer.c:704-706 | an unused buffer goes from its LRU ring and hash chain to the free ring of its size |
| `BufferCache.TakeOk` | fs/buffer.c:792-803 | a free buffer becomes the one buffer of a block nobody has |
| `BufferCache.ForgetOk` | fs/buffer.c:896-905 | a forgotten buffer is off the hash chains and has no name |
| `BufferCache.GrowOk` | fs/buffer.c:1390-1411 | each buffer of a new page keeps the cache and its total well formed |
| `BufferCache.DropOk` | fs/buffer.c:1451-1463 | each buffer of a freed page leaves all queues and the total |
| `BufferTasks.StepInv` | fs/buffer.c:767-905 | every step of every task keeps the cache well formed and the use counts equal to the references held |
| `BufferTasks.FindBuffer` | fs/buffer.c:449-463 | the walk along the chain finds the buffer of the block and size if and only if there is one |
| `BufferTasks.Getblk` | fs/buffer.c:775-804 | the code between two sleeps takes one of the steps of the protocol |
| `BufferTasks.CacheIsWellFormed` | fs/buffer.c:317-462 | in every reachable state each buffer is on exactly its ring, chains and counters agree with the rings, and no block has two buffers |
| `BufferTasks.NoPanic` | fs/buffer.c:328-433 | no step finds a buffer off the ring it is to be taken from |
| `BufferTasks.ViaIsRun` | fs/buffer.c:644-755 | any growing, reclaiming and dropping in a row, in any state, is a run of the protocol and keeps its invariant |
| `BufferTasks.GetblkReturns` | fs/buffer.c:767-812 | when `getblk` returns, whatever happened meanwhile, the caller has one more reference to the only buffer of the block |
| `RefillFreelist.TryToFree` | fs/buffer.c:1429-1468 | the page goes if and only if none of its buffers is used, dirty, locked or protected, all of it and nothing else; the walk then goes on along what is left of the ring, in order |
| `RingWalk.FollowWithoutSelf` | fs/buffer.c:1451-1463 | when the buffer the walk stands on leaves its ring, the walk goes on from the one before it without missing or repeating any |
| `RefillFreelist.FindCandidate` | fs/buffer.c:564-596 | the candidate can be reclaimed, and none that could be was passed over; it gives up early only after meeting LOOKAHEAD locked buffers; no buffer of the wanted size is lost on the way |
| `RefillFreelist.Candidates` | fs/buffer.c:682-685 | the candidates of the other rings survive the search of each ring, and a ring without one has nothing to reclaim or a locked buffer in the way |
| `RefillFreelist.Winner` | fs/buffer.c:689-696 | the winner is the candidate used least recently |
| `RefillFreelist.Drain` | fs/buffer.c:701-713 | the buffers that become free are the ones logged, each once, each reclaimable before; every other buffer that stays is as it was; it stops short only when its part of the ring has nothing left to reclaim or a locked buffer is in the way |
| `RefillFreelist.Elect` | fs/buffer.c:680-713 | one round of candidates, winner and drain: `needed` falls by what became free, and if nothing did then each ring has nothing to reclaim, a locked buffer, or a candidate whose time stamp is the largest there is |
| `RefillCall.GrowBuffers` | fs/buffer.c:1390-1414 | the buffers of a new page go in front of the free ring of their size, the old head to its end, by steps of the protocol |
| `RefillCall.Plenty` | fs/buffer.c:655-666 | pages are had as long as memory is plentiful and more is needed, and no longer |
| `RefillCall.Harder` | fs/buffer.c:716-754 | an election without winner costs a page or ends the call, and it ends it only with a free buffer at hand |
| `RefillCall.Refill` | fs/buffer.c:644-755 | it ends; every stretch between two sleeps, wherever it may sleep, frees only reclaimable buffers of the size asked for and changes no other that stays; `needed` is what was asked less what became free and what the sleeps cost; it stops short only with a free buffer at hand after a search that found nothing |
| `RefillCall.StretchIsRun` | fs/buffer.c:644-755 | each stretch of the call, in any state with that cache, is a run of the protocol's steps for growing, reclaiming and dropping, and keeps its invariant |
| `PageIo.PushedOnce` | fs/buffer.c:1125-1141 | walking the ring from any buffer puts each of its buffers on the reuse list once |
| `PageIo.Page.MarkBufferUptodate` | fs/buffer.c:1242-1258 | the page becomes up to date when its last buffer does |
| `PageCompletion.CheckInv` | fs/buffer.c:1263-1286 | in every reachable state the check at the head of `unlock_buffer` lets the completion proceed, and keeps the invariant |
| `PageIo.Page.FreeAsyncBuffers` | fs/buffer.c:1125-1141 | the loop puts the whole ring on the reuse list and meets no mismatch |
| `PageIo.Page.Decrement` | fs/buffer.c:1300-1312 | the scan for another busy buffer tells whether this one is the last |
| `PageIo.Page.BrwPage` | fs/buffer.c:1148-1237 | the state in which the requests are handed to the driver, and which buffers they are for |
| `PageCompletion.StepInv` | fs/buffer.c:1242-1330 | every step of every completion keeps the invariant |
| `PageCompletion.NoWhoops` | fs/buffer.c:1318-1330 | the branches for a page not locked and a bad count are never taken |
| `PageCompletion.FreedByTheLast` | fs/buffer.c:1300-1316 | the ring is freed once, by the completion after which none is outstanding, and each buffer is then on the reuse list once |
| `PageCompletion.FinalFlags` | fs/buffer.c:1148-1286 | the page flags after the last completion: uptodate if and only if all reads (for a write, the first completion) succeeded, error if and only if one failed |
| `PageCompletion.Progress` | fs/buffer.c:1263-1316 | while the page is locked some completion can go on |
| `BlockRead.Fill` | fs/block_dev.c:225-247 | the ring takes blocks in order and never overruns the slots not yet consumed |
| `BlockRead.Transfer` | fs/block_dev.c:222-284 | blocks come out in the order they went in, bytes are those of the device, every block copied and the one that failed was got, and every buffer got is released once, read-ahead included |
| `BlockRead.BlockRead` | fs/block_dev.c:182-290 | the result, the bytes delivered, the new file position, that releases match gets, and that the gets include every block needed up to the first bad one and none beyond those asked for |
| `BlockRead.AskedFacts` | fs/block_dev.c:182-210 | fewer blocks are asked for than needed if and only if the request runs past the last whole block |
| `BlockRead.ReadsTheDevice` | fs/block_dev.c:182-290 | within the whole blocks a prefix of the bytes wanted arrives, all of them if and only if no block needed is bad; an unfilled slot is used if and only if the request crosses the end of the whole blocks and no block before is bad |
| `BlockRead.WholeDevice` | fs/block_dev.c:182-290 | on a device of a whole number of blocks no unfilled slot is used, and all bytes wanted arrive if and only if no block needed is bad |
| `BlockRead.HalfABlockLeft` | fs/block_dev.c:176-211 | a device of three kilobytes in blocks of two, read as a whole, makes the code use an unfilled slot |
| `InodeCache.StepInv` | fs/inode.c:441-674 | every step of every task keeps the invariant |
| `InodeCache.CacheIsConsistent` | fs/inode.c:441-674 | in every reachable state: one hashed inode at most for a device and number, counts equal references held, `nr_free_inodes` equals the unreferenced inodes plus those in teardown, and no inode has changed under a sleeper |
| `InodeCache.NoPanic` | fs/inode.c:512-572 | teardown never meets a second reference, reuse never a bad free count |
| `InodeCache.NameIff` | fs/ext2/ialloc.c:485 | hashing a fresh inode keeps the invariant if and only if no inode has that identity |
| `InodeCache.IgetReturns` | fs/inode.c:601-674 | when `__iget` returns, whatever happened meanwhile, the caller has one more reference to the one inode of that identity, and it is not condemned |
| `InodeCode.Icache.Repeat` | fs/inode.c:611-656 | the walk along the chain and what follows it are one step of the protocol, and keep the chains in order |
| `InodeCode.Icache.NameFresh` | fs/inode.c:78-88 | `insert_inode_hash` on a fresh inode is that step of the protocol |
| `InodeCode.Icache.Cleared` | fs/inode.c:201-214 | the end of a teardown is one step of the protocol: off its chain, first of the ring, one reference |
| `InodeCode.Icache.Scan` | fs/inode.c:521-541 | the inode chosen is unreferenced, lies in the half of the ring that is looked at, and is the least bad there |
| `InodeCode.Icache.PutRepeat` | fs/inode.c:455-509 | the end of `iput` is one step of the protocol |
| `DirCache.LookupInv` | fs/dcache.c:168-205 | a look-up keeps the cache well formed |
| `DirCache.AddInv` | fs/dcache.c:207-222 | an addition keeps the cache well formed |
| `DirCache.FindPrefersLevel2` | fs/dcache.c:144-162 | the search finds the level-2 copy of a name if there is one |
| `DirCache.OneCopyPerLevel` | fs/dcache.c:120-162 | over every run a name is in the cache once on each level at most, the level-2 copy first in its queue |
| `DirCache.HitsAreRight` | fs/dcache.c:168-222 | if callers add a fixed number for each name every hit returns it |
| `DirCacheHits.RightStep` | fs/dcache.c:168-222 | an operation makes the cache answer with a number that is not the last added if and only if it flushes the level-2 copy while a level-1 copy has another number |
| `DirCacheHits.HitsReturnLast` | fs/dcache.c:168-222 | over every run the hits on a name return the number last added if and only if no operation does that |
| `DirCacheHits.OldNumber` | fs/dcache.c:168-222 | a run from the empty cache in which a hit returns a number that was replaced |
| `DirCache.KeepStep` | fs/dcache.c:77-104 | one operation brings a name on level 2 closer to being flushed by one place at most, and only if it touches another name |
| `DirCache.UsedNamesStay` | fs/dcache.c:168-222 | a name that was hit stays on level 2 until at least DCACHE_SIZE later touches of other names, whatever is added |
| `DirCacheLinks.Ring.UpdateLru` | fs/dcache.c:77-104 | the pointer updates move the entry to the tail and keep the order of the rest |
| `DirCacheLinks.Ring.constructor` | fs/dcache.c:224-264 | the initial links form one ring of all entries |
| `DirCacheLinks.FindEntry` | fs/dcache.c:144-162 | the walk along the queue stops at the first match |
| `Pipe.WrapIsMask` | include/linux/pipe_fs_i.h:16-33 | the masked end of the data is the wrapped one |
| `Pipe.TakeChunk` | fs/pipe.c:53-67 | a chunk up to the end of the buffer is a prefix of the contents |
| `Pipe.PutChunk` | fs/pipe.c:106-118 | a chunk stored behind the contents extends them and disturbs nothing |
| `Pipe.PipeInode.ReadLoop` | fs/pipe.c:53-67 | takes as many bytes as wanted and present, in order, and leaves the rest |
| `Pipe.PipeInode.WriteLoop` | fs/pipe.c:106-118 | appends as many bytes as there is room for |
| `PipeProtocol.StepInv` | fs/pipe.c:30-125 | every step of every reader and writer keeps the invariant |
| `PipeProtocol.ReadsArePrefix` | fs/pipe.c:43-68 | over every run the bytes read are a prefix of those written in the order in which the lock was taken, and an idle pipe holds the rest |
| `PipeProtocol.SmallWritesAreAtomic` | fs/pipe.c:88-122 | a write of at most PIPE_BUF bytes is in the pipe in one piece or not at all |
| `ArgPages.Area.CopyString` | fs/exec.c:247-271 | pushing a string page by page is pushing it byte by byte, across every page boundary |
| `ArgPages.Area.CopyStrings` | fs/exec.c:221-276 | with pages enough it succeeds if and only if the strings are shorter than the room, and then they lie there in order with all else unchanged |
| `ArgPages.Area.RemoveArgZero` | fs/exec.c:568-582 | steps over exactly the first string, wherever its pages end |
| `ExecTables.PutWordIs` | fs/binfmt_elf.c:120-150 | a word written reads back, and no other byte changes |
| `ExecTables.PointsToString` | fs/binfmt_elf.c:151-165 | pointer number i leads to string number i and its terminator |
| `ExecTables.UserMemory.PutPointers` | fs/binfmt_elf.c:151-166 | the loop fills one NULL-terminated pointer array and leaves the strings alone |
| `ExecTables.UserMemory.CreateTables` | fs/binfmt_elf.c:107-168 | for each format, the whole table lies below the strings and has no gap, though room for the vector is set aside before it is written |
| `ExecTables.ImageDone` | fs/binfmt_aout.c:205-249 | the separate writes leave no word of the table unwritten |
| `ExecTables.AuxFits` | fs/binfmt_elf.c:119-149 | the auxiliary vector fills the words reserved for it, no more and no less |
| `Exec.ImageIsStack` | fs/binfmt_elf.c:107-168 | the image in memory is argc, argv and envp with exact copies of the strings, and the vector |
| `Exec.DoExecve` | fs/exec.c:659-690 | from the caller's strings to the new stack and back: every pointer leads to the string it stands for, and with pages enough failure means that the strings do not fit |
| `Exec.PushThenRemove` | fs/exec.c:568-582 | removing the string just pushed restores the top of the area for every alignment |
| `Quota.Dquots.Check` | fs/dquot.c:381-455 | whether the limits allow it, and whether the grace time starts |
| `Quota.ReleaseUndoesCharge` | fs/dquot.c:342-368 | releasing what was charged restores the usage, charging what was released does if and only if that much was used, and neither touches anything else of the account but the grace time |
| `Quota.Dquots.AllocFor` | fs/dquot.c:771-806 | all accounts of the inode are charged or none is |
| `Quota.Dquots.FreeFor` | fs/dquot.c:807-829 | all accounts of the inode are relieved |
| `Quota.Dquots.Build` | fs/dquot.c:860-893 | both references of each kind are taken and the new owners asked; a refusal gives every reference back and changes no usage |
| `Quota.Dquots.TransferFor` | fs/dquot.c:832-921 | the whole transfer, with the references and the inode's own pointers, for each account |
| `QuotaRuns.TransferAt` | fs/dquot.c:832-921 | usage and references of every account after a transfer; a refused one changes none of them |
| `QuotaRuns.TransferConserves` | fs/dquot.c:832-921 | what one account loses the other gains, if and only if the first was charged with as much |
| `QuotaRuns.LimitsDecide` | fs/dquot.c:381-455 | an owner within its limits takes an inode back, one over its hard limit does not |
| `QuotaRuns.ReverseUndoes` | fs/dquot.c:832-921 | the reversed transfer is accepted if and only if each first owner is allowed to take the inode back, and then restores all usage, references and pointers |
| `QuotaRuns.StepInv` | fs/dquot.c:688-921 | a step keeps every account equal to what the inodes are charged with if and only if it is not an undo that the first owner refuses |
| `QuotaRuns.StuckAt` | fs/open.c:420-427 | after such an undo the account of each former owner lacks one inode and that of each new one has one too many |
| `QuotaRuns.StuckRun` | fs/open.c:420-427 | a run with group limits: root makes more inodes in a group than it may have, and a chown that is then refused for lack of permission leaves its transfer in place |
| `QuotaRuns.AccountsBalance` | fs/dquot.c:771-921 | over every run without such an undo each account records the inodes and blocks of its owner, and the references to it |

## Left out

- PosixPass.Inode.PosixApply: identities of new locks are supplied, and running out of memory for them (ENOLCK) is not modelled.
- LockProtocol.NextInv: `fl_end + 1` does not wrap here; the same steps with wrap-around are in `LockWrap`.
- LockCalls.PosixLockFile: the global `file_lock_table` is only the set the deadlock search walks; its order for /proc is not modelled.
- PageCompletion.FinalFlags: the driver is taken to complete every submitted buffer once; buffers found in the cache count as completed.
- BufferCache.GrowOk: one buffer at a time; the loop over a page at pointer level is `BufferRings.Ring.Splice`.
- BufferTasks.CacheIsWellFormed: one block size for each device, as `set_blocksize` is left out; with two sizes `find_buffer` misses and a second buffer appears.
- RefillCall.Refill: free memory, the age limits and bdflush are answers from outside, and everything may change at each sleep; a try for a page counts as a sleep.
- BlockRead.BlockRead: `getblk` never returns NULL, so the branches for that are left out; the block size is a power of two, so shifts are divisions.
- InodeCache.CacheIsConsistent: chains and ring are in `InodeCode`; which free inode is taken, and when, is left to chance; a file system that hashes an inode itself is taken to pick an unused number (`NameIff`); waiting for `updating` only removes behaviour and is left out, as are mount crossing and deletion of unlinked inodes through `put_inode`.
- PipeProtocol.StepInv: the counts of readers and writers are left to chance, so EOF and SIGPIPE may come at any time.
- Exec.DoExecve: pages not touched by `copy_strings` read as zero instead of being unmapped.
- QuotaRuns.AccountsBalance: calls are atomic, inodes are initialised before use, and the file system keeps its block count in step with the charges; device nodes, which are never initialised, are outside.
- `sync_buffers`, bdflush, `set_blocksize`, `block_write`: driven by timing and device queues, or the same cache contract again.
- Reading and writing of dquots, the dquot cache and its free list: another reference-counted cache of the kind of `InodeCache`.
- The nls tables and /proc output are tables and formatting; mounting and the system calls around these algorithms check arguments and call what is modelled.
