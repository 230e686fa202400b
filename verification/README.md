# A verified model of a small AArch64 kernel

The kernel is a teaching kernel with a write-ahead-logged block cache, an inode layer, a hierarchical fair
scheduler, a process tree with exit/wait, semaphores, a slab allocator and four-level page tables. This project
models the stateful data structures and protocols at its centre in Dafny and proves, for every input, run and
reachable state, that each of them stands for the simple object it is meant to be: a set, a finite map, a byte
sequence, an atomic transaction, a count of tokens.

`dafny verify dfyconfig.toml` checks everything.

| file | what it models |
|---|---|
| `RbShape`, `RbSteps`, `RbErase`, `RbTree`, `RbWalk` | the intrusive red-black tree: shapes, single steps of both rebalancings, the methods on node memory, and what a valid tree means for walks along its links |
| `Bytes`, `LogSpec`, `BlockCache`, `LogRun` | little-endian words, the redo log on disk with crashes, the cache with pinning and group commit, and whole runs of it |
| `RunQueue`, `QueueTree`, `PickNext`, `Sched` | the comparison of run times, a queue on its tree, the choice of the next process, and the scheduler over several CPUs |
| `Quota`, `FreeBlocks`, `FileQuota` | what a sync charges, the lowest free blocks, and which blocks a file operation syncs |
| `BlockMap`, `Inode`, `InodeDisk`, `Directory`, `Bitmap` | the block map of a file, byte-range reads and writes, entries on disk, directories, the bitmap |
| `FileImage`, `FileLog` | what a disk says about the files, and file writes as transactions on the logged cache |
| `Sem`, `Ring`, `PidPool`, `ProcTree`, `PidReuse` | semaphores, circular lists, pools of pids, the process tree with its exit tokens, and a run in which a pid is used again |
| `PageTable`, `Sections`, `Slab`, `Swap` | page tables, the end of an address space, the slab allocator, swap extents |
| `Basics`, `Bits`, `Counting` | addresses, 64-bit words and their bits, lists without repetition, sizes of finite sets |

Conventions. A structure that the source links by pointers is held in a map from addresses to records
(`RbTree.RbRoot.mem`, `BlockCache.Cache.blk`, `Sched.Scheduler.procs`, …), which a class updates step by step;
address 0 is NULL. An operation that can run into a failing ASSERT or a PANIC returns that as a result, or, where
it is proved never to happen, contains a Dafny `assert` of the same condition. Code that holds a lock from
beginning to end is one step.

Where the code and its comments differ, the model follows the code:
- The comment in `src/fs/inode.h` says that `insert` does not ensure unique names; the code refuses a name that is
  there (`src/fs/inode.c:353-355`).
- `inode_read` is documented to return the size that it read and always returns 0; the model
  returns the bytes instead.
- An unalertable wait is asserted to succeed (`src/common/sem.h`), but a killed process does not sleep
  (`src/kernel/sched.c:255-258`). Its wait succeeds exactly if a grant is there, or if, while the semaphore's lock is
  dropped, the posts and the sleepers before it that give up outnumber the sleepers before it: `Sem.KilledIff`. In
  `Sem.KilledPassed` no grant is there and one post lets it through; in `Sem.KilledBehind` there are not even more
  posts than sleepers.
- A write that fits in the file and on the device can still fail, because its operation may sync only ten blocks
  that are not logged yet: `Inode.FileSystem.Write` has the exact condition, and `Inode.TenBlocksTooMany` a write
  of ten blocks that fails in a fresh operation on a device with room for it.
- A pid is free again from the exit of its process on, while the zombie is still in the tree, so `kill` can mark a
  zombie in place of the living process with the pid: `ProcTree.KillReaches` states exactly when it reaches the
  living one, and `PidReuse.ZombieKilled` runs into a tree where it does not.
- `free_sections` gives back a page for every address of a section that has a table, also where no page was ever
  mapped: then it is the page at physical address 0. `Sections.PageZero` states exactly when, and
  `Sections.UntouchedPage` has such an address space.
- A new process or container starts with run time 0, which breaks the order of the queues exactly if 0 lies in no
  window with the other run times: `Sched.Scheduler.SetContainer`, with an input in `Sched.LateProcess`.
- The scan of `cache_alloc` counts blocks in 32 bits: on a full device of nearly 2^32 blocks it starts over instead of
  the PANIC, `Bitmap.Device.Alloc`.
- `release_8_blocks` takes any block number: one that is not an extent's can cut a held extent in two, and
  `Swap.SwapArea.Release` states exactly when it does not.
- The comparison of run times is a strict total order exactly on sets whose keys fit in a window shorter than
  2^63: `RunQueue.OrderIffWindow`, with a failing set of three keys in `RunQueue.CircleIsNoOrder`.

## Model

| member | source | states |
|---|---|---|
| `RbTree.RbRoot.Insert` | src/common/rbtree.c:247-270 | on a valid red-black tree (search order, no red-red edge, equal black heights, black root, parent and child links agree) inserting a detached node gives a valid one with exactly that node more, in its place in the order; -1 exactly if an equivalent node is present, and then the tree is untouched |
| `RbTree.RbRoot.InsertFix` | src/common/rbtree.c:40-109 | the fix-up loop, in both mirror cases, terminates and turns a tree with one red edge too many into a valid one with the same order |
| `RbTree.RbRoot.Erase` | src/common/rbtree.c:271-276 | erasing any node of a valid tree gives a valid tree whose order is the old one without that node; no node outside the tree is touched |
| `RbTree.RbRoot.EraseFix` | src/common/rbtree.c:161-246 | the erase fix-up loop terminates and restores the black heights, with the same order |
| `RbTree.RbRoot.UnlinkTwo` | src/common/rbtree.c:128-158 | a node with two children is replaced by its successor, which is unlinked from where it was; the order loses only the node |
| `RbTree.RbRoot.UnlinkOne` | src/common/rbtree.c:114-127 | a node with at most one child is spliced out |
| `RbTree.RbRoot.Lookup` | src/common/rbtree.c:277-288 | returns a node equivalent to the argument, or NULL exactly if the tree has none |
| `RbTree.RbRoot.First` | src/common/rbtree.c:289-297 | returns the first node in order, NULL for the empty tree |
| `RbTree.RbRoot.ChangeChild` | src/common/rbtree.c:25-33 | the one link of the parent, or the root, that led to the old node leads to the new one |
| `RbTree.RbRoot.RotateSetParents` | src/common/rbtree.c:34-39 | the new node takes the old one's parent and colour, and the old one hangs under it |
| `RbWalk.ValidMeans` | src/common/rbtree.c:40-297 | what the trees above mean for the memory: whatever turns are taken from the root, every way to a NULL link passes the same number of black nodes, no red node has a red child, children point back, what lies to the left of a node is below it and what lies to the right above it, and the walks reach exactly the nodes of the order |
| `RbSteps.RotatedOk` | src/common/rbtree.c:62-78 | rotating at a red edge with a black uncle gives the black height of before, no red edge, and the same order |
| `RbErase.Rotated34Ok` | src/common/rbtree.c:187-203 | the rotations of cases 3 and 4 lift a subtree that is one black too short to the height that it should have |
| `RbErase.TurnedOk` | src/common/rbtree.c:166-172 | the rotation of case 1 leaves a black sibling and the same deficit |
| `LogSpec.HeaderRoundTrip` | src/fs/defines.h:78-81 | a log header that is written to its block is what is read from it |
| `LogSpec.HeaderBytes` | src/fs/defines.h:78-81 | the count is the little-endian number at byte 0 of the header block, the k-th block number that at byte 8 + 8k |
| `LogSpec.CommitTrace` | src/fs/cache.c:228-251 | the writes of a commit one by one: the slots behind the header, the header, the home blocks, an empty header |
| `LogSpec.RecoveryTrace` | src/fs/cache.c:134-155 | the writes of a recovery, from the bytes of the header on disk |
| `LogSpec.CommitAtomic` | src/fs/cache.c:134-155 | stop a commit after any number of its block writes and recover, interrupted and rerun any number of times: the home blocks of the batch are all old if the first header write had not happened and all new if it had, every other block outside the log is unchanged, and the log is empty |
| `LogSpec.CommitComplete` | src/fs/cache.c:242-252 | a commit that runs to its end leaves the batch at home and the log empty |
| `LogSpec.RecoveryConverges` | src/fs/cache.c:148-155 | recovery interrupted anywhere, any number of times, ends with the logical contents of the disk that it began with |
| `LogSpec.RecoveryPrefix` | src/fs/cache.c:134-155 | after any prefix of the recovery writes the logical contents are unchanged |
| `LogSpec.CommitAllOrNothing` | src/fs/cache.c:231-252 | the same over all crash points and all recoveries at once |
| `BlockCache.Cache.Acquire` | src/fs/cache.c:78-121 | the holder gets what a reader of the block sees; no reader's view of any block changes, whether the block was cached, evicts another or is new; no block is cached twice; the block that is evicted is the last of the list that is neither pinned nor held, and a block is added only below the threshold or if all are |
| `BlockCache.Cache.Release` | src/fs/cache.c:124-132 | the block goes to the front of the list and no view changes, given that what was written was synced |
| `BlockCache.Cache.FindVictim` | src/fs/cache.c:95-108 | the least recently released block that is neither pinned nor held |
| `BlockCache.Cache.BeginOp` | src/fs/cache.c:180-199 | granted exactly if the blocks logged, the sum of what outstanding operations may still log, and the quota fit in the log |
| `BlockCache.Cache.Sync` | src/fs/cache.c:202-228 | succeeds exactly if the block is logged already or quota is left; then the block is pinned and named once in the header, log space stays accounted for, and the logged set and the quotas change as the file operations assume of a sync |
| `BlockCache.AccountsLog` | src/fs/cache.c:213-223 | logging a block within the quota keeps the reserved space equal to the sum of the quotas left, and cannot overflow the header |
| `BlockCache.AccountsEnd` | src/fs/cache.c:257-260 | ending an operation returns its quota, and the last one leaves nothing reserved |
| `BlockCache.Cache.WriteLog` | src/fs/cache.c:231-240 | one slot write per logged block, each with the block's view |
| `BlockCache.Cache.InstallTrans` | src/fs/cache.c:134-146 | one home write per logged block, each unpinned after it |
| `BlockCache.Cache.Commit` | src/fs/cache.c:242-252 | issues exactly the writes of a commit of the views of the logged blocks |
| `BlockCache.Cache.EndOp` | src/fs/cache.c:254-275 | the last operation makes the batch durable, all or nothing at any crash point; views of home blocks never change; the others change nothing on disk |
| `BlockCache.Cache.Recover` | src/fs/cache.c:148-155 | start-up writes what recovery writes and leaves the logical contents at home |
| `BlockCache.Cache.constructor` | src/fs/cache.c:158-172 | a fresh cache after recovery satisfies the invariant |
| `BlockCache.Cache.CrashBetweenCalls` | src/fs/cache.c:148-155 | a crash between calls, with any recoveries, loses nothing that was on disk |
| `LogRun.Machine.CrashAnywhere` | src/fs/cache.c:148-275 | take any run of the cache and cut its block writes off anywhere: recovery, interrupted and rerun any number of times, gives the home blocks of the last commit whose header was among the writes |
| `LogRun.RunCommit` | src/fs/cache.c:231-275 | a commit that is all or nothing on its own extends a run for which that holds |
| `LogRun.Machine.EndOp` | src/fs/cache.c:254-275 | a commit with something to write adds one state to the history, dated by its header write; any other end adds none |
| `LogRun.Machine.constructor` | src/fs/cache.c:158-172 | start-up begins a run, from whatever an interrupted commit left |
| `RunQueue.OrderIffWindow` | src/kernel/sched.c:32-40 | the comparison is a strict total order on a set exactly if its keys lie in a window shorter than 2^63 |
| `RunQueue.CircleIsNoOrder` | src/kernel/cpu.c:11-19 | three keys for which it is none |
| `RunQueue.WindowBefore` | src/kernel/sched.c:32-40 | inside a window the comparison is that of the distances from its start, and of two equal run times the one at the lower address comes first |
| `RunQueue.WindowTree` | src/kernel/cpu.c:11-19 | inside a window the trees can search by the comparison, and only a node itself is equivalent to it |
| `RunQueue.FirstLeast` | src/common/rbtree.c:289-297 | the first node in order is the least |
| `RunQueue.TreeInsert` | src/common/rbtree.c:247-270 | for keys in any window shorter than 2^63, the order that the tree insertion leaves is the sorted queue with the node inserted |
| `RunQueue.TreeErase` | src/common/rbtree.c:271-276 | the order that the tree erasure leaves is the queue without the node |
| `RunQueue.InsertSorted` | src/common/rbtree.c:247-270 | for keys in any such window insertion keeps a queue sorted |
| `RunQueue.RemoveSorted` | src/kernel/sched.c:140-143 | erasing an entry whose key was changed before leaves a sorted queue |
| `RunQueue.FirstExInOrder` | src/kernel/sched.c:152-170 | the recursive search of the tree finds the first node in order that is no skipped group |
| `QueueTree.Queue.Enqueue` | src/common/rbtree.c:247-270 | on the tree itself, with the comparison of run times: 0, and the order of the nodes is the sorted queue with the node inserted |
| `QueueTree.Queue.Unqueue` | src/common/rbtree.c:271-276 | the order of the nodes is the queue without the node, whatever its run time is by now |
| `QueueTree.Queue.Reenter` | src/kernel/sched.c:140-143 | erasing, charging and inserting again leaves a sorted tree |
| `QueueTree.Queue.FirstExcept` | src/kernel/sched.c:152-170 | the recursion over the nodes in memory returns the first entry of the queue that is no skipped group |
| `QueueTree.Queue.First` | src/common/rbtree.c:289-297 | the least entry, NULL exactly for the empty queue |
| `PickNext.RunQueues.PickNextR` | src/kernel/sched.c:185-221 | terminates, by the number of unmarked groups and then the depth below; returns no process exactly if none is reachable, otherwise the best one, taken out of its queue, with the count never negative |
| `PickNext.RunQueues.FixSkip` | src/kernel/sched.c:172-183 | clears the marks of everything below the entries it is called on |
| `PickNext.RunQueues.PickNext` | src/kernel/sched.c:223-227 | the best process, and all skip marks clear |
| `PickNext.BestUnique` | src/kernel/sched.c:185-221 | at most one process is reached by taking, at every level, the least entry with a runnable descendant |
| `PickNext.BestExists` | src/kernel/sched.c:185-221 | and one is whenever some process is reachable |
| `Sched.Scheduler.Activate` | src/kernel/sched.c:101-121 | a sleeping or unused process (deep sleepers not on alert) becomes runnable and enters its queue; the ASSERT holds; anything else changes nothing |
| `Sched.Scheduler.UpdateThisState` | src/kernel/sched.c:123-150 | a process that stays runnable, and every container up to the root, is charged exactly the clock less the time at which the process came to its CPU, modulo 2^64, and nobody else is charged; all queues are sorted again, with the same groups, provided that the run times of before and after the charge lie in one window |
| `Sched.Scheduler.ChargeContainers` | src/kernel/sched.c:137-147 | the loop over the containers ends with exactly the containers of the chain charged and the contents of all queues as before |
| `Sched.ChainAbove` | src/kernel/sched.c:137-147 | the containers of that chain are those that following the parent fields from the process's container reaches before the root |
| `Sched.Scheduler.SimpleSched` | src/kernel/sched.c:252-274 | in any state the CPU takes up the best runnable process or its idle process; a process that is switched to has the clock as its start time, and every other process keeps its own; who is charged how much is as for `UpdateThisState`; both ASSERTs hold; a killed process only leaves to become a zombie; the invariant over all CPUs is kept |
| `Sched.Scheduler.Switch` | src/kernel/sched.c:260-272 | the process that is switched to was runnable and is now running on this CPU only |
| `Sched.Scheduler.ActivateGroup` | src/kernel/sched.c:229-236 | a group that is in no queue enters its parent's |
| `Sched.Scheduler.constructor` | src/kernel/sched.c:60-67 | every CPU runs its idle process |
| `Sched.Scheduler.AddContainer` | src/kernel/container.c:38-47 | a new container is in the tree and in no queue; the invariant holds exactly if its run time 0 lies in a window with the others |
| `Sched.Scheduler.SetContainer` | src/kernel/container.c:18-20 | the container of an unused process is chosen; the invariant holds exactly if its run time 0 lies in a window with the others |
| `Sched.Scheduler.Kill` | src/kernel/proc.c:184-188 | the flag is set, and only a sleeping process becomes runnable |
| `Sched.Scheduler.Reap` | src/kernel/proc.c:138-150 | freeing a zombie keeps the invariant, and its run time no longer counts |
| `Sched.MixedWindow` | src/kernel/sched.c:137-147 | while the containers are charged one by one, charged and uncharged run times lie in one window, so the trees stay ordered in between |
| `Sched.ChargeFits` | src/kernel/sched.c:127-131 | a window with room for the charge is enough for that |
| `Sched.LateProcess` | src/kernel/sched.c:73-78 | a process that starts when the only other run time is 2^63: the two cannot be ordered |
| `Sched.AroundTheClock` | src/kernel/sched.c:123-150 | a run from start-up: of two new processes the one at the lower address is first; each runs for 2^63 - 1 twice, in turns, while the clock goes around; then one that comes at 1000 and leaves at 1005 goes from 2^64 - 2 to 3, and one that comes at 1007 and leaves at 1017 from 2^64 - 2 to 8 |
| `Sched.QueuedOnce` | src/kernel/sched.c:101-150 | in every state a process is in its container's queue exactly once if runnable and not idle, and in no other |
| `BlockMap.DirectStep` | src/fs/inode.c:230-238 | a new direct block changes the map at one place only |
| `BlockMap.SlotStep` | src/fs/inode.c:246-256 | a new slot of the indirect block changes the map at one place only |
| `BlockMap.AddrBytes` | src/fs/defines.h:67-70 | the k-th number of the indirect block is the little-endian number at byte 4k |
| `BlockMap.MappedFiles` | src/fs/inode.c:226-260 | mapping the next block keeps every file's blocks distinct and disjoint from every other file's, and every file's bytes |
| `BlockMap.WritingStep` | src/fs/inode.c:300-307 | one chunk of a write puts its bytes in place and changes no other byte of any file |
| `BlockMap.WritingEnd` | src/fs/inode.c:308-313 | after the last chunk the file holds the spliced bytes, and its entry differs from before only if it grew |
| `BlockMap.SpliceAt` | src/fs/inode.c:290-314 | the spliced bytes one by one: the source inside the range, the old byte outside, and the length of whichever is longer |
| `BlockMap.EmptiedFiles` | src/fs/inode.c:155-178 | freeing exactly a file's blocks leaves every other file intact |
| `BlockMap.ApartWrite` | src/fs/inode.c:290-314 | blocks that are marked and no file owns, such as those of the log, the inodes and the bitmap, are owned by none after a write and hold what they held |
| `BlockMap.KeptMapped` | src/fs/inode.c:226-260 | a mapping writes only into blocks of the file or newly marked ones, and takes no marked block |
| `BlockMap.MappedCount` | src/fs/inode.c:226-260 | how many blocks a mapping takes: none, one, or two with a new indirect block |
| `Inode.FileSystem.Alloc` | src/fs/cache.c:288-308 | the lowest free block, zeroed; PANIC exactly if none is free or the operation has too little quota for the block and its bitmap block |
| `Inode.FileSystem.InodeMap` | src/fs/inode.c:226-260 | the block at an index, allocated if it was missing; fails exactly if out of range, short of blocks, or short of quota for what is new; changes nothing if the block was there |
| `Inode.FileSystem.Read` | src/fs/inode.c:264-286 | the slice of the file in the range, cut at its end; an ASSERT fails exactly if the offset is beyond the end or the range wraps around 64 bits; nothing is allocated |
| `Inode.FileSystem.Write` | src/fs/inode.c:290-314 | the bytes are spliced in, other files and reserved blocks are untouched, and the entry on disk is that in memory; fails exactly if the offset is beyond the end, the end beyond the maximum, the blocks free are fewer than it takes, or the blocks it syncs (data, bitmap, indirect, inode) that are not logged yet are more than the quota left; that set is computed from size, offset, count and map |
| `FileQuota.TrackedStep` | src/fs/inode.c:300-307 | what one chunk syncs: the closed form for the bytes so far, with the chunk, is that without it plus what its mapping and its data block touch |
| `FileQuota.DataMono` | src/fs/inode.c:300-307 | a shorter write syncs no block that a longer one does not |
| `Quota.ChargeBoth` | src/fs/cache.c:213-222 | charging two sets of blocks one after the other is charging their union: it is affordable in one order exactly if it is in the other |
| `Quota.ChargeBlock` | src/fs/cache.c:202-224 | one block costs one of the operation's quota, and only if the header does not name it yet |
| `Inode.TenBlocksTooMany` | src/fs/cache.c:213-222 | 5120 bytes at the start of an empty file do not fit in a fresh operation although the device has room for them: it is the quota that fails |
| `Inode.TenBlocksInput` | src/fs/cache.c:213-222 | such a file on a device of 22 blocks of which three are marked |
| `Inode.FileSystem.Clear` | src/fs/inode.c:155-178 | the file is empty and exactly its direct, listed and indirect blocks are free, each freed once; fails exactly if the quota does not cover their bitmap blocks and the inode block: the PANIC of a double free cannot happen; kind, device numbers and links of the entry stay, size and block numbers are 0 |
| `Inode.FileSystem.Put` | src/fs/inode.c:191-214 | the last reference to a file without links frees it under its lock, and fails exactly if the lock is held or the quota is exceeded; otherwise only the count changes |
| `Inode.FileSystem.Get` | src/fs/inode.c:117-152 | the entry in memory is that on disk, with one reference more; an ASSERT fails exactly for the number 0 and numbers beyond the last inode; that on the lock of a new inode holds |
| `InodeDisk.EntryRoundTrip` | src/fs/defines.h:57-65 | an inode entry written as 64 bytes is what is read back |
| `InodeDisk.InodeBytes` | src/fs/defines.h:57-65 | where an inode's entry and each of its fields lie: eight entries of 64 bytes a block, in an entry the two-byte kind, major, minor and link count at bytes 0 to 7, the size at 8, the direct block numbers from 12 on and the indirect one at 60, all little-endian |
| `InodeDisk.SyncOne` | src/fs/inode.c:99-111 | writing one inode's entry into the inode blocks changes no other inode's |
| `FileLog.Mount.DurableWrite` | src/fs/inode.c:290-314 | a write as an operation of its own: cut its block writes off anywhere and recover, interrupted and rerun any number of times, and the disk holds either all files, marks and entries of before or all of those with the bytes in place; the write succeeds exactly if it fits and its blocks fit in the quota |
| `FileLog.Mount.CrashFiles` | src/fs/cache.c:148-155 | the same for whole runs of operations: the files of the last commit |
| `FileLog.Mount.Write` | src/fs/inode.c:290-314 | after the blocks that a write syncs went through the cache, what the cache shows holds the files with the bytes in place, and the log is charged as the file layer says |
| `FileLog.Mount.End` | src/fs/cache.c:254-275 | the last operation makes the files of now durable; the files do not change |
| `FileLog.Mount.Begin` | src/fs/cache.c:180-199 | an operation gets its quota, and always if it is the only one |
| `FileLog.Format` | src/fs/inode.c:117-152 | a disk of 80 blocks with an empty file whose mounted file system is a valid state |
| `FileImage.WrittenRep` | src/fs/inode.c:290-314 | with the synced blocks in place the bytes of the disk (data, bitmap bits, inode entries) stand for the files after the write |
| `FileImage.RepHome` | src/fs/cache.c:134-155 | what a disk says about files depends on its home blocks alone |
| `FileImage.FileOn` | src/fs/inode.c:264-286 | a file read from such a disk itself, by the entry in its inode block, has the contents of the file |
| `FileImage.FileBytes` | src/fs/inode.c:264-286 | a reader that knows only byte offsets (the size and block numbers in the inode's entry, the numbers in the indirect block, the byte in its block) finds every byte of every file on the disk |
| `FileImage.MarkBytes` | src/fs/cache.c:295-297 | a block is marked exactly if the bit of its number is set: bitmap block b / 4096, byte b / 8 modulo 512, bit b modulo 8 |
| `FileImage.TouchApart` | src/fs/inode.c:290-314 | of the reserved blocks a write syncs only bitmap blocks and the inode block of its file |
| `Directory.Strncmp` | src/common/string.c:68-77 | zero exactly for strings with the same normalised name |
| `Directory.Strncpy` | src/common/string.c:48-56 | the normalised name |
| `Directory.EntryBytes` | src/fs/defines.h:73-76 | the inode number of an entry is in its first two bytes, little-endian, and its name, up to a zero or the end, in the fourteen after them |
| `Directory.Lookup` | src/fs/inode.c:318-343 | agrees with the map that the directory means, and finds the entry's index |
| `Directory.Insert` | src/fs/inode.c:346-369 | refuses a name that is bound, and otherwise adds exactly one binding at the returned index: every entry before it is in use, and it is free or the end of the file; other files are untouched; fails exactly if the file is no directory or the entry cannot be written at that first free place |
| `Directory.Remove` | src/fs/inode.c:372-379 | zeroes an entry of bytes at any index; at an entry's index exactly its binding goes, at the end a free entry is added; fails exactly if the file is no directory or the write does |
| `Directory.Added` | src/fs/inode.c:364-366 | writing a new entry in a free place adds one binding to the map and keeps names unique |
| `Directory.Cleared` | src/fs/inode.c:376-377 | zeroing an entry removes its binding and no other |
| `Bitmap.Device.Alloc` | src/fs/cache.c:288-308 | bit by bit, the lowest clear bit is set and its block zeroed, and no other bit changes; fails exactly if all are set or the quota is too small, and the scan never ends exactly if all are set and the 32-bit counter wraps |
| `Bitmap.Device.Free` | src/fs/cache.c:312-325 | PANIC exactly if the bit is clear or the bitmap block exceeds the quota; otherwise only that bit is cleared |
| `Bitmap.SetBit` | src/fs/cache.c:296-298 | setting the bit of one block changes no other block's |
| `Bitmap.ClearBit` | src/fs/cache.c:318-322 | clearing it neither |
| `Bitmap.BitPlace` | src/fs/cache.c:295-297 | the bit of block b is bit b modulo 8 of byte b / 8 modulo 512 of bitmap block b / 4096 |
| `Sem.Semaphore.Post` | src/common/sem.c:74-82 | the value counts initial plus posts less grants less sleepers; a post with sleepers grants the oldest one; the ASSERT holds |
| `Sem.Semaphore.WaitStart` | src/common/sem.c:48-58 | takes a grant exactly if one is there, else joins the sleepers |
| `Sem.Semaphore.WaitEnd` | src/common/sem.c:62-71 | true exactly if granted; a sleeper that was not leaves the list, and the ASSERT holds |
| `Sem.Semaphore.WaitKilled` | src/common/sem.c:48-71 | the wait of a killed process with any events of others while the lock is dropped: true exactly if a grant was there or the events that bring it forward outnumber the sleepers before it, with the exact value after it |
| `Sem.KilledGap` | src/kernel/sched.c:255-258 | with posts alone: exactly if they are more than the sleepers before it |
| `Sem.KilledIff` | src/common/sem.c:60-69 | without a grant, any posts, gets, arrivals and departures in the gap grant the killed process exactly if posts and departures of sleepers before it outnumber these |
| `Sem.GrantedIff` | src/common/sem.c:60-82 | the same for any sleeper, with the sleepers before it |
| `Sem.PostAllEvents` | src/common/sem.c:34-42 | post_all_sem is a post for every sleeper, one more, and a get |
| `Sem.KilledPassed` | src/common/sem.c:60-62 | no grant and no sleeper, one post in the gap: the killed process passes |
| `Sem.KilledBehind` | src/common/sem.c:60-69 | one older sleeper gives up and one post comes: the killed process passes |
| `Sem.Semaphore.PostAll` | src/common/sem.c:34-42 | terminates, grants all sleepers, returns their number, and leaves what was available |
| `Sem.Semaphore.Get` | src/common/sem.c:12-19 | takes a grant exactly if one is there |
| `Sem.Semaphore.GetAll` | src/common/sem.c:23-32 | takes all that are there |
| `Sem.OldestFirst` | src/common/sem.c:74-82 | a sleeper with k older ones is granted by exactly the posts after the k-th |
| `Sem.PostedOk` | src/common/sem.c:74-82 | a post adds exactly one token and keeps as many sleepers as the value is negative |
| `Ring.Lists.Merge` | src/common/list.c:8-32 | two rings become one, the second right after the first node, and other rings are untouched |
| `Ring.Lists.Detach` | src/common/list.c:34-44 | the node becomes a ring of its own and the others stay one |
| `Ring.Lists.InitNode` | src/common/list.c:3-6 | the node is a ring of its own |
| `Ring.Lists.MoveAll` | src/kernel/proc.c:72-84 | the children go to the end of the adopter's list, the first of them last |
| `ProcTree.ExitInv` | src/kernel/proc.c:44-96 | an exit, with all its posts and reparenting, keeps: lists and parent pointers agree, parents are older than children, and every process has as many tokens as unreaped zombie children |
| `ProcTree.Tree.Exit` | src/kernel/proc.c:44-96 | exit code, posts, reparenting, list operations, the freeing of the address space and the return of the pid amount to that step, and every field of every process is said: the process is a zombie with its code and without children, which are at the end of the first process's list, the first of them last; the pid is the next to be given out; the ASSERT fails exactly for the first process of a container |
| `ProcTree.Tree.WaitReap` | src/kernel/proc.c:132-153 | a process that took a token finds a zombie child: the PANIC is unreachable; local pid, exit code and pid are those of the first zombie child, which is gone for good, and its local pid is free again |
| `ProcTree.Tree.ExitThenWait` | src/kernel/proc.c:44-153 | an exit with a code and the parent's wait after it: the parent gets the code, the pid and the local pid, and the child is gone |
| `ProcTree.TokenMeansZombie` | src/kernel/proc.c:132-152 | a token taken and not used means an unreaped zombie child |
| `ProcTree.ReapInv` | src/kernel/proc.c:138-150 | reaping keeps the invariant |
| `ProcTree.Tree.WaitStart` | src/kernel/proc.c:109-127 | -1 exactly without children; otherwise a token is taken or waited for |
| `ProcTree.Tree.WaitWake` | src/kernel/proc.c:127-131 | an alerted process that was not granted gives up without a token |
| `ProcTree.Tree.StartProc` | src/kernel/proc.c:202-223 | a process without a parent becomes a child of the root process and gets the returned local pid; the pool is empty exactly if 100 processes of the container are started and not reaped |
| `ProcTree.Tree.SetParentToThis` | src/kernel/proc.c:35-42 | the new process is the first child of its creator |
| `ProcTree.Tree.SetContainerToThis` | src/kernel/container.c:18-20 | it joins its creator's container |
| `ProcTree.Tree.CreateContainer` | src/kernel/container.c:38-47 | it is the first process of a new container, whose local pids are all free |
| `ProcTree.Tree.CreateProc` | src/kernel/proc.c:225-243 | a new record with a free pid, in no list; the pool is empty exactly if 99 processes have not exited |
| `ProcTree.Tree.Kill` | src/kernel/proc.c:176-193 | 0 exactly if some started process has the pid, and then the first one in the order of the search is marked |
| `ProcTree.Tree.Search` | src/kernel/proc.c:155-174 | the first match in the order of the tree |
| `ProcTree.FindComplete` | src/kernel/proc.c:155-174 | the search from the root misses no process |
| `ProcTree.KillReaches` | src/kernel/proc.c:155-193 | kill marks the living process with the pid exactly if no zombie with the same pid comes before it in the tree order |
| `PidReuse.ZombieKilled` | src/kernel/proc.c:89-93 | a run of the table from start-up: a process gets the pid of one that exited, and kill marks the zombie and not the living process |
| `ProcTree.FindFirst` | src/kernel/proc.c:155-174 | the recursive search takes the first match of the tree written out in order |
| `ProcTree.UniquePids` | src/kernel/proc.c:89-146 | every pid belongs to at most one process that has not exited, every local pid to at most one process of its container that is not reaped, and the pools count exactly these |
| `PidPool.IssueTake` | src/kernel/proc.c:229-230 | the pid taken belonged to nobody, and the pids in use are those held |
| `PidPool.IssueGive` | src/kernel/proc.c:90-92 | a pid goes back once: there is room for it in the array, and it is free then |
| `PidPool.IssuedCount` | src/kernel/container.h:8-11 | no pid is lost: as many are taken as are held |
| `ProcTree.ExitZombies` | src/kernel/proc.c:60-87 | how an exit changes the number of zombie children of every process |
| `PageTable.SameParts` | src/aarch64/mmu.h:68-71 | two addresses have the same four indices exactly if they lie in the same 48-bit page |
| `PageTable.SplitPage` | src/aarch64/mmu.h:68-71 | the four indices are the digits of the page number to the base 512, the highest first |
| `PageTable.EntryTarget` | src/aarch64/mmu.h:47-63 | the address in a table entry is that of the table |
| `PageTable.LeafIs` | src/kernel/pt.c:122 | the bitwise or of address, flags and valid bit, bit by bit and as a sum where no bits meet |
| `Bits.OrSplit` | src/kernel/pt.c:122 | the or of two words is that of their high and of their low parts |
| `PageTable.PageDir.GetPte` | src/kernel/pt.c:13-58 | the slot for an address; no page's entry changes even when tables are created; without alloc nothing changes, and NULL comes exactly if no table leads there, and then the page has no entry; with alloc the supply of pages is exhausted exactly if it is smaller than the number of tables missing |
| `PageTable.PageDir.Vmmap` | src/kernel/pt.c:120-123 | if the supply covers the tables missing, the entry of the page is valid, its bits are those of the physical address and of the flags with the valid bit, and for a page and flags outside the address bits it leads to that page; all addresses of the page share the entry, and every other page keeps its own |
| `PageTable.GrownSame` | src/kernel/pt.c:28-34 | a new table changes the entry of no page |
| `PageTable.OneTable` | src/kernel/pt.c:13-58 | one table has given indices |
| `PageTable.HardwareWalk` | src/aarch64/mmu.h:47-71 | the walk of the hardware, by bits 39-47, 30-38, 21-29 and 12-20 of the address over tables whose entries are the address of the next one with the two low bits set, ends at the entry of the page |
| `PageTable.PageDir.FreePtR` | src/kernel/pt.c:70-84 | frees every table below, each once, and no leaf page |
| `PageTable.PageDir.FreePgdir` | src/kernel/pt.c:91-94 | after the sections, every table of the directory is freed once, and nothing else |
| `Sections.FreeSpace` | src/kernel/pt.c:86-95 | the pages of the sections go to the free pages, then every table, each once; the extents that are released are those of the swapped pages |
| `Sections.FreeSections` | src/kernel/paging.c:248-264 | section by section and page by page: a slot with a swap address gives back the extent, any other slot a page, and an address without table nothing; the tables are untouched |
| `Sections.PagesOften` | src/kernel/paging.c:253-260 | a page is given back as often as addresses of the sections lead to it |
| `Sections.PageZero` | src/kernel/paging.c:254-259 | the page at physical address 0 is given back exactly for an address with a table and no entry, or whose entry leads there |
| `Sections.SwappedOut` | src/kernel/paging.c:254-257 | the entry that swapping out leaves gives back the extent that was swapped to |
| `Sections.ValidPage` | src/kernel/paging.c:254-259 | a valid entry gives back the page at its address |
| `Sections.UntouchedPage` | src/kernel/paging.c:254-259 | an address space with one page touched and its neighbour in a section: that page is given back |
| `Slab.Inside` | src/kernel/mem.c:137-142 | for every size an object lies in its page, behind header and index array and before the CacheNode |
| `Slab.NumBounds` | src/kernel/mem.c:182-184 | a slab has as many objects as fit |
| `Slab.ObjectAt` | src/kernel/mem.c:137-142 | the objects of a slab follow each other from the first multiple of 8 above header and index array |
| `Slab.Disjoint` | src/kernel/mem.c:137-142 | different objects do not overlap, whatever their slabs and sizes |
| `Slab.Aligned` | src/kernel/mem.c:137-142 | an object is aligned as its size is, up to 8 |
| `Slab.IndexOf` | src/kernel/mem.c:144-149 | the index computed from an address is the object's |
| `Slab.ExactlyOne` | src/kernel/mem.c:126-149 | the indices of a slab split exactly into free, cached and live ones |
| `Slab.LiveSafe` | src/kernel/mem.c:172-279 | in every reachable state two objects do not overlap |
| `Slab.MoveInv` | src/kernel/mem.c:172-279 | moving one object between index array, stack and client keeps the invariant |
| `Slab.GivenOut` | src/kernel/mem.c:250-254 | a slab with a cached object has given it out: the index of a flush cannot underflow |
| `Slab.Allocator.Kalloc` | src/kernel/mem.c:172-247 | on every path the client gets an object of the size that nobody had, and all others keep theirs: the top of this CPU's stack if there is one, else one that is free in a slab of the lists for allocation, and only if neither exists one on a new page; no per-CPU array exceeds its ten entries; fails exactly if there is neither such an object nor a page |
| `Slab.Reach` | src/kernel/mem.c:197-233 | the lists and the stack are empty exactly if no object of the size is on this CPU's stack or free in a slab of the lists |
| `Slab.Allocator.Kfree` | src/kernel/mem.c:263-279 | the client loses just that object, which is on top of the CPU's stack; the store into the per-CPU array is in bounds; the branch that would give a page back is never taken |
| `Slab.FreeThenTake` | src/kernel/mem.c:172-279 | an object that is freed is the next one of its size on that CPU, even without a page |
| `Slab.Allocator.FlushArray` | src/kernel/mem.c:250-261 | the top of the stack goes back to its slab, as the next object that the slab gives out; the slab is then in the partial list, the free list or no list, by how many of its objects are free; clients keep what they have |
| `Slab.Allocator.AllocObj` | src/kernel/mem.c:205-233 | a slab from a list for allocation has an object left, which goes to the client; the slab leaves those lists when it has none left |
| `Swap.SwapArea.FindAndSet` | src/fs/cache.c:334-368 | the lowest extent that is not held, at an offset divisible by 8; PANIC exactly if all 25 are held |
| `Swap.SwapArea.Search` | src/fs/cache.c:341-354 | eight free slots in a row are a whole extent |
| `Swap.SwapArea.Release` | src/fs/cache.c:327-332 | for any block number, exactly the slots of the map at the eight blocks from it on are cleared; a held extent's number frees that extent and no other, and any other number keeps the map a union of whole extents exactly if the extents it reaches into were not held |
| `Swap.SwapArea.SwapOutAndIn` | src/fs/cache.c:327-368 | the extent that is found can be released by its number, and then all is as before |

## Left out

- SD card, UART, mailbox, clock and interrupt drivers, assembly and boot code: there is no model of the hardware to prove against.
- System calls, pipes, files and consoles above the inode layer, which pass arguments on to it, `mkfs`, formatting and the other string helpers.
- Page faults and swapping in `src/kernel/paging.c`, `write_page_to_disk` and `src/common/ipc.c`.
- The lock-free page stack: `kalloc_page` is a supply of fresh aligned pages; it can run out.
- The word that holds a tree node's parent and colour: the model has two fields, so the masking of the low bits (`src/common/rbtree.c:4-24`) is not modelled.
- Threads that queue for the same cached block, liveness of the log waits, and durability for a caller of `end_op` that is not the last: a block has one holder, and a wait is the guard of the step that follows it.
- The super block: the log area is taken to have room for 63 slots after its header, while `mkfs` counts the header in; clients of the cache do not touch blocks of the log area.
- `sync` without a context inside an atomic operation, which the cache's own header warns of.
- The loop that initialises the swap map, which indexes by block number (`src/fs/cache.c:174-176`): the model starts from a map that is all free.
- `Sched.Scheduler.UpdateThisState`: a charge that would spread the run times over 2^63 or more is not modelled, since the comparison is then no order (`RunQueue.OrderIffWindow`); the weights of containers, which are all 1, are not modelled. A process that is picked again right away keeps its start time, and is charged for it again; the model does the same.
- `Sched.Scheduler.SimpleSched`: the same bound as for `Sched.Scheduler.UpdateThisState`; the context switch, the timers and the page directory are not modelled.
- `PickNext.RunQueues.FixSkip`: visits the entries of a queue in their order, not in the order of the tree; the set of marks cleared is the same.
- `PickNext.RunQueues.Enqueue`: queues are the orders of their trees, and `QueueTree.Queue` does the same on a tree; a node that is queued already, which the source would unlink before it answers -1, is refused unchanged.
- `Inode.FileSystem.Alloc`: the scan that allocates inodes (`src/fs/inode.c:63-81`) is not modelled, and neither are locks and the list of inodes in memory.
- `Inode.FileSystem.Write`: the blocks of the device are a sequence over which the cache is transparent, and the entries on disk a map; `FileLog.Mount` runs it on the cache, where `FileImage.Rep` ties blocks, marks and entries to the bytes of a disk. Block 0 is taken to be marked in the bitmap.
- `Inode.FileSystem.Put`: the spin lock around the reference count is not modelled; a call is one step. A held inode lock, for which the call would wait, counts as a failure.
- `FileLog.Mount.Write`: every block that the write syncs goes through the cache once, with its final contents, in any order; the file layer stores some of them several times, in its own order, which nobody sees before the commit. Only writes are composed with the log, not truncation.
- `Sections.FreeSections`: sections do not reach the last page of the 64-bit range, where the address would wrap; the pages that are mapped hold no tables.
- `Directory.Remove`: at an index between two entries only the bytes are stated, not which names they then mean.
- `Sem.Semaphore.constructor`: a negative initial value is not modelled.
- `ProcTree.Tree.CreateProc`: a pool that is empty is read past its end by the source; the model returns false there.
- `ProcTree.Tree.StartProc`: the same for the pool of local pids.
- `PageTable.PageDir.GetPte`: the indices are computed by division and remainder, which is what masking and shifting unsigned words compute.
- `Slab.Allocator.Kalloc`: sizes 0 and from 2048 on are not modelled; that no page leaks is not claimed, since a partly used slab can leave all lists on a flush.
