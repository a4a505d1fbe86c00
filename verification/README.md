# A model of biased reference counting

`Brc` is a reference-counted pointer whose header splits one count into two
words: a *biased* word, which only the owner thread writes and writes without
read-modify-write instructions, and a *shared* word, a signed count with a
`merged` and a `queued` bit that every thread updates atomically. The shared
half may go negative; the thread that first makes it negative hands the object
to the queue of its owner, who merges the halves. A dying owner's queue is
processed by whoever drops the last reference to it, and later requests merge
on the spot. Weak references, a lock on the weak count and `get_mut` sit on top.

The project has two halves that share the word operations of `Words.dfy`.

**The protocol** (`Protocol.dfy`) is a state machine over any number of
threads, objects, handles and operations in flight. One step is one atomic
access of one operation together with the thread-local code up to the next
access; memory is sequentially consistent. The state records which strong and
weak handles exist, which operation holds which right, how often each value
was destroyed and each allocation freed, every owner's flag, queue and
references to that queue. A handle that an operation drops or borrows mutably
is claimed by it, a handle that it only reads through is borrowed, as Rust's
ownership rules demand of the callers; `is_unique` exists in both forms, with
the borrowed handle of the public function and the exclusive one of `get_mut`.
Internal checks of the code lead to a `Panicked` position, or in `strong_count`
to the answer `Negative`, so that it can be proved when they fail. `Invariant.dfy`
states what every step keeps, `Frame.dfy` puts it back together from what each
operation relies on, `CountSteps`, `QueueSteps`, `WeakSteps` and `ThreadSteps`
do so step by step, and `Preservation.dfy` joins them. `CarefulRuns.dfy` derives the
assumption of the next section from one that callers can keep, and `Progress.dfy`
shows that no operation gets stuck. `Theorems.dfy`,
`WeakTheorems.dfy` and `Wakeup.dfy` draw the conclusions for all runs,
`Evolution.dfy` those about a state and any later one. `Effects.dfy` says of every
call and every access what it amounts to in a reached state, in terms of handles,
owners and queues, and that the calls can start whenever they should.

**The objects** are classes that run the code of one call: the header over its
raw 32- and 64-bit words (`Header.dfy`, on `Packing.dfy`), the weak count
(`WeakCount.dfy`), the table of threads and the thread-locals (`Registry.dfy`),
the allocation's layout (`Layout.dfy`), and a heap of values that hold handles
(`Cascade.dfy`, on the values of `HandleWorld.dfy`), on which the recursion of
collecting, merging, destroying and dropping is shown to end while other threads
drop handles and push onto queues. Compare-exchange loops take the words other
threads leave behind between attempts as an argument.

## The one assumption, and what happens without it

Two steps can go wrong at a shared half that owes references.
`increment_strong_shared` adds 1 to the raw word; a count of -1 is all ones, so
the addition carries out of the count into `merged`. And an owner that drops its
last biased reference merges without looking at `queued` (src/runtime.rs:484-509).
A step is *polite* if it is neither a raw increment of -1 nor an implicit merge of
a queued object; `Reached` and `Leads` speak of runs of polite steps. This is
exact: from any state of the invariant, a step keeps the invariant if and only if
it is polite (`Impolite.dfy`); in particular upgrades from any count do.

A caller cannot see whether its object is queued. The promise it can keep is to
be *careful*: no shared increment of -1, except an upgrade after the owner has
departed. `CarefulRuns.dfy` proves that careful runs are polite, because in
them an object whose owner is still there is queued only while its shared count
is negative; an upgrade preserves that if and only if it is careful. In such runs
the owner never meets a queued object when it merges.

`Impolite.dfy` also has two complete runs, from threads that have not touched the
crate: after the first two handles are live and the header says "merged, count
zero"; after the second a value is condemned while an operation still carries its
object to the queue.

## Where three guarantees end

Three properties hold less far than the code's comments suggest, in polite runs
too. For each of them `WeakTheorems` has the exact condition, and `Runs.dfy` a
complete run in which it fails.

- `strong_count` on a thread without a short id compares the owner it loads with
  its own missing id. If a merge gives up ownership between the two loads, it
  adds 0 to the shared half: too little, and below zero if that half was
  negative, which fails the check on the sum (src/runtime.rs:203-216) or, without
  debug assertions, returns a number near 2^64. With a short id, or on a word
  that was merged at the first load, it never does.
- A merge that leaves the value alive stores UNOWNED after it has given up its
  reference (src/runtime.rs:504-505 and 920-922). The header is still there at
  that store if and only if somebody else has a strong or weak handle or works
  on the object.
- `is_unique` answers for the instant of its shared load. Its documentation
  rules out false positives (src/strong.rs:457-462). For `get_mut`, which has the
  handle to itself, a true answer stays true; through a shared borrow another
  thread may have cloned the same handle in the meantime, and the answer is still
  true when it is given if and only if the shared count has not changed.

The code departs from its documentation in three more places, where the model
follows the code: incrementing the shared count is not "always safe"
(src/runtime.rs:338-339), short thread ids have 12 bits, not 18
(src/runtime/threads.rs:594-600), and `OVERFLOW_THRESHOLD` is compared with the
count before the addition, not with its result (src/runtime.rs:344-347).

## Steps

| step of `Protocol` | code |
|---|---|
| `InitThread`, `Create` | src/runtime/threads.rs:504-564, src/runtime.rs:120-166 |
| `CloneBegin`, `IncStoreStep`, `CloneSharedStep`, `CloneDirect` | src/runtime.rs:282-348, src/strong.rs:850-884 |
| `UpgradeBegin`, `UpgradeSharedStep` | src/runtime.rs:353-391, src/weak.rs:190-201 |
| `DropBegin`, `DropStoreStep`, `DropMergeStep`, `DropSharedStep` | src/runtime.rs:413-576 |
| `LoadOwnerStep`, `UpgradeQueueStep`, `PushStep`, `RaiseFlagStep`, `DropArcStep`, `CheckDeadStep` | src/runtime.rs:596-616, src/runtime/threads.rs:168-205 |
| `MergeLoadStep`, `MergeCasStep`, `StoreUnownedStep` | src/runtime.rs:866-937, src/runtime.rs:504-505 |
| `StartDestroyStep`, `ReleaseStep`, `FreeStep` | src/strong.rs:983-1032, src/layout.rs:47-71 |
| `Downgrade`, `WeakClone`, `WeakDrop` | src/strong.rs:580-613, src/weak.rs:254-285 |
| `UniqueBegin`, `LockWeakStep`, `UniqueSharedStep`, `UniqueBiasedStep`, `UnlockWeakStep`, `ReturnMut` | src/strong.rs:465-485, src/strong.rs:539-551, src/runtime.rs:240-259 |
| `CountBegin`, `CountBiasedStep`, `CountReturn` | src/runtime.rs:173-236 |
| `CollectBegin`, `CollectUpgradeStep`, `CollectPopStep`, `CollectResetStep`, `CollectCheckStep` | src/runtime/threads.rs:368-406, src/runtime/threads.rs:111-118 |
| `DeathBegin`, `DeathSwapStep`, `DeathArcStep`, `DrainStep`, `DeathDeadStep` | src/runtime/threads.rs:408-441, src/runtime/threads.rs:120-126 |

## Model

| member | source | states |
|---|---|---|
| `Theorems.CountingLaw` | src/runtime.rs:282-391 | in every state of every polite run the live strong handles number biased + shared while unmerged and shared once merged; while unmerged the creator owns the word, holds 1 to 2^20 - 1 references, and a negative shared half is queued |
| `Theorems.CountsInRange` | src/runtime.rs:444-553 | a shared decrement cannot underflow, a merged count is never negative, and the debug assertions of the biased increments and decrements hold |
| `Theorems.PlainStoresAreAtomic` | src/runtime.rs:282-307 | the biased word an owner loaded is still there when it stores, so load and plain store are one atomic increment or decrement, with a result between 1 and the 20-bit maximum |
| `Theorems.DestroyedOnceAndDead` | src/runtime.rs:502-508 | a value is destroyed at most once and only when no strong handle is live and the word is merged with count zero |
| `Theorems.OneDestroyer` | src/runtime.rs:923-932 | of the owner's last drop, a shared drop on a merged word and the queue's merge, at most one operation at a time holds the decision to destroy, and no destructor ran before it |
| `Theorems.UnattendedIsDestroyed` | src/runtime.rs:553-575 | an object without strong handles, which no operation works on and no queue holds, has been destroyed; without weak handles its memory has been freed |
| `Theorems.NoLeakAtRest` | src/runtime/threads.rs:168-205 | with nothing in flight and every live owner's queue processed, every object without strong handles has been destroyed, and freed if it has no weak ones |
| `Theorems.RestingQueue` | src/runtime/threads.rs:408-441 | with nothing in flight a departed owner has flag `Dead`, no queue reference and an empty queue |
| `Theorems.QueuedObjectIsIntact` | src/runtime/threads.rs:168-189 | an object in a queue is unmerged, undestroyed, unfreed, still owned by that queue's thread, and in no other place of any queue |
| `Theorems.CarriedObjectIsIntact` | src/runtime.rs:596-616 | the same from the moment `queued` is set until the push, and from the pop until the merge; one operation at a time carries it |
| `Theorems.QueuedAtMostOnce` | src/runtime.rs:545-571 | once an object has been queued, no later shared decrement in any continuation changes `queued` again |
| `Theorems.MergeIsStable` | src/runtime.rs:866-914 | `explicit_merge` for owner A runs on A or after A departed, finds the biased word it read unchanged at its compare-exchange, and leaves the number of live handles as merged count |
| `Theorems.NoInternalError` | src/runtime.rs:871-932 | no operation fails an internal check: owner id and `merged` in `explicit_merge`, its negative result, a queued object without owner, a live thread without queue, the flag checks of thread exit, or, on a registered thread, the sum in `strong_count`; on an unregistered one only that sum, only in `strong_count` |
| `Theorems.RegisteredCallersNeverFail` | src/runtime.rs:203-216 | if every thread that calls `strong_count` is registered, no operation anywhere fails an internal check |
| `Theorems.ClosedQueueOnlyShrinks` | src/runtime/threads.rs:120-126 | once the last reference to a departed owner's queue is gone it stays gone, nobody is about to push, and what is left only shrinks from the front |
| `Theorems.ClosedQueueIsDrained` | src/runtime/threads.rs:111-118 | at most one operation runs such a queue's destructor, and there is one as long as anything is queued |
| `Theorems.DeadOwnerLeavesNothing` | src/runtime/threads.rs:430-441 | with nothing in flight, every object that was ever queued for a departed owner is merged and unowned |
| `Theorems.DeathAndMergeAreFinal` | src/runtime/threads.rs:408-441 | `Dead`, `merged` and a settled queue request are final in every continuation |
| `Wakeup.NoLostWakeup` | src/runtime/threads.rs:171-189 | for a live owner with a non-empty queue the flag is `QueuedObjects`, or a pusher is about to raise it, or the owner is inside `collect_force` |
| `Wakeup.StepAwake` | src/runtime/threads.rs:378-399 | every step of every operation keeps this for all owners at once, including the flag reset and the emptiness re-check |
| `WeakTheorems.AllocationLifetime` | src/layout.rs:47-71 | unlocked, the weak count is the number of `Weak` handles plus one until the strong side lets go; the memory is freed at most once, after destruction, with no handle left, and whoever reaches zero frees it |
| `WeakTheorems.AllocationOutlivesUse` | src/strong.rs:983-1032 | the memory an operation works on is there, without condition for every access but the store of UNOWNED behind a merge that keeps the value, and for that one iff a strong or `Weak` handle is left or another operation works on the object; one operation at most is about to free |
| `WeakTheorems.HandleKeepsTrailingStore` | src/runtime.rs:504-505 | whoever keeps a handle of either kind until that store keeps it on live memory |
| `Runs.StoreOutlivesHeader` | src/runtime.rs:502-508 | a concrete polite run: the owner's drop merges, another thread drops the last handle and frees the header, and the owner's store is still to come |
| `WeakTheorems.LockExcludes` | src/strong.rs:472-481 | while the weak count is locked no `Weak` exists, the value is alive, no downgrade, weak clone or weak drop can complete, no destruction releases its reference, and one operation holds the lock |
| `WeakTheorems.UnlockLosesNothing` | src/strong.rs:478-481 | the plain store of 1 that unlocks writes the right count |
| `WeakTheorems.OwnerCheckMeans` | src/runtime.rs:240-244 | a thread passes the first check of `is_unique` iff it owns the object or the object is merged and unowned; one that is turned away could learn only a lower bound, or meets a merge under way |
| `WeakTheorems.UniqueStartsIff` | src/runtime.rs:240-244 | `is_unique`, with either kind of handle, goes on past the first load iff the thread owns the object or the object is merged and unowned |
| `WeakTheorems.LockTakenIff` | src/strong.rs:472-477 | the weak lock is taken, with either kind of handle, iff no `Weak` exists and nobody else has the lock, and the call answers no otherwise |
| `WeakTheorems.UnlockGrantsIff` | src/strong.rs:478-485 | the unlock leads to the `&mut` iff the answer is true and the handle exclusive, and never refuses it to the only handle |
| `Runs.GetMutSucceeds` | src/strong.rs:539-551 | a complete polite run: the owner of an unshared object gets its `&mut` |
| `WeakTheorems.UniqueRemembersItsLoad` | src/runtime.rs:254-259 | past that check and the lock, the count is known at the shared load, whatever the borrow, and no `Weak` exists |
| `WeakTheorems.UniqueAnswerIsRight` | src/strong.rs:465-485 | `is_unique`, called with a borrowed handle or an exclusive one, answers true iff its handle was the only strong one at its shared load, whatever other threads did since |
| `WeakTheorems.UniqueStillTrueIff` | src/strong.rs:465-485 | a handle found to be the only one still is when the answer is given iff the shared count is the one that was loaded, and with an exclusive handle it is |
| `WeakTheorems.UniqueUntilUnlock` | src/strong.rs:472-481 | until the unlock of a true answer no `Weak` exists and the value is alive, and an exclusive handle is still the only strong one |
| `Runs.CloneDuringIsUnique` | src/strong.rs:465-485 | a concrete polite run: another thread clones through the same borrow between the shared load and the unlock; the answer is true and two handles are live |
| `WeakTheorems.UniqueHasNoFalsePositive` | src/strong.rs:539-551 | this stays so until the `&mut` is given back: no other handle, no operation borrowing or holding one, the value neither destroyed nor freed |
| `WeakTheorems.UpgradeReturnsAliveValue` | src/runtime.rs:353-391 | an upgrade on the shared side adds its handle to a living value, or is refused with no handle left |
| `WeakTheorems.BiasedUpgradeReturnsAliveValue` | src/runtime.rs:282-307 | an upgrade or clone the owner stores on its own side adds its handle to an unmerged, living value, although the store comes after the load that decided it |
| `WeakTheorems.HandleKeepsAlive` | src/weak.rs:190-201 | in every state a value with a live handle is neither destroyed nor freed |
| `WeakTheorems.ExhaustedForever` | src/runtime.rs:353-391 | "merged with count zero" is absorbing: in every continuation no handle exists and no increment is under way on the biased side |
| `WeakTheorems.StrongCountIsRight` | src/runtime.rs:173-236 | on a registered thread the answer is exact at the instant of the shared load, or a true lower bound |
| `WeakTheorems.StrongCountIsExact` | src/runtime.rs:187-222 | it is exact on the owner's thread and on merged objects |
| `WeakTheorems.StrongCountBoundIsClose` | src/runtime.rs:223-235 | a lower bound is the shared half at its load, or 0 if that is negative, so the true count is at most 2^20 - 1 above it |
| `WeakTheorems.StrongCountIffNoMergeBetween` | src/runtime.rs:187-236 | on any thread at all the answer is right iff the thread is registered, or the word it loaded was merged, or the object still has its owner at the second load |
| `WeakTheorems.StrongCountFailsIff` | src/runtime.rs:203-216 | the sum falls below zero iff all three fail and the shared count it loaded was negative |
| `Runs.CountFallsBelowZero` | src/runtime.rs:203-216 | a concrete polite run: an unregistered thread loads -1, the owner collects and gives up ownership, and the sum of 0 and -1 fails the check with one handle live throughout |
| `Impolite.StepKeepsIffPolite` | src/runtime.rs:101-617 | from any state of the invariant, any step of any operation keeps it iff it is polite |
| `Impolite.CloneKeepsIffNotMinusOne` | src/runtime.rs:342-348 | a shared clone keeps the invariant, and keeps the two words equal to the number of handles, iff the shared count is not -1 |
| `Impolite.DirectCloneKeepsIffNotMinusOne` | src/strong.rs:879-884 | the same for `clone_shared` |
| `Impolite.ImplicitMergeKeepsIffNotQueued` | src/runtime.rs:484-509 | the owner's merge keeps the invariant iff the object is not queued; otherwise a merged object is left on its way to the queue or in it |
| `CarefulRuns.UpgradeStaysTidyIff` | src/runtime.rs:366-391 | an upgrade on the shared side always keeps the invariant; it keeps objects with an owner from being queued at a count of zero or more iff it does not start from -1 or the owner has departed |
| `CarefulRuns.CarefulSuffices` | src/runtime.rs:338-391 | every state of a run in which callers are careful is a state of a polite run, so all results apply to it |
| `CarefulRuns.OwnerNeverRetiresQueued` | src/runtime.rs:484-509 | in careful runs the owner's own merge never meets an object that was ever queued |
| `Progress.ActsIffNoOverflow` | src/runtime.rs:101-617 | from any state of the invariant, an operation whose turn it is has a next access iff that access is not an abort on an overflowed count |
| `Progress.ThreadsMakeProgress` | src/runtime/threads.rs:368-441 | in every reached state, each thread with an operation in flight has one that can act, whatever the other threads do, unless a count has overflowed |
| `Impolite.CarryLosesTwoHandles` | src/runtime.rs:338-348 | a concrete run: create, clone, a drop elsewhere, a clone elsewhere; two live handles and an exhausted word |
| `Impolite.UpgradeRetiresQueued` | src/runtime.rs:484-509 | a concrete run: create, downgrade, a drop elsewhere, an upgrade elsewhere, the owner's drop; the value is condemned while its object is on the way to the queue |
| `Preservation.StepPreserves` | src/runtime.rs:101-617 | every polite step of every operation keeps the whole invariant |
| `Preservation.ReachedInv` | src/runtime.rs:101-617 | so every state of every polite run satisfies it |
| `CountSteps.IncStorePreserves` | src/runtime.rs:282-307 | the owner's store of an increment keeps the invariant |
| `CountSteps.CloneSharedPreserves` | src/runtime.rs:342-348 | a raw shared increment from any count but -1 keeps it |
| `CountSteps.UpgradeSharedPreserves` | src/runtime.rs:353-391 | an upgrade from any count keeps it, granted or refused |
| `CountSteps.IdleOwner` | src/runtime.rs:432-448 | a thread that starts a call and finds its own id in the biased word owns an unmerged object: no store of UNOWNED is pending |
| `CountSteps.DropStorePreserves` | src/runtime.rs:449-465 | the owner's store of a decrement keeps the invariant |
| `CountSteps.DropMergePreserves` | src/runtime.rs:484-509 | so does the implicit merge of an object that is not queued, which may condemn the value |
| `CountSteps.DropSharedPreserves` | src/runtime.rs:513-576 | so does the shared decrement, which may queue the object or condemn the value |
| `CountSteps.StoreUnownedPreserves` | src/runtime.rs:504-505 | so does the store of UNOWNED, a separate step after the merge |
| `QueueSteps.UpgradeQueuePreserves` | src/runtime/threads.rs:169-171 | so does taking a reference to the owner's queue, or failing to |
| `QueueSteps.PushPreserves` | src/runtime/threads.rs:99-101 | so does the push |
| `QueueSteps.DropArcPreserves` | src/runtime/threads.rs:120-126 | so does dropping a queue reference, which may start the queue's destructor on this thread |
| `QueueSteps.PopPreserves` | src/runtime/threads.rs:111-118 | so does popping one object and calling `explicit_merge` on it, from either loop |
| `QueueSteps.MergeCasPreserves` | src/runtime.rs:866-937 | so does the compare-exchange of `explicit_merge` |
| `WeakSteps.ReleasePreserves` | src/strong.rs:1001-1032 | so does the release of the strong side's weak reference after the destructor |
| `WeakSteps.WeakDropPreserves` | src/weak.rs:254-262 | so does the drop of a `Weak` |
| `WeakSteps.UnlockWeakPreserves` | src/strong.rs:478-481 | so does the unlocking store |
| `ThreadSteps.DeathBeginPreserves` | src/runtime/threads.rs:408-419 | so does the start of a thread's exit, after which it owns nothing it may write |
| `ThreadSteps.DeathArcPreserves` | src/runtime/threads.rs:426-429 | so does the exit's drop of its queue reference, last or not |
| `ThreadSteps.CollectResetPreserves` | src/runtime/threads.rs:384-390 | so does the flag reset of `collect_force` |
| `ThreadSteps.DrainPreserves` | src/runtime/threads.rs:120-126 | so does every step of the queue's destructor |
| `Effects.InitStarts` | src/runtime/threads.rs:504-564 | a fresh thread can always register; it gets its id, a live flag and an empty queue it alone holds, or no id |
| `Effects.CreateStarts` | src/runtime.rs:120-166 | a registered thread owns what it creates, with count one on its half; any other creates merged objects |
| `Effects.CloneStarts` | src/runtime.rs:282-323 | a clone can always start, and counts on the own half exactly for an owner with room |
| `Effects.UpgradeStarts` | src/runtime.rs:353-358 | so can an upgrade |
| `Effects.IncStoreCounts` | src/runtime.rs:282-307 | the store adds one handle and one to the own half, and nothing else, and the call returns |
| `Effects.CloneSharedCounts` | src/runtime.rs:342-348 | a polite shared clone adds one handle and one to the shared half, and nothing else |
| `Effects.CloneDirectStarts` | src/strong.rs:879-884 | `clone_shared` does so on any thread |
| `Effects.DropStarts` | src/runtime.rs:432-472 | a drop can always start; the owner lowers its own half, merges with its last reference, and everybody else goes to the shared half |
| `Effects.DropStoreCounts` | src/runtime.rs:449-465 | the owner's drop takes one handle and one from its half, and nothing else |
| `Effects.DropMergeCounts` | src/runtime.rs:484-509 | the implicit merge sets the merged bit and condemns the value exactly if no handle is left |
| `Effects.DropSharedCounts` | src/runtime.rs:536-553 | the shared drop takes one handle and one from the shared half, which is queued iff it was or is negative now |
| `Effects.DropSharedDecides` | src/runtime.rs:553-575 | it asks the owner to merge exactly when the shared half first owes a reference, condemns the value exactly when the last handle of a merged object goes, and returns otherwise |
| `Effects.StoreUnownedEnds` | src/runtime.rs:504-508 | the store of UNOWNED is followed by destruction exactly for a condemned value |
| `Effects.OwnerFound` | src/runtime.rs:596-616 | a queued object's owner is its creator |
| `Effects.QueueFound` | src/runtime/threads.rs:169-191 | the owner's queue is found exactly while somebody holds it; otherwise the owner is gone |
| `Effects.Pushed` | src/runtime/threads.rs:99-101 | the push appends the object and changes no other queue |
| `Effects.FlagRaised` | src/runtime/threads.rs:182-188 | a live owner's flag is `QueuedObjects` afterwards, a dying one's is left alone |
| `Effects.ReferenceDropped` | src/runtime/threads.rs:120-126 | exactly the last reference starts the queue's destructor |
| `Effects.MergedAtOnce` | src/runtime/threads.rs:190-204 | whoever finds the queue gone merges the object itself |
| `Effects.MergeCounts` | src/runtime.rs:873-932 | the explicit merge leaves the number of handles as shared count, and condemns the value exactly if that is zero |
| `Effects.DestroyStarts` | src/strong.rs:1023-1026 | the destructor runs for the first time |
| `Effects.StrongSideReleased` | src/layout.rs:47-61 | after the destructor the memory goes exactly if there is no `Weak` |
| `Effects.Freed` | src/layout.rs:63-71 | the memory is freed for the first time |
| `Effects.DowngradeGoesThroughIff` | src/strong.rs:580-613 | a downgrade goes through exactly while nobody has the weak lock and there are fewer references than the threshold, and adds one |
| `Effects.WeakCloneGoesThroughIff` | src/weak.rs:266-285 | a weak clone goes through exactly within the threshold, and adds one |
| `Effects.WeakDropStarts` | src/weak.rs:254-262 | a `Weak` can always be dropped, and the memory goes exactly with the last reference after the strong side has let go |
| `Effects.CollectStarts` | src/runtime/threads.rs:368-377 | a registered thread can always collect |
| `Effects.CollectEnters` | src/runtime/threads.rs:378-383 | and always finds its queue |
| `Effects.CollectPops` | src/runtime/threads.rs:111-118 | the first object of a non-empty queue goes to a merge on the owner's thread; an empty one ends the round |
| `Effects.DrainPops` | src/runtime/threads.rs:111-118 | the same for the queue's destructor |
| `Effects.FlagLowered` | src/runtime/threads.rs:384-390 | the flag is `Live` after the reset, whatever it was |
| `Effects.QueueChecked` | src/runtime/threads.rs:391-398 | the loop ends exactly on an empty queue |
| `Effects.HomeReferenceDropped` | src/runtime/threads.rs:426-429 | a dying thread runs its queue's destructor exactly if nobody else holds the queue |
| `Effects.DeadFlagSet` | src/runtime/threads.rs:430-441 | its flag ends as `Dead` |
| `Evolution.LeadsEvolves` | src/runtime.rs:484-509 | from a reached state to any continuation: the creator, `merged`, "was queued", "was merged from the queue", exhaustion, and a thread's death never go back, and destruction and free counts never fall |
| `Packing.SharedFromTo` | src/runtime.rs:837-853 | for every count width, decoding undoes encoding of the shared word |
| `Packing.SharedToFrom` | src/runtime.rs:837-853 | and encoding undoes decoding, on every raw value |
| `Packing.MergedBitOnly` | src/runtime.rs:485-488 | `fetch_or(MERGED_BIT)` changes `merged` and nothing else |
| `Packing.RawAddOneIs` | src/runtime.rs:342-344 | what the raw addition of 1 does to the three fields, on every word |
| `Packing.RawAddOneIffTyped` | src/runtime.rs:342-344 | it is the typed increment iff the count is neither -1 nor the maximum |
| `Packing.SharedLayout` | src/runtime.rs:821-823 | the flags and the count of the shared word sit at their bits, for every width |
| `Packing.BiasedLayout` | src/runtime.rs:728-744 | the id sits in the low 12 bits and the count above, so that one more reference adds 2^12, and UNOWNED is 0 |
| `Packing.FetchAddOneIsRaw` | src/runtime.rs:747-758 | the increment of the protocol is the raw one of the 64-bit target |
| `Packing.BiasedFromTo` | src/runtime.rs:728-744 | decoding undoes encoding of the biased word |
| `Packing.BiasedToFrom` | src/runtime.rs:728-744 | encoding undoes decoding, on every raw value |
| `Header.RawBrcHeader.constructor` | src/runtime.rs:120-166 | a new header stands for one reference, owned by the thread iff it has a short id, else merged |
| `Header.RawBrcHeader.AttemptBiasedIncrement` | src/runtime.rs:282-307 | only the owner ever changes the biased word; it adds one whenever the count is below 2^20 - 1, and nothing changes otherwise |
| `Header.RawBrcHeader.IncrementStrongShared` | src/runtime.rs:342-348 | the raw addition on the packed word, aborting iff the old count is over the threshold |
| `Header.RawBrcHeader.IncrementStrong` | src/runtime.rs:319-323 | the owner with room changes only the biased word, the owner without and everybody else only the shared one, so saturation keeps the total; without an abort it is exactly one more reference iff it went to the biased side or not onto -1 |
| `Header.RawBrcHeader.FetchUpdate` | src/runtime.rs:366-391 | a compare-exchange loop replaces the word of the one attempt before which nobody changed it, having met a changed word at every earlier attempt, and stops at the first word it cannot update |
| `Header.RawBrcHeader.UpdateUnlessZero` | src/runtime.rs:366-391 | so the upgrade adds one to the very word it replaces, and refuses only an exhausted one, whatever other threads wrote in between |
| `Header.RawBrcHeader.IncrementStrongUnlessZero` | src/runtime.rs:353-391 | a success is one reference more than in the words it replaced, on the biased side exactly for an owner with room, and a refusal changes nothing |
| `Header.RawBrcHeader.DecrementBiased` | src/runtime.rs:432-472 | acts iff the thread is the owner; then one reference less, the last one merging, and "destroy" iff the word is exhausted |
| `Header.RawBrcHeader.DecrementBiasedSlow` | src/runtime.rs:484-509 | merges the halves on the raw word, gives up ownership, and says whether the value must be dropped |
| `Header.RawBrcHeader.DecrementShared` | src/runtime.rs:513-576 | the retry loop takes one from the very word it replaces and sets `queued` iff the count is negative then; "enqueue" iff `queued` rose, "destroy" iff merged with count zero |
| `Header.RawBrcHeader.DecrementStrong` | src/runtime.rs:413-429 | one reference less than in the words it replaced, on the side the owner id selects, with the right follow-up |
| `Header.RawBrcHeader.ExplicitMerge` | src/runtime.rs:866-937 | moves the biased count into a word it saw, keeping the total, and gives up ownership; aborts only for a wrong owner, a merged word, an overflow or a negative sum |
| `Header.RawBrcHeader.StrongCount` | src/runtime.rs:173-236 | whatever biased word others leave between its loads: exact for the pair of words it loaded if the shared one was merged or the owner is this thread, otherwise a lower bound that leaves out exactly the biased half, or 0 for a negative shared one; and a failed check only for a total below zero |
| `WeakCount.BrcHeader.DropWeak` | src/layout.rs:47-71 | a drop by a `Weak` or for the strong side keeps the count equal to the references left, and the memory is freed iff none of either kind remains |
| `WeakCount.BrcHeader.CloneWeak` | src/weak.rs:266-285 | the unchecked 32-bit addition; without an abort it is one more, is not the lock value, and stands for the old references and the new one |
| `WeakCount.BrcHeader.Downgrade` | src/strong.rs:580-613 | the loop adds one to the very count it replaces, after turns at which the count was locked or changed; it aborts only past the threshold and spins only on a locked count |
| `WeakCount.BrcHeader.IsUnique` | src/strong.rs:465-485 | whatever others leave in the three words before its accesses: a true answer means no `Weak` and a count of one in the words as loaded; past the check and the lock the answer is exact wherever the count can be known, a foreign owner is turned away before anything is written; the weak count comes back as it was |
| `Layout.ValueIsPlaced` | src/layout.rs:104-146 | for every header and value layout that does not overflow, the value lies behind the header, inside the block, aligned, leads back to the block's start by `header_offset`, and is never at the reserved address of a dangling `Weak`; the header is aligned too |
| `Layout.LayoutIsLeast` | src/layout.rs:124-134 | the offset is the least aligned one and the block's alignment the least that serves header and value, and there is a layout iff padded value and padded block fit in an `isize` |
| `Registry.ThreadTable.Push` | src/runtime/threads.rs:519-541 | the slot's index decides the id, and earlier slots stay |
| `Registry.LocalThread.ExistingShortId` | src/runtime/threads.rs:298-310 | the status and id pairs it calls unreachable cannot occur |
| `Registry.LocalThread.InitThread` | src/runtime/threads.rs:504-564 | registers a thread once, in one slot of the table, with a new id that looks up to its own record; never after its death; fails only when more than 4095 threads were registered |
| `Registry.LocalThread.ReinitAfterDeath` | src/runtime/threads.rs:504-512 | a thread whose thread-local storage is initialized again after its death gets no second id, and the table stays as it is |
| `Registry.LocalThread.CreateHeader` | src/runtime.rs:120-166 | a header created by a registered thread is owned by its id, one by any other thread is unowned and merged |
| `Registry.LookupFindsOwner` | src/runtime/threads.rs:150-153 | a short id looks up to the thread pushed at its index, and to nothing else |
| `Registry.IdsAreNotReused` | src/runtime/threads.rs:625-637 | no two slots carry the same id |
| `Registry.OwnerLeadsBack` | src/runtime.rs:598-610 | decoding a header's owner and looking it up gives the creator's record, however many threads registered since |
| `Cascade.Heap.Clone` | src/strong.rs:850-855 | an owner with room counts the clone on its half, everybody else on the shared half, aborting iff that is over the threshold; the whole world stays in order unless it adds 1 to a shared count of -1 |
| `Cascade.Heap.RunDestructor` | src/strong.rs:1023-1026 | a value's destructor drops all its fields and returns, whatever that sets off and other threads do; fields of living values stay |
| `Cascade.Heap.Interfere` | src/runtime/threads.rs:168-189 | any number of whole drops by other threads, with their pushes and collections, at any point between two steps of a cascade: the world stays in order and the work left falls |
| `Cascade.Heap.Drop` | src/strong.rs:929-937 | if the flag is raised, everything in the own queue has been merged on return; then exactly the given handle is given up, every other handle of the program or of a living value stays but for those other threads drop, and if it was the last one, on a merged word or the owner's last reference, the value is destroyed on return; the work left strictly falls |
| `Cascade.Heap.CollectForce` | src/runtime/threads.rs:368-406 | ends however often others push onto the queue meanwhile, with an empty queue, and with the flag lowered if nobody interfered; does nothing on a dying thread |
| `Cascade.Heap.DoProcess` | src/runtime/threads.rs:111-118 | ends with an empty queue, however the merges recurse and others push |
| `Cascade.Heap.ExplicitMerge` | src/runtime.rs:866-937 | merges the object and destroys its value iff no handle is left, recursion included |
| `Cascade.Heap.QueueObject` | src/runtime/threads.rs:168-205 | appends to the owner's queue and raises its flag while that can be upgraded, merges on the spot otherwise |
| `Cascade.Heap.DropNoCollect` | src/strong.rs:890-911 | the whole effect, case by case: an owner with more than one reference only lowers its own half; its last reference merges the object, and destroys the value if no handle is left; on a merged word the last handle destroys; otherwise the shared half falls by one, and the first time it owes one the object is appended to its live owner's queue or merged on the spot |
| `Cascade.Heap.Die` | src/runtime/threads.rs:408-441 | a thread's exit ends with its queue closed and empty, and no object it owned is left asking for a merge |
| `Cascade.SettledAfterCollect` | src/runtime/threads.rs:368-406 | once a thread has collected or died, an object nobody refers to is destroyed or sits in another owner's queue, whose flag is raised if it is alive; a destroyed value holds nothing |

## Left out

- Cascade.Heap.CollectForce: the drops of other threads are finitely many and run whole, between two steps of the cascade, and nobody clones or creates during it; with endless pushers the loop need not end. Accesses that interleave inside a call are the protocol's subject.
- Header.RawBrcHeader.IsDefinitelyNotUnique: what its answer means for the caller is `OwnerCheckMeans`; a refusal does not say that there is another reference.
- `strong_count` without debug assertions: the number it returns in place of `Negative`.
- The spin of `downgrade` on a locked count: in the protocol the call begins when the count is unlocked, so progress is claimed for operations in flight only.
- Weak memory: orderings and fences; every access is sequentially consistent.
- Spurious failures of weak compare-exchanges in the protocol: a retry loop is one step there, and a loop over interfering words in `Header`.
- The retry loops of `decrement_shared` and `explicit_merge`, written out in the code, share the loop of `Header.RawBrcHeader.FetchUpdate` with the upgrade's `fetch_update`.
- Overflow aborts: such a step is not taken in the protocol, and is an `Abort` or a flag in the classes.
- Panicking destructors, unwinding policies, cleanup guards and skipping a collection while panicking.
- `try_unwrap` and `into_inner`, which consume a handle without a decrement, and raw-pointer conversions.
- Nesting of calls: an operation that runs other code (a destructor, a queue loop, a `&mut` borrow) may resume in any order once its thread is free, which allows more runs than a call stack does.
- The first registration of a thread: in the protocol it happens before the thread creates an object rather than inside that call; `Registry` has the call itself.
- Threads are named by their short ids in the protocol; `Registry` shows that ids and registered threads match one to one.
- Reading counts without effect: `weak_count`, `biased_count`, `shared_count` and formatting.
- `make_mut`, slices, conversions, fat pointers, type erasure, allocators, provenance and macros.
- The 32-bit target: only `Packing`'s lemmas about every width apply to it.
- The concurrent queue, the append-only table, `Arc` and thread-local storage are modelled by what they promise: a FIFO sequence, a growing sequence, a set of references with upgrade and last drop, and fields.
