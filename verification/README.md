# Verified models of a phone's system daemons and libraries

This project models the parts of the repository whose correctness is hard to see from the code and
proves what they promise. Each core has its own modules:

| core | modules |
|---|---|
| sequence-counter lock (alsa-lib/include/iatomic.h) | SeqLock |
| audio stream wrapper (audio/wrapper.c) | AudioLocking, AudioViews, AudioScenes, AudioSafety, AudioTheorems, AudioProgress, AudioCalls, AudioDangling |
| copy-on-write vector and sorted vector (libmotou/MotoVectorImpl.cpp) | CowVector, CowRuns, StableSort, SortedSeq, SortedVector |
| MD5 (motobox/md5sum.c) | Md5Transform, Chaining, Md5, Md5Example |
| test utility (motobox/test.c) | TestLexer, TestParser, TestEval, TestTexts, TestGrammar, TestExits |
| USB daemon (usbd/usb_app.c) | UsbModes, UsbSpec, UsbEvents, UsbTheorems, Usbd |
| charge-only timers (charge_only_mode/alarm.c, main.c) | AlarmQueue, AlarmList, AlarmBatch, ChargeSpec, ChargeEvents, ChargeTheorems, ChargeMode |
| panic-report retention (aplogd/modemlog.c) | PanicRetention, PanicStore |

`dafny verify dfyconfig.toml` checks everything.

How to read the models:

- Code that updates objects in place is a class; a method's postcondition ties the new state to a
  plain value (a sequence, a batch, a digest, a record of all variables and logs), and the lemmas
  are about those values. The event functions of `UsbSpec` and `ChargeSpec` are such values; the
  classes in `Usbd` and `ChargeMode` are proved to compute them, `UsbEvents` and `ChargeEvents` say
  what each event brings about, and `UsbTheorems` and `ChargeTheorems` what holds of every run.
- Concurrency is interleaving: a run is a sequence of states and steps, and theorems speak of every
  state of every run. Memory is sequentially consistent and vendor calls return.
- What the program asks of the outside world (allocation outcomes, clock readings, file tests,
  properties, events, write results) is a parameter or an oracle function.
- Vectors: memory blocks are sequences of raw or constructed cells; `SharedBuffer` and the element
  hooks behave as documented there; a vector is not inserted or merged into itself. A run is not
  followed past an abort, nor past memory outside a block (`Stray`). `CowVector.Vector.moved` counts elements moved by growth, and
  `limit` is the number of elements whose size in bytes fits size_t. `Kept` and `Joined` say what
  became of a block for its other holders.
- Audio: runs are those in which no other stream of a direction is opened or closed while a
  transfer of that direction keeps a slot pointer, since a reallocated table would leave the
  pointer dangling (audio/wrapper.c:212); `AudioDangling.PointerDangles` shows such a state.
- MD5: the transform and the 64-step loop are compared over an abstract arithmetic unit. That the
  unrolled rounds are the loop uses no property of the arithmetic; that the macros may add in their
  own order uses that addition commutes and associates, which `Md5` shows of 32-bit words.
- test: a cursor counts from the first argument; numbers and file tests are oracles.
- USB: the fields of a driver event are given already separated; hooks are trace events plus their
  writes to the three kernel flags, with MSD_CDROM_ENABLED as usbd/Android.mk sets it.
- Timers: allocation succeeds, the clock does not go backwards and delays are positive.

Where code and comments disagree the code is followed. The comment in `_shrink` that the block
always gets smaller is not true below the minimum capacity of 4 (libmotou/MotoVectorImpl.cpp:467-477),
and the sorted merge takes two elements with equal boundary keys although the class keeps keys
unique (libmotou/MotoVectorImpl.cpp:664-668): `SortedSeq.FastMergeIsMerge` gives the exact condition.

## Model

| member | source | states |
|---|---|---|
| SeqLock.VerdictIsExact | alsa-lib/include/iatomic.h:1163-1196 | In every run of one writer and any readers, unless 2^32-1 write sections begin during the read, snd_atomic_read_ok is true exactly when no write section overlaps the read |
| SeqLock.VerdictIsCongruence | alsa-lib/include/iatomic.h:1163-1196 | In every run, without any bound, the verdict is true exactly when the sections begun by its time and those ended by the time of the sample differ by a multiple of 2^32 |
| SeqLock.QuietIsEnded | alsa-lib/include/iatomic.h:1169-1196 | No section overlaps a read exactly when all begun by its end had ended at its start |
| SeqLock.TrueVerdictIsSnapshot | alsa-lib/include/iatomic.h:1163-1196 | A true verdict means memory did not change over the whole read section and every word loaded is its value: one snapshot |
| SeqLock.BoundIsSharp | alsa-lib/include/iatomic.h:1169-1196 | With exactly 2^32-1 sections begun during the read there is a run whose verdict is true although the word seen is stale, so the bound cannot be relaxed |
| SeqLock.CountersTrackSections | alsa-lib/include/iatomic.h:1163-1179 | The two wrapping counters always hold the number of sections begun and ended modulo 2^32, and differ only while a section is open |
| SeqLock.SampleKept | alsa-lib/include/iatomic.h:1186-1190 | The sample a reader took stays in its record until the verdict |
| SeqLock.SeenWasThere | alsa-lib/include/iatomic.h:1186-1196 | Every word a reader holds was in memory at a moment inside its section |
| SeqLock.QuietInterval | alsa-lib/include/iatomic.h:1169-1179 | Over an interval in which no section begins, the data does not change |
| SeqLock.AtomicWrite.constructor | alsa-lib/include/iatomic.h:1163-1167 | The counters start as in the initial state of the runs |
| SeqLock.AtomicWrite.WriteBegin | alsa-lib/include/iatomic.h:1169-1173 | The in-place increment is the WriteBegin step of the runs, wrap-around included |
| SeqLock.AtomicWrite.WriteEnd | alsa-lib/include/iatomic.h:1175-1179 | The in-place increment is the WriteEnd step of the runs |
| SeqLock.AtomicRead.ReadBegin | alsa-lib/include/iatomic.h:1186-1190 | The sample is the one the ReadBegin step of the runs takes |
| SeqLock.AtomicRead.ReadVerdict | alsa-lib/include/iatomic.h:1192-1196 | The comparison is the verdict the theorems are about |
| AudioTheorems.ControlNeverOverlapsTransfer | audio/wrapper.c:101-127 | In every reachable state of any number of threads and streams, spurious returns of pthread_cond_wait included, no locked control call or close is past WAIT_FOR_FREE on a stream while a read or write is in the vendor call on it |
| AudioTheorems.SectionsAreSerial | audio/wrapper.c:101-127 | At most one thread at a time is inside a section of one direction |
| AudioTheorems.InUseCountsTransfers | audio/wrapper.c:84-91 | in_use of a slot is exactly the number of transfers between its increment and its decrement |
| AudioTheorems.OneSleeper | audio/wrapper.c:93-96 | Two threads never wait on the same slot, so a signal that wakes one wakes all |
| AudioTheorems.LocksAreOrdered | audio/wrapper.c:142-159 | Whatever a thread wants to lock ranks above everything it owns: out table, in table, slot, device |
| AudioTheorems.ClosedIsGone | audio/wrapper.c:283-315 | When a close has taken its stream out of the table, no slot holds that stream |
| AudioTheorems.MuteSavedOnlyInCall | audio/wrapper.c:691-737 | A saved mixer value exists only while the mode is in-call |
| AudioTheorems.ReachableIsSafe | audio/wrapper.c:84-159 | The invariant holds in every state of every run of steps, new calls and spurious wake-ups |
| AudioTheorems.GoneKept | audio/wrapper.c:283-315 | A stream whose close is in the device section stays out of its table through every step of every thread |
| AudioSafety.StepKeepsInv | audio/wrapper.c:84-159 | Every step of every thread keeps the invariant on tables, owners, counters, pointers, sleepers and mute state |
| AudioSafety.StartKeepsInv | audio/wrapper.c:202-210 | A new call keeps it too |
| AudioSafety.SpuriousKeepsInv | audio/wrapper.c:93-96 | So does a wait on a slot that returns without a signal |
| AudioViews.MoveKeepsInv | audio/wrapper.c:84-99 | Any move that changes one thread and one slot in the permitted ways keeps the invariant |
| AudioLocking.FirstIndex | audio/wrapper.c:209-215 | The table scan finds the first slot holding the stream, or none holds it |
| AudioProgress.NoDeadlock | audio/wrapper.c:84-159 | In every reachable state with a thread inside the wrapper, some thread can take a step |
| AudioProgress.NoLostWakeup | audio/wrapper.c:88-96 | For every thread asleep on a slot there is a transfer in flight on it that holds no table mutex and will still signal |
| AudioProgress.EveryStepWorks | audio/wrapper.c:84-159 | Every step of every thread lowers the total work left, signalled wake-ups included |
| AudioProgress.SpuriousCosts | audio/wrapper.c:93-96 | A spurious wake-up adds exactly two steps |
| AudioProgress.DrainIsBounded | audio/wrapper.c:84-159 | Once no new call starts, under any schedule the steps taken and the work left are at most Total plus three per spurious wake-up |
| AudioProgress.EverythingCompletes | audio/wrapper.c:84-159 | From any reachable state, once no new call starts, at most Total steps and three per spurious wake-up remain, and when nothing can move any more no thread is left inside: every started operation has completed |
| AudioDangling.PointerDangles | audio/wrapper.c:510-541 | A reachable state in which removing a closed stream leaves a transfer on another stream with a slot pointer behind the end of the table: why runs are restricted |
| AudioCalls.VendorIsCalledOnce | audio/wrapper.c:101-127 | In every run, every call of the wrapper that returns has called the vendor exactly once, or, if its stream is unknown, not at all |
| AudioCalls.VendorIsCalledForIt | audio/wrapper.c:101-127 | The vendor is called for the job and stream, or the device work, that the caller asked for, a transfer and a control call each in its own place |
| AudioCalls.StageOf | audio/wrapper.c:101-127 | At every moment of a run the place of a thread tells how often it has called the vendor |
| AudioCalls.SearchFinds | audio/wrapper.c:209-216 | A stream in the table is found in a slot that holds it, and only one that is not there ends the call early |
| AudioCalls.OpenAdds | audio/wrapper.c:566-618 | An opened stream is entered behind the others, unused, and one that failed is not |
| AudioCalls.CloseRemoves | audio/wrapper.c:516-535 | A close takes out its own slot and leaves the others in order |
| AudioCalls.HalTakesEffect | audio/wrapper.c:691-737 | set_mode and set_mic_mute take effect in their device section |
| AudioCalls.ModeIsSet | audio/wrapper.c:715-737 | The mode is the one last set, and muting does not change it |
| AudioCalls.MuteRoundTrip | audio/wrapper.c:644-689 | In a call muting saves the mixer value once and mutes, and unmuting puts it back |
| AudioCalls.MuteEndsWithCall | audio/wrapper.c:715-737 | Leaving a call puts a saved value back; outside a call the mixer is left alone |
| CowRuns.Run | libmotou/MotoVectorImpl.cpp:50-517 | Over any run of copies, assignments, inserts, removals, replacements, resizes, clears and sorts on a family of vectors, with memory for some of the operations and not for others: contents are those of plain sequences that share nothing with at most the starved edits missing, a stop at an edit that had memory means that it does not fit, and the family invariant holds at the end |
| CowRuns.FittingRunCompletes | libmotou/MotoVectorImpl.cpp:50-517 | A run that has memory and whose every intermediate size fits completes, and is the plain run |
| CowRuns.NothingSkipped | libmotou/MotoVectorImpl.cpp:50-517 | A run with every edit applied is the plain run |
| CowRuns.Step | libmotou/MotoVectorImpl.cpp:50-517 | One operation: the exact status and the exact contents of every member, with or without memory |
| CowRuns.StepWithMemory | libmotou/MotoVectorImpl.cpp:50-517 | With memory an operation aborts if and only if a size or a size in bytes overflows, leaves its block if and only if it is a removal whose index and count wrap into range, and otherwise is the plain operation |
| CowRuns.StepIsAllOrNothing | libmotou/MotoVectorImpl.cpp:50-517 | In any case it is the plain operation or, for an edit, nothing, and an operation that stops a run is nothing |
| CowRuns.EditVector | libmotou/MotoVectorImpl.cpp:86-517 | The exact status and contents of every edit of one vector, for every capacity, sharing and allocation outcome, and the block left behind is as it was for its other holders |
| CowRuns.WithMemory | libmotou/MotoVectorImpl.cpp:86-517 | With memory the status of an edit is an abort exactly on an overflow and a stray exactly for a removal that wraps into range, and otherwise the edit is the plain one |
| CowRuns.FitsIsNoOverflow | libmotou/MotoVectorImpl.cpp:378-405 | A request whose grown capacity fits size_t does not overflow whatever the capacity is |
| CowRuns.CountsAreExact | libmotou/MotoVectorImpl.cpp:50-84 | In a family the reference count of a block is the number of members that use it, they agree on the item count, and it does not exceed the capacity |
| CowRuns.PushAll | libmotou/MotoVectorImpl.cpp:238-241 | n pushes onto an empty vector that shares no block move at most 3n elements through reallocation, and stop only where a size or a size in bytes overflows |
| CowVector.MaxItemsMeans | libmotou/MotoVectorImpl.cpp:388-407 | The limit on elements is exactly where a size or a size in bytes exceeds size_t |
| CowVector.GrowthInNumbers | libmotou/MotoVectorImpl.cpp:393-403 | A block grows to at least 4 elements and to half as many again and one |
| CowVector.InsertReports | libmotou/MotoVectorImpl.cpp:115-159 | Every status of an insertion and its cause, with or without memory |
| CowVector.OthersKept | libmotou/MotoVectorImpl.cpp:86-105 | What every method promises of the block it leaves means that no other holder notices: valid, with its old contents |
| CowVector.Vector.constructor | libmotou/MotoVectorImpl.cpp:45-48 | A new vector is empty and has no block |
| CowVector.Vector.Copy | libmotou/MotoVectorImpl.cpp:50-57 | A copy has the same contents and joins the holders of the block, which is otherwise as it was |
| CowVector.Vector.Assign | libmotou/MotoVectorImpl.cpp:68-84 | operator= takes the contents of the right side and joins the holders of its block; the block left is as it was for its other holders; self-assignment changes nothing |
| CowVector.Vector.EditArray | libmotou/MotoVectorImpl.cpp:86-105 | The block becomes this vector's own with unchanged contents; it aborts exactly when a shared block cannot be copied |
| CowVector.Vector.ReleaseStorage | libmotou/MotoVectorImpl.cpp:367-376 | The hold is given up; the block is freed exactly when no holder is left, and others keep their contents |
| CowVector.Vector.Finish | libmotou/MotoVectorImpl.cpp:293-298 | The vector is empty again and no other one notices |
| CowVector.Vector.Grow | libmotou/MotoVectorImpl.cpp:378-451 | Which of null, abort or success results, and on success a raw gap of the right size between the old elements in a block of its own, with the growth rule n + n/2 + 1 and minimum 4 |
| CowVector.Vector.GrowIntoNewBlock | libmotou/MotoVectorImpl.cpp:405-438 | The reallocating half moves every element once and opens the gap, on the trivial-element path too |
| CowVector.Vector.GrowInPlace | libmotou/MotoVectorImpl.cpp:439-451 | The in-place half detaches a shared block first |
| CowVector.Vector.Shrink | libmotou/MotoVectorImpl.cpp:453-517 | The elements are gone, or, when a smaller block cannot be allocated, all of them silently stay; exact conditions for both and for the abort |
| CowVector.Vector.InsertArrayAt | libmotou/MotoVectorImpl.cpp:125-134 | Status for every input, and the array inserted at the index or nothing changed |
| CowVector.Vector.InsertVectorAt | libmotou/MotoVectorImpl.cpp:115-123 | The same with the elements of another vector, read after this one has grown, even if both shared a block |
| CowVector.Vector.InsertAt | libmotou/MotoVectorImpl.cpp:141-159 | The same with n copies of an element |
| CowVector.Vector.Push | libmotou/MotoVectorImpl.cpp:238-251 | The element is appended, or nothing changes; a full block of n grows to 4 or n+1 + (n+1)/2 + 1 |
| CowVector.Vector.Pop | libmotou/MotoVectorImpl.cpp:227-231 | The last element goes, or stays exactly when a shared or half-empty block cannot be replaced; an empty vector stays empty; exact status |
| CowVector.Vector.ReplaceAt | libmotou/MotoVectorImpl.cpp:258-279 | One element is replaced, or a bad index is reported |
| CowVector.Vector.RemoveItemsAt | libmotou/MotoVectorImpl.cpp:281-291 | A range is removed, or BAD_VALUE is reported and nothing changes; when index plus count wraps into range, a vector without a block is left alone, a count above the size aborts, and any other is found to leave the block |
| CowVector.RemoveInRange | libmotou/MotoVectorImpl.cpp:281-291 | Without a wrap the status is BAD_VALUE beyond the size, an abort for a shared block that cannot be copied, and the index otherwise |
| CowVector.RemoveWraps | libmotou/MotoVectorImpl.cpp:281-291 | The status when index plus count wraps around size_t |
| CowVector.Vector.Clear | libmotou/MotoVectorImpl.cpp:300-303 | Everything is removed, under the exact allocation condition |
| CowVector.Vector.SetCapacity | libmotou/MotoVectorImpl.cpp:335-355 | Contents stay, capacity becomes the request if it exceeds the size |
| CowVector.Vector.Resize | libmotou/MotoVectorImpl.cpp:357-365 | Exact status, and the sequence is cut or padded to the size or unchanged |
| CowVector.Vector.Sort | libmotou/MotoVectorImpl.cpp:171-225 | Contents become the stable sort; a vector without descents is not detached from its shared block; other holders keep the old contents |
| StableSort.StableSortIsUnique | libmotou/MotoVectorImpl.cpp:171-225 | For any total preorder, a sequence is ordered and keeps every class of equal elements in its order exactly when it is the result of sort |
| StableSort.SortedIsStable | libmotou/MotoVectorImpl.cpp:171-225 | The result of sort is ordered, stable and a permutation |
| StableSort.SortedIsPermutation | libmotou/MotoVectorImpl.cpp:171-225 | Nothing is lost or invented even when the comparison is inconsistent |
| StableSort.NoDescentIsSorted | libmotou/MotoVectorImpl.cpp:181-184 | What the loop leaves alone is its own stable sort |
| StableSort.ShiftIn | libmotou/MotoVectorImpl.cpp:198-216 | The shifting loop puts an element behind the last one that does not exceed it |
| StableSort.SortRest | libmotou/MotoVectorImpl.cpp:181-219 | The outer loop from the first descent on yields the whole stable sort |
| SortedVector.IndexOrderOf | libmotou/MotoVectorImpl.cpp:600-628 | The binary search returns the place of a key among the elements and whether it is present |
| SortedVector.Add | libmotou/MotoVectorImpl.cpp:630-640 | Exact status for every capacity, sharing and allocation outcome; on success the element takes the place of the one with its key or a place of its own, otherwise nothing changes; other holders of the block are unaffected |
| SortedVector.AddWithMemory | libmotou/MotoVectorImpl.cpp:630-640 | With memory add returns the place of the key, or aborts exactly for a new key that has no room |
| SortedVector.Remove | libmotou/MotoVectorImpl.cpp:677-684 | The index of the key or none; the element goes, or all stay under the exact allocation condition; exact abort |
| SortedVector.MergeVector | libmotou/MotoVectorImpl.cpp:642-657 | One add after another; a stop leaves exactly a merged prefix and is the exact failure of the next add; with memory and room for the result it completes; the source is unchanged |
| SortedVector.RoomForAll | libmotou/MotoVectorImpl.cpp:642-657 | With room for the merged length no add of the merge fails while it has memory |
| SortedVector.MergeSorted | libmotou/MotoVectorImpl.cpp:659-675 | The fast merge with its two boundary comparisons; on an error the contents are those before, or a merged prefix on the naive way, with the exact status; with memory and room for the result it completes |
| SortedSeq.FastMergeIsMerge | libmotou/MotoVectorImpl.cpp:659-675 | For a non-empty receiver the fast merge equals the naive one if and only if neither boundary comparison is zero |
| SortedSeq.FastMergeDuplicates | libmotou/MotoVectorImpl.cpp:664-668 | With equal boundary keys it holds two items of one key where the naive merge holds one |
| SortedSeq.FastMergeKeepsAll | libmotou/MotoVectorImpl.cpp:664-668 | Where one run lies below the other, equal boundary keys included, the fast merge holds all elements of both in order |
| SortedSeq.MergedLookup | libmotou/MotoVectorImpl.cpp:642-657 | The naive merge is the union of two finite maps in which the later item wins |
| SortedSeq.AddedLookup | libmotou/MotoVectorImpl.cpp:630-640 | add binds the key of its item and no other key |
| SortedSeq.DroppedLookup | libmotou/MotoVectorImpl.cpp:677-684 | remove unbinds that key and no other |
| SortedSeq.StrictIsCanonical | libmotou/MotoVectorImpl.cpp:600-684 | The map determines the sequence: two strictly ordered sequences with the same lookups are equal |
| SortedSeq.MergedStrict | libmotou/MotoVectorImpl.cpp:642-657 | Strict key order survives a merge of anything |
| SortedSeq.AddedStrict | libmotou/MotoVectorImpl.cpp:630-640 | and an add |
| Md5.DigestOf | motobox/md5sum.c:147-232 | For every message and every way of cutting it into pieces, Init, Update on each and Final give the digest of sections 3.1 to 3.5 of RFC 1321 of the whole, with the step of section 3.4 as the standard writes it |
| Md5Example.EmptyDigest | motobox/md5sum.c:108-334 | The digest of the empty message is d41d8cd98f00b204e9800998ecf8427e, the first example in appendix A.5 of RFC 1321, worked out through all 64 operations |
| Md5.Context.constructor | motobox/md5sum.c:147-158 | A new context has seen the empty message |
| Md5.Context.Init | motobox/md5sum.c:147-158 | So has a used one after Init |
| Md5.Context.Update | motobox/md5sum.c:160-193 | The message so far grows by the bytes; state, buffer and both counter words keep describing it |
| Md5.Context.CountMore | motobox/md5sum.c:172-176 | The two words hold the bit length modulo 2^64, carry and overflow of the byte count included |
| Md5.Context.Put | motobox/md5sum.c:178-192 | One byte is buffered, or completes a block that is transformed |
| Md5.Context.Pad | motobox/md5sum.c:207-212 | Padding always ends at 56 bytes modulo 64 |
| Md5.Context.LastTransform | motobox/md5sum.c:214-220 | The last block is the held bytes followed by the saved length words |
| Md5.Context.StoreDigest | motobox/md5sum.c:222-232 | The sixteen digest bytes are the state words, low-order byte first |
| Md5.Context.Final | motobox/md5sum.c:195-234 | The digest is that of the message fed so far |
| Md5.PaddingIsShortest | motobox/md5sum.c:210-212 | No shorter non-empty padding reaches 56 modulo 64 |
| Md5.CountBits | motobox/md5sum.c:172-176 | The carry test of the low word is exact |
| Md5.BytesOfWord | motobox/md5sum.c:222-232 | Encoding and decoding a word are inverse |
| Md5.WordOfIsLittleEndian | motobox/md5sum.c:184-188 | Shifting and or-ing four bytes is their little-endian value |
| Md5.FSelects | motobox/md5sum.c:116-116 | Bit by bit, F is y where x is set and z elsewhere |
| Md5.GSelects | motobox/md5sum.c:117-117 | G is x where z is set and y elsewhere |
| Md5.HCounts | motobox/md5sum.c:118-118 | H is set where one or all three are |
| Md5.IChanges | motobox/md5sum.c:119-119 | I is y, changed where x is set or z is clear |
| Md5.RotateMovesBits | motobox/md5sum.c:122-122 | A rotation by n moves the bits up n places and the first n to the bottom |
| Md5.RoundFunctions | motobox/md5sum.c:126-145 | Each round uses its own function |
| Md5.OutputOrder | motobox/md5sum.c:222-232 | The digest bytes are those of A, then B, C and D |
| Md5.LengthMeans | motobox/md5sum.c:199-220 | The last eight bytes hold the number of bits modulo 2^64, low-order byte first |
| Md5.PaddedMeans | motobox/md5sum.c:195-222 | The padded message is the message, a 1 bit, zeros and the length, in whole blocks |
| Md5Transform.AdditionOrder | motobox/md5sum.c:126-145 | On words whose addition commutes and associates, the additions of the macros and of the standard agree |
| Md5Transform.CompressIsStandard | motobox/md5sum.c:126-145 | So for a whole block the program's order of additions gives the compression of section 3.4 of RFC 1321 |
| Md5.AdditionIsLawful | motobox/md5sum.c:126-145 | Addition of 32-bit words commutes and associates |
| Md5.TransformWords | motobox/md5sum.c:236-334 | The unrolled transform on 32-bit words is the compression of section 3.4 of RFC 1321, in its own order of additions |
| Md5Transform.Transform | motobox/md5sum.c:236-334 | For all states and blocks the unrolled transform equals a 64-step loop, for any word operations |
| Md5Transform.Round1 | motobox/md5sum.c:242-262 | The sixteen lines of round 1 are its sixteen operations |
| Md5Transform.Round2 | motobox/md5sum.c:264-284 | Those of round 2 |
| Md5Transform.Round3 | motobox/md5sum.c:286-306 | Those of round 3 |
| Md5Transform.Round4 | motobox/md5sum.c:308-328 | Those of round 4 |
| Md5Transform.WordIndexFormula | motobox/md5sum.c:242-328 | The words used are i, 5i+1, 3i+5 and 7i modulo 16 in rounds 1 to 4 |
| Chaining.LastBlock | motobox/md5sum.c:195-222 | For any block function, closing a tracked message with the missing bytes gives the chain over the whole |
| Chaining.FillBlock | motobox/md5sum.c:178-192 | Completing the buffer moves one block into the state |
| TestGrammar.PrintedTreeIsEvaluated | motobox/test.c:199-230 | For every expression tree whose operands are no operator texts and whose numbers are valid, printing it and running test, or [ with ], exits with its boolean meaning, where each operator means what its text says, and no leftover-token error |
| TestTexts.FindBinary | motobox/test.c:157-169 | Each comparison text stands for equality, dictionary order, a comparison of numbers, or file age or identity, as its characters say |
| TestTexts.FindUnary | motobox/test.c:136-156 | -z and -n ask for emptiness, -t for a terminal, and each file letter for its own filstat test |
| TestTexts.FindNothing | motobox/test.c:418-439 | No other text is an operator |
| TestTexts.RelationSays | motobox/test.c:332-359 | The switch of binop answers what the text of the operator asks |
| TestExits.Comparison | motobox/test.c:199-230 | test x op y exits with the answer, or dies on a bad number |
| TestExits.UnaryTest | motobox/test.c:199-230 | test op x exits with the answer, or dies on a bad number |
| TestExits.OneWord | motobox/test.c:199-230 | One word is true if not empty, even if it looks like an operator; no word is false |
| TestExits.LeftOver | motobox/test.c:225-226 | Two operands die with an unexpected operator |
| TestExits.NothingToCompare | motobox/test.c:329-330 | A comparison without its right side dies |
| TestExits.NotClosed | motobox/test.c:286-292 | So does an open parenthesis |
| TestExits.NoBracket | motobox/test.c:208-212 | So does [ without ] |
| TestExits.LooksUnary | motobox/test.c:441-461 | A unary text in front of a comparison is its left side |
| TestExits.LooksClosed | motobox/test.c:441-461 | unless a closing parenthesis follows the comparison |
| TestExits.Parentheses | motobox/test.c:286-292 | A parenthesis alone is a word, and an empty pair is false |
| TestGrammar.ParsesO | motobox/test.c:242-254 | The or-level of the descent evaluates a tree laid over the words and stops at its last word |
| TestGrammar.LaysO | motobox/test.c:418-461 | In printed words every operator is lexed as one and every operand as an operand, despite the context-dependent lexing |
| TestLexer.LookUp | motobox/test.c:418-439 | The search loop finds the operator with a text |
| TestLexer.PlaceOfOp | motobox/test.c:133-176 | No text stands twice in the operator table |
| TestParser.OExpr | motobox/test.c:242-254 | The cursor is left no further back than it was found or than the last word, so evaluation terminates on every argument vector |
| TestParser.AExpr | motobox/test.c:256-268 | The same for the and-level |
| TestParser.NExpr | motobox/test.c:270-276 | The same for repeated ! |
| TestParser.Primary | motobox/test.c:278-317 | The same for primaries |
| TestParser.RelationsMean | motobox/test.c:332-359 | The string operators are equality and dictionary order, and the integer operators the six comparisons of the numbers |
| TestParser.StrCmpIsOrder | motobox/test.c:336-339 | The sign of strcmp is dictionary order |
| TestEval.TestMain | motobox/test.c:199-230 | The program over its globals exits as the parser functions say, for every argument vector |
| TestEval.Evaluator.OExpr | motobox/test.c:242-254 | The recursive function on t_wp, nargc and t_wp_op, with its push-back, reaches the parser's outcome and keeps cursor plus count at the end of the vector |
| TestEval.Evaluator.AExpr | motobox/test.c:256-268 | The same |
| TestEval.Evaluator.NExpr | motobox/test.c:270-276 | The same |
| TestEval.Evaluator.Primary | motobox/test.c:278-317 | The same |
| TestEval.Evaluator.BinOp | motobox/test.c:319-363 | The same, with both missing-argument errors |
| TestEval.Evaluator.TLex | motobox/test.c:418-439 | The token for a word while the cursor is where it is |
| TestEval.Evaluator.LexNext | motobox/test.c:242-330 | The cursor advances only while words remain, and the token lexed is that of its new place |
| TestEval.Evaluator.PeekNext | motobox/test.c:311-314 | Looking ahead without moving tells whether the next word is a binary operator |
| TestEval.Evaluator.CheckOperand | motobox/test.c:441-461 | isoperand on the words ahead |
| UsbTheorems.EveryLoopHeadIsSafe | usbd/usb_app.c:1663-1937 | At every loop head of every run: the hook trace is complete sessions in MIN and then in the modes of the changes in order, plus one open; flags in step; no change to a real mode without a cable; online exactly with a cable and exactly in an attached state; factory cable only in network modes; IN_PROGRESS entered once for every 2^32 descriptor requests begun since the last DETACHED, and so at most once between two of them if and only if there were never more than 2^32 |
| UsbTheorems.TooManyRequests | usbd/usb_app.c:1861-1892 | The run that breaks it: 2^32 + 1 descriptor requests without a detach |
| UsbTheorems.RunExtends | usbd/usb_app.c:1780-1937 | The logs of hook calls, mode changes and states at any point of a run are prefixes of those at its end |
| UsbTheorems.TurnExtends | usbd/usb_app.c:1780-1937 | A turn adds to the logs and takes nothing back |
| UsbTheorems.TurnKeeps | usbd/usb_app.c:1780-1937 | Every turn, whatever it finds ready, keeps the invariant |
| UsbTheorems.FlagsAtLoopHead | usbd/usb_app.c:443-607 | At every loop head mass storage is on only in modes of the MSC family, the CD-ROM exactly in the modes that use it, ejection allowed exactly outside MSC, and the flags are what the whole trace leaves |
| UsbTheorems.SwitchVisits | usbd/usb_app.c:881-912 | A mode change completes the open session and opens one of the new mode |
| UsbTheorems.EnterKeepsOnce | usbd/usb_app.c:1861-1892 | Entering a state keeps the once-between-detaches property of the log if and only if it is not IN_PROGRESS a second time since the last detach |
| UsbTheorems.DeviceKeeps | usbd/usb_app.c:1797-1897 | Every driver event keeps the invariant |
| UsbTheorems.UEventKeeps | usbd/usb_app.c:1404-1424 | Every cable event and its handling keeps it |
| UsbTheorems.AppKeeps | usbd/usb_app.c:937-1012 | Every application event keeps it |
| UsbTheorems.StartIsSafe | usbd/usb_app.c:1721-1778 | It holds when the loop is first reached |
| UsbEvents.RequestIsHonoured | usbd/usb_app.c:958-1008 | A connected application gets the mode it asks for while a USB cable is in, in one change, and keeps its connection |
| UsbEvents.RequestOffline | usbd/usb_app.c:973-996 | Without a cable its requests change no mode, but the driver is unloaded at any time |
| UsbEvents.RequestIgnored | usbd/usb_app.c:958-960 | Under a factory cable, in an alternate boot, and with a text that is no request, nothing changes |
| UsbEvents.RequestUnanswered | usbd/usb_app.c:980-988 | An application that cannot be answered is dropped and its request not followed |
| UsbEvents.RequestAgain | usbd/usb_app.c:997-1006 | Asked for the mode it is in, the daemon only says so, and drops an application it cannot tell |
| UsbEvents.Connection | usbd/usb_app.c:1899-1937 | One application at a time is taken and heard until it closes or fails |
| UsbEvents.Messages | usbd/usb_app.c:623-876 | Which message asks for which mode number |
| UsbEvents.Names | usbd/usb_app.c:623-876 | Which name of the driver stands for which mode the PC may ask for |
| UsbEvents.NotNamed | usbd/usb_app.c:623-876 | The modes it may not ask for |
| UsbEvents.HooksOf | usbd/usb_app.c:623-876 | Which modes have which hooks |
| UsbEvents.FamiliesOf | usbd/usb_app.c:443-607 | Which modes use mass storage, which the CD-ROM, which forbid ejection, and which are announced |
| UsbEvents.ChangeRunsHooks | usbd/usb_app.c:881-912 | A change of mode runs the hooks of the old mode and then of the new, in order |
| UsbEvents.CableSets | usbd/usb_app.c:1404-1424 | A cable sets online flag, state and request count |
| UsbEvents.CableInNormalBoot | usbd/usb_app.c:1617-1658 | A normal boot leaves the mode alone and tells the application |
| UsbEvents.FactoryCable | usbd/usb_app.c:1617-1658 | A factory cable forces mode 14 or 11 in every boot |
| UsbEvents.CableInAlternateBoot | usbd/usb_app.c:1089-1115 | An alternate boot takes its own mode whenever a USB cable comes |
| UsbEvents.SwitchFromCdrom | usbd/usb_app.c:1242-1307 | A switch request to a CD-ROM leads to the mode of the boot, of adb and of tethering |
| UsbEvents.SwitchElsewhere | usbd/usb_app.c:1242-1307 | In other modes it is passed to the application |
| UsbEvents.SwitchToSecondCdrom | usbd/usb_app.c:1242-1307 | The second CD-ROM can be asked for from any mode |
| UsbEvents.NoProperty | usbd/usb_app.c:1242-1250 | Without the adb property a switch request does nothing |
| UsbEvents.AlternateFields | usbd/usb_app.c:134-202 | The mode for every boot and every adb and tethering field |
| UsbEvents.FactoryFields | usbd/usb_app.c:1797-1830 | Under a factory cable only the adb field counts |
| UsbEvents.Enumeration | usbd/usb_app.c:1861-1892 | The first descriptor request and the end of enumeration set the state, run enable_done and tell the application |
| UsbEvents.TurnInOrder | usbd/usb_app.c:1780-1937 | A turn is the cable, then the driver, then the application |
| UsbEvents.Starting | usbd/usb_app.c:1721-1778 | The mode and state the daemon starts in, for every boot and cable |
| UsbModes.FlagsFollowMode | usbd/usb_app.c:443-607 | From cleared flags a trace of sessions leaves mass storage on exactly in an enabled mode of the MSC family, and the CD-ROM on exactly in the modes that use it |
| Usbd.Run | usbd/usb_app.c:1663-1937 | The daemon after any inputs is in the state the event functions give for exactly those inputs, and so satisfies the invariant |
| Usbd.Daemon.Turn | usbd/usb_app.c:1780-1937 | One turn is the cable event, then the driver event, then, in a normal boot, the application: the whole state, every log and every write failure included |
| Usbd.Daemon.constructor | usbd/usb_app.c:1721-1778 | The state on reaching the loop |
| Usbd.Daemon.SetMode | usbd/usb_app.c:881-912 | Hooks of the old mode, then of the new one, in order; the change is logged with the cable state |
| Usbd.Daemon.CallHook | usbd/usb_app.c:881-909 | A hook that exists is called, with its effect on the kernel flags; one that does not leaves no trace |
| Usbd.Daemon.EnumProcess | usbd/usb_app.c:1210-1236 | enable_done of the current mode, and whether the application was told |
| Usbd.Daemon.SocketEvent | usbd/usb_app.c:937-1012 | The whole new state for every message, and whether the connection survives |
| Usbd.Daemon.AppTurn | usbd/usb_app.c:1899-1937 | Connection, message, closing and read error |
| Usbd.FindRequest | usbd/usb_app.c:962-971 | The first mode a message asks for |
| Usbd.FindSwitch | usbd/usb_app.c:1252-1259 | The first mode of that name the PC may ask for |
| Usbd.Daemon.AltModeSet | usbd/usb_app.c:156-202 | The change an adb or tethering field makes under an alternate boot |
| Usbd.Daemon.ReqModeSwitch | usbd/usb_app.c:1242-1307 | The change a switch request makes: a CD-ROM gives way at once, other modes are left to the application |
| Usbd.Daemon.EnumerateDefault | usbd/usb_app.c:1089-1115 | The default mode of an alternate boot |
| Usbd.Daemon.CableEvent | usbd/usb_app.c:1404-1424 | Cable, online flag, state and descriptor count change together |
| Usbd.Daemon.CableChange | usbd/usb_app.c:1617-1658 | A factory cable forces its network mode, an alternate boot its default mode |
| Usbd.Daemon.DeviceEvent | usbd/usb_app.c:1797-1897 | The whole new state a driver event leaves, under each kind of cable |
| Usbd.Daemon.EnumEvent | usbd/usb_app.c:1861-1892 | IN_PROGRESS is entered exactly when the wrapping count of descriptor requests since the last detach becomes 1 |
| AlarmBatch.BatchIsExact | charge_only_mode/alarm.c:49-59 | A log is a batch of a queue if and only if it fires the alarms at strictly increasing places of it, and a place is among them exactly when no callback fired from an earlier place has cancelled it |
| ChargeTheorems.LogIsBatch | charge_only_mode/alarm.c:43-60 | alarm_process terminates, what it fires is a batch of exactly the alarms due at the time it read, and it leaves none due |
| ChargeTheorems.CallsAreBatch | charge_only_mode/alarm.c:49-59 | The callbacks run are those of the entries fired, in order, and no others |
| ChargeMode.Device.AlarmProcess | charge_only_mode/alarm.c:43-60 | The loop over the linked list ends in the state after that batch, and the callbacks that have run since are exactly those of the batch in its order, with the blanking the animation itself calls |
| AlarmBatch.FiresInOrder | charge_only_mode/alarm.c:49-59 | Alarms of a batch fire in time order, and among equal times the first set fires first |
| ChargeMode.Device.FireFirst | charge_only_mode/alarm.c:49-59 | The first due alarm is taken out, its callback run and logged, and its node then freed exactly once, whatever the callback cancelled |
| AlarmList.Queue.SetRelative | charge_only_mode/alarm.c:75-111 | The alarm is linked behind every one that is not later; the list stays sorted by time and order of setting, and well linked |
| AlarmList.Queue.Cancel | charge_only_mode/alarm.c:113-135 | Exactly the alarms with the callback are unlinked, each freed once, and their number returned |
| AlarmList.Queue.TakeFirst | charge_only_mode/alarm.c:55-55 | The first node leaves the list but stays allocated |
| AlarmList.Queue.Unlink | charge_only_mode/alarm.c:120-129 | One node is taken out and freed once |
| AlarmQueue.DueInserted | charge_only_mode/alarm.c:75-111 | An alarm set for later than now does not change what is due |
| AlarmQueue.DueWithout | charge_only_mode/alarm.c:113-135 | Cancelling removes from the due alarms just what it removes from the queue |
| AlarmQueue.InsertedOrdered | charge_only_mode/alarm.c:91-110 | Insertion keeps the order of times, ties by order of setting |
| AlarmQueue.PlusIsMicros | charge_only_mode/alarm.c:80-85 | The carry from microseconds to seconds is exact |
| AlarmQueue.LaterIsMicros | charge_only_mode/alarm.c:50-54 | Comparing seconds and then microseconds compares times |
| AlarmQueue.MillisUntilIsClose | charge_only_mode/alarm.c:62-73 | A due alarm is never waited for, one taken for due is due within a millisecond, and a wait oversleeps by less than a millisecond |
| ChargeTheorems.After | charge_only_mode/main.c:245-313 | After every number of loop turns, in any events, pending animation alarms equal pending brightness alarms and are at most one, none is pending on a blank display, and the queue is in order |
| ChargeTheorems.TrailBalances | charge_only_mode/main.c:74-132 | The same between any two callbacks of a batch |
| ChargeTheorems.FiredBalances | charge_only_mode/main.c:74-132 | Every callback restores the balance that taking out its alarm has broken |
| ChargeTheorems.EventBalances | charge_only_mode/main.c:283-313 | Every event keeps it |
| ChargeTheorems.TurnKeeps | charge_only_mode/main.c:265-313 | A turn keeps balance and queue, alarm_process or event |
| ChargeTheorems.AfterQuit | charge_only_mode/main.c:265-313 | Nothing happens after quit |
| ChargeSpec.FiredSane | charge_only_mode/main.c:74-132 | A callback leaves of the due alarms exactly those it has not cancelled, and adds none that is due |
| ChargeEvents.RebootNeedsHold | charge_only_mode/main.c:283-292 | In every run the reboot fires only for a power key that went down at least a second before and has not come up since |
| ChargeEvents.RebootsAreHeld | charge_only_mode/main.c:283-292 | In every state of every run each pending reboot is of such a key |
| ChargeEvents.HistoryOf | charge_only_mode/main.c:265-313 | The states of a run, turn by turn |
| ChargeEvents.PowerKeyUpDoes | charge_only_mode/main.c:289-292 | The key coming up leaves no pending reboot, ends stage one in the dark, and lights the display from any other stage |
| ChargeEvents.PowerKeyDownDoes | charge_only_mode/main.c:285-288 | Going down it sets the reboot for one second later if the voltage suffices, and nothing else |
| ChargeEvents.OtherKeyDoes | charge_only_mode/main.c:195-201 | Any other key lights the display from every stage |
| ChargeEvents.WakeupEndsStageOne | charge_only_mode/main.c:184-193 | Stage one goes dark with no screen timer left |
| ChargeEvents.WakeupLights | charge_only_mode/main.c:184-193 | Any other stage is lit, with stage one to end after five seconds and the animation after half a second |
| ChargeEvents.StartDoes | charge_only_mode/main.c:253-263 | Charge-only mode starts lit, with the animation after a second and a half |
| ChargeEvents.PowerEventDoes | charge_only_mode/main.c:134-182 | The voltage decides whether the power key counts; a charger gone for the first time shuts the screen down |
| ChargeEvents.StagesDo | charge_only_mode/main.c:80-99 | Stage one goes on to stage two for ten seconds, and stage two ends in the dark |
| ChargeEvents.AnimationDoes | charge_only_mode/main.c:74-78 | The animation comes every half second until the charger has gone |
| ChargeEvents.RebootDoes | charge_only_mode/main.c:110-132 | The reboot cancels the screen timers and quits if it succeeds |
| ChargeEvents.SetAdds | charge_only_mode/alarm.c:75-111 | Setting an alarm adds that alarm, due at the reading plus its milliseconds, and no other |
| ChargeEvents.CancelTakes | charge_only_mode/alarm.c:113-135 | Cancelling takes the alarms of the callback and no others |
| ChargeEvents.FiredKeeps | charge_only_mode/main.c:74-132 | No callback sets a reboot or takes one back |
| ChargeMode.Run | charge_only_mode/main.c:245-313 | The device after any events is in the state that those events give, and so balanced |
| ChargeMode.Device.Fire | charge_only_mode/main.c:74-132 | The whole new state each callback leaves, and no node outside the queue touched |
| ChargeMode.Device.AnimationAlarm | charge_only_mode/main.c:74-78 | It sets itself again, unless the charger has just gone |
| ChargeMode.Device.Bright2Alarm | charge_only_mode/main.c:80-92 | The animation is cancelled and the display blanked |
| ChargeMode.Device.Bright1Alarm | charge_only_mode/main.c:94-99 | Stage two is set for ten seconds |
| ChargeMode.Device.StartAnimation | charge_only_mode/main.c:101-108 | Stage one and the animation are set, with their times |
| ChargeMode.Device.PowerKeyAlarm | charge_only_mode/main.c:110-132 | The screen timers are cancelled; it quits unless the reboot fails |
| ChargeMode.Device.Power | charge_only_mode/main.c:134-182 | The first report without charger shuts down and leaves no screen timer |
| ChargeMode.Device.WakeScreen | charge_only_mode/main.c:184-193 | Stage one goes dark, anything else starts over |
| ChargeMode.Device.WakeScreen2 | charge_only_mode/main.c:195-201 | Any state starts over |
| ChargeMode.Device.LoopTurn | charge_only_mode/main.c:265-313 | A turn runs alarm_process exactly when the first alarm is less than a millisecond away, and handles the event otherwise |
| ChargeMode.Device.Handle | charge_only_mode/main.c:283-313 | The whole new state each event leaves |
| ChargeMode.Device.TimeUntilNext | charge_only_mode/alarm.c:62-73 | The delay to the first alarm |
| ChargeMode.Device.constructor | charge_only_mode/main.c:253-263 | The state when the loop is first reached |
| PanicStore.Store.CheckDir | aplogd/modemlog.c:408-455 | It terminates; with its 32-bit counter it deletes the shortest oldest-first prefix, of files and never of "." or "..", that brings the counter to MAXTOTALSIZE or less; that is the prefix that leaves at most 102400 bytes if and only if no rest of the files is too large and yet looks small to an int, as always below two gigabytes; the list ends empty and every record is freed |
| PanicRetention.ShortestIsUnique | aplogd/modemlog.c:435-452 | There is only one such prefix, for the counter as for the total |
| PanicRetention.RetentionIsExact | aplogd/modemlog.c:412-452 | What the counter makes checkdir delete is what the limit asks for exactly when it never stops early |
| PanicRetention.LargeFilesStay | aplogd/modemlog.c:412-452 | Two files of a gigabyte each: nothing is deleted |
| PanicRetention.RetainedSize | aplogd/modemlog.c:435-435 | At most 102400 bytes remain, and nothing goes if there were no more |
| PanicRetention.OnlyFilesGo | aplogd/modemlog.c:420-452 | What goes is an entry of the directory, and neither "." nor ".." |
| PanicRetention.ListedFiles | aplogd/modemlog.c:420-433 | Every other entry is listed |
| PanicRetention.CountSize | aplogd/modemlog.c:432-448 | Adding and subtracting sizes in an int keeps the counter equal to the wrapped total |
| PanicRetention.OldestIsFirst | aplogd/modemlog.c:435-452 | Repeatedly taking the first of the oldest is the order of the stable sort by age, ties last listed first |
| PanicRetention.EvictOne | aplogd/modemlog.c:446-451 | One eviction keeps order, sum and necessity of everything deleted |
| PanicStore.Store.List | aplogd/modemlog.c:420-433 | The list is the directory in reverse without the dot entries, and the counter its wrapped sum |
| PanicStore.Store.FindOldest | aplogd/modemlog.c:436-445 | The first of the oldest records |
| PanicStore.Store.EvictOldest | aplogd/modemlog.c:435-452 | The oldest record goes and the sum falls by its size |
| PanicStore.Store.Evict | aplogd/modemlog.c:435-452 | The loop ends with the counter at most MAXTOTALSIZE, and everything deleted was deleted while it was larger |
| PanicStore.Store.Add | aplogd/modemlog.c:363-389 | A record is put in front, linked both ways |
| PanicStore.Store.Delete | aplogd/modemlog.c:391-403 | A record is unlinked both ways and freed, the others are not |
| PanicStore.Store.Drain | aplogd/modemlog.c:453-453 | The list is empty and no record ever made is still allocated |

## Left out

- wrapper_close of audio/wrapper.c: it frees both tables and the device under running calls.
- restore_mute and the stream parameters of audio/wrapper.c: they write the muted value to the mixer again and change none of the other state.
- Weak memory: the barriers of the sequence-counter lock are taken to give sequential consistency.
- The VectorImpl destructor and the different-item-size abort of operator=: the element type is a type parameter.
- Inserting or merging a vector into itself, and fast merge into an empty receiver: the code reads freed or null memory there.
- CowVector.Vector.Shrink: does not model the byte size of the smaller block overflowing when the capacity was below 4, because nothing is copied then.
- CowVector.Vector.Sort: the temporary element and the shifting are on values while the block is this vector's own; raw cells between a destroy and a copy are not shown.
- CowVector.Vector.RemoveItemsAt: does not say what a removal that leaves its block does to memory, because that is undefined.
- The command-line driver of md5sum and its file reading: input and output only.
- filstat, newerf, equalf, getn and getq of motobox/test.c: oracles.
- TestEval.TestMain: takes the base name of argv[0] as given.
- SCSI events, CD-ROM mounting, sockets and messages to the application in usbd/usb_app.c: foreign calls without effect on the mode state.
- launch_sequence, drawing, LEDs and brightness in charge_only_mode: no state that the timers depend on.
- ChargeMode.Device.Bright2Alarm: does not model that the power-off of a shutdown does not return.
- PanicStore.Store.List: does not model a failing lstat or malloc; the code then adds an uninitialised size or leaves a file out of the list. Signed overflow in the subtraction is taken to wrap.
- gps, HDMI audio, libpower, libhealthd, motorild, wrigleyd, the other motobox tools, aserver and releasetools: thin wrappers, file-system effects or build scripts.
