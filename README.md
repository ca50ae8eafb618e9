# SURGE engine cores in Dafny

SURGE is a C++/Rust game engine. Most of it drives a GPU, a window and script
virtual machines, but beneath that plumbing lie small sequential cores. This
project models them in Dafny and proves what they promise:

- **Module lifecycle and hot reload.** A game module is a shared library
  that must export seven entry points (`on_load`, `on_unload`, `draw`,
  `update`, `keyboard_event`, `mouse_button_event`, `mouse_scroll_event`).
  The loader opens it, resolves the entry points in that order, unloads it
  (a null handle is ignored) and reloads it: recover the file name, unload,
  rename `<name>.new` over `<name>` when it exists, load again. The hosts
  (the GL/Vulkan player, the GL-only and Vulkan-only players, and the
  module-manager player) start a module, run a frame loop whose F5+LeftCtrl
  rising edge triggers a hot reload, and tear down. The module file name
  comes from an INI configuration, and the command line is dispatched on its
  argument count and flags. Libraries are a table of handles, the file
  system a map from path to the names a file exports, and everything a host
  does to its module is a log of events, so "nothing is called after
  unload" and "nothing leaks" become properties of that log.
- **Memory allocators.** The stack allocator (headers with an allocation
  counter, LIFO free, save/restore), the linear and static bump arenas, the
  mutex-guarded arena used by EASTL, the scripting core's fixed and growable
  arenas, the per-thread allocator table, and the alignment helpers.
  A buffer is an `array` of bytes (values below 256). The allocation
  counters, `calloc`'s product and the aligned sizes wrap modulo 2^64 as
  `std::size_t` does; the capacity tests add index and size as unbounded
  integers (see "Left out").
- **GPU ring and bump buffers.** The generic buffer array (GBA), the sprite
  database, the GL ring buffer and the persistently mapped buffer (PMB):
  write indices, buffer rotation, fences as one boolean per buffer, and
  capacity checks.
- **Databases and sprite batching.** Sprite batches kept as parallel arrays
  in lockstep, and texture databases with find-by-hash and reset. The
  player's `player/src/texture.cpp` has the same database, residency helpers
  and handle check as the core's `texture.cpp`; one model covers both.
- **Animation data.** The SAD file validator and record reader, and the
  sprite-sheet frame arithmetic of animated sprites and actors.
- **Game logic.** The 2048 module (piece-ID pool, state queue, the
  compress/merge tables for every direction, scoring), the 2048 piece table
  of the newer module, and the DTU game's two-slot state machine,
  immediate-mode spinner and button, character sheet and command-queue
  attribute editors.
- **Vulkan descriptor-pool allocators.** Ready and full pool lists with
  capped geometric growth and one retry; the descriptor writer and the
  layout builder.

Foreign calls (`dlopen`, GL fences, Vulkan allocation, `std::filesystem`,
hashing, the clock, random numbers) are parameters of the functions that
would make them: a boolean that says whether the call succeeds, or an
opaque value.

Each stateful C++ object is a Dafny `class` whose methods are proved
against a function of the old state (`ensures Model() == Spec(old(Model()))`);
the properties are proved once about those functions.

## Model

| member | source | states |
|---|---|---|
| AllocUtil.IsPow2Exactly | include/allocators.hpp:16-18 | the bit test `(x & (x-1)) == 0` holds exactly for the powers of two and for 0 |
| AllocUtil.DefaultAlignmentIsPow2 | source/allocators/stack_allocator.cpp:10 | the default alignment (`alignof(max_align_t)`, 16) is a power of two |
| AllocUtil.AlignmentRemainderIsMod | include/allocators.hpp:33-39 | the remainder computed by mask for a power of two, or by `%` otherwise, is `intended % alignment` |
| AllocUtil.AlignAllocSizeRoundsUp | include/allocators.hpp:29-41 | without overflow, the aligned size is a multiple of the alignment, strictly above the request and at most one alignment above it; an already aligned request still gains a full alignment |
| AllocUtil.StlAlignmentValid | include/allocators.hpp:82-89 | the adaptor's alignment `max(alignof(T), sizeof(void*))` is a power of two and a multiple of the pointer size |
| AllocUtil.AlignedSizeAccepted | source/allocators/stack_allocator.cpp:100-132 | an aligned size with a power-of-two, pointer-multiple alignment passes every argument check of `aligned_alloc` and exceeds the request |
| AllocUtil.StlRequestAccepted | include/allocators.hpp:82-93 | for every element type and count without overflow, the adaptor's request passes the allocator's argument checks and covers the `n` elements |
| AllocUtil.Overwrite | source/allocators/stack_allocator.cpp:151-154 | copying bytes into a buffer changes exactly the bytes in the target range, each to the copied value |
| StackArena.AlignedAlloc | source/allocators/stack_allocator.cpp:97-154 | the allocator invariant is kept; a block is returned exactly when the alignment is a power of two and a pointer multiple, the size a nonzero multiple of it, and header plus block stay strictly below the capacity; a refusal changes nothing |
| StackArena.Free | source/allocators/stack_allocator.cpp:171-205 | the invariant and the buffer are kept and `free_index` never grows |
| StackArena.Malloc | source/allocators/stack_allocator.cpp:207-220 | the invariant is kept and `malloc(0)` returns null with the state unchanged |
| StackArena.Calloc | source/allocators/stack_allocator.cpp:222-256 | the invariant is kept; a zero count or size, or any refusal, returns null with the state unchanged; a returned block starts just past the header at the old `free_index`, ends at the new `free_index` (its start plus the aligned, wrapped product), is valid and the last block, the counter is one higher, and every byte of it is zero |
| StackArena.ZeroingKeepsHeader | source/allocators/stack_allocator.cpp:250-253 | zeroing a block's data leaves the header in front of it, and so the block's validity, as it was, and makes every byte of the block zero |
| StackArena.ReallocAsWritten | source/allocators/stack_allocator.cpp:258-313 | a null pointer is a `malloc` of the new size; an invalid pointer returns null with the state unchanged; the last block keeps its pointer and only `free_index` moves, to the block's start plus the aligned new size as a `size_t` sum (modulo 2^64); any other valid block is answered by a `malloc` of the aligned size |
| StackArena.Realloc | source/allocators/stack_allocator.cpp:258-313 | `realloc` with the capacity check: the invariant is kept, a null pointer is a `malloc`, an invalid pointer returns null, the last block is resized in place or refused without change, and any other valid block is answered by a `malloc` of the aligned size |
| StackArena.Save | source/allocators/stack_allocator.cpp:316-327 | `save` raises the saved flag, leaves the buffer alone and keeps the invariant |
| StackArena.Restore | source/allocators/stack_allocator.cpp:329-342 | `restore` lowers the saved flag, leaves the buffer alone and keeps the invariant, since the saved `free_index` lies within the buffer |
| StackArena.HeaderRoundTrip | source/allocators/stack_allocator.cpp:83-90 | the header written in front of a block reads back as the counter that was stored |
| StackArena.AllocShape | source/allocators/stack_allocator.cpp:151-154 | a successful allocation writes the incremented counter as the header, moves `free_index` to the end of the block and returns the data start |
| StackArena.AllocatedBlockIsLast | source/allocators/stack_allocator.cpp:40-66 | the block returned is valid, is the last block, lies in former free space and ends at the new `free_index`, below the capacity |
| StackArena.AllocThenFreeRestores | source/allocators/stack_allocator.cpp:177-205 | freeing the block just allocated restores `free_index` and the counter |
| StackArena.FreeOfInnerBlockIgnored | source/allocators/stack_allocator.cpp:177-190 | after a further allocation an earlier block is still valid, but freeing it changes nothing |
| StackArena.RestoreAfterSave | source/allocators/stack_allocator.cpp:316-342 | `restore` after `save` brings back the saved counter and `free_index` whatever happened between, and a second `restore` changes nothing |
| StackArena.ReallocOverrunsBuffer | source/allocators/stack_allocator.cpp:280-288 | the in-place branch as written grows a 48-byte buffer's only block to 64 bytes, moving `free_index` to 88, past the buffer, and still returns the block |
| StackArena.ReallocInPlaceFits | source/allocators/stack_allocator.cpp:264-290 | the corrected `realloc` resizes the last block in place when it fits and keeps `free_index` inside the buffer |
| StackArenaClass.StackAllocator.constructor | source/allocators/stack_allocator.cpp:13-29 | the buffer holds the aligned capacity, and the allocator starts empty with counter 0 and nothing saved |
| StackArenaClass.StackAllocator.IsValidPtr | source/allocators/stack_allocator.cpp:40-66 | the array-based test answers exactly the validity predicate of the model |
| StackArenaClass.StackAllocator.ReadHeaderAt | source/allocators/stack_allocator.cpp:83-90 | decodes the eight header bytes in front of a block to the model's header value |
| StackArenaClass.StackAllocator.AlignedAlloc | source/allocators/stack_allocator.cpp:97-154 | the array and fields change exactly as `StackArena.AlignedAlloc` says, and the invariant is kept |
| StackArenaClass.StackAllocator.Free | source/allocators/stack_allocator.cpp:171-205 | the fields change exactly as `StackArena.Free` says |
| StackArenaClass.StackAllocator.Malloc | source/allocators/stack_allocator.cpp:207-220 | the state changes exactly as `StackArena.Malloc` says |
| StackArenaClass.StackAllocator.Calloc | source/allocators/stack_allocator.cpp:222-256 | the state changes exactly as `StackArena.Calloc` says, zeroing the block in the array |
| StackArenaClass.StackAllocator.Realloc | source/allocators/stack_allocator.cpp:258-313 | the state changes exactly as the corrected `StackArena.Realloc` says |
| StackArenaClass.StackAllocator.Save | source/allocators/stack_allocator.cpp:316-327 | the fields change exactly as `StackArena.Save` says and the object stays valid |
| StackArenaClass.StackAllocator.Restore | source/allocators/stack_allocator.cpp:329-342 | the fields change exactly as `StackArena.Restore` says and the object stays valid |
| Machine.WrapIncDec | source/allocators/stack_allocator.cpp:151-154 | incrementing and then decrementing a `std::size_t` counter gives it back, across the wrap too |
| Machine.DecodeEncodeLE | source/allocators/stack_allocator.cpp:83-90 | reading back the little-endian bytes of a value that fits gives the value |
| Machine.BitAndPredecessor | include/allocators.hpp:16-18 | `x & (x - 1)` is zero, for positive `x`, exactly when `x` is a power of two |
| Machine.BitAndMaskIsMod | include/allocators.hpp:35-37 | masking with `alignment - 1` is the remainder by a power-of-two alignment |
| BumpArena.AlignedAlloc | source/allocators/linear_arena_allocator.cpp:35-101 | a block is returned exactly when the checks of the build pass and `free_index + size` stays strictly below the capacity; it starts at the old `free_index`, which moves up by `size`; a refusal changes nothing |
| BumpArena.Malloc | source/allocators/linear_arena_allocator.cpp:103-117 | `malloc(0)` returns null where zero sizes are refused; a block starts at the old `free_index` |
| BumpArena.CallocSizeCovers | source/allocators/linear_arena_allocator.cpp:119-146 | without overflow, the rounded block of `calloc` covers `num * size` bytes and is a multiple of the default alignment |
| BumpArena.Calloc | source/allocators/linear_arena_allocator.cpp:119-153 | a zero count or size returns null unchanged where zero sizes are refused; the buffer keeps its length |
| BumpArena.Free | source/allocators/linear_arena_allocator.cpp:161-169 | `free` releases nothing: the buffer and `free_index` are kept, and outside debug builds nothing changes |
| BumpArena.Realloc | source/allocators/linear_arena_allocator.cpp:155-159 | `realloc` is `free` then `malloc`: the old bytes stay where they are and a new block starts at `free_index` |
| BumpArena.Reset | include/linear_arena_allocator.hpp:295-298 | `reset` puts `free_index` and the counter back to 0 and keeps the buffer |
| BumpArena.Save | source/allocators/linear_arena_allocator.cpp:171-182 | `save` raises the flag and changes neither `free_index` nor the buffer |
| BumpArena.Restore | source/allocators/linear_arena_allocator.cpp:184-197 | `restore` lowers the flag, and without a prior `save` changes nothing |
| BumpArena.StaticSave | include/allocators/static_arena_allocator.hpp:166-175 | the saved value holds `free_index`, and the counter only in debug builds (0 otherwise) |
| BumpArena.StaticRestore | include/allocators/static_arena_allocator.hpp:177-186 | `free_index` is set from the saved value; the counter is restored only in debug builds |
| BumpArena.SuccessiveBlocksAreDisjoint | source/allocators/linear_arena_allocator.cpp:69-100 | two successive allocations are contiguous, do not overlap and both end below the capacity |
| BumpArena.RestoreAfterSave | source/allocators/linear_arena_allocator.cpp:171-197 | `restore` after `save` brings back the saved `free_index` and counter, and a second `restore` changes nothing |
| BumpArena.StaticRestoreOfSave | include/allocators/static_arena_allocator.hpp:166-186 | restoring a saved value brings back `free_index`; the counter comes back only in debug builds and is untouched otherwise |
| BumpArena.CallocZeroes | source/allocators/linear_arena_allocator.cpp:144-153 | after a successful `calloc` every byte of the rounded block is zero |
| BumpArenaClass.LinearArena.constructor | source/allocators/linear_arena_allocator.cpp:8-23 | the buffer holds the requested capacity aligned up to the default alignment, and the arena starts empty |
| BumpArenaClass.LinearArena.Static | include/allocators/static_arena_allocator.hpp:24-26 | a static arena holds a zeroed buffer of exactly its template capacity and starts empty |
| BumpArenaClass.LinearArena.AlignedAlloc | source/allocators/linear_arena_allocator.cpp:35-101 | the fields change exactly as `BumpArena.AlignedAlloc` says |
| BumpArenaClass.LinearArena.Malloc | source/allocators/linear_arena_allocator.cpp:103-117 | the fields change exactly as `BumpArena.Malloc` says |
| BumpArenaClass.LinearArena.Calloc | source/allocators/linear_arena_allocator.cpp:119-153 | the fields and the zeroed bytes of the array change exactly as `BumpArena.Calloc` says |
| BumpArenaClass.LinearArena.Free | source/allocators/linear_arena_allocator.cpp:161-169 | the fields change exactly as `BumpArena.Free` says |
| BumpArenaClass.LinearArena.Realloc | source/allocators/linear_arena_allocator.cpp:155-159 | the fields change exactly as `BumpArena.Realloc` says |
| BumpArenaClass.LinearArena.Reset | include/linear_arena_allocator.hpp:295-298 | the fields change exactly as `BumpArena.Reset` says |
| BumpArenaClass.LinearArena.Save | source/allocators/linear_arena_allocator.cpp:171-182 | the fields change exactly as `BumpArena.Save` says |
| BumpArenaClass.LinearArena.Restore | source/allocators/linear_arena_allocator.cpp:184-197 | the fields change exactly as `BumpArena.Restore` says |
| BumpArenaClass.LinearArena.StaticSave | include/allocators/static_arena_allocator.hpp:166-175 | returns exactly `BumpArena.StaticSave` of the current state, changing nothing |
| BumpArenaClass.LinearArena.StaticRestore | include/allocators/static_arena_allocator.hpp:177-186 | the fields change exactly as `BumpArena.StaticRestore` says |
| EastlArena.Init | include/arena_allocator.hpp:34-40 | the constructor gives a vector of `capacity` zero bytes with nothing allocated |
| EastlArena.Padding | source/arena_allocator.cpp:70-83 | the padding `alignment - free_index mod alignment` is between 1 and the alignment and brings `free_index` to a multiple of it |
| EastlArena.AllocateAsWritten | source/arena_allocator.cpp:53-119 | alignment 0 returns null unchanged; otherwise a block is returned exactly when `free_index + n + padding + offset` does not exceed the capacity (a non-strict check), and it starts at the old, unpadded `free_index` |
| EastlArena.Allocate | source/arena_allocator.cpp:53-119 | the same refusals and capacity check; a block starts on an aligned index after the padding, ends with the offset at the new `free_index` within the capacity, and the allocation count rises by one |
| EastlArena.AllocateDefault | source/arena_allocator.cpp:48-50 | `allocate(n, flags)` uses pointer alignment and no offset, through the corrected `allocate`: a block is pointer-aligned and fits in the capacity, and is returned exactly when the padded size fits |
| EastlArena.Deallocate | source/arena_allocator.cpp:28-46 | `deallocate` releases nothing: only the allocation count drops by one |
| EastlArena.ResetAsWritten | source/arena_allocator.cpp:121-127 | `reset` zeroes the index and the count and clears the backing vector to length 0 |
| EastlArena.Reset | source/arena_allocator.cpp:121-127 | the corrected `reset` returns the arena to the state its constructor builds |
| EastlArena.AllocationIsBacked | source/arena_allocator.cpp:101-104 | while the vector is as long as the capacity, every block returned lies inside it |
| EastlArena.ResetKeepsStorage | source/arena_allocator.cpp:121-127 | after the corrected `reset` the arena is still backed by its full vector |
| EastlArena.SuccessiveBlocksDisjoint | source/arena_allocator.cpp:87-104 | two successive blocks of the corrected `allocate` never overlap |
| EastlArena.AllocateAsWrittenIsUnaligned | source/arena_allocator.cpp:101-104 | two one-byte allocations with alignment 8 in a 64-byte arena return indices 0 and 9, the second not 8-aligned |
| EastlArena.ResetAsWrittenLeavesNoStorage | source/arena_allocator.cpp:121-127 | after `reset` an allocation succeeds and returns index 0 of a vector with no elements |
| EastlArenaClass.ArenaAllocator.constructor | include/arena_allocator.hpp:34-40 | the object starts as `EastlArena.Init` of its capacity |
| EastlArenaClass.ArenaAllocator.Allocate | source/arena_allocator.cpp:53-119 | the fields change exactly as the corrected `EastlArena.Allocate` says |
| EastlArenaClass.ArenaAllocator.Deallocate | source/arena_allocator.cpp:28-46 | the fields change exactly as `EastlArena.Deallocate` says |
| EastlArenaClass.ArenaAllocator.Reset | source/arena_allocator.cpp:121-127 | the fields change exactly as the corrected `EastlArena.Reset` says |
| ScArena.ActualSize | core/src/sc_allocators.cpp:157-158 | the corrected padded size is the smallest multiple of the alignment that holds `size` |
| ScArena.Init | core/src/sc_allocators.cpp:138 | the constructor gives `capacity` zero bytes and offset 0 |
| ScArena.Bump | core/src/sc_allocators.cpp:159-168 | a block is returned exactly when the new offset stays strictly below the capacity; it starts at the old offset, the offset moves by the padded size and the block is zeroed; a refusal changes nothing |
| ScArena.AllocateAsWritten | core/src/sc_allocators.cpp:149-184 | a block is returned exactly when `is_pow_2` accepts the alignment and `offset + size + (size & (alignment - 1))` stays below the capacity |
| ScArena.Allocate | core/src/sc_allocators.cpp:149-184 | the corrected `allocate` refuses alignment 0 too; a block starts at the old offset, covers `size` zeroed bytes, and keeps an aligned offset aligned; a refusal changes nothing |
| ScArena.Reset | core/src/sc_allocators.cpp:140-143 | `reset` puts the offset back to 0 and keeps the bytes |
| ScArena.Size | core/src/sc_allocators.cpp:145 | `size` is the offset, the bytes in use |
| ScArena.AllocateAll | core/src/sc_allocators.cpp:149-184 | a run of allocations keeps the invariant and yields one result per request |
| ScArena.AllocateAllAligned | core/src/sc_allocators.cpp:157-168 | from an aligned offset, such as after `reset`, every block of a run of corrected allocations with one alignment is aligned |
| ScArena.AllocateAsWrittenIsUnaligned | core/src/sc_allocators.cpp:157-158 | in a 64-byte arena `allocate(3, 4)` consumes 6 bytes, so the next `allocate(4, 4)` returns offset 6, not a multiple of 4 |
| ScArena.DynamicInit | core/src/sc_allocators.cpp:198-218 | `dynamic_arena_init` succeeds exactly when the system allocator grants the block, giving capacity `initial_size`, offset 0 and zeroed memory; otherwise it reports the init error |
| ScArena.DynamicMallocAsWritten | core/src/sc_allocators.cpp:226-276 | on success the old offset is returned and the offset moves by the padded size, whatever the capacity after one doubling |
| ScArena.GrownCapacity | core/src/sc_allocators.cpp:240-241 | doubling from a positive capacity until the needed offset fits gives a capacity above it and no smaller than the start |
| ScArena.GrowTarget | core/src/sc_allocators.cpp:240-258 | the capacity the corrected arena grows to holds the new offset strictly and never shrinks |
| ScArena.DynamicMalloc | core/src/sc_allocators.cpp:226-276 | succeeds exactly when the alignment is a nonzero power of two and, if the arena must grow, the system grants the block; a growth failure reports the grow error; on success the old bytes in use are kept, the block starts at the old offset, is zeroed and ends below the capacity |
| ScArena.DynamicReset | core/src/sc_allocators.cpp:278 | `dynamic_arena_reset` leaves nothing in use and keeps the capacity |
| ScArena.DynamicMallocAsWrittenOverflows | core/src/sc_allocators.cpp:240-262 | a 16-byte arena asked for 64 bytes grows to 32 bytes only, yet hands out a block reaching past its capacity |
| ScArenaClass.FixedArena.constructor | core/src/sc_allocators.cpp:138 | the object starts as `ScArena.Init` of its capacity |
| ScArenaClass.FixedArena.Allocate | core/src/sc_allocators.cpp:149-184 | the offset and bytes change exactly as the corrected `ScArena.Allocate` says, the padding computed with masks |
| ScArenaClass.FixedArena.Reset | core/src/sc_allocators.cpp:140-143 | the state changes exactly as `ScArena.Reset` says |
| ScArenaClass.FixedArena.Size | core/src/sc_allocators.cpp:145 | returns `ScArena.Size` of the state |
| ScArenaClass.DynamicArena.constructor | core/src/sc_allocators.cpp:198-218 | the object starts as a granted `ScArena.DynamicInit` |
| ScArenaClass.DynamicArena.Malloc | core/src/sc_allocators.cpp:226-276 | the state and result follow the corrected `ScArena.DynamicMalloc`; an error changes nothing |
| ScArenaClass.DynamicArena.Reset | core/src/sc_allocators.cpp:278 | the state changes exactly as `ScArena.DynamicReset` says |
| ScArenaClass.CopyPrefix | core/src/sc_allocators.cpp:253 | the first `n` bytes of the new block equal those of the old one |
| ThreadAllocators.Decimal | source/thread_allocators.cpp:15-36 | a thread index of the name table has one decimal digit below 10 and two otherwise |
| ThreadAllocators.ThreadName | source/thread_allocators.cpp:15-36 | the name of thread `i` is `Thread `, its decimal index, then ` stack allocator` |
| ThreadAllocators.ThreadNamesDistinct | source/thread_allocators.cpp:15-36 | no two threads of the table share a name |
| ThreadAllocators.AtIndex | source/thread_allocators.cpp:70-79 | `at(i)` picks element `i` when it exists and the last allocator otherwise, always a valid index |
| ThreadAllocators.DestructionOrder | source/thread_allocators.cpp:59-68 | the destructor visits the indices from the highest down to 0 |
| ThreadAllocators.DestructionOrderCoversAll | source/thread_allocators.cpp:59-68 | every allocator is destroyed exactly once, and nothing else is |
| ThreadAllocatorsClass.GlobalThreadAllocators.constructor | source/thread_allocators.cpp:39-46 | the table starts with no allocators and nothing destroyed |
| ThreadAllocatorsClass.GlobalThreadAllocators.Init | source/thread_allocators.cpp:39-57 | for any `nt`, `init` creates exactly `nt` distinct, fresh, empty stack allocators of `memory_per_thread` bytes (the signed amount converted to `size_t`); thread `i` gets the table's name exactly when `i` is below 20, and no name past the table |
| ThreadAllocatorsClass.NewAllocators | source/thread_allocators.cpp:48-56 | for any `n`, the loop of `init` yields `n` distinct, fresh, valid and empty stack allocators of the aligned capacity; the names are the table's in index order, and none for an index past the table |
| ThreadAllocatorsClass.GlobalThreadAllocators.At | source/thread_allocators.cpp:70-79 | returns the allocator at `ThreadAllocators.AtIndex` |
| ThreadAllocatorsClass.GlobalThreadAllocators.Back | source/thread_allocators.cpp:81-83 | returns the last allocator |
| ThreadAllocatorsClass.GlobalThreadAllocators.Destroy | source/thread_allocators.cpp:59-68 | records the allocators destroyed in `ThreadAllocators.DestructionOrder` and keeps the table |
| GpuBumpArray.Create | core/include/sc_opengl/atoms/gba.hpp:72-107 | `create` gives `redundancy` unfenced buffers of `capacity` elements with nothing written, writing from buffer 0, index 0 |
| GpuBumpArray.WaitBuffer | core/include/sc_opengl/atoms/gba.hpp:52-69 | `wait_buffer` deletes exactly that buffer's fence |
| GpuBumpArray.WaitIdle | core/include/sc_opengl/atoms/gba.hpp:201-210 | `wait_idle` deletes every fence and changes nothing else |
| GpuBumpArray.Push | core/include/sc_opengl/atoms/gba.hpp:128-145 | a push that fits writes the value at `[write_buffer][write_idx]`, clears that buffer's fence and moves `write_idx` up by one, leaving the other elements; a debug build ignores a push at capacity |
| GpuBumpArray.GetElmPtr | core/include/sc_opengl/atoms/gba.hpp:147-161 | the element's place is `idx` of the write buffer; null exactly in a debug build past `size()` |
| GpuBumpArray.LockWriteBuffer | core/include/sc_opengl/atoms/gba.hpp:174-186 | an unfenced write buffer is fenced and the next buffer modulo `redundancy` becomes the write buffer; a fenced one changes nothing; `write_idx` and the data are kept |
| GpuBumpArray.Reset | core/include/sc_opengl/atoms/gba.hpp:188 | `reset` sets `write_idx` to 0 and nothing else |
| GpuBumpArray.Reinit | core/include/sc_opengl/atoms/gba.hpp:190-199 | `reinit` leaves no buffer fenced and restarts writing at buffer 0, index 0, keeping the data |
| GpuBumpArray.PushThenRead | core/include/sc_opengl/atoms/gba.hpp:128-161 | a push that fits grows `size()` by one and reads back through `get_elm_ptr`, and the other elements of the buffer are untouched |
| GpuBumpArray.LockTimes | core/include/sc_opengl/atoms/gba.hpp:174-186 | a run of locks keeps the invariant and the number of buffers |
| GpuBumpArray.LocksFenceInOrder | core/include/sc_opengl/atoms/gba.hpp:174-186 | from a fresh array the first `count` locks fence buffers 0 to `count - 1` and stop on buffer `count` |
| GpuBumpArray.LocksAfterReinitCycle | core/include/sc_opengl/atoms/gba.hpp:174-199 | after `reinit`, `redundancy` locks fence every buffer and come back to buffer 0, and a further lock changes nothing until a buffer is waited for |
| GpuBumpArrayClass.BumpArray.Create | core/include/sc_opengl/atoms/gba.hpp:72-107 | the object starts as `GpuBumpArray.Create` |
| GpuBumpArrayClass.BumpArray.WaitBuffer | core/include/sc_opengl/atoms/gba.hpp:52-69 | the fields change exactly as `GpuBumpArray.WaitBuffer` says |
| GpuBumpArrayClass.BumpArray.WaitIdle | core/include/sc_opengl/atoms/gba.hpp:201-210 | the fields change exactly as `GpuBumpArray.WaitIdle` says |
| GpuBumpArrayClass.BumpArray.Push | core/include/sc_opengl/atoms/gba.hpp:128-145 | the fields change exactly as `GpuBumpArray.Push` says |
| GpuBumpArrayClass.BumpArray.GetElmPtr | core/include/sc_opengl/atoms/gba.hpp:147-161 | returns `GpuBumpArray.GetElmPtr` of the state |
| GpuBumpArrayClass.BumpArray.LockWriteBuffer | core/include/sc_opengl/atoms/gba.hpp:174-186 | the fields change exactly as `GpuBumpArray.LockWriteBuffer` says |
| GpuBumpArrayClass.BumpArray.Reset | core/include/sc_opengl/atoms/gba.hpp:188 | the fields change exactly as `GpuBumpArray.Reset` says |
| GpuBumpArrayClass.BumpArray.Reinit | core/include/sc_opengl/atoms/gba.hpp:190-199 | the fields change exactly as `GpuBumpArray.Reinit` says |
| GpuBumpArrayClass.BumpArray.Size | core/include/sc_opengl/atoms/gba.hpp:212 | returns `write_idx` |
| GpuBumpArrayClass.BumpArray.Destroy | core/include/sc_opengl/atoms/gba.hpp:109-126 | `destroy` first waits for every buffer, as `GpuBumpArray.WaitIdle` |
| SpriteDatabase.Create | core/src/gl_atoms/sprite_database.cpp:93-195 | `create` succeeds exactly when the instance, the fence array and both shaders are obtained, reporting the first failure among the allocations; it gives `redundancy` null fences and writes from region 0, index 0; any redundancy is accepted, and the database satisfies the invariant exactly when the redundancy is positive |
| SpriteDatabase.Add | core/src/gl_atoms/sprite_database.cpp:237-259 | `add` stores the record at `write_buffer * max_sprites + write_idx` and moves `write_idx` up by one when `write_idx < max_sprites`, and otherwise ignores the request |
| SpriteDatabase.AddSprite | core/src/gl_atoms/sprite_database.cpp:237-277 | the plain `add` is `add_view` with the full-image view |
| SpriteDatabase.WaitBuffer | core/src/gl_atoms/sprite_database.cpp:49-68 | `wait_buffer` deletes exactly that region's fence |
| SpriteDatabase.BeginAdd | core/src/gl_atoms/sprite_database.cpp:227-235 | `begin_add` waits on the current write region, which is then unfenced |
| SpriteDatabase.WaitIdle | core/src/gl_atoms/sprite_database.cpp:81-91 | `wait_idle` deletes every fence and nothing else |
| SpriteDatabase.LockAndAdvance | core/src/gl_atoms/sprite_database.cpp:70-79 | only an unfenced region is fenced; writing then moves to the next region modulo `redundancy`, from index 0; the records are kept |
| SpriteDatabase.AddDepth | core/src/gl_atoms/sprite_database.cpp:335-344 | `add_depth` overwrites the depth texture, depth map and model |
| SpriteDatabase.Draw | core/src/gl_atoms/sprite_database.cpp:346-372 | the written part of the region is submitted, then locked and advanced, exactly when `write_idx != 0`; the depth sprite is drawn exactly when both depth handles are nonzero |
| SpriteDatabase.AddStaysInRegion | core/src/gl_atoms/sprite_database.cpp:246-255 | every record `add` stores lies inside the current region, hence below `max_sprites * redundancy` |
| SpriteDatabase.DrawMovesToNextRegion | core/src/gl_atoms/sprite_database.cpp:354-370 | a draw that submits sprites from an unfenced region fences it and hands the next `add` a fresh region |
| SpriteDatabaseClass.SpriteDb.constructor | core/src/gl_atoms/sprite_database.cpp:93-195 | the object starts as a successful `SpriteDatabase.Create` of any redundancy, and is valid exactly when the redundancy is positive |
| SpriteDatabaseClass.SpriteDb.Add | core/src/gl_atoms/sprite_database.cpp:237-313 | the fields change exactly as `SpriteDatabase.Add` says |
| SpriteDatabaseClass.SpriteDb.WaitBuffer | core/src/gl_atoms/sprite_database.cpp:49-68 | the fields change exactly as `SpriteDatabase.WaitBuffer` says |
| SpriteDatabaseClass.SpriteDb.BeginAdd | core/src/gl_atoms/sprite_database.cpp:227-235 | the fields change exactly as `SpriteDatabase.BeginAdd` says |
| SpriteDatabaseClass.SpriteDb.WaitIdle | core/src/gl_atoms/sprite_database.cpp:81-91 | the fields change exactly as `SpriteDatabase.WaitIdle` says |
| SpriteDatabaseClass.SpriteDb.LockAndAdvance | core/src/gl_atoms/sprite_database.cpp:70-79 | the fields change exactly as `SpriteDatabase.LockAndAdvance` says |
| SpriteDatabaseClass.SpriteDb.AddDepth | core/src/gl_atoms/sprite_database.cpp:335-344 | the fields change exactly as `SpriteDatabase.AddDepth` says |
| SpriteDatabaseClass.SpriteDb.Draw | core/src/gl_atoms/sprite_database.cpp:346-372 | the fields and the draw calls are exactly those of `SpriteDatabase.Draw` |
| SpriteDatabaseClass.SpriteDb.Destroy | core/src/gl_atoms/sprite_database.cpp:197-206 | `destroy` first waits on every region, as `SpriteDatabase.WaitIdle` |
| RingBuffer.Create | player/include/gl_ring_buffer.hpp:112-122 | section `i` starts at `i * max_elements_per_section`, every end index is 0, nothing is fenced, and writing starts in section 0 |
| RingBuffer.PushElm | player/include/gl_ring_buffer.hpp:134-148 | a push into a full section (`end + 1 > max`) is ignored; otherwise the element is written at `start + end` and `end` grows by one, nothing else changing |
| RingBuffer.Advance | player/include/gl_ring_buffer.hpp:103-109 | the corrected advance moves to the next section and wraps to 0 after the last one |
| RingBuffer.LockAndAdvance | player/include/gl_ring_buffer.hpp:161-165 | corrected: `lock_and_advance` with the corrected advance of the Findings table fences the write section, empties it and moves to the next section modulo the section count, keeping the data |
| RingBuffer.LockAndAdvanceAsWritten | player/include/gl_ring_buffer.hpp:161-165 | `lock_and_advance` as written fences and empties the write section like the corrected one and agrees with it except from the last section, where it moves to section `num_sections` and leaves the invariant |
| RingBuffer.PushStaysInSection | player/include/gl_ring_buffer.hpp:134-148 | every pushed element lands inside its own section and inside the buffer, where it can be read back |
| RingBuffer.AdvanceTimes | player/include/gl_ring_buffer.hpp:103-109 | any number of corrected advances stays on an existing section |
| RingBuffer.AdvanceCycles | player/include/gl_ring_buffer.hpp:103-109 | the corrected advance visits the sections in order and is back at section 0 after `num_sections` steps |
| RingBuffer.AdvanceAsWrittenLeavesRange | player/include/gl_ring_buffer.hpp:103-109 | as written, three advances from section 0 of three sections reach section 3, past the last one |
| RingBufferClass.GlRingBuffer.constructor | player/include/gl_ring_buffer.hpp:50-66 | the object starts as `RingBuffer.Create` |
| RingBufferClass.GlRingBuffer.Size | player/include/gl_ring_buffer.hpp:129-132 | `size()` is the write section's end index |
| RingBufferClass.GlRingBuffer.PushElm | player/include/gl_ring_buffer.hpp:134-148 | the fields change exactly as `RingBuffer.PushElm` says |
| RingBufferClass.GlRingBuffer.LockAndAdvance | player/include/gl_ring_buffer.hpp:95-109 | corrected: the fields change exactly as the corrected `RingBuffer.LockAndAdvance` says |
| PersistentBuffer.Create | player/include/pmb.hpp:86-107 | `create` makes three regions of `max_elements * sizeof(T)` bytes at offsets 0, s and 2s, writing region 0 from its start |
| PersistentBuffer.RegionIndex | player/include/pmb.hpp:43-71 | write regions 0, 1 and 2 select their own region and lock, and any other value falls back to region 0 |
| PersistentBuffer.AddAsWritten | player/include/pmb.hpp:114-140 | `add` as written: when the region's offset plus `write_head` plus the element size exceeds the region size, nothing changes; otherwise the element is stored at that offset and `write_head` advances by one element, with region and fences untouched |
| PersistentBuffer.Add | player/include/pmb.hpp:114-140 | the corrected `add` ignores an element that would end past the current region, and otherwise stores it at `write_head` and advances the head by `sizeof(T)` |
| PersistentBuffer.Reset | player/include/pmb.hpp:142-160 | `reset` puts the head at the start of the current region and changes nothing else |
| PersistentBuffer.LockWriteRegion | player/include/pmb.hpp:169-182 | `lock_write_region` fences the region, replacing any old fence, moves to the next region modulo 3 and resets the head to its start |
| PersistentBuffer.BoundRange | player/include/pmb.hpp:162-167 | `bind_to_location` binds the bytes written so far in the current region |
| PersistentBuffer.AddFillsRegion | player/include/pmb.hpp:114-140 | with the corrected `add`, after a reset each of a region's `max` elements is accepted and stored inside the region, and the bound range grows by one element |
| PersistentBuffer.FullRegionRefuses | player/include/pmb.hpp:121-128 | with the corrected `add`, once a region holds `max` elements the next one is refused |
| PersistentBuffer.AddAsWrittenRefusesRegionOne | player/include/pmb.hpp:121-128 | for a buffer of 4 elements of 8 bytes, after one `lock_write_region` the as-written `add` computes offset 64 for the head at 32 and refuses the element |
| PersistentBufferClass.MappedBuffer.Create | player/include/pmb.hpp:86-107 | the object starts as `PersistentBuffer.Create` |
| PersistentBufferClass.MappedBuffer.Add | player/include/pmb.hpp:114-140 | the fields change exactly as the corrected `PersistentBuffer.Add` says |
| PersistentBufferClass.MappedBuffer.Reset | player/include/pmb.hpp:142-160 | the fields change exactly as `PersistentBuffer.Reset` says |
| PersistentBufferClass.MappedBuffer.LockWriteRegion | player/include/pmb.hpp:169-182 | the fields change exactly as `PersistentBuffer.LockWriteRegion` says |
| SpriteBatch.Create | core/src/gl_atoms/sprite.cpp:13-90 | `create` fails with the shader error exactly when a shader program does not build; otherwise four empty arrays of `max_sprites` elements in lockstep and no depth sprite |
| SpriteBatch.Add | core/src/gl_atoms/sprite.cpp:111-119 | `add` pushes exactly one entry to each of the four arrays, the view being the whole image, so they stay in lockstep; a debug build ignores it at capacity |
| SpriteBatch.AddDepth | core/src/gl_atoms/sprite.cpp:121-129 | `add_depth` replaces the single depth sprite and changes nothing else |
| SpriteBatch.Reset | core/src/gl_atoms/sprite.cpp:154-166 | `reset` drops the depth sprite, sets its model to the identity and empties all four arrays, keeping their buffers |
| SpriteBatch.Reinit | core/src/gl_atoms/sprite.cpp:168-180 | `reinit` does the same and every array also waits for its fences and restarts at buffer 0 |
| SpriteBatch.LockAll | core/src/gl_atoms/sprite.cpp:236-239 | locking each array once keeps them in lockstep |
| SpriteBatch.Draw | core/src/gl_atoms/sprite.cpp:216-254 | the instanced draw and the four locks happen exactly when the arrays are non-empty; the depth sprite is drawn exactly when both its handles are nonzero |
| SpriteBatch.TranslateMatrix | core/src/gl_atoms/sprite.cpp:196 | `glm::translate` changes only the fourth column of the matrix |
| SpriteBatch.Translate | core/src/gl_atoms/sprite.cpp:182-197 | `translate` keeps the arrays in lockstep; a debug build ignores an index past `size()` |
| SpriteBatch.GetPos | core/src/gl_atoms/sprite.cpp:199-214 | `get_pos` gives three coordinates, the origin when a debug build bails out |
| SpriteBatch.TranslateMovesPosition | core/src/gl_atoms/sprite.cpp:182-214 | translating a model whose linear part is the identity moves its position by exactly `dir`, and no other model changes |
| SpriteBatch.AddAll | core/src/gl_atoms/sprite.cpp:111-119 | a run of fitting adds keeps the arrays in lockstep, grows `size()` by the number of sprites and stays in the same write buffer |
| SpriteBatch.AddKeepsStored | core/src/gl_atoms/sprite.cpp:111-119 | an `add` that fits leaves every other stored sprite in place |
| SpriteBatch.AddAllStoresInOrder | core/src/gl_atoms/sprite.cpp:111-119 | adding sprites that fit stores the `k`-th one at `size() + k` in all four arrays |
| SpriteBatch.DrawAfterAdds | core/src/gl_atoms/sprite.cpp:216-241 | after a reset and `n > 0` fitting adds, a draw submits exactly `n` instances in one call |
| PlayerSpriteBatch.Create | player/src/sprite.cpp:14-68 | `create` builds three empty arrays of capacity `max_sprites` with nothing fenced |
| PlayerSpriteBatch.Add | player/src/sprite.cpp:85-92 | `add` pushes exactly one entry to each of the three arrays, keeping them in lockstep |
| PlayerSpriteBatch.Reset | player/src/sprite.cpp:94-101 | `reset` empties all three arrays and keeps their buffers and fences |
| PlayerSpriteBatch.Draw | player/src/sprite.cpp:103-125 | the instanced call and a lock of each array happen exactly when all three are non-empty |
| PlayerSpriteBatch.DrawThenResetMovesOn | player/src/sprite.cpp:94-125 | a frame that draws sprites from an unfenced buffer leaves it fenced and the next frame writes to the next buffer |
| SpriteBatchClass.SpriteBatcher.Init | core/src/gl_atoms/sprite.cpp:13-90 | the object starts as a successful `SpriteBatch.Create` |
| SpriteBatchClass.SpriteBatcher.Add | core/src/gl_atoms/sprite.cpp:111-119 | the four array objects change exactly as `SpriteBatch.Add` says |
| SpriteBatchClass.SpriteBatcher.AddDepth | core/src/gl_atoms/sprite.cpp:121-129 | the fields change exactly as `SpriteBatch.AddDepth` says |
| SpriteBatchClass.SpriteBatcher.Reset | core/src/gl_atoms/sprite.cpp:154-166 | the state changes exactly as `SpriteBatch.Reset` says |
| SpriteBatchClass.SpriteBatcher.Reinit | core/src/gl_atoms/sprite.cpp:168-180 | the state changes exactly as `SpriteBatch.Reinit` says |
| SpriteBatchClass.SpriteBatcher.Draw | core/src/gl_atoms/sprite.cpp:216-254 | the state and the draw calls are exactly those of `SpriteBatch.Draw` |
| SpriteBatchClass.SpriteBatcher.Translate | core/src/gl_atoms/sprite.cpp:182-197 | the models array changes exactly as `SpriteBatch.Translate` says |
| SpriteBatchClass.SpriteBatcher.GetPos | core/src/gl_atoms/sprite.cpp:199-214 | returns `SpriteBatch.GetPos` of the state |
| SpriteBatchClass.SpriteBatcher.Destroy | core/src/gl_atoms/sprite.cpp:92-109 | `destroy` makes each of the four arrays wait for every buffer |
| SpriteBatchClass.PlayerSpriteBatcher.Create | player/src/sprite.cpp:14-68 | the object starts as `PlayerSpriteBatch.Create` |
| SpriteBatchClass.PlayerSpriteBatcher.Add | player/src/sprite.cpp:85-92 | the three arrays change exactly as `PlayerSpriteBatch.Add` says |
| SpriteBatchClass.PlayerSpriteBatcher.Reset | player/src/sprite.cpp:94-101 | the three arrays change exactly as `PlayerSpriteBatch.Reset` says |
| SpriteBatchClass.PlayerSpriteBatcher.Draw | player/src/sprite.cpp:103-125 | the arrays and the draw call are exactly those of `PlayerSpriteBatch.Draw` |
| TextureDatabase.MakeResident | core/src/sc_opengl/gl_atoms/texture.cpp:169-173 | `make_resident` ignores handle 0 and otherwise leaves the handle resident, touching no texture |
| TextureDatabase.MakeNonResident | core/src/sc_opengl/gl_atoms/texture.cpp:175-179 | `make_non_resident` ignores handle 0 and otherwise leaves the handle non-resident, touching no texture |
| TextureDatabase.ResidencyRoundTrip | core/src/sc_opengl/gl_atoms/texture.cpp:169-179 | making a non-resident handle resident and then non-resident again restores the GL state |
| TextureDatabase.DestroyTexture | core/src/sc_opengl/gl_atoms/texture.cpp:160-167 | `destroy(id, handle)` deletes the texture and makes a nonzero handle non-resident |
| TextureDatabase.DestroyData | core/src/sc_opengl/gl_atoms/texture.cpp:153-158 | `destroy(create_data&)` destroys the texture and zeroes id, handle and hash |
| TextureDatabase.FromImage | core/src/sc_opengl/gl_atoms/texture.cpp:13-80 | once the texture exists, a null handle is the handle-creation error (the texture is left alive); otherwise the record carries id, handle and name hash, and the handle is resident exactly when asked |
| TextureDatabase.Create | core/src/sc_opengl/gl_atoms/texture.cpp:181-190 | `database::create` starts with three empty vectors |
| TextureDatabase.IndexFrom | core/src/sc_opengl/gl_atoms/texture.cpp:207-208 | the search returns the first index at or after `from` whose hash matches, or nothing when none does |
| TextureDatabase.Find | core/src/sc_opengl/gl_atoms/texture.cpp:197-213 | `find` is empty exactly when no stored hash equals the name's, and otherwise gives the handle at the first matching index |
| TextureDatabase.DestroyAllRemoves | core/src/sc_opengl/gl_atoms/texture.cpp:215-219 | destroying every pair deletes exactly those textures and releases exactly those nonzero handles |
| TextureDatabase.Reset | core/src/sc_opengl/gl_atoms/texture.cpp:192-223 | `reset` (and `destroy`) destroys every stored pair, then empties all three vectors |
| TextureDatabase.AddOpenExr | core/src/sc_opengl/gl_atoms/texture.cpp:225-244 | `add_openEXR` appends id, handle and hash together when the file loads and the texture is created, and appends nothing on either failure |
| TextureDatabase.FindAfterAdd | core/src/sc_opengl/gl_atoms/texture.cpp:197-244 | a texture added under a new name is then found by it; an existing name keeps its first handle; other names are unaffected |
| TextureDatabase.FindAfterReset | core/src/sc_opengl/gl_atoms/texture.cpp:197-223 | nothing is found after a reset |
| TextureDatabaseClass.GlState.constructor | core/src/sc_opengl/gl_atoms/texture.cpp:160-179 | the GL state starts with the given textures and resident handles |
| TextureDatabaseClass.GlState.MakeResident | core/src/sc_opengl/gl_atoms/texture.cpp:169-173 | the GL state changes exactly as `TextureDatabase.MakeResident` says |
| TextureDatabaseClass.GlState.MakeNonResident | core/src/sc_opengl/gl_atoms/texture.cpp:175-179 | the GL state changes exactly as `TextureDatabase.MakeNonResident` says |
| TextureDatabaseClass.GlState.Destroy | core/src/sc_opengl/gl_atoms/texture.cpp:160-167 | the GL state changes exactly as `TextureDatabase.DestroyTexture` says |
| TextureDatabaseClass.TextureDb.Create | core/src/sc_opengl/gl_atoms/texture.cpp:181-190 | the object starts as `TextureDatabase.Create` |
| TextureDatabaseClass.TextureDb.Find | core/src/sc_opengl/gl_atoms/texture.cpp:197-213 | the linear scan returns `TextureDatabase.Find` |
| TextureDatabaseClass.TextureDb.Reset | core/src/sc_opengl/gl_atoms/texture.cpp:215-223 | the vectors and the GL state change exactly as `TextureDatabase.Reset` says |
| TextureDatabaseClass.TextureDb.AddOpenExr | core/src/sc_opengl/gl_atoms/texture.cpp:225-244 | the vectors and the GL state change exactly as `TextureDatabase.AddOpenExr` says |
| SadFile.AnimationCount | source/sad_file.cpp:40-42 | the animation count is the 32-bit value stored after the identification string |
| SadFile.Load | source/sad_file.cpp:14-58 | `load_sad_file` reports an I/O error exactly when the read fails, a short file exactly when it is shorter than the header, a bad header exactly when its first bytes are not the NUL-terminated identification string, and accepts the file read exactly when it is also the header plus `count` records long |
| SadFile.GetAnimation | source/sad_file.cpp:60-80 | with bound checking an index past the count gives nothing; otherwise record `i` is the bytes from `header + i * record size` to the next record, inside the file |
| SadFile.ConcatRecordAt | source/sad_file.cpp:75-80 | record `i` of a file built from records occupies bytes `i * size` to `(i + 1) * size` of the body |
| SadFile.BuildLoadsAndReads | source/sad_file.cpp:14-80 | every file built from records of the record size loads, stores their count and gives each record back under bound checking; an index past the count is refused |
| SadFile.DamagedHeaderRefused | source/sad_file.cpp:33-39 | a file whose identification bytes are damaged is refused, whatever its size |
| AnimatedSprite.ChangeAnimation | source/entities/animated_sprite.cpp:125-141 | with SAD contents and an index below the count, the animation restarts at frame 0 with `loops` and a sheet of `rows * cols` frames (32-bit product), keeping both flips; otherwise nothing changes |
| AnimatedSprite.ToggleHFlip | source/entities/animated_sprite.cpp:143-145 | `toggle_h_flip` negates the horizontal flip and nothing else |
| AnimatedSprite.ToggleVFlip | source/entities/animated_sprite.cpp:147-149 | `toggle_v_flip` negates the vertical flip and nothing else |
| AnimatedSprite.ToggleTwice | source/entities/animated_sprite.cpp:143-149 | toggling either flip twice restores the state |
| AnimatedSprite.Delinearize | source/entities/animated_sprite.cpp:210-218 | the frame's (row, column) recombine to the linear frame with the column below the column count; (0, 0) without SAD contents |
| AnimatedSprite.DelinearizeInSheet | source/entities/animated_sprite.cpp:210-218 | a frame inside a sheet of `rows * cols` frames has its row below `rows` |
| AnimatedSprite.UpdateFrame | source/entities/animated_sprite.cpp:220-230 | `update_animation_frame` changes only the frame index |
| AnimatedSprite.UpdateStaysInSheet | source/entities/animated_sprite.cpp:220-230 | inside the sheet, a looping animation advances modulo the sheet size and a non-looping one stops on the last frame |
| AnimatedSprite.UpdateTimes | source/entities/animated_sprite.cpp:220-230 | successive updates change only the frame index |
| AnimatedSprite.LoopingCycles | source/entities/animated_sprite.cpp:220-230 | from frame 0 a looping animation shows frame `k mod size` after `k` updates |
| AnimatedSprite.NonLoopingClamps | source/entities/animated_sprite.cpp:220-230 | from frame 0 a non-looping animation shows frame `min(k, size - 1)` after `k` updates |
| AnimatedSpriteClass.AnimatedSpriteEntity.constructor | source/entities/animated_sprite.cpp:244-265 | the sprite starts from the default animation state and switches to the first animation, looping |
| AnimatedSpriteClass.AnimatedSpriteEntity.ChangeCurrentAnimationTo | source/entities/animated_sprite.cpp:125-141 | the state changes exactly as `AnimatedSprite.ChangeAnimation` says |
| AnimatedSpriteClass.AnimatedSpriteEntity.ToggleHFlip | source/entities/animated_sprite.cpp:143-145 | the state changes exactly as `AnimatedSprite.ToggleHFlip` says |
| AnimatedSpriteClass.AnimatedSpriteEntity.ToggleVFlip | source/entities/animated_sprite.cpp:147-149 | the state changes exactly as `AnimatedSprite.ToggleVFlip` says |
| AnimatedSpriteClass.AnimatedSpriteEntity.DelinearizeFrameIndex | source/entities/animated_sprite.cpp:210-218 | returns `AnimatedSprite.Delinearize` of the state |
| AnimatedSpriteClass.AnimatedSpriteEntity.UpdateAnimationFrame | source/entities/animated_sprite.cpp:220-230 | the state changes exactly as `AnimatedSprite.UpdateFrame` says |
| Actor.GetAnimation | source/sad_file.cpp:60-80 | with bound checking, a record is returned exactly for an index below the count, and it is the record at that index |
| Actor.SwitchToAnimation | source/entities/actor.cpp:119-133 | a record that exists becomes current and the sheet indices `alpha` and `beta` go back to 0; without a SAD file or with a bad index nothing changes; the flips are kept |
| Actor.AdvanceFrame | source/entities/actor.cpp:141-150 | `advance_current_anim_frame` changes only `alpha` and `beta` |
| Actor.AdvanceIsNextFrame | source/entities/actor.cpp:141-150 | inside the sheet, an advance moves one frame forward in row-major order, wrapping from the last frame to the first, and stays inside |
| Actor.RowMajorStep | source/entities/actor.cpp:141-150 | the next column, or column 0 of the next row modulo `rows`, is the next frame of the grid in row-major order with wrap-around |
| Actor.ToggleHFlip | source/entities/actor.cpp:80-83 | `toggle_h_flip` negates the tracked horizontal flip and nothing else |
| Actor.ToggleVFlip | source/entities/actor.cpp:85-88 | `toggle_v_flip` negates the tracked vertical flip and nothing else |
| Actor.DropSadFile | source/entities/actor.cpp:35-40 | `drop_sad_file` leaves the actor without a SAD file and changes nothing else |
| Actor.SwitchAfterDropIsNoOp | source/entities/actor.cpp:35-40 | without a SAD file, switching animations changes nothing |
| Actor.WalkTo | source/entities/actor.cpp:176-297 | `walk_to` keeps the SAD file |
| Actor.WalkFlipFollowsHeading | source/entities/actor.cpp:185-249 | walking sideways flips the sprite exactly when the heading points west (W, NW, SW); north and south leave the flip alone |
| Actor.WalkSelectsAnimation | source/entities/actor.cpp:176-297 | when each animation is stored at its own index, a walk leaves the animation for its heading current: 0 north, 1 south, 6 sideways when moving; 3 north, 4 south, 5 otherwise within the threshold, restarted on every call |
| ActorClass.ActorEntity.constructor | source/entities/actor.cpp:10-33 | with a SAD file holding the first animation, that record becomes current; the actor starts at frame (0, 0) unflipped |
| ActorClass.ActorEntity.SwitchToAnimation | source/entities/actor.cpp:119-133 | the fields change exactly as `Actor.SwitchToAnimation` says |
| ActorClass.ActorEntity.AdvanceCurrentAnimFrame | source/entities/actor.cpp:141-150 | the fields change exactly as `Actor.AdvanceFrame` says |
| ActorClass.ActorEntity.ToggleHFlip | source/entities/actor.cpp:80-83 | the fields change exactly as `Actor.ToggleHFlip` says |
| ActorClass.ActorEntity.ToggleVFlip | source/entities/actor.cpp:85-88 | the fields change exactly as `Actor.ToggleVFlip` says |
| ActorClass.ActorEntity.DropSadFile | source/entities/actor.cpp:35-40 | the fields change exactly as `Actor.DropSadFile` says |
| ActorClass.ActorEntity.WalkTo | source/entities/actor.cpp:176-297 | the fields change exactly as `Actor.WalkTo` says |
| Board2048.Occupancy | modules/2048/src/pieces_right_motion.cpp:8-12 | a row or column pattern stands for four occupancy flags |
| Board2048.ConfigOf | modules/2048/src/pieces_right_motion.cpp:8-12 | every four flags name exactly one of the sixteen patterns the tables switch on |
| Board2048.FinalSlotUnfold | modules/2048/src/pieces_right_motion.cpp:13-75 | when a table retargets a position several times, the last retarget wins |
| Board2048.CompressRightAsWritten | modules/2048/src/pieces_right_motion.cpp:13-75 | as written, `compress_right` agrees with the corrected table on every pattern but OXXO |
| Board2048.CompressRightPacks | modules/2048/src/pieces_right_motion.cpp:13-75 | compressing a row to the right moves only pieces, sends the piece at position `k` to slot `3 + 4i` minus the number of pieces to its right, and moves something exactly when the row is not already packed against the right wall |
| Board2048.CompressRightAsWrittenLeavesRow | modules/2048/src/pieces_right_motion.cpp:45-49 | as written, the OXXO case of row 1 sends its pieces to slots 2 and 3, which belong to row 0 |
| Board2048.CompressUpPacks | modules/2048/src/pieces_up_motion.cpp:11-91 | compressing a column upwards moves only pieces, sends each to slot `i + 4 * (its rank from the top)`, and moves something exactly when the column is not already packed against the top |
| Board2048.CompressDownPacks | modules/2048/src/pieces_down_motion.cpp:11-91 | compressing a column downwards moves only pieces, packs them towards slot `i + 12` in order, and moves something exactly when the column is not packed downwards |
| Board2048.MergeRightTakesRightmostPair | modules/2048/src/pieces_right_motion.cpp:80-136 | on a packed row, `merge_right` merges exactly when two neighbours are equal, takes the rightmost such pair, moves the left piece onto the right one's slot and marks the right one stale, shifts pieces further left one slot right and leaves pieces further right alone; an unpacked row is never merged |
| Board2048.MergeUpTakesTopmostPair | modules/2048/src/pieces_up_motion.cpp:93-171 | on a packed column, `merge_up` merges exactly when two neighbours are equal, takes the first pair in the order (0,1), (1,2), (2,3), moves the lower piece onto the upper one's slot and marks the upper one stale, shifts pieces further down one row up |
| Board2048.MergeDownTakesBottommostPair | modules/2048/src/pieces_down_motion.cpp:93-171 | on a packed column, `merge_down` merges exactly when two neighbours are equal, takes the first pair in the order (2,3), (1,2), (0,1), moves the upper piece onto the lower one's slot and marks the lower one stale, shifts pieces further up one row down |
| Game2048.SlotCoordsFormGrid | modules/2048/src/globals.cpp:48-68 | the sixteen slot positions form a 4 x 4 grid with a pitch of 121 on both axes, numbered row by row from (15, 315) |
| Game2048.CreatePieceKeepsInv | modules/2048/src/globals.cpp:156-173 | `create_piece` takes the front free ID, which was not alive, and gives it the requested slot and exponent as both current and target values; the free queue shrinks by one and the pool invariant (alive IDs and free IDs partition 0..15, all component maps share the alive keys) holds |
| Game2048.DeletePieceKeepsInv | modules/2048/src/globals.cpp:175-190 | `delete_piece` keeps the pool invariant and leaves the ID free and not alive |
| Game2048.CreateThenDeleteRestores | modules/2048/src/globals.cpp:156-190 | deleting a piece just created restores every component map and moves its ID from the front of the free queue to the back |
| Game2048.DeleteIsIdempotent | modules/2048/src/globals.cpp:176-179 | deleting an ID already in the free queue changes nothing, so deleting twice is deleting once |
| Game2048.DeleteAllKeepsInv | modules/2048/src/globals.cpp:175-190 | deleting a sequence of IDs keeps the invariant, leaves none of them alive and touches neither queue |
| Game2048.DeleteAllKeepsDeleted | modules/2048/src/globals.cpp:175-190 | a deleted ID never comes back through further deletions |
| Game2048.RemoveStaleKeepsInv | modules/2048/src/globals.cpp:196-203 | `remove_stale` keeps the invariant, empties the stale queue and leaves none of the queued IDs alive |
| Game2048.DeleteAllIgnoresStale | modules/2048/src/globals.cpp:175-190 | deleting pieces neither reads nor writes the stale queue |
| Game2048.RemoveStaleStep | modules/2048/src/globals.cpp:198-202 | one iteration of the loop (delete the front, pop it) keeps the invariant and leaves the rest of the work unchanged |
| Game2048.AddGamePoints | modules/2048/src/globals.cpp:124 | adding points adds them exactly when the 64-bit sum does not wrap, and changes nothing but the points |
| Game2048.NewGameResets | modules/2048/src/globals.cpp:207-231 | after `new_game` nothing is alive, all sixteen IDs are free, the state queue holds only idle, the points are zero and the best score is the larger of the old best and the old points |
| Game2048.CreateAllKeepsInv | modules/2048/src/globals.cpp:156-173 | creating pieces in order keeps the invariant, hands out the front free IDs in order and puts the k-th in the k-th requested slot with its exponent |
| Game2048.CreateAllKeepsLive | modules/2048/src/globals.cpp:156-173 | creating pieces never moves or rescales a piece already alive |
| Game2048.OnLoadBoard | modules/2048/src/globals.cpp:284-305 | `on_load` gives IDs 0..8 the nine start-up pieces in order, leaves IDs 9..15 free in order, queues idle and satisfies the invariant |
| Game2048.OnLoadPool | modules/2048/src/globals.cpp:284-290 | the free queue and state queue half of `on_load`'s start-up |
| Game2048.OnLoadPieces | modules/2048/src/globals.cpp:295-305 | the piece half of `on_load`'s start-up: ID k holds the k-th start-up piece |
| Game2048.LoadFrom | modules/2048/src/globals.cpp:156-173 | creating pieces from a free queue 0..15 in order gives the k-th piece ID k and leaves the remaining IDs free in order |
| Game2048.InsideNewGameButton | modules/2048/src/globals.cpp:126-132 | a point counts as inside the new-game button exactly when it lies strictly inside the rectangle from (358, 66) of extent (138, 40) |
| Game2048.NewGameButtonExcludesBorder | modules/2048/src/globals.cpp:126-132 | a point on the button's border is not inside |
| Game2048.KeyboardEventKeepsInv | modules/2048/src/globals.cpp:357-371 | a key event keeps the invariant, and changes anything only for a right-arrow press while idle is at the front, when it queues compress, merge, removal, compress, add-piece and idle after the queue's tail |
| Game2048.PieceAt | modules/2048/src/pieces_right_motion.cpp:8-12 | the lookup of a slot finds an alive ID sitting in it, or proves no alive ID from there up sits in it |
| Game2048.ElementOf | modules/2048/src/pieces_right_motion.cpp:8-12 | the element of a line names, at each occupied position, an alive ID sitting in that position's slot |
| Game2048.TablesTouchOnlyPieces | modules/2048/src/pieces_right_motion.cpp:4-136 | every compression table retargets only positions that hold pieces, and a merge names two such positions |
| Game2048.ApplyRetargets | modules/2048/src/pieces_right_motion.cpp:13-75 | writing retargets of alive pieces into the target-slot map keeps its key set |
| Game2048.CompressLine | modules/2048/src/pieces_right_motion.cpp:8-76 | compressing one line, with the corrected right table, changes only the target slots and the should-add flag, and keeps the target-slot keys |
| Game2048.CompressLines | modules/2048/src/pieces_right_motion.cpp:4-78 | compressing every line, with the corrected right table, changes only the target slots and the should-add flag, and keeps the target-slot keys |
| Game2048.ApplyMerge | modules/2048/src/pieces_up_motion.cpp:105-160 | applying a merge raises the absorbing piece's target exponent by one, appends the absorbed ID to the stale queue, adds `1 << new exponent` to the round's points for up and down and nothing for right, sets should-add for up and down only, and leaves the score and every current field alone; on a board whose maps agree on the alive IDs it keeps the keys of both target maps and queues only IDs below 16 as stale |
| Game2048.MergeLine | modules/2048/src/pieces_up_motion.cpp:105-160 | merging one line leaves the score and the current fields alone, keeps the target maps' keys, appends at most one stale ID to the queue, adds no points for right and at least 2 points per stale ID for up and down |
| Game2048.MergeLines | modules/2048/src/pieces_up_motion.cpp:93-171 | merging the first `n` lines leaves the score and the current fields alone, keeps the target maps' keys, queues at most `n` stale IDs, all below 16, and accumulates no round points for right and at least 2 per stale ID for up and down |
| Game2048.ApplyRetargetsAt | modules/2048/src/pieces_right_motion.cpp:13-75 | with distinct IDs at the retargeted positions, each piece of the line ends at the slot its last retarget names and every other piece keeps its target |
| Game2048.CompressTablePacks | modules/2048/src/pieces_right_motion.cpp:4-78 | every direction's table sends each piece of a line to its packed slot |
| Game2048.CompressLinePacks | modules/2048/src/pieces_right_motion.cpp:8-76 | compressing one line of a settled board sends each of its pieces to its packed slot and leaves every other piece's target alone |
| Game2048.CompressBoardKeepsInv | modules/2048/src/pieces_right_motion.cpp:4-78 | compressing the board keeps the invariant and moves no piece's current slot |
| Game2048.MergeBoardScoresOnce | modules/2048/src/pieces_up_motion.cpp:101-170 | a whole merge pass changes the score once: up and down add the round's points to the old score in one `unsigned long long` addition, right leaves it unchanged; the stale queue is the one the line merges built |
| Game2048.MergeBoardKeepsInv | modules/2048/src/pieces_right_motion.cpp:80-136 | merging the board keeps the invariant and moves no piece's current slot |
| Game2048.UpdateKeepsInv | modules/2048/src/globals.cpp:310-355 | `update` keeps the invariant; while pieces move, or with idle at the front, it changes nothing; otherwise it runs the front stage and pops exactly that state |
| Game2048.UpdateTimes | modules/2048/src/globals.cpp:310-355 | any number of updates keeps the invariant |
| Game2048.UpdatePopsFront | modules/2048/src/globals.cpp:310-355 | with settled pieces, a handled front stage is popped |
| Game2048.UpdateTimesPops | modules/2048/src/globals.cpp:310-355 | with settled pieces, `n` updates pop the first `n` states when every one is a handled stage |
| Game2048.RightMoveReturnsToIdle | modules/2048/src/globals.cpp:357-371 | from a quiet idle board, a right-arrow press queues the five stages, and five updates with settled pieces run them in order and leave only idle queued |
| Game2048Globals.Globals.constructor | modules/2048/src/globals.cpp:78-95 | the module's globals start empty, with both scores zero and the should-add flag clear |
| Game2048Globals.Globals.CreatePiece | modules/2048/src/globals.cpp:156-173 | `create_piece` on the globals is the value model's create, and keeps the invariant |
| Game2048Globals.Globals.DeletePiece | modules/2048/src/globals.cpp:175-190 | `delete_piece` on the globals is the value model's delete, and keeps the invariant |
| Game2048Globals.Globals.MarkStale | modules/2048/src/globals.cpp:192-194 | `mark_stale` appends the ID to the stale queue and keeps the invariant |
| Game2048Globals.Globals.RemoveStale | modules/2048/src/globals.cpp:196-203 | the `remove_stale` loop computes the value model's removal of all stale IDs, and keeps the invariant |
| Game2048Globals.Globals.AddGamePoints | modules/2048/src/globals.cpp:124 | `add_game_points` is the value model's 64-bit addition |
| Game2048Globals.Globals.ClearPieces | modules/2048/src/globals.cpp:209-213 | the five piece maps are emptied and nothing else changes |
| Game2048Globals.Globals.NewGame | modules/2048/src/globals.cpp:207-231 | `new_game` is the value model's reset and leaves a valid state |
| Game2048Globals.Globals.OnLoad | modules/2048/src/globals.cpp:284-305 | `on_load`'s set-up of the pool, the state queue and the nine start-up pieces is the value model's |
| Game2048Globals.Globals.CreateAllPieces | modules/2048/src/globals.cpp:295-305 | the run of `create_piece` calls is the value model's `CreateAll` |
| Game2048Globals.Globals.KeyboardEvent | modules/2048/src/globals.cpp:357-371 | `keyboard_event` is the value model's and keeps the invariant |
| Game2048Globals.Globals.Retarget | modules/2048/src/pieces_right_motion.cpp:13-75 | writing a table's retargets changes only the target-slot map, as the value model does |
| Game2048Globals.Globals.CompressLine | modules/2048/src/pieces_right_motion.cpp:8-76 | compressing one line on the globals is the value model's, with the corrected right table |
| Game2048Globals.Globals.Compress | modules/2048/src/pieces_right_motion.cpp:4-78 | the compression of each direction is the value model's board compression, with the corrected right table (see "Left out"), and keeps the invariant |
| Game2048Globals.Globals.MergeLine | modules/2048/src/pieces_up_motion.cpp:105-162 | merging one line on the globals is the value model's |
| Game2048Globals.Globals.ApplyMerge | modules/2048/src/pieces_up_motion.cpp:105-160 | applying one merge on the globals is the value model's |
| Game2048Globals.Globals.Merge | modules/2048/src/pieces_up_motion.cpp:93-171 | `merge_right`, `merge_up` and `merge_down` are the value model's board merge, scoring only up and down merges, and keep the invariant |
| Game2048Globals.Globals.Update | modules/2048/src/globals.cpp:310-355 | `update` on the globals is the value model's and keeps the invariant |
| Game2048Globals.Globals.RunStage | modules/2048/src/globals.cpp:313-347 | the case of `update` for the front state runs its stage, keeps the invariant and leaves the state queue alone |
| Piece2048.Initial | surge_modules/2048/source/2048_piece.cpp:37-39 | the static table starts with IDs 0..15 free in order and no piece, and satisfies the invariant (free IDs distinct and below 16, never alive, both maps sharing the alive keys) |
| Piece2048.AddKeepsInv | surge_modules/2048/source/2048_piece.cpp:43-50 | `add` keeps the invariant; with a free ID it gives the front one, which was not alive, the slot and exponent and takes it off the free list; with none it does nothing |
| Piece2048.RemoveKeepsInv | surge_modules/2048/source/2048_piece.cpp:52-56 | the corrected `remove` keeps the invariant and leaves the ID not alive, and free when it is a valid ID |
| Piece2048.AddThenRemoveRestores | surge_modules/2048/source/2048_piece.cpp:43-56 | removing a piece just added restores both maps and moves its ID from the front of the free list to the back |
| Piece2048.AddOccupies | surge_modules/2048/source/2048_piece.cpp:43-65 | a slot just given a piece reads as occupied |
| Piece2048.FirstFreeIsFirstUnoccupied | surge_modules/2048/source/2048_piece.cpp:73-78 | the slot `add_random` settles on is the first draw that no piece occupies, and there is none exactly when every draw is occupied |
| Piece2048.RemoveAsWrittenDuplicatesFreeId | surge_modules/2048/source/2048_piece.cpp:52-56 | as written, removing an ID that is already free appends it again: with one piece alive (ID 0 in slot 5), removing the free ID 1 leaves 16 free entries, ID 1 among them twice, and breaks the invariant |
| Piece2048.AddRandomAsWrittenNeverSettles | surge_modules/2048/source/2048_piece.cpp:67-81 | on a full board (every slot 0..15 taken, a state the invariant allows) every draw of `pos_distrib` is taken, so no finite sequence of draws ends `add_random`'s loop |
| Piece2048Table.PieceTable.constructor | surge_modules/2048/source/2048_piece.cpp:37-39 | the table's static initialisers are the initial table |
| Piece2048Table.PieceTable.Add | surge_modules/2048/source/2048_piece.cpp:43-50 | `add` on the table is the value model's and keeps the invariant |
| Piece2048Table.PieceTable.Remove | surge_modules/2048/source/2048_piece.cpp:52-56 | `remove` on the table is the corrected value model's and keeps the invariant |
| Piece2048Table.PieceTable.IsOccupied | surge_modules/2048/source/2048_piece.cpp:58-65 | the scan answers true exactly when some piece sits in the slot |
| Piece2048Table.PieceTable.AddRandom | surge_modules/2048/source/2048_piece.cpp:67-81 | given the exponent draw and the slot draws, `add_random` adds a piece in the first unoccupied drawn slot, or changes nothing when every draw is occupied |
| DtuStates.LastLoadedAppend | DTU/src/state_machine.cpp:93-118 | a load call makes its state the last loaded; an unload call leaves the last loaded state alone |
| DtuStateMachine.Push | DTU/src/state_machine.cpp:32-37 | `push` sets B to the new state and leaves A and the calls alone; it warns exactly when B was already set |
| DtuStateMachine.RoutineResult | DTU/src/state_machine.cpp:39-91 | only the main menu's load and unload can report an error; every other state's routine reports none |
| DtuStateMachine.Update | DTU/src/state_machine.cpp:124-147 | `update` in `exit_game` returns `normal_exit`; in every state but the main menu and `exit_game` it returns no error |
| DtuStateMachine.TransitionWithoutPending | DTU/src/state_machine.cpp:95-101 | with B empty a transition changes nothing and reports nothing |
| DtuStateMachine.TransitionMovesPending | DTU/src/state_machine.cpp:102-114 | with B set, and A empty or unloaded cleanly, B moves into A, B empties, A's unload (when A ran) precedes B's load, and the result is the load's |
| DtuStateMachine.TransitionStopsAtUnloadError | DTU/src/state_machine.cpp:106-110 | when A's unload fails (only the main menu's can), A and B stay, no load runs and the unload's error is returned |
| DtuStateMachine.TransitionSettles | DTU/src/state_machine.cpp:93-118 | a transition that reports no error leaves B empty, so the next one does nothing |
| DtuStateMachine.TransitionKeepsInv | DTU/src/state_machine.cpp:93-118 | transitions keep the running state equal to the last state loaded |
| DtuStateMachineObject.StateMachine.constructor | DTU/src/state_machine.cpp:32-37 | the machine starts with both slots empty and no routine run |
| DtuStateMachineObject.StateMachine.Push | DTU/src/state_machine.cpp:32-37 | `push` on the object is the value model's |
| DtuStateMachineObject.StateMachine.LoadA | DTU/src/state_machine.cpp:39-64 | `load_a` on the object is the value model's |
| DtuStateMachineObject.StateMachine.UnloadA | DTU/src/state_machine.cpp:66-91 | `unload_a` on the object is the value model's |
| DtuStateMachineObject.StateMachine.Transition | DTU/src/state_machine.cpp:93-118 | `transition` on the object is the value model's and keeps the invariant |
| DtuStateMachineObject.StateMachine.Destroy | DTU/src/state_machine.cpp:120-122 | `destroy` is the unload of the running state |
| DtuStateMachineObject.StateMachine.Update | DTU/src/state_machine.cpp:124-147 | `update` on the object is the value model's and changes nothing |
| DtuModule.LoadTextureKeepsLockstep | DTU/src/DTU.cpp:65-90 | `load_texture` keeps the ID and handle vectors in lockstep and leaves earlier entries alone; it appends exactly when the image loads (a zero pair when texture creation fails), and returns the stored handle, non-zero only when creation succeeded |
| DtuModule.PushSpriteKeepsLockstep | DTU/src/DTU.cpp:100-104 | `push_sprite` appends the handle, model and alpha at the same position of the three lists and leaves earlier entries alone |
| DtuModule.ClearingEmpties | DTU/src/DTU.cpp:92-110 | `unload_textures` and `clear_sprites` leave their lists empty, and so in lockstep |
| DtuModule.TransitionIsErrorFreeMachine | DTU/src/DTU.cpp:159-177 | the module's transition, which ignores routine results, is the state machine's transition when no routine reports an error |
| DtuModule.TransitionKeepsInv | DTU/src/DTU.cpp:159-177 | after a transition B is empty and A is the last state loaded; A changes exactly when a state was pending |
| DtuModule.ToStrNamesApart | DTU/src/DTU.cpp:182-195 | distinct named states have distinct names, and `count` is reported as an unknown state |
| DtuModule.UpdateExitsOnExitGame | DTU/src/DTU.cpp:373-398 | `update` transitions first, then returns `normal_exit` exactly when the state it lands in is `exit_game` |
| DtuModule.OnLoadRunsMainMenu | DTU/src/DTU.cpp:242-327 | `on_load` from a fresh module pushes the main menu and transitions to it, loading it once, and returns 0 |
| DtuModuleGlobals.Globals.constructor | DTU/src/DTU.cpp:57-63 | the module starts with both state slots empty and no texture or sprite |
| DtuModuleGlobals.Globals.LoadTexture | DTU/src/DTU.cpp:65-90 | `load_texture` on the module's vectors is the value model's and touches nothing else |
| DtuModuleGlobals.Globals.UnloadTextures | DTU/src/DTU.cpp:92-98 | `unload_textures` empties the texture vectors and touches nothing else |
| DtuModuleGlobals.Globals.PushSprite | DTU/src/DTU.cpp:100-104 | `push_sprite` on the draw list is the value model's and touches nothing else |
| DtuModuleGlobals.Globals.ClearSprites | DTU/src/DTU.cpp:106-110 | `clear_sprites` empties the draw list and touches nothing else |
| DtuModuleGlobals.Globals.LoadPushSprite | DTU/src/DTU.cpp:112-116 | `load_push_sprite` loads the texture and pushes a sprite with the handle it returned |
| DtuModuleGlobals.Globals.PushState | DTU/src/DTU.cpp:122 | `push_state` sets B and touches nothing else |
| DtuModuleGlobals.Globals.Transition | DTU/src/DTU.cpp:159-177 | the module's `transition` on its globals is the value model's and keeps the invariant |
| DtuModuleGlobals.Globals.Update | DTU/src/DTU.cpp:373-398 | the state part of `update` on the globals is the value model's and keeps the invariant |
| DtuUi.InteractRules | DTU/src/ui.cpp:48-64 | the immediate-mode rules: a click is reported exactly on a release while the widget is active and hot; releasing an active widget frees it; pressing inside a hot widget activates it; `active` changes only to the widget or to none; `hot` changes only to the widget, when the pointer is inside it and it is not active |
| DtuUi.HoverPressReleaseClicks | DTU/src/ui.cpp:48-64 | hovering, pressing and releasing over a widget, starting from no focus, makes it hot, then active, then reports the click and frees it |
| DtuUi.SpinnerMovesOneUnit | DTU/src/ui.cpp:66-74 | a spinner's value moves by at most one and only on a click of the matching button: up only while the pool is not empty and the value stays within the maximum, down only while it stays within the minimum; value plus pool is kept except when an 8-bit pool of 255 wraps to 0 on a down-click, and a value within bounds stays within them |
| DtuUi.TextsOnHotAppendsHotTexts | DTU/src/ui.cpp:101-110 | a run of `text_on_hot` calls keeps the texts already there and appends exactly the texts aimed at the hot widget, in call order |
| DtuUiContext.Ui.constructor | DTU/src/ui.cpp:48-64 | no widget is active or hot at first |
| DtuUiContext.Ui.Interact | DTU/src/ui.cpp:48-64 | the focus update on the object is the value model's |
| DtuUiContext.Ui.SpinnerBox | DTU/src/ui.cpp:48-99 | the spinner on the object is the value model's, which moves the value and pool and picks the held skin |
| DtuUiContext.Ui.Button | DTU/src/ui.cpp:112-162 | a button on the object is the value model's: the focus rules and the up or down skin |
| DtuUiContext.Ui.TextOnHot | DTU/src/ui.cpp:101-110 | `text_on_hot` on the object is the value model's |
| DtuCharacterSheet.WidgetId | DTU/src/character_sheet.cpp:93-152 | each attribute's spinner takes one of the first six widget IDs, in the order the spinners are drawn |
| DtuCharacterSheet.TradeKeepsInv | DTU/src/character_sheet.cpp:93-152 | trading points between one attribute and the pool, with the sum kept and the attribute within 0..5, keeps the sheet invariant (every attribute in 0..5, pool plus attributes constant, derived stats up to date) once a clicked spinner's derived stats are recomputed |
| DtuCharacterSheet.SpinAttributeKeepsInv | DTU/src/character_sheet.cpp:118-152 | a spinner box, with its derived-stat update on a click (psyche from introspection, health and initiative from fitness, action and initiative from agility), keeps the sheet invariant |
| DtuCharacterSheet.PageZeroKeepsInv | DTU/src/character_sheet.cpp:93-260 | page 0 keeps the sheet invariant, the reset included, and moves to page 1 only when no attribute point is left |
| DtuCharacterSheet.UpdateKeepsInv | DTU/src/character_sheet.cpp:292-317 | `update` keeps the sheet invariant, stays on pages 0 and 1, leaves page 0 only with every point spent, and changes nothing on any other page |
| DtuCharacterSheetScreen.CharacterSheet.constructor | DTU/src/character_sheet.cpp:297-300 | the statics of `update` start with the default sheet on page 0 and no widget active or hot |
| DtuCharacterSheetScreen.CharacterSheet.SpinAttribute | DTU/src/character_sheet.cpp:93-152 | one spinner box on the screen is the value model's and keeps the page |
| DtuCharacterSheetScreen.CharacterSheet.SheetPageZero | DTU/src/character_sheet.cpp:83-269 | `sheet_page_0` on the screen is the value model's |
| DtuCharacterSheetScreen.CharacterSheet.SheetPageOne | DTU/src/character_sheet.cpp:271-290 | `sheet_page_1` on the screen is the value model's: the previous-page button returns to page 0 |
| DtuCharacterSheetScreen.CharacterSheet.Update | DTU/src/character_sheet.cpp:292-317 | `update` on the screen is the value model's |
| DtuNewGame.UpdateKeepsInv | DTU/src/new_game/new_game.cpp:154-185 | an update keeps rank plus points, the rank in 0..5 and the points non-negative; it pops exactly an empathy command at the front, raises the rank only for `empathy_up` with a point to spend, lowers it only for `empathy_down`, and leaves any other command and the ranks as they were |
| DtuNewGame.InputOnlyAppends | DTU/src/new_game/new_game.cpp:187-213 | the click and scroll callbacks only append empathy commands, one per matching region for a click and at most one for a scroll, so the queue keeps its order |
| DtuNewGame.UpdatesDrainEmpathyCommands | DTU/src/new_game/new_game.cpp:154-185 | a queue of empathy commands is drained by as many updates as it holds, with the invariant kept throughout |
| DtuNewGameScreen.NewGameScreen.Update | DTU/src/new_game/new_game.cpp:154-185 | `update` on the screen is the value model's and leaves the draw lists alone |
| DtuNewGameScreen.NewGameScreen.MouseClick | DTU/src/new_game/new_game.cpp:187-199 | `mouse_click` appends the value model's commands and leaves the ranks alone |
| DtuNewGameScreen.NewGameScreen.MouseScroll | DTU/src/new_game/new_game.cpp:201-213 | `mouse_scroll` appends the value model's commands and leaves the ranks alone |
| DtuNewGameScreen.NewGameScreen.Unload | DTU/src/new_game/new_game.cpp:130-152 | `unload` empties the four draw lists and the command queue and leaves the ranks |
| DtuSheetCommands.InitialKeepsInv | DTU/src/ui/character_sheet.cpp:13-28 | the default sheet (empathy 0, twelve free points) satisfies the invariant empathy plus points equals twelve, empathy at most 5 |
| DtuSheetCommands.UpdateKeepsInv | DTU/src/ui/character_sheet.cpp:30-53 | an update keeps the invariant, so the free points never wrap: an applied `empathy_up` takes a point from at least seven, and the points change by minus the change in empathy |
| DtuSheetCommands.ResizeDefersCommands | DTU/src/ui/character_sheet.cpp:17-28 | a resize of more than one pixel takes the whole update: the background takes the window's size, a refresh is queued behind the waiting commands, and nothing else changes |
| DtuSheetCommands.CommandRefreshesOnChange | DTU/src/ui/character_sheet.cpp:30-53 | without a resize an empathy command at the front is consumed and a refresh is queued exactly when empathy changed, by one in the command's direction; any other command and the sheet stay |
| DtuSheetCommandsScreen.SheetScreen.constructor | DTU/src/ui/character_sheet.cpp:13-16 | the screen starts from the default sheet at unit scale with no command queued |
| DtuSheetCommandsScreen.SheetScreen.Update | DTU/src/ui/character_sheet.cpp:13-54 | `update` on the screen is the value model's and keeps the invariant |
| Descriptors.PoolSizesFollowRatios | core/src/sc_vulkan/atoms/descriptor.cpp:31-51 | `create_pool` asks for one pool size per ratio, of the ratio's descriptor type, whose count is the ratio times the set count truncated toward zero |
| Descriptors.TruncateOfNonNegative | core/src/sc_vulkan/atoms/descriptor.cpp:36-39 | a non-negative product truncates to the largest whole number not above it |
| Descriptors.GrowthIsCapped | core/src/sc_vulkan/atoms/descriptor.cpp:10-29 | after a pool is created the sets-per-pool count grows to twice its value (one and a half times, capped at 4092, in the renderer's allocator), never past the cap |
| Descriptors.GetPoolTakesLastOrCreates | core/src/sc_vulkan/atoms/descriptor.cpp:10-29 | `get_pool` takes the last ready pool, and putting it back restores the lists; with none ready it returns the newly created pool and only then grows the size; it fails only when no pool is ready and creation fails |
| Descriptors.AllocateAsWrittenReportsFailureAsSet | core/src/sc_vulkan/atoms/descriptor.cpp:107-127 | as written, a device failure other than a full or fragmented pool is returned as a successful allocation of the null set |
| Descriptors.AllocateAsWrittenLosesRetryPool | core/src/sc_vulkan/atoms/descriptor.cpp:110-122 | as written, a failed retry returns before the retry pool is pushed back, so that pool is held by neither list and never reset or destroyed |
| Descriptors.AllocateSucceedsExactlyOnAllocation | core/src/sc_vulkan/atoms/descriptor.cpp:93-128 | the corrected `allocate` returns a set only when the device allocated it, on the first attempt or on the retry after a full or fragmented pool, always returns the device's set, and reports every other outcome as an error |
| Descriptors.AllocateKeepsPools | core/src/sc_vulkan/atoms/descriptor.cpp:93-128 | the corrected `allocate` never loses a pool: every pool held before is held after, at most two pools are added, and none when two are ready |
| Descriptors.RetryKeepsPools | core/src/sc_vulkan/atoms/descriptor.cpp:110-122 | the retry step keeps every pool, adding at most the one it creates |
| Descriptors.SettleKeepsPools | core/src/sc_vulkan/atoms/descriptor.cpp:125-127 | settling an allocation puts the pool used back among the held pools |
| Descriptors.AllocateFromReadyPool | core/src/sc_vulkan/atoms/descriptor.cpp:97-127 | allocating from a ready pool with room leaves the lists as they were; a full or fragmented ready pool moves to the end of the full list |
| Descriptors.InitPoolServesFirstAllocation | core/src/sc_vulkan/atoms/descriptor.cpp:53-64 | after either `init` the ratios are copied, the initial pool is the only pool added and serves the next allocation; the renderer's `init` sets the size to one and a half times the initial count |
| Descriptors.ClearAndDestroyCoverEveryPool | core/src/sc_vulkan/atoms/descriptor.cpp:66-91 | `clear_pools` resets every held pool once and keeps them all, now ready; `destroy_pools` destroys every held pool once and keeps none |
| Descriptors.WritesPointAtTheirInfo | core/src/sc_vulkan/atoms/descriptor.cpp:130-163 | `write_buffer` and `write_image` each add exactly one write of one descriptor, not yet aimed at a set, pointing at the info they added, and keep earlier writes and infos |
| Descriptors.UpdateSetAimsEveryWrite | core/src/sc_vulkan/atoms/descriptor.cpp:171-178 | `update_set` aims every write at the set and changes nothing else; a second `update_set` retargets them all |
| Descriptors.BuildAddsStages | core/src/sc_vulkan/atoms/descriptor.cpp:200-225 | `build` ORs the requested stages into every binding and changes nothing else about it, succeeds exactly when the device creates the layout, and building again with the same stages changes nothing |
| Descriptors.AddStagesKeepsBoth | core/src/sc_vulkan/atoms/descriptor.cpp:204-206 | ORing stages into a binding keeps its old stages, adds the new ones, and is idempotent |
| Descriptors.AddBindingAppends | core/src/sc_vulkan/atoms/descriptor.cpp:189-196 | `add_binding` appends one binding of one descriptor of the given type, with no stages until built |
| DescriptorObjects.DescriptorAllocator.constructor | core/src/sc_vulkan/atoms/descriptor.cpp:53-64 | an allocator starts with no pool and no ratio |
| DescriptorObjects.DescriptorAllocator.Init | core/src/sc_vulkan/atoms/descriptor.cpp:53-64 | `init` on the object is the value model's |
| DescriptorObjects.DescriptorAllocator.GetPool | core/src/sc_vulkan/atoms/descriptor.cpp:10-29 | `get_pool` on the object returns the value model's pool and lists, and changes nothing when it fails |
| DescriptorObjects.DescriptorAllocator.Allocate | core/src/sc_vulkan/atoms/descriptor.cpp:93-128 | the corrected `allocate` on the object is the value model's |
| DescriptorObjects.DescriptorAllocator.ClearPools | core/src/sc_vulkan/atoms/descriptor.cpp:66-77 | the `clear_pools` loops reset the pools in the value model's order and leave its lists |
| DescriptorObjects.DescriptorAllocator.DestroyPools | core/src/sc_vulkan/atoms/descriptor.cpp:79-91 | the `destroy_pools` loops destroy the pools in the value model's order and leave both lists empty |
| DescriptorObjects.DescriptorWriter.constructor | core/src/sc_vulkan/atoms/descriptor.cpp:130-145 | a writer starts with no write and no info |
| DescriptorObjects.DescriptorWriter.WriteBuffer | core/src/sc_vulkan/atoms/descriptor.cpp:130-145 | `write_buffer` on the object is the value model's |
| DescriptorObjects.DescriptorWriter.WriteImage | core/src/sc_vulkan/atoms/descriptor.cpp:147-163 | `write_image` on the object is the value model's |
| DescriptorObjects.DescriptorWriter.Clear | core/src/sc_vulkan/atoms/descriptor.cpp:165-169 | `clear` empties the writes and both info lists |
| DescriptorObjects.DescriptorWriter.UpdateSet | core/src/sc_vulkan/atoms/descriptor.cpp:171-178 | the `update_set` loop aims every write at the set, as the value model does |
| DescriptorObjects.LayoutBuilder.constructor | core/src/sc_vulkan/atoms/descriptor.cpp:189-196 | a builder starts with no binding |
| DescriptorObjects.LayoutBuilder.AddBinding | core/src/sc_vulkan/atoms/descriptor.cpp:189-196 | `add_binding` on the object is the value model's |
| DescriptorObjects.LayoutBuilder.Clear | core/src/sc_vulkan/atoms/descriptor.cpp:198 | `clear` empties the bindings |
| DescriptorObjects.LayoutBuilder.Build | core/src/sc_vulkan/atoms/descriptor.cpp:200-225 | the `build` loop ORs the stages into each binding in place and returns the device's answer, as the value model does |
| ModuleLoader.FuncAddr | core/src/sc_module.cpp:102-113 | a symbol lookup yields the module's symbol exactly when the open module exports the name, and `symbol_retrival` otherwise |
| ModuleLoader.FirstMissing | core/src/sc_module.cpp:161-215 | the search stops at the first of the seven entry point names the module lacks, every earlier one being exported |
| ModuleLoader.GetApiChecksInOrder | core/src/sc_module.cpp:161-215 | `get_api` succeeds exactly when all seven entry points are exported, with the API of that module; on failure the last lookup made is the first missing name, every earlier lookup resolved and no later one tried |
| ModuleLoader.LoadOpensFreshHandle | core/src/sc_module.cpp:128-140 | `load` succeeds exactly when the file exists and opens, with a fresh non-null handle naming that file's library, and otherwise returns `loading` and changes nothing |
| ModuleLoader.UnloadClosesOnlyThatHandle | core/src/sc_module.cpp:142-155 | `unload` ignores the null handle, removes exactly the given handle when the close succeeds, changes nothing when it fails, and leaves every other library alone |
| ModuleLoader.GetName | core/src/sc_module.cpp:115-126 | the POSIX `get_name` yields the file the library was opened from exactly when the module is open and exports `on_load`, and `name_retrival` otherwise |
| ModuleLoader.Resize | core/src/sc_module.cpp:27-29 | resizing a name buffer truncates it, or pads it with NULs, to exactly the requested length |
| ModuleLoader.GetNameWindowsTruncates | core/src/sc_module.cpp:10-31 | the Windows `get_name` fails with `name_retrival` exactly when the reported length is 0, and otherwise yields the buffer cut to exactly that length |
| ModuleLoader.Staged | core/src/sc_module.cpp:230 | the staged file is the module's file name followed by `.new` |
| ModuleLoader.ReloadKeepsModuleWithoutName | core/src/sc_module.cpp:218-222 | without a file name `reload` returns the error and unloads nothing |
| ModuleLoader.ReloadUnloadsFirst | core/src/sc_module.cpp:217-253 | once the name is known, the old handle is closed on every path, including a failed rename and a failed load, and a new handle is never the old one |
| ModuleLoader.ReloadWithoutStagedFile | core/src/sc_module.cpp:234-252 | with no staged file the module file is loaded again as it is, the files are untouched, and the reload fails only as its load does |
| ModuleLoader.ReloadPicksStagedFile | core/src/sc_module.cpp:236-252 | a staged file is renamed over the module file, the staged path is gone, and the reloaded library is the staged one |
| ModuleLoader.ReloadRenameFailureLoadsNothing | core/src/sc_module.cpp:238-243 | a failed rename returns the null handle as a success value and loads nothing; only the old handle is gone |
| ModuleLoader.ReloadSwapsHandle | core/src/sc_module.cpp:217-253 | after a reload what is open is what was open before, less the old handle once it is closed, plus the returned handle when one was opened; every other library is untouched |
| ModuleLoaderObject.LoaderState.constructor | core/src/sc_module.cpp:128-140 | a loader starts with the given files, nothing open and handle 1 next |
| ModuleLoaderObject.LoaderState.Load | core/src/sc_module.cpp:128-140 | `load` on the process's loader is the value model's and keeps it valid |
| ModuleLoaderObject.LoaderState.Unload | core/src/sc_module.cpp:142-155 | `unload` on the process's loader is the value model's |
| ModuleLoaderObject.LoaderState.Reload | core/src/sc_module.cpp:217-253 | `reload` on the process's loader is the value model's and keeps it valid |
| RustModule.LoadReportsLoadError | surge_core/src/module.rs:11-26 | `load` fails exactly when the file is missing or does not open, with `LoadError` and nothing opened; otherwise it hands out the library of that file |
| RustModule.OnLoadPassesStatus | surge_core/src/module.rs:46-59 | `on_load` passes the module's status through unchanged, a failing one included; only a missing symbol is an error, and then nothing is called |
| RustModule.MissingSymbolsShareOneError | surge_core/src/module.rs:46-93 | a missing `on_load`, `on_unload` or `update` is reported with the one error kind `OnLoadCallError`; a present `update` is handed out as that module's symbol |
| RustModule.UnloadCallsOnUnloadThenCloses | surge_core/src/module.rs:28-40 | `unload` succeeds exactly when `on_unload` exists and the close works; `on_unload` is the only call and comes before the close, and when closing works the library is gone on every path, a missing `on_unload` included, since the library is dropped |
| HostEvents.Call | surge_player/source/module_manager.cpp:174 | a call into an entry point of a module is recorded as live exactly when the module is open and exports that entry point |
| HostEvents.AllSafeAppend | surge_player/source/module_manager.cpp:144-205 | a record of host actions is safe (no call into a closed library or through a null symbol, no read of an empty result) exactly when both of its parts are |
| ModuleManager.LoadAsWrittenLeaksIncompleteModule | surge_player/source/module_manager.cpp:30-36 | as written, a library exporting only `on_load` is opened and left open while null is returned, so nothing can ever close it |
| ModuleManager.LoadReturnsOnlyCompleteModules | surge_player/source/module_manager.cpp:20-81 | the corrected `load` returns a handle exactly when the file opens and exports all seven entry points, and then an open one naming that file; when it returns null and the close works, the open libraries are as they were |
| ModuleManager.NullHandleIsIgnored | surge_player/source/module_manager.cpp:83-205 | `unload`, `on_load`, `on_unload`, `update` and `draw` do nothing for the null handle |
| ModuleManager.HooksOrderCallbacks | surge_player/source/module_manager.cpp:144-205 | on an open, complete module `on_load` binds the callbacks before calling the module, `on_unload` calls the module before unbinding them, and `update` and `draw` make one live call each |
| ModuleManager.ReloadWithoutNameKeepsModule | surge_player/source/module_manager.cpp:111-123 | when `dladdr` or the name copy fails, `reload` returns null and leaves the old module loaded with nothing called |
| ModuleManager.ReloadOrder | surge_player/source/module_manager.cpp:105-142 | reloading an open, complete module calls its `on_unload`, unbinds and unloads it, and then either returns null with nothing more done, or binds and calls `on_load` on the new complete module of the same file, which it returns |
| ModuleManagerObject.Manager.constructor | surge_player/source/module_manager.cpp:18-20 | the manager starts on the process's loader with nothing recorded |
| ModuleManagerObject.Manager.Load | surge_player/source/module_manager.cpp:20-81 | the corrected `load` on the process's loader is the value model's |
| ModuleManagerObject.Manager.Unload | surge_player/source/module_manager.cpp:83-103 | `unload` on the process's loader is the value model's |
| ModuleManagerObject.Manager.OnLoad | surge_player/source/module_manager.cpp:144-175 | `on_load` records the binding, then the call, as the value model does |
| ModuleManagerObject.Manager.OnUnload | surge_player/source/module_manager.cpp:177-189 | `on_unload` records the call, then the unbinding, as the value model does |
| ModuleManagerObject.Manager.Update | surge_player/source/module_manager.cpp:191-197 | `update` records one call into the module, as the value model does |
| ModuleManagerObject.Manager.Draw | surge_player/source/module_manager.cpp:199-205 | `draw` records one call into the module, as the value model does |
| ModuleManagerObject.Manager.Reload | surge_player/source/module_manager.cpp:105-142 | `reload` on the process's loader is the value model's, through the corrected `load` |
| HostDriver.Attach | player/src/gl_main_loop.cpp:42-57 | after a reload returns a handle, `get_api`, `on_load` and (in the player) binding run in turn; when none breaks the loop, the host holds a module and an API |
| HostDriver.HotReload | player/src/gl_main_loop.cpp:30-61 | the hot-reload block, when it does not break the loop, leaves the host holding a module and an API |
| HostDriver.Render | player/src/vk_main_loop.cpp:65-145 | the rest of a frame never touches the loader, the module or the API, and breaks out exactly when a Vulkan host fails to acquire an image or to present |
| HostDriver.Step | player/src/gl_main_loop.cpp:22-107 | a frame that does not break the loop leaves the host holding a module and an API |
| HostDriver.StepReloadsOnRisingEdge | player/src/gl_main_loop.cpp:26-30 | a reload fires only on the rising edge of F5 with left Ctrl: otherwise the loader and the module are untouched; after a completed frame the previous-frame key state is the combination just held |
| HostDriver.HeldComboReloadsOnce | player/src/gl_main_loop.cpp:104-107 | holding the combination across two frames reloads at most once: the second frame changes neither the loader nor the module |
| HostDriver.HotReloadBreaksOnAnyFailure | player/src/gl_main_loop.cpp:37-57 | a hot reload breaks the loop exactly when the reload fails, the API cannot be resolved, `on_load` returns nonzero, or (in the player) binding fails |
| HostDriver.HotReloadOrder | player/src/gl_main_loop.cpp:34-57 | a successful hot reload of a live module runs `on_unload` and unbinding in the host's order (unbinding first in the stand-alone hosts), then `on_load` and binding on the new module, which is live |
| HostDriver.UpdateStatusOnlyRequestsClose | player/src/gl_main_loop.cpp:79-91 | a frame without a reload calls `update` and `draw` on the same module, a nonzero `update` status only raises should-close, and the module stays; on Vulkan a missing swapchain image breaks before `update` and a failed present breaks after `draw` |
| HostDriver.StepKeepsLive | player/src/gl_main_loop.cpp:22-107 | a frame never calls into a closed library or reads an empty result, leaves the host live when it completes and consistent when it breaks, and with its closes succeeding leaks no library |
| HostDriver.HotReloadKeepsLive | player/src/gl_main_loop.cpp:30-61 | the hot-reload block keeps every call live and the host consistent, and live when it does not break out |
| HostDriver.AttachKeepsLive | player/src/gl_main_loop.cpp:42-57 | attaching a freshly loaded module keeps every call live and the host consistent, and live when it does not break out |
| HostDriver.HotReloadLeaksNothing | player/src/gl_main_loop.cpp:37 | with its close succeeding, a hot reload closes the old module, leaving only the base libraries and the new one open |
| HostDriver.RunKeepsConsistent | player/src/gl_main_loop.cpp:22-124 | the frame loop never calls into a closed library or reads an empty result, ends consistent, and with every close succeeding leaks nothing |
| HostDriver.TeardownOrder | player/src/player.cpp:130-143 | on a live host both teardowns agree: `on_unload` and unbinding in the host's order, then `unload`, then the renderer (Vulkan player) and the window are terminated |
| HostDriver.TeardownIsSafe | player/src/player.cpp:130-143 | the corrected teardown of any consistent host never calls into a closed library or reads an empty result, and with its close succeeding leaves only the base libraries open |
| HostDriver.TeardownAsWrittenCallsUnloadedModule | player/src/player.cpp:130-132 | after a hot reload whose module file has vanished, the as-written teardown calls `on_unload` in the closed library and reads the empty handle, where the corrected one only unbinds and terminates |
| HostDriver.StartupCleansUp | player/src/player.cpp:81-116 | a failure before anything is loaded terminates the window without unloading; a later failure terminates and then unloads, so with the close succeeding nothing stays open; a started host holds a live module, with `on_load` called before binding |
| HostDriver.StartupExitIsSafe | player/src/player.cpp:81-116 | an exit during start-up never calls into a closed library or reads an empty result |
| HostDriver.RunPlayer | player/src/player.cpp:79-151 | corrected: a whole run with the corrected teardown exits successfully exactly when start-up started the module, and a start-up exit returns start-up's loader and events |
| HostDriver.RunPlayerAsWritten | player/src/player.cpp:79-151 | the program's whole run, with the unconditional teardown, succeeds exactly when the corrected run does and is that run when start-up exits |
| HostDriver.RunPlayerIsSafe | player/src/player.cpp:79-151 | corrected: over a whole run with the corrected teardown nothing is called in a closed library and no empty result is read, and with every close succeeding no library the run opened stays open |
| HostDriver.LoopEndIsConsistent | player/src/player.cpp:79-128 | a started host reaches the teardown in a consistent slot with a safe record of events |
| HostDriver.RunPlayerAsWrittenAgrees | player/src/player.cpp:79-151 | when the frame loop ends with the module and its API held (every exit but a failed hot reload), the program's run is the corrected run and so is safe |
| HostDriver.RunPlayerAsWrittenReadsEmpty | player/src/player.cpp:130-132 | when the frame loop ends without a module or without its API, the program's run reads an empty result in its teardown |
| HostDriver.TeardownAsWrittenReadsEmpty | player/src/player.cpp:130-132 | the as-written teardown of a slot without a module or without an API reads the empty result |
| HostDriverObject.Process.constructor | player/src/player.cpp:79-87 | a process starts holding no module and having done nothing |
| HostDriverObject.Process.Bail | player/src/player.cpp:95-100 | a start-up failure after loading terminates the window (and renderer), then unloads the module |
| HostDriverObject.Process.Startup | player/src/player.cpp:81-116 | start-up on the process is the value model's |
| HostDriverObject.Process.Attach | player/src/gl_main_loop.cpp:42-57 | attaching on the process is the value model's |
| HostDriverObject.Process.HotReload | player/src/gl_main_loop.cpp:30-61 | the hot-reload block on the process is the value model's |
| HostDriverObject.Process.ReloadThenRender | player/src/gl_main_loop.cpp:29-107 | when the reload keys fire, the process runs the value model's reload block and, unless it broke out of the loop, the value model's rest of the frame |
| HostDriverObject.Process.Render | player/src/gl_main_loop.cpp:63-107 | the rest of a frame on the process is the value model's |
| HostDriverObject.Process.RunFrame | player/src/gl_main_loop.cpp:22-107 | one frame on the process is the value model's |
| HostDriverObject.Process.RunLoop | player/src/gl_main_loop.cpp:22-124 | the frame loop on the process is the value model's |
| HostDriverObject.Process.Teardown | player/src/player.cpp:130-143 | the corrected teardown on the process is the value model's |
| HostDriverObject.Process.TeardownAsWritten | player/src/player.cpp:130-143 | the as-written teardown on the process is the value model's |
| HostDriverObject.Process.RunPlayer | player/src/player.cpp:79-151 | the whole run of a fresh process, with the program's unconditional teardown, is the value model's `RunPlayerAsWritten` |
| PlayerConfig.AtoiSkipsSpace | player/src/config.cpp:25-26 | the integer fields are read with `atoi`, which skips leading white space |
| PlayerConfig.AtoiReadsDecimal | player/src/config.cpp:25-42 | `atoi` reads back any decimal numeral written after white space and an optional sign, whatever non-digit text follows it |
| PlayerConfig.ModuleStemInvertsFileName | player/src/config.cpp:51-59 | the module file name built from `first_module` determines the value: its stem is the value, and any name with a stem is built from that stem |
| PlayerConfig.KeysAddressOneFieldEach | player/src/config.cpp:23-63 | every configuration field is addressed by exactly one section and key, and a known key addresses exactly its field |
| PlayerConfig.PutWritesOnlyItsField | player/src/config.cpp:23-59 | writing a field sets it as the handler's table says and leaves every other field as it was |
| PlayerConfig.HandlerWritesOnlyItsField | player/src/config.cpp:15-66 | the handler returns 1 exactly for a known key and 0 for an unknown one, writes only that key's field, and leaves every other field unchanged |
| PlayerConfig.FpsCapIsNarrowed | player/src/config.cpp:41-42 | the frame cap value is `atoi` of the text narrowed to 8 bits, and the cap flag is untouched |
| PlayerConfig.ApplyAllAcceptsKnownKeys | player/src/config.cpp:68-84 | running the handler over all entries succeeds exactly when every entry has a known key |
| PlayerConfig.ApplyAllLastEntryWins | player/src/config.cpp:68-84 | the last entry for a field decides its value; a field no entry sets keeps its value |
| PlayerConfig.ParseConfigOutcome | player/src/config.cpp:68-84 | parse_config reports a load error exactly when the file is missing, a parse error exactly when the text is malformed or holds an unknown key, and otherwise gives each field its last entry's value or its default, the module file being built from the last `first_module` |
| PlayerConfigObject.ConfigData.constructor | player/src/config.cpp:77 | the configuration starts at the default values |
| PlayerConfigObject.ConfigData.Handle | player/src/config.cpp:15-66 | the handler writing through its user pointer changes the configuration as the value model's handler does |
| CliArgs.ParseArgumentsDispatch | surge_player/source/cli.cpp:50-67 | the player goes on exactly when `config.yaml` is a valid path and there is no argument, or one argument that is neither flag and is a valid path; the usage is printed exactly for a help flag or a wrong argument count, the version exactly for a version flag, and whatever is printed stops the player |
| CliArgs.FlagNamedModuleIsUnreachable | surge_player/source/cli.cpp:53-58 | a module file named like a flag can never be given, because the flag wins |

## Left out

- Time, the frame clock, `update`'s delta time and the FPS cap: the frame loop takes no time in the model; `update` is one event.
- GPU work (GL buffers and fences, shaders, geometry, Vulkan objects other than descriptor pools): each call is a boolean or an opaque value, and a fence is one boolean per buffer.
- Logging, `FormatMessage` and every message printed: printing is at most a `Printed` value.
- `dlopen` reference counting: every successful open returns a fresh handle, whether or not the file is already open. The `dlerror` state is not modelled.
- The borrow of a Rust `Symbol` on its library is a compile-time rule and has no counterpart.
- `get_vk_api` is not part of this model: the Vulkan hosts are taken to check the same seven entry points as `get_api`.
- `module.cpp` and `sc_module.cpp` are the same loader; one model covers both.
- Binding the window's input callbacks is one `Bound` event; what each callback does is not modelled.
- Window and renderer creation before a module is loaded: the host starts after them, and terminating them is an event.
- The Vulkan branch of the GL/Vulkan player runs no frame loop (the source leaves it unwritten), and the model runs none there.
- `player.hpp` and `config.hpp` are not part of this model: every field is an integer, boolean, real or string, and the defaults are value-initialised.
- `atoi` overflow is undefined behaviour in C and is not modelled: integers are unbounded. `strtof` is a parameter and its floats are reals.
- The INI syntax is inih's: a file is given as its entries and whether inih finds it well formed.
- Which paths `validate_path` accepts is the file system's answer, a set.
- `XXH64` is not modelled: a texture's hash is an input.
- The mutex of the EASTL arena: operations are sequential. The thread allocators' parent allocator is not modelled.
- `stack_allocator.hpp` declares `save()` returning a state; the `.cpp` saves into a flag and that is what is modelled. The header's deleted copy and move have no counterpart.
- Random numbers in `add_random`: the draws are inputs.
- The actor's heading and the walk threshold are inputs. The `actor.hpp` shipped next to `actor.cpp` is older than it; the `.cpp` is followed.
- `sad_file.hpp` is not part of this model: the record size is a parameter.
- `character.hpp`, `commands.hpp` and `new_game.hpp` are not part of this model: the defaults are a parameter, commands are named values and ranks integers.
- DTU draw data, text rendering and debug windows are not modelled.
- `pieces.cpp` of the 2048 module is not part of this model: `create_random`, `update_exponents`, `update_positions`, `idle` and `get_element` are absent from it. Being idle is an input, and the element of a slot is rebuilt from the slot map (`ElementOf`).
- Game2048.NewGameResets: does not include the two `create_random` calls of `new_game`, whose source is not part of this model.
- Game2048: the piece-adding stage only clears the should-add flag, and the `update_exponents` of piece removal is not modelled, as both live in `pieces.cpp`.
- GpuBumpArray.Push: requires room when not a debug build, because other builds write past the buffer.
- GpuBumpArrayClass.BumpArray.Push: requires room when not a debug build, for the same reason.
- SadFile.GetAnimation: requires the index below the count when bound checking is off, because the read is then outside the file.
- The texture created before `from_image` fails stays alive; this is what the source does and the model keeps it.
- StackArena.AlignedAlloc: the capacity test adds `free_index`, the header and the size as unbounded integers, not as `std::size_t`s that wrap modulo 2^64; a size so large that the program's sum wraps below the capacity (free index 16, alignment 16, size 2^64 - 16) is accepted by the program and refused by the model.
- StackArena.AlignedAlloc: requires a nonzero alignment, because `size % alignment` is undefined for 0; the engine never passes 0.
- BumpArena.AlignedAlloc: the capacity test adds the index, the padding and the size as unbounded integers, not modulo 2^64; a request whose `std::size_t` sum wraps below the capacity is refused by the model where the program accepts it.
- EastlArena.AllocateAsWritten: the index plus the padded size is an unbounded sum, not one that wraps modulo 2^64; a request whose sum wraps is refused by the model where the program accepts it.
- EastlArena.Allocate: the same unbounded capacity sum as `EastlArena.AllocateAsWritten`.
- ScArena.AllocateAsWritten: the offset plus the actual size is an unbounded sum, not one that wraps modulo 2^64; a request whose sum wraps is refused by the model where the program accepts it.
- ScArena.Allocate: the same unbounded capacity sum as `ScArena.AllocateAsWritten`.
- EastlArena.AllocateDefault: runs the corrected `EastlArena.Allocate`, which returns the aligned start; the program forwards to the `allocate` of the Findings table, which returns the unpadded start.
- ModuleManagerObject.Manager.Reload: reloads through the corrected `ModuleManager.Load`, which closes a library missing an entry point; the program reloads through the leaking `load` of the Findings table.
- Game2048.CompressTable: the right table is the corrected `Board2048.CompressRight`; the program's OXXO case sends the two pieces of rows 1 to 3 to slots of row 0 (Findings table), and no game-level member runs that.
- Game2048.CompressLine: built on the corrected right table (see `Game2048.CompressTable`).
- Game2048.CompressLines: built on the corrected right table (see `Game2048.CompressTable`).
- Game2048.CompressBoard: built on the corrected right table (see `Game2048.CompressTable`).
- Game2048.CompressTablePacks: proved of the corrected right table; the program's table does not pack OXXO in rows 1 to 3.
- Game2048.CompressLinePacks: proved of the corrected right table, as `Game2048.CompressTablePacks` is.
- Game2048.CompressBoardKeepsInv: proved of the corrected compression; with the program's table two pieces of another row can be sent to row 0.
- Game2048Globals.Globals.CompressLine: runs the corrected compression of `Game2048.CompressLine`.
- Game2048Globals.Globals.Compress: runs the corrected compression, not the program's `compress_right` with its row-0 OXXO slots.
- Game2048Globals.Globals.Update: its compress stage is the corrected one.
- Game2048Globals.Globals.RunStage: its compress stage is the corrected one.
- Game2048Globals.Globals.NewGame: does not include the two `create_random` calls of `new_game`, whose source is not part of this model, as `Game2048.NewGameResets` does not.
- Piece2048Table.PieceTable.AddRandom: the draws are a finite sequence, and when every draw is taken the model adds nothing and returns None; on a full board the program's loop never ends (Findings table).
- DtuModuleGlobals.Globals.Transition: the screens' `load` and `unload` routines are recorded as calls and not run, so the loaded textures and the draw list are left as they were; in the program they load and release textures, push sprites and, for the new-game screen, clear the draw list and the command queue. The main-menu routines with the signature `DTU.cpp` calls are not part of this model.
- DtuModuleGlobals.Globals.Update: runs `DtuModuleGlobals.Globals.Transition`, and so leaves the loaded textures and the draw list as they were, which the program's screen routines do not.
- Actor.AdvanceFrame: requires a sheet with at least one row, because the source's `% rows` is undefined for 0.
- ActorClass.ActorEntity.AdvanceCurrentAnimFrame: requires a sheet with at least one row, as `Actor.AdvanceFrame` does.
- AnimatedSprite.UpdateFrame: requires a nonempty sheet for a looping animation, because the source's `% size` is undefined for 0.
- AnimatedSprite.UpdateTimes: requires a nonempty sheet for a looping animation, as `AnimatedSprite.UpdateFrame` does.
- AnimatedSpriteClass.AnimatedSpriteEntity.UpdateAnimationFrame: requires a nonempty sheet for a looping animation, as `AnimatedSprite.UpdateFrame` does.
- Descriptors.PoolSizesFollowRatios: the ratios and the set count are multiplied as exact reals and then truncated; the program multiplies in single-precision `float`, whose rounding can give a different count (0.7f times 10 is 7.0f in the program, 6.99999988 and so 6 in exact arithmetic on 0.7f's value).
- The DTU window and scroll values are reals: single-precision rounding of `float` is not modelled anywhere.
- BumpArena.AlignedAlloc: requires a nonzero alignment when the build checks arguments, because the check `size % alignment` divides by zero for 0 (which `is_pow_2` lets through); the engine never passes 0.
- BumpArenaClass.LinearArena.AlignedAlloc: requires a nonzero alignment when the build checks arguments, as `BumpArena.AlignedAlloc` does, and has its unbounded capacity sum.
- AnimatedSprite.Delinearize: requires an animation index inside the SAD file and a nonzero column count, because the source then reads past the `cols` array or computes `frame % 0`, both undefined.
- AnimatedSpriteClass.AnimatedSpriteEntity.DelinearizeFrameIndex: requires what `AnimatedSprite.Delinearize` requires, for the same reason.
- ThreadAllocatorsClass.NewAllocators: a thread index of 20 or more gets no name (`None`); the program reads `allocator_name_map[i]` past its twenty entries, which is undefined, and what name it passes on is not modelled.
- ThreadAllocatorsClass.GlobalThreadAllocators.Init: names past the twentieth thread are `None`, as in `ThreadAllocatorsClass.NewAllocators`.
- SpriteDatabase: every operation after `create` requires the invariant, which needs at least one region; with a redundancy of 0 the program maps a zero-byte buffer, indexes an empty fence array and reduces `write_buffer` modulo 0, all undefined.
- SpriteDatabaseClass.SpriteDb: its methods require `Valid()`, which a database of redundancy 0 does not have, for the same reason as `SpriteDatabase`.
- RingBuffer.LockAndAdvance: corrected; runs the corrected advance of the Findings table, which wraps when the next section is `num_sections`. The program's `lock_and_advance` uses the `+ 1 > num_sections` advance and from the last section moves past the index arrays; that behaviour is `RingBuffer.LockAndAdvanceAsWritten`.
- RingBufferClass.GlRingBuffer.LockAndAdvance: corrected; runs the corrected advance, as `RingBuffer.LockAndAdvance` does, where the program moves past the last section.
- HostDriver.RunPlayer: corrected; tears down with the corrected `HostDriver.Teardown`. The program's run is `HostDriver.RunPlayerAsWritten`, which differs after a failed hot reload.
- HostDriver.RunPlayerIsSafe: proved of the corrected run; the program's run is safe only where the loop ends with the module held (`HostDriver.RunPlayerAsWrittenAgrees`), and after a failed hot reload it reads an empty result (`HostDriver.RunPlayerAsWrittenReadsEmpty`).
- StackArenaClass.StackAllocator.Realloc: corrected; runs the corrected `StackArena.Realloc`, which refuses an in-place growth past the buffer that the program performs.
- EastlArenaClass.ArenaAllocator.Allocate: corrected; returns the aligned start of the corrected `EastlArena.Allocate`, where the program returns the unpadded one.
- EastlArenaClass.ArenaAllocator.Reset: corrected; keeps the backing vector, where the program's `reset` clears it.
- ScArenaClass.FixedArena.Allocate: corrected; pads to a multiple of the alignment, where the program adds the size's own remainder.
- ScArenaClass.DynamicArena.Malloc: corrected; doubles until the block fits, where the program doubles once.
- PersistentBufferClass.MappedBuffer.Add: corrected; compares the index with the region's end, where the program adds the region offset twice.
- Piece2048Table.PieceTable.Remove: corrected; frees an ID only when a piece was removed, where the program pushes it back unconditionally.
- DescriptorObjects.DescriptorAllocator.Allocate: corrected; reports every device failure and keeps the retry pool, where the program returns other failures as a set and drops the pool after a failed retry.
- ModuleManagerObject.Manager.Load: corrected; closes a library missing an entry point, where the program leaves it open.
- HostDriverObject.Process.Teardown: corrected; calls `on_unload` and unloads only a module still held, where the program's teardown (`HostDriverObject.Process.TeardownAsWritten`) does both unconditionally.
- PlayerSpriteBatch: the player's sprite database is built on the core's generic buffer array model (`GpuBumpArray`); the player's own buffer type is taken to behave as the core's does.
- SpriteBatchClass.PlayerSpriteBatcher: built on `GpuBumpArrayClass`, as `PlayerSpriteBatch` is on `GpuBumpArray`.

## Findings

| source | as written | input that shows it | evidently intended | confidence | as-written member | corrected member |
|---|---|---|---|---|---|---|
| source/allocators/stack_allocator.cpp:280-288 | `realloc` of the top block grows it in place without checking the buffer's capacity | a 48-byte buffer whose top block is grown past the end | growing in place only when the new size still fits, otherwise refusing with null as `aligned_alloc` does | not executed | StackArena.ReallocAsWritten, StackArena.ReallocOverrunsBuffer | StackArena.Realloc, StackArena.ReallocInPlaceFits |
| source/arena_allocator.cpp:101-104 | `allocate` pads the block for alignment but returns the unpadded start index | two one-byte blocks with alignment 8 in a 64-byte arena: the second starts at index 9 | returning the aligned start of the block | not executed | EastlArena.AllocateAsWritten, EastlArena.AllocateAsWrittenIsUnaligned | EastlArena.Allocate, EastlArena.SuccessiveBlocksDisjoint |
| source/arena_allocator.cpp:121-127 | `reset` clears the backing vector to length zero | any allocation after `reset` returns index 0 of an empty vector | rewinding the index and keeping the storage | not executed | EastlArena.ResetAsWritten, EastlArena.ResetAsWrittenLeavesNoStorage | EastlArena.Reset, EastlArena.ResetKeepsStorage |
| core/src/sc_allocators.cpp:157-158 | the padded size is the size plus its own remainder modulo the alignment (`size + (size & (alignment - 1))`), which neither rounds the size up nor looks at the offset, so the next offset is not a multiple of the alignment | `allocate(3, 4)` in a 64-byte arena moves the offset to 6, where the next `allocate(4, 4)` starts | rounding the size up to a multiple of the alignment | not executed | ScArena.AllocateAsWritten, ScArena.AllocateAsWrittenIsUnaligned | ScArena.Allocate, ScArena.AllocateAllAligned |
| core/src/sc_allocators.cpp:240-262 | a full dynamic arena doubles its capacity once, however large the request | a 16-byte arena asked for 64 bytes grows to 32 yet hands out 64 bytes | doubling until the block fits | not executed | ScArena.DynamicMallocAsWritten, ScArena.DynamicMallocAsWrittenOverflows | ScArena.DynamicMalloc |
| player/include/gl_ring_buffer.hpp:103-109 | the write section wraps only when `section + 1 > n`, so it reaches `n` | three advances from section 0 of three sections reach section 3 | wrapping to 0 when the next section is `n` | not executed | RingBuffer.AdvanceAsWritten, RingBuffer.AdvanceAsWrittenLeavesRange, RingBuffer.LockAndAdvanceAsWritten | RingBuffer.Advance, RingBuffer.AdvanceCycles |
| player/include/pmb.hpp:121-128 | the capacity test adds the region's offset to an index that already includes it | a 4-element buffer refuses the first `add` into region 1 | comparing the index with the end of the region | not executed | PersistentBuffer.AddAsWritten, PersistentBuffer.AddAsWrittenRefusesRegionOne | PersistentBuffer.Add, PersistentBuffer.AddFillsRegion |
| modules/2048/src/pieces_right_motion.cpp:45-49 | the OXXO case of `compress_right` uses slot numbers of row 0 in every row | row 1 holding pieces in its two middle slots sends them to slots 2 and 3 of row 0 | adding the row offset as every other case does | not executed | Board2048.CompressRightAsWritten, Board2048.CompressRightAsWrittenLeavesRow | Board2048.CompressRight, Board2048.CompressRightPacks |
| surge_modules/2048/source/2048_piece.cpp:52-56 | `remove` pushes the ID back on the free list whether or not it was alive | with one piece alive (ID 0 in slot 5), removing the free ID 1 lists it twice among the 16 free IDs | pushing the ID back only when a piece was removed | not executed | Piece2048.RemoveAsWritten, Piece2048.RemoveAsWrittenDuplicatesFreeId | Piece2048.Remove, Piece2048.RemoveKeepsInv |
| surge_modules/2048/source/2048_piece.cpp:75-77 | `add_random` draws again while the drawn slot is taken, with no test for a full board | sixteen pieces, one in every slot: every draw is taken and the loop never ends | doing nothing when no slot is free | not executed | Piece2048.FirstFree, Piece2048.AddRandomAsWrittenNeverSettles | Piece2048Table.PieceTable.AddRandom |
| core/src/sc_vulkan/atoms/descriptor.cpp:107-127 | a device failure other than an exhausted or fragmented pool falls through to the success return | a first allocation failing with any error other than out-of-pool-memory or fragmentation is reported as the null set | reporting the failure | not executed | Descriptors.AllocateAsWritten, Descriptors.AllocateAsWrittenReportsFailureAsSet | Descriptors.Allocate, Descriptors.AllocateSucceedsExactlyOnAllocation |
| core/src/sc_vulkan/atoms/descriptor.cpp:110-122 | a failed retry returns before the pool in hand is put back on a list | pools 1 and 2 ready and both full: after the failed retry pool 1 is on neither list | putting the pool in hand back on the ready list, as the success path does, before returning the error | not executed | Descriptors.AllocateAsWritten, Descriptors.AllocateAsWrittenLosesRetryPool | Descriptors.Allocate, Descriptors.AllocateKeepsPools |
| surge_player/source/module_manager.cpp:30-80 | a library missing an entry point is never closed; null is returned | a file exporting only `on_load` stays open with no handle left to close it | closing the library before returning null | not executed | ModuleManager.LoadAsWritten, ModuleManager.LoadAsWrittenLeaksIncompleteModule | ModuleManager.Load, ModuleManager.LoadReturnsOnlyCompleteModules |
| player/src/player.cpp:130-132 | after a hot reload breaks the loop, teardown calls `on_unload` through the old API and unloads the empty result | the module file vanishes between frames and F5 with left Ctrl is pressed | tearing down the module only when one is held | not executed | HostDriver.TeardownAsWritten, HostDriver.TeardownAsWrittenCallsUnloadedModule, HostDriver.RunPlayerAsWrittenReadsEmpty | HostDriver.Teardown, HostDriver.TeardownIsSafe |
