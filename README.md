# Frame-partitioned linear allocation and staging in of::vk

This project is a Dafny model of the part of the openFrameworks Vulkan renderer that moves data to the GPU.

- **`of::vk::BufferAllocator`** is a linear (bump) allocator. It holds one buffer bound to one device-memory reservation, split evenly into `frameCount` virtual frames.
  - Each frame has a "next free location" cursor and, when the memory is host-visible, a mapped base address.
  - Sub-allocations are rounded up to the alignment (the model keeps the headers' default of 256 bytes) and come only from the current virtual frame.
  - `swap()` moves on to the next frame, wrapping around.
  - `free()` marks the current frame's sub-allocations unused without returning memory to the device.
  - `map()` hands out the current address for writing.
  - A `Settings` object is filled in by chained setters.
- **`of::vk::Allocator`** is the older variant. The caller names the frame on every `allocate` and `free`, and `allocate` returns the host address of the new block together with its offset.
- **`of::vk::RenderContext`** stages data:
  - `stageData` allocates each item's bytes from a target allocator and then from the context's transient allocator. It copies the bytes into the mapped transient memory, records a copy region, and stops at the first item that fails.
  - `storeDataCmd` turns the staged regions into per-item `BufferRegion`s. It records a command buffer that copies the regions and places one buffer barrier over their bounding span.
  - `submit` queues that command buffer on the current virtual frame.

## Files

- `vk_types.dfy` holds opaque handles, host addresses and flag values.
- `linear.dfy` holds the shared arithmetic:
  - alignment, slot size and slot base;
  - one bump step;
  - frame advance;
  - the layout invariant `Slots`: every frame's outstanding blocks are packed, aligned, from the slot start up to the cursor.
- `buffer_allocator.dfy` holds:
  - the `Settings` class;
  - the allocator state as a value, `AllocatorState`, with the pure operations `AllocateOn`, `SwapOn` and `FreeOn` and lemmas about them;
  - the `BufferAllocator` class. Its methods are proved against those functions and keep `Valid()`.
- `vk_allocator.dfy` holds the `Allocator` class with explicit frame indices.
- `staging.dfy` holds:
  - the staging protocol as a pure function `Stage` over allocator states;
  - its loop form `StageFrom`;
  - the lemmas about regions, prefixes and the barrier span.
- `render_context.dfy` holds the `RenderContext` class. `StageData`, `StoreDataCmd` and `Submit` are imperative methods proved against `Stage`, `RegionsOf` and `TransferCommands`.

## Model

| member | source | states |
|---|---|---|
| Linear.AlignUp | libs/openFrameworks/vk/BufferAllocator.h:118 | the rounded size is a multiple of 256, at least the request, and less than the request plus 256 |
| Linear.SlotInsideReservation | libs/openFrameworks/vk/BufferAllocator.h:14-16 | each of the `frameCount` equal slots lies inside the reservation |
| Linear.SlotBaseMonotone | libs/openFrameworks/vk/BufferAllocator.h:14-16 | an earlier frame's slot ends no later than a later frame's slot begins |
| Linear.SlotBaseAligned | libs/openFrameworks/vk/vkAllocator.h:53 | a slot starts on a 256-byte boundary when the slot size is a multiple of 256 |
| Linear.UnalignedSlotBase | libs/openFrameworks/vk/BufferAllocator.h:118-120 | with 768 bytes over two frames, frame 1's first block starts at 384, which is not a multiple of 256 |
| Linear.NextFrameIsMod | libs/openFrameworks/vk/BufferAllocator.h:106 | advancing the frame index modulo the frame count is moving to the next frame, wrapping to frame 0 after the last |
| Linear.AdvanceNoWrap | libs/openFrameworks/vk/BufferAllocator.h:127 | before wrapping, k advances move k frames on |
| Linear.AdvanceCompose | libs/openFrameworks/vk/BufferAllocator.h:127 | advancing a times then b times is advancing a + b times |
| Linear.AdvanceCycle | libs/openFrameworks/vk/BufferAllocator.h:106 | frameCount advances return to the starting frame |
| Linear.Bump | libs/openFrameworks/vk/BufferAllocator.h:118-120 | a bump succeeds exactly when the request is non-empty and its rounded size fits in the rest of the slot; the block starts at the cursor, ends within the new cursor, and the cursor moves by an aligned amount within the slot |
| Linear.PackedAppend | libs/openFrameworks/vk/BufferAllocator.h:120 | appending an aligned block at the cursor keeps a frame's blocks packed |
| Linear.PackedLayout | libs/openFrameworks/vk/BufferAllocator.h:12 | packed blocks lie between the slot start and the cursor at aligned distances, and earlier blocks end before later ones begin |
| Linear.EmptySlots | libs/openFrameworks/vk/BufferAllocator.h:120 | all-zero cursors with no blocks satisfy the layout invariant |
| Linear.SlotsAfterBump | libs/openFrameworks/vk/vkAllocator.h:39-55 | a bump in frame f records its block and keeps the layout invariant of every frame |
| Linear.SlotsAfterClear | libs/openFrameworks/vk/vkAllocator.h:43-45 | emptying frame f keeps the layout invariant of every frame |
| Linear.SlotsDisjoint | libs/openFrameworks/vk/BufferAllocator.h:14-16 | two distinct outstanding blocks, of the same or different frames, never overlap |
| Linear.BlockInsideSlot | libs/openFrameworks/vk/BufferAllocator.h:118-121 | an outstanding block lies inside its own frame's slot and the reservation, is aligned relative to the slot start, and is aligned absolutely when the slot size is a multiple of 256 |
| VkTypes.Offset | libs/openFrameworks/vk/BufferAllocator.h:121 | pointer arithmetic keeps null as null and moves a host address by exactly k |
| BufferAllocation.Settings.constructor | libs/openFrameworks/vk/BufferAllocator.h:35-42 | new settings have one frame and index, uniform, vertex, transfer-source and transfer-destination usage; the other fields take the modelled defaults of `DefaultConfig` (nothing to reserve, no memory flags, no queue families, no device; see Left out) |
| BufferAllocation.Settings.SetSize | libs/openFrameworks/vk/BufferAllocator.h:44-47 | sets only the size and returns the same object |
| BufferAllocation.Settings.SetMemFlags | libs/openFrameworks/vk/BufferAllocator.h:48-51 | sets only the memory flags and returns the same object |
| BufferAllocation.Settings.SetQueueFamilyIndices | libs/openFrameworks/vk/BufferAllocator.h:52-55 | sets only the queue family indices and returns the same object |
| BufferAllocation.Settings.SetRendererProperties | libs/openFrameworks/vk/BufferAllocator.h:56-61 | sets only the three device fields and returns the same object |
| BufferAllocation.Settings.SetBufferUsageFlags | libs/openFrameworks/vk/BufferAllocator.h:62-65 | sets only the usage flags and returns the same object |
| BufferAllocation.Settings.SetFrameCount | libs/openFrameworks/vk/BufferAllocator.h:66-69 | sets only the frame count and returns the same object |
| BufferAllocation.FreshState | libs/openFrameworks/vk/BufferAllocator.h:81-83 | a freshly set-up state, with cursors at zero and bases the mapping cut at slot boundaries, is consistent and writes at frame 0's base |
| BufferAllocation.AllocateOn | libs/openFrameworks/vk/BufferAllocator.h:88-90 | succeeds exactly when set up, non-empty and the rounded request fits in the current frame's slot; only the current frame's cursor moves; the offset is the current top, aligned relative to the slot, and the block ends inside the slot; the write address becomes the block's host address |
| BufferAllocation.AllocateKeepsSlots | libs/openFrameworks/vk/BufferAllocator.h:117-127 | after a successful allocation the current cursor has moved by the rounded request and the new block joins that frame's packed layout |
| BufferAllocation.SuccessiveAllocations | libs/openFrameworks/vk/BufferAllocator.h:12 | the second of two successive allocations starts exactly where the first one's rounded block ends |
| BufferAllocation.SwapOn | libs/openFrameworks/vk/BufferAllocator.h:92-106 | swapping keeps the state consistent (where it moves is `SwapsAdvance`) |
| BufferAllocation.Swaps | libs/openFrameworks/vk/BufferAllocator.h:14-16 | swapping never moves a cursor, a base address or the slot size |
| BufferAllocation.SwapsAdvance | libs/openFrameworks/vk/BufferAllocator.h:106-127 | after k swaps the allocator is k frames on, wrapping around, and writes at that frame's base |
| BufferAllocation.SwapCycle | libs/openFrameworks/vk/BufferAllocator.h:106-127 | frameCount swaps with nothing in between return a freshly set-up or freed allocator to the same state |
| BufferAllocation.FreeOn | libs/openFrameworks/vk/BufferAllocator.h:96-98 | free empties the current frame's cursor only, stays on that frame, and points the write address at the frame's start |
| BufferAllocation.FreeReclaimsSlot | libs/openFrameworks/vk/BufferAllocator.h:96-98 | after free, any request whose rounded size fits in a slot succeeds at the start of the current slot |
| BufferAllocation.BufferAllocator.constructor | libs/openFrameworks/vk/BufferAllocator.h:72-74 | a new allocator has default settings (`DefaultConfig`, whose inherited fields are modelled defaults; see Left out) and is not set up |
| BufferAllocation.BufferAllocator.Setup | libs/openFrameworks/vk/BufferAllocator.h:81-83 | keeps a copy of the settings; succeeds exactly when the device reserved the memory and mapped it where host-visible; every frame starts empty at frame 0, writing at the mapping's start |
| BufferAllocation.BufferAllocator.ReleaseCalls | libs/openFrameworks/vk/BufferAllocator.h:85-86 | teardown calls are made exactly when set up and end by destroying the buffer and freeing the memory |
| BufferAllocation.BufferAllocator.Reset | libs/openFrameworks/vk/BufferAllocator.h:85-86 | frees the device memory and leaves the allocator consistent and not set up |
| BufferAllocation.BufferAllocator.Destroy | libs/openFrameworks/vk/BufferAllocator.h:76-79 | waits for the device to go idle, then resets |
| BufferAllocation.BufferAllocator.Allocate | libs/openFrameworks/vk/BufferAllocator.h:88-90 | the bool and the offset are those of `AllocateOn`; the new block is recorded in the current frame; a failure changes nothing |
| BufferAllocation.BufferAllocator.Map | libs/openFrameworks/vk/BufferAllocator.h:100-104 | yields the current write address and returns true exactly when it is not null, which for a set-up allocator is exactly when its memory is host-visible; changes nothing |
| BufferAllocation.BufferAllocator.Swap | libs/openFrameworks/vk/BufferAllocator.h:92-127 | the new state is `SwapOn` of the old; buffer, memory and sub-allocations stay |
| BufferAllocation.BufferAllocator.Free | libs/openFrameworks/vk/BufferAllocator.h:96-98 | the new state is `FreeOn` of the old; the current frame's sub-allocations are gone; buffer and memory stay |
| BufferAllocation.BufferAllocator.GetBuffer | libs/openFrameworks/vk/BufferAllocator.h:108-110 | the owned buffer is null exactly when not set up |
| BufferAllocation.BufferAllocator.GetDeviceMemory | libs/openFrameworks/vk/BufferAllocator.h:132-134 | the owned memory is null exactly when not set up |
| BufferAllocation.OutstandingBlocksDisjoint | libs/openFrameworks/vk/BufferAllocator.h:12-16 | outstanding sub-allocations never overlap, lie inside the reservation, and are aligned relative to their slot, and absolutely when the slot size is a multiple of 256 |
| VkAllocation.DefaultSettingsAllocateNothing | libs/openFrameworks/vk/vkAllocator.h:18-21 | default settings reserve 0 bytes in one frame, so every allocation from them fails |
| VkAllocation.Allocator.constructor | libs/openFrameworks/vk/vkAllocator.h:24-26 | keeps the settings; not set up |
| VkAllocation.Allocator.Setup | libs/openFrameworks/vk/vkAllocator.h:32-34 | succeeds exactly when the device reserved the memory; every frame starts empty |
| VkAllocation.Allocator.ReleaseCalls | libs/openFrameworks/vk/vkAllocator.h:36-37 | teardown calls are made exactly when set up and end by destroying the buffer and freeing the memory |
| VkAllocation.Allocator.Reset | libs/openFrameworks/vk/vkAllocator.h:36-37 | frees the device memory and de-initialises |
| VkAllocation.Allocator.Destroy | libs/openFrameworks/vk/vkAllocator.h:28-30 | always resets |
| VkAllocation.Allocator.Allocate | libs/openFrameworks/vk/vkAllocator.h:39-41 | success is a bump of frame `frame_`'s cursor only; the offset is absolute and the host address is the mapping base plus that offset; a failure changes no cursor |
| VkAllocation.Allocator.Free | libs/openFrameworks/vk/vkAllocator.h:43-45 | clears frame `frame_` only; other cursors, buffer and memory stay |
| VkAllocation.Allocator.GetBuffer | libs/openFrameworks/vk/vkAllocator.h:47-49 | the owned buffer is null exactly when not set up |
| VkAllocation.OutstandingBlocksDisjoint | libs/openFrameworks/vk/vkAllocator.h:53-55 | outstanding sub-allocations never overlap, lie inside the reservation, and are aligned relative to their slot, and absolutely when the slot size is a multiple of 256 |
| Staging.StageOne | libs/openFrameworks/vk/RenderContext.h:230-247 | one item yields at most one region and one copy, and keeps both allocators consistent |
| Staging.StageOneRegion | libs/openFrameworks/vk/RenderContext.h:233-243 | trying an item never changes either allocator's frame or moves a cursor back; a staged item's region copies its byte length from the transient top to the target top, its bytes go to a non-null host address, and both cursors move by the rounded length |
| Staging.Stage | libs/openFrameworks/vk/RenderContext.h:225-251 | no more regions than items, one copy per region, and both allocators stay consistent |
| Staging.FromItemsCons | libs/openFrameworks/vk/RenderContext.h:233 | prepending the region and copy of the first item keeps regions matched to items |
| Staging.StageSizes | libs/openFrameworks/vk/RenderContext.h:233-241 | region i is as long as item i's bytes per element times its element count, and its bytes are copied from item i's data |
| Staging.DstCons | libs/openFrameworks/vk/RenderContext.h:236 | prepending a region below the rest keeps destination regions ascending and in range |
| Staging.SrcCons | libs/openFrameworks/vk/RenderContext.h:237-241 | prepending a region below the rest keeps source regions ascending, in range and written at their mapped address |
| Staging.StageDst | libs/openFrameworks/vk/RenderContext.h:236 | destination regions are increasing, non-overlapping, and between the target's cursor before and after, inside its current slot |
| Staging.StageSrc | libs/openFrameworks/vk/RenderContext.h:237-241 | source regions are increasing and non-overlapping in the transient allocator's current slot; each copy writes to the non-null mapped address of its source offset |
| Staging.StageAppend | libs/openFrameworks/vk/RenderContext.h:230-247 | staging `items + more` is staging `items` and then, only if all of them staged, `more`; otherwise `more` is never looked at |
| Staging.StageAppendStaged | libs/openFrameworks/vk/RenderContext.h:230-243 | when every item of `items` staged, `more` continues from the allocators' new states |
| Staging.StageAppendStopped | libs/openFrameworks/vk/RenderContext.h:244-247 | after a failure, later items change nothing |
| Staging.StagePrefix | libs/openFrameworks/vk/RenderContext.h:244-250 | a batch's first part yields a prefix of the whole batch's regions: regions already produced are kept after a later failure |
| Staging.StageFromIsStage | libs/openFrameworks/vk/RenderContext.h:230-248 | the loop's way of staging from item i agrees with `Stage` of the remaining items |
| Staging.StageFromStart | libs/openFrameworks/vk/RenderContext.h:227-250 | the loop started with nothing done computes `Stage` |
| Staging.TargetAdvancesOnTransientFailure | libs/openFrameworks/vk/RenderContext.h:236-238 | when the target allocation succeeds and the transient one fails, no region is kept, the transient allocator is unchanged, and the target's cursor has moved past the item |
| Staging.EmptyItemStops | libs/openFrameworks/vk/RenderContext.h:233-247 | an item of zero elements or zero-byte elements yields no region, ends the batch and leaves both allocators as they were |
| Staging.BarrierSpan | libs/openFrameworks/vk/RenderContext.h:274-275 | the span runs from the first region's destination to the end of the last; with increasing, non-overlapping regions it is non-negative and covers every region |
| Rendering.RenderContext.constructor | libs/openFrameworks/vk/RenderContext.h:81-89 | a context over the given frames and transient allocator, at frame 0 |
| Rendering.RenderContext.Submit | libs/openFrameworks/vk/RenderContext.h:182-184 | appends the command buffer to the current frame's list; the frame index, the rest of that frame and every other frame stay |
| Rendering.RenderContext.AllocateTransientCommandBuffer | libs/openFrameworks/vk/RenderContext.h:355-369 | an empty command buffer of the requested level from the current frame's pool |
| Rendering.RenderContext.StageItem | libs/openFrameworks/vk/RenderContext.h:233-243 | one pass of the loop leaves both allocators as `StageOne` says and succeeds exactly when it yields a region; an allocator whose state moved records one new block of the rounded size at its old top in its current frame, even when the other allocation then fails, and one whose state stayed keeps its blocks; on success those blocks sit at the region's offsets; settings, buffers and device memory stay |
| Rendering.RenderContext.StageData | libs/openFrameworks/vk/RenderContext.h:225-251 | the regions, the copies and both allocators' new states are those of `Stage`; their settings, buffers and device memory stay |
| Rendering.RenderContext.StoreDataCmd | libs/openFrameworks/vk/RenderContext.h:255-314 | stages as `Stage`; returns `RegionsOf` the staged regions; queues on the current frame exactly one command buffer recording `TransferCommands`; the rest of the current frame, every other frame, and both allocators' settings, buffers and device memory stay |
| Rendering.RegionsOf | libs/openFrameworks/vk/RenderContext.h:263-272 | one descriptor per region: the target buffer, the region's destination offset and size, and the item's element count |
| Rendering.StoredRegions | libs/openFrameworks/vk/RenderContext.h:263-272 | each returned region is as long as its item's bytes, lies between the target's cursor before and after staging, and follows the previous one without overlap |
| Rendering.DescribeRegions | libs/openFrameworks/vk/RenderContext.h:263-272 | the loop builds exactly `RegionsOf` the copy regions |
| Rendering.TransferCommands | libs/openFrameworks/vk/RenderContext.h:274-307 | begin once, copy the regions from transient to target, one transfer-write to shader-read barrier on the target at exactly `BarrierSpan`'s offset and size, end; with increasing, non-overlapping regions the barrier covers every region |

## Left out

- The headers only declare `setup`, `reset`, `allocate`, `swap` and `free`. BufferAllocator.cpp and vkAllocator.cpp are not part of this model. The headers give only 256 bytes as the default alignment (BufferAllocator.h:118), one cursor per frame (:120) and the current address for writing (:126). The rest of `allocate` is a modelling choice:
  - a request is rounded up to 256 bytes;
  - it fails when it asks for zero bytes, or when it does not fit in the rest of the current frame's slot;
  - the offset returned is absolute in the buffer (slot start plus cursor);
  - after `allocate` the write address is the new block's host address.
- The bodies of `swap` and `free` are not shown either. These are modelling choices too:
  - `swap` moves to the next frame (wrapping around), points the write address at that frame's start, and resets no cursor;
  - `free` zeroes the current frame's cursor and points the write address at that frame's start.
  - `SwapCycle` covers a freed allocator only because of the `free` choice.
- `BufferAllocation.BufferAllocator.Setup` and `VkAllocation.Allocator.Setup` require at least one frame. `setFrameCount` accepts 0, but slot size is the reservation divided by the frame count, so zero frames has no meaning in the model.
- Because an empty request fails, an item with zero elements or zero-byte elements ends a staging batch at that item (`Staging.EmptyItemStops`).
- `stageData` keeps the regions staged before a failure and returns them.
- `StoreDataCmd` requires at least one item to stage, because the source reads the first and last region unconditionally. An empty result is undefined behaviour there.
- `RenderContext` declares its transient memory as `of::vk::Allocator` but calls the `BufferAllocator` interface on it. The model uses `BufferAllocator` for both the transient allocator and the target allocator.
- The target allocator and the context's transient allocator are required to be distinct objects. Staging through a single allocator aliased to both is not modelled.
- The alignment: the comment on `mAlignment` (BufferAllocator.h:118, vkAllocator.h:53) says the alignment is calculated on setup, and 256 is only the default. That calculation is in the `setup` bodies, which are not part of this model. The member is declared `const` with the value 256, and the model keeps that constant, the largest alignment Vulkan allows. A device that needs less would get different offsets and sizes from the real allocator than the model gives.
- `BufferAllocation.Settings.constructor`: only `frameCount = 1` and the usage flags come from BufferAllocator.h:35-42. The size, the memory flags, the queue family indices and the three device handles belong to `AbstractAllocator::Settings` in vk/Allocator.h, which is not part of this model. `DefaultConfig` gives them zero, empty and null values as a modelling choice. With no memory flags a default-configured allocator is not host-visible, so `Map` fails on it.
- `BufferAllocation.AllocateOn`: offsets are proved aligned relative to their slot start. They are absolute multiples of 256 only when the slot size (the reservation divided by the frame count) is one. `OutstandingBlocksDisjoint` states that condition, and `Linear.UnalignedSlotBase` shows it is needed: 768 bytes over two frames puts frame 1's first block at 384.
- `VkAllocation.Allocator.Allocate`: the same holds for the older allocator. Absolute alignment needs the slot size to be a multiple of 256.
- `DeviceSize` arithmetic is unbounded: 64-bit wrap-around of offsets and of `numBytesPerElement * numElements` is not modelled. The barrier span size is an integer, so a negative value stands for what the source would wrap.
- The payload `memcpy` is a ghost log of host copies (destination, source, length). The bytes themselves are not modelled.
- Device calls are not modelled:
  - memory-type selection, buffer creation, binding and mapping in `setup` are one `Reservation` value passed in;
  - command-buffer allocation is a handle passed in;
  - recording is a list of command values;
  - teardown is a list of device-call values.
- Not modelled in RenderContext:
  - descriptor pools, the descriptor-set cache, the pipeline cache, `requestAndBeginPrimaryCommandBuffer` (floating-point clear colours), the context's own setup, begin and swap, and the fence and semaphore getters;
  - the `ofLogError` call;
  - concurrency.
- `getSettings` is not modelled beyond the allocator's `settings` field.
