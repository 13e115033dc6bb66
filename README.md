# Veldrid Vulkan descriptor core, modelled in Dafny

This project models three connected pieces of Veldrid's Vulkan backend:

- **ResourceRefCount** (`ref_count.dfy`, module `RefCounting`) is the
  shared-ownership counter that every Vulkan resource wrapper carries.
  - A counter starts at 1 and takes the next process-wide id; the first id is 2.
  - `Increment` and `Decrement` return the new value.
  - The dispose action runs inside the `Decrement` whose new value is 0.
  - The counter is a class. Its ghost history of operations ties the count and
    the number of dispose runs to the pure functions `CountAfter` and `Firings`.
- **VkResourceLayout** (`resource_layout.dfy`, module `ResourceLayouts`)
  compiles an ordered list of layout elements into:
  - the parallel array of resolved descriptor types;
  - one `VkDescriptorSetLayoutBinding` per element, whose binding index is its position;
  - the seven per-type totals of `DescriptorResourceCounts`;
  - the `DynamicBufferCount`.

  It then requests the native layout once. `Dispose` destroys that layout on
  the first call only. The compiling loop fills two arrays in place and is
  proved against pure sum functions (`KindTotal`, `DynamicTotal`, `CountsOf`).
- **VkResourceSet** (`resource_set.dfy`, module `ResourceSets`) builds a
  descriptor set from a compiled layout and a list of bound resources.
  - It allocates the set from the descriptor pool.
  - It walks the elements in order with one `resourceIndex`, which advances by
    each element's `ArrayCount`.
  - It fills the buffer or image info slot of every consumed resource in place.
  - It records each consumed resource's counter, and lists the textures of
    sampled and storage images.
  - It writes one `VkWriteDescriptorSet` per element and issues one batched
    `vkUpdateDescriptorSets`.
  - `Dispose` only decrements the set's own counter. `DisposeCore` returns the
    allocation to the pool, at most once.

  The walk is specified per resource slot. `SlotTypes(f, es)` repeats each
  element's descriptor type as many times as its array count. The results are
  then stated over that sequence:
  - `WritesDescribe` for the write records;
  - `InfosDescribe` for the info arrays;
  - `CounterOf` for the counter list;
  - `TexturesBoundAs` for the two texture lists.

Shared pieces:
- `vulkan.dfy` (module `Vulkan`) holds the Vulkan value types, the error
  conditions and the graphics device. The device records every native call and
  pool-manager call, with its arguments, in a ghost log.
- The replies of the driver and of the pool manager are parameters, so their
  failures are modelled: a failed layout request and a failed pool allocation.
- `wrappers.dfy` holds `Option` and `Result`.

The format tables `VkFormats.VdToVkDescriptorType` and `VdToVkShaderStages` are
not part of this model. They are function-valued inputs (`VkFormats`).

The builder does not check the number or the wrapper kind of the bound
resources against the layout, and the model does not model what happens then:
- Too few resources throw `IndexOutOfRangeException` at the resource lookup
  (`VkResourceSet.cs:64,79,94,109`).
- A resource of the wrong kind fails a cast.
- The model excludes both with the precondition `ResourcesFit`: enough
  resources for the consumed slots, each of the wrapper type its slot is cast
  to. Extra resources are ignored, as in the code.
- A layout that is not a `VkResourceLayout` (the cast at `VkResourceSet.cs:35`)
  is excluded by typing.

Points where the code does less than a reader might expect, which the model
follows as written:
- The builder records each resource's counter but never calls `Increment` on
  it. `DisposeCore` does not decrement the recorded counters, so there is no
  cascade of releases; the recorded list is only exposed as `RefCounts`.
- When the walk meets an unsupported descriptor type, the code throws after
  allocating from the pool. The allocation is not returned on that path.
- From a fresh counter, N increments followed by N + 1 decrements fire the
  dispose action once: the creator's own reference is the extra one.
- Under `VALIDATE_USAGE`, `Increment` rejects a new value of 0, which means an
  old value of -1. Its exception message (`ResourceRefCount.cs:33`) speaks of
  referencing a disposed resource, so the check is meant for a counter whose
  dispose action has run, which holds 0 (see Findings).

## Model

| member | source | states |
|---|---|---|
| RefCounting.ResourceIds.constructor | src/Veldrid/Vk/ResourceRefCount.cs:8 | the id source starts with last id 1 and nothing issued |
| RefCounting.ResourceRefCount.constructor | src/Veldrid/Vk/ResourceRefCount.cs:16-25 | a new counter holds 1 with an empty history and no dispose run; its id is the next integer, strictly greater than every earlier id, and the first id is 2 |
| RefCounting.ResourceRefCount.Increment | src/Veldrid/Vk/ResourceRefCount.cs:27-37 | the count rises by exactly 1, the dispose action does not run, and the result is the new count, or UseAfterFree when usage validation is on and the new count is 0 |
| RefCounting.ResourceRefCount.IncrementChecked | src/Veldrid/Vk/ResourceRefCount.cs:30-35 | the corrected check: UseAfterFree exactly when validation is on and the count was already 0 or below |
| RefCounting.ResourceRefCount.Decrement | src/Veldrid/Vk/ResourceRefCount.cs:39-48 | the count drops by exactly 1 and is returned; the dispose action runs once more exactly when the new count is 0 |
| RefCounting.CountAfterIsNetChange | src/Veldrid/Vk/ResourceRefCount.cs:27-48 | the count is the start plus the increments minus the decrements |
| RefCounting.DisposedExactlyWhenDrained | src/Veldrid/Vk/ResourceRefCount.cs:39-45 | when no increment reaches a counter that is already at 0 or below, the dispose action runs at most once, and it has run exactly when the count is 0 or below |
| RefCounting.CountAlongBalancedUse | src/Veldrid/Vk/ResourceRefCount.cs:27-48 | the count after each prefix of N increments followed by N + 1 decrements on a fresh counter |
| RefCounting.BalancedUseDisposesOnceAtEnd | src/Veldrid/Vk/ResourceRefCount.cs:19-45 | from a fresh counter, N increments followed by N + 1 decrements run the dispose action exactly once, on the last decrement and not before |
| RefCounting.IncrementCheckMissesDisposedCounter | src/Veldrid/Vk/ResourceRefCount.cs:29-35 | a counter whose dispose action has run holds 0, and an increment brings it to 1, a value the validation lets through |
| RefCounting.IncrementAfterDisposeIsAccepted | src/Veldrid/Vk/ResourceRefCount.cs:27-48 | on a fresh counter, the Decrement that runs the dispose action followed by a validated Increment returns Success(1): the as-written check does not fire |
| RefCounting.CheckedIncrementRejectsExactlyDisposed | src/Veldrid/Vk/ResourceRefCount.cs:30-35 | for a counter used as designed, the corrected check fires if and only if the dispose action has already run |
| ResourceLayouts.LayoutBindings | src/Veldrid/Vk/VkResourceLayout.cs:41-46 | one binding per element; binding i has index i, element i's array count and element i's translated type |
| ResourceLayouts.CompileElements | src/Veldrid/Vk/VkResourceLayout.cs:39-78 | the type array has one entry per element and entry i is element i's translated type; the binding array is LayoutBindings; the seven totals are the per-type sums of array counts; the dynamic count is the sum over DynamicBinding elements |
| ResourceLayouts.CountsOfStep | src/Veldrid/Vk/VkResourceLayout.cs:47-77 | compiling one more element adds its array count to the total of its own type and nothing else, and to the dynamic count exactly when it is DynamicBinding |
| ResourceLayouts.CountsOfSnoc | src/Veldrid/Vk/VkResourceLayout.cs:54-77 | the totals of a list are those of all but its last element, with the last element's array count added under its type by the switch |
| ResourceLayouts.AddToCountSum | src/Veldrid/Vk/VkResourceLayout.cs:54-77 | one pass of the switch adds the count to the sum of the seven totals when the type is one of the seven, and adds nothing otherwise |
| ResourceLayouts.CountsCoverArrayTotal | src/Veldrid/Vk/VkResourceLayout.cs:54-87 | the seven totals plus the array counts of elements of other types add up to the total array count: each count is in exactly one place |
| ResourceLayouts.UncountedElementAddsNothing | src/Veldrid/Vk/VkResourceLayout.cs:54-77 | an element of a type the switch has no case for leaves all seven totals unchanged |
| ResourceLayouts.ConstructResourceLayout | src/Veldrid/Vk/VkResourceLayout.cs:22-94 | exactly one native layout request, after compilation, with one binding per element; a failed request becomes the driver's result code; on success the layout holds the compiled types and totals and is not disposed |
| ResourceLayouts.VkResourceLayout.Dispose | src/Veldrid/Vk/VkResourceLayout.cs:106-113 | afterwards the layout is disposed and IsDisposed holds (VkResourceLayout.cs:20); the native layout is destroyed on the first call only |
| ResourceSets.SlotTypes | src/Veldrid/Vk/VkResourceSet.cs:47-119 | the resource slots consumed by the walk: one per array entry, as many as the total array count |
| ResourceSets.FirstUnsupported | src/Veldrid/Vk/VkResourceSet.cs:59-118 | every element before the result has a type with a branch, and the element at the result, if any, has none |
| ResourceSets.FirstUnsupportedAllSupported | src/Veldrid/Vk/VkResourceSet.cs:59-118 | when every element has a type with a branch, no element stops the walk |
| ResourceSets.SlotTypesAt | src/Veldrid/Vk/VkResourceSet.cs:58-116 | element i occupies the contiguous slots from the total array count of the elements before it, each of its own type |
| ResourceSets.ElementSlots | src/Veldrid/Vk/VkResourceSet.cs:58-116 | the same for an element before the first unsupported one, within the slots the walk consumes |
| ResourceSets.TexturesSkipOtherSlots | src/Veldrid/Vk/VkResourceSet.cs:59-116 | slots of other types add nothing to a texture list |
| ResourceSets.TexturesCountSlots | src/Veldrid/Vk/VkResourceSet.cs:75-104 | a texture list has one entry per slot of its image type |
| ResourceSets.SlotCountIsKindTotal | src/Veldrid/Vk/VkResourceSet.cs:47-119 | the number of slots of a type is the layout's total for that type |
| ResourceSets.NoUncountedBeforeFirstUnsupported | src/Veldrid/Vk/VkResourceLayout.cs:54-77 | when every element's type has a branch, no array count falls outside the seven totals |
| ResourceSets.ConsumedMatchesAllocation | src/Veldrid/Vk/VkResourceSet.cs:38-39 | when every element's type has a branch, the set consumes exactly as many resources as the descriptors its pool allocation was sized for |
| ResourceSets.ClassifiedTexturesMatchCounts | src/Veldrid/Vk/VkResourceSet.cs:75-104 | the sampled and storage texture lists have as many entries as the layout's sampled-image and storage-image totals |
| ResourceSets.WriteBufferInfos | src/Veldrid/Vk/VkResourceSet.cs:59-74 | the buffer branch fills the next count buffer infos with each range's buffer, offset and size, records each buffer's counter, and leaves the image infos and texture lists as they are |
| ResourceSets.WriteImageSlot | src/Veldrid/Vk/VkResourceSet.cs:79-86 | one image slot: the view's image info with the branch's image layout, its texture appended and its counter recorded |
| ResourceSets.WriteImageInfos | src/Veldrid/Vk/VkResourceSet.cs:75-104 | the two image branches fill the next count image infos with ShaderReadOnlyOptimal for sampled images or General for storage images, extend that type's texture list only, and record each view's counter |
| ResourceSets.WriteSamplerInfos | src/Veldrid/Vk/VkResourceSet.cs:105-116 | the sampler branch stores each sampler in the next count image infos, records each sampler's counter, and leaves both texture lists as they are |
| ResourceSets.ConsumeSlots | src/Veldrid/Vk/VkResourceSet.cs:58-116 | the branch for the element's type consumes exactly its array count of slots and keeps every slot's info, counter and classification as the slot types say |
| ResourceSets.WriteRecord | src/Veldrid/Vk/VkResourceSet.cs:50-56 | write record i has the allocated set, binding i, element i's array count and type, and its pBufferInfo or pImageInfo at the element's first slot |
| ResourceSets.WriteElement | src/Veldrid/Vk/VkResourceSet.cs:48-119 | one iteration: a type without a branch is reported and stops the walk exactly at the first such element; otherwise the element is walked and the resource index advances by its array count |
| ResourceSets.WalkElements | src/Veldrid/Vk/VkResourceSet.cs:47-119 | the walk reports the first element without a branch, and otherwise describes every element, every consumed slot, every counter and both texture lists |
| ResourceSets.WalkedDescribes | src/Veldrid/Vk/VkResourceSet.cs:47-119 | a walk over every element has consumed exactly the total array count and leaves every other info slot empty |
| ResourceSets.WriteDescriptors | src/Veldrid/Vk/VkResourceSet.cs:41-119 | on success the writes, both info arrays, the counter list in consumption order and both texture lists are those the layout and the resources determine; an unsupported type gives UnsupportedDescriptorType for the first such element |
| ResourceSets.VkResourceSet.IsDisposed | src/Veldrid/Vk/VkResourceSet.cs:28 | for a valid set, disposed exactly when its own counter has run its dispose action |
| ResourceSets.VkResourceSet.Dispose | src/Veldrid/Vk/VkResourceSet.cs:134-137 | only the set's own counter is decremented; the allocation goes back to the pool, with the layout's counts, exactly when that counter reaches 0 and the set was not yet destroyed |
| ResourceSets.VkResourceSet.DisposeCore | src/Veldrid/Vk/VkResourceSet.cs:139-146 | the allocation is returned on the first call only, and the set is destroyed afterwards |
| ResourceSets.ConstructResourceSet | src/Veldrid/Vk/VkResourceSet.cs:30-122 | the set's counter takes the next id, which is issued whatever the outcome, and on success the set's counter carries it and the set's DescriptorSet is the allocated one; exactly one pool request, with the layout's counts and handle, comes before the walk; a failed request or an unsupported type aborts with no update; on success one batched update with every write and info, and a set with counter 1 that holds the allocation, the consumed counters and the classified textures |

## Left out

- Atomicity of `Interlocked.Increment`/`Decrement` and races between threads: the counter is modelled sequentially.
- The diagnostic `Console.WriteLine` at every 10,000th id: output only.
- `Name` and `SetResourceName`: a naming hook with no logic.
- The internals of `DescriptorPoolManager`: the pool's reply to an allocation is a parameter, whose failure carries the error the pool raised, and `Free` is a logged call.
- `vkCreateDescriptorSetLayout`, `vkDestroyDescriptorSetLayout`, `vkUpdateDescriptorSets` and `CheckResult`: these are foreign calls, logged with their arguments. The driver's reply is a parameter.
- `VkFormats.VdToVkDescriptorType` and `VdToVkShaderStages` are not part of this model. They are function inputs.
- `Util.GetBufferRange`, `Util.GetTextureView` and `Util.AssertSubtype` are not part of this model. A bound resource is already the wrapper its slot expects. A wrong kind is excluded by the `ResourcesFit` precondition, because the code has no check of its own.
- `stackalloc` buffers and raw addresses: the buffers are arrays, and `pBufferInfo`/`pImageInfo` hold the index they address.
- The dispose callback as a first-class `Action`: a counter records how often its action ran. The set's counter reaches `DisposeCore` through `VkResourceSet.Dispose`.
- `src/Veldrid/Vk/Vulkan13.cs` is not part of this model. It is an interop struct with no behaviour.
- RefCounting.ResourceRefCount.Increment: the 32-bit `int` count and the `Interlocked` wrap-around at `int.MaxValue` are not modelled, because integers are unbounded here.
- RefCounting.ResourceIds.constructor: the static id counter's 32-bit wrap-around is not modelled, so ids are strictly increasing without bound.
- ResourceLayouts.CompileElements: the `uint` totals and the `int` dynamic count are unbounded, so their wrap-around is not modelled.
- ResourceSets.ConstructResourceSet: the `IndexOutOfRangeException` for too few bound resources and the cast failure for a resource of the wrong kind are not modelled; the `ResourcesFit` precondition excludes both inputs.
- ResourceSets.ConstructResourceSet: the partially built set on the failure path is not modelled beyond the returned error. The code leaves the pool allocation taken there, and so does the model.

## Findings

| source | as written | input that shows it | evidently intended | confidence | as-written member | corrected member |
|---|---|---|---|---|---|---|
| src/Veldrid/Vk/ResourceRefCount.cs:31 | under `VALIDATE_USAGE`, `Increment` rejects only a new count of 0, an old count of -1 | a fresh counter decremented once: its dispose action has run and it holds 0; an `Increment` then returns 1 with no error | reject an increment on a counter whose dispose action has already run, an old count of 0 or below | medium, not executed | RefCounting.IncrementAfterDisposeIsAccepted | RefCounting.ResourceRefCount.IncrementChecked |
