/**
 * VkResourceSet: builds a descriptor set for a compiled layout and a list of
 * bound resources. It allocates the set from the pool, walks the layout's
 * elements in order with one resource index that advances by each element's
 * array count, fills the buffer or image info slot of every consumed resource,
 * records each consumed resource's counter and classifies the images, and
 * then issues a single batched descriptor update. Disposing the set drops its
 * own reference; the last drop returns the allocation to the pool, once.
 */
module ResourceSets {
  import opened Wrappers
  import opened Vulkan
  import opened RefCounting
  import opened ResourceLayouts

  /** VkTexture, as far as the set needs it: the image a view targets. */
  datatype VkTexture = VkTexture(deviceImage: Handle)

  /** VkBuffer: its native buffer and its counter. */
  datatype VkBuffer = VkBuffer(deviceBuffer: Handle, refCount: ResourceRefCount)

  /** VkTextureView: its native view, the texture it targets and its counter. */
  datatype VkTextureView = VkTextureView(imageView: Handle, target: VkTexture, refCount: ResourceRefCount)

  /** VkSampler: its native sampler and its counter. */
  datatype VkSampler = VkSampler(deviceSampler: Handle, refCount: ResourceRefCount)

  /** A bound resource, already resolved to the Vulkan wrapper its slot expects. */
  datatype BindableResource =
    | BufferRange(buffer: VkBuffer, offset: nat, sizeInBytes: nat)
    | TextureView(view: VkTextureView)
    | Sampler(sampler: VkSampler)

  /** The counter of a bound resource: the one the set records for it. */
  function CounterOf(r: BindableResource): ResourceRefCount {
    match r
    case BufferRange(b, _, _) => b.refCount
    case TextureView(v) => v.refCount
    case Sampler(s) => s.refCount
  }

  predicate IsImageType(t: DescriptorType) {
    t == DescriptorType.SampledImage || t == DescriptorType.StorageImage
  }

  /** The image type whose texture list an element of image type t leaves alone. */
  function OtherImageType(t: DescriptorType): DescriptorType {
    if t == DescriptorType.SampledImage then DescriptorType.StorageImage else DescriptorType.SampledImage
  }

  /** Whether r is what a slot of descriptor type t is cast to. */
  predicate Fits(t: DescriptorType, r: BindableResource) {
    if IsBufferType(t) then r.BufferRange?
    else if IsImageType(t) then r.TextureView?
    else if t == DescriptorType.Sampler then r.Sampler?
    else true
  }

  /**
   * The descriptor type of every resource slot, in resource order: each
   * element's type repeated as many times as its array count.
   */
  function SlotTypes(f: VkFormats, es: seq<ElementDescription>): (r: seq<DescriptorType>)
    ensures |r| == ArrayTotal(es)
    decreases |es|
  {
    if es == [] then []
    else
      var e := es[|es| - 1];
      SlotTypes(f, es[..|es| - 1]) + seq(e.arrayCount, _ => ResolvedType(f, e))
  }

  /** The position of the first element the builder has no branch for, or |es| when there is none. */
  function FirstUnsupported(f: VkFormats, es: seq<ElementDescription>): (u: nat)
    ensures u <= |es|
    ensures forall i :: 0 <= i < u ==> IsSupportedType(ResolvedType(f, es[i]))
    ensures u < |es| ==> !IsSupportedType(ResolvedType(f, es[u]))
    decreases |es|
  {
    if es == [] || !IsSupportedType(ResolvedType(f, es[0])) then 0
    else 1 + FirstUnsupported(f, es[1..])
  }

  /** The slots the walk consumes: those of the elements before the first unsupported one. */
  function UsedSlots(f: VkFormats, es: seq<ElementDescription>): seq<DescriptorType> {
    SlotTypes(f, es[..FirstUnsupported(f, es)])
  }

  /**
   * What the builder demands of its caller: enough resources for every slot
   * it consumes, each of the wrapper type its slot is cast to. Extra
   * resources are ignored.
   */
  predicate ResourcesFit(f: VkFormats, es: seq<ElementDescription>, res: seq<BindableResource>) {
    var slots := UsedSlots(f, es);
    |slots| <= |res| && forall j :: 0 <= j < |slots| ==> Fits(slots[j], res[j])
  }

  function ImageLayoutFor(t: DescriptorType): ImageLayout {
    if t == DescriptorType.SampledImage then ShaderReadOnlyOptimal else General
  }

  /** The buffer info a slot of type t bound to r holds after the walk. */
  function BufferInfoFor(t: DescriptorType, r: BindableResource): BufferInfo {
    if IsBufferType(t) && r.BufferRange? then BufferInfo(r.buffer.deviceBuffer, r.offset, r.sizeInBytes)
    else EmptyBufferInfo
  }

  /** The image info a slot of type t bound to r holds after the walk. */
  function ImageInfoFor(t: DescriptorType, r: BindableResource): ImageInfo {
    if IsImageType(t) && r.TextureView? then ImageInfo(NullHandle, r.view.imageView, ImageLayoutFor(t))
    else if t == DescriptorType.Sampler && r.Sampler? then ImageInfo(r.sampler.deviceSampler, NullHandle, Undefined)
    else EmptyImageInfo
  }

  /** The write record of element i: its binding, count and type, pointing at the element's first slot. */
  function WriteFor(dstSet: Handle, f: VkFormats, es: seq<ElementDescription>, i: nat): WriteDescriptorSet
    requires i < |es|
  {
    var t := ResolvedType(f, es[i]);
    var base := ArrayTotal(es[..i]);
    WriteDescriptorSet(dstSet, i, es[i].arrayCount, t,
                       if IsBufferType(t) then Some(base) else None,
                       if IsImageType(t) || t == DescriptorType.Sampler then Some(base) else None)
  }

  /** The textures targeted by the first k slots of type t, in slot order. */
  function TexturesBoundAs(slots: seq<DescriptorType>, res: seq<BindableResource>, t: DescriptorType, k: nat)
    : seq<VkTexture>
    requires k <= |slots| && k <= |res|
    decreases k
  {
    if k == 0 then []
    else
      TexturesBoundAs(slots, res, t, k - 1)
      + if slots[k - 1] == t && res[k - 1].TextureView? then [res[k - 1].view.target] else []
  }

  /** The number of the first k slots that have type t. */
  function SlotCount(slots: seq<DescriptorType>, t: DescriptorType, k: nat): nat
    requires k <= |slots|
    decreases k
  {
    if k == 0 then 0 else SlotCount(slots, t, k - 1) + if slots[k - 1] == t then 1 else 0
  }

  /** The write records the update receives, one per element. */
  predicate WritesDescribe(writes: seq<WriteDescriptorSet>, dstSet: Handle, f: VkFormats, es: seq<ElementDescription>) {
    |writes| == |es| && forall i :: 0 <= i < |es| ==> writes[i] == WriteFor(dstSet, f, es, i)
  }

  /** The info arrays the update receives: one filled slot per consumed resource, the rest empty. */
  predicate InfosDescribe(bufferInfos: seq<BufferInfo>, imageInfos: seq<ImageInfo>,
                          slots: seq<DescriptorType>, res: seq<BindableResource>) {
    |bufferInfos| == |res| && |imageInfos| == |res| && |slots| <= |res|
    && (forall j :: 0 <= j < |res| ==>
          bufferInfos[j] == if j < |slots| then BufferInfoFor(slots[j], res[j]) else EmptyBufferInfo)
    && (forall j :: 0 <= j < |res| ==>
          imageInfos[j] == if j < |slots| then ImageInfoFor(slots[j], res[j]) else EmptyImageInfo)
  }

  /** The single batched update a successful build issues. */
  predicate UpdateDescribes(call: NativeCall, dstSet: Handle, f: VkFormats, es: seq<ElementDescription>,
                            res: seq<BindableResource>) {
    call.UpdateDescriptorSets? && call.writeCount == |es|
    && WritesDescribe(call.writes, dstSet, f, es)
    && InfosDescribe(call.bufferInfos, call.imageInfos, SlotTypes(f, es), res)
  }

  /** Element i occupies the contiguous slots from the total array count of the elements before it. */
  lemma {:induction false} SlotTypesAt(f: VkFormats, es: seq<ElementDescription>, i: nat)
    requires i < |es|
    ensures ArrayTotal(es[..i + 1]) == ArrayTotal(es[..i]) + es[i].arrayCount
    ensures ArrayTotal(es[..i + 1]) <= ArrayTotal(es)
    ensures forall j :: ArrayTotal(es[..i]) <= j < ArrayTotal(es[..i + 1]) ==> SlotTypes(f, es)[j] == ResolvedType(f, es[i])
    decreases |es|
  {
    var last := |es| - 1;
    var p := es[..last];
    assert es[..i + 1][..i] == es[..i];
    if i == last {
      assert es[..i] == p && es[..i + 1] == es;
    } else {
      assert p[..i] == es[..i] && p[..i + 1] == es[..i + 1] && p[i] == es[i];
      SlotTypesAt(f, p, i);
    }
  }

  /** Slots of types other than t add no texture to the list for t. */
  lemma {:induction false} TexturesSkipOtherSlots(slots: seq<DescriptorType>, res: seq<BindableResource>,
                                                  t: DescriptorType, base: nat, end: nat)
    requires base <= end <= |slots| && end <= |res|
    requires forall j :: base <= j < end ==> slots[j] != t
    ensures TexturesBoundAs(slots, res, t, end) == TexturesBoundAs(slots, res, t, base)
    decreases end
  {
    if base < end {
      TexturesSkipOtherSlots(slots, res, t, base, end - 1);
    }
  }

  /** With every slot of type t bound to a view, the list for t has one texture per such slot. */
  lemma {:induction false} TexturesCountSlots(slots: seq<DescriptorType>, res: seq<BindableResource>,
                                              t: DescriptorType, k: nat)
    requires k <= |slots| && k <= |res|
    requires forall j :: 0 <= j < k && slots[j] == t ==> res[j].TextureView?
    ensures |TexturesBoundAs(slots, res, t, k)| == SlotCount(slots, t, k)
    decreases k
  {
    if k > 0 {
      TexturesCountSlots(slots, res, t, k - 1);
    }
  }

  lemma {:induction false} SlotCountPrefix(a: seq<DescriptorType>, b: seq<DescriptorType>, t: DescriptorType, k: nat)
    requires k <= |a|
    ensures SlotCount(a + b, t, k) == SlotCount(a, t, k)
    decreases k
  {
    if k > 0 {
      SlotCountPrefix(a, b, t, k - 1);
    }
  }

  lemma {:induction false} SlotCountRun(a: seq<DescriptorType>, t0: DescriptorType, n: nat, t: DescriptorType, k: nat)
    requires k <= n
    ensures SlotCount(a + seq(n, _ => t0), t, |a| + k) == SlotCount(a, t, |a|) + if t0 == t then k else 0
    decreases k
  {
    if k == 0 {
      SlotCountPrefix(a, seq(n, _ => t0), t, |a|);
    } else {
      SlotCountRun(a, t0, n, t, k - 1);
    }
  }

  /** The number of slots of type t is the layout's total for t. */
  lemma {:induction false} SlotCountIsKindTotal(f: VkFormats, es: seq<ElementDescription>, t: DescriptorType)
    ensures SlotCount(SlotTypes(f, es), t, ArrayTotal(es)) == KindTotal(f, es, t)
    decreases |es|
  {
    if es != [] {
      var p := es[..|es| - 1];
      var e := es[|es| - 1];
      SlotCountIsKindTotal(f, p, t);
      SlotCountRun(SlotTypes(f, p), ResolvedType(f, e), e.arrayCount, t, e.arrayCount);
    }
  }

  lemma {:induction false} NoUncountedBeforeFirstUnsupported(f: VkFormats, es: seq<ElementDescription>)
    requires FirstUnsupported(f, es) == |es|
    ensures UncountedTotal(f, es) == 0
    decreases |es|
  {
    if es != [] {
      var p := es[..|es| - 1];
      assert forall i :: 0 <= i < |p| ==> p[i] == es[i];
      assert FirstUnsupported(f, p) == |p| by {
        FirstUnsupportedAllSupported(f, p);
      }
      NoUncountedBeforeFirstUnsupported(f, p);
    }
  }

  lemma {:induction false} FirstUnsupportedAllSupported(f: VkFormats, es: seq<ElementDescription>)
    requires forall i :: 0 <= i < |es| ==> IsSupportedType(ResolvedType(f, es[i]))
    ensures FirstUnsupported(f, es) == |es|
    decreases |es|
  {
    if es != [] {
      FirstUnsupportedAllSupported(f, es[1..]);
    }
  }

  /**
   * When every element is of a supported type, the resources a set consumes
   * are exactly as many as the descriptors its pool allocation was sized for.
   */
  lemma ConsumedMatchesAllocation(f: VkFormats, es: seq<ElementDescription>)
    requires FirstUnsupported(f, es) == |es|
    ensures |SlotTypes(f, es)| == CountsSum(CountsOf(f, es))
  {
    NoUncountedBeforeFirstUnsupported(f, es);
    CountsCoverArrayTotal(f, es);
  }

  /**
   * The sampled-texture and storage-texture lists of a built set have as
   * many entries as the layout counts sampled and storage images.
   */
  lemma ClassifiedTexturesMatchCounts(f: VkFormats, es: seq<ElementDescription>, res: seq<BindableResource>)
    requires FirstUnsupported(f, es) == |es| && ResourcesFit(f, es, res)
    ensures ArrayTotal(es) <= |res|
    ensures |TexturesBoundAs(SlotTypes(f, es), res, DescriptorType.SampledImage, ArrayTotal(es))|
            == CountsOf(f, es).sampledImageCount
    ensures |TexturesBoundAs(SlotTypes(f, es), res, DescriptorType.StorageImage, ArrayTotal(es))|
            == CountsOf(f, es).storageImageCount
  {
    assert es[..|es|] == es;
    var slots := SlotTypes(f, es);
    TexturesCountSlots(slots, res, DescriptorType.SampledImage, |slots|);
    TexturesCountSlots(slots, res, DescriptorType.StorageImage, |slots|);
    SlotCountIsKindTotal(f, es, DescriptorType.SampledImage);
    SlotCountIsKindTotal(f, es, DescriptorType.StorageImage);
  }

  /**
   * The buffer infos after the walk has consumed the first k slots: those
   * slots hold what their types say, the others are still empty.
   */
  ghost predicate BufferInfosUpTo(infos: seq<BufferInfo>, slots: seq<DescriptorType>,
                                  res: seq<BindableResource>, k: nat)
  {
    k <= |slots| <= |res| && |infos| == |res|
    && forall j :: 0 <= j < |res| ==>
         infos[j] == if j < k then BufferInfoFor(slots[j], res[j]) else EmptyBufferInfo
  }

  /** The image infos after the walk has consumed the first k slots. */
  ghost predicate ImageInfosUpTo(infos: seq<ImageInfo>, slots: seq<DescriptorType>,
                                 res: seq<BindableResource>, k: nat)
  {
    k <= |slots| <= |res| && |infos| == |res|
    && forall j :: 0 <= j < |res| ==>
         infos[j] == if j < k then ImageInfoFor(slots[j], res[j]) else EmptyImageInfo
  }

  lemma BufferInfosStep(infos: seq<BufferInfo>, slots: seq<DescriptorType>, res: seq<BindableResource>, k: nat)
    requires BufferInfosUpTo(infos, slots, res, k) && k < |slots|
    ensures BufferInfosUpTo(infos[k := BufferInfoFor(slots[k], res[k])], slots, res, k + 1)
  {
  }

  lemma ImageInfosStep(infos: seq<ImageInfo>, slots: seq<DescriptorType>, res: seq<BindableResource>, k: nat)
    requires ImageInfosUpTo(infos, slots, res, k) && k < |slots|
    ensures ImageInfosUpTo(infos[k := ImageInfoFor(slots[k], res[k])], slots, res, k + 1)
  {
  }

  /** Consuming slots of non-buffer types leaves the buffer infos as they are. */
  lemma BufferInfosSkip(infos: seq<BufferInfo>, slots: seq<DescriptorType>,
                        res: seq<BindableResource>, base: nat, end: nat)
    requires BufferInfosUpTo(infos, slots, res, base) && base <= end <= |slots|
    requires forall j :: base <= j < end ==> !IsBufferType(slots[j])
    ensures BufferInfosUpTo(infos, slots, res, end)
  {
  }

  /** Consuming slots of buffer types leaves the image infos as they are. */
  lemma ImageInfosSkip(infos: seq<ImageInfo>, slots: seq<DescriptorType>,
                       res: seq<BindableResource>, base: nat, end: nat)
    requires ImageInfosUpTo(infos, slots, res, base) && base <= end <= |slots|
    requires forall j :: base <= j < end ==> IsBufferType(slots[j])
    ensures ImageInfosUpTo(infos, slots, res, end)
  {
  }

  /** The counters recorded after the first k resources were consumed: theirs, in order. */
  ghost predicate CountersUpTo(refCounts: seq<ResourceRefCount>, res: seq<BindableResource>, k: nat) {
    k <= |res| && |refCounts| == k && forall j :: 0 <= j < k ==> refCounts[j] == CounterOf(res[j])
  }

  lemma CountersStep(refCounts: seq<ResourceRefCount>, res: seq<BindableResource>, k: nat)
    requires CountersUpTo(refCounts, res, k) && k < |res|
    ensures CountersUpTo(refCounts + [CounterOf(res[k])], res, k + 1)
  {
  }

  lemma TexturesStep(slots: seq<DescriptorType>, res: seq<BindableResource>, t: DescriptorType, k: nat)
    requires k < |slots| && k < |res| && slots[k] == t && res[k].TextureView?
    ensures TexturesBoundAs(slots, res, t, k + 1) == TexturesBoundAs(slots, res, t, k) + [res[k].view.target]
  {
  }

  /** The buffer branch of the walk: fills count buffer infos from base and records each buffer's counter. */
  method WriteBufferInfos(bufferInfos: array<BufferInfo>, imageInfos: array<ImageInfo>, res: seq<BindableResource>,
                          ghost slots: seq<DescriptorType>, base: nat, count: nat, refCounts: seq<ResourceRefCount>)
    returns (resourceIndex: nat, counters: seq<ResourceRefCount>)
    requires BufferInfosUpTo(bufferInfos[..], slots, res, base) && ImageInfosUpTo(imageInfos[..], slots, res, base)
    requires base + count <= |slots|
    requires forall j :: base <= j < base + count ==> IsBufferType(slots[j]) && Fits(slots[j], res[j])
    requires CountersUpTo(refCounts, res, base)
    modifies bufferInfos
    ensures resourceIndex == base + count
    ensures BufferInfosUpTo(bufferInfos[..], slots, res, resourceIndex)
    ensures ImageInfosUpTo(imageInfos[..], slots, res, resourceIndex)
    ensures CountersUpTo(counters, res, resourceIndex)
    ensures TexturesBoundAs(slots, res, DescriptorType.SampledImage, resourceIndex)
            == TexturesBoundAs(slots, res, DescriptorType.SampledImage, base)
    ensures TexturesBoundAs(slots, res, DescriptorType.StorageImage, resourceIndex)
            == TexturesBoundAs(slots, res, DescriptorType.StorageImage, base)
  {
    resourceIndex, counters := base, refCounts;
    var arrIndex := 0;
    while arrIndex < count
      invariant 0 <= arrIndex <= count && resourceIndex == base + arrIndex
      invariant BufferInfosUpTo(bufferInfos[..], slots, res, resourceIndex)
      invariant CountersUpTo(counters, res, resourceIndex)
    {
      var range := res[resourceIndex];
      var buffer := range.buffer;
      ghost var before := bufferInfos[..];
      bufferInfos[resourceIndex] := BufferInfo(buffer.deviceBuffer, range.offset, range.sizeInBytes);
      assert bufferInfos[..] == before[resourceIndex := BufferInfoFor(slots[resourceIndex], res[resourceIndex])];
      BufferInfosStep(before, slots, res, resourceIndex);
      CountersStep(counters, res, resourceIndex);
      counters := counters + [buffer.refCount];
      resourceIndex := resourceIndex + 1;
      arrIndex := arrIndex + 1;
    }
    ImageInfosSkip(imageInfos[..], slots, res, base, resourceIndex);
    TexturesSkipOtherSlots(slots, res, DescriptorType.SampledImage, base, resourceIndex);
    TexturesSkipOtherSlots(slots, res, DescriptorType.StorageImage, base, resourceIndex);
  }

  /** One slot of an image branch: the view's image info, its texture and its counter. */
  method WriteImageSlot(imageInfos: array<ImageInfo>, res: seq<BindableResource>, ghost slots: seq<DescriptorType>,
                        ghost t: DescriptorType, imageLayout: ImageLayout, k: nat,
                        counters: seq<ResourceRefCount>, textures: seq<VkTexture>)
    returns (counters': seq<ResourceRefCount>, textures': seq<VkTexture>)
    requires IsImageType(t) && imageLayout == ImageLayoutFor(t)
    requires k < |slots| <= |res| && slots[k] == t && Fits(t, res[k])
    requires ImageInfosUpTo(imageInfos[..], slots, res, k) && CountersUpTo(counters, res, k)
    requires textures == TexturesBoundAs(slots, res, t, k)
    modifies imageInfos
    ensures ImageInfosUpTo(imageInfos[..], slots, res, k + 1) && CountersUpTo(counters', res, k + 1)
    ensures textures' == TexturesBoundAs(slots, res, t, k + 1)
  {
    var texView := res[k].view;
    ghost var before := imageInfos[..];
    imageInfos[k] := imageInfos[k].(imageView := texView.imageView, imageLayout := imageLayout);
    assert imageInfos[..] == before[k := ImageInfoFor(slots[k], res[k])];
    ImageInfosStep(before, slots, res, k);
    TexturesStep(slots, res, t, k);
    CountersStep(counters, res, k);
    textures' := textures + [texView.target];
    counters' := counters + [texView.refCount];
  }

  /**
   * The sampled-image and storage-image branches of the walk: fills count
   * image infos from base with the given image layout, lists each view's
   * texture and records each view's counter.
   */
  method WriteImageInfos(bufferInfos: array<BufferInfo>, imageInfos: array<ImageInfo>, res: seq<BindableResource>,
                         ghost slots: seq<DescriptorType>, ghost t: DescriptorType, imageLayout: ImageLayout,
                         base: nat, count: nat, refCounts: seq<ResourceRefCount>, textures: seq<VkTexture>)
    returns (resourceIndex: nat, counters: seq<ResourceRefCount>, textures': seq<VkTexture>)
    requires IsImageType(t) && imageLayout == ImageLayoutFor(t)
    requires BufferInfosUpTo(bufferInfos[..], slots, res, base) && ImageInfosUpTo(imageInfos[..], slots, res, base)
    requires base + count <= |slots|
    requires forall j :: base <= j < base + count ==> slots[j] == t && Fits(slots[j], res[j])
    requires CountersUpTo(refCounts, res, base)
    requires textures == TexturesBoundAs(slots, res, t, base)
    modifies imageInfos
    ensures resourceIndex == base + count
    ensures BufferInfosUpTo(bufferInfos[..], slots, res, resourceIndex)
    ensures ImageInfosUpTo(imageInfos[..], slots, res, resourceIndex)
    ensures CountersUpTo(counters, res, resourceIndex)
    ensures textures' == TexturesBoundAs(slots, res, t, resourceIndex)
    ensures TexturesBoundAs(slots, res, OtherImageType(t), resourceIndex)
            == TexturesBoundAs(slots, res, OtherImageType(t), base)
  {
    resourceIndex, counters, textures' := base, refCounts, textures;
    var arrIndex := 0;
    while arrIndex < count
      invariant 0 <= arrIndex <= count && resourceIndex == base + arrIndex
      invariant ImageInfosUpTo(imageInfos[..], slots, res, resourceIndex)
      invariant CountersUpTo(counters, res, resourceIndex)
      invariant textures' == TexturesBoundAs(slots, res, t, resourceIndex)
    {
      counters, textures' := WriteImageSlot(imageInfos, res, slots, t, imageLayout, resourceIndex, counters, textures');
      resourceIndex := resourceIndex + 1;
      arrIndex := arrIndex + 1;
    }
    BufferInfosSkip(bufferInfos[..], slots, res, base, resourceIndex);
    TexturesSkipOtherSlots(slots, res, OtherImageType(t), base, resourceIndex);
  }

  /** The sampler branch of the walk: stores count samplers from base and records each sampler's counter. */
  method WriteSamplerInfos(bufferInfos: array<BufferInfo>, imageInfos: array<ImageInfo>, res: seq<BindableResource>,
                           ghost slots: seq<DescriptorType>, base: nat, count: nat, refCounts: seq<ResourceRefCount>)
    returns (resourceIndex: nat, counters: seq<ResourceRefCount>)
    requires BufferInfosUpTo(bufferInfos[..], slots, res, base) && ImageInfosUpTo(imageInfos[..], slots, res, base)
    requires base + count <= |slots|
    requires forall j :: base <= j < base + count ==> slots[j] == DescriptorType.Sampler && Fits(slots[j], res[j])
    requires CountersUpTo(refCounts, res, base)
    modifies imageInfos
    ensures resourceIndex == base + count
    ensures BufferInfosUpTo(bufferInfos[..], slots, res, resourceIndex)
    ensures ImageInfosUpTo(imageInfos[..], slots, res, resourceIndex)
    ensures CountersUpTo(counters, res, resourceIndex)
    ensures TexturesBoundAs(slots, res, DescriptorType.SampledImage, resourceIndex)
            == TexturesBoundAs(slots, res, DescriptorType.SampledImage, base)
    ensures TexturesBoundAs(slots, res, DescriptorType.StorageImage, resourceIndex)
            == TexturesBoundAs(slots, res, DescriptorType.StorageImage, base)
  {
    resourceIndex, counters := base, refCounts;
    var arrIndex := 0;
    while arrIndex < count
      invariant 0 <= arrIndex <= count && resourceIndex == base + arrIndex
      invariant ImageInfosUpTo(imageInfos[..], slots, res, resourceIndex)
      invariant CountersUpTo(counters, res, resourceIndex)
    {
      var sampler := res[resourceIndex].sampler;
      ghost var before := imageInfos[..];
      imageInfos[resourceIndex] := imageInfos[resourceIndex].(sampler := sampler.deviceSampler);
      assert imageInfos[..] == before[resourceIndex := ImageInfoFor(slots[resourceIndex], res[resourceIndex])];
      ImageInfosStep(before, slots, res, resourceIndex);
      CountersStep(counters, res, resourceIndex);
      counters := counters + [sampler.refCount];
      resourceIndex := resourceIndex + 1;
      arrIndex := arrIndex + 1;
    }
    BufferInfosSkip(bufferInfos[..], slots, res, base, resourceIndex);
    TexturesSkipOtherSlots(slots, res, DescriptorType.SampledImage, base, resourceIndex);
    TexturesSkipOtherSlots(slots, res, DescriptorType.StorageImage, base, resourceIndex);
  }

  /** The slots of element i, for an element before the first unsupported one u. */
  lemma ElementSlots(f: VkFormats, es: seq<ElementDescription>, u: nat, i: nat)
    requires i < u <= |es|
    ensures ArrayTotal(es[..i + 1]) == ArrayTotal(es[..i]) + es[i].arrayCount
    ensures ArrayTotal(es[..i + 1]) <= |SlotTypes(f, es[..u])|
    ensures forall j :: ArrayTotal(es[..i]) <= j < ArrayTotal(es[..i + 1]) ==>
              SlotTypes(f, es[..u])[j] == ResolvedType(f, es[i])
  {
    assert es[..u][..i] == es[..i] && es[..u][..i + 1] == es[..i + 1] && es[..u][i] == es[i];
    SlotTypesAt(f, es[..u], i);
  }

  /** The write records after the walk has handled the first i elements. */
  ghost predicate WritesUpTo(writes: seq<WriteDescriptorSet>, dstSet: Handle, f: VkFormats,
                             es: seq<ElementDescription>, i: nat)
  {
    i <= |es| && |writes| == |es| && forall k :: 0 <= k < i ==> writes[k] == WriteFor(dstSet, f, es, k)
  }

  lemma WritesStep(writes: seq<WriteDescriptorSet>, dstSet: Handle, f: VkFormats, es: seq<ElementDescription>, i: nat)
    requires WritesUpTo(writes, dstSet, f, es, i) && i < |es|
    ensures WritesUpTo(writes[i := WriteFor(dstSet, f, es, i)], dstSet, f, es, i + 1)
  {
  }

  /**
   * The slot-side state of the walk after its first k slots: the info slots,
   * the counters and the texture lists cover exactly those slots.
   */
  ghost predicate SlotsWalked(slots: seq<DescriptorType>, res: seq<BindableResource>, k: nat,
                              bufferInfos: seq<BufferInfo>, imageInfos: seq<ImageInfo>,
                              refCounts: seq<ResourceRefCount>,
                              sampledTextures: seq<VkTexture>, storageTextures: seq<VkTexture>)
  {
    BufferInfosUpTo(bufferInfos, slots, res, k)
    && ImageInfosUpTo(imageInfos, slots, res, k)
    && CountersUpTo(refCounts, res, k)
    && sampledTextures == TexturesBoundAs(slots, res, DescriptorType.SampledImage, k)
    && storageTextures == TexturesBoundAs(slots, res, DescriptorType.StorageImage, k)
  }

  /**
   * The state of the walk after its first i elements, as values: every
   * element before i has its write record, and resourceIndex is the number
   * of slots those elements take, all of them consumed.
   */
  ghost predicate Walked(dstSet: Handle, f: VkFormats, es: seq<ElementDescription>, slots: seq<DescriptorType>,
                         res: seq<BindableResource>, i: nat, resourceIndex: nat, writes: seq<WriteDescriptorSet>,
                         bufferInfos: seq<BufferInfo>, imageInfos: seq<ImageInfo>, refCounts: seq<ResourceRefCount>,
                         sampledTextures: seq<VkTexture>, storageTextures: seq<VkTexture>)
  {
    WritesUpTo(writes, dstSet, f, es, i) && resourceIndex == ArrayTotal(es[..i])
    && SlotsWalked(slots, res, resourceIndex, bufferInfos, imageInfos, refCounts, sampledTextures, storageTextures)
  }

  /**
   * The branches of the walk for one element of supported type t: its count
   * slots from base are consumed by the loop for t.
   */
  method ConsumeSlots(ghost slots: seq<DescriptorType>, res: seq<BindableResource>, t: DescriptorType, count: nat,
                      bufferInfos: array<BufferInfo>, imageInfos: array<ImageInfo>, base: nat,
                      refCounts: seq<ResourceRefCount>, sampledTextures: seq<VkTexture>, storageTextures: seq<VkTexture>)
    returns (resourceIndex: nat, refCounts': seq<ResourceRefCount>,
             sampledTextures': seq<VkTexture>, storageTextures': seq<VkTexture>)
    requires IsSupportedType(t) && base + count <= |slots| <= |res|
    requires forall j :: base <= j < base + count ==> slots[j] == t && Fits(slots[j], res[j])
    requires SlotsWalked(slots, res, base, bufferInfos[..], imageInfos[..], refCounts, sampledTextures, storageTextures)
    modifies bufferInfos, imageInfos
    ensures resourceIndex == base + count
    ensures SlotsWalked(slots, res, resourceIndex, bufferInfos[..], imageInfos[..],
                        refCounts', sampledTextures', storageTextures')
  {
    sampledTextures', storageTextures' := sampledTextures, storageTextures;
    if IsBufferType(t) {
      resourceIndex, refCounts' := WriteBufferInfos(bufferInfos, imageInfos, res, slots, base, count, refCounts);
    } else if t == DescriptorType.SampledImage {
      resourceIndex, refCounts', sampledTextures' := WriteImageInfos(
        bufferInfos, imageInfos, res, slots, t, ShaderReadOnlyOptimal, base, count, refCounts, sampledTextures);
    } else if t == DescriptorType.StorageImage {
      resourceIndex, refCounts', storageTextures' := WriteImageInfos(
        bufferInfos, imageInfos, res, slots, t, General, base, count, refCounts, storageTextures);
    } else {
      resourceIndex, refCounts' := WriteSamplerInfos(bufferInfos, imageInfos, res, slots, base, count, refCounts);
    }
  }

  /**
   * The write record of element i, of supported type t: its binding, count
   * and type, with pBufferInfo set for a buffer type and
   * pImageInfo otherwise, both at the element's first slot.
   */
  method WriteRecord(ghost f: VkFormats, ghost es: seq<ElementDescription>, dstSet: Handle, i: nat,
                     t: DescriptorType, count: nat, writes: array<WriteDescriptorSet>, baseResourceIndex: nat)
    requires WritesUpTo(writes[..], dstSet, f, es, i) && i < |es|
    requires t == ResolvedType(f, es[i]) && IsSupportedType(t) && count == es[i].arrayCount
    requires baseResourceIndex == ArrayTotal(es[..i])
    modifies writes
    ensures WritesUpTo(writes[..], dstSet, f, es, i + 1)
    ensures forall k :: i < k < writes.Length ==> writes[k] == old(writes[k])
  {
    var write := WriteDescriptorSet(dstSet, i, count, t, None, None);
    if IsBufferType(t) {
      write := write.(bufferInfo := Some(baseResourceIndex));
    } else {
      write := write.(imageInfo := Some(baseResourceIndex));
    }
    ghost var before := writes[..];
    writes[i] := write;
    assert writes[..] == before[i := WriteFor(dstSet, f, es, i)];
    WritesStep(before, dstSet, f, es, i);
  }

  /**
   * One iteration of the walk: element i, of descriptor type t and array
   * count count, has its slots consumed by the branch for its type and gets
   * its write record, whose info field addresses the element's first slot. A type
   * with no branch is reported and nothing is consumed.
   */
  method WriteElement(ghost f: VkFormats, ghost es: seq<ElementDescription>, ghost slots: seq<DescriptorType>,
                      res: seq<BindableResource>, dstSet: Handle, i: nat, t: DescriptorType, count: nat,
                      writes: array<WriteDescriptorSet>, bufferInfos: array<BufferInfo>, imageInfos: array<ImageInfo>,
                      resourceIndex: nat, refCounts: seq<ResourceRefCount>,
                      sampledTextures: seq<VkTexture>, storageTextures: seq<VkTexture>)
    returns (failure: Option<VkError>, resourceIndex': nat, refCounts': seq<ResourceRefCount>,
             sampledTextures': seq<VkTexture>, storageTextures': seq<VkTexture>)
    requires i < |es| && i <= FirstUnsupported(f, es) && slots == UsedSlots(f, es)
    requires t == ResolvedType(f, es[i]) && count == es[i].arrayCount
    requires |slots| <= |res| && forall j :: 0 <= j < |slots| ==> Fits(slots[j], res[j])
    requires Walked(dstSet, f, es, slots, res, i, resourceIndex, writes[..], bufferInfos[..], imageInfos[..],
                    refCounts, sampledTextures, storageTextures)
    modifies writes, bufferInfos, imageInfos
    ensures failure == if IsSupportedType(t) then None else Some(UnsupportedDescriptorType(t))
    ensures if failure.None? then i < FirstUnsupported(f, es) else i == FirstUnsupported(f, es)
    ensures failure.None? ==>
              Walked(dstSet, f, es, slots, res, i + 1, resourceIndex', writes[..], bufferInfos[..], imageInfos[..],
                     refCounts', sampledTextures', storageTextures')
  {
    failure, resourceIndex', refCounts', sampledTextures', storageTextures'
      := None, resourceIndex, refCounts, sampledTextures, storageTextures;
    if !IsSupportedType(t) {
      failure := Some(UnsupportedDescriptorType(t));
      return;
    }
    ElementSlots(f, es, FirstUnsupported(f, es), i);
    var baseResourceIndex := resourceIndex;
    resourceIndex', refCounts', sampledTextures', storageTextures' := ConsumeSlots(
      slots, res, t, count, bufferInfos, imageInfos, resourceIndex, refCounts, sampledTextures, storageTextures);
    WriteRecord(f, es, dstSet, i, t, count, writes, baseResourceIndex);
  }

  /** A walk over every element has described every element and consumed every slot. */
  lemma WalkedDescribes(dstSet: Handle, f: VkFormats, es: seq<ElementDescription>, res: seq<BindableResource>,
                        writes: seq<WriteDescriptorSet>, bufferInfos: seq<BufferInfo>, imageInfos: seq<ImageInfo>,
                        refCounts: seq<ResourceRefCount>, sampledTextures: seq<VkTexture>, storageTextures: seq<VkTexture>)
    requires FirstUnsupported(f, es) == |es|
    requires Walked(dstSet, f, es, UsedSlots(f, es), res, |es|, ArrayTotal(es), writes, bufferInfos, imageInfos,
                    refCounts, sampledTextures, storageTextures)
    ensures ArrayTotal(es) <= |res|
    ensures WritesDescribe(writes, dstSet, f, es)
    ensures InfosDescribe(bufferInfos, imageInfos, SlotTypes(f, es), res)
    ensures |refCounts| == ArrayTotal(es) && forall j :: 0 <= j < |refCounts| ==> refCounts[j] == CounterOf(res[j])
    ensures sampledTextures == TexturesBoundAs(SlotTypes(f, es), res, DescriptorType.SampledImage, ArrayTotal(es))
    ensures storageTextures == TexturesBoundAs(SlotTypes(f, es), res, DescriptorType.StorageImage, ArrayTotal(es))
  {
    assert es[..|es|] == es;
  }

  /**
   * The loop of the constructor's element walk over the layout's element
   * descriptions es and their compiled types. It stops at the first element
   * whose type has no branch; otherwise every element has been walked.
   */
  method WalkElements(ghost f: VkFormats, es: seq<ElementDescription>, types: seq<DescriptorType>,
                      res: seq<BindableResource>, dstSet: Handle, writes: array<WriteDescriptorSet>,
                      bufferInfos: array<BufferInfo>, imageInfos: array<ImageInfo>)
    returns (failure: Option<VkError>, refCounts: seq<ResourceRefCount>,
             sampledTextures: seq<VkTexture>, storageTextures: seq<VkTexture>)
    requires |types| == |es| && forall k :: 0 <= k < |es| ==> types[k] == ResolvedType(f, es[k])
    requires ResourcesFit(f, es, res)
    requires writes.Length == |es| && forall k :: 0 <= k < |es| ==> writes[k] == EmptyWrite
    requires bufferInfos.Length == |res| && forall j :: 0 <= j < |res| ==> bufferInfos[j] == EmptyBufferInfo
    requires imageInfos.Length == |res| && forall j :: 0 <= j < |res| ==> imageInfos[j] == EmptyImageInfo
    modifies writes, bufferInfos, imageInfos
    ensures var u := FirstUnsupported(f, es);
            failure == if u < |es| then Some(UnsupportedDescriptorType(ResolvedType(f, es[u]))) else None
    ensures failure.None? ==>
              && ArrayTotal(es) <= |res|
              && WritesDescribe(writes[..], dstSet, f, es)
              && InfosDescribe(bufferInfos[..], imageInfos[..], SlotTypes(f, es), res)
              && |refCounts| == ArrayTotal(es)
              && (forall j :: 0 <= j < |refCounts| ==> refCounts[j] == CounterOf(res[j]))
              && sampledTextures == TexturesBoundAs(SlotTypes(f, es), res, DescriptorType.SampledImage, ArrayTotal(es))
              && storageTextures == TexturesBoundAs(SlotTypes(f, es), res, DescriptorType.StorageImage, ArrayTotal(es))
  {
    refCounts, sampledTextures, storageTextures := [], [], [];
    failure := None;
    ghost var slots := UsedSlots(f, es);
    assert es[..0] == [];
    var resourceIndex := 0;
    var i := 0;
    while i < |es|
      invariant 0 <= i <= FirstUnsupported(f, es) && failure == None
      invariant Walked(dstSet, f, es, slots, res, i, resourceIndex, writes[..], bufferInfos[..],
                       imageInfos[..], refCounts, sampledTextures, storageTextures)
    {
      failure, resourceIndex, refCounts, sampledTextures, storageTextures := WriteElement(
        f, es, slots, res, dstSet, i, types[i], es[i].arrayCount, writes, bufferInfos, imageInfos,
        resourceIndex, refCounts, sampledTextures, storageTextures);
      if failure.Some? {
        return;
      }
      i := i + 1;
    }
    assert es[..i] == es;
    WalkedDescribes(dstSet, f, es, res, writes[..], bufferInfos[..], imageInfos[..],
                    refCounts, sampledTextures, storageTextures);
  }

  /**
   * The constructor's element walk. On success every element has its write
   * record, every consumed resource its info slot and its counter, in
   * consumption order, and the views are classified. The first element whose
   * type has no branch stops the walk with an error.
   */
  method WriteDescriptors(layout: VkResourceLayout, boundResources: seq<BindableResource>, dstSet: Handle)
    returns (failure: Option<VkError>, writes: array<WriteDescriptorSet>,
             bufferInfos: array<BufferInfo>, imageInfos: array<ImageInfo>,
             refCounts: seq<ResourceRefCount>, sampledTextures: seq<VkTexture>, storageTextures: seq<VkTexture>)
    requires layout.Valid()
    requires ResourcesFit(layout.formats, layout.description, boundResources)
    ensures var f, es := layout.formats, layout.description;
            var u := FirstUnsupported(f, es);
            failure == if u < |es| then Some(UnsupportedDescriptorType(ResolvedType(f, es[u]))) else None
    ensures failure.None? ==>
              var f, es := layout.formats, layout.description;
              && ArrayTotal(es) <= |boundResources|
              && WritesDescribe(writes[..], dstSet, f, es)
              && InfosDescribe(bufferInfos[..], imageInfos[..], SlotTypes(f, es), boundResources)
              && |refCounts| == ArrayTotal(es)
              && (forall j :: 0 <= j < |refCounts| ==> refCounts[j] == CounterOf(boundResources[j]))
              && sampledTextures == TexturesBoundAs(SlotTypes(f, es), boundResources, DescriptorType.SampledImage, ArrayTotal(es))
              && storageTextures == TexturesBoundAs(SlotTypes(f, es), boundResources, DescriptorType.StorageImage, ArrayTotal(es))
  {
    var es := layout.description;
    var types := layout.descriptorTypes[..];
    writes := new WriteDescriptorSet[|es|](_ => EmptyWrite);
    bufferInfos := new BufferInfo[|boundResources|](_ => EmptyBufferInfo);
    imageInfos := new ImageInfo[|boundResources|](_ => EmptyImageInfo);
    failure, refCounts, sampledTextures, storageTextures := WalkElements(
      layout.formats, es, types, boundResources, dstSet, writes, bufferInfos, imageInfos);
  }

  class VkResourceSet {
    const layout: VkResourceLayout
    const descriptorCounts: DescriptorResourceCounts
    const descriptorAllocationToken: DescriptorAllocationToken
    /** The set's own counter; its dispose action is DisposeCore. */
    const refCount: ResourceRefCount
    /** The counter of every consumed resource, in consumption order. */
    const refCounts: seq<ResourceRefCount>
    const sampledTextures: seq<VkTexture>
    const storageTextures: seq<VkTexture>
    var destroyed: bool
    /** How many times the allocation has been returned to the pool. */
    ghost var freeCalls: nat

    /**
     * The set is torn down exactly when its counter has run its dispose
     * action, and its allocation has then been returned once.
     */
    ghost predicate Valid()
      reads this, refCount
    {
      refCount.Valid()
      && (destroyed <==> refCount.disposeCalls > 0)
      && freeCalls == if destroyed then 1 else 0
    }

    constructor (layout: VkResourceLayout, counts: DescriptorResourceCounts, token: DescriptorAllocationToken,
                 refCount: ResourceRefCount, refCounts: seq<ResourceRefCount>,
                 sampledTextures: seq<VkTexture>, storageTextures: seq<VkTexture>)
      requires refCount.Valid() && refCount.disposeCalls == 0
      ensures Valid() && !destroyed && freeCalls == 0
      ensures this.layout == layout && descriptorCounts == counts && descriptorAllocationToken == token
      ensures this.refCount == refCount && this.refCounts == refCounts
      ensures this.sampledTextures == sampledTextures && this.storageTextures == storageTextures
    {
      this.layout := layout;
      descriptorCounts := counts;
      descriptorAllocationToken := token;
      this.refCount := refCount;
      this.refCounts := refCounts;
      this.sampledTextures := sampledTextures;
      this.storageTextures := storageTextures;
      destroyed := false;
      freeCalls := 0;
    }

    /** The native descriptor set: the one the pool allocated for this set. */
    function DescriptorSet(): Handle {
      descriptorAllocationToken.descriptorSet
    }

    /** Whether the set has been torn down: for a valid set, whether its counter has run its dispose action. */
    predicate IsDisposed()
      reads this, refCount
      ensures Valid() ==> (IsDisposed() <==> refCount.disposeCalls > 0)
    {
      destroyed
    }

    /**
     * Drops the set's own reference. When that was the last one, the dispose
     * action runs: the allocation goes back to the pool, unless it already has.
     * The counters of the bound resources are not touched.
     */
    method Dispose(gd: GraphicsDevice)
      requires Valid()
      modifies this, refCount, gd
      ensures Valid()
      ensures refCount.history == old(refCount.history) + [Release]
      ensures refCount.refCount == old(refCount.refCount) - 1
      ensures destroyed == (old(destroyed) || refCount.refCount == 0)
      ensures gd.calls == old(gd.calls) + if !old(destroyed) && refCount.refCount == 0
                                          then [FreeDescriptorSet(descriptorAllocationToken, descriptorCounts)]
                                          else []
    {
      var ret := refCount.Decrement();
      if ret == 0 {
        DisposeCore(gd);
      }
    }

    /** Returns the allocation and its counts to the pool, on the first call only. */
    method DisposeCore(gd: GraphicsDevice)
      modifies this, gd
      ensures destroyed
      ensures freeCalls == if old(destroyed) then old(freeCalls) else old(freeCalls) + 1
      ensures gd.calls == old(gd.calls) + if old(destroyed) then []
                                          else [FreeDescriptorSet(descriptorAllocationToken, descriptorCounts)]
    {
      if !destroyed {
        destroyed := true;
        freeCalls := freeCalls + 1;
        gd.FreeDescriptorSet(descriptorAllocationToken, descriptorCounts);
      }
    }
  }

  /** The pool request a set built on layout makes. */
  function AllocationCall(layout: VkResourceLayout, poolReply: Result<DescriptorAllocationToken, VkError>): NativeCall {
    AllocateDescriptorSet(layout.descriptorResourceCounts, layout.descriptorSetLayout, poolReply)
  }

  /**
   * The VkResourceSet constructor. The set's counter is created first; the
   * pool allocation is requested once, with the layout's counts and handle,
   * before any element is walked; a single batched update follows a complete
   * walk. A failed allocation or an unsupported descriptor type aborts the
   * build (the allocation is then not returned). No bound resource's counter
   * is changed.
   */
  method ConstructResourceSet(gd: GraphicsDevice, ids: ResourceIds, layout: VkResourceLayout,
                              boundResources: seq<BindableResource>,
                              poolReply: Result<DescriptorAllocationToken, VkError>)
    returns (r: Result<VkResourceSet, VkError>)
    requires layout.Valid() && ids.Valid()
    requires ResourcesFit(layout.formats, layout.description, boundResources)
    modifies gd, ids
    ensures ids.Valid() && ids.issued == old(ids.issued) + [old(ids.nextResourceId) + 1]
    ensures r.Success? ==> r.value.refCount.resourceId == old(ids.nextResourceId) + 1
    ensures poolReply.Failure? ==>
              r == Failure(poolReply.error) && gd.calls == old(gd.calls) + [AllocationCall(layout, poolReply)]
    ensures var f, es := layout.formats, layout.description;
            var u := FirstUnsupported(f, es);
            poolReply.Success? && u < |es| ==>
              && r == Failure(UnsupportedDescriptorType(ResolvedType(f, es[u])))
              && gd.calls == old(gd.calls) + [AllocationCall(layout, poolReply)]
    ensures var f, es := layout.formats, layout.description;
            poolReply.Success? && FirstUnsupported(f, es) == |es| ==>
              && r.Success? && fresh(r.value) && fresh(r.value.refCount)
              && r.value.Valid() && !r.value.destroyed
              && r.value.refCount.refCount == 1 && r.value.refCount.history == []
              && r.value.layout == layout && r.value.descriptorCounts == layout.descriptorResourceCounts
              && r.value.descriptorAllocationToken == poolReply.value
              && r.value.DescriptorSet() == poolReply.value.descriptorSet
              && ArrayTotal(es) <= |boundResources|
              && |r.value.refCounts| == ArrayTotal(es)
              && (forall j :: 0 <= j < ArrayTotal(es) ==> r.value.refCounts[j] == CounterOf(boundResources[j]))
              && r.value.sampledTextures
                 == TexturesBoundAs(SlotTypes(f, es), boundResources, DescriptorType.SampledImage, ArrayTotal(es))
              && r.value.storageTextures
                 == TexturesBoundAs(SlotTypes(f, es), boundResources, DescriptorType.StorageImage, ArrayTotal(es))
              && |gd.calls| == |old(gd.calls)| + 2
              && gd.calls[..|old(gd.calls)| + 1] == old(gd.calls) + [AllocationCall(layout, poolReply)]
              && UpdateDescribes(gd.calls[|old(gd.calls)| + 1], poolReply.value.descriptorSet, f, es, boundResources)
  {
    var refCount := new ResourceRefCount(ids);
    var counts := layout.descriptorResourceCounts;
    var allocation := gd.AllocateDescriptorSet(counts, layout.descriptorSetLayout, poolReply);
    if allocation.Failure? {
      return Failure(allocation.error);
    }
    var token := allocation.value;

    var failure, writes, bufferInfos, imageInfos, refCounts, sampledTextures, storageTextures
      := WriteDescriptors(layout, boundResources, token.descriptorSet);
    if failure.Some? {
      return Failure(failure.value);
    }
    ghost var allocatedCalls := gd.calls;
    gd.UpdateDescriptorSets(|layout.description|, writes[..], bufferInfos[..], imageInfos[..]);
    assert gd.calls[..|allocatedCalls|] == allocatedCalls;
    var resourceSet := new VkResourceSet(layout, counts, token, refCount, refCounts, sampledTextures, storageTextures);
    r := Success(resourceSet);
  }
}
