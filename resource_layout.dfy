/**
 * VkResourceLayout: compiles an ordered list of resource layout elements into
 * one Vulkan binding per element (binding index = position), the resolved
 * descriptor type of each element, the seven per-type descriptor totals and
 * the number of dynamic-offset descriptors, and then asks the driver for the
 * native descriptor set layout.
 */
module ResourceLayouts {
  import opened Wrappers
  import opened Vulkan

  /** Veldrid's ResourceKind. */
  datatype ResourceKind =
    | UniformBuffer
    | StructuredBufferReadOnly
    | StructuredBufferReadWrite
    | TextureReadOnly
    | TextureReadWrite
    | Sampler

  /** The DynamicBinding flag of ResourceLayoutElementOptions. */
  const DynamicBinding: bv32 := 1

  /** ResourceLayoutElementDescription (the name is left out). */
  datatype ElementDescription = ElementDescription(
    kind: ResourceKind,
    stages: bv8,
    options: bv32,
    arrayCount: nat)

  /**
   * The two translation tables of VkFormats the compiler relies on:
   * VdToVkDescriptorType and VdToVkShaderStages. They are inputs here.
   */
  datatype VkFormats = VkFormats(
    toDescriptorType: (ResourceKind, bv32) -> DescriptorType,
    toShaderStages: bv8 -> bv32)

  /** The descriptor type element e compiles to. */
  function ResolvedType(f: VkFormats, e: ElementDescription): DescriptorType {
    f.toDescriptorType(e.kind, e.options)
  }

  predicate IsDynamic(e: ElementDescription) {
    e.options & DynamicBinding != 0
  }

  /** The total array count of the elements: how many resources they bind. */
  function ArrayTotal(es: seq<ElementDescription>): nat
    decreases |es|
  {
    if es == [] then 0 else ArrayTotal(es[..|es| - 1]) + es[|es| - 1].arrayCount
  }

  /** The total array count of the elements that compile to descriptor type t. */
  function KindTotal(f: VkFormats, es: seq<ElementDescription>, t: DescriptorType): nat
    decreases |es|
  {
    if es == [] then 0
    else
      var e := es[|es| - 1];
      KindTotal(f, es[..|es| - 1], t) + (if ResolvedType(f, e) == t then e.arrayCount else 0)
  }

  /** The total array count of the elements marked DynamicBinding. */
  function DynamicTotal(es: seq<ElementDescription>): nat
    decreases |es|
  {
    if es == [] then 0
    else
      var e := es[|es| - 1];
      DynamicTotal(es[..|es| - 1]) + (if IsDynamic(e) then e.arrayCount else 0)
  }

  /** The total array count of the elements whose descriptor type is none of the seven counted ones. */
  function UncountedTotal(f: VkFormats, es: seq<ElementDescription>): nat
    decreases |es|
  {
    if es == [] then 0
    else
      var e := es[|es| - 1];
      UncountedTotal(f, es[..|es| - 1]) + (if IsSupportedType(ResolvedType(f, e)) then 0 else e.arrayCount)
  }

  /** The per-type totals a layout over es must report. */
  function CountsOf(f: VkFormats, es: seq<ElementDescription>): DescriptorResourceCounts {
    DescriptorResourceCounts(
      KindTotal(f, es, DescriptorType.UniformBuffer),
      KindTotal(f, es, DescriptorType.UniformBufferDynamic),
      KindTotal(f, es, DescriptorType.SampledImage),
      KindTotal(f, es, DescriptorType.Sampler),
      KindTotal(f, es, DescriptorType.StorageBuffer),
      KindTotal(f, es, DescriptorType.StorageBufferDynamic),
      KindTotal(f, es, DescriptorType.StorageImage))
  }

  function CountsSum(c: DescriptorResourceCounts): nat {
    c.uniformBufferCount + c.uniformBufferDynamicCount + c.sampledImageCount + c.samplerCount
    + c.storageBufferCount + c.storageBufferDynamicCount + c.storageImageCount
  }

  /** The Vulkan binding for element e at position i. */
  function BindingFor(f: VkFormats, e: ElementDescription, i: nat): LayoutBinding {
    LayoutBinding(i, ResolvedType(f, e), e.arrayCount, f.toShaderStages(e.stages))
  }

  /** The bindings handed to vkCreateDescriptorSetLayout, one per element. */
  function LayoutBindings(f: VkFormats, es: seq<ElementDescription>): (r: seq<LayoutBinding>)
    ensures |r| == |es|
    ensures forall i :: 0 <= i < |es| ==> r[i].binding == i && r[i].descriptorCount == es[i].arrayCount
                                           && r[i].descriptorType == ResolvedType(f, es[i])
  {
    seq(|es|, i requires 0 <= i < |es| => BindingFor(f, es[i], i))
  }

  /**
   * Every element's array count is in exactly one place: in the total of its
   * descriptor type, or, for a type none of the seven, in no total at all.
   */
  lemma {:induction false} CountsCoverArrayTotal(f: VkFormats, es: seq<ElementDescription>)
    ensures CountsSum(CountsOf(f, es)) + UncountedTotal(f, es) == ArrayTotal(es)
    decreases |es|
  {
    if es != [] {
      var e := es[|es| - 1];
      CountsCoverArrayTotal(f, es[..|es| - 1]);
      CountsOfSnoc(f, es);
      AddToCountSum(CountsOf(f, es[..|es| - 1]), ResolvedType(f, e), e.arrayCount);
    }
  }

  /** An element whose descriptor type is none of the seven leaves every total as it was. */
  lemma UncountedElementAddsNothing(f: VkFormats, es: seq<ElementDescription>, e: ElementDescription)
    requires !IsSupportedType(ResolvedType(f, e))
    ensures CountsOf(f, es + [e]) == CountsOf(f, es)
    ensures ArrayTotal(es + [e]) == ArrayTotal(es) + e.arrayCount
  {
    assert (es + [e])[..|es|] == es;
  }

  /** c with n added to the total of descriptor type t, when t is one of the seven. */
  function AddToCount(c: DescriptorResourceCounts, t: DescriptorType, n: nat): DescriptorResourceCounts {
    match t
    case Sampler => c.(samplerCount := c.samplerCount + n)
    case SampledImage => c.(sampledImageCount := c.sampledImageCount + n)
    case StorageImage => c.(storageImageCount := c.storageImageCount + n)
    case UniformBuffer => c.(uniformBufferCount := c.uniformBufferCount + n)
    case UniformBufferDynamic => c.(uniformBufferDynamicCount := c.uniformBufferDynamicCount + n)
    case StorageBuffer => c.(storageBufferCount := c.storageBufferCount + n)
    case StorageBufferDynamic => c.(storageBufferDynamicCount := c.storageBufferDynamicCount + n)
    case _ => c
  }

  /** Adding n to one of the seven totals adds n to their sum; any other type adds nothing. */
  lemma AddToCountSum(c: DescriptorResourceCounts, t: DescriptorType, n: nat)
    ensures CountsSum(AddToCount(c, t, n)) == CountsSum(c) + if IsSupportedType(t) then n else 0
  {
  }

  /** The totals of es are those of all but its last element, plus that element's count under its type. */
  lemma CountsOfSnoc(f: VkFormats, es: seq<ElementDescription>)
    requires es != []
    ensures CountsOf(f, es) == AddToCount(CountsOf(f, es[..|es| - 1]), ResolvedType(f, es[|es| - 1]), es[|es| - 1].arrayCount)
  {
  }

  /** Compiling one more element adds its array count to the total of its type only. */
  lemma CountsOfStep(f: VkFormats, es: seq<ElementDescription>, i: nat)
    requires i < |es|
    ensures CountsOf(f, es[..i + 1]) == AddToCount(CountsOf(f, es[..i]), ResolvedType(f, es[i]), es[i].arrayCount)
    ensures DynamicTotal(es[..i + 1]) == DynamicTotal(es[..i]) + if IsDynamic(es[i]) then es[i].arrayCount else 0
  {
    assert es[..i + 1][..i] == es[..i];
    CountsOfSnoc(f, es[..i + 1]);
  }

  /** The type and binding arrays after the loop has compiled the first i elements. */
  ghost predicate CompiledUpTo(f: VkFormats, es: seq<ElementDescription>, i: nat,
                               types: seq<DescriptorType>, bindings: seq<LayoutBinding>)
  {
    i <= |es| && |types| == |es| && |bindings| == |es|
    && forall k :: 0 <= k < i ==> types[k] == ResolvedType(f, es[k]) && bindings[k] == BindingFor(f, es[k], k)
  }

  lemma CompiledStep(f: VkFormats, es: seq<ElementDescription>, i: nat,
                     types: seq<DescriptorType>, bindings: seq<LayoutBinding>)
    requires CompiledUpTo(f, es, i, types, bindings) && i < |es|
    ensures CompiledUpTo(f, es, i + 1, types[i := ResolvedType(f, es[i])], bindings[i := BindingFor(f, es[i], i)])
  {
  }

  lemma CompiledAll(f: VkFormats, es: seq<ElementDescription>, types: seq<DescriptorType>, bindings: seq<LayoutBinding>)
    requires CompiledUpTo(f, es, |es|, types, bindings)
    ensures bindings == LayoutBindings(f, es)
  {
    assert forall k :: 0 <= k < |es| ==> bindings[k] == LayoutBindings(f, es)[k];
  }

  /**
   * The constructor's loop: fills the descriptor type array and the binding
   * array in place and accumulates the seven totals and the dynamic count.
   */
  method CompileElements(f: VkFormats, elements: seq<ElementDescription>)
    returns (types: array<DescriptorType>, bindings: array<LayoutBinding>,
             counts: DescriptorResourceCounts, dynamicBufferCount: int)
    ensures fresh(types) && fresh(bindings)
    ensures types.Length == |elements| && bindings.Length == |elements|
    ensures forall i :: 0 <= i < |elements| ==> types[i] == ResolvedType(f, elements[i])
    ensures bindings[..] == LayoutBindings(f, elements)
    ensures counts == CountsOf(f, elements)
    ensures dynamicBufferCount == DynamicTotal(elements)
  {
    types := new DescriptorType[|elements|](_ => DescriptorType.Sampler);
    bindings := new LayoutBinding[|elements|](_ => LayoutBinding(0, DescriptorType.Sampler, 0, 0));
    counts := DescriptorResourceCounts(0, 0, 0, 0, 0, 0, 0);
    dynamicBufferCount := 0;

    var i := 0;
    while i < |elements|
      invariant CompiledUpTo(f, elements, i, types[..], bindings[..])
      invariant counts == CountsOf(f, elements[..i])
      invariant dynamicBufferCount == DynamicTotal(elements[..i])
    {
      var count := elements[i].arrayCount;
      var descriptorType := f.toDescriptorType(elements[i].kind, elements[i].options);
      ghost var typesBefore, bindingsBefore := types[..], bindings[..];
      bindings[i] := LayoutBinding(i, descriptorType, count, f.toShaderStages(elements[i].stages));
      if elements[i].options & DynamicBinding != 0 {
        dynamicBufferCount := dynamicBufferCount + count;
      }
      types[i] := descriptorType;
      assert types[..] == typesBefore[i := ResolvedType(f, elements[i])];
      assert bindings[..] == bindingsBefore[i := BindingFor(f, elements[i], i)];
      CompiledStep(f, elements, i, typesBefore, bindingsBefore);
      counts := AddToCount(counts, descriptorType, count);
      CountsOfStep(f, elements, i);
      i := i + 1;
    }
    assert elements[..i] == elements;
    CompiledAll(f, elements, types[..], bindings[..]);
  }

  class VkResourceLayout {
    ghost const formats: VkFormats
    const description: seq<ElementDescription>
    const descriptorSetLayout: Handle
    const descriptorTypes: array<DescriptorType>
    const descriptorResourceCounts: DescriptorResourceCounts
    const dynamicBufferCount: int
    var disposed: bool

    /** The compiled facts hold of the description. */
    ghost predicate Valid()
      reads this, descriptorTypes
    {
      descriptorTypes.Length == |description|
      && (forall i :: 0 <= i < |description| ==> descriptorTypes[i] == ResolvedType(formats, description[i]))
      && descriptorResourceCounts == CountsOf(formats, description)
      && dynamicBufferCount == DynamicTotal(description)
    }

    constructor (formats: VkFormats, description: seq<ElementDescription>, descriptorSetLayout: Handle,
                 descriptorTypes: array<DescriptorType>, counts: DescriptorResourceCounts, dynamicBufferCount: int)
      ensures this.formats == formats && this.description == description
      ensures this.descriptorSetLayout == descriptorSetLayout && this.descriptorTypes == descriptorTypes
      ensures descriptorResourceCounts == counts && this.dynamicBufferCount == dynamicBufferCount
      ensures !disposed
    {
      this.formats := formats;
      this.description := description;
      this.descriptorSetLayout := descriptorSetLayout;
      this.descriptorTypes := descriptorTypes;
      descriptorResourceCounts := counts;
      this.dynamicBufferCount := dynamicBufferCount;
      disposed := false;
    }

    /** Whether Dispose has run. */
    predicate IsDisposed()
      reads this
    {
      disposed
    }

    /** Destroys the native layout on the first call only. */
    method Dispose(gd: GraphicsDevice)
      modifies this, gd
      ensures disposed && IsDisposed()
      ensures gd.calls == old(gd.calls) + if old(disposed) then [] else [DestroyDescriptorSetLayout(descriptorSetLayout)]
    {
      if !disposed {
        disposed := true;
        gd.DestroyDescriptorSetLayout(descriptorSetLayout);
      }
    }
  }

  /**
   * The VkResourceLayout constructor: compiles the elements, then requests the
   * native layout once, with one binding per element. A failed request is
   * reported as the driver's result code.
   */
  method ConstructResourceLayout(gd: GraphicsDevice, formats: VkFormats, description: seq<ElementDescription>,
                                 driverReply: Result<Handle, int>)
    returns (r: Result<VkResourceLayout, VkError>)
    modifies gd
    ensures gd.calls == old(gd.calls)
                        + [CreateDescriptorSetLayout(|description|, LayoutBindings(formats, description), driverReply)]
    ensures driverReply.Failure? ==> r == Failure(UnsuccessfulResult(driverReply.error))
    ensures driverReply.Success? ==>
              && r.Success? && fresh(r.value) && fresh(r.value.descriptorTypes) && r.value.Valid() && !r.value.disposed
              && r.value.formats == formats && r.value.description == description
              && r.value.descriptorSetLayout == driverReply.value
  {
    var types, bindings, counts, dynamicBufferCount := CompileElements(formats, description);
    var created := gd.CreateDescriptorSetLayout(|description|, bindings[..], driverReply);
    if created.Failure? {
      return Failure(UnsuccessfulResult(created.error));
    }
    var layout := new VkResourceLayout(formats, description, created.value, types, counts, dynamicBufferCount);
    r := Success(layout);
  }
}
