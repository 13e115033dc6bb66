/**
 * The Vulkan-side values that the descriptor core produces and consumes, the
 * error conditions it raises, and the graphics device as seen from this core:
 * a log of the native calls made on it.
 */
module Vulkan {
  import opened Wrappers

  /** A native object handle (VkDescriptorSetLayout, VkDescriptorSet, VkBuffer, ...); 0 is the null handle. */
  type Handle = nat

  const NullHandle: Handle := 0

  /** VkDescriptorType, the core values of the enumeration. */
  datatype DescriptorType =
    | Sampler
    | CombinedImageSampler
    | SampledImage
    | StorageImage
    | UniformTexelBuffer
    | StorageTexelBuffer
    | UniformBuffer
    | StorageBuffer
    | UniformBufferDynamic
    | StorageBufferDynamic
    | InputAttachment

  /** The four descriptor types that are backed by a buffer range. */
  predicate IsBufferType(t: DescriptorType) {
    t == DescriptorType.UniformBuffer || t == DescriptorType.UniformBufferDynamic
    || t == DescriptorType.StorageBuffer || t == DescriptorType.StorageBufferDynamic
  }

  /**
   * The seven descriptor types the core knows: the ones a layout counts and the
   * ones a resource set can fill.
   */
  predicate IsSupportedType(t: DescriptorType) {
    IsBufferType(t) || t == DescriptorType.SampledImage
    || t == DescriptorType.StorageImage || t == DescriptorType.Sampler
  }

  /** VkImageLayout, the values the core uses (Undefined is the zero value). */
  datatype ImageLayout = Undefined | General | ShaderReadOnlyOptimal

  /** VkDescriptorSetLayoutBinding. */
  datatype LayoutBinding = LayoutBinding(
    binding: nat,
    descriptorType: DescriptorType,
    descriptorCount: nat,
    stageFlags: bv32)

  /** VkDescriptorBufferInfo. */
  datatype BufferInfo = BufferInfo(buffer: Handle, offset: nat, range: nat)

  const EmptyBufferInfo := BufferInfo(NullHandle, 0, 0)

  /** VkDescriptorImageInfo. */
  datatype ImageInfo = ImageInfo(sampler: Handle, imageView: Handle, imageLayout: ImageLayout)

  const EmptyImageInfo := ImageInfo(NullHandle, NullHandle, Undefined)

  /**
   * VkWriteDescriptorSet. The pBufferInfo and pImageInfo fields, which address the
   * scratch info arrays, are kept as the index they address (None is null).
   */
  datatype WriteDescriptorSet = WriteDescriptorSet(
    dstSet: Handle,
    dstBinding: nat,
    descriptorCount: nat,
    descriptorType: DescriptorType,
    bufferInfo: Option<nat>,
    imageInfo: Option<nat>)

  const EmptyWrite := WriteDescriptorSet(NullHandle, 0, 0, DescriptorType.Sampler, None, None)

  /** Veldrid's DescriptorResourceCounts: how many descriptors of each kind a layout needs. */
  datatype DescriptorResourceCounts = DescriptorResourceCounts(
    uniformBufferCount: nat,
    uniformBufferDynamicCount: nat,
    sampledImageCount: nat,
    samplerCount: nat,
    storageBufferCount: nat,
    storageBufferDynamicCount: nat,
    storageImageCount: nat)

  /** What the descriptor pool manager hands out: the allocated set and the pool it came from. */
  datatype DescriptorAllocationToken = DescriptorAllocationToken(descriptorSet: Handle, pool: Handle)

  /** The exceptions the core raises or lets through. */
  datatype VkError =
    | UseAfterFree                                   // Increment reached 0 under VALIDATE_USAGE
    | UnsuccessfulResult(result: int)                // CheckResult on a failed native call
    | UnsupportedDescriptorType(t: DescriptorType)   // no branch of the set builder handles t

  /** One native call (or pool-manager call) made through the device. */
  datatype NativeCall =
    | CreateDescriptorSetLayout(bindingCount: nat, bindings: seq<LayoutBinding>, driverReply: Result<Handle, int>)
    | DestroyDescriptorSetLayout(layout: Handle)
    | AllocateDescriptorSet(counts: DescriptorResourceCounts, layout: Handle,
                            poolReply: Result<DescriptorAllocationToken, VkError>)
    | FreeDescriptorSet(token: DescriptorAllocationToken, counts: DescriptorResourceCounts)
    | UpdateDescriptorSets(writeCount: nat, writes: seq<WriteDescriptorSet>,
                           bufferInfos: seq<BufferInfo>, imageInfos: seq<ImageInfo>)

  /**
   * The graphics device and its descriptor pool manager, reduced to the record
   * of what was asked of them. The driver's and the pool's replies are inputs
   * to the calls: this core only passes them on.
   */
  class GraphicsDevice {
    ghost var calls: seq<NativeCall>

    constructor ()
      ensures calls == []
    {
      calls := [];
    }

    method CreateDescriptorSetLayout(bindingCount: nat, bindings: seq<LayoutBinding>, driverReply: Result<Handle, int>)
      returns (r: Result<Handle, int>)
      modifies this
      ensures r == driverReply
      ensures calls == old(calls) + [NativeCall.CreateDescriptorSetLayout(bindingCount, bindings, driverReply)]
    {
      r := driverReply;
      calls := calls + [NativeCall.CreateDescriptorSetLayout(bindingCount, bindings, driverReply)];
    }

    method DestroyDescriptorSetLayout(layout: Handle)
      modifies this
      ensures calls == old(calls) + [NativeCall.DestroyDescriptorSetLayout(layout)]
    {
      calls := calls + [NativeCall.DestroyDescriptorSetLayout(layout)];
    }

    method AllocateDescriptorSet(counts: DescriptorResourceCounts, layout: Handle,
                                 poolReply: Result<DescriptorAllocationToken, VkError>)
      returns (r: Result<DescriptorAllocationToken, VkError>)
      modifies this
      ensures r == poolReply
      ensures calls == old(calls) + [NativeCall.AllocateDescriptorSet(counts, layout, poolReply)]
    {
      r := poolReply;
      calls := calls + [NativeCall.AllocateDescriptorSet(counts, layout, poolReply)];
    }

    method FreeDescriptorSet(token: DescriptorAllocationToken, counts: DescriptorResourceCounts)
      modifies this
      ensures calls == old(calls) + [NativeCall.FreeDescriptorSet(token, counts)]
    {
      calls := calls + [NativeCall.FreeDescriptorSet(token, counts)];
    }

    method UpdateDescriptorSets(writeCount: nat, writes: seq<WriteDescriptorSet>,
                                bufferInfos: seq<BufferInfo>, imageInfos: seq<ImageInfo>)
      modifies this
      ensures calls == old(calls) + [NativeCall.UpdateDescriptorSets(writeCount, writes, bufferInfos, imageInfos)]
    {
      calls := calls + [NativeCall.UpdateDescriptorSets(writeCount, writes, bufferInfos, imageInfos)];
    }
  }
}
