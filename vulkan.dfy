/** The Vulkan vocabulary the core's decisions are made over: enumerations
    as datatypes and flag sets as 32-bit masks with the bit values of the
    Vulkan headers. */
module Vk {

  type Flags = bv32

  // VkMemoryPropertyFlagBits
  const MemoryDeviceLocal: Flags := 0x1
  const MemoryHostVisible: Flags := 0x2
  const MemoryHostCoherent: Flags := 0x4

  // VkQueueFlagBits
  const QueueGraphics: Flags := 0x1

  // VkFormatFeatureFlagBits
  const FeatureDepthStencilAttachment: Flags := 0x200

  // VkBufferUsageFlagBits
  const UsageTransferSrc: Flags := 0x1
  const UsageTransferDst: Flags := 0x2
  const UsageUniformBuffer: Flags := 0x10
  const UsageIndexBuffer: Flags := 0x40
  const UsageVertexBuffer: Flags := 0x80

  // VkImageUsageFlagBits
  const ImageUsageTransferSrc: Flags := 0x1
  const ImageUsageTransferDst: Flags := 0x2
  const ImageUsageSampled: Flags := 0x4

  /** VK_API_VERSION_1_3: variant 0, major 1, minor 3, patch 0. */
  const ApiVersion13: nat := 0x0040_3000

  /** UINT32_MAX, the "extent is chosen by the window" marker. */
  const U32Max: nat := 0xFFFF_FFFF

  /** True when every bit of `wanted` is set in `flags`. */
  predicate Includes(flags: Flags, wanted: Flags) {
    flags & wanted == wanted
  }

  datatype Format =
    | Undefined
    | B8G8R8A8Srgb
    | B8G8R8A8Unorm
    | R8G8B8A8Srgb
    | D32Sfloat
    | D32SfloatS8Uint
    | D24UnormS8Uint
    | OtherFormat(code: int)

  datatype ColorSpace = SrgbNonlinear | OtherColorSpace(code: int)

  datatype PresentMode = Immediate | Mailbox | Fifo | FifoRelaxed | OtherPresentMode(code: int)

  datatype PhysicalDeviceType = Other | IntegratedGpu | DiscreteGpu | VirtualGpu | Cpu

  datatype SharingMode = Exclusive | Concurrent

  datatype ImageLayout =
    | LayoutUndefined
    | TransferSrcOptimal
    | TransferDstOptimal
    | ShaderReadOnlyOptimal
    | ColorAttachmentOptimal
    | DepthAttachmentOptimal
    | PresentSrc

  datatype Access = NoAccess | TransferRead | TransferWrite | ShaderRead

  datatype PipelineStage = TopOfPipe | Transfer | FragmentShader

  /** The VkResult codes the core distinguishes. */
  datatype VkResult =
    | Success
    | Timeout
    | NotReady
    | SuboptimalKHR
    | ErrorOutOfDateKHR
    | ErrorDeviceLost
    | OtherResult(code: int)

  /** How a vulkan.hpp call ended: a returned result code, or a thrown
      vk::SystemError carrying one. */
  datatype Outcome = Returned(result: VkResult) | Threw(code: VkResult)

  datatype Extent2D = Extent2D(width: nat, height: nat)
}
