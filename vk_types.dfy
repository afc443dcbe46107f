/** Graphics-API values that the allocators and the render context pass around
    without looking inside: handles, host addresses, flag bits, and the few
    device-layer calls whose order the allocators are responsible for. */
module VkTypes {

  /** A Vulkan handle (buffer, device memory, command pool, fence, ...): an
      opaque token, or VK_NULL_HANDLE. */
  datatype Handle = NullHandle | Handle(id: nat)

  /** A host pointer: null, or a byte address in the host address space. */
  datatype Addr = Null | Host(addr: nat)

  /** Pointer arithmetic on a byte pointer (`p + k`); a null pointer stays null. */
  function Offset(p: Addr, k: nat): (q: Addr)
    ensures q.Null? <==> p.Null?
    ensures p.Host? ==> q.addr - p.addr == k
  {
    match p
    case Null => Null
    case Host(a) => Host(a + k)
  }

  datatype Option<T> = None | Some(value: T)

  /** VkMemoryPropertyFlagBits */
  datatype MemoryProperty = DeviceLocal | HostVisible | HostCoherent | HostCached | LazilyAllocated

  /** VkBufferUsageFlagBits */
  datatype BufferUsage =
    | TransferSrc | TransferDst
    | UniformTexelBuffer | StorageTexelBuffer
    | UniformBuffer | StorageBuffer
    | IndexBuffer | VertexBuffer | IndirectBuffer

  /** Calls an allocator makes into the device layer while it is torn down. */
  datatype DeviceCall =
    | WaitIdle(device: Handle)
    | UnmapMemory(memory: Handle)
    | DestroyBuffer(buffer: Handle)
    | FreeMemory(memory: Handle)

  /** What the device layer hands back when setup asks for one memory
      reservation with a buffer bound to it: a failure, or the two new
      handles and the host address the whole reservation was mapped at
      (null when it was not mapped). */
  datatype Reservation =
    | ReservationFailed
    | Reserved(bufferId: nat, memoryId: nat, mapped: Addr)
}
