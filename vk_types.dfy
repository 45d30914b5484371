/** Scalar types and limits from the Vulkan renderer's shared header. */
module VkTypes {
  /** `uint32_t` (also C `unsigned`, `VkBufferUsageFlags`). */
  newtype u32 = x: int | 0 <= x < 0x1_0000_0000

  /** `VkDeviceSize`, a `uint64_t`. */
  newtype u64 = x: int | 0 <= x < 0x1_0000_0000_0000_0000

  /** An opaque Vulkan handle (`VkBuffer`, `VkDeviceMemory`, `VkDescriptorPool`,
      `VkDescriptorSet`, `VkDescriptorSetLayout`) or a host address; 0 is NULL. */
  type Handle = nat

  /** Number of descriptor sets each descriptor pool holds. */
  const BLOCK_SETS: nat := 16

  /** Capacity of the descriptor manager's pool-size table. */
  const MAX_POOL_SIZES: nat := 16

  /** Default size of one buffer-chain block, 64 KiB. */
  const BUFFER_BLOCK_SIZE: nat := 64 * 1024
}
