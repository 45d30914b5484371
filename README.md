# Vulkan per-frame resource cursors (RetroArch `vulkan_common.h`)

This project models the logic that RetroArch's shared Vulkan header
(`gfx/common/vulkan_common.h`) implements itself, over the data layout it
declares. That header declares its allocators, texture and swapchain
functions but does not define them. What it does define is:

- the **linear buffer chain** (`struct vk_buffer_chain` over a singly linked
  list of `struct vk_buffer_node`). Its per-frame rewind
  `VK_BUFFER_CHAIN_DISCARD` moves `current` back to `head` and sets `offset`
  to 0. It frees no block.
- the **descriptor manager** (`struct vk_descriptor_manager` over a linked
  list of `struct vk_descriptor_pool`, each with 16 descriptor-set handles).
  Its per-frame rewind `VK_DESCRIPTOR_MANAGER_RESTART` moves `current` back to
  `head` and sets `count` to 0.
- the **bytes-per-pixel lookup** `vulkan_format_to_bpp`, which maps five
  pixel formats to 4, 2 or 1 bytes and aborts on any other format.

Each linked list is modelled as an arena: a sequence of nodes whose `next`
pointers are `Links.Link` values, either NULL or an arena index. The model
assumes, as part of each structure's invariant, that the list was grown at its
tail: node i links to node i + 1 and `head` is the first node.
`Links.ListFrom` follows the `next` pointers. The lemmas prove that walking
from `head` visits every node exactly once and in order. This gives precise
meaning to two claims: "`current` is a member of the list starting at
`head`", and "a discard loses no block".

Both structs appear twice in the model:
- as a class (`BufferChains.BufferChain`, `DescriptorManagers.DescriptorManager`).
  Its reset method may write only the two cursor fields.
- as a value snapshot (`ChainState`, `ManagerState`) with a pure reset
  function (`Discarded`, `Restarted`). Idempotence and invariant preservation
  are proved about these functions.

Each reset method's postcondition ties the new state to the reset function
applied to the old state.

The bpp lookup's abort becomes the precondition `Formats.IsSupported`. The
model checks the table against an independent reference: the channel bit
widths that each format's name spells out.

Files: `vk_types.dfy` (integer widths, handles, the header's constants),
`links.dfy`, `formats.dfy`, `buffer_chain.dfy`, `descriptor_manager.dfy`.

## Model

| member | source | states |
|---|---|---|
| `Formats.FormatToBpp` | gfx/common/vulkan_common.h:563-582 | A supported format takes 4 bytes exactly when it is B8G8R8A8_UNORM, 2 exactly when it is one of the three 16-bit packed formats, and 1 exactly when it is R8_UNORM. The result is always in {1, 2, 4} and never 0. Any other format is excluded by the precondition, because the source aborts on it. |
| `Formats.BppMatchesChannelBits` | gfx/common/vulkan_common.h:565-577 | For every supported format, 8 × bytes per pixel equals the sum of the channel bit widths in the format's name. |
| `Links.ListFrom` | gfx/common/vulkan_common.h:234-238 | Following `next` pointers through a list grown at its tail visits only existing nodes. It never goes back to an earlier node, so the list is acyclic. |
| `Links.ListFromIsRange` | gfx/common/vulkan_common.h:234-238 | Walking from node i visits exactly the nodes i .. n-1, in arena order. |
| `Links.ListFromHeadIsArena` | gfx/common/vulkan_common.h:240-248 | The list that starts at `head` contains every node the chain owns, and nothing else. |
| `Links.CursorOnListIff` | gfx/common/vulkan_common.h:245-246 | A cursor lies on the list from `head` if and only if it is NULL on an empty list or names an existing node. |
| `BufferChains.Discarded` | gfx/common/vulkan_common.h:446-450 | Discard gives `current == head` and `offset == 0`. It leaves the nodes, `head`, `block_size`, `alignment` and `usage` unchanged. |
| `BufferChains.DiscardKeepsValid` | gfx/common/vulkan_common.h:446-450 | Discard preserves the chain invariant: a well-linked list, `head` as its first node, `current` on the list and `offset <= block_size`. |
| `BufferChains.DiscardIdempotent` | gfx/common/vulkan_common.h:446-450 | Discarding twice gives the same state as discarding once. |
| `BufferChains.DiscardMakesAllBlocksReusable` | gfx/common/vulkan_common.h:240-248 | After a discard, the walk from `current` visits every node the chain holds, in order. Every node is reachable from `current` again, so later allocations can reuse them, and discard frees none. |
| `BufferChains.CursorNamesABlock` | gfx/common/vulkan_common.h:245-246 | In a valid chain, `current` is NULL exactly when no block exists. Otherwise it names one of the chain's blocks. |
| `BufferChains.BufferChain.constructor` | gfx/common/vulkan_common.h:240-248 | Builds a chain object that holds exactly the given valid field values. |
| `BufferChains.BufferChain.Discard` | gfx/common/vulkan_common.h:446-450 | In-place discard writes only `current` and `offset`. Afterwards `current == head` and `offset == 0`, every other field is what it was, the new state is `Discarded(old state)`, and the invariant still holds. |
| `DescriptorManagers.Restarted` | gfx/common/vulkan_common.h:498-502 | Restart gives `current == head` and `count == 0`. It leaves the pools (with their `sets`), `head`, `set_layout`, `sizes` and `num_sizes` unchanged. |
| `DescriptorManagers.RestartKeepsValid` | gfx/common/vulkan_common.h:498-502 | Restart preserves the manager invariant: `count <= 16`, `num_sizes <= 16`, 16 slots in every pool's `sets`, and `current` on the list from `head`. |
| `DescriptorManagers.RestartIdempotent` | gfx/common/vulkan_common.h:498-502 | Restarting twice gives the same state as restarting once. |
| `DescriptorManagers.AllSetsLength` | gfx/common/vulkan_common.h:274 | k pools with 16-slot `sets` arrays hold 16 × k descriptor sets between them. |
| `DescriptorManagers.HandedOutCount` | gfx/common/vulkan_common.h:277-285 | If `current` is the k-th pool, the cursor has handed out 16 × k + `count` sets. If `current` is NULL, it has handed out none. |
| `DescriptorManagers.RestartReleasesAllSets` | gfx/common/vulkan_common.h:498-502 | After a restart no set counts as handed out, while every pool stays on the list the cursor walks. |
| `DescriptorManagers.DescriptorManager.constructor` | gfx/common/vulkan_common.h:277-285 | Builds a manager object that holds exactly the given valid field values. |
| `DescriptorManagers.DescriptorManager.Restart` | gfx/common/vulkan_common.h:498-502 | In-place restart writes only `current` and `count`. Afterwards `current == head` and `count == 0`, every other field is what it was, the new state is `Restarted(old state)`, and the invariant still holds. |

## Left out

- `vulkan_buffer_chain_init`, `vulkan_buffer_chain_alloc` and `vulkan_buffer_chain_free` are declared in the header but their bodies are not in it. Their algorithms (alignment rounding, block append) are not modelled. The constructors take the struct's fields instead: any state that satisfies the assumed invariant.
- `vulkan_create_descriptor_manager`, `vulkan_descriptor_manager_alloc` and `vulkan_destroy_descriptor_manager` are declarations only and are not modelled. `DescriptorManagers.HandedOut` reads the meaning of `current` and `count` off the struct layout (all sets of earlier pools, plus the first `count` sets of `current`). It does not model the allocator.
- `Links.WellLinked` and `head == HeadLink(..)` are assumed invariants of both structures (`BufferChains.ValidChain`, `DescriptorManagers.ValidManager`), not derived. The code that appends nodes and pools is in `vulkan_buffer_chain_alloc` and `vulkan_descriptor_manager_alloc`, which are not part of this model.
- `BufferChains.ValidChain` takes `offset <= block_size` as part of the chain invariant. The allocator that maintains it is not part of this model.
- Texture creation, transition, copy and destruction (`vulkan_create_texture`, `vulkan_transition_texture`, `vulkan_copy_staging_to_dynamic`, `vulkan_destroy_texture`), buffer creation and the memory-type finders are declarations only.
- Swapchain and context management (`vulkan_present`, `vulkan_acquire_next_image`, `vulkan_create_swapchain`, `vulkan_context_init`, surface creation) only wrap driver and windowing-system calls.
- `struct vulkan_emulated_mailbox` is a worker thread with a lock and a condition variable. This is concurrency, and the header contains no logic for it.
- `vulkan_write_quad_vbo`, `vk_color` and `vk_vertex` are floating-point vertex arithmetic.
- The barrier, flush/invalidate, persistent-map and descriptor-write macros only fill Vulkan structs and forward them to API calls.
- The `vk_t` renderer state, the per-frame bundle and the draw, framebuffer and render-pass entry points fill GPU command streams.
- A pool's fixed `sets` array and the manager's `sizes` array are sequences of fixed length, not arrays. The modelled code never writes them, so aliasing of their contents is not captured.
- `Formats.FormatToBpp`: the logged error message and the process abort are not modelled. They become the precondition that the format is supported.
