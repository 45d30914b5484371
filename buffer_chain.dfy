/** The per-frame linear buffer chain: a singly linked list of fixed-size
    GPU buffer blocks with a bump cursor (`current`, `offset`) that the
    renderer rewinds at the start of every frame. */
module BufferChains {
  import opened VkTypes
  import opened Links

  /** `struct vk_buffer`: one block of GPU memory, opaque to the cursor logic. */
  datatype Buffer = Buffer(size: u64, mapped: Handle, buffer: Handle, memory: Handle)

  /** `struct vk_buffer_node`: a block and the pointer to the next node. */
  datatype BufferNode = BufferNode(buffer: Buffer, next: Link)

  /** A snapshot of every field of `struct vk_buffer_chain`; `nodes` is the
      arena of all nodes the chain owns, `head` and `current` point into it.
      The renderer's chains use `BUFFER_BLOCK_SIZE` (64 KiB) as `blockSize`. */
  datatype ChainState = ChainState(
    blockSize: u64,
    alignment: u64,
    offset: u64,
    nodes: seq<BufferNode>,
    head: Link,
    current: Link,
    usage: u32)

  /** The `next` pointers of the nodes, in arena order. */
  function Nexts(nodes: seq<BufferNode>): seq<Link> {
    NextsOf(nodes, (n: BufferNode) => n.next)
  }

  /** The chain's invariant: the nodes form one list grown at its tail, `head`
      is its first node (NULL when no block exists yet), `current` is on that
      list, and the cursor never passes the end of a block. */
  predicate ValidChain(s: ChainState) {
    && WellLinked(Nexts(s.nodes))
    && s.head == HeadLink(|s.nodes|)
    && CursorOnList(Nexts(s.nodes), s.head, s.current)
    && s.offset <= s.blockSize
  }

  /** `VK_BUFFER_CHAIN_DISCARD`: the state after rewinding the cursor to the
      first block; no node is freed or added and no other field moves. */
  function Discarded(s: ChainState): (r: ChainState)
    ensures r.current == s.head && r.offset == 0
    ensures r.nodes == s.nodes && r.head == s.head
    ensures r.blockSize == s.blockSize && r.alignment == s.alignment && r.usage == s.usage
  {
    s.(current := s.head, offset := 0)
  }

  /** Discarding keeps the chain's invariant. */
  lemma DiscardKeepsValid(s: ChainState)
    requires ValidChain(s)
    ensures ValidChain(Discarded(s))
  {
  }

  /** Discarding twice is discarding once. */
  lemma DiscardIdempotent(s: ChainState)
    ensures Discarded(Discarded(s)) == Discarded(s)
  {
  }

  /** After a discard, walking the list from the cursor visits every node the
      chain holds, in order: each is reachable from `current` again, so later
      allocations can reuse them, and discarding frees none. */
  lemma DiscardMakesAllBlocksReusable(s: ChainState)
    requires ValidChain(s)
    ensures ListFrom(Nexts(s.nodes), Discarded(s).current) == Range(0, |s.nodes|)
    ensures forall k: nat :: k in ListFrom(Nexts(s.nodes), Discarded(s).current) <==> k < |s.nodes|
  {
    ListFromHeadIsArena(Nexts(s.nodes));
  }

  /** In every valid chain, `current` is NULL exactly when no block exists, and
      otherwise names one of the chain's blocks. */
  lemma CursorNamesABlock(s: ChainState)
    requires ValidChain(s)
    ensures s.current.Null? <==> |s.nodes| == 0
    ensures s.current.Node? ==> s.current.index < |s.nodes|
  {
    CursorOnListIff(Nexts(s.nodes), s.current);
  }

  /** `struct vk_buffer_chain`, updated in place by the renderer. */
  class BufferChain {
    var blockSize: u64
    var alignment: u64
    var offset: u64
    var nodes: seq<BufferNode>
    var head: Link
    var current: Link
    var usage: u32

    /** The value of every field. */
    function State(): ChainState
      reads this
    {
      ChainState(blockSize, alignment, offset, nodes, head, current, usage)
    }

    predicate Valid()
      reads this
    {
      ValidChain(State())
    }

    /** A chain holding the given fields, as the allocator may leave it. */
    constructor (s: ChainState)
      requires ValidChain(s)
      ensures Valid() && State() == s
    {
      blockSize, alignment, offset := s.blockSize, s.alignment, s.offset;
      nodes, head, current, usage := s.nodes, s.head, s.current, s.usage;
    }

    /** `VK_BUFFER_CHAIN_DISCARD(chain)`: rewinds the cursor in place. Only
        `current` and `offset` are written. */
    method Discard()
      requires Valid()
      modifies this`current, this`offset
      ensures Valid()
      ensures State() == Discarded(old(State()))
      ensures current == head && offset == 0
      ensures nodes == old(nodes) && head == old(head)
      ensures blockSize == old(blockSize) && alignment == old(alignment) && usage == old(usage)
    {
      current := head;
      offset := 0;
    }
  }
}
