/** The per-frame descriptor-set manager: a singly linked list of descriptor
    pools, each pre-allocated with a fixed block of descriptor sets, and a
    cursor (`current`, `count`) the renderer rewinds at the start of every frame. */
module DescriptorManagers {
  import opened VkTypes
  import opened Links

  /** `VkDescriptorPoolSize`: a descriptor type and how many of it a pool holds. */
  datatype PoolSize = PoolSize(descriptorType: u32, descriptorCount: u32)

  /** `struct vk_descriptor_pool`: the pointer to the next pool, the pool
      handle and its `sets` array of BLOCK_SETS descriptor-set handles. */
  datatype DescriptorPool = DescriptorPool(next: Link, pool: Handle, sets: seq<Handle>)

  /** A snapshot of every field of `struct vk_descriptor_manager`; `pools` is
      the arena of all pools the manager owns, `head` and `current` point into
      it, and `sizes` is the fixed table whose first `numSizes` entries are used. */
  datatype ManagerState = ManagerState(
    pools: seq<DescriptorPool>,
    head: Link,
    current: Link,
    setLayout: Handle,
    sizes: seq<PoolSize>,
    count: u32,
    numSizes: u32)

  /** The `next` pointers of the pools, in arena order. */
  function Nexts(pools: seq<DescriptorPool>): seq<Link> {
    NextsOf(pools, (p: DescriptorPool) => p.next)
  }

  /** The manager's invariant: the pools form one list grown at its tail,
      `head` is its first pool, `current` is on that list, every pool's `sets`
      array has BLOCK_SETS slots, `count` never passes them, and the size
      table has MAX_POOL_SIZES slots of which at most all are used. */
  predicate ValidManager(s: ManagerState) {
    && WellLinked(Nexts(s.pools))
    && s.head == HeadLink(|s.pools|)
    && CursorOnList(Nexts(s.pools), s.head, s.current)
    && (forall i :: 0 <= i < |s.pools| ==> |s.pools[i].sets| == BLOCK_SETS)
    && s.count as nat <= BLOCK_SETS
    && |s.sizes| == MAX_POOL_SIZES
    && s.numSizes as nat <= MAX_POOL_SIZES
  }

  /** `VK_DESCRIPTOR_MANAGER_RESTART`: the state after rewinding the cursor to
      the first pool; no pool is freed or added and no other field moves. */
  function Restarted(s: ManagerState): (r: ManagerState)
    ensures r.current == s.head && r.count == 0
    ensures r.pools == s.pools && r.head == s.head
    ensures r.setLayout == s.setLayout && r.sizes == s.sizes && r.numSizes == s.numSizes
  {
    s.(current := s.head, count := 0)
  }

  /** Restarting keeps the manager's invariant: `count <= BLOCK_SETS`,
      `numSizes <= MAX_POOL_SIZES` and `current` on the list from `head`. */
  lemma RestartKeepsValid(s: ManagerState)
    requires ValidManager(s)
    ensures ValidManager(Restarted(s))
  {
  }

  /** Restarting twice is restarting once. */
  lemma RestartIdempotent(s: ManagerState)
    ensures Restarted(Restarted(s)) == Restarted(s)
  {
  }

  /** The descriptor sets of the given pools, pool after pool. */
  function AllSets(pools: seq<DescriptorPool>): seq<Handle> {
    if pools == [] then [] else pools[0].sets + AllSets(pools[1..])
  }

  /** The descriptor sets the cursor has handed out since the last restart:
      every set of each pool before `current` on the list, then the first
      `count` sets of `current`. */
  function HandedOut(s: ManagerState): seq<Handle>
    requires ValidManager(s)
  {
    CursorOnListIff(Nexts(s.pools), s.current);
    if s.current.Null? then []
    else AllSets(s.pools[..s.current.index]) + s.pools[s.current.index].sets[..s.count]
  }

  lemma {:induction false} AllSetsLength(pools: seq<DescriptorPool>)
    requires forall i :: 0 <= i < |pools| ==> |pools[i].sets| == BLOCK_SETS
    ensures |AllSets(pools)| == BLOCK_SETS * |pools|
  {
    if pools != [] {
      AllSetsLength(pools[1..]);
    }
  }

  /** The cursor accounts for sets in whole pools: with `current` the k-th pool
      of the list, BLOCK_SETS * k + count sets have been handed out. */
  lemma HandedOutCount(s: ManagerState)
    requires ValidManager(s)
    ensures s.current.Node? ==> |HandedOut(s)| == BLOCK_SETS * s.current.index + s.count as nat
    ensures s.current.Null? ==> HandedOut(s) == []
  {
    CursorOnListIff(Nexts(s.pools), s.current);
    if s.current.Node? {
      AllSetsLength(s.pools[..s.current.index]);
    }
  }

  /** After a restart no set counts as handed out: every set of every pool is
      free for the next frame, while the pools themselves are kept. */
  lemma RestartReleasesAllSets(s: ManagerState)
    requires ValidManager(s)
    ensures HandedOut(Restarted(s)) == []
    ensures forall k: nat :: k in ListFrom(Nexts(s.pools), Restarted(s).current) <==> k < |s.pools|
  {
    ListFromHeadIsArena(Nexts(s.pools));
  }

  /** `struct vk_descriptor_manager`, updated in place by the renderer. */
  class DescriptorManager {
    var pools: seq<DescriptorPool>
    var head: Link
    var current: Link
    var setLayout: Handle
    var sizes: seq<PoolSize>
    var count: u32
    var numSizes: u32

    /** The value of every field. */
    function State(): ManagerState
      reads this
    {
      ManagerState(pools, head, current, setLayout, sizes, count, numSizes)
    }

    predicate Valid()
      reads this
    {
      ValidManager(State())
    }

    /** A manager holding the given fields, as the allocator may leave it. */
    constructor (s: ManagerState)
      requires ValidManager(s)
      ensures Valid() && State() == s
    {
      pools, head, current, setLayout := s.pools, s.head, s.current, s.setLayout;
      sizes, count, numSizes := s.sizes, s.count, s.numSizes;
    }

    /** `VK_DESCRIPTOR_MANAGER_RESTART(manager)`: rewinds the cursor in place.
        Only `current` and `count` are written. */
    method Restart()
      requires Valid()
      modifies this`current, this`count
      ensures Valid()
      ensures State() == Restarted(old(State()))
      ensures current == head && count == 0
      ensures pools == old(pools) && head == old(head)
      ensures setLayout == old(setLayout) && sizes == old(sizes) && numSizes == old(numSizes)
    {
      current := head;
      count := 0;
    }
  }
}
