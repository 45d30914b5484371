/** Singly linked lists laid out as an arena of nodes addressed by index.
    A node's `next` pointer is a `Link`; the list built by a chain that
    only ever appends at its tail has node i linking to node i + 1. */
module Links {
  /** A `head`, `current` or `next` pointer: NULL, or the node at an arena index. */
  datatype Link = Null | Node(index: nat)

  /** The pointer to arena slot i of an arena of n nodes: NULL past the end. */
  function LinkAt(i: nat, n: nat): (l: Link)
    ensures l.Node? <==> i < n
    ensures l.Node? ==> l.index == i
  {
    if i < n then Node(i) else Null
  }

  /** The `head` of an arena of n nodes: the first node, or NULL when there is none. */
  function HeadLink(n: nat): (l: Link)
    ensures l.Null? <==> n == 0
  {
    LinkAt(0, n)
  }

  /** The `next` pointers of an arena's nodes, in arena order, read off each
      node by `next`. */
  function NextsOf<T>(nodes: seq<T>, next: T -> Link): (r: seq<Link>)
    ensures |r| == |nodes|
    ensures forall i :: 0 <= i < |nodes| ==> r[i] == next(nodes[i])
  {
    seq(|nodes|, i requires 0 <= i < |nodes| => next(nodes[i]))
  }

  /** Every node links to its arena successor and the last to NULL:
      the list was grown by appending at the tail. */
  predicate WellLinked(next: seq<Link>) {
    forall i :: 0 <= i < |next| ==> next[i] == LinkAt(i + 1, |next|)
  }

  /** The arena indices visited by following `next` pointers from `l`
      until NULL. The walk never revisits a node: the list is acyclic. */
  function ListFrom(next: seq<Link>, l: Link): (r: seq<nat>)
    requires WellLinked(next)
    ensures forall k :: 0 <= k < |r| ==> r[k] < |next|
    ensures forall k :: 0 <= k < |r| ==> l.Node? && l.index <= r[k]
    ensures forall j, k :: 0 <= j < k < |r| ==> r[j] < r[k]
    decreases if l.Node? && l.index < |next| then |next| - l.index else 0
  {
    if l.Null? || l.index >= |next| then []
    else [l.index] + ListFrom(next, next[l.index])
  }

  /** The indices lo, lo + 1, ..., hi - 1. */
  function Range(lo: nat, hi: nat): seq<nat>
    requires lo <= hi
    decreases hi - lo
  {
    if lo == hi then [] else [lo] + Range(lo + 1, hi)
  }

  lemma {:induction false} RangeMembers(lo: nat, hi: nat)
    requires lo <= hi
    ensures |Range(lo, hi)| == hi - lo
    ensures forall k: nat :: k in Range(lo, hi) <==> lo <= k < hi
    decreases hi - lo
  {
    if lo < hi {
      RangeMembers(lo + 1, hi);
    }
  }

  /** Walking a well-linked arena from slot i visits exactly the slots i .. n - 1, in order. */
  lemma {:induction false} ListFromIsRange(next: seq<Link>, i: nat)
    requires WellLinked(next)
    requires i <= |next|
    ensures ListFrom(next, LinkAt(i, |next|)) == Range(i, |next|)
    decreases |next| - i
  {
    if i < |next| {
      ListFromIsRange(next, i + 1);
    }
  }

  /** The list starting at `head` holds every node of the arena, each once, in arena order. */
  lemma ListFromHeadIsArena(next: seq<Link>)
    requires WellLinked(next)
    ensures ListFrom(next, HeadLink(|next|)) == Range(0, |next|)
    ensures forall k: nat :: k in ListFrom(next, HeadLink(|next|)) <==> k < |next|
  {
    assert HeadLink(|next|) == LinkAt(0, |next|);
    ListFromIsRange(next, 0);
    RangeMembers(0, |next|);
  }

  /** `current` is a member of the list starting at `head`: it is `head` itself
      (NULL when the list is empty) or a node reached by following `next`. */
  predicate CursorOnList(next: seq<Link>, head: Link, cur: Link)
    requires WellLinked(next)
  {
    cur == head || (cur.Node? && cur.index in ListFrom(next, head))
  }

  /** For a well-linked arena whose `head` is its first slot, a cursor is on the
      list exactly when it is NULL on an empty list or names an existing node. */
  lemma CursorOnListIff(next: seq<Link>, cur: Link)
    requires WellLinked(next)
    ensures CursorOnList(next, HeadLink(|next|), cur)
        <==> (if |next| == 0 then cur.Null? else cur.Node? && cur.index < |next|)
  {
    ListFromHeadIsArena(next);
  }
}
