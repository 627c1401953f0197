/** The singly threaded lists of `include/list.h` whose nodes carry `pprev`, the address of the
    pointer that points at them: `head.first` for the first node, the `next` field of the
    predecessor for every other one.
  */
module LinuxHList {
  import opened Wrappers

  class HListHead {
    var first: HListNode?

    /** `HLIST_HEAD_INIT` */
    constructor ()
      ensures first == null
    {
      first := null;
    }
  }

  class HListNode {
    var next: HListNode?
    var pprev: Slot

    /** `INIT_HLIST_NODE` */
    constructor ()
      ensures next == null && pprev == NullSlot
    {
      next, pprev := null, NullSlot;
    }
  }

  /** A `struct hlist_node **`: the address of one pointer field, or null. */
  datatype Slot = NullSlot | First(head: HListHead) | NextOf(node: HListNode)

  /** `*slot` */
  ghost function Target(slot: Slot): HListNode?
    requires slot != NullSlot
    reads if slot.First? then {slot.head} else {slot.node}
  {
    if slot.First? then slot.head.first else slot.node.next
  }

  ghost function SlotAt(head: HListHead, s: seq<HListNode>, k: nat): Slot
    requires k <= |s|
  {
    if k == 0 then First(head) else NextOf(s[k - 1])
  }

  ghost function NodeAt(s: seq<HListNode>, k: nat): HListNode? {
    if k < |s| then s[k] else null
  }

  ghost predicate HList(head: HListHead, s: seq<HListNode>)
    reads head, s
  {
    && Distinct(s)
    && head.first == NodeAt(s, 0)
    && (forall i {:trigger s[i].next} :: 0 <= i < |s| ==> s[i].next == NodeAt(s, i + 1))
    && (forall i {:trigger s[i].pprev} :: 0 <= i < |s| ==> s[i].pprev == SlotAt(head, s, i))
  }

  /** The invariant the code relies on: `pprev` of every node designates exactly the one pointer
      of the list that points at the node. */
  lemma {:induction false} PprevDesignates(head: HListHead, s: seq<HListNode>, i: nat, k: nat)
    requires HList(head, s) && i < |s| && k <= |s|
    ensures s[i].pprev != NullSlot && Target(s[i].pprev) == s[i]
    ensures Target(SlotAt(head, s, k)) == s[i] <==> s[i].pprev == SlotAt(head, s, k)
  {
    assert Target(SlotAt(head, s, i)) == s[i] by {
      if i > 0 { assert s[i - 1].next == s[i]; }
    }
    assert Target(SlotAt(head, s, k)) == NodeAt(s, k) by {
      if k > 0 { assert s[k - 1].next == NodeAt(s, k); }
    }
    if k != i && k < |s| {
      assert s[k] != s[i];
    }
    assert SlotAt(head, s, k) == SlotAt(head, s, i) ==> k == i;
  }

  /** `*slot = value` */
  method Store(slot: Slot, value: HListNode?)
    requires slot != NullSlot
    modifies (if slot.First? then {slot.head} else {})`first, (if slot.NextOf? then {slot.node} else {})`next
    ensures slot.First? ==> slot.head.first == value
    ensures slot.NextOf? ==> slot.node.next == value
  {
    if slot.First? {
      slot.head.first := value;
    } else {
      slot.node.next := value;
    }
  }

  /** `hlist_del`: the removed node keeps its stale pointers. */
  method HListDel(n: HListNode, ghost head: HListHead, ghost s: seq<HListNode>, ghost k: nat)
    requires HList(head, s) && k < |s| && s[k] == n
    modifies (if k == 0 then {head} else {})`first, (if k > 0 then {s[k - 1]} else {})`next,
      (if k + 1 < |s| then {s[k + 1]} else {})`pprev
    ensures HList(head, s[..k] + s[k + 1..])
  {
    assert n.next == NodeAt(s, k + 1) && n.pprev == SlotAt(head, s, k);
    Store(n.pprev, n.next);
    if n.next != null {
      n.next.pprev := n.pprev;
    }
    ghost var t := s[..k] + s[k + 1..];
    forall i | 0 <= i < |t|
      ensures t[i].next == NodeAt(t, i + 1) && t[i].pprev == SlotAt(head, t, i)
    {
      assert t[i] == if i < k then s[i] else s[i + 1];
    }
  }

  /** `hlist_del_init` on a hashed node; on an unhashed one (null `pprev`) it does nothing. */
  method HListDelInit(n: HListNode, ghost head: HListHead, ghost s: seq<HListNode>, ghost k: nat)
    requires HList(head, s)
    requires n.pprev == NullSlot || (k < |s| && s[k] == n)
    modifies n, head`first, (if 0 < k <= |s| then {s[k - 1]} else {})`next,
      (if k + 1 < |s| then {s[k + 1]} else {})`pprev
    ensures old(n.pprev) == NullSlot ==> HList(head, s) && n.next == old(n.next) && n.pprev == NullSlot
    ensures old(n.pprev) != NullSlot ==> HList(head, s[..k] + s[k + 1..]) && n.next == null && n.pprev == NullSlot
  {
    if n.pprev == NullSlot {
      return;
    }
    HListDel(n, head, s, k);
    ghost var t := s[..k] + s[k + 1..];
    assert n !in t;
    n.next, n.pprev := null, NullSlot;
    assert forall i :: 0 <= i < |t| ==> t[i] != n;
  }

  /** `hlist_add_head` */
  method HListAddHead(n: HListNode, h: HListHead, ghost s: seq<HListNode>)
    requires HList(h, s) && n !in s
    modifies n, h, (if s == [] then {} else {s[0]})`pprev
    ensures HList(h, [n] + s)
  {
    n.next := h.first;
    if h.first != null {
      h.first.pprev := NextOf(n);
    }
    h.first := n;
    n.pprev := First(h);
    ghost var t := [n] + s;
    forall i | 0 <= i < |t|
      ensures t[i].next == NodeAt(t, i + 1) && t[i].pprev == SlotAt(h, t, i)
    {
      if i > 0 { assert t[i] == s[i - 1]; }
    }
  }

  /** `hlist_add_before` */
  method HListAddBefore(n: HListNode, next: HListNode, ghost head: HListHead, ghost s: seq<HListNode>, ghost k: nat)
    requires HList(head, s) && n !in s && k < |s| && s[k] == next
    modifies n, next`pprev, (if k == 0 then {head} else {})`first, (if k > 0 then {s[k - 1]} else {})`next
    ensures HList(head, s[..k] + [n] + s[k..])
  {
    assert next.pprev == SlotAt(head, s, k);
    n.pprev := next.pprev;
    n.next := next;
    next.pprev := NextOf(n);
    Store(n.pprev, n);
    ghost var t := s[..k] + [n] + s[k..];
    forall i | 0 <= i < |t|
      ensures t[i].next == NodeAt(t, i + 1) && t[i].pprev == SlotAt(head, t, i)
    {
      assert t[i] == if i < k then s[i] else if i == k then n else s[i - 1];
    }
  }

  /** `hlist_add_behind` */
  method HListAddBehind(n: HListNode, prev: HListNode, ghost head: HListHead, ghost s: seq<HListNode>, ghost k: nat)
    requires HList(head, s) && n !in s && k < |s| && s[k] == prev
    modifies n, prev`next, (if k + 1 < |s| then {s[k + 1]} else {})`pprev
    ensures HList(head, s[..k + 1] + [n] + s[k + 1..])
  {
    assert prev.next == NodeAt(s, k + 1);
    n.next := prev.next;
    prev.next := n;
    n.pprev := NextOf(prev);
    if n.next != null {
      n.next.pprev := NextOf(n);
    }
    ghost var t := s[..k + 1] + [n] + s[k + 1..];
    forall i | 0 <= i < |t|
      ensures t[i].next == NodeAt(t, i + 1) && t[i].pprev == SlotAt(head, t, i)
    {
      assert t[i] == if i <= k then s[i] else if i == k + 1 then n else s[i - 1];
    }
  }

  /** `hlist_move_list` */
  method HListMoveList(from: HListHead, to: HListHead, ghost s: seq<HListNode>)
    requires HList(from, s) && from != to
    modifies from, to, (if s == [] then {} else {s[0]})`pprev
    ensures HList(to, s) && HList(from, [])
  {
    to.first := from.first;
    if to.first != null {
      to.first.pprev := First(to);
    }
    from.first := null;
    forall i | 0 <= i < |s|
      ensures s[i].next == NodeAt(s, i + 1) && s[i].pprev == SlotAt(to, s, i)
    {
      if i > 0 { assert s[i] != s[0]; }
    }
  }
}
