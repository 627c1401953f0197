/** The intrusive doubly linked rings of `include/list.h`.

    A ring is a head node and the entries threaded behind it. `Ring(head, s)` ties the
    `next`/`prev` pointers to the sequence `s` of entries, so each pointer operation can be
    specified by its effect on `s`. The `modifies` clauses name single fields of single
    nodes: nothing else in the heap may change.
  */
module LinuxList {
  import opened Wrappers

  /** `struct list_head`. `entry` is the position of the enclosing object in the array it lives
      in, which is what `list_entry`/`container_of` recovers from a pointer to the node. */
  class ListHead {
    var next: ListHead
    var prev: ListHead
    const entry: nat

    /** `LIST_HEAD_INIT` */
    constructor (entry: nat)
      ensures Ring(this, []) && this.entry == entry
    {
      next, prev := this, this;
      this.entry := entry;
      new;
      assert Round(this, []) == [this, this];
    }
  }

  /** Consecutive nodes of `c` point at each other. */
  ghost predicate Chain(c: seq<ListHead>)
    reads c
  {
    && (forall i {:trigger c[i].next} :: 0 <= i < |c| - 1 ==> c[i].next == c[i + 1])
    && (forall i {:trigger c[i].prev} :: 0 < i < |c| ==> c[i].prev == c[i - 1])
  }

  /** The nodes met on one trip around the ring, the head at both ends. */
  ghost function Round(head: ListHead, s: seq<ListHead>): seq<ListHead> {
    [head] + s + [head]
  }

  ghost predicate Ring(head: ListHead, s: seq<ListHead>)
    reads head, s
  {
    head !in s && Distinct(s) && Chain(Round(head, s))
  }

  ghost function Without<T>(s: seq<T>, k: nat): seq<T>
    requires k < |s|
  {
    s[..k] + s[k + 1..]
  }

  lemma RoundIsDistinct(head: ListHead, s: seq<ListHead>)
    requires head !in s && Distinct(s)
    ensures forall i, j :: 0 <= i < j <= |s| ==> Round(head, s)[i] != Round(head, s)[j]
    ensures forall i, j :: 0 < i < j < |s| + 2 ==> Round(head, s)[i] != Round(head, s)[j]
  {}

  /** A ring, pair by pair. */
  lemma Linked(head: ListHead, s: seq<ListHead>)
    requires head !in s && Distinct(s)
    requires var c := Round(head, s);
             forall i {:trigger c[i].next} :: 0 <= i <= |s| ==> c[i].next == c[i + 1] && c[i + 1].prev == c[i]
    ensures Ring(head, s)
  {
    var c := Round(head, s);
    forall i {:trigger c[i].prev} | 0 < i < |c|
      ensures c[i].prev == c[i - 1]
    {
      assert c[i - 1].next == c[i];
    }
  }

  // ---------- reading a ring ----------

  lemma RingAt(head: ListHead, s: seq<ListHead>, k: nat)
    requires Ring(head, s) && k < |s|
    ensures s[k].next == if k + 1 < |s| then s[k + 1] else head
    ensures s[k].prev == if k > 0 then s[k - 1] else head
  {
    var c := Round(head, s);
    assert c[k + 1] == s[k];
    assert c[k + 1].next == c[k + 2] && c[k + 1].prev == c[k];
  }

  lemma RingEnds(head: ListHead, s: seq<ListHead>)
    requires Ring(head, s)
    ensures head.next == if s == [] then head else s[0]
    ensures head.prev == if s == [] then head else s[|s| - 1]
  {
    var c := Round(head, s);
    assert c[0] == head && c[0].next == c[1];
    assert c[|c| - 1] == head && c[|c| - 1].prev == c[|c| - 2];
  }

  /** The pointers determine the sequence: a heap holds at most one ring through a head. */
  lemma {:induction false} RingIsUnique(head: ListHead, s: seq<ListHead>, t: seq<ListHead>)
    requires Ring(head, s) && Ring(head, t)
    ensures s == t
  {
    RingsAgree(head, s, t, |s|);
    if |s| < |t| {
      RingsAgree(head, t, s, |s| + 1);
    }
  }

  lemma {:induction false} RingsAgree(head: ListHead, s: seq<ListHead>, t: seq<ListHead>, n: nat)
    requires Ring(head, s) && Ring(head, t) && n <= |s|
    ensures n <= |t| && s[..n] == t[..n]
  {
    if n > 0 {
      RingsAgree(head, s, t, n - 1);
      RingEnds(head, s);
      RingEnds(head, t);
      if n > 1 {
        RingAt(head, s, n - 2);
        assert s[n - 2] == s[..n - 1][n - 2] == t[..n - 1][n - 2];
        RingAt(head, t, n - 2);
      }
      assert s[..n] == s[..n - 1] + [s[n - 1]];
      assert t[..n] == t[..n - 1] + [t[n - 1]];
    }
  }

  /** `list_empty` */
  method ListEmpty(head: ListHead, ghost s: seq<ListHead>) returns (empty: bool)
    requires Ring(head, s)
    ensures empty <==> s == []
  {
    RingEnds(head, s);
    empty := head.next == head;
  }

  /** `list_first_entry_or_null` */
  method ListFirstEntryOrNull(head: ListHead, ghost s: seq<ListHead>) returns (first: ListHead?)
    requires Ring(head, s)
    ensures first == if s == [] then null else s[0]
  {
    RingEnds(head, s);
    if head.next != head {
      first := head.next;
    } else {
      first := null;
    }
  }

  /** `list_is_singular` */
  method ListIsSingular(head: ListHead, ghost s: seq<ListHead>) returns (singular: bool)
    requires Ring(head, s)
    ensures singular <==> |s| == 1
  {
    RingEnds(head, s);
    singular := head.next != head && head.next == head.prev;
    if |s| > 1 {
      assert s[0] != s[|s| - 1];
    }
  }

  // ---------- insertion ----------

  lemma RoundInsert(head: ListHead, s: seq<ListHead>, entry: ListHead, k: nat)
    requires k <= |s|
    ensures Round(head, s[..k] + [entry] + s[k..]) == Round(head, s)[..k + 1] + [entry] + Round(head, s)[k + 1..]
  {
    var c := Round(head, s);
    assert c[..k + 1] == [head] + s[..k];
    assert c[k + 1..] == s[k..] + [head];
  }

  /** `linux_list_add`: link `entry` between the neighbours `prev` and `next`. */
  method LinuxListAdd(entry: ListHead, prev: ListHead, next: ListHead, ghost head: ListHead, ghost s: seq<ListHead>,
      ghost k: nat)
    requires Ring(head, s) && entry != head && entry !in s && k <= |s|
    requires prev == Round(head, s)[k] && next == Round(head, s)[k + 1]
    modifies entry`next, entry`prev, prev`next, next`prev
    ensures Ring(head, s[..k] + [entry] + s[k..])
  {
    ghost var c := Round(head, s);
    RoundIsDistinct(head, s);
    RoundInsert(head, s, entry, k);
    next.prev := entry;
    entry.next := next;
    entry.prev := prev;
    prev.next := entry;
    ghost var t := s[..k] + [entry] + s[k..];
    ghost var d := Round(head, t);
    forall i | 0 <= i < |d| - 1
      ensures d[i].next == d[i + 1] && d[i + 1].prev == d[i]
    {
      if i < k {
        assert d[i] == c[i] && d[i + 1] == c[i + 1];
      } else if k + 1 < i {
        assert d[i] == c[i - 1] && d[i + 1] == c[i];
      }
    }
    assert Distinct(t) && head !in t;
  }

  /** `list_add` */
  method ListAdd(entry: ListHead, head: ListHead, ghost s: seq<ListHead>)
    requires Ring(head, s) && entry != head && entry !in s
    modifies entry`next, entry`prev, head`next, head.next`prev
    ensures Ring(head, [entry] + s)
  {
    RingEnds(head, s);
    LinuxListAdd(entry, head, head.next, head, s, 0);
    assert s[..0] + [entry] + s[0..] == [entry] + s;
  }

  /** `list_add_tail` */
  method ListAddTail(entry: ListHead, head: ListHead, ghost s: seq<ListHead>)
    requires Ring(head, s) && entry != head && entry !in s
    modifies entry`next, entry`prev, head`prev, head.prev`next
    ensures Ring(head, s + [entry])
  {
    RingEnds(head, s);
    LinuxListAdd(entry, head.prev, head, head, s, |s|);
    assert s[..|s|] + [entry] + s[|s|..] == s + [entry];
  }

  // ---------- removal ----------

  /** `list_del`: the pointers of the removed entry are left as they were. */
  method ListDel(entry: ListHead, ghost head: ListHead, ghost s: seq<ListHead>, ghost k: nat)
    requires Ring(head, s) && k < |s| && s[k] == entry
    modifies entry.prev`next, entry.next`prev
    ensures Ring(head, Without(s, k))
    ensures entry.next == old(entry.next) && entry.prev == old(entry.prev)
  {
    ghost var c := Round(head, s);
    RingAt(head, s, k);
    assert c[k + 1] == entry;
    entry.next.prev := entry.prev;
    entry.prev.next := entry.next;
    assert Round(head, Without(s, k)) == c[..k + 1] + c[k + 2..];
  }

  /** `list_del_init`: the removed entry becomes an empty ring of its own. */
  method ListDelInit(entry: ListHead, ghost head: ListHead, ghost s: seq<ListHead>, ghost k: nat)
    requires Ring(head, s) && k < |s| && s[k] == entry
    modifies entry`next, entry`prev, entry.prev`next, entry.next`prev
    ensures Ring(head, Without(s, k)) && Ring(entry, [])
  {
    RingAt(head, s, k);
    ListDel(entry, head, s, k);
    ghost var t := Without(s, k);
    assert entry !in t && entry != head;
    entry.next, entry.prev := entry, entry;
    assert entry !in Round(head, t);
    assert Chain(Round(entry, []));
  }

  /** `list_replace` */
  method ListReplace(old_: ListHead, new_: ListHead, ghost head: ListHead, ghost s: seq<ListHead>, ghost k: nat)
    requires Ring(head, s) && k < |s| && s[k] == old_ && new_ != head && new_ !in s
    modifies new_`next, new_`prev, old_.next`prev, old_.prev`next
    ensures Ring(head, s[k := new_])
  {
    ghost var c := Round(head, s);
    RingAt(head, s, k);
    assert c[k + 1] == old_;
    new_.next := old_.next;
    new_.next.prev := new_;
    new_.prev := old_.prev;
    new_.prev.next := new_;
    assert Round(head, s[k := new_]) == c[k + 1 := new_];
  }

  // ---------- moving ----------

  ghost predicate Apart(h1: ListHead, s1: seq<ListHead>, h2: ListHead, s2: seq<ListHead>) {
    forall x :: x in Round(h1, s1) ==> x !in Round(h2, s2)
  }

  /** `list_move_tail` between two rings. */
  method ListMoveTail(entry: ListHead, head: ListHead, ghost from: ListHead, ghost s: seq<ListHead>, ghost k: nat,
                      ghost t: seq<ListHead>)
    requires Ring(from, s) && Ring(head, t) && Apart(from, s, head, t) && k < |s| && s[k] == entry
    modifies entry`next, entry`prev, entry.prev`next, entry.next`prev, head`prev, head.prev`next
    ensures Ring(from, Without(s, k)) && Ring(head, t + [entry])
  {
    ghost var rest := Without(s, k);
    RingAt(from, s, k);
    RingEnds(head, t);
    ghost var c, d := Round(from, s), Round(head, t);
    assert c[k + 1] == entry && c[k] == entry.prev && c[k + 2] == entry.next;
    assert entry in c && entry.prev in c && entry.next in c;
    assert head in d && head.prev in d;
    ListDel(entry, from, s, k);
    ListAddTail(entry, head, t);
  }

  /** `list_rotate_to_front` is `list_move_tail` within one ring. */
  method ListRotateToFront(entry: ListHead, head: ListHead, ghost s: seq<ListHead>, ghost k: nat)
    requires Ring(head, s) && k < |s| && s[k] == entry
    modifies entry`next, entry`prev, entry.prev`next, entry.next`prev, head`prev, head.prev`next
    ensures Ring(head, Without(s, k) + [entry])
  {
    RingAt(head, s, k);
    RingEnds(head, s);
    ListDel(entry, head, s, k);
    RingEnds(head, Without(s, k));
    ListAddTail(entry, head, Without(s, k));
  }

  lemma UnlinkPlace(head: ListHead, s: seq<ListHead>, a: nat, b: nat, i: nat)
    requires a < b <= |s| && i < |s| - (b - a) + 2
    ensures Round(head, s[..a] + s[b..])[i] == if i <= a then Round(head, s)[i] else Round(head, s)[i + b - a]
  {}

  /** What the two stores of an unlink make of a ring. */
  lemma UnlinkRing(head: ListHead, s: seq<ListHead>, a: nat, b: nat)
    requires head !in s && Distinct(s) && a < b <= |s|
    requires var c := Round(head, s);
             && (forall i {:trigger c[i].next} :: 0 <= i <= |s| && i != a ==> c[i].next == c[i + 1])
             && (forall i {:trigger c[i].prev} :: 0 < i <= |s| + 1 && i != b + 1 ==> c[i].prev == c[i - 1])
             && c[a].next == c[b + 1] && c[b + 1].prev == c[a]
    ensures Ring(head, s[..a] + s[b..]) && Chain(s[a..b])
  {
    var c, m, d := Round(head, s), s[a..b], Round(head, s[..a] + s[b..]);
    forall i {:trigger d[i].next} | 0 <= i < |d| - 1
      ensures d[i].next == d[i + 1] && d[i + 1].prev == d[i]
    {
      UnlinkPlace(head, s, a, b, i);
      UnlinkPlace(head, s, a, b, i + 1);
      if i < a {
        assert c[i].next == c[i + 1] && c[i + 1].prev == c[i];
      } else if a < i {
        assert c[i - a + b].next == c[i - a + b + 1] && c[i - a + b + 1].prev == c[i - a + b];
      }
    }
    Linked(head, s[..a] + s[b..]);
    assert forall i :: 0 <= i < |m| ==> m[i] == c[a + 1 + i];
  }

  /** The first two stores of `list_bulk_move_tail` take the segment `s[a..b]` out. */
  method UnlinkSegment(first: ListHead, last: ListHead, ghost head: ListHead, ghost s: seq<ListHead>, ghost a: nat,
      ghost b: nat)
    requires Ring(head, s) && a < b <= |s| && s[a] == first && s[b - 1] == last
    modifies first.prev`next, last.next`prev
    ensures Ring(head, s[..a] + s[b..]) && Chain(s[a..b])
  {
    ghost var c := Round(head, s);
    RingAt(head, s, a);
    RingAt(head, s, b - 1);
    RoundIsDistinct(head, s);
    assert c[a + 1] == first && c[b] == last && c[a] == first.prev && c[b + 1] == last.next;
    first.prev.next := last.next;
    last.next.prev := first.prev;
    assert forall i {:trigger c[i].next} :: 0 <= i <= |s| && i != a ==> c[i].next == c[i + 1];
    assert forall i {:trigger c[i].prev} :: 0 < i <= |s| + 1 && i != b + 1 ==> c[i].prev == c[i - 1];
    hide Chain;
    UnlinkRing(head, s, a, b);
  }

  /** Its other four stores put a chain of nodes in at the end. */
  method LinkSegmentTail(head: ListHead, first: ListHead, last: ListHead, ghost t: seq<ListHead>,
      ghost m: seq<ListHead>)
    requires Ring(head, t) && Chain(m) && m != [] && m[0] == first && m[|m| - 1] == last
    requires Distinct(t + m) && head !in m
    modifies first`prev, last`next, head`prev, head.prev`next
    ensures Ring(head, t + m)
  {
    ghost var c, d := Round(head, t), Round(head, t + m);
    RingEnds(head, t);
    RoundIsDistinct(head, t + m);
    head.prev.next := first;
    first.prev := head.prev;
    last.next := head;
    head.prev := last;
    assert d == c[..|t| + 1] + m + [head];
    assert d[|t|] == c[|t|] && d[|t| + 1] == first && d[|d| - 2] == last;
    forall i | 0 <= i < |d| - 1
      ensures d[i].next == d[i + 1] && d[i + 1].prev == d[i]
    {
      if i < |t| {
        assert d[i] == c[i] && d[i + 1] == c[i + 1];
      } else if |t| < i < |d| - 2 {
        assert d[i] == m[i - |t| - 1] && d[i + 1] == m[i - |t|];
      }
    }
  }

  /** `list_bulk_move_tail`: the segment `s[a..b]` goes to the end of its own ring. */
  method ListBulkMoveTail(head: ListHead, first: ListHead, last: ListHead, ghost s: seq<ListHead>, ghost a: nat,
      ghost b: nat)
    requires Ring(head, s) && a < b <= |s| && s[a] == first && s[b - 1] == last
    modifies first`prev, last`next, first.prev`next, last.next`prev, head`prev, head.prev`next
    ensures Ring(head, s[..a] + s[b..] + s[a..b])
  {
    RingAt(head, s, a);
    RingAt(head, s, b - 1);
    RingEnds(head, s);
    Permuted(s, a, b);
    UnlinkSegment(first, last, head, s, a, b);
    RingEnds(head, s[..a] + s[b..]);
    LinkSegmentTail(head, first, last, s[..a] + s[b..], s[a..b]);
  }

  lemma ApartMembers(h1: ListHead, s1: seq<ListHead>, h2: ListHead, s2: seq<ListHead>)
    requires Apart(h1, s1, h2, s2)
    ensures h1 != h2 && h1 !in s2 && h2 !in s1
    ensures forall x :: x in s1 ==> x !in s2
  {
    var c, d := Round(h1, s1), Round(h2, s2);
    assert forall x :: x in s1 ==> x in c;
    assert forall x :: x in s2 ==> x in d;
    assert h1 in c && h2 in d;
  }

  lemma Spliced<T>(s: seq<T>, t: seq<T>, k: nat)
    requires Distinct(s) && Distinct(t) && k <= |t| && forall x :: x in s ==> x !in t
    ensures Distinct(t[..k] + s + t[k..])
    ensures forall x :: x in t[..k] + s + t[k..] <==> x in s || x in t
  {
    var r := t[..k] + s + t[k..];
    assert t == t[..k] + t[k..];
    forall i, j | 0 <= i < j < |r|
      ensures r[i] != r[j]
    {
      if k <= i < k + |s| {
        assert r[i] in s;
        assert !(k <= j < k + |s|) ==> r[j] in t;
      } else if k <= j < k + |s| {
        assert r[j] in s && r[i] in t;
      }
    }
  }

  lemma Permuted<T>(s: seq<T>, a: nat, b: nat)
    requires Distinct(s) && a <= b <= |s|
    ensures Distinct(s[..a] + s[b..] + s[a..b])
    ensures forall x :: x in s[..a] + s[b..] + s[a..b] <==> x in s
  {
    assert s == s[..a] + s[a..b] + s[b..];
  }

  // ---------- splicing and cutting ----------

  lemma SplicePlace(head: ListHead, s: seq<ListHead>, t: seq<ListHead>, k: nat, i: nat)
    requires k <= |t| && i < |s| + |t| + 2
    ensures Round(head, t[..k] + s + t[k..])[i]
         == if i <= k then Round(head, t)[i] else if i <= k + |s| then s[i - k - 1] else Round(head, t)[i - |s|]
  {}

  /** What the four stores of a splice make of a ring and the entries of another. */
  lemma SpliceRing(head: ListHead, s: seq<ListHead>, t: seq<ListHead>, k: nat)
    requires s != [] && k <= |t| && head !in t[..k] + s + t[k..] && Distinct(t[..k] + s + t[k..])
    requires var c := Round(head, t);
             && (forall i {:trigger c[i].next} :: 0 <= i <= |t| && i != k ==> c[i].next == c[i + 1])
             && (forall i {:trigger c[i].prev} :: 0 < i <= |t| + 1 && i != k + 1 ==> c[i].prev == c[i - 1])
             && c[k].next == s[0] && s[0].prev == c[k] && s[|s| - 1].next == c[k + 1] && c[k + 1].prev == s[|s| - 1]
    requires forall i {:trigger s[i].next} :: 0 <= i < |s| - 1 ==> s[i].next == s[i + 1]
    requires forall i {:trigger s[i].prev} :: 0 < i < |s| ==> s[i].prev == s[i - 1]
    ensures Ring(head, t[..k] + s + t[k..])
  {
    var c, d, n := Round(head, t), Round(head, t[..k] + s + t[k..]), |s|;
    forall i {:trigger d[i].next} | 0 <= i < |d| - 1
      ensures d[i].next == d[i + 1] && d[i + 1].prev == d[i]
    {
      SplicePlace(head, s, t, k, i);
      SplicePlace(head, s, t, k, i + 1);
      if i < k {
        assert c[i].next == c[i + 1] && c[i + 1].prev == c[i];
      } else if k < i < k + n {
        assert s[i - k - 1].next == s[i - k] && s[i - k].prev == s[i - k - 1];
      } else if k + n < i {
        assert c[i - n].next == c[i - n + 1] && c[i - n + 1].prev == c[i - n];
      }
    }
    Linked(head, t[..k] + s + t[k..]);
  }

  /** `linux_list_splice`: the entries of `list` are linked in between `prev` and `next`; `list`
      itself keeps its pointers. */
  method LinuxListSplice(list: ListHead, prev: ListHead, next: ListHead,
                         ghost s: seq<ListHead>, ghost head: ListHead, ghost t: seq<ListHead>, ghost k: nat)
    requires Ring(list, s) && Ring(head, t) && Apart(list, s, head, t) && k <= |t|
    requires prev == Round(head, t)[k] && next == Round(head, t)[k + 1]
    modifies list.next`prev, list.prev`next, prev`next, next`prev
    ensures Ring(head, t[..k] + s + t[k..])
    ensures s == [] ==> Ring(list, [])
    ensures list.next == old(list.next) && list.prev == old(list.prev)
  {
    RingEnds(list, s);
    if list.next == list {
      assert t[..k] + s + t[k..] == t;
      return;
    }
    ghost var c := Round(head, t);
    SpliceApart(list, s, head, t, k);
    var first, last := list.next, list.prev;
    first.prev := prev;
    prev.next := first;
    last.next := next;
    next.prev := last;
    assert forall i {:trigger c[i].next} :: 0 <= i <= |t| && i != k ==> c[i].next == c[i + 1];
    assert forall i {:trigger c[i].prev} :: 0 < i <= |t| + 1 && i != k + 1 ==> c[i].prev == c[i - 1];
    assert forall i {:trigger s[i].next} :: 0 <= i < |s| - 1 ==> s[i].next == s[i + 1];
    assert forall i {:trigger s[i].prev} :: 0 < i < |s| ==> s[i].prev == s[i - 1];
    assert first == s[0] && last == s[|s| - 1];
    hide Ring, Chain, Distinct, Apart;
    SpliceRing(head, s, t, k);
  }

  /** The nodes of two rings, before the splice. */
  lemma SpliceApart(list: ListHead, s: seq<ListHead>, head: ListHead, t: seq<ListHead>, k: nat)
    requires Ring(list, s) && Ring(head, t) && Apart(list, s, head, t) && k <= |t| && s != []
    ensures Distinct(t[..k] + s + t[k..]) && head !in t[..k] + s + t[k..] && list != head && list !in t
    ensures forall i, j :: 0 <= i <= |t| + 1 && 0 <= j < |s| ==> Round(head, t)[i] != s[j]
    ensures forall i, j :: 0 <= i < j <= |t| ==> Round(head, t)[i] != Round(head, t)[j]
    ensures forall i, j :: 0 < i < j <= |t| + 1 ==> Round(head, t)[i] != Round(head, t)[j]
    ensures forall i {:trigger s[i].next} :: 0 <= i < |s| - 1 ==> s[i].next == s[i + 1]
    ensures forall i {:trigger s[i].prev} :: 0 < i < |s| ==> s[i].prev == s[i - 1]
    ensures forall i {:trigger Round(head, t)[i].next} :: 0 <= i <= |t| ==>
      Round(head, t)[i].next == Round(head, t)[i + 1]
    ensures forall i {:trigger Round(head, t)[i].prev} :: 0 < i <= |t| + 1 ==>
              Round(head, t)[i].prev == Round(head, t)[i - 1]
  {
    var c, e := Round(head, t), Round(list, s);
    ApartMembers(list, s, head, t);
    Spliced(s, t, k);
    RoundIsDistinct(head, t);
    forall i, j | 0 <= i <= |t| + 1 && 0 <= j < |s|
      ensures c[i] != s[j]
    {
      assert c[i] in c && e[j + 1] == s[j] && s[j] in e;
    }
    forall i | 0 <= i < |s|
      ensures i + 1 < |s| ==> s[i].next == s[i + 1]
      ensures i > 0 ==> s[i].prev == s[i - 1]
    {
      RingAt(list, s, i);
    }
  }

  /** `list_splice` */
  method ListSplice(list: ListHead, head: ListHead, ghost s: seq<ListHead>, ghost t: seq<ListHead>)
    requires Ring(list, s) && Ring(head, t) && Apart(list, s, head, t)
    modifies list.next`prev, list.prev`next, head`next, head.next`prev
    ensures Ring(head, s + t)
    ensures list.next == old(list.next) && list.prev == old(list.prev)
  {
    RingEnds(head, t);
    LinuxListSplice(list, head, head.next, s, head, t, 0);
    assert t[..0] + s + t[0..] == s + t;
  }

  /** `list_splice_tail_init` */
  method ListSpliceTailInit(list: ListHead, head: ListHead, ghost s: seq<ListHead>, ghost t: seq<ListHead>)
    requires Ring(list, s) && Ring(head, t) && Apart(list, s, head, t)
    modifies list`next, list`prev, list.next`prev, list.prev`next, head`prev, head.prev`next
    ensures Ring(head, t + s) && Ring(list, [])
  {
    RingEnds(head, t);
    LinuxListSplice(list, head.prev, head, s, head, t, |t|);
    assert t[..|t|] + s + t[|t|..] == t + s;
    ApartMembers(list, s, head, t);
    list.next, list.prev := list, list;
    assert Chain(Round(list, []));
  }

  /** `list_cut_position`: the entries of `head` up to and including `entry` move to `list`, which
      need not be initialised. `k` entries move; `k == 0` stands for `entry == head`. An empty
      `head` is left alone and so is `list`. */
  method ListCutPosition(list: ListHead, head: ListHead, entry: ListHead, ghost s: seq<ListHead>, ghost k: nat)
    requires Ring(head, s) && list != head && list !in s && k <= |s| && entry == Round(head, s)[k]
    modifies list`next, list`prev, head`next, head.next`prev, entry`next, entry.next`prev
    ensures s == [] ==> Ring(head, []) && list.next == old(list.next) && list.prev == old(list.prev)
    ensures s != [] ==> Ring(list, s[..k]) && Ring(head, s[k..])
  {
    RingEnds(head, s);
    var empty := ListEmpty(head, s);
    if empty {
      return;
    }
    var singular := ListIsSingular(head, s);
    if singular && head.next != entry && head != entry {
      assert false;
      return;
    }
    if entry == head {
      assert k == 0;
      list.next, list.prev := list, list;
      assert Chain(Round(list, s[..0]));
      assert s[0..] == s;
    } else {
      CutInner(list, head, entry, s, k);
    }
  }

  /** What the six stores of the cut make of a ring. */
  lemma CutRings(list: ListHead, head: ListHead, s: seq<ListHead>, k: nat)
    requires head !in s && Distinct(s) && list != head && list !in s && 0 < k <= |s|
    requires var c := Round(head, s);
             && (forall i {:trigger c[i].next} :: 0 < i <= |s| && i != k ==> c[i].next == c[i + 1])
             && (forall i {:trigger c[i].prev} :: 1 < i <= |s| + 1 && i != k + 1 ==> c[i].prev == c[i - 1])
             && c[1].prev == list && c[k].next == list && list.next == c[1] && list.prev == c[k]
             && head.next == c[k + 1] && c[k + 1].prev == head
    ensures Ring(list, s[..k]) && Ring(head, s[k..])
  {
    var c, e, d := Round(head, s), Round(list, s[..k]), Round(head, s[k..]);
    assert forall i :: 0 < i <= k ==> e[i] == c[i];
    forall i {:trigger e[i].next} | 0 <= i <= k
      ensures e[i].next == e[i + 1] && e[i + 1].prev == e[i]
    {
      if 0 < i < k {
        assert c[i].next == c[i + 1] && c[i + 1].prev == c[i];
      }
    }
    Linked(list, s[..k]);
    assert forall i :: 0 < i < |d| ==> d[i] == c[k + i];
    forall i {:trigger d[i].next} | 0 <= i < |d| - 1
      ensures d[i].next == d[i + 1] && d[i + 1].prev == d[i]
    {
      if i > 0 {
        assert c[k + i].next == c[k + i + 1] && c[k + i + 1].prev == c[k + i];
      }
    }
    Linked(head, s[k..]);
  }

  /** `__list_cut_position` */
  method CutInner(list: ListHead, head: ListHead, entry: ListHead, ghost s: seq<ListHead>, ghost k: nat)
    requires Ring(head, s) && list != head && list !in s && 0 < k <= |s| && entry == s[k - 1]
    modifies list`next, list`prev, head`next, head.next`prev, entry`next, entry.next`prev
    ensures Ring(list, s[..k]) && Ring(head, s[k..])
  {
    ghost var c := Round(head, s);
    RingAt(head, s, k - 1);
    RingEnds(head, s);
    var newFirst := entry.next;
    assert c[k] == entry && c[k + 1] == newFirst && c[1] == s[0];
    list.next := head.next;
    list.next.prev := list;
    list.prev := entry;
    entry.next := list;
    head.next := newFirst;
    newFirst.prev := head;
    RoundIsDistinct(head, s);
    assert forall i {:trigger c[i].next} :: 0 < i <= |s| && i != k ==> c[i].next == c[i + 1];
    assert forall i {:trigger c[i].prev} :: 1 < i <= |s| + 1 && i != k + 1 ==> c[i].prev == c[i - 1];
    CutRings(list, head, s, k);
  }

  lemma PrefixApart(list: ListHead, head: ListHead, s: seq<ListHead>, k: nat)
    requires Ring(head, s) && list != head && list !in s && k <= |s|
    ensures Apart(list, s[..k], head, s[k..])
  {
    forall x | x in Round(list, s[..k])
      ensures x !in Round(head, s[k..])
    {
      assert x == list || x in s[..k];
    }
  }

  /** Cutting a prefix off and splicing it back in front restores every pointer of the ring. */
  method CutAndSpliceBack(list: ListHead, head: ListHead, entry: ListHead, ghost s: seq<ListHead>, ghost k: nat)
    requires Ring(head, s) && s != [] && list != head && list !in s && k <= |s| && entry == Round(head, s)[k]
    modifies list, head, s
    ensures Ring(head, s)
    ensures head.next == old(head.next) && head.prev == old(head.prev)
    ensures forall x :: x in s ==> x.next == old(x.next) && x.prev == old(x.prev)
  {
    RingEnds(head, s);
    forall i {:trigger s[i].next} | 0 <= i < |s|
      ensures s[i].next == if i + 1 < |s| then s[i + 1] else head
    {
      RingAt(head, s, i);
    }
    forall i {:trigger s[i].prev} | 0 <= i < |s|
      ensures s[i].prev == if i > 0 then s[i - 1] else head
    {
      RingAt(head, s, i);
    }
    PrefixApart(list, head, s, k);
    hide Ring, Apart, Round;
    ListCutPosition(list, head, entry, s, k);
    RingEnds(list, s[..k]);
    RingEnds(head, s[k..]);
    ListSplice(list, head, s[..k], s[k..]);
    assert s[..k] + s[k..] == s;
    RingEnds(head, s);
    forall i {:trigger s[i].next} {:trigger s[i].prev} | 0 <= i < |s|
      ensures s[i].next == old(s[i].next) && s[i].prev == old(s[i].prev)
    {
      RingAt(head, s, i);
    }
  }
}
