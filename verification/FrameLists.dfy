/** The rings the frame buffers are threaded on, all of them at once: the heap of `LinuxList` on one
    side, one sequence of buffer numbers per ring on the other.
  */
module FrameLists {
  import opened LinuxList
  import opened Wrappers

  ghost predicate InRange(n: nat, q: seq<nat>) {
    forall k :: 0 <= k < |q| ==> q[k] < n
  }

  /** No buffer is on two rings. */
  ghost predicate QueuesOk(n: nat, qs: seq<seq<nat>>) {
    && (forall i :: 0 <= i < |qs| ==> InRange(n, qs[i]))
    && (forall i, j :: 0 <= i < |qs| && 0 <= j < |qs| && i != j ==> Disjoint(qs[i], qs[j]))
  }

  ghost predicate Disjoint(p: seq<nat>, q: seq<nat>) {
    forall k, l :: 0 <= k < |p| && 0 <= l < |q| ==> p[k] != q[l]
  }

  ghost predicate OnNone(x: nat, qs: seq<seq<nat>>) {
    forall i, k :: 0 <= i < |qs| && 0 <= k < |qs[i]| ==> qs[i][k] != x
  }

  ghost function Nodes(nodes: seq<ListHead>, q: seq<nat>): (r: seq<ListHead>)
    requires InRange(|nodes|, q)
    ensures |r| == |q| && forall k :: 0 <= k < |q| ==> q[k] < |nodes| && r[k] == nodes[q[k]]
    ensures forall x :: x in r ==> x in nodes
  {
    seq(|q|, k requires 0 <= k < |q| => nodes[q[k]])
  }

  class FrameLists {
    const nodes: seq<ListHead>   // msgbuf[i].list
    const heads: seq<ListHead>   // list_frame_pool, list_to_host, channels[i].list_from_host

    constructor (nodes: seq<ListHead>, heads: seq<ListHead>)
      ensures this.nodes == nodes && this.heads == heads
    {
      this.nodes, this.heads := nodes, heads;
    }

    ghost predicate NodesOk() {
      && Distinct(nodes) && Distinct(heads)
      && (forall i :: 0 <= i < |heads| ==> heads[i] !in nodes)
      && (forall k :: 0 <= k < |nodes| ==> nodes[k].entry == k)
    }

    ghost predicate RingOk(i: nat, q: seq<nat>)
      requires i < |heads| && InRange(|nodes|, q)
      reads heads[i], nodes
    {
      Ring(heads[i], Nodes(nodes, q))
    }

    /** Ring `i` holds the buffers `qs[i]`, in this order. */
    ghost predicate Holds(qs: seq<seq<nat>>)
      reads heads, nodes
    {
      && NodesOk() && |qs| == |heads| && QueuesOk(|nodes|, qs)
      && forall i :: 0 <= i < |heads| ==> RingOk(i, qs[i])
    }

    lemma OnOneRing(i: nat, p: seq<nat>, j: nat, q: seq<nat>, x: ListHead)
      requires NodesOk() && i < |heads| && j < |heads| && i != j
      requires InRange(|nodes|, p) && InRange(|nodes|, q) && Disjoint(p, q)
      requires x in Round(heads[i], Nodes(nodes, p))
      ensures x != heads[j] && x !in Nodes(nodes, q)
    {
      var s, t := Nodes(nodes, p), Nodes(nodes, q);
      if x in s {
        var k :| 0 <= k < |s| && s[k] == x;
        forall l | 0 <= l < |t|
          ensures t[l] != x
        {
          assert p[k] != q[l];
        }
      } else {
        assert x == heads[i];
      }
    }

    /** A node on no ring. */
    ghost predicate Loose(node: ListHead, qs: seq<seq<nat>>) {
      node.entry < |nodes| && nodes[node.entry] == node && OnNone(node.entry, qs)
    }

    lemma LooseApart(node: ListHead, qs: seq<seq<nat>>, j: nat)
      requires NodesOk() && QueuesOk(|nodes|, qs) && |qs| == |heads| && j < |heads| && Loose(node, qs)
      ensures node != heads[j] && node !in Nodes(nodes, qs[j])
    {}

    lemma AddKeepsQueues(x: nat, i: nat, q: seq<nat>, qs: seq<seq<nat>>)
      requires QueuesOk(|nodes|, qs) && i < |qs| && x < |nodes| && OnNone(x, qs)
      requires q == qs[i] + [x] || q == [x] + qs[i]
      ensures QueuesOk(|nodes|, qs[i := q])
    {}

    /** `list_first_entry_or_null` and, if there is one, `list_del`. */
    method TakeFirst(i: nat, ghost qs: seq<seq<nat>>) returns (node: ListHead?)
      requires Holds(qs) && i < |heads|
      modifies heads, nodes
      ensures qs[i] == [] ==> node == null && Holds(qs)
      ensures qs[i] != [] ==> qs[i][0] < |nodes| && node == nodes[qs[i][0]] && node.entry == qs[i][0]
      ensures qs[i] != [] ==> Holds(qs[i := qs[i][1..]])
    {
      assert RingOk(i, qs[i]);
      node := ListFirstEntryOrNull(heads[i], Nodes(nodes, qs[i]));
      if node != null {
        UnlinkFirst(i, qs);
      }
    }

    method UnlinkFirst(i: nat, ghost qs: seq<seq<nat>>)
      requires Holds(qs) && i < |heads| && qs[i] != []
      modifies heads, nodes
      ensures Holds(qs[i := qs[i][1..]])
    {
      ghost var q := qs[i];
      ghost var s := Nodes(nodes, q);
      assert RingOk(i, q);
      RingEnds(heads[i], s);
      RingAt(heads[i], s, 0);
      var node := heads[i].next;
      ghost var a, b := node.prev, node.next;
      assert a in Round(heads[i], s) && b in Round(heads[i], s);
      forall j | 0 <= j < |heads| && j != i
        ensures a != heads[j] && b != heads[j] && a !in Nodes(nodes, qs[j]) && b !in Nodes(nodes, qs[j])
      {
        OnOneRing(i, q, j, qs[j], a);
        OnOneRing(i, q, j, qs[j], b);
      }
      ListDel(node, heads[i], s, 0);
      assert Without(s, 0) == Nodes(nodes, q[1..]);
      ghost var rs := qs[i := q[1..]];
      forall j | 0 <= j < |heads|
        ensures RingOk(j, rs[j])
      {
        if j != i { assert old(RingOk(j, qs[j])); }
      }
    }

    /** `list_add_tail` */
    method AddTail(i: nat, node: ListHead, ghost qs: seq<seq<nat>>)
      requires Holds(qs) && i < |heads| && Loose(node, qs)
      modifies heads, nodes
      ensures Holds(qs[i := qs[i] + [node.entry]])
    {
      ghost var q := qs[i];
      ghost var s, rs := Nodes(nodes, q), qs[i := q + [node.entry]];
      assert RingOk(i, q);
      RingEnds(heads[i], s);
      ghost var a := heads[i].prev;
      assert a in Round(heads[i], s) && heads[i] in Round(heads[i], s);
      forall j | 0 <= j < |heads|
        ensures node != heads[j] && node !in Nodes(nodes, qs[j])
        ensures j != i ==>
                  && heads[i] != heads[j] && a != heads[j]
                  && heads[i] !in Nodes(nodes, qs[j]) && a !in Nodes(nodes, qs[j])
      {
        LooseApart(node, qs, j);
        if j != i { OnOneRing(i, q, j, qs[j], a); }
      }
      ListAddTail(node, heads[i], s);
      AddKeepsQueues(node.entry, i, q + [node.entry], qs);
      assert s + [node] == Nodes(nodes, q + [node.entry]);
      forall j | 0 <= j < |heads|
        ensures RingOk(j, rs[j])
      {
        if j != i { assert old(RingOk(j, qs[j])); }
      }
    }

    /** `list_add` */
    method AddFirst(i: nat, node: ListHead, ghost qs: seq<seq<nat>>)
      requires Holds(qs) && i < |heads| && Loose(node, qs)
      modifies heads, nodes
      ensures Holds(qs[i := [node.entry] + qs[i]])
    {
      ghost var q := qs[i];
      ghost var s, rs := Nodes(nodes, q), qs[i := [node.entry] + q];
      assert RingOk(i, q);
      RingEnds(heads[i], s);
      ghost var a := heads[i].next;
      assert a in Round(heads[i], s) && heads[i] in Round(heads[i], s);
      forall j | 0 <= j < |heads|
        ensures node != heads[j] && node !in Nodes(nodes, qs[j])
        ensures j != i ==>
                  && heads[i] != heads[j] && a != heads[j]
                  && heads[i] !in Nodes(nodes, qs[j]) && a !in Nodes(nodes, qs[j])
      {
        LooseApart(node, qs, j);
        if j != i { OnOneRing(i, q, j, qs[j], a); }
      }
      ListAdd(node, heads[i], s);
      AddKeepsQueues(node.entry, i, [node.entry] + q, qs);
      assert [node] + s == Nodes(nodes, [node.entry] + q);
      forall j | 0 <= j < |heads|
        ensures RingOk(j, rs[j])
      {
        if j != i { assert old(RingOk(j, qs[j])); }
      }
    }
  }
}
