/** The circular list with a sentinel node behind the ready queue and the lists of exited children. */
module DoublyLinkedList {
  import opened Base

  /** `struct dllist`. `live` is false once the node has been freed; nothing below touches it then. */
  class Node<T> {
    var flink: Node<T>
    var blink: Node<T>
    var val: Option<T>
    var live: bool

    /** `malloc`: what the links hold does not matter, so they point back. */
    constructor (v: Option<T>)
      ensures flink == this && blink == this && val == v && live
    {
      flink, blink, val, live := this, this, v, true;
    }
  }

  /** `x` put in at position `k`. */
  ghost function Inserted<T>(s: seq<T>, k: nat, x: T): (r: seq<T>)
    requires k <= |s|
    ensures |r| == |s| + 1 && r[k] == x
    ensures forall i | 0 <= i < k :: r[i] == s[i]
    ensures forall i | k < i < |r| :: r[i] == s[i - 1]
  {
    s[..k] + [x] + s[k..]
  }

  /** The element at position `k` taken out. */
  ghost function Removed<T>(s: seq<T>, k: nat): (r: seq<T>)
    requires k < |s|
    ensures |r| == |s| - 1
    ensures forall i | 0 <= i < k :: r[i] == s[i]
    ensures forall i | k <= i < |r| :: r[i] == s[i + 1]
  {
    s[..k] + s[k + 1..]
  }

  /** The first `n` elements differ. */
  ghost predicate Distinct<T>(s: seq<T>, n: nat)
    requires n <= |s|
  {
    forall i, j | 0 <= i < j < n :: s[i] != s[j]
  }

  lemma DistinctInserted<T>(s: seq<T>, k: nat, x: T, n: nat)
    requires k <= n <= |s| && Distinct(s, n) && x !in s
    ensures Distinct(Inserted(s, k, x), n + 1)
  {
  }

  /** A list: its sentinel, the ring of its nodes from the sentinel back to the sentinel, and the values
      it stands for. */
  class List<T> {
    const sentinel: Node<T>
    ghost var ring: seq<Node<T>>
    ghost var contents: seq<T>

    ghost function Repr(): set<Node<T>>
      reads this
    {
      set n | n in ring
    }

    /** A node in its place: not freed, pointing to its neighbour and pointed back to, with its value. */
    ghost predicate Linked(i: nat)
      requires i + 1 < |ring| && |ring| == |contents| + 2
      reads this, Repr()
    {
      && ring[i].live && ring[i].flink == ring[i + 1] && ring[i + 1].blink == ring[i]
      && (i > 0 ==> ring[i].val == Some(contents[i - 1]))
    }

    /** The ring is well formed: `flink` and `blink` are inverse, following `flink` from the sentinel
        meets every node once and comes back, and the nodes hold the contents in order. */
    ghost predicate Valid()
      reads this, Repr()
    {
      && |ring| == |contents| + 2 && ring[0] == sentinel && ring[|ring| - 1] == sentinel
      && (forall i | 0 <= i < |ring| - 1 :: Linked(i))
      && Distinct(ring, |ring| - 1)
    }

    /** `new_dllist`. */
    constructor ()
      ensures Valid() && contents == [] && fresh(Repr())
    {
      sentinel := new Node<T>(None);
      contents := [];
      new;
      ring := [sentinel, sentinel];
    }

    /** `dll_insert_b`: `node` is the sentinel or the node at position `k`. */
    method InsertBefore(node: Node<T>, v: T, ghost k: nat)
      requires Valid() && k <= |contents| && node == ring[k + 1]
      modifies this, Repr()
      ensures Valid() && contents == Inserted(old(contents), k, v)
      ensures |ring| == |old(ring)| + 1 && ring == Inserted(old(ring), k + 1, ring[k + 1]) && fresh(ring[k + 1])
    {
      assert Linked(k);
      var newnode := new Node<T>(Some(v));
      newnode.flink := node;
      newnode.blink := node.blink;
      newnode.flink.blink := newnode;
      newnode.blink.flink := newnode;
      DistinctInserted(ring, k + 1, newnode, |ring| - 1);
      ring := Inserted(ring, k + 1, newnode);
      contents := Inserted(contents, k, v);
      assert Linked(k) && Linked(k + 1);
      forall i | 0 <= i < |ring| - 1 && i != k && i != k + 1 ensures Linked(i) {
        assert old(Linked(if i < k then i else i - 1));
      }
    }

    /** `dll_insert_a`. */
    method InsertAfter(node: Node<T>, v: T, ghost k: nat)
      requires Valid() && k <= |contents| && node == ring[k]
      modifies this, Repr()
      ensures Valid() && contents == Inserted(old(contents), k, v)
      ensures |ring| == |old(ring)| + 1 && ring == Inserted(old(ring), k + 1, ring[k + 1]) && fresh(ring[k + 1])
    {
      assert Linked(k);
      InsertBefore(node.flink, v, k);
    }

    /** `dll_append`. */
    method Append(v: T)
      requires Valid()
      modifies this, Repr()
      ensures Valid() && contents == old(contents) + [v]
      ensures fresh(Repr() - old(Repr()))
    {
      InsertBefore(sentinel, v, |contents|);
    }

    /** `dll_prepend`. */
    method Prepend(v: T)
      requires Valid()
      modifies this, Repr()
      ensures Valid() && contents == [v] + old(contents)
      ensures fresh(Repr() - old(Repr()))
    {
      assert Linked(0);
      InsertBefore(sentinel.flink, v, 0);
    }

    /** `dll_delete_node` of the node at position `k`. */
    method Delete(node: Node<T>, ghost k: nat)
      requires Valid() && k < |contents| && node == ring[k + 1]
      modifies this, Repr()
      ensures Valid() && contents == Removed(old(contents), k)
      ensures ring == Removed(old(ring), k + 1) && !node.live && Repr() <= old(Repr())
    {
      assert Linked(k) && Linked(k + 1);
      node.flink.blink := node.blink;
      node.blink.flink := node.flink;
      node.live := false;
      ring := Removed(ring, k + 1);
      contents := Removed(contents, k);
      assert Linked(k);
      forall i | 0 <= i < |ring| - 1 && i != k ensures Linked(i) {
        assert old(Linked(if i < k then i else i + 1));
      }
    }

    /** `dll_empty`. */
    method Empty() returns (r: bool)
      requires Valid()
      ensures r <==> contents == []
    {
      assert Linked(0);
      r := sentinel.flink == sentinel;
    }

    /** `dll_first` of a list that is not empty, and its `dll_val`. */
    method First() returns (node: Node<T>, v: T)
      requires Valid() && contents != []
      ensures node == ring[1] && v == contents[0]
    {
      assert Linked(0) && Linked(1);
      node := sentinel.flink;
      v := node.val.value;
    }

    /** `dll_size`. */
    method Size() returns (count: nat)
      requires Valid()
      ensures count == |contents|
    {
      assert Linked(0);
      var curr := sentinel.flink;
      count := 0;
      while curr != sentinel
        invariant count <= |contents| && curr == ring[count + 1]
        decreases |contents| - count
      {
        assert Linked(count + 1);
        count := count + 1;
        curr := curr.flink;
      }
    }

    /** `free_dllist`: every node goes, and the sentinel last. */
    method Free()
      requires Valid()
      modifies this, Repr()
      ensures forall n | n in old(Repr()) :: !n.live
    {
      while true
        invariant Valid() && Repr() <= old(Repr())
        invariant forall n | n in old(Repr()) - Repr() :: !n.live
        decreases |contents|
      {
        var empty := Empty();
        if empty { break; }
        ghost var before := ring;
        var first, _ := First();
        Delete(first, 0);
        assert forall n | n in before :: n == first || n in ring;
      }
      sentinel.live := false;
    }
  }
}
