/** The intrusive doubly linked list that every kernel queue is made of, on the heap, refining a
    sequence. A node that a list refuses (it is already owned, or owned by another list) makes the
    source panic; the methods report it instead and leave the list alone. */
module IntrusiveList {
  import opened Lists

  class Node {
    /** The item that the node is embedded in. */
    const id: int
    var owner: LinkedList?
    var next: Node?
    var prev: Node?

    constructor (id: int)
      ensures this.id == id && owner == null && next == null && prev == null
    {
      this.id := id;
      owner, next, prev := null, null, null;
    }
  }

  class LinkedList {
    var head: Node?
    var tail: Node?

    /** The members in order. */
    ghost var items: seq<Node>
    /** All nodes that are ever offered to this list. */
    ghost const nodes: set<Node>

    /** Next and previous are mutual inverses along the items, and head and tail are exact. */
    ghost predicate Linked()
      reads this, items
    {
      && (forall i, j :: 0 <= i < j < |items| ==> items[i] != items[j])
      && (forall i {:trigger items[i].next} :: 0 <= i < |items| ==>
          items[i].next == if i + 1 < |items| then items[i + 1] else null)
      && (forall i {:trigger items[i].prev} :: 0 <= i < |items| ==>
          items[i].prev == if i > 0 then items[i - 1] else null)
      && head == (if items == [] then null else items[0])
      && tail == (if items == [] then null else items[|items| - 1])
    }

    /** Exactly the members are owned by this list. */
    ghost predicate Owned()
      reads this, nodes
    {
      Elems(items) <= nodes && forall n :: n in nodes ==> (n.owner == this <==> n in Elems(items))
    }

    ghost predicate Valid()
      reads this, nodes, items
    {
      Linked() && Owned()
    }

    constructor (ghost nodes: set<Node>)
      requires forall n :: n in nodes ==> n.owner == null
      ensures Valid() && items == [] && this.nodes == nodes
    {
      head, tail := null, null;
      items := [];
      this.nodes := nodes;
    }

    lemma NotMember(n: Node)
      requires Owned() && n in nodes && n.owner != this
      ensures forall i :: 0 <= i < |items| ==> items[i] != n
    {
      forall i | 0 <= i < |items| ensures items[i] != n {
        AtElems(items, i);
      }
    }

    lemma Members()
      requires Owned()
      ensures forall i :: 0 <= i < |items| ==> items[i] in nodes && items[i].owner == this
    {
      forall i | 0 <= i < |items| ensures items[i] in nodes && items[i].owner == this {
        AtElems(items, i);
      }
    }

    /** `n` has joined and no other node changed hands. */
    twostate lemma Joined(n: Node)
      requires old(Owned()) && n in nodes && n.owner == this && Elems(items) == old(Elems(items)) + {n}
      requires forall m :: m in nodes && m != n ==> m.owner == old(m.owner)
      ensures Owned()
    {
      hide Elems;
    }

    method PushFront(n: Node) returns (ok: bool)
      requires Valid() && n in nodes
      modifies this, n, items
      ensures Valid() && ok == (old(n.owner) == null)
      ensures items == if ok then [n] + old(items) else old(items)
      ensures forall m :: m in nodes && m != n ==> m.owner == old(m.owner)
      ensures !ok ==> unchanged(this) && unchanged(nodes)
    {
      if n.owner != null {
        return false;
      }
      hide Elems, Owned;
      NotMember(n);
      n.owner := this;
      if head != null {
        head.prev := n;
      }
      n.next := head;
      n.prev := null;
      head := n;
      if tail == null {
        tail := n;
      }
      items := [n] + items;
      ok := true;
      ElemsConcat([n], old(items));
      Singleton(n);
      Joined(n);
    }

    method PushBack(n: Node) returns (ok: bool)
      requires Valid() && n in nodes
      modifies this, n, items
      ensures Valid() && ok == (old(n.owner) == null)
      ensures items == if ok then old(items) + [n] else old(items)
      ensures forall m :: m in nodes && m != n ==> m.owner == old(m.owner)
      ensures !ok ==> unchanged(this) && unchanged(nodes)
    {
      if n.owner != null {
        return false;
      }
      hide Elems, Owned;
      NotMember(n);
      n.owner := this;
      if tail != null {
        tail.next := n;
      }
      n.next := null;
      n.prev := tail;
      tail := n;
      if head == null {
        head := n;
      }
      items := items + [n];
      ok := true;
      ElemsConcat(old(items), [n]);
      Singleton(n);
      Joined(n);
    }

    /** The links of `was`, with every step from `k - 1` to `k` led through `n`. */
    ghost predicate Threaded(was: seq<Node>, k: nat, n: Node)
      reads this, was, n
    {
      && (forall i, j :: 0 <= i < j < |was| ==> was[i] != was[j])
      && (forall i {:trigger was[i].next} :: 0 <= i < |was| ==>
            was[i] != n && was[i].next == if i + 1 == k then n else if i + 1 < |was| then was[i + 1] else null)
      && (forall i {:trigger was[i].prev} :: 0 <= i < |was| ==>
            was[i].prev == if i == k then n else if i > 0 then was[i - 1] else null)
    }

    lemma ThreadedLinked(was: seq<Node>, k: nat, n: Node)
      requires 0 < k < |was| && Threaded(was, k, n) && items == was[..k] + [n] + was[k..]
      requires n.prev == was[k - 1] && n.next == was[k] && head == was[0] && tail == was[|was| - 1]
      ensures Linked()
    {
      assert forall i :: 0 <= i < |items| ==> items[i] == if i < k then was[i] else if i == k then n else was[i - 1];
      forall i, j | 0 <= i < j < |items| ensures items[i] != items[j] {
        var a, b := if i < k then i else i - 1, if j < k then j else j - 1;
        if i == k {
          assert was[b].next == was[b].next;
        } else if j == k {
          assert was[a].next == was[a].next;
        }
      }
    }

    /** Links `n` in between two neighbours. */
    method Splice(before: Node, behind: Node, n: Node, ghost k: nat)
      requires Valid() && n in nodes && n.owner == null
      requires 0 < k < |items| && before == items[k - 1] && behind == items[k]
      modifies this, n, items
      ensures Valid() && items == old(items)[..k] + [n] + old(items)[k..]
      ensures forall m :: m in nodes && m != n ==> m.owner == old(m.owner)
    {
      hide Elems, Owned;
      NotMember(n);
      ghost var was := items;
      n.owner := this;
      before.next := n;
      n.prev := before;
      n.next := behind;
      behind.prev := n;
      assert Threaded(was, k, n);
      items := was[..k] + [n] + was[k..];
      ThreadedLinked(was, k, n);
      SpliceElems(was, k, n);
      Joined(n);
    }

    /** The member at `i`, or null beyond either end. */
    ghost function At(was: seq<Node>, i: int): Node? {
      if 0 <= i < |was| then was[i] else null
    }

    ghost predicate Distinct(was: seq<Node>) { forall i, j :: 0 <= i < j < |was| ==> was[i] != was[j] }

    /** The forward links of `was` with the member at `k` passed over. */
    ghost predicate Skipped(was: seq<Node>, k: nat)
      reads this`head, was`next
    {
      && (forall i {:trigger was[i].next} :: 0 <= i < |was| && i != k ==>
          was[i].next == At(was, if i + 1 == k then k + 1 else i + 1))
      && head == At(was, if k == 0 then 1 else 0)
    }

    /** The backward links likewise. */
    ghost predicate SkippedBack(was: seq<Node>, k: nat)
      reads this`tail, was`prev
    {
      && (forall i {:trigger was[i].prev} :: 0 <= i < |was| && i != k ==>
          was[i].prev == At(was, if i - 1 == k then k - 1 else i - 1))
      && tail == At(was, if k == |was| - 1 then k - 1 else |was| - 1)
    }

    /** The links of `was` with the member at `k` passed over. */
    ghost predicate Bypassed(was: seq<Node>, k: nat)
      reads this`head, this`tail, was`next, was`prev
    {
      Distinct(was) && Skipped(was, k) && SkippedBack(was, k)
    }

    lemma BypassedLinked(was: seq<Node>, k: nat)
      requires k < |was| && Bypassed(was, k) && items == was[..k] + was[k + 1..]
      ensures Linked()
    {
      assert forall i :: 0 <= i < |items| ==> items[i] == if i < k then was[i] else was[i + 1];
    }

    method Skip(n: Node, ghost k: nat)
      requires Linked() && k < |items| && items[k] == n
      modifies this`head, items`next
      ensures Skipped(items, k) && n.next == old(n.next)
    {
      if n.prev != null {
        assert n.prev == items[k - 1];
        n.prev.next := n.next;
      } else {
        head := n.next;
      }
    }

    method SkipBack(n: Node, ghost k: nat)
      requires k < |items| && items[k] == n && Distinct(items) && n.next == At(items, k + 1)
        && tail == items[|items| - 1]
      requires forall i {:trigger items[i].prev} :: 0 <= i < |items| ==> items[i].prev == At(items, i - 1)
      modifies this`tail, items`prev
      ensures SkippedBack(items, k)
    {
      if n.next != null {
        assert n.next == items[k + 1];
        n.next.prev := n.prev;
      } else {
        tail := n.prev;
      }
    }

    /** Leads the links around the member at `k`. */
    method Bypass(n: Node, ghost k: nat)
      requires Linked() && k < |items| && items[k] == n
      modifies this`head, this`tail, items`next, items`prev
      ensures Bypassed(items, k) && n.next == null && n.prev == null
    {
      assert n.next == At(items, k + 1);
      Skip(n, k);
      SkipBack(n, k);
      Clear(n, k);
    }

    /** Forgets the neighbours of a member that the links pass over. */
    method Clear(n: Node, ghost k: nat)
      requires k < |items| && items[k] == n && Bypassed(items, k)
      modifies n`next, n`prev
      ensures Bypassed(items, k) && n.next == null && n.prev == null
    {
      n.prev := null;
      n.next := null;
    }

    /** Drops the member at `k`, which the links no longer reach, from the abstract sequence. */
    ghost method DropItem(n: Node, k: nat)
      requires k < |items| && items[k] == n && Bypassed(items, k) && n in nodes && Elems(items) <= nodes
      requires n.owner == null && forall m :: m in nodes && m != n ==> (m.owner == this <==> m in Elems(items))
      modifies this`items
      ensures Valid() && items == old(items)[..k] + old(items)[k + 1..]
    {
      ghost var was := items;
      items := was[..k] + was[k + 1..];
      BypassedLinked(was, k);
      CutElems(was, k);
      hide Elems;
    }

    /** Takes out a member. */
    method Unlink(n: Node, ghost k: nat)
      requires Valid() && n in nodes && n.owner == this && k < |items| && items[k] == n
      modifies this, n, items
      ensures Valid() && items == old(items)[..k] + old(items)[k + 1..]
      ensures n.owner == null && n.next == null && n.prev == null
      ensures forall m :: m in nodes && m != n ==> m.owner == old(m.owner)
    {
      hide Elems, Bypassed, Linked;
      Bypass(n, k);
      n.owner := null;
      DropItem(n, k);
    }

    /** Takes `n`, the member at `k`, out of the list. A node owned by no list or by another one is
        refused. */
    method Remove(n: Node, ghost k: nat) returns (ok: bool)
      requires Valid() && n in nodes && (n.owner == this ==> k < |items| && items[k] == n)
      modifies this, n, items
      ensures Valid() && ok == (old(n.owner) == this)
      ensures items == if ok then old(items)[..k] + old(items)[k + 1..] else old(items)
      ensures ok ==> n.owner == null && n.next == null && n.prev == null
      ensures forall m :: m in nodes && m != n ==> m.owner == old(m.owner)
      ensures !ok ==> unchanged(this) && unchanged(nodes)
    {
      hide Valid;
      ok := n.owner == this;
      if ok { Unlink(n, k); }
    }

    method PopFront() returns (n: Node?)
      requires Valid()
      modifies this, items
      ensures Valid()
      ensures old(items) == [] ==> n == null && items == []
      ensures old(items) != [] ==> n == old(items)[0] && items == old(items)[1..]
      ensures n != null ==> n.owner == null && n.next == null && n.prev == null
      ensures forall m :: m in nodes && m != n ==> m.owner == old(m.owner)
    {
      n := head;
      if n != null {
        HeadOwned();
        var ok := Remove(n, 0);
        assert old(items)[..0] + old(items)[0 + 1..] == old(items)[1..];
      }
    }

    lemma CutElems(q: seq<Node>, k: nat)
      requires k < |q| && forall i, j :: 0 <= i < j < |q| ==> q[i] != q[j]
      ensures Elems(q[..k] + q[k + 1..]) == Elems(q) - {q[k]}
    {
      hide Elems;
      var a, b, x := q[..k], q[k + 1..], q[k];
      assert q == a + ([x] + b);
      ElemsConcat(a, [x] + b);
      ElemsConcat([x], b);
      ElemsConcat(a, b);
      Singleton(x);
      if x in Elems(a) {
        var i := ElemsAt(a, x);
        assert false;
      }
      if x in Elems(b) {
        var i := ElemsAt(b, x);
        assert false;
      }
    }

    lemma HeadOwned()
      requires Valid() && items != []
      ensures items[0] in nodes && items[0].owner == this
    {
      AtElems(items, 0);
    }

    method PopFrontIf(p: Node -> bool) returns (n: Node?)
      requires Valid()
      modifies this, items
      ensures Valid()
      ensures old(items) != [] && p(old(items)[0]) ==> n == old(items)[0] && items == old(items)[1..] && n.owner == null
      ensures old(items) == [] || !p(old(items)[0]) ==> n == null && items == old(items)
      ensures n == null ==> unchanged(this) && unchanged(nodes)
      ensures forall m :: m in nodes && m != n ==> m.owner == old(m.owner)
    {
      n := null;
      if head != null && p(head) {
        n := PopFront();
      }
    }

    /** `CursorMut::insert_before` at the member `k`, or at the ghost position behind the tail. */
    method InsertBefore(cursor: Node?, n: Node, ghost k: nat) returns (ok: bool)
      requires Valid() && n in nodes && k <= |items|
      requires cursor == if k < |items| then items[k] else null
      modifies this, n, items
      ensures Valid() && ok == (old(n.owner) == null)
      ensures items == if ok then old(items)[..k] + [n] + old(items)[k..] else old(items)
      ensures forall m :: m in nodes && m != n ==> m.owner == old(m.owner)
      ensures !ok ==> unchanged(this) && unchanged(nodes)
    {
      if cursor == null {
        ok := PushBack(n);
      } else if cursor.prev == null {
        ok := PushFront(n);
      } else {
        if n.owner != null {
          return false;
        }
        assert k > 0;
        Splice(cursor.prev, cursor, n, k);
        ok := true;
      }
    }

    lemma SpliceElems(q: seq<Node>, k: nat, n: Node)
      requires k <= |q|
      ensures Elems(q[..k] + [n] + q[k..]) == Elems(q) + {n}
    {
      assert q == q[..k] + q[k..];
      ElemsConcat(q[..k], q[k..]);
      ElemsConcat(q[..k] + [n], q[k..]);
      ElemsConcat(q[..k], [n]);
    }

    /** `CursorMut::insert_after`; from the ghost position it inserts at the head. */
    method InsertBehind(cursor: Node?, n: Node, ghost k: nat) returns (ok: bool)
      requires Valid() && n in nodes && k <= |items|
      requires cursor == if k < |items| then items[k] else null
      modifies this, n, items
      ensures Valid() && ok == (old(n.owner) == null)
      ensures var at := if cursor == null then 0 else k + 1;
              items == if ok then old(items)[..at] + [n] + old(items)[at..] else old(items)
      ensures forall m :: m in nodes && m != n ==> m.owner == old(m.owner)
      ensures !ok ==> unchanged(this) && unchanged(nodes)
    {
      if cursor == null {
        ok := PushFront(n);
      } else if cursor.next == null {
        ok := PushBack(n);
      } else {
        if n.owner != null {
          return false;
        }
        assert k + 1 < |items|;
        Splice(cursor, cursor.next, n, k + 1);
        ok := true;
      }
    }

    /** Moves a cursor past every leading member that `p` accepts. */
    method FindPosition(p: Node -> bool) returns (cursor: Node?, ghost k: nat)
      requires Linked()
      ensures k == Scan(items, p) && cursor == if k < |items| then items[k] else null
    {
      cursor := head;
      k := 0;
      while cursor != null && p(cursor)
        invariant k <= |items| && cursor == (if k < |items| then items[k] else null)
        invariant Scan(items, p) == k + Scan(items[k..], p)
        decreases |items| - k
      {
        cursor := cursor.next;
        k := k + 1;
      }
    }

    /** Inserts behind every leading member that `p` accepts. */
    method InsertWhereFails(n: Node, p: Node -> bool) returns (ok: bool)
      requires Valid() && n in nodes
      modifies this, n, items
      ensures Valid() && ok == (old(n.owner) == null)
      ensures items == if ok then InsertAfter(old(items), n, p) else old(items)
      ensures forall m :: m in nodes && m != n ==> m.owner == old(m.owner)
      ensures !ok ==> unchanged(this) && unchanged(nodes)
    {
      var cursor, k := FindPosition(p);
      ok := InsertBefore(cursor, n, k);
    }

    /** A list keeps its shape while only nodes of other lists change. */
    twostate lemma Untouched()
      requires old(Valid()) && head == old(head) && tail == old(tail) && items == old(items)
      requires forall m :: m in nodes ==> (m.owner == this <==> old(m.owner) == this)
      requires forall m :: m in nodes && old(m.owner) == this ==> m.next == old(m.next) && m.prev == old(m.prev)
      ensures Valid()
    {
      hide Elems;
      forall i | 0 <= i < |items| ensures items[i].next == old(items[i].next) && items[i].prev == old(items[i].prev) {
        AtElems(items, i);
      }
    }

    lemma Singleton(n: Node)
      ensures Elems([n]) == {n}
    {
    }
  }
}
