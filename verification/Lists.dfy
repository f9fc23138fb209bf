/** Sequences as the intrusive lists of the kernel use them: ordered insertion behind a
    predicate, removal of one member, and what both do to membership and order. */
module Lists {

  ghost function Elems<T>(q: seq<T>): set<T> {
    if q == [] then {} else {q[0]} + Elems(q[1..])
  }

  ghost predicate NoDup<T>(q: seq<T>) {
    q != [] ==> q[0] !in Elems(q[1..]) && NoDup(q[1..])
  }

  /** Non-increasing in `key`; ascending orders use a negated key. */
  ghost predicate Desc<T>(q: seq<T>, key: T -> int) {
    forall i, j :: 0 <= i < j < |q| ==> key(q[i]) >= key(q[j])
  }

  /** The position where the cursor of `insert_after` stops: the first member failing `p`. */
  function Scan<T>(q: seq<T>, p: T -> bool): (k: nat)
    ensures k <= |q|
    ensures forall i :: 0 <= i < k ==> p(q[i])
    ensures k < |q| ==> !p(q[k])
  {
    if q == [] || !p(q[0]) then 0 else 1 + Scan(q[1..], p)
  }

  function InsertAfter<T>(q: seq<T>, x: T, p: T -> bool): (r: seq<T>)
    ensures |r| == |q| + 1
  {
    q[..Scan(q, p)] + [x] + q[Scan(q, p)..]
  }

  /** The cursor walk that finds the position. */
  method InsertInOrder<T>(q: seq<T>, x: T, p: T -> bool) returns (r: seq<T>)
    ensures r == InsertAfter(q, x, p)
  {
    var k := 0;
    while k < |q| && p(q[k])
      invariant k <= |q| && Scan(q, p) == k + Scan(q[k..], p)
    {
      k := k + 1;
    }
    r := q[..k] + [x] + q[k..];
  }

  /** `q` without the first occurrence of `x`. */
  function Without<T(==)>(q: seq<T>, x: T): (r: seq<T>) {
    if q == [] then [] else if q[0] == x then q[1..] else [q[0]] + Without(q[1..], x)
  }

  lemma {:induction false} ElemsAt<T>(q: seq<T>, x: T) returns (i: nat)
    requires x in Elems(q)
    ensures i < |q| && q[i] == x
  {
    if q[0] == x {
      i := 0;
    } else {
      i := ElemsAt(q[1..], x);
      i := i + 1;
    }
  }

  lemma {:induction false} AtElems<T>(q: seq<T>, i: nat)
    requires i < |q|
    ensures q[i] in Elems(q)
  {
    if i == 0 {
    } else {
      AtElems(q[1..], i - 1);
    }
  }

  lemma {:induction false} NoDupAt<T>(q: seq<T>, i: nat, j: nat)
    requires NoDup(q) && i < j < |q|
    ensures q[i] != q[j]
  {
    if i == 0 {
      AtElems(q[1..], j - 1);
    } else {
      NoDupAt(q[1..], i - 1, j - 1);
    }
  }

  lemma {:induction false} ElemsConcat<T>(a: seq<T>, b: seq<T>)
    ensures Elems(a + b) == Elems(a) + Elems(b)
    ensures NoDup(a + b) <==> NoDup(a) && NoDup(b) && Elems(a) !! Elems(b)
  {
    if a == [] {
      assert a + b == b;
    } else {
      assert (a + b)[1..] == a[1..] + b;
      ElemsConcat(a[1..], b);
    }
  }

  lemma InsertElems<T>(q: seq<T>, x: T, p: T -> bool)
    ensures Elems(InsertAfter(q, x, p)) == Elems(q) + {x}
    ensures NoDup(q) && x !in Elems(q) ==> NoDup(InsertAfter(q, x, p))
  {
    var k := Scan(q, p);
    assert q == q[..k] + q[k..];
    ElemsConcat(q[..k], q[k..]);
    ElemsConcat([x], q[k..]);
    ElemsConcat(q[..k], [x] + q[k..]);
    assert q[..k] + [x] + q[k..] == q[..k] + ([x] + q[k..]);
  }

  /** Insertion keeps a list ordered when `p` accepts everything strictly before `x` and
      nothing strictly after it. */
  lemma InsertDesc<T>(q: seq<T>, x: T, p: T -> bool, key: T -> int)
    requires Desc(q, key)
    requires forall i :: 0 <= i < |q| ==> (key(q[i]) > key(x) ==> p(q[i])) && (p(q[i]) ==> key(q[i]) >= key(x))
    ensures Desc(InsertAfter(q, x, p), key)
  {
    var k, r := Scan(q, p), InsertAfter(q, x, p);
    assert forall i :: 0 <= i < |r| ==> r[i] == if i < k then q[i] else if i == k then x else q[i - 1];
  }

  lemma {:induction false} WithoutElems<T>(q: seq<T>, x: T)
    requires NoDup(q)
    ensures Elems(Without(q, x)) == Elems(q) - {x} && NoDup(Without(q, x))
  {
    if q == [] || q[0] == x {
    } else {
      WithoutElems(q[1..], x);
      assert Without(q, x)[1..] == Without(q[1..], x);
    }
  }

  lemma {:induction false} WithoutDesc<T>(q: seq<T>, x: T, key: T -> int)
    requires Desc(q, key)
    ensures Desc(Without(q, x), key)
    ensures forall i :: 0 <= i < |Without(q, x)| ==> Without(q, x)[i] in Elems(q)
  {
    if q == [] {
    } else if q[0] == x {
      forall i | 0 <= i < |q[1..]| ensures q[1..][i] in Elems(q) {
        AtElems(q[1..], i);
      }
    } else {
      var r := Without(q[1..], x);
      WithoutDesc(q[1..], x, key);
      forall i, j | 0 <= i < j < |Without(q, x)| ensures key(Without(q, x)[i]) >= key(Without(q, x)[j]) {
        var m := ElemsAt(q[1..], r[j - 1]);
        if i > 0 {
          assert key(r[i - 1]) >= key(r[j - 1]);
        }
      }
    }
  }

  lemma {:induction false} WithoutAt<T>(a: seq<T>, x: T, b: seq<T>)
    requires x !in Elems(a)
    ensures Without(a + [x] + b, x) == a + b
  {
    if a != [] {
      WithoutAt(a[1..], x, b);
      assert (a + [x] + b)[1..] == a[1..] + [x] + b;
    } else {
      assert (a + [x] + b)[1..] == b == a + b;
    }
  }

  // Lists seen through a view of their members

  ghost function Map<A, B>(f: A -> B, q: seq<A>): (r: seq<B>)
    ensures |r| == |q| && forall i :: 0 <= i < |q| ==> r[i] == f(q[i])
  {
    seq(|q|, i requires 0 <= i < |q| => f(q[i]))
  }

  function On<A, B>(f: A -> B, p: B -> bool): A -> bool { (a: A) => p(f(a)) }

  lemma {:induction false} MapScan<A, B>(f: A -> B, q: seq<A>, p: B -> bool)
    ensures Scan(q, On(f, p)) == Scan(Map(f, q), p)
  {
    if q == [] {
    } else {
      MapScan(f, q[1..], p);
      assert Map(f, q)[1..] == Map(f, q[1..]);
    }
  }

  lemma MapInsert<A, B>(f: A -> B, q: seq<A>, x: A, p: B -> bool)
    ensures Map(f, InsertAfter(q, x, On(f, p))) == InsertAfter(Map(f, q), f(x), p)
  {
    MapScan(f, q, p);
  }

  lemma MapCut<A, B>(f: A -> B, q: seq<A>, k: nat)
    requires k < |q| && forall i :: 0 <= i < k ==> f(q[i]) != f(q[k])
    ensures Map(f, q[..k] + q[k + 1..]) == Without(Map(f, q), f(q[k]))
  {
    var a, x, b := Map(f, q)[..k], f(q[k]), Map(f, q)[k + 1..];
    if x in Elems(a) {
      var i := ElemsAt(a, x);
      assert false;
    }
    WithoutAt(a, x, b);
    assert Map(f, q) == a + [x] + b;
    assert Map(f, q[..k] + q[k + 1..]) == a + b;
  }

  lemma MapElems<A, B>(f: A -> B, q: seq<A>, x: A)
    ensures x in Elems(q) ==> f(x) in Elems(Map(f, q))
    ensures f(x) in Elems(Map(f, q)) ==> exists i :: 0 <= i < |q| && q[i] in Elems(q) && f(q[i]) == f(x)
  {
    hide Elems;
    if x in Elems(q) {
      var i := ElemsAt(q, x);
      AtElems(Map(f, q), i);
    }
    if f(x) in Elems(Map(f, q)) {
      var i := ElemsAt(Map(f, q), f(x));
      AtElems(q, i);
    }
  }
}
