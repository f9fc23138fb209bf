/** The lock-free FIFO as the atomic steps of any number of pushing and popping contexts, with
    sequentially consistent atomics and both end pointers already initialised. */
module AtomicQueue {
  import opened Wrappers
  import opened Lists
  import Kernel

  /** A node: the sentinel of a queue, or the pending link of a thread or interrupt handler. */
  datatype Ref = Sentinel(q: nat) | Link(w: Kernel.Who)

  type Pid = int

  /** Program points of `push_back` and `pop_front`, with their live locals. */
  datatype Pc =
    | Idle
    | PushReset(n: Ref)
    | PushTail(n: Ref)
    | PushNext(n: Ref, t: Ref)
    | PushCheck(n: Ref, t: Ref, x: Option<Ref>)
    | PushLink(n: Ref, t: Ref)
    | PushHelp(n: Ref, t: Ref, y: Ref)
    | PushSwing(n: Ref, t: Ref)
    | PopHead
    | PopTail(h: Ref)
    | PopNext(h: Ref, t: Ref)
    | PopCheck(h: Ref, t: Ref, x: Option<Ref>, sawEmpty: bool)
    | PopHelp(h: Ref, y: Ref)
    | PopSwing(h: Ref, y: Ref)
    | PopDisown(y: Ref)
    | LookHead
    | LookNext(h: Ref)

  datatype Fault = NoFault | ItemAlreadyInQueue | ItemNotInQueue

  /** The memory of the queue: `next` has no entry for a null pointer. `chain` records the nodes from
      head on; `pushed` and `popped` record the linked and the unlinked items in order. */
  datatype Mem = Mem(
    next: map<Ref, Ref>, owned: set<Ref>, head: Ref, tail: Ref,
    chain: seq<Ref>, pushed: seq<Ref>, popped: seq<Ref>, fault: Fault)

  datatype State = State(m: Mem, pc: map<Pid, Pc>)

  function At(s: State, p: Pid): Pc { if p in s.pc then s.pc[p] else Idle }

  function Goto(s: State, p: Pid, m: Mem, c: Pc): State { State(m, s.pc[p := c]) }

  function Load(next: map<Ref, Ref>, r: Ref): Option<Ref> { if r in next then Some(next[r]) else None }

  /** `compare_exchange` on the tail pointer. */
  function CasTail(m: Mem, from: Ref, to: Ref): Mem { if m.tail == from then m.(tail := to) else m }

  /** The next atomic step of context `p`. */
  function Go(s: State, p: Pid): State {
    var m := s.m;
    match At(s, p)
    case Idle => s
    case PushReset(n) => Goto(s, p, m.(next := m.next - {n}), PushTail(n))
    case PushTail(n) => Goto(s, p, m, PushNext(n, m.tail))
    case PushNext(n, t) => Goto(s, p, m, PushCheck(n, t, Load(m.next, t)))
    case PushCheck(n, t, x) =>
      Goto(s, p, m, if t != m.tail then PushTail(n) else if x.None? then PushLink(n, t) else PushHelp(n, t, x.value))
    case PushLink(n, t) =>
      if t in m.next then Goto(s, p, m, PushTail(n))
      else Goto(s, p, m.(next := m.next[t := n], chain := m.chain + [n], pushed := m.pushed + [n]), PushSwing(n, t))
    case PushHelp(n, t, y) => Goto(s, p, CasTail(m, t, y), PushTail(n))
    case PushSwing(n, t) => Goto(s, p, CasTail(m, t, n), Idle)
    case PopHead => Goto(s, p, m, PopTail(m.head))
    case PopTail(h) => Goto(s, p, m, PopNext(h, m.tail))
    case PopNext(h, t) => Goto(s, p, m, PopCheck(h, t, Load(m.next, h), |m.chain| == 1))
    case PopCheck(h, t, x, _) =>
      Goto(s, p, m,
           if h != m.head then PopHead
           else if h == t then (if x.None? then Idle else PopHelp(h, x.value))
           else (if x.None? then PopHead else PopSwing(h, x.value)))
    case PopHelp(h, y) => Goto(s, p, CasTail(m, h, y), PopHead)
    case PopSwing(h, y) =>
      if m.head != h then Goto(s, p, m, PopHead)
      else
        var chain := if m.chain == [] then [] else m.chain[1..];
        Goto(s, p, m.(head := y, chain := chain, popped := m.popped + [y]), PopDisown(y))
    case PopDisown(y) =>
      Goto(s, p, if y in m.owned then m.(owned := m.owned - {y}) else m.(fault := ItemNotInQueue), Idle)
    case LookHead => Goto(s, p, m, LookNext(m.head))
    case LookNext(_) => Goto(s, p, m, Idle)
  }

  // Invariant

  /** The node whose fields the context may still rely on. */
  function Anchor(c: Pc): Option<Ref> {
    match c
    case PushNext(_, t) => Some(t)
    case PushCheck(_, t, _) => Some(t)
    case PushLink(_, t) => Some(t)
    case PushHelp(_, t, _) => Some(t)
    case PushSwing(_, t) => Some(t)
    case PopTail(h) => Some(h)
    case PopNext(h, _) => Some(h)
    case PopCheck(h, _, _, _) => Some(h)
    case PopHelp(h, _) => Some(h)
    case PopSwing(h, _) => Some(h)
    case LookNext(h) => Some(h)
    case _ => None
  }

  /** The node being pushed, before it is linked. */
  function Pushing(c: Pc): Option<Ref> {
    match c
    case PushReset(n) => Some(n)
    case PushTail(n) => Some(n)
    case PushNext(n, _) => Some(n)
    case PushCheck(n, _, _) => Some(n)
    case PushLink(n, _) => Some(n)
    case PushHelp(n, _, _) => Some(n)
    case _ => None
  }

  /** The node whose ownership flag the context has set or is about to clear. */
  function Claim(c: Pc): Option<Ref> {
    if c.PopDisown? then Some(c.y) else Pushing(c)
  }

  function After(q: seq<Ref>, i: int): Option<Ref> { if -1 <= i < |q| - 1 then Some(q[i + 1]) else None }

  /** Every node points to its successor in `q` and the last one to nothing. */
  ghost predicate Chained(next: map<Ref, Ref>, q: seq<Ref>) {
    forall i :: 0 <= i < |q| ==> Load(next, q[i]) == After(q, i)
  }

  ghost predicate ChainOk(m: Mem) {
    m.chain != [] && m.head == m.chain[0] && NoDup(m.chain) && Chained(m.next, m.chain)
  }

  /** Tail lags the last node by at most one and is never behind head. */
  ghost predicate TailOk(m: Mem) {
    var n := |m.chain|;
    n > 0 && (m.tail == m.chain[n - 1] || (n > 1 && m.tail == m.chain[n - 2]))
  }

  /** The items in the queue: everything in the chain behind the dummy. */
  ghost function Queue(m: Mem): seq<Ref> { if m.chain == [] then [] else m.chain[1..] }

  ghost predicate MemOk(m: Mem) {
    && ChainOk(m) && TailOk(m)
    && m.pushed == m.popped + Queue(m)
    && Elems(Queue(m)) <= m.owned && m.fault != ItemNotInQueue
  }

  /** A node once read from head or tail is in the chain or already has a successor. */
  ghost predicate Seen(m: Mem, r: Ref) { r in Elems(m.chain) || r in m.next }

  ghost predicate Follows(m: Mem, r: Ref, y: Ref) { r in Elems(m.chain) ==> Load(m.next, r) == Some(y) }

  /** A former head never comes back behind the current one. */
  ghost predicate Former(m: Mem, h: Ref) { h !in Elems(Queue(m)) }

  /** A former tail that is still the last node is still the tail. */
  ghost predicate Newest(m: Mem, t: Ref) { m.chain != [] && m.chain[|m.chain| - 1] == t ==> m.tail == t }

  ghost predicate PcOk(m: Mem, c: Pc) {
    && (Anchor(c).Some? ==> Seen(m, Anchor(c).value))
    && (Pushing(c).Some? ==> Pushing(c).value in m.owned && Pushing(c).value !in Elems(m.chain))
    && (Pushing(c).Some? && !c.PushReset? ==> Pushing(c).value !in m.next)
    && match c
       case PushNext(_, t) => Newest(m, t)
       case PushCheck(_, t, x) => Newest(m, t) && (x.Some? ==> Follows(m, t, x.value))
       case PushLink(_, t) => Newest(m, t)
       case PushHelp(_, t, y) => Follows(m, t, y)
       case PushSwing(n, t) => Follows(m, t, n)
       case PopTail(h) => Former(m, h)
       case PopNext(h, t) => Former(m, h) && (m.head == h && t != h ==> m.tail != h)
       case PopCheck(h, t, x, e) =>
         && Former(m, h) && (m.head == h && t != h ==> m.tail != h)
         && (x.Some? ==> Follows(m, h, x.value)) && (x.None? ==> e)
       case PopHelp(h, y) => Follows(m, h, y)
       case PopSwing(h, y) => Former(m, h) && Follows(m, h, y) && (m.head == h ==> m.tail != h)
       case PopDisown(y) => y in m.owned && Former(m, y)
       case LookNext(h) => Former(m, h)
       case _ => true
  }

  ghost predicate Apart(s: State) {
    && (forall p, q :: p != q && Claim(At(s, p)).Some? ==> Claim(At(s, p)) != Claim(At(s, q)))
    && (forall p, q :: Pushing(At(s, p)).Some? ==> Pushing(At(s, p)) != Anchor(At(s, q)))
  }

  ghost predicate Inv(s: State) {
    && MemOk(s.m) && Apart(s)
    && forall p :: PcOk(s.m, At(s, p))
  }

  // What the memory keeps under each write

  lemma ChainIndex(m: Mem, r: Ref) returns (i: nat)
    requires ChainOk(m) && r in Elems(m.chain)
    ensures i < |m.chain| && m.chain[i] == r && Load(m.next, r) == After(m.chain, i)
  {
    i := ElemsAt(m.chain, r);
  }

  lemma HeadSplit(m: Mem)
    requires ChainOk(m)
    ensures m.chain == [m.head] + Queue(m) && m.head in Elems(m.chain) && m.head !in Elems(Queue(m))
    ensures Elems(m.chain) == {m.head} + Elems(Queue(m)) && NoDup(Queue(m))
  {
  }

  lemma TailIn(m: Mem)
    requires TailOk(m)
    ensures m.tail in Elems(m.chain)
  {
    var n := |m.chain|;
    AtElems(m.chain, n - 1);
    if m.tail != m.chain[n - 1] { AtElems(m.chain, n - 2); }
  }

  lemma ResetChained(next: map<Ref, Ref>, q: seq<Ref>, n: Ref)
    requires Chained(next, q) && n !in Elems(q)
    ensures Chained(next - {n}, q)
  {
    forall i | 0 <= i < |q| ensures Load(next - {n}, q[i]) == After(q, i) { AtElems(q, i); }
  }

  lemma ResetMem(m: Mem, n: Ref)
    requires MemOk(m) && n !in Elems(m.chain)
    ensures MemOk(m.(next := m.next - {n}))
  {
    hide Elems, NoDup, Chained;
    ResetChained(m.next, m.chain, n);
  }

  lemma ResetPc(m: Mem, n: Ref, c: Pc)
    requires PcOk(m, c) && n !in Elems(m.chain) && Anchor(c) != Some(n)
    ensures PcOk(m.(next := m.next - {n}), c)
  {
    hide Elems, NoDup;
  }

  function Linked(m: Mem, t: Ref, n: Ref): Mem {
    m.(next := m.next[t := n], chain := m.chain + [n], pushed := m.pushed + [n])
  }

  lemma LinkElems(m: Mem, t: Ref, n: Ref)
    requires ChainOk(m)
    ensures Elems(Linked(m, t, n).chain) == Elems(m.chain) + {n}
    ensures Queue(Linked(m, t, n)) == Queue(m) + [n]
    ensures Elems(Queue(Linked(m, t, n))) == Elems(Queue(m)) + {n}
    ensures n !in Elems(m.chain) ==> NoDup(Linked(m, t, n).chain)
  {
    ElemsConcat(m.chain, [n]);
    ElemsConcat(Queue(m), [n]);
    assert (m.chain + [n])[1..] == m.chain[1..] + [n];
  }

  lemma LinkChained(next: map<Ref, Ref>, q: seq<Ref>, n: Ref)
    requires q != [] && Chained(next, q) && NoDup(q) && n !in Elems(q) && n !in next
    ensures Chained(next[q[|q| - 1] := n], q + [n])
  {
    var k := |q| - 1;
    forall i | 0 <= i <= k
      ensures q[i] != n && (i < k ==> q[i] != q[k])
    {
      AtElems(q, i);
      if i < k { NoDupAt(q, i, k); }
    }
  }

  lemma LinkMem(m: Mem, t: Ref, n: Ref)
    requires MemOk(m) && Seen(m, t) && t !in m.next && Newest(m, t)
    requires n !in Elems(m.chain) && n in m.owned && n !in m.next
    ensures MemOk(Linked(m, t, n)) && m.chain[|m.chain| - 1] == t == m.tail
  {
    hide Elems, NoDup, Chained;
    LinkElems(m, t, n);
    var k := ChainIndex(m, t);
    LinkChained(m.next, m.chain, n);
    assert Linked(m, t, n).pushed == m.popped + (Queue(m) + [n]);
  }

  lemma LinkPc(m: Mem, t: Ref, n: Ref, c: Pc)
    requires ChainOk(m) && PcOk(m, c) && t in Elems(m.chain) && t !in m.next && n !in Elems(m.chain)
    requires Some(n) != Anchor(c) && Some(n) != Claim(c)
    ensures PcOk(Linked(m, t, n), c)
  {
    hide Elems, NoDup, Chained;
    LinkElems(m, t, n);
  }

  /** The tail pointer only ever moves from the last node but one to the last. */
  lemma SwingTailMem(m: Mem, t: Ref, y: Ref)
    requires MemOk(m) && Follows(m, t, y)
    ensures MemOk(CasTail(m, t, y))
    ensures m.tail == t ==> |m.chain| > 1 && y == m.chain[|m.chain| - 1] && m.tail == m.chain[|m.chain| - 2]
  {
    hide Elems, NoDup;
    if m.tail == t {
      TailIn(m);
      var n := |m.chain|;
      assert Load(m.next, m.chain[n - 1]) == After(m.chain, n - 1);
      assert n > 1 ==> Load(m.next, m.chain[n - 2]) == After(m.chain, n - 2);
    }
  }

  lemma SwingTailPc(m: Mem, t: Ref, y: Ref, c: Pc)
    requires MemOk(m) && Follows(m, t, y) && PcOk(m, c)
    ensures PcOk(CasTail(m, t, y), c)
  {
    hide Elems, NoDup, Chained;
    if m.tail == t {
      SwingTailMem(m, t, y);
      NoDupAt(m.chain, 0, |m.chain| - 1);
    }
  }

  function Unlinked(m: Mem, y: Ref): Mem {
    m.(head := y, chain := if m.chain == [] then [] else m.chain[1..], popped := m.popped + [y])
  }

  lemma UnlinkChained(next: map<Ref, Ref>, q: seq<Ref>)
    requires q != [] && Chained(next, q)
    ensures Chained(next, q[1..])
  {
    forall i | 0 <= i < |q| - 1
      ensures Load(next, q[1..][i]) == After(q[1..], i)
    { assert q[1..][i] == q[i + 1]; }
  }

  lemma HeadNext(m: Mem)
    requires ChainOk(m)
    ensures Load(m.next, m.head) == After(m.chain, 0)
    ensures Former(m, m.head)
  {
    HeadSplit(m);
  }

  /** The pointer loaded from the head's `next` is the oldest item. */
  lemma UnlinkMem(m: Mem, y: Ref)
    requires MemOk(m) && Follows(m, m.head, y) && m.tail != m.head
    ensures Queue(m) == [y] + Queue(Unlinked(m, y)) && m.head in m.next
    ensures y in Elems(Queue(m)) && y in m.owned && y !in Elems(Queue(Unlinked(m, y)))
    ensures MemOk(Unlinked(m, y)) && Elems(Unlinked(m, y).chain) == Elems(m.chain) - {m.head}
    ensures Elems(Queue(Unlinked(m, y))) <= Elems(Queue(m))
  {
    hide Elems, NoDup, Chained;
    HeadSplit(m);
    HeadNext(m);
    UnlinkChained(m.next, m.chain);
    var m2 := Unlinked(m, y);
    assert m2.chain == Queue(m);
    HeadSplit(m2);
    assert m2.pushed == m2.popped + Queue(m2);
  }

  lemma UnlinkPc(m: Mem, y: Ref, c: Pc)
    requires MemOk(m) && Follows(m, m.head, y) && m.tail != m.head && PcOk(m, c)
    ensures PcOk(Unlinked(m, y), c)
  {
    hide Elems, NoDup, Chained;
    UnlinkMem(m, y);
  }

  // One context moves

  /** Context `p` may move to `c` without clashing with the nodes the others hold. */
  ghost predicate Fits(s: State, p: Pid, c: Pc) {
    && (Pushing(c).Some? ==> Pushing(c) != Anchor(c))
    && forall q :: q != p ==>
         && (Claim(c).Some? ==> Claim(c) != Claim(At(s, q)))
         && (Pushing(c).Some? ==> Pushing(c) != Anchor(At(s, q)))
         && (Anchor(c).Some? ==> Pushing(At(s, q)) != Anchor(c))
  }

  lemma Moves(s: State, p: Pid, m: Mem, c: Pc)
    requires Inv(s) && MemOk(m) && PcOk(m, c) && Fits(s, p, c)
    requires forall q :: q != p ==> PcOk(m, At(s, q))
    ensures Inv(Goto(s, p, m, c))
  {
    hide MemOk, PcOk, Claim, Pushing, Anchor;
    var r := Goto(s, p, m, c);
    assert At(r, p) == c;
    assert forall q :: q != p ==> At(r, q) == At(s, q);
  }

  /** A move that keeps the claim and takes its anchor, if any, from its old one or the chain. */
  lemma FitsByAnchor(s: State, p: Pid, c: Pc)
    requires Inv(s) && (Claim(c) == None || (Claim(c) == Claim(At(s, p)) && Pushing(c) == Pushing(At(s, p))))
    requires Anchor(c).Some? ==> Anchor(c) == Anchor(At(s, p)) || Anchor(c).value in Elems(s.m.chain)
    ensures Fits(s, p, c)
  {
    hide MemOk, Elems, NoDup;
    assert PcOk(s.m, At(s, p));
    forall q | q != p
      ensures Anchor(c).Some? ==> Pushing(At(s, q)) != Anchor(c)
    { assert PcOk(s.m, At(s, q)); }
  }

  lemma ReadsInv(s: State, p: Pid, c: Pc)
    requires Inv(s) && PcOk(s.m, c) && Claim(c) == Claim(At(s, p)) && Pushing(c) == Pushing(At(s, p))
    requires Anchor(c).Some? ==> Anchor(c) == Anchor(At(s, p)) || Anchor(c).value in Elems(s.m.chain)
    ensures Inv(Goto(s, p, s.m, c))
  {
    hide MemOk, PcOk;
    FitsByAnchor(s, p, c);
    Moves(s, p, s.m, c);
  }

  /** A former head without a successor is the head of an empty queue. */
  lemma NullNextIsEmpty(m: Mem, h: Ref)
    requires ChainOk(m) && Seen(m, h) && Former(m, h) && h !in m.next
    ensures m.head == h && Queue(m) == []
  {
    HeadSplit(m);
    HeadNext(m);
  }

  lemma PushReads(s: State, p: Pid)
    requires Inv(s)
    requires At(s, p).PushTail? || At(s, p).PushNext? || At(s, p).PushCheck?
      || (At(s, p).PushLink? && At(s, p).t in s.m.next)
    ensures Inv(Go(s, p))
  {
    hide Elems, NoDup, Chained;
    var m, c := s.m, At(s, p);
    assert PcOk(m, c);
    var r := Go(s, p);
    TailIn(m);
    ReadsInv(s, p, At(r, p));
    assert r == Goto(s, p, m, At(r, p));
  }

  lemma PopReads(s: State, p: Pid)
    requires Inv(s)
    requires At(s, p).PopHead? || At(s, p).PopTail? || At(s, p).PopNext? || At(s, p).PopCheck?
          || (At(s, p).PopSwing? && At(s, p).h != s.m.head) || At(s, p).LookHead? || At(s, p).LookNext?
    ensures Inv(Go(s, p))
  {
    hide Elems, NoDup, Chained;
    var m, c := s.m, At(s, p);
    assert PcOk(m, c);
    var r := Go(s, p);
    HeadSplit(m);
    if c.PopNext? && c.h !in m.next { NullNextIsEmpty(m, c.h); }
    ReadsInv(s, p, At(r, p));
    assert r == Goto(s, p, m, At(r, p));
  }

  lemma TailWrites(s: State, p: Pid)
    requires Inv(s) && (At(s, p).PushHelp? || At(s, p).PushSwing? || At(s, p).PopHelp?)
    ensures Inv(Go(s, p))
  {
    hide Elems, NoDup, Chained;
    var m, c := s.m, At(s, p);
    assert PcOk(m, c);
    var r := Go(s, p);
    var c2 := At(r, p);
    var t := Anchor(c).value;
    var y := if c.PushSwing? then c.n else c.y;
    assert r == Goto(s, p, CasTail(m, t, y), c2);
    SwingTailMem(m, t, y);
    forall q ensures PcOk(CasTail(m, t, y), At(s, q)) { SwingTailPc(m, t, y, At(s, q)); }
    assert PcOk(CasTail(m, t, y), c2);
    FitsByAnchor(s, p, c2);
    Moves(s, p, CasTail(m, t, y), c2);
  }

  lemma ResetInv(s: State, p: Pid)
    requires Inv(s) && At(s, p).PushReset?
    ensures Inv(Go(s, p))
  {
    hide Elems, NoDup, Chained, MemOk;
    var m, c := s.m, At(s, p);
    assert PcOk(m, c);
    var m2 := m.(next := m.next - {c.n});
    ResetMem(m, c.n);
    forall q ensures PcOk(m2, At(s, q)) {
      assert Pushing(At(s, p)) != Anchor(At(s, q));
      ResetPc(m, c.n, At(s, q));
    }
    FitsByAnchor(s, p, PushTail(c.n));
    Moves(s, p, m2, PushTail(c.n));
  }

  lemma LinkInv(s: State, p: Pid)
    requires Inv(s) && At(s, p).PushLink? && At(s, p).t !in s.m.next
    ensures Inv(Go(s, p)) && Queue(Go(s, p).m) == Queue(s.m) + [At(s, p).n]
  {
    hide Elems, NoDup, Chained;
    var m, c := s.m, At(s, p);
    assert PcOk(m, c);
    var m2, c2 := Linked(m, c.t, c.n), PushSwing(c.n, c.t);
    LinkMem(m, c.t, c.n);
    LinkElems(m, c.t, c.n);
    forall q | q != p ensures PcOk(m2, At(s, q)) {
      assert Pushing(At(s, p)) != Anchor(At(s, q));
      LinkPc(m, c.t, c.n, At(s, q));
    }
    FitsByAnchor(s, p, c2);
    Moves(s, p, m2, c2);
  }

  lemma UnlinkInv(s: State, p: Pid)
    requires Inv(s) && At(s, p).PopSwing? && At(s, p).h == s.m.head
    ensures Inv(Go(s, p)) && Queue(s.m) == [At(s, p).y] + Queue(Go(s, p).m)
  {
    hide Elems, NoDup, Chained;
    var m, c := s.m, At(s, p);
    assert PcOk(m, c);
    var m2, c2 := Unlinked(m, c.y), PopDisown(c.y);
    UnlinkMem(m, c.y);
    forall q ensures PcOk(m2, At(s, q)) { UnlinkPc(m, c.y, At(s, q)); }
    assert Fits(s, p, c2) by {
      HeadSplit(m);
      forall q | q != p ensures Claim(At(s, q)) != Some(c.y) { assert PcOk(m, At(s, q)); }
    }
    Moves(s, p, m2, c2);
  }

  lemma DisownInv(s: State, p: Pid)
    requires Inv(s) && At(s, p).PopDisown?
    ensures Inv(Go(s, p)) && Go(s, p).m.fault == s.m.fault && At(s, p).y !in Go(s, p).m.owned
  {
    hide Elems, NoDup, Chained;
    var m, c := s.m, At(s, p);
    assert PcOk(m, c);
    var m2 := m.(owned := m.owned - {c.y});
    forall q | q != p ensures PcOk(m2, At(s, q)) {
      assert Claim(At(s, q)) != Some(c.y);
      assert PcOk(m, At(s, q));
    }
    FitsByAnchor(s, p, Idle);
    Moves(s, p, m2, Idle);
  }

  lemma GoInv(s: State, p: Pid)
    requires Inv(s)
    ensures Inv(Go(s, p))
  {
    hide Inv;
    var c := At(s, p);
    match c
    case Idle =>
    case PushReset(_) => ResetInv(s, p);
    case PushLink(_, t) => if t in s.m.next { PushReads(s, p); } else { LinkInv(s, p); }
    case PushHelp(_, _, _) => TailWrites(s, p);
    case PushSwing(_, _) => TailWrites(s, p);
    case PopHelp(_, _) => TailWrites(s, p);
    case PopSwing(h, _) => if h == s.m.head { UnlinkInv(s, p); } else { PopReads(s, p); }
    case PopDisown(_) => DisownInv(s, p);
    case PushTail(_) => PushReads(s, p);
    case PushNext(_, _) => PushReads(s, p);
    case PushCheck(_, _, _) => PushReads(s, p);
    case _ => PopReads(s, p);
  }

  // Runs

  datatype Action = Push(p: Pid, n: Ref) | Pop(p: Pid) | Look(p: Pid) | Go_(p: Pid)

  /** A context starts an operation when it is idle. A pushed node is neither in the chain, so not
      the dummy either, nor still referenced as a tail or head by an operation in flight. */
  ghost predicate Allowed(s: State, a: Action) {
    && (a.Go_? || At(s, a.p).Idle?)
    && (a.Push? ==> a.n !in Elems(s.m.chain) && forall q :: Anchor(At(s, q)) != Some(a.n))
  }

  function Do(s: State, a: Action): State {
    match a
    case Push(p, n) =>
      if n in s.m.owned then s.(m := s.m.(fault := ItemAlreadyInQueue))
      else Goto(s, p, s.m.(owned := s.m.owned + {n}), PushReset(n))
    case Pop(p) => Goto(s, p, s.m, PopHead)
    case Look(p) => Goto(s, p, s.m, LookHead)
    case Go_(p) => Go(s, p)
  }

  lemma StartInv(s: State, p: Pid, n: Ref)
    requires Inv(s) && Allowed(s, Push(p, n))
    ensures Inv(Do(s, Push(p, n)))
  {
    hide Elems, NoDup, Chained;
    var r := Do(s, Push(p, n));
    if n in s.m.owned {
      forall q ensures PcOk(r.m, At(r, q)) { assert PcOk(s.m, At(s, q)); }
      assert forall q :: At(r, q) == At(s, q);
    } else {
      forall q ensures PcOk(r.m, At(s, q)) && Claim(At(s, q)) != Some(n) { assert PcOk(s.m, At(s, q)); }
      Moves(s, p, r.m, PushReset(n));
    }
  }

  lemma DoInv(s: State, a: Action)
    requires Inv(s) && Allowed(s, a)
    ensures Inv(Do(s, a))
  {
    hide PcOk, MemOk, Apart, Elems;
    match a
    case Push(p, n) => StartInv(s, p, n);
    case Pop(p) => assert PcOk(s.m, PopHead) by { IdleOk(s.m); } ReadsInv(s, p, PopHead);
    case Look(p) => assert PcOk(s.m, LookHead) by { IdleOk(s.m); } ReadsInv(s, p, LookHead);
    case Go_(p) => GoInv(s, p);
  }

  lemma IdleOk(m: Mem)
    ensures PcOk(m, PopHead) && PcOk(m, LookHead)
  {
  }

  function Run(s: State, acts: seq<Action>): State
    decreases |acts|
  {
    if acts == [] then s else Run(Do(s, acts[0]), acts[1..])
  }

  ghost predicate AllAllowed(s: State, acts: seq<Action>)
    decreases |acts|
  {
    acts != [] ==> Allowed(s, acts[0]) && AllAllowed(Do(s, acts[0]), acts[1..])
  }

  function Empty(sentinel: Ref): State {
    State(Mem(map[], {}, sentinel, sentinel, [sentinel], [], [], NoFault), map[])
  }

  lemma EmptyInv(sentinel: Ref)
    ensures Inv(Empty(sentinel))
  {
  }

  lemma {:induction false} RunInv(s: State, acts: seq<Action>)
    requires Inv(s) && AllAllowed(s, acts)
    ensures Inv(Run(s, acts))
    decreases |acts|
  {
    hide Inv, Allowed;
    if acts == [] {
    } else {
      DoInv(s, acts[0]);
      RunInv(Do(s, acts[0]), acts[1..]);
    }
  }

  /** Over every interleaving: first linked is first popped, nothing is lost or repeated, the chain
      is acyclic and null-terminated, tail lags the last node by at most one and head never passes
      it, and no pop finds its item unowned. */
  lemma Fifo(sentinel: Ref, acts: seq<Action>)
    requires AllAllowed(Empty(sentinel), acts)
    ensures var m := Run(Empty(sentinel), acts).m;
      && m.pushed == m.popped + Queue(m) && m.fault != ItemNotInQueue
      && ChainOk(m) && TailOk(m)
  {
    EmptyInv(sentinel);
    RunInv(Empty(sentinel), acts);
  }

  /** Each step either leaves the abstract queue alone, appends the item its context is pushing, or
      takes the front item, which its context goes on to return. */
  lemma Refines(s: State, a: Action)
    requires Inv(s) && Allowed(s, a)
    ensures var c, c2 := At(s, a.p), At(Do(s, a), a.p);
      if a.Go_? && c.PushLink? && c2.PushSwing? then c2.n == c.n && Queue(Do(s, a).m) == Queue(s.m) + [c.n]
      else if a.Go_? && c2.PopDisown? then c.PopSwing? && Queue(s.m) == [c2.y] + Queue(Do(s, a).m)
      else Queue(Do(s, a).m) == Queue(s.m)
  {
    hide Inv, Elems;
    var c := At(s, a.p);
    if a.Go_? && c.PushLink? && c.t !in s.m.next { LinkInv(s, a.p); }
    if a.Go_? && c.PopSwing? && c.h == s.m.head { UnlinkInv(s, a.p); }
  }

  /** A pop that gives up, or a look that answers empty, read the null pointer while the queue was empty. */
  lemma NothingMeansEmpty(s: State, p: Pid)
    requires Inv(s)
    ensures At(s, p).PopCheck? && At(Go(s, p), p).Idle? ==> At(s, p).sawEmpty
    ensures At(s, p).PopNext? && At(Go(s, p), p).sawEmpty ==> Queue(s.m) == []
    ensures At(s, p).LookNext? && Load(s.m.next, At(s, p).h).None? ==> Queue(s.m) == []
  {
    hide Elems, NoDup, Chained;
    var c := At(s, p);
    assert PcOk(s.m, c);
    if c.LookNext? && c.h !in s.m.next { NullNextIsEmpty(s.m, c.h); }
  }

  /** The ownership flag is set exactly for queued items and those a context is pushing or returning. */
  ghost predicate Accounted(s: State) {
    forall x :: x in s.m.owned ==> x in Elems(Queue(s.m)) || exists p :: Claim(At(s, p)) == Some(x)
  }

  lemma AccountedBy(s: State, a: Action, x: Ref)
    requires Inv(s) && Allowed(s, a) && Accounted(s) && x in Do(s, a).m.owned
    ensures x in Elems(Queue(Do(s, a).m)) || exists p :: Claim(At(Do(s, a), p)) == Some(x)
  {
    hide Inv;
    var r, p := Do(s, a), a.p;
    Refines(s, a);
    if a.Go_? && At(s, p).PushLink? { ElemsConcat(Queue(s.m), [At(s, p).n]); }
    if Claim(At(r, p)) != Some(x) && x !in Elems(Queue(s.m)) {
      var o :| Claim(At(s, o)) == Some(x);
      if o != p { assert At(r, o) == At(s, o); }
    }
  }

  lemma {:induction false} RunAccounted(s: State, acts: seq<Action>)
    requires Inv(s) && Accounted(s) && AllAllowed(s, acts)
    ensures Accounted(Run(s, acts))
    decreases |acts|
  {
    hide Inv, Allowed;
    if acts == [] {
    } else {
      var r := Do(s, acts[0]);
      forall x | x in r.m.owned
        ensures x in Elems(Queue(r.m)) || exists p :: Claim(At(r, p)) == Some(x)
      { AccountedBy(s, acts[0], x); }
      DoInv(s, acts[0]);
      RunAccounted(r, acts[1..]);
    }
  }

  /** After any run, pushing an item is refused as already queued exactly while the item is queued
      or a context is still pushing it or about to return it. */
  lemma RefusedIffInUse(sentinel: Ref, acts: seq<Action>, p: Pid, n: Ref)
    requires AllAllowed(Empty(sentinel), acts)
    ensures var s := Run(Empty(sentinel), acts);
      s.m.fault == NoFault ==>
        (Do(s, Push(p, n)).m.fault == ItemAlreadyInQueue <==>
         n in Elems(Queue(s.m)) || exists q :: Claim(At(s, q)) == Some(n))
  {
    hide Elems;
    var s := Run(Empty(sentinel), acts);
    EmptyInv(sentinel);
    RunInv(Empty(sentinel), acts);
    RunAccounted(Empty(sentinel), acts);
    if q :| Claim(At(s, q)) == Some(n) { assert PcOk(s.m, At(s, q)); }
  }

  /** Starting to push an unowned node keeps the invariant exactly when the node is in no chain and
      no operation in flight still refers to it. */
  lemma PushAllowedIff(s: State, p: Pid, n: Ref)
    requires Inv(s) && At(s, p).Idle? && n !in s.m.owned
    ensures Inv(Do(s, Push(p, n))) <==> Allowed(s, Push(p, n))
  {
    hide Elems, NoDup, Chained;
    var r := Do(s, Push(p, n));
    if Allowed(s, Push(p, n)) { StartInv(s, p, n); }
    if Inv(r) {
      assert PcOk(r.m, At(r, p));
      forall q ensures Anchor(At(s, q)) != Some(n) {
        assert Pushing(At(r, p)) != Anchor(At(r, q));
        assert q != p ==> At(r, q) == At(s, q);
      }
    }
  }

  // Operations that run alone

  /** `k` further steps of context `p`. */
  function Alone(s: State, p: Pid, k: nat): State
    decreases k
  {
    if k == 0 then s else Alone(Go(s, p), p, k - 1)
  }

  /** A context that has nothing to do changes nothing. */
  lemma {:induction false} IdleAlone(s: State, p: Pid, k: nat)
    requires At(s, p).Idle?
    ensures Alone(s, p, k) == s
  {
    if k == 0 {
    } else {
      IdleAlone(s, p, k - 1);
    }
  }

  lemma AloneFour(s: State, p: Pid)
    ensures Alone(s, p, 4) == Go(Go(Go(Go(s, p), p), p), p)
  {
    hide Go;
    var s2 := Go(Go(s, p), p);
    assert Alone(s, p, 4) == Alone(s2, p, 2);
  }

  lemma AloneSix(s: State, p: Pid)
    ensures Alone(s, p, 6) == Go(Go(Alone(s, p, 4), p), p)
  {
    hide Go;
    var s2 := Go(Go(s, p), p);
    var s4 := Go(Go(s2, p), p);
    AloneFour(s, p);
    assert Alone(s, p, 6) == Alone(s2, p, 4);
    AloneFour(s2, p);
  }

  lemma GotoTwice(s: State, p: Pid, m: Mem, c: Pc, m': Mem, c': Pc)
    ensures Goto(Goto(s, p, m, c), p, m', c') == Goto(s, p, m', c') && At(Goto(s, p, m, c), p) == c
      && Goto(s, p, m, c).m == m
  {
    assert s.pc[p := c][p := c'] == s.pc[p := c'];
  }

  /** A whole push by a context that nobody interrupts. */
  function PushedAlone(m: Mem, n: Ref): Mem {
    var m1 := m.(owned := m.owned + {n}, next := m.next - {n});
    Linked(m1, m.tail, n).(tail := n)
  }

  lemma PushAlone(s: State, p: Pid, n: Ref)
    requires At(s, p).Idle? && n !in s.m.owned && s.m.tail !in s.m.next - {n}
    ensures Alone(Do(s, Push(p, n)), p, 6) == Goto(s, p, PushedAlone(s.m, n), Idle)
  {
    var m, t := s.m, s.m.tail;
    var m1 := m.(owned := m.owned + {n});
    var m2 := m1.(next := m.next - {n});
    var m3 := Linked(m2, t, n);
    var s1, s2, s3 := Goto(s, p, m1, PushReset(n)), Goto(s, p, m2, PushTail(n)), Goto(s, p, m2, PushNext(n, t));
    var s4, s5, s6 := Goto(s, p, m2, PushCheck(n, t, None)), Goto(s, p, m2, PushLink(n, t)),
        Goto(s, p, m3, PushSwing(n, t));
    GotoTwice(s, p, m1, PushReset(n), m2, PushTail(n));
    GotoTwice(s, p, m2, PushTail(n), m2, PushNext(n, t));
    GotoTwice(s, p, m2, PushNext(n, t), m2, PushCheck(n, t, None));
    GotoTwice(s, p, m2, PushCheck(n, t, None), m2, PushLink(n, t));
    GotoTwice(s, p, m2, PushLink(n, t), m3, PushSwing(n, t));
    GotoTwice(s, p, m3, PushSwing(n, t), m3.(tail := n), Idle);
    hide Goto, At;
    assert Go(s1, p) == s2 && Go(s2, p) == s3 && Go(s3, p) == s4;
    assert Go(s4, p) == s5 && Go(s5, p) == s6;
    assert Go(s6, p) == Goto(s, p, m3.(tail := n), Idle);
    hide Go;
    AloneFour(s1, p);
    AloneSix(s1, p);
  }

  /** A whole pop by a context that nobody interrupts, when the head has the successor `y`. */
  function PoppedAlone(m: Mem, y: Ref): Mem {
    var m1 := Unlinked(m, y);
    if y in m.owned then m1.(owned := m.owned - {y}) else m1.(fault := ItemNotInQueue)
  }

  /** The pop up to its exchange of the head. */
  lemma PopReachesSwing(s: State, p: Pid, y: Ref)
    requires At(s, p).Idle? && Load(s.m.next, s.m.head) == Some(y) && s.m.tail != s.m.head
    ensures Alone(Do(s, Pop(p)), p, 4) == Goto(s, p, s.m, PopSwing(s.m.head, y))
  {
    var m, h, t := s.m, s.m.head, s.m.tail;
    var e := |m.chain| == 1;
    var s1, s2, s3 := Goto(s, p, m, PopHead), Goto(s, p, m, PopTail(h)), Goto(s, p, m, PopNext(h, t));
    var s4 := Goto(s, p, m, PopCheck(h, t, Some(y), e));
    GotoTwice(s, p, m, PopHead, m, PopTail(h));
    GotoTwice(s, p, m, PopTail(h), m, PopNext(h, t));
    GotoTwice(s, p, m, PopNext(h, t), m, PopCheck(h, t, Some(y), e));
    GotoTwice(s, p, m, PopCheck(h, t, Some(y), e), m, PopSwing(h, y));
    hide Goto, At;
    assert Go(s1, p) == s2 && Go(s2, p) == s3 && Go(s3, p) == s4;
    assert Go(s4, p) == Goto(s, p, m, PopSwing(h, y));
    hide Go;
    AloneFour(s1, p);
  }

  lemma SwingThenDisown(s: State, p: Pid, y: Ref)
    requires At(s, p) == PopSwing(s.m.head, y)
    ensures Go(Go(s, p), p) == Goto(s, p, PoppedAlone(s.m, y), Idle)
  {
    GotoTwice(s, p, Unlinked(s.m, y), PopDisown(y), PoppedAlone(s.m, y), Idle);
    hide Goto;
  }

  lemma PopAlone(s: State, p: Pid, y: Ref)
    requires At(s, p).Idle? && Load(s.m.next, s.m.head) == Some(y) && s.m.tail != s.m.head
    ensures Alone(Do(s, Pop(p)), p, 6) == Goto(s, p, PoppedAlone(s.m, y), Idle)
  {
    hide Go;
    PopReachesSwing(s, p, y);
    AloneSix(Do(s, Pop(p)), p);
    var s4 := Goto(s, p, s.m, PopSwing(s.m.head, y));
    SwingThenDisown(s4, p, y);
    GotoTwice(s, p, s.m, PopSwing(s.m.head, y), PoppedAlone(s.m, y), Idle);
  }

  /** A pop that finds the head without a successor answers that the queue is empty. */
  lemma PopAloneEmpty(s: State, p: Pid)
    requires At(s, p).Idle? && Load(s.m.next, s.m.head) == None && s.m.tail == s.m.head
    ensures Alone(Do(s, Pop(p)), p, 6) == Goto(s, p, s.m, Idle)
  {
    var m, h := s.m, s.m.head;
    var e := |m.chain| == 1;
    var s1, s2, s3 := Goto(s, p, m, PopHead), Goto(s, p, m, PopTail(h)), Goto(s, p, m, PopNext(h, h));
    var s4, s5 := Goto(s, p, m, PopCheck(h, h, None, e)), Goto(s, p, m, Idle);
    GotoTwice(s, p, m, PopHead, m, PopTail(h));
    GotoTwice(s, p, m, PopTail(h), m, PopNext(h, h));
    GotoTwice(s, p, m, PopNext(h, h), m, PopCheck(h, h, None, e));
    GotoTwice(s, p, m, PopCheck(h, h, None, e), m, Idle);
    GotoTwice(s, p, m, Idle, m, Idle);
    hide Goto, At;
    assert Go(s1, p) == s2 && Go(s2, p) == s3 && Go(s3, p) == s4 && Go(s4, p) == s5 && Go(s5, p) == s5;
    hide Go;
    AloneFour(s1, p);
    AloneSix(s1, p);
  }

  // What goes wrong without the hypothesis

  /** Why the dummy must not be pushed again: its flag is already clear, so the push is accepted, and
      then either the items behind it are cut off or it is linked to itself. */
  lemma PushedDummyBreaksChain(s: State, p: Pid)
    requires MemOk(s.m) && At(s, p).Idle? && s.m.head !in s.m.owned && s.m.tail == s.m.chain[|s.m.chain| - 1]
    ensures var d, r := s.m.head, Alone(Do(s, Push(p, s.m.head)), p, 6);
      && At(r, p).Idle? && r.m.tail == r.m.head == d && !ChainOk(r.m)
      && Load(r.m.next, d) == if Queue(s.m) == [] then Some(d) else None
  {
    var m, d, n := s.m, s.m.head, |s.m.chain| - 1;
    assert Load(m.next, m.chain[n]) == After(m.chain, n);
    PushAlone(s, p, d);
    var r := PushedAlone(m, d);
    if n > 0 { NoDupAt(m.chain, 0, n); }
    if NoDup(r.chain) { NoDupAt(r.chain, 0, n + 1); }
  }

  /** From then on, on an empty queue, a pop comes back to its loop head with nothing changed. */
  lemma SelfLinkSpins(s: State, p: Pid)
    requires At(s, p) == PopHead && s.m.tail == s.m.head && Load(s.m.next, s.m.head) == Some(s.m.head)
    ensures Alone(s, p, 5) == s
  {
    var m, h := s.m, s.m.head;
    var e := |m.chain| == 1;
    var s1, s2, s3 := Goto(s, p, m, PopTail(h)), Goto(s, p, m, PopNext(h, h)),
        Goto(s, p, m, PopCheck(h, h, Some(h), e));
    var s4, s5 := Goto(s, p, m, PopHelp(h, h)), Goto(s, p, m, PopHead);
    GotoTwice(s, p, m, PopTail(h), m, PopNext(h, h));
    GotoTwice(s, p, m, PopNext(h, h), m, PopCheck(h, h, Some(h), e));
    GotoTwice(s, p, m, PopCheck(h, h, Some(h), e), m, PopHelp(h, h));
    GotoTwice(s, p, m, PopHelp(h, h), m, PopHead);
    assert s5 == s;
    hide Goto, At;
    assert Go(s, p) == s1 && Go(s1, p) == s2 && Go(s2, p) == s3 && Go(s3, p) == s4;
    assert Go(s4, p) == s5;
    hide Go;
    AloneFour(s1, p);
    assert Alone(s, p, 5) == Alone(s1, p, 4);
  }

  lemma {:induction false} AloneSplit(s: State, p: Pid, i: nat, j: nat)
    ensures Alone(s, p, i + j) == Alone(Alone(s, p, i), p, j)
    decreases i
  {
    hide Go;
    if i > 0 { AloneSplit(Go(s, p), p, i - 1, j); }
  }

  /** So it never returns, however long it runs. */
  lemma {:induction false} SelfLinkHangs(s: State, p: Pid, k: nat)
    requires At(s, p) == PopHead && s.m.tail == s.m.head && Load(s.m.next, s.m.head) == Some(s.m.head)
    ensures At(Alone(s, p, 5 * k), p) == PopHead && Alone(s, p, 5 * k).m == s.m
  {
    hide Go;
    if k == 0 {
    } else {
      SelfLinkSpins(s, p);
      AloneSplit(s, p, 5, 5 * (k - 1));
      assert 5 * k == 5 + 5 * (k - 1);
      SelfLinkHangs(s, p, k - 1);
    }
  }

  const FIRST := Link(Kernel.Thr(1))
  const SECOND := Link(Kernel.Thr(2))

  /** Two items have been pushed and the first one popped again, all by context 1; context 0 has then
      gone through a pop as far as its exchange of the head. */
  function Stalled(): State {
    State(Mem(map[Sentinel(0) := FIRST, FIRST := SECOND], {SECOND}, FIRST, SECOND,
              [FIRST, SECOND], [FIRST, SECOND], [FIRST], NoFault),
          map[1 := Idle, 0 := PopSwing(FIRST, SECOND)])
  }

  function Whole(s: State, a: Action): State { Alone(Do(s, a), a.p, 6) }

  /** The two items pushed on the empty queue. */
  function Two(): State {
    State(Mem(map[Sentinel(0) := FIRST, FIRST := SECOND], {FIRST, SECOND}, Sentinel(0), SECOND,
              [Sentinel(0), FIRST, SECOND], [FIRST, SECOND], [], NoFault),
          map[1 := Idle])
  }

  lemma ReachTwo()
    ensures Whole(Whole(Empty(Sentinel(0)), Push(1, FIRST)), Push(1, SECOND)) == Two()
  {
    hide Go, Alone;
    var s0 := Empty(Sentinel(0));
    PushAlone(s0, 1, FIRST);
    var s1 := Whole(s0, Push(1, FIRST));
    assert s1.m == Mem(map[Sentinel(0) := FIRST], {FIRST}, Sentinel(0), FIRST, [Sentinel(0), FIRST], [FIRST], [],
        NoFault);
    PushAlone(s1, 1, SECOND);
    assert Two().m == PushedAlone(s1.m, SECOND);
  }

  lemma ReachStalled()
    ensures var s := Whole(Whole(Whole(Empty(Sentinel(0)), Push(1, FIRST)), Push(1, SECOND)), Pop(1));
      Alone(Do(s, Pop(0)), 0, 4) == Stalled()
  {
    hide Go, Alone;
    ReachTwo();
    PopAlone(Two(), 1, FIRST);
    var s3 := Whole(Two(), Pop(1));
    assert s3.m == Stalled().m;
    PopReachesSwing(s3, 0, SECOND);
  }

  /** Why a node that an operation in flight refers to must not be pushed either: context 1 pops the
      second item, pushes the first one again and pops it. The stalled exchange then succeeds on a
      head that only looks unchanged, and its item is found unowned. */
  lemma StaleExchangeSucceeds()
    ensures var s := Whole(Stalled(), Pop(1));
      && FIRST !in Elems(s.m.chain) + s.m.owned && !Allowed(s, Push(1, FIRST))
      && var r := Whole(Whole(s, Push(1, FIRST)), Pop(1));
      Go(Go(r, 0), 0).m.fault == ItemNotInQueue
  {
    hide Go, Alone;
    var s := Whole(Stalled(), Pop(1));
    PopAlone(Stalled(), 1, SECOND);
    assert s.m.chain == [SECOND] && s.m.owned == {};
    assert Anchor(At(s, 0)) == Some(FIRST);
    PushAlone(s, 1, FIRST);
    var s1 := Whole(s, Push(1, FIRST));
    assert s1.m.owned == {FIRST} && Load(s1.m.next, SECOND) == Some(FIRST) && s1.m.head == SECOND;
    PopAlone(s1, 1, FIRST);
    var r := Whole(s1, Pop(1));
    assert At(r, 0) == PopSwing(FIRST, SECOND) && r.m.head == FIRST && SECOND !in r.m.owned;
    SwingThenDisown(r, 0, SECOND);
  }
}
