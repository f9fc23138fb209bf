/** The bounded channel: a ring buffer and the sections that run under its mutex. */
module Channel {
  import opened Wrappers

  /** `None` is an uninitialised cell. */
  datatype Ring<T> = Ring(head: nat, tail: nat, used: nat, cells: seq<Option<T>>)

  function Push<T>(r: Ring<T>, x: T): (Ring<T>, bool)
    requires r.used != |r.cells| ==> r.head < |r.cells|
  {
    if r.used == |r.cells| then (r, false)
    else (Ring((r.head + 1) % |r.cells|, r.tail, r.used + 1, r.cells[r.head := Some(x)]), true)
  }

  /** Reading an uninitialised cell yields `Some(None)`. */
  function Pop<T>(r: Ring<T>): (Ring<T>, Option<Option<T>>)
    requires r.used != 0 ==> r.tail < |r.cells|
  {
    if r.used == 0 then (r, None)
    else (r.(tail := (r.tail + 1) % |r.cells|, used := r.used - 1), Some(r.cells[r.tail]))
  }

  // Positions in the ring

  /** The cell `i` places after `t` among `n`. */
  function Slot(t: nat, i: nat, n: nat): nat { if t + i < n then t + i else t + i - n }

  lemma SlotIsMod(t: nat, i: nat, n: nat)
    requires t < n && i <= n
    ensures Slot(t, i, n) < n && (t + i) % n == Slot(t, i, n)
  {
    if t + i >= n {
      assert t + i == n + (t + i - n);
      ModOnce(t + i - n, n);
    }
  }

  lemma ModOnce(x: nat, n: nat)
    requires x < n
    ensures (n + x) % n == x && x % n == x
  {
  }

  lemma SlotsDiffer(t: nat, i: nat, j: nat, n: nat)
    requires t < n && i < j < n
    ensures Slot(t, i, n) != Slot(t, j, n)
  {
  }

  lemma SlotSucc(t: nat, i: nat, n: nat)
    requires t < n && i < n
    ensures Slot((t + 1) % n, i, n) == if i + 1 < n then Slot(t, i + 1, n) else t
    ensures (t + 1) % n < n
  {
    SlotIsMod(t, 1, n);
  }

  /** The occupied cells are initialised, and `head` is where they end. */
  ghost predicate Valid<T>(r: Ring<T>) {
    var n := |r.cells|;
    && r.used <= n
    && (n > 0 ==> r.tail < n && r.head == (r.tail + r.used) % n)
    && (forall i :: 0 <= i < r.used ==> r.cells[Slot(r.tail, i, n)].Some?)
  }

  ghost function Contents<T>(r: Ring<T>): seq<T>
    requires Valid(r)
  {
    seq(r.used, i requires 0 <= i < r.used => r.cells[Slot(r.tail, i, |r.cells|)].value)
  }

  function New<T>(capacity: nat): (r: Ring<T>)
    ensures Valid(r) && Contents(r) == [] && |r.cells| == capacity
  {
    Ring(0, 0, 0, seq(capacity, _ => None))
  }

  lemma HeadAt<T>(r: Ring<T>)
    requires Valid(r) && |r.cells| > 0
    ensures r.head == Slot(r.tail, r.used, |r.cells|) < |r.cells|
  {
    SlotIsMod(r.tail, r.used, |r.cells|);
  }

  /** A push into a ring with room fills the cell behind the occupied ones. */
  lemma PushFills<T>(r: Ring<T>, x: T)
    requires Valid(r) && r.used != |r.cells|
    ensures var n := |r.cells|;
      && r.head < n && Push(r, x) == (Ring((r.head + 1) % n, r.tail, r.used + 1, r.cells[r.head := Some(x)]), true)
      && r.head == Slot(r.tail, r.used, n) && (r.head + 1) % n == (r.tail + (r.used + 1)) % n
      && (forall i :: 0 <= i < r.used ==> Slot(r.tail, i, n) != r.head)
  {
    var n := |r.cells|;
    HeadAt(r);
    HeadMoves(r.tail, r.used, n);
    forall i | 0 <= i < r.used ensures Slot(r.tail, i, n) != r.head { SlotsDiffer(r.tail, i, r.used, n); }
  }

  /** Pushing appends, or refuses exactly when the ring is full. */
  lemma PushAppends<T>(r: Ring<T>, x: T)
    requires Valid(r)
    ensures r.used != |r.cells| ==> r.head < |r.cells|
    ensures var (r2, ok) := Push(r, x);
      && Valid(r2) && |r2.cells| == |r.cells| && ok == (|Contents(r)| < |r.cells|)
      && Contents(r2) == if ok then Contents(r) + [x] else Contents(r)
  {
    if r.used != |r.cells| {
      PushFills(r, x);
      hide Push, Slot;
      var (r2, _) := Push(r, x);
      assert Valid(r2);
      assert Contents(r2) == Contents(r) + [x];
    }
  }

  lemma HeadMoves(t: nat, u: nat, n: nat)
    requires t < n && u < n
    ensures ((t + u) % n + 1) % n == (t + (u + 1)) % n
  {
    SlotIsMod(t, u, n);
    SlotIsMod(t, u + 1, n);
    SlotIsMod(Slot(t, u, n), 1, n);
  }

  /** Popping takes the oldest item, which was initialised, or nothing exactly when the ring is empty. */
  lemma PopTakesOldest<T>(r: Ring<T>)
    requires Valid(r)
    ensures r.used != 0 ==> r.tail < |r.cells|
    ensures var (r2, x) := Pop(r);
      && Valid(r2) && |r2.cells| == |r.cells|
      && (if Contents(r) == [] then x == None && r2 == r
          else x == Some(Some(Contents(r)[0])) && Contents(r2) == Contents(r)[1..])
  {
    var n := |r.cells|;
    if r.used != 0 {
      var (r2, _) := Pop(r);
      TailMoves(r.tail, r.used, n);
      forall i | 0 <= i < r2.used ensures r2.cells[Slot(r2.tail, i, n)] == r.cells[Slot(r.tail, i + 1, n)] {
        SlotSucc(r.tail, i, n);
      }
      SlotSucc(r.tail, 0, n);
      assert Contents(r2) == Contents(r)[1..];
    }
  }

  lemma TailMoves(t: nat, u: nat, n: nat)
    requires t < n && 0 < u <= n
    ensures (t + u) % n == ((t + 1) % n + (u - 1)) % n
  {
    SlotIsMod(t, u, n);
    SlotIsMod(t, 1, n);
    SlotIsMod(Slot(t, 1, n), u - 1, n);
  }

  // The channel

  /** Every item a send put in and every item a receive returned, in order. */
  datatype Chan<T> = Chan(ring: Ring<T>, accepted: seq<T>, received: seq<T>)

  /** The sections under the mutex. `Send` and `Recv` are the sections that follow the condition
      variable's wait, so they run when it reports room or an item. */
  datatype Act<T> = TrySend(x: T) | Send(x: T) | TryRecv | Recv

  datatype Outcome<T> = Ok(c: Chan<T>) | Dropped(x: T) | Panic

  predicate Full<T>(r: Ring<T>) { r.used == |r.cells| }

  predicate Can<T>(c: Chan<T>, a: Act<T>) {
    match a
    case Send(_) => !Full(c.ring)
    case Recv => c.ring.used != 0
    case _ => true
  }

  /** A send ignores the result of the push; a receive unwraps the result of the pop. */
  function Next<T>(c: Chan<T>, a: Act<T>): Outcome<T>
    requires c.ring.used != |c.ring.cells| ==> c.ring.head < |c.ring.cells|
    requires c.ring.used != 0 ==> c.ring.tail < |c.ring.cells|
  {
    match a
    case TrySend(x) => if Full(c.ring) then Ok(c) else PushItem(c, x)
    case Send(x) => PushItem(c, x)
    case TryRecv => if c.ring.used == 0 then Ok(c) else PopItem(c)
    case Recv => PopItem(c)
  }

  function PushItem<T>(c: Chan<T>, x: T): Outcome<T>
    requires c.ring.used != |c.ring.cells| ==> c.ring.head < |c.ring.cells|
  {
    var (r, ok) := Push(c.ring, x);
    if ok then Ok(c.(ring := r, accepted := c.accepted + [x])) else Dropped(x)
  }

  function PopItem<T>(c: Chan<T>): Outcome<T>
    requires c.ring.used != 0 ==> c.ring.tail < |c.ring.cells|
  {
    var (r, x) := Pop(c.ring);
    if x.Some? && x.value.Some? then Ok(c.(ring := r, received := c.received + [x.value.value])) else Panic
  }

  ghost predicate Inv<T>(c: Chan<T>) { Valid(c.ring) && c.received + Contents(c.ring) == c.accepted }

  lemma Bounds<T>(r: Ring<T>)
    requires Valid(r)
    ensures r.used != |r.cells| ==> r.head < |r.cells|
    ensures r.used != 0 ==> r.tail < |r.cells|
  {
    if |r.cells| > 0 { HeadAt(r); }
  }

  lemma PushItemInv<T>(c: Chan<T>, x: T)
    requires Inv(c) && !Full(c.ring)
    ensures c.ring.head < |c.ring.cells|
    ensures PushItem(c, x).Ok? && Inv(PushItem(c, x).c) && |PushItem(c, x).c.ring.cells| == |c.ring.cells|
  {
    PushAppends(c.ring, x);
    hide Valid, Contents;
    var (r, ok) := Push(c.ring, x);
    assert c.received + (Contents(c.ring) + [x]) == c.accepted + [x];
  }

  /** No section drops an item or panics, and each keeps received ++ contents == accepted. */
  lemma NextInv<T>(c: Chan<T>, a: Act<T>)
    requires Inv(c) && Can(c, a)
    ensures c.ring.used != |c.ring.cells| ==> c.ring.head < |c.ring.cells|
    ensures c.ring.used != 0 ==> c.ring.tail < |c.ring.cells|
    ensures Next(c, a).Ok? && Inv(Next(c, a).c) && |Next(c, a).c.ring.cells| == |c.ring.cells|
  {
    hide Valid, Contents, Push, Pop;
    Bounds(c.ring);
    Sizes(c.ring);
    match a
    case TrySend(x) => if !Full(c.ring) { PushItemInv(c, x); }
    case Send(x) => PushItemInv(c, x);
    case _ =>
      PopTakesOldest(c.ring);
      if c.ring.used != 0 {
        var (r, x) := Pop(c.ring);
        var front := Contents(c.ring)[0];
        assert c.received + Contents(c.ring) == (c.received + [front]) + Contents(c.ring)[1..];
      }
  }

  lemma Sizes<T>(r: Ring<T>)
    requires Valid(r)
    ensures |Contents(r)| == r.used
  {
  }

  ghost predicate Possible<T>(c: Chan<T>, acts: seq<Act<T>>)
    decreases |acts|
  {
    acts != [] ==> Inv(c) ==> Can(c, acts[0]) && (NextInv(c, acts[0]); Possible(Next(c, acts[0]).c, acts[1..]))
  }

  ghost function Run<T>(c: Chan<T>, acts: seq<Act<T>>): (r: Chan<T>)
    requires Inv(c) && Possible(c, acts)
    ensures Inv(r) && |r.ring.cells| == |c.ring.cells|
    decreases |acts|
  {
    if acts == [] then c else NextInv(c, acts[0]); Run(Next(c, acts[0]).c, acts[1..])
  }

  // The channel against a bounded queue of values

  /** A bounded queue: what it holds, what has gone in and what has come out. */
  datatype Box<T> = Box(held: seq<T>, given: seq<T>, taken: seq<T>)

  /** Sending puts an item in while there is room, receiving takes the oldest out while there is one. */
  function Served<T>(b: Box<T>, capacity: nat, a: Act<T>): Box<T> {
    if a.Send? || a.TrySend? then
      if |b.held| < capacity then Box(b.held + [a.x], b.given + [a.x], b.taken) else b
    else
      if b.held != [] then Box(b.held[1..], b.given, b.taken + [b.held[0]]) else b
  }

  function ServedAll<T>(b: Box<T>, capacity: nat, acts: seq<Act<T>>): Box<T>
    decreases |acts|
  {
    if acts == [] then b else ServedAll(Served(b, capacity, acts[0]), capacity, acts[1..])
  }

  ghost function BoxOf<T>(c: Chan<T>): Box<T>
    requires Valid(c.ring)
  {
    Box(Contents(c.ring), c.accepted, c.received)
  }

  /** Each section does to the contents what the bounded queue does; a send section that may run always
      finds room and a receive section an item. */
  lemma SectionServes<T>(c: Chan<T>, a: Act<T>)
    requires Inv(c) && Can(c, a)
    ensures c.ring.used != |c.ring.cells| ==> c.ring.head < |c.ring.cells|
    ensures c.ring.used != 0 ==> c.ring.tail < |c.ring.cells|
    ensures Next(c, a).Ok? && Valid(Next(c, a).c.ring)
    ensures BoxOf(Next(c, a).c) == Served(BoxOf(c), |c.ring.cells|, a)
    ensures (a.Send? ==> |Contents(c.ring)| < |c.ring.cells|) && (a.Recv? ==> Contents(c.ring) != [])
  {
    NextInv(c, a);
    Sizes(c.ring);
    RingLimit(c.ring);
    hide Valid, Contents, Push, Pop;
    if a.TrySend? || a.Send? {
      if !Full(c.ring) { PushAppends(c.ring, a.x); }
    } else {
      PopTakesOldest(c.ring);
    }
  }

  lemma RingLimit<T>(r: Ring<T>)
    requires Valid(r)
    ensures r.used <= |r.cells|
  {
  }

  lemma {:induction false} RunServes<T>(c: Chan<T>, acts: seq<Act<T>>)
    requires Inv(c) && Possible(c, acts)
    ensures BoxOf(Run(c, acts)) == ServedAll(BoxOf(c), |c.ring.cells|, acts)
    decreases |acts|
  {
    hide Valid, Next, Contents;
    if acts == [] {
    } else {
      NextInv(c, acts[0]);
      SectionServes(c, acts[0]);
      RunServes(Next(c, acts[0]).c, acts[1..]);
    }
  }

  /** Over any run the channel holds, has accepted and has handed out exactly what a bounded queue of its
      capacity would have. */
  lemma ChannelIsBoundedQueue<T>(capacity: nat, acts: seq<Act<T>>)
    requires Possible(Chan(New<T>(capacity), [], []), acts)
    ensures BoxOf(Run(Chan(New<T>(capacity), [], []), acts)) == ServedAll(Box([], [], []), capacity, acts)
  {
    RunServes(Chan(New<T>(capacity), [], []), acts);
  }

  /** Over any run from an empty channel: what was received followed by what is buffered is what was
      accepted, no more is buffered than the capacity, and the ring indices agree. */
  lemma ChannelConserves<T>(capacity: nat, acts: seq<Act<T>>)
    requires Possible(Chan(New<T>(capacity), [], []), acts)
    ensures var c := Run(Chan(New<T>(capacity), [], []), acts);
      && c.received + Contents(c.ring) == c.accepted && |Contents(c.ring)| <= capacity
      && (capacity > 0 ==> c.ring.head == (c.ring.tail + c.ring.used) % capacity)
      && (capacity == 0 ==> c.accepted == [])
  {
    var c := Run(Chan(New<T>(capacity), [], []), acts);
    if capacity == 0 { assert Contents(c.ring) == []; NothingAccepted(Chan(New<T>(0), [], []), acts); }
  }

  lemma {:induction false} NothingAccepted<T>(c: Chan<T>, acts: seq<Act<T>>)
    requires Inv(c) && Possible(c, acts) && |c.ring.cells| == 0
    ensures Run(c, acts) == c
    decreases |acts|
  {
    if acts == [] {
    } else {
      NextInv(c, acts[0]);
      assert Next(c, acts[0]) == Ok(c);
      NothingAccepted(c, acts[1..]);
    }
  }

  /** The buffer object. */
  class Fifo<T> {
    var head: nat
    var tail: nat
    var used: nat
    const cells: array<Option<T>>

    ghost function View(): Ring<T>
      reads this, cells
    {
      Ring(head, tail, used, cells[..])
    }

    constructor (capacity: nat)
      ensures fresh(cells) && View() == New(capacity)
    {
      head, tail, used := 0, 0, 0;
      cells := new Option<T>[capacity](_ => None);
      new;
      assert cells[..] == New<T>(capacity).cells;
    }

    method PushBack(x: T) returns (ok: bool)
      requires Valid(View())
      modifies this, cells
      ensures Valid(View()) && ok == (|old(Contents(View()))| < cells.Length)
      ensures Contents(View()) == if ok then old(Contents(View())) + [x] else old(Contents(View()))
    {
      PushAppends(View(), x);
      ghost var before := View();
      if used == cells.Length {
        return false;
      }
      cells[head] := Some(x);
      head := (head + 1) % cells.Length;
      used := used + 1;
      ok := true;
      assert View() == Push(before, x).0;
    }

    /** Once valid, popping never reads an uninitialised cell. */
    method PopFront() returns (x: Option<T>)
      requires Valid(View())
      modifies this
      ensures Valid(View())
      ensures if old(Contents(View())) == [] then x == None && View() == old(View())
              else x == Some(old(Contents(View()))[0]) && Contents(View()) == old(Contents(View()))[1..]
    {
      PopTakesOldest(View());
      ghost var before := View();
      if used == 0 {
        return None;
      }
      x := cells[tail];
      tail := (tail + 1) % cells.Length;
      used := used - 1;
      assert View() == Pop(before).0;
    }
  }
}
