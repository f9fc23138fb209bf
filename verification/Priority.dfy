/** Priorities, their 16-bit codes, and two codes packed in one 32-bit word. Machine words are
    integers in range; masks and truncating casts are written as division and remainder, which on
    integers agree with the two's complement words. */
module Priority {
  import opened Wrappers
  import Kernel

  type U8 = x: nat | x < 0x100
  type U32 = x: nat | x < 0x1_0000_0000
  type I16 = x: int | -0x8000 <= x < 0x8000

  const INTERRUPT_BIT: I16 := 0x4000
  const INVALID: I16 := -1

  datatype Order = Lt | Eq | Gt

  datatype Priority = Thread(p: U8) | Interrupt(p: U8)
  datatype Status = Invalid | SThread(p: U8) | SInterrupt(p: U8)

  const MAX := Interrupt(0xFF)

  function MaxU8(a: U8, b: U8): U8 { if a > b then a else b }

  function Cmp(a: int, b: int): Order { if a < b then Lt else if a == b then Eq else Gt }

  function Compare(a: Priority, b: Priority): Order {
    match (a, b)
    case (Thread(x), Thread(y)) => Cmp(x, y)
    case (Interrupt(x), Interrupt(y)) => Cmp(x, y)
    case (Thread(_), Interrupt(_)) => Lt
    case (Interrupt(_), Thread(_)) => Gt
  }

  function PartialCompare(a: Status, b: Status): Option<Order> {
    match (a, b)
    case (SThread(x), SThread(y)) => Some(Cmp(x, y))
    case (SInterrupt(x), SInterrupt(y)) => Some(Cmp(x, y))
    case (SThread(_), SInterrupt(_)) => Some(Lt)
    case (SInterrupt(_), SThread(_)) => Some(Gt)
    case _ => None
  }

  function Max(a: Priority, b: Priority): Priority {
    match (a, b)
    case (Thread(x), Thread(y)) => Thread(MaxU8(x, y))
    case (Interrupt(x), Interrupt(y)) => Interrupt(MaxU8(x, y))
    case (Thread(_), Interrupt(_)) => b
    case (Interrupt(_), Thread(_)) => a
  }

  function ToPriority(s: Status): Option<Priority> {
    match s
    case Invalid => None
    case SThread(p) => Some(Thread(p))
    case SInterrupt(p) => Some(Interrupt(p))
  }

  function MaxValid(a: Priority, b: Status): Priority {
    match ToPriority(b)
    case None => a
    case Some(q) => Max(a, q)
  }

  function StatusMax(a: Status, b: Status): Status {
    match (a, b)
    case (SThread(x), SThread(y)) => SThread(MaxU8(x, y))
    case (SInterrupt(x), SInterrupt(y)) => SInterrupt(MaxU8(x, y))
    case (SThread(_), SInterrupt(_)) => b
    case (SInterrupt(_), SThread(_)) => a
    case (Invalid, _) => b
    case (_, Invalid) => a
  }

  function Succ(a: Priority): Priority {
    match a
    case Thread(p) => if p < 0xFF then Thread(p + 1) else Interrupt(0)
    case Interrupt(p) => if p < 0xFF then Interrupt(p + 1) else a
  }

  // Codes

  predicate InterruptBitSet(v: I16) { (v % 0x1_0000) / 0x4000 % 2 == 1 }

  /** The low byte, also of a word whose interrupt bit was masked out. */
  function AsU8(v: I16): U8 { v % 0x100 }

  function IntoAny(a: Priority): I16 {
    match a
    case Thread(p) => p
    case Interrupt(p) => p + INTERRUPT_BIT
  }

  function FromAny(v: I16): Priority { if InterruptBitSet(v) then Interrupt(AsU8(v)) else Thread(AsU8(v)) }

  function StatusIntoAny(a: Status): I16 {
    match a
    case Invalid => INVALID
    case SThread(p) => p
    case SInterrupt(p) => p + INTERRUPT_BIT
  }

  function StatusFromAny(v: I16): Status {
    if v == INVALID then Invalid
    else if InterruptBitSet(v) then SInterrupt(AsU8(v)) else SThread(AsU8(v))
  }

  /** Every priority and the invalid one survive the trip through their code. */
  lemma RoundTrip(a: Priority, s: Status)
    ensures FromAny(IntoAny(a)) == a && StatusFromAny(StatusIntoAny(s)) == s
  {
    if a.Interrupt? { Byte(a.p); }
    if s.SInterrupt? { Byte(s.p); }
  }

  lemma Byte(p: U8)
    ensures (p + 0x4000) % 0x100 == p && (p + 0x4000) / 0x4000 % 2 == 1
  {
    assert p + 0x4000 == 0x100 * 0x40 + p;
  }

  predicate IsCode(v: I16) { v == INVALID || 0 <= v < 0x100 || INTERRUPT_BIT <= v < INTERRUPT_BIT + 0x100 }

  /** A word survives the trip through a status exactly when it is a code. */
  lemma CodeIff(v: I16)
    ensures StatusIntoAny(StatusFromAny(v)) == v <==> IsCode(v)
  {
    if IsCode(v) && v >= INTERRUPT_BIT { Byte(v - INTERRUPT_BIT); }
  }

  /** Comparing codes is comparing priorities, with every thread below every interrupt. */
  lemma CodesOrder(a: Priority, b: Priority, s: Status, t: Status)
    ensures Compare(a, b) == Cmp(IntoAny(a), IntoAny(b))
    ensures PartialCompare(s, t) ==
      if s.Invalid? || t.Invalid? then None else Some(Cmp(StatusIntoAny(s), StatusIntoAny(t)))
    ensures Compare(a, b) == Eq <==> a == b
  {
  }

  /** The maximum of statuses is the join of the code order, with the invalid one at the bottom. */
  lemma StatusMaxIsJoin(a: Status, b: Status, c: Status)
    ensures StatusIntoAny(StatusMax(a, b)) == Kernel.Max(StatusIntoAny(a), StatusIntoAny(b))
    ensures StatusIntoAny(a) <= StatusIntoAny(c) && StatusIntoAny(b) <= StatusIntoAny(c) ==>
            StatusIntoAny(StatusMax(a, b)) <= StatusIntoAny(c)
    ensures StatusMax(Invalid, a) == a == StatusMax(a, Invalid) && StatusMax(a, b) == StatusMax(b, a)
    ensures StatusMax(StatusMax(a, b), c) == StatusMax(a, StatusMax(b, c))
  {
  }

  /** The kernel model computes on codes what the priority types compute. */
  lemma CodesCompute(a: Priority, b: Priority, s: Status)
    ensures IntoAny(Max(a, b)) == Kernel.Max(IntoAny(a), IntoAny(b))
    ensures IntoAny(MaxValid(a, s)) == Kernel.Max(IntoAny(a), StatusIntoAny(s))
    ensures Kernel.Level(StatusIntoAny(s)) == if s.SInterrupt? then s.p else 0
  {
  }

  /** The successor is the least priority above, until the top. */
  lemma SuccIsLeastAbove(a: Priority, b: Priority)
    ensures a == MAX ==> Succ(a) == a
    ensures a != MAX ==> Compare(a, Succ(a)) == Lt && (Compare(a, b) == Lt ==> Compare(Succ(a), b) != Gt)
  {
  }

  // Two statuses in one word

  function AsU16(v: I16): nat { v % 0x1_0000 }

  function AsI16(w: nat): I16
    requires w < 0x1_0000
  {
    if w < 0x8000 then w else w - 0x1_0000
  }

  function FromStatusPair(a: Status, b: Status): U32 {
    AsU16(StatusIntoAny(a)) + AsU16(StatusIntoAny(b)) * 0x1_0000
  }

  function ToStatusPair(w: U32): (Status, Status) {
    (StatusFromAny(AsI16(w % 0x1_0000)), StatusFromAny(AsI16(w / 0x1_0000)))
  }

  lemma SignedRoundTrip(v: I16)
    ensures AsU16(v) < 0x1_0000 && AsI16(AsU16(v)) == v
  {
  }

  lemma Halves(x: nat, y: nat)
    requires x < 0x1_0000 && y < 0x1_0000
    ensures (x + y * 0x1_0000) % 0x1_0000 == x && (x + y * 0x1_0000) / 0x1_0000 == y
  {
  }

  lemma PairRoundTrip(a: Status, b: Status)
    ensures ToStatusPair(FromStatusPair(a, b)) == (a, b)
  {
    var x, y := StatusIntoAny(a), StatusIntoAny(b);
    SignedRoundTrip(x);
    SignedRoundTrip(y);
    Halves(AsU16(x), AsU16(y));
    RoundTrip(Thread(0), a);
    RoundTrip(Thread(0), b);
  }

  /** Equal words are equal pairs, so a compare-and-swap of the word compares both priorities. */
  lemma PairInjective(a: Status, b: Status, c: Status, d: Status)
    ensures FromStatusPair(a, b) == FromStatusPair(c, d) <==> a == c && b == d
  {
    PairRoundTrip(a, b);
    PairRoundTrip(c, d);
  }

  /** The atomic word holding both lock priorities of a thread. */
  class StatusPair {
    var word: U32

    ghost predicate Valid()
      reads this
    {
      word == FromStatusPair(View().0, View().1)
    }

    ghost function View(): (Status, Status)
      reads this
    {
      ToStatusPair(word)
    }

    constructor (a: Status, b: Status)
      ensures Valid() && View() == (a, b)
    {
      word := FromStatusPair(a, b);
      PairRoundTrip(a, b);
    }

    method Swap(a: Status, b: Status) returns (old_: (Status, Status))
      modifies this
      ensures Valid() && View() == (a, b) && old_ == old(View())
    {
      old_ := ToStatusPair(word);
      word := FromStatusPair(a, b);
      PairRoundTrip(a, b);
    }

    /** Succeeds exactly when both stored priorities are the expected ones. */
    method CompareExchange(current: (Status, Status), next: (Status, Status)) returns (ok: bool, seen: (Status, Status))
      requires Valid()
      modifies this
      ensures Valid() && seen == old(View()) && (ok <==> old(View()) == current)
      ensures View() == if ok then next else old(View())
    {
      seen := ToStatusPair(word);
      ok := word == FromStatusPair(current.0, current.1);
      PairInjective(seen.0, seen.1, current.0, current.1);
      if ok {
        word := FromStatusPair(next.0, next.1);
        PairRoundTrip(next.0, next.1);
      }
    }
  }
}
