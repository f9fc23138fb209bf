/** 64-bit time through 32-bit registers: the machine timer and its compare register. */
module Clock {
  import opened Wrappers

  const WORD := 0x1_0000_0000
  const MAX_TICKS := WORD * WORD - 1

  type Word = w: nat | w < WORD

  function Pair(hi: Word, lo: Word): (v: nat)
    ensures v <= MAX_TICKS && v / WORD == hi && v % WORD == lo
  {
    PairParts(hi, lo);
    lo + hi * WORD
  }

  lemma PairParts(hi: Word, lo: Word)
    ensures (lo + hi * WORD) / WORD == hi && (lo + hi * WORD) % WORD == lo && lo + hi * WORD <= MAX_TICKS
  {
  }

  function High(v: nat): (w: Word)
    requires v <= MAX_TICKS
  {
    v / WORD
  }

  function Low(v: nat): (w: Word) { v % WORD }

  lemma PairOfParts(v: nat)
    requires v <= MAX_TICKS
    ensures Pair(High(v), Low(v)) == v
  {
  }

  /** The value of the counter at the successive register accesses: it moves freely between them but
      never backwards, and does not wrap. */
  ghost predicate Counter(clock: nat -> nat) {
    && (forall i: nat :: clock(i) <= MAX_TICKS)
    && (forall i: nat, j: nat :: i <= j ==> clock(i) <= clock(j))
  }

  lemma HighMonotone(a: nat, b: nat)
    requires a <= b <= MAX_TICKS
    ensures High(a) <= High(b)
  {
  }

  /** The timer registers. `clock(i)` is the value of the counter at access `i`, and `n` accesses have
      been made. */
  class Timer {
    const clock: nat -> nat
    var n: nat

    constructor (clock: nat -> nat)
      ensures this.clock == clock && n == 0
    {
      this.clock := clock;
      n := 0;
    }

    method ReadHigh() returns (w: Word)
      requires Counter(clock)
      modifies this
      ensures n == old(n) + 1 && w == High(clock(old(n)))
    {
      w := High(clock(n));
      n := n + 1;
    }

    method ReadLow() returns (w: Word)
      requires Counter(clock)
      modifies this
      ensures n == old(n) + 1 && w == Low(clock(old(n)))
    {
      w := Low(clock(n));
      n := n + 1;
    }

    /** Reads high, low and high again until both high words agree. The result is a value the counter
        had during the call, and the loop ends because each retry saw the high word grow. */
    method ClockTicks() returns (ticks: nat)
      requires Counter(clock)
      modifies this
      ensures exists i :: old(n) <= i < n && ticks == clock(i)
    {
      while true
        invariant old(n) <= n
        decreases WORD - High(clock(n))
      {
        ghost var k := n;
        var mtimeh := ReadHigh();
        var mtime := ReadLow();
        var again := ReadHigh();
        HighMonotone(clock(k), clock(k + 1));
        HighMonotone(clock(k + 1), clock(k + 2));
        HighMonotone(clock(k + 2), clock(n));
        if mtimeh == again {
          PairOfParts(clock(k + 1));
          return mtime + mtimeh * WORD;
        }
      }
    }
  }

  /** The compare register as two words written one at a time. */
  class Compare {
    var hi: Word
    var lo: Word

    ghost function View(): nat
      reads this
    {
      Pair(hi, lo)
    }

    /** Writes the high word to its maximum, the low word, then the high word. No value the register
        takes on the way is below both the old and the new one, so no early interrupt is raised. */
    method SetWakeup(at: Option<nat>) returns (ghost exposed: seq<nat>)
      requires at.Some? ==> at.value <= MAX_TICKS
      modifies this
      ensures View() == if at.Some? then at.value else MAX_TICKS
      ensures |exposed| == 4 && exposed[0] == old(View()) && exposed[3] == View()
      ensures forall i :: 0 <= i < 4 ==> exposed[i] >= old(View()) || exposed[i] >= View()
    {
      var target := if at.Some? then at.value else MAX_TICKS;
      exposed := [View()];
      hi := WORD - 1;
      exposed := exposed + [View()];
      lo := Low(target);
      exposed := exposed + [View()];
      hi := High(target);
      exposed := exposed + [View()];
      PairOfParts(target);
    }
  }
}
