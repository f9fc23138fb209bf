/** Yielding among lock-free threads of equal priority rotates them. */
module RoundRobin {
  import opened Lists
  import opened Kernel
  import opened KernelInvariants

  function Yield(s: State, now: nat): State { Exec(s.(toEqual := true, toHigher := true), now) }

  /** One yield at each of the given times. */
  function Yields(s: State, times: seq<nat>): State {
    if times == [] then s else Yield(Yields(s, times[..|times| - 1]), times[|times| - 1])
  }

  /** None of the times reaches the first queued deadline. */
  ghost predicate Undisturbed(s: State, times: seq<nat>) {
    forall i :: 0 <= i < |times| ==> s.sleep == [] || s.sleep[0].at > times[i]
  }

  /** `ring[0]` runs, the rest of the ring heads the ready queue, and everyone behind is less urgent. */
  ghost predicate Ring(s: State, ring: seq<Tid>, rest: seq<Tid>, p: Prio) {
    && ring != [] && s.current == ring[0] && s.ready == ring[1..] + rest
    && (forall t :: t in Elems(ring) ==> t in s.th && t != IDLE && !Holds(s.th[t]) && Active(s.th[t]) == p)
    && (forall i :: 0 <= i < |rest| ==> ActiveOf(s.th, rest[i]) < p)
    && NoDup(ring)
  }

  /** Only the execution states of ring members differ from `th`. */
  ghost predicate Phase(th: Threads, s: State, ring: seq<Tid>) {
    forall t :: (t in th <==> t in s.th) &&
      Get(s.th, t) == if t in Elems(ring) then Get(th, t).(state := if t == s.current then Running else Ready)
          else Get(th, t)
  }

  lemma {:induction false} ScanIs<T(!new)>(q: seq<T>, p: T -> bool, k: nat)
    requires k <= |q| && (forall i :: 0 <= i < k ==> p(q[i])) && (k < |q| ==> !p(q[k]))
    ensures Scan(q, p) == k
  {
    if k == 0 {
    } else {
      ScanIs(q[1..], p, k - 1);
    }
  }

  function Rotated(ring: seq<Tid>, n: nat): seq<Tid>
    requires n <= |ring|
  {
    ring[n..] + ring[..n]
  }

  lemma RotatedElems(ring: seq<Tid>, n: nat)
    requires n <= |ring|
    ensures Elems(Rotated(ring, n)) == Elems(ring) && (NoDup(ring) ==> NoDup(Rotated(ring, n)))
  {
    ElemsConcat(ring[..n], ring[n..]);
    ElemsConcat(ring[n..], ring[..n]);
    assert ring == ring[..n] + ring[n..];
  }

  /** The thread that yields goes behind its peers and before everyone less urgent. */
  lemma JoinsBack(th: Threads, c: Tid, peers: seq<Tid>, rest: seq<Tid>)
    requires !Holds(Get(th, c))
    requires forall i :: 0 <= i < |peers| ==> ActiveOf(th, peers[i]) == ActiveOf(th, c)
    requires forall i :: 0 <= i < |rest| ==> ActiveOf(th, rest[i]) < ActiveOf(th, c)
    ensures InsertAfter(peers + rest, c, ReadyAfter(th, c)) == peers + [c] + rest
  {
    ScanIs(peers + rest, ReadyAfter(th, c), |peers|);
    assert (peers + rest)[..|peers|] == peers && (peers + rest)[|peers|..] == rest;
  }

  lemma YieldAlone(s: State, ring: seq<Tid>, rest: seq<Tid>, p: Prio, now: nat)
    requires Ring(s, ring, rest, p) && |ring| == 1 && (s.sleep == [] || s.sleep[0].at > now)
    ensures Yield(s, now) == s.(toEqual := false, toHigher := false, alarm := Earliest(s.sleep))
  {
    assert ring[0] in Elems(ring);
    assert s.ready == rest;
  }

  lemma YieldNext(s: State, ring: seq<Tid>, rest: seq<Tid>, p: Prio, now: nat)
    requires Ring(s, ring, rest, p) && |ring| > 1 && (s.sleep == [] || s.sleep[0].at > now)
    ensures var s1 := s.(toEqual := false, toHigher := false, alarm := Earliest(s.sleep));
            Yield(s, now) == s1.(th := Switch(s, ring[1]).th, current := ring[1], ready := ring[2..] + [ring[0]] + rest)
  {
    var c, next := ring[0], ring[1];
    AtElems(ring, 1);
    assert c in Elems(ring);
    NoDupAt(ring, 0, 1);
    var s1 := s.(toEqual := false, toHigher := false, alarm := Earliest(s.sleep), ready := ring[2..] + rest);
    assert s.ready[0] == next && s.ready[1..] == ring[2..] + rest;
    var s2 := Switch(s1, next);
    SwitchPrio(s1, next);
    forall i | 0 <= i < |ring[2..]| ensures ActiveOf(s2.th, ring[2..][i]) == p {
      AtElems(ring, i + 2);
    }
    JoinsBack(s2.th, c, ring[2..], rest);
    hide InsertAfter, ReadyAfter, Elems, NoDup;
    YieldUnfold(s, now);
    assert Preempt(s1.(ready := s.ready), true) == ToReady(s2, c);
    assert s2.th[c := s2.th[c].(state := Ready)] == s2.th;
  }

  lemma YieldUnfold(s: State, now: nat)
    requires s.sleep == [] || s.sleep[0].at > now
    ensures Yield(s, now) == Preempt(s.(toEqual := false, toHigher := false, alarm := Earliest(s.sleep)), true)
  {
  }

  lemma SwitchPrio(s: State, next: Tid)
    requires s.current in s.th && next in s.th
    ensures forall u ::
      && Active(Get(Switch(s, next).th, u)) == Active(Get(s.th, u))
      && LockPrio(Get(Switch(s, next).th, u)) == LockPrio(Get(s.th, u))
    ensures next != s.current ==> s.current in Switch(s, next).th && Switch(s, next).th[s.current].state == Ready
  {
  }

  lemma RingTurned(s: State, r: State, ring: seq<Tid>, rest: seq<Tid>, p: Prio)
    requires Ring(s, ring, rest, p) && |ring| > 1
    requires r.th == Switch(s, ring[1]).th && r.current == ring[1] && r.ready == ring[2..] + [ring[0]] + rest
    ensures Ring(r, Rotated(ring, 1), rest, p)
  {
    var turned := Rotated(ring, 1);
    RotatedElems(ring, 1);
    AtElems(ring, 1);
    AtElems(ring, 0);
    SwitchPrio(s, ring[1]);
    hide NoDup, Elems;
    assert turned[1..] + rest == r.ready;
    SwitchKeys(s, ring[1]);
    hide Switch;
  }

  lemma SwitchKeys(s: State, next: Tid)
    ensures Switch(s, next).th.Keys == s.th.Keys
  {
  }

  lemma PhaseTurned(th: Threads, s: State, r: State, ring: seq<Tid>)
    requires Phase(th, s, ring) && |ring| > 1 && s.current == ring[0] && NoDup(ring)
    requires ring[0] in s.th && ring[1] in s.th
    requires r.th == Switch(s, ring[1]).th && r.current == ring[1]
    ensures Phase(th, r, ring)
  {
    AtElems(ring, 1);
    AtElems(ring, 0);
    NoDupAt(ring, 0, 1);
    hide NoDup, Elems;
    SwitchOnly(s, ring[1]);
    hide Switch;
  }

  lemma YieldRotates(th: Threads, s: State, ring: seq<Tid>, rest: seq<Tid>, p: Prio, now: nat)
    requires Ring(s, ring, rest, p) && Phase(th, s, ring) && (s.sleep == [] || s.sleep[0].at > now)
    ensures var r := Yield(s, now);
            Ring(r, Rotated(ring, 1), rest, p) && Phase(th, r, ring) && r.sleep == s.sleep
  {
    var r := Yield(s, now);
    AtElems(ring, 0);
    hide Yield, Phase;
    if |ring| == 1 {
      YieldAlone(s, ring, rest, p, now);
      assert Rotated(ring, 1) == ring;
      assert Phase(th, r, ring) by { PhaseSame(th, s, r, ring); }
    } else {
      AtElems(ring, 1);
      YieldNext(s, ring, rest, p, now);
      RingTurned(s, r, ring, rest, p);
      PhaseTurned(th, s, r, ring);
    }
  }

  lemma PhaseSame(th: Threads, s: State, r: State, ring: seq<Tid>)
    requires Phase(th, s, ring) && r.th == s.th && r.current == s.current
    ensures Phase(th, r, ring)
  {
  }

  lemma SwitchOnly(s: State, next: Tid)
    requires s.current in s.th && next in s.th && next != s.current
    ensures forall u :: (u in s.th <==> u in Switch(s, next).th) && Get(Switch(s, next).th, u) ==
                        if u == next then s.th[u].(state := Running)
                        else if u == s.current then s.th[u].(state := Ready) else Get(s.th, u)
  {
  }

  /** One more yield on a ring that has been turned. */
  lemma YieldFrom(th: Threads, s: State, ring: seq<Tid>, m: nat, rest: seq<Tid>, p: Prio, now: nat)
    requires m <= |ring| && Ring(s, Rotated(ring, m), rest, p) && Phase(th, s, ring)
    requires s.sleep == [] || s.sleep[0].at > now
    ensures var r := Yield(s, now);
            Ring(r, Rotated(Rotated(ring, m), 1), rest, p) && Phase(th, r, ring) && r.sleep == s.sleep
  {
    assert |ring| > 0;
    hide Yield, Ring, Phase;
    RotatedElems(ring, m);
    PhaseElems(th, s, ring, Rotated(ring, m));
    YieldRotates(th, s, Rotated(ring, m), rest, p, now);
    PhaseElems(th, Yield(s, now), Rotated(ring, m), ring);
  }

  lemma RotatedOnce(ring: seq<Tid>, m: nat)
    requires m < |ring|
    ensures Rotated(Rotated(ring, m), 1) == Rotated(ring, if m + 1 == |ring| then 0 else m + 1)
  {
    var turned := Rotated(ring, m);
    assert turned[..1] == [ring[m]] && turned[1..] == ring[m + 1..] + ring[..m];
    assert ring[..m + 1] == ring[..m] + [ring[m]];
    assert turned[1..] + turned[..1] == ring[m + 1..] + ring[..m + 1];
  }

  lemma TurnOnce(ring: seq<Tid>, n: nat)
    requires ring != [] && n > 0
    ensures Rotated(Rotated(ring, (n - 1) % |ring|), 1) == Rotated(ring, n % |ring|)
  {
    hide Rotated;
    NextTurn(n, |ring|);
    RotatedOnce(ring, (n - 1) % |ring|);
  }

  lemma NextTurn(n: nat, k: nat)
    requires n > 0 && k > 0
    ensures n % k == if (n - 1) % k + 1 == k then 0 else (n - 1) % k + 1
  {
    var d, m := (n - 1) / k, (n - 1) % k;
    assert n - 1 == d * k + m;
    if m + 1 == k {
      OneMore(d, k);
      Remainder(n, d + 1, k, 0);
    } else {
      Remainder(n, d, k, m + 1);
    }
  }

  lemma Remainder(n: nat, d: nat, k: nat, m: nat)
    requires m < k && n == d * k + m
    ensures n % k == m
  {
    var q, r := n / k, n % k;
    assert (q - d) * k == m - r;
    if q > d {
      Apart(q - d, k);
    } else if q < d {
      Apart(d - q, k);
    }
  }

  lemma OneMore(a: nat, k: nat)
    ensures (a + 1) * k == a * k + k
  {
  }

  lemma Apart(a: nat, k: nat)
    requires a > 0
    ensures a * k >= k
  {
    OneMore(a - 1, k);
  }

  lemma {:induction false} YieldsRotate(s: State, ring: seq<Tid>, rest: seq<Tid>, p: Prio, times: seq<nat>)
    requires Ring(s, ring, rest, p) && Phase(s.th, s, ring) && Undisturbed(s, times)
    ensures var r := Yields(s, times);
            Ring(r, Rotated(ring, |times| % |ring|), rest, p) && Phase(s.th, r, ring) && r.sleep == s.sleep
    decreases |times|
  {
    assert ring != [];
    hide Yield, Ring, Phase;
    if times == [] {
      assert Rotated(ring, 0) == ring;
    } else {
      var n, before := |times|, times[..|times| - 1];
      YieldsRotate(s, ring, rest, p, before);
      YieldFrom(s.th, Yields(s, before), ring, (n - 1) % |ring|, rest, p, times[n - 1]);
      TurnOnce(ring, n);
    }
  }

  lemma PhaseElems(th: Threads, s: State, a: seq<Tid>, b: seq<Tid>)
    requires Phase(th, s, a) && Elems(a) == Elems(b)
    ensures Phase(th, s, b)
  {
  }

  lemma RingPhase(s: State, ring: seq<Tid>, rest: seq<Tid>, p: Prio)
    requires Inv(s) && Ring(s, ring, rest, p)
    ensures Phase(s.th, s, ring)
  {
    hide Ordered, Sleeping, NeverLate, AllExact, Owners, NoDup;
    ElemsConcat(ring[1..], rest);
    forall t | t in Elems(ring) ensures s.th[t].state == if t == s.current then Running else Ready {
      assert t == ring[0] || t in Elems(ring[1..]);
    }
  }

  /** Round robin: yields, whenever they happen before the next deadline, give each of the `k` peers its
      turn in queue order, and every `k` of them bring back the thread, the queue and every thread state
      that the first one started from. */
  lemma RoundRobin(s: State, ring: seq<Tid>, rest: seq<Tid>, p: Prio, times: seq<nat>)
    requires Inv(s) && Ring(s, ring, rest, p) && Undisturbed(s, times)
    ensures var r, n := Yields(s, times), |times| % |ring|;
            && r.current == ring[n] && r.ready == Rotated(ring, n)[1..] + rest
            && (n == 0 ==> r.current == s.current && r.ready == s.ready && r.th == s.th)
  {
    hide Inv, Yields;
    RingPhase(s, ring, rest, p);
    YieldsRotate(s, ring, rest, p, times);
    if |times| % |ring| == 0 {
      assert Rotated(ring, 0) == ring;
      SamePhase(s.th, s, Yields(s, times), ring);
    }
  }

  lemma SamePhase(th: Threads, a: State, b: State, ring: seq<Tid>)
    requires Phase(th, a, ring) && Phase(th, b, ring) && a.current == b.current
    ensures a.th == b.th
  {
    forall t ensures t in a.th <==> t in b.th {
      assert t in th <==> t in a.th;
      assert t in th <==> t in b.th;
    }
    assert a.th.Keys == b.th.Keys;
    forall t | t in a.th ensures a.th[t] == b.th[t] {
      assert Get(a.th, t) == a.th[t] && Get(b.th, t) == b.th[t];
    }
  }
}
