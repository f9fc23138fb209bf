/** Event masks: sending, waiting, and what a wait may and may not miss. A 32-bit mask is the set of
    its bit positions; `and`, `or` and `and not` are `*`, `+` and `-`. */
module Events {

  type Bit = b: nat | b < 32
  type Mask = set<Bit>

  const ALL: Mask := {31}
  const NOTIFY: Mask := {30}
  const WAKEUP: Mask := {29}

  // The pure decisions

  predicate WillNotBlock(all: bool, sent: Mask, events: Mask) {
    (!all && sent * events != {}) || sent * events == events
  }

  predicate ShouldNotify(all: bool, received: Mask, receiving: Mask) {
    (!all && received != {}) || (received != {} && received == receiving)
  }

  /** Whether the wait system call blocks after collecting `got`. */
  predicate Blocks(all: bool, got: Mask, events: Mask) {
    (!all && got == {}) || got * events != events
  }

  /** The sender's decision: the bits it saw against the announced wait mask. */
  predicate Notifies(waited: Mask, seen: Mask) {
    ShouldNotify(ALL <= waited, (waited - ALL) * seen, waited - ALL)
  }

  /** What a wait mask asks for: all of its bits, or any one of them. */
  predicate Satisfied(ev: Mask, bits: Mask) {
    if ALL <= ev then ev - ALL != {} && ev - ALL <= bits else bits * ev != {}
  }

  lemma NotifiesIffSatisfied(ev: Mask, seen: Mask)
    ensures Notifies(ev, seen) <==> Satisfied(ev, seen)
  {
    assert (ev - ALL) * seen == ev - ALL <==> ev - ALL <= seen;
    assert !(ALL <= ev) ==> ev - ALL == ev && ev * seen == seen * ev;
  }

  /** With all bits required the system call blocks exactly while one is missing; otherwise it still
      blocks unless every awaited bit was there. */
  lemma BlocksIff(ev: Mask, sent: Mask)
    ensures var m := ev - ALL;
      Blocks(ALL <= ev, sent * m, m) <==> !(m <= sent) || (m == {} && !(ALL <= ev))
  {
    var m := ev - ALL;
    assert (sent * m) * m == m <==> m <= sent;
    assert m != {} && m <= sent ==> sent * m != {};
  }

  /** The non-blocking wait drops the flag and goes on to block exactly when some but not all of an
      any-wait's bits were sent, or when nothing was asked for. */
  lemma TryWaitBlocksIff(ev: Mask, sent: Mask)
    ensures var m := ev - ALL;
      WillNotBlock(ALL <= ev, sent, m) && Blocks(false, sent * m, m) <==>
      m == {} || (!(ALL <= ev) && sent * m != {} && !(m <= sent))
  {
    var m := ev - ALL;
    assert sent * m == m <==> m <= sent;
    BlocksIff(m, sent);
    assert m - ALL == m;
  }

  /** The two masks of a thread, updated by single atomic operations. */
  class EventSet {
    var waited: Mask
    var sent: Mask

    constructor ()
      ensures waited == {} && sent == {}
    {
      waited, sent := {}, {};
    }

    method ReadAndClearMatching(events: Mask) returns (got: Mask)
      modifies this`sent
      ensures got == old(sent) * events && got !! sent && got + sent == old(sent)
    {
      got := sent * events;
      sent := sent - events;
    }

    /** Adds every bit but the flag, and asks for a resume exactly when the announced wait is satisfied. */
    method SendEvents(events: Mask) returns (notify: bool)
      modifies this`sent
      ensures sent == old(sent) + (events - ALL)
      ensures notify <==> Satisfied(waited, sent)
    {
      sent := sent + (events - ALL);
      var receiving := waited;
      var all := ALL <= receiving;
      receiving := receiving - ALL;
      notify := ShouldNotify(all, receiving * sent, receiving);
      NotifiesIffSatisfied(waited, sent);
    }
  }

  // The protocol: one waiting thread and any number of senders, one atomic operation a step

  type Pid = int

  /** Where the thread is in `wait_events` or, with `until`, `wait_events_until`. The first three
      points are inside the system call, under the preemption lock. */
  datatype Waiter =
    | Away
    | Announce(ev: Mask, until: bool)
    | Collect(ev: Mask, until: bool)
    | Park(ev: Mask, until: bool, got: Mask)
    | Parked(ev: Mask, until: bool, got: Mask)
    | Unwind(ev: Mask, until: bool, got: Mask)
    | Reap(ev: Mask, until: bool, got: Mask)

  datatype Sender = Idle | Check(seen: Mask) | Notify

  /** `locked`: the system call holds the preemption lock. `deferred`: the thread is in the pending
      resume queue. `dummy`: it was the last to be drained from it. `hist` gathers the bits pending when the
      latest wait began and all set since; `result` is what that wait returned. */
  datatype State = State(
    waited: Mask, sent: Mask, w: Waiter, locked: bool, deferred: bool, dummy: bool,
    senders: map<Pid, Sender>, hist: Mask, result: Mask)

  datatype Action =
    | Wait(ev: Mask, until: bool) | Go | Unlock | Drain | DrainOther | Timeout | Delay
    | Send(p: Pid, bits: Mask) | Load(p: Pid) | Resume(p: Pid, free: bool)

  /** A deferral of a thread that is still pending is refused, and one of the thread drained last breaks
      the pending queue; the model follows neither further. */
  datatype Why = ItemAlreadyInQueue | DummyPushed

  datatype Result = Fine(s: State) | Stop(why: Why)

  function At(s: State, p: Pid): Sender { if p in s.senders then s.senders[p] else Idle }

  predicate Calling(w: Waiter) { w.Announce? || w.Collect? || w.Park? }

  /** A resume under the system call's own lock is deferred; one that other holders of the lock put
      off may be deferred too. */
  predicate Can(s: State, a: Action) {
    match a
    case Wait(_, _) => s.w.Away? && !s.locked
    case Go => !s.w.Away? && !s.w.Parked? && (s.w.Unwind? || s.w.Reap? ==> !s.locked)
    case Unlock => s.locked && !Calling(s.w)
    case Drain => s.deferred && !Calling(s.w)
    case DrainOther => !Calling(s.w)
    case Timeout => s.w.Parked? && s.w.until && !s.locked
    case Delay => s.w.Away? && !s.locked
    case Send(p, _) => At(s, p).Idle?
    case Load(p) => At(s, p).Check?
    case Resume(p, free) => At(s, p).Notify? && (free ==> !s.locked)
  }

  /** Sets bits in the sent mask. */
  function Put(s: State, bits: Mask): State { s.(sent := s.sent + bits, hist := s.hist + bits) }

  function ReapMask(ev: Mask, until: bool): Mask { if until then ev + WAKEUP else ev }

  /** The scheduler's resume: a blocked thread becomes ready, with the notify event set. */
  function Unpark(s: State): State {
    if s.w.Parked? then Put(s, NOTIFY).(w := Unwind(s.w.ev, s.w.until, s.w.got)) else s
  }

  function GoOn(s: State): State {
    match s.w
    case Announce(ev, until) => s.(waited := ev, w := Collect(ev, until))
    case Collect(ev, until) =>
      var m := ev - ALL;
      var got := s.sent * m;
      s.(sent := s.sent - m,
         w := if Blocks(ALL <= ev, got, m) then Park(ev, until, got) else Unwind(ev, until, got))
    case Park(ev, until, got) => s.(w := Parked(ev, until, got))
    case Unwind(ev, until, got) => s.(waited := {}, w := Reap(ev, until, got))
    case Reap(ev, until, got) =>
      var m := ReapMask(ev, until);
      s.(sent := s.sent - m, w := Away, result := got + s.sent * m)
    case _ => s
  }

  function Deferring(s: State): Result {
    if s.deferred then Stop(ItemAlreadyInQueue) else if s.dummy then Stop(DummyPushed) else Fine(s.(deferred := true))
  }

  function Next(s: State, a: Action): Result {
    match a
    case Wait(ev, until) => Fine(s.(w := Announce(ev, until), locked := true, hist := s.sent, result := {}))
    case Go => Fine(GoOn(s))
    case Unlock => Fine(s.(locked := false))
    case Drain => Fine(Unpark(s.(deferred := false, dummy := true)))
    case DrainOther => Fine(s.(dummy := false))
    case Timeout => Fine(if s.w.Parked? then Put(s, WAKEUP).(w := Unwind(s.w.ev, s.w.until, s.w.got)) else s)
    case Delay => Fine(Put(s, WAKEUP))
    case Send(p, bits) => Fine(Sent(s, p, bits))
    case Load(p) => Fine(Loaded(s, p))
    case Resume(p, free) =>
      var s1 := s.(senders := s.senders[p := Idle]);
      if free then Fine(Unpark(s1)) else Deferring(s1)
  }

  function Sent(s: State, p: Pid, bits: Mask): State {
    var s1 := Put(s, bits - ALL);
    s1.(senders := s.senders[p := Check(s1.sent)])
  }

  function Loaded(s: State, p: Pid): State {
    s.(senders := s.senders[p := if At(s, p).Check? && Notifies(s.waited, At(s, p).seen) then Notify else Idle])
  }

  // Invariants

  /** The bits the latest wait has taken so far. */
  function Got(s: State): Mask {
    match s.w
    case Away => s.result
    case Park(_, _, got) => got
    case Parked(_, _, got) => got
    case Unwind(_, _, got) => got
    case Reap(_, _, got) => got
    case _ => {}
  }

  /** No bit of the latest wait is lost or made up, its bits are awaited ones, and the flag stays out. */
  ghost predicate Kept(s: State) {
    && Got(s) + s.sent == s.hist && s.sent !! ALL
    && (!s.w.Away? ==> Got(s) <= s.w.ev - ALL)
  }

  /** The system call runs under the lock and its mask stays announced until the thread is back. */
  ghost predicate Announced(s: State) {
    && (Calling(s.w) ==> s.locked)
    && (s.w.Collect? || s.w.Park? || s.w.Parked? || s.w.Unwind? ==> s.waited == s.w.ev)
    && (s.w.Announce? || s.w.Reap? || s.w.Away? ==> s.waited == {})
  }

  /** The sender has decided to resume a thread waiting for `ev`, or will on its next look. */
  ghost predicate Will(x: Sender, ev: Mask) { x.Notify? || (x.Check? && Satisfied(ev, x.seen)) }

  /** A resume of the thread is queued, decided, or will be decided by a sender about to look. */
  ghost predicate Coming(s: State, ev: Mask) {
    s.deferred || exists p :: Will(At(s, p), ev)
  }

  ghost predicate Alert(s: State) {
    (s.w.Park? || s.w.Parked?) && Satisfied(s.w.ev, s.sent) ==> Coming(s, s.w.ev)
  }

  /** A thread about to block or blocked has not collected everything it asked for. */
  ghost predicate Missing(s: State) {
    s.w.Park? || s.w.Parked? ==> s.w.got != s.w.ev - ALL || (s.w.ev == {})
  }

  ghost predicate Inv(s: State) { Kept(s) && Announced(s) && Alert(s) && Missing(s) }

  lemma KeptNext(s: State, a: Action)
    requires Kept(s) && Can(s, a) && Next(s, a).Fine?
    ensures Kept(Next(s, a).s)
  {
    hide Notifies, Satisfied, Blocks;
  }

  lemma MissingNext(s: State, a: Action)
    requires Kept(s) && Missing(s) && Next(s, a).Fine?
    ensures Missing(Next(s, a).s)
  {
    if a.Go? && s.w.Collect? { CollectBlocksIff(s); }
  }

  /** The system call lets the thread go on exactly when every awaited bit has been sent and something was
      asked for; otherwise the thread goes to block. Either way it takes the awaited bits that are there. */
  lemma CollectBlocksIff(s: State)
    requires s.w.Collect?
    ensures var r, m := GoOn(s), s.w.ev - ALL;
      && (r.w.Unwind? <==> m <= s.sent && s.w.ev != {}) && (r.w.Park? <==> !r.w.Unwind?)
      && r.w.ev == s.w.ev && r.w.until == s.w.until && r.w.got == s.sent * m
      && r == s.(w := r.w, sent := s.sent - m)
  {
    BlocksIff(s.w.ev, s.sent);
    hide Blocks;
  }

  /** How far a wait still has to go. */
  function Stage(w: Waiter): nat {
    match w
    case Away => 0
    case Reap(_, _, _) => 1
    case Unwind(_, _, _) => 2
    case Parked(_, _, _) => 3
    case Park(_, _, _) => 4
    case Collect(_, _) => 5
    case Announce(_, _) => 6
  }

  /** Each step of the thread brings its wait closer to the end, without losing what it asked for. */
  lemma GoAdvances(s: State)
    requires Can(s, Go)
    ensures var r := GoOn(s);
      && Stage(r.w) < Stage(s.w) && (!r.w.Away? ==> r.w.ev == s.w.ev && r.w.until == s.w.until)
      && (s.w.Unwind? ==> r.w.Reap? && r.w.got == s.w.got) && (s.w.Park? ==> r.w.Parked? && r.w.got == s.w.got)
  {
    hide Blocks;
  }

  /** A blocked thread goes on by a resume or, with a deadline, by a timeout and by nothing else, with what
      it has collected, and finds the event that says which of the two it was. */
  lemma UnblocksIff(s: State, a: Action)
    requires s.w.Parked? && Can(s, a) && Next(s, a).Fine?
    ensures var r := Next(s, a).s; var wakes := a.Drain? || a.Timeout? || (a.Resume? && a.free);
      && r.w == (if wakes then Unwind(s.w.ev, s.w.until, s.w.got) else s.w)
      && (wakes ==> r.sent == s.sent + (if a.Timeout? then WAKEUP else NOTIFY))
  {
    hide Notifies;
  }

  /** A sender goes on to resume exactly when what it saw satisfies the mask announced at its second look. */
  lemma LoadDecides(s: State, p: Pid)
    requires At(s, p).Check?
    ensures var r := Loaded(s, p);
      && At(r, p) == (if Satisfied(s.waited, At(s, p).seen) then Notify else Idle)
      && (forall q :: q != p ==> At(r, q) == At(s, q)) && r == s.(senders := r.senders)
  {
    hide Notifies, Satisfied;
    NotifiesIffSatisfied(s.waited, At(s, p).seen);
  }

  lemma AlertNext(s: State, a: Action)
    requires Inv(s) && Can(s, a) && Next(s, a).Fine?
    ensures Announced(Next(s, a).s) && Alert(Next(s, a).s)
  {
    hide Notifies, Satisfied, Blocks;
    var r := Next(s, a).s;
    match a
    case Go =>
      if s.w.Collect? { JustCollected(s.w.ev, s.sent); }
      if s.w.Park? && Satisfied(s.w.ev, s.sent) { StillComing(s, r, s.w.ev); }
    case DrainOther => if s.w.Parked? && Satisfied(s.w.ev, s.sent) { StillComing(s, r, s.w.ev); }
    case Unlock => if s.w.Parked? && Satisfied(s.w.ev, s.sent) { StillComing(s, r, s.w.ev); }
    case Send(p, _) => assert At(r, p) == Check(r.sent);
    case Load(p) =>
      if (s.w.Park? || s.w.Parked?) && Satisfied(s.w.ev, s.sent) {
        NotifiesIffSatisfied(s.waited, At(s, p).seen);
        assert forall q :: q != p ==> At(r, q) == At(s, q);
        StillComing(s, r, s.w.ev);
      }
    case _ =>
  }

  lemma StillComing(s: State, r: State, ev: Mask)
    requires Coming(s, ev) && r.deferred == s.deferred
    requires forall q :: Will(At(s, q), ev) ==> Will(At(r, q), ev)
    ensures Coming(r, ev)
  {
    hide Satisfied;
    if !s.deferred {
      var q :| Will(At(s, q), ev);
      assert Will(At(r, q), ev);
    }
  }

  /** Collecting clears every awaited bit. */
  lemma JustCollected(ev: Mask, sent: Mask)
    ensures Blocks(ALL <= ev, sent * (ev - ALL), ev - ALL) ==> !Satisfied(ev, sent - (ev - ALL))
  {
  }

  // Runs

  function Run(s: State, acts: seq<Action>): Result
    decreases |acts|
  {
    if acts == [] then Fine(s) else
    match Next(s, acts[0])
    case Fine(r) => Run(r, acts[1..])
    case Stop(why) => Stop(why)
  }

  predicate Possible(s: State, acts: seq<Action>)
    decreases |acts|
  {
    acts != [] ==> Can(s, acts[0]) && (Next(s, acts[0]).Fine? ==> Possible(Next(s, acts[0]).s, acts[1..]))
  }

  function Fresh(): State { State({}, {}, Away, false, false, false, map[], {}, {}) }

  lemma StepInv(s: State, a: Action)
    requires Inv(s) && Can(s, a) && Next(s, a).Fine?
    ensures Inv(Next(s, a).s)
  {
    hide Can, Next, Kept, Announced, Alert, Missing;
    KeptNext(s, a);
    AlertNext(s, a);
    MissingNext(s, a);
  }

  lemma {:induction false} RunInv(s: State, acts: seq<Action>)
    requires Inv(s) && Possible(s, acts) && Run(s, acts).Fine?
    ensures Inv(Run(s, acts).s)
    decreases |acts|
  {
    hide Inv, Can, Next;
    if acts == [] {
    } else {
      StepInv(s, acts[0]);
      RunInv(Next(s, acts[0]).s, acts[1..]);
    }
  }

  /** For any interleaving: the bits taken by the latest wait together with those still pending are
      the bits pending when it began together with those sent since, and the flag is never pending. */
  lemma BitsConserved(acts: seq<Action>)
    requires Possible(Fresh(), acts) && Run(Fresh(), acts).Fine?
    ensures var s := Run(Fresh(), acts).s;
      && Got(s) + s.sent == s.hist && s.sent !! ALL
      && (!s.w.Away? ==> Got(s) <= s.w.ev - ALL)
  {
    RunInv(Fresh(), acts);
  }

  // The bits, from the actions alone

  /** All bits sent. */
  function AllBits(acts: seq<Action>): Mask
    decreases |acts|
  {
    if acts == [] then {} else (if acts[0].Send? then acts[0].bits else {}) + AllBits(acts[1..])
  }

  /** The bits sent since the latest wait began, or `bits` with all sent if none did. */
  function BitsSince(acts: seq<Action>, bits: Mask): Mask
    decreases |acts|
  {
    if acts == [] then bits
    else BitsSince(acts[1..], if acts[0].Wait? then {} else if acts[0].Send? then bits + acts[0].bits else bits)
  }

  lemma HistNext(s: State, a: Action, bits: Mask)
    requires Inv(s) && Can(s, a) && Next(s, a).Fine? && bits - ALL <= s.hist
    ensures var r := Next(s, a).s;
      && (a.Wait? || (if a.Send? then bits + a.bits else bits) - ALL <= r.hist)
      && r.hist <= s.hist + (if a.Send? then a.bits - ALL else {}) + NOTIFY + WAKEUP
  {
    hide Notifies, Satisfied, Blocks, Announced, Alert, Missing;
  }

  lemma {:induction false} HistRun(s: State, acts: seq<Action>, bits: Mask)
    requires Inv(s) && Possible(s, acts) && Run(s, acts).Fine? && bits - ALL <= s.hist
    ensures var r := Run(s, acts).s;
      BitsSince(acts, bits) - ALL <= r.hist <= s.hist + (AllBits(acts) - ALL) + NOTIFY + WAKEUP
    decreases |acts|
  {
    hide Inv, Can, Next;
    if acts == [] {
    } else {
      var a, r := acts[0], Next(s, acts[0]).s;
      StepInv(s, a);
      HistNext(s, a, bits);
      HistRun(r, acts[1..], if a.Wait? then {} else if a.Send? then bits + a.bits else bits);
    }
  }

  /** For any interleaving: every bit sent since the latest wait began has been taken by it or is pending,
      and whatever it took or is pending was sent, or is one of the two events of the scheduler. */
  lemma NoBitLostOrMadeUp(acts: seq<Action>)
    requires Possible(Fresh(), acts) && Run(Fresh(), acts).Fine?
    ensures var s := Run(Fresh(), acts).s;
      BitsSince(acts, {}) - ALL <= Got(s) + s.sent <= (AllBits(acts) - ALL) + NOTIFY + WAKEUP
  {
    RunInv(Fresh(), acts);
    HistRun(Fresh(), acts, {});
  }

  /** In every run a sender that takes its second look while the thread is not in a wait, or has not yet
      announced it, leaves the thread alone. */
  lemma NoResumeOutsideWait(acts: seq<Action>, p: Pid)
    requires Possible(Fresh(), acts) && Run(Fresh(), acts).Fine?
    ensures var s := Run(Fresh(), acts).s;
      At(s, p).Check? && (s.w.Away? || s.w.Announce? || s.w.Reap?) ==> At(Loaded(s, p), p).Idle?
  {
    hide Notifies, Possible, Run;
    RunInv(Fresh(), acts);
    var s := Run(Fresh(), acts).s;
    if At(s, p).Check? { LoadDecides(s, p); }
  }

  /** In every run a thread that blocks, or is about to, lacks a bit it asked for, unless it asked for
      nothing at all. */
  lemma BlocksOnlyForMissing(acts: seq<Action>)
    requires Possible(Fresh(), acts) && Run(Fresh(), acts).Fine?
    ensures var s := Run(Fresh(), acts).s;
      s.w.Park? || s.w.Parked? ==> s.w.ev == {} || (s.w.got < s.w.ev - ALL)
  {
    RunInv(Fresh(), acts);
  }

  /** What a wait returns lies within what it asked for and takes every such bit that was there; a
      wait with a deadline reports a timeout exactly when the wakeup bit was pending when it began
      or was set since. */
  lemma WaitReturns(s: State)
    requires Inv(s) && s.w.Reap?
    ensures var r, m := GoOn(s), ReapMask(s.w.ev - ALL, s.w.until);
      && Next(s, Go) == Fine(r) && r.w.Away? && r.result <= m && r.result + r.sent == r.hist && r.sent !! m
      && (s.w.until ==> (WAKEUP <= r.result <==> WAKEUP <= s.hist))
  {
  }

  // Lost wakeups

  /** The thread is blocked, nobody is about to resume it, yet what it asked for has arrived. */
  ghost predicate Stuck(s: State) {
    && s.w.Parked? && !s.deferred && (forall p :: At(s, p).Idle?)
    && Satisfied(s.w.ev, s.w.got + s.sent)
  }

  /** If the system call found no awaited bit, the thread is never stuck: once the condition is met,
      even before the thread reaches the blocked list, a resume is queued or on its way. */
  lemma NoLostWakeup(acts: seq<Action>)
    requires Possible(Fresh(), acts) && Run(Fresh(), acts).Fine?
    ensures var s := Run(Fresh(), acts).s;
      && ((s.w.Park? || s.w.Parked?) && s.w.got == {} && Satisfied(s.w.ev, s.sent) ==> Coming(s, s.w.ev))
      && (s.w.Parked? && s.w.got == {} ==> !Stuck(s))
  {
    hide Satisfied;
    RunInv(Fresh(), acts);
    var s := Run(Fresh(), acts).s;
    if s.w.Parked? && s.w.got == {} { assert s.w.got + s.sent == s.sent; }
  }

  /** The sender of the completing bits decides to resume. Its resume leaves the thread ready or in the
      pending queue, and fails exactly when it has to be deferred and the thread is still pending or
      was the last to be drained. */
  lemma CompletingSendResumes(s: State, p: Pid, bits: Mask, free: bool)
    requires Inv(s) && (s.w.Park? || s.w.Parked?) && Can(s, Send(p, bits)) && (free ==> !s.locked)
    requires Satisfied(s.w.ev, s.sent + (bits - ALL))
    ensures var s2 := Loaded(Sent(s, p, bits), p); var r := Next(s2, Resume(p, free));
      && At(s2, p).Notify? && Can(s2, Resume(p, free))
      && (r == Stop(ItemAlreadyInQueue) <==> !free && s.deferred)
      && (r == Stop(DummyPushed) <==> !free && !s.deferred && s.dummy)
      && (r.Fine? ==> r.s.deferred || r.s.w.Unwind?)
  {
    hide Satisfied, Notifies;
    NotifiesIffSatisfied(s.w.ev, Sent(s, p, bits).sent);
  }

  /** Exactly the waits that collected some awaited bits before blocking can get stuck: at once when
      any bit would do, and after the missing bits arrive when all are required. */
  lemma StuckIffPartlyCollected(s: State, p: Pid)
    requires Inv(s) && s.w.Parked? && !s.deferred && (forall q :: At(s, q).Idle?) && s.sent !! (s.w.ev - ALL)
    requires s.w.ev - ALL != {}
    ensures var r := Loaded(Sent(s, p, (s.w.ev - ALL) - s.w.got), p);
      s.w.got != {} <==> Stuck(s) || Stuck(r)
  {
    var ev, got := s.w.ev, s.w.got;
    var m := ev - ALL;
    var s1 := Sent(s, p, m - got);
    var r := Loaded(s1, p);
    NotifiesIffSatisfied(ev, s1.sent);
    assert forall q :: q != p ==> At(r, q) == At(s, q);
    if got == {} {
      assert At(r, p).Notify?;
    } else {
      var b :| b in got;
      assert b in m && b !in s1.sent;
      assert r.w.got + r.sent >= m;
    }
  }

  // Runs that go wrong

  lemma StepTo(s: State, a: Action, rest: seq<Action>, r: State)
    requires Can(s, a) && Next(s, a) == Fine(r)
    ensures Run(s, [a] + rest) == Run(r, rest) && Possible(s, [a] + rest) == Possible(r, rest)
  {
    hide Can, Next;
    assert ([a] + rest)[1..] == rest;
  }

  lemma StopAt(s: State, a: Action, why: Why)
    requires Can(s, a) && Next(s, a) == Stop(why)
    ensures Run(s, [a]) == Stop(why) && Possible(s, [a])
  {
    hide Can, Next;
  }

  lemma Ended(s: State)
    ensures Run(s, []) == Fine(s) && Possible(s, [])
  {
  }

  /** A wakeup bit left by an earlier delay makes the next wait with a deadline report a timeout,
      although the awaited event had already been sent and the wait never blocked. */
  lemma DelayMakesTimeout()
    ensures var acts := [Delay] + ([Send(1, {0})] + ([Load(1)] + ([Wait({0}, true)] + [Go, Go, Unlock, Go, Go])));
      && Possible(Fresh(), acts) && Run(Fresh(), acts).Fine? && Run(Fresh(), acts).s.w.Away?
      && Run(Fresh(), acts).s.result == {0} + WAKEUP
  {
    hide Run, Possible;
    var s1 := Next(Fresh(), Delay).s;
    var s2 := Next(s1, Send(1, {0})).s;
    var s3 := Next(s2, Load(1)).s;
    var s4 := Next(s3, Wait({0}, true)).s;
    var r4 := [Go, Go, Unlock, Go, Go];
    StepTo(Fresh(), Delay, [Send(1, {0})] + ([Load(1)] + ([Wait({0}, true)] + r4)), s1);
    StepTo(s1, Send(1, {0}), [Load(1)] + ([Wait({0}, true)] + r4), s2);
    StepTo(s2, Load(1), [Wait({0}, true)] + r4, s3);
    StepTo(s3, Wait({0}, true), r4, s4);
    TimedWaitReturns(s4);
  }

  lemma TimedWaitReturns(s: State)
    requires s.w == Announce({0}, true) && s.locked && s.sent == {0} + WAKEUP
    ensures var acts := [Go, Go, Unlock, Go, Go];
      Possible(s, acts) && Run(s, acts).Fine? && Run(s, acts).s.w.Away? && Run(s, acts).s.result == {0} + WAKEUP
  {
    hide Run, Possible;
    var s1 := Next(s, Go).s;
    var s2 := Next(s1, Go).s;
    var s3 := Next(s2, Unlock).s;
    var s4 := Next(s3, Go).s;
    var s5 := Next(s4, Go).s;
    var r4 := [Go] + [];
    var r3 := [Go] + r4;
    var r2 := [Unlock] + r3;
    var r1 := [Go] + r2;
    assert [Go, Go, Unlock, Go, Go] == [Go] + r1;
    assert s2.w == Unwind({0}, true, {0});
    StepTo(s, Go, r1, s1);
    StepTo(s1, Go, r2, s2);
    StepTo(s2, Unlock, r3, s3);
    StepTo(s3, Go, r4, s4);
    StepTo(s4, Go, [], s5);
    Ended(s5);
  }

  /** The thread is in a wait for bit 0 and about to join the blocked list, under the lock. */
  function Parking(sent: Mask, senders: map<Pid, Sender>, deferred: bool, dummy: bool): State {
    State({0}, sent, Park({0}, false, {}), true, deferred, dummy, senders, sent, {})
  }

  /** From no pending bits it gets there in three steps. */
  lemma Parks(s: State, rest: seq<Action>)
    requires s.w.Away? && !s.locked && 0 !in s.sent
    ensures var r := State({0}, s.sent, Park({0}, false, {}), true, s.deferred, s.dummy, s.senders, s.sent, {});
      Run(s, [Wait({0}, false)] + ([Go] + ([Go] + rest))) == Run(r, rest)
          && Possible(s, [Wait({0}, false)] + ([Go] + ([Go] + rest))) == Possible(r, rest)
  {
    hide Run, Possible;
    var s1 := Next(s, Wait({0}, false)).s;
    var s2 := Next(s1, Go).s;
    var r := State({0}, s.sent, Park({0}, false, {}), true, s.deferred, s.dummy, s.senders, s.sent, {});
    assert s.sent * {0} == {} && s.sent - {0} == s.sent && {0} - ALL == {0};
    StepTo(s, Wait({0}, false), [Go] + ([Go] + rest), s1);
    StepTo(s1, Go, [Go] + rest, s2);
    StepTo(s2, Go, rest, r);
  }

  /** A sender sends bit 0 and decides to resume. */
  lemma Decides(s: State, p: Pid, rest: seq<Action>)
    requires s.waited == {0} && At(s, p).Idle?
    ensures var r := Put(s, {0}).(senders := s.senders[p := Notify]);
      Run(s, [Send(p, {0})] + ([Load(p)] + rest)) == Run(r, rest)
          && Possible(s, [Send(p, {0})] + ([Load(p)] + rest)) == Possible(r, rest)
  {
    hide Run, Possible, Notifies;
    assert {0} - ALL == {0};
    var s1 := Sent(s, p, {0});
    var r := Put(s, {0}).(senders := s.senders[p := Notify]);
    NotifiesIffSatisfied({0}, s1.sent);
    assert 0 in s1.sent * {0};
    assert s1.senders[p := Notify] == r.senders;
    StepTo(s, Send(p, {0}), [Load(p)] + rest, s1);
    StepTo(s1, Load(p), rest, r);
  }

  /** Two senders that both have to defer their resume of one waiting thread halt the kernel. */
  lemma TwoSendersHalt()
    ensures var acts := [Wait({0}, false)] + ([Go] +
      ([Go] + ([Send(1, {0})] + ([Load(1)] +
      ([Send(2, {0})] + ([Load(2)] + ([Resume(1, false)] + [Resume(2, false)])))))));
      Possible(Fresh(), acts) && Run(Fresh(), acts) == Stop(ItemAlreadyInQueue)
  {
    hide Run, Possible;
    var end := [Resume(1, false)] + [Resume(2, false)];
    Parks(Fresh(), [Send(1, {0})] + ([Load(1)] + ([Send(2, {0})] + ([Load(2)] + end))));
    var s1 := Parking({}, map[], false, false);
    Decides(s1, 1, [Send(2, {0})] + ([Load(2)] + end));
    var s2 := Put(s1, {0}).(senders := map[1 := Notify]);
    assert s1.senders[1 := Notify] == map[1 := Notify];
    Decides(s2, 2, end);
    var s3 := Put(s2, {0}).(senders := map[1 := Notify][2 := Notify]);
    var s4 := s3.(senders := s3.senders[1 := Idle], deferred := true);
    StepTo(s3, Resume(1, false), [Resume(2, false)], s4);
    StopAt(s4, Resume(2, false), ItemAlreadyInQueue);
  }

  /** A thread that was the last to be drained waits again, and its next deferral breaks the queue. */
  lemma DeferredAgainBreaks()
    ensures var acts := [Wait({0}, false)] + ([Go] + ([Go] + ([Send(1, {0})] + ([Load(1)] + ([Resume(1, false)] + (
                        [Go] + ([Drain] + ([Unlock] + ([Go] + ([Go] + (
                        [Wait({0}, false)] +
                            ([Go] + ([Go] + ([Send(1, {0})] + ([Load(1)] + [Resume(1, false)])))))))))))))));
      Possible(Fresh(), acts) && Run(Fresh(), acts) == Stop(DummyPushed)
  {
    hide Run, Possible;
    var last := [Send(1, {0})] + ([Load(1)] + [Resume(1, false)]);
    var again := [Wait({0}, false)] + ([Go] + ([Go] + last));
    var middle := [Go] + ([Drain] + ([Unlock] + ([Go] + ([Go] + again))));
    Parks(Fresh(), [Send(1, {0})] + ([Load(1)] + ([Resume(1, false)] + middle)));
    var s1 := Parking({}, map[], false, false);
    Decides(s1, 1, [Resume(1, false)] + middle);
    var s2 := Put(s1, {0}).(senders := s1.senders[1 := Notify]);
    var s3 := s2.(senders := s2.senders[1 := Idle], deferred := true);
    StepTo(s2, Resume(1, false), middle, s3);
    Returns(s3, again);
    var s4 := Next(Next(Next(Next(Next(s3, Go).s, Drain).s, Unlock).s, Go).s, Go).s;
    Parks(s4, last);
    var s5 := State({0}, s4.sent, Park({0}, false, {}), true, s4.deferred, s4.dummy, s4.senders, s4.sent, {});
    Decides(s5, 1, [Resume(1, false)]);
    StopAt(Put(s5, {0}).(senders := s5.senders[1 := Notify]), Resume(1, false), DummyPushed);
  }

  /** A deferred thread parks, is drained, and comes back with bit 0. */
  lemma Returns(s: State, rest: seq<Action>)
    requires s.w == Park({0}, false, {}) && s.locked && s.deferred
    ensures Next(s, Go).Fine? && Next(Next(s, Go).s, Drain).Fine? && Next(Next(Next(s, Go).s, Drain).s, Unlock).Fine?
    ensures var u := Next(Next(Next(s, Go).s, Drain).s, Unlock).s; Next(u, Go).Fine? && Next(Next(u, Go).s, Go).Fine?
    ensures var r := Next(Next(Next(Next(Next(s, Go).s, Drain).s, Unlock).s, Go).s, Go).s;
      && Run(s, [Go] + ([Drain] + ([Unlock] + ([Go] + ([Go] + rest))))) == Run(r, rest)
      && Possible(s, [Go] + ([Drain] + ([Unlock] + ([Go] + ([Go] + rest))))) == Possible(r, rest)
      && r.w.Away? && !r.locked && r.dummy && !r.deferred && 0 !in r.sent && r.senders == s.senders
  {
    hide Run, Possible;
    var s1 := Next(s, Go).s;
    var s2 := Next(s1, Drain).s;
    var s3 := Next(s2, Unlock).s;
    var s4 := Next(s3, Go).s;
    var s5 := Next(s4, Go).s;
    StepTo(s, Go, [Drain] + ([Unlock] + ([Go] + ([Go] + rest))), s1);
    StepTo(s1, Drain, [Unlock] + ([Go] + ([Go] + rest)), s2);
    StepTo(s2, Unlock, [Go] + ([Go] + rest), s3);
    StepTo(s3, Go, [Go] + rest, s4);
    StepTo(s4, Go, rest, s5);
  }
}
