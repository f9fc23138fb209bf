/** The scheduler object with its three thread lists on the heap, one list node per thread. The lists
    refine the queues of module `Kernel`, and a node is owned by the list that its thread's state names. */
module RawScheduler {
  import opened Wrappers
  import opened Lists
  import opened Kernel
  import opened IntrusiveList
  import KI = KernelInvariants

  // Threads by their nodes

  function IdOf(): Node -> Tid { (n: Node) => n.id }

  ghost function Ids(q: seq<Node>): (r: seq<Tid>)
    ensures |r| == |q| && forall i :: 0 <= i < |q| ==> r[i] == q[i].id
  {
    Map(IdOf(), q)
  }

  function OnId(p: Tid -> bool): Node -> bool { On<Node, Tid>(IdOf(), p) }

  function Above(th: Threads, floor: int): Tid -> bool { t => ActiveOf(th, t) > floor }

  lemma RunsAlone(s: State, t: Tid)
    requires KI.Inv(s) && t in s.th
    ensures (s.th[t].state == Running ==> t == s.current) && (t == IDLE ==> s.th[t].state in {Ready, Running})
  {
    hide KI.Single, KI.Ordered, KI.Sleeping, KI.NeverLate, KI.AllExact, KI.Owners, Elems;
    assert Get(s.th, t) == s.th[t];
  }

  lemma LeaveKeeps(s: State)
    ensures LeaveCpu(s).th.Keys == s.th.Keys
  {
    hide LocksCeiling, ActiveOf;
  }

  lemma BlockedNow(s: State, deadline: Option<nat>)
    requires s.current in s.th && BlockCurrent(s, deadline).Ok?
    ensures s.current in BlockCurrent(s, deadline).s.th && BlockCurrent(s, deadline).s.th[s.current].state == Blocked
  {
    hide InsertAfter, BlockedAfter, LeaveCpu;
    LeaveKeeps(s);
  }

  lemma SuspendedNow(s: State, t: Tid)
    requires t in s.th && Suspend(s, t).Ok?
    ensures t in Suspend(s, t).s.th && Suspend(s, t).s.th[t].state == Suspended
  {
    hide Without, LeaveCpu;
    LeaveKeeps(s);
  }

  lemma MadeReady(s: State, t: Tid)
    requires t in s.th
    ensures t in MakeReady(s, t).th
    ensures MakeReady(s, t).th[t].state == if s.th[t].state in {Created, Running} then s.th[t].state else Ready
  {
    hide Without, InsertAfter, ReadyAfter, Awake;
  }

  lemma ResumedNow(s: State, t: Tid)
    requires t in s.th
    ensures t in Resume(s, t).th
    ensures Resume(s, t).th[t].state == if s.th[t].state in {Created, Running} then s.th[t].state else Ready
  {
    hide MakeReady, LocksCeiling, Active;
    MadeReady(s, t);
  }

  // The sleep queue

  lemma AwakePasses(q: seq<Sleeper>, who: Who, k: nat)
    requires k < |q| && q[k].who != who && Awake(q, who) == q[..k] + Awake(q[k..], who)
    ensures Awake(q, who) == q[..k + 1] + Awake(q[k + 1..], who)
  {
    hide Awake;
    AwakeHead(q[k..], who);
    assert q[k..][1..] == q[k + 1..];
    assert q[..k + 1] == q[..k] + [q[k]];
  }

  lemma AwakeHead(q: seq<Sleeper>, who: Who)
    requires q != [] && q[0].who != who
    ensures Awake(q, who) == [q[0]] + Awake(q[1..], who)
  {
  }

  lemma AwakeFound(q: seq<Sleeper>, who: Who, k: nat)
    requires k <= |q| && (k < |q| ==> q[k].who == who) && Awake(q, who) == q[..k] + Awake(q[k..], who)
    ensures Awake(q, who) == if k < |q| then q[..k] + q[k + 1..] else q
  {
    assert k < |q| ==> q[k..][1..] == q[k + 1..];
  }

  method RemoveSleeper(q: seq<Sleeper>, who: Who) returns (r: seq<Sleeper>)
    ensures r == Awake(q, who)
  {
    var k := 0;
    assert q[..0] + q[0..] == q;
    hide Awake;
    while k < |q| && q[k].who != who
      invariant k <= |q| && Awake(q, who) == q[..k] + Awake(q[k..], who)
    {
      AwakePasses(q, who, k);
      k := k + 1;
    }
    AwakeFound(q, who, k);
    r := if k < |q| then q[..k] + q[k + 1..] else q;
  }

  class Scheduler {
    const node: map<Tid, Node>
    const ready: LinkedList
    const blocked: LinkedList
    const suspended: LinkedList
    ghost const nodes: set<Node>

    var th: Threads
    var sleep: seq<Sleeper>
    var current: Tid
    var toEqual: bool
    var toHigher: bool
    var alarm: Option<nat>
    var owner: map<Lock, Tid>
    var polls: set<nat>

    /** The kernel before any thread is started: idle is the current thread and no node is in a list. */
    constructor (threads: Threads, node: map<Tid, Node>)
      requires node.Keys == threads.Keys
      requires forall t :: t in node ==> node[t].id == t
      requires forall n :: n in node.Values ==> n.owner == null && n.id in node && node[n.id] == n
      ensures Listed() && View() == State(threads, [], [], [], [], IDLE, false, false, None, map[], {})
      ensures KI.Init(View()) ==> Valid()
    {
      ghost var all := node.Values;
      this.node := node;
      this.nodes := all;
      ready := new LinkedList(all);
      blocked := new LinkedList(all);
      suspended := new LinkedList(all);
      th := threads;
      sleep := [];
      current := IDLE;
      toEqual, toHigher := false, false;
      alarm := None;
      owner := map[];
      polls := {};
      new;
      NothingListed();
      hide Listed, KI.Inv, KI.Init;
      if KI.Init(View()) { KI.InitInv(View()); }
    }

    ghost function View(): State
      reads this, ready, blocked, suspended
    {
      State(th, Ids(ready.items), Ids(blocked.items), Ids(suspended.items), sleep, current, toEqual, toHigher, alarm,
          owner, polls)
    }

    /** Each thread has one node, and the three lists draw on the same nodes. */
    ghost predicate Wired() {
      && ready != blocked && ready != suspended && blocked != suspended
      && ready.nodes == nodes && blocked.nodes == nodes && suspended.nodes == nodes
      && (forall t :: t in node ==> node[t] in nodes && node[t].id == t)
      && (forall n :: n in nodes ==> n.id in node && node[n.id] == n)
    }

    ghost predicate Listed()
      reads this`th, ready, blocked, suspended, nodes, ready.items, blocked.items, suspended.items
    {
      && Wired() && th.Keys == node.Keys
      && ready.Valid() && blocked.Valid() && suspended.Valid()
      && forall n :: n in nodes ==> n.owner == null || n.owner == ready || n.owner == blocked || n.owner == suspended
    }

    /** Three empty lists over nodes that nobody owns. */
    lemma NothingListed()
      requires Wired() && th.Keys == node.Keys && ready.Valid() && blocked.Valid() && suspended.Valid()
      requires ready.items == [] && blocked.items == [] && suspended.items == []
      requires forall n :: n in nodes ==> n.owner == null
      ensures Listed()
      ensures View() == State(th, [], [], [], sleep, current, toEqual, toHigher, alarm, owner, polls)
    {
      hide Wired;
    }

    ghost predicate Valid()
      reads this, ready, blocked, suspended, nodes, ready.items, blocked.items, suspended.items
    {
      Listed() && KI.Inv(View())
    }

    predicate Mine(l: LinkedList) { l == ready || l == blocked || l == suspended }

    // Operations on one of the lists

    /** The list that owns a thread's node. */
    ghost function OwnerOf(t: Tid): LinkedList?
      reads nodes
    {
      if t in node && node[t] in nodes then node[t].owner else null
    }

    /** Only list `l`, its members and thread `t`'s node have changed, and that node only between `l`
        and no list. */
    twostate predicate Local(l: LinkedList, t: Tid)
      reads this, ready, blocked, suspended, nodes
      requires t in node && node[t] in nodes
    {
      && (ready != l ==>
          ready.head == old(ready.head) && ready.tail == old(ready.tail) && ready.items == old(ready.items))
      && (blocked != l ==>
          blocked.head == old(blocked.head) && blocked.tail == old(blocked.tail) && blocked.items == old(blocked.items))
      && (suspended != l ==>
          suspended.head == old(suspended.head) && suspended.tail == old(suspended.tail) &&
          suspended.items == old(suspended.items))
      && (forall n :: n in nodes && n != node[t] ==> n.owner == old(n.owner))
      && (node[t].owner == null || node[t].owner == l) && (old(node[t].owner) == null || old(node[t].owner) == l)
      && (forall n :: n in nodes && old(n.owner) != null && old(n.owner) != l ==>
          n.next == old(n.next) && n.prev == old(n.prev))
    }

    /** The lists other than `l` do not notice. */
    twostate lemma Keep(new l: LinkedList, new t: Tid)
      requires old(Listed()) && t in node && node[t] in nodes && Mine(l) && l.Valid() && th.Keys == node.Keys
        && Local(l, t)
      ensures Listed()
    {
      if ready != l { ready.Untouched(); }
      if blocked != l { blocked.Untouched(); }
      if suspended != l { suspended.Untouched(); }
    }

    /** A node of list `l` is owned by it. */
    lemma MembersOwned(l: LinkedList)
      requires Listed() && Mine(l)
      ensures forall i :: 0 <= i < |l.items| ==> l.items[i] in nodes && l.items[i].owner == l
    {
      l.Members();
    }

    method InsertLocal(l: LinkedList, t: Tid, p: Node -> bool) returns (ok: bool)
      requires Listed() && t in node && Mine(l)
      modifies l, nodes
      ensures ok == (old(node[t].owner) == null)
      ensures ok ==> l.Valid() && l.items == InsertAfter(old(l.items), node[t], p) && node[t].owner == l && Local(l, t)
      ensures !ok ==> unchanged(l) && unchanged(nodes)
    {
      hide InsertAfter, Elems;
      MembersOwned(l);
      InsertElems(l.items, node[t], p);
      ok := l.InsertWhereFails(node[t], p);
    }

    /** `insert_after` with a predicate on threads; refused exactly when the node is owned. */
    method Insert(l: LinkedList, t: Tid, p: Tid -> bool) returns (ok: bool)
      requires Listed() && t in node && Mine(l)
      modifies l, nodes
      ensures Listed() && ok == (old(OwnerOf(t)) == null)
      ensures ok ==> OwnerOf(t) == l && Ids(l.items) == InsertAfter(old(Ids(l.items)), t, p)
      ensures (ready != l ==> ready.items == old(ready.items)) && (blocked != l ==> blocked.items == old(blocked.items))
      ensures (suspended != l ==> suspended.items == old(suspended.items))
      ensures forall u :: u != t ==> OwnerOf(u) == old(OwnerOf(u))
      ensures !ok ==> l.items == old(l.items) && OwnerOf(t) == old(OwnerOf(t))
    {
      hide InsertAfter, On;
      MapInsert(IdOf(), l.items, node[t], p);
      ok := InsertLocal(l, t, OnId(p));
      if ok { Keep(l, t); }
    }

    method PushLocal(l: LinkedList, t: Tid) returns (ok: bool)
      requires Listed() && t in node && Mine(l)
      modifies l, nodes
      ensures ok == (old(OwnerOf(t)) == null)
      ensures ok ==> l.Valid() && l.items == old(l.items) + [node[t]] && node[t].owner == l && Local(l, t)
      ensures !ok ==> unchanged(l) && unchanged(nodes)
    {
      MembersOwned(l);
      ghost var was := l.items;
      ok := l.PushBack(node[t]);
      if ok {
        AtElems(l.items, |was|);
        assert l.items[|was|] == node[t];
      }
    }

    method Push(l: LinkedList, t: Tid) returns (ok: bool)
      requires Listed() && t in node && Mine(l)
      modifies l, nodes
      ensures Listed() && ok == (old(OwnerOf(t)) == null)
      ensures ok ==> OwnerOf(t) == l && Ids(l.items) == old(Ids(l.items)) + [t]
      ensures (ready != l ==> ready.items == old(ready.items)) && (blocked != l ==> blocked.items == old(blocked.items))
      ensures (suspended != l ==> suspended.items == old(suspended.items))
      ensures forall u :: u != t ==> OwnerOf(u) == old(OwnerOf(u))
      ensures !ok ==> l.items == old(l.items) && OwnerOf(t) == old(OwnerOf(t))
    {
      ok := PushLocal(l, t);
      if ok { Keep(l, t); }
    }

    /** Two members of a list are different threads. */
    lemma IdsDiffer(l: LinkedList, k: nat)
      requires Listed() && Mine(l) && k < |l.items|
      ensures forall i :: 0 <= i < k ==> l.items[i].id != l.items[k].id
    {
      MembersOwned(l);
    }

    lemma Position(l: LinkedList, t: Tid) returns (k: nat)
      requires Listed() && t in node && Mine(l)
      ensures node[t].owner == l ==>
        k < |l.items| && l.items[k] == node[t] && Ids(l.items[..k] + l.items[k + 1..]) == Without(Ids(l.items), t)
    {
      k := 0;
      if node[t].owner == l {
        k := ElemsAt(l.items, node[t]);
        IdsDiffer(l, k);
        MapCut(IdOf(), l.items, k);
      }
    }

    method TakeLocal(l: LinkedList, t: Tid, ghost k: nat) returns (ok: bool)
      requires Listed() && t in node && Mine(l) && (node[t].owner == l ==> k < |l.items| && l.items[k] == node[t])
      modifies l, nodes
      ensures ok == (old(OwnerOf(t)) == l)
      ensures ok ==>
          l.Valid() && l.items == old(l.items)[..k] + old(l.items)[k + 1..] && node[t].owner == null && Local(l, t)
      ensures !ok ==> unchanged(l) && unchanged(nodes)
    {
      MembersOwned(l);
      ok := l.Remove(node[t], k);
    }

    method TakeAt(l: LinkedList, t: Tid, ghost k: nat) returns (ok: bool)
      requires Listed() && t in node && Mine(l) && (node[t].owner == l ==> k < |l.items| && l.items[k] == node[t])
      modifies l, nodes
      ensures Listed() && ok == (old(OwnerOf(t)) == l)
      ensures ok ==> OwnerOf(t) == null && l.items == old(l.items)[..k] + old(l.items)[k + 1..]
      ensures (ready != l ==> ready.items == old(ready.items)) && (blocked != l ==> blocked.items == old(blocked.items))
      ensures (suspended != l ==> suspended.items == old(suspended.items))
      ensures forall u :: u != t ==> OwnerOf(u) == old(OwnerOf(u))
      ensures !ok ==> l.items == old(l.items) && OwnerOf(t) == old(OwnerOf(t))
    {
      ok := TakeLocal(l, t, k);
      if ok { Keep(l, t); }
    }

    /** Removes a thread from list `l`; refused exactly when `l` does not own its node. */
    method Take(l: LinkedList, t: Tid) returns (ok: bool)
      requires Listed() && t in node && Mine(l)
      modifies l, nodes
      ensures Listed() && ok == (old(OwnerOf(t)) == l)
      ensures ok ==> OwnerOf(t) == null && Ids(l.items) == Without(old(Ids(l.items)), t)
      ensures (ready != l ==> ready.items == old(ready.items)) && (blocked != l ==> blocked.items == old(blocked.items))
      ensures (suspended != l ==> suspended.items == old(suspended.items))
      ensures forall u :: u != t ==> OwnerOf(u) == old(OwnerOf(u))
      ensures !ok ==> l.items == old(l.items) && OwnerOf(t) == old(OwnerOf(t))
    {
      ghost var k := Position(l, t);
      ok := TakeAt(l, t, k);
    }

    /** A thread's node is owned by the list that the thread's state names. */
    lemma OwnerMatches(t: Tid)
      requires Valid() && t in node
      ensures node[t].owner == ready <==> th[t].state == Ready && t != IDLE
      ensures node[t].owner == blocked <==> th[t].state == Blocked
      ensures node[t].owner == suspended <==> th[t].state == Suspended
      ensures node[t].owner == null <==> th[t].state in {Created, Started, Running} || t == IDLE
    {
      OwnedIff(ready, t);
      OwnedIff(blocked, t);
      OwnedIff(suspended, t);
      hide KI.Single, KI.Ordered, KI.Sleeping, KI.NeverLate, KI.AllExact, KI.Owners, Elems;
    }

    /** A thread that is neither ready, blocked nor suspended can join any list. */
    lemma Unlisted(t: Tid)
      requires Valid() && t in th && th[t].state !in {Ready, Blocked, Suspended}
      ensures OwnerOf(t) == null
    {
      OwnerMatches(t);
    }

    /** What the state of a thread says about its node. */
    lemma Places(t: Tid)
      requires Valid() && t in th
      ensures OwnerOf(t) == if t == IDLE then null else match th[t].state
                            case Ready => ready case Blocked => blocked case Suspended => suspended case _ => null
      ensures (th[t].state == Running ==> t == current) && (t == IDLE ==> th[t].state in {Ready, Running})
    {
      OwnerMatches(t);
      RunsAlone(View(), t);
      hide KI.Inv;
    }

    lemma OwnedIff(l: LinkedList, t: Tid)
      requires Listed() && Mine(l) && t in node
      ensures node[t].owner == l <==> t in Elems(Ids(l.items))
    {
      hide Elems;
      MapElems(IdOf(), l.items, node[t]);
    }

    // Moves between the lists

    lemma NodeOf(t: Tid)
      requires Listed() && t in th
      ensures t in node && node[t] in nodes && ready != blocked && ready != suspended && blocked != suspended
    {
    }

    method SetThreadState(t: Tid, x: ExecState)
      requires Listed() && t in th
      modifies this`th
      ensures Listed() && th == old(th)[t := old(th)[t].(state := x)]
    {
      th := th[t := th[t].(state := x)];
    }

    /** Makes a thread ready; refused exactly when another list still owns its node. */
    method InsertToReadyQueue(t: Tid) returns (ok: bool)
      requires Listed() && t in th
      modifies this`th, ready, nodes
      ensures Listed() && ok == (t == IDLE || old(OwnerOf(t)) == null)
      ensures ok ==> View() == ToReady(old(View()), t)
      ensures forall u :: u != t ==> OwnerOf(u) == old(OwnerOf(u))
    {
      hide Listed, InsertAfter, ReadyAfter;
      NodeOf(t);
      var after := ReadyAfter(th, t);
      SetThreadState(t, Ready);
      if t == IDLE {
        return true;
      }
      ok := Insert(ready, t, after);
    }

    method InsertToBlockedQueue(t: Tid) returns (fault: Option<Fault>)
      requires Listed() && t in th
      modifies this`th, blocked, nodes
      ensures Listed()
      ensures fault ==
        if t == IDLE then Some(IdleThread) else if old(OwnerOf(t)) == null then None else Some(NodeInList)
      ensures fault == None ==> View() == ToBlocked(old(View()), t)
      ensures forall u :: u != t ==> OwnerOf(u) == old(OwnerOf(u))
    {
      hide Listed, InsertAfter, BlockedAfter;
      NodeOf(t);
      var after := BlockedAfter(th, t);
      SetThreadState(t, Blocked);
      if t == IDLE {
        return Some(IdleThread);
      }
      var ok := Insert(blocked, t, after);
      fault := if ok then None else Some(NodeInList);
    }

    method InsertToSuspendedList(t: Tid) returns (fault: Option<Fault>)
      requires Listed() && t in th
      modifies this`th, suspended, nodes
      ensures Listed()
      ensures fault ==
        if t == IDLE then Some(IdleThread) else if old(OwnerOf(t)) == null then None else Some(NodeInList)
      ensures fault == None ==> View() == ToSuspended(old(View()), t)
      ensures forall u :: u != t ==> OwnerOf(u) == old(OwnerOf(u))
    {
      hide Listed;
      NodeOf(t);
      SetThreadState(t, Suspended);
      if t == IDLE {
        return Some(IdleThread);
      }
      var ok := Push(suspended, t);
      fault := if ok then None else Some(NodeInList);
    }

    /** Takes the head of the ready queue when it runs above `floor`. */
    method PopReady(floor: int) returns (n: Node?)
      requires Listed()
      modifies ready, nodes
      ensures ready.Valid()
      ensures n ==
        if old(ready.items) != [] && ActiveOf(th, old(ready.items)[0].id) > floor then old(ready.items)[0] else null
      ensures n == null ==> unchanged(ready) && unchanged(nodes)
      ensures n != null ==> ready.items == old(ready.items)[1..] && n in nodes && n.owner == null && Local(ready, n.id)
    {
      MembersOwned(ready);
      n := ready.PopFrontIf(OnId(Above(th, floor)));
    }

    method PopReadyAbove(floor: int, other: Tid) returns (next: Tid)
      requires Listed()
      modifies ready, nodes
      ensures Listed() && (View(), next) == PopAbove(old(View()), floor, other) && (next == other || next in th)
      ensures forall u :: old(OwnerOf(u)) != ready ==> OwnerOf(u) == old(OwnerOf(u))
    {
      ghost var was := ready.items;
      var n := PopReady(floor);
      if n == null {
        next := other;
      } else {
        next := n.id;
        Keep(ready, next);
        assert Ids(was)[1..] == Ids(was[1..]);
      }
    }

    method LocksPriorityCeiling() returns (ceiling: Prio)
      requires Listed()
      ensures ceiling == LocksCeiling(View())
    {
      var mine := LockPrioOf(th, current);
      if blocked.head == null {
        ceiling := mine;
      } else {
        ceiling := Max(LockPrioOf(th, blocked.head.id), mine);
      }
    }

    method SwitchThread(next: Tid) returns (previous: Tid)
      requires Listed() && next in th && current in th
      modifies this`th, this`current
      ensures Listed() && View() == Switch(old(View()), next) && previous == old(current) && th.Keys == old(th.Keys)
    {
      hide Listed;
      previous := current;
      SetThreadState(next, Running);
      SetThreadState(previous, Ready);
      current := next;
    }

    // Scheduling

    method SwitchToNext() returns (previous: Tid)
      requires Listed() && IDLE in th && current in th
      modifies this`th, this`current, ready, nodes
      ensures Listed() && View() == LeaveCpu(old(View())) && previous == old(current) && th.Keys == old(th.Keys)
      ensures forall u :: old(OwnerOf(u)) != ready ==> OwnerOf(u) == old(OwnerOf(u))
    {
      hide Listed, Switch, LocksCeiling;
      var ceiling := LocksPriorityCeiling();
      var next := PopReadyAbove(Max(ceiling, MIN), IDLE);
      previous := SwitchThread(next);
    }

    method ReprogramAlarm()
      modifies this`alarm
      ensures alarm == Earliest(sleep)
    {
      alarm := if sleep == [] then None else Some(sleep[0].at);
    }

    method InsertToWakeupQueue(who: Who, at: nat)
      modifies this`sleep, this`alarm
      ensures View() == ToSleep(old(View()), who, at)
    {
      sleep := InsertInOrder(sleep, Sleeper(who, at), SleepAfter(at));
      ReprogramAlarm();
    }

    method BlockRunning(deadline: Option<nat>) returns (fault: Option<Fault>)
      requires Listed() && IDLE in th && current in th && current != IDLE && OwnerOf(current) == null
      modifies this, ready, blocked, nodes
      ensures Listed() && fault == None && View() == BlockCurrent(old(View()), deadline).s
    {
      hide Listed, LeaveCpu, ToSleep, ToBlocked;
      var thread := SwitchToNext();
      match deadline {
        case Some(at) => InsertToWakeupQueue(Thr(thread), at);
        case None =>
      }
      fault := InsertToBlockedQueue(thread);
    }

    /** Blocks the running thread: its node goes to the blocked list, where it is always accepted. */
    method BlockCurrentThread(deadline: Option<nat>) returns (fault: Option<Fault>)
      requires Valid()
      modifies this, ready, blocked, nodes
      ensures match BlockCurrent(old(View()), deadline)
              case Ok(s) => fault == None && View() == s && Valid()
              case Halt(why) => fault == Some(why)
      ensures fault == if old(current) == IDLE then Some(IdleThread) else None
      ensures fault == None ==> OwnerOf(old(current)) == blocked
    {
      hide Listed, KI.Inv, LeaveCpu, ToSleep, ToBlocked;
      if current == IDLE {
        return Some(IdleThread);
      }
      KI.CurrentKnown(View());
      KI.BlockInv(View(), deadline);
      Unlisted(current);
      BlockedNow(View(), deadline);
      fault := BlockRunning(deadline);
      Places(old(current));
    }

    /** The part of suspension that follows once the thread is in no list. */
    method SuspendRunning() returns (fault: Option<Fault>)
      requires Listed() && IDLE in th && current in th && OwnerOf(current) == null
      modifies this`th, this`current, ready, suspended, nodes
      ensures Listed() && fault == if old(current) == IDLE then Some(IdleThread) else None
      ensures fault == None ==> View() == ToSuspended(LeaveCpu(old(View())), old(current))
    {
      hide Listed, LeaveCpu, ToSuspended;
      var previous := SwitchToNext();
      fault := InsertToSuspendedList(previous);
    }

    method SuspendReady(t: Tid) returns (fault: Option<Fault>)
      requires Listed() && t in th && (OwnerOf(t) == ready || (t == IDLE && OwnerOf(t) == null))
      modifies this`th, ready, suspended, nodes
      ensures Listed() && fault == if t == IDLE then Some(IdleThread) else None
      ensures fault == None ==> View() == ToSuspended(old(View()).(ready := Without(old(View()).ready, t)), t)
    {
      hide Listed, Without, ToSuspended;
      NodeOf(t);
      var removed := Take(ready, t);
      if !removed {
        return Some(IdleThread);
      }
      fault := InsertToSuspendedList(t);
    }

    /** Suspends a thread in any state. The suspended list refuses a node exactly when the thread is
        blocked, and removal from the ready queue fails only for the idle thread. */
    method SuspendThread(t: Tid) returns (fault: Option<Fault>)
      requires Valid() && t in th
      modifies this, ready, suspended, nodes
      ensures match Suspend(old(View()), t)
              case Ok(s) => fault == None && View() == s && Valid()
              case Halt(why) => fault == Some(why)
      ensures fault == Some(NodeInList) <==> t != IDLE && old(th[t].state) == Blocked
      ensures fault == None ==> OwnerOf(t) == suspended
    {
      hide Listed, KI.Inv, LeaveCpu, ToSuspended;
      KI.CurrentKnown(View());
      Places(t);
      if Suspend(View(), t).Ok? {
        KI.SuspendInv(View(), t);
        SuspendedNow(View(), t);
      }
      match th[t].state {
        case Ready => fault := SuspendReady(t);
        case Running => fault := SuspendRunning();
        case Blocked => fault := InsertToSuspendedList(t);
        case Suspended => fault := None;
        case Created => fault := Some(NotStarted);
        case Started => fault := InsertToSuspendedList(t);
      }
      if fault == None { Places(t); }
    }

    method TakeToReady(l: LinkedList, t: Tid) returns (ok: bool)
      requires Listed() && t in th && t != IDLE && (l == blocked || l == suspended) && OwnerOf(t) == l
      modifies this`th, ready, l, nodes
      ensures Listed() && ok
      ensures View() == ToReady(if l == blocked then old(View()).(blocked := Without(old(View()).blocked, t))
                                else old(View()).(suspended := Without(old(View()).suspended, t)), t)
    {
      hide Listed, Without, ToReady;
      NodeOf(t);
      ok := Take(l, t);
      if ok {
        ok := InsertToReadyQueue(t);
      }
    }

    method MakeThreadReady(t: Tid) returns (ok: bool)
      requires Valid() && t in th
      modifies this`th, this`sleep, ready, blocked, suspended, nodes
      ensures Listed() && ok && View() == MakeReady(old(View()), t)
    {
      hide Listed, KI.Inv, Without, ToReady;
      NodeOf(t);
      Places(t);
      ok := true;
      match th[t].state {
        case Blocked =>
          sleep := RemoveSleeper(sleep, Thr(t));
          ok := TakeToReady(blocked, t);
        case Suspended => ok := TakeToReady(suspended, t);
        case Started => ok := InsertToReadyQueue(t);
        case _ =>
      }
    }

    /** Resumes a thread in any state. No list refuses it. */
    method ResumeThread(t: Tid) returns (ok: bool)
      requires Valid() && t in th
      modifies this, ready, blocked, suspended, nodes
      ensures ok && Valid() && View() == Resume(old(View()), t)
      ensures t != IDLE && old(th[t].state) !in {Created, Running} ==> OwnerOf(t) == ready
    {
      hide Listed, KI.Inv, MakeReady, LocksCeiling;
      KI.ResumeInv(View(), t);
      ResumedNow(View(), t);
      ok := MakeThreadReady(t);
      var ceiling := LocksPriorityCeiling();
      if Max(ActiveOf(th, current), ceiling) < ActiveOf(th, t) {
        toHigher := true;
      }
      Places(t);
    }

    /** Wakes what has left the sleep queue; only the idle thread may not be woken. */
    method WakeupSuspendable(who: Who) returns (ok: bool)
      requires Listed() && (who.Thr? ==>
          who.t in th && (th[who.t].state == Blocked && who.t != IDLE ==> OwnerOf(who.t) == blocked))
      modifies this`th, this`polls, ready, blocked, nodes
      ensures Listed() && ok == (who != Thr(IDLE)) && (ok ==> View() == Wake(old(View()), who))
    {
      hide Listed, Without, ToReady;
      match who {
        case Irq(i) =>
          polls := polls + {i};
          ok := true;
        case Thr(t) =>
          if t == IDLE {
            return false;
          }
          if th[t].state == Blocked {
            ok := TakeToReady(blocked, t);
          } else {
            ok := true;
          }
      }
    }

    /** Wakes the head of the sleep queue. */
    method WakeHead() returns (ok: bool)
      requires Valid() && sleep != []
      modifies this`th, this`sleep, this`polls, ready, blocked, nodes
      ensures ok && Valid() && View() == Wake(old(View()).(sleep := old(sleep)[1..]), old(sleep)[0].who)
        && sleep == old(sleep)[1..]
    {
      hide Listed, KI.Inv, Wake;
      KI.WakeInv(View());
      var who := sleep[0].who;
      if who.Thr? { Places(who.t); }
      sleep := sleep[1..];
      ok := WakeupSuspendable(who);
    }

    method WakeSleepers(now: nat) returns (ok: bool)
      requires Valid()
      modifies this`th, this`sleep, this`alarm, this`polls, ready, blocked, nodes
      ensures ok && Valid() && View() == WakeExpired(old(View()), now)
    {
      hide Listed, KI.Inv, Wake;
      ok := true;
      KI.WakeExpiredInv(View(), now);
      while ok && sleep != [] && sleep[0].at <= now
        invariant ok && Valid() && WakeExpired(View(), now) == WakeExpired(old(View()), now)
        decreases |sleep|
      {
        ok := WakeHead();
      }
      ReprogramAlarm();
    }

    /** Gives the processor to the head of the ready queue when it is urgent enough. */
    method RunMostUrgent(equal: bool) returns (ok: bool)
      requires Valid()
      modifies this`th, this`current, ready, nodes
      ensures ok && Valid() && View() == Preempt(old(View()), equal)
    {
      hide Listed, KI.Inv, Switch, ToReady, PopAbove;
      KI.PreemptInv(View(), equal);
      KI.CurrentKnown(View());
      Unlisted(current);
      var p: int := ActiveOf(th, current);
      var next := PopReadyAbove(if equal then p - 1 else p, current);
      ok := true;
      if next != current {
        var previous := SwitchThread(next);
        ok := InsertToReadyQueue(previous);
      }
    }

    /** `execute_pending_reschedule`, as interrupt exit does it. */
    method ExecutePendingReschedule(now: nat) returns (ok: bool)
      requires Valid()
      modifies this, ready, blocked, nodes
      ensures ok && Valid() && View() == Exec(old(View()), now)
    {
      hide Listed, KI.Inv, WakeExpired, Preempt;
      ok := true;
      if toEqual || toHigher {
        var equal := toEqual;
        KI.FlagsInv(View(), false, false);
        toEqual, toHigher := false, false;
        ok := WakeSleepers(now);
        if ok {
          ok := RunMostUrgent(equal);
        }
      }
    }
  }
}
