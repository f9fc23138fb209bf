/** One thread's own view of its ceiling locks: the list of owned locks on the heap, the two cached lock
    priorities and the interrupt threshold. Each operation keeps the caches exact, so that they are the
    maximum that `KernelInvariants.ActiveIsMax` states. */
module RawThread {
  import opened Wrappers
  import opened Lists
  import opened Kernel
  import opened IntrusiveList
  import KI = KernelInvariants

  class RawCeilingLock {
    const id: nat
    const ceiling: Prio
    /** The link in the list of the thread that owns the lock. */
    const node: Node
    var owner: Option<Tid>

    constructor (id: nat, ceiling: Prio)
      ensures Name() == Lock(id, ceiling) && owner == None && fresh(node) && node.id == id && node.owner == null
    {
      this.id, this.ceiling, owner := id, ceiling, None;
      node := new Node(id);
    }

    function Name(): Lock { Lock(id, ceiling) }
  }

  function NameAt(all: map<int, RawCeilingLock>): Node -> Lock {
    (n: Node) => if n.id in all then all[n.id].Name() else Lock(0, NONE)
  }

  class RawThread {
    const tid: Tid
    const base: Prio
    const all: map<int, RawCeilingLock>
    const scopedLocks: LinkedList
    ghost const locks: set<RawCeilingLock>

    var section: Prio
    var owned: Prio
    var threshold: nat
    /** The live sections, innermost last; each guard on the stack holds its `saved`. */
    ghost var frames: seq<Frame>

    ghost function View(): Thread
      reads this, scopedLocks
    {
      Thread(base, Running, section, owned, Map(NameAt(all), scopedLocks.items), frames, threshold)
    }

    /** Every lock has one number and one node. */
    ghost predicate Wired() {
      && (forall i :: i in all ==>
          && all[i] in locks && all[i].id == i && all[i].ceiling >= MIN
          && all[i].node.id == i && all[i].node in scopedLocks.nodes)
      && (forall l :: l in locks ==> l.id in all && all[l.id] == l)
      && (forall n :: n in scopedLocks.nodes ==> n.id in all && all[n.id].node == n)
    }

    /** The list holds exactly the locks whose owner is this thread, and no list holds a free lock. */
    ghost predicate Holding()
      reads this, locks, scopedLocks.nodes
    {
      forall l :: l in locks && l.node in scopedLocks.nodes ==>
        && (l.owner == Some(tid) <==> l.node.owner == scopedLocks)
        && (l.owner == None ==> l.node.owner == null)
    }

    ghost predicate Valid()
      reads this, locks, scopedLocks, scopedLocks.nodes, scopedLocks.items
    {
      Wired() && scopedLocks.Valid() && Holding() && KI.Exact(View())
    }

    constructor (tid: Tid, base: Prio, all: map<int, RawCeilingLock>)
      requires base >= MIN
      requires forall i :: i in all ==> all[i].id == i && all[i].node.id == i && all[i].ceiling >= MIN
      requires forall i :: i in all ==> all[i].owner == None && all[i].node.owner == null
      ensures Valid() && View() == Thread(base, Running, NONE, NONE, [], [], 0)
    {
      ghost var nodes := set i | i in all :: all[i].node;
      this.tid, this.base, this.all := tid, base, all;
      scopedLocks := new LinkedList(nodes);
      locks := set i | i in all :: all[i];
      section, owned, threshold, frames := NONE, NONE, 0, [];
    }

    /** A lock is in the list exactly when the thread owns it. */
    lemma OwnedIff(l: RawCeilingLock)
      requires Wired() && scopedLocks.Valid() && l in locks
      ensures l.node.owner == scopedLocks <==> l.Name() in Elems(View().locks)
    {
      hide Elems;
      MapElems(NameAt(all), scopedLocks.items, l.node);
    }

    method UpdateOwnedLockPriority()
      requires Wired() && scopedLocks.Valid()
      modifies this`owned, this`threshold
      ensures owned == (if View().locks == [] then NONE else View().locks[0].ceiling)
      ensures threshold == Level(Max(section, owned))
    {
      if scopedLocks.head != null {
        AtElems(scopedLocks.items, 0);
        owned := all[scopedLocks.head.id].ceiling;
      } else {
        owned := NONE;
      }
      threshold := Level(Max(section, owned));
    }

    /** Locks with different numbers have different nodes. */
    lemma OneNodeEach(l: RawCeilingLock, m: RawCeilingLock)
      requires Wired() && l in locks && m in locks && l != m
      ensures l.node != m.node && l.Name() != m.Name()
    {
    }

    /** Only lock `l` and its node changed hands. */
    twostate lemma HandedOver(new l: RawCeilingLock)
      requires old(Holding()) && Wired() && l in locks
      requires l.owner == Some(tid) <==> l.node.owner == scopedLocks
      requires l.owner == None ==> l.node.owner == null
      requires forall m :: m in locks && m != l ==> m.owner == old(m.owner)
      requires forall n :: n in scopedLocks.nodes && n != l.node ==> n.owner == old(n.owner)
      ensures Holding()
    {
      forall m | m in locks && m != l ensures m.node != l.node { OneNodeEach(l, m); }
    }

    /** The new lock has the highest ceiling, so it comes first and sets the priority. */
    static lemma TopLock(x: Thread, l: Lock)
      requires KI.Exact(x) && Active(x) <= l.ceiling
      ensures InsertAfter(x.locks, l, LockAfter(l))[0] == l
    {
      hide KI.LocksExact, KI.FramesExact;
    }

    /** Puts the lock's node into the list. */
    method LinkLock(l: RawCeilingLock)
      requires Wired() && scopedLocks.Valid() && Holding() && l in locks && l.owner == None
      modifies scopedLocks, scopedLocks.nodes, l
      ensures scopedLocks.Valid() && Holding() && l.owner == Some(tid)
      ensures Map(NameAt(all), scopedLocks.items) ==
        InsertAfter(old(Map(NameAt(all), scopedLocks.items)), l.Name(), LockAfter(l.Name()))
    {
      hide InsertAfter, Elems;
      scopedLocks.Members();
      l.owner := Some(tid);
      var behind := On<Node, Lock>(NameAt(all), LockAfter(l.Name()));
      MapInsert(NameAt(all), scopedLocks.items, l.node, LockAfter(l.Name()));
      InsertElems(scopedLocks.items, l.node, behind);
      var ok := scopedLocks.InsertWhereFails(l.node, behind);
      HandedOver(l);
    }

    method TakeLock(l: RawCeilingLock)
      requires Valid() && l in locks && l.owner == None && Active(View()) <= l.ceiling
      modifies this`owned, this`threshold, scopedLocks, scopedLocks.nodes, l
      ensures Valid() && l.owner == Some(tid) && Active(View()) == l.ceiling
      ensures View().locks == InsertAfter(old(View()).locks, l.Name(), LockAfter(l.Name()))
    {
      hide KI.LocksExact, KI.FramesExact, InsertAfter, Elems;
      ghost var x := View();
      OwnedIff(l);
      KI.AcquireExact(x, l.Name());
      TopLock(x, l.Name());
      hide Wired, Holding;
      LinkLock(l);
      UpdateOwnedLockPriority();
    }

    /** Refused on the idle thread, on recursion, below the active priority and on an owned lock; otherwise
        the thread then runs at exactly the lock's ceiling. */
    method AcquireScopedLock(l: RawCeilingLock) returns (fault: Option<Fault>)
      requires Valid() && l in locks
      modifies this, scopedLocks, scopedLocks.nodes, l
      ensures fault == if tid == IDLE then Some(IdleThread)
                       else if l.Name() in Elems(old(View()).locks) then Some(RecursiveLock)
                       else if Active(old(View())) > l.ceiling then Some(CeilingViolation)
                       else if old(l.owner) != None then Some(LockAlreadyOwned) else None
      ensures Valid() && frames == old(frames) && section == old(section)
      ensures fault == None ==> l.owner == Some(tid) && Active(View()) == l.ceiling
      ensures fault == None ==> View().locks == InsertAfter(old(View()).locks, l.Name(), LockAfter(l.Name()))
      ensures fault != None ==> View() == old(View())
    {
      OwnedIff(l);
      if tid == IDLE {
        return Some(IdleThread);
      }
      if l.owner == Some(tid) {
        return Some(RecursiveLock);
      }
      if Max(base, Max(section, owned)) > l.ceiling {
        return Some(CeilingViolation);
      }
      if l.owner != None {
        return Some(LockAlreadyOwned);
      }
      TakeLock(l);
      fault := None;
    }

    lemma Position(l: RawCeilingLock) returns (k: nat)
      requires Wired() && scopedLocks.Valid() && l in locks && l.node.owner == scopedLocks
      ensures k < |scopedLocks.items| && scopedLocks.items[k] == l.node
      ensures Map(NameAt(all), scopedLocks.items[..k] + scopedLocks.items[k + 1..]) == Without(View().locks, l.Name())
    {
      scopedLocks.Members();
      k := ElemsAt(scopedLocks.items, l.node);
      MapCut(NameAt(all), scopedLocks.items, k);
    }

    /** Takes the lock's node out of the list, wherever it stands. */
    method UnlinkLock(l: RawCeilingLock)
      requires Wired() && scopedLocks.Valid() && Holding() && l in locks && l.owner == Some(tid)
      modifies scopedLocks, scopedLocks.nodes, l
      ensures scopedLocks.Valid() && Holding() && l.owner == None
      ensures Map(NameAt(all), scopedLocks.items) == Without(old(Map(NameAt(all), scopedLocks.items)), l.Name())
    {
      hide Elems, Without;
      ghost var k := Position(l);
      scopedLocks.Members();
      var ok := scopedLocks.Remove(l.node, k);
      l.owner := None;
      HandedOver(l);
    }

    /** Releases a lock in any order. A free lock is left alone, and a lock of another owner is a fault. */
    method ReleaseScopedLock(l: RawCeilingLock) returns (fault: Option<Fault>)
      requires Valid() && l in locks
      modifies this`owned, this`threshold, scopedLocks, scopedLocks.nodes, l
      ensures fault == if old(l.owner) == None || old(l.owner) == Some(tid) then None else Some(OwnerViolation)
      ensures Valid() && (fault == None ==> l.owner == None && l.Name() !in Elems(View().locks))
      ensures View().locks ==
        if old(l.owner) == Some(tid) then Without(old(View()).locks, l.Name()) else old(View()).locks
    {
      hide KI.LocksExact, KI.FramesExact, Without, Elems;
      OwnedIff(l);
      if l.owner == None {
        return None;
      }
      if l.owner != Some(tid) {
        return Some(OwnerViolation);
      }
      KI.ReleaseExact(View(), l.Name());
      hide Wired, Holding;
      UnlinkLock(l);
      UpdateOwnedLockPriority();
      fault := None;
    }

    /** Enters a section: the thread runs at the higher of its priority and the ceiling, and the guard gets
        what it must restore. */
    method RaiseNestingLockPriority(ceiling: Prio) returns (saved: Prio)
      requires Valid() && ceiling >= MIN
      modifies this
      ensures Valid() && saved == old(section) && frames == old(frames) + [Frame(ceiling, saved)]
      ensures Active(View()) == Max(Active(old(View())), ceiling) && View().locks == old(View()).locks
    {
      hide KI.LocksExact, KI.FramesExact, Wired;
      KI.EnterExact(View(), ceiling);
      saved := section;
      section := Max(section, Max(ceiling, base));
      threshold := Level(Max(section, owned));
      frames := frames + [Frame(ceiling, saved)];
    }

    /** Leaves the innermost section with what its guard saved. */
    method SetNestingLockPriority(saved: Prio)
      requires Valid() && frames != [] && saved == frames[|frames| - 1].saved
      modifies this
      ensures Valid() && frames == old(frames)[..|old(frames)| - 1] && View().locks == old(View()).locks
    {
      hide KI.LocksExact, KI.FramesExact, Wired;
      KI.LeaveExact(View());
      section := saved;
      threshold := Level(Max(section, owned));
      frames := frames[..|frames| - 1];
    }

    /** A section restores the thread, whatever ceiling it had and whatever it owned. */
    method EnterThenLeave(ceiling: Prio)
      requires Valid() && ceiling >= MIN
      modifies this
      ensures Valid() && View() == old(View())
    {
      hide KI.LocksExact, KI.FramesExact, Wired;
      var saved := RaiseNestingLockPriority(ceiling);
      SetNestingLockPriority(saved);
    }
  }
}
