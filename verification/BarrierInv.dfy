/** The inductive invariant of the barrier protocol, kept by every step and so by every run. */
module BarrierInv {
  import opened Barrier

  // ----- Counting the processes at a position

  ghost function CountIn<M>(ps: seq<Phase<M>>, idx: nat): (c: nat)
    ensures c <= |ps|
  {
    if ps == [] then 0 else CountIn(ps[..|ps| - 1], idx) + if In(ps[|ps| - 1], idx) then 1 else 0
  }

  lemma {:induction false} CountUpdate<M>(ps: seq<Phase<M>>, i: nat, p: Phase<M>, idx: nat)
    requires i < |ps|
    ensures CountIn(ps[i := p], idx) + (if In(ps[i], idx) then 1 else 0) == CountIn(ps, idx)
      + (if In(p, idx) then 1 else 0)
  {
    var n := |ps| - 1;
    if i == n {
      assert ps[i := p][..n] == ps[..n];
    } else {
      assert ps[i := p][..n] == ps[..n][i := p];
      CountUpdate(ps[..n], i, p, idx);
    }
  }

  lemma {:induction false} CountSame<M>(ps: seq<Phase<M>>, qs: seq<Phase<M>>, idx: nat)
    requires |ps| == |qs| && forall i | 0 <= i < |ps| :: In(ps[i], idx) <==> In(qs[i], idx)
    ensures CountIn(ps, idx) == CountIn(qs, idx)
  {
    if ps != [] {
      CountSame(ps[..|ps| - 1], qs[..|qs| - 1], idx);
    }
  }

  lemma {:induction false} CountFull<M>(ps: seq<Phase<M>>, idx: nat)
    ensures CountIn(ps, idx) == |ps| <==> forall i | 0 <= i < |ps| :: In(ps[i], idx)
  {
    if ps != [] {
      CountFull(ps[..|ps| - 1], idx);
      assert forall i | 0 <= i < |ps| - 1 :: ps[..|ps| - 1][i] == ps[i];
    }
  }

  lemma {:induction false} CountNone<M>(ps: seq<Phase<M>>, idx: nat)
    ensures CountIn(ps, idx) == 0 <==> forall i | 0 <= i < |ps| :: !In(ps[i], idx)
  {
    if ps != [] {
      CountNone(ps[..|ps| - 1], idx);
      assert forall i | 0 <= i < |ps| - 1 :: ps[..|ps| - 1][i] == ps[i];
    }
  }

  lemma {:induction false} CountBoth<M>(ps: seq<Phase<M>>)
    ensures CountIn(ps, 0) + CountIn(ps, 1) <= |ps|
  {
    if ps != [] {
      CountBoth(ps[..|ps| - 1]);
    }
  }

  lemma {:induction false} CountTwoOut<M>(ps: seq<Phase<M>>, i: nat, j: nat, idx: nat)
    requires i < j < |ps| && !In(ps[i], idx) && !In(ps[j], idx)
    ensures CountIn(ps, idx) <= |ps| - 2
  {
    var n := |ps| - 1;
    if j == n {
      CountFull(ps[..n], idx);
    } else {
      CountTwoOut(ps[..n], i, j, idx);
    }
  }

  /** If process t is the only one missing, all others are there. */
  lemma CountMissing<M>(ps: seq<Phase<M>>, t: nat, idx: nat)
    requires t < |ps| && !In(ps[t], idx) && CountIn(ps, idx) >= |ps| - 1
    ensures forall i | 0 <= i < |ps| && i != t :: In(ps[i], idx)
  {
    forall i | 0 <= i < |ps| && i != t ensures In(ps[i], idx) {
      if !In(ps[i], idx) {
        CountTwoOut(ps, if i < t then i else t, if i < t then t else i, idx);
      }
    }
  }

  // ----- The invariant

  ghost predicate SlotOk<M>(s: State<M>, i: nat)
    requires s.Shape() && i < s.N()
  {
    var slot := s.slots[i];
    match s.procs[i]
    case Outside(_) => slot.pid > 0 && slot.waitIdx == -1 && s.left[i] == s.releases
    case Exited => slot.pid > 0 && slot.waitIdx == -1 && s.left[i] == s.releases
    case Blocked(l, signalled) =>
      && slot.pid > 0 && CallOk(l.action, l.who, s.N())
      && if slot.waitIdx == -1
         then l.waitIdx == 1 - s.curWaitIdx && signalled && s.left[i] + 1 == s.releases
         else slot.waitIdx == l.waitIdx == s.curWaitIdx && s.left[i] == s.releases
    case PendingStart(_, _) => slot == ZERO_SLOT && s.releases == 0 && s.left[i] == 0
    case PendingDrain(l, _) =>
      && slot == ZERO_SLOT.(waitIdx := -1) && l.waitIdx == 1 - s.curWaitIdx && s.left[i] + 1 == s.releases
      && l.action.Vote? && CallOk(l.action, l.who, s.N())
    case PendingWait(l, _, w) =>
      && slot == ZERO_SLOT && l.waitIdx == w == s.curWaitIdx && s.left[i] == s.releases
      && s.restoring && l.expired && CallOk(l.action, l.who, s.N())
  }

  /** `condWaitCnt` counts exactly the processes at each position. */
  ghost predicate Conserved<M>(s: State<M>)
    requires s.Shape()
  {
    s.condWaitCnt[0] == CountIn(s.procs, 0) && s.condWaitCnt[1] == CountIn(s.procs, 1)
  }

  ghost predicate DistinctPids(slots: seq<Slot>) {
    forall i, j | 0 <= i < j < |slots| && slots[i].pid > 0 :: slots[i].pid != slots[j].pid
  }

  /** While a watchdog child is pending, all other processes are waiting for it. */
  ghost predicate RestoringOk<M>(s: State<M>)
    requires s.Shape()
  {
    && (s.restoring <==> exists i | 0 <= i < s.N() :: s.procs[i].PendingWait?)
    && (forall i, j | 0 <= i < s.N() && 0 <= j < s.N() && i != j && s.procs[i].PendingWait? :: Waiting(s, j))
    && (forall i | 0 <= i < s.N() && s.procs[i].PendingWait? :: exists j | 0 <= j < s.N() :: Twin(s, i, j))
  }

  /** Process j waits in the same call, with the same memory and arguments, that the pending child i was forked in. */
  ghost predicate Twin<M>(s: State<M>, i: nat, j: nat)
    requires s.Shape() && i < s.N() && j < s.N() && s.procs[i].PendingWait?
  {
    i != j && s.slots[j].args == s.procs[i].parent.args && s.procs[j].Blocked?
      && SameCall(s.procs[j].loc, s.procs[i].loc)
  }

  ghost predicate Inv<M>(s: State<M>) {
    && s.Shape()
    && (forall i | 0 <= i < s.N() :: SlotOk(s, i))
    && Conserved(s)
    && DistinctPids(s.slots)
    && RestoringOk(s)
    && s.curWaitIdx == s.releases % 2
  }

  lemma InitInv<M>(s: State<M>)
    requires Init(s)
    ensures Inv(s)
  {
    CountNone(s.procs, 0);
    CountNone(s.procs, 1);
  }

  // ----- Every effect keeps it

  /** Only signals, timer flags and the like differ between the two states. */
  ghost predicate Stirred<M>(s: State<M>, t: State<M>)
    requires s.Shape()
  {
    && t == s.(procs := t.procs) && |t.procs| == |s.procs|
    && (forall i | 0 <= i < s.N() ::
          t.procs[i] == s.procs[i] || (s.procs[i].Blocked? && t.procs[i].Blocked?
            && SameCall(s.procs[i].loc, t.procs[i].loc)))
    && (forall i | 0 <= i < s.N() && s.slots[i].waitIdx == -1 && t.procs[i].Blocked? :: t.procs[i].signalled)
  }

  /** Signals do not move any process. */
  lemma SignalInv<M>(s: State<M>, t: State<M>)
    requires Inv(s) && Stirred(s, t)
    ensures Inv(t)
  {
    SignalRestoring(s, t);
    SameCounts(s.procs, t.procs);
    forall i | 0 <= i < t.N() ensures SlotOk(t, i) {
      assert SlotOk(s, i);
    }
  }

  lemma SignalRestoring<M>(s: State<M>, t: State<M>)
    requires s.Shape() && RestoringOk(s) && Stirred(s, t)
    ensures RestoringOk(t)
  {
    assert forall i | 0 <= i < s.N() :: s.procs[i].PendingWait? <==> t.procs[i].PendingWait?;
    assert forall i | 0 <= i < s.N() :: Waiting(s, i) ==> Waiting(t, i);
    forall i | 0 <= i < s.N() && t.procs[i].PendingWait? ensures exists j | 0 <= j < s.N() :: Twin(t, i, j) {
      var j :| 0 <= j < s.N() && Twin(s, i, j);
      assert Twin(t, i, j);
    }
  }

  ghost predicate SameCall<M>(l: Local<M>, m: Local<M>) {
    l.(expired := true) == m.(expired := true)
  }

  lemma RestoringMeansAllWait<M>(s: State<M>, i: nat)
    requires Inv(s) && i < s.N() && s.restoring && !s.procs[i].PendingWait?
    ensures Waiting(s, i)
  {}

  /** A complete round: everybody is in, so everybody is waiting and nobody is pending. */
  lemma CompleteAllWait<M>(s: State<M>)
    requires Inv(s) && s.condWaitCnt[s.curWaitIdx] == s.N()
    ensures forall i | 0 <= i < s.N() :: Waiting(s, i) && s.procs[i].loc.waitIdx == s.curWaitIdx
    ensures !s.restoring
  {
    CountFull(s.procs, s.curWaitIdx);
    forall i | 0 <= i < s.N() ensures Waiting(s, i) && s.procs[i].loc.waitIdx == s.curWaitIdx {
      assert SlotOk(s, i) && In(s.procs[i], s.curWaitIdx);
    }
  }

  lemma MarkInv<M>(s: State<M>, i: nat, c: BarrierCall<M>)
    requires Inv(s) && i < s.N() && s.procs[i].Outside? && CallOk(c.action, c.who, s.N())
    ensures Inv(Mark(s, i, c))
  {
    var t := Mark(s, i, c);
    assert SlotOk(s, i);
    if s.restoring {
      RestoringMeansAllWait(s, i);
    }
    CountUpdate(s.procs, i, t.procs[i], 0);
    CountUpdate(s.procs, i, t.procs[i], 1);
    forall j | 0 <= j < s.N() ensures SlotOk(t, j) {
      assert SlotOk(s, j);
    }
    assert forall j | 0 <= j < s.N() :: t.procs[j].PendingWait? ==> s.procs[j].PendingWait?;
  }

  lemma SignalAllInv<M>(s: State<M>, idx: nat)
    requires Inv(s)
    ensures Inv(SignalAll(s, idx))
  {
    var t := SignalAll(s, idx);
    forall j | 0 <= j < s.N() && s.slots[j].waitIdx == -1 && t.procs[j].Blocked? ensures t.procs[j].signalled {
      assert SlotOk(s, j);
    }
    SignalInv(s, t);
  }

  lemma ArriveInv<M>(s: State<M>, i: nat, c: BarrierCall<M>)
    requires Inv(s) && i < s.N() && s.procs[i].Outside? && CallOk(c.action, c.who, s.N())
    ensures Inv(Arrive(s, i, c))
    ensures Running(Arrive(s, i, c), i) && Waiting(Arrive(s, i, c), i) && !Arrive(s, i, c).procs[i].loc.expired
  {
    assert s.Shape();
    hide Inv;
    MarkInv(s, i, c);
    SignalAllInv(Mark(s, i, c), s.curWaitIdx);
  }

  lemma LeaveInv<M>(s: State<M>, me: nat)
    requires Inv(s) && Running(s, me) && s.slots[me].waitIdx < 0
    ensures Inv(Leave(s, me)) && !s.restoring
  {
    var t := Leave(s, me);
    assert SlotOk(s, me);
    if s.restoring {
      RestoringMeansAllWait(s, me);
    }
    CountUpdate(s.procs, me, t.procs[me], 0);
    CountUpdate(s.procs, me, t.procs[me], 1);
    forall j | 0 <= j < s.N() ensures SlotOk(t, j) {
      assert SlotOk(s, j);
    }
    assert forall j | 0 <= j < s.N() :: t.procs[j].PendingWait? ==> s.procs[j].PendingWait?;
  }

  lemma QuitInv<M>(s: State<M>, me: nat)
    requires Inv(s) && Running(s, me) && Waiting(s, me) && !s.restoring
    ensures Inv(Quit(s, me))
  {
    var t := Quit(s, me);
    assert SlotOk(s, me);
    CountUpdate(s.procs, me, Exited, 0);
    CountUpdate(s.procs, me, Exited, 1);
    forall j | 0 <= j < s.N() ensures SlotOk(t, j) {
      assert SlotOk(s, j);
    }
    assert forall j | 0 <= j < s.N() :: t.procs[j].PendingWait? ==> s.procs[j].PendingWait?;
  }

  lemma ReleaseInv<M>(s: State<M>)
    requires Inv(s) && s.condWaitCnt[s.curWaitIdx] == s.N()
    ensures Inv(Release(s, s.curWaitIdx))
  {
    var t := Release(s, s.curWaitIdx);
    CompleteAllWait(s);
    CountSame(s.procs, t.procs, 0);
    CountSame(s.procs, t.procs, 1);
    forall j | 0 <= j < s.N() ensures SlotOk(t, j) {
      assert SlotOk(s, j);
    }
  }

  lemma ReplaceReleaseInv<M>(s: State<M>, me: nat, idx: nat)
    requires Inv(s) && Running(s, me) && Waiting(s, me) && s.condWaitCnt[s.curWaitIdx] == s.N()
    requires idx < s.N() && idx != me && s.procs[me].loc.action.Vote?
    ensures Inv(Release(Replace(s, me, idx, PendingDrain(s.procs[me].loc, s.slots[me])), s.curWaitIdx))
  {
    hide SlotOk, RestoringOk, DistinctPids;
    var child := PendingDrain(s.procs[me].loc, s.slots[me]);
    var r := Replace(s, me, idx, child);
    var t := Release(r, s.curWaitIdx);
    CompleteAllWait(s);
    ReplaceReleaseSlots(s, me, idx);
    CountUpdate(s.procs, idx, child, 0);
    CountUpdate(s.procs, idx, child, 1);
    SameCounts(r.procs, t.procs);
  }

  lemma SameCounts<M>(ps: seq<Phase<M>>, qs: seq<Phase<M>>)
    requires |ps| == |qs|
    requires forall i | 0 <= i < |ps| ::
      (In(ps[i], 0) <==> In(qs[i], 0)) && (In(ps[i], 1) <==> In(qs[i], 1))
    ensures CountIn(ps, 0) == CountIn(qs, 0) && CountIn(ps, 1) == CountIn(qs, 1)
  {
    CountSame(ps, qs, 0);
    CountSame(ps, qs, 1);
  }

  lemma ReplaceReleaseSlots<M>(s: State<M>, me: nat, idx: nat)
    requires Inv(s) && Running(s, me) && idx < s.N() && idx != me && s.procs[me].loc.action.Vote?
    requires !s.restoring && forall i | 0 <= i < s.N() :: Waiting(s, i)
    ensures var t := Release(Replace(s, me, idx, PendingDrain(s.procs[me].loc, s.slots[me])), s.curWaitIdx);
      (forall j | 0 <= j < s.N() :: SlotOk(t, j)) && DistinctPids(t.slots) && RestoringOk(t)
  {
    var t := Release(Replace(s, me, idx, PendingDrain(s.procs[me].loc, s.slots[me])), s.curWaitIdx);
    assert SlotOk(s, me) && SlotOk(s, idx) && Waiting(s, me);
    forall j | 0 <= j < s.N() ensures SlotOk(t, j) {
      assert SlotOk(s, j) && Waiting(s, j);
    }
  }

  /** The process that the watchdog replaces is outside the barrier or dead, and everybody else is waiting. */
  lemma WatchdogTarget<M>(s: State<M>, me: nat)
    requires Inv(s) && Running(s, me) && Waiting(s, me) && !s.restoring && NoDrainers(s)
    requires s.N() - s.condWaitCnt[s.curWaitIdx] <= 1
    ensures var t := FirstIdle(s.slots, 0);
      t < s.N() ==>
        && t != me && s.slots[t].pid > 0 && (s.procs[t].Outside? || s.procs[t].Exited?)
        && forall j | 0 <= j < s.N() && j != t :: Waiting(s, j)
  {
    var t := FirstIdle(s.slots, 0);
    if t < s.N() {
      assert SlotOk(s, t) && !Draining(s, t);
      CountMissing(s.procs, t, s.curWaitIdx);
      forall j | 0 <= j < s.N() && j != t ensures Waiting(s, j) {
        assert SlotOk(s, j) && In(s.procs[j], s.curWaitIdx) && !Draining(s, j);
      }
    }
  }

  lemma ForkInv<M>(s: State<M>, me: nat)
    requires Inv(s) && Running(s, me) && Waiting(s, me) && !s.restoring && NoDrainers(s) && s.procs[me].loc.expired
    requires s.N() - s.condWaitCnt[s.curWaitIdx] <= 1 && FirstIdle(s.slots, 0) < s.N()
    ensures FirstIdle(s.slots, 0) != me && Inv(Fork(s, me, FirstIdle(s.slots, 0)))
    ensures NoDrainers(Fork(s, me, FirstIdle(s.slots, 0)))
  {
    hide SlotOk, RestoringOk, DistinctPids;
    var idx := FirstIdle(s.slots, 0);
    WatchdogTarget(s, me);
    ForkSlots(s, me, idx);
    ForkRestoring(s, me, idx);
    var t := Fork(s, me, idx);
    CountUpdate(s.procs, idx, t.procs[idx], 0);
    CountUpdate(s.procs, idx, t.procs[idx], 1);
  }

  lemma ForkRestoring<M>(s: State<M>, me: nat, idx: nat)
    requires Running(s, me) && Waiting(s, me) && idx < s.N() && idx != me
    requires forall j | 0 <= j < s.N() && j != idx :: Waiting(s, j)
    ensures RestoringOk(Fork(s, me, idx))
  {
    var t := Fork(s, me, idx);
    assert t.procs[idx].PendingWait?;
    forall j | 0 <= j < s.N() && j != idx ensures t.procs[j] == s.procs[j] && Waiting(t, j) {
      assert Waiting(s, j);
    }
    assert Twin(t, idx, me);
  }

  lemma ForkSlots<M>(s: State<M>, me: nat, idx: nat)
    requires Inv(s) && Running(s, me) && s.procs[me].loc.expired && idx < s.N() && idx != me
    requires s.slots[idx].pid > 0 && (s.procs[idx].Outside? || s.procs[idx].Exited?)
    requires forall j | 0 <= j < s.N() && j != idx :: Waiting(s, j)
    ensures var t := Fork(s, me, idx);
      (forall j | 0 <= j < s.N() :: SlotOk(t, j) && !Draining(t, j)) && DistinctPids(t.slots)
  {
    var t := Fork(s, me, idx);
    assert SlotOk(s, me) && SlotOk(s, idx) && Waiting(s, me);
    forall j | 0 <= j < s.N() ensures SlotOk(t, j) && !Draining(t, j) {
      assert SlotOk(s, j);
      assert j != idx ==> Waiting(s, j);
    }
  }

  // ----- The slot of a new process

  /** It has its own pid, nothing mapped, and all else but the wait flag from its parent's slot. */
  predicate CopyOf(slot: Slot, parent: Slot, pid: nat) {
    && slot.pid == pid && slot.args == parent.args && slot.shmFd == parent.shmFd
    && slot.insidePLR == parent.insidePLR && slot.extraShmMapped == 0
  }

  // ----- Every section keeps it

  lemma RunLoopInv<M>(s: State<M>, me: nat)
    requires Inv(s) && Running(s, me)
    requires s.procs[me].loc.expired && s.slots[me].waitIdx >= 0 ==> NoDrainers(s)
    ensures Inv(RunLoop(s, me))
    decreases if s.restoring then 0 else 1, 1
  {
    hide Inv, SlotOk, RunAction;
    var l := s.procs[me].loc;
    if s.slots[me].waitIdx < 0 {
      LeaveInv(s, me);
    } else {
      AtCurrentIndex(s, me);
      if s.condWaitCnt[l.waitIdx] == s.N() {
        CompleteAllWait(s);
        if l.action != NoAction && !Eligible(l.who, me) {
          WokenInv(s, me, Delegate(l.who));
          CheckWatchdogInv(SignalOne(s, Delegate(l.who), l.waitIdx), me);
        } else {
          match RunAction(s.slots, me, l.action)
          case Failed => QuitInv(s, me);
          case Succeeded =>
            ReleaseInv(s);
            LeaveInv(Release(s, l.waitIdx), me);
          case Replacing(idx) =>
            ReplaceReleaseInv(s, me, idx);
            LeaveInv(Release(Replace(s, me, idx, PendingDrain(l, s.slots[me])), l.waitIdx), me);
          case Rerun =>
            WokenInv(s, me, FirstOther(me));
            CheckWatchdogInv(SignalOne(s, FirstOther(me), l.waitIdx), me);
        }
      } else {
        CheckWatchdogInv(s, me);
      }
    }
  }

  lemma AtCurrentIndex<M>(s: State<M>, me: nat)
    requires Inv(s) && me < s.N() && Waiting(s, me)
    ensures s.procs[me].loc.waitIdx == s.curWaitIdx == s.slots[me].waitIdx
  {
    assert SlotOk(s, me);
  }

  lemma WokenInv<M>(s: State<M>, me: nat, i: nat)
    requires Inv(s) && Running(s, me) && Waiting(s, me) && i < s.N()
    ensures var t := SignalOne(s, i, s.procs[me].loc.waitIdx);
      Inv(t) && Running(t, me) && Waiting(t, me) && (NoDrainers(s) ==> NoDrainers(t))
      && t.procs[me].loc == s.procs[me].loc && t.condWaitCnt == s.condWaitCnt
  {
    var t := SignalOne(s, i, s.procs[me].loc.waitIdx);
    forall j | 0 <= j < s.N() && s.slots[j].waitIdx == -1 && t.procs[j].Blocked? ensures t.procs[j].signalled {
      assert SlotOk(s, j);
    }
    SignalInv(s, t);
    assert forall j | 0 <= j < s.N() :: Draining(t, j) ==> Draining(s, j);
  }

  lemma BlockInv<M>(s: State<M>, me: nat)
    requires Inv(s) && Running(s, me) && Waiting(s, me)
    ensures Inv(Block(s, me))
  {
    var t := Block(s, me);
    forall j | 0 <= j < s.N() && s.slots[j].waitIdx == -1 && t.procs[j].Blocked? ensures t.procs[j].signalled {
      assert SlotOk(s, j);
    }
    SignalInv(s, t);
  }

  lemma CheckWatchdogInv<M>(s: State<M>, me: nat)
    requires Inv(s) && Running(s, me) && s.slots[me].waitIdx >= 0
    requires s.procs[me].loc.expired ==> NoDrainers(s)
    ensures Inv(CheckWatchdog(s, me))
    decreases if s.restoring then 0 else 1, 0
  {
    hide Inv, SlotOk;
    if !s.procs[me].loc.expired || s.restoring {
      BlockInv(s, me);
    } else if s.N() - s.condWaitCnt[s.curWaitIdx] > 1 || FirstIdle(s.slots, 0) == s.N() {
      QuitInv(s, me);
    } else {
      ForkInv(s, me);
      RunLoopInv(Fork(s, me, FirstIdle(s.slots, 0)), me);
    }
  }

  lemma InstalledInv<M>(s: State<M>, i: nat, pid: nat)
    requires Inv(s) && Enabled(s, Install(i, pid))
    ensures var t := Installed(s, i, pid);
      && Inv(t)
      && (!s.procs[i].PendingStart? ==> Running(t, i) && (t.slots[i].waitIdx < 0 <==> s.procs[i].PendingDrain?))
      && (s.procs[i].PendingWait? ==> NoDrainers(t) && t.condWaitCnt[t.curWaitIdx] == t.N())
  {
    var t := Installed(s, i, pid);
    assert SlotOk(s, i);
    if s.procs[i].PendingWait? {
      WatchdogChildInv(s, i, pid);
    } else {
      if s.restoring {
        RestoringMeansAllWait(s, i);
      }
      CountUpdate(s.procs, i, t.procs[i], 0);
      CountUpdate(s.procs, i, t.procs[i], 1);
      InstalledSlots(s, i, pid);
      hide SlotOk;
      assert forall j | 0 <= j < s.N() && j != i :: t.procs[j] == s.procs[j];
    }
  }

  lemma InstalledSlots<M>(s: State<M>, i: nat, pid: nat)
    requires Inv(s) && Enabled(s, Install(i, pid)) && !s.procs[i].PendingWait?
    ensures var t := Installed(s, i, pid);
      (forall j | 0 <= j < s.N() :: SlotOk(t, j)) && DistinctPids(t.slots)
  {
    var t := Installed(s, i, pid);
    forall j | 0 <= j < s.N() ensures SlotOk(t, j) {
      assert SlotOk(s, j);
    }
  }

  /** The watchdog's child finds everybody else waiting, and completes the round. */
  lemma WatchdogChildInv<M>(s: State<M>, i: nat, pid: nat)
    requires Inv(s) && Enabled(s, Install(i, pid)) && s.procs[i].PendingWait?
    ensures var t := Installed(s, i, pid);
      && Inv(t) && Running(t, i) && Waiting(t, i) && !t.restoring
      && NoDrainers(t) && t.condWaitCnt[t.curWaitIdx] == t.N()
  {
    hide SlotOk, RestoringOk;
    var t := Installed(s, i, pid);
    PendingAtCurrent(s, i);
    RestorationEnds(s, i, pid);
    WatchdogChildSlots(s, i, pid);
    CountUpdate(s.procs, i, t.procs[i], 0);
    CountUpdate(s.procs, i, t.procs[i], 1);
    CountFull(t.procs, t.curWaitIdx);
    assert forall j | 0 <= j < s.N() :: Waiting(t, j) && In(t.procs[j], t.curWaitIdx);
  }

  lemma RestorationEnds<M>(s: State<M>, i: nat, pid: nat)
    requires Inv(s) && Enabled(s, Install(i, pid)) && s.procs[i].PendingWait?
    ensures RestoringOk(Installed(s, i, pid)) && !Installed(s, i, pid).restoring
  {
    forall j | 0 <= j < s.N() ensures !Installed(s, i, pid).procs[j].PendingWait? {
      assert j != i ==> Waiting(s, j);
    }
  }

  lemma PendingAtCurrent<M>(s: State<M>, i: nat)
    requires Inv(s) && i < s.N() && s.procs[i].PendingWait?
    ensures var p := s.procs[i]; p.waitIdx == p.loc.waitIdx == s.curWaitIdx && CallOk(p.loc.action, p.loc.who, s.N())
    ensures s.curWaitIdx < 2
  {
    assert SlotOk(s, i);
  }

  lemma WatchdogChildSlots<M>(s: State<M>, i: nat, pid: nat)
    requires Inv(s) && Enabled(s, Install(i, pid)) && s.procs[i].PendingWait?
    ensures var t := Installed(s, i, pid);
      (forall j | 0 <= j < s.N() :: SlotOk(t, j) && Waiting(t, j) && In(t.procs[j], t.curWaitIdx))
        && DistinctPids(t.slots)
  {
    var t := Installed(s, i, pid);
    assert SlotOk(s, i);
    forall j | 0 <= j < s.N() ensures SlotOk(t, j) && Waiting(t, j) && In(t.procs[j], t.curWaitIdx) {
      assert SlotOk(s, j);
      assert j != i ==> Waiting(s, j);
    }
  }

  /** Every enabled step keeps the invariant. */
  lemma StepInv<M>(s: State<M>, step: Step<M>)
    requires Inv(s) && Enabled(s, step)
    ensures Inv(Apply(s, step))
  {
    hide SlotOk, RunLoop;
    match step
    case Compute(i, m) => OutsideInv(s, i, Outside(m));
    case Enter(i, c) =>
      ArriveInv(s, i, c);
      RunLoopInv(Arrive(s, i, c), i);
    case Wake(i, timedOut) =>
      ResumeInv(s, i, timedOut);
      RunLoopInv(Resume(s, i, timedOut), i);
    case Install(i, pid) =>
      InstalledInv(s, i, pid);
      var t := Installed(s, i, pid);
      if s.procs[i].PendingDrain? {
        LeaveInv(t, i);
      } else if s.procs[i].PendingWait? {
        RunLoopInv(t, i);
      }
    case Crash(i) => OutsideInv(s, i, Exited);
  }

  lemma OutsideInv<M>(s: State<M>, i: nat, p: Phase<M>)
    requires Inv(s) && i < s.N() && s.procs[i].Outside? && (p.Outside? || p.Exited?)
    ensures Inv(s.(procs := s.procs[i := p]))
  {
    var t := s.(procs := s.procs[i := p]);
    assert SlotOk(s, i);
    CountUpdate(s.procs, i, p, 0);
    CountUpdate(s.procs, i, p, 1);
    if s.restoring {
      RestoringMeansAllWait(s, i);
    }
    forall j | 0 <= j < s.N() ensures SlotOk(t, j) {
      assert SlotOk(s, j);
    }
    assert forall j | 0 <= j < s.N() :: t.procs[j].PendingWait? ==> s.procs[j].PendingWait?;
  }

  lemma ResumeInv<M>(s: State<M>, i: nat, timedOut: bool)
    requires Inv(s) && Enabled(s, Wake(i, timedOut))
    ensures var t := Resume(s, i, timedOut);
      Inv(t) && Running(t, i) && (t.procs[i].loc.expired && t.slots[i].waitIdx >= 0 ==> NoDrainers(t))
  {
    var t := Resume(s, i, timedOut);
    forall j | 0 <= j < s.N() && s.slots[j].waitIdx == -1 && t.procs[j].Blocked? ensures t.procs[j].signalled {
      assert SlotOk(s, j);
    }
    SignalInv(s, t);
    if NoDrainers(s) {
      forall j | 0 <= j < s.N() ensures !Draining(t, j) {
        assert !Draining(s, j);
      }
    }
  }

  /** Every state of every run satisfies the invariant. */
  lemma {:induction false} RunInv<M>(run: seq<State<M>>, steps: seq<Step<M>>, k: nat)
    requires IsRun(run, steps) && k < |run|
    ensures Inv(run[k])
  {
    if k == 0 {
      InitInv(run[0]);
    } else {
      RunInv(run, steps, k - 1);
      StepInv(run[k - 1], steps[k - 1]);
    }
  }
}
