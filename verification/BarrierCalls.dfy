/** What a process keeps from its call of plr_waitBarrier to its return, and a child from its fork to its first lock:
    the call, the expired timer, and the parent's slot. */
module BarrierCalls {
  import opened Barrier
  import opened BarrierInv
  import opened BarrierRounds

  // ----- One section

  /** Equal but for the wait flag. */
  ghost predicate SameSlot(x: Slot, y: Slot) {
    x == y.(waitIdx := x.waitIdx)
  }

  /** A child that process me has forked in its section, which begins in state s. */
  ghost predicate ForkOf<M>(s: State<M>, p: Phase<M>, me: nat)
    requires s.Shape() && me < s.N() && s.procs[me].Blocked?
  {
    (p.PendingDrain? || p.PendingWait?) && p.loc == s.procs[me].loc && SameSlot(p.parent, s.slots[me])
  }

  /** p is where q was in its call, or has just returned from it, or is dead. */
  ghost predicate SameMem<M>(p: Phase<M>, q: Phase<M>) {
    match p
    case Outside(m) => q == p || (q.Blocked? && q.loc.mem == m)
    case Blocked(l, _) => q.Blocked? && q.loc == l
    case Exited => q == p || q.Blocked?
    case _ => q == p
  }

  /** Slot j is given to a child of me, or its process is where it was in its call, with the same slot. */
  ghost predicate Keeps<M>(s: State<M>, t: State<M>, me: nat, j: nat)
    requires s.Shape() && t.Shape() && t.N() == s.N() && me < s.N() && j < s.N() && s.procs[me].Blocked?
  {
    || (j != me && ForkOf(s, t.procs[j], me))
    || (SameMem(t.procs[j], s.procs[j]) && SameSlot(t.slots[j], s.slots[j])
         && (Pending(s.procs[j]) ==> t.procs[j] == s.procs[j]) && (Waiting(t, j) ==> Waiting(s, j)))
  }

  ghost predicate KeepsAll<M>(s: State<M>, t: State<M>, me: nat)
    requires s.Shape() && me < s.N() && s.procs[me].Blocked?
  {
    t.Shape() && t.N() == s.N() && forall j | 0 <= j < s.N() :: Keeps(s, t, me, j)
  }

  /** The first part of a section, in which its process stays in the loop, and the rest. */
  lemma KeepsTrans<M>(s: State<M>, u: State<M>, t: State<M>, me: nat)
    requires s.Shape() && me < s.N() && s.procs[me].Blocked? && KeepsAll(s, u, me)
    requires u.procs[me].Blocked? && KeepsAll(u, t, me)
    ensures KeepsAll(s, t, me)
  {
    forall j | 0 <= j < s.N() ensures Keeps(s, t, me, j) {
      assert Keeps(s, u, me, j) && Keeps(u, t, me, j) && Keeps(s, u, me, me);
    }
  }

  lemma PartsKeep<M>(s: State<M>, me: nat)
    requires Running(s, me)
    ensures KeepsAll(s, Leave(s, me), me) && KeepsAll(s, Quit(s, me), me) && KeepsAll(s, Block(s, me), me)
    ensures forall i: nat, idx: nat | i < s.N() :: KeepsAll(s, SignalOne(s, i, idx), me)
    ensures forall idx: nat :: KeepsAll(s, Release(s, idx), me)
  {}

  lemma ReplaceKeeps<M>(s: State<M>, me: nat, idx: nat, child: Phase<M>)
    requires Running(s, me) && idx < s.N() && idx != me && ForkOf(s, child, me)
    ensures KeepsAll(s, Replace(s, me, idx, child), me)
    ensures KeepsAll(s, Replace(s.(restoring := true), me, idx, child), me)
  {}

  lemma SectionKeeps<M>(s: State<M>, me: nat)
    requires Running(s, me)
    ensures KeepsAll(s, RunLoop(s, me), me)
    decreases if s.restoring then 0 else 1, 1
  {
    hide KeepsAll, Keeps, RunAction, SignalOne, Release, Replace, Leave, Quit, Block, CheckWatchdog;
    PartsKeep(s, me);
    var l := s.procs[me].loc;
    if s.slots[me].waitIdx >= 0 {
      LoopFrame(s, me);
      WatchdogKeeps(s, me);
      if s.condWaitCnt[l.waitIdx] == s.N() {
        if l.action != NoAction && !Eligible(l.who, me) {
          WakingKeeps(s, me, Delegate(l.who));
        } else {
          match RunAction(s.slots, me, l.action)
          case Failed =>
          case Succeeded => ReleasingKeeps(s, me);
          case Replacing(idx) => ReplacingKeeps(s, me, idx);
          case Rerun => WakingKeeps(s, me, FirstOther(me));
        }
      }
    }
  }

  lemma LoopFrame<M>(s: State<M>, me: nat)
    requires Running(s, me)
    ensures Delegate(s.procs[me].loc.who) < s.N() && FirstOther(me) < s.N()
  {}

  lemma WakingKeeps<M>(s: State<M>, me: nat, i: nat)
    requires Running(s, me) && s.slots[me].waitIdx >= 0 && i < s.N()
    ensures var u := SignalOne(s, i, s.procs[me].loc.waitIdx);
      Running(u, me) && u.slots == s.slots && KeepsAll(s, CheckWatchdog(u, me), me)
    decreases if s.restoring then 0 else 1, 0, 1
  {
    var u := SignalOne(s, i, s.procs[me].loc.waitIdx);
    PartsKeep(s, me);
    assert Running(u, me);
    hide KeepsAll, Keeps, CheckWatchdog, SignalOne;
    WatchdogKeeps(u, me);
    KeepsTrans(s, u, CheckWatchdog(u, me), me);
  }

  lemma ReleasingKeeps<M>(s: State<M>, me: nat)
    requires Running(s, me)
    ensures KeepsAll(s, Leave(Release(s, s.procs[me].loc.waitIdx), me), me)
  {
    var u := Release(s, s.procs[me].loc.waitIdx);
    PartsKeep(s, me);
    assert Running(u, me);
    hide KeepsAll, Keeps, Release, Leave;
    PartsKeep(u, me);
    KeepsTrans(s, u, Leave(u, me), me);
  }

  lemma ReplacingKeeps<M>(s: State<M>, me: nat, idx: nat)
    requires Running(s, me) && idx < s.N() && idx != me
    ensures var l := s.procs[me].loc;
      KeepsAll(s, Leave(Release(Replace(s, me, idx, PendingDrain(l, s.slots[me])), l.waitIdx), me), me)
  {
    var child := PendingDrain(s.procs[me].loc, s.slots[me]);
    var u := Replace(s, me, idx, child);
    assert Running(u, me) && u.procs[me] == s.procs[me];
    assert ForkOf(s, child, me);
    hide KeepsAll, Keeps, Release, Leave, Replace;
    ReplaceKeeps(s, me, idx, child);
    ReleasingKeeps(u, me);
    KeepsTrans(s, u, Leave(Release(u, s.procs[me].loc.waitIdx), me), me);
  }

  lemma WatchdogKeeps<M>(s: State<M>, me: nat)
    requires Running(s, me) && s.slots[me].waitIdx >= 0
    ensures KeepsAll(s, CheckWatchdog(s, me), me)
    decreases if s.restoring then 0 else 1, 0, 0
  {
    hide KeepsAll, Keeps, RunLoop, Block, Quit, Replace;
    PartsKeep(s, me);
    if s.procs[me].loc.expired && !s.restoring && s.N() - s.condWaitCnt[s.curWaitIdx] <= 1
      && FirstIdle(s.slots, 0) < s.N() {
      var idx := FirstIdle(s.slots, 0);
      var u := Fork(s, me, idx);
      ReplaceKeeps(s, me, idx, PendingWait(s.procs[me].loc, s.slots[me], s.curWaitIdx));
      SectionKeeps(u, me);
      KeepsTrans(s, u, RunLoop(u, me), me);
    }
  }

  // ----- One step

  /** The step is a section of plr_waitBarrier. */
  ghost predicate Locks<M>(s: State<M>, step: Step<M>)
    requires s.Shape() && step.i < s.N()
  {
    step.Enter? || step.Wake? || (step.Install? && !s.procs[step.i].PendingStart?)
  }

  /** The state in which the section of a step runs, with its process in the loop. */
  ghost function Begun<M>(s: State<M>, step: Step<M>): State<M>
    requires s.Shape() && Enabled(s, step)
  {
    match step
    case Enter(i, c) => Arrive(s, i, c)
    case Wake(i, timedOut) => Resume(s, i, timedOut)
    case Install(i, pid) => Installed(s, i, pid)
    case _ => s
  }

  lemma StepKeeps<M>(s: State<M>, step: Step<M>)
    requires Inv(s) && Enabled(s, step) && Locks(s, step)
    ensures var b := Begun(s, step);
      && b.Shape() && b.N() == s.N() && Running(b, step.i) && KeepsAll(b, Apply(s, step), step.i)
  {
    assert s.Shape();
    hide KeepsAll, Keeps, Inv, RunLoop;
    match step
    case Enter(i, c) =>
      ArriveInv(s, i, c);
      SectionKeeps(Begun(s, step), i);
    case Wake(i, timedOut) => SectionKeeps(Begun(s, step), i);
    case Install(i, pid) =>
      InstalledInv(s, i, pid);
      PartsKeep(Begun(s, step), i);
      SectionKeeps(Begun(s, step), i);
  }

  /** Until then only the process that makes the step has moved. */
  lemma BegunFrame<M>(s: State<M>, step: Step<M>, i: nat)
    requires s.Shape() && Enabled(s, step) && Locks(s, step) && i < s.N()
    ensures var b := Begun(s, step);
      && b.Shape() && b.N() == s.N()
      && (i != step.i ==>
           && b.slots[i] == s.slots[i]
           && (b.procs[i] == s.procs[i]
                || (b.procs[i].Blocked? && s.procs[i].Blocked? && b.procs[i].loc == s.procs[i].loc)))
      && (step.Wake? && step.i == i ==>
           && b.slots[i] == s.slots[i] && b.procs[i].Blocked? && s.procs[i].Blocked?
           && b.procs[i].loc == s.procs[i].loc.(expired := s.procs[i].loc.expired || step.timedOut))
      && (step.Enter? && step.i == i ==>
           && InCall(b, i, s.curWaitIdx, step.call) && !b.procs[i].loc.expired && OwnKept(s.slots[i], b.slots[i]))
  {}

  /** What a call of plr_waitBarrier leaves alone in the caller's slot. */
  predicate OwnKept(x: Slot, y: Slot) {
    x.pid == y.pid && x.shmFd == y.shmFd && x.insidePLR == y.insidePLR && x.extraShmMapped == y.extraShmMapped
  }

  /** Process i is in the call c, which it has made at wait index w. */
  ghost predicate InCall<M>(s: State<M>, i: nat, w: nat, c: BarrierCall<M>) {
    && s.Shape() && i < s.N() && Waiting(s, i)
    && s.procs[i].loc == Local(w, c.action, c.who, s.procs[i].loc.expired, c.mem) && s.slots[i].args == c.args
  }

  /** Whoever waits after a step has made its call in it, or waited before it, in the same call; and then its timer has
      expired if it had before, or if the step is its wake-up at the timeout. */
  lemma WaitsOn<M>(s: State<M>, step: Step<M>, i: nat)
    requires Inv(s) && Enabled(s, step) && i < s.N() && Waiting(Apply(s, step), i)
    ensures var t := Apply(s, step);
      if step.Enter? && step.i == i then InCall(t, i, s.curWaitIdx, step.call) && !t.procs[i].loc.expired
      else
        && Waiting(s, i) && SameSlot(t.slots[i], s.slots[i])
        && t.procs[i].loc == s.procs[i].loc.(expired := s.procs[i].loc.expired || step == Wake(i, true))
  {
    hide RunLoop, Timely, RunAction;
    assert s.Shape();
    hide Inv;
    if Locks(s, step) {
      StepKeeps(s, step);
      BegunFrame(s, step, i);
      assert Keeps(Begun(s, step), Apply(s, step), step.i, i);
      if step.Install? {
        ChildReturns(s, step.i, step.pid);
      }
      hide Begun, Apply;
    }
  }

  lemma ChildReturns<M>(s: State<M>, i: nat, pid: nat)
    requires Inv(s) && Enabled(s, Install(i, pid))
    ensures !Waiting(Apply(s, Install(i, pid)), i)
  {
    if s.procs[i].PendingWait? {
      WatchdogChild(s, i, pid);
    }
  }

  /** What a process outside the barrier has is its own: only its own steps change it, as they say, unless it is
      replaced with a child of another. */
  lemma OutsideIsOwn<M>(s: State<M>, step: Step<M>, i: nat)
    requires Inv(s) && Enabled(s, step) && i < s.N() && s.procs[i].Outside?
    ensures var t := Apply(s, step);
      match step
      case Compute(j, m) => t == s.(procs := t.procs) && t.procs == s.procs[j := Outside(m)]
      case _ => step.i != i ==>
        (t.procs[i] == s.procs[i] && t.slots[i].args == s.slots[i].args && OwnKept(s.slots[i], t.slots[i]))
          || ((t.procs[i].PendingWait? || t.procs[i].PendingDrain?) && SameSlot(t.procs[i].parent, t.slots[step.i]))
  {
    hide RunLoop, Timely, RunAction;
    assert s.Shape();
    hide Inv;
    if Locks(s, step) {
      StepKeeps(s, step);
      BegunFrame(s, step, i);
      assert Keeps(Begun(s, step), Apply(s, step), step.i, i);
      assert Keeps(Begun(s, step), Apply(s, step), step.i, step.i);
      hide Begun, Apply;
    }
  }

  // ----- Whole runs

  /** Nobody is at the barrier. */
  lemma InitCalm<M>(s: State<M>)
    requires Init(s)
    ensures forall i | 0 <= i < s.N() :: s.procs[i].Outside? || s.procs[i].PendingStart?
  {}

  lemma LastStep<M>(run: seq<State<M>>, steps: seq<Step<M>>, k: nat)
    requires IsRun(run, steps) && 0 < k < |run|
    ensures |run| == |steps| + 1 && run[k - 1].Shape() && Inv(run[k - 1]) && Enabled(run[k - 1], steps[k - 1])
    ensures run[k] == Apply(run[k - 1], steps[k - 1])
  {
    hide Inv, Apply, Enabled;
    RunInv(run, steps, k - 1);
  }

  /** Process i has made its call at time e and has been waiting ever since; its timer is expired if and only if it has
      woken up at the timeout since then. */
  ghost predicate WaitingSince<M>(run: seq<State<M>>, steps: seq<Step<M>>, k: nat, i: nat, e: nat) {
    && e < k < |run| && k <= |steps| && steps[e].Enter? && steps[e].i == i
    && (forall m | e < m <= k :: InCall(run[m], i, run[e].curWaitIdx, steps[e].call))
    && (run[k].procs[i].loc.expired <==> exists m :: e < m < k && steps[m] == Wake(i, true))
  }

  lemma SinceNext<M>(run: seq<State<M>>, steps: seq<Step<M>>, k: nat, i: nat, e: nat)
    requires WaitingSince(run, steps, k, i, e) && k + 1 < |run| && k < |steps|
    requires InCall(run[k + 1], i, run[e].curWaitIdx, steps[e].call)
    requires run[k + 1].procs[i].loc.expired <==> run[k].procs[i].loc.expired || steps[k] == Wake(i, true)
    ensures WaitingSince(run, steps, k + 1, i, e)
  {
    if m :| e < m < k && steps[m] == Wake(i, true) {
      assert e < m < k + 1;
    }
  }

  /** An expired timer stays expired until the call returns, in every run. */
  lemma {:induction false} TimerIff<M>(run: seq<State<M>>, steps: seq<Step<M>>, k: nat, i: nat) returns (e: nat)
    requires IsRun(run, steps) && k < |run| && run[k].Shape() && i < run[k].N() && Waiting(run[k], i)
    ensures WaitingSince(run, steps, k, i, e)
  {
    if k == 0 {
      InitCalm(run[0]);
      assert false;
    } else {
      hide Inv, Apply, Enabled, IsRun;
      LastStep(run, steps, k);
      WaitsOn(run[k - 1], steps[k - 1], i);
      if steps[k - 1].Enter? && steps[k - 1].i == i {
        e := k - 1;
      } else {
        e := TimerIff(run, steps, k - 1, i);
        assert InCall(run[k - 1], i, run[e].curWaitIdx, steps[e].call);
        SinceNext(run, steps, k - 1, i, e);
      }
    }
  }

  // ----- From the fork to the child's first lock

  /** A child that waits for its first lock was there before the step, or the process that made the step has forked it;
      then `parent` is the slot of that process. */
  lemma NewChild<M>(s: State<M>, step: Step<M>, i: nat)
    requires Inv(s) && Enabled(s, step) && i < s.N()
    requires var p := Apply(s, step).procs[i]; p.PendingDrain? || p.PendingWait?
    ensures var t := Apply(s, step);
      || t.procs[i] == s.procs[i]
      || (step.i != i && SameSlot(t.procs[i].parent, t.slots[step.i])
           && (!step.Install? ==> OwnKept(s.slots[step.i], t.slots[step.i])))
  {
    hide RunLoop, Timely, RunAction, Leave, Arrive, Resume;
    assert s.Shape();
    hide Inv;
    var t := Apply(s, step);
    if Locks(s, step) {
      StepKeeps(s, step);
      assert Keeps(Begun(s, step), t, step.i, i) && Keeps(Begun(s, step), t, step.i, step.i);
      BegunFrame(s, step, i);
      BegunFrame(s, step, step.i);
      hide Begun, Apply;
    }
  }

  lemma ChildInstalled<M>(s: State<M>, i: nat, pid: nat)
    requires Inv(s) && Enabled(s, Install(i, pid))
    ensures CopyOf(Apply(s, Install(i, pid)).slots[i], s.procs[i].parent, pid)
  {
    assert SlotOk(s, i);
    if !s.procs[i].PendingStart? {
      StepKeeps(s, Install(i, pid));
      assert Keeps(Begun(s, Install(i, pid)), Apply(s, Install(i, pid)), i, i);
      hide Inv, Apply;
    }
  }

  /** In every run a process that is forked by the vote or by a watchdog starts with the arguments, the descriptor of
      the shared area and the insidePLR flag that the slot of its parent had at the fork, and nothing mapped, whatever
      has happened in between. */
  lemma ChildInherits<M>(run: seq<State<M>>, steps: seq<Step<M>>, k: nat) returns (f: nat)
    requires IsRun(run, steps) && k < |steps| && steps[k].Install?
    requires !run[k].procs[steps[k].i].PendingStart?
    ensures f < k && steps[f].i < run[f].N() && steps[f].i != steps[k].i && run[f].N() == run[k].N()
    ensures var i := steps[k].i;
      && run[f].procs[i] != run[k].procs[i]
      && (forall m | f < m <= k :: i < |run[m].procs| && run[m].procs[i] == run[k].procs[i])
      && i < run[k + 1].N() && CopyOf(run[k + 1].slots[i], run[f + 1].slots[steps[f].i], steps[k].pid)
      && (!steps[f].Install? ==> OwnKept(run[f].slots[steps[f].i], run[f + 1].slots[steps[f].i]))
  {
    RunInv(run, steps, k);
    ChildInstalled(run[k], steps[k].i, steps[k].pid);
    hide Inv, Apply;
    f := ForkedAt(run, steps, k, steps[k].i);
  }

  lemma {:induction false} ForkedAt<M>(run: seq<State<M>>, steps: seq<Step<M>>, k: nat, i: nat) returns (f: nat)
    requires IsRun(run, steps) && k < |run| && run[k].Shape() && i < run[k].N()
    requires run[k].procs[i].PendingDrain? || run[k].procs[i].PendingWait?
    ensures f < k && run[f].N() == run[k].N() && steps[f].i < run[f].N() && steps[f].i != i
    ensures run[f].procs[i] != run[k].procs[i]
    ensures forall m | f < m <= k :: i < |run[m].procs| && run[m].procs[i] == run[k].procs[i]
    ensures SameSlot(run[k].procs[i].parent, run[f + 1].slots[steps[f].i])
    ensures !steps[f].Install? ==> OwnKept(run[f].slots[steps[f].i], run[f + 1].slots[steps[f].i])
  {
    if k == 0 {
      InitCalm(run[0]);
      assert false;
    } else {
      hide Inv, Apply, Enabled, IsRun;
      LastStep(run, steps, k);
      NewChild(run[k - 1], steps[k - 1], i);
      if run[k - 1].procs[i] == run[k].procs[i] {
        f := ForkedAt(run, steps, k - 1, i);
      } else {
        f := k - 1;
      }
    }
  }
}
