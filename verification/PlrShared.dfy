/** The code of plr.c and plrSharedData.c that changes the shared area, statement by statement, proved to
    compute the sections of the state machine in module Barrier. */
module PlrShared {
  import opened Compare
  import opened Barrier

  class PlrShm<M> {
    // plrData_t
    var curWaitIdx: nat
    const condWaitCnt: array<int>
    var restoring: bool
    // perProcData_t[nProc], and what the process in each slot is doing
    const allProcShm: array<Slot>
    const procs: array<Phase<M>>
    // History
    ghost var releases: nat
    ghost var left: seq<nat>

    ghost predicate Valid()
      reads this, condWaitCnt, allProcShm, procs
    {
      Abs().Shape()
    }

    ghost function Abs(): State<M>
      reads this, condWaitCnt, allProcShm, procs
    {
      State(curWaitIdx, condWaitCnt[..], restoring, allProcShm[..], procs[..], releases, left)
    }

    /** plrSD_initSharedData: a zero-filled area without processes. */
    constructor (nProc: nat)
      requires nProc >= 2
      ensures Valid() && fresh(condWaitCnt) && fresh(allProcShm) && fresh(procs) && Abs().N() == nProc
      ensures curWaitIdx == 0 && !restoring && condWaitCnt[..] == [0, 0] && releases == 0
      ensures forall i | 0 <= i < nProc :: allProcShm[i] == ZERO_SLOT && procs[i].Exited? && left[i] == 0
    {
      curWaitIdx := 0;
      condWaitCnt := new int[2](_ => 0);
      restoring := false;
      allProcShm := new Slot[nProc](_ => ZERO_SLOT);
      procs := new Phase<M>[nProc](_ => Exited);
      releases := 0;
      left := seq(nProc, _ => 0);
    }

    // ----- Startup

    /** plrSD_initProcData */
    method InitProcData(i: nat, pid: nat)
      requires Valid() && i < allProcShm.Length
      modifies allProcShm
      ensures allProcShm[..] == old(allProcShm[..])[i := InitSlot(old(allProcShm[i]), pid)]
    {
      allProcShm[i] := allProcShm[i].(pid := pid);
      allProcShm[i] := allProcShm[i].(waitIdx := -1);
      allProcShm[i] := allProcShm[i].(shmFd := -1);
    }

    /** plrSD_initProcDataAsCopy */
    method InitProcDataAsCopy(i: nat, pid: nat, src: Slot)
      requires Valid() && i < allProcShm.Length
      modifies allProcShm
      ensures allProcShm[..] == old(allProcShm[..])[i := InitSlotAsCopy(old(allProcShm[i]), pid, src)]
    {
      allProcShm[i] := allProcShm[i].(insidePLR := src.insidePLR);
      InitProcData(i, pid);
      allProcShm[i] := allProcShm[i].(shmFd := src.shmFd);
      allProcShm[i] := allProcShm[i].(args := src.args);
    }

    /** The loop of plr_processInit and its end, in the process whose myProcShm points to slot my. The first process
        runs it from the beginning; a child goes on in it behind the fork, with the i and the myPid of its parent. */
    method ForkMissing(my: nat, i0: nat, behindFork: bool, myPid: nat, mem: M) returns (slot: nat)
      requires Valid() && my < allProcShm.Length && i0 < allProcShm.Length
      requires !behindFork ==> i0 == my == 0 && allProcShm[0].pid == myPid > 0
      requires !behindFork ==> forall j | 1 <= j < allProcShm.Length :: allProcShm[j].pid == 0
      requires behindFork ==> my == i0
      modifies procs
      ensures slot == my
      ensures behindFork ==> procs[..] == old(procs[..])
      ensures !behindFork ==> procs[0] == old(procs[0])
      ensures !behindFork ==> forall j | 1 <= j < procs.Length :: procs[j] == PendingStart(mem, allProcShm[0])
    {
      var i, forked := i0, behindFork;
      slot := my;
      while i < allProcShm.Length
        invariant i0 <= i <= allProcShm.Length && slot == my
        invariant i > i0 ==> !behindFork
        invariant forked <==> behindFork
        invariant behindFork ==> procs[..] == old(procs[..])
        invariant !behindFork ==> procs[0] == old(procs[0])
        invariant !behindFork ==> forall j | 1 <= j < i :: procs[j] == PendingStart(mem, allProcShm[0])
      {
        if forked || allProcShm[i].pid == 0 {
          if !forked {
            // plr_forkNewProcess, as seen by the parent
            procs[i] := PendingStart(mem, allProcShm[slot]);
          }
          if slot == i {
            // This is the child that was just created
            break;
          }
          forked := false;
        } else if allProcShm[i].pid == myPid {
          slot := i;
        }
        i := i + 1;
      }
    }

    /** plr_processInit in the first process: it takes slot 0 and forks a process for every other slot.
        The children wait for the lock and take one slot each. */
    method ProcessInit(myPid: nat, mem: M)
      requires Valid() && myPid > 0
      requires curWaitIdx == 0 && !restoring && condWaitCnt[..] == [0, 0] && releases == 0
      requires forall i | 0 <= i < allProcShm.Length :: allProcShm[i] == ZERO_SLOT && procs[i].Exited? && left[i] == 0
      modifies allProcShm, procs
      ensures Valid() && Init(Abs())
      ensures allProcShm[0] == Slot(myPid, -1, ZERO_ARGS, -1, 0, false) && procs[0] == Outside(mem)
      ensures forall i | 1 <= i < procs.Length :: procs[i] == PendingStart(mem, allProcShm[0])
    {
      InitProcData(0, myPid);
      procs[0] := Outside(mem);
      assert allProcShm[..] == old(allProcShm[..])[0 := InitSlot(ZERO_SLOT, myPid)];
      assert forall j | 1 <= j < allProcShm.Length :: allProcShm[j] == allProcShm[..][j];
      var my := ForkMissing(0, 0, false, myPid, mem);
    }

    // ----- Replacing a process

    /** plrSD_freeProcData */
    method FreeProcData(i: nat)
      requires Valid() && i < allProcShm.Length
      modifies allProcShm
      ensures allProcShm[..] == old(allProcShm[..])[i := Free(old(allProcShm[i]))]
    {
      if allProcShm[i].pid == 0 {
        return;
      }
      allProcShm[i] := ZERO_SLOT;
    }

    /** plr_replaceProcessIdx, as seen by the parent; `child` is the process that fork creates. */
    method ReplaceProcessIdx(me: nat, idx: nat, child: Phase<M>)
      requires Valid() && me < procs.Length && idx < procs.Length && me != idx
      modifies this`left, allProcShm, procs
      ensures Valid() && Abs() == Replace(old(Abs()), me, idx, child)
    {
      FreeProcData(idx);
      procs[idx] := child;
      left := left[idx := left[me]];
    }

    // ----- Actions

    /** The child that a vote by `me` would fork. */
    ghost function ChildOf(me: nat): Phase<M>
      requires me < procs.Length && me < allProcShm.Length && procs[me].Blocked?
      reads procs, allProcShm
    {
      PendingDrain(procs[me].loc, allProcShm[me])
    }

    /** plr_checkSyscallArgs_act */
    method CheckSyscallArgsAct(me: nat) returns (ret: int)
      requires Valid() && procs.Length == 3 && me < 3 && procs[me].Blocked?
      modifies this`left, allProcShm, procs
      ensures Valid() && procs[me] == old(procs[me])
      ensures match VoteOutcome(old(allProcShm[..]), me)
              case Failed => ret == -1 && Abs() == old(Abs())
              case Succeeded => ret == 0 && Abs() == old(Abs())
              case Rerun => ret == 1 && Abs() == old(Abs())
              case Replacing(b) => ret == 0 && b < 3 && b != me && Abs() == Replace(old(Abs()), me, b, old(ChildOf(me)))
    {
      var badProc := SelectFaulty(Args(allProcShm[..]));
      if badProc == -1 {
        ret := 0;
      } else if 0 <= badProc < procs.Length {
        if me == badProc {
          ret := 1;
        } else {
          ReplaceProcessIdx(me, badProc, PendingDrain(procs[me].loc, allProcShm[me]));
          ret := 0;
        }
      } else {
        ret := -1;
      }
    }

    /** actionPtr() */
    method RunActionPtr(me: nat) returns (ret: int)
      requires Valid() && Running(Abs(), me) && !procs[me].loc.action.NoAction?
      modifies this`left, allProcShm, procs
      ensures Valid() && procs[me] == old(procs[me])
      ensures match RunAction(old(allProcShm[..]), me, old(procs[me].loc.action))
              case Failed => ret == -1 && Abs() == old(Abs())
              case Succeeded => ret == 0 && Abs() == old(Abs())
              case Rerun => ret == 1 && Abs() == old(Abs())
              case Replacing(b) =>
                && ret == 0 && b < procs.Length && b != me
                && Abs() == Replace(old(Abs()), me, b, old(ChildOf(me)))
    {
      match procs[me].loc.action
      case Vote => ret := CheckSyscallArgsAct(me);
      case Effect(ok) => ret := if ok then 0 else -1;
    }

    // ----- Signals and the end of a round

    /** pthread_cond_signal */
    method CondSignal(i: nat, idx: nat)
      requires Valid() && i < procs.Length
      modifies procs
      ensures Valid() && Abs() == SignalOne(old(Abs()), i, idx)
    {
      procs[i] := Signalled(procs[i], idx);
    }

    /** Wakes up every process that waits at idx. */
    method SignalAllAt(idx: nat)
      requires Valid()
      modifies procs
      ensures Valid() && Abs() == SignalAll(old(Abs()), idx)
      ensures forall j | 0 <= j < procs.Length ::
        procs[j] == match old(procs[j])
                    case Blocked(l, signalled) => Blocked(l, signalled || l.waitIdx == idx)
                    case p => p
    {
      ghost var was := procs[..];
      for i := 0 to procs.Length
        invariant Valid() && |was| == procs.Length
        invariant forall j | 0 <= j < i :: procs[j] == Signalled(was[j], idx)
        invariant forall j | i <= j < procs.Length :: procs[j] == was[j]
      {
        procs[i] := Signalled(procs[i], idx);
      }
      assert procs[..] == seq(|was|, i requires 0 <= i < |was| => Signalled(was[i], idx));
    }

    /** Shifts curWaitIdx, and clears the wait flag of every process and wakes it up. */
    method ReleaseRound(idx: nat)
      requires Valid()
      modifies this`curWaitIdx, this`releases, allProcShm, procs
      ensures Valid() && Abs() == Release(old(Abs()), idx)
      ensures forall j | 0 <= j < procs.Length ::
        && allProcShm[j] == old(allProcShm[j]).(waitIdx := -1)
        && procs[j] == match old(procs[j])
                       case Blocked(l, signalled) => Blocked(l, signalled || l.waitIdx == idx)
                       case p => p
    {
      curWaitIdx := if curWaitIdx != 0 then 0 else 1;
      releases := releases + 1;
      ghost var was, slots := procs[..], allProcShm[..];
      for i := 0 to procs.Length
        invariant Valid() && |was| == |slots| == procs.Length == allProcShm.Length
        invariant releases == old(releases) + 1 && curWaitIdx == if old(curWaitIdx) != 0 then 0 else 1
        invariant forall j | 0 <= j < i ::
          procs[j] == Signalled(was[j], idx) && allProcShm[j] == slots[j].(waitIdx := -1)
        invariant forall j | i <= j < procs.Length :: procs[j] == was[j] && allProcShm[j] == slots[j]
      {
        procs[i] := Signalled(procs[i], idx);
        allProcShm[i] := allProcShm[i].(waitIdx := -1);
      }
      ghost var r := Release(old(Abs()), idx);
      assert procs[..] == r.procs;
      assert allProcShm[..] == r.slots;
    }

    // ----- The watchdog

    /** plr_watchdogExpired */
    method WatchdogExpired(me: nat) returns (ret: int)
      requires Valid() && Running(Abs(), me) && allProcShm[me].waitIdx >= 0
      modifies this`restoring, this`left, allProcShm, procs
      ensures Valid() && procs[me] == old(procs[me])
      ensures if old(restoring) then ret == 0 && Abs() == old(Abs())
              else if
                || old(procs.Length - condWaitCnt[curWaitIdx]) > 1
                || FirstIdle(old(allProcShm[..]), 0) == procs.Length
              then ret == -1 && Abs() == old(Abs())
              else
                && ret == 1 && FirstIdle(old(allProcShm[..]), 0) != me
                && Abs() == Fork(old(Abs()), me, FirstIdle(old(allProcShm[..]), 0))
    {
      if restoring {
        return 0;
      }
      if procs.Length - condWaitCnt[curWaitIdx] > 1 {
        return -1;
      }
      var i := 0;
      while i < procs.Length && allProcShm[i].waitIdx >= 0
        invariant 0 <= i <= procs.Length
        invariant FirstIdle(allProcShm[..], 0) == FirstIdle(allProcShm[..], i)
      {
        i := i + 1;
      }
      if i == procs.Length {
        return -1;
      }
      restoring := true;
      ReplaceProcessIdx(me, i, PendingWait(procs[me].loc, allProcShm[me], curWaitIdx));
      ret := 1;
    }

    // ----- plr_waitBarrier

    /** The part of the wait loop for a complete round: runs the action, or wakes up a process that may.
        Returns 0 if the round can be released, less than 0 if the action failed. */
    method RunBarrierAction(me: nat) returns (ret: int)
      requires Valid() && Running(Abs(), me) && allProcShm[me].waitIdx >= 0
      requires condWaitCnt[procs[me].loc.waitIdx] == procs.Length
      modifies this`left, allProcShm, procs
      ensures Valid() && Running(Abs(), me) && procs[me].loc == old(procs[me].loc) && allProcShm[me].waitIdx >= 0
      ensures var waitIdx := old(procs[me].loc.waitIdx);
        RunLoop(old(Abs()), me) ==
          if ret < 0 then Quit(Abs(), me)
          else if ret == 0 then Leave(Release(Abs(), waitIdx), me)
          else CheckWatchdog(Abs(), me)
    {
      hide Release, Leave, Quit, CheckWatchdog;
      var l := procs[me].loc;
      if l.action.NoAction? {
        return 0;
      }
      var runAction := false;
      match l.who {
        case AnyProcess =>
          runAction := true;
        case MasterOnly =>
          if me == 0 {
            runAction := true;
          } else {
            CondSignal(0, l.waitIdx);
          }
        case SlaveOnly =>
          if me == 0 {
            CondSignal(1, l.waitIdx);
          } else {
            runAction := true;
          }
      }
      ret := 1;
      if runAction {
        ret := RunActionPtr(me);
        if ret > 0 {
          CondSignal(if me != 0 then 0 else 1, l.waitIdx);
        }
      }
    }

    /** The wait loop, up to the next timed wait or the end of the call. */
    method WaitLoop(me: nat)
      requires Valid() && Running(Abs(), me)
      modifies this, condWaitCnt, allProcShm, procs
      ensures Valid() && Abs() == RunLoop(old(Abs()), me)
    {
      hide RunLoop, CheckWatchdog, Release, Quit, Fork, RunAction, Leave, Block;
      var l := procs[me].loc;
      var waitIdx := l.waitIdx;
      while true
        invariant Valid() && Running(Abs(), me) && procs[me].loc == l
        invariant RunLoop(Abs(), me) == RunLoop(old(Abs()), me)
        decreases if restoring then 0 else 1
      {
        TopOfLoop(Abs(), me);
        if allProcShm[me].waitIdx < 0 {
          break;
        }
        if condWaitCnt[waitIdx] == procs.Length {
          var ret := RunBarrierAction(me);
          if ret < 0 {
            GiveUp(me);
            return;
          } else if ret == 0 {
            if allProcShm[me].waitIdx >= 0 {
              ReleaseRound(waitIdx);
            }
            break;
          }
        }
        EndOfLoop(Abs(), me);
        if l.expired {
          var ret := WatchdogExpired(me);
          if ret < 0 {
            GiveUp(me);
            return;
          } else if ret == 1 {
            continue;
          }
        }
        TimedWait(me);
        return;
      }
      ExitBarrier(me);
    }

    /** pthread_cond_timedwait, up to the moment it has given up the lock. */
    method TimedWait(me: nat)
      requires Valid() && Running(Abs(), me)
      modifies procs
      ensures Valid() && Abs() == Block(old(Abs()), me)
    {
      procs[me] := Blocked(procs[me].loc, false);
    }

    /** The end of plr_waitBarrier. */
    method ExitBarrier(me: nat)
      requires Valid() && Running(Abs(), me)
      modifies this`left, condWaitCnt, procs
      ensures Valid() && Abs() == Leave(old(Abs()), me)
    {
      var l := procs[me].loc;
      condWaitCnt[l.waitIdx] := condWaitCnt[l.waitIdx] - 1;
      procs[me] := Outside(l.mem);
      left := left[me := left[me] + 1];
    }

    /** Gives up the place at the barrier and exits. */
    method GiveUp(me: nat)
      requires Valid() && Running(Abs(), me)
      modifies condWaitCnt, allProcShm, procs
      ensures Valid() && Abs() == Quit(old(Abs()), me)
    {
      var waitIdx := procs[me].loc.waitIdx;
      allProcShm[me] := allProcShm[me].(waitIdx := -1);
      condWaitCnt[waitIdx] := condWaitCnt[waitIdx] - 1;
      procs[me] := Exited;
    }

    /** plr_waitBarrier, from its call to the first timed wait or to its return. */
    method WaitBarrier(me: nat, call: BarrierCall<M>)
      requires Valid() && me < procs.Length && procs[me].Outside? && CallOk(call.action, call.who, procs.Length)
      modifies this, condWaitCnt, allProcShm, procs
      ensures Valid() && Abs() == Apply(old(Abs()), Enter(me, call))
    {
      // plr_checkSyscallArgs has copied the arguments to the caller's own slot
      allProcShm[me] := allProcShm[me].(args := call.args);
      var waitIdx := curWaitIdx;
      allProcShm[me] := allProcShm[me].(waitIdx := waitIdx);
      procs[me] := Blocked(Local(waitIdx, call.action, call.who, false, call.mem), false);
      condWaitCnt[waitIdx] := condWaitCnt[waitIdx] + 1;
      assert Abs() == Mark(old(Abs()), me, call);
      if 1 < condWaitCnt[waitIdx] < procs.Length {
        SignalAllAt(waitIdx);
      }
      WaitLoop(me);
    }

    /** A process returns from pthread_cond_timedwait. */
    method WakeUp(me: nat, timedOut: bool)
      requires Valid() && Running(Abs(), me)
      modifies this, condWaitCnt, allProcShm, procs
      ensures Valid() && Abs() == RunLoop(Resume(old(Abs()), me, timedOut), me)
    {
      var l := procs[me].loc;
      if timedOut {
        l := l.(expired := true);
      }
      procs[me] := Blocked(l, true);
      assert Abs() == Resume(old(Abs()), me, timedOut);
      WaitLoop(me);
    }

    /** A forked child gets the lock, sets up its slot and goes on where its parent forked it: in
        plr_processInit, in the action of the vote, or in plr_watchdogExpired. */
    method ChildStarts(i: nat, pid: nat)
      requires Valid() && Enabled(Abs(), Install(i, pid))
      modifies this, condWaitCnt, allProcShm, procs
      ensures Valid() && Abs() == Apply(old(Abs()), Install(i, pid))
    {
      match procs[i] {
        case PendingStart(mem, parent) =>
          InitProcDataAsCopy(i, pid, parent);
          var my := ForkMissing(i, i, true, parent.pid, mem);
          procs[i] := Outside(mem);
        case PendingDrain(l, parent) =>
          InitProcDataAsCopy(i, pid, parent);
          // The action succeeds; the wait flag is clear, so nothing is released a second time
          procs[i] := Blocked(l, true);
          assert Abs() == Installed(old(Abs()), i, pid);
          ExitBarrier(i);
        case PendingWait(l, parent, waitIdx) =>
          InitProcDataAsCopy(i, pid, parent);
          allProcShm[i] := allProcShm[i].(waitIdx := curWaitIdx);
          condWaitCnt[waitIdx] := condWaitCnt[waitIdx] + 1;
          restoring := false;
          procs[i] := Blocked(l, true);
          assert Abs() == Installed(old(Abs()), i, pid);
          WaitLoop(i);
      }
    }
  }

  /** The first two decisions of the wait loop. */
  lemma TopOfLoop<M>(s: State<M>, me: nat)
    requires Running(s, me)
    ensures s.slots[me].waitIdx < 0 ==> RunLoop(s, me) == Leave(s, me)
    ensures s.slots[me].waitIdx >= 0 && s.condWaitCnt[s.procs[me].loc.waitIdx] != s.N() ==>
      RunLoop(s, me) == CheckWatchdog(s, me)
  {}

  /** The last two. */
  lemma EndOfLoop<M>(s: State<M>, me: nat)
    requires Running(s, me) && s.slots[me].waitIdx >= 0
    ensures !s.procs[me].loc.expired || s.restoring ==> CheckWatchdog(s, me) == Block(s, me)
    ensures s.procs[me].loc.expired && !s.restoring ==>
      CheckWatchdog(s, me) ==
        if s.N() - s.condWaitCnt[s.curWaitIdx] > 1 || FirstIdle(s.slots, 0) == s.N() then Quit(s, me)
        else RunLoop(Fork(s, me, FirstIdle(s.slots, 0)), me)
  {}
}
