/** The barrier, vote and watchdog protocol of `plr_waitBarrier`, as a state machine.

    A step is one section of code that runs while `plrShm->lock` is held: from taking the lock, or waking
    up inside pthread_cond_timedwait, to the next timed wait or to giving up the lock. The memory image M
    of a process is carried along, so that fork is a copy. */
module Barrier {
  import opened Compare

  // ----- State

  // perProcData_t; a slot whose pid is 0 holds no process
  datatype Slot = Slot(pid: nat, waitIdx: int, args: SyscallArgs, shmFd: int, extraShmMapped: nat, insidePLR: bool)

  const ZERO_SLOT := Slot(0, 0, ZERO_ARGS, 0, 0, false)

  // waitActionType_t
  datatype WaitAction = AnyProcess | MasterOnly | SlaveOnly

  // The barrier action: none, the vote, or an effect of the caller with its outcome
  datatype Action = NoAction | Vote | Effect(ok: bool)

  // The local variables of a call of plr_waitBarrier, and the rest of the memory of its process
  datatype Local<M> = Local(waitIdx: nat, action: Action, who: WaitAction, expired: bool, mem: M)

  datatype Phase<M> =
    // Running application or wrapper code, outside the barrier
    | Outside(mem: M)
    // In pthread_cond_timedwait, or woken there and about to take the lock again
    | Blocked(loc: Local<M>, signalled: bool)
    // Forked, but not yet holding the lock: at startup, by the vote, by the watchdog.
    // `parent` is the parent's slot at the time of the fork
    | PendingStart(mem: M, parent: Slot)
    | PendingDrain(loc: Local<M>, parent: Slot)
    | PendingWait(loc: Local<M>, parent: Slot, waitIdx: nat)
    // Dead
    | Exited

  // plrData_t and the slots, the phase of the process in each slot, and two history variables: the number
  // of rounds released so far, and for each slot the number of rounds that its process has left
  datatype State<M> = State(
    curWaitIdx: nat, condWaitCnt: seq<int>, restoring: bool, slots: seq<Slot>,
    procs: seq<Phase<M>>, releases: nat, left: seq<nat>)
  {
    function N(): nat { |slots| }

    predicate Shape() {
      2 <= |slots| == |procs| == |left| && |condWaitCnt| == 2 && curWaitIdx < 2
    }
  }

  /** A process at position idx of the barrier holds one unit of `condWaitCnt[idx]`. */
  predicate In<M>(p: Phase<M>, idx: nat) {
    match p
    case Blocked(l, _) => l.waitIdx == idx
    case PendingDrain(l, _) => l.waitIdx == idx
    case _ => false
  }

  /** Its round is not released yet. */
  predicate Waiting<M>(s: State<M>, i: nat)
    requires s.Shape() && i < s.N()
  {
    s.procs[i].Blocked? && s.slots[i].waitIdx >= 0
  }

  /** Its round is released, but it has not left the barrier yet. */
  predicate Draining<M>(s: State<M>, i: nat)
    requires s.Shape() && i < s.N()
  {
    s.procs[i].PendingDrain? || (s.procs[i].Blocked? && s.slots[i].waitIdx < 0)
  }

  // ----- Effects of a section

  function Signalled<M>(p: Phase<M>, idx: nat): Phase<M> {
    if p.Blocked? && p.loc.waitIdx == idx then Blocked(p.loc, true) else p
  }

  /** pthread_cond_signal(&allProcShm[i].cond[idx]) */
  function SignalOne<M>(s: State<M>, i: nat, idx: nat): (r: State<M>)
    requires s.Shape() && i < s.N()
    ensures r.Shape() && r.N() == s.N()
  {
    s.(procs := s.procs[i := Signalled(s.procs[i], idx)])
  }

  function SignalAll<M>(s: State<M>, idx: nat): (r: State<M>)
    requires s.Shape()
    ensures r.Shape() && r.N() == s.N()
  {
    s.(procs := seq(|s.procs|, i requires 0 <= i < |s.procs| => Signalled(s.procs[i], idx)))
  }

  /** plrSD_freeProcData */
  function Free(slot: Slot): Slot {
    if slot.pid == 0 then slot else ZERO_SLOT
  }

  /** plrSD_initProcData */
  function InitSlot(slot: Slot, pid: nat): Slot {
    slot.(pid := pid, waitIdx := -1, shmFd := -1)
  }

  /** plrSD_initProcDataAsCopy */
  function InitSlotAsCopy(slot: Slot, pid: nat, parent: Slot): Slot {
    InitSlot(slot.(insidePLR := parent.insidePLR), pid).(shmFd := parent.shmFd, args := parent.args)
  }

  /** plr_replaceProcessIdx: kills the process in slot idx and forks `child` in its place. */
  function Replace<M>(s: State<M>, me: nat, idx: nat, child: Phase<M>): (r: State<M>)
    requires s.Shape() && me < s.N() && idx < s.N() && me != idx
    ensures r.Shape() && r.N() == s.N()
  {
    s.(slots := s.slots[idx := Free(s.slots[idx])],
       procs := s.procs[idx := child],
       left := s.left[idx := s.left[me]])
  }

  /** Shifts curWaitIdx, clears all wait flags and wakes up all processes waiting at idx. */
  function Release<M>(s: State<M>, idx: nat): (r: State<M>)
    requires s.Shape()
    ensures r.Shape() && r.N() == s.N()
  {
    SignalAll(s, idx).(
      curWaitIdx := if s.curWaitIdx != 0 then 0 else 1,
      slots := seq(|s.slots|, i requires 0 <= i < |s.slots| => s.slots[i].(waitIdx := -1)),
      releases := s.releases + 1)
  }

  /** Returns from the barrier. */
  function Leave<M>(s: State<M>, me: nat): (r: State<M>)
    requires s.Shape() && me < s.N() && s.procs[me].Blocked? && s.procs[me].loc.waitIdx < 2
    ensures r.Shape() && r.N() == s.N()
  {
    var l := s.procs[me].loc;
    s.(condWaitCnt := s.condWaitCnt[l.waitIdx := s.condWaitCnt[l.waitIdx] - 1],
       procs := s.procs[me := Outside(l.mem)],
       left := s.left[me := s.left[me] + 1])
  }

  /** exit(1) after an error in the barrier. */
  function Quit<M>(s: State<M>, me: nat): (r: State<M>)
    requires s.Shape() && me < s.N() && s.procs[me].Blocked? && s.procs[me].loc.waitIdx < 2
    ensures r.Shape() && r.N() == s.N()
  {
    var l := s.procs[me].loc;
    s.(condWaitCnt := s.condWaitCnt[l.waitIdx := s.condWaitCnt[l.waitIdx] - 1],
       slots := s.slots[me := s.slots[me].(waitIdx := -1)],
       procs := s.procs[me := Exited])
  }

  /** Goes to wait, until signalled, timed out or woken up for no reason. */
  function Block<M>(s: State<M>, me: nat): (r: State<M>)
    requires s.Shape() && me < s.N() && s.procs[me].Blocked?
    ensures r.Shape() && r.N() == s.N()
  {
    s.(procs := s.procs[me := Blocked(s.procs[me].loc, false)])
  }

  // ----- The wait loop

  predicate Eligible(who: WaitAction, me: nat) {
    who.AnyProcess? || (who.MasterOnly? && me == 0) || (who.SlaveOnly? && me != 0)
  }

  /** The process that an ineligible process wakes up. */
  function Delegate(who: WaitAction): nat {
    if who.SlaveOnly? then 1 else 0
  }

  /** The first process other than `me`, which is woken up to rerun an action. */
  function FirstOther(me: nat): nat {
    if me == 0 then 1 else 0
  }

  datatype ActionResult = Failed | Succeeded | Replacing(idx: nat) | Rerun

  function Args(slots: seq<Slot>): (a: seq<SyscallArgs>)
    ensures |a| == |slots| && forall i | 0 <= i < |slots| :: a[i] == slots[i].args
  {
    seq(|slots|, i requires 0 <= i < |slots| => slots[i].args)
  }

  /** plr_checkSyscallArgs_act, short of the replacement itself. */
  function VoteOutcome(slots: seq<Slot>, me: nat): ActionResult
    requires |slots| == 3
  {
    match Judge(Args(slots))
    case AllAgree => Succeeded
    case Faulty(b) => if me == b then Rerun else Replacing(b)
    case NoMajority => Failed
  }

  function RunAction(slots: seq<Slot>, me: nat, action: Action): (o: ActionResult)
    requires action.Vote? ==> |slots| == 3
    ensures o.Replacing? ==> o.idx < |slots| && o.idx != me && action.Vote?
    ensures o.Rerun? ==> action.Vote?
  {
    match action
    case NoAction => Succeeded
    case Vote => VoteOutcome(slots, me)
    case Effect(ok) => if ok then Succeeded else Failed
  }

  /** The first slot from `from` on whose wait flag is not set. */
  function FirstIdle(slots: seq<Slot>, from: nat): (r: nat)
    requires from <= |slots|
    ensures from <= r <= |slots|
    ensures r < |slots| ==> slots[r].waitIdx < 0
    ensures forall i | from <= i < r :: slots[i].waitIdx >= 0
    decreases |slots| - from
  {
    if from == |slots| || slots[from].waitIdx < 0 then from else FirstIdle(slots, from + 1)
  }

  /** The vote is for three replicas (plr.c asserts it), and any of them may hold it. */
  predicate CallOk(action: Action, who: WaitAction, n: nat) {
    action.Vote? ==> n == 3 && who.AnyProcess?
  }

  /** In the middle of a section of process `me`. */
  predicate Running<M>(s: State<M>, me: nat) {
    s.Shape() && me < s.N() && s.procs[me].Blocked? && LocalOk(s.procs[me].loc, s.N())
  }

  predicate LocalOk<M>(l: Local<M>, n: nat) {
    l.waitIdx < 2 && CallOk(l.action, l.who, n)
  }

  /** The body of the wait loop, from its top to the end of the section. */
  function RunLoop<M>(s: State<M>, me: nat): (r: State<M>)
    requires Running(s, me)
    ensures r.Shape() && r.N() == s.N()
    decreases if s.restoring then 0 else 1, 1
  {
    var l := s.procs[me].loc;
    if s.slots[me].waitIdx < 0 then
      Leave(s, me)
    else if s.condWaitCnt[l.waitIdx] == s.N() then
      if l.action != NoAction && !Eligible(l.who, me) then
        CheckWatchdog(SignalOne(s, Delegate(l.who), l.waitIdx), me)
      else
        match RunAction(s.slots, me, l.action)
        case Failed => Quit(s, me)
        case Succeeded => Leave(Release(s, l.waitIdx), me)
        case Replacing(idx) => Leave(Release(Replace(s, me, idx, PendingDrain(l, s.slots[me])), l.waitIdx), me)
        case Rerun => CheckWatchdog(SignalOne(s, FirstOther(me), l.waitIdx), me)
    else
      CheckWatchdog(s, me)
  }

  /** The end of the wait loop, with plr_watchdogExpired: give up, fork a replacement and look again, or wait. */
  function CheckWatchdog<M>(s: State<M>, me: nat): (r: State<M>)
    requires Running(s, me) && s.slots[me].waitIdx >= 0
    ensures r.Shape() && r.N() == s.N()
    decreases if s.restoring then 0 else 1, 0
  {
    var l := s.procs[me].loc;
    if !l.expired || s.restoring then
      Block(s, me)
    else if s.N() - s.condWaitCnt[s.curWaitIdx] > 1 || FirstIdle(s.slots, 0) == s.N() then
      Quit(s, me)
    else
      RunLoop(Fork(s, me, FirstIdle(s.slots, 0)), me)
  }

  /** The watchdog's replacement of the process in slot idx. */
  function Fork<M>(s: State<M>, me: nat, idx: nat): (r: State<M>)
    requires Running(s, me) && idx < s.N() && me != idx
    ensures Running(r, me) && r.restoring && r.N() == s.N()
  {
    Replace(s.(restoring := true), me, idx, PendingWait(s.procs[me].loc, s.slots[me], s.curWaitIdx))
  }

  // ----- Steps

  datatype BarrierCall<M> = BarrierCall(action: Action, who: WaitAction, args: SyscallArgs, mem: M)

  datatype Step<M> =
    // A process computes outside the barrier
    | Compute(i: nat, mem: M)
    // A process calls plr_waitBarrier
    | Enter(i: nat, call: BarrierCall<M>)
    // A waiting process takes the lock again
    | Wake(i: nat, timedOut: bool)
    // A forked process takes the lock for the first time; its pid comes from fork
    | Install(i: nat, pid: nat)
    // A process dies outside the barrier
    | Crash(i: nat)

  /** A caller marks itself as waiting at the current index. */
  function Mark<M>(s: State<M>, i: nat, c: BarrierCall<M>): (r: State<M>)
    requires s.Shape() && i < s.N()
    ensures r.Shape() && r.N() == s.N()
  {
    var w := s.curWaitIdx;
    s.(slots := s.slots[i := s.slots[i].(args := c.args, waitIdx := w)],
       procs := s.procs[i := Blocked(Local(w, c.action, c.who, false, c.mem), false)],
       condWaitCnt := s.condWaitCnt[w := s.condWaitCnt[w] + 1])
  }

  /** ... and, if others are waiting already, wakes them up so that their timers restart. */
  function Arrive<M>(s: State<M>, i: nat, c: BarrierCall<M>): (r: State<M>)
    requires s.Shape() && i < s.N()
    ensures r.Shape() && r.N() == s.N()
  {
    var t := Mark(s, i, c);
    if 1 < t.condWaitCnt[s.curWaitIdx] < s.N() then SignalAll(t, s.curWaitIdx) else t
  }

  function Resume<M>(s: State<M>, i: nat, timedOut: bool): (r: State<M>)
    requires s.Shape() && i < s.N() && s.procs[i].Blocked?
    ensures r.Shape() && r.N() == s.N()
  {
    var l := s.procs[i].loc;
    s.(procs := s.procs[i := Blocked(l.(expired := l.expired || timedOut), true)])
  }

  /** A forked child has taken the lock and set up its slot. */
  function Installed<M>(s: State<M>, i: nat, pid: nat): (r: State<M>)
    requires s.Shape() && i < s.N() && Pending(s.procs[i])
    requires s.procs[i].PendingWait? ==> s.procs[i].waitIdx < 2
    ensures r.Shape() && r.N() == s.N()
  {
    var slot := InitSlotAsCopy(s.slots[i], pid, s.procs[i].parent);
    match s.procs[i]
    case PendingStart(m, _) => s.(slots := s.slots[i := slot], procs := s.procs[i := Outside(m)])
    case PendingDrain(l, _) => s.(slots := s.slots[i := slot], procs := s.procs[i := Blocked(l, true)])
    case PendingWait(l, _, w) =>
      s.(slots := s.slots[i := slot.(waitIdx := s.curWaitIdx)],
         condWaitCnt := s.condWaitCnt[w := s.condWaitCnt[w] + 1],
         restoring := false,
         procs := s.procs[i := Blocked(l, true)])
  }

  predicate Pending<M>(p: Phase<M>) {
    p.PendingStart? || p.PendingDrain? || p.PendingWait?
  }

  /** A watchdog acts only when no replica is still on its way out of the barrier. */
  ghost predicate Timely<M>(s: State<M>, i: nat, timedOut: bool)
    requires s.Shape() && i < s.N() && s.procs[i].Blocked?
  {
    (s.procs[i].loc.expired || timedOut) && s.slots[i].waitIdx >= 0 ==> NoDrainers(s)
  }

  ghost predicate NoDrainers<M>(s: State<M>)
    requires s.Shape()
  {
    forall j | 0 <= j < s.N() :: !Draining(s, j)
  }

  ghost predicate Enabled<M>(s: State<M>, step: Step<M>)
    requires s.Shape()
  {
    step.i < s.N() &&
    var p := s.procs[step.i];
    match step
    case Compute(_, _) => p.Outside?
    case Enter(_, c) => p.Outside? && CallOk(c.action, c.who, s.N())
    case Wake(i, timedOut) => p.Blocked? && Running(s, i) && Timely(s, i, timedOut)
    case Install(_, pid) =>
      && Pending(p) && (p.PendingWait? ==> p.waitIdx < 2)
      && (!p.PendingStart? ==> LocalOk(p.loc, s.N()))
      && pid > 0 && forall j | 0 <= j < s.N() :: s.slots[j].pid != pid
    case Crash(_) => p.Outside?
  }

  ghost function Apply<M>(s: State<M>, step: Step<M>): (r: State<M>)
    requires s.Shape() && Enabled(s, step)
    ensures r.Shape() && r.N() == s.N()
  {
    match step
    case Compute(i, m) => s.(procs := s.procs[i := Outside(m)])
    case Enter(i, c) => RunLoop(Arrive(s, i, c), i)
    case Wake(i, timedOut) => RunLoop(Resume(s, i, timedOut), i)
    case Install(i, pid) =>
      if s.procs[i].PendingStart? then Installed(s, i, pid)
      else if s.procs[i].PendingDrain? then Leave(Installed(s, i, pid), i)
      else RunLoop(Installed(s, i, pid), i)
    case Crash(i) => s.(procs := s.procs[i := Exited])
  }

  /** Right after startup: slot 0 is installed, the other replicas are forked but have not run yet. */
  ghost predicate Init<M>(s: State<M>) {
    && s.Shape() && s.curWaitIdx == 0 && s.condWaitCnt == [0, 0] && !s.restoring && s.releases == 0
    && s.slots[0].pid > 0 && s.slots[0].waitIdx == -1 && s.procs[0].Outside?
    && (forall i | 1 <= i < s.N() :: s.slots[i] == ZERO_SLOT && s.procs[i].PendingStart?)
    && (forall i | 0 <= i < s.N() :: s.left[i] == 0)
  }

  /** A run: it starts right after startup, and each state follows from the one before by an enabled step. */
  ghost predicate IsRun<M>(run: seq<State<M>>, steps: seq<Step<M>>) {
    && |run| == |steps| + 1 && Init(run[0])
    && forall k | 0 <= k < |steps| :: run[k].Shape() && Enabled(run[k], steps[k])
         && run[k + 1] == Apply(run[k], steps[k])
  }
}
