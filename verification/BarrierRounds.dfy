/** What the barrier promises: counters conserved, rounds separated, one release per round, a faulted
    voter or a dead replica replaced - and where the watchdog does not keep its promise. */
module BarrierRounds {
  import opened Compare
  import opened Barrier
  import opened BarrierInv

  // ----- Closed forms of a section

  /** The round is complete and process `me` would let everybody go. */
  ghost predicate CanRelease<M>(s: State<M>, me: nat)
    requires Running(s, me)
  {
    var l := s.procs[me].loc;
    && s.condWaitCnt[l.waitIdx] == s.N()
    && (l.action.NoAction? || Eligible(l.who, me))
    && var o := RunAction(s.slots, me, l.action); (o.Succeeded? || o.Replacing?)
  }

  lemma CompleteNoneIdle<M>(s: State<M>)
    requires Inv(s) && s.condWaitCnt[s.curWaitIdx] == s.N()
    ensures FirstIdle(s.slots, 0) == s.N() && !s.restoring
  {
    CompleteAllWait(s);
    if FirstIdle(s.slots, 0) < s.N() {
      assert Waiting(s, FirstIdle(s.slots, 0));
    }
  }

  lemma CheckWatchdogForm<M>(s: State<M>, me: nat)
    requires Inv(s) && Running(s, me) && Waiting(s, me)
    requires s.procs[me].loc.expired ==> NoDrainers(s)
    ensures FirstIdle(s.slots, 0) != me
    ensures CheckWatchdog(s, me) ==
      if !s.procs[me].loc.expired || s.restoring then Block(s, me)
      else if s.N() - s.condWaitCnt[s.curWaitIdx] > 1 || FirstIdle(s.slots, 0) == s.N() then Quit(s, me)
      else Block(Fork(s, me, FirstIdle(s.slots, 0)), me)
  {
    AtCurrentIndex(s, me);
    if s.condWaitCnt[s.curWaitIdx] == s.N() {
      CompleteNoneIdle(s);
    }
    if s.procs[me].loc.expired && !s.restoring && s.N() - s.condWaitCnt[s.curWaitIdx] <= 1
      && FirstIdle(s.slots, 0) < s.N() {
      var t := Fork(s, me, FirstIdle(s.slots, 0));
      assert RunLoop(t, me) == CheckWatchdog(t, me) == Block(t, me);
    }
  }

  lemma CheckWatchdogKeepsRound<M>(s: State<M>, me: nat)
    requires Inv(s) && Running(s, me) && Waiting(s, me)
    requires s.procs[me].loc.expired ==> NoDrainers(s)
    ensures CheckWatchdog(s, me).releases == s.releases && CheckWatchdog(s, me).curWaitIdx == s.curWaitIdx
  {
    CheckWatchdogForm(s, me);
  }

  /** Waking up another process and going on waiting does not release the round. */
  lemma WakingKeepsRound<M>(s: State<M>, me: nat, i: nat)
    requires Inv(s) && Running(s, me) && Waiting(s, me) && i < s.N()
    requires s.procs[me].loc.expired ==> NoDrainers(s)
    ensures var t := CheckWatchdog(SignalOne(s, i, s.procs[me].loc.waitIdx), me);
      t.releases == s.releases && t.curWaitIdx == s.curWaitIdx
  {
    hide Inv, CheckWatchdog;
    WokenInv(s, me, i);
    CheckWatchdogKeepsRound(SignalOne(s, i, s.procs[me].loc.waitIdx), me);
  }

  /** A section of a waiting process releases the round exactly when it can, and never more than once. */
  lemma SectionReleases<M>(s: State<M>, me: nat)
    requires Inv(s) && Running(s, me)
    requires s.procs[me].loc.expired && Waiting(s, me) ==> NoDrainers(s)
    ensures var t := RunLoop(s, me);
      if Waiting(s, me) && CanRelease(s, me)
      then t.releases == s.releases + 1 && t.curWaitIdx == 1 - s.curWaitIdx
      else t.releases == s.releases && t.curWaitIdx == s.curWaitIdx
  {
    assert s.curWaitIdx < 2;
    hide Inv, CheckWatchdog, RunAction;
    if Waiting(s, me) {
      CheckWatchdogKeepsRound(s, me);
      WakingKeepsRound(s, me, Delegate(s.procs[me].loc.who));
      WakingKeepsRound(s, me, FirstOther(me));
    }
  }

  // ----- Safety over whole runs

  /** Counter conservation, in every state of every run. */
  lemma CountersConserved<M>(run: seq<State<M>>, steps: seq<Step<M>>, k: nat)
    requires IsRun(run, steps) && k < |run|
    ensures var s := run[k];
      && s.Shape()
      && s.condWaitCnt[0] == CountIn(s.procs, 0) && s.condWaitCnt[1] == CountIn(s.procs, 1)
      && s.condWaitCnt[0] + s.condWaitCnt[1] <= s.N()
      && forall i | 0 <= i < s.N() && Waiting(s, i) :: s.procs[i].loc.waitIdx == s.curWaitIdx
  {
    RunInv(run, steps, k);
    var s := run[k];
    CountBoth(s.procs);
    forall i | 0 <= i < s.N() && Waiting(s, i) ensures s.procs[i].loc.waitIdx == s.curWaitIdx {
      AtCurrentIndex(s, i);
    }
  }

  /** The assertion at the head of plr_waitBarrier holds, with room for the caller. */
  lemma EntryAssertion<M>(s: State<M>, i: nat)
    requires Inv(s) && i < s.N() && s.procs[i].Outside?
    ensures s.condWaitCnt[s.curWaitIdx] < s.N()
  {
    CountFull(s.procs, s.curWaitIdx);
    assert !In(s.procs[i], s.curWaitIdx);
  }

  /** The number of rounds that the process in slot i has entered. */
  ghost function Entered<M>(s: State<M>, i: nat): nat
    requires s.Shape() && i < s.N()
  {
    s.left[i] + if s.procs[i].Blocked? || s.procs[i].PendingDrain? then 1 else 0
  }

  /** No replica has left a round that another has not entered; completed rounds differ by at most one. */
  lemma RoundsSeparated<M>(run: seq<State<M>>, steps: seq<Step<M>>, k: nat)
    requires IsRun(run, steps) && k < |run|
    ensures var s := run[k];
      && s.Shape()
      && forall i, j | 0 <= i < s.N() && 0 <= j < s.N() ::
           s.left[i] <= Entered(s, j) && s.left[i] <= s.left[j] + 1
  {
    RunInv(run, steps, k);
    var s := run[k];
    forall i, j | 0 <= i < s.N() && 0 <= j < s.N()
      ensures s.left[i] <= Entered(s, j) && s.left[i] <= s.left[j] + 1
    {
      assert SlotOk(s, i) && SlotOk(s, j);
    }
  }

  /** A wait index is used again only when nobody is left there, and a round is released, once, only when
      everybody has entered it. A child forked by the vote returns from the same call without a release. */
  lemma OneReleasePerRound<M>(s: State<M>, step: Step<M>)
    requires Inv(s) && Enabled(s, step)
    ensures var t := Apply(s, step);
      && s.releases <= t.releases <= s.releases + 1
      && t.curWaitIdx == t.releases % 2
      && (t.releases > s.releases ==>
           && s.condWaitCnt[1 - s.curWaitIdx] == 0
           && (forall j | 0 <= j < s.N() && j != step.i :: Waiting(s, j)))
      && (step.Install? && s.procs[step.i].PendingDrain? ==>
           && t.releases == s.releases && t.procs[step.i] == Outside(s.procs[step.i].loc.mem)
           && t.condWaitCnt[s.procs[step.i].loc.waitIdx] == s.condWaitCnt[s.procs[step.i].loc.waitIdx] - 1)
  {
    StepInv(s, step);
    hide RunLoop, SlotOk;
    match step
    case Compute(i, m) =>
    case Crash(i) =>
    case Enter(i, c) => EnterReleases(s, i, c);
    case Wake(i, timedOut) => WakeReleases(s, i, timedOut);
    case Install(i, pid) => InstallReleases(s, i, pid);
  }

  lemma EnterReleases<M>(s: State<M>, i: nat, c: BarrierCall<M>)
    requires Inv(s) && Enabled(s, Enter(i, c))
    ensures ReleasedByLast(s, RunLoop(Arrive(s, i, c), i), i)
  {
    var t := Arrive(s, i, c);
    ArriveInv(s, i, c);
    ReleaseByLast(t, i);
    hide Inv;
    assert forall j | 0 <= j < s.N() && j != i :: Waiting(t, j) ==> Waiting(s, j);
  }

  lemma WakeReleases<M>(s: State<M>, i: nat, timedOut: bool)
    requires Inv(s) && Enabled(s, Wake(i, timedOut))
    ensures ReleasedByLast(s, RunLoop(Resume(s, i, timedOut), i), i)
  {
    var t := Resume(s, i, timedOut);
    ResumeInv(s, i, timedOut);
    ReleaseByLast(t, i);
    hide Inv;
    assert forall j | 0 <= j < s.N() && j != i :: Waiting(t, j) ==> Waiting(s, j);
  }

  lemma InstallReleases<M>(s: State<M>, i: nat, pid: nat)
    requires Inv(s) && Enabled(s, Install(i, pid))
    ensures ReleasedByLast(s, Apply(s, Install(i, pid)), i)
    ensures s.procs[i].PendingDrain? ==>
      var t := Apply(s, Install(i, pid));
      && t.releases == s.releases && t.procs[i] == Outside(s.procs[i].loc.mem)
      && t.condWaitCnt[s.procs[i].loc.waitIdx] == s.condWaitCnt[s.procs[i].loc.waitIdx] - 1
  {
    InstalledInv(s, i, pid);
    if s.procs[i].PendingWait? {
      assert SlotOk(s, i);
      ReleaseByLast(Installed(s, i, pid), i);
      assert forall j | 0 <= j < s.N() && j != i :: Waiting(s, j);
    }
  }

  ghost predicate ReleasedByLast<M>(s: State<M>, t: State<M>, i: nat)
    requires s.Shape() && i < s.N()
  {
    && s.releases <= t.releases <= s.releases + 1
    && (t.releases > s.releases ==>
         s.condWaitCnt[1 - s.curWaitIdx] == 0 && forall j | 0 <= j < s.N() && j != i :: Waiting(s, j))
  }

  lemma ReleaseByLast<M>(s: State<M>, me: nat)
    requires Inv(s) && Running(s, me)
    requires s.procs[me].loc.expired && Waiting(s, me) ==> NoDrainers(s)
    ensures var t := RunLoop(s, me);
      && s.releases <= t.releases <= s.releases + 1
      && (t.releases > s.releases ==>
           s.condWaitCnt[1 - s.curWaitIdx] == 0 && forall j | 0 <= j < s.N() :: Waiting(s, j))
  {
    hide RunLoop, RunAction, SlotOk, RestoringOk, DistinctPids;
    SectionReleases(s, me);
    if Waiting(s, me) && CanRelease(s, me) {
      AtCurrentIndex(s, me);
      CompleteAllWait(s);
      CountBoth(s.procs);
    }
  }

  // ----- The vote

  /** At least two of the three replicas present the arguments `a`. */
  ghost predicate Majority(slots: seq<Slot>, a: SyscallArgs) {
    |slots| == 3 && exists i, j | 0 <= i < j < 3 :: slots[i].args == a && slots[j].args == a
  }

  /** A complete round of votes. */
  ghost predicate VoteRound<M>(s: State<M>, me: nat) {
    && s.Shape() && Inv(s) && Running(s, me) && s.N() == 3 && s.condWaitCnt[s.curWaitIdx] == 3
    && forall i | 0 <= i < 3 :: s.procs[i].Blocked? && s.procs[i].loc.action == Vote
  }

  /** Slot i holds the arguments `a`, or will when its child takes the lock. */
  ghost predicate Holds<M>(s: State<M>, i: nat, a: SyscallArgs)
    requires s.Shape() && i < s.N()
  {
    if s.procs[i].PendingDrain? then s.procs[i].parent.args == a else s.slots[i].args == a
  }

  /** A vote by a process of the majority: the round is released, every slot holds the majority arguments,
      and exactly the processes that presented other arguments have been replaced. */
  lemma VoteByGood<M>(s: State<M>, me: nat, a: SyscallArgs)
    requires VoteRound(s, me) && Majority(s.slots, a) && s.slots[me].args == a
    ensures var t := RunLoop(s, me);
      && Inv(t) && t.N() == 3 && t.releases == s.releases + 1
      && forall i | 0 <= i < 3 :: Repaired(s, t, me, a, i)
  {
    RunLoopNoWatchdogInv(s, me);
    VoteVerdict(s.slots, a);
    GoodVoteForm(s, me, a);
    match Judge(Args(s.slots))
    case AllAgree => GoodVoteAllAgree(s, me, a);
    case Faulty(b) => GoodVoteReplaces(s, me, a, b);
    case NoMajority =>
  }

  /** Slot i holds the majority arguments; its process is kept if it presented them, and is else a copy of `me`. */
  ghost predicate Repaired<M>(s: State<M>, t: State<M>, me: nat, a: SyscallArgs, i: nat)
    requires s.Shape() && t.Shape() && s.N() == t.N() && i < s.N() && Running(s, me)
  {
    && Holds(t, i, a)
    && (s.slots[i].args == a ==>
         && t.slots[i].pid == s.slots[i].pid
         && (if i == me then t.procs[i].Outside? else t.procs[i].Blocked?))
    && (s.slots[i].args != a ==>
         t.procs[i].PendingDrain? && t.procs[i].loc == s.procs[me].loc && t.procs[i].parent == s.slots[me])
  }

  lemma GoodVoteAllAgree<M>(s: State<M>, me: nat, a: SyscallArgs)
    requires Running(s, me) && s.N() == 3 && forall i | 0 <= i < 3 :: s.procs[i].Blocked? && s.slots[i].args == a
    ensures var t := Leave(Release(s, s.procs[me].loc.waitIdx), me);
      t.N() == 3 && t.releases == s.releases + 1 && forall i | 0 <= i < 3 :: Repaired(s, t, me, a, i)
  {}

  lemma GoodVoteReplaces<M>(s: State<M>, me: nat, a: SyscallArgs, b: nat)
    requires Running(s, me) && s.N() == 3 && b < 3 && b != me
    requires forall i | 0 <= i < 3 :: s.procs[i].Blocked? && (s.slots[i].args == a <==> i != b)
    ensures var t := Leave(Release(Replace(s, me, b, PendingDrain(s.procs[me].loc, s.slots[me])),
      s.procs[me].loc.waitIdx), me);
      t.N() == 3 && t.releases == s.releases + 1 && forall i | 0 <= i < 3 :: Repaired(s, t, me, a, i)
  {}

  /** The verdict names the one slot that is not in the majority. */
  lemma VoteVerdict(slots: seq<Slot>, a: SyscallArgs)
    requires Majority(slots, a)
    ensures var v := Judge(Args(slots));
      && !v.NoMajority?
      && forall i | 0 <= i < 3 :: slots[i].args == a <==> v != Faulty(i)
  {
    var b := Args(slots);
    assert b[0] == slots[0].args && b[1] == slots[1].args && b[2] == slots[2].args;
  }

  /** The runner of the action in a complete round. */
  lemma RunnerForm<M>(s: State<M>, me: nat)
    requires Running(s, me) && s.slots[me].waitIdx >= 0 && s.condWaitCnt[s.procs[me].loc.waitIdx] == s.N()
    requires s.procs[me].loc.action.NoAction? || Eligible(s.procs[me].loc.who, me)
    ensures var l := s.procs[me].loc;
      match RunAction(s.slots, me, l.action)
      case Failed => RunLoop(s, me) == Quit(s, me)
      case Succeeded => RunLoop(s, me) == Leave(Release(s, l.waitIdx), me)
      case Replacing(idx) => RunLoop(s, me) ==
        Leave(Release(Replace(s, me, idx, PendingDrain(l, s.slots[me])), l.waitIdx), me)
      case Rerun => RunLoop(s, me) == CheckWatchdog(SignalOne(s, FirstOther(me), l.waitIdx), me)
  {
    hide RunAction, CheckWatchdog;
  }

  lemma GoodVoteForm<M>(s: State<M>, me: nat, a: SyscallArgs)
    requires VoteRound(s, me) && Majority(s.slots, a) && s.slots[me].args == a
    ensures var l := s.procs[me].loc;
      match Judge(Args(s.slots))
      case AllAgree => RunLoop(s, me) == Leave(Release(s, l.waitIdx), me)
      case Faulty(b) => b < 3 && b != me
        && RunLoop(s, me) == Leave(Release(Replace(s, me, b, PendingDrain(l, s.slots[me])), l.waitIdx), me)
      case NoMajority => false
  {
    VoteVerdict(s.slots, a);
    ReadyToRun(s, me);
    RunnerForm(s, me);
    hide Inv, Judge, Args, RunLoop, Majority, Leave, Release, Replace;
  }

  lemma ReadyToRun<M>(s: State<M>, me: nat)
    requires VoteRound(s, me)
    ensures s.slots[me].waitIdx >= 0 && s.condWaitCnt[s.procs[me].loc.waitIdx] == s.N()
    ensures s.procs[me].loc.action == Vote && Eligible(s.procs[me].loc.who, me)
  {
    CompleteAllWait(s);
    assert Waiting(s, me);
  }

  lemma RunLoopNoWatchdogInv<M>(s: State<M>, me: nat)
    requires Inv(s) && Running(s, me) && s.condWaitCnt[s.curWaitIdx] == s.N()
    ensures Inv(RunLoop(s, me))
  {
    CompleteAllWait(s);
    forall j | 0 <= j < s.N() ensures !Draining(s, j) {
      assert Waiting(s, j);
    }
    RunLoopInv(s, me);
  }

  /** A vote by the faulted process changes nothing but wakes up a process of the majority, whose vote then
      repairs everything. */
  lemma VoteByBad<M>(s: State<M>, me: nat, a: SyscallArgs, timedOut: bool)
    requires VoteRound(s, me) && Majority(s.slots, a) && s.slots[me].args != a && !s.procs[me].loc.expired
    ensures var t := RunLoop(s, me); var g := if me == 0 then 1 else 0;
      && t == Block(SignalOne(s, g, s.procs[me].loc.waitIdx), me) && Inv(t)
      && g < 3 && t.slots[g].args == a && t.procs[g].Blocked? && t.procs[g].signalled
      && var u := Resume(t, g, timedOut);
        && u.slots == s.slots && Running(u, g)
        && var v := RunLoop(u, g);
          && Inv(v) && v.N() == 3 && v.releases == s.releases + 1
          && forall i | 0 <= i < 3 :: Repaired(u, v, g, a, i)
  {
    var g := FirstOther(me);
    var t := RunLoop(s, me);
    BadVoteForm(s, me, a);
    assert s.Shape() && s.N() == 3 && Running(s, me) && forall i | 0 <= i < 3 :: s.procs[i].Blocked?;
    var u := Resume(t, g, timedOut);
    assert Majority(u.slots, a);
    hide RunLoop, Majority, Inv;
    PassedOn(s, me, g, timedOut);
    StirredVoteRound(s, t, me);
    StirredVoteRound(t, u, g);
    VoteByGood(u, g, a);
    hide VoteRound, Repaired, Running, Block, SignalOne, Resume;
  }

  lemma PassedOn<M>(s: State<M>, me: nat, g: nat, timedOut: bool)
    requires Running(s, me) && s.N() == 3 && g < 3 && g != me && forall i | 0 <= i < 3 :: s.procs[i].Blocked?
    requires s.procs[g].loc.waitIdx == s.procs[me].loc.waitIdx
    ensures var t := Block(SignalOne(s, g, s.procs[me].loc.waitIdx), me);
      var u := Resume(t, g, timedOut);
      && t == s.(procs := t.procs) && u == t.(procs := u.procs) && t.procs[g].signalled
      && (forall i | 0 <= i < 3 :: t.procs[i].Blocked? && SameCall(s.procs[i].loc, t.procs[i].loc))
      && (forall i | 0 <= i < 3 :: u.procs[i].Blocked? && SameCall(t.procs[i].loc, u.procs[i].loc))
  {}

  lemma BadVoteForm<M>(s: State<M>, me: nat, a: SyscallArgs)
    requires VoteRound(s, me) && Majority(s.slots, a) && s.slots[me].args != a && !s.procs[me].loc.expired
    ensures var g := FirstOther(me);
      && g < 3 && g != me && s.slots[g].args == a
      && RunLoop(s, me) == Block(SignalOne(s, g, s.procs[me].loc.waitIdx), me)
      && s.procs[g].loc.waitIdx == s.procs[me].loc.waitIdx
  {
    VoteVerdict(s.slots, a);
    ReadyToRun(s, me);
    RunnerForm(s, me);
    CompleteAllWait(s);
    AtCurrentIndex(s, me);
    hide Inv, Judge, Args, RunLoop, Majority;
  }

  lemma StirredVoteRound<M>(s: State<M>, t: State<M>, me: nat)
    requires VoteRound(s, me) && t == s.(procs := t.procs) && |t.procs| == |s.procs|
    requires forall i | 0 <= i < s.N() :: t.procs[i].Blocked? && SameCall(s.procs[i].loc, t.procs[i].loc)
    ensures forall i | 0 <= i < 3 :: VoteRound(t, i)
  {
    CompleteAllWait(s);
    forall i | 0 <= i < 3 ensures s.slots[i].waitIdx >= 0 {
      assert Waiting(s, i);
    }
    SignalInv(s, t);
    CompleteAllWait(t);
    forall i | 0 <= i < 3 ensures Running(t, i) {
      assert SlotOk(t, i);
    }
  }

  /** A vote that releases the round leaves the right arguments in all slots exactly when they had the majority: two
      replicas that are wrong in the same way get the good one replaced. */
  lemma VoteRightIff<M>(s: State<M>, me: nat, right: SyscallArgs)
    requires VoteRound(s, me) && RunLoop(s, me).releases == s.releases + 1
    ensures var t := RunLoop(s, me);
      (forall i | 0 <= i < 3 :: Holds(t, i, right)) <==> Majority(s.slots, right)
  {
    var t := RunLoop(s, me);
    var a := s.slots[me].args;
    ReleasedByMajority(s, me);
    VoteHolds(s, me, a);
    hide RunLoop, VoteRound, Majority;
    if forall i | 0 <= i < 3 :: Holds(t, i, right) {
      assert Holds(t, me, right) && Holds(t, me, a);
    }
    if Majority(s.slots, right) {
      MajorityUnique(s.slots, a, right);
    }
  }

  lemma VoteHolds<M>(s: State<M>, me: nat, a: SyscallArgs)
    requires VoteRound(s, me) && Majority(s.slots, a) && s.slots[me].args == a
    ensures RunLoop(s, me).N() == 3 && forall i | 0 <= i < 3 :: Holds(RunLoop(s, me), i, a)
  {
    VoteByGood(s, me, a);
    hide RunLoop, VoteRound, Majority, Holds;
    forall i | 0 <= i < 3 ensures Holds(RunLoop(s, me), i, a) {
      assert Repaired(s, RunLoop(s, me), me, a, i);
    }
  }

  lemma MajorityUnique(slots: seq<Slot>, a: SyscallArgs, b: SyscallArgs)
    requires Majority(slots, a) && Majority(slots, b)
    ensures a == b
  {}

  lemma ReleasedByMajority<M>(s: State<M>, me: nat)
    requires VoteRound(s, me) && RunLoop(s, me).releases == s.releases + 1
    ensures Majority(s.slots, s.slots[me].args)
  {
    ReadyToRun(s, me);
    CompleteAllWait(s);
    forall j | 0 <= j < 3 ensures !Draining(s, j) {
      assert Waiting(s, j);
    }
    SectionReleases(s, me);
    var b := Args(s.slots);
    assert b[0] == s.slots[0].args && b[1] == s.slots[1].args && b[2] == s.slots[2].args;
  }

  /** A round of votes fails exactly when no two replicas agree. */
  lemma VoteFailsIff<M>(s: State<M>, me: nat)
    requires VoteRound(s, me) && !s.procs[me].loc.expired
    ensures RunLoop(s, me).procs[me].Exited? <==> forall a :: !Majority(s.slots, a)
    ensures RunLoop(s, me).procs[me].Exited? ==> RunLoop(s, me) == Quit(s, me)
  {
    ReadyToRun(s, me);
    RunnerForm(s, me);
    UnexpiredInCompleteRound(s, me);
    hide Inv, RunLoop, CheckWatchdog;
    var b := Args(s.slots);
    assert b[0] == s.slots[0].args && b[1] == s.slots[1].args && b[2] == s.slots[2].args;
    if Judge(b).NoMajority? {
      forall a ensures !Majority(s.slots, a) {
      }
    } else {
      assert Majority(s.slots, s.slots[0].args) || Majority(s.slots, s.slots[1].args);
    }
  }

  /** The child of the vote takes over the slot and the place in the program of its parent. */
  lemma ReplacementInstalled<M>(s: State<M>, i: nat, pid: nat, a: SyscallArgs)
    requires Inv(s) && Enabled(s, Install(i, pid)) && s.procs[i].PendingDrain? && Holds(s, i, a)
    ensures var t := Apply(s, Install(i, pid));
      && Inv(t) && t.slots[i].args == a && CopyOf(t.slots[i], s.procs[i].parent, pid) && t.slots[i].waitIdx == -1
      && t.procs[i] == Outside(s.procs[i].loc.mem)
  {
    StepInv(s, Install(i, pid));
    InstalledInv(s, i, pid);
    assert SlotOk(s, i);
  }

  // ----- The watchdog

  /** One replica is not at the barrier, and is not on its way out of it either. */
  ghost predicate OneMissing<M>(s: State<M>, t: nat)
    requires s.Shape()
  {
    t < s.N() && (s.procs[t].Outside? || s.procs[t].Exited?) && s.condWaitCnt[s.curWaitIdx] == s.N() - 1
  }

  /** A process whose timer expires, or has expired before in the same call, forks one replacement, for the missing
      replica and from itself; no other process is touched, and the one that is killed is a real process. */
  lemma WatchdogForks<M>(s: State<M>, i: nat, timedOut: bool, t: nat)
    requires Inv(s) && Enabled(s, Wake(i, timedOut)) && Waiting(s, i) && !s.restoring && OneMissing(s, t)
    requires timedOut || s.procs[i].loc.expired
    ensures var u := Apply(s, Wake(i, timedOut));
      && Inv(u) && u.restoring && u.releases == s.releases && s.slots[t].pid > 0
      && t != i && u == Block(Fork(Resume(s, i, timedOut), i, t), i)
      && u.procs[t].PendingWait? && u.procs[t].parent == s.slots[i]
           && u.procs[t].loc == s.procs[i].loc.(expired := true)
      && forall j | 0 <= j < s.N() && j != t :: Waiting(u, j) && u.slots[j] == s.slots[j]
  {
    StepInv(s, Wake(i, timedOut));
    ResumeInv(s, i, timedOut);
    var r := Resume(s, i, timedOut);
    MissingSlot(s, t);
    hide Inv, RunLoop, CheckWatchdog;
    WatchdogTarget(r, i);
    assert FirstIdle(r.slots, 0) == t by {
      assert r.slots[t].waitIdx < 0 && !Waiting(r, t);
    }
    AtCurrentIndex(r, i);
    CheckWatchdogForm(r, i);
    IncompleteRound(r, i);
  }

  lemma MissingSlot<M>(s: State<M>, t: nat)
    requires Inv(s) && OneMissing(s, t)
    ensures s.slots[t].pid > 0 && s.slots[t].waitIdx == -1
  {
    assert SlotOk(s, t);
  }

  lemma IncompleteRound<M>(s: State<M>, me: nat)
    requires Running(s, me) && s.slots[me].waitIdx >= 0 && s.condWaitCnt[s.procs[me].loc.waitIdx] != s.N()
    ensures RunLoop(s, me) == CheckWatchdog(s, me)
  {}

  /** When the watchdog's child takes the lock the round is complete again; it releases the round, and ends the
      restoration, exactly when it is entitled to run the action and the action succeeds. Otherwise it exits. */
  lemma WatchdogChild<M>(s: State<M>, i: nat, pid: nat)
    requires Inv(s) && Enabled(s, Install(i, pid)) && s.procs[i].PendingWait?
    ensures var u := Installed(s, i, pid);
      var t := Apply(s, Install(i, pid));
      && Inv(t) && !t.restoring && Running(u, i)
      && (if CanRelease(u, i)
          then t.releases == s.releases + 1 && t.procs[i] == Outside(s.procs[i].loc.mem)
          else t.releases == s.releases && t.procs[i].Exited?)
  {
    StepInv(s, Install(i, pid));
    WatchdogChildInv(s, i, pid);
    var u := Installed(s, i, pid);
    assert u.procs[i].loc.expired by { assert SlotOk(s, i); }
    AtCurrentIndex(u, i);
    ExpiredInCompleteRound(u, i);
  }

  /** A process whose timer has expired leaves a complete round - or exits if it cannot release it. */
  lemma ExpiredInCompleteRound<M>(s: State<M>, me: nat)
    requires Inv(s) && Running(s, me) && Waiting(s, me) && s.condWaitCnt[s.curWaitIdx] == s.N()
      && s.procs[me].loc.expired
    ensures var t := RunLoop(s, me);
      && Inv(t) && !t.restoring
      && (if CanRelease(s, me)
          then t.releases == s.releases + 1 && t.procs[me] == Outside(s.procs[me].loc.mem)
          else t.releases == s.releases && t.procs[me].Exited?)
  {
    var l := s.procs[me].loc;
    CompleteNoneIdle(s);
    RunLoopNoWatchdogInv(s, me);
    AtCurrentIndex(s, me);
    ExpiredWakerExits(s, me, Delegate(l.who));
    ExpiredWakerExits(s, me, FirstOther(me));
    hide Inv, CheckWatchdog, RunAction, SignalOne;
  }

  lemma ExpiredWakerExits<M>(s: State<M>, me: nat, i: nat)
    requires Inv(s) && Running(s, me) && Waiting(s, me) && s.condWaitCnt[s.curWaitIdx] == s.N()
      && s.procs[me].loc.expired
    requires i < s.N()
    ensures var u := SignalOne(s, i, s.procs[me].loc.waitIdx);
      Running(u, me) && CheckWatchdog(u, me) == Quit(u, me) && u.restoring == s.restoring && u.releases == s.releases
  {
    var u := SignalOne(s, i, s.procs[me].loc.waitIdx);
    CompleteAllWait(s);
    forall j | 0 <= j < s.N() ensures !Draining(s, j) {
      assert Waiting(s, j);
    }
    WokenInv(s, me, i);
    CompleteNoneIdle(u);
    CheckWatchdogForm(u, me);
  }

  /** Recovery at the vote barrier, always: the child and the process that forked it present the same arguments, so the
      child's first section ends the round and the restoration, and their arguments win. A third process with others is
      replaced. */
  lemma WatchdogRecovers<M>(s: State<M>, i: nat, pid: nat)
    requires Inv(s) && Enabled(s, Install(i, pid)) && s.procs[i].PendingWait? && s.procs[i].loc.action.Vote?
    ensures var u := Installed(s, i, pid);
      var t := Apply(s, Install(i, pid));
      && Inv(t) && !t.restoring && t.releases == s.releases + 1 && t.N() == 3 && Running(u, i)
      && u.slots == s.slots[i := u.slots[i]] && CopyOf(u.slots[i], s.procs[i].parent, pid)
      && t.slots[i] == u.slots[i].(waitIdx := -1) && t.procs[i] == Outside(s.procs[i].loc.mem)
      && forall j | 0 <= j < 3 :: Repaired(u, t, i, s.procs[i].parent.args, j)
  {
    StepInv(s, Install(i, pid));
    var u := Installed(s, i, pid);
    var a := s.procs[i].parent.args;
    var j := WatchdogChildReady(s, i, pid);
    hide Inv, Enabled;
    VoteByChild(u, i, a, j);
  }

  lemma WatchdogChildReady<M>(s: State<M>, i: nat, pid: nat) returns (j: nat)
    requires Inv(s) && Enabled(s, Install(i, pid)) && s.procs[i].PendingWait? && s.procs[i].loc.action.Vote?
    ensures var u := Installed(s, i, pid);
      && Running(u, i) && u.N() == 3 && !u.restoring && u.releases == s.releases
      && u.slots[i].waitIdx >= 0 && u.condWaitCnt[u.procs[i].loc.waitIdx] == 3 && u.procs[i].loc == s.procs[i].loc
      && (forall k | 0 <= k < 3 :: u.procs[k].Blocked?)
      && j < 3 && j != i && u.slots[i].args == u.slots[j].args == s.procs[i].parent.args
      && CopyOf(u.slots[i], s.procs[i].parent, pid)
  {
    assert SlotOk(s, i);
    j :| 0 <= j < s.N() && Twin(s, i, j);
    WatchdogChildInv(s, i, pid);
    var u := Installed(s, i, pid);
    AtCurrentIndex(u, i);
    forall k | 0 <= k < s.N() && k != i ensures u.procs[k].Blocked? {
      assert Waiting(s, k);
    }
  }

  lemma VoteByChild<M>(u: State<M>, i: nat, a: SyscallArgs, j: nat)
    requires Running(u, i) && u.N() == 3 && !u.restoring && u.slots[i].waitIdx >= 0 && u.procs[i].loc.action.Vote?
    requires u.condWaitCnt[u.procs[i].loc.waitIdx] == 3 && forall k | 0 <= k < 3 :: u.procs[k].Blocked?
    requires j < 3 && j != i && u.slots[i].args == u.slots[j].args == a
    ensures var t := RunLoop(u, i);
      && !t.restoring && t.releases == u.releases + 1 && t.procs[i] == Outside(u.procs[i].loc.mem)
      && t.slots[i] == u.slots[i].(waitIdx := -1)
      && forall k | 0 <= k < 3 :: Repaired(u, t, i, a, k)
  {
    hide RunLoop, Judge, Args, Repaired, Leave, Release, Replace;
    RunnerForm(u, i);
    assert Majority(u.slots, a) by {
      var x, y := if i < j then i else j, if i < j then j else i;
      assert x < y && u.slots[x].args == a && u.slots[y].args == a;
    }
    VoteVerdict(u.slots, a);
    hide Majority;
    assert !Judge(Args(u.slots)).NoMajority? && Judge(Args(u.slots)) != Faulty(i);
    match Judge(Args(u.slots))
    case AllAgree =>
      GoodVoteAllAgree(u, i, a);
      ChildLeaves(u, i);
    case Faulty(b) =>
      GoodVoteReplaces(u, i, a, b);
      ReplacingLeaves(u, i, b);
  }

  lemma ChildLeaves<M>(u: State<M>, i: nat)
    requires Running(u, i)
    ensures var t := Leave(Release(u, u.procs[i].loc.waitIdx), i);
      && t.procs[i] == Outside(u.procs[i].loc.mem) && t.restoring == u.restoring
      && t.slots[i] == u.slots[i].(waitIdx := -1)
  {}

  lemma ReplacingLeaves<M>(u: State<M>, i: nat, b: nat)
    requires Running(u, i) && b < u.N() && b != i
    ensures var l := u.procs[i].loc;
      var t := Leave(Release(Replace(u, i, b, PendingDrain(l, u.slots[i])), l.waitIdx), i);
      && t.procs[i] == Outside(l.mem) && t.restoring == u.restoring && t.slots[i] == u.slots[i].(waitIdx := -1)
  {}

  /** While a watchdog's child is pending nobody is on the way out of the barrier, and the round is incomplete. */
  lemma RestoringNoDrainers<M>(s: State<M>)
    requires Inv(s) && s.restoring
    ensures NoDrainers(s) && s.condWaitCnt[s.curWaitIdx] != s.N()
  {
    var i :| 0 <= i < s.N() && s.procs[i].PendingWait?;
    assert forall j | 0 <= j < s.N() && j != i :: Waiting(s, j);
    CountFull(s.procs, s.curWaitIdx);
    assert !In(s.procs[i], s.curWaitIdx);
    forall j | 0 <= j < s.N() ensures !Draining(s, j) {
      assert j != i ==> Waiting(s, j);
    }
  }

  /** A process that wakes up then waits on, whether its timer has expired or not. */
  lemma RestoringBlocks<M>(s: State<M>, i: nat, timedOut: bool)
    requires Inv(s) && s.restoring && Enabled(s, Wake(i, timedOut)) && Waiting(s, i)
    ensures Inv(Apply(s, Wake(i, timedOut))) && Apply(s, Wake(i, timedOut)) == Block(Resume(s, i, timedOut), i)
  {
    var r := Resume(s, i, timedOut);
    StepInv(s, Wake(i, timedOut));
    ResumeInv(s, i, timedOut);
    RestoringNoDrainers(r);
    AtCurrentIndex(r, i);
    CheckWatchdogForm(r, i);
    hide Inv;
    assert RunLoop(r, i) == Block(r, i);
  }

  /** Until it takes the lock nothing happens but wake-ups: all others wait on. */
  lemma RestoringWaits<M>(s: State<M>, step: Step<M>, t: nat)
    requires Inv(s) && Enabled(s, step) && t < s.N() && s.procs[t].PendingWait? && !(step.Install? && step.i == t)
    ensures var u := Apply(s, step);
      && Inv(u) && u.releases == s.releases && u.restoring && u.procs[t] == s.procs[t]
      && forall j | 0 <= j < s.N() && j != t :: u.procs[j].Blocked?
  {
    hide Inv, Apply;
    AllElseWait(s, t);
    assert step.i != t;
    assert Waiting(s, step.i);
    match step
    case Wake(i, timedOut) =>
      RestoringBlocks(s, i, timedOut);
      forall j | 0 <= j < s.N() && j != t ensures Apply(s, step).procs[j].Blocked? {
        assert Waiting(s, j);
      }
  }

  lemma AllElseWait<M>(s: State<M>, t: nat)
    requires Inv(s) && t < s.N() && s.procs[t].PendingWait?
    ensures s.Shape() && s.restoring && forall j | 0 <= j < s.N() && j != t :: Waiting(s, j)
  {}

  /** In a master barrier the watchdog's replacement of a slave always exits: only slot 0 recovers. */
  lemma WatchdogMasterBarrier<M>(s: State<M>, i: nat, pid: nat)
    requires Inv(s) && Enabled(s, Install(i, pid)) && s.procs[i].PendingWait?
    requires s.procs[i].loc.action == Effect(true) && s.procs[i].loc.who == MasterOnly
    ensures var t := Apply(s, Install(i, pid));
      && t.releases == (if i == 0 then s.releases + 1 else s.releases)
      && (t.procs[i].Exited? <==> i != 0)
  {
    WatchdogChild(s, i, pid);
    WatchdogChildInv(s, i, pid);
    AtCurrentIndex(Installed(s, i, pid), i);
  }

  /** After its exit the round is incomplete again, with the same process missing, and everybody else waits on. */
  lemma MasterChildExits<M>(s: State<M>, i: nat, pid: nat)
    requires Inv(s) && Enabled(s, Install(i, pid)) && s.procs[i].PendingWait? && i != 0
    requires s.procs[i].loc.action == Effect(true) && s.procs[i].loc.who == MasterOnly
    ensures var t := Apply(s, Install(i, pid));
      && Inv(t) && !t.restoring && t.procs[i].Exited? && OneMissing(t, i) && NoDrainers(t) && t.N() == s.N()
      && forall j | 0 <= j < s.N() && j != i :: Waiting(t, j) && Waiting(s, j) && t.procs[j].loc == s.procs[j].loc
  {
    StepInv(s, Install(i, pid));
    MasterChildReady(s, i, pid);
    var u := Installed(s, i, pid);
    hide Inv;
    ExpiredWakerExits(u, i, 0);
    assert Waiting(u, i);
    MasterChildForm(u, i);
    MasterChildGone(u, i);
  }

  lemma MasterChildReady<M>(s: State<M>, i: nat, pid: nat)
    requires Inv(s) && Enabled(s, Install(i, pid)) && s.procs[i].PendingWait?
    ensures var u := Installed(s, i, pid);
      && Inv(u) && Running(u, i) && u.procs[i].loc == s.procs[i].loc && u.procs[i].loc.expired && !u.restoring
      && u.N() == s.N() && u.procs[i].loc.waitIdx == u.curWaitIdx && u.condWaitCnt[u.curWaitIdx] == u.N()
      && (forall j | 0 <= j < u.N() :: Waiting(u, j))
      && forall j | 0 <= j < u.N() && j != i :: Waiting(s, j) && u.procs[j] == s.procs[j]
  {
    var u := Installed(s, i, pid);
    InstalledInv(s, i, pid);
    assert SlotOk(s, i);
    AllElseWait(s, i);
    CompleteAllWait(u);
    hide Inv, SlotOk;
  }

  lemma MasterChildForm<M>(u: State<M>, i: nat)
    requires Running(u, i) && u.condWaitCnt[u.curWaitIdx] == u.N() && i != 0 && !u.restoring
    requires u.procs[i].loc.action == Effect(true) && u.procs[i].loc.who == MasterOnly
    requires u.procs[i].loc.waitIdx == u.curWaitIdx && Waiting(u, i)
    ensures RunLoop(u, i) == CheckWatchdog(SignalOne(u, 0, u.curWaitIdx), i)
  {}

  lemma MasterChildGone<M>(u: State<M>, i: nat)
    requires Running(u, i) && u.condWaitCnt[u.curWaitIdx] == u.N() && !u.restoring
    requires u.procs[i].loc.waitIdx == u.curWaitIdx && forall j | 0 <= j < u.N() :: Waiting(u, j)
    ensures var t := Quit(SignalOne(u, 0, u.curWaitIdx), i);
      && t.procs[i].Exited? && OneMissing(t, i) && NoDrainers(t) && t.N() == u.N()
      && !t.restoring && forall j | 0 <= j < u.N() && j != i :: Waiting(t, j) && t.procs[j].loc == u.procs[j].loc
  {
    var t := Quit(SignalOne(u, 0, u.curWaitIdx), i);
    forall j | 0 <= j < u.N() ensures !Draining(t, j)
      && (j != i ==> Waiting(t, j) && t.procs[j].loc == u.procs[j].loc)
    {
      assert Waiting(u, j);
    }
  }

  /** ... and a process whose timer has expired in this call forks the next replacement when it wakes up, for whatever
      reason. */
  lemma WatchdogForksAgain<M>(s: State<M>, i: nat, pid: nat, j: nat, timedOut: bool)
    requires Inv(s) && Enabled(s, Install(i, pid)) && s.procs[i].PendingWait? && i != 0
    requires s.procs[i].loc.action == Effect(true) && s.procs[i].loc.who == MasterOnly
    requires j < s.N() && j != i && (timedOut || (s.procs[j].Blocked? && s.procs[j].loc.expired))
    ensures var t := Apply(s, Install(i, pid));
      && Enabled(t, Wake(j, timedOut))
      && var u := Apply(t, Wake(j, timedOut));
        u.restoring && u.releases == s.releases && u.procs[i].PendingWait? && u.procs[i].parent == t.slots[j]
  {
    var t := Apply(s, Install(i, pid));
    MasterChildExits(s, i, pid);
    WatchdogMasterBarrier(s, i, pid);
    hide Apply;
    assert SlotOk(t, j) && Waiting(t, j);
    assert Enabled(t, Wake(j, timedOut));
    hide Inv, Enabled;
    WatchdogForks(t, j, timedOut, i);
  }

  /** Exactly when a section makes its process exit: in a complete round if the action fails, or if its timer has
      expired and it cannot release the round; in an incomplete one if its timer has expired, no child of another
      watchdog is pending, and there is more than one process missing or none with a cleared wait flag. */
  lemma ExitsIff<M>(s: State<M>, me: nat)
    requires Inv(s) && Running(s, me)
    requires s.procs[me].loc.expired && Waiting(s, me) ==> NoDrainers(s)
    ensures RunLoop(s, me).procs[me].Exited? <==>
      var l := s.procs[me].loc;
      && Waiting(s, me)
      && if s.condWaitCnt[s.curWaitIdx] == s.N()
         then !CanRelease(s, me)
              && (l.expired || (Eligible(l.who, me) && RunAction(s.slots, me, l.action).Failed?))
         else l.expired && !s.restoring
              && (s.N() - s.condWaitCnt[s.curWaitIdx] > 1 || FirstIdle(s.slots, 0) == s.N())
  {
    var l := s.procs[me].loc;
    if Waiting(s, me) {
      AtCurrentIndex(s, me);
      if s.condWaitCnt[s.curWaitIdx] != s.N() {
        CheckWatchdogForm(s, me);
        assert RunLoop(s, me) == CheckWatchdog(s, me);
      } else if l.expired {
        ExpiredInCompleteRound(s, me);
      } else {
        hide Inv;
        UnexpiredInCompleteRound(s, me);
      }
    }
  }

  lemma UnexpiredInCompleteRound<M>(s: State<M>, me: nat)
    requires Running(s, me) && s.slots[me].waitIdx >= 0 && s.condWaitCnt[s.procs[me].loc.waitIdx] == s.N()
    requires !s.procs[me].loc.expired
    ensures RunLoop(s, me).procs[me].Exited? <==>
      var l := s.procs[me].loc;
      (l.action.NoAction? || Eligible(l.who, me)) && RunAction(s.slots, me, l.action).Failed?
  {
    var l := s.procs[me].loc;
    if l.action.NoAction? || Eligible(l.who, me) {
      RunnerForm(s, me);
      BlocksUnexpired(s, me, FirstOther(me));
      hide RunLoop, CheckWatchdog;
    } else {
      BlocksUnexpired(s, me, Delegate(l.who));
    }
  }

  lemma BlocksUnexpired<M>(s: State<M>, me: nat, g: nat)
    requires Running(s, me) && s.slots[me].waitIdx >= 0 && !s.procs[me].loc.expired && g < s.N()
    ensures var u := SignalOne(s, g, s.procs[me].loc.waitIdx);
      Running(u, me) && CheckWatchdog(u, me) == Block(u, me) && !Block(u, me).procs[me].Exited?
  {}

  /** A timer that expires just as the last process arrives makes a waiting process exit, unless it may release the
      round itself; the comment before the timed wait promises that looping again avoids this. */
  lemma LateTimer<M>(s: State<M>, i: nat)
    requires Inv(s) && Enabled(s, Wake(i, true)) && Waiting(s, i) && s.condWaitCnt[s.curWaitIdx] == s.N()
    ensures Apply(s, Wake(i, true)).procs[i].Exited? <==> !CanRelease(Resume(s, i, true), i)
  {
    ResumeInv(s, i, true);
    ExpiredInCompleteRound(Resume(s, i, true), i);
  }

  /** Why a watchdog must not fire while a replica is draining: the scan may pick it, and then its unit of the counter
      is lost. For every other process that the scan picks the counters stay right. */
  lemma WatchdogOnDrainerLeaks<M>(s: State<M>, me: nat)
    requires Inv(s) && Running(s, me) && Waiting(s, me) && s.procs[me].loc.expired && !s.restoring
    requires s.N() - s.condWaitCnt[s.curWaitIdx] <= 1 && FirstIdle(s.slots, 0) < s.N()
    ensures FirstIdle(s.slots, 0) != me
    ensures Conserved(CheckWatchdog(s, me)) <==> !Draining(s, FirstIdle(s.slots, 0))
  {
    hide CheckWatchdog, SlotOk, RestoringOk, DistinctPids, Draining;
    var idx := FirstIdle(s.slots, 0);
    Scanned(s, me);
    ForkForm(s, me);
    var t := Fork(s, me, idx);
    CountUpdate(s.procs, idx, t.procs[idx], 0);
    CountUpdate(s.procs, idx, t.procs[idx], 1);
    SameCounts(t.procs, Block(t, me).procs);
  }

  /** Of the process that the scan picks. */
  lemma Scanned<M>(s: State<M>, me: nat)
    requires Inv(s) && Running(s, me) && Waiting(s, me) && FirstIdle(s.slots, 0) < s.N()
    ensures var idx := FirstIdle(s.slots, 0);
      && s.procs[me].loc.waitIdx == s.curWaitIdx && s.condWaitCnt[s.curWaitIdx] != s.N() && idx != me
      && (Draining(s, idx) <==> In(s.procs[idx], 0) || In(s.procs[idx], 1))
  {
    AtCurrentIndex(s, me);
    if s.condWaitCnt[s.curWaitIdx] == s.N() {
      CompleteNoneIdle(s);
    }
    assert SlotOk(s, FirstIdle(s.slots, 0));
  }

  lemma ForkForm<M>(s: State<M>, me: nat)
    requires Running(s, me) && s.slots[me].waitIdx >= 0 && s.procs[me].loc.expired && !s.restoring
    requires s.condWaitCnt[s.procs[me].loc.waitIdx] != s.N() && s.N() - s.condWaitCnt[s.curWaitIdx] <= 1
    requires FirstIdle(s.slots, 0) < s.N()
    ensures FirstIdle(s.slots, 0) != me
    ensures CheckWatchdog(s, me) == Block(Fork(s, me, FirstIdle(s.slots, 0)), me)
  {
    var t := Fork(s, me, FirstIdle(s.slots, 0));
    assert CheckWatchdog(s, me) == RunLoop(t, me) == CheckWatchdog(t, me) == Block(t, me);
  }
}
