/** Where the replicas are, and what each move can do to them: in every run, whatever faults strike, whatever timers
    expire, and whatever the votes decide. */
module Placement {
  import opened Compare
  import opened Barrier
  import opened BarrierInv
  import opened BarrierRounds
  import opened Replication
  import Wrappers

  // ----- Replicas that stay where they are

  /** The same process, up to a wake-up or a timer. */
  ghost predicate Alike<M>(p: Phase<M>, q: Phase<M>) {
    p == q || (p.Blocked? && q.Blocked? && SameCall(p.loc, q.loc))
  }

  ghost predicate Untouched<M>(b: State<M>, u: State<M>, j: nat)
    requires b.Shape() && u.Shape() && j < b.N() && j < u.N()
  {
    Alike(b.procs[j], u.procs[j]) && u.slots[j] == b.slots[j]
  }

  lemma BystanderPlaced<P>(w: World<P>, s: Sys<P>, t: Sys<P>, j: nat)
    requires w.Ok() && Typed(s) && Typed(t) && t.bar.releases == s.bar.releases && Live(s, j)
    requires Placed(w, s, j) && Untouched(s.bar, t.bar, j)
    ensures Live(t, j) && Placed(w, t, j)
  {
    hide World.CallAt, World.At, Wrappers.ArgsOf;
  }

  lemma QuietTyped<P>(s: Sys<P>, t: Sys<P>, i: nat)
    requires Typed(s) && t.bar.Shape() && t.bar.N() == 3 && Quiet(s, t, i)
    ensures Typed(t)
  {
    forall j | 0 <= j < 3 && Live(t, j) ensures Wrappers.TableOk(t.kernel, Of(t, j).table) {
      assert From(s, t, j, j) || From(s, t, j, i);
    }
  }

  /** Replica i changes its place, without the end of a round; the others may have been woken up. */
  lemma OneMoves<P>(w: World<P>, s: Sys<P>, t: Sys<P>, i: nat)
    requires InPlace(w, s) && Inv(t.bar) && t.bar.N() == 3 && i < 3
    requires t == s.(bar := t.bar) && t.bar.releases == s.bar.releases
    requires forall j | 0 <= j < 3 && j != i :: Untouched(s.bar, t.bar, j)
    requires Live(t, i) ==> From(s, t, i, i)
    ensures Typed(t) && Quiet(s, t, i)
    ensures (Live(t, i) ==> Placed(w, t, i)) ==> InPlace(w, t)
  {
    assert t.bar.Shape();
    hide Inv, Placed;
    forall j | 0 <= j < 3 && Live(t, j) ensures From(s, t, j, j) {
      assert j != i ==> Untouched(s.bar, t.bar, j);
    }
    QuietTyped(s, t, i);
    hide Quiet, From;
    if Live(t, i) ==> Placed(w, t, i) {
      forall j | 0 <= j < 3 && Live(t, j) ensures Placed(w, t, j) {
        if j != i {
          assert Untouched(s.bar, t.bar, j) && Live(s, j);
          BystanderPlaced(w, s, t, j);
        }
      }
    }
  }

  // ----- Taking the lock

  lemma ArriveForm<M>(b: State<M>, i: nat, c: BarrierCall<M>)
    requires b.Shape() && i < b.N()
    ensures var u := Arrive(b, i, c);
      && u.releases == b.releases && u.restoring == b.restoring && u.procs[i].Blocked?
           && u.slots[i] == b.slots[i].(args := c.args, waitIdx := b.curWaitIdx)
      && u.procs[i].loc == Local(b.curWaitIdx, c.action, c.who, false, c.mem)
      && forall j | 0 <= j < b.N() && j != i :: Untouched(b, u, j)
  {}

  lemma CheckArrives<P>(w: World<P>, s: Sys<P>, i: nat)
    requires InPlace(w, s) && Possible(w, s, CallCheck(i))
    ensures var u := s.(bar := Mid(w, s, CallCheck(i))); InPlace(w, u) && Quiet(s, u, i)
  {
    var c := CheckCall(w, s.bar.procs[i].mem);
    var u := s.(bar := Arrive(s.bar, i, c));
    assert Placed(w, s, i);
    ArriveInv(s.bar, i, c);
    ArriveForm(s.bar, i, c);
    hide World.At, World.CallAt, Wrappers.ArgsOf, Inv, Arrive;
    OneMoves(w, s, u, i);
  }

  lemma MasterArrives<P>(w: World<P>, s: Sys<P>, i: nat)
    requires InPlace(w, s) && Possible(w, s, CallMaster(i))
    ensures var u := s.(bar := Mid(w, s, CallMaster(i))); InPlace(w, u) && Quiet(s, u, i)
  {
    var c := MasterCall(s, i, s.bar.procs[i].mem);
    var u := s.(bar := Arrive(s.bar, i, c));
    assert Placed(w, s, i);
    ArriveInv(s.bar, i, c);
    ArriveForm(s.bar, i, c);
    hide World.At, World.CallAt, Wrappers.ArgsOf, Inv, Arrive;
    OneMoves(w, s, u, i);
  }

  lemma Resumes<P>(w: World<P>, s: Sys<P>, i: nat, timedOut: bool)
    requires InPlace(w, s) && i < 3 && Enabled(s.bar, Wake(i, timedOut))
    ensures var u := s.(bar := Resume(s.bar, i, timedOut)); InPlace(w, u) && Quiet(s, u, i)
  {
    var u := s.(bar := Resume(s.bar, i, timedOut));
    assert Placed(w, s, i);
    ResumeInv(s.bar, i, timedOut);
    hide World.At, World.CallAt, Wrappers.ArgsOf, Inv;
    OneMoves(w, s, u, i);
    BystanderPlaced(w, s, u, i);
  }

  lemma ChildInstalled<P>(w: World<P>, s: Sys<P>, i: nat, pid: nat)
    requires InPlace(w, s) && i < 3 && Enabled(s.bar, Install(i, pid))
    ensures var u := s.(bar := Installed(s.bar, i, pid)); InPlace(w, u) && Quiet(s, u, i)
  {
    hide World.At, World.CallAt, Wrappers.ArgsOf, Inv, SlotOk;
    var u := s.(bar := Installed(s.bar, i, pid));
    ChildSlot(s.bar, i);
    assert Placed(w, s, i);
    InstalledInv(s.bar, i, pid);
    OneMoves(w, s, u, i);
  }

  lemma ChildSlot<M>(b: State<M>, i: nat)
    requires Inv(b) && i < b.N() && Pending(b.procs[i])
    ensures b.Shape() && b.slots[i].waitIdx == if b.procs[i].PendingDrain? then -1 else 0
  {
    assert SlotOk(b, i);
  }

  /** In the middle of a section. */
  ghost predicate InSection<M>(b: State<M>, i: nat) {
    Running(b, i) && (b.procs[i].loc.expired && Waiting(b, i) ==> NoDrainers(b))
  }

  /** A move that holds the lock: up to its middle, and from there on. */
  lemma MidPlaced<P>(w: World<P>, s: Sys<P>, mv: Move<P>)
    requires InPlace(w, s) && Possible(w, s, mv) && mv.Locks()
    ensures var u := s.(bar := Mid(w, s, mv)); var t := MoveTo(w, s, mv);
      && InPlace(w, u) && Quiet(s, u, mv.i)
      && (t == u || (InSection(u.bar, mv.i) && t == Section(w, u, RunLoop(u.bar, mv.i), mv.i)))
  {
    hide World.At, World.CallAt, Wrappers.ArgsOf, RunLoop, Placed, Inv, Quiet, Arrive;
    match mv
    case CallCheck(i) =>
      CheckArrives(w, s, i);
      ArriveInv(s.bar, i, CheckCall(w, s.bar.procs[i].mem));
      ArriveForm(s.bar, i, CheckCall(w, s.bar.procs[i].mem));
    case CallMaster(i) =>
      MasterArrives(w, s, i);
      ArriveInv(s.bar, i, MasterCall(s, i, s.bar.procs[i].mem));
      ArriveForm(s.bar, i, MasterCall(s, i, s.bar.procs[i].mem));
    case WakeUp(i) =>
      Resumes(w, s, i, false);
      ResumeInv(s.bar, i, false);
    case TimeOut(i) =>
      Resumes(w, s, i, true);
      ResumeInv(s.bar, i, true);
    case Child(i, pid) =>
      ChildInstalled(w, s, i, pid);
      ChildSection(s.bar, i, pid);
  }

  lemma ChildSection<M>(b: State<M>, i: nat, pid: nat)
    requires Inv(b) && Enabled(b, Install(i, pid))
    ensures var u := Installed(b, i, pid);
      && u.releases == b.releases
      && if b.procs[i].PendingStart? then Apply(b, Install(i, pid)) == u
         else InSection(u, i) && Apply(b, Install(i, pid)) == RunLoop(u, i)
  {
    InstalledInv(b, i, pid);
    hide Inv;
  }

  // ----- Sections that end no round

  /** The same process, up to a wake-up. */
  ghost predicate Woken<M>(b: State<M>, u: State<M>, j: nat)
    requires b.Shape() && u.Shape() && j < b.N() && j < u.N()
  {
    var (p, q) := (b.procs[j], u.procs[j]);
    u.slots[j] == b.slots[j] && (p == q || (p.Blocked? && q.Blocked? && p.loc == q.loc))
  }

  /** The process goes on waiting, perhaps after its expired watchdog has forked it, or exits. */
  ghost predicate Stays<M>(s: State<M>, t: State<M>, me: nat)
    requires Running(s, me)
  {
    && t.Shape() && t.N() == s.N() && t.releases == s.releases
    && (t.procs[me].Exited? || Woken(s, t, me))
    && (s.restoring ==> t.restoring) && (t.restoring && !s.restoring ==> s.procs[me].loc.expired)
    && forall j | 0 <= j < s.N() && j != me :: Woken(s, t, j) || Forked(s, t, me, j)
  }

  ghost predicate Forked<M>(s: State<M>, t: State<M>, me: nat, j: nat)
    requires Running(s, me) && t.Shape() && j < t.N()
  {
    && s.procs[me].loc.expired && !s.restoring && t.restoring
    && t.procs[j] == PendingWait(s.procs[me].loc, s.slots[me], s.curWaitIdx)
  }

  lemma WatchdogStays<M>(s: State<M>, me: nat)
    requires Inv(s) && InSection(s, me) && Waiting(s, me)
    ensures Stays(s, CheckWatchdog(s, me), me)
  {
    CheckWatchdogForm(s, me);
    hide Inv, CheckWatchdog;
  }

  lemma StaysThrough<M>(s: State<M>, u: State<M>, t: State<M>, me: nat)
    requires Running(s, me) && Running(u, me) && Stays(u, t, me)
    requires u == s.(procs := u.procs) && |u.procs| == |s.procs| && forall j | 0 <= j < s.N() :: Woken(s, u, j)
    ensures Stays(s, t, me)
  {
    assert Woken(s, u, me);
    forall j | 0 <= j < s.N() && j != me ensures Woken(s, t, j) || Forked(s, t, me, j) {
      assert Woken(s, u, j) && (Woken(u, t, j) || Forked(u, t, me, j));
    }
  }

  lemma WokenStays<M>(s: State<M>, me: nat, g: nat)
    requires Inv(s) && InSection(s, me) && Waiting(s, me) && g < s.N()
    ensures Stays(s, CheckWatchdog(SignalOne(s, g, s.procs[me].loc.waitIdx), me), me)
  {
    var u := SignalOne(s, g, s.procs[me].loc.waitIdx);
    WokenInv(s, me, g);
    hide Inv, CheckWatchdog, Stays;
    WatchdogStays(u, me);
    StaysThrough(s, u, CheckWatchdog(u, me), me);
  }

  lemma RoundStays<M>(s: State<M>, me: nat)
    requires Inv(s) && InSection(s, me) && Waiting(s, me) && RunLoop(s, me).releases == s.releases
    ensures Stays(s, RunLoop(s, me), me)
  {
    var l := s.procs[me].loc;
    WatchdogStays(s, me);
    WokenStays(s, me, Delegate(l.who));
    WokenStays(s, me, FirstOther(me));
    hide Inv, CheckWatchdog, RunAction, SignalOne, Stays;
    assert Stays(s, Quit(s, me), me) by { QuitStays(s, me); }
  }

  lemma QuitStays<M>(s: State<M>, me: nat)
    requires Running(s, me)
    ensures Stays(s, Quit(s, me), me)
  {}

  lemma StaysPlaced<P>(w: World<P>, s: Sys<P>, t: Sys<P>, i: nat)
    requires InPlace(w, s) && Running(s.bar, i) && Waiting(s.bar, i) && Inv(t.bar)
    requires t == s.(bar := t.bar) && Stays(s.bar, t.bar, i)
    ensures InPlace(w, t) && Quiet(s, t, i)
  {
    hide World.At, World.CallAt, Wrappers.ArgsOf, Inv, Placed;
    assert Live(s, i) && Placed(w, s, i);
    forall j | 0 <= j < 3 && Live(t, j)
      ensures From(s, t, j, j) || (!s.bar.restoring && t.bar.restoring && From(s, t, j, i)) {
      assert j != i ==> Woken(s.bar, t.bar, j) || Forked(s.bar, t.bar, i, j);
    }
    QuietTyped(s, t, i);
    hide Quiet, From;
    forall j | 0 <= j < 3 && Live(t, j) ensures Placed(w, t, j) {
      if Woken(s.bar, t.bar, j) {
        assert Untouched(s.bar, t.bar, j);
        BystanderPlaced(w, s, t, j);
      } else {
        ForkPlaced(w, s, t, j, i);
      }
    }
  }

  lemma ForkPlaced<P>(w: World<P>, s: Sys<P>, t: Sys<P>, j: nat, i: nat)
    requires w.Ok() && Typed(s) && Typed(t) && t.bar.releases == s.bar.releases && j < 3
    requires i < 3 && Live(s, i) && Placed(w, s, i) && Waiting(s.bar, i)
    requires t.bar.procs[j].PendingWait? && t.bar.procs[j].loc == s.bar.procs[i].loc
      && t.bar.procs[j].parent == s.bar.slots[i]
    ensures Live(t, j) && Placed(w, t, j)
  {
    hide World.At, World.CallAt, Wrappers.ArgsOf;
  }

  /** A drained replica returns from the barrier. */
  lemma LeavePlaced<P>(w: World<P>, s: Sys<P>, i: nat)
    requires InPlace(w, s) && i < 3 && Running(s.bar, i) && s.bar.slots[i].waitIdx < 0
    ensures var t := Section(w, s, RunLoop(s.bar, i), i); InPlace(w, t) && Quiet(s, t, i)
  {
    assert RunLoop(s.bar, i) == Leave(s.bar, i);
    hide World.At, World.CallAt, Wrappers.ArgsOf, RunLoop;
    var t := s.(bar := Leave(s.bar, i));
    assert Live(s, i) && Placed(w, s, i);
    LeaveInv(s.bar, i);
    hide Inv;
    OneMoves(w, s, t, i);
  }

  // ----- The end of a vote

  /** Replica j votes. */
  ghost predicate Voter<P>(w: World<P>, s: Sys<P>, j: nat)
    requires s.bar.Shape()
  {
    && Live(s, j) && s.bar.procs[j].Blocked? && VoteLocal(s.bar.procs[j].loc) && Of(s, j).pc.Checking?
    && s.bar.slots[j].args == ArgsIn(w, s, j)
  }

  /** In a complete even round everybody votes, with the arguments of the next call. */
  lemma AllVote<P>(w: World<P>, s: Sys<P>, i: nat)
    requires InPlace(w, s) && s.bar.releases % 2 == 0 && i < 3 && Running(s.bar, i)
      && s.bar.condWaitCnt[s.bar.curWaitIdx] == 3
    ensures VoteRound(s.bar, i)
    ensures forall j | 0 <= j < 3 :: Voter(w, s, j)
  {
    CompleteAllWait(s.bar);
    hide World.At, World.CallAt, Wrappers.ArgsOf, Inv;
    forall j | 0 <= j < 3 ensures Voter(w, s, j) {
      assert Waiting(s.bar, j) && Live(s, j) && Placed(w, s, j);
    }
    forall j | 0 <= j < 3 ensures s.bar.procs[j].Blocked? && s.bar.procs[j].loc.action == Vote {
      assert Voter(w, s, j);
    }
  }

  /** The processes after a vote by `me` that replaces `bad`, or nobody if bad is 3. */
  ghost predicate AfterVote<M>(s: State<M>, me: nat, bad: nat, t: State<M>)
    requires s.Shape() && s.N() == 3 && me < 3 && s.procs[me].Blocked?
  {
    && t.Shape() && t.N() == 3 && t.releases == s.releases + 1
    && forall j | 0 <= j < 3 ::
         && t.slots[j].waitIdx < 0
         && (if j == me then t.procs[j] == Outside(s.procs[me].loc.mem)
             else if j == bad then t.procs[j].PendingDrain? && t.procs[j].loc == s.procs[me].loc
             else s.procs[j].Blocked? && t.procs[j].Blocked? && t.procs[j].loc == s.procs[j].loc)
  }

  lemma GoodVoteAfter<M>(s: State<M>, me: nat, bad: nat, t: State<M>)
    requires Running(s, me) && s.N() == 3 && (forall j | 0 <= j < 3 :: s.procs[j].Blocked?) && bad != me && bad <= 3
    requires t == if bad == 3 then Leave(Release(s, s.procs[me].loc.waitIdx), me)
      else Leave(Release(Replace(s, me, bad, PendingDrain(s.procs[me].loc, s.slots[me])), s.procs[me].loc.waitIdx), me)
    ensures AfterVote(s, me, bad, t)
  {}

  lemma VoteAfter<M>(s: State<M>, me: nat) returns (bad: nat)
    requires VoteRound(s, me) && RunLoop(s, me).releases != s.releases
    ensures Inv(RunLoop(s, me)) && Majority(s.slots, s.slots[me].args)
    ensures AfterVote(s, me, bad, RunLoop(s, me))
    ensures forall j | 0 <= j < 3 :: s.slots[j].args == s.slots[me].args <==> j != bad
  {
    var a := s.slots[me].args;
    ReleasesOnce(s, me);
    ReleasedByMajority(s, me);
    VoteVerdict(s.slots, a);
    GoodVoteForm(s, me, a);
    RunLoopNoWatchdogInv(s, me);
    bad := if Judge(Args(s.slots)).Faulty? then Judge(Args(s.slots)).idx else 3;
    hide RunLoop, Inv, Majority, Judge, Args, Leave, Release, Replace;
    GoodVoteAfter(s, me, bad, RunLoop(s, me));
  }

  lemma ReleasesOnce<M>(s: State<M>, me: nat)
    requires Inv(s) && Running(s, me) && s.condWaitCnt[s.curWaitIdx] == s.N()
    ensures RunLoop(s, me).releases == s.releases || RunLoop(s, me).releases == s.releases + 1
  {
    CompleteAllWait(s);
    forall j | 0 <= j < s.N() ensures !Draining(s, j) {
      assert Waiting(s, j);
    }
    SectionReleases(s, me);
  }

  /** A replica after the vote: drained or outside, or the child forked in its place. */
  lemma VoterPlaced<P>(w: World<P>, t: Sys<P>, j: nat)
    requires w.Ok() && Typed(t) && Live(t, j) && t.bar.releases % 2 == 1 && Of(t, j).pc.Checking?
    requires t.bar.slots[j].waitIdx < 0
    requires var p := t.bar.procs[j];
      p.Outside? || (p.Blocked? && VoteLocal(p.loc)) || (p.PendingDrain? && VoteLocal(p.loc))
    ensures Placed(w, t, j)
  {}

  lemma VotedPlaced<P>(w: World<P>, s: Sys<P>, bar: State<Image<P>>, i: nat, bad: nat)
    requires w.Ok() && Typed(s) && s.bar.releases % 2 == 0 && i < 3
    requires forall j | 0 <= j < 3 :: Live(s, j) && Voter(w, s, j)
    requires s.bar.procs[i].Blocked? && Of(s, i).pc.Checking? && AfterVote(s.bar, i, bad, bar)
    ensures var t := Section(w, s, bar, i);
      && t == s.(bar := bar) && Typed(t)
      && forall j | 0 <= j < 3 :: Live(t, j) && Of(t, j) == Of(s, if j == bad then i else j) && Placed(w, t, j)
  {
    hide World.At, World.CallAt, Wrappers.ArgsOf, Placed;
    var t := s.(bar := bar);
    forall j | 0 <= j < 3 ensures Live(t, j) && Of(t, j) == Of(s, if j == bad then i else j) {
      assert Voter(w, s, j);
    }
    forall j | 0 <= j < 3 ensures Wrappers.TableOk(t.kernel, Of(t, j).table) {
      assert Voter(w, s, if j == bad then i else j);
    }
    forall j | 0 <= j < 3 ensures Placed(w, t, j) {
      assert Voter(w, s, j) && Voter(w, s, i);
      VoterPlaced(w, t, j);
    }
  }

  lemma VotePlaced<P>(w: World<P>, s: Sys<P>, i: nat)
    requires InPlace(w, s) && s.bar.releases % 2 == 0 && i < 3 && Running(s.bar, i)
      && s.bar.condWaitCnt[s.bar.curWaitIdx] == 3
    requires RunLoop(s.bar, i).releases != s.bar.releases
    ensures var t := Section(w, s, RunLoop(s.bar, i), i); InPlace(w, t) && Voted(w, s, t, i)
  {
    hide World.At, World.CallAt, Wrappers.ArgsOf, RunLoop, VoteRound, Majority, Inv, Placed, Section;
    AllVote(w, s, i);
    var bad := VoteAfter(s.bar, i);
    forall j | 0 <= j < 3 ensures Live(s, j) && Voter(w, s, j) {
      assert Voter(w, s, j);
    }
    VotedPlaced(w, s, RunLoop(s.bar, i), i, bad);
    hide Voter, AfterVote;
  }

  // ----- The end of a master barrier

  lemma AllAct<P>(w: World<P>, s: Sys<P>, i: nat)
    requires InPlace(w, s) && s.bar.releases % 2 == 1 && i < 3 && Running(s.bar, i)
      && s.bar.condWaitCnt[s.bar.curWaitIdx] == 3
    ensures forall j | 0 <= j < 3 ::
      Live(s, j) && s.bar.procs[j].Blocked? && MasterLocal(s.bar.procs[j].loc) && Of(s, j).pc.Acting?
    ensures Waiting(s.bar, i) && s.bar.procs[i].loc.waitIdx == s.bar.curWaitIdx
  {
    CompleteAllWait(s.bar);
    hide World.At, World.CallAt, Wrappers.ArgsOf, Inv;
    forall j | 0 <= j < 3
      ensures Live(s, j) && s.bar.procs[j].Blocked? && MasterLocal(s.bar.procs[j].loc) && Of(s, j).pc.Acting?
    {
      assert Waiting(s.bar, j) && Live(s, j) && Placed(w, s, j);
    }
  }

  /** Only the master ends the round. */
  lemma MasterReleases<M>(s: State<M>, me: nat)
    requires Inv(s) && Running(s, me) && Waiting(s, me) && s.condWaitCnt[s.curWaitIdx] == s.N()
    requires s.procs[me].loc.action == Effect(true) && s.procs[me].loc.who == MasterOnly
    requires RunLoop(s, me).releases != s.releases
    ensures me == 0 && RunLoop(s, me) == Leave(Release(s, s.procs[me].loc.waitIdx), me)
  {
    CompleteAllWait(s);
    forall j | 0 <= j < s.N() ensures !Draining(s, j) {
      assert Waiting(s, j);
    }
    SectionReleases(s, me);
    RunnerForm(s, 0) by { assert me == 0; }
    hide RunLoop, Inv;
  }

  lemma ReleasedProcs<M>(s: State<M>, t: State<M>)
    requires Running(s, 0) && s.N() == 3 && s.procs[1].Blocked? && s.procs[2].Blocked?
    requires t == Leave(Release(s, s.procs[0].loc.waitIdx), 0)
    ensures t.Shape() && t.N() == 3 && t.releases == s.releases + 1
    ensures t.procs[0] == Outside(s.procs[0].loc.mem)
    ensures forall j | 1 <= j < 3 :: t.procs[j].Blocked? && t.procs[j].loc == s.procs[j].loc && t.slots[j].waitIdx < 0
  {}

  lemma MasterPlaced<P>(w: World<P>, s: Sys<P>, i: nat)
    requires InPlace(w, s) && s.bar.releases % 2 == 1 && i < 3 && Running(s.bar, i)
      && s.bar.condWaitCnt[s.bar.curWaitIdx] == 3
    requires RunLoop(s.bar, i).releases != s.bar.releases
    ensures var t := Section(w, s, RunLoop(s.bar, i), i); InPlace(w, t) && Acted(w, s, t)
  {
    hide World.At, World.CallAt, Wrappers.ArgsOf, Wrappers.Exec, Wrappers.Broadcast, RunLoop, Leave, Release, Inv,
      Placed;
    AllAct(w, s, i);
    MasterReleases(s.bar, i);
    RunLoopNoWatchdogInv(s.bar, i);
    ReleasedProcs(s.bar, RunLoop(s.bar, i));
    MasterSection(w, s, RunLoop(s.bar, i));
  }

  /** The real effect. */
  lemma MasterSection<P>(w: World<P>, s: Sys<P>, bar: State<Image<P>>)
    requires w.Ok() && Typed(s) && |s.trace| == s.bar.releases / 2 && s.bar.releases % 2 == 1
    requires forall j | 0 <= j < 3 ::
      Live(s, j) && s.bar.procs[j].Blocked? && MasterLocal(s.bar.procs[j].loc) && Of(s, j).pc.Acting?
    requires Inv(bar) && bar.N() == 3 && bar.releases == s.bar.releases + 1
    requires bar.procs[0] == Outside(s.bar.procs[0].loc.mem)
    requires forall j | 1 <= j < 3 ::
      bar.procs[j].Blocked? && bar.procs[j].loc == s.bar.procs[j].loc && bar.slots[j].waitIdx < 0
    ensures var t := Section(w, s, bar, 0); InPlace(w, t) && Acted(w, s, t)
  {
    hide World.At, World.CallAt, Wrappers.ArgsOf, Wrappers.Exec, Wrappers.Broadcast, Inv;
    InvShape(bar);
    var t := Section(w, s, bar, 0);
    assert Live(s, 0) && Of(s, 0) == bar.procs[0].mem;
    OutsideInv(bar, 0, t.bar.procs[0]);
    assert t.bar == bar.(procs := bar.procs[0 := t.bar.procs[0]]);
    forall j | 0 <= j < 3 ensures Live(t, j) && Of(t, j).table == Of(s, j).table {
      assert j == 0 || j == 1 || j == 2;
    }
    assert Typed(t);
    forall j | 0 <= j < 3 ensures Placed(w, t, j) {
      assert j == 0 || j == 1 || j == 2;
    }
  }

  lemma InvShape<M>(b: State<M>)
    requires Inv(b)
    ensures b.Shape()
  {}

  // ----- Every move

  /** What a section does: it ends no round, or a vote, or a master barrier. */
  lemma SectionPlaced<P>(w: World<P>, s: Sys<P>, i: nat)
    requires InPlace(w, s) && i < 3 && InSection(s.bar, i)
    ensures var t := Section(w, s, RunLoop(s.bar, i), i);
      InPlace(w, t) && (Quiet(s, t, i) || Voted(w, s, t, i) || Acted(w, s, t))
  {
    hide World.At, World.CallAt, Wrappers.ArgsOf, RunLoop, Placed, Quiet, Voted, Acted;
    if s.bar.slots[i].waitIdx < 0 {
      LeavePlaced(w, s, i);
    } else if RunLoop(s.bar, i).releases == s.bar.releases {
      RunLoopInv(s.bar, i);
      RoundStays(s.bar, i);
      hide Inv;
      StaysPlaced(w, s, s.(bar := RunLoop(s.bar, i)), i);
    } else {
      SectionReleases(s.bar, i);
      AtCurrentIndex(s.bar, i);
      hide Inv;
      if s.bar.releases % 2 == 0 {
        VotePlaced(w, s, i);
      } else {
        MasterPlaced(w, s, i);
      }
    }
  }

  lemma QuietSelf<P>(s: Sys<P>, i: nat)
    requires s.bar.Shape() && s.bar.N() == 3
    ensures Quiet(s, s, i)
  {}

  lemma Mover<P>(w: World<P>, s: Sys<P>, mv: Move<P>)
    requires w.Ok() && Possible(w, s, mv)
    ensures Typed(s) && s.bar.Shape() && mv.i < 3
  {}

  /** A move that holds the lock. */
  lemma LockedMove<P>(w: World<P>, s: Sys<P>, mv: Move<P>)
    requires InPlace(w, s) && Possible(w, s, mv) && mv.Locks()
    ensures var u := s.(bar := Mid(w, s, mv)); var t := MoveTo(w, s, mv);
      && InPlace(w, u) && InPlace(w, t) && mv.i < 3 && Quiet(s, u, mv.i)
      && (Quiet(u, t, mv.i) || Voted(w, u, t, mv.i) || Acted(w, u, t))
  {
    hide World.At, World.CallAt, Wrappers.ArgsOf, RunLoop, Placed, Voted, Acted, Inv, Section, MoveTo, Possible, Mid,
      Quiet;
    MidPlaced(w, s, mv);
    Mover(w, s, mv);
    var u := s.(bar := Mid(w, s, mv));
    QuietSelf(u, mv.i);
    if InSection(u.bar, mv.i) {
      SectionPlaced(w, u, mv.i);
    }
  }

  /** Replica i changes its memory, or dies, outside the barrier. */
  lemma LocalMove<P>(w: World<P>, s: Sys<P>, t: Sys<P>, i: nat)
    requires InPlace(w, s) && i < 3 && s.bar.procs[i].Outside?
    requires |t.bar.procs| == 3 && t.bar == s.bar.(procs := s.bar.procs[i := t.bar.procs[i]])
      && (t.bar.procs[i].Outside? || t.bar.procs[i].Exited?)
    requires t.trace == s.trace && Wrappers.KernelOk(t.kernel) && |t.kernel.descs| == |s.kernel.descs|
    requires Live(t, i) ==> Of(t, i).table == Of(s, i).table
    ensures Typed(t)
    ensures (Live(t, i) ==> Placed(w, t, i)) ==> InPlace(w, t)
  {
    hide Inv, Placed;
    OutsideInv(s.bar, i, t.bar.procs[i]);
    assert Live(s, i);
    forall j | 0 <= j < 3 && Live(t, j) ensures Wrappers.TableOk(t.kernel, Of(t, j).table) {
      assert Live(s, j);
    }
    if Live(t, i) ==> Placed(w, t, i) {
      forall j | 0 <= j < 3 && Live(t, j) ensures Placed(w, t, j) {
        if j != i {
          BystanderPlaced(w, s, t, j);
        }
      }
    }
  }

  /** The memory that a replica has after a move outside the barrier fits its place. */
  lemma NewMemPlaced<P>(w: World<P>, s: Sys<P>, t: Sys<P>, mv: Move<P>)
    requires InPlace(w, s) && Possible(w, s, mv) && !mv.Locks() && !mv.Die?
    requires Typed(t) && t.bar == SetMem(s, mv.i, NewMem(w, s, mv)).bar
    ensures Live(t, mv.i) && Placed(w, t, mv.i) && s.bar.releases % 2 == 0
  {
    hide World.At, World.CallAt, Wrappers.ArgsOf, Wrappers.SlaveResult, Take, Inv, Enabled;
    assert Placed(w, s, mv.i);
  }

  /** What such a move does. */
  lemma UnlockedForm<P>(w: World<P>, s: Sys<P>, mv: Move<P>)
    requires w.Ok() && Possible(w, s, mv) && !mv.Locks()
    ensures var t := MoveTo(w, s, mv);
      && mv.i < 3 && s.bar.procs[mv.i].Outside? && Wrappers.KernelOk(t.kernel) && |t.kernel.descs| == |s.kernel.descs|
      && (if mv.Die? then t == s.(bar := s.bar.(procs := s.bar.procs[mv.i := Exited]))
           else t == SetMem(s, mv.i, NewMem(w, s, mv)).(kernel := t.kernel)
                && NewMem(w, s, mv).table == Of(s, mv.i).table)
      && (if mv.SeekAndReturn?
           then var m := Of(s, mv.i);
             && Wrappers.TableOk(s.kernel, m.table) && (m.pc.GotHeader? || m.pc.GotPayload?)
             && t.kernel == Wrappers.SeekTo(s.kernel, m.table, w.prog.next(m.ps), m.pc.hdr)
           else t.kernel == s.kernel)
  {
    hide World.At, World.CallAt, Wrappers.ArgsOf, Wrappers.SlaveResult, Take, Enabled, RunLoop;
    assert Live(s, mv.i) && Wrappers.TableOk(s.kernel, Of(s, mv.i).table);
  }

  /** A move that does not hold the lock: the other replicas stay as they are. */
  lemma UnlockedMove<P>(w: World<P>, s: Sys<P>, mv: Move<P>)
    requires InPlace(w, s) && Possible(w, s, mv) && !mv.Locks()
    ensures var t := MoveTo(w, s, mv);
      && InPlace(w, t) && mv.i < 3 && s.bar.procs[mv.i].Outside? && t.trace == s.trace && t.area == s.area
      && t.bar == s.bar.(procs := s.bar.procs[mv.i := t.bar.procs[mv.i]])
      && (if mv.Die? then !Live(t, mv.i)
           else s.bar.releases % 2 == 0 && Live(t, mv.i) && Of(t, mv.i) == NewMem(w, s, mv))
  {
    hide MoveTo, Possible, NewMem, Inv, Placed;
    var t := MoveTo(w, s, mv);
    UnlockedForm(w, s, mv);
    LocalMove(w, s, t, mv.i);
    if !mv.Die? {
      NewMemPlaced(w, s, t, mv);
    }
  }
}
