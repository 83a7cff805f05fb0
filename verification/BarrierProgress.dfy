/** No wake-up is lost, and every round ends under fair scheduling. */
module BarrierProgress {
  import opened Barrier
  import opened BarrierInv
  import opened BarrierRounds

  // ----- No lost wake-up

  /** Everybody who waits is in a call with an action, of the same type. */
  ghost predicate Uniform<M>(s: State<M>, who: WaitAction)
    requires s.Shape()
  {
    forall i | 0 <= i < s.N() && Waiting(s, i) :: s.procs[i].loc.who == who && !s.procs[i].loc.action.NoAction?
  }

  /** Woken up, and entitled to run the action. */
  ghost predicate Ready<M>(s: State<M>, who: WaitAction, i: nat)
    requires s.Shape()
  {
    i < s.N() && s.procs[i].Blocked? && s.procs[i].signalled && Eligible(who, i)
  }

  /** If the round is complete but not released, some process that may run the action is awake. */
  ghost predicate NotLost<M>(s: State<M>)
    requires s.Shape()
  {
    s.condWaitCnt[s.curWaitIdx] == s.N() ==>
      forall who | Uniform(s, who) :: exists i :: Ready(s, who, i)
  }

  lemma NotComplete<M>(s: State<M>, i: nat)
    requires Inv(s) && i < s.N() && !Waiting(s, i)
    ensures s.condWaitCnt[s.curWaitIdx] != s.N()
  {
    if s.condWaitCnt[s.curWaitIdx] == s.N() {
      CompleteAllWait(s);
    }
  }

  /** Passing the baton: process g has been woken up by `me`, who goes on waiting. */
  lemma BatonPassed<M>(s: State<M>, me: nat, g: nat)
    requires Inv(s) && Running(s, me) && Waiting(s, me) && s.condWaitCnt[s.curWaitIdx] == s.N()
    requires g < s.N() && g != me && Eligible(s.procs[me].loc.who, g)
    ensures var t := Block(SignalOne(s, g, s.procs[me].loc.waitIdx), me);
      NotLost(t) && t.procs[g].Blocked? && t.procs[g].signalled && t.procs[g].loc == s.procs[g].loc
  {
    var t := Block(SignalOne(s, g, s.procs[me].loc.waitIdx), me);
    CompleteAllWait(s);
    forall who | Uniform(t, who) ensures exists i :: Ready(t, who, i) {
      assert Waiting(t, me);
      assert Ready(t, who, g);
    }
  }

  lemma SectionNotLost<M>(s: State<M>, me: nat)
    requires Inv(s) && Running(s, me)
    requires s.procs[me].loc.expired && Waiting(s, me) ==> NoDrainers(s)
    ensures NotLost(RunLoop(s, me))
  {
    var t := RunLoop(s, me);
    RunLoopInv(s, me);
    if !Waiting(t, me) {
      NotComplete(t, me);
    } else if s.slots[me].waitIdx >= 0 {
      AtCurrentIndex(s, me);
      if s.condWaitCnt[s.curWaitIdx] == s.N() {
        WaitingOnNotLost(s, me);
      } else {
        CheckWatchdogForm(s, me);
      }
    }
  }

  lemma WaitingOnNotLost<M>(s: State<M>, me: nat)
    requires Inv(s) && Running(s, me) && Waiting(s, me) && s.condWaitCnt[s.curWaitIdx] == s.N()
    requires s.procs[me].loc.expired ==> NoDrainers(s)
    requires Waiting(RunLoop(s, me), me)
    ensures NotLost(RunLoop(s, me))
    ensures !s.procs[me].loc.expired && exists g | 0 <= g < s.N() :: PassesTo(s, me, g)
  {
    var l := s.procs[me].loc;
    if s.procs[me].loc.expired {
      ExpiredInCompleteRound(s, me);
    }
    CompleteNoneIdle(s);
    AtCurrentIndex(s, me);
    WaitingOnForm(s, me);
    var g :| 0 <= g < s.N() && PassesTo(s, me, g);
    BatonPassed(s, me, g);
  }

  /** Process `me` cannot release the complete round; it wakes up g, who may try, and goes on waiting. */
  ghost predicate PassesTo<M>(s: State<M>, me: nat, g: nat)
    requires Running(s, me) && g < s.N()
  {
    var l := s.procs[me].loc;
    && g != me && Eligible(l.who, g)
    && RunLoop(s, me) == Block(SignalOne(s, g, l.waitIdx), me)
    && (if !Eligible(l.who, me) then !l.action.Vote? else l.action.Vote? && VoteOutcome(s.slots, me).Rerun?)
  }

  lemma WaitingOnForm<M>(s: State<M>, me: nat)
    requires Running(s, me) && s.slots[me].waitIdx >= 0 && s.condWaitCnt[s.procs[me].loc.waitIdx] == s.N()
    requires !s.procs[me].loc.expired && RunLoop(s, me).procs[me].Blocked? && RunLoop(s, me).slots[me].waitIdx >= 0
    ensures exists g | 0 <= g < s.N() :: PassesTo(s, me, g)
  {
    var l := s.procs[me].loc;
    if l.action.NoAction? || Eligible(l.who, me) {
      RunnerForm(s, me);
      assert PassesTo(s, me, FirstOther(me));
    } else {
      assert PassesTo(s, me, Delegate(l.who));
    }
  }

  /** No wake-up is lost, in any state of any run. */
  lemma NoLostWakeUp<M>(run: seq<State<M>>, steps: seq<Step<M>>, k: nat)
    requires IsRun(run, steps) && k < |run|
    ensures run[k].Shape() && NotLost(run[k])
  {
    RunInv(run, steps, k);
    if k > 0 {
      RunInv(run, steps, k - 1);
      StepNotLost(run[k - 1], steps[k - 1]);
    }
  }

  lemma StepNotLost<M>(s: State<M>, step: Step<M>)
    requires Inv(s) && Enabled(s, step)
    ensures NotLost(Apply(s, step))
  {
    StepInv(s, step);
    hide RunLoop, NotLost;
    match step
    case Compute(i, _) => NotLostUnless(Apply(s, step), i);
    case Crash(i) => NotLostUnless(Apply(s, step), i);
    case Enter(i, c) =>
      ArriveInv(s, i, c);
      SectionNotLost(Arrive(s, i, c), i);
    case Wake(i, timedOut) =>
      ResumeInv(s, i, timedOut);
      SectionNotLost(Resume(s, i, timedOut), i);
    case Install(i, pid) =>
      InstalledInv(s, i, pid);
      if s.procs[i].PendingWait? {
        SectionNotLost(Installed(s, i, pid), i);
      } else {
        NotLostUnless(Apply(s, step), i);
      }
  }

  lemma NotLostUnless<M>(s: State<M>, i: nat)
    requires Inv(s) && i < s.N() && !Waiting(s, i)
    ensures NotLost(s)
  {
    NotComplete(s, i);
  }

  // ----- Progress

  /** Process i is awake, may run the action, and is not the one the vote would have replaced. */
  ghost predicate ReadyToRelease<M>(s: State<M>, i: nat)
    requires s.Shape()
  {
    i < s.N() && Running(s, i) && s.procs[i].signalled && Eligible(s.procs[i].loc.who, i) &&
    !RunAction(s.slots, i, s.procs[i].loc.action).Rerun?
  }

  /** 1 if a complete round needs one more rerun of its action. */
  ghost function Reruns<M>(s: State<M>): nat
    requires s.Shape()
  {
    if s.condWaitCnt[s.curWaitIdx] == s.N() && !exists i :: ReadyToRelease(s, i) then 1 else 0
  }

  /** How far it is to the next release, compared lexicographically: the processes still leaving the last round,
      the processes yet to arrive, and the reruns of the action. */
  ghost predicate Closer<M>(t: State<M>, s: State<M>)
    requires s.Shape() && t.Shape()
  {
    var (a, b) := (t.condWaitCnt[1 - t.curWaitIdx], s.condWaitCnt[1 - s.curWaitIdx]);
    var (c, d) := (t.N() - t.condWaitCnt[t.curWaitIdx], s.N() - s.condWaitCnt[s.curWaitIdx]);
    a < b || (a == b && (c < d || (c == d && Reruns(t) < Reruns(s))))
  }

  ghost predicate SameDistance<M>(t: State<M>, s: State<M>)
    requires s.Shape() && t.Shape()
  {
    && t.condWaitCnt[1 - t.curWaitIdx] == s.condWaitCnt[1 - s.curWaitIdx]
    && t.N() - t.condWaitCnt[t.curWaitIdx] == s.N() - s.condWaitCnt[s.curWaitIdx]
    && Reruns(t) == Reruns(s)
  }

  /** Processes whose next section brings the release closer. */
  ghost predicate Helpful<M>(s: State<M>, i: nat)
    requires s.Shape() && i < s.N()
  {
    if s.condWaitCnt[1 - s.curWaitIdx] > 0 then Draining(s, i)
    else if s.condWaitCnt[s.curWaitIdx] < s.N() then s.procs[i].Outside?
    else
      && s.procs[i].Blocked? && s.procs[i].signalled && Eligible(s.procs[i].loc.who, i)
      && (Reruns(s) == 0 ==> ReadyToRelease(s, i))
  }

  /** All replicas are alive and installed, or forked by the vote. */
  ghost predicate AllAlive<M>(s: State<M>)
    requires s.Shape()
  {
    forall i | 0 <= i < s.N() :: s.procs[i].Outside? || s.procs[i].Blocked? || s.procs[i].PendingDrain?
  }

  /** No deadlock: as long as all replicas are alive, some process can bring the release closer. */
  lemma SomeoneHelpful<M>(s: State<M>, who: WaitAction)
    requires Inv(s) && NotLost(s) && AllAlive(s) && Uniform(s, who)
    ensures exists i :: 0 <= i < s.N() && Helpful(s, i)
  {
    var c := s.curWaitIdx;
    if s.condWaitCnt[1 - c] > 0 {
      CountNone(s.procs, 1 - c);
      var i :| 0 <= i < s.N() && In(s.procs[i], 1 - c);
      assert SlotOk(s, i);
      assert Helpful(s, i);
    } else if s.condWaitCnt[c] < s.N() {
      CountNone(s.procs, 1 - c);
      CountFull(s.procs, c);
      var i :| 0 <= i < s.N() && !In(s.procs[i], c);
      assert SlotOk(s, i) && !In(s.procs[i], 1 - c);
      assert Helpful(s, i);
    } else {
      CountFull(s.procs, c);
      CompleteAllWait(s);
      var i :| Ready(s, who, i);
      assert Waiting(s, i);
      if Reruns(s) == 0 {
        var j :| ReadyToRelease(s, j);
        assert Helpful(s, j);
      } else {
        assert Helpful(s, i);
      }
    }
  }

  /** The steps of live replicas: nobody wakes up in a round in progress with an expired timer - on the way out of one
      that is over a timer has no effect -, nobody dies, and no action fails. */
  ghost predicate Ordinary<M>(s: State<M>, step: Step<M>)
    requires s.Shape() && Enabled(s, step)
  {
    && !step.Crash? && (step.Wake? && Waiting(s, step.i) ==> !step.timedOut && !s.procs[step.i].loc.expired)
    && !Apply(s, step).procs[step.i].Exited?
  }

  /** Every ordinary step releases the round, or brings the release closer, or leaves it as far away as before;
      a step of a helpful process does one of the first two. */
  lemma StepProgress<M>(s: State<M>, step: Step<M>, who: WaitAction)
    requires Inv(s) && Enabled(s, step) && Ordinary(s, step) && AllAlive(s)
    requires Uniform(s, who)
    ensures var t := Apply(s, step);
      && AllAlive(t)
      && (t.releases == s.releases + 1 || (t.releases == s.releases && (Closer(t, s) || SameDistance(t, s))))
      && (Helpful(s, step.i) && !step.Compute? ==> t.releases == s.releases + 1 || Closer(t, s))
  {
    match step
    case Compute(i, m) => ComputeProgress(s, i, m);
    case Enter(i, c) => EnterProgress(s, i, c);
    case Wake(i, timedOut) =>
      if s.slots[i].waitIdx < 0 {
        DrainProgress(s, i);
      } else {
        WakeProgress(s, i, who);
      }
    case Install(i, pid) => InstallProgress(s, i, pid);
  }

  lemma ComputeProgress<M>(s: State<M>, i: nat, m: M)
    requires Inv(s) && Enabled(s, Compute(i, m)) && AllAlive(s)
    ensures var t := Apply(s, Compute(i, m)); AllAlive(t) && t.releases == s.releases && SameDistance(t, s)
  {
    var t := Apply(s, Compute(i, m));
    StepInv(s, Compute(i, m));
    NotComplete(s, i);
    NotComplete(t, i);
  }

  lemma EnterProgress<M>(s: State<M>, i: nat, c: BarrierCall<M>)
    requires Inv(s) && Enabled(s, Enter(i, c)) && Ordinary(s, Enter(i, c)) && AllAlive(s)
    ensures var t := Apply(s, Enter(i, c));
      AllAlive(t) && (t.releases == s.releases + 1 || (t.releases == s.releases && Closer(t, s)))
  {
    assert s.Shape();
    hide Inv, RunLoop, Reruns;
    ArriveInv(s, i, c);
    var u := Arrive(s, i, c);
    SectionOutcome(u, i);
  }

  lemma DrainProgress<M>(s: State<M>, i: nat)
    requires Inv(s) && Enabled(s, Wake(i, false)) && s.slots[i].waitIdx < 0 && AllAlive(s)
    ensures var t := Apply(s, Wake(i, false)); AllAlive(t) && t.releases == s.releases && Closer(t, s)
  {
    assert SlotOk(s, i);
  }

  lemma InstallProgress<M>(s: State<M>, i: nat, pid: nat)
    requires Inv(s) && Enabled(s, Install(i, pid)) && AllAlive(s)
    ensures var t := Apply(s, Install(i, pid)); AllAlive(t) && t.releases == s.releases && Closer(t, s)
  {
    assert SlotOk(s, i);
  }

  /** A section of a waiting process whose timer has not expired: it releases the round, exits, passes the baton
      in a complete round, or just waits on in an incomplete one. */
  lemma SectionOutcome<M>(s: State<M>, me: nat)
    requires Inv(s) && Running(s, me) && Waiting(s, me) && !s.procs[me].loc.expired
    ensures var t := RunLoop(s, me);
      || t.procs[me].Exited?
      || (t.releases == s.releases + 1 && (AllAlive(s) ==> AllAlive(t)))
      || (s.condWaitCnt[s.curWaitIdx] == s.N() && exists g | 0 <= g < s.N() :: PassesTo(s, me, g))
      || (s.condWaitCnt[s.curWaitIdx] != s.N() && t == Block(s, me))
  {
    AtCurrentIndex(s, me);
    CheckWatchdogForm(s, me);
    if s.condWaitCnt[s.curWaitIdx] == s.N() {
      var t := RunLoop(s, me);
      if t.procs[me].Blocked? && t.slots[me].waitIdx >= 0 {
        WaitingOnForm(s, me);
      } else {
        SectionReleases(s, me);
        EndsSection(s, me);
      }
    }
  }

  /** A section in a complete round that does not end waiting ends outside, after a release, or in an exit. */
  lemma EndsSection<M>(s: State<M>, me: nat)
    requires Running(s, me) && s.slots[me].waitIdx >= 0 && s.condWaitCnt[s.procs[me].loc.waitIdx] == s.N()
    requires !s.procs[me].loc.expired
    requires !(RunLoop(s, me).procs[me].Blocked? && RunLoop(s, me).slots[me].waitIdx >= 0)
    ensures RunLoop(s, me).procs[me].Exited?
      || (RunLoop(s, me).releases == s.releases + 1 && (AllAlive(s) ==> AllAlive(RunLoop(s, me))))
  {
    var l := s.procs[me].loc;
    if l.action.NoAction? || Eligible(l.who, me) {
      RunnerForm(s, me);
      hide RunLoop, RunAction, CheckWatchdog, Leave, Release, Replace, AllAlive;
      match RunAction(s.slots, me, l.action)
      case Failed =>
      case Succeeded => ReleasedAlive(s, me);
      case Replacing(idx) => ReplacedAlive(s, me, idx);
      case Rerun => UnexpiredBlocks(SignalOne(s, FirstOther(me), l.waitIdx), me);
    } else {
      UnexpiredBlocks(SignalOne(s, Delegate(l.who), l.waitIdx), me);
      hide CheckWatchdog, RunAction;
    }
  }

  lemma ReleasedAlive<M>(s: State<M>, me: nat)
    requires Running(s, me)
    ensures var t := Leave(Release(s, s.procs[me].loc.waitIdx), me);
      t.releases == s.releases + 1 && (AllAlive(s) ==> AllAlive(t))
  {}

  lemma UnexpiredBlocks<M>(s: State<M>, me: nat)
    requires Running(s, me) && s.slots[me].waitIdx >= 0 && !s.procs[me].loc.expired
    ensures CheckWatchdog(s, me) == Block(s, me)
  {}

  lemma ReplacedAlive<M>(s: State<M>, me: nat, idx: nat)
    requires Running(s, me) && idx < s.N() && idx != me
    ensures var t := Leave(Release(Replace(s, me, idx, PendingDrain(s.procs[me].loc, s.slots[me])),
      s.procs[me].loc.waitIdx), me);
      t.releases == s.releases + 1 && (AllAlive(s) ==> AllAlive(t))
  {}

  lemma WakeProgress<M>(s: State<M>, i: nat, who: WaitAction)
    requires Inv(s) && Enabled(s, Wake(i, false)) && Ordinary(s, Wake(i, false)) && AllAlive(s) && Uniform(s, who)
    requires s.slots[i].waitIdx >= 0
    ensures var t := Apply(s, Wake(i, false));
      && AllAlive(t)
      && (t.releases == s.releases + 1 || (t.releases == s.releases && (Closer(t, s) || SameDistance(t, s))))
      && (Helpful(s, i) ==> t.releases == s.releases + 1 || Closer(t, s))
  {
    var u := Resume(s, i, false);
    ResumeInv(s, i, false);
    assert Waiting(s, i);
    SectionOutcome(u, i);
    if exists g | 0 <= g < u.N() :: u.condWaitCnt[u.curWaitIdx] == u.N() && PassesTo(u, i, g) {
      var g :| 0 <= g < u.N() && PassesTo(u, i, g);
      BatonProgress(s, i, g, who);
    }
  }

  lemma BatonProgress<M>(s: State<M>, i: nat, g: nat, who: WaitAction)
    requires Inv(s) && Enabled(s, Wake(i, false)) && AllAlive(s) && Uniform(s, who) && Waiting(s, i)
    requires s.condWaitCnt[s.curWaitIdx] == s.N() && g < s.N() && Running(Resume(s, i, false), i)
      && PassesTo(Resume(s, i, false), i, g)
    ensures var t := RunLoop(Resume(s, i, false), i);
      && AllAlive(t) && t.releases == s.releases && (Closer(t, s) || SameDistance(t, s))
      && (Helpful(s, i) ==> Closer(t, s))
  {
    CompleteAllWait(s);
    assert Waiting(s, g) && SlotOk(s, g) && SlotOk(s, i);
    AtCurrentIndex(s, i);
    BatonReady(s, i, g);
    hide Inv, RunLoop, ReadyToRelease, Enabled, Resume, Uniform;
    var t := RunLoop(Resume(s, i, false), i);
    assert Reruns(t) == 0;
  }

  lemma BatonReady<M>(s: State<M>, i: nat, g: nat)
    requires Running(s, i) && g < s.N() && Running(s, g) && Running(Resume(s, i, false), i)
      && PassesTo(Resume(s, i, false), i, g)
    requires s.procs[i].loc.who == s.procs[g].loc.who && s.procs[i].loc.waitIdx == s.procs[g].loc.waitIdx && AllAlive(s)
    requires !s.procs[i].loc.action.NoAction?
    ensures var t := RunLoop(Resume(s, i, false), i);
      && t == s.(procs := t.procs) && AllAlive(t) && ReadyToRelease(t, g) && !ReadyToRelease(s, i)
  {
    hide RunLoop, VoteOutcome;
    OtherIsGood(s.slots, i, g, s.procs[i].loc.action, s.procs[g].loc.action);
  }

  /** If the vote of i must be rerun, a vote of g need not be. */
  lemma OtherIsGood(slots: seq<Slot>, i: nat, g: nat, ai: Action, ag: Action)
    requires g != i && (ag.Vote? ==> |slots| == 3 && ai.Vote? && VoteOutcome(slots, i).Rerun?)
    ensures !RunAction(slots, g, ag).Rerun?
  {}

  /** A helpful process stays helpful until it moves itself or the distance shrinks: weak fairness is enough. */
  lemma HelpfulStable<M>(s: State<M>, step: Step<M>, who: WaitAction, h: nat)
    requires Inv(s) && Enabled(s, step) && Ordinary(s, step) && AllAlive(s) && Uniform(s, who)
    requires h < s.N() && h != step.i && Helpful(s, h)
    ensures var t := Apply(s, step);
      t.releases == s.releases + 1 || Closer(t, s) || (t.releases == s.releases && Helpful(t, h))
  {
    StepProgress(s, step, who);
    var t := Apply(s, step);
    match step
    case Compute(i, _) =>
      NotComplete(s, i);
      StepInv(s, step);
      NotComplete(t, i);
    case Enter(i, c) => EnterProgress(s, i, c);
    case Install(i, pid) => InstallProgress(s, i, pid);
    case Wake(i, timedOut) =>
      if s.slots[i].waitIdx < 0 {
        DrainProgress(s, i);
      } else {
        WakeKeepsHelpful(s, i, who, h);
      }
  }

  lemma WakeKeepsHelpful<M>(s: State<M>, i: nat, who: WaitAction, h: nat)
    requires Inv(s) && Enabled(s, Wake(i, false)) && Ordinary(s, Wake(i, false)) && AllAlive(s) && Uniform(s, who)
    requires s.slots[i].waitIdx >= 0 && h < s.N() && h != i && Helpful(s, h)
    ensures var t := Apply(s, Wake(i, false));
      t.releases == s.releases + 1 || Closer(t, s) || (t.releases == s.releases && Helpful(t, h))
  {
    hide Inv, RunLoop;
    var u := Resume(s, i, false);
    var t := RunLoop(u, i);
    ResumeInv(s, i, false);
    assert Waiting(s, i);
    SectionOutcome(u, i);
    WakeProgress(s, i, who);
    if exists g | 0 <= g < u.N() :: u.condWaitCnt[u.curWaitIdx] == u.N() && PassesTo(u, i, g) {
      var g :| 0 <= g < u.N() && PassesTo(u, i, g);
      BatonKeepsHelpful(s, i, g, who, h);
    }
  }

  lemma BatonKeepsHelpful<M>(s: State<M>, i: nat, g: nat, who: WaitAction, h: nat)
    requires Inv(s) && Enabled(s, Wake(i, false)) && AllAlive(s) && Uniform(s, who) && Waiting(s, i)
    requires s.condWaitCnt[s.curWaitIdx] == s.N() && g < s.N() && Running(Resume(s, i, false), i)
      && PassesTo(Resume(s, i, false), i, g)
    requires h < s.N() && h != i && Helpful(s, h)
    ensures var t := RunLoop(Resume(s, i, false), i);
      t.releases == s.releases && (Closer(t, s) || Helpful(t, h))
  {
    hide RunLoop, ReadyToRelease, PassesTo, Resume;
    CompleteAllWait(s);
    assert Waiting(s, g) && SlotOk(s, g) && SlotOk(s, i);
    AtCurrentIndex(s, i);
    CountBoth(s.procs);
    BatonProgress(s, i, g, who);
    BatonReady(s, i, g);
    BatonKeepsReady(s, i, g, h);
    hide Inv, Enabled, Uniform, SlotOk, Waiting, Running;
  }

  lemma BatonKeepsReady<M>(s: State<M>, i: nat, g: nat, h: nat)
    requires Running(s, i) && g < s.N() && Running(Resume(s, i, false), i) && PassesTo(Resume(s, i, false), i, g)
    requires h < s.N() && h != i && s.procs[h].Blocked? && s.procs[h].signalled
    ensures var t := RunLoop(Resume(s, i, false), i);
      t.procs[h] == s.procs[h] && (ReadyToRelease(s, h) ==> ReadyToRelease(t, h))
  {
    hide RunLoop, RunAction;
  }
}
