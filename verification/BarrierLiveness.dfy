/** Under fair scheduling every round of live replicas is released, and everybody leaves it. */
module BarrierLiveness {
  import opened Barrier
  import opened BarrierInv
  import opened BarrierRounds
  import opened BarrierProgress

  /** An endless run of live replicas; in each of the next n rounds all who wait make the same kind of call. */
  ghost predicate Endless<M(!new)>(run: nat -> State<M>, steps: nat -> Step<M>, who: nat -> WaitAction, n: nat) {
    && Inv(run(0)) && NotLost(run(0)) && AllAlive(run(0))
    && forall k: nat :: GoesOn(run, steps, who, n, k)
  }

  ghost predicate GoesOn<M(!new)>(run: nat -> State<M>, steps: nat -> Step<M>, who: nat -> WaitAction, n: nat, k: nat) {
    && run(k).Shape() && Enabled(run(k), steps(k)) && run(k + 1) == Apply(run(k), steps(k))
    && Ordinary(run(k), steps(k)) && (Coming(run, n, k) ==> Uniform(run(k), who(run(k).releases)))
  }

  /** At time k the last of the next n rounds is yet to be released. */
  ghost predicate Coming<M(!new)>(run: nat -> State<M>, n: nat, k: nat) {
    run(k).releases < run(0).releases + n
  }

  ghost predicate Moves<M>(step: Step<M>, h: nat) {
    step.i == h && !step.Compute?
  }

  ghost predicate CanHelp<M>(s: State<M>, h: nat) {
    s.Shape() && h < s.N() && Helpful(s, h)
  }

  /** Weak fairness: a process that from time k on could always bring the release closer moves at some time. */
  ghost predicate Fair<M(!new)>(run: nat -> State<M>, steps: nat -> Step<M>) {
    forall h: nat, k: nat | AlwaysHelpful(run, h, k) :: exists j: nat :: j >= k && Moves(steps(j), h)
  }

  ghost predicate AlwaysHelpful<M(!new)>(run: nat -> State<M>, h: nat, k: nat) {
    forall j: nat | j >= k :: CanHelp(run(j), h)
  }

  lemma StepOf<M(!new)>(run: nat -> State<M>, steps: nat -> Step<M>, who: nat -> WaitAction, n: nat, k: nat)
    requires Endless(run, steps, who, n)
    ensures GoesOn(run, steps, who, n, k)
  {
    hide GoesOn, Inv;
  }

  /** The round in progress at time k is released at some time. */
  lemma {:induction false} ReleasedAfter<M(!new)>(
    run: nat -> State<M>, steps: nat -> Step<M>, who: nat -> WaitAction, n: nat, k: nat) returns (r: nat)
    requires Endless(run, steps, who, n) && Fair(run, steps) && GoesOn(run, steps, who, n, k) && Coming(run, n, k)
    ensures r > k && run(r).releases == run(k).releases + 1
    decreases run(k).condWaitCnt[1 - run(k).curWaitIdx], run(k).N() - run(k).condWaitCnt[run(k).curWaitIdx],
      Reruns(run(k))
  {
    hide Endless, Fair, GoesOn, Inv;
    if r0: nat :| r0 > k && run(r0).releases == run(k).releases + 1 {
      r := r0;
    } else {
      Reached(run, steps, who, n, k);
      NeverNegative(run(k));
      var j := CloserLater(run, steps, who, n, k);
      assert GoesOn(run, steps, who, n, j) by { StepOf(run, steps, who, n, j); }
      NeverReleased(run, steps, who, n, k, j);
      r := ReleasedAfter(run, steps, who, n, j);
    }
  }

  /** The next n rounds are released, one after the other. */
  lemma {:induction false} EventuallyReleased<M(!new)>(
    run: nat -> State<M>, steps: nat -> Step<M>, who: nat -> WaitAction, n: nat, m: nat)
    requires Endless(run, steps, who, n) && Fair(run, steps) && m <= n
    ensures exists k: nat :: run(k).releases == run(0).releases + m
  {
    if m == 0 {
      assert run(0).releases == run(0).releases + m;
    } else {
      EventuallyReleased(run, steps, who, n, m - 1);
      var k: nat :| run(k).releases == run(0).releases + (m - 1);
      assert GoesOn(run, steps, who, n, k);
      var r := ReleasedAfter(run, steps, who, n, k);
      assert run(r).releases == run(0).releases + m;
    }
  }

  /** ... and every process leaves all of them: none stays behind in the barrier. */
  lemma EventuallyLeft<M(!new)>(run: nat -> State<M>, steps: nat -> Step<M>, who: nat -> WaitAction, n: nat)
    requires Endless(run, steps, who, n) && Fair(run, steps)
    ensures exists k: nat :: HasLeft(run(k), run(0).releases + n)
  {
    EventuallyReleased(run, steps, who, n, n);
    var k: nat :| run(k).releases == run(0).releases + n;
    assert GoesOn(run, steps, who, n, k);
    var j := DrainedAfter(run, steps, who, n, k);
    assert HasLeft(run(j), run(0).releases + n);
  }

  /** Every process has left the first n rounds. */
  ghost predicate HasLeft<M>(s: State<M>, n: nat) {
    s.Shape() && forall i | 0 <= i < s.N() :: s.left[i] >= n
  }

  /** Who is not draining has left all released rounds. */
  lemma DrainedHasLeft<M>(s: State<M>)
    requires Inv(s) && NoDrainers(s)
    ensures HasLeft(s, s.releases)
  {
    forall i | 0 <= i < s.N() ensures s.left[i] >= s.releases {
      assert SlotOk(s, i) && !Draining(s, i);
    }
  }

  /** The processes that are still leaving the last round. */
  ghost function Leaving<M>(s: State<M>): int
    requires s.Shape()
  {
    s.condWaitCnt[1 - s.curWaitIdx]
  }

  /** Process h is draining, and has stayed in its place. */
  ghost predicate StillDraining<M>(s: State<M>, t: State<M>, h: nat)
    requires s.Shape()
  {
    && t.Shape() && t.releases == s.releases && t.N() == s.N() && Leaving(t) <= Leaving(s)
    && h < t.N() && Draining(t, h)
  }

  lemma DrainEnter<M>(s: State<M>, i: nat, c: BarrierCall<M>, h: nat)
    requires Inv(s) && Enabled(s, Enter(i, c)) && h < s.N() && Draining(s, h)
    ensures StillDraining(s, RunLoop(Arrive(s, i, c), i), h)
  {
    var u := Arrive(s, i, c);
    assert SlotOk(s, h) && SlotOk(s, i);
    ArriveInv(s, i, c);
    NotComplete(u, h);
    WaitsInIncomplete(u, i);
    hide Inv, RunLoop;
  }

  lemma DrainWake<M>(s: State<M>, i: nat, h: nat)
    requires Inv(s) && Enabled(s, Wake(i, false)) && !s.procs[i].loc.expired && h < s.N() && Draining(s, h)
    requires s.slots[i].waitIdx >= 0
    ensures StillDraining(s, RunLoop(Resume(s, i, false), i), h)
  {
    var u := Resume(s, i, false);
    assert SlotOk(s, h) && SlotOk(s, i);
    ResumeInv(s, i, false);
    NotComplete(u, h);
    WaitsInIncomplete(u, i);
    hide Inv, RunLoop;
  }

  /** While a process is draining no round is released; the moves of others leave it in its place, and its own move
      makes one less. */
  lemma DrainStep<M>(s: State<M>, step: Step<M>, h: nat)
    requires Inv(s) && Enabled(s, step) && Ordinary(s, step) && h < s.N() && Draining(s, h)
    ensures var t := Apply(s, step);
      && t.releases == s.releases && t.N() == s.N() && Leaving(t) <= Leaving(s)
      && (if step.i == h then Leaving(t) < Leaving(s) else Draining(t, h))
  {
    if s.restoring {
      RestoringMeansAllWait(s, h);
    }
    assert SlotOk(s, h) && SlotOk(s, step.i);
    hide Inv, Ordinary;
    match step
    case Compute(i, m) =>
    case Enter(i, c) =>
      hide RunLoop;
      DrainEnter(s, i, c, h);
    case Wake(i, timedOut) =>
      if s.slots[i].waitIdx >= 0 {
        assert !timedOut && !s.procs[i].loc.expired by { OrdinaryWake(s, i, timedOut); }
        DrainWake(s, i, h);
      }
    case Install(i, pid) =>
    case Crash(i) => OrdinaryCrash(s, i);
  }

  lemma OrdinaryWake<M>(s: State<M>, i: nat, timedOut: bool)
    requires s.Shape() && Enabled(s, Wake(i, timedOut)) && Ordinary(s, Wake(i, timedOut)) && Waiting(s, i)
    ensures !timedOut && !s.procs[i].loc.expired
  {}

  lemma OrdinaryCrash<M>(s: State<M>, i: nat)
    requires s.Shape() && Enabled(s, Crash(i))
    ensures !Ordinary(s, Crash(i))
  {}

  lemma WaitsInIncomplete<M>(s: State<M>, i: nat)
    requires Inv(s) && Running(s, i) && Waiting(s, i) && !s.procs[i].loc.expired && s.condWaitCnt[s.curWaitIdx] != s.N()
    ensures RunLoop(s, i) == Block(s, i)
  {
    AtCurrentIndex(s, i);
    assert RunLoop(s, i) == CheckWatchdog(s, i) == Block(s, i);
  }

  /** Who is draining could move. */
  lemma DrainingCanHelp<M>(s: State<M>, h: nat)
    requires Inv(s) && h < s.N() && Draining(s, h)
    ensures CanHelp(s, h) && Leaving(s) > 0
  {
    assert SlotOk(s, h);
    CountNone(s.procs, 1 - s.curWaitIdx);
    assert In(s.procs[h], 1 - s.curWaitIdx);
  }

  /** From k to j: either somebody has left, or h is still draining. */
  lemma {:induction false} WatchDrainer<M(!new)>(run: nat -> State<M>, steps: nat -> Step<M>, who: nat -> WaitAction,
    n: nat, k: nat, h: nat, j: nat) returns (less: bool, c: nat)
    requires Endless(run, steps, who, n) && run(k).Shape() && h < run(k).N() && Draining(run(k), h) && k <= j
    ensures less ==> c > k && run(c).Shape() && run(c).releases == run(k).releases && Leaving(run(c)) < Leaving(run(k))
    ensures !less ==>
      && run(j).Shape() && run(j).releases == run(k).releases && Leaving(run(j)) <= Leaving(run(k))
      && h < run(j).N() && Draining(run(j), h)
    decreases j
  {
    hide Inv, Draining, Enabled, NotLost, AllAlive, Uniform, Ordinary, Apply;
    if j == k {
      less, c := false, k;
    } else {
      less, c := WatchDrainer(run, steps, who, n, k, h, j - 1);
      if !less {
        Reached(run, steps, who, n, j - 1);
        assert GoesOn(run, steps, who, n, j - 1);
        hide Endless;
        DrainStep(run(j - 1), steps(j - 1), h);
        if steps(j - 1).i == h {
          less, c := true, j;
        }
      }
    }
  }

  lemma {:induction false} DrainedAfter<M(!new)>(
    run: nat -> State<M>, steps: nat -> Step<M>, who: nat -> WaitAction, n: nat, k: nat) returns (j: nat)
    requires Endless(run, steps, who, n) && Fair(run, steps) && run(k).Shape()
    ensures HasLeft(run(j), run(k).releases)
    decreases Leaving(run(k))
  {
    Reached(run, steps, who, n, k);
    NeverNegative(run(k));
    if NoDrainers(run(k)) {
      DrainedHasLeft(run(k));
      j := k;
    } else {
      var h :| 0 <= h < run(k).N() && Draining(run(k), h);
      var c := SomebodyLeaves(run, steps, who, n, k, h);
      j := DrainedAfter(run, steps, who, n, c);
    }
  }

  lemma SomebodyLeaves<M(!new)>(
    run: nat -> State<M>, steps: nat -> Step<M>, who: nat -> WaitAction, n: nat, k: nat, h: nat) returns (c: nat)
    requires Endless(run, steps, who, n) && Fair(run, steps) && run(k).Shape() && h < run(k).N() && Draining(run(k), h)
    ensures run(c).Shape() && run(c).releases == run(k).releases && Leaving(run(c)) < Leaving(run(k))
  {
    if AlwaysHelpful(run, h, k) {
      var j: nat :| j >= k && Moves(steps(j), h);
      var less, c0 := WatchDrainer(run, steps, who, n, k, h, j);
      c := if less then c0 else j + 1;
      if !less {
        Reached(run, steps, who, n, j);
        assert GoesOn(run, steps, who, n, j);
        hide Endless, Inv, Draining, Enabled;
        DrainStep(run(j), steps(j), h);
      }
    } else {
      var j: nat :| j >= k && !CanHelp(run(j), h);
      var less, c0 := WatchDrainer(run, steps, who, n, k, h, j);
      c := c0;
      if !less {
        Reached(run, steps, who, n, j);
        DrainingCanHelp(run(j), h);
      }
    }
  }

  lemma NeverNegative<M>(s: State<M>)
    requires Inv(s)
    ensures 0 <= s.condWaitCnt[0] <= s.N() && 0 <= s.condWaitCnt[1] <= s.N()
  {}

  lemma {:induction false} Reached<M(!new)>(run: nat -> State<M>, steps: nat -> Step<M>, who: nat -> WaitAction,
    n: nat, k: nat)
    requires Endless(run, steps, who, n)
    ensures Inv(run(k)) && NotLost(run(k)) && run(k).releases >= run(0).releases
    ensures Coming(run, n, k) ==> AllAlive(run(k)) && Uniform(run(k), who(run(k).releases))
  {
    hide Inv, NotLost, AllAlive, Uniform, Ordinary;
    assert GoesOn(run, steps, who, n, k);
    if k > 0 {
      Reached(run, steps, who, n, k - 1);
      assert GoesOn(run, steps, who, n, k - 1);
      hide Endless;
      StepInv(run(k - 1), steps(k - 1));
      StepNotLost(run(k - 1), steps(k - 1));
      OneReleasePerRound(run(k - 1), steps(k - 1));
      if Coming(run, n, k) {
        StepProgress(run(k - 1), steps(k - 1), who(run(k - 1).releases));
      }
    }
  }

  /** The round in progress at time k is not released at any later time. */
  ghost predicate NoRelease<M(!new)>(run: nat -> State<M>, k: nat) {
    forall r: nat :: r > k ==> run(r).releases != run(k).releases + 1
  }

  lemma {:induction false} NeverReleased<M(!new)>(
    run: nat -> State<M>, steps: nat -> Step<M>, who: nat -> WaitAction, n: nat, k: nat, j: nat)
    requires Endless(run, steps, who, n) && NoRelease(run, k) && k <= j
    ensures run(j).releases == run(k).releases
    decreases j
  {
    if k < j {
      NeverReleased(run, steps, who, n, k, j - 1);
      Reached(run, steps, who, n, j - 1);
      assert GoesOn(run, steps, who, n, j - 1);
      hide Inv;
      OneReleasePerRound(run(j - 1), steps(j - 1));
    }
  }

  /** As long as the round is not released, it comes closer to its release. */
  lemma CloserLater<M(!new)>(run: nat -> State<M>, steps: nat -> Step<M>, who: nat -> WaitAction, n: nat, k: nat)
    returns (c: nat)
    requires Endless(run, steps, who, n) && Fair(run, steps) && NoRelease(run, k) && Coming(run, n, k)
    ensures c > k && run(c).Shape() && run(k).Shape() && Closer(run(c), run(k))
  {
    Reached(run, steps, who, n, k);
    SomeoneHelpful(run(k), who(run(k).releases));
    var h :| 0 <= h < run(k).N() && Helpful(run(k), h);
    hide Inv, NotLost, AllAlive, Uniform, Helpful, Closer, Endless;
    if AlwaysHelpful(run, h, k) {
      var j: nat :| j >= k && Moves(steps(j), h);
      var closer, c0 := Watch(run, steps, who, n, k, h, j);
      if closer {
        c := c0;
      } else {
        c := j + 1;
        HelpfulMove(run, steps, who, n, k, h, j);
      }
    } else {
      var j: nat :| j >= k && !CanHelp(run(j), h);
      var closer, c0 := Watch(run, steps, who, n, k, h, j);
      c := c0;
    }
  }

  /** From k to j: either the release has come closer, or it is as far away and h is still helpful. */
  lemma {:induction false} Watch<M(!new)>(
    run: nat -> State<M>, steps: nat -> Step<M>, who: nat -> WaitAction, n: nat, k: nat, h: nat, j: nat)
      returns (closer: bool, c: nat)
    requires Endless(run, steps, who, n) && NoRelease(run, k) && Coming(run, n, k) && k <= j && CanHelp(run(k), h)
    ensures run(k).Shape()
    ensures closer ==> c > k && run(c).Shape() && Closer(run(c), run(k))
    ensures !closer ==> run(j).Shape() && SameDistance(run(j), run(k)) && CanHelp(run(j), h)
    decreases j
  {
    hide Inv, NotLost, AllAlive, Uniform, Helpful, Ordinary, Apply, Enabled;
    if k == j {
      closer, c := false, k;
    } else {
      closer, c := Watch(run, steps, who, n, k, h, j - 1);
      if !closer {
        var s, step, a := run(j - 1), steps(j - 1), who(run(j - 1).releases);
        Reached(run, steps, who, n, j - 1);
        NeverReleased(run, steps, who, n, k, j - 1);
        NeverReleased(run, steps, who, n, k, j);
        assert GoesOn(run, steps, who, n, j - 1);
        hide Endless, GoesOn, Closer, SameDistance, NoRelease;
        WatchStep(s, step, a, h, run(k));
        closer, c := Closer(run(j), run(k)), j;
      }
    }
  }

  lemma WatchStep<M>(s: State<M>, step: Step<M>, who: WaitAction, h: nat, r: State<M>)
    requires Inv(s) && Enabled(s, step) && Ordinary(s, step) && AllAlive(s) && Uniform(s, who) && CanHelp(s, h)
    requires r.Shape() && SameDistance(s, r) && Apply(s, step).releases != s.releases + 1
    ensures var t := Apply(s, step); Closer(t, r) || (SameDistance(t, r) && CanHelp(t, h))
  {
    hide Inv, AllAlive, Uniform, Helpful, Closer, SameDistance, Apply, Enabled;
    StepProgress(s, step, who);
    Transitive(Apply(s, step), s, r);
    if !Moves(step, h) {
      StaysHelpful(s, step, who, h);
    }
  }

  lemma HelpfulMove<M(!new)>(run: nat -> State<M>, steps: nat -> Step<M>, who: nat -> WaitAction, n: nat, k: nat,
    h: nat, j: nat)
    requires Endless(run, steps, who, n) && NoRelease(run, k) && Coming(run, n, k) && k <= j
    requires run(k).Shape() && CanHelp(run(j), h) && Moves(steps(j), h) && SameDistance(run(j), run(k))
    ensures run(j + 1).Shape() && Closer(run(j + 1), run(k))
  {
    Reached(run, steps, who, n, j);
    NeverReleased(run, steps, who, n, k, j);
    NeverReleased(run, steps, who, n, k, j + 1);
    assert GoesOn(run, steps, who, n, j);
    hide Endless, Inv, NotLost, AllAlive, Uniform, Helpful, Closer, SameDistance;
    StepProgress(run(j), steps(j), who(run(j).releases));
    Transitive(run(j + 1), run(j), run(k));
  }

  lemma Transitive<M>(t: State<M>, s: State<M>, r: State<M>)
    requires t.Shape() && s.Shape() && r.Shape() && SameDistance(s, r)
    ensures Closer(t, s) ==> Closer(t, r)
    ensures SameDistance(t, s) ==> SameDistance(t, r)
  {}

  /** A helpful process stays helpful also while it computes. */
  lemma StaysHelpful<M>(s: State<M>, step: Step<M>, who: WaitAction, h: nat)
    requires Inv(s) && Enabled(s, step) && Ordinary(s, step) && AllAlive(s) && Uniform(s, who)
    requires CanHelp(s, h) && !Moves(step, h)
    ensures var t := Apply(s, step);
      t.releases == s.releases + 1 || Closer(t, s) || (t.releases == s.releases && CanHelp(t, h))
  {
    if step.i == h {
      var t := Apply(s, step);
      NotComplete(s, h);
      StepInv(s, step);
      NotComplete(t, h);
    } else {
      HelpfulStable(s, step, who, h);
    }
  }

  // ----- A crash at the vote barrier

  ghost predicate Going<M(!new)>(run: nat -> State<M>, steps: nat -> Step<M>) {
    forall k: nat :: run(k).Shape() && Enabled(run(k), steps(k)) && run(k + 1) == Apply(run(k), steps(k))
  }

  ghost predicate TakesLock<M>(step: Step<M>, t: nat) {
    step.Install? && step.i == t
  }

  /** From the fork on, until the child takes the lock at time c. */
  lemma {:induction false} ChildPending<M(!new)>(run: nat -> State<M>, steps: nat -> Step<M>, i: nat, t: nat, k: nat)
    requires Going(run, steps) && Inv(run(0)) && OneMissing(run(0), t) && !run(0).restoring
    requires i < run(0).N() && Waiting(run(0), i) && steps(0) == Wake(i, true) && run(0).procs[i].loc.action.Vote?
    requires k > 0 && forall j: nat | 0 < j < k :: !TakesLock(steps(j), t)
    ensures var s := run(k);
      && Inv(s) && s.releases == run(0).releases && t < s.N() && s.procs[t].PendingWait? && s.procs[t].loc.action.Vote?
      && forall j | 0 <= j < s.N() && j != t :: s.procs[j].Blocked?
  {
    assert run(k - 1).Shape() && Enabled(run(k - 1), steps(k - 1)) && run(k - 1 + 1) == Apply(run(k - 1), steps(k - 1));
    hide Inv, Apply, Enabled, Going;
    if k == 1 {
      WatchdogForks(run(0), i, true, t);
      forall j | 0 <= j < run(1).N() && j != t ensures run(1).procs[j].Blocked? {
        assert Waiting(run(1), j);
      }
    } else {
      ChildPending(run, steps, i, t, k - 1);
      assert !TakesLock(steps(k - 1), t);
      ShapeOf(run(k - 1));
      RestoringWaits(run(k - 1), steps(k - 1), t);
    }
  }

  lemma ShapeOf<M>(s: State<M>)
    requires Inv(s)
    ensures s.Shape()
  {}

  /** The child's section releases the round, and all are alive. */
  lemma ChildRecovers<M>(s: State<M>, i: nat, pid: nat)
    requires Inv(s) && Enabled(s, Install(i, pid)) && s.procs[i].PendingWait? && s.procs[i].loc.action.Vote?
    ensures var t := Apply(s, Install(i, pid)); Inv(t) && NotLost(t) && AllAlive(t) && t.releases == s.releases + 1
  {
    StepNotLost(s, Install(i, pid));
    WatchdogRecovers(s, i, pid);
    hide Inv, Apply, Enabled, NotLost;
    var u, t := Installed(s, i, pid), Apply(s, Install(i, pid));
    forall j | 0 <= j < 3 ensures t.procs[j].Outside? || t.procs[j].Blocked? || t.procs[j].PendingDrain? {
      assert Repaired(u, t, i, s.procs[i].parent.args, j);
    }
  }

  lemma {:induction false} Onwards<M(!new)>(run: nat -> State<M>, steps: nat -> Step<M>, k: nat)
    requires Going(run, steps) && Inv(run(0))
    ensures Inv(run(k)) && run(k).releases >= run(0).releases
  {
    if k > 0 {
      Onwards(run, steps, k - 1);
      assert run(k - 1).Shape() && Enabled(run(k - 1), steps(k - 1))
        && run(k - 1 + 1) == Apply(run(k - 1), steps(k - 1));
      hide Inv, Apply, Enabled, Going;
      StepInv(run(k - 1), steps(k - 1));
      OneReleasePerRound(run(k - 1), steps(k - 1));
    }
  }

  /** Live replicas that are on their way out of a round all leave it, whatever they call next. */
  lemma AllLeave<M(!new)>(run: nat -> State<M>, steps: nat -> Step<M>) returns (k: nat)
    requires Going(run, steps) && Fair(run, steps) && Inv(run(0)) && NotLost(run(0)) && AllAlive(run(0))
    requires forall k: nat :: Ordinary(run(k), steps(k))
    ensures HasLeft(run(k), run(0).releases)
  {
    var who := (r: nat) => AnyProcess;
    forall k: nat ensures GoesOn(run, steps, who, 0, k) {
      Onwards(run, steps, k);
    }
    hide Inv, NotLost, AllAlive, GoesOn, HasLeft, Fair, Ordinary, Going;
    k := DrainedAfter(run, steps, who, 0, 0);
  }

  lemma FairLater<M(!new)>(run: nat -> State<M>, steps: nat -> Step<M>, c: nat)
    requires Fair(run, steps)
    ensures Fair((k: nat) => run(k + c), (k: nat) => steps(k + c))
  {
    var run', steps' := (k: nat) => run(k + c), (k: nat) => steps(k + c);
    forall h: nat, k: nat | AlwaysHelpful(run', h, k) ensures exists j: nat :: j >= k && Moves(steps'(j), h) {
      forall j: nat | j >= k + c ensures CanHelp(run(j), h) {
        assert CanHelp(run'(j - c), h);
      }
      assert AlwaysHelpful(run, h, k + c);
      var j: nat :| j >= k + c && Moves(steps(j), h);
      assert Moves(steps'(j - c), h);
    }
  }

  /** The same from time c on. */
  lemma AllLeaveLater<M(!new)>(run: nat -> State<M>, steps: nat -> Step<M>, c: nat) returns (k: nat)
    requires Going(run, steps) && Fair(run, steps) && Inv(run(c)) && NotLost(run(c)) && AllAlive(run(c))
    requires forall k: nat :: run(k).Shape() && Enabled(run(k), steps(k)) && (k >= c ==> Ordinary(run(k), steps(k)))
    ensures HasLeft(run(k), run(c).releases)
  {
    hide Inv, NotLost, AllAlive, HasLeft, Fair, Ordinary, Apply, Enabled;
    var run', steps' := (k: nat) => run(k + c), (k: nat) => steps(k + c);
    forall k: nat ensures Ordinary(run'(k), steps'(k)) {
      assert run(k + c).Shape();
    }
    assert Going(run', steps') by {
      forall k: nat
        ensures run'(k).Shape() && Enabled(run'(k), steps'(k)) && run'(k + 1) == Apply(run'(k), steps'(k)) {
        assert run(k + c + 1) == Apply(run(k + c), steps(k + c));
      }
    }
    FairLater(run, steps, c);
    var k' := AllLeave(run', steps');
    k := k' + c;
  }

  /** One replica has died, or hangs outside, while the others wait for a vote, and the timer of one of them expires.
      Whatever the scheduling, when its child gets the lock, at time c, the round is released, and all are alive. */
  lemma CrashReleased<M(!new)>(run: nat -> State<M>, steps: nat -> Step<M>, i: nat, t: nat, c: nat)
    requires Going(run, steps) && Inv(run(0)) && OneMissing(run(0), t) && !run(0).restoring
    requires i < run(0).N() && Waiting(run(0), i) && steps(0) == Wake(i, true) && run(0).procs[i].loc.action.Vote?
    requires c > 0 && TakesLock(steps(c), t) && forall j: nat | 0 < j < c :: !TakesLock(steps(j), t)
    ensures run(c).releases == run(0).releases && run(c + 1).releases == run(0).releases + 1
    ensures Inv(run(c + 1)) && NotLost(run(c + 1)) && AllAlive(run(c + 1))
  {
    assert run(c).Shape() && Enabled(run(c), steps(c)) && run(c + 1) == Apply(run(c), steps(c));
    hide Inv, NotLost, AllAlive, Apply, Enabled, Going;
    ChildPending(run, steps, i, t, c);
    ChildRecovers(run(c), t, steps(c).pid);
  }

  /** If from then on the replicas are live and scheduled fairly, every process leaves the round - also the one whose
      timer has expired. */
  lemma CrashRecovered<M(!new)>(run: nat -> State<M>, steps: nat -> Step<M>, i: nat, t: nat, c: nat)
    requires Going(run, steps) && Fair(run, steps) && Inv(run(0)) && OneMissing(run(0), t) && !run(0).restoring
    requires i < run(0).N() && Waiting(run(0), i) && steps(0) == Wake(i, true) && run(0).procs[i].loc.action.Vote?
    requires c > 0 && TakesLock(steps(c), t) && forall j: nat | 0 < j < c :: !TakesLock(steps(j), t)
    requires forall k: nat :: run(k).Shape() && Enabled(run(k), steps(k)) && (k > c ==> Ordinary(run(k), steps(k)))
    ensures exists k: nat :: HasLeft(run(k), run(0).releases + 1)
  {
    hide Inv, NotLost, AllAlive, HasLeft, Fair, Ordinary, Apply, Enabled, Going;
    CrashReleased(run, steps, i, t, c);
    var k := AllLeaveLater(run, steps, c + 1);
    assert HasLeft(run(k), run(0).releases + 1);
  }
}
