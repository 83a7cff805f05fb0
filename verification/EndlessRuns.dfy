/** Endless runs that meet the assumptions of the liveness theorems: a replica dies at a vote barrier and is replaced,
    and from then on all three vote, round after round. */
module EndlessRuns {
  import opened Compare
  import opened Barrier
  import opened BarrierInv
  import opened BarrierRounds
  import opened BarrierProgress
  import opened BarrierLiveness
  import opened OneRound
  import BarrierInputs

  function Voting<M>(m: M): BarrierCall<M> {
    BarrierCall(Vote, AnyProcess, ZERO_ARGS, m)
  }

  // ----- Up to the crash

  /** Three processes with memory m, right after startup. */
  function Three<M>(m: M): State<M> {
    var parent := InitSlot(ZERO_SLOT, 1);
    var child := PendingStart(m, parent);
    State(0, [0, 0], false, [parent, ZERO_SLOT, ZERO_SLOT], [Outside(m), child, child], 0, [0, 0, 0])
  }

  function Started<M>(m: M): (s: State<M>)
    ensures Between(s)
  {
    State(0, [0, 0], false, [InitSlot(ZERO_SLOT, 1), InitSlot(ZERO_SLOT, 2), InitSlot(ZERO_SLOT, 3)],
          [Outside(m), Outside(m), Outside(m)], 0, [0, 0, 0])
  }

  /** Processes 0 and 1 wait for a vote, and process 2 has died. */
  function Crashed<M>(m: M): State<M> {
    var s := TwoIn(Started(m), 0, Voting(m), 1, Voting(m));
    s.(procs := s.procs[2 := Exited])
  }

  lemma ReachCrashed<M>(m: M) returns (run: seq<State<M>>, steps: seq<Step<M>>)
    ensures IsRun(run, steps) && run[|steps|] == Crashed(m)
    ensures steps == [Install(1, 2), Install(2, 3), Enter(0, Voting(m)), Enter(1, Voting(m)), Crash(2)]
  {
    hide Apply, IsRun;
    run, steps := ReachStarted(m);
    var s, c := Started(m), Voting(m);
    FirstComes(s, 0, c);
    run, steps := BarrierInputs.Go(run, steps, Enter(0, c));
    SecondComes(s, 0, c, 1, c);
    run, steps := BarrierInputs.Go(run, steps, Enter(1, c));
    Dies(TwoIn(s, 0, c, 1, c), 2);
    run, steps := BarrierInputs.Go(run, steps, Crash(2));
  }

  lemma ReachStarted<M>(m: M) returns (run: seq<State<M>>, steps: seq<Step<M>>)
    ensures IsRun(run, steps) && run[|steps|] == Started(m) && steps == [Install(1, 2), Install(2, 3)]
  {
    run, steps := [Three(m)], [];
    run, steps := BarrierInputs.Go(run, steps, Install(1, 2));
    run, steps := BarrierInputs.Go(run, steps, Install(2, 3));
  }

  lemma Dies<M>(s: State<M>, i: nat)
    requires s.Shape() && Enabled(s, Crash(i))
    ensures Apply(s, Crash(i)) == s.(procs := s.procs[i := Exited])
  {}

  // ----- The run

  /** The timer of process 0 expires; its child gets the lock; 0 and 1 leave; and then all vote again and again. */
  function StepAt<M>(m: M, k: nat): Step<M> {
    match k
    case 0 => Wake(0, true)
    case 1 => Install(2, 4)
    case 2 => Wake(0, false)
    case 3 => Wake(1, false)
    case _ =>
      match (k - 4) % 5
      case 0 => Enter(0, Voting(m))
      case 1 => Enter(1, Voting(m))
      case 2 => Enter(2, Voting(m))
      case 3 => Wake(0, false)
      case _ => Wake(1, false)
  }

  ghost function RunAt<M>(m: M, k: nat): State<M> {
    if k == 0 then Crashed(m)
    else
      var s := RunAt(m, k - 1);
      if s.Shape() && Enabled(s, StepAt(m, k - 1)) then Apply(s, StepAt(m, k - 1)) else s
  }

  lemma Onward<M>(m: M, k: nat)
    requires RunAt(m, k).Shape() && Enabled(RunAt(m, k), StepAt(m, k))
    ensures RunAt(m, k + 1) == Apply(RunAt(m, k), StepAt(m, k))
  {}

  // ----- The recovery

  /** After the fork; after the child's release; and when all are outside again. */
  function Forking<M>(m: M): State<M> {
    var s := Crashed(m);
    s.(restoring := true, slots := s.slots[2 := ZERO_SLOT],
       procs := [Blocked(Local(0, Vote, AnyProcess, true, m), false), s.procs[1],
         PendingWait(Local(0, Vote, AnyProcess, true, m), s.slots[0], 0)])
  }

  function Recovered<M>(m: M): State<M> {
    State(1, [2, 0], false, Cells(),
          [Blocked(Local(0, Vote, AnyProcess, true, m), true), Blocked(Local(0, Vote, AnyProcess, false, m), true),
           Outside(m)], 1, [0, 0, 1])
  }

  function Cells(): seq<Slot> {
    [InitSlot(ZERO_SLOT, 1), InitSlot(ZERO_SLOT, 2), InitSlot(ZERO_SLOT, 4)]
  }

  function Again<M>(m: M): (s: State<M>)
    ensures Between(s)
  {
    State(1, [0, 0], false, Cells(), [Outside(m), Outside(m), Outside(m)], 1, [1, 1, 1])
  }

  function Leaving1<M>(m: M): State<M> {
    Recovered(m).(condWaitCnt := [1, 0], left := [1, 0, 1],
                  procs := [Outside(m), Blocked(Local(0, Vote, AnyProcess, false, m), true), Outside(m)])
  }

  lemma Forks<M>(m: M)
    ensures var s := Crashed(m);
      && Inv(s) && s.Shape() && OneMissing(s, 2) && Waiting(s, 0) && Enabled(s, Wake(0, true))
      && Apply(s, Wake(0, true)) == Forking(m)
  {
    var run, steps := ReachCrashed(m);
    RunInv(run, steps, |steps|);
    var s := Crashed(m);
    hide Inv, Apply, IsRun;
    WatchdogForks(s, 0, true, 2);
    assert Block(Fork(Resume(s, 0, true), 0, 2), 0).procs == Forking(m).procs;
    assert Block(Fork(Resume(s, 0, true), 0, 2), 0).slots == Forking(m).slots;
    assert Block(Fork(Resume(s, 0, true), 0, 2), 0).left == Forking(m).left;
  }

  lemma Recovers<M>(m: M)
    ensures var s := Forking(m);
      s.Shape() && Enabled(s, Install(2, 4)) && Apply(s, Install(2, 4)) == Recovered(m)
  {
    var s := Forking(m);
    var u := Installed(s, 2, 4);
    var a := Args(u.slots);
    assert a[0] == a[1] && a[1] == a[2];
    RunnerForm(u, 2);
    hide RunLoop;
    var t := Leave(Release(u, 0), 2);
    assert t.procs == Recovered(m).procs;
    assert t.slots == Recovered(m).slots;
  }

  /** The wake-ups of process 1, and of process 0, whose timer has expired, are ordinary now. */
  lemma Leaves<M>(m: M)
    ensures var s := Recovered(m);
      && s.Shape() && Enabled(s, Wake(0, false)) && Apply(s, Wake(0, false)) == Leaving1(m)
      && s.procs[0].loc.expired && Ordinary(s, Wake(0, false))
    ensures var s := Leaving1(m);
      && s.Shape() && Enabled(s, Wake(1, false)) && Apply(s, Wake(1, false)) == Again(m) && Ordinary(s, Wake(1, false))
  {
    Drains(Recovered(m), 0);
    Drains(Leaving1(m), 1);
  }

  // ----- The rounds after it

  /** The five states of a round that begins in state b. */
  ghost function Phase<M>(b: State<M>, m: M, r: nat): (s: State<M>)
    requires Between(b) && r < 5
    ensures s.Shape()
  {
    var c := Voting(m);
    match r
    case 0 => b
    case 1 => OneIn(b, 0, c)
    case 2 => TwoIn(b, 0, c, 1, c)
    case 3 =>
      EndedLeaves(b, 0, c, 1, c, 2, c);
      Ended(b, 0, c, 1, c, 2, c)
    case _ =>
      EndedLeaves(b, 0, c, 1, c, 2, c);
      Leave(Ended(b, 0, c, 1, c, 2, c), 0)
  }

  ghost function Base<M>(m: M, n: nat): (b: State<M>)
    ensures Between(b)
  {
    if n == 0 then Again(m) else After(Base(m, n - 1), 0, Voting(m), 1, Voting(m), 2, Voting(m))
  }

  function StepIn<M>(m: M, r: nat): Step<M>
    requires r < 5
  {
    StepAt(m, 4 + r)
  }

  lemma AllVoteAlike<M>(b: State<M>, m: M)
    requires Between(b)
    ensures RunAction(AllIn(b, 0, Voting(m), 1, Voting(m), 2, Voting(m)), 2, Vote).Succeeded?
  {
    var a := Args(AllIn(b, 0, Voting(m), 1, Voting(m), 2, Voting(m)));
    assert a[0] == a[1] && a[1] == a[2];
  }

  lemma PhaseGoes<M>(b: State<M>, m: M, r: nat)
    requires Between(b) && r < 5
    ensures var s := Phase(b, m, r); var c := Voting(m);
      && Enabled(s, StepIn(m, r))
      && Apply(s, StepIn(m, r)) == (if r < 4 then Phase(b, m, r + 1) else After(b, 0, c, 1, c, 2, c))
      && Ordinary(s, StepIn(m, r))
  {
    hide Apply;
    var c := Voting(m);
    match r
    case 0 => FirstComes(b, 0, c);
    case 1 => SecondComes(b, 0, c, 1, c);
    case 2 =>
      AllVoteAlike(b, m);
      ThirdEnds(b, 0, c, 1, c, 2, c);
    case 3 =>
      EndedLeaves(b, 0, c, 1, c, 2, c);
      Drains(Phase(b, m, 3), 0);
    case _ =>
      EndedLeaves(b, 0, c, 1, c, 2, c);
      Drains(Phase(b, m, 4), 1);
  }

  lemma StepInCycle<M>(m: M, n: nat, r: nat)
    requires r < 5
    ensures StepAt(m, 4 + 5 * n + r) == StepIn(m, r)
  {
    assert (5 * n + r) % 5 == r;
  }

  lemma Beginning<M>(m: M)
    ensures RunAt(m, 0) == Crashed(m) && RunAt(m, 1) == Forking(m) && RunAt(m, 2) == Recovered(m)
    ensures RunAt(m, 3) == Leaving1(m) && RunAt(m, 4) == Again(m)
  {
    Forks(m);
    Recovers(m);
    Leaves(m);
    hide Crashed, Forking, Recovered, Leaving1, Again, Inv, Enabled, Apply, Ordinary;
    Onward(m, 0);
    Onward(m, 1);
    Onward(m, 2);
    Onward(m, 3);
  }

  lemma {:induction false} InCycle<M>(m: M, n: nat, r: nat)
    requires r < 5
    ensures RunAt(m, 4 + 5 * n + r) == Phase(Base(m, n), m, r)
    decreases 5 * n + r
  {
    hide Enabled, Apply, Ordinary, After, Phase, RunAt;
    if r > 0 {
      InCycle(m, n, r - 1);
      PhaseGoes(Base(m, n), m, r - 1);
      StepInCycle(m, n, r - 1);
      Onward(m, 4 + 5 * n + (r - 1));
    } else if n > 0 {
      InCycle(m, n - 1, 4);
      PhaseGoes(Base(m, n - 1), m, 4);
      StepInCycle(m, n - 1, 4);
      Onward(m, 4 + 5 * (n - 1) + 4);
      PhaseZero(Base(m, n), m);
    } else {
      Beginning(m);
      PhaseZero(Base(m, 0), m);
    }
  }

  lemma PhaseZero<M>(b: State<M>, m: M)
    requires Between(b)
    ensures Phase(b, m, 0) == b
  {}

  // ----- The assumptions are met

  /** At every time the next step is possible, and from the recovery on it is ordinary. */
  lemma AllGoes<M>(m: M, k: nat)
    ensures var s := RunAt(m, k);
      && s.Shape() && Enabled(s, StepAt(m, k)) && RunAt(m, k + 1) == Apply(s, StepAt(m, k))
      && (k > 1 ==> Ordinary(s, StepAt(m, k)))
  {
    hide Enabled, Apply, Ordinary, Phase, RunAt, Crashed, Forking, Recovered, Leaving1, Again, Inv;
    if k < 4 {
      Beginning(m);
      Forks(m);
      Recovers(m);
      Leaves(m);
    } else {
      var n, r := (k - 4) / 5, (k - 4) % 5;
      assert k == 4 + 5 * n + r;
      InCycle(m, n, r);
      PhaseGoes(Base(m, n), m, r);
      StepInCycle(m, n, r);
    }
    Onward(m, k);
  }

  /** Process h moves again and again. */
  lemma MovesLater<M>(m: M, h: nat, k: nat) returns (j: nat)
    requires h < 3
    ensures j >= k && Moves(StepAt(m, j), h)
  {
    j := 4 + 5 * k + h;
    StepInCycle(m, k, h);
  }

  lemma FairRun<M(!new)>(m: M, d: nat)
    ensures Fair((k: nat) => RunAt(m, k + d), (k: nat) => StepAt(m, k + d))
  {
    hide RunAt, StepAt, Moves, Helpful;
    var run, steps := (k: nat) => RunAt(m, k + d), (k: nat) => StepAt(m, k + d);
    forall h: nat, k: nat | AlwaysHelpful(run, h, k) ensures exists j: nat :: j >= k && Moves(steps(j), h) {
      ThreeProcesses(m, k + d);
      assert CanHelp(run(k), h);
      var j := MovesLater(m, h, k + d);
      assert Moves(steps(j - d), h);
    }
  }

  lemma ThreeProcesses<M>(m: M, k: nat)
    ensures RunAt(m, k).N() == 3
  {
    hide RunAt, Phase;
    Beginning(m);
    if k >= 4 {
      var n, r := InRound(k);
      InCycle(m, n, r);
      ThreeInPhase(Base(m, n), m, r);
    }
  }

  lemma InRound(k: nat) returns (n: nat, r: nat)
    requires k >= 4
    ensures k == 4 + 5 * n + r && r < 5
  {
    n, r := (k - 4) / 5, (k - 4) % 5;
  }

  lemma ThreeInPhase<M>(b: State<M>, m: M, r: nat)
    requires Between(b) && r < 5
    ensures Phase(b, m, r).N() == 3
  {}

  /** The situation of CrashRecovered, reached from startup: a run that meets its assumptions, with the replica that has
      died in slot 2, the timer that expires in slot 0, and the child's first lock at time 1. */
  lemma CrashInput<M(!new)>(m: M) returns (run: nat -> State<M>, steps: nat -> Step<M>)
    ensures run(0) == Crashed(m) && run(0).procs[2].Exited?
    ensures Going(run, steps) && Fair(run, steps) && Inv(run(0)) && OneMissing(run(0), 2) && !run(0).restoring
    ensures Waiting(run(0), 0) && steps(0) == Wake(0, true) && run(0).procs[0].loc.action.Vote?
    ensures TakesLock(steps(1), 2)
    ensures forall k: nat :: run(k).Shape() && Enabled(run(k), steps(k)) && (k > 1 ==> Ordinary(run(k), steps(k)))
  {
    run, steps := (k: nat) => RunAt(m, k + 0), (k: nat) => StepAt(m, k + 0);
    Forks(m);
    FairRun(m, 0);
    hide Enabled, Apply, Ordinary, RunAt, Inv, Fair;
    forall k: nat
      ensures run(k).Shape() && Enabled(run(k), steps(k)) && run(k + 1) == Apply(run(k), steps(k))
      ensures k > 1 ==> Ordinary(run(k), steps(k))
    {
      AllGoes(m, k);
    }
    assert Going(run, steps);
    Beginning(m);
  }

  /** Whoever waits in these rounds votes. */
  lemma UniformPhase<M>(b: State<M>, m: M, r: nat)
    requires Between(b) && r < 5
    ensures Uniform(Phase(b, m, r), AnyProcess)
  {
    if r >= 3 {
      EndedLeaves(b, 0, Voting(m), 1, Voting(m), 2, Voting(m));
    }
  }

  /** The situation of EventuallyReleased and EventuallyLeft, for any number of rounds: what follows the recovery. */
  lemma EndlessInput<M(!new)>(m: M, n: nat)
    returns (run: nat -> State<M>, steps: nat -> Step<M>, who: nat -> WaitAction)
    ensures Endless(run, steps, who, n) && Fair(run, steps)
  {
    hide Enabled, Apply, Ordinary, RunAt, StepAt, Inv, NotLost, AllAlive, Uniform, Fair, Phase, Again;
    run, steps, who := (k: nat) => RunAt(m, k + 4), (k: nat) => StepAt(m, k + 4), (r: nat) => AnyProcess;
    FairRun(m, 4);
    AgainLive(m);
    Beginning(m);
    forall k: nat ensures GoesOn(run, steps, who, n, k) {
      AllGoes(m, k + 4);
      var c, r := InRound(k + 4);
      InCycle(m, c, r);
      UniformPhase(Base(m, c), m, r);
    }
  }

  lemma AgainLive<M>(m: M)
    ensures Inv(Again(m)) && NotLost(Again(m)) && AllAlive(Again(m))
  {
    CountNone(Again(m).procs, 0);
    CountNone(Again(m).procs, 1);
  }
}
