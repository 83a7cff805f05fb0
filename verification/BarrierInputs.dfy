/** Runs of two processes that reach the situations in which the barrier does less than it promises. */
module BarrierInputs {
  import opened Compare
  import opened Barrier
  import opened BarrierInv
  import opened BarrierRounds

  /** Two processes with memory m, right after startup. */
  function Two<M>(m: M): State<M> {
    var parent := InitSlot(ZERO_SLOT, 1);
    State(0, [0, 0], false, [parent, ZERO_SLOT], [Outside(m), PendingStart(m, parent)], 0, [0, 0])
  }

  function Plain<M>(m: M): BarrierCall<M> {
    BarrierCall(NoAction, AnyProcess, ZERO_ARGS, m)
  }

  function Master<M>(m: M): BarrierCall<M> {
    BarrierCall(Effect(true), MasterOnly, ZERO_ARGS, m)
  }

  /** One more step of a run. */
  lemma Go<M>(run: seq<State<M>>, steps: seq<Step<M>>, step: Step<M>) returns (r: seq<State<M>>, t: seq<Step<M>>)
    requires IsRun(run, steps) && run[|steps|].Shape() && Enabled(run[|steps|], step)
    ensures r == run + [Apply(run[|steps|], step)] && t == steps + [step] && IsRun(r, t)
  {
    r, t := run + [Apply(run[|steps|], step)], steps + [step];
    forall k | 0 <= k < |t| ensures r[k].Shape() && Enabled(r[k], t[k]) && r[k + 1] == Apply(r[k], t[k]) {
      if k < |steps| {
        assert r[k] == run[k] && r[k + 1] == run[k + 1] && t[k] == steps[k];
      }
    }
  }

  /** Both processes are installed and outside. */
  lemma BothStarted<M>(m: M) returns (run: seq<State<M>>, steps: seq<Step<M>>)
    ensures IsRun(run, steps) && steps == [Install(1, 2)]
    ensures run[1] == Two(m).(slots := [InitSlot(ZERO_SLOT, 1), InitSlot(ZERO_SLOT, 2)],
      procs := [Outside(m), Outside(m)])
  {
    run, steps := [Two(m)], [];
    assert IsRun(run, steps);
    run, steps := Go(run, steps, Install(1, 2));
  }

  /** A process that arrives in a round that stays incomplete waits. */
  lemma EnterWaits<M>(s: State<M>, i: nat, c: BarrierCall<M>)
    requires s.Shape() && Enabled(s, Enter(i, c)) && s.condWaitCnt[s.curWaitIdx] + 1 != s.N()
    ensures Apply(s, Enter(i, c)) == Block(Arrive(s, i, c), i)
  {
    var u := Arrive(s, i, c);
    assert RunLoop(u, i) == CheckWatchdog(u, i) == Block(u, i);
  }

  /** A slave that completes a master round wakes up the master and waits. */
  lemma SlaveCompletes<M>(s: State<M>, i: nat, m: M)
    requires s.Shape() && Enabled(s, Enter(i, Master(m))) && s.condWaitCnt[s.curWaitIdx] + 1 == s.N() && i != 0
    ensures Apply(s, Enter(i, Master(m))) == Block(SignalOne(Arrive(s, i, Master(m)), 0, s.curWaitIdx), i)
  {
    var u := Arrive(s, i, Master(m));
    var v := SignalOne(u, 0, s.curWaitIdx);
    assert RunLoop(u, i) == CheckWatchdog(v, i) == Block(v, i);
  }

  /** The master waits at a master barrier. */
  lemma MasterWaits<M>(m: M) returns (run: seq<State<M>>, steps: seq<Step<M>>)
    ensures IsRun(run, steps) && steps == [Install(1, 2), Enter(0, Master(m))]
    ensures run[2] == State(
      0, [1, 0], false, [InitSlot(ZERO_SLOT, 1).(waitIdx := 0), InitSlot(ZERO_SLOT, 2)],
      [Blocked(Local(0, Effect(true), MasterOnly, false, m), false), Outside(m)], 0, [0, 0])
  {
    run, steps := BothStarted(m);
    EnterWaits(run[1], 0, Master(m));
    run, steps := Go(run, steps, Enter(0, Master(m)));
  }

  /** Both processes arrive at a master barrier; then the timer of the slave expires before the master is awake. The
      slave, alive and in a complete round, exits. */
  lemma LateTimerInput<M>(m: M) returns (run: seq<State<M>>, steps: seq<Step<M>>)
    ensures IsRun(run, steps)
    ensures steps == [Install(1, 2), Enter(0, Master(m)), Enter(1, Master(m)), Wake(1, true)]
    ensures Waiting(run[3], 1) && run[3].condWaitCnt[run[3].curWaitIdx] == run[3].N() && !run[3].procs[1].loc.expired
    ensures run[4].procs[1].Exited?
  {
    run, steps := MasterWaits(m);
    SlaveCompletes(run[2], 1, m);
    run, steps := Go(run, steps, Enter(1, Master(m)));
    RunInv(run, steps, 3);
    run, steps := Go(run, steps, Wake(1, true));
    LateTimer(run[3], 1);
  }

  lemma WatchdogHasForked<M>(m: M) returns (run: seq<State<M>>, steps: seq<Step<M>>)
    ensures IsRun(run, steps) && steps == [Install(1, 2), Enter(0, Master(m)), Wake(0, true)]
    ensures run[3].Shape() && run[3].N() == 2 && Enabled(run[3], Install(1, 3)) && run[3].releases == 0
    ensures run[3].procs[1].PendingWait? && run[3].procs[1].loc == Local(0, Effect(true), MasterOnly, true, m)
    ensures run[3].procs[0].Blocked? && run[3].procs[0].loc.expired
  {
    run, steps := MasterWaits(m);
    RunInv(run, steps, 2);
    hide Apply, Inv, IsRun;
    WatchdogForks(run[2], 0, true, 1);
    run, steps := Go(run, steps, Wake(0, true));
  }

  /** The master waits at a master barrier and its timer expires; the watchdog's child, forked in the place of the
      slave, completes the round - and exits. The signal that it has sent to the master makes the master fork again,
      although its timer has not expired a second time. */
  lemma MasterBarrierInput<M>(m: M) returns (run: seq<State<M>>, steps: seq<Step<M>>)
    ensures IsRun(run, steps)
    ensures steps == [Install(1, 2), Enter(0, Master(m)), Wake(0, true), Install(1, 3), Wake(0, false)]
    ensures run[3].N() == 2 && run[3].procs[1].PendingWait? && run[4].procs[1].Exited? && run[4].releases == 0
    ensures !run[4].restoring && run[5].restoring && run[5].procs[1].PendingWait? && run[5].releases == 0
  {
    run, steps := WatchdogHasForked(m);
    RunInv(run, steps, 3);
    hide Apply, Inv, IsRun;
    WatchdogMasterBarrier(run[3], 1, 3);
    MasterChildExits(run[3], 1, 3);
    WatchdogForksAgain(run[3], 1, 3, 0, false);
    run, steps := Go(run, steps, Install(1, 3));
    run, steps := Go(run, steps, Wake(0, false));
  }

  /** The last process to arrive ends a round without an action. */
  lemma LastReleases<M>(s: State<M>, i: nat, m: M)
    requires s.Shape() && Enabled(s, Enter(i, Plain(m))) && s.condWaitCnt[s.curWaitIdx] + 1 == s.N()
    ensures Apply(s, Enter(i, Plain(m))) == Leave(Release(Arrive(s, i, Plain(m)), s.curWaitIdx), i)
  {}

  /** Process 0 is on its way out of the first round, and process 1 waits for the second. */
  function Draining0<M>(m: M): State<M> {
    State(1, [1, 1], false, [InitSlot(ZERO_SLOT, 1), InitSlot(ZERO_SLOT, 2).(waitIdx := 1)],
          [Blocked(Local(0, NoAction, AnyProcess, false, m), true),
            Blocked(Local(1, NoAction, AnyProcess, false, m), false)],
          1, [0, 1])
  }

  lemma ReachDraining0<M>(m: M) returns (run: seq<State<M>>, steps: seq<Step<M>>)
    ensures IsRun(run, steps)
    ensures steps == [Install(1, 2), Enter(0, Plain(m)), Enter(1, Plain(m)), Enter(1, Plain(m))]
    ensures run[4] == Draining0(m)
  {
    hide Apply;
    run, steps := BothStarted(m);
    EnterWaits(run[1], 0, Plain(m));
    run, steps := Go(run, steps, Enter(0, Plain(m)));
    LastReleases(run[2], 1, m);
    run, steps := Go(run, steps, Enter(1, Plain(m)));
    EnterWaits(run[3], 1, Plain(m));
    run, steps := Go(run, steps, Enter(1, Plain(m)));
  }

  /** Process 1 ends a round and is back at the barrier before process 0 has left it. A watchdog that fires now finds
      one process missing, and the scan picks process 0, which is draining: its unit of the first counter is lost. */
  lemma DrainerInput<M>(m: M) returns (run: seq<State<M>>, steps: seq<Step<M>>)
    ensures IsRun(run, steps) && |steps| == 4 && run[4] == Draining0(m)
    ensures Waiting(Draining0(m), 1) && Draining(Draining0(m), 0) && Conserved(Draining0(m))
    ensures var u := Resume(Draining0(m), 1, true);
      Running(u, 1) && FirstIdle(u.slots, 0) == 0 && !Conserved(RunLoop(u, 1))
  {
    run, steps := ReachDraining0(m);
    RunInv(run, steps, 4);
    var s := Draining0(m);
    var u := Resume(s, 1, true);
    SignalInv(s, u);
    assert RunLoop(u, 1) == CheckWatchdog(u, 1);
    WatchdogOnDrainerLeaks(u, 1);
  }
}
