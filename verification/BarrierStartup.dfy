/** Startup: the children forked by plr_processInit take the lock in any order. */
module BarrierStartup {
  import opened Barrier
  import opened BarrierInv

  /** In every state of every run the slots without a pid are those of children that have not had the lock yet, and
      no two processes have the same pid. */
  lemma PidsInstalled<M>(run: seq<State<M>>, steps: seq<Step<M>>, k: nat)
    requires IsRun(run, steps) && k < |run|
    ensures var s := run[k];
      && s.Shape()
      && (forall i | 0 <= i < s.N() :: s.slots[i].pid == 0 <==> Pending(s.procs[i]))
      && (forall i, j | 0 <= i < j < s.N() && s.slots[i].pid > 0 :: s.slots[i].pid != s.slots[j].pid)
  {
    RunInv(run, steps, k);
    var s := run[k];
    forall i | 0 <= i < s.N() ensures s.slots[i].pid == 0 <==> Pending(s.procs[i]) {
      assert SlotOk(s, i);
    }
  }

  /** The part of a run in which only the children of startup move. */
  ghost predicate IsStartup<M>(run: seq<State<M>>, steps: seq<Step<M>>) {
    IsRun(run, steps) && forall k | 0 <= k < |steps| :: steps[k].Install?
  }

  /** The slot of a process that step k has installed. */
  ghost predicate InstalledBy<M>(first: State<M>, s: State<M>, steps: seq<Step<M>>, i: nat, k: nat)
    requires first.Shape() && i < first.N() && first.procs[i].PendingStart?
  {
    && k < |steps| && steps[k].Install? && steps[k].i == i && s.Shape() && i < s.N()
    && CopyOf(s.slots[i], first.procs[i].parent, steps[k].pid) && s.slots[i].waitIdx == -1
    && s.procs[i] == Outside(first.procs[i].mem)
  }

  /** Slot i after the steps: untouched, or initialised by exactly one of them. */
  ghost predicate StartedOnce<M>(first: State<M>, s: State<M>, steps: seq<Step<M>>, i: nat)
    requires first.Shape() && i < first.N() && first.procs[i].PendingStart? && s.Shape() && s.N() == first.N()
  {
    || (s.procs[i] == first.procs[i] && s.slots[i] == ZERO_SLOT && forall k | 0 <= k < |steps| :: steps[k].i != i)
    || exists k :: InstalledBy(first, s, steps, i, k) && forall j | 0 <= j < |steps| && j != k :: steps[j].i != i
  }

  /** Whatever the order of the children: each slot is initialised by exactly one process, as a copy of the parent's,
      with its own pid, and slot 0 and the barrier are left alone. Module Startup shows that a child leaves the loop of
      plr_processInit without forking. */
  lemma {:induction false} Startup<M>(run: seq<State<M>>, steps: seq<Step<M>>)
    requires IsStartup(run, steps)
    ensures var first, s := run[0], run[|steps|];
      && s.Shape() && s.N() == first.N() && s.slots[0] == first.slots[0] && s.procs[0] == first.procs[0]
      && s.curWaitIdx == 0 && s.condWaitCnt == [0, 0] && s.releases == 0
      && forall i | 1 <= i < s.N() :: StartedOnce(first, s, steps, i)
  {
    var first, s := run[0], run[|steps|];
    if steps != [] {
      var n := |steps| - 1;
      assert IsStartup(run[..n + 1], steps[..n]);
      Startup(run[..n + 1], steps[..n]);
      assert run[n].Shape() && Enabled(run[n], steps[n]) && s == Apply(run[n], steps[n]);
      StartOne(first, run[n], steps[..n], steps[n]);
      assert steps[..n] + [steps[n]] == steps;
    }
  }

  lemma StartOne<M>(first: State<M>, s: State<M>, steps: seq<Step<M>>, step: Step<M>)
    requires Init(first) && s.Shape() && s.N() == first.N() && s.procs[0].Outside?
    requires forall i | 1 <= i < s.N() :: StartedOnce(first, s, steps, i)
    requires Enabled(s, step) && step.Install?
    ensures var t := Apply(s, step);
      && t == s.(slots := t.slots, procs := t.procs) && t.slots[0] == s.slots[0] && t.procs[0] == s.procs[0]
      && forall i | 1 <= i < s.N() :: StartedOnce(first, t, steps + [step], i)
  {
    var t := Apply(s, step);
    var all := steps + [step];
    assert StartedOnce(first, s, steps, step.i);
    forall i | 1 <= i < s.N() ensures StartedOnce(first, t, all, i) {
      assert StartedOnce(first, s, steps, i);
      if i == step.i {
        assert InstalledBy(first, t, all, i, |steps|);
      } else if s.procs[i] != first.procs[i] {
        var k :| InstalledBy(first, s, steps, i, k) && forall j | 0 <= j < |steps| && j != k :: steps[j].i != i;
        assert InstalledBy(first, t, all, i, k);
      }
    }
  }
}
