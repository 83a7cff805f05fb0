/** plr_processInit, process by process: the first one takes slot 0 and forks a process for every other slot; each child
    goes on inside the loop that its parent forked it in, with copies of its parent's local variables. */
module Startup {
  import opened Compare
  import opened Barrier

  // ----- State

  // i and myPid are the local variables of plr_processInit; my is the slot that myProcShm points to, or -1
  datatype Locals = Locals(i: nat, myPid: nat, my: int)

  datatype Pc =
    // At the call; about to take the lock
    | Calling
    | Locking
    // Under the lock: at the head of the loop; behind plr_forkNewProcess; behind the loop
    | Looping
    | Forked
    | Leaving
    // A child in plr_forkNewProcess, about to take the lock
    | Child
    | Returned
    | GivenUp

  // `parent` is the copy of the parent's slot that plr_forkNewProcess makes
  datatype Proc = Proc(pid: nat, pc: Pc, l: Locals, parent: Slot)

  // lock: the index of its holder, or -1; inits: how often each slot has been initialised
  datatype Sys = Sys(slots: seq<Slot>, lock: int, didProcessInit: bool, pin: bool, procs: seq<Proc>, inits: seq<nat>)
  {
    predicate Shape() {
      1 <= |slots| == |inits| && |procs| >= 1 && -1 <= lock < |procs|
    }
  }

  // ----- The code

  /** plr_refreshSharedData: the slot with the caller's pid. */
  function FindPid(slots: seq<Slot>, pid: nat, from: nat): (r: nat)
    requires from <= |slots|
    ensures from <= r <= |slots|
    ensures r < |slots| ==> slots[r].pid == pid
    ensures forall j | from <= j < r :: slots[j].pid != pid
    decreases |slots| - from
  {
    if from == |slots| || slots[from].pid == pid then from else FindPid(slots, pid, from + 1)
  }

  function Refreshed(slots: seq<Slot>, p: Proc): Proc {
    if 0 <= p.l.my < |slots| && slots[p.l.my].pid == p.pid then p.(pc := Returned)
    else
      var r := FindPid(slots, p.pid, 0);
      if r < |slots| then p.(pc := Returned, l := p.l.(my := r))
      else p.(pc := if p.l.my == -1 then GivenUp else Returned)
  }

  datatype Step =
    // A process goes on; a fork gets its pid from the kernel
    | Go(p: nat, pid: nat)
    // A process that has returned runs a new program, which calls plr_processInit again
    | Exec(p: nat)

  ghost predicate Enabled(s: Sys, step: Step) {
    && s.Shape() && step.p < |s.procs|
    && match step
       case Exec(p) => s.procs[p].pc.Returned?
       case Go(p, pid) =>
         && (forall k | 0 <= k < |s.procs| :: s.procs[k].pid != pid) && pid > 0
         && match s.procs[p].pc
            case Calling => true
            case Locking => s.lock == -1
            case Child => s.lock == -1 && s.procs[p].l.i < |s.slots|
            case Returned => false
            case GivenUp => false
            case _ =>
              && s.lock == p && 0 <= s.procs[p].l.my < |s.slots|
              && (s.procs[p].pc.Forked? ==> s.procs[p].l.i < |s.slots|)
  }

  ghost function Apply(s: Sys, step: Step): (t: Sys)
    requires Enabled(s, step)
    ensures t.Shape() && |t.slots| == |s.slots|
  {
    var p := s.procs[step.p];
    match step
    case Exec(k) => s.(procs := s.procs[k := p.(pc := Calling, l := Locals(0, 0, -1))])
    case Go(k, pid) =>
      match p.pc
      case Calling =>
        s.(procs := s.procs[k := if s.didProcessInit then Refreshed(s.slots, p)
                                 else p.(pc := if p.l.my != -1 then Returned else Locking)])
      case Locking =>
        // The first process initialises slot 0
        var first := p.l.my == -1 && s.slots[0].pid == 0;
        s.(lock := k,
           slots := if first then s.slots[0 := InitSlot(s.slots[0], p.pid)] else s.slots,
           inits := if first then s.inits[0 := s.inits[0] + 1] else s.inits,
           procs := s.procs[k := p.(pc := Looping, l := Locals(0, p.pid, if first then 0 else p.l.my))])
      case Looping =>
        if p.l.i == |s.slots| then s.(procs := s.procs[k := p.(pc := Leaving)])
        else if p.l.i > |s.slots| then s
        else if s.slots[p.l.i].pid == 0 then
          s.(procs := s.procs[k := p.(pc := Forked)] + [Proc(pid, Child, p.l, s.slots[p.l.my])])
        else
          s.(procs := s.procs[k := p.(l := p.l.(i := p.l.i + 1, my := if s.slots[p.l.i].pid == p.l.myPid then p.l.i
            else p.l.my))])
      case Forked =>
        // The child finds that myProcShm points to the slot in question, and leaves the loop
        if p.l.my == p.l.i then s.(procs := s.procs[k := p.(pc := Leaving, l := p.l.(myPid := s.slots[p.l.i].pid))])
        else s.(procs := s.procs[k := p.(pc := Looping, l := p.l.(i := p.l.i + 1))])
      case Leaving =>
        s.(lock := -1, didProcessInit := true,
           slots := if s.pin then s.slots[p.l.my := s.slots[p.l.my].(insidePLR := true)] else s.slots,
           procs := s.procs[k := p.(pc := Returned)])
      case Child =>
        var i := p.l.i;
        s.(lock := k,
           slots := s.slots[i := InitSlotAsCopy(s.slots[i], p.pid, p.parent)],
           inits := s.inits[i := s.inits[i] + 1],
           procs := s.procs[k := p.(pc := Forked, l := p.l.(my := i))])
      case _ => s
  }

  /** One process, in a zero-filled shared area. */
  ghost predicate Init(s: Sys) {
    && s.Shape() && |s.procs| == 1 && s.procs[0].pid > 0 && s.procs[0].pc.Calling? && s.procs[0].l.my == -1
    && s.lock == -1 && !s.didProcessInit
    && forall j | 0 <= j < |s.slots| :: s.slots[j] == ZERO_SLOT && s.inits[j] == 0
  }

  ghost predicate IsRun(run: seq<Sys>, steps: seq<Step>) {
    && |run| == |steps| + 1 && Init(run[0])
    && forall k | 0 <= k < |steps| :: Enabled(run[k], steps[k]) && run[k + 1] == Apply(run[k], steps[k])
  }

  // ----- The invariant

  /** Process k has initialised slot k. */
  predicate Installed(s: Sys, k: nat) {
    k < |s.procs| && !s.procs[k].pc.Child? && !s.procs[k].pc.Locking? && (s.procs[k].pc.Calling? ==> s.didProcessInit)
  }

  /** ... and is done. */
  predicate Finished(s: Sys, k: nat) {
    k < |s.procs| && s.didProcessInit && (s.procs[k].pc.Returned? || s.procs[k].pc.Calling?)
  }

  ghost predicate SlotOk(s: Sys, j: nat)
    requires s.Shape() && j < |s.slots|
  {
    && s.inits[j] == (if Installed(s, j) then 1 else 0)
    && s.slots[j] ==
       if !Installed(s, j) then ZERO_SLOT
       else if j == 0 then InitSlot(ZERO_SLOT, s.procs[0].pid).(insidePLR := s.pin && Finished(s, 0))
       else InitSlot(ZERO_SLOT, s.procs[j].pid).(insidePLR := s.pin && Finished(s, j))
  }

  ghost predicate FirstOk(s: Sys)
    requires s.Shape()
  {
    var p := s.procs[0];
    var n := |s.slots|;
    if s.didProcessInit then
      && |s.procs| == n && s.lock != 0
      && (p.pc.Returned? || p.pc.Calling?) && p.l.my == (if p.pc.Returned? then 0 else -1)
    else
      match p.pc
      case Calling => |s.procs| == 1 && s.lock == -1 && p.l.my == -1
      case Locking => |s.procs| == 1 && s.lock == -1 && p.l.my == -1
      case Looping => p.l.i <= n && |s.procs| == (if p.l.i == 0 then 1 else p.l.i) && s.lock == 0 && p.l.my == 0
        && p.l.myPid == p.pid
      case Forked => 1 <= p.l.i < n && |s.procs| == p.l.i + 1 && s.lock == 0 && p.l.my == 0 && p.l.myPid == p.pid
      case Leaving => |s.procs| == n && s.lock == 0 && p.l.my == 0
      case _ => false
  }

  ghost predicate ChildOk(s: Sys, k: nat)
    requires s.Shape() && 1 <= k < |s.procs|
  {
    var p := s.procs[k];
    && k < |s.slots| && p.parent == InitSlot(ZERO_SLOT, s.procs[0].pid)
    && match p.pc
       case Child => p.l == Locals(k, s.procs[0].pid, 0) && s.lock != k
       case Forked => p.l.i == k && p.l.my == k && s.lock == k && s.didProcessInit
       case Leaving => p.l.my == k && s.lock == k && s.didProcessInit
       case Returned => p.l.my == k && s.lock != k && s.didProcessInit
       case Calling => p.l.my == -1 && s.lock != k && s.didProcessInit
       case _ => false
  }

  ghost predicate Inv(s: Sys) {
    && s.Shape() && FirstOk(s)
    && (forall k | 1 <= k < |s.procs| :: ChildOk(s, k))
    && (forall j | 0 <= j < |s.slots| :: SlotOk(s, j))
    && (forall k | 0 <= k < |s.procs| :: s.procs[k].pid > 0)
    && (forall j, k | 0 <= j < k < |s.procs| :: s.procs[j].pid != s.procs[k].pid)
  }

  /** A process that runs a new program finds its own slot. */
  lemma FindsOwn(s: Sys, k: nat)
    requires Inv(s) && k < |s.procs| && s.didProcessInit && s.procs[k].pc.Calling?
    ensures k < |s.slots| && Refreshed(s.slots, s.procs[k]) == s.procs[k].(pc := Returned, l := s.procs[k].l.(my := k))
  {
    assert k > 0 ==> ChildOk(s, k);
    assert SlotOk(s, k);
    var r := FindPid(s.slots, s.procs[k].pid, 0);
    assert r <= k;
    assert SlotOk(s, r);
  }

  /** The rest of the invariant, for a step that forks nothing and changes only process p, and maybe its slot. */
  lemma OthersOk(s: Sys, t: Sys, p: nat)
    requires Inv(s) && t.Shape() && p < |s.procs| && |t.procs| == |s.procs| && |t.slots| == |s.slots| && t.pin == s.pin
    requires t.didProcessInit == s.didProcessInit
    requires t.lock == s.lock || ((s.lock == -1 || s.lock == p) && (t.lock == -1 || t.lock == p))
    requires t.procs[p].pid == s.procs[p].pid && t.procs[p].parent == s.procs[p].parent
    requires forall k | 0 <= k < |s.procs| && k != p :: t.procs[k] == s.procs[k]
    requires forall j | 0 <= j < |s.slots| && j != p :: t.slots[j] == s.slots[j] && t.inits[j] == s.inits[j]
    requires FirstOk(t) && (p > 0 ==> ChildOk(t, p)) && (p < |t.slots| ==> SlotOk(t, p))
    ensures Inv(t)
  {
    forall k | 1 <= k < |t.procs| ensures ChildOk(t, k) {
      assert ChildOk(s, k);
    }
    forall j | 0 <= j < |t.slots| ensures SlotOk(t, j) {
      assert SlotOk(s, j);
    }
  }

  lemma GoInv(s: Sys, p: nat, pid: nat)
    requires Inv(s) && Enabled(s, Go(p, pid)) && !s.procs[p].pc.Leaving?
    requires !(s.procs[p].pc.Looping? && s.procs[p].l.i < |s.slots| && s.slots[s.procs[p].l.i].pid == 0)
    ensures Inv(Apply(s, Go(p, pid)))
  {
    var t := Apply(s, Go(p, pid));
    assert p > 0 ==> ChildOk(s, p);
    assert p < |s.slots| && SlotOk(s, p) && SlotOk(s, 0);
    if s.procs[p].pc.Calling? && s.didProcessInit {
      FindsOwn(s, p);
    }
    if s.procs[p].pc.Looping? && s.procs[p].l.i < |s.slots| {
      assert SlotOk(s, s.procs[p].l.i);
    }
    OthersOk(s, t, p);
  }

  lemma ForkInv(s: Sys, p: nat, pid: nat)
    requires Inv(s) && Enabled(s, Go(p, pid)) && s.procs[p].pc.Looping? && s.procs[p].l.i < |s.slots|
    requires s.slots[s.procs[p].l.i].pid == 0
    ensures Inv(Apply(s, Go(p, pid)))
  {
    var t := Apply(s, Go(p, pid));
    assert p > 0 ==> ChildOk(s, p);
    assert SlotOk(s, 0);
    forall k | 1 <= k < |t.procs| ensures ChildOk(t, k) {
      assert k < |s.procs| ==> ChildOk(s, k);
    }
    forall j | 0 <= j < |t.slots| ensures SlotOk(t, j) {
      assert SlotOk(s, j);
    }
  }

  lemma LeaveInv(s: Sys, p: nat, pid: nat)
    requires Inv(s) && Enabled(s, Go(p, pid)) && s.procs[p].pc.Leaving?
    ensures Inv(Apply(s, Go(p, pid)))
  {
    var t := Apply(s, Go(p, pid));
    assert p > 0 ==> ChildOk(s, p);
    forall k | 1 <= k < |t.procs| ensures ChildOk(t, k) {
      assert ChildOk(s, k);
    }
    forall j | 0 <= j < |t.slots| ensures SlotOk(t, j) {
      assert SlotOk(s, j);
      assert 1 <= j < |s.procs| ==> ChildOk(s, j);
    }
  }

  lemma StepInv(s: Sys, step: Step)
    requires Inv(s) && Enabled(s, step)
    ensures Inv(Apply(s, step))
  {
    match step
    case Exec(p) =>
      assert p > 0 ==> ChildOk(s, p);
      assert SlotOk(s, p);
      OthersOk(s, Apply(s, step), p);
    case Go(p, pid) =>
      var q := s.procs[p];
      hide Inv, Apply;
      if q.pc.Leaving? {
        LeaveInv(s, p, pid);
      } else if q.pc.Looping? && q.l.i < |s.slots| && s.slots[q.l.i].pid == 0 {
        ForkInv(s, p, pid);
      } else {
        GoInv(s, p, pid);
      }
  }

  lemma {:induction false} RunInv(run: seq<Sys>, steps: seq<Step>, k: nat)
    requires IsRun(run, steps) && k < |run|
    ensures Inv(run[k]) && |run[k].slots| == |run[0].slots|
  {
    if k > 0 {
      RunInv(run, steps, k - 1);
      StepInv(run[k - 1], steps[k - 1]);
    }
  }

  // ----- What startup promises

  ghost predicate AllReturned(s: Sys) {
    forall k | 0 <= k < |s.procs| :: s.procs[k].pc.Returned?
  }

  /** In every state of every run: no slot is initialised twice, there are never more than nProc processes, and nobody
      gives up. When all have returned there are exactly nProc, so nProc - 1 forks; each has initialised one slot, its
      own, to which its myProcShm points; and pids are distinct and not zero. A new program in a process changes
      nothing. */
  lemma StartupDone(run: seq<Sys>, steps: seq<Step>, k: nat)
    requires IsRun(run, steps) && k < |run|
    ensures var s := run[k];
      && |s.slots| == |run[0].slots| == |s.inits| && |s.procs| <= |s.slots|
      && (forall j | 0 <= j < |s.slots| :: s.inits[j] <= 1)
      && (forall p | 0 <= p < |s.procs| :: !s.procs[p].pc.GivenUp?)
      && (AllReturned(s) ==>
           && |s.procs| == |s.slots| && s.lock == -1
           && (forall j | 0 <= j < |s.slots| ::
                s.inits[j] == 1 && s.procs[j].l.my == j && s.procs[j].pid > 0
                  && s.slots[j] == Slot(s.procs[j].pid, -1, ZERO_ARGS, -1, 0, s.pin))
           && (forall i, j | 0 <= i < j < |s.slots| :: s.slots[i].pid != s.slots[j].pid))
  {
    RunInv(run, steps, k);
    var s := run[k];
    assert |s.procs| > 1 ==> ChildOk(s, |s.procs| - 1);
    forall p | 0 <= p < |s.procs| ensures !s.procs[p].pc.GivenUp? {
      assert p > 0 ==> ChildOk(s, p);
    }
    forall j | 0 <= j < |s.slots| ensures s.inits[j] <= 1 {
      assert SlotOk(s, j);
    }
    assert s.lock > 0 ==> ChildOk(s, s.lock);
    if AllReturned(s) {
      forall j | 0 <= j < |s.slots|
        ensures s.inits[j] == 1 && s.procs[j].l.my == j && s.procs[j].pid > 0
          && s.slots[j] == Slot(s.procs[j].pid, -1, ZERO_ARGS, -1, 0, s.pin)
      {
        assert SlotOk(s, j);
        assert j > 0 ==> ChildOk(s, j);
      }
    }
  }

  // ----- Startup ends

  /** How many steps a process has yet to make. */
  function Cost(p: Proc, n: nat, did: bool): nat {
    match p.pc
    case Calling => if did then 1 else 2 * n + 4
    case Locking => 2 * n + 3
    case Looping => if p.l.i <= n then 2 * (n - p.l.i) + 2 else 0
    case Forked => if p.l.my == p.l.i || p.l.i >= n then 2 else 2 * (n - p.l.i) + 1
    case Leaving => 1
    case Child => 3
    case _ => 0
  }

  function Costs(ps: seq<Proc>, n: nat, did: bool): nat {
    if ps == [] then 0 else Costs(ps[..|ps| - 1], n, did) + Cost(ps[|ps| - 1], n, did)
  }

  /** ... and the whole system, where a child not yet forked has four. */
  function ToGo(s: Sys): int {
    Costs(s.procs, |s.slots|, s.didProcessInit) + 4 * (|s.slots| - |s.procs|)
  }

  lemma {:induction false} CostsUpdate(ps: seq<Proc>, k: nat, p: Proc, n: nat, did: bool)
    requires k < |ps|
    ensures Costs(ps[k := p], n, did) + Cost(ps[k], n, did) == Costs(ps, n, did) + Cost(p, n, did)
  {
    var m := |ps| - 1;
    if k == m {
      assert ps[k := p][..m] == ps[..m];
    } else {
      assert ps[k := p][..m] == ps[..m][k := p];
      CostsUpdate(ps[..m], k, p, n, did);
    }
  }

  lemma {:induction false} CostsDid(ps: seq<Proc>, n: nat)
    ensures Costs(ps, n, true) <= Costs(ps, n, false)
  {
    if ps != [] {
      CostsDid(ps[..|ps| - 1], n);
    }
  }

  /** A step changes the process that makes it, and may add a child. */
  lemma GoFrame(s: Sys, p: nat, pid: nat)
    requires Enabled(s, Go(p, pid))
    ensures var t := Apply(s, Go(p, pid));
      && |s.procs| <= |t.procs| <= |s.procs| + 1 && t.procs[..|s.procs|] == s.procs[p := t.procs[p]]
      && (|t.procs| > |s.procs| ==> t.procs[|s.procs|].pc.Child? && t.didProcessInit == s.didProcessInit)
      && (s.didProcessInit ==> t.didProcessInit)
  {
    var t := Apply(s, Go(p, pid));
    assert t.procs[..|s.procs|] == s.procs[p := t.procs[p]];
  }

  /** It has less to do afterwards. */
  lemma CostOfGo(s: Sys, p: nat, pid: nat)
    requires Inv(s) && Enabled(s, Go(p, pid))
    ensures Cost(Apply(s, Go(p, pid)).procs[p], |s.slots|, s.didProcessInit) < Cost(s.procs[p], |s.slots|,
      s.didProcessInit)
  {
    assert p > 0 ==> ChildOk(s, p);
    if s.procs[p].pc.Calling? && s.didProcessInit {
      FindsOwn(s, p);
    }
    hide Inv, SlotOk, FindPid, InitSlot, InitSlotAsCopy;
    assert s.procs[p].pc.Looping? ==> s.procs[p].l.i <= |s.slots|;
  }

  lemma AtMostN(s: Sys)
    requires Inv(s)
    ensures |s.procs| <= |s.slots|
  {
    assert |s.procs| > 1 ==> ChildOk(s, |s.procs| - 1);
  }

  /** Every step but Exec brings the end closer, and as long as a process has not returned there is such a step: startup
      ends, for every nProc and every order in which the processes take the lock. */
  lemma StepsToGo(s: Sys, p: nat, pid: nat)
    requires Inv(s) && Enabled(s, Go(p, pid))
    ensures 0 <= ToGo(Apply(s, Go(p, pid))) < ToGo(s)
  {
    var t := Apply(s, Go(p, pid));
    var n := |s.slots|;
    StepInv(s, Go(p, pid));
    AtMostN(t);
    GoFrame(s, p, pid);
    CostOfGo(s, p, pid);
    hide Apply, Inv, Enabled, Cost;
    CostsUpdate(s.procs, p, t.procs[p], n, s.didProcessInit);
    if |t.procs| > |s.procs| {
      assert Cost(t.procs[|s.procs|], n, t.didProcessInit) ==
        3 by { ChildCost(t.procs[|s.procs|], n, t.didProcessInit); }
    } else {
      assert t.procs == t.procs[..|s.procs|];
      CostsDid(t.procs, n);
    }
  }

  lemma ChildCost(p: Proc, n: nat, did: bool)
    requires p.pc.Child?
    ensures Cost(p, n, did) == 3
  {}

  lemma SomeoneGoes(s: Sys, pid: nat)
    requires Inv(s) && !AllReturned(s) && pid > 0 && forall k | 0 <= k < |s.procs| :: s.procs[k].pid != pid
    ensures exists p: nat :: Enabled(s, Go(p, pid))
  {
    if s.lock >= 0 {
      assert s.lock > 0 ==> ChildOk(s, s.lock);
      assert Enabled(s, Go(s.lock, pid));
    } else {
      var p :| 0 <= p < |s.procs| && !s.procs[p].pc.Returned?;
      assert p > 0 ==> ChildOk(s, p);
      assert Enabled(s, Go(p, pid));
    }
  }
}
