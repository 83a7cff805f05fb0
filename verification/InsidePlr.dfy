/** The flag insidePLR of a process, which its wrappers set at their head and clear at their end, each time asserting
    that it was not so before: the assertions hold in every run, also in processes that have been forked inside a
    wrapper. */
module InsidePlr {
  import opened Barrier
  import opened BarrierInv
  import opened BarrierRounds
  import opened BarrierCalls

  // Whether a process is between plr_setInsidePLR and plr_clearInsidePLR; part of its memory, and so copied by fork
  datatype Place = InProgram | InWrapper

  datatype Move =
    // plr_setInsidePLR, and plr_clearInsidePLR
    | Set(i: nat)
    | Clear(i: nat)
    // A section of code under the lock; only wrappers call plr_waitBarrier, and they return to themselves
    | Section(step: Step<Place>)

  ghost predicate Possible(s: State<Place>, mv: Move) {
    && s.Shape()
    && match mv
       case Set(i) => i < s.N() && s.procs[i] == Outside(InProgram)
       case Clear(i) => i < s.N() && s.procs[i] == Outside(InWrapper)
       case Section(step) =>
         && Enabled(s, step) && !step.Compute?
         && (step.Enter? ==> s.procs[step.i].mem == step.call.mem == InWrapper)
  }

  /** What the two functions assert about the flag before they change it. */
  ghost predicate Asserted(s: State<Place>, mv: Move)
    requires Possible(s, mv)
  {
    match mv
    case Set(i) => !s.slots[i].insidePLR
    case Clear(i) => s.slots[i].insidePLR
    case _ => true
  }

  ghost function MoveTo(s: State<Place>, mv: Move): State<Place>
    requires Possible(s, mv)
  {
    match mv
    case Set(i) =>
      s.(slots := s.slots[i := s.slots[i].(insidePLR := true)], procs := s.procs[i := Outside(InWrapper)])
    case Clear(i) =>
      s.(slots := s.slots[i := s.slots[i].(insidePLR := false)], procs := s.procs[i := Outside(InProgram)])
    case Section(step) => Apply(s, step)
  }

  /** All are in the program, and no flag is set. */
  ghost predicate Start(s: State<Place>) {
    && Init(s) && !s.slots[0].insidePLR && s.procs[0] == Outside(InProgram)
    && forall i | 1 <= i < s.N() ::
         s.procs[i] == PendingStart(InProgram, s.procs[i].parent) && !s.procs[i].parent.insidePLR
  }

  ghost predicate IsRun(run: seq<State<Place>>, moves: seq<Move>) {
    && |run| == |moves| + 1 && Start(run[0])
    && forall k | 0 <= k < |moves| :: Possible(run[k], moves[k]) && run[k + 1] == MoveTo(run[k], moves[k])
  }

  /** The flag tells where process i is; of a child that waits for its first lock, the copy of its parent's slot
      does. */
  ghost predicate FlagOk(s: State<Place>, i: nat)
    requires s.Shape() && i < s.N()
  {
    match s.procs[i]
    case Outside(m) => s.slots[i].insidePLR <==> m == InWrapper
    case Blocked(l, _) => s.slots[i].insidePLR && l.mem == InWrapper
    case PendingStart(m, p) => !p.insidePLR && m == InProgram
    case PendingDrain(l, p) => p.insidePLR && l.mem == InWrapper
    case PendingWait(l, p, _) => p.insidePLR && l.mem == InWrapper
    case Exited => true
  }

  ghost predicate FlagsOk(s: State<Place>) {
    Inv(s) && forall i | 0 <= i < s.N() :: FlagOk(s, i)
  }

  lemma StartOk(s: State<Place>)
    requires Start(s)
    ensures FlagsOk(s)
  {
    InitInv(s);
  }

  /** The flags in the middle of a section. */
  lemma BegunOk(s: State<Place>, step: Step<Place>)
    requires FlagsOk(s) && Possible(s, Section(step)) && Locks(s, step)
    ensures var b := Begun(s, step); b.N() == s.N() && forall i | 0 <= i < s.N() :: FlagOk(b, i)
  {
    var b := Begun(s, step);
    hide Inv, Apply;
    forall i | 0 <= i < s.N() ensures FlagOk(b, i) {
      assert FlagOk(s, i);
    }
  }

  lemma SectionOk(s: State<Place>, step: Step<Place>, i: nat)
    requires FlagsOk(s) && Possible(s, Section(step)) && Locks(s, step) && i < s.N()
    ensures FlagOk(Apply(s, step), i)
  {
    StepKeeps(s, step);
    BegunOk(s, step);
    var b := Begun(s, step);
    assert FlagOk(b, step.i) && FlagOk(b, i) && Keeps(b, Apply(s, step), step.i, i);
    hide Inv, Apply, Begun;
  }

  lemma FlagInv(s: State<Place>, mv: Move)
    requires FlagsOk(s) && Possible(s, mv)
    ensures Asserted(s, mv) && FlagsOk(MoveTo(s, mv))
  {
    match mv
    case Section(step) =>
      StepInv(s, step);
      forall i | 0 <= i < s.N() ensures FlagOk(Apply(s, step), i) {
        assert FlagOk(s, i);
        if Locks(s, step) {
          SectionOk(s, step, i);
        }
      }
    case _ => OwnFlag(s, mv);
  }

  lemma OwnFlag(s: State<Place>, mv: Move)
    requires FlagsOk(s) && Possible(s, mv) && !mv.Section?
    ensures Asserted(s, mv) && FlagsOk(MoveTo(s, mv))
  {
    var t := MoveTo(s, mv);
    assert FlagOk(s, mv.i);
    SameCounts(s.procs, t.procs);
    forall i | 0 <= i < s.N() ensures SlotOk(t, i) && FlagOk(t, i) {
      assert SlotOk(s, i) && FlagOk(s, i);
    }
    assert s.restoring ==> Waiting(s, mv.i);
  }

  /** The assertions in plr_setInsidePLR and plr_clearInsidePLR never fail, whatever the votes and the watchdogs do, and
      however many processes die: a replacement goes on inside the wrapper with the flag of its parent. */
  lemma {:induction false} AssertionsHold(run: seq<State<Place>>, moves: seq<Move>, k: nat)
    requires IsRun(run, moves) && k < |run|
    ensures FlagsOk(run[k]) && (k < |moves| ==> Asserted(run[k], moves[k]))
  {
    hide Possible, MoveTo, Start, FlagsOk, Asserted;
    if k == 0 {
      StartOk(run[0]);
    } else {
      AssertionsHold(run, moves, k - 1);
      FlagInv(run[k - 1], moves[k - 1]);
    }
    if k < |moves| {
      FlagInv(run[k], moves[k]);
    }
  }
}
