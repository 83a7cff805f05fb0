/** One round of the barrier, state by state, of three processes that come in the order i, j, l. */
module OneRound {
  import opened Barrier
  import BarrierInputs
  import BarrierRounds

  /** Nobody is at the barrier. */
  ghost predicate Between<M>(b: State<M>) {
    && b.Shape() && b.N() == 3 && b.condWaitCnt == [0, 0] && !b.restoring
    && forall x | 0 <= x < 3 :: b.procs[x].Outside? && b.slots[x].waitIdx == -1
  }

  ghost predicate Order(i: nat, j: nat, l: nat) {
    i < 3 && j < 3 && l < 3 && i != j && i != l && j != l
  }

  function Place<M>(b: State<M>, c: BarrierCall<M>, signalled: bool): Phase<M> {
    Blocked(Local(b.curWaitIdx, c.action, c.who, false, c.mem), signalled)
  }

  function Called<M>(b: State<M>, x: nat, c: BarrierCall<M>): Slot
    requires x < |b.slots|
  {
    b.slots[x].(args := c.args, waitIdx := b.curWaitIdx)
  }

  /** The first of them waits, and the first two. */
  function OneIn<M>(b: State<M>, i: nat, c: BarrierCall<M>): State<M>
    requires Between(b) && i < 3
  {
    b.(condWaitCnt := [0, 0][b.curWaitIdx := 1], slots := b.slots[i := Called(b, i, c)],
      procs := b.procs[i := Place(b, c, false)])
  }

  function TwoIn<M>(b: State<M>, i: nat, c: BarrierCall<M>, j: nat, d: BarrierCall<M>): State<M>
    requires Between(b) && i < 3 && j < 3
  {
    b.(condWaitCnt := [0, 0][b.curWaitIdx := 2],
       slots := b.slots[i := Called(b, i, c)][j := Called(b, j, d)],
       procs := b.procs[i := Place(b, c, true)][j := Place(b, d, false)])
  }

  lemma FirstComes<M>(b: State<M>, i: nat, c: BarrierCall<M>)
    requires Between(b) && i < 3 && Enabled(b, Enter(i, c))
    ensures Apply(b, Enter(i, c)) == OneIn(b, i, c)
  {
    BarrierInputs.EnterWaits(b, i, c);
  }

  lemma SecondComes<M>(b: State<M>, i: nat, c: BarrierCall<M>, j: nat, d: BarrierCall<M>)
    requires Between(b) && i < 3 && j < 3 && i != j && Enabled(OneIn(b, i, c), Enter(j, d))
    ensures Apply(OneIn(b, i, c), Enter(j, d)) == TwoIn(b, i, c, j, d)
  {
    var o := OneIn(b, i, c);
    BarrierInputs.EnterWaits(o, j, d);
    var t := Block(Arrive(o, j, d), j);
    assert t.procs == TwoIn(b, i, c, j, d).procs;
    assert t.slots == TwoIn(b, i, c, j, d).slots;
  }

  /** The third one ends the round. */
  function AllIn<M>(b: State<M>, i: nat, c: BarrierCall<M>, j: nat, d: BarrierCall<M>, l: nat,
    e: BarrierCall<M>): seq<Slot>
    requires Between(b) && Order(i, j, l)
  {
    b.slots[i := Called(b, i, c)][j := Called(b, j, d)][l := Called(b, l, e)]
  }

  function Ended<M>(b: State<M>, i: nat, c: BarrierCall<M>, j: nat, d: BarrierCall<M>, l: nat,
    e: BarrierCall<M>): State<M>
    requires Between(b) && Order(i, j, l)
  {
    var slots := AllIn(b, i, c, j, d, l, e);
    b.(curWaitIdx := 1 - b.curWaitIdx,
       condWaitCnt := [0, 0][b.curWaitIdx := 2],
       slots := [slots[0].(waitIdx := -1), slots[1].(waitIdx := -1), slots[2].(waitIdx := -1)],
       procs := b.procs[i := Place(b, c, true)][j := Place(b, d, true)][l := Outside(e.mem)],
       releases := b.releases + 1,
       left := b.left[l := b.left[l] + 1])
  }

  /** All three are at the barrier. */
  function ThreeIn<M>(b: State<M>, i: nat, c: BarrierCall<M>, j: nat, d: BarrierCall<M>, l: nat,
    e: BarrierCall<M>): State<M>
    requires Between(b) && Order(i, j, l)
  {
    b.(condWaitCnt := [0, 0][b.curWaitIdx := 3],
       slots := AllIn(b, i, c, j, d, l, e),
       procs := b.procs[i := Place(b, c, true)][j := Place(b, d, false)][l := Place(b, e, false)])
  }

  lemma ThirdArrives<M>(b: State<M>, i: nat, c: BarrierCall<M>, j: nat, d: BarrierCall<M>, l: nat, e: BarrierCall<M>)
    requires Between(b) && Order(i, j, l)
    ensures Arrive(TwoIn(b, i, c, j, d), l, e) == ThreeIn(b, i, c, j, d, l, e)
  {
    assert Arrive(TwoIn(b, i, c, j, d), l, e).slots == AllIn(b, i, c, j, d, l, e);
  }

  lemma ThirdEnds<M>(b: State<M>, i: nat, c: BarrierCall<M>, j: nat, d: BarrierCall<M>, l: nat, e: BarrierCall<M>)
    requires Between(b) && Order(i, j, l) && Enabled(TwoIn(b, i, c, j, d), Enter(l, e)) && Eligible(e.who, l)
    requires RunAction(AllIn(b, i, c, j, d, l, e), l, e.action).Succeeded?
    ensures Apply(TwoIn(b, i, c, j, d), Enter(l, e)) == Ended(b, i, c, j, d, l, e)
  {
    var u := ThreeIn(b, i, c, j, d, l, e);
    ThirdArrives(b, i, c, j, d, l, e);
    BarrierRounds.RunnerForm(u, l);
    hide RunLoop, RunAction, Enabled;
    EndedForm(b, i, c, j, d, l, e);
  }

  lemma EndedForm<M>(b: State<M>, i: nat, c: BarrierCall<M>, j: nat, d: BarrierCall<M>, l: nat, e: BarrierCall<M>)
    requires Between(b) && Order(i, j, l)
    ensures Leave(Release(ThreeIn(b, i, c, j, d, l, e), b.curWaitIdx), l) == Ended(b, i, c, j, d, l, e)
  {
    var t := Leave(Release(ThreeIn(b, i, c, j, d, l, e), b.curWaitIdx), l);
    assert t.procs == Ended(b, i, c, j, d, l, e).procs;
    assert t.slots == Ended(b, i, c, j, d, l, e).slots;
  }

  /** The other two leave the barrier. */
  function After<M>(b: State<M>, i: nat, c: BarrierCall<M>, j: nat, d: BarrierCall<M>, l: nat,
    e: BarrierCall<M>): State<M>
    requires Between(b) && Order(i, j, l)
  {
    Ended(b, i, c, j, d, l, e).(
      condWaitCnt := [0, 0],
      procs := b.procs[i := Outside(c.mem)][j := Outside(d.mem)][l := Outside(e.mem)],
      left := [b.left[0] + 1, b.left[1] + 1, b.left[2] + 1])
  }

  lemma EndedLeaves<M>(b: State<M>, i: nat, c: BarrierCall<M>, j: nat, d: BarrierCall<M>, l: nat, e: BarrierCall<M>)
    requires Between(b) && Order(i, j, l) && CallOk(c.action, c.who, 3) && CallOk(d.action, d.who, 3)
    ensures var v := Ended(b, i, c, j, d, l, e);
      && v.Shape() && v.N() == 3 && CanLeave(v, i) && CanLeave(v, j) && CanLeave(Leave(v, i), j)
      && Leave(Leave(v, i), j) == After(b, i, c, j, d, l, e)
  {
    var v := Ended(b, i, c, j, d, l, e);
    assert Leave(Leave(v, i), j).procs == After(b, i, c, j, d, l, e).procs;
    assert Leave(Leave(v, i), j).left == After(b, i, c, j, d, l, e).left;
    assert Leave(Leave(v, i), j).condWaitCnt == [0, 0];
  }

  ghost predicate CanLeave<M>(v: State<M>, i: nat) {
    Running(v, i) && !v.procs[i].loc.expired && v.slots[i].waitIdx < 0
  }

  /** ... or finds that the first one is outvoted, and replaces it. */
  lemma ThirdReplaces<M>(b: State<M>, i: nat, c: BarrierCall<M>, j: nat, d: BarrierCall<M>, l: nat, e: BarrierCall<M>)
    requires Between(b) && Order(i, j, l) && Enabled(TwoIn(b, i, c, j, d), Enter(l, e)) && e.who.AnyProcess?
    requires RunAction(AllIn(b, i, c, j, d, l, e), l, e.action) == Replacing(i)
    ensures Arrive(TwoIn(b, i, c, j, d), l, e).slots == AllIn(b, i, c, j, d, l, e)
    ensures var t := Apply(TwoIn(b, i, c, j, d), Enter(l, e));
      t.releases == b.releases + 1 && t.procs[l] == Outside(e.mem) && t.procs[i].PendingDrain?
  {
    var u := ThreeIn(b, i, c, j, d, l, e);
    ThirdArrives(b, i, c, j, d, l, e);
    BarrierRounds.RunnerForm(u, l);
    hide RunLoop, RunAction, Enabled;
  }

  lemma Drains<M>(b: State<M>, x: nat)
    requires b.Shape() && Enabled(b, Wake(x, false)) && b.slots[x].waitIdx < 0
    ensures Apply(b, Wake(x, false)) == Leave(b, x)
  {
    var u := Resume(b, x, false);
    assert Leave(u, x).procs == Leave(b, x).procs;
  }
}
