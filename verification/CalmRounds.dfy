/** One call of three replicas that come to both barriers in a fixed order, state by state: for any program. */
module CalmRounds {
  import opened Compare
  import opened Barrier
  import opened OneRound
  import opened Replication
  import Refinement
  import Wrappers

  ghost predicate Goes<P>(w: World<P>, s: Sys<P>, a: Move<P>, t: Sys<P>) {
    w.Ok() && Possible(w, s, a) && MoveTo(w, s, a) == t
  }

  /** The moves of a run lead to state s. */
  ghost predicate LeadTo<P>(w: World<P>, run: seq<Sys<P>>, moves: seq<Move<P>>, s: Sys<P>) {
    Refinement.IsReplicatedRun(w, run, moves) && run[|moves|] == s
  }

  /** One more move. */
  lemma Go<P>(w: World<P>, run: seq<Sys<P>>, moves: seq<Move<P>>, s: Sys<P>, mv: Move<P>, t: Sys<P>)
    returns (r: seq<Sys<P>>, m: seq<Move<P>>)
    requires LeadTo(w, run, moves, s) && Goes(w, s, mv, t)
    ensures LeadTo(w, r, m, t) && m == moves + [mv] && r == run + [t]
  {
    hide Possible, MoveTo;
    assert w.Ok();
    hide Refinement.Start;
    r, m := run + [t], moves + [mv];
    forall k | 0 <= k < |m|
      ensures Possible(w, r[k], m[k]) && r[k + 1] == MoveTo(w, r[k], m[k])
    {
      if k < |moves| {
        assert r[k] == run[k] && r[k + 1] == run[k + 1] && m[k] == moves[k];
      }
    }
  }

  lemma FiveMoves<P>(w: World<P>, run: seq<Sys<P>>, moves: seq<Move<P>>, s: Sys<P>, a: Move<P>, t: Sys<P>, b: Move<P>,
    u: Sys<P>, c: Move<P>, v: Sys<P>, d: Move<P>, x: Sys<P>, e: Move<P>, y: Sys<P>)
    returns (r: seq<Sys<P>>, m: seq<Move<P>>)
    requires LeadTo(w, run, moves, s)
    requires Goes(w, s, a, t) && Goes(w, t, b, u) && Goes(w, u, c, v) && Goes(w, v, d, x) && Goes(w, x, e, y)
    ensures LeadTo(w, r, m, y) && m == moves + [a, b, c, d, e] && run <= r
  {
    hide Goes, LeadTo;
    r, m := Go(w, run, moves, s, a, t);
    r, m := Go(w, r, m, t, b, u);
    r, m := Go(w, r, m, u, c, v);
    r, m := Go(w, r, m, v, d, x);
    r, m := Go(w, r, m, x, e, y);
  }

  /** Three replicas outside the barrier, in round rel. */
  function Calm<P>(rel: nat, slots: seq<Slot>, mems: seq<Image<P>>, kernel: Wrappers.Kernel, area: Wrappers.Area,
    trace: seq<Event>): Sys<P>
    requires |mems| == 3
  {
    Sys(State(rel % 2, [0, 0], false, slots, [Outside(mems[0]), Outside(mems[1]), Outside(mems[2])], rel,
      [rel, rel, rel]),
        kernel, area, trace)
  }

  ghost predicate CalmOk<P>(s: Sys<P>) {
    Between(s.bar) && Typed(s)
  }

  /** Replicas that keep their tables. */
  lemma SameTables<P>(s: Sys<P>, bar: State<Image<P>>)
    requires CalmOk(s) && bar.Shape() && bar.N() == 3
    requires forall x | 0 <= x < 3 :: !bar.procs[x].Exited? && Mem(bar.procs[x]).table == s.bar.procs[x].mem.table
    ensures Typed(s.(bar := bar))
  {
    forall x | 0 <= x < 3 ensures Wrappers.TableOk(s.kernel, Mem(bar.procs[x]).table) {
      assert Live(s, x);
    }
  }

  /** A move whose section ends no round. */
  lemma Waits<P>(w: World<P>, s: Sys<P>, i: nat, bar: State<Image<P>>)
    requires Typed(s) && bar.Shape() && bar.N() == 3 && i < 3 && bar.releases == s.bar.releases
    ensures Section(w, s, bar, i) == s.(bar := bar)
  {}

  lemma DrainMove<P>(w: World<P>, s: Sys<P>, i: nat)
    requires w.Ok() && Typed(s) && i < 3 && CanLeave(s.bar, i)
    ensures Goes(w, s, WakeUp(i), s.(bar := Leave(s.bar, i)))
  {
    Drains(s.bar, i);
    Waits(w, s, i, Leave(s.bar, i));
  }

  function Check<P>(w: World<P>, s: Sys<P>, i: nat): BarrierCall<Image<P>>
    requires i < |s.bar.procs| && s.bar.procs[i].Outside?
  {
    CheckCall(w, s.bar.procs[i].mem)
  }

  /** All three are about to make their next call. */
  ghost predicate AboutToCall<P>(s: Sys<P>) {
    && CalmOk(s) && s.bar.curWaitIdx == 0 && s.bar.releases % 2 == 0
    && forall x | 0 <= x < 3 :: s.bar.procs[x].mem.pc.App?
  }

  lemma TwoCheck<P>(w: World<P>, s: Sys<P>)
    requires w.Ok() && AboutToCall(s)
    ensures Goes(w, s, CallCheck(0), s.(bar := OneIn(s.bar, 0, Check(w, s, 0))))
    ensures Goes(w, s.(bar := OneIn(s.bar, 0, Check(w, s, 0))), CallCheck(1),
      s.(bar := TwoIn(s.bar, 0, Check(w, s, 0), 1, Check(w, s, 1))))
  {
    hide World.CallAt, World.At, Wrappers.ArgsOf, Apply;
    var t := s.(bar := OneIn(s.bar, 0, Check(w, s, 0)));
    FirstComes(s.bar, 0, Check(w, s, 0));
    Waits(w, s, 0, t.bar);
    SameTables(s, t.bar);
    var u := s.(bar := TwoIn(s.bar, 0, Check(w, s, 0), 1, Check(w, s, 1)));
    SecondComes(s.bar, 0, Check(w, s, 0), 1, Check(w, s, 1));
    Waits(w, t, 1, u.bar);
  }

  /** The replicas after a check round in which they agree. */
  function Checked<P>(w: World<P>, s: Sys<P>): Sys<P>
    requires Between(s.bar)
  {
    s.(bar := After(s.bar, 0, Check(w, s, 0), 1, Check(w, s, 1), 2, Check(w, s, 2)))
  }

  function CheckMoves<P>(): seq<Move<P>> {
    [CallCheck(0), CallCheck(1), CallCheck(2), WakeUp(0), WakeUp(1)]
  }

  /** Two of them leave the barrier, after a release by the third. */
  lemma TwoLeave<P>(w: World<P>, v: Sys<P>, i: nat, j: nat)
    requires w.Ok() && Typed(v) && i < 3 && j < 3 && i != j && CanLeave(v.bar, i) && CanLeave(Leave(v.bar, i), j)
    ensures var x := v.(bar := Leave(v.bar, i));
      Goes(w, v, WakeUp(i), x) && Goes(w, x, WakeUp(j), x.(bar := Leave(x.bar, j)))
  {
    hide Goes;
    var x := v.(bar := Leave(v.bar, i));
    DrainMove(w, v, i);
    forall k | 0 <= k < 3 && Live(x, k) ensures Wrappers.TableOk(x.kernel, Of(x, k).table) {
      assert Live(v, k);
    }
    DrainMove(w, x, j);
  }

  lemma CheckRound<P>(w: World<P>, run: seq<Sys<P>>, moves: seq<Move<P>>, s: Sys<P>)
    returns (r: seq<Sys<P>>, m: seq<Move<P>>)
    requires w.Ok() && LeadTo(w, run, moves, s) && AboutToCall(s)
    requires Check(w, s, 0).args == Check(w, s, 1).args == Check(w, s, 2).args
    ensures LeadTo(w, r, m, Checked(w, s)) && m == moves + CheckMoves() && run <= r
  {
    hide LeadTo, Goes, Wrappers.ArgsOf;
    var b := s.bar;
    var (c, d, e) := (Check(w, s, 0), Check(w, s, 1), Check(w, s, 2));
    var t, u := s.(bar := OneIn(b, 0, c)), s.(bar := TwoIn(b, 0, c, 1, d));
    var v := s.(bar := Ended(b, 0, c, 1, d, 2, e));
    TwoCheck(w, s);
    ThirdAgrees(w, s);
    EndedLeaves(b, 0, c, 1, d, 2, e);
    SameTables(s, v.bar);
    var x, y := v.(bar := Leave(v.bar, 0)), Checked(w, s);
    hide Ended, After;
    TwoLeave(w, v, 0, 1);
    r, m := FiveMoves(w, run, moves, s, CallCheck(0), t, CallCheck(1), u, CallCheck(2), v, WakeUp(0), x, WakeUp(1), y);
  }

  lemma ThirdAgrees<P>(w: World<P>, s: Sys<P>)
    requires w.Ok() && AboutToCall(s)
    requires Check(w, s, 0).args == Check(w, s, 1).args == Check(w, s, 2).args
    ensures Goes(w, s.(bar := TwoIn(s.bar, 0, Check(w, s, 0), 1, Check(w, s, 1))), CallCheck(2),
                 s.(bar := Ended(s.bar, 0, Check(w, s, 0), 1, Check(w, s, 1), 2, Check(w, s, 2))))
  {
    hide World.CallAt, World.At, Wrappers.ArgsOf, Apply;
    var b := s.bar;
    var (c, d, e) := (Check(w, s, 0), Check(w, s, 1), Check(w, s, 2));
    var a := Args(AllIn(b, 0, c, 1, d, 2, e));
    assert a[0] == c.args && a[1] == d.args && a[2] == e.args;
    SameTables(s, TwoIn(b, 0, c, 1, d));
    ThirdEnds(b, 0, c, 1, d, 2, e);
  }

  // ----- The master round

  function Act<P>(s: Sys<P>, i: nat): BarrierCall<Image<P>>
    requires i < |s.bar.procs| && s.bar.procs[i].Outside? && i < s.bar.N()
  {
    MasterCall(s, i, s.bar.procs[i].mem)
  }

  ghost predicate AboutToAct<P>(s: Sys<P>) {
    && CalmOk(s) && s.bar.curWaitIdx == 1 && s.bar.releases % 2 == 1
    && forall x | 0 <= x < 3 :: s.bar.procs[x].mem.pc.Checking?
  }

  lemma TwoAct<P>(w: World<P>, s: Sys<P>)
    requires w.Ok() && AboutToAct(s)
    ensures Goes(w, s, CallMaster(1), s.(bar := OneIn(s.bar, 1, Act(s, 1))))
    ensures Goes(w, s.(bar := OneIn(s.bar, 1, Act(s, 1))), CallMaster(2),
      s.(bar := TwoIn(s.bar, 1, Act(s, 1), 2, Act(s, 2))))
  {
    hide World.CallAt, World.At, Wrappers.ArgsOf, Apply;
    var t := s.(bar := OneIn(s.bar, 1, Act(s, 1)));
    FirstComes(s.bar, 1, Act(s, 1));
    Waits(w, s, 1, t.bar);
    SameTables(s, t.bar);
    var u := s.(bar := TwoIn(s.bar, 1, Act(s, 1), 2, Act(s, 2)));
    SecondComes(s.bar, 1, Act(s, 1), 2, Act(s, 2));
    Waits(w, t, 2, u.bar);
  }

  /** What the master's call does. */
  ghost function Done1<P>(w: World<P>, s: Sys<P>): Wrappers.Outcome
    requires CalmOk(s)
  {
    assert Live(s, 0);
    Wrappers.Exec(s.kernel, s.bar.procs[0].mem.table, w.prog.next(s.bar.procs[0].mem.ps))
  }

  /** The system right after the action, with the barrier in state `bar`. */
  ghost function Effected<P>(w: World<P>, s: Sys<P>, bar: State<Image<P>>): Sys<P>
    requires CalmOk(s) && |bar.procs| == 3
  {
    var m, o := s.bar.procs[0].mem, Done1(w, s);
    Sys(bar.(procs := bar.procs[0 := Outside(m.(pc := MasterDone(o.res)))]), o.kernel,
        Wrappers.Broadcast(s.area, w.prog.next(m.ps), o), s.trace + [(w.prog.next(m.ps), o.res)])
  }

  ghost function MasterActed<P>(w: World<P>, s: Sys<P>): Sys<P>
    requires CalmOk(s)
  {
    Effected(w, s, After(s.bar, 1, Act(s, 1), 2, Act(s, 2), 0, Act(s, 0)))
  }

  lemma MasterEnds<P>(w: World<P>, s: Sys<P>)
    requires w.Ok() && AboutToAct(s)
    ensures Goes(w, s.(bar := TwoIn(s.bar, 1, Act(s, 1), 2, Act(s, 2))), CallMaster(0),
                 Effected(w, s, Ended(s.bar, 1, Act(s, 1), 2, Act(s, 2), 0, Act(s, 0))))
  {
    hide World.CallAt, World.At, Wrappers.ArgsOf, Apply, Wrappers.Exec, Wrappers.Broadcast;
    SameTables(s, TwoIn(s.bar, 1, Act(s, 1), 2, Act(s, 2)));
    assert Live(s, 0);
    ThirdEnds(s.bar, 1, Act(s, 1), 2, Act(s, 2), 0, Act(s, 0));
  }

  lemma EffectedLeaves<P>(w: World<P>, s: Sys<P>)
    requires AboutToAct(s)
    ensures var v := Effected(w, s, Ended(s.bar, 1, Act(s, 1), 2, Act(s, 2), 0, Act(s, 0)));
      && Typed(v) && CanLeave(v.bar, 1) && CanLeave(Leave(v.bar, 1), 2)
      && v.(bar := Leave(Leave(v.bar, 1), 2)) == MasterActed(w, s)
  {
    hide Wrappers.ArgsOf, Wrappers.Exec, Wrappers.Broadcast;
    var bar := Ended(s.bar, 1, Act(s, 1), 2, Act(s, 2), 0, Act(s, 0));
    var v := Effected(w, s, bar);
    EndedLeaves(s.bar, 1, Act(s, 1), 2, Act(s, 2), 0, Act(s, 0));
    SameTables(s, bar);
    forall x | 0 <= x < 3 ensures Live(v, x) && Wrappers.TableOk(v.kernel, Of(v, x).table) {
      assert x == 0 || x == 1 || x == 2;
      assert Live(s, x) && Of(v, x).table == Of(s, x).table;
    }
    assert Leave(Leave(v.bar, 1), 2).procs == Leave(Leave(bar, 1), 2).procs[0 := v.bar.procs[0]];
  }

  function MasterMoves<P>(): seq<Move<P>> {
    [CallMaster(1), CallMaster(2), CallMaster(0), WakeUp(1), WakeUp(2)]
  }

  lemma MasterRound<P>(w: World<P>, run: seq<Sys<P>>, moves: seq<Move<P>>, s: Sys<P>)
    returns (r: seq<Sys<P>>, m: seq<Move<P>>)
    requires w.Ok() && LeadTo(w, run, moves, s) && AboutToAct(s)
    ensures LeadTo(w, r, m, MasterActed(w, s)) && m == moves + MasterMoves() && run <= r
  {
    hide LeadTo, Goes, Wrappers.ArgsOf, Wrappers.Exec, Wrappers.Broadcast;
    var b := s.bar;
    var t, u := s.(bar := OneIn(b, 1, Act(s, 1))), s.(bar := TwoIn(b, 1, Act(s, 1), 2, Act(s, 2)));
    var v := Effected(w, s, Ended(b, 1, Act(s, 1), 2, Act(s, 2), 0, Act(s, 0)));
    TwoAct(w, s);
    MasterEnds(w, s);
    EffectedLeaves(w, s);
    var x, y := v.(bar := Leave(v.bar, 1)), MasterActed(w, s);
    hide Ended, After, Effected, MasterActed;
    TwoLeave(w, v, 1, 2);
    r, m := FiveMoves(w, run, moves, s, CallMaster(1), t, CallMaster(2), u, CallMaster(0), v, WakeUp(1), x, WakeUp(2),
      y);
  }
}
