/** Why one fault between two votes is too many: a run in which two faults, in different calls, get the good replica
    replaced and have a wrong real effect. */
module LatentFaults {
  import opened Compare
  import opened Barrier
  import opened CalmRounds
  import opened OneRound
  import opened Replication
  import Refinement
  import Wrappers

  // ----- A program that the fault does not disturb before its second call

  datatype Ps = Ps(calls: nat, hit: bool)

  function Next(s: Ps): Wrappers.Call {
    if s.calls > 0 && s.hit then Wrappers.Unlink([]) else Wrappers.Read(0, 0)
  }

  function Resume1(s: Ps, r: Wrappers.Result): Ps {
    Ps(s.calls + 1, s.hit)
  }

  // One file, of the empty name; no open descriptors
  const KERNEL := Wrappers.Kernel(map[], map[[] := 0], [])

  function TheWorld(): (w: World<Ps>)
    ensures w.Ok()
  {
    World(Program(Next, Resume1), Single(Ps(0, false), KERNEL, []), map[], [])
  }

  const FAILED := Wrappers.Failure(Wrappers.EBADF)

  lemma OneProcess()
    ensures TheWorld().At(1) == Single(Ps(1, false), KERNEL, [(Wrappers.Read(0, 0), FAILED)])
    ensures TheWorld().At(2) == Single(Ps(2, false), KERNEL,
      [(Wrappers.Read(0, 0), FAILED), (Wrappers.Read(0, 0), FAILED)])
  {
    var w := TheWorld();
    assert w.At(0) == w.single;
    assert w.At(1) == Single(Ps(1, false), KERNEL, [(Wrappers.Read(0, 0), FAILED)]);
  }

  // ----- The return from a failed read

  function Back(s: Sys<Ps>): Sys<Ps>
    requires s.bar.Shape() && s.bar.N() == 3 && s.bar.procs[0].Outside? && s.bar.procs[1].Outside?
      && s.bar.procs[2].Outside?
  {
    s.(bar := s.bar.(procs := [Returned(s.bar.procs[0].mem), Returned(s.bar.procs[1].mem),
      Returned(s.bar.procs[2].mem)]))
  }

  function Returned(m: Image<Ps>): Phase<Image<Ps>> {
    Outside(Image(Ps(m.ps.calls + 1, m.ps.hit), m.table, App))
  }

  /** A slave that has heard of the failure. */
  function Heard(s: Sys<Ps>, i: nat): Sys<Ps>
    requires s.bar.Shape() && i < s.bar.N() && s.bar.procs[i].Outside?
  {
    SetMem(s, i, s.bar.procs[i].mem.(pc := GotHeader(s.area.hdr)))
  }

  function BackAt(s: Sys<Ps>, i: nat): Sys<Ps>
    requires s.bar.Shape() && i < s.bar.N() && s.bar.procs[i].Outside?
  {
    SetMem(s, i, Returned(s.bar.procs[i].mem).mem)
  }

  lemma SlaveReturns(s: Sys<Ps>, i: nat)
    requires CalmOk(s) && s.area.hdr == Wrappers.Header(Wrappers.EBADF, -1, 0) && i < 3
    requires s.bar.procs[i].mem.pc == Acting && Next(s.bar.procs[i].mem.ps) == Wrappers.Read(0, 0)
    ensures Goes(TheWorld(), s, CopyHeader(i), Heard(s, i))
    ensures Goes(TheWorld(), Heard(s, i), SeekAndReturn(i), BackAt(s, i))
  {
    hide World.CallAt, World.At, Wrappers.ArgsOf, Apply, Wrappers.Exec, Wrappers.Broadcast;
    SameTables(s, Heard(s, i).bar);
    assert Heard(s, i).bar.procs[i := Returned(s.bar.procs[i].mem)] == BackAt(s, i).bar.procs;
  }

  lemma MasterReturns(s: Sys<Ps>)
    requires CalmOk(s) && s.bar.procs[0].mem.pc == MasterDone(FAILED)
    ensures Goes(TheWorld(), s, MasterReturn(0), BackAt(s, 0))
  {
    hide World.CallAt, World.At, Wrappers.ArgsOf, Apply, Wrappers.Exec, Wrappers.Broadcast;
  }

  const RETURN: seq<Move<Ps>> := [MasterReturn(0), CopyHeader(1), SeekAndReturn(1), CopyHeader(2), SeekAndReturn(2)]

  lemma ReadReturns(run: seq<Sys<Ps>>, moves: seq<Move<Ps>>, s: Sys<Ps>)
    returns (r: seq<Sys<Ps>>, m: seq<Move<Ps>>)
    requires LeadTo(TheWorld(), run, moves, s) && CalmOk(s) && s.area.hdr == Wrappers.Header(Wrappers.EBADF, -1, 0)
    requires s.bar.procs[0].mem.pc == MasterDone(FAILED) && s.bar.procs[1].mem.pc == s.bar.procs[2].mem.pc == Acting
    requires forall x | 0 <= x < 3 :: Next(s.bar.procs[x].mem.ps) == Wrappers.Read(0, 0)
    ensures LeadTo(TheWorld(), r, m, Back(s)) && m == moves + RETURN && run <= r
  {
    var t := BackAt(s, 0);
    BackAtOk(s, 0);
    var v := BackAt(t, 1);
    BackAtOk(t, 1);
    var y := BackAt(v, 2);
    BackAll(s);
    hide Goes, Next, BackAt, CalmOk, Back;
    MasterReturns(s);
    SlaveReturns(t, 1);
    SlaveReturns(v, 2);
    r, m := FiveMoves(TheWorld(), run, moves, s, MasterReturn(0), t, CopyHeader(1), Heard(t, 1), SeekAndReturn(1), v,
      CopyHeader(2), Heard(v, 2), SeekAndReturn(2), y);
  }

  lemma BackAtOk(s: Sys<Ps>, i: nat)
    requires CalmOk(s) && i < 3
    ensures CalmOk(BackAt(s, i)) && BackAt(s, i).area == s.area
    ensures forall j | 0 <= j < 3 && j != i :: BackAt(s, i).bar.procs[j] == s.bar.procs[j]
  {
    SameTables(s, BackAt(s, i).bar);
  }

  lemma BackAll(s: Sys<Ps>)
    requires CalmOk(s)
    ensures BackAt(BackAt(BackAt(s, 0), 1), 2) == Back(s)
  {
    assert BackAt(BackAt(BackAt(s, 0), 1), 2).bar.procs == Back(s).bar.procs;
  }

  // ----- The vote of two wrong replicas

  /** The arguments of replicas 1 and 2 agree, and differ from those of replica 0, which are right. */
  ghost predicate ZeroOutvoted(s: Sys<Ps>) {
    && AboutToCall(s) && Check(TheWorld(), s, 0).args != Check(TheWorld(), s, 1).args == Check(TheWorld(), s, 2).args
    && Check(TheWorld(), s, 0).args == Wrappers.ArgsOf(TheWorld().CallAt(s.bar.releases / 2))
  }

  /** The third of them ends the vote, wrongly. */
  lemma ThirdOutvotes(s: Sys<Ps>)
    requires ZeroOutvoted(s)
    ensures var u := s.(bar := TwoIn(s.bar, 0, Check(TheWorld(), s, 0), 1, Check(TheWorld(), s, 1)));
      && Possible(TheWorld(), u, CallCheck(2)) && !RightVote(TheWorld(), u, CallCheck(2))
      && MoveTo(TheWorld(), u, CallCheck(2)).bar.procs[0].PendingDrain?
  {
    hide World.CallAt, World.At, Wrappers.ArgsOf, Apply;
    var b := s.bar;
    var (c, d, e) := (Check(TheWorld(), s, 0), Check(TheWorld(), s, 1), Check(TheWorld(), s, 2));
    var u := s.(bar := TwoIn(b, 0, c, 1, d));
    var a := Args(AllIn(b, 0, c, 1, d, 2, e));
    assert a[0] == c.args && a[1] == d.args && a[2] == e.args;
    SameTables(s, u.bar);
    ThirdReplaces(b, 0, c, 1, d, 2, e);
    assert Possible(TheWorld(), u, CallCheck(2));
    assert Mid(TheWorld(), u, CallCheck(2)).slots == AllIn(b, 0, c, 1, d, 2, e);
  }

  // ----- The run

  // The first call, with a fault before its vote; the second call, with another fault before its vote
  const STRIKE: seq<Move<Ps>> := [Child(1, 2), Child(2, 3), Fault(1, Ps(0, true))]
  const FIRST: seq<Move<Ps>> := STRIKE + CheckMoves() + MasterMoves() + RETURN
  const SECOND: seq<Move<Ps>> := [Fault(2, Ps(1, true)), CallCheck(0), CallCheck(1), CallCheck(2)]
  const BOTH: seq<Move<Ps>> := FIRST + SECOND

  const NO_AREA := Wrappers.Area(Wrappers.Header(0, 0, 0), [])

  function Beginning(): Sys<Ps> {
    var parent := InitSlot(ZERO_SLOT, 1);
    var m := Image(Ps(0, false), map[], App);
    Sys(State(0, [0, 0], false, [parent, ZERO_SLOT, ZERO_SLOT],
              [Outside(m), PendingStart(m, parent), PendingStart(m, parent)], 0, [0, 0, 0]), KERNEL, NO_AREA, [])
  }

  function Cells(pid: nat, a: SyscallArgs): seq<Slot> {
    [Slot(pid, -1, a, -1, 0, false), Slot(2, -1, a, -1, 0, false), Slot(3, -1, a, -1, 0, false)]
  }

  /** The memory of the three replicas in call k, by whether they are hit and where they are. */
  function Mems(k: nat, h0: bool, h1: bool, h2: bool, p0: Pc, p1: Pc, p2: Pc): seq<Image<Ps>> {
    [Image(Ps(k, h0), map[], p0), Image(Ps(k, h1), map[], p1), Image(Ps(k, h2), map[], p2)]
  }

  function Apps(k: nat, h1: bool, h2: bool): seq<Image<Ps>> {
    Mems(k, false, h1, h2, App, App, App)
  }

  /** Before the first vote, after the first fault. */
  function Struck(): Sys<Ps> {
    Calm(0, Cells(1, ZERO_ARGS), Apps(0, true, false), KERNEL, NO_AREA, [])
  }

  function OneStarted(): Sys<Ps> {
    var s, p, m := Beginning(), InitSlot(ZERO_SLOT, 1), Image(Ps(0, false), map[], App);
    s.(bar := s.bar.(slots := [p, InitSlot(ZERO_SLOT, 2), ZERO_SLOT],
      procs := [Outside(m), Outside(m), PendingStart(m, p)]))
  }

  function Started(): Sys<Ps> {
    Calm(0, Cells(1, ZERO_ARGS), Apps(0, false, false), KERNEL, NO_AREA, [])
  }

  lemma Starts()
    ensures Goes(TheWorld(), Beginning(), Child(1, 2), OneStarted())
    ensures Goes(TheWorld(), OneStarted(), Child(2, 3), Started())
  {}

  lemma Strikes()
    ensures Goes(TheWorld(), Started(), Fault(1, Ps(0, true)), Struck())
  {}

  lemma ReachStruck() returns (run: seq<Sys<Ps>>, moves: seq<Move<Ps>>)
    ensures LeadTo(TheWorld(), run, moves, Struck()) && moves == STRIKE && |run| > 0 && run[0] == Beginning()
  {
    hide Goes, OneStarted, Started, Struck, Beginning, Refinement.Start;
    Starts();
    Strikes();
    Begins();
    run, moves := [Beginning()], [];
    run, moves := Go(TheWorld(), run, moves, Beginning(), Child(1, 2), OneStarted());
    run, moves := Go(TheWorld(), run, moves, OneStarted(), Child(2, 3), Started());
    run, moves := Go(TheWorld(), run, moves, Started(), Fault(1, Ps(0, true)), Struck());
  }

  lemma Begins()
    ensures Refinement.Start(TheWorld(), Beginning())
  {
    assert seq(0, d => d) == TheWorld().standsFor;
    Refinement.ForkedStart(TheWorld(), Beginning());
  }

  const READ := Wrappers.Read(0, 0)

  const READ_ARGS := Wrappers.ArgsOf(READ)
  const READ_AREA := Wrappers.Area(Wrappers.Header(Wrappers.EBADF, -1, 0), [])

  /** After the first vote, the first effect, and the first call: the fault has had no consequence so far. */
  function Voted1(): Sys<Ps> {
    Calm(1, Cells(1, READ_ARGS), Mems(0, false, true, false, Checking, Checking, Checking), KERNEL, NO_AREA, [])
  }

  function Acted1(): Sys<Ps> {
    Calm(2, Cells(1, READ_ARGS), Mems(0, false, true, false, MasterDone(FAILED), Acting, Acting), KERNEL, READ_AREA,
         [(READ, FAILED)])
  }

  function Halfway(): Sys<Ps> {
    Calm(2, Cells(1, READ_ARGS), Apps(1, true, false), KERNEL, READ_AREA, [(READ, FAILED)])
  }

  lemma StruckCalls()
    ensures AboutToCall(Struck())
  {
    assert TheWorld().At(0) == TheWorld().single && TheWorld().CallAt(0) == READ;
    hide Wrappers.ArgsOf, World.At, World.CallAt;
  }

  lemma StruckChecked()
    ensures AboutToCall(Struck()) ==> Checked(TheWorld(), Struck()) == Voted1()
    ensures var w, s := TheWorld(), Struck(); Check(w, s, 0).args == Check(w, s, 1).args == Check(w, s, 2).args
  {
    hide Wrappers.ArgsOf, AboutToCall;
  }

  lemma FirstCall() returns (run: seq<Sys<Ps>>, moves: seq<Move<Ps>>)
    ensures LeadTo(TheWorld(), run, moves, Halfway()) && moves == FIRST && run[0] == Beginning()
  {
    StruckCalls();
    StruckChecked();
    FirstEffect();
    FirstReturn();
    hide AboutToCall, AboutToAct, CalmOk, Struck, Checked, Check, Voted1, Acted1, Halfway, Beginning, MasterActed, Back,
      LeadTo, CheckMoves, MasterMoves, RETURN, STRIKE;
    run, moves := ReachStruck();
    run, moves := CheckRound(TheWorld(), run, moves, Struck());
    run, moves := MasterRound(TheWorld(), run, moves, Voted1());
    run, moves := ReadReturns(run, moves, Acted1());
  }

  lemma FirstEffect()
    ensures AboutToAct(Voted1()) && MasterActed(TheWorld(), Voted1()) == Acted1()
  {
    var s := Voted1();
    hide Wrappers.ArgsOf;
    assert Done1(TheWorld(), s).res == FAILED && Done1(TheWorld(), s).kernel == KERNEL;
  }

  lemma FirstReturn()
    ensures var s := Acted1();
      && CalmOk(s) && s.area.hdr == Wrappers.Header(Wrappers.EBADF, -1, 0) && Back(s) == Halfway()
      && s.bar.procs[0].mem.pc == MasterDone(FAILED) && s.bar.procs[1].mem.pc == s.bar.procs[2].mem.pc == Acting
      && forall x | 0 <= x < 3 :: Next(s.bar.procs[x].mem.ps) == Wrappers.Read(0, 0)
  {
    hide Wrappers.ArgsOf;
    var s := Acted1();
    assert Back(s).bar.procs == Halfway().bar.procs;
  }

  /** Before the second vote, after the second fault. */
  function StruckAgain(): Sys<Ps> {
    Calm(2, Cells(1, READ_ARGS), Apps(1, true, true), KERNEL, READ_AREA, [(READ, FAILED)])
  }

  lemma SecondFault()
    ensures Goes(TheWorld(), Halfway(), Fault(2, Ps(1, true)), StruckAgain())
  {
    hide Wrappers.ArgsOf;
    assert MoveTo(TheWorld(), Halfway(), Fault(2, Ps(1, true))).bar.procs == StruckAgain().bar.procs;
  }

  lemma AgainOutvoted()
    ensures ZeroOutvoted(StruckAgain()) && StruckAgain().bar.releases == 2
  {
    OneProcess();
    assert TheWorld().CallAt(1) == READ;
  }

  /** The run starts as every run does. Replica 1 is hit in the first call and replica 2 in the second, one fault before
      each vote. The first fault has no consequence in the first call, whose effect is right, but leaves replica 1
      wrong; the second vote, which the last move ends, replaces the good replica 0. */
  lemma TwoLatentFaults() returns (run: seq<Sys<Ps>>)
    ensures Refinement.IsReplicatedRun(TheWorld(), run, BOTH) && run[0] == Beginning()
    ensures run[|FIRST|] == Halfway() && Halfway().trace == TheWorld().At(1).trace
    ensures !OthersRight(TheWorld(), Halfway(), 2)
    ensures var m := |BOTH| - 1;
      run[m].bar.releases == 2 && !RightVote(TheWorld(), run[m], BOTH[m]) && run[m + 1].bar.procs[0].PendingDrain?
  {
    HalfRight();
    SecondFault();
    AgainOutvoted();
    var s := StruckAgain();
    var t := s.(bar := OneIn(s.bar, 0, Check(TheWorld(), s, 0)));
    var u := s.(bar := TwoIn(s.bar, 0, Check(TheWorld(), s, 0), 1, Check(TheWorld(), s, 1)));
    TwoCheck(TheWorld(), s);
    ThirdOutvotes(s);
    hide Possible, MoveTo, Beginning, Halfway, StruckAgain, Refinement.Start, RightVote, FIRST, Check, AboutToCall,
      Right;
    run := Outvoted(s, t, u);
  }

  lemma Outvoted(s: Sys<Ps>, t: Sys<Ps>, u: Sys<Ps>) returns (run: seq<Sys<Ps>>)
    requires Goes(TheWorld(), Halfway(), Fault(2, Ps(1, true)), s)
    requires Goes(TheWorld(), s, CallCheck(0), t) && Goes(TheWorld(), t, CallCheck(1), u)
    requires Possible(TheWorld(), u, CallCheck(2))
    ensures Refinement.IsReplicatedRun(TheWorld(), run, BOTH) && run[0] == Beginning() && run[|FIRST|] == Halfway()
    ensures run[|BOTH| - 1] == u && run[|BOTH|] == MoveTo(TheWorld(), u, CallCheck(2))
  {
    hide Possible, MoveTo, Beginning, Halfway, Refinement.Start, FIRST;
    var moves: seq<Move<Ps>>;
    run, moves := FirstCall();
    run, moves := Go(TheWorld(), run, moves, Halfway(), Fault(2, Ps(1, true)), s);
    run, moves := Go(TheWorld(), run, moves, s, CallCheck(0), t);
    run, moves := Go(TheWorld(), run, moves, t, CallCheck(1), u);
    run, moves := Go(TheWorld(), run, moves, u, CallCheck(2), MoveTo(TheWorld(), u, CallCheck(2)));
    assert moves == BOTH;
  }

  /** Equal moves lead to equal states. */
  lemma {:induction false} SameStates(r: seq<Sys<Ps>>, run: seq<Sys<Ps>>, moves: seq<Move<Ps>>, k: nat)
    requires Refinement.IsReplicatedRun(TheWorld(), r, BOTH) && Refinement.IsReplicatedRun(TheWorld(), run, moves)
    requires r[0] == run[0] && BOTH <= moves && k <= |BOTH|
    ensures k < |r| && k < |run| && r[k] == run[k]
  {
    hide Possible, MoveTo, Refinement.Start;
    if k > 0 {
      SameStates(r, run, moves, k - 1);
      assert BOTH[k - 1] == moves[k - 1];
    }
  }

  /** However the run goes on, its second real effect is not the one of the unreplicated process. */
  lemma NeverRightAgain(run: seq<Sys<Ps>>, moves: seq<Move<Ps>>, k: nat)
    requires Refinement.IsReplicatedRun(TheWorld(), run, moves) && run[0] == Beginning() && BOTH <= moves
    requires |BOTH| <= k < |run| && |run[k].trace| > 1
    ensures run[k].trace != TheWorld().At(|run[k].trace|).trace
  {
    hide Possible, MoveTo, Refinement.Start, RightVote, TheWorld, Beginning, FIRST, SECOND;
    var r := TwoLatentFaults();
    var m := |BOTH| - 1;
    SameStates(r, run, moves, m);
    assert BOTH[m] == moves[m];
    Refinement.EffectsRightIff(TheWorld(), run, moves, k);
    assert run[m].bar.releases / 2 < |run[k].trace|;
  }

  lemma HalfRight()
    ensures Halfway().trace == TheWorld().At(1).trace && !OthersRight(TheWorld(), Halfway(), 2)
  {
    OneProcess();
    assert Live(Halfway(), 1) && !Right(TheWorld(), Halfway(), 1);
  }
}
