/** The refinement theorems for whole runs, and what follows from them. */
module Refinement {
  import opened Compare
  import opened Barrier
  import opened BarrierInv
  import opened BarrierRounds
  import opened Replication
  import opened Placement
  import opened ReplicationSteps
  import opened FaultModel
  import Wrappers
  import Crc32

  /** Right after startup: three copies of the program, whose descriptors are shared just as fork shares them. */
  ghost predicate Start<P>(w: World<P>, s: Sys<P>) {
    && w.Ok() && Typed(s) && Init(s.bar)
    && KernelsAgree(w, s.kernel, w.single.kernel) && s.trace == []
    && forall i | 0 <= i < 3 ::
         && Live(s, i)
         && var m := Of(s, i);
           && m.ps == w.single.ps && m.pc == App && Aliased(w, m.table)
           && Synced(w, s.kernel, m.table, w.single.kernel, -1)
  }

  /** Fork shares all descriptions: when startup is over, three copies of one process with the kernel of that process
      are in a state that runs may start from. */
  lemma ForkedStart<P>(w: World<P>, s: Sys<P>)
    requires w.Ok() && Init(s.bar) && s.bar.N() == 3 && s.kernel == w.single.kernel && s.trace == []
    requires forall i | 0 <= i < 3 :: Live(s, i) && Of(s, i) == Image(w.single.ps, w.table, App)
    requires w.standsFor == seq(|s.kernel.descs|, d => d)
    ensures Start(w, s)
  {}

  /** Every program, with every kernel and descriptor table, has a start. */
  lemma StartExists<P>(prog: Program<P>, ps: P, k: Wrappers.Kernel, t: Wrappers.Table)
    requires Wrappers.KernelOk(k) && Wrappers.TableOk(k, t)
    ensures exists w: World<P>, s: Sys<P> ::
      w.prog == prog && w.single == Single(ps, k, []) && w.table == t && Start(w, s)
  {
    var w := World(prog, Single(ps, k, []), t, seq(|k.descs|, d => d));
    var m := Image(ps, t, App);
    var parent := InitSlot(ZERO_SLOT, 1);
    var child := PendingStart(m, parent);
    var bar := State(0, [0, 0], false, [parent, ZERO_SLOT, ZERO_SLOT], [Outside(m), child, child], 0, [0, 0, 0]);
    var s := Sys(bar, k, Wrappers.Area(Wrappers.Header(0, 0, 0), []), []);
    ForkedStart(w, s);
  }

  // ----- Runs

  /** A run of the replicas: any interleaving, with any number of faults, deaths and expired timers. */
  ghost predicate IsReplicatedRun<P>(w: World<P>, run: seq<Sys<P>>, moves: seq<Move<P>>) {
    && |run| == |moves| + 1 && Start(w, run[0])
    && forall k | 0 <= k < |moves| :: Possible(w, run[k], moves[k]) && run[k + 1] == MoveTo(w, run[k], moves[k])
  }

  lemma RunStep<P>(w: World<P>, run: seq<Sys<P>>, moves: seq<Move<P>>, k: nat)
    requires IsReplicatedRun(w, run, moves) && k + 1 < |run|
    ensures |run| == |moves| + 1 && w.Ok() && Possible(w, run[k], moves[k])
    ensures run[k + 1] == MoveTo(w, run[k], moves[k])
  {
    hide Possible, MoveTo;
  }

  /** Each of the first k moves that ended a vote had a majority for the unreplicated process's arguments, and each that
      ended a master barrier had a slot 0 whose call was not a wrong one with the fingerprint of the right one. */
  ghost predicate EndsRight<P>(w: World<P>, run: seq<Sys<P>>, moves: seq<Move<P>>, k: nat)
    requires IsReplicatedRun(w, run, moves) && k <= |moves|
  {
    forall m | 0 <= m < k :: RightEnd(w, run[m], moves[m])
  }

  lemma StartRefines<P>(w: World<P>, s: Sys<P>)
    requires Start(w, s)
    ensures Refines(w, s) && OneWrong(w, s) && Calm(s)
  {
    InitInv(s.bar);
    forall i | 0 <= i < 3 && Live(s, i) ensures Placed(w, s, i) && ImageOk(w, s, Of(s, i)) && Right(w, s, i) {
      assert s.bar.procs[i].Outside? || s.bar.procs[i].PendingStart?;
    }
    assert OthersRight(w, s, 3);
    hide Inv, Placed, ImageOk, KernelsAgree;
    assert forall i | 0 <= i < 3 :: Live(s, i);
  }

  lemma RunStarts<P>(w: World<P>, run: seq<Sys<P>>, moves: seq<Move<P>>)
    requires IsReplicatedRun(w, run, moves) && |run| > 0
    ensures InPlace(w, run[0]) && Refines(w, run[0]) && OneWrong(w, run[0]) && Calm(run[0])
    ensures EndsRight(w, run, moves, 0)
  {
    hide Possible, MoveTo, Refines, InPlace, OneWrong, Calm;
    StartRefines(w, run[0]);
    InStep(w, run[0]);
  }

  lemma EndsRightBefore<P>(w: World<P>, run: seq<Sys<P>>, moves: seq<Move<P>>, k: nat)
    requires IsReplicatedRun(w, run, moves) && 0 < k <= |moves|
    ensures EndsRight(w, run, moves, k) <==> EndsRight(w, run, moves, k - 1) && RightEnd(w, run[k - 1], moves[k - 1])
  {
    hide Possible, MoveTo, RightEnd;
  }

  /** Whatever happens, the replicas are where the protocol wants them. */
  lemma {:induction false} RunInPlace<P>(w: World<P>, run: seq<Sys<P>>, moves: seq<Move<P>>, k: nat)
    requires IsReplicatedRun(w, run, moves) && k < |run|
    ensures InPlace(w, run[k])
  {
    hide *;
    if k == 0 {
      RunStarts(w, run, moves);
    } else {
      RunInPlace(w, run, moves, k - 1);
      RunStep(w, run, moves, k - 1);
      MoveInPlace(w, run[k - 1], moves[k - 1]);
    }
  }

  lemma MoveInPlace<P>(w: World<P>, s: Sys<P>, mv: Move<P>)
    requires InPlace(w, s) && Possible(w, s, mv)
    ensures InPlace(w, MoveTo(w, s, mv))
  {
    hide InPlace, MoveTo, Possible;
    if mv.Locks() {
      LockedMove(w, s, mv);
    } else {
      UnlockedMove(w, s, mv);
    }
  }

  /** As long as votes and masters are right the replicas are in step with the unreplicated process - however many of
      them have been hit, and whatever the program states of the others have become. */
  lemma {:induction false} RunRefines<P>(w: World<P>, run: seq<Sys<P>>, moves: seq<Move<P>>, k: nat)
    requires IsReplicatedRun(w, run, moves) && k < |run| && EndsRight(w, run, moves, k)
    ensures Refines(w, run[k])
  {
    hide *;
    if k == 0 {
      RunStarts(w, run, moves);
    } else {
      RunStep(w, run, moves, k - 1);
      EndsRightBefore(w, run, moves, k);
      RunRefines(w, run, moves, k - 1);
      MoveRefines(w, run[k - 1], moves[k - 1]);
    }
  }

  /** Right ends, right effects: the real effects are exactly those of one unreplicated process that has made as many
      calls as there were master rounds. */
  lemma EffectsRight<P>(w: World<P>, run: seq<Sys<P>>, moves: seq<Move<P>>, k: nat)
    requires IsReplicatedRun(w, run, moves) && k < |run| && EndsRight(w, run, moves, k)
    ensures var s := run[k]; var one := w.At(s.bar.releases / 2);
      && s.trace == one.trace && |s.trace| == s.bar.releases / 2
      && s.kernel.files == one.kernel.files && s.kernel.names == one.kernel.names
  {
    RunRefines(w, run, moves, k);
  }

  // ----- Exactly then

  /** The trace of effects only grows. */
  lemma {:induction false} TraceGrows<P>(w: World<P>, run: seq<Sys<P>>, moves: seq<Move<P>>, j: nat, k: nat)
    requires IsReplicatedRun(w, run, moves) && j <= k < |run|
    ensures run[j].trace <= run[k].trace
    decreases k - j
  {
    hide *;
    if j < k {
      RunStep(w, run, moves, k - 1);
      TraceGrows(w, run, moves, j, k - 1);
      TraceStep(w, run[k - 1], moves[k - 1]);
    }
  }

  lemma TraceStep<P>(w: World<P>, s: Sys<P>, mv: Move<P>)
    requires w.Ok() && Possible(w, s, mv)
    ensures s.trace <= MoveTo(w, s, mv).trace
  {
    hide Apply, Wrappers.Exec, Wrappers.Broadcast, Wrappers.SeekTo, Wrappers.SlaveResult, Enabled, World.CallAt;
  }

  /** After n calls of the unreplicated process its trace tells its first n calls. */
  lemma {:induction false} TraceTells<P>(w: World<P>, n: nat, m: nat)
    requires w.Ok() && m < n
    ensures w.At(n).trace[m].0 == w.CallAt(m)
  {
    if m < n - 1 {
      TraceTells(w, n - 1, m);
    }
    SingleStep(w, n - 1);
    hide World.At;
  }

  lemma WrongedStep<P>(w: World<P>, s: Sys<P>, mv: Move<P>, n: nat)
    requires w.Ok() && Possible(w, s, mv) && Wronged(w, s, n)
    ensures Wronged(w, MoveTo(w, s, mv), n)
  {
    hide MoveTo, Possible, Misled, InPlace, World.CallAt;
    if Misled(w, s, n) {
      MisledMove(w, s, mv, n);
    } else {
      TraceStep(w, s, mv);
    }
  }

  /** From a wrong end on. */
  lemma {:induction false} AfterWrongEnd<P>(w: World<P>, run: seq<Sys<P>>, moves: seq<Move<P>>, m: nat, k: nat)
    requires IsReplicatedRun(w, run, moves) && m < k < |run| && !RightEnd(w, run[m], moves[m])
    ensures Wronged(w, run[k], run[m].bar.releases / 2)
    decreases k
  {
    hide *;
    RunInPlace(w, run, moves, m);
    RunStep(w, run, moves, m);
    RunStep(w, run, moves, k - 1);
    if k == m + 1 {
      WrongEnd(w, run[m], moves[m]);
    } else {
      AfterWrongEnd(w, run, moves, m, k - 1);
      WrongedStep(w, run[k - 1], moves[k - 1], run[m].bar.releases / 2);
    }
  }

  lemma MisledTrace<P>(w: World<P>, s: Sys<P>, n: nat)
    requires w.Ok() && Misled(w, s, n)
    ensures |s.trace| == n
  {}

  /** The votes whose master round is over, and these master rounds. */
  ghost predicate ActedEndsRight<P>(w: World<P>, run: seq<Sys<P>>, moves: seq<Move<P>>, k: nat)
    requires IsReplicatedRun(w, run, moves) && k < |run|
  {
    forall m | 0 <= m < k && run[m].bar.releases / 2 < |run[k].trace| :: RightEnd(w, run[m], moves[m])
  }

  /** The first move of a run that ends something wrongly, if there is one. */
  lemma {:induction false} FirstWrong<P>(w: World<P>, run: seq<Sys<P>>, moves: seq<Move<P>>, k: nat) returns (m: nat)
    requires IsReplicatedRun(w, run, moves) && k <= |moves|
    ensures m <= k && EndsRight(w, run, moves, m) && (m < k ==> !RightEnd(w, run[m], moves[m]))
  {
    hide MoveTo, Possible, RightEnd;
    m := 0;
    while m < k && RightEnd(w, run[m], moves[m])
      invariant m <= k && EndsRight(w, run, moves, m)
    {
      m := m + 1;
    }
  }

  /** The condition, for every run with any number of faults: the effects so far are those of the unreplicated process
      if and only if in every vote that has been acted upon its arguments had the majority, and no call that slot 0 has
      made was a wrong one with the same fingerprint. */
  lemma EffectsRightIff<P>(w: World<P>, run: seq<Sys<P>>, moves: seq<Move<P>>, k: nat)
    requires IsReplicatedRun(w, run, moves) && k < |run|
    ensures run[k].trace == w.At(|run[k].trace|).trace <==> ActedEndsRight(w, run, moves, k)
  {
    var m := FirstWrong(w, run, moves, k);
    hide MoveTo, Possible, RightEnd, Refines, Misled;
    EffectsRight(w, run, moves, m);
    if m < k {
      var n := run[m].bar.releases / 2;
      AfterWrongEnd(w, run, moves, m, k);
      TraceGrows(w, run, moves, m, k);
      if |run[k].trace| > n {
        if Misled(w, run[k], n) {
          MisledTrace(w, run[k], n);
        }
        TraceTells(w, |run[k].trace|, n);
      } else {
        assert run[k].trace == run[m].trace;
        EarlierVotes(w, run, moves, m, k);
      }
    }
  }

  /** A vote that is acted upon comes before one that is not. */
  lemma EarlierVotes<P>(w: World<P>, run: seq<Sys<P>>, moves: seq<Move<P>>, m: nat, k: nat)
    requires IsReplicatedRun(w, run, moves) && m < k < |run| && EndsRight(w, run, moves, m)
    requires |run[k].trace| <= run[m].bar.releases / 2
    ensures ActedEndsRight(w, run, moves, k)
  {
    hide MoveTo, Possible, RightEnd;
    forall j | 0 <= j < k && run[j].bar.releases / 2 < |run[k].trace| ensures RightEnd(w, run[j], moves[j]) {
      if j >= m {
        LaterVote(w, run, moves, m, j);
        assert false;
      }
    }
  }

  lemma LaterVote<P>(w: World<P>, run: seq<Sys<P>>, moves: seq<Move<P>>, m: nat, j: nat)
    requires IsReplicatedRun(w, run, moves) && m <= j < |run|
    ensures run[m].bar.releases / 2 <= run[j].bar.releases / 2
  {
    RunInPlace(w, run, moves, m);
    RunInPlace(w, run, moves, j);
    TraceGrows(w, run, moves, m, j);
    Shapes(w, run[m]);
    Shapes(w, run[j]);
  }

  // ----- One fault at a time

  /** Faults strike only while all other replicas are right, and what watchdogs copy is right. */
  ghost predicate OneFaultAtATime<P>(w: World<P>, run: seq<Sys<P>>, moves: seq<Move<P>>)
    requires IsReplicatedRun(w, run, moves)
  {
    forall k | 0 <= k < |moves| :: CanMove(w, run[k], moves[k])
  }

  lemma {:induction false} RunRight<P>(w: World<P>, run: seq<Sys<P>>, moves: seq<Move<P>>, k: nat)
    requires IsReplicatedRun(w, run, moves) && k < |run| && OneFaultAtATime(w, run, moves)
    ensures EndsRight(w, run, moves, k) && OneWrong(w, run[k])
  {
    hide *;
    if k == 0 {
      RunStarts(w, run, moves);
    } else {
      RunRight(w, run, moves, k - 1);
      RunRefines(w, run, moves, k - 1);
      RunStep(w, run, moves, k - 1);
      ModelStep(w, run, moves, k - 1);
      ModelMove(w, run[k - 1], moves[k - 1]);
      EndsRightBefore(w, run, moves, k);
    }
  }

  lemma ModelStep<P>(w: World<P>, run: seq<Sys<P>>, moves: seq<Move<P>>, k: nat)
    requires IsReplicatedRun(w, run, moves) && k < |moves| && OneFaultAtATime(w, run, moves)
    ensures w.Ok() && CanMove(w, run[k], moves[k])
  {
    hide Possible, MoveTo, CanMove;
  }

  /** If faults strike one at a time, however late they are noticed: in every state of every run the real effects are
      exactly those of one unreplicated process that has made as many calls as there were master rounds, and all
      replicas but one have the program state that this process has at their place. */
  lemma LooksLikeOneProcess<P>(w: World<P>, run: seq<Sys<P>>, moves: seq<Move<P>>, k: nat)
    requires IsReplicatedRun(w, run, moves) && k < |run| && OneFaultAtATime(w, run, moves)
    ensures var s := run[k]; var one := w.At(s.bar.releases / 2);
      && Typed(s)
      && s.trace == one.trace && |s.trace| == s.bar.releases / 2
      && s.kernel.files == one.kernel.files && s.kernel.names == one.kernel.names
      && exists f: nat ::
        && OthersRight(w, s, f)
        && forall i | 0 <= i < 3 && i != f && Live(s, i) && Of(s, i).pc.App? :: Of(s, i).ps == one.ps
  {
    RunRight(w, run, moves, k);
    EffectsRight(w, run, moves, k);
    hide IsReplicatedRun, OneFaultAtATime, EndsRight, World.At;
    var s := run[k];
    var f: nat :| OthersRight(w, s, f);
    forall i | 0 <= i < 3 && i != f && Live(s, i) && Of(s, i).pc.App?
      ensures Of(s, i).ps == w.At(s.bar.releases / 2).ps
    {
      assert Right(w, s, i);
    }
  }

  /** Nobody gives up, if besides timers expire only at check barriers, when exactly one replica is missing. */
  lemma {:induction false} NobodyExits<P>(w: World<P>, run: seq<Sys<P>>, moves: seq<Move<P>>, k: nat)
    requires IsReplicatedRun(w, run, moves) && k < |run| && OneFaultAtATime(w, run, moves)
    requires forall m | 0 <= m < |moves| :: Gentle(w, run[m], moves[m])
    ensures Calm(run[k]) && forall i | 0 <= i < |run[k].bar.procs| :: !run[k].bar.procs[i].Exited?
  {
    hide *;
    if k == 0 {
      RunStarts(w, run, moves);
      NobodyHasExited(run[0]);
    } else {
      NobodyExits(w, run, moves, k - 1);
      RunRight(w, run, moves, k - 1);
      RunStep(w, run, moves, k - 1);
      StaysCalm(w, run[k - 1], moves[k - 1]);
    }
  }

  lemma StaysCalm<P>(w: World<P>, s: Sys<P>, mv: Move<P>)
    requires OneWrong(w, s) && w.Ok() && Possible(w, s, mv) && Gentle(w, s, mv) && Calm(s)
    ensures Calm(MoveTo(w, s, mv))
    ensures forall i | 0 <= i < |MoveTo(w, s, mv).bar.procs| :: !MoveTo(w, s, mv).bar.procs[i].Exited?
  {
    hide MoveTo, Possible, Gentle, OthersRight;
    var f: nat :| OthersRight(w, s, f);
    hide InPlace;
    GentleMove(w, s, mv, f);
  }

  lemma NobodyHasExited<P>(s: Sys<P>)
    requires Calm(s)
    ensures forall i | 0 <= i < |s.bar.procs| :: !s.bar.procs[i].Exited?
  {}

  // ----- Offsets and results

  /** Replicas that have finished the last call agree with the unreplicated process, and so with each other, on every
      file offset, however their descriptors share descriptions - also after replacements, whose descriptors alias those
      of their parents. */
  lemma OffsetsAgree<P>(w: World<P>, run: seq<Sys<P>>, moves: seq<Move<P>>, k: nat, i: nat, j: nat, fd: int)
    requires IsReplicatedRun(w, run, moves) && k < |run| && EndsRight(w, run, moves, k) && i < 3 && j < 3
    requires Typed(run[k]) && Live(run[k], i) && Live(run[k], j) && fd in w.table
    requires Done(Of(run[k], i).pc, run[k].bar.releases) && Done(Of(run[k], j).pc, run[k].bar.releases)
    ensures var s := run[k]; var ti := Of(s, i).table; var tj := Of(s, j).table;
      && fd in ti && fd in tj && s.kernel.descs[ti[fd]] == s.kernel.descs[tj[fd]]
      && s.kernel.descs[ti[fd]] == w.At(s.bar.releases / 2).kernel.descs[w.table[fd]]
  {
    RunRefines(w, run, moves, k);
    var s := run[k];
    assert ImageOk(w, s, Of(s, i)) && ImageOk(w, s, Of(s, j));
    hide IsReplicatedRun, EndsRight, InPlace, AreaHolds;
    var rk := w.At(s.bar.releases / 2).kernel;
    var ti, tj := Of(s, i).table, Of(s, j).table;
    assert w.standsFor[ti[fd]] == w.table[fd] == w.standsFor[tj[fd]];
    assert s.kernel.descs[ti[fd]].offs == rk.descs[w.table[fd]].offs == s.kernel.descs[tj[fd]].offs;
    assert s.kernel.descs[ti[fd]].file == rk.descs[w.table[fd]].file == s.kernel.descs[tj[fd]].file;
  }

  /** What a slave has copied out of the shared area is the outcome of its own call, the last one of the master:
      never an older one, and never a newer one. The offset, if the call moved one, is the unreplicated process's. */
  lemma BroadcastExact<P>(w: World<P>, run: seq<Sys<P>>, moves: seq<Move<P>>, k: nat, i: nat)
    requires IsReplicatedRun(w, run, moves) && k < |run| && EndsRight(w, run, moves, k) && i < 3
    requires Typed(run[k]) && Live(run[k], i) && (Of(run[k], i).pc.GotHeader? || Of(run[k], i).pc.GotPayload?)
    ensures var s := run[k]; var m := Of(s, i);
      && |s.trace| > 0
      && var (c, res) := s.trace[|s.trace| - 1];
        && Wrappers.ArgsOf(w.prog.next(m.ps)) == Wrappers.ArgsOf(c) && (c.Read? ==> w.prog.next(m.ps) == c)
        && m.pc.hdr.ret == res.ret && m.pc.hdr.err == res.err
        && (m.pc.GotPayload? ==> m.pc.data == res.data)
        && (Moved(w, c) != -1 ==>
             && Moved(w, c) < |w.At(|s.trace|).kernel.descs|
             && m.pc.hdr.offs == w.At(|s.trace|).kernel.descs[Moved(w, c)].offs)
  {
    hide World.At, World.OutcomeAt, World.CallAt, AreaHolds, KernelsAgree, IsReplicatedRun, EndsRight, Moved, Synced,
      Aliased, Inv, Wrappers.Exec;
    var s := run[k];
    RunRefines(w, run, moves, k);
    InCall(w, s, i);
    var n := s.bar.releases / 2 - 1;
    SingleStep(w, n);
    Wrappers.ArgsShow(w.CallAt(n), w.prog.next(Of(s, i).ps));
    AreaExact(w, s.area, n);
  }

  lemma AreaExact<P>(w: World<P>, a: Wrappers.Area, n: nat)
    requires w.Ok() && AreaHolds(w, a, n)
    ensures var c, o := w.CallAt(n), w.OutcomeAt(n);
      && a.hdr.ret == o.res.ret && a.hdr.err == o.res.err
      && (Moved(w, c) != -1 ==>
           && Moved(w, c) < |w.At(n + 1).kernel.descs| && a.hdr.offs == w.At(n + 1).kernel.descs[Moved(w, c)].offs)
  {
    assert w.At(n + 1).kernel == w.OutcomeAt(n).kernel;
  }

  // ----- Replacements

  /** A complete round of votes that replica i is about to run, in which the right arguments have the majority, but
      replica b presents others. */
  ghost predicate Outvotes<P>(w: World<P>, s: Sys<P>, i: nat, b: nat) {
    && Refines(w, s) && s.bar.releases % 2 == 0 && i < 3 && b < 3 && Running(s.bar, i)
    && s.bar.condWaitCnt[s.bar.curWaitIdx] == 3
    && var right := Wrappers.ArgsOf(w.CallAt(s.bar.releases / 2));
      Majority(s.bar.slots, right) && s.bar.slots[b].args != right
  }

  /** The round has ended with all in step, and replica b has been replaced with a copy of replica g. */
  ghost predicate ReplacedBy<P>(w: World<P>, s: Sys<P>, t: Sys<P>, b: nat, g: nat)
    requires s.bar.Shape() && Live(s, g)
  {
    && Refines(w, t) && t.bar.releases == s.bar.releases + 1 && b < t.bar.N()
    && t.bar.procs[b].PendingDrain? && Mem(t.bar.procs[b]) == Of(s, g)
  }

  /** Replica i runs the vote. If it is the outvoted one, it wakes up another one that votes again; if besides its timer
      has expired, it exits. */
  ghost predicate VoteReplaces<P>(w: World<P>, s: Sys<P>, i: nat, b: nat)
    requires w.Ok() && Typed(s) && i < 3 && b < 3 && Running(s.bar, i)
  {
    var t := Section(w, s, RunLoop(s.bar, i), i);
    var g := FirstOther(i);
    if i != b then ReplacedBy(w, s, t, b, i)
    else if s.bar.procs[i].loc.expired then Refines(w, t) && t.bar.procs[i].Exited?
    else
      && Refines(w, t) && t.bar.releases == s.bar.releases
      && t.bar.procs[g].Blocked? && t.bar.procs[g].signalled
      && Possible(w, t, WakeUp(g)) && ReplacedBy(w, t, MoveTo(w, t, WakeUp(g)), b, g)
  }

  /** A section that ends no vote wrongly keeps the replicas in step. */
  lemma SectionRefines<P>(w: World<P>, s: Sys<P>, i: nat)
    requires Refines(w, s) && i < 3 && InSection(s.bar, i) && s.bar.releases % 2 == 0
    requires Majority(s.bar.slots, Wrappers.ArgsOf(w.CallAt(s.bar.releases / 2)))
    ensures var t := Section(w, s, RunLoop(s.bar, i), i); Refines(w, t) && (Quiet(s, t, i) || Voted(w, s, t, i))
  {
    InStep(w, s);
    var t := Section(w, s, RunLoop(s.bar, i), i);
    hide Refines, InPlace, Section, RunLoop, Majority, Quiet, Voted, InSection;
    SectionPlaced(w, s, i);
    if Quiet(s, t, i) {
      QuietRefines(w, s, t, i);
    } else if Voted(w, s, t, i) {
      VotedRefines(w, s, t, i);
    }
  }

  /** In a complete round nobody is on the way out of the last one. */
  lemma CompleteInSection<P>(w: World<P>, s: Sys<P>, i: nat, b: nat)
    requires Outvotes(w, s, i, b)
    ensures InSection(s.bar, i) && VoteRound(s.bar, i) && forall j | 0 <= j < 3 :: Voter(w, s, j) && Waiting(s.bar, j)
  {
    hide World.At, World.CallAt, Wrappers.ArgsOf, KernelsAgree, AreaHolds, ImageOk, Placed;
    AllVote(w, s, i);
    CompleteAllWait(s.bar);
    forall j | 0 <= j < 3 ensures !Draining(s.bar, j) {
      assert Waiting(s.bar, j);
    }
  }

  /** The one that is outvoted is replaced, by the vote, with a copy of a replica of the majority - also if it runs the
      vote itself. */
  lemma FaultyVoterReplaced<P>(w: World<P>, s: Sys<P>, i: nat, b: nat)
    requires Outvotes(w, s, i, b)
    ensures VoteReplaces(w, s, i, b)
  {
    if i != b {
      GoodRunnerReplaces(w, s, i, b);
    } else if s.bar.procs[i].loc.expired {
      ExpiredRunnerExits(w, s, i);
    } else {
      FaultyRunnerReruns(w, s, i);
    }
  }

  lemma MajorityOthers(slots: seq<Slot>, a: SyscallArgs, b: nat, i: nat)
    requires Majority(slots, a) && b < 3 && i < 3 && i != b && slots[b].args != a
    ensures slots[i].args == a
  {}

  lemma GoodRunnerReplaces<P>(w: World<P>, s: Sys<P>, i: nat, b: nat)
    requires Outvotes(w, s, i, b) && i != b
    ensures ReplacedBy(w, s, Section(w, s, RunLoop(s.bar, i), i), b, i)
  {
    hide Refines, InPlace, Wrappers.ArgsOf, World.CallAt, RunLoop, Majority, VoteRound, InSection, Inv, Quiet, Voted;
    CompleteInSection(w, s, i, b);
    InStep(w, s);
    Shapes(w, s);
    var a := Wrappers.ArgsOf(w.CallAt(s.bar.releases / 2));
    assert Voter(w, s, i);
    SectionRefines(w, s, i);
    MajorityOthers(s.bar.slots, a, b, i);
    GoodRunnerVotes(s.bar, i, a, b);
  }

  lemma GoodRunnerVotes<M>(b: State<M>, i: nat, a: SyscallArgs, bad: nat)
    requires VoteRound(b, i) && Majority(b.slots, a) && b.slots[i].args == a && bad < 3 && b.slots[bad].args != a
    ensures var t := RunLoop(b, i);
      && t.Shape() && t.N() == 3 && t.releases == b.releases + 1 && t.procs[i] == Outside(b.procs[i].loc.mem)
      && t.procs[bad].PendingDrain? && t.procs[bad].loc == b.procs[i].loc
  {
    VoteByGood(b, i, a);
    assert Repaired(b, RunLoop(b, i), i, a, bad);
    GoodVoteForm(b, i, a);
  }

  lemma ExpiredRunnerExits<P>(w: World<P>, s: Sys<P>, i: nat)
    requires Outvotes(w, s, i, i) && s.bar.procs[i].loc.expired
    ensures VoteReplaces(w, s, i, i)
  {
    hide RunLoop, Refines, InPlace, Wrappers.ArgsOf, World.CallAt, Majority, VoteRound, Quiet, Voted, Judge;
    CompleteInSection(w, s, i, i);
    InStep(w, s);
    Shapes(w, s);
    var a := Wrappers.ArgsOf(w.CallAt(s.bar.releases / 2));
    SectionRefines(w, s, i);
    OutvotedCannotRelease(s.bar, i, a);
    assert Waiting(s.bar, i);
    ExpiredInCompleteRound(s.bar, i);
  }

  lemma OutvotedCannotRelease<M>(b: State<M>, i: nat, a: SyscallArgs)
    requires VoteRound(b, i) && Majority(b.slots, a) && b.slots[i].args != a
    ensures Inv(b) && !CanRelease(b, i)
  {
    hide Inv, Majority, Judge, Args;
    ReadyToRun(b, i);
    VoteVerdict(b.slots, a);
  }

  lemma FaultyRunnerReruns<P>(w: World<P>, s: Sys<P>, i: nat)
    requires Outvotes(w, s, i, i) && !s.bar.procs[i].loc.expired
    ensures VoteReplaces(w, s, i, i)
  {
    CompleteInSection(w, s, i, i);
    SectionRefines(w, s, i);
    RerunForm(w, s, i);
    var t := Section(w, s, RunLoop(s.bar, i), i);
    assert t == s.(bar := RunLoop(s.bar, i)) && t.bar.slots == s.bar.slots;
    hide RunLoop, Section, Refines, Inv, Possible, MoveTo, ReplacedBy;
    WokenReplaces(w, t, FirstOther(i), i);
  }

  /** What the vote of the outvoted replica does. */
  lemma RerunForm<P>(w: World<P>, s: Sys<P>, i: nat)
    requires Outvotes(w, s, i, i) && !s.bar.procs[i].loc.expired
    ensures var g := FirstOther(i); var t := RunLoop(s.bar, i);
      && g < 3 && g != i && Inv(t) && t == s.bar.(procs := t.procs)
      && |t.procs| == 3 && t.procs[g].Blocked? && t.procs[g].signalled && t.procs[i].Blocked?
  {
    hide World.At, World.OutcomeAt, World.CallAt, KernelsAgree, AreaHolds, ImageOk, Wrappers.ArgsOf;
    CompleteInSection(w, s, i, i);
    BadVoteForm(s.bar, i, Wrappers.ArgsOf(w.CallAt(s.bar.releases / 2)));
    RunLoopNoWatchdogInv(s.bar, i);
    assert Waiting(s.bar, FirstOther(i));
    hide RunLoop, Majority, VoteRound, Inv;
  }

  /** In a complete round everybody may take the lock again. */
  lemma AllAwaited<M>(b: State<M>, g: nat)
    requires Inv(b) && b.condWaitCnt[b.curWaitIdx] == b.N() && g < b.N()
    ensures Enabled(b, Wake(g, false))
  {
    CompleteAllWait(b);
    assert Waiting(b, g) && SlotOk(b, g);
    forall j | 0 <= j < b.N() ensures !Draining(b, j) {
      assert Waiting(b, j);
    }
  }

  /** Any other replica that takes the lock in a complete round of votes repairs it. */
  lemma WokenReplaces<P>(w: World<P>, t: Sys<P>, g: nat, b: nat)
    requires Refines(w, t) && t.bar.releases % 2 == 0 && g < 3 && b < 3 && g != b
    requires t.bar.condWaitCnt[t.bar.curWaitIdx] == 3
    requires var right := Wrappers.ArgsOf(w.CallAt(t.bar.releases / 2));
      Majority(t.bar.slots, right) && t.bar.slots[b].args != right
    ensures Live(t, g) && Possible(w, t, WakeUp(g)) && ReplacedBy(w, t, MoveTo(w, t, WakeUp(g)), b, g)
  {
    hide World.At, World.OutcomeAt, World.CallAt, KernelsAgree, AreaHolds, ImageOk, Wrappers.ArgsOf, RunLoop, Section,
      Placed, Majority;
    AllAwaited(t.bar, g);
    var u := t.(bar := Resume(t.bar, g, false));
    ResumeInv(t.bar, g, false);
    Resumes(w, t, g, false);
    QuietRefines(w, t, u, g);
    hide Inv, Enabled, Refines, InPlace;
    GoodRunnerReplaces(w, u, g, b);
    SectionSame(w, t, u, RunLoop(u.bar, g), g);
  }

  /** A section may be looked at from its start, or from its middle. */
  lemma SectionSame<P>(w: World<P>, s: Sys<P>, u: Sys<P>, bar: State<Image<P>>, i: nat)
    requires Typed(s) && Typed(u) && u == s.(bar := u.bar) && u.bar.releases == s.bar.releases
    requires bar.Shape() && bar.N() == 3 && i < 3
    ensures Section(w, u, bar, i) == Section(w, s, bar, i)
  {}

  /** For writes whose buffer is hit by a burst of at most 32 bits no assumption about fingerprints is needed. */
  lemma BurstIsDetectable<P>(w: World<P>, s: Sys<P>, ps: P, fd: Wrappers.cint, good: Wrappers.buffer,
    bad: Wrappers.buffer, at: nat)
    requires w.Ok() && w.CallAt(s.bar.releases / 2) == Wrappers.Write(fd, good)
      && w.prog.next(ps) == Wrappers.Write(fd, bad)
    requires Crc32.WithinBurst(Crc32.Bits(good), Crc32.Bits(bad), at)
    ensures Detectable(w, s, ps)
  {
    if good != bad {
      Wrappers.WriteBurstShows(fd, good, bad, at);
    }
  }

  /** Nor for reads, nor for any call that differs in kind, descriptor or length. */
  lemma DetectableUnlessSameShape<P>(w: World<P>, s: Sys<P>, ps: P)
    requires w.Ok()
    requires var c, d := w.CallAt(s.bar.releases / 2), w.prog.next(ps);
      && (c.Write? ==> !(d.Write? && d.fd == c.fd && |d.buf| == |c.buf|))
      && (c.Unlink? ==> !d.Unlink?)
    ensures Detectable(w, s, ps)
  {
    hide World.CallAt, Wrappers.ArgsOf;
    Wrappers.ArgsShow(w.CallAt(s.bar.releases / 2), w.prog.next(ps));
  }

  /** End to end: the replica whose write buffer is hit by a burst of at most 32 bits is outvoted and replaced; with
      EffectsRight, the bytes that are written are the good ones. */
  lemma BurstRepaired<P>(w: World<P>, s: Sys<P>, i: nat, b: nat, fd: Wrappers.cint,
    good: Wrappers.buffer, bad: Wrappers.buffer, at: nat)
    requires Refines(w, s) && s.bar.releases % 2 == 0 && i < 3 && b < 3 && Running(s.bar, i)
    requires s.bar.condWaitCnt[s.bar.curWaitIdx] == 3 && OthersRight(w, s, b) && Live(s, b)
    requires w.CallAt(s.bar.releases / 2) == Wrappers.Write(fd, good)
    requires w.prog.next(Of(s, b).ps) == Wrappers.Write(fd, bad)
    requires good != bad && Crc32.WithinBurst(Crc32.Bits(good), Crc32.Bits(bad), at)
    ensures VoteReplaces(w, s, i, b)
  {
    Wrappers.WriteBurstShows(fd, good, bad, at);
    InStep(w, s);
    AllVote(w, s, i);
    hide World.CallAt, World.At, Refines, InPlace, Wrappers.ArgsOf, VoteReplaces, Right;
    forall j | 0 <= j < 3 ensures Live(s, j) && Of(s, j).pc.Checking? && s.bar.slots[j].args == ArgsIn(w, s, j) {
      assert Voter(w, s, j);
    }
    OthersOutvote(w, s, b);
    FaultyVoterReplaced(w, s, i, b);
  }

  /** A replica that has died or hangs outside the check barrier is replaced: the watchdog forks a copy of a replica
      that waits, whose first section ends the round. All are in step then, if the copied replica's arguments were
      right. */
  lemma StuckReplicaReplaced<P>(w: World<P>, s: Sys<P>, i: nat, t: nat, pid: nat)
    requires Refines(w, s) && s.bar.releases % 2 == 0 && Possible(w, s, TimeOut(i)) && Waiting(s.bar, i)
    requires !s.bar.restoring && OneMissing(s.bar, t)
    requires Possible(w, MoveTo(w, s, TimeOut(i)), Child(t, pid))
    ensures var u := MoveTo(w, s, TimeOut(i)); var v := MoveTo(w, u, Child(t, pid));
      && Refines(w, u) && u.bar.procs[t].PendingWait? && Mem(u.bar.procs[t]) == Of(s, i)
      && InPlace(w, v) && !v.bar.restoring && v.bar.releases == s.bar.releases + 1
      && v.bar.procs[t] == Outside(Of(s, i))
      && (s.bar.slots[i].args == Wrappers.ArgsOf(w.CallAt(s.bar.releases / 2)) ==> Refines(w, v))
  {
    var u := MoveTo(w, s, TimeOut(i));
    TimeOutForks(w, s, i, t);
    ChildEndsVote(w, u, t, pid);
    hide Refines, MoveTo, Possible, InPlace;
  }

  /** The watchdog's fork. */
  lemma TimeOutForks<P>(w: World<P>, s: Sys<P>, i: nat, t: nat)
    requires Refines(w, s) && s.bar.releases % 2 == 0 && Possible(w, s, TimeOut(i)) && Waiting(s.bar, i)
    requires !s.bar.restoring && OneMissing(s.bar, t)
    ensures var u := MoveTo(w, s, TimeOut(i));
      && Refines(w, u) && u.bar.releases == s.bar.releases && t < 3 && u.bar.procs[t].PendingWait?
      && Mem(u.bar.procs[t]) == Of(s, i) && u.bar.procs[t].parent.args == s.bar.slots[i].args
  {
    hide World.At, World.CallAt, Wrappers.ArgsOf, KernelsAgree, AreaHolds, ImageOk, Inv, Apply, Enabled;
    var u := MoveTo(w, s, TimeOut(i));
    WatchdogForks(s.bar, i, true, t);
    assert u == s.(bar := Apply(s.bar, Wake(i, true)));
    hide Refines;
    assert RightEnd(w, s, TimeOut(i));
    MoveRefines(w, s, TimeOut(i));
  }

  /** The section of its child. */
  lemma ChildEndsVote<P>(w: World<P>, u: Sys<P>, t: nat, pid: nat)
    requires Refines(w, u) && u.bar.releases % 2 == 0 && Possible(w, u, Child(t, pid)) && u.bar.procs[t].PendingWait?
    ensures var v := MoveTo(w, u, Child(t, pid));
      && InPlace(w, v) && !v.bar.restoring && v.bar.releases == u.bar.releases + 1
      && v.bar.procs[t] == Outside(Mem(u.bar.procs[t]))
      && (u.bar.procs[t].parent.args == Wrappers.ArgsOf(w.CallAt(u.bar.releases / 2)) ==> Refines(w, v))
  {
    hide World.At, World.CallAt, Wrappers.ArgsOf, KernelsAgree, AreaHolds, ImageOk, Inv, Apply, Enabled, Repaired;
    var v := MoveTo(w, u, Child(t, pid));
    InStep(w, u);
    assert Placed(w, u, t);
    WatchdogRecovers(u.bar, t, pid);
    var j := WatchdogChildReady(u.bar, t, pid);
    hide Placed;
    assert v == u.(bar := Apply(u.bar, Install(t, pid)));
    MoveInPlace(w, u, Child(t, pid));
    hide Refines, InPlace;
    if u.bar.procs[t].parent.args == Wrappers.ArgsOf(w.CallAt(u.bar.releases / 2)) {
      var slots := Mid(w, u, Child(t, pid)).slots;
      assert if t < j then slots[t].args == slots[j].args else slots[j].args == slots[t].args;
      MoveRefines(w, u, Child(t, pid));
    }
  }
}
