/** Faults that strike one replica at a time: the votes are right, all replicas but one are right at all times, and
    nobody gives up as long as watchdogs fire at check barriers only. */
module FaultModel {
  import opened Compare
  import opened Barrier
  import opened BarrierInv
  import opened BarrierRounds
  import opened Placement
  import opened Replication
  import opened ReplicationSteps
  import Wrappers

  // ----- Replicas stay right

  /** What one replica takes over from another, or keeps, is as right as it was. */
  lemma RightFrom<P>(w: World<P>, s: Sys<P>, t: Sys<P>, j: nat, o: nat)
    requires w.Ok() && Typed(s) && Typed(t) && t.bar.releases == s.bar.releases && Live(t, j) && From(s, t, j, o)
    requires Right(w, s, o)
    ensures Right(w, t, j)
  {
    hide World.At;
  }

  /** In a round that goes on, whoever was right stays right, if what watchdogs copy is right. */
  lemma QuietRight<P>(w: World<P>, s: Sys<P>, t: Sys<P>, i: nat, f: nat)
    requires InPlace(w, s) && InPlace(w, t) && Quiet(s, t, i) && OthersRight(w, s, f)
    requires !s.bar.restoring && t.bar.restoring && Live(s, i) ==> Right(w, s, i)
    ensures OthersRight(w, t, f)
  {
    Shapes(w, s);
    Shapes(w, t);
    hide World.At, InPlace, From, Right, Inv;
    forall j | 0 <= j < 3 && j != f && Live(t, j) ensures Right(w, t, j) {
      var o := if From(s, t, j, j) then j else i;
      assert From(s, t, j, o);
      FromLive(s, t, j, o);
      RightFrom(w, s, t, j, o);
    }
  }

  /** A right replica presents the right arguments. */
  lemma RightShows<P>(w: World<P>, s: Sys<P>, j: nat)
    requires w.Ok() && Typed(s) && Live(s, j) && Right(w, s, j) && Of(s, j).pc.Checking?
    ensures ArgsIn(w, s, j) == Wrappers.ArgsOf(w.CallAt(s.bar.releases / 2))
  {}

  /** Two right replicas are a majority. */
  lemma OthersOutvote<P>(w: World<P>, s: Sys<P>, f: nat)
    requires InPlace(w, s) && OthersRight(w, s, f)
    requires forall j | 0 <= j < 3 :: Live(s, j) && Of(s, j).pc.Checking? && s.bar.slots[j].args == ArgsIn(w, s, j)
    ensures Majority(s.bar.slots, Wrappers.ArgsOf(w.CallAt(s.bar.releases / 2)))
  {
    var a := Wrappers.ArgsOf(w.CallAt(s.bar.releases / 2));
    hide World.At, World.CallAt, Right, ArgsIn, Inv, Wrappers.ArgsOf;
    forall j | 0 <= j < 3 && j != f ensures s.bar.slots[j].args == a {
      assert Live(s, j);
      RightShows(w, s, j);
    }
    var x := if f == 0 then 1 else 0;
    var y := if f == 2 then 1 else 2;
    assert s.bar.slots[x].args == a && s.bar.slots[y].args == a;
  }

  /** After a vote the right replicas are still there, and right. */
  lemma VotedRight<P>(w: World<P>, s: Sys<P>, t: Sys<P>, i: nat, f: nat)
    requires InPlace(w, s) && InPlace(w, t) && i < 3 && Voted(w, s, t, i) && OthersRight(w, s, f)
    ensures Majority(s.bar.slots, Wrappers.ArgsOf(w.CallAt(s.bar.releases / 2))) && OthersRight(w, t, f)
  {
    var a := Wrappers.ArgsOf(w.CallAt(s.bar.releases / 2));
    Shapes(w, s);
    Shapes(w, t);
    OthersOutvote(w, s, f);
    MajorityUnique(s.bar.slots, a, s.bar.slots[i].args);
    assert t.bar.releases / 2 == s.bar.releases / 2;
    hide World.At, World.CallAt, InPlace, Majority, Wrappers.ArgsOf, ArgsIn, Inv;
    forall j | 0 <= j < 3 && j != f && Live(t, j) ensures Right(w, t, j) {
      assert Live(s, j) && Right(w, s, j);
      RightShows(w, s, j);
      assert Of(t, j) == Of(s, j);
    }
  }

  lemma ActedRight<P>(w: World<P>, s: Sys<P>, t: Sys<P>, f: nat)
    requires InPlace(w, s) && InPlace(w, t) && Acted(w, s, t) && OthersRight(w, s, f)
    ensures OthersRight(w, t, f)
  {
    Shapes(w, s);
    Shapes(w, t);
    assert t.bar.releases / 2 - 1 == s.bar.releases / 2;
    hide World.At, InPlace, Wrappers.Exec, Wrappers.Broadcast;
    forall j | 0 <= j < 3 && j != f && Live(t, j) ensures Right(w, t, j) {
      assert Live(s, j) && Right(w, s, j);
      assert j == 0 || j == 1 || j == 2;
    }
  }

  /** A right replica that goes on with the result of the unreplicated process. */
  lemma ResumesRight<P>(w: World<P>, s: Sys<P>, t: Sys<P>, i: nat, res: Wrappers.Result)
    requires w.Ok() && Typed(s) && Typed(t) && Live(s, i) && Live(t, i) && Right(w, s, i)
    requires t.bar.releases == s.bar.releases >= 2 && !Done(Of(s, i).pc, s.bar.releases) && Of(t, i).pc.App?
    requires res == w.OutcomeAt(s.bar.releases / 2 - 1).res && Of(t, i).ps == w.prog.resume(Of(s, i).ps, res)
    ensures Right(w, t, i)
  {
    SingleStep(w, s.bar.releases / 2 - 1);
    assert s.bar.releases / 2 - 1 + 1 == s.bar.releases / 2;
    hide World.At, World.OutcomeAt, World.CallAt;
  }

  /** A right replica returns from a call with the result of the unreplicated process. */
  lemma MasterReturnsRight<P>(w: World<P>, s: Sys<P>, i: nat)
    requires Refines(w, s) && Possible(w, s, MasterReturn(i)) && Right(w, s, i)
    ensures var t := MoveTo(w, s, MasterReturn(i)); Typed(t) && Live(t, i) && Right(w, t, i)
  {
    hide World.At, World.CallAt, World.OutcomeAt, InPlace, Refines, AreaHolds, KernelsAgree, Synced, Aliased, Right,
      MoveTo, Enabled;
    InStep(w, s);
    Shapes(w, s);
    var t := MoveTo(w, s, MasterReturn(i));
    UnlockedMove(w, s, MasterReturn(i));
    InCall(w, s, i);
    Shapes(w, t);
    ResumesRight(w, s, t, i, Of(s, i).pc.res);
  }

  lemma SlaveReturnsRight<P>(w: World<P>, s: Sys<P>, i: nat)
    requires Refines(w, s) && Possible(w, s, SeekAndReturn(i)) && Right(w, s, i)
    ensures var t := MoveTo(w, s, SeekAndReturn(i)); Typed(t) && Live(t, i) && Right(w, t, i)
  {
    hide World.At, World.CallAt, World.OutcomeAt, InPlace, Refines, AreaHolds, KernelsAgree, Synced, Aliased, Right,
      Wrappers.SlaveResult, Wrappers.SeekTo, Wrappers.Seeks, MoveTo, Enabled;
    InStep(w, s);
    Shapes(w, s);
    var t := MoveTo(w, s, SeekAndReturn(i));
    var m := Of(s, i);
    var data := if m.pc.GotPayload? then m.pc.data else [];
    UnlockedMove(w, s, SeekAndReturn(i));
    Seeking(w, s, i, data);
    Shapes(w, t);
    ResumesRight(w, s, t, i, Wrappers.SlaveResult(w.prog.next(m.ps), m.pc.hdr, data));
  }

  /** A replica that does not move, or stays in its call with its program state, is as right as it was. */
  lemma SameRight<P>(w: World<P>, s: Sys<P>, t: Sys<P>, j: nat)
    requires w.Ok() && Typed(s) && Typed(t) && t.bar.releases == s.bar.releases && Live(s, j) && Live(t, j)
    requires Of(t, j).ps == Of(s, j).ps && (Done(Of(t, j).pc, t.bar.releases) <==> Done(Of(s, j).pc, s.bar.releases))
    requires Right(w, s, j)
    ensures Right(w, t, j)
  {
    hide World.At;
  }

  /** A slave that copies. */
  lemma CopierRight<P>(w: World<P>, s: Sys<P>, mv: Move<P>)
    requires InPlace(w, s) && Possible(w, s, mv) && (mv.CopyHeader? || mv.CopyPayload?) && Right(w, s, mv.i)
    ensures var t := MoveTo(w, s, mv); Typed(t) && Live(t, mv.i) && Right(w, t, mv.i)
  {
    hide InPlace, Right, World.At, World.CallAt, MoveTo, Enabled, Take;
    Shapes(w, s);
    var t := MoveTo(w, s, mv);
    UnlockedMove(w, s, mv);
    Shapes(w, t);
    SameRight(w, s, t, mv.i);
  }

  lemma MoverRight<P>(w: World<P>, s: Sys<P>, mv: Move<P>)
    requires Refines(w, s) && Possible(w, s, mv) && !mv.Locks() && !mv.Fault? && !mv.Die? && Right(w, s, mv.i)
    ensures var t := MoveTo(w, s, mv); Typed(t) && Live(t, mv.i) && Right(w, t, mv.i)
  {
    InStep(w, s);
    hide MoveTo, Possible, InPlace, Refines, Right;
    match mv
    case MasterReturn(i) => MasterReturnsRight(w, s, i);
    case SeekAndReturn(i) => SlaveReturnsRight(w, s, i);
    case CopyHeader(i) => CopierRight(w, s, mv);
    case CopyPayload(i) => CopierRight(w, s, mv);
  }

  lemma UnlockedRight<P>(w: World<P>, s: Sys<P>, mv: Move<P>, f: nat)
    requires Refines(w, s) && Possible(w, s, mv) && !mv.Locks() && OthersRight(w, s, f) && (mv.Fault? ==> mv.i == f)
    ensures var t := MoveTo(w, s, mv); InPlace(w, t) && OthersRight(w, t, f)
  {
    hide InPlace, Refines, World.At, Right, MoveTo, Possible, NewMem;
    InStep(w, s);
    Shapes(w, s);
    var t := MoveTo(w, s, mv);
    UnlockedMove(w, s, mv);
    Shapes(w, t);
    forall j | 0 <= j < 3 && j != f && Live(t, j) ensures Right(w, t, j) {
      if j == mv.i {
        assert Live(s, j) && Right(w, s, j);
        MoverRight(w, s, mv);
      } else {
        assert Live(s, j) && Right(w, s, j);
        SameRight(w, s, t, j);
      }
    }
  }

  // ----- Every move of the fault model

  lemma MidRestoring<P>(w: World<P>, s: Sys<P>, mv: Move<P>)
    requires w.Ok() && Possible(w, s, mv)
    ensures Mid(w, s, mv).restoring ==> s.bar.restoring
  {}

  /** From a section's start to its middle. */
  lemma MidRight<P>(w: World<P>, s: Sys<P>, mv: Move<P>, f: nat)
    requires InPlace(w, s) && Possible(w, s, mv) && mv.Locks() && OthersRight(w, s, f)
    ensures var u := s.(bar := Mid(w, s, mv));
      && InPlace(w, u) && Typed(u) && OthersRight(w, u, f)
      && (Right(w, s, mv.i) && Live(u, mv.i) ==> Right(w, u, mv.i))
  {
    var u := s.(bar := Mid(w, s, mv));
    LockedMove(w, s, mv);
    MidRestoring(w, s, mv);
    Shapes(w, s);
    Shapes(w, u);
    hide World.At, InPlace, MoveTo, Possible, Mid, Right;
    QuietRight(w, s, u, mv.i, f);
    if Right(w, s, mv.i) && Live(u, mv.i) {
      RightFrom(w, s, u, mv.i, mv.i);
    }
  }

  /** One fault at a time: every vote is right, and all replicas but one stay right. */
  lemma LockedRight<P>(w: World<P>, s: Sys<P>, mv: Move<P>, f: nat)
    requires InPlace(w, s) && CanMove(w, s, mv) && mv.Locks() && OthersRight(w, s, f)
    ensures var t := MoveTo(w, s, mv); RightVote(w, s, mv) && InPlace(w, t) && Typed(t) && OthersRight(w, t, f)
  {
    hide World.At, World.CallAt, InPlace, MoveTo, Possible, Mid, Right, From, Majority, Wrappers.ArgsOf, OthersRight;
    Shapes(w, s);
    var u := s.(bar := Mid(w, s, mv));
    var t := MoveTo(w, s, mv);
    LockedMove(w, s, mv);
    MidRight(w, s, mv, f);
    Shapes(w, u);
    Shapes(w, t);
    if Quiet(u, t, mv.i) {
      QuietRight(w, u, t, mv.i, f);
    } else if Voted(w, u, t, mv.i) {
      VotedRight(w, u, t, mv.i, f);
    } else {
      ActedRight(w, u, t, f);
    }
  }

  ghost predicate OneWrong<P>(w: World<P>, s: Sys<P>) {
    InPlace(w, s) && exists f: nat :: OthersRight(w, s, f)
  }

  lemma ModelMove<P>(w: World<P>, s: Sys<P>, mv: Move<P>)
    requires Refines(w, s) && CanMove(w, s, mv) && OneWrong(w, s)
    ensures RightEnd(w, s, mv) && OneWrong(w, MoveTo(w, s, mv))
  {
    var f: nat :| OthersRight(w, s, f);
    hide MoveTo, Possible, OthersRight, InPlace, Refines, RightMaster;
    if mv.Locks() {
      InStep(w, s);
      LockedRight(w, s, mv, f);
    } else {
      UnlockedVote(w, s, mv);
      UnlockedRight(w, s, mv, if mv.Fault? then mv.i else f);
    }
  }

  lemma UnlockedVote<P>(w: World<P>, s: Sys<P>, mv: Move<P>)
    requires Refines(w, s) && Possible(w, s, mv) && !mv.Locks()
    ensures RightVote(w, s, mv)
  {
    UnlockedMove(w, s, mv);
  }

  // ----- Nobody gives up

  /** All are alive, and timers of processes that wait have expired only while a watchdog's child is pending. */
  ghost predicate Patient<M>(b: State<M>) {
    b.Shape() && forall j | 0 <= j < b.N() ::
      !b.procs[j].Exited? && (Waiting(b, j) && b.procs[j].loc.expired ==> b.restoring)
  }

  /** After a release nobody waits. */
  lemma ReleasedNobodyWaits<M>(s: State<M>, me: nat)
    requires Inv(s) && InSection(s, me) && RunLoop(s, me).releases != s.releases
    requires forall j | 0 <= j < s.N() :: !s.procs[j].Exited?
    ensures var t := RunLoop(s, me);
      t.restoring == s.restoring && forall j | 0 <= j < s.N() :: !t.procs[j].Exited? && !Waiting(t, j)
  {
    hide Inv, RunLoop, RunAction, SlotOk, CheckWatchdog;
    SectionReleases(s, me);
    AtCurrentIndex(s, me);
    RunnerForm(s, me);
    ReleaseForms(s, me);
  }

  lemma ReleaseForms<M>(s: State<M>, me: nat)
    requires Running(s, me) && forall j | 0 <= j < s.N() :: !s.procs[j].Exited?
    ensures var t := Leave(Release(s, s.procs[me].loc.waitIdx), me);
      t.restoring == s.restoring && forall j | 0 <= j < s.N() :: !t.procs[j].Exited? && !Waiting(t, j)
    ensures forall b: nat | b < s.N() && b != me ::
      var l := s.procs[me].loc;
      var t := Leave(Release(Replace(s, me, b, PendingDrain(l, s.slots[me])), l.waitIdx), me);
      t.restoring == s.restoring && forall j | 0 <= j < s.N() :: !t.procs[j].Exited? && !Waiting(t, j)
  {}

  lemma SectionPatient<M>(s: State<M>, me: nat)
    requires Inv(s) && InSection(s, me) && Patient(s)
    requires s.condWaitCnt[s.curWaitIdx] == s.N() ==> !RunAction(s.slots, me, s.procs[me].loc.action).Failed?
    ensures var t := RunLoop(s, me); Patient(t) && (t.restoring ==> s.restoring)
    ensures s.restoring ==> RunLoop(s, me).releases == s.releases
  {
    ExitsIff(s, me);
    if s.condWaitCnt[s.curWaitIdx] == s.N() {
      CompleteAllWait(s);
    }
    SectionReleases(s, me);
    if s.slots[me].waitIdx < 0 {
      assert RunLoop(s, me) == Leave(s, me);
    } else if RunLoop(s, me).releases != s.releases {
      AtCurrentIndex(s, me);
      ReleasedNobodyWaits(s, me);
    } else {
      RoundStays(s, me);
      hide Inv, RunLoop, RunAction;
      var t := RunLoop(s, me);
      forall j | 0 <= j < s.N()
        ensures !t.procs[j].Exited? && (Waiting(t, j) && t.procs[j].loc.expired ==> t.restoring)
      {
        assert Waiting(s, me) && Woken(s, t, j);
      }
    }
  }

  /** Time-outs at check barriers only, when one replica is missing; and no replica dies otherwise. */
  ghost predicate Gentle<P>(w: World<P>, s: Sys<P>, mv: Move<P>)
    requires w.Ok()
  {
    && Possible(w, s, mv) && !mv.Die?
    && (mv.TimeOut? && Waiting(s.bar, mv.i) ==>
         s.bar.restoring || (s.bar.releases % 2 == 0 && exists t :: OneMissing(s.bar, t)))
  }

  ghost predicate Calm<P>(s: Sys<P>) {
    Patient(s.bar) && (s.bar.restoring ==> s.bar.releases % 2 == 0)
  }

  /** With two right replicas neither vote nor master action fails. */
  lemma ActionSucceeds<P>(w: World<P>, s: Sys<P>, i: nat, f: nat)
    requires InPlace(w, s) && i < 3 && Running(s.bar, i) && OthersRight(w, s, f)
      && s.bar.condWaitCnt[s.bar.curWaitIdx] == 3
    ensures !RunAction(s.bar.slots, i, s.bar.procs[i].loc.action).Failed?
  {
    hide World.At, World.CallAt, Wrappers.ArgsOf, ArgsIn, Right;
    if s.bar.releases % 2 == 1 {
      AllAct(w, s, i);
    } else {
      AllVote(w, s, i);
      hide Inv, InPlace, Judge, OthersRight;
      forall j | 0 <= j < 3
        ensures Live(s, j) && Of(s, j).pc.Checking? && s.bar.slots[j].args == ArgsIn(w, s, j) {
        assert Voter(w, s, j);
      }
      assert Voter(w, s, i);
      OthersOutvote(w, s, f);
      VoteVerdict(s.bar.slots, Wrappers.ArgsOf(w.CallAt(s.bar.releases / 2)));
    }
  }

  lemma MidPatient<P>(w: World<P>, s: Sys<P>, mv: Move<P>)
    requires InPlace(w, s) && Gentle(w, s, mv) && mv.Locks() && Calm(s)
    requires mv.TimeOut? && Waiting(s.bar, mv.i) ==> s.bar.restoring
    requires !s.bar.procs[mv.i].PendingWait?
    ensures Patient(Mid(w, s, mv)) && Mid(w, s, mv).restoring == s.bar.restoring
  {
    hide World.At, World.CallAt, Wrappers.ArgsOf, Inv, Placed;
  }

  lemma ForkPatient<M>(b: State<M>, i: nat, t: nat)
    requires Inv(b) && Enabled(b, Wake(i, true)) && Waiting(b, i) && !b.restoring && OneMissing(b, t)
    ensures var u := Apply(b, Wake(i, true)); Patient(u) && u.releases == b.releases
  {
    WatchdogForks(b, i, true, t);
    var u := Apply(b, Wake(i, true));
    hide Inv, Apply, Enabled;
    forall j | 0 <= j < b.N() ensures !u.procs[j].Exited? {
      assert j != t ==> Waiting(u, j);
    }
  }

  lemma RecoveryPatient<M>(b: State<M>, i: nat, pid: nat)
    requires Inv(b) && Enabled(b, Install(i, pid)) && b.procs[i].PendingWait? && b.procs[i].loc.action.Vote?
    requires Patient(b)
    ensures var t := Apply(b, Install(i, pid)); Patient(t) && !t.restoring
  {
    WatchdogRecovers(b, i, pid);
    ChildSection(b, i, pid);
    InstalledInv(b, i, pid);
    var u := Installed(b, i, pid);
    ReleasedNobodyWaits(u, i);
  }

  /** A section that is neither the watchdog's nor its child's. */
  lemma SectionCalm<P>(w: World<P>, s: Sys<P>, mv: Move<P>, f: nat)
    requires InPlace(w, s) && Gentle(w, s, mv) && mv.Locks() && Calm(s) && OthersRight(w, s, f)
    requires mv.TimeOut? && Waiting(s.bar, mv.i) ==> s.bar.restoring
    requires !s.bar.procs[mv.i].PendingWait?
    ensures Calm(MoveTo(w, s, mv))
  {
    var u := s.(bar := Mid(w, s, mv));
    var t := MoveTo(w, s, mv);
    MidPlaced(w, s, mv);
    MidPatient(w, s, mv);
    MidRight(w, s, mv, f);
    hide World.At, World.CallAt, Wrappers.ArgsOf, MoveTo, Possible, Mid, Right, OthersRight;
    if t != u {
      if u.bar.condWaitCnt[u.bar.curWaitIdx] == 3 {
        ActionSucceeds(w, u, mv.i, f);
      }
      assert Inv(u.bar);
      hide InPlace, Inv;
      SectionPatient(u.bar, mv.i);
      hide Patient, RunLoop;
      PatientSection(w, u, mv.i);
    }
  }

  lemma PatientSection<P>(w: World<P>, s: Sys<P>, i: nat)
    requires Typed(s) && i < 3 && Running(s.bar, i) && Patient(RunLoop(s.bar, i))
    ensures var t := Section(w, s, RunLoop(s.bar, i), i);
      Patient(t.bar) && t.bar.restoring == RunLoop(s.bar, i).restoring && t.bar.releases == RunLoop(s.bar, i).releases
  {
    hide RunLoop, Wrappers.Exec, Wrappers.Broadcast;
  }

  lemma UnlockedCalm<P>(w: World<P>, s: Sys<P>, mv: Move<P>)
    requires InPlace(w, s) && Gentle(w, s, mv) && Calm(s) && !mv.Locks()
    ensures Calm(MoveTo(w, s, mv))
  {
    hide World.At, World.CallAt, InPlace, Wrappers.SlaveResult, Wrappers.SeekTo, Take;
    UnlockedMove(w, s, mv);
  }

  lemma ForkCalm<P>(w: World<P>, s: Sys<P>, i: nat)
    requires InPlace(w, s) && Gentle(w, s, TimeOut(i)) && Calm(s) && Waiting(s.bar, i) && !s.bar.restoring
    ensures Calm(MoveTo(w, s, TimeOut(i)))
  {
    hide World.At, World.CallAt, Placed, Apply, Inv, Enabled;
    var t: nat :| OneMissing(s.bar, t);
    ForkPatient(s.bar, i, t);
    assert MoveTo(w, s, TimeOut(i)) == s.(bar := Apply(s.bar, Wake(i, true)));
  }

  lemma RecoveryCalm<P>(w: World<P>, s: Sys<P>, i: nat, pid: nat)
    requires InPlace(w, s) && Gentle(w, s, Child(i, pid)) && Calm(s) && s.bar.procs[i].PendingWait?
    ensures Calm(MoveTo(w, s, Child(i, pid)))
  {
    hide World.At, World.CallAt, Apply, Inv, Enabled, Wrappers.Exec, Wrappers.Broadcast;
    AllElseWait(s.bar, i);
    assert Placed(w, s, i);
    RecoveryPatient(s.bar, i, pid);
    assert MoveTo(w, s, Child(i, pid)).bar.restoring == Apply(s.bar, Install(i, pid)).restoring;
  }

  lemma GentleMove<P>(w: World<P>, s: Sys<P>, mv: Move<P>, f: nat)
    requires InPlace(w, s) && Gentle(w, s, mv) && Calm(s) && OthersRight(w, s, f)
    ensures Calm(MoveTo(w, s, mv))
  {
    hide InPlace, MoveTo, OthersRight, Apply, Enabled, World.CallAt;
    Shapes(w, s);
    if !mv.Locks() {
      UnlockedCalm(w, s, mv);
    } else if mv.TimeOut? && Waiting(s.bar, mv.i) && !s.bar.restoring {
      ForkCalm(w, s, mv.i);
    } else if s.bar.procs[mv.i].PendingWait? {
      OnlyChild(w, s, mv);
      RecoveryCalm(w, s, mv.i, mv.pid);
    } else {
      SectionCalm(w, s, mv, f);
    }
  }

  lemma OnlyChild<P>(w: World<P>, s: Sys<P>, mv: Move<P>)
    requires w.Ok() && Possible(w, s, mv) && s.bar.procs[mv.i].PendingWait?
    ensures mv.Child?
  {}
}
