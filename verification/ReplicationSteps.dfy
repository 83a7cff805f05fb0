/** As long as the votes are right, every move keeps the replicas in step with the unreplicated process; a vote that is
    not is followed by a wrong real effect. */
module ReplicationSteps {
  import opened Barrier
  import opened BarrierInv
  import opened BarrierRounds
  import opened Placement
  import opened Replication
  import Wrappers

  // ----- The kernel calls

  /** The master's real call does what the unreplicated process's call does. */
  lemma ExecMatch<P>(w: World<P>, k: Wrappers.Kernel, t: Wrappers.Table, rk: Wrappers.Kernel, c: Wrappers.Call)
    requires Wrappers.KernelOk(k) && Wrappers.KernelOk(rk) && Wrappers.TableOk(k, t) && Wrappers.TableOk(rk, w.table)
    requires KernelsAgree(w, k, rk) && Aliased(w, t) && Synced(w, k, t, rk, -1)
    ensures var o := Wrappers.Exec(k, t, c); var ro := Wrappers.Exec(rk, w.table, c);
      && o.res == ro.res && o.offs == ro.offs
      && KernelsAgree(w, o.kernel, ro.kernel) && Synced(w, o.kernel, t, ro.kernel, -1)
  {
    var o, ro := Wrappers.Exec(k, t, c), Wrappers.Exec(rk, w.table, c);
    if !c.Unlink? && c.fd in t {
      assert k.descs[t[c.fd]] == rk.descs[w.table[c.fd]];
    }
  }

  /** A replica whose offsets agreed is, after the master's call, behind at most on the description that moved. */
  lemma OthersAfterExec<P>(w: World<P>, k: Wrappers.Kernel, t: Wrappers.Table, rk: Wrappers.Kernel, c: Wrappers.Call,
    t': Wrappers.Table)
    requires Wrappers.KernelOk(k) && Wrappers.KernelOk(rk) && Wrappers.TableOk(k, t) && Wrappers.TableOk(rk, w.table)
    requires KernelsAgree(w, k, rk) && Aliased(w, t) && Aliased(w, t') && Synced(w, k, t', rk, -1)
    ensures Synced(w, Wrappers.Exec(k, t, c).kernel, t', Wrappers.Exec(rk, w.table, c).kernel, Moved(w, c))
  {
    var o, ro := Wrappers.Exec(k, t, c), Wrappers.Exec(rk, w.table, c);
    forall fd | fd in t' && w.table[fd] < |rk.descs| && w.table[fd] != Moved(w, c)
      ensures o.kernel.descs[t'[fd]].offs == ro.kernel.descs[w.table[fd]].offs
    {
      if !c.Unlink? && c.fd in t {
        assert w.standsFor[t[c.fd]] == w.table[c.fd] && w.standsFor[t'[fd]] == w.table[fd];
      }
    }
  }

  /** A slave's seek repairs its own offset, and disturbs nobody who is in step already. */
  lemma SeekMatch<P>(w: World<P>, k: Wrappers.Kernel, t: Wrappers.Table, rk: Wrappers.Kernel, c: Wrappers.Call,
    h: Wrappers.Header)
    requires Wrappers.KernelOk(k) && Wrappers.TableOk(k, t) && Wrappers.TableOk(rk, w.table)
    requires KernelsAgree(w, k, rk) && Aliased(w, t) && Synced(w, k, t, rk, Moved(w, c))
    requires Wrappers.Seeks(t, c, h) ==> rk.descs[w.table[c.fd]].offs == h.offs
    requires !Wrappers.Seeks(t, c, h) ==> Synced(w, k, t, rk, -1)
    ensures var k' := Wrappers.SeekTo(k, t, c, h);
      && KernelsAgree(w, k', rk) && Wrappers.KernelOk(k') && |k'.descs| == |k.descs|
      && Synced(w, k', t, rk, -1)
      && forall t', l | Aliased(w, t') && Synced(w, k, t', rk, l) :: Synced(w, k', t', rk, l)
  {
    var k' := Wrappers.SeekTo(k, t, c, h);
    if Wrappers.Seeks(t, c, h) {
      forall fd | fd in t && w.table[fd] < |rk.descs| ensures k'.descs[t[fd]].offs == rk.descs[w.table[fd]].offs {
        if t[fd] == t[c.fd] {
          assert w.table[fd] == w.standsFor[t[fd]] == w.table[c.fd];
        } else {
          assert w.table[fd] != w.table[c.fd];
        }
      }
      forall t', l | Aliased(w, t') && Synced(w, k, t', rk, l) ensures Synced(w, k', t', rk, l) {
        forall fd | fd in t' && w.table[fd] < |rk.descs| && w.table[fd] != l
          ensures k'.descs[t'[fd]].offs == rk.descs[w.table[fd]].offs
        {
          if t'[fd] == t[c.fd] {
            assert w.table[fd] == w.standsFor[t'[fd]] == w.table[c.fd];
          }
        }
      }
    }
  }

  /** One step of the unreplicated process. */
  lemma SingleStep<P>(w: World<P>, n: nat)
    requires w.Ok()
    ensures var o := w.OutcomeAt(n);
      w.At(n + 1) == Single(w.prog.resume(w.At(n).ps, o.res), o.kernel, w.At(n).trace + [(w.CallAt(n), o.res)])
  {}

  // ----- Moves that end no round

  /** What one replica takes over from another, or keeps, is as good as it was. */
  lemma ImageFrom<P>(w: World<P>, s: Sys<P>, t: Sys<P>, j: nat, o: nat)
    requires w.Ok() && s.bar.Shape() && t.bar.Shape() && t.bar.releases == s.bar.releases && t.kernel == s.kernel
      && t.area == s.area
    requires Live(t, j) && From(s, t, j, o) && ImageOk(w, s, Of(s, o))
    ensures ImageOk(w, t, Of(t, j))
  {
    hide World.At, World.OutcomeAt, World.CallAt, Synced, Aliased;
  }

  lemma QuietRefines<P>(w: World<P>, s: Sys<P>, t: Sys<P>, i: nat)
    requires Refines(w, s) && InPlace(w, t) && Quiet(s, t, i)
    ensures Refines(w, t)
  {
    hide World.At, World.OutcomeAt, World.CallAt, AreaHolds, KernelsAgree, ImageOk, InPlace, From;
    Shapes(w, s);
    Shapes(w, t);
    forall j | 0 <= j < 3 && Live(t, j) ensures ImageOk(w, t, Of(t, j)) {
      var o := if From(s, t, j, j) then j else i;
      assert From(s, t, j, o);
      FromLive(s, t, j, o);
      ImageFrom(w, s, t, j, o);
    }
  }

  lemma Shapes<P>(w: World<P>, s: Sys<P>)
    requires InPlace(w, s)
    ensures w.Ok() && Typed(s) && s.bar.Shape() && s.bar.N() == 3 && |s.trace| == s.bar.releases / 2
  {}

  lemma FromLive<P>(s: Sys<P>, t: Sys<P>, j: nat, o: nat)
    requires s.bar.Shape() && t.bar.Shape() && Live(t, j) && From(s, t, j, o)
    ensures Live(s, o) && Of(t, j).ps == Of(s, o).ps && Of(t, j).table == Of(s, o).table
  {}

  /** Replica i changes its memory outside the barrier, or dies. */
  lemma LocalRefines<P>(w: World<P>, s: Sys<P>, t: Sys<P>, i: nat)
    requires Refines(w, s) && InPlace(w, t) && i < 3
    requires t.trace == s.trace && t.area == s.area && KernelsAgree(w, t.kernel, w.At(s.bar.releases / 2).kernel)
      && t.bar == s.bar.(procs := s.bar.procs[i := t.bar.procs[i]])
    requires Live(t, i) ==> ImageOk(w, t, Of(t, i))
    requires forall t', l | Aliased(w, t') && Synced(w, s.kernel, t', w.At(s.bar.releases / 2).kernel, l) ::
      Synced(w, t.kernel, t', w.At(s.bar.releases / 2).kernel, l)
    ensures Refines(w, t)
  {
    hide World.At, World.OutcomeAt, World.CallAt, AreaHolds, KernelsAgree, Inv, Placed, Synced, Aliased;
    forall j | 0 <= j < 3 && Live(t, j) ensures ImageOk(w, t, Of(t, j)) {
      if j != i {
        assert Live(s, j) && ImageOk(w, s, Of(s, j));
        assert s.bar.releases >= 2 ==> s.bar.releases / 2 - 1 + 1 == s.bar.releases / 2;
      }
    }
  }

  /** A replica that has returned from call number n. */
  lemma ReturnedOk<P>(w: World<P>, t: Sys<P>, m: Image<P>, n: nat)
    requires w.Ok() && t.bar.releases == 2 * n + 2 && m.pc.App?
    requires Aliased(w, m.table) && Synced(w, t.kernel, m.table, w.At(n + 1).kernel, -1)
    ensures ImageOk(w, t, m)
  {
    assert t.bar.releases / 2 == n + 1;
    hide World.At, Synced, Aliased;
  }

  /** A replica in the course of its last call. */
  lemma InCall<P>(w: World<P>, s: Sys<P>, i: nat)
    requires Refines(w, s) && i < 3 && Live(s, i) && !Done(Of(s, i).pc, s.bar.releases)
    ensures s.bar.releases >= 2 && s.bar.releases % 2 == 0 && Aliased(w, Of(s, i).table) && Finishing(w, s, Of(s, i))
    ensures AreaHolds(w, s.area, s.bar.releases / 2 - 1)
      && KernelsAgree(w, s.kernel, w.At(s.bar.releases / 2 - 1 + 1).kernel)
      && s.trace == w.At(s.bar.releases / 2 - 1 + 1).trace
  {
    assert ImageOk(w, s, Of(s, i)) && Placed(w, s, i);
    assert s.bar.releases / 2 - 1 + 1 == s.bar.releases / 2;
    hide World.At, World.OutcomeAt, World.CallAt, AreaHolds, KernelsAgree, Inv, Synced, Aliased;
  }

  lemma PayloadLength<P>(w: World<P>, n: nat)
    requires w.Ok() && w.CallAt(n).Read? && w.OutcomeAt(n).res.ret > 0
    ensures w.OutcomeAt(n).res.ret == |w.OutcomeAt(n).res.data|
  {}

  lemma InStep<P>(w: World<P>, s: Sys<P>)
    requires Refines(w, s)
    ensures InPlace(w, s)
  {}

  /** The memory of a replica that the move leaves in its call, or hits. */
  lemma NewMemOk<P>(w: World<P>, s: Sys<P>, mv: Move<P>)
    requires Refines(w, s) && Possible(w, s, mv) && !mv.Locks() && !mv.Die? && !mv.SeekAndReturn?
    ensures ImageOk(w, s, NewMem(w, s, mv))
  {
    hide InPlace, Refines, ImageOk, World.At, World.OutcomeAt, World.CallAt, AreaHolds, KernelsAgree, Synced, Aliased;
    InStep(w, s);
    Shapes(w, s);
    match mv
    case MasterReturn(i) =>
      InCall(w, s, i);
      ReturnedOk(w, s, NewMem(w, s, mv), s.bar.releases / 2 - 1);
    case CopyHeader(i) => HeaderCopied(w, s, i);
    case CopyPayload(i) => PayloadCopied(w, s, i);
    case Fault(i, ps) => HitOk(w, s, i, ps);
  }

  lemma HeaderCopied<P>(w: World<P>, s: Sys<P>, i: nat)
    requires Refines(w, s) && Possible(w, s, CopyHeader(i))
    ensures ImageOk(w, s, NewMem(w, s, CopyHeader(i)))
  {
    hide Refines, World.At, World.OutcomeAt, World.CallAt, AreaHolds, KernelsAgree, Synced, Aliased;
    InStep(w, s);
    UnlockedMove(w, s, CopyHeader(i));
    hide InPlace, MoveTo;
    InCall(w, s, i);
  }

  lemma PayloadCopied<P>(w: World<P>, s: Sys<P>, i: nat)
    requires Refines(w, s) && Possible(w, s, CopyPayload(i))
    ensures ImageOk(w, s, NewMem(w, s, CopyPayload(i)))
  {
    hide Refines, InPlace, World.At, World.OutcomeAt, World.CallAt, KernelsAgree, Synced, Aliased;
    InStep(w, s);
    Shapes(w, s);
    InCall(w, s, i);
    var n := s.bar.releases / 2 - 1;
    Wrappers.SameArgsCatchUp(w.prog.next(Of(s, i).ps), w.CallAt(n));
    PayloadLength(w, n);
    assert NewMem(w, s, CopyPayload(i)).pc.data == w.OutcomeAt(n).res.data;
  }

  lemma HitOk<P>(w: World<P>, s: Sys<P>, i: nat, ps: P)
    requires Refines(w, s) && Possible(w, s, Fault(i, ps))
    ensures ImageOk(w, s, NewMem(w, s, Fault(i, ps)))
  {
    hide World.At, World.OutcomeAt, World.CallAt, AreaHolds, KernelsAgree, Synced, Aliased, Inv;
    assert Live(s, i) && Placed(w, s, i) && ImageOk(w, s, Of(s, i));
  }

  /** The same image, in a state that differs only in the barrier. */
  lemma SameImage<P>(w: World<P>, s: Sys<P>, t: Sys<P>, m: Image<P>)
    requires w.Ok() && t.bar.releases == s.bar.releases && t.kernel == s.kernel && t.area == s.area && ImageOk(w, s, m)
    ensures ImageOk(w, t, m)
  {
    hide World.At, World.OutcomeAt, World.CallAt, Synced, Aliased;
  }

  /** A return, a copy, a fault or a death. */
  lemma QuietMoveOk<P>(w: World<P>, s: Sys<P>, mv: Move<P>)
    requires Refines(w, s) && Possible(w, s, mv) && !mv.Locks() && !mv.SeekAndReturn?
    ensures Refines(w, MoveTo(w, s, mv))
  {
    hide MoveTo, Possible, NewMem, InPlace, Refines, ImageOk, KernelsAgree, Aliased, Synced;
    InStep(w, s);
    Shapes(w, s);
    var t := MoveTo(w, s, mv);
    UnlockedMove(w, s, mv);
    UnlockedForm(w, s, mv);
    if !mv.Die? {
      NewMemOk(w, s, mv);
      SameImage(w, s, t, NewMem(w, s, mv));
    }
    KernelInStep(w, s);
    LocalRefines(w, s, t, mv.i);
  }

  lemma KernelInStep<P>(w: World<P>, s: Sys<P>)
    requires Refines(w, s)
    ensures KernelsAgree(w, s.kernel, w.At(s.bar.releases / 2).kernel)
  {}

  /** What a slave makes of the shared area is the result of the call in question. */
  lemma SlaveResultOk<P>(w: World<P>, a: Wrappers.Area, n: nat, data: seq<Wrappers.byte>)
    requires w.Ok() && AreaHolds(w, a, n)
    requires Wrappers.HasPayload(w.CallAt(n), a.hdr) ==> data == w.OutcomeAt(n).res.data
    ensures Wrappers.SlaveResult(w.CallAt(n), a.hdr, data) == w.OutcomeAt(n).res
    ensures Wrappers.Seeks(w.table, w.CallAt(n), a.hdr) <==> Moved(w, w.CallAt(n)) != -1
    ensures Moved(w, w.CallAt(n)) != -1 ==>
      && Moved(w, w.CallAt(n)) < |w.At(n + 1).kernel.descs|
      && w.At(n + 1).kernel.descs[Moved(w, w.CallAt(n))].offs == a.hdr.offs
  {
    assert w.At(n + 1).kernel == w.OutcomeAt(n).kernel;
  }

  /** A slave that is about to seek has all that it needs. */
  lemma Seeking<P>(w: World<P>, s: Sys<P>, i: nat, data: seq<Wrappers.byte>)
    requires Refines(w, s) && Possible(w, s, SeekAndReturn(i))
    requires data == if Of(s, i).pc.GotPayload? then Of(s, i).pc.data else []
    ensures s.bar.releases >= 2 && s.bar.releases % 2 == 0
    ensures var n := s.bar.releases / 2 - 1; var m := Of(s, i); var rk := w.At(n + 1).kernel;
      && m.pc.hdr == s.area.hdr && Wrappers.ArgsOf(w.prog.next(m.ps)) == Wrappers.ArgsOf(w.CallAt(n))
      && Aliased(w, m.table) && Synced(w, s.kernel, m.table, rk, Moved(w, w.CallAt(n))) && KernelsAgree(w, s.kernel, rk)
      && Wrappers.SlaveResult(w.prog.next(m.ps), s.area.hdr, data) == w.OutcomeAt(n).res
      && (Wrappers.Seeks(m.table, w.CallAt(n), s.area.hdr) ==>
           rk.descs[w.table[w.CallAt(n).fd]].offs == s.area.hdr.offs)
      && (!Wrappers.Seeks(m.table, w.CallAt(n), s.area.hdr) ==> Moved(w, w.CallAt(n)) == -1)
  {
    hide World.At, World.OutcomeAt, World.CallAt, AreaHolds, KernelsAgree, InPlace, Synced, Refines,
      Wrappers.SlaveResult, Enabled, Wrappers.ArgsOf;
    InStep(w, s);
    Shapes(w, s);
    InCall(w, s, i);
    var n := s.bar.releases / 2 - 1;
    Wrappers.SameArgsCatchUp(w.prog.next(Of(s, i).ps), w.CallAt(n));
    SlaveResultOk(w, s.area, n, data);
    assert Wrappers.Seeks(Of(s, i).table, w.CallAt(n), s.area.hdr) <==> Moved(w, w.CallAt(n)) != -1;
  }

  lemma CallerLives<P>(w: World<P>, s: Sys<P>, i: nat)
    requires w.Ok() && Possible(w, s, SeekAndReturn(i))
    ensures Live(s, i)
  {}

  /** Its seek. */
  lemma SeekOk<P>(w: World<P>, s: Sys<P>, i: nat, data: seq<Wrappers.byte>, n: nat)
    requires Refines(w, s) && Possible(w, s, SeekAndReturn(i)) && s.bar.releases == 2 * n + 2
    requires data == if Of(s, i).pc.GotPayload? then Of(s, i).pc.data else []
    ensures var m := Of(s, i); var rk := w.At(n + 1).kernel;
      && Wrappers.TableOk(s.kernel, m.table) && Aliased(w, m.table)
      && var k' := Wrappers.SeekTo(s.kernel, m.table, w.prog.next(m.ps), m.pc.hdr);
        && KernelsAgree(w, k', rk) && Synced(w, k', m.table, rk, -1)
        && forall t', l | Aliased(w, t') && Synced(w, s.kernel, t', rk, l) :: Synced(w, k', t', rk, l)
  {
    hide World.At, World.CallAt, KernelsAgree, InPlace, Synced, Aliased, Refines, Wrappers.SeekTo, Wrappers.Seeks,
      Possible, Wrappers.TableOk, Wrappers.KernelOk;
    InStep(w, s);
    Shapes(w, s);
    assert Live(s, i) by { CallerLives(w, s, i); }
    Seeking(w, s, i, data);
    assert s.bar.releases / 2 - 1 == n && Wrappers.TableOk(s.kernel, Of(s, i).table);
    Wrappers.SameArgsCatchUp(w.prog.next(Of(s, i).ps), w.CallAt(n));
    SeekMatch(w, s.kernel, Of(s, i).table, w.At(n + 1).kernel, w.CallAt(n), s.area.hdr);
  }

  lemma SeekAndReturnOk<P>(w: World<P>, s: Sys<P>, i: nat)
    requires Refines(w, s) && Possible(w, s, SeekAndReturn(i))
    ensures Refines(w, MoveTo(w, s, SeekAndReturn(i)))
  {
    hide MoveTo, InPlace, Refines, ImageOk, KernelsAgree, Aliased, Synced, World.At, World.CallAt, World.OutcomeAt,
      Wrappers.SeekTo, Wrappers.SlaveResult, Wrappers.Seeks, Enabled;
    InStep(w, s);
    Shapes(w, s);
    var t := MoveTo(w, s, SeekAndReturn(i));
    var m := Of(s, i);
    UnlockedMove(w, s, SeekAndReturn(i));
    UnlockedForm(w, s, SeekAndReturn(i));
    InCall(w, s, i);
    var n := s.bar.releases / 2 - 1;
    assert s.bar.releases / 2 == n + 1;
    SeekOk(w, s, i, if m.pc.GotPayload? then m.pc.data else [], n);
    ReturnedOk(w, t, Of(t, i), n);
    LocalRefines(w, s, t, i);
  }

  // ----- The end of a vote

  /** A vote in which two replicas have the right arguments leaves all of them with these. */
  lemma VotedRefines<P>(w: World<P>, s: Sys<P>, t: Sys<P>, i: nat)
    requires Refines(w, s) && InPlace(w, t) && i < 3 && Voted(w, s, t, i)
    requires Majority(s.bar.slots, Wrappers.ArgsOf(w.CallAt(s.bar.releases / 2)))
    ensures Refines(w, t)
  {
    var a := Wrappers.ArgsOf(w.CallAt(s.bar.releases / 2));
    MajorityUnique(s.bar.slots, a, s.bar.slots[i].args);
    assert t.bar.releases / 2 == s.bar.releases / 2 && t.bar.releases % 2 == 1;
    hide World.At, World.OutcomeAt, AreaHolds, KernelsAgree, InPlace, Synced, Aliased, Majority, Wrappers.ArgsOf;
    forall j | 0 <= j < 3 && Live(t, j) ensures ImageOk(w, t, Of(t, j)) {
      var o := if s.bar.slots[j].args == a then j else i;
      assert Live(s, o) && Of(t, j) == Of(s, o) && ArgsIn(w, s, o) == a;
      assert ImageOk(w, s, Of(s, o));
    }
  }

  // ----- The end of a master barrier

  /** The real effect is the one of the unreplicated process. */
  lemma MasterEffect<P>(w: World<P>, s: Sys<P>, m: Image<P>, n: nat)
    requires w.Ok() && Wrappers.KernelOk(s.kernel) && Wrappers.TableOk(s.kernel, m.table) && s.bar.releases == 2 * n + 1
    requires KernelsAgree(w, s.kernel, w.At(n).kernel) && s.trace == w.At(n).trace && Aliased(w, m.table)
    requires w.prog.next(m.ps) == w.CallAt(n) && Synced(w, s.kernel, m.table, w.At(n).kernel, -1)
    ensures var o := Wrappers.Exec(s.kernel, m.table, w.CallAt(n));
      && w.prog.next(m.ps) == w.CallAt(n) && o.res == w.OutcomeAt(n).res
      && KernelsAgree(w, o.kernel, w.At(n + 1).kernel)
      && AreaHolds(w, Wrappers.Broadcast(s.area, w.CallAt(n), o), n)
      && s.trace + [(w.CallAt(n), o.res)] == w.At(n + 1).trace
      && Synced(w, o.kernel, m.table, w.At(n + 1).kernel, -1)
      && forall t' | Aliased(w, t') && Synced(w, s.kernel, t', w.At(n).kernel, -1) ::
           Synced(w, o.kernel, t', w.At(n + 1).kernel, Moved(w, w.CallAt(n)))
  {
    ExecMatch(w, s.kernel, m.table, w.At(n).kernel, w.CallAt(n));
    SingleStep(w, n);
    hide World.At, Synced, KernelsAgree;
    forall t' | Aliased(w, t') && Synced(w, s.kernel, t', w.At(n).kernel, -1)
      ensures Synced(w, Wrappers.Exec(s.kernel, m.table, w.CallAt(n)).kernel, t', w.At(n + 1).kernel,
        Moved(w, w.CallAt(n)))
    {
      OthersAfterExec(w, s.kernel, m.table, w.At(n).kernel, w.CallAt(n), t');
    }
  }

  /** A replica after the master's action: the master itself, or a slave that has yet to catch up. */
  lemma FinishingOk<P>(w: World<P>, t: Sys<P>, m: Image<P>, n: nat)
    requires w.Ok() && t.bar.releases == 2 * n + 2 && Aliased(w, m.table)
    requires Wrappers.ArgsOf(w.prog.next(m.ps)) == Wrappers.ArgsOf(w.CallAt(n))
    requires m.pc.Acting? || m.pc == MasterDone(w.OutcomeAt(n).res)
    requires Synced(w, t.kernel, m.table, w.At(n + 1).kernel, if m.pc.MasterDone? then -1 else Moved(w, w.CallAt(n)))
    ensures ImageOk(w, t, m)
  {
    hide World.At, World.OutcomeAt, Synced, Aliased;
  }

  /** A replica that is about to act. */
  lemma Actor<P>(w: World<P>, s: Sys<P>, j: nat, n: nat)
    requires Refines(w, s) && s.bar.releases == 2 * n + 1 && j < 3 && Live(s, j) && Of(s, j).pc.Acting?
    ensures var m := Of(s, j);
      && Aliased(w, m.table) && Wrappers.ArgsOf(w.prog.next(m.ps)) == Wrappers.ArgsOf(w.CallAt(n))
      && Synced(w, s.kernel, m.table, w.At(n).kernel, -1)
  {
    hide World.At, World.OutcomeAt, AreaHolds, KernelsAgree, InPlace, Synced, Aliased;
    Shapes(w, s);
    assert ImageOk(w, s, Of(s, j));
  }

  lemma ActedRefines<P>(w: World<P>, s: Sys<P>, t: Sys<P>)
    requires Refines(w, s) && InPlace(w, t) && Acted(w, s, t) && Live(s, 0) && Detectable(w, s, Of(s, 0).ps)
    ensures Refines(w, t)
  {
    hide World.At, World.OutcomeAt, World.CallAt, AreaHolds, KernelsAgree, Synced, Aliased, ImageOk, InPlace,
      Wrappers.Exec, Wrappers.Broadcast, Wrappers.KernelOk, Wrappers.ArgsOf;
    InStep(w, s);
    Shapes(w, s);
    Shapes(w, t);
    var n := s.bar.releases / 2;
    assert t.bar.releases / 2 == n + 1 && s.bar.releases / 2 == n && t.bar.releases == 2 * n + 2;
    assert Live(s, 0) && Live(s, 1) && Live(s, 2) && Wrappers.TableOk(s.kernel, Of(s, 0).table);
    Actor(w, s, 0, n);
    Actor(w, s, 1, n);
    Actor(w, s, 2, n);
    MasterEffect(w, s, Of(s, 0), n);
    FinishingOk(w, t, Of(t, 0), n);
    FinishingOk(w, t, Of(t, 1), n);
    FinishingOk(w, t, Of(t, 2), n);
    forall j | 0 <= j < 3 && Live(t, j) ensures ImageOk(w, t, Of(t, j)) {
      assert j == 0 || j == 1 || j == 2;
    }
  }

  // ----- Every move

  lemma LockedRefines<P>(w: World<P>, s: Sys<P>, mv: Move<P>)
    requires Refines(w, s) && Possible(w, s, mv) && mv.Locks() && RightEnd(w, s, mv)
    ensures Refines(w, MoveTo(w, s, mv))
  {
    hide World.At, World.OutcomeAt, World.CallAt, Mid, MoveTo, Possible, InPlace, Refines, From, Majority,
      Wrappers.ArgsOf;
    InStep(w, s);
    Shapes(w, s);
    var u := s.(bar := Mid(w, s, mv));
    var t := MoveTo(w, s, mv);
    LockedMove(w, s, mv);
    Shapes(w, u);
    Shapes(w, t);
    QuietRefines(w, s, u, mv.i);
    if Quiet(u, t, mv.i) {
      QuietRefines(w, u, t, mv.i);
    } else if Voted(w, u, t, mv.i) {
      VotedRefines(w, u, t, mv.i);
    } else {
      assert Live(u, 0);
      ActedRefines(w, u, t);
    }
  }

  /** Unless it ends a vote without a majority for the right arguments, or a master barrier with a wrong call of slot 0
      that has passed as the right one, every move keeps the replicas in step. */
  lemma MoveRefines<P>(w: World<P>, s: Sys<P>, mv: Move<P>)
    requires Refines(w, s) && Possible(w, s, mv) && RightEnd(w, s, mv)
    ensures Refines(w, MoveTo(w, s, mv))
  {
    hide Refines, MoveTo, Possible, RightEnd;
    if mv.Locks() {
      LockedRefines(w, s, mv);
    } else if mv.SeekAndReturn? {
      SeekAndReturnOk(w, s, mv.i);
    } else {
      QuietMoveOk(w, s, mv);
    }
  }

  // ----- After a vote that was not right

  /** All replicas have passed the vote with other arguments than the unreplicated process's. */
  ghost predicate Misled<P>(w: World<P>, s: Sys<P>, n: nat) {
    && InPlace(w, s) && s.bar.releases == 2 * n + 1
    && forall j | 0 <= j < 3 && Live(s, j) :: ArgsIn(w, s, j) != Wrappers.ArgsOf(w.CallAt(n))
  }

  /** A vote without a majority for the right arguments misleads all. */
  lemma VotedMisled<P>(w: World<P>, s: Sys<P>, t: Sys<P>, i: nat)
    requires w.Ok() && InPlace(w, t) && s.bar.Shape() && s.bar.N() == 3 && t.bar.Shape() && t.bar.N() == 3 && i < 3
    requires Voted(w, s, t, i) && !Majority(s.bar.slots, Wrappers.ArgsOf(w.CallAt(s.bar.releases / 2)))
    ensures Misled(w, t, s.bar.releases / 2)
  {
    hide World.At, World.CallAt, InPlace, Wrappers.ArgsOf, Majority;
    forall j | 0 <= j < 3 && Live(t, j) ensures ArgsIn(w, t, j) == s.bar.slots[i].args {
      var o := if s.bar.slots[j].args == s.bar.slots[i].args then j else i;
      assert Of(t, j) == Of(s, o) && s.bar.slots[o].args == ArgsIn(w, s, o);
    }
  }

  lemma VoteMisleads<P>(w: World<P>, s: Sys<P>, mv: Move<P>)
    requires InPlace(w, s) && Possible(w, s, mv) && !RightVote(w, s, mv)
    ensures Misled(w, MoveTo(w, s, mv), s.bar.releases / 2)
  {
    hide World.At, World.CallAt, Mid, MoveTo, Possible, InPlace, From, Wrappers.ArgsOf, Majority, ArgsIn, Misled;
    Shapes(w, s);
    var u := s.(bar := Mid(w, s, mv));
    var t := MoveTo(w, s, mv);
    if mv.Locks() {
      LockedMove(w, s, mv);
      Shapes(w, u);
      Shapes(w, t);
      VotedMisled(w, u, t, mv.i);
    } else {
      UnlockedMove(w, s, mv);
    }
  }

  lemma QuietMisled<P>(w: World<P>, s: Sys<P>, t: Sys<P>, i: nat, n: nat)
    requires Misled(w, s, n) && InPlace(w, t) && Quiet(s, t, i)
    ensures Misled(w, t, n)
  {
    hide World.At, World.CallAt, InPlace, From, Wrappers.ArgsOf;
    Shapes(w, s);
    Shapes(w, t);
    forall j | 0 <= j < 3 && Live(t, j) ensures ArgsIn(w, t, j) != Wrappers.ArgsOf(w.CallAt(n)) {
      var o := if From(s, t, j, j) then j else i;
      assert From(s, t, j, o);
      FromLive(s, t, j, o);
    }
  }

  lemma DieMisled<P>(w: World<P>, s: Sys<P>, mv: Move<P>, n: nat)
    requires Misled(w, s, n) && Possible(w, s, mv) && !mv.Locks()
    ensures Misled(w, MoveTo(w, s, mv), n)
  {
    hide World.At, World.CallAt, InPlace, Wrappers.ArgsOf, MoveTo, Possible;
    Shapes(w, s);
    var t := MoveTo(w, s, mv);
    UnlockedMove(w, s, mv);
    Shapes(w, t);
    assert mv.Die?;
    forall j | 0 <= j < 3 && Live(t, j) ensures Live(s, j) && ArgsIn(w, t, j) == ArgsIn(w, s, j) {
    }
  }

  /** A misled master. */
  lemma ActedMisled<P>(w: World<P>, s: Sys<P>, t: Sys<P>, n: nat)
    requires w.Ok() && Misled(w, s, n) && Typed(s) && t.bar.Shape() && t.bar.N() == 3 && Acted(w, s, t)
    ensures |t.trace| == n + 1 && t.trace[n].0 != w.CallAt(n)
  {
    hide World.At, World.CallAt, InPlace, Wrappers.ArgsOf, Wrappers.Exec, Wrappers.Broadcast;
    Shapes(w, s);
    assert Live(s, 0) && ArgsIn(w, s, 0) != Wrappers.ArgsOf(w.CallAt(n));
  }

  /** The replicas stay misled, until the master has made another call than the unreplicated process. */
  lemma MisledMove<P>(w: World<P>, s: Sys<P>, mv: Move<P>, n: nat)
    requires Misled(w, s, n) && Possible(w, s, mv)
    ensures var t := MoveTo(w, s, mv);
      Misled(w, t, n) || (InPlace(w, t) && |t.trace| == n + 1 && t.trace[n].0 != w.CallAt(n))
  {
    hide World.At, World.CallAt, Mid, MoveTo, Possible, InPlace, Quiet, Acted, ArgsIn;
    Shapes(w, s);
    var t := MoveTo(w, s, mv);
    if !mv.Locks() {
      DieMisled(w, s, mv, n);
    } else {
      var u := s.(bar := Mid(w, s, mv));
      LockedMove(w, s, mv);
      Shapes(w, u);
      Shapes(w, t);
      QuietMisled(w, s, u, mv.i, n);
      if Quiet(u, t, mv.i) {
        QuietMisled(w, u, t, mv.i, n);
      } else {
        ActedMisled(w, u, t, n);
      }
    }
  }

  // ----- After a wrong end

  /** Call number n has been voted down, or replaced: no effect so far, or a wrong one. */
  ghost predicate Wronged<P>(w: World<P>, s: Sys<P>, n: nat)
    requires w.Ok()
  {
    Misled(w, s, n) || (|s.trace| > n && s.trace[n].0 != w.CallAt(n))
  }

  /** A master whose wrong call has passed as the right one. */
  lemma DisguisedActs<P>(w: World<P>, s: Sys<P>, mv: Move<P>)
    requires InPlace(w, s) && Possible(w, s, mv) && !RightMaster(w, s, mv)
    ensures var n, t := s.bar.releases / 2, MoveTo(w, s, mv); |t.trace| == n + 1 && t.trace[n].0 != w.CallAt(n)
  {
    hide World.At, World.CallAt, Mid, MoveTo, Possible, InPlace, From, Wrappers.ArgsOf, Wrappers.Exec,
      Wrappers.Broadcast;
    Shapes(w, s);
    var u := s.(bar := Mid(w, s, mv));
    var t := MoveTo(w, s, mv);
    if mv.Locks() {
      LockedMove(w, s, mv);
      Shapes(w, u);
      Shapes(w, t);
      assert Acted(w, u, t);
    } else {
      UnlockedMove(w, s, mv);
    }
  }

  /** A move that ends a vote or a master barrier wrongly. */
  lemma WrongEnd<P>(w: World<P>, s: Sys<P>, mv: Move<P>)
    requires InPlace(w, s) && Possible(w, s, mv) && !RightEnd(w, s, mv)
    ensures |s.trace| == s.bar.releases / 2 && Wronged(w, MoveTo(w, s, mv), s.bar.releases / 2)
  {
    hide MoveTo, Possible, InPlace, RightVote, RightMaster, Misled;
    Shapes(w, s);
    if RightVote(w, s, mv) {
      DisguisedActs(w, s, mv);
    } else {
      VoteMisleads(w, s, mv);
    }
  }
}
