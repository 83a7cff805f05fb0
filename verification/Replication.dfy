/** Three interleaved replicas, any of which may be corrupted, stuck or dead, next to one unreplicated process. */
module Replication {
  import opened Compare
  import opened Barrier
  import opened BarrierInv
  import opened BarrierRounds
  import Wrappers

  // ----- The unreplicated program

  // A deterministic program: its next intercepted call, and how it goes on with the result
  datatype Program<!P> = Program(next: P -> Wrappers.Call, resume: (P, Wrappers.Result) -> P)

  type Event = (Wrappers.Call, Wrappers.Result)

  // One process on its own, with the real effects it has had
  datatype Single<P> = Single(ps: P, kernel: Wrappers.Kernel, trace: seq<Event>)

  // What a run is about: the program, its initial state, its descriptor table - and, for each open file description
  // that the replicas use, the description of the unreplicated process that it stands for
  datatype World<!P> = World(prog: Program<P>, single: Single<P>, table: Wrappers.Table, standsFor: seq<nat>) {

    ghost predicate Ok() {
      Wrappers.KernelOk(single.kernel) && Wrappers.TableOk(single.kernel, table) && single.trace == []
    }

    /** The unreplicated process after m calls. */
    ghost function At(m: nat): (s: Single<P>)
      requires Ok()
      ensures Wrappers.KernelOk(s.kernel) && Wrappers.TableOk(s.kernel, table)
        && |s.kernel.descs| == |single.kernel.descs|
      ensures |s.trace| == m
    {
      if m == 0 then single
      else
        var s := At(m - 1);
        var o := Wrappers.Exec(s.kernel, table, prog.next(s.ps));
        Single(prog.resume(s.ps, o.res), o.kernel, s.trace + [(prog.next(s.ps), o.res)])
    }

    /** Its call number m, and what it does. */
    ghost function CallAt(m: nat): Wrappers.Call
      requires Ok()
    {
      prog.next(At(m).ps)
    }

    ghost function OutcomeAt(m: nat): Wrappers.Outcome
      requires Ok()
    {
      Wrappers.Exec(At(m).kernel, table, CallAt(m))
    }
  }

  // ----- The replicas

  datatype Pc =
    // Outside PLR code
    | App
    // In, or just out of, the check barrier; in the master barrier, or a slave just out of it
    | Checking
    | Acting
    // A slave that has copied the header, and the payload
    | GotHeader(hdr: Wrappers.Header)
    | GotPayload(hdr: Wrappers.Header, data: seq<Wrappers.byte>)
    // The master, having run the action
    | MasterDone(res: Wrappers.Result)

  // The memory of a replica, and its descriptor table; both are copied by fork
  datatype Image<P> = Image(ps: P, table: Wrappers.Table, pc: Pc)

  datatype Sys<P> = Sys(bar: State<Image<P>>, kernel: Wrappers.Kernel, area: Wrappers.Area, trace: seq<Event>)

  function Mem<P>(p: Phase<Image<P>>): Image<P>
    requires !p.Exited?
  {
    match p
    case Outside(m) => m
    case Blocked(l, _) => l.mem
    case PendingStart(m, _) => m
    case PendingDrain(l, _) => l.mem
    case PendingWait(l, _, _) => l.mem
  }

  /** Replica j has not exited. */
  ghost predicate Live<P>(s: Sys<P>, j: nat)
    requires s.bar.Shape()
  {
    j < s.bar.N() && !s.bar.procs[j].Exited?
  }

  /** The memory of replica j. */
  ghost function Of<P>(s: Sys<P>, j: nat): Image<P>
    requires s.bar.Shape() && Live(s, j)
  {
    Mem(s.bar.procs[j])
  }

  /** Three replicas whose descriptors exist. */
  ghost predicate Typed<P>(s: Sys<P>) {
    && s.bar.Shape() && s.bar.N() == 3 && Wrappers.KernelOk(s.kernel)
    && forall j | 0 <= j < 3 && Live(s, j) :: Wrappers.TableOk(s.kernel, Of(s, j).table)
  }

  datatype Move<P> =
    // A replica's program makes its next call; it passes on to the master barrier
    | CallCheck(i: nat)
    | CallMaster(i: nat)
    // It takes the lock again in a barrier, or for the first time after a fork
    | WakeUp(i: nat)
    | Child(i: nat, pid: nat)
    // It does so because its watchdog timer has expired
    | TimeOut(i: nat)
    // The end of a wrapper: the master returns; a slave copies header and payload, then seeks and returns
    | MasterReturn(i: nat)
    | CopyHeader(i: nat)
    | CopyPayload(i: nat)
    | SeekAndReturn(i: nat)
    // A fault changes the memory of a replica that runs outside PLR code
    | Fault(i: nat, ps: P)
    // A replica dies outside the barrier
    | Die(i: nat)
  {
    /** Moves that hold the lock. */
    predicate Locks() {
      CallCheck? || CallMaster? || WakeUp? || Child? || TimeOut?
    }
  }

  function CheckCall<P>(w: World<P>, m: Image<P>): BarrierCall<Image<P>> {
    BarrierCall(Vote, AnyProcess, Wrappers.ArgsOf(w.prog.next(m.ps)), m.(pc := Checking))
  }

  function MasterCall<P>(s: Sys<P>, i: nat, m: Image<P>): BarrierCall<Image<P>>
    requires i < s.bar.N()
  {
    BarrierCall(Effect(true), MasterOnly, s.bar.slots[i].args, m.(pc := Acting))
  }

  /** The moves of the code, with any number of faults, deaths and expired timers. */
  ghost predicate Possible<P>(w: World<P>, s: Sys<P>, mv: Move<P>)
    requires w.Ok()
  {
    && Typed(s) && Live(s, mv.i)
    && var p := s.bar.procs[mv.i];
    match mv
    case CallCheck(i) => p.Outside? && p.mem.pc.App?
    case CallMaster(i) => p.Outside? && p.mem.pc.Checking?
    case WakeUp(i) => Enabled(s.bar, Wake(i, false))
    case Child(i, pid) => Enabled(s.bar, Install(i, pid))
    case TimeOut(i) => Enabled(s.bar, Wake(i, true))
    case MasterReturn(i) => p.Outside? && p.mem.pc.MasterDone?
    case CopyHeader(i) => p.Outside? && p.mem.pc.Acting?
    case CopyPayload(i) => p.Outside? && p.mem.pc.GotHeader? && Wrappers.HasPayload(w.prog.next(p.mem.ps), p.mem.pc.hdr)
    case SeekAndReturn(i) =>
      p.Outside? && (p.mem.pc.GotPayload?
        || (p.mem.pc.GotHeader? && !Wrappers.HasPayload(w.prog.next(p.mem.ps), p.mem.pc.hdr)))
    case Fault(i, _) => p.Outside? && p.mem.pc.App?
    case Die(i) => p.Outside?
  }

  function SetMem<P>(s: Sys<P>, i: nat, m: Image<P>): (r: Sys<P>)
    requires s.bar.Shape() && i < s.bar.N()
    ensures r.bar.Shape() && r.bar.N() == s.bar.N()
  {
    s.(bar := s.bar.(procs := s.bar.procs[i := Outside(m)]))
  }

  /** What a lock-held section of process i means for the rest of the system: the release of a master barrier comes with
      the real effect. */
  ghost function Section<P>(w: World<P>, s: Sys<P>, bar: State<Image<P>>, i: nat): Sys<P>
    requires Typed(s) && bar.Shape() && bar.N() == 3 && i < 3
  {
    if bar.releases == s.bar.releases || !bar.procs[i].Outside? then s.(bar := bar)
    else
      var m := bar.procs[i].mem;
      if m.pc.Acting? && Wrappers.TableOk(s.kernel, m.table) then
        var c := w.prog.next(m.ps);
        var o := Wrappers.Exec(s.kernel, m.table, c);
        SetMem(Sys(bar, o.kernel, Wrappers.Broadcast(s.area, c, o), s.trace + [(c, o.res)]), i,
          m.(pc := MasterDone(o.res)))
      else s.(bar := bar)
  }

  /** memcpy from the shared area. */
  function Take(payload: seq<Wrappers.byte>, n: int): seq<Wrappers.byte> {
    if 0 <= n <= |payload| then payload[..n] else payload
  }

  /** The memory of a replica after a move outside the barrier. */
  ghost function NewMem<P>(w: World<P>, s: Sys<P>, mv: Move<P>): (m: Image<P>)
    requires w.Ok() && Possible(w, s, mv) && !mv.Locks() && !mv.Die?
    ensures m.table == Of(s, mv.i).table
  {
    var m := Of(s, mv.i);
    match mv
    case MasterReturn(_) => Image(w.prog.resume(m.ps, m.pc.res), m.table, App)
    case CopyHeader(_) => m.(pc := GotHeader(s.area.hdr))
    case CopyPayload(_) => m.(pc := GotPayload(m.pc.hdr, Take(s.area.payload, m.pc.hdr.ret)))
    case SeekAndReturn(_) =>
      var data := if m.pc.GotPayload? then m.pc.data else [];
      Image(w.prog.resume(m.ps, Wrappers.SlaveResult(w.prog.next(m.ps), m.pc.hdr, data)), m.table, App)
    case Fault(_, ps) => m.(ps := ps)
  }

  ghost function MoveTo<P>(w: World<P>, s: Sys<P>, mv: Move<P>): Sys<P>
    requires w.Ok() && Possible(w, s, mv)
  {
    var p := s.bar.procs[mv.i];
    match mv
    case CallCheck(i) => Section(w, s, Apply(s.bar, Enter(i, CheckCall(w, p.mem))), i)
    case CallMaster(i) => Section(w, s, Apply(s.bar, Enter(i, MasterCall(s, i, p.mem))), i)
    case WakeUp(i) => Section(w, s, Apply(s.bar, Wake(i, false)), i)
    case Child(i, pid) => Section(w, s, Apply(s.bar, Install(i, pid)), i)
    case TimeOut(i) => Section(w, s, Apply(s.bar, Wake(i, true)), i)
    case SeekAndReturn(i) =>
      SetMem(s, i, NewMem(w, s, mv))
        .(kernel := Wrappers.SeekTo(s.kernel, p.mem.table, w.prog.next(p.mem.ps), p.mem.pc.hdr))
    case Die(i) => s.(bar := Apply(s.bar, Crash(i)))
    case _ => SetMem(s, mv.i, NewMem(w, s, mv))
  }

  /** The barrier in the middle of a section: the replica has arrived, has taken the lock again, or is installed. */
  ghost function Mid<P>(w: World<P>, s: Sys<P>, mv: Move<P>): (b: State<Image<P>>)
    requires w.Ok() && Possible(w, s, mv)
    ensures b.Shape() && b.N() == 3
  {
    match mv
    case CallCheck(i) => Arrive(s.bar, i, CheckCall(w, s.bar.procs[i].mem))
    case CallMaster(i) => Arrive(s.bar, i, MasterCall(s, i, s.bar.procs[i].mem))
    case WakeUp(i) => Resume(s.bar, i, false)
    case Child(i, pid) => Installed(s.bar, i, pid)
    case TimeOut(i) => Resume(s.bar, i, true)
    case _ => s.bar
  }

  // ----- The vote, and the fault model

  /** The move ends a round of votes. */
  ghost predicate EndsVote<P>(w: World<P>, s: Sys<P>, mv: Move<P>)
    requires w.Ok() && Possible(w, s, mv)
  {
    s.bar.releases % 2 == 0 && MoveTo(w, s, mv).bar.releases != s.bar.releases
  }

  /** If it does, at least two of the three arguments presented are those of the unreplicated process. */
  ghost predicate RightVote<P>(w: World<P>, s: Sys<P>, mv: Move<P>)
    requires w.Ok() && Possible(w, s, mv)
  {
    EndsVote(w, s, mv) ==> Majority(Mid(w, s, mv).slots, Wrappers.ArgsOf(w.CallAt(s.bar.releases / 2)))
  }

  /** The fingerprints do not hide it if a replica with program state ps is about to make a wrong call. */
  ghost predicate Detectable<P>(w: World<P>, s: Sys<P>, ps: P)
    requires w.Ok()
  {
    var c := w.CallAt(s.bar.releases / 2);
    Wrappers.ArgsOf(w.prog.next(ps)) == Wrappers.ArgsOf(c) ==> w.prog.next(ps) == c
  }

  /** If the move ends a master barrier, the fingerprints do not hide a wrong call of slot 0. */
  ghost predicate RightMaster<P>(w: World<P>, s: Sys<P>, mv: Move<P>)
    requires w.Ok() && Possible(w, s, mv)
  {
    var u := s.(bar := Mid(w, s, mv));
    s.bar.releases % 2 == 1 && MoveTo(w, s, mv).bar.releases != s.bar.releases && Live(u, 0) ==>
      Detectable(w, s, Of(u, 0).ps)
  }

  /** What the move ends, if anything, ends rightly. */
  ghost predicate RightEnd<P>(w: World<P>, s: Sys<P>, mv: Move<P>)
    requires w.Ok() && Possible(w, s, mv)
  {
    RightVote(w, s, mv) && RightMaster(w, s, mv)
  }

  /** The last call is complete. */
  ghost predicate Done(pc: Pc, releases: nat) {
    pc.App? || pc.Checking? || (pc.Acting? && releases % 2 == 1)
  }

  /** Replica j has the program state that the unreplicated process has at its place. */
  ghost predicate Right<P>(w: World<P>, s: Sys<P>, j: nat)
    requires w.Ok() && Typed(s) && Live(s, j)
  {
    var m, n := Of(s, j), s.bar.releases / 2;
    m.ps == w.At(if Done(m.pc, s.bar.releases) || n == 0 then n else n - 1).ps
  }

  ghost predicate OthersRight<P>(w: World<P>, s: Sys<P>, i: nat)
    requires w.Ok() && Typed(s)
  {
    forall j | 0 <= j < 3 && j != i && Live(s, j) :: Right(w, s, j)
  }

  /** The watchdog of the moving replica forks a copy of it. */
  ghost predicate Forks<P>(w: World<P>, s: Sys<P>, mv: Move<P>)
    requires w.Ok() && Possible(w, s, mv)
  {
    !Mid(w, s, mv).restoring && MoveTo(w, s, mv).bar.restoring
  }

  /** The fault model: a fault strikes only while all other replicas are right, what a watchdog copies is right, and
      when slot 0 acts the fingerprints do not hide a wrong call. */
  ghost predicate CanMove<P>(w: World<P>, s: Sys<P>, mv: Move<P>)
    requires w.Ok()
  {
    && Possible(w, s, mv)
    && (mv.Fault? ==> OthersRight(w, s, mv.i))
    && (Forks(w, s, mv) ==> Right(w, s, mv.i))
    && RightMaster(w, s, mv)
  }

  // ----- Where the replicas are, in every run

  ghost predicate VoteLocal<P>(l: Local<Image<P>>) {
    l.action == Vote && l.who == AnyProcess
  }

  ghost predicate MasterLocal<P>(l: Local<Image<P>>) {
    l.action == Effect(true) && l.who == MasterOnly
  }

  /** Where a replica can be in the even rounds, which lead to the vote, and in the odd ones, to the master's action. */
  ghost predicate Placed<P>(w: World<P>, s: Sys<P>, i: nat)
    requires w.Ok() && Typed(s) && Live(s, i)
  {
    var even := s.bar.releases % 2 == 0;
    var p := s.bar.procs[i];
    var waiting := s.bar.slots[i].waitIdx >= 0;
    match Mem(p).pc
    case App => even && (p.Outside? || p.PendingStart?)
    case Checking =>
      if even then
        || (p.Blocked? && waiting && VoteLocal(p.loc) && s.bar.slots[i].args == ArgsIn(w, s, i))
        || (p.PendingWait? && VoteLocal(p.loc) && p.parent.args == ArgsIn(w, s, i))
      else p.Outside? || (p.Blocked? && !waiting && VoteLocal(p.loc)) || (p.PendingDrain? && VoteLocal(p.loc))
    case Acting =>
      if even then s.bar.releases > 0 && i != 0 && (p.Outside? || (p.Blocked? && !waiting && MasterLocal(p.loc)))
      else ((p.Blocked? && waiting) || p.PendingWait?) && MasterLocal(p.loc)
    case GotHeader(_) => even && s.bar.releases > 0 && i != 0 && p.Outside?
    case GotPayload(_, _) => even && s.bar.releases > 0 && i != 0 && p.Outside?
    case MasterDone(_) => even && s.bar.releases > 0 && i == 0 && p.Outside?
  }

  /** The arguments of the call that replica j is about to make. */
  ghost function ArgsIn<P>(w: World<P>, s: Sys<P>, j: nat): SyscallArgs
    requires s.bar.Shape() && Live(s, j)
  {
    Wrappers.ArgsOf(w.prog.next(Of(s, j).ps))
  }

  ghost predicate InPlace<P>(w: World<P>, s: Sys<P>) {
    && w.Ok() && Typed(s) && Inv(s.bar) && |s.trace| == s.bar.releases / 2
    && forall i | 0 <= i < 3 && Live(s, i) :: Placed(w, s, i)
  }

  // ----- What a move can do to them

  /** Replica j of t is what replica o of s was, at the same place or at its next barrier. */
  ghost predicate From<P>(s: Sys<P>, t: Sys<P>, j: nat, o: nat)
    requires s.bar.Shape() && t.bar.Shape() && Live(t, j)
  {
    && Live(s, o)
    && var (m, m') := (Of(s, o), Of(t, j));
      && m'.ps == m.ps && m'.table == m.table
      && (m'.pc == m.pc || (m.pc.App? && m'.pc.Checking?)
           || (m.pc.Checking? && m'.pc.Acting? && t.bar.releases % 2 == 1))
  }

  /** No round ends; a replica may exit, and replica i may be forked by its watchdog. */
  ghost predicate Quiet<P>(s: Sys<P>, t: Sys<P>, i: nat)
    requires s.bar.Shape() && t.bar.Shape() && t.bar.N() == 3
  {
    && t == s.(bar := t.bar) && t.bar.releases == s.bar.releases
    && forall j | 0 <= j < 3 && Live(t, j) ::
         From(s, t, j, j) || (!s.bar.restoring && t.bar.restoring && From(s, t, j, i))
  }

  /** A round of votes ends: replica i and those that agree with it, the majority, go on; a copy of i takes the place of
      one that does not. */
  ghost predicate Voted<P>(w: World<P>, s: Sys<P>, t: Sys<P>, i: nat)
    requires s.bar.Shape() && t.bar.Shape() && s.bar.N() == t.bar.N() == 3 && i < 3
  {
    var a := s.bar.slots[i].args;
    && t == s.(bar := t.bar) && s.bar.releases % 2 == 0 && t.bar.releases == s.bar.releases + 1
    && Majority(s.bar.slots, a)
    && (forall j | 0 <= j < 3 :: Live(s, j) && Of(s, j).pc.Checking? && s.bar.slots[j].args == ArgsIn(w, s, j))
    && forall j | 0 <= j < 3 ::
         Live(t, j) && Of(t, j) == Of(s, if s.bar.slots[j].args == a then j else i)
  }

  /** A master barrier ends, with the real effect of replica 0. */
  ghost predicate Acted<P>(w: World<P>, s: Sys<P>, t: Sys<P>)
    requires Typed(s) && t.bar.Shape() && t.bar.N() == 3
  {
    && s.bar.releases % 2 == 1 && t.bar.releases == s.bar.releases + 1
    && (forall j | 0 <= j < 3 :: Live(s, j) && Live(t, j) && Of(s, j).pc.Acting?)
    && var m := Of(s, 0); var c := w.prog.next(m.ps); var o := Wrappers.Exec(s.kernel, m.table, c);
      && t == Sys(t.bar, o.kernel, Wrappers.Broadcast(s.area, c, o), s.trace + [(c, o.res)])
      && Of(t, 0) == m.(pc := MasterDone(o.res))
      && forall j | 1 <= j < 3 :: Of(t, j) == Of(s, j)
  }

  // ----- How they relate to the unreplicated process, as long as the votes are right

  /** The table t shares descriptions just as the unreplicated process does. */
  ghost predicate Aliased<P>(w: World<P>, t: Wrappers.Table) {
    && t.Keys == w.table.Keys
    && (forall fd | fd in t :: t[fd] < |w.standsFor| && w.standsFor[t[fd]] == w.table[fd])
    && (forall f, g | f in t && g in t && w.table[f] == w.table[g] :: t[f] == t[g])
  }

  /** The offsets that t leads to are those of the kernel rk, except on descriptions that stand for l. */
  ghost predicate Synced<P>(w: World<P>, k: Wrappers.Kernel, t: Wrappers.Table, rk: Wrappers.Kernel, l: int) {
    forall fd | fd in t && t[fd] < |k.descs| && fd in w.table && w.table[fd] < |rk.descs| && w.table[fd] != l ::
      k.descs[t[fd]].offs == rk.descs[w.table[fd]].offs
  }

  /** The description that call c of the unreplicated process moves, or -1. */
  ghost function Moved<P>(w: World<P>, c: Wrappers.Call): int {
    if !c.Unlink? && c.fd in w.table then w.table[c.fd] else -1
  }

  ghost predicate KernelsAgree<P>(w: World<P>, k: Wrappers.Kernel, rk: Wrappers.Kernel) {
    && k.files == rk.files && k.names == rk.names && |k.descs| == |w.standsFor|
    && forall d | 0 <= d < |k.descs| :: w.standsFor[d] < |rk.descs| && k.descs[d].file == rk.descs[w.standsFor[d]].file
  }

  /** The shared area holds the outcome of call number m. */
  ghost predicate AreaHolds<P>(w: World<P>, a: Wrappers.Area, m: nat)
    requires w.Ok()
  {
    var o := w.OutcomeAt(m);
    && a.hdr == Wrappers.Header(o.res.err, o.res.ret, if o.res.ret == -1 || w.CallAt(m).Unlink? then 0 else o.offs)
    && (Wrappers.HasPayload(w.CallAt(m), a.hdr) ==>
         && |a.payload| >= |o.res.data|
         && a.payload[..|o.res.data|] == o.res.data)
  }

  /** A replica whose last call is complete, whatever its program state: its offsets are those of the unreplicated
      process, and after the vote so are the arguments of its next call. */
  ghost predicate Current<P>(w: World<P>, s: Sys<P>, m: Image<P>)
    requires w.Ok()
  {
    var r := w.At(s.bar.releases / 2);
    && Synced(w, s.kernel, m.table, r.kernel, -1)
    && (s.bar.releases % 2 == 1 ==> Wrappers.ArgsOf(w.prog.next(m.ps)) == Wrappers.ArgsOf(w.prog.next(r.ps)))
  }

  /** A replica that is still finishing the last call. */
  ghost predicate Finishing<P>(w: World<P>, s: Sys<P>, m: Image<P>)
    requires w.Ok() && s.bar.releases >= 2
  {
    var n := s.bar.releases / 2 - 1;
    && Wrappers.ArgsOf(w.prog.next(m.ps)) == Wrappers.ArgsOf(w.CallAt(n))
    && Synced(w, s.kernel, m.table, w.At(n + 1).kernel, if m.pc.MasterDone? then -1 else Moved(w, w.CallAt(n)))
    && (m.pc.GotHeader? || m.pc.GotPayload? ==> m.pc.hdr == s.area.hdr)
    && (m.pc.GotPayload? ==> m.pc.data == w.OutcomeAt(n).res.data && Wrappers.HasPayload(w.CallAt(n), s.area.hdr))
    && (m.pc.MasterDone? ==> m.pc.res == w.OutcomeAt(n).res)
  }

  ghost predicate ImageOk<P>(w: World<P>, s: Sys<P>, m: Image<P>)
    requires w.Ok()
  {
    && Aliased(w, m.table)
    && if Done(m.pc, s.bar.releases) then Current(w, s, m) else s.bar.releases >= 2 && Finishing(w, s, m)
  }

  ghost predicate Refines<P>(w: World<P>, s: Sys<P>) {
    && InPlace(w, s)
    && KernelsAgree(w, s.kernel, w.At(s.bar.releases / 2).kernel)
    && s.trace == w.At(s.bar.releases / 2).trace
    && (s.bar.releases % 2 == 0 && s.bar.releases > 0 ==> AreaHolds(w, s.area, s.bar.releases / 2 - 1))
    && forall i | 0 <= i < 3 && Live(s, i) :: ImageOk(w, s, Of(s, i))
  }
}
