/** What the fingerprints can hide: a run in which one replica, the master, is hit by a fault of 33 bits in the buffer
    of a write. The vote does not see it, and the wrong bytes are written. */
module HiddenFault {
  import opened Compare
  import opened Barrier
  import opened CalmRounds
  import opened Replication
  import Crc32
  import Refinement
  import Wrappers

  // ----- A program that writes, to the one file that is open, five bytes - others if it has been hit

  const GOOD: Wrappers.buffer := Crc32.ZEROS
  const BAD: Wrappers.buffer := Crc32.POLYNOMIAL

  function Next(hit: bool): Wrappers.Call {
    Wrappers.Write(3, if hit then BAD else GOOD)
  }

  function Go1(hit: bool, r: Wrappers.Result): bool {
    hit
  }

  const TABLE: Wrappers.Table := map[3 := 0]

  function Holding(data: seq<Wrappers.byte>, offs: nat): Wrappers.Kernel {
    Wrappers.Kernel(map[0 := data], map[], [Wrappers.Desc(0, offs)])
  }

  function TheWorld(): (w: World<bool>)
    ensures w.Ok()
  {
    World(Program(Next, Go1), Single(false, Holding([], 0), []), TABLE, [0])
  }

  const WRITTEN := Wrappers.Result(5, 0, [])

  lemma Written(data: Wrappers.buffer)
    requires |data| == 5
    ensures Wrappers.Exec(Holding([], 0), TABLE, Wrappers.Write(3, data))
         == Wrappers.Outcome(WRITTEN, 5, Holding(data, 5))
  {
    assert Wrappers.Overlay([], 0, data) == data;
    assert map[0 := []][0 := data] == map[0 := data];
  }

  lemma OneProcess()
    ensures TheWorld().At(1) == Single(false, Holding(GOOD, 5), [(Next(false), WRITTEN)])
  {
    var w := TheWorld();
    assert w.At(0) == w.single;
    Written(GOOD);
  }

  lemma SameFingerprint()
    ensures Wrappers.ArgsOf(Next(true)) == Wrappers.ArgsOf(Next(false)) && BAD != GOOD
  {
    Crc32.Burst33Undetected(0, [], []);
    assert [] + BAD + [] == BAD && [] + GOOD + [] == GOOD;
  }

  // ----- The run

  const NO_AREA := Wrappers.Area(Wrappers.Header(0, 0, 0), [])
  const MOVES: seq<Move<bool>> := [Child(1, 2), Child(2, 3), Fault(0, true)] + CheckMoves() + MasterMoves()

  function Memory(hit: bool, pc: Pc): Image<bool> {
    Image(hit, TABLE, pc)
  }

  /** The memory of the three replicas, of which replica 0 has been hit. */
  function Mems(p0: Pc, p1: Pc, p2: Pc): seq<Image<bool>> {
    [Memory(true, p0), Memory(false, p1), Memory(false, p2)]
  }

  function Beginning(): Sys<bool> {
    var parent := InitSlot(ZERO_SLOT, 1);
    var m := Memory(false, App);
    Sys(State(0, [0, 0], false, [parent, ZERO_SLOT, ZERO_SLOT],
              [Outside(m), PendingStart(m, parent), PendingStart(m, parent)], 0, [0, 0, 0]),
        Holding([], 0), NO_AREA, [])
  }

  lemma Begins()
    ensures Refinement.Start(TheWorld(), Beginning())
  {
    assert seq(1, d => d) == TheWorld().standsFor;
    Refinement.ForkedStart(TheWorld(), Beginning());
  }

  function Cells(a: SyscallArgs): seq<Slot> {
    [Slot(1, -1, a, -1, 0, false), Slot(2, -1, a, -1, 0, false), Slot(3, -1, a, -1, 0, false)]
  }

  /** Before the vote, after the fault. */
  function Struck(): Sys<bool> {
    Calm(0, Cells(ZERO_ARGS), Mems(App, App, App), Holding([], 0), NO_AREA, [])
  }

  function OneStarted(): Sys<bool> {
    var s, p, m := Beginning(), InitSlot(ZERO_SLOT, 1), Memory(false, App);
    s.(bar := s.bar.(slots := [p, InitSlot(ZERO_SLOT, 2), ZERO_SLOT],
      procs := [Outside(m), Outside(m), PendingStart(m, p)]))
  }

  function Started(): Sys<bool> {
    var m := Memory(false, App);
    Calm(0, Cells(ZERO_ARGS), [m, m, m], Holding([], 0), NO_AREA, [])
  }

  lemma Starts()
    ensures Goes(TheWorld(), Beginning(), Child(1, 2), OneStarted())
    ensures Goes(TheWorld(), OneStarted(), Child(2, 3), Started())
  {}

  lemma Strikes()
    ensures Goes(TheWorld(), Started(), Fault(0, true), Struck())
  {}

  lemma ReachStruck() returns (run: seq<Sys<bool>>, moves: seq<Move<bool>>)
    ensures LeadTo(TheWorld(), run, moves, Struck()) && moves == [Child(1, 2), Child(2, 3), Fault(0, true)]
    ensures |run| > 0 && run[0] == Beginning()
  {
    hide Goes, OneStarted, Started, Struck, Beginning, Refinement.Start;
    Starts();
    Strikes();
    Begins();
    run, moves := [Beginning()], [];
    run, moves := Go(TheWorld(), run, moves, Beginning(), Child(1, 2), OneStarted());
    run, moves := Go(TheWorld(), run, moves, OneStarted(), Child(2, 3), Started());
    run, moves := Go(TheWorld(), run, moves, Started(), Fault(0, true), Struck());
  }

  const WRITE_ARGS := Wrappers.ArgsOf(Next(false))

  /** After the vote, which has changed nothing but the slots and the round. */
  function Passed(): Sys<bool> {
    Calm(1, Cells(WRITE_ARGS), Mems(Checking, Checking, Checking), Holding([], 0), NO_AREA, [])
  }

  /** After the master's write. */
  function BadWritten(): Sys<bool> {
    Calm(2, Cells(WRITE_ARGS), Mems(MasterDone(WRITTEN), Acting, Acting), Holding(BAD, 5),
         Wrappers.Broadcast(NO_AREA, Next(true), Wrappers.Outcome(WRITTEN, 5, Holding(BAD, 5))),
         [(Next(true), WRITTEN)])
  }

  lemma VotePasses()
    ensures var w, s := TheWorld(), Struck();
      && AboutToCall(s) && Check(w, s, 0).args == Check(w, s, 1).args == Check(w, s, 2).args
      && Checked(w, s) == Passed()
  {
    hide Wrappers.ArgsOf;
    SameFingerprint();
    assert Checked(TheWorld(), Struck()).bar.slots == Passed().bar.slots;
    assert Checked(TheWorld(), Struck()).bar.procs == Passed().bar.procs;
  }

  lemma WritesBad()
    ensures AboutToAct(Passed()) && MasterActed(TheWorld(), Passed()) == BadWritten()
  {
    hide Wrappers.ArgsOf, Wrappers.Exec, Wrappers.Broadcast;
    Written(BAD);
    var s := Passed();
    assert CalmOk(s);
    assert Done1(TheWorld(), s) == Wrappers.Outcome(WRITTEN, 5, Holding(BAD, 5));
    assert MasterActed(TheWorld(), s).bar.slots == BadWritten().bar.slots;
    assert MasterActed(TheWorld(), s).bar.procs == BadWritten().bar.procs;
  }

  /** One fault, in the master, before the vote. The vote lets it pass and replaces nobody; the real effect is wrong,
      and so are the bytes in the file. */
  lemma HiddenWrite() returns (run: seq<Sys<bool>>)
    ensures Refinement.IsReplicatedRun(TheWorld(), run, MOVES)
    ensures run[0] == Beginning() && run[|MOVES|] == BadWritten()
    ensures BadWritten().trace == [(Wrappers.Write(3, BAD), WRITTEN)]
    ensures TheWorld().At(1).trace == [(Wrappers.Write(3, GOOD), WRITTEN)]
    ensures BadWritten().kernel.files == map[0 := BAD] && TheWorld().At(1).kernel.files == map[0 := GOOD] && BAD != GOOD
  {
    hide Beginning, Struck, Passed, Check, Checked, MasterActed, AboutToCall, AboutToAct, Refinement.Start,
      Wrappers.ArgsOf, Wrappers.Broadcast, CheckMoves, MasterMoves;
    OneProcess();
    SameFingerprint();
    run := BadRun();
  }

  lemma BadRun() returns (run: seq<Sys<bool>>)
    ensures LeadTo(TheWorld(), run, MOVES, BadWritten()) && |run| > 0 && run[0] == Beginning()
  {
    hide AboutToCall, AboutToAct, CalmOk, Struck, Checked, Check, Passed, BadWritten, Beginning, MasterActed, LeadTo,
      CheckMoves, MasterMoves;
    VotePasses();
    WritesBad();
    var moves: seq<Move<bool>>;
    run, moves := ReachStruck();
    run, moves := CheckRound(TheWorld(), run, moves, Struck());
    run, moves := MasterRound(TheWorld(), run, moves, Passed());
    assert moves == MOVES;
  }
}
