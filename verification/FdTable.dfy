/** open and close: the replicas' descriptor tables are kept in step, number by number. */
module FdTable {

  // ----- One process and the directory

  // Which file each open descriptor refers to, and the descriptor of the extra shared area, or -1
  datatype Tab = Tab(open: map<nat, nat>, shmFd: int)

  // The directory, and the number of the next file to be created
  datatype Dir = Dir(names: map<string, nat>, nextFile: nat)

  datatype Flags = Flags(creat: bool, excl: bool)

  // The file behind the extra shared area
  const SHM_FILE: nat := 0

  /** The lowest descriptor that is not in use, which is the one that open takes. */
  function Lowest(used: set<nat>, from: nat): (r: nat)
    ensures r >= from && r !in used && forall j | from <= j < r :: j in used
    decreases |set x | x in used && x >= from|
  {
    if from in used then
      assert (set x | x in used && x >= from + 1) == (set x | x in used && x >= from) - {from};
      Lowest(used, from + 1)
    else from
  }

  // The outcome of a system call: what it returns, and the directory and the table after it
  datatype FdOutcome = FdOutcome(ret: int, dir: Dir, tab: Tab)

  /** plrSD_refreshExtraShm and plrSD_resizeExtraShm, as far as descriptors go. */
  function OpenShm(t: Tab): Tab {
    if t.shmFd == -1 then
      var fd := Lowest(t.open.Keys, 0);
      Tab(t.open[fd := SHM_FILE], fd)
    else t
  }

  /** The libc function open. */
  function LibcOpen(d: Dir, t: Tab, path: string, flags: Flags): FdOutcome {
    if path in d.names then
      if flags.creat && flags.excl then FdOutcome(-1, d, t)
      else
        var fd := Lowest(t.open.Keys, 0);
        FdOutcome(fd, d, t.(open := t.open[fd := d.names[path]]))
    else if flags.creat then
      var fd := Lowest(t.open.Keys, 0);
      FdOutcome(fd, Dir(d.names[path := d.nextFile], d.nextFile + 1), t.(open := t.open[fd := d.nextFile]))
    else FdOutcome(-1, d, t)
  }

  /** The libc function close. */
  function LibcClose(d: Dir, t: Tab, fd: int): FdOutcome {
    if fd >= 0 && fd in t.open then FdOutcome(0, d, t.(open := t.open - {fd})) else FdOutcome(-1, d, t)
  }

  /** Exactly when open fails: the file is there and must not be, or is not there and must not be created. */
  ghost predicate Refused(d: Dir, path: string, flags: Flags) {
    if path in d.names then flags.creat && flags.excl else !flags.creat
  }

  /** What open does: a failure changes nothing; otherwise the lowest number not in use refers to the file of that name,
      which is a new one if there was none, and all else is as before. */
  lemma OpenEffect(d: Dir, t: Tab, path: string, flags: Flags)
    ensures var o := LibcOpen(d, t, path, flags);
      if Refused(d, path, flags) then o == FdOutcome(-1, d, t)
      else
        && o.ret >= 0 && o.ret !in t.open && (forall j | 0 <= j < o.ret :: j in t.open) && o.tab.shmFd == t.shmFd
        && (forall fd: nat :: fd in o.tab.open <==> fd in t.open || fd == o.ret)
        && (forall fd | fd in t.open :: o.tab.open[fd] == t.open[fd])
        && path in o.dir.names && o.tab.open[o.ret] == o.dir.names[path]
        && (path in d.names ==> o.dir == d)
        && (path !in d.names ==>
             && o.dir.names[path] == d.nextFile && o.dir.nextFile == d.nextFile + 1
             && (forall p :: p in o.dir.names <==> p in d.names || p == path)
             && forall p | p in d.names :: o.dir.names[p] == d.names[p])
  {}

  /** What close does: the number is free afterwards, so that a second close fails; all others are as before. */
  lemma CloseEffect(d: Dir, t: Tab, fd: int)
    ensures var o := LibcClose(d, t, fd);
      && o.dir == d && o.tab.shmFd == t.shmFd
      && (if fd >= 0 && fd in t.open then o.ret == 0 else o.ret == -1 && o.tab == t)
      && (forall x: nat :: x in o.tab.open <==> x in t.open && x != fd)
      && (forall x | x in o.tab.open :: o.tab.open[x] == t.open[x])
      && LibcClose(d, o.tab, fd).ret == -1
  {}

  /** All files that have a name or a descriptor have numbers below the next. */
  ghost predicate Numbered(d: Dir, t: Tab) {
    && (forall path | path in d.names :: d.names[path] < d.nextFile)
    && forall fd | fd in t.open :: t.open[fd] < d.nextFile
  }

  /** Two opens of a name give two numbers for one file, the second of which must not be exclusive; if the name is
      removed in between, the second must create a file, and that is another one. */
  lemma OpenTwice(d: Dir, t: Tab, path: string, flags: Flags, again: Flags)
    requires Numbered(d, t) && !Refused(d, path, flags)
    ensures var o := LibcOpen(d, t, path, flags);
      && Numbered(o.dir, o.tab)
      && (var p := LibcOpen(o.dir, o.tab, path, again);
          if again.creat && again.excl then p == FdOutcome(-1, o.dir, o.tab)
          else p.dir == o.dir && 0 <= p.ret != o.ret && p.tab.open[p.ret] == o.tab.open[o.ret])
      && (var u := o.dir.(names := o.dir.names - {path});
          var p := LibcOpen(u, o.tab, path, again);
          if again.creat then 0 <= p.ret != o.ret && p.tab.open[p.ret] != o.tab.open[o.ret] else p.ret == -1)
  {
    hide LibcOpen;
    OpenEffect(d, t, path, flags);
    var o := LibcOpen(d, t, path, flags);
    OpenEffect(o.dir, o.tab, path, again);
    OpenEffect(o.dir.(names := o.dir.names - {path}), o.tab, path, again);
  }

  // ----- The wrappers

  datatype Op =
    | Open(path: string, flags: Flags)
    | Close(fd: int)
    // read and write: they use the shared area, but open and close nothing
    | Transfer(ret: int)
    | Unlink(path: string)

  /** What the master does in the master barrier, or any replica after the check barrier of close. */
  function FirstPart(d: Dir, t: Tab, op: Op): FdOutcome {
    match op
    case Open(path, flags) => LibcOpen(d, OpenShm(t), path, flags)
    case Close(fd) => LibcClose(d, t, fd)
    case Transfer(ret) => FdOutcome(ret, d, OpenShm(t))
    case Unlink(path) => if path in d.names then FdOutcome(0, d.(names := d.names - {path}), OpenShm(t))
      else FdOutcome(-1, d, OpenShm(t))
  }

  /** What a slave does after the master has returned `ret`. */
  function SlavePart(d: Dir, t: Tab, op: Op, ret: int): FdOutcome {
    match op
    case Open(path, flags) =>
      if ret < 0 then FdOutcome(ret, d, OpenShm(t)) else LibcOpen(d, OpenShm(t), path, flags.(excl := false))
    case Close(fd) => LibcClose(d, t, fd)
    case _ => FdOutcome(ret, d, OpenShm(t))
  }

  /** Wherever the master's call succeeds - also when its open has just created the file exclusively - a slave's part
      succeeds, creates nothing, and leads to the same table, number by number. */
  lemma SlaveFollows(d: Dir, t: Tab, op: Op)
    ensures var m := FirstPart(d, t, op);
      SlavePart(if op.Close? then d else m.dir, t, op, m.ret) == m
  {
    var u := OpenShm(t);
    match op
    case Open(path, flags) =>
      if path !in d.names && flags.creat {
        var fd := Lowest(u.open.Keys, 0);
        assert LibcOpen(d, u, path, flags).dir.names[path] == d.nextFile;
      }
    case _ =>
  }

  /** What unlink does to the directory, whoever calls it: the name is gone, and all others are as before. */
  lemma UnlinkNames(d: Dir, t: Tab, path: string)
    ensures var o := FirstPart(d, t, Unlink(path));
      && (o.ret == if path in d.names then 0 else -1) && o.dir.nextFile == d.nextFile
      && (forall p :: p in o.dir.names <==> p in d.names && p != path)
      && forall p | p in o.dir.names :: o.dir.names[p] == d.names[p]
  {}

  /** Every call but close leaves the process with a descriptor for the shared area, the one that it had if it had one;
      no call gives it up, and close does not ask for it. */
  lemma AreaOpened(d: Dir, t: Tab, op: Op, ret: int)
    ensures var m, r := FirstPart(d, t, op).tab, SlavePart(d, t, op, ret).tab;
      && m.shmFd == r.shmFd
      && (t.shmFd != -1 || op.Close? ==> m.shmFd == t.shmFd)
      && (t.shmFd == -1 && !op.Close? ==>
           && m.shmFd >= 0 && m.shmFd !in t.open && (forall j | 0 <= j < m.shmFd :: j in t.open)
           && m.shmFd in m.open && m.open[m.shmFd] == SHM_FILE)
  {}

  /** masterAct of commonOpen without the empty copy at its head: the shared area would be opened after the file. */
  function FileFirst(d: Dir, t: Tab, path: string, flags: Flags): FdOutcome {
    var o := LibcOpen(d, t, path, flags);
    o.(tab := OpenShm(o.tab))
  }

  /** Why the master opens the shared area first: otherwise its first successful open would return another number than
      a slave's, which has to open the shared area before it can learn the outcome. */
  lemma ShmMustComeFirst(d: Dir, t: Tab, path: string, flags: Flags)
    requires FileFirst(d, t, path, flags).ret >= 0
    ensures var m := FileFirst(d, t, path, flags);
      SlavePart(m.dir, t, Open(path, flags), m.ret).ret == m.ret <==> t.shmFd != -1
  {
    var m := FileFirst(d, t, path, flags);
    assert path in m.dir.names;
    if t.shmFd == -1 {
      assert m.ret in OpenShm(t).open.Keys;
    }
  }

  // ----- Runs

  // A call is in progress in the replicas of `pending`; `before` is their common table before it, and `done` is
  // the outcome of the replicas that have finished it
  datatype Sys = Sys(dir: Dir, tabs: seq<Tab>, op: Op, pending: set<nat>, before: Tab, done: FdOutcome, rets: seq<int>)

  datatype Step =
    // All replicas have passed the vote on a call; the master acts. In close nobody waits for the master
    | Begin(op: Op)
    // A replica finishes the call
    | Finish(i: nat)
    // A fork of the process in slot parent, which is at the vote barrier, replaces the one in slot i: that is there too
    // and is outvoted, or the watchdog finds that it alone is still inside the last call
    | Replace(i: nat, parent: nat)

  function Slots(n: nat): (r: set<nat>)
    ensures forall i: int :: i in r <==> 0 <= i < n
  {
    if n == 0 then {} else Slots(n - 1) + {n - 1}
  }

  ghost predicate Enabled(s: Sys, step: Step) {
    match step
    case Begin(_) => s.pending == {} && |s.tabs| > 0 && |s.rets| == |s.tabs|
    case Finish(i) => i in s.pending && i < |s.tabs| && |s.rets| == |s.tabs|
    case Replace(i, parent) =>
      && i < |s.tabs| && parent < |s.tabs| && |s.rets| == |s.tabs|
      && (s.pending == {} || (s.pending == {i} && parent != i))
  }

  ghost function Apply(s: Sys, step: Step): Sys
    requires Enabled(s, step)
  {
    match step
    case Begin(op) =>
      var all := Slots(|s.tabs|);
      var m := FirstPart(s.dir, s.tabs[0], op);
      if op.Close? then s.(op := op, pending := all, before := s.tabs[0], done := m)
      else Sys(m.dir, s.tabs[0 := m.tab], op, all - {0}, s.tabs[0], m, s.rets[0 := m.ret])
    case Finish(i) =>
      var r := SlavePart(s.dir, s.tabs[i], s.op, s.done.ret);
      s.(dir := r.dir, tabs := s.tabs[i := r.tab], pending := s.pending - {i}, rets := s.rets[i := r.ret])
    case Replace(i, parent) => s.(tabs := s.tabs[i := s.tabs[parent]], pending := {},
      rets := s.rets[i := s.rets[parent]])
  }

  ghost predicate Agree(tabs: seq<Tab>) {
    forall i, j | 0 <= i < |tabs| && 0 <= j < |tabs| :: tabs[i] == tabs[j]
  }

  ghost predicate Inv(s: Sys) {
    && |s.tabs| > 0 && |s.rets| == |s.tabs|
    && (s.pending == {} ==> Agree(s.tabs))
    && (s.pending != {} ==>
         && SlavePart(s.dir, s.before, s.op, s.done.ret) == s.done && s.done.dir == s.dir
         && forall i | 0 <= i < |s.tabs| ::
              if i in s.pending then s.tabs[i] == s.before else s.tabs[i] == s.done.tab && s.rets[i] == s.done.ret)
  }

  lemma StepInv(s: Sys, step: Step)
    requires Inv(s) && Enabled(s, step)
    ensures Inv(Apply(s, step))
  {
    match step
    case Begin(op) =>
      SlaveFollows(s.dir, s.tabs[0], op);
      var t := Apply(s, step);
      forall i | 0 <= i < |t.tabs|
        ensures if i in t.pending then t.tabs[i] == t.before else t.tabs[i] == t.done.tab && t.rets[i] == t.done.ret
      {
        assert s.tabs[i] == s.tabs[0];
      }
    case Finish(i) =>
      var t := Apply(s, step);
      if t.pending == {} {
        forall j | 0 <= j < |t.tabs| ensures t.tabs[j] == s.done.tab {
          assert j in s.pending ==> j in t.pending || j == i;
        }
      }
    case Replace(i, parent) =>
  }

  ghost predicate IsRun(run: seq<Sys>, steps: seq<Step>) {
    && |run| == |steps| + 1 && |run[0].tabs| > 0 && |run[0].rets| == |run[0].tabs| && run[0].pending == {}
         && Agree(run[0].tabs)
    && forall k | 0 <= k < |steps| :: Enabled(run[k], steps[k]) && run[k + 1] == Apply(run[k], steps[k])
  }

  lemma {:induction false} RunInv(run: seq<Sys>, steps: seq<Step>, k: nat)
    requires IsRun(run, steps) && k < |run|
    ensures Inv(run[k])
  {
    if k > 0 {
      RunInv(run, steps, k - 1);
      StepInv(run[k - 1], steps[k - 1]);
    }
  }

  /** Whenever all replicas are back at a vote barrier their tables are the same: the same numbers open on the same
      files, and the same number for the shared area. */
  lemma TablesAgree(run: seq<Sys>, steps: seq<Step>, k: nat)
    requires IsRun(run, steps) && k < |run| && run[k].pending == {}
    ensures Agree(run[k].tabs)
  {
    RunInv(run, steps, k);
  }

  /** A replica that finishes a call, or replaces one that has not, returns what the first one returned, and changes the
      directory no further: a file is created once. */
  lemma OneCreation(run: seq<Sys>, steps: seq<Step>, k: nat)
    requires IsRun(run, steps) && k < |steps| && (steps[k].Finish? || (steps[k].Replace? && run[k].pending != {}))
    ensures run[k + 1].rets[steps[k].i] == run[k].done.ret
    ensures run[k + 1].dir == run[k].dir
  {
    RunInv(run, steps, k);
  }

  /** The calls that the steps make. */
  ghost function Ops(steps: seq<Step>): seq<Op> {
    if steps == [] then []
    else
      var last := steps[|steps| - 1];
      Ops(steps[..|steps| - 1]) + if last.Begin? then [last.op] else []
  }

  /** One process that makes these calls with the wrappers of the master. */
  ghost function Master(d: Dir, t: Tab, ops: seq<Op>): FdOutcome {
    if ops == [] then FdOutcome(0, d, t)
    else
      var o := Master(d, t, ops[..|ops| - 1]);
      FirstPart(o.dir, o.tab, ops[|ops| - 1])
  }

  ghost predicate Follows(s: Sys, o: FdOutcome) {
    s.dir == o.dir && if s.pending == {} then forall i | 0 <= i < |s.tabs| :: s.tabs[i] == o.tab else s.done == o
  }

  /** At all times the directory is the one that the master alone would have left; whenever all replicas are back at a
      vote barrier each has the master's table, and in between the calls have the master's result. */
  lemma {:induction false} LooksLikeMaster(run: seq<Sys>, steps: seq<Step>, k: nat)
    requires IsRun(run, steps) && k < |run|
    ensures Follows(run[k], Master(run[0].dir, run[0].tabs[0], Ops(steps[..k])))
  {
    if k == 0 {
      assert steps[..0] == [];
    } else {
      LooksLikeMaster(run, steps, k - 1);
      RunInv(run, steps, k - 1);
      RunInv(run, steps, k);
      assert steps[..k][..k - 1] == steps[..k - 1];
      var ops, step := Ops(steps[..k - 1]), steps[k - 1];
      if step.Begin? {
        assert (ops + [step.op])[..|ops|] == ops;
      }
      StepFollows(run[k - 1], step, Master(run[0].dir, run[0].tabs[0], ops));
      assert Ops(steps[..k]) == if step.Begin? then ops + [step.op] else ops;
    }
  }

  lemma StepFollows(s: Sys, step: Step, o: FdOutcome)
    requires Inv(s) && Enabled(s, step) && Inv(Apply(s, step)) && Follows(s, o)
    ensures Follows(Apply(s, step), if step.Begin? then FirstPart(o.dir, o.tab, step.op) else o)
  {
    hide LibcOpen, OpenShm;
    var t := Apply(s, step);
    match step
    case Begin(op) =>
      assert s.tabs[0] == o.tab;
      assert op.Close? ==> 0 in t.pending;
      assert |t.tabs| > 1 ==> 1 in t.pending;
    case Finish(i) =>
      assert s.tabs[i] == s.before && t.tabs[i] == o.tab;
    case Replace(i, parent) =>
  }

  // ----- The code

  class Process {
    var open: map<nat, nat>
    var shmFd: int

    ghost function Abs(): Tab
      reads this
    {
      Tab(open, shmFd)
    }

    constructor (t: Tab)
      ensures Abs() == t
    {
      open, shmFd := t.open, t.shmFd;
    }

    /** Opens the shared area's descriptor if this process has none yet. */
    method EnsureShmFd()
      modifies this
      ensures Abs() == OpenShm(old(Abs()))
    {
      if shmFd == -1 {
        shmFd := Lowest(open.Keys, 0);
        open := open[shmFd := SHM_FILE];
      }
    }

    method Libc(dir: Directory, path: string, flags: Flags) returns (ret: int)
      modifies this, dir
      ensures LibcOpen(old(dir.Abs()), old(Abs()), path, flags) == FdOutcome(ret, dir.Abs(), Abs())
    {
      if path in dir.names {
        if flags.creat && flags.excl {
          return -1;
        }
      } else if flags.creat {
        dir.names := dir.names[path := dir.nextFile];
        dir.nextFile := dir.nextFile + 1;
      } else {
        return -1;
      }
      ret := Lowest(open.Keys, 0);
      open := open[ret := dir.names[path]];
    }

    /** masterAct of commonOpen: the shared area's descriptor comes first. */
    method MasterOpen(dir: Directory, path: string, flags: Flags) returns (ret: int)
      modifies this, dir
      ensures FirstPart(old(dir.Abs()), old(Abs()), Open(path, flags)) == FdOutcome(ret, dir.Abs(), Abs())
    {
      EnsureShmFd();
      ret := Libc(dir, path, flags);
    }

    /** The slave's part of commonOpen: copying the master's result opens the shared area's descriptor first. */
    method SlaveOpen(dir: Directory, path: string, flags: Flags, masterRet: int) returns (ret: int)
      modifies this, dir
      ensures SlavePart(old(dir.Abs()), old(Abs()), Open(path, flags), masterRet) == FdOutcome(ret, dir.Abs(), Abs())
    {
      EnsureShmFd();
      if masterRet < 0 {
        ret := masterRet;
      } else {
        ret := Libc(dir, path, flags.(excl := false));
      }
    }

    /** The part of close after the check barrier. */
    method CloseFd(fd: int) returns (ret: int)
      modifies this
      ensures forall d :: LibcClose(d, old(Abs()), fd) == FdOutcome(ret, d, Abs())
    {
      if fd >= 0 && fd in open {
        open := open - {fd};
        ret := 0;
      } else {
        ret := -1;
      }
    }
  }

  class Directory {
    var names: map<string, nat>
    var nextFile: nat

    ghost function Abs(): Dir
      reads this
    {
      Dir(names, nextFile)
    }

    constructor (d: Dir)
      ensures Abs() == d
    {
      names, nextFile := d.names, d.nextFile;
    }
  }
}
