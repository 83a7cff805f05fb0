/** Descriptors as an unreplicated process would see them. PLR keeps one descriptor for its shared area, so that numbers
    may differ from those of a process without PLR; files, directory and the success of calls do not. */
module FdNumbers {
  import opened FdTable

  // ----- The program, whose descriptors are whatever its calls of open have returned

  datatype Request =
    | OpenFile(path: string, flags: Flags)
    // Closes the descriptor that came with handle h
    | CloseHandle(h: nat)
    | Move(ret: int)
    | Remove(path: string)

  // What a process has got: handle h stands for descriptor handles[h], and those in `live` are open
  datatype Holder = Holder(dir: Dir, tab: Tab, handles: seq<int>, live: set<nat>, ret: int)

  function ToOp(handles: seq<int>, r: Request): Op {
    match r
    case OpenFile(path, flags) => Open(path, flags)
    case CloseHandle(h) => Close(if h < |handles| then handles[h] else -1)
    case Move(ret) => Transfer(ret)
    case Remove(path) => Unlink(path)
  }

  /** A call of a process without PLR: the system call itself. */
  function Plain(d: Dir, t: Tab, op: Op): FdOutcome {
    match op
    case Open(path, flags) => LibcOpen(d, t, path, flags)
    case Close(fd) => LibcClose(d, t, fd)
    case Transfer(ret) => FdOutcome(ret, d, t)
    case Unlink(path) => if path in d.names then FdOutcome(0, d.(names := d.names - {path}), t) else FdOutcome(-1, d, t)
  }

  function Next(p: Holder, r: Request, o: FdOutcome): Holder {
    Holder(o.dir, o.tab, if r.OpenFile? then p.handles + [o.ret] else p.handles,
           match r
           case OpenFile(_, _) => if o.ret >= 0 then p.live + {|p.handles|} else p.live
           case CloseHandle(h) => Kept(p, h)
           case _ => p.live,
           o.ret)
  }

  /** The live handles whose descriptors are left when that of handle h is closed; h need not be live itself. */
  function Kept(p: Holder, h: nat): set<nat> {
    set g | g in p.live && !SameNumber(p, g, h)
  }

  predicate SameNumber(p: Holder, g: nat, h: nat) {
    g < |p.handles| && h < |p.handles| && p.handles[g] == p.handles[h]
  }

  /** The master's wrappers, and the process without PLR, after the same requests. */
  ghost function Replica(p: Holder, rs: seq<Request>): Holder {
    if rs == [] then p
    else
      var q := Replica(p, rs[..|rs| - 1]);
      var r := rs[|rs| - 1];
      Next(q, r, FirstPart(q.dir, q.tab, ToOp(q.handles, r)))
  }

  ghost function Unreplicated(p: Holder, rs: seq<Request>): Holder {
    if rs == [] then p
    else
      var q := Unreplicated(p, rs[..|rs| - 1]);
      var r := rs[|rs| - 1];
      Next(q, r, Plain(q.dir, q.tab, ToOp(q.handles, r)))
  }

  // ----- The two compared

  /** Handle h stands for an open descriptor of the program. */
  ghost predicate Stands(p: Holder, h: nat) {
    h < |p.handles| && p.handles[h] >= 0 && p.handles[h] in p.tab.open && p.handles[h] != p.tab.shmFd
  }

  ghost predicate Named(p: Holder, fd: int) {
    exists h :: h in p.live && h < |p.handles| && p.handles[h] == fd
  }

  /** The live handles are distinct descriptors, and all that is open besides the shared area. */
  ghost predicate Holds(p: Holder) {
    && (forall h | h in p.live :: Stands(p, h))
    && (forall g, h | g in p.live && h in p.live && g != h :: p.handles[g] != p.handles[h])
    && (forall fd | fd in p.tab.open :: fd == p.tab.shmFd || Named(p, fd))
    && (p.tab.shmFd == -1 || (p.tab.shmFd >= 0 && p.tab.shmFd in p.tab.open))
  }

  /** The file behind a live handle. */
  ghost function FileOf(p: Holder, h: nat): nat
    requires Stands(p, h)
  {
    var fd: nat := p.handles[h];
    p.tab.open[fd]
  }

  /** The tables are equal up to the numbers: the same handles are live, and stand for the same files. */
  ghost predicate Alike(p: Holder, q: Holder) {
    && p.dir == q.dir && p.live == q.live && |p.handles| == |q.handles| && Holds(p) && Holds(q) && q.tab.shmFd == -1
    && forall h | h in p.live :: FileOf(p, h) == FileOf(q, h)
  }

  /** What the two calls return: the same, or two descriptors. */
  ghost predicate SameResult(r: Request, a: int, b: int) {
    if r.OpenFile? then (a >= 0 <==> b >= 0) && (a < 0 ==> a == b) else a == b
  }

  // ----- One request, in one process

  /** A new descriptor. */
  function Added(p: Holder, d: Dir, fd: nat, file: nat): Holder {
    Holder(d, p.tab.(open := p.tab.open[fd := file]), p.handles + [fd], p.live + {|p.handles|}, fd)
  }

  lemma AddedHolds(p: Holder, d: Dir, fd: nat, file: nat)
    requires Holds(p) && fd !in p.tab.open
    ensures var n := Added(p, d, fd, file);
      && Holds(n) && FileOf(n, |p.handles|) == file
      && forall h | h in p.live :: Stands(n, h) && FileOf(n, h) == FileOf(p, h)
  {
    var n := Added(p, d, fd, file);
    assert n.handles[|p.handles|] == fd;
    forall h | h in p.live ensures Stands(n, h) && FileOf(n, h) == FileOf(p, h) {
      assert Stands(p, h) && n.handles[h] == p.handles[h];
    }
    forall x | x in n.tab.open ensures x == n.tab.shmFd || Named(n, x) {
      if x == fd {
        assert n.handles[|p.handles|] == x;
      } else if x != p.tab.shmFd {
        assert Named(p, x);
        var h :| h in p.live && h < |p.handles| && p.handles[h] == x;
        assert h in n.live && n.handles[h] == x;
      }
    }
  }

  /** No new descriptor. */
  function Failed(p: Holder, d: Dir, ret: int): Holder {
    Holder(d, p.tab, p.handles + [ret], p.live, ret)
  }

  lemma FailedHolds(p: Holder, d: Dir, ret: int)
    requires Holds(p)
    ensures var n := Failed(p, d, ret);
      Holds(n) && forall h | h in p.live :: Stands(n, h) && FileOf(n, h) == FileOf(p, h)
  {
    var n := Failed(p, d, ret);
    forall h | h in p.live ensures Stands(n, h) && FileOf(n, h) == FileOf(p, h) {
      assert Stands(p, h) && n.handles[h] == p.handles[h];
    }
    forall x | x in n.tab.open ensures x == n.tab.shmFd || Named(n, x) {
      if x != p.tab.shmFd {
        assert Named(p, x);
        var h :| h in p.live && h < |p.handles| && p.handles[h] == x;
        assert n.handles[h] == x;
      }
    }
  }

  /** What close does to a holder. */
  function Closed(p: Holder, h: nat): Holder
    requires h < |p.handles|
  {
    Next(p, CloseHandle(h), LibcClose(p.dir, p.tab, p.handles[h]))
  }

  /** Not the shared area's number. */
  predicate Spares(p: Holder, h: nat)
    requires h < |p.handles|
  {
    p.tab.shmFd == -1 || p.handles[h] != p.tab.shmFd
  }

  /** A number that is not the shared area's is open if and only if a live handle has it. */
  lemma OpenMeansLive(p: Holder, h: nat)
    requires Holds(p) && h < |p.handles| && Spares(p, h)
    ensures Closed(p, h).ret == 0 <==> exists g :: g in p.live && SameNumber(p, g, h)
  {
    var fd := p.handles[h];
    if fd >= 0 && fd in p.tab.open {
      assert Named(p, fd);
      var g :| g in p.live && g < |p.handles| && p.handles[g] == fd;
      assert SameNumber(p, g, h);
    }
    if g :| g in p.live && SameNumber(p, g, h) {
      assert Stands(p, g);
    }
  }

  /** Closing it, through whichever handle, leaves the others as they are. */
  lemma ClosedHolds(p: Holder, h: nat)
    requires Holds(p) && h < |p.handles| && Spares(p, h)
    ensures var n := Closed(p, h);
      && n.dir == p.dir && n.handles == p.handles && n.tab.shmFd == p.tab.shmFd && n.live == Kept(p, h)
      && Holds(n) && forall g | g in n.live :: Stands(p, g) && Stands(n, g) && FileOf(n, g) == FileOf(p, g)
  {
    var n := Closed(p, h);
    forall g | g in n.live ensures Stands(p, g) && Stands(n, g) && FileOf(n, g) == FileOf(p, g) {
      assert Stands(p, g) && !SameNumber(p, g, h);
    }
    forall x | x in n.tab.open ensures x == n.tab.shmFd || Named(n, x) {
      if x != p.tab.shmFd {
        assert Named(p, x);
        var g :| g in p.live && g < |p.handles| && p.handles[g] == x;
        assert g in n.live;
      }
    }
  }

  lemma ShmHolds(p: Holder)
    requires Holds(p)
    ensures var n := p.(tab := OpenShm(p.tab));
      Holds(n) && forall h | h in p.live :: Stands(n, h) && FileOf(n, h) == FileOf(p, h)
  {
    var n := p.(tab := OpenShm(p.tab));
    forall h | h in p.live ensures Stands(n, h) && FileOf(n, h) == FileOf(p, h) {
      assert Stands(p, h);
    }
    forall x | x in n.tab.open ensures x == n.tab.shmFd || Named(n, x) {
      if x != n.tab.shmFd {
        assert Named(p, x);
        var h :| h in p.live && h < |p.handles| && p.handles[h] == x;
      }
    }
  }

  // ----- One request, in both

  /** The file that open finds or creates. */
  function FileFor(d: Dir, path: string): nat {
    if path in d.names then d.names[path] else d.nextFile
  }

  predicate Opens(d: Dir, path: string, flags: Flags) {
    if path in d.names then !(flags.creat && flags.excl) else flags.creat
  }

  function DirAfter(d: Dir, path: string, flags: Flags): Dir {
    if path !in d.names && flags.creat then Dir(d.names[path := d.nextFile], d.nextFile + 1) else d
  }

  lemma OpenNext(p: Holder, path: string, flags: Flags)
    ensures Next(p, OpenFile(path, flags), LibcOpen(p.dir, p.tab, path, flags)) ==
      if Opens(p.dir, path, flags)
      then Added(p, DirAfter(p.dir, path, flags), Lowest(p.tab.open.Keys, 0), FileFor(p.dir, path))
      else Failed(p, p.dir, -1)
  {}

  lemma OpenAlike(p: Holder, q: Holder, path: string, flags: Flags)
    requires Alike(p, q)
    ensures var r := OpenFile(path, flags);
      var o, u := LibcOpen(p.dir, p.tab, path, flags), LibcOpen(q.dir, q.tab, path, flags);
      Alike(Next(p, r, o), Next(q, r, u)) && SameResult(r, o.ret, u.ret)
  {
    OpenNext(p, path, flags);
    OpenNext(q, path, flags);
    hide Next, LibcOpen;
    if Opens(p.dir, path, flags) {
      AddedAlike(p, q, DirAfter(p.dir, path, flags), Lowest(p.tab.open.Keys, 0), Lowest(q.tab.open.Keys, 0),
        FileFor(p.dir, path));
    } else {
      FailedAlike(p, q, p.dir, -1);
    }
    hide Alike;
    OpenResult(p.dir, p.tab, path, flags);
    OpenResult(q.dir, q.tab, path, flags);
  }

  lemma OpenResult(d: Dir, t: Tab, path: string, flags: Flags)
    ensures LibcOpen(d, t, path, flags).ret == if Opens(d, path, flags) then Lowest(t.open.Keys, 0) else -1
  {}

  lemma AddedAlike(p: Holder, q: Holder, d: Dir, a: nat, b: nat, file: nat)
    requires Alike(p, q) && a !in p.tab.open && b !in q.tab.open
    ensures Alike(Added(p, d, a, file), Added(q, d, b, file))
  {
    AddedHolds(p, d, a, file);
    AddedHolds(q, d, b, file);
    hide Holds, Stands, FileOf;
  }

  lemma FailedAlike(p: Holder, q: Holder, d: Dir, ret: int)
    requires Alike(p, q)
    ensures Alike(Failed(p, d, ret), Failed(q, d, ret))
  {
    FailedHolds(p, d, ret);
    FailedHolds(q, d, ret);
    hide Holds, Stands, FileOf;
  }

  lemma ShmAlike(p: Holder, q: Holder)
    requires Alike(p, q)
    ensures Alike(p.(tab := OpenShm(p.tab)), q)
  {
    ShmHolds(p);
    hide Holds, OpenShm, Stands, FileOf;
  }

  /** A close does the same to both if the number is not the shared area's, and belongs to the same live handle in both,
      or to none. For a live handle this is so anyway; for one that has been closed before it need not be. */
  ghost predicate Harmless(p: Holder, q: Holder, r: Request) {
    r.CloseHandle? && r.h < |p.handles| ==>
      Spares(p, r.h) && forall g | g in p.live :: SameNumber(p, g, r.h) <==> SameNumber(q, g, r.h)
  }

  lemma LiveHarmless(p: Holder, q: Holder, h: nat)
    requires Alike(p, q) && h in p.live
    ensures Harmless(p, q, CloseHandle(h))
  {
    assert Stands(p, h) && Stands(q, h);
  }

  lemma CloseAlike(p: Holder, q: Holder, h: nat)
    requires Alike(p, q) && h < |p.handles| && Harmless(p, q, CloseHandle(h))
    ensures Alike(Closed(p, h), Closed(q, h)) && Closed(p, h).ret == Closed(q, h).ret
  {
    assert Spares(q, h);
    ClosedHolds(p, h);
    ClosedHolds(q, h);
    OpenMeansLive(p, h);
    OpenMeansLive(q, h);
    CloseRet(p, h);
    CloseRet(q, h);
    assert Kept(p, h) == Kept(q, h);
    hide Holds, Closed, Kept, SameNumber;
  }

  lemma CloseRet(p: Holder, h: nat)
    requires h < |p.handles|
    ensures Closed(p, h).ret == 0 || Closed(p, h).ret == -1
  {}

  /** Otherwise the two part company. */
  lemma CloseParts(p: Holder, q: Holder, h: nat)
    requires Alike(p, q) && h < |p.handles| && !Harmless(p, q, CloseHandle(h))
    ensures !Alike(Closed(p, h), Closed(q, h))
  {
    var n, v := Closed(p, h), Closed(q, h);
    if !Spares(p, h) {
      assert n.tab.shmFd !in n.tab.open;
    } else {
      var g :| g in p.live && SameNumber(p, g, h) != SameNumber(q, g, h);
      assert g in n.live <==> g !in v.live;
    }
  }

  /** A stale close by itself has the same result exactly if its number is open in both tables, or in neither. */
  lemma StaleResult(p: Holder, q: Holder, h: nat)
    requires h < |p.handles| && h < |q.handles|
    ensures Closed(p, h).ret == Closed(q, h).ret <==> (p.handles[h] in p.tab.open <==> q.handles[h] in q.tab.open)
  {}

  lemma DirHolds(p: Holder, d: Dir, ret: int)
    requires Holds(p)
    ensures var n := p.(dir := d, ret := ret);
      Holds(n) && forall h | h in p.live :: Stands(n, h) && FileOf(n, h) == FileOf(p, h)
  {
    var n := p.(dir := d, ret := ret);
    forall h | h in p.live ensures Stands(n, h) && FileOf(n, h) == FileOf(p, h) {
      assert Stands(p, h);
    }
    forall x | x in n.tab.open ensures x == n.tab.shmFd || Named(n, x) {
      assert Named(p, x) ==> Named(n, x);
    }
  }

  /** A call that changes the directory at most. */
  lemma DirAlike(p: Holder, q: Holder, d: Dir, ret: int)
    requires Alike(p, q)
    ensures Alike(p.(dir := d, ret := ret), q.(dir := d, ret := ret))
  {
    DirHolds(p, d, ret);
    DirHolds(q, d, ret);
    hide Holds, Stands, FileOf;
  }

  lemma MoveAlike(p: Holder, q: Holder, ret: int)
    requires Alike(p, q)
    ensures var r := Move(ret); var o, u := FirstPart(p.dir, p.tab, Transfer(ret)), Plain(q.dir, q.tab, Transfer(ret));
      Alike(Next(p, r, o), Next(q, r, u)) && o.ret == u.ret
  {
    assert p.dir == q.dir;
    hide Alike, OpenShm;
    ShmAlike(p, q);
    DirAlike(p.(tab := OpenShm(p.tab)), q, p.dir, ret);
  }

  lemma RemoveAlike(p: Holder, q: Holder, path: string)
    requires Alike(p, q)
    ensures var r := Remove(path); var o, u := FirstPart(p.dir, p.tab, Unlink(path)), Plain(q.dir, q.tab, Unlink(path));
      Alike(Next(p, r, o), Next(q, r, u)) && o.ret == u.ret
  {
    assert p.dir == q.dir;
    hide Alike, OpenShm;
    ShmAlike(p, q);
    var o := FirstPart(p.dir, p.tab, Unlink(path));
    DirAlike(p.(tab := OpenShm(p.tab)), q, o.dir, o.ret);
  }

  lemma OpenFileAlike(p: Holder, q: Holder, path: string, flags: Flags)
    requires Alike(p, q)
    ensures var r := OpenFile(path, flags);
      var o, u := FirstPart(p.dir, p.tab, Open(path, flags)), Plain(q.dir, q.tab, Open(path, flags));
      Alike(Next(p, r, o), Next(q, r, u)) && SameResult(r, o.ret, u.ret)
  {
    hide Alike, OpenShm, LibcOpen;
    ShmAlike(p, q);
    OpenAlike(p.(tab := OpenShm(p.tab)), q, path, flags);
  }

  lemma CloseNothing(p: Holder, q: Holder, h: nat)
    requires Alike(p, q) && h >= |p.handles|
    ensures var r := CloseHandle(h);
      var o, u := Plain(p.dir, p.tab, ToOp(p.handles, r)), Plain(q.dir, q.tab, ToOp(q.handles, r));
      Alike(Next(p, r, o), Next(q, r, u)) && o.ret == u.ret == -1
  {
    assert p.dir == q.dir && |p.handles| == |q.handles| && Kept(p, h) == p.live && Kept(q, h) == q.live;
    hide Alike, Kept;
    DirAlike(p, q, p.dir, -1);
  }

  lemma SameLength(p: Holder, q: Holder)
    requires Alike(p, q)
    ensures |p.handles| == |q.handles|
  {}

  lemma CloseIff(p: Holder, q: Holder, h: nat)
    requires Alike(p, q)
    ensures var r := CloseHandle(h);
      var o, u := FirstPart(p.dir, p.tab, ToOp(p.handles, r)), Plain(q.dir, q.tab, ToOp(q.handles, r));
      Alike(Next(p, r, o), Next(q, r, u)) && SameResult(r, o.ret, u.ret) <==> Harmless(p, q, r)
  {
    SameLength(p, q);
    hide Alike, LibcClose;
    if h >= |p.handles| {
      CloseNothing(p, q, h);
    } else if Harmless(p, q, CloseHandle(h)) {
      CloseAlike(p, q, h);
    } else {
      CloseParts(p, q, h);
    }
  }

  /** Every request but a harmful close has the same result in both, and leads to tables that are equal up to the
      numbers; a harmful one does not. */
  lemma NextAlike(p: Holder, q: Holder, r: Request)
    requires Alike(p, q)
    ensures var o, u := FirstPart(p.dir, p.tab, ToOp(p.handles, r)), Plain(q.dir, q.tab, ToOp(q.handles, r));
      Alike(Next(p, r, o), Next(q, r, u)) && SameResult(r, o.ret, u.ret) <==> Harmless(p, q, r)
  {
    hide Alike, Next, OpenShm, LibcOpen;
    match r
    case OpenFile(path, flags) => OpenFileAlike(p, q, path, flags);
    case CloseHandle(h) => CloseIff(p, q, h);
    case Move(ret) => MoveAlike(p, q, ret);
    case Remove(path) => RemoveAlike(p, q, path);
  }

  // ----- Where the numbers are shifted by one

  lemma LowestIs(used: set<nat>, r: nat)
    requires r !in used && forall j: nat | j < r :: j in used
    ensures Lowest(used, 0) == r
  {}

  function Up(n: nat, shm: int): nat {
    if n < shm then n else n + 1
  }

  /** All numbers from that of the shared area on are one higher than without PLR. */
  ghost predicate Shifted(t: Tab, u: Tab) {
    && t.shmFd >= 0 && t.shmFd in t.open && u.shmFd == -1
    && forall n: nat :: (n in u.open <==> Up(n, t.shmFd) in t.open)
         && (n in u.open ==> u.open[n] == t.open[Up(n, t.shmFd)])
  }

  lemma LowestUp(t: Tab, u: Tab)
    requires Shifted(t, u)
    ensures Lowest(t.open.Keys, 0) == Up(Lowest(u.open.Keys, 0), t.shmFd)
  {
    var m := Lowest(u.open.Keys, 0);
    forall j: nat | j < Up(m, t.shmFd) ensures j in t.open.Keys {
      if j < t.shmFd {
        assert Up(j, t.shmFd) == j && j in u.open;
      } else if j > t.shmFd {
        assert Up(j - 1, t.shmFd) == j && j - 1 in u.open;
      }
    }
    LowestIs(t.open.Keys, Up(m, t.shmFd));
  }

  /** The program's call, with the number that the descriptor has in a replica. */
  function UpOp(op: Op, shm: int): Op {
    if op.Close? && op.fd >= 0 then Close(Up(op.fd, shm)) else op
  }

  /** One more descriptor, below the gap or above it. */
  lemma ShiftAdded(t: Tab, u: Tab, n: nat, file: nat)
    requires Shifted(t, u)
    ensures Shifted(t.(open := t.open[Up(n, t.shmFd) := file]), u.(open := u.open[n := file]))
  {}

  /** One descriptor less. */
  lemma ShiftDropped(t: Tab, u: Tab, n: nat)
    requires Shifted(t, u)
    ensures Shifted(t.(open := t.open - {Up(n, t.shmFd)}), u.(open := u.open - {n}))
  {}

  lemma ShiftOpen(d: Dir, t: Tab, u: Tab, path: string, flags: Flags)
    requires Shifted(t, u)
    ensures var o, v := LibcOpen(d, t, path, flags), LibcOpen(d, u, path, flags);
      && o.dir == v.dir && o.tab.shmFd == t.shmFd && Shifted(o.tab, v.tab)
      && (if v.ret >= 0 then o.ret == Up(v.ret, t.shmFd) else o.ret == v.ret)
  {
    hide Shifted, Lowest;
    LowestUp(t, u);
    var m := Lowest(u.open.Keys, 0);
    if path in d.names {
      ShiftAdded(t, u, m, d.names[path]);
    } else {
      ShiftAdded(t, u, m, d.nextFile);
    }
  }

  lemma ShiftClose(d: Dir, t: Tab, u: Tab, fd: int)
    requires Shifted(t, u)
    ensures var o, v := LibcClose(d, t, if fd >= 0 then Up(fd, t.shmFd) else fd), LibcClose(d, u, fd);
      o.dir == v.dir && o.tab.shmFd == t.shmFd && Shifted(o.tab, v.tab) && o.ret == v.ret
  {
    if fd >= 0 {
      assert fd in u.open <==> Up(fd, t.shmFd) in t.open;
      hide Shifted;
      ShiftDropped(t, u, fd);
    }
  }

  /** The shift lasts, and a returned number is the unreplicated one if and only if it is below the shared area's. */
  lemma ShiftLasts(d: Dir, t: Tab, u: Tab, op: Op)
    requires Shifted(t, u)
    ensures var o, v := FirstPart(d, t, UpOp(op, t.shmFd)), Plain(d, u, op);
      && o.dir == v.dir && o.tab.shmFd == t.shmFd && Shifted(o.tab, v.tab)
      && (if op.Open? && v.ret >= 0 then o.ret == Up(v.ret, t.shmFd)
           && (o.ret == v.ret <==> v.ret < t.shmFd) else o.ret == v.ret)
  {
    assert t.shmFd >= 0 && OpenShm(t) == t;
    hide Shifted, LibcOpen, LibcClose;
    match op
    case Open(path, flags) => ShiftOpen(d, t, u, path, flags);
    case Close(fd) => ShiftClose(d, t, u, fd);
    case _ =>
  }

  /** It begins when the shared area is opened - if and only if no higher number is open then. */
  lemma ShiftBegins(t: Tab)
    requires t.shmFd == -1
    ensures Shifted(OpenShm(t), t) <==> forall n | n in t.open :: n < Lowest(t.open.Keys, 0)
  {
    var s := Lowest(t.open.Keys, 0);
    var o := OpenShm(t);
    if n :| n in t.open && n >= s {
      ShiftGap(t, n);
    } else {
      forall n: nat ensures (n in t.open <==> Up(n, s) in o.open) && (n in t.open ==> t.open[n] == o.open[Up(n, s)]) {
        if n >= s {
          assert n !in t.open && n + 1 !in t.open;
        }
      }
    }
  }

  /** Numbers above a gap would have to move up without end. */
  lemma {:induction false} ShiftGap(t: Tab, n: nat)
    requires t.shmFd == -1 && n in t.open && n >= Lowest(t.open.Keys, 0)
    ensures !Shifted(OpenShm(t), t)
    decreases |set x | x in t.open.Keys && x >= n|
  {
    var s := Lowest(t.open.Keys, 0);
    if n + 1 in t.open {
      assert (set x | x in t.open.Keys && x >= n + 1) == (set x | x in t.open.Keys && x >= n) - {n};
      ShiftGap(t, n + 1);
    } else {
      assert Up(n, s) == n + 1;
    }
  }

  /** The number of a handle with PLR. */
  function UpFd(fd: int, shm: nat): int {
    if fd >= 0 then Up(fd, shm) else fd
  }

  /** Tables and handles are shifted: no handle, not even one that has been closed, has the shared area's number. */
  ghost predicate HandlesUp(p: Holder, q: Holder) {
    && p.dir == q.dir && p.live == q.live && |p.handles| == |q.handles| && Shifted(p.tab, q.tab)
    && forall h | 0 <= h < |p.handles| :: p.handles[h] == UpFd(q.handles[h], p.tab.shmFd)
  }

  /** Then every request, whatever it closes and however often, has the same result in both, and leads to the same. */
  lemma NextUp(p: Holder, q: Holder, r: Request)
    requires HandlesUp(p, q)
    ensures var o, u := FirstPart(p.dir, p.tab, ToOp(p.handles, r)), Plain(q.dir, q.tab, ToOp(q.handles, r));
      HandlesUp(Next(p, r, o), Next(q, r, u)) && SameResult(r, o.ret, u.ret)
  {
    var op := ToOp(q.handles, r);
    assert ToOp(p.handles, r) == UpOp(op, p.tab.shmFd);
    ShiftLasts(p.dir, p.tab, q.tab, op);
    assert forall h: nat :: Kept(p, h) == Kept(q, h);
    hide Shifted, FirstPart, Plain, Kept;
  }

  lemma UpHarmless(p: Holder, q: Holder, r: Request)
    requires HandlesUp(p, q)
    ensures Harmless(p, q, r)
  {}

  /** It begins when the shared area is opened - if and only if neither open numbers nor handles are higher. */
  lemma HandlesUpBegins(p: Holder)
    requires p.tab.shmFd == -1
    ensures HandlesUp(p.(tab := OpenShm(p.tab)), p) <==>
      var s := Lowest(p.tab.open.Keys, 0);
      (forall n | n in p.tab.open :: n < s) && forall h | 0 <= h < |p.handles| :: p.handles[h] < s
  {
    ShiftBegins(p.tab);
    hide Shifted;
    var s := Lowest(p.tab.open.Keys, 0);
    if HandlesUp(p.(tab := OpenShm(p.tab)), p) {
      forall h | 0 <= h < |p.handles| ensures p.handles[h] < s {
        assert p.handles[h] == UpFd(p.handles[h], s);
      }
    }
  }

  // ----- Whole runs

  /** The program closes nothing harmful. In particular, once HandlesUp holds, it may close anything, and as often as it
      likes. */
  ghost predicate Careful(p: Holder, rs: seq<Request>) {
    rs == [] ||
    var r, u := Replica(p, rs[..|rs| - 1]), Unreplicated(p, rs[..|rs| - 1]);
    Careful(p, rs[..|rs| - 1]) && Harmless(r, u, rs[|rs| - 1])
  }

  /** From a state in which tables and handles are shifted on, every program is careful. */
  lemma {:induction false} UpCareful(p: Holder, rs: seq<Request>, n: nat)
    requires n <= |rs| && Careful(p, rs[..n]) && HandlesUp(Replica(p, rs[..n]), Unreplicated(p, rs[..n]))
    ensures Careful(p, rs) && HandlesUp(Replica(p, rs), Unreplicated(p, rs))
    decreases |rs|
  {
    hide HandlesUp, Next, FirstPart, Plain, Harmless;
    if n == |rs| {
      assert rs[..n] == rs;
    } else {
      var most := rs[..|rs| - 1];
      assert most[..n] == rs[..n];
      UpCareful(p, most, n);
      UpHarmless(Replica(p, most), Unreplicated(p, most), rs[|rs| - 1]);
      NextUp(Replica(p, most), Unreplicated(p, most), rs[|rs| - 1]);
    }
  }

  lemma {:induction false} RunAlike(p: Holder, rs: seq<Request>)
    requires Holds(p) && p.tab.shmFd == -1 && Careful(p, rs)
    ensures var r, u := Replica(p, rs), Unreplicated(p, rs);
      Alike(r, u) && (rs != [] ==> SameResult(rs[|rs| - 1], r.ret, u.ret))
  {
    if rs != [] {
      RunAlike(p, rs[..|rs| - 1]);
      hide Alike, Harmless, Next, FirstPart, Plain;
      var q, v, last := Replica(p, rs[..|rs| - 1]), Unreplicated(p, rs[..|rs| - 1]), rs[|rs| - 1];
      NextAlike(q, v, last);
      NextRet(q, v, last);
    }
  }

  lemma NextRet(p: Holder, q: Holder, r: Request)
    ensures forall o :: Next(p, r, o).ret == o.ret && Next(q, r, o).ret == o.ret
  {}

  /** The calls that the replicas make for the requests of the program. */
  ghost function OpsOf(p: Holder, rs: seq<Request>): seq<Op> {
    if rs == [] then [] else OpsOf(p, rs[..|rs| - 1]) + [ToOp(Replica(p, rs[..|rs| - 1]).handles, rs[|rs| - 1])]
  }

  lemma {:induction false} ReplicaIsMaster(p: Holder, rs: seq<Request>)
    requires p.ret == 0
    ensures var r := Replica(p, rs); Master(p.dir, p.tab, OpsOf(p, rs)) == FdOutcome(r.ret, r.dir, r.tab)
  {
    hide FirstPart;
    if rs != [] {
      ReplicaIsMaster(p, rs[..|rs| - 1]);
      var ops := OpsOf(p, rs);
      assert ops[..|ops| - 1] == OpsOf(p, rs[..|rs| - 1]);
    }
  }

  /** Three replicas that run a program look like one process without PLR that runs it: at all times the directory is
      the same; whenever all replicas are back at a vote barrier their tables are the unreplicated one up to the numbers
      of descriptors; and the last call has the same result, up to the number of a new descriptor. */
  lemma LooksLikeOneProcess(run: seq<Sys>, steps: seq<Step>, k: nat, p: Holder, rs: seq<Request>)
    requires IsRun(run, steps) && k < |run|
    requires p.dir == run[0].dir && p.tab == run[0].tabs[0] && p.tab.shmFd == -1 && p.ret == 0 && Holds(p)
    requires Careful(p, rs) && Ops(steps[..k]) == OpsOf(p, rs)
    ensures var r, u := Replica(p, rs), Unreplicated(p, rs);
      && run[k].dir == u.dir && Alike(r, u)
      && (if run[k].pending == {} then forall i | 0 <= i < |run[k].tabs| :: run[k].tabs[i] == r.tab
           else run[k].done.ret == r.ret)
      && (rs != [] ==> SameResult(rs[|rs| - 1], r.ret, u.ret))
  {
    LooksLikeMaster(run, steps, k);
    ReplicaIsMaster(p, rs);
    RunAlike(p, rs);
  }

  // ----- The numbers

  /** The table that the program would have without the shared area. */
  function WithoutShm(t: Tab): Tab {
    Tab(if t.shmFd >= 0 then t.open - {t.shmFd} else t.open, -1)
  }

  /** Whether a successful open returns the number that it would return without PLR: if and only if the shared area is
      open already and does not occupy that number. */
  lemma NumberIff(d: Dir, t: Tab, path: string, flags: Flags)
    requires t.shmFd == -1 || (t.shmFd >= 0 && t.shmFd in t.open)
    requires LibcOpen(d, WithoutShm(t), path, flags).ret >= 0
    ensures FirstPart(d, t, Open(path, flags)).ret == LibcOpen(d, WithoutShm(t), path, flags).ret
       <==> t.shmFd != -1 && t.shmFd != Lowest(WithoutShm(t).open.Keys, 0)
  {
    var m := Lowest(WithoutShm(t).open.Keys, 0);
    OpenResult(d, WithoutShm(t), path, flags);
    OpenResult(d, OpenShm(t), path, flags);
    if t.shmFd != -1 && t.shmFd != m {
      forall j: nat | j < m ensures j in t.open.Keys {
        assert j in WithoutShm(t).open.Keys;
      }
      assert m !in WithoutShm(t).open.Keys;
      LowestIs(t.open.Keys, m);
    } else {
      assert m in OpenShm(t).open.Keys;
    }
  }

  /** The input: the first file that a program opens, with nothing but its standard descriptors, gets number 4, not 3.
      */
  lemma FirstOpenInput()
    ensures var t := Tab(map[0 := 1, 1 := 2, 2 := 3], -1);
      var d := Dir(map["f" := 4], 5);
      var f := Flags(false, false);
      && Holds(Holder(d, t, [0, 1, 2], {0, 1, 2}, 0))
      && LibcOpen(d, t, "f", f).ret == 3 && FirstPart(d, t, Open("f", f)).ret == 4
  {
    var t := Tab(map[0 := 1, 1 := 2, 2 := 3], -1);
    LowestIs(t.open.Keys, 3);
    LowestIs(OpenShm(t).open.Keys, 4);
    var p := Holder(Dir(map["f" := 4], 5), t, [0, 1, 2], {0, 1, 2}, 0);
    forall fd | fd in t.open ensures Named(p, fd) {
      assert p.handles[fd] == fd;
    }
  }

  /** Closing a number that the program does not own makes a difference exactly if it is that of the shared area. */
  lemma ForeignClose(d: Dir, t: Tab, fd: int)
    requires t.shmFd >= 0 && t.shmFd in t.open
    ensures LibcClose(d, t, fd).ret == LibcClose(d, WithoutShm(t), fd).ret <==> fd != t.shmFd
  {}

  // ----- The descriptor of the shared area

  ghost predicate NamesArea(t: Tab) {
    t.shmFd >= 0 && t.shmFd in t.open && t.open[t.shmFd] == SHM_FILE
  }

  /** No path leads to the shared area. */
  ghost predicate Apart(d: Dir) {
    d.nextFile != SHM_FILE && forall path | path in d.names :: d.names[path] != SHM_FILE
  }

  /** After these calls, starting with table t, the number of the shared area has been closed. */
  ghost predicate AreaClosed(d: Dir, t: Tab, ops: seq<Op>) {
    ops != [] &&
    var u := Master(d, t, ops[..|ops| - 1]).tab;
    AreaClosed(d, t, ops[..|ops| - 1]) || (u.shmFd >= 0 && ops[|ops| - 1] == Close(u.shmFd))
  }

  /** The area is not open yet, or its number names it. */
  ghost predicate Sound(t: Tab) {
    t.shmFd == -1 || NamesArea(t)
  }

  /** One call: the number names the area until it is closed, and never again. */
  lemma NamesNext(d: Dir, t: Tab, op: Op)
    requires Apart(d) && t.shmFd >= -1
    ensures var o := FirstPart(d, t, op);
      && Apart(o.dir) && o.tab.shmFd >= -1 && (t.shmFd >= 0 ==> o.tab.shmFd == t.shmFd)
      && (Sound(o.tab) <==> Sound(t) && !(t.shmFd >= 0 && op == Close(t.shmFd)))
  {}

  lemma {:induction false} MasterNames(d: Dir, t: Tab, ops: seq<Op>)
    requires Apart(d) && Sound(t)
    ensures var o := Master(d, t, ops);
      Apart(o.dir) && o.tab.shmFd >= -1 && (Sound(o.tab) <==> !AreaClosed(d, t, ops))
  {
    if ops != [] {
      MasterNames(d, t, ops[..|ops| - 1]);
      hide FirstPart, Apart, Sound;
      var o := Master(d, t, ops[..|ops| - 1]);
      NamesNext(o.dir, o.tab, ops[|ops| - 1]);
    }
  }

  /** The calls that replica i has finished, of those begun. */
  ghost function Finished(s: Sys, ops: seq<Op>, i: nat): seq<Op> {
    if i in s.pending && ops != [] then ops[..|ops| - 1] else ops
  }

  /** The table before the call in progress is the master's. */
  lemma {:induction false} BeforeIsMaster(run: seq<Sys>, steps: seq<Step>, k: nat)
    requires IsRun(run, steps) && k < |run| && run[k].pending != {}
    ensures var ops := Ops(steps[..k]);
      ops != [] && run[k].before == Master(run[0].dir, run[0].tabs[0], ops[..|ops| - 1]).tab
  {
    RunInv(run, steps, k - 1);
    LooksLikeMaster(run, steps, k - 1);
    hide FirstPart, SlavePart, Master, Inv;
    assert steps[..k][..k - 1] == steps[..k - 1];
    if steps[k - 1].Begin? {
      var ops := Ops(steps[..k]);
      assert ops[..|ops| - 1] == Ops(steps[..k - 1]);
    } else {
      BeforeIsMaster(run, steps, k - 1);
      assert Ops(steps[..k]) == Ops(steps[..k - 1]);
    }
  }

  /** In every run each replica's number for the shared area names the area exactly as long as no call has closed that
      number; what a growth of the area lengthens, and what is mapped, is another file afterwards, or none. */
  lemma AreaNamedIff(run: seq<Sys>, steps: seq<Step>, k: nat, i: nat)
    requires IsRun(run, steps) && k < |run| && Apart(run[0].dir) && Sound(run[0].tabs[0]) && i < |run[k].tabs|
    ensures var t := run[k].tabs[i]; var d0, t0 := run[0].dir, run[0].tabs[0];
      t.shmFd != -1 ==> (NamesArea(t) <==> !AreaClosed(d0, t0, Finished(run[k], Ops(steps[..k]), i)))
  {
    var s, ops := run[k], Ops(steps[..k]);
    var d0, t0 := run[0].dir, run[0].tabs[0];
    RunInv(run, steps, k);
    LooksLikeMaster(run, steps, k);
    if s.pending != {} {
      BeforeIsMaster(run, steps, k);
    }
    hide FirstPart, SlavePart, Master, IsRun;
    assert s.tabs[i] == Master(d0, t0, Finished(s, ops, i)).tab;
    MasterNames(d0, t0, Finished(s, ops, i));
  }

  lemma OneMore(p: Holder, rs: seq<Request>, r: Request)
    ensures var q := Replica(p, rs); Replica(p, rs + [r]) == Next(q, r, FirstPart(q.dir, q.tab, ToOp(q.handles, r)))
    ensures var q := Unreplicated(p, rs);
      Unreplicated(p, rs + [r]) == Next(q, r, Plain(q.dir, q.tab, ToOp(q.handles, r)))
  {
    assert (rs + [r])[..|rs|] == rs;
  }

  // A program with one file besides its standard descriptors, and what it does
  const STANDARD: map<nat, nat> := map[0 := 1, 1 := 2, 2 := 3]
  const OWNER := Holder(Dir(map["f" := 5], 6), Tab(STANDARD[3 := 4], -1), [0, 1, 2, 3], {0, 1, 2, 3}, 0)
  const CLOSED: seq<Request> := [CloseHandle(3)]
  const CLOSED_TWICE: seq<Request> := CLOSED + [Move(0)] + [CloseHandle(3)]
  const REOPENED: seq<Request> := CLOSED_TWICE + [OpenFile("f", Flags(false, false))]

  /** The input: it closes its file, makes another call, closes the same number again, and opens a file. The second
      close fails without PLR. With PLR it succeeds and takes away the shared area's descriptor, whose number the new
      file gets: the next growth of the area changes the length of the program's file. */
  lemma DoubleCloseInput()
    ensures Holds(OWNER) && Apart(OWNER.dir)
    ensures Replica(OWNER, CLOSED_TWICE).ret == 0 && Unreplicated(OWNER, CLOSED_TWICE).ret == -1
    ensures var r := Replica(OWNER, REOPENED);
      r.ret == 3 && r.tab.shmFd == 3 && 3 in r.tab.open && r.tab.open[3] == r.dir.names["f"] && !NamesArea(r.tab)
  {
    OwnerHolds();
    FirstClose();
    hide Replica, Unreplicated, Holds;
    OneMore(OWNER, CLOSED, Move(0));
    OneMore(OWNER, CLOSED + [Move(0)], CloseHandle(3));
    OneMore(OWNER, CLOSED_TWICE, OpenFile("f", Flags(false, false)));
    LowestIs(STANDARD.Keys, 3);
    hide Lowest;
    assert STANDARD[3 := SHM_FILE] - {3} == STANDARD;
  }

  lemma FirstClose()
    ensures Replica(OWNER, CLOSED) == Unreplicated(OWNER, CLOSED)
      == Holder(OWNER.dir, Tab(STANDARD, -1), OWNER.handles, {0, 1, 2}, 0)
  {
    assert CLOSED == [] + [CloseHandle(3)] && STANDARD[3 := 4] - {3} == STANDARD;
    OneMore(OWNER, [], CloseHandle(3));
    assert Kept(OWNER, 3) == {0, 1, 2};
  }

  lemma OwnerHolds()
    ensures Holds(OWNER) && Apart(OWNER.dir)
  {
    assert OWNER.tab.open == STANDARD[3 := 4] && OWNER.handles == [0, 1, 2, 3] && OWNER.live == {0, 1, 2, 3};
    forall h | h in OWNER.live ensures Stands(OWNER, h) && OWNER.handles[h] == h {
      assert h == 0 || h == 1 || h == 2 || h == 3;
    }
    hide Stands, STANDARD;
    forall fd | fd in OWNER.tab.open ensures Named(OWNER, fd) {
      assert fd in OWNER.live;
    }
  }
}
