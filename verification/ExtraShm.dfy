/** The shared area that grows on demand: a global size, a file behind it, and one mapping for each process. */
module ExtraShm {

  import Barrier
  import BarrierInv

  type byte = bv8

  const INT_MAX := 0x7FFF_FFFF

  /** The conversion of a size_t, or of an overflowing sum, to int. */
  function ToInt(x: nat): int {
    var low := x % 0x1_0000_0000;
    if low <= INT_MAX then low else low - 0x1_0000_0000
  }

  /** The one value of 32 bits in two's complement that is equal to x modulo 2^32. */
  lemma ToIntIs(x: nat, y: int)
    ensures ToInt(x) == y <==> -0x8000_0000 <= y < 0x8000_0000 && exists q: int :: x == y + q * 0x1_0000_0000
  {
    var q := x / 0x1_0000_0000;
    var r := ToInt(x);
    assert x == r + q * 0x1_0000_0000 || x == r + (q + 1) * 0x1_0000_0000;
  }

  // ----- Where the area starts

  /** plrSD_extraShmOffset: the end of the fixed structs, rounded up to a page. */
  function ExtraShmOffset(fixedDataSize: nat, pageSize: nat): (r: nat)
    requires pageSize > 0
  {
    var rem := fixedDataSize % pageSize;
    if rem == 0 then fixedDataSize else fixedDataSize + pageSize - rem
  }

  /** The area starts on the first page boundary that is not inside the fixed structs. */
  lemma OffsetIsFirstPage(fixedDataSize: nat, pageSize: nat)
    requires pageSize > 0
    ensures var r := ExtraShmOffset(fixedDataSize, pageSize);
      fixedDataSize <= r < fixedDataSize + pageSize && exists q: nat :: r == q * pageSize
  {
    var q, rem := fixedDataSize / pageSize, fixedDataSize % pageSize;
    assert fixedDataSize == q * pageSize + rem;
    assert (q + 1) * pageSize == q * pageSize + pageSize;
    assert ExtraShmOffset(fixedDataSize, pageSize) == (if rem == 0 then q else q + 1) * pageSize;
  }

  // ----- State and operations

  // The fields of a process's slot that concern the area
  datatype Proc = Proc(shmFd: int, mapped: nat)

  // start: offset of the area in the file; file: the whole shared memory file
  datatype Shm = Shm(start: nat, size: nat, file: seq<byte>, procs: seq<Proc>)

  /** ftruncate: cuts, or extends with zeros. */
  function Truncated(file: seq<byte>, length: nat): (r: seq<byte>)
    ensures |r| == length
  {
    if length <= |file| then file[..length] else file + seq(length - |file|, _ => 0)
  }

  function WriteAt(file: seq<byte>, pos: nat, data: seq<byte>): (r: seq<byte>)
    requires pos + |data| <= |file|
    ensures |r| == |file|
  {
    file[..pos] + data + file[pos + |data|..]
  }

  predicate Valid(s: Shm) {
    && s.start + s.size <= INT_MAX
    && (s.size > 0 ==> |s.file| == s.start + s.size)
    && |s.file| <= s.start + s.size
    && forall p | 0 <= p < |s.procs| :: s.procs[p].mapped <= s.size
         && (s.procs[p].mapped > 0 ==> s.procs[p].shmFd != -1)
  }

  /** The bytes of the area. */
  function Bytes(s: Shm): (r: seq<byte>)
    requires Valid(s)
    ensures |r| == s.size
  {
    if s.size == 0 then [] else s.file[s.start..]
  }

  /** The area after process p has opened it and made it at least minSize bytes long. */
  function Resized(s: Shm, p: nat, fd: int, minSize: int): Shm
    requires p < |s.procs| && (minSize > s.size ==> s.start + minSize >= 0)
  {
    s.(size := if minSize > s.size then minSize else s.size,
       file := if minSize > s.size then Truncated(s.file, s.start + minSize) else s.file,
       procs := s.procs[p := s.procs[p].(shmFd := if s.procs[p].shmFd == -1 then fd else s.procs[p].shmFd)])
  }

  // The copy was made, or the process exits, or it writes or reads beyond its mapping
  datatype CopyResult = Copied(s: Shm) | Exits | Overruns

  /** The shared area after process p has made it at least minSize bytes long and mapped all of it. */
  function Grown(s: Shm, p: nat, fd: int, minSize: int): (r: Shm)
    requires Valid(s) && p < |s.procs| && fd != -1
  {
    var size := if minSize > s.size then minSize else s.size;
    s.(size := size,
       file := if minSize > s.size then Truncated(s.file, s.start + minSize) else s.file,
       procs := s.procs[p := Proc(if s.procs[p].shmFd == -1 then fd else s.procs[p].shmFd,
                                  if s.procs[p].mapped < size then size else s.procs[p].mapped)])
  }

  /** plr_copyToShm; fd is the descriptor that shm_open returns if it is needed. */
  function CopyTo(s: Shm, p: nat, fd: int, src: seq<byte>, offset: nat): CopyResult
    requires Valid(s) && p < |s.procs| && fd != -1
  {
    var minSize := ToInt(offset + |src|);
    if minSize > s.size && s.start + minSize > INT_MAX then Exits
    else
      var t := Grown(s, p, fd, minSize);
      if src == [] then Copied(t)
      else if offset + |src| > t.procs[p].mapped then Overruns
      else Copied(t.(file := WriteAt(t.file, t.start + offset, src)))
  }

  /** The state after plr_copyFromShm. */
  function Refreshed(s: Shm, p: nat, fd: int): Shm
    requires Valid(s) && p < |s.procs| && fd != -1
  {
    Grown(s, p, fd, 0)
  }

  lemma GrownValid(s: Shm, p: nat, fd: int, minSize: int)
    requires Valid(s) && p < |s.procs| && fd != -1 && s.start + minSize <= INT_MAX
    ensures var t := Grown(s, p, fd, minSize);
      Valid(t) && t.procs[p].mapped == t.size >= s.size && t.size >= minSize && t.start == s.start
        && |t.procs| == |s.procs|
  {}

  /** Mapping all of a resized area is growing it. */
  lemma ResizedGrown(s: Shm, p: nat, fd: int, minSize: int)
    requires Valid(s) && p < |s.procs| && fd != -1 && (minSize > s.size ==> s.start + minSize <= INT_MAX)
    ensures var t := Resized(s, p, fd, minSize); Valid(t) && Grown(t, p, fd, 0) == Grown(s, p, fd, minSize)
  {}

  /** Growing the area keeps the bytes already there and adds zeros. */
  lemma GrowthPreserves(s: Shm, p: nat, fd: int, minSize: int)
    requires Valid(s) && p < |s.procs| && fd != -1 && s.start + minSize <= INT_MAX
    ensures Valid(Grown(s, p, fd, minSize))
    ensures Bytes(Grown(s, p, fd, minSize)) == Bytes(s) + seq(Grown(s, p, fd, minSize).size - s.size, _ => 0)
  {
    GrownValid(s, p, fd, minSize);
    var t := Grown(s, p, fd, minSize);
    var zeros: seq<byte> := seq(t.size - s.size, _ => 0);
    forall k | 0 <= k < t.size ensures Bytes(t)[k] == (Bytes(s) + zeros)[k] {
      assert Bytes(t)[k] == t.file[t.start + k];
    }
  }

  /** What a caller of plr_copyToShm can tell before the call. The length is a size_t, but plrSD_resizeExtraShm takes an
      int: a copy whose end does not fit in an int overruns the mapping - unless what is left of the end asks for more
      than the file can hold, where the process exits. */
  lemma CopyInsideIff(s: Shm, p: nat, fd: int, src: seq<byte>, offset: nat)
    requires Valid(s) && p < |s.procs| && fd != -1
    ensures var end := offset + |src|;
      var refused := ToInt(end) > s.size && s.start + ToInt(end) > INT_MAX;
      && (CopyTo(s, p, fd, src, offset).Exits? <==> refused)
      && (CopyTo(s, p, fd, src, offset).Overruns? <==> src != [] && end > INT_MAX && !refused)
      && (CopyTo(s, p, fd, src, offset).Copied? <==> (src == [] || end <= INT_MAX) && !refused)
  {
    var minSize := ToInt(offset + |src|);
    if !CopyTo(s, p, fd, src, offset).Exits? {
      GrownOrSame(s, p, fd, minSize);
    }
  }

  /** The input: fread of 2 GiB with elements of one byte (plrPreload/fread.c:53-54) copies its header of 32 bytes, and
      then the data behind it. */
  lemma HugeFread(hdr: seq<byte>, data: seq<byte>)
    requires |hdr| == 32 && |data| == 0x8000_0000
    ensures var s := Shm(4096, 0, [], [Proc(-1, 0)]);
      && Valid(s) && CopyTo(s, 0, 3, hdr, 0).Copied?
      && var t := CopyTo(s, 0, 3, hdr, 0).s;
        Valid(t) && |t.procs| == 1 && t.procs[0].mapped == 32 && CopyTo(t, 0, 3, data, 32).Overruns?
  {
    var s := Shm(4096, 0, [], [Proc(-1, 0)]);
    CopyInsideIff(s, 0, 3, hdr, 0);
    CopyToEffect(s, 0, 3, hdr, 0);
    CopyInsideIff(CopyTo(s, 0, 3, hdr, 0).s, 0, 3, data, 32);
  }

  lemma GrownOrSame(s: Shm, p: nat, fd: int, minSize: int)
    requires Valid(s) && p < |s.procs| && fd != -1 && (minSize > s.size ==> s.start + minSize <= INT_MAX)
    ensures var t := Grown(s, p, fd, minSize);
      Valid(t) && t.procs[p].mapped == t.size == (if minSize > s.size then minSize else s.size) && t.size <= INT_MAX
  {}

  /** Process p has a descriptor for the area now, the one that it had if it had one; all others are as they were. */
  ghost predicate Opened(s: Shm, t: Shm, p: nat, fd: int) {
    && p < |s.procs| == |t.procs| && t.procs[p].shmFd == (if s.procs[p].shmFd == -1 then fd else s.procs[p].shmFd)
    && forall q | 0 <= q < |s.procs| && q != p :: t.procs[q] == s.procs[q]
  }

  /** What a successful copy does: the area is valid and no smaller, everybody's mapping is inside it, the bytes
      written are there and all others are as before, or zero where the area is new. */
  lemma CopyToEffect(s: Shm, p: nat, fd: int, src: seq<byte>, offset: nat)
    requires Valid(s) && p < |s.procs| && fd != -1 && CopyTo(s, p, fd, src, offset).Copied?
    ensures var t := CopyTo(s, p, fd, src, offset).s;
      && Valid(t) && t.size >= s.size && t.start == s.start && Opened(s, t, p, fd) && t.procs[p].mapped == t.size
      && (src != [] ==> offset + |src| <= t.procs[p].mapped && Bytes(t)[offset..offset + |src|] == src)
      && forall k | 0 <= k < t.size
           && !(offset <= k < offset + |src|) :: Bytes(t)[k] == if k < s.size then Bytes(s)[k] else 0
  {
    var minSize := ToInt(offset + |src|);
    GrownOrSame(s, p, fd, minSize);
    var g := Grown(s, p, fd, minSize);
    GrownBytes(s, p, fd, minSize);
    WrittenBytes(g, CopyTo(s, p, fd, src, offset).s, src, offset);
  }

  lemma GrownBytes(s: Shm, p: nat, fd: int, minSize: int)
    requires Valid(s) && p < |s.procs| && fd != -1 && (minSize > s.size ==> s.start + minSize <= INT_MAX)
    ensures var g := Grown(s, p, fd, minSize);
      Valid(g) && forall k | 0 <= k < g.size :: Bytes(g)[k] == if k < s.size then Bytes(s)[k] else 0
  {
    if minSize > s.size {
      GrowthPreserves(s, p, fd, minSize);
    }
  }

  lemma WrittenBytes(g: Shm, t: Shm, src: seq<byte>, offset: nat)
    requires Valid(g) && (src != [] ==> offset + |src| <= g.size)
    requires t == if src == [] then g else g.(file := WriteAt(g.file, g.start + offset, src))
    ensures Valid(t) && (src != [] ==> Bytes(t)[offset..offset + |src|] == src)
    ensures forall k | 0 <= k < t.size && !(offset <= k < offset + |src|) :: Bytes(t)[k] == Bytes(g)[k]
  {
    if src != [] {
      var b := Bytes(t);
      forall k | 0 <= k < t.size
        ensures b[k] == (if offset <= k < offset + |src| then src[k - offset] else Bytes(g)[k])
      {
        WrittenAt(g.file, g.start + offset, src, g.start + k);
        assert b[k] == t.file[t.start + k] && Bytes(g)[k] == g.file[g.start + k];
      }
      assert b[offset..offset + |src|] == src by {
        forall j | 0 <= j < |src| ensures b[offset..offset + |src|][j] == src[j] {
          assert b[offset + j] == src[j];
        }
      }
    }
  }

  /** One byte after a write. */
  lemma WrittenAt(file: seq<byte>, pos: nat, data: seq<byte>, k: nat)
    requires pos + |data| <= |file| && k < |file|
    ensures WriteAt(file, pos, data)[k] == if pos <= k < pos + |data| then data[k - pos] else file[k]
  {}

  /** What a refresh does: the process has mapped all of the area, which is as before. */
  lemma RefreshedEffect(s: Shm, p: nat, fd: int)
    requires Valid(s) && p < |s.procs| && fd != -1
    ensures var t := Refreshed(s, p, fd);
      && Valid(t) && t.size == s.size && t.start == s.start && t.file == s.file && Bytes(t) == Bytes(s)
      && Opened(s, t, p, fd) && t.procs[p].mapped == s.size
  {}

  // ----- Runs

  datatype Op =
    | To(p: nat, fd: int, src: seq<byte>, offset: nat)
    | From(p: nat, fd: int)
    // The process in slot p is replaced by a fork of the one in slot `parent`
    | Replaced(p: nat, parent: nat)

  ghost predicate CanStep(s: Shm, op: Op) {
    && Valid(s) && op.p < |s.procs|
    && match op
       case To(p, fd, src, offset) => fd != -1 && CopyTo(s, p, fd, src, offset).Copied?
       case From(_, fd) => fd != -1
       case Replaced(_, parent) => parent < |s.procs|
  }

  ghost function Next(s: Shm, op: Op): Shm
    requires CanStep(s, op)
  {
    match op
    case To(p, fd, src, offset) => CopyTo(s, p, fd, src, offset).s
    case From(p, fd) => Refreshed(s, p, fd)
    case Replaced(p, parent) => s.(procs := s.procs[p := Proc(s.procs[parent].shmFd, 0)])
  }

  /** What becomes of a process's part in the area when it is replaced is what its new slot says. */
  lemma ReplacedIsCopy(s: Shm, p: nat, i: nat, slot: Barrier.Slot, parent: Barrier.Slot, pid: nat)
    requires Valid(s) && p < |s.procs| && i < |s.procs| && s.procs[i] == Proc(parent.shmFd, parent.extraShmMapped)
    requires BarrierInv.CopyOf(slot, parent, pid)
    ensures Next(s, Replaced(p, i)) == s.(procs := s.procs[p := Proc(slot.shmFd, slot.extraShmMapped)])
  {}

  ghost predicate IsRun(run: seq<Shm>, ops: seq<Op>) {
    && |run| == |ops| + 1 && Valid(run[0])
    && forall k | 0 <= k < |ops| :: CanStep(run[k], ops[k]) && run[k + 1] == Next(run[k], ops[k])
  }

  lemma NextValid(s: Shm, op: Op)
    requires CanStep(s, op)
    ensures Valid(Next(s, op)) && Next(s, op).size >= s.size
  {
    match op
    case To(p, fd, src, offset) => CopyToEffect(s, p, fd, src, offset);
    case From(p, fd) => GrownOrSame(s, p, fd, 0);
    case Replaced(p, parent) =>
  }

  /** On every run the area never shrinks and nobody's mapping reaches beyond it. */
  lemma {:induction false} AreaSafe(run: seq<Shm>, ops: seq<Op>, j: nat, k: nat)
    requires IsRun(run, ops) && j <= k < |run|
    ensures Valid(run[k]) && run[j].size <= run[k].size
    ensures forall p | 0 <= p < |run[k].procs| :: run[k].procs[p].mapped <= run[k].size
    decreases k
  {
    if k > 0 {
      if j < k {
        AreaSafe(run, ops, j, k - 1);
      } else {
        AreaSafe(run, ops, j - 1, k - 1);
      }
      NextValid(run[k - 1], ops[k - 1]);
    }
  }

  /** Refreshing a mapping and replacing a process leave the bytes of the area alone. */
  lemma {:induction false} BytesKept(run: seq<Shm>, ops: seq<Op>, k: nat)
    requires IsRun(run, ops) && k < |run| && forall j | 0 <= j < |ops| :: !ops[j].To?
    ensures Valid(run[k]) && Bytes(run[k]) == Bytes(run[0]) && |run[k].procs| == |run[0].procs|
  {
    if k > 0 {
      BytesKept(run, ops, k - 1);
      NextValid(run[k - 1], ops[k - 1]);
      assert run[k].file == run[k - 1].file && run[k].size == run[k - 1].size && run[k].start == run[k - 1].start;
    }
  }

  /** The area holds a header, and behind it a payload. */
  ghost predicate Holds(s: Shm, hdr: seq<byte>, payload: seq<byte>) {
    && Valid(s) && |hdr| + |payload| <= s.size
    && Bytes(s)[..|hdr|] == hdr && Bytes(s)[|hdr|..|hdr| + |payload|] == payload
  }

  lemma HeldAfterCopies(s: Shm, p: nat, fd: int, hdr: seq<byte>, payload: seq<byte>)
    requires Valid(s) && p < |s.procs| && fd != -1 && CopyTo(s, p, fd, hdr, 0).Copied?
    requires CopyTo(s, p, fd, hdr, 0).Copied? ==>
      var t := CopyTo(s, p, fd, hdr, 0).s; Valid(t) && p < |t.procs| && CopyTo(t, p, fd, payload, |hdr|).Copied?
    ensures Holds(CopyTo(CopyTo(s, p, fd, hdr, 0).s, p, fd, payload, |hdr|).s, hdr, payload)
  {
    hide CopyTo, Grown, Valid;
    var t1 := CopyTo(s, p, fd, hdr, 0).s;
    CopyToEffect(s, p, fd, hdr, 0);
    CopyToEffect(t1, p, fd, payload, |hdr|);
    var t := CopyTo(t1, p, fd, payload, |hdr|).s;
    assert hdr != [] ==> Bytes(t1)[0..0 + |hdr|] == hdr;
    assert Bytes(t1)[..|hdr|] == hdr;
    forall k | 0 <= k < |hdr| ensures Bytes(t)[k] == hdr[k] {
      assert Bytes(t)[k] == Bytes(t1)[k] == Bytes(t1)[..|hdr|][k];
    }
  }

  /** A header and a payload written by one process are read back by any other, however many reads and replacements
      come in between. */
  lemma HeaderAndPayload(
    s: Shm, p: nat, fd: int, hdr: seq<byte>, payload: seq<byte>, run: seq<Shm>, ops: seq<Op>, k: nat, q: nat, fd': int)
    requires Valid(s) && p < |s.procs| && fd != -1 && fd' != -1 && CopyTo(s, p, fd, hdr, 0).Copied?
    requires CopyTo(s, p, fd, hdr, 0).Copied? ==>
      var t := CopyTo(s, p, fd, hdr, 0).s; Valid(t) && p < |t.procs| && CopyTo(t, p, fd, payload, |hdr|).Copied?
    requires IsRun(run, ops) && run[0] == CopyTo(CopyTo(s, p, fd, hdr, 0).s, p, fd, payload, |hdr|).s
    requires k < |run| && q < |run[k].procs| && forall j | 0 <= j < |ops| :: !ops[j].To?
    ensures Valid(run[k])
    ensures var u := Refreshed(run[k], q, fd');
      && Valid(u) && |u.procs| == |run[k].procs| && |hdr| + |payload| <= u.procs[q].mapped
      && Bytes(u)[..|hdr|] == hdr && Bytes(u)[|hdr|..|hdr| + |payload|] == payload
  {
    HeldAfterCopies(s, p, fd, hdr, payload);
    BytesKept(run, ops, k);
    GrownOrSame(run[k], q, fd', 0);
    assert Bytes(Refreshed(run[k], q, fd')) == Bytes(run[k]);
  }

  lemma AtMostIntMax(x: nat)
    ensures ToInt(x) <= INT_MAX
  {}

  lemma SumFits(a: nat, b: nat)
    requires a <= INT_MAX && b <= INT_MAX
    ensures ToInt(a + b) == if a + b <= INT_MAX then a + b else a + b - 0x1_0000_0000
  {}

  // ----- The code

  class Area {
    const fixedDataSize: nat
    const pageSize: nat
    var extraShmSize: nat
    var file: seq<byte>
    const procs: array<Proc>
    // The static variable of plrSD_extraShmOffset: 0, or the offset
    var extraShmOffset: nat

    ghost predicate Ok()
      reads this, procs
    {
      && pageSize > 0 && Valid(Abs())
      && (extraShmOffset == 0 || extraShmOffset == ExtraShmOffset(fixedDataSize, pageSize))
    }

    ghost function Abs(): Shm
      requires pageSize > 0
      reads this, procs
    {
      Shm(ExtraShmOffset(fixedDataSize, pageSize), extraShmSize, file, procs[..])
    }

    constructor (fixedDataSize: nat, pageSize: nat, nProc: nat)
      requires pageSize > 0 && ExtraShmOffset(fixedDataSize, pageSize) <= INT_MAX
      ensures Ok() && fresh(procs) && procs.Length == nProc && extraShmSize == 0
    {
      OffsetIsFirstPage(fixedDataSize, pageSize);
      this.fixedDataSize, this.pageSize := fixedDataSize, pageSize;
      extraShmSize := 0;
      file := seq(fixedDataSize, _ => 0);
      procs := new Proc[nProc](_ => Proc(-1, 0));
      extraShmOffset := 0;
    }

    method GetOffset() returns (r: nat)
      requires Ok()
      modifies this`extraShmOffset
      ensures Ok() && Abs() == old(Abs()) && r == Abs().start
    {
      if extraShmOffset == 0 {
        var rem := fixedDataSize % pageSize;
        extraShmOffset := if rem == 0 then fixedDataSize else fixedDataSize + pageSize - rem;
      }
      r := extraShmOffset;
    }

    /** plrSD_resizeExtraShm. A negative length makes ftruncate fail; the caller then exits. */
    method ResizeExtraShm(me: nat, fd: int, minSize: int) returns (ret: int)
      requires Ok() && me < procs.Length && fd != -1 && minSize <= INT_MAX
      modifies this, procs
      ensures ret == 0 || ret == -1
      ensures ret == -1 <==> minSize > old(extraShmSize) && old(Abs()).start + minSize > INT_MAX
      ensures ret == 0 ==> Ok() && Abs() == Resized(old(Abs()), me, fd, minSize)
      ensures ret == 0 ==> Grown(Abs(), me, fd, 0) == Grown(old(Abs()), me, fd, minSize)
    {
      hide Grown, ExtraShmOffset;
      if procs[me].shmFd == -1 {
        procs[me] := procs[me].(shmFd := fd);
      }
      if minSize > extraShmSize {
        var start := GetOffset();
        extraShmSize := minSize;
        var shmSize := ToInt(start + minSize);
        SumFits(start, minSize);
        if shmSize < 0 {
          return -1;
        }
        file := Truncated(file, shmSize);
      }
      ret := 0;
      assert Abs().procs == Resized(old(Abs()), me, fd, minSize).procs;
      ResizedGrown(old(Abs()), me, fd, minSize);
    }

    /** plrSD_refreshExtraShm */
    method RefreshExtraShm(me: nat, fd: int)
      requires Ok() && me < procs.Length && fd != -1
      modifies procs
      ensures Ok() && Abs() == Grown(old(Abs()), me, fd, 0)
    {
      if procs[me].shmFd == -1 {
        procs[me] := procs[me].(shmFd := fd);
      }
      if procs[me].mapped < extraShmSize {
        procs[me] := procs[me].(mapped := extraShmSize);
      }
    }

    /** memcpy to the area. */
    method CopyBytes(src: seq<byte>, offset: nat)
      requires Ok() && src != [] && offset + |src| <= extraShmSize
      modifies this`extraShmOffset, this`file
      ensures Ok() && Abs() == old(Abs()).(file := WriteAt(old(file), old(Abs()).start + offset, src))
    {
      var start := GetOffset();
      file := WriteAt(file, start + offset, src);
    }

    /** plr_copyToShm, up to the exit or the overrun it may lead to. */
    method CopyToShm(me: nat, fd: int, src: seq<byte>, offset: nat) returns (copied: bool)
      requires Ok() && me < procs.Length && fd != -1
      modifies this, procs
      ensures copied <==> CopyTo(old(Abs()), me, fd, src, offset).Copied?
      ensures copied ==> Ok() && Abs() == CopyTo(old(Abs()), me, fd, src, offset).s
    {
      hide Grown, Truncated, ExtraShmOffset, ToInt;
      AtMostIntMax(offset + |src|);
      var ret := ResizeExtraShm(me, fd, ToInt(offset + |src|));
      if ret < 0 {
        return false;
      }
      RefreshExtraShm(me, fd);
      assert Abs() == Grown(old(Abs()), me, fd, ToInt(offset + |src|));
      if src != [] {
        if offset + |src| > procs[me].mapped {
          return false;
        }
        CopyBytes(src, offset);
      }
      copied := true;
    }

    /** plr_copyFromShm, up to the overrun that a range beyond the area leads to. */
    method CopyFromShm(me: nat, fd: int, length: nat, offset: nat) returns (inside: bool, dest: seq<byte>)
      requires Ok() && me < procs.Length && fd != -1
      modifies this`extraShmOffset, procs
      ensures Ok() && Abs() == Refreshed(old(Abs()), me, fd)
      ensures procs[me].mapped == extraShmSize && (inside <==> length == 0 || offset + length <= extraShmSize)
      ensures inside ==> dest == if length == 0 then [] else Bytes(Abs())[offset..offset + length]
    {
      RefreshExtraShm(me, fd);
      dest := [];
      inside := length == 0 || offset + length <= procs[me].mapped;
      if inside && length > 0 {
        var start := GetOffset();
        dest := file[start + offset..start + offset + length];
      }
    }
  }
}
