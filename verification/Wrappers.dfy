/** The intercepted calls read, write and unlink: what they present to the vote, what the master does for all,
    and how the slaves catch up. Files are regular and seekable. */
module Wrappers {
  import opened Compare
  import Crc32

  type byte = Crc32.byte

  // ----- The kernel

  // An open file description; file descriptors of several processes may share it
  datatype Desc = Desc(file: nat, offs: nat)

  datatype Kernel = Kernel(files: map<nat, seq<byte>>, names: map<seq<byte>, nat>, descs: seq<Desc>)

  // The descriptor table of a process: file descriptor to open file description
  type Table = map<int, nat>

  ghost predicate KernelOk(k: Kernel) {
    forall d | 0 <= d < |k.descs| :: k.descs[d].file in k.files
  }

  ghost predicate TableOk(k: Kernel, t: Table) {
    forall fd | fd in t :: t[fd] < |k.descs|
  }

  // The C types of descriptors, and of buffers whose length is a size_t
  type cint = x: int | -0x8000_0000 <= x < 0x8000_0000

  type buffer = b: seq<byte> | |b| < 0x1_0000_0000_0000_0000 witness []

  datatype Call = Read(fd: cint, count: word) | Write(fd: cint, buf: buffer) | Unlink(path: buffer)

  // What the caller sees: the return value, errno if it is -1, and the bytes read
  datatype Result = Result(ret: int, err: int, data: seq<byte>)

  // The result of a call together with the file offset after it
  datatype Outcome = Outcome(res: Result, offs: nat, kernel: Kernel)

  const EBADF := 9
  const ENOENT := 2

  function Failure(err: int): Result {
    Result(-1, err, [])
  }

  /** The bytes that a read of `count` bytes finds at `offs`. */
  function Portion(data: seq<byte>, offs: nat, count: nat): (r: seq<byte>)
    ensures |r| <= count
  {
    if offs >= |data| then [] else if offs + count <= |data| then data[offs..offs + count] else data[offs..]
  }

  /** A file after `buf` is written at `offs`; a gap is filled with zeros. */
  function Overlay(data: seq<byte>, offs: nat, buf: seq<byte>): (r: seq<byte>) {
    if buf == [] then data
    else
      var padded := if offs <= |data| then data else data + seq(offs - |data|, _ => 0);
      padded[..offs] + buf + (if offs + |buf| <= |data| then data[offs + |buf|..] else [])
  }

  /** Every byte of a file after a write; one of no bytes does not even extend it. */
  lemma OverlayBytes(data: seq<byte>, offs: nat, buf: seq<byte>)
    ensures var r := Overlay(data, offs, buf);
      && |r| == (if buf == [] || offs + |buf| <= |data| then |data| else offs + |buf|)
      && forall k | 0 <= k < |r| :: r[k] == if offs <= k < offs + |buf| then buf[k - offs] else if k < |data|
           then data[k] else 0
  {}

  /** The system call itself, by a process with descriptor table t. */
  function Exec(k: Kernel, t: Table, c: Call): (o: Outcome)
    requires KernelOk(k) && TableOk(k, t)
    ensures KernelOk(o.kernel) && |o.kernel.descs| == |k.descs|
    ensures forall d | 0 <= d < |k.descs| :: o.kernel.descs[d].file == k.descs[d].file
  {
    match c
    case Read(fd, count) =>
      if fd !in t then Outcome(Failure(EBADF), 0, k)
      else
        var d := k.descs[t[fd]];
        var data := Portion(k.files[d.file], d.offs, count);
        Outcome(Result(|data|, 0, data), d.offs + |data|, k.(descs := k.descs[t[fd] := d.(offs := d.offs + |data|)]))
    case Write(fd, buf) =>
      if fd !in t then Outcome(Failure(EBADF), 0, k)
      else
        var d := k.descs[t[fd]];
        Outcome(Result(|buf|, 0, []), d.offs + |buf|,
                k.(files := k.files[d.file := Overlay(k.files[d.file], d.offs, buf)],
                   descs := k.descs[t[fd] := d.(offs := d.offs + |buf|)]))
    case Unlink(path) =>
      if path !in k.names then Outcome(Failure(ENOENT), 0, k)
      else Outcome(Result(0, 0, []), 0, k.(names := k.names - {path}))
  }

  /** What a read does: it returns as many bytes as it may and the file has behind the offset, which moves by that
      number; all else is as before. */
  lemma ReadEffect(k: Kernel, t: Table, fd: cint, count: word)
    requires KernelOk(k) && TableOk(k, t) && fd in t
    ensures var d, o := k.descs[t[fd]], Exec(k, t, Read(fd, count));
      var was := k.files[d.file];
      && o.res.err == 0 && o.res.ret == |o.res.data|
      && |o.res.data| == (if |was| <= d.offs then 0 else if count <= |was| - d.offs then count else |was| - d.offs)
      && (forall j | 0 <= j < |o.res.data| :: o.res.data[j] == was[d.offs + j])
      && o.offs == d.offs + |o.res.data| && o.kernel.files == k.files && o.kernel.names == k.names
      && o.kernel.descs == k.descs[t[fd] := Desc(d.file, d.offs + |o.res.data|)]
  {}

  /** Two reads in a row return consecutive bytes: together those of one read, whose offset they leave behind. */
  lemma ReadsInARow(k: Kernel, t: Table, fd: cint, m: word, n: word)
    requires KernelOk(k) && TableOk(k, t) && fd in t && m + n < 0x1_0000_0000_0000_0000
    ensures var o := Exec(k, t, Read(fd, m));
      var p, both := Exec(o.kernel, t, Read(fd, n)), Exec(k, t, Read(fd, m + n));
      p.kernel == both.kernel && p.offs == both.offs && o.res.data + p.res.data == both.res.data
  {
    hide Exec, Portion;
    ReadEffect(k, t, fd, m);
    var o := Exec(k, t, Read(fd, m));
    ReadEffect(o.kernel, t, fd, n);
    ReadEffect(k, t, fd, m + n);
    var p, both := Exec(o.kernel, t, Read(fd, n)), Exec(k, t, Read(fd, m + n));
    assert o.res.data + p.res.data == both.res.data;
    assert p.kernel.descs == both.kernel.descs;
  }

  /** What an unlink does: that name is gone, all others are as before, and so are files and offsets; a second one
      fails. */
  lemma UnlinkEffect(k: Kernel, t: Table, path: buffer)
    requires KernelOk(k) && TableOk(k, t) && path in k.names
    ensures var o := Exec(k, t, Unlink(path));
      && o.res == Result(0, 0, []) && o.kernel.files == k.files && o.kernel.descs == k.descs
      && (forall name :: name in o.kernel.names <==> name in k.names && name != path)
      && (forall name | name in o.kernel.names :: o.kernel.names[name] == k.names[name])
      && Exec(o.kernel, t, Unlink(path)) == Outcome(Result(-1, 2, []), 0, o.kernel)
  {}

  /** Exactly when a call fails, which changes nothing. */
  lemma FailsIff(k: Kernel, t: Table, c: Call)
    requires KernelOk(k) && TableOk(k, t)
    ensures var o := Exec(k, t, c);
      && (o.res.ret == -1 <==> if c.Unlink? then c.path !in k.names else c.fd !in t)
      && (o.res.ret == -1 ==> o.kernel == k && o.res == Result(-1, if c.Unlink? then 2 else 9, []))
  {}

  /** What a write does: it returns the number of bytes, which are in the file at the old offset; that moves behind
      them; all other bytes, files and offsets are as before, and a read from there returns the bytes. */
  lemma WriteEffect(k: Kernel, t: Table, fd: cint, buf: buffer)
    requires KernelOk(k) && TableOk(k, t) && fd in t
    ensures var d, o := k.descs[t[fd]], Exec(k, t, Write(fd, buf));
      o.res == Result(|buf|, 0, []) && o.offs == d.offs + |buf|
    ensures var d := k.descs[t[fd]];
      var was, now := k.files[d.file], Exec(k, t, Write(fd, buf)).kernel.files[d.file];
      && |now| == (if buf == [] || d.offs + |buf| <= |was| then |was| else d.offs + |buf|)
      && (forall j | 0 <= j < |now| ::
           now[j] == if d.offs <= j < d.offs + |buf| then buf[j - d.offs] else if j < |was| then was[j] else 0)
      && Portion(now, d.offs, |buf|) == buf
    ensures var d := k.descs[t[fd]];
      var o := Exec(k, t, Write(fd, buf)).kernel;
      && o.files.Keys == k.files.Keys && o.names == k.names
      && (forall f | f in k.files && f != d.file :: o.files[f] == k.files[f])
      && o.descs == k.descs[t[fd] := d.(offs := d.offs + |buf|)]
  {
    var d := k.descs[t[fd]];
    OverlayBytes(k.files[d.file], d.offs, buf);
    hide Overlay;
  }

  /** Two writes in a row are one: the file and the offset that they leave behind are those of a single write of both
      buffers. */
  lemma WritesInARow(k: Kernel, t: Table, fd: cint, a: buffer, b: buffer)
    requires KernelOk(k) && TableOk(k, t) && fd in t && |a| + |b| < 0x1_0000_0000_0000_0000
    ensures Exec(Exec(k, t, Write(fd, a)).kernel, t, Write(fd, b)).kernel == Exec(k, t, Write(fd, a + b)).kernel
  {
    hide Overlay, Portion;
    var d := k.descs[t[fd]];
    var was := k.files[d.file];
    OverlayBytes(was, d.offs, a);
    OverlayBytes(Overlay(was, d.offs, a), d.offs + |a|, b);
    OverlayBytes(was, d.offs, a + b);
    assert Overlay(Overlay(was, d.offs, a), d.offs + |a|, b) == Overlay(was, d.offs, a + b);
  }

  /** Whoever reads the place in the file, through whatever description, gets what was written. */
  lemma WrittenIsRead(k: Kernel, t: Table, fd: cint, buf: buffer, u: Table, gd: cint)
    requires KernelOk(k) && TableOk(k, t) && TableOk(k, u) && fd in t && gd in u
    requires u[gd] != t[fd] && k.descs[u[gd]] == k.descs[t[fd]]
    ensures Exec(Exec(k, t, Write(fd, buf)).kernel, u, Read(gd, |buf|)).res == Result(|buf|, 0, buf)
  {
    hide Exec, Portion, Overlay;
    WriteEffect(k, t, fd, buf);
    var o := Exec(k, t, Write(fd, buf)).kernel;
    ReadEffect(o, u, gd, |buf|);
    assert Exec(o, u, Read(gd, |buf|)).res.data == buf;
  }

  // ----- The arguments presented to the vote

  // Offsets of the libc functions in their image; only that they differ matters
  const OFF_READ: word := 1
  const OFF_WRITE: word := 2
  const OFF_UNLINK: word := 3

  /** The conversion of a C integer to unsigned long. */
  function ToWord(x: int): word {
    x % 0x1_0000_0000_0000_0000
  }

  function Fingerprint(buf: seq<byte>): word {
    Crc32.Crc(0, buf) as int
  }

  function ArgsOf(c: Call): SyscallArgs {
    match c
    case Read(fd, count) => SyscallArgs(OFF_READ, ToWord(fd), 0, ToWord(count), 0, 0, 0)
    case Write(fd, buf) => SyscallArgs(OFF_WRITE, ToWord(fd), Fingerprint(buf), ToWord(|buf|), 0, 0, 0)
    case Unlink(path) => SyscallArgs(OFF_UNLINK, Fingerprint(path), 0, 0, 0, 0, 0)
  }

  lemma ToWordInjective(x: int, y: int)
    requires -0x1_0000_0000_0000_0000 < x - y < 0x1_0000_0000_0000_0000
    ensures ToWord(x) == ToWord(y) <==> x == y
  {}

  /** What the arguments tell apart: everything about a read, and all but the bytes of a buffer or a name, of which they
      show the fingerprint. */
  lemma ArgsShow(c: Call, d: Call)
    ensures ArgsOf(c) == ArgsOf(d) <==>
      match c
      case Read(_, _) => c == d
      case Write(fd, buf) => d.Write? && d.fd == fd && |d.buf| == |buf| && Crc32.Crc(0, d.buf) == Crc32.Crc(0, buf)
      case Unlink(path) => d.Unlink? && Crc32.Crc(0, d.path) == Crc32.Crc(0, path)
  {
    hide Crc32.Crc, ToWord;
    match (c, d) {
      case (Read(f, n), Read(g, m)) =>
        ToWordInjective(f, g);
        ToWordInjective(n, m);
      case (Write(f, a), Write(g, b)) =>
        ToWordInjective(f, g);
        ToWordInjective(|a|, |b|);
        FingerprintInjective(a, b);
      case (Unlink(a), Unlink(b)) => FingerprintInjective(a, b);
      case _ =>
    }
  }

  /** ... and in which field: descriptors in arg[0], counts in arg[2], and fingerprints in arg[1] of a write and arg[0]
      of an unlink. */
  lemma ArgsDiffer(c: Call, d: Call, k: nat)
    requires k < 7 && (c.Read? <==> d.Read?) && (c.Write? <==> d.Write?)
    ensures ArgsOf(c).Field(k) != ArgsOf(d).Field(k) <==>
      match c
      case Read(fd, count) => (k == 1 && fd != d.fd) || (k == 3 && count != d.count)
      case Write(fd, buf) =>
        (k == 1 && fd != d.fd) || (k == 2 && Crc32.Crc(0, buf) != Crc32.Crc(0, d.buf)) || (k == 3 && |buf| != |d.buf|)
      case Unlink(path) => k == 1 && Crc32.Crc(0, path) != Crc32.Crc(0, d.path)
  {
    hide Crc32.Crc, ToWord;
    match c
    case Read(fd, count) =>
      ToWordInjective(fd, d.fd);
      ToWordInjective(count, d.count);
    case Write(fd, buf) =>
      ToWordInjective(fd, d.fd);
      ToWordInjective(|buf|, |d.buf|);
      FingerprintInjective(buf, d.buf);
    case Unlink(path) => FingerprintInjective(path, d.path);
  }

  /** What some calls present: a bad descriptor is converted to unsigned long. */
  lemma ArgsInput()
    ensures ArgsOf(Read(-1, 4096)) == SyscallArgs(OFF_READ, 0xFFFF_FFFF_FFFF_FFFF, 0, 4096, 0, 0, 0)
    ensures ArgsOf(Write(1, Crc32.DIGITS)) == SyscallArgs(OFF_WRITE, 1, 0xCBF4_3926, 9, 0, 0, 0)
    ensures ArgsOf(Unlink(Crc32.DIGITS)) == SyscallArgs(OFF_UNLINK, 0xCBF4_3926, 0, 0, 0, 0, 0)
  {
    hide Crc32.Crc;
    Crc32.CheckValue();
  }

  lemma FingerprintInjective(a: seq<byte>, b: seq<byte>)
    ensures Fingerprint(a) == Fingerprint(b) <==> Crc32.Crc(0, a) == Crc32.Crc(0, b)
  {
    hide Crc32.Crc;
    if Fingerprint(a) == Fingerprint(b) {
      CastInjective(Crc32.Crc(0, a), Crc32.Crc(0, b));
    }
  }

  /** Calls that present the same arguments use the shared area in the same way. */
  lemma SameArgsCatchUp(c: Call, d: Call)
    requires ArgsOf(c) == ArgsOf(d)
    ensures forall h :: HasPayload(c, h) <==> HasPayload(d, h)
    ensures forall h, data :: SlaveResult(c, h, data) == SlaveResult(d, h, data)
    ensures forall k, t, h | TableOk(k, t) ::
      (Seeks(t, c, h) <==> Seeks(t, d, h)) && SeekTo(k, t, c, h) == SeekTo(k, t, d, h)
  {
    ArgsShow(c, d);
    hide ArgsOf, Crc32.Crc;
  }

  /** If one replica's buffer differs from the others' within 32 consecutive bits, its arguments differ. */
  lemma WriteBurstShows(fd: cint, good: buffer, bad: buffer, at: nat)
    requires good != bad && Crc32.WithinBurst(Crc32.Bits(good), Crc32.Bits(bad), at)
    ensures ArgsOf(Write(fd, good)) != ArgsOf(Write(fd, bad))
  {
    Crc32.BurstDetected(0, good, bad, at);
    FingerprintInjective(good, bad);
  }

  /** ... and the vote selects exactly that replica. */
  lemma BurstOutvoted(fd: cint, good: buffer, bad: buffer, at: nat, b: nat)
    requires good != bad && Crc32.WithinBurst(Crc32.Bits(good), Crc32.Bits(bad), at) && b < 3
    ensures Judge(seq(3, i => ArgsOf(Write(fd, if i == b then bad else good)))) == Faulty(b)
  {
    hide ArgsOf;
    WriteBurstShows(fd, good, bad, at);
    VerdictUnique(seq(3, i => ArgsOf(Write(fd, if i == b then bad else good))), Faulty(b));
  }

  lemma CastInjective(x: bv32, y: bv32)
    requires x as int == y as int
    ensures x == y
  {
    assert (x as int) as bv32 == x && (y as int) as bv32 == y;
  }

  // ----- Broadcasting the master's result

  // readShmData_t and writeShmData_t; unlinkShmData_t has no offset
  datatype Header = Header(err: int, ret: int, offs: nat)

  // The extra shared area: a header, and behind it the bytes of the last read that returned any
  datatype Area = Area(hdr: Header, payload: seq<byte>)

  /** memcpy to the start of an area, which grows if needed. */
  function Put(area: seq<byte>, data: seq<byte>): (r: seq<byte>)
    ensures |r| == (if |area| <= |data| then |data| else |area|)
    ensures forall k | 0 <= k < |r| :: r[k] == if k < |data| then data[k] else area[k]
  {
    if |area| <= |data| then data else data + area[|data|..]
  }

  /** What the master leaves in the shared area. */
  function Broadcast(a: Area, c: Call, o: Outcome): Area {
    Area(Header(o.res.err, o.res.ret, if o.res.ret == -1 || c.Unlink? then 0 else o.offs),
         if c.Read? && o.res.ret > 0 then Put(a.payload, o.res.data) else a.payload)
  }

  predicate HasPayload(c: Call, h: Header) {
    c.Read? && h.ret > 0
  }

  /** The descriptor that a slave moves after the call. */
  predicate Seeks(t: Table, c: Call, h: Header) {
    !c.Unlink? && h.ret != -1 && c.fd in t
  }

  /** lseek(fd, offs, SEEK_SET); on a descriptor that is not open it fails and changes nothing. */
  function SeekTo(k: Kernel, t: Table, c: Call, h: Header): Kernel
    requires TableOk(k, t)
  {
    if Seeks(t, c, h) then k.(descs := k.descs[t[c.fd] := k.descs[t[c.fd]].(offs := h.offs)]) else k
  }

  function SlaveResult(c: Call, h: Header, data: seq<byte>): Result {
    Result(h.ret, if h.ret == -1 then h.err else 0, if HasPayload(c, h) then data else [])
  }

  /** The kernel and the shared area, changed by the wrappers statement by statement. */
  class Machine {
    var kernel: Kernel
    var area: Area

    constructor (k: Kernel, a: Area)
      ensures kernel == k && area == a
    {
      kernel, area := k, a;
    }

    /** The libc function behind the wrapper. */
    method Libc(t: Table, c: Call) returns (res: Result)
      requires KernelOk(kernel) && TableOk(kernel, t)
      modifies this`kernel
      ensures var o := Exec(old(kernel), t, c); res == o.res && kernel == o.kernel
    {
      var o := Exec(kernel, t, c);
      kernel := o.kernel;
      res := o.res;
    }

    /** The masterAct functions of read, write and unlink. */
    method MasterAct(t: Table, c: Call) returns (res: Result)
      requires KernelOk(kernel) && TableOk(kernel, t)
      modifies this
      ensures var o := Exec(old(kernel), t, c);
        res == o.res && kernel == o.kernel && area == Broadcast(old(area), c, o)
    {
      res := Libc(t, c);
      var hdr := Header(res.err, res.ret, 0);
      if res.ret != -1 && !c.Unlink? {
        // lseek(fd, 0, SEEK_CUR)
        hdr := hdr.(offs := kernel.descs[t[c.fd]].offs);
      }
      area := area.(hdr := hdr);
      if c.Read? && hdr.ret > 0 {
        area := area.(payload := Put(area.payload, res.data));
      }
    }

    /** A slave between the master barrier and its return. The three parts are separate steps of the protocol. */
    method SlaveCatchesUp(t: Table, c: Call) returns (res: Result)
      requires KernelOk(kernel) && TableOk(kernel, t)
      requires HasPayload(c, area.hdr) ==> area.hdr.ret <= |area.payload|
      modifies this`kernel
      ensures kernel == SeekTo(old(kernel), t, c, area.hdr)
      ensures res == SlaveResult(c, area.hdr, if HasPayload(c, area.hdr) then area.payload[..area.hdr.ret] else [])
    {
      var hdr := area.hdr;
      var buf := [];
      if c.Read? && hdr.ret > 0 {
        buf := area.payload[..hdr.ret];
      }
      if !c.Unlink? && hdr.ret != -1 {
        if c.fd in t {
          kernel := kernel.(descs := kernel.descs[t[c.fd] := kernel.descs[t[c.fd]].(offs := hdr.offs)]);
        }
      }
      res := Result(hdr.ret, if hdr.ret == -1 then hdr.err else 0, buf);
    }
  }
}
