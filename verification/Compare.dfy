/** The arguments a replica presents at a check barrier, and the comparison under the vote. */
module Compare {

  // An `unsigned long`
  type word = x: int | 0 <= x < 0x1_0000_0000_0000_0000

  // Address of the intercepted function and its six integer arguments
  datatype SyscallArgs = SyscallArgs(addr: word, arg0: word, arg1: word, arg2: word, arg3: word, arg4: word,
    arg5: word) {

    function Field(k: nat): word
      requires k < 7
    {
      match k
      case 0 => addr
      case 1 => arg0
      case 2 => arg1
      case 3 => arg2
      case 4 => arg3
      case 5 => arg4
      case 6 => arg5
    }
  }

  const ZERO_ARGS := SyscallArgs(0, 0, 0, 0, 0, 0, 0)

  /** Bit k of a bit mask. */
  predicate Flag(faultVal: nat, k: nat) {
    if k == 0 then faultVal % 2 == 1 else Flag(faultVal / 2, k - 1)
  }

  /** The bit mask whose bit k is d[from + k]. */
  function MaskOf(d: seq<bool>, from: nat): nat
    requires from <= |d|
    decreases |d| - from
  {
    if from == |d| then 0 else (if d[from] then 1 else 0) + 2 * MaskOf(d, from + 1)
  }

  /** The lowest bit of a mask, and the others. */
  lemma MaskSplit(d: seq<bool>, from: nat)
    requires from < |d|
    ensures MaskOf(d, from) % 2 == (if d[from] then 1 else 0) && MaskOf(d, from) / 2 == MaskOf(d, from + 1)
  {
    Halved(if d[from] then 1 else 0, MaskOf(d, from + 1));
  }

  lemma Halved(bit: nat, rest: nat)
    requires bit < 2
    ensures (bit + 2 * rest) % 2 == bit && (bit + 2 * rest) / 2 == rest
  {}

  lemma {:induction false} MaskFlags(d: seq<bool>, from: nat, k: nat)
    requires from + k < |d|
    ensures Flag(MaskOf(d, from), k) <==> d[from + k]
    decreases k
  {
    hide MaskOf;
    MaskSplit(d, from);
    if k > 0 {
      MaskFlags(d, from + 1, k - 1);
    }
  }

  function Differences(args1: SyscallArgs, args2: SyscallArgs): seq<bool> {
    [args1.addr != args2.addr, args1.arg0 != args2.arg0, args1.arg1 != args2.arg1, args1.arg2 != args2.arg2,
     args1.arg3 != args2.arg3, args1.arg4 != args2.arg4, args1.arg5 != args2.arg5]
  }

  /** The `CompareElement` macro: raises a bit, not raised before, where a field differs. */
  function CompareElement(faultVal: nat, differs: bool, bit: nat): nat {
    if differs then faultVal + bit else faultVal
  }

  /** `plrC_compareArgs`: a bit mask with exactly one bit for each field that differs.
      Each bit is set at most once, so `|=` is written as an addition. */
  method CompareArgs(args1: SyscallArgs, args2: SyscallArgs) returns (faultVal: nat)
    ensures forall k | 0 <= k < 7 :: Flag(faultVal, k) <==> args1.Field(k) != args2.Field(k)
    ensures faultVal == 0 <==> args1 == args2
  {
    faultVal := 0;
    faultVal := CompareElement(faultVal, args1.addr != args2.addr, 1);
    faultVal := CompareElement(faultVal, args1.arg0 != args2.arg0, 2);
    faultVal := CompareElement(faultVal, args1.arg1 != args2.arg1, 4);
    faultVal := CompareElement(faultVal, args1.arg2 != args2.arg2, 8);
    faultVal := CompareElement(faultVal, args1.arg3 != args2.arg3, 16);
    faultVal := CompareElement(faultVal, args1.arg4 != args2.arg4, 32);
    faultVal := CompareElement(faultVal, args1.arg5 != args2.arg5, 64);
    SevenBits(Differences(args1, args2));
    MaskOfDifferences(args1, args2, faultVal);
  }

  lemma MaskOfDifferences(args1: SyscallArgs, args2: SyscallArgs, faultVal: nat)
    requires faultVal == MaskOf(Differences(args1, args2), 0)
    ensures forall k | 0 <= k < 7 :: Flag(faultVal, k) <==> args1.Field(k) != args2.Field(k)
    ensures faultVal == 0 <==> args1 == args2
  {
    hide Flag, MaskOf;
    var d := Differences(args1, args2);
    forall k: nat | k < 7 ensures Flag(faultVal, k) <==> args1.Field(k) != args2.Field(k) {
      MaskFlags(d, 0, k);
      assert d[k] == (args1.Field(k) != args2.Field(k));
    }
    SevenBits(d);
  }

  lemma SevenBits(d: seq<bool>)
    requires |d| == 7
    ensures MaskOf(d, 0) == (if d[0] then 1 else 0) + (if d[1] then 2 else 0) + (if d[2] then 4 else 0)
      + (if d[3] then 8 else 0) + (if d[4] then 16 else 0) + (if d[5] then 32 else 0) + (if d[6] then 64 else 0)
  {
    assert MaskOf(d, 6) == if d[6] then 1 else 0;
    assert MaskOf(d, 4) == (if d[4] then 1 else 0) + 2 * MaskOf(d, 5);
    assert MaskOf(d, 2) == (if d[2] then 1 else 0) + 2 * MaskOf(d, 3);
  }

  // ----- The vote over three replicas

  datatype Verdict = AllAgree | Faulty(idx: nat) | NoMajority

  /** The verdict of the vote, stated by which arguments the replicas share. */
  ghost predicate IsVerdict(a: seq<SyscallArgs>, v: Verdict)
    requires |a| == 3
  {
    match v
    case AllAgree => forall i, j | 0 <= i < 3 && 0 <= j < 3 :: a[i] == a[j]
    case Faulty(b) => b < 3 && forall i, j | 0 <= i < 3 && 0 <= j < 3 && i != j :: a[i] == a[j] <==> i != b && j != b
    case NoMajority => forall i, j | 0 <= i < 3 && 0 <= j < 3 && i != j :: a[i] != a[j]
  }

  function Judge(a: seq<SyscallArgs>): (v: Verdict)
    requires |a| == 3
    ensures IsVerdict(a, v)
  {
    if a[0] == a[1] then (if a[1] == a[2] then AllAgree else Faulty(2))
    else if a[1] == a[2] then Faulty(0)
    else if a[0] == a[2] then Faulty(1)
    else NoMajority
  }

  /** Exactly one verdict fits any three argument records. */
  lemma VerdictUnique(a: seq<SyscallArgs>, v: Verdict)
    requires |a| == 3 && IsVerdict(a, v)
    ensures v == Judge(a)
  {
    match v
    case AllAgree => assert a[0] == a[1] && a[1] == a[2];
    case Faulty(b) =>
      assert a[0] == a[1] <==> 0 != b && 1 != b;
      assert a[1] == a[2] <==> 1 != b && 2 != b;
      assert a[0] == a[2] <==> 0 != b && 2 != b;
    case NoMajority => assert a[0] != a[1] && a[1] != a[2] && a[0] != a[2];
  }

  /** The selection of the faulted process in `plr_checkSyscallArgs_act`. */
  method SelectFaulty(a: seq<SyscallArgs>) returns (badProc: int)
    requires |a| == 3
    ensures badProc == match Judge(a) case AllAgree => -1 case Faulty(b) => b case NoMajority => 3
  {
    var comp0vs1 := CompareArgs(a[0], a[1]);
    var comp1vs2 := CompareArgs(a[1], a[2]);
    if comp0vs1 == 0 && comp1vs2 == 0 {
      badProc := -1;
    } else {
      var comp0vs2 := CompareArgs(a[0], a[2]);
      if comp0vs1 > 0 && comp1vs2 == 0 {
        badProc := 0;
      } else if comp0vs1 > 0 && comp0vs2 == 0 {
        badProc := 1;
      } else if comp0vs2 > 0 && comp0vs1 == 0 {
        badProc := 2;
      } else {
        badProc := 3;
      }
    }
  }
}
