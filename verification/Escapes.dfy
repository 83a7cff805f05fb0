/** `str_expandEscapes`: a printable form of a C string, written into a buffer of fixed size. */
module Escapes {

  // ASCII control characters that Dafny has no escape for
  const BEL := 7 as char
  const BS := 8 as char
  const VT := 11 as char
  const FF := 12 as char

  /** The letter behind the backslash, for the characters that are escaped. */
  function Letter(c: char): (l: char)
  {
    if c == BEL then 'a' else if c == BS then 'b' else if c == '\t' then 't' else if c == '\n' then 'n'
    else if c == VT then 'v' else if c == FF then 'f' else if c == '\r' then 'r' else c
  }

  predicate Control(c: char) {
    c == BEL || c == BS || c == '\t' || c == '\n' || c == VT || c == FF || c == '\r'
  }

  predicate Escaped(c: char) {
    Control(c) || c == '\\' || c == '\"'
  }

  function ExpandChar(c: char): (r: string)
    ensures 1 <= |r| <= 2
  {
    if Escaped(c) then ['\\', Letter(c)] else [c]
  }

  function Expand(src: string): (r: string)
    ensures |src| <= |r| <= 2 * |src|
  {
    if src == [] then [] else ExpandChar(src[0]) + Expand(src[1..])
  }

  /** The character that a letter behind a backslash stands for. */
  function Meaning(l: char): char {
    match l
    case 'a' => BEL
    case 'b' => BS
    case 't' => '\t'
    case 'n' => '\n'
    case 'v' => VT
    case 'f' => FF
    case 'r' => '\r'
    case _ => l
  }

  /** Undoes Expand. */
  function Decode(s: string): string
    decreases |s|
  {
    if s == [] then []
    else if s[0] == '\\' && |s| > 1 then [Meaning(s[1])] + Decode(s[2..])
    else [s[0]] + Decode(s[1..])
  }

  lemma {:induction false} DecodeExpand(src: string)
    ensures Decode(Expand(src)) == src
  {
    if src != [] {
      DecodeExpand(src[1..]);
      var c, rest := src[0], Expand(src[1..]);
      if Escaped(c) {
        assert Expand(src)[0] == '\\' && Expand(src)[1] == Letter(c) && Expand(src)[2..] == rest;
        assert Meaning(Letter(c)) == c;
      } else {
        assert Expand(src)[0] == c && Expand(src)[1..] == rest;
      }
      assert src == [c] + src[1..];
    }
  }

  /** Different strings have different printable forms. */
  lemma ExpandInjective(a: string, b: string)
    requires Expand(a) == Expand(b)
    ensures a == b
  {
    DecodeExpand(a);
    DecodeExpand(b);
  }

  // The characters that the switch lists: bell, backspace, tab, newline, vertical tab, form feed, carriage return,
  // backslash and double quote
  const LISTED: set<char> :=
    {7 as char, 8 as char, 9 as char, 10 as char, 11 as char, 12 as char, 13 as char, 92 as char, 34 as char}

  /** The positions of these characters in a string. */
  function Positions(s: string): set<nat> {
    set k: nat | k < |s| && s[k] in LISTED
  }

  /** Characters that are not listed stay as they are, */
  lemma {:induction false} OthersStay(s: string)
    requires forall k | 0 <= k < |s| :: s[k] !in LISTED
    ensures Expand(s) == s
  {
    if s != [] {
      OthersStay(s[1..]);
    }
  }

  /** ... each that is listed has a form of two, */
  lemma ListedPairs()
    ensures Expand([7 as char]) == "\\a" && Expand([8 as char]) == "\\b" && Expand([9 as char]) == "\\t"
    ensures Expand([10 as char]) == "\\n" && Expand([11 as char]) == "\\v" && Expand([12 as char]) == "\\f"
    ensures Expand([13 as char]) == "\\r" && Expand([92 as char]) == "\\\\" && Expand([34 as char]) == "\\\""
  {
    ExpandEmpty();
    forall c: char ensures Expand([c]) == ExpandChar(c) {
      assert [c][1..] == [];
    }
  }

  /** ... and the form of a string is made from those of its parts. */
  lemma {:induction false} ExpandParts(a: string, b: string)
    ensures Expand(a + b) == Expand(a) + Expand(b)
  {
    if a == [] {
      assert a + b == b;
    } else {
      assert (a + b)[1..] == a[1..] + b;
      ExpandParts(a[1..], b);
    }
  }

  lemma CharLength(c: char)
    ensures |ExpandChar(c)| == if c in LISTED then 2 else 1
  {}

  /** One character more for each that is listed. */
  lemma {:induction false} ExpandLength(s: string)
    ensures |Expand(s)| == |s| + |Positions(s)|
  {
    if s == [] {
      ExpandEmpty();
    } else {
      hide Expand, ExpandChar;
      var n := |s| - 1;
      ExpandLength(s[..n]);
      ExpandSnoc(s[..n], s[n]);
      CharLength(s[n]);
      assert s == s[..n] + [s[n]];
      assert Positions(s) == if s[n] in LISTED then Positions(s[..n]) + {n} else Positions(s[..n]);
    }
  }

  /** No control character is left, and every quote is behind a backslash. */
  lemma {:induction false} ExpandPrintable(src: string)
    ensures forall k | 0 <= k < |Expand(src)| :: !Control(Expand(src)[k])
    ensures forall k | 0 <= k < |Expand(src)| && Expand(src)[k] == '\"' :: k > 0 && Expand(src)[k - 1] == '\\'
  {
    if src != [] {
      ExpandPrintable(src[1..]);
      var e, rest := ExpandChar(src[0]), Expand(src[1..]);
      assert Expand(src) == e + rest;
      forall k | 0 <= k < |Expand(src)|
        ensures !Control(Expand(src)[k])
        ensures Expand(src)[k] == '\"' ==> k > 0 && Expand(src)[k - 1] == '\\'
      {
        if k >= |e| {
          assert Expand(src)[k] == rest[k - |e|];
        }
      }
    }
  }

  /** A C string: it ends at its first zero. */
  ghost predicate CString(a: array<char>, len: nat)
    reads a
  {
    len < a.Length && a[len] == '\0' && forall k | 0 <= k < len :: a[k] != '\0'
  }

  /** `*(dest++) = c` */
  method Emit(dest: array<char>, d: nat, c: char) returns (next: nat)
    requires d < dest.Length
    modifies dest
    ensures next == d + 1 && dest[..next] == old(dest[..d]) + [c]
  {
    dest[d] := c;
    next := d + 1;
  }

  /** The switch: one or two characters for each character of the string. */
  method EmitChar(dest: array<char>, d: nat, c: char) returns (next: nat)
    requires d + |ExpandChar(c)| <= dest.Length
    modifies dest
    ensures next == d + |ExpandChar(c)| && dest[..next] == old(dest[..d]) + ExpandChar(c)
  {
    if c == BEL {
      next := Emit(dest, d, '\\');
      next := Emit(dest, next, 'a');
    } else if c == BS {
      next := Emit(dest, d, '\\');
      next := Emit(dest, next, 'b');
    } else if c == '\t' {
      next := Emit(dest, d, '\\');
      next := Emit(dest, next, 't');
    } else if c == '\n' {
      next := Emit(dest, d, '\\');
      next := Emit(dest, next, 'n');
    } else if c == VT {
      next := Emit(dest, d, '\\');
      next := Emit(dest, next, 'v');
    } else if c == FF {
      next := Emit(dest, d, '\\');
      next := Emit(dest, next, 'f');
    } else if c == '\r' {
      next := Emit(dest, d, '\\');
      next := Emit(dest, next, 'r');
    } else if c == '\\' {
      next := Emit(dest, d, '\\');
      next := Emit(dest, next, '\\');
    } else if c == '\"' {
      next := Emit(dest, d, '\\');
      next := Emit(dest, next, '\"');
    } else {
      next := Emit(dest, d, c);
    }
    assert dest[..next] == old(dest[..d]) + ExpandChar(c);
  }

  /** `str_expandEscapes`. No write is outside the buffer of 2 * strlen + 1 characters. */
  method ExpandEscapes(src: array<char>, ghost len: nat) returns (dest: array<char>, ghost destLen: nat)
    requires CString(src, len)
    ensures fresh(dest) && destLen < dest.Length == 2 * len + 1
    ensures dest[..destLen] == Expand(src[..len]) && dest[destLen] == '\0'
    ensures CString(dest, destLen)
  {
    hide Expand, ExpandChar;
    var n := StrLen(src, len);
    dest := new char[2 * n + 1](_ => '\0');
    var i, d := 0, 0;
    ExpandEmpty();
    while src[i] != '\0'
      invariant 0 <= i <= len && 0 <= d <= 2 * i && n == len
      invariant dest[..d] == Expand(src[..i])
      decreases len - i
    {
      var c := src[i];
      ExpandSnoc(src[..i], c);
      assert src[..i + 1] == src[..i] + [c];
      d := EmitChar(dest, d, c);
      i := i + 1;
    }
    d := Emit(dest, d, '\0');
    destLen := d - 1;
    ExpandNoZero(src[..len]);
    assert dest[..destLen] == dest[..d][..destLen];
  }

  method StrLen(src: array<char>, ghost len: nat) returns (n: nat)
    requires CString(src, len)
    ensures n == len
  {
    n := 0;
    while src[n] != '\0'
      invariant 0 <= n <= len
      decreases len - n
    {
      n := n + 1;
    }
  }

  lemma ExpandEmpty()
    ensures Expand("") == ""
  {}

  lemma {:induction false} ExpandSnoc(s: string, c: char)
    ensures Expand(s + [c]) == Expand(s) + ExpandChar(c)
  {
    hide ExpandChar;
    if s == [] {
      assert s + [c] == [c] && [c][1..] == [];
    } else {
      ExpandSnoc(s[1..], c);
      assert (s + [c])[1..] == s[1..] + [c];
    }
  }

  lemma {:induction false} ExpandNoZero(s: string)
    requires forall k | 0 <= k < |s| :: s[k] != '\0'
    ensures forall k | 0 <= k < |Expand(s)| :: Expand(s)[k] != '\0'
  {
    if s != [] {
      ExpandNoZero(s[1..]);
    }
  }
}
