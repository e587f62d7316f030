/** The C library string functions the shell relies on, over byte sequences.
    The text of a C string is the sequence of bytes before its terminating NUL,
    so it never contains NUL itself. */
module CStrings {
  import opened CTypes

  const NUL: uint8 := 0
  const NEWLINE: uint8 := 10
  const SPACE: uint8 := 32
  const DIGIT_ZERO: uint8 := 48
  const DIGIT_NINE: uint8 := 57

  predicate NulFree(s: seq<uint8>)
  {
    NUL !in s
  }

  predicate IsDigit(c: uint8)
  {
    DIGIT_ZERO <= c <= DIGIT_NINE
  }

  /** Position of the first `b` in `s`, or `|s|` when `s` holds none. */
  function IndexOf(s: seq<uint8>, b: uint8): (r: nat)
    ensures r <= |s|
    ensures r < |s| ==> s[r] == b
    ensures b !in s[..r]
  {
    if s == [] then 0
    else if s[0] == b then 0
    else 1 + IndexOf(s[1..], b)
  }

  /** The first `b` is where the first `b` is. */
  lemma IndexOfIsFirst(s: seq<uint8>, b: uint8, i: nat)
    requires i <= |s| && b !in s[..i] && (i < |s| ==> s[i] == b)
    ensures IndexOf(s, b) == i
  {
  }

  /** Memory `mem` holds a NUL-terminated string starting at `p`. */
  predicate TerminatedAt(mem: seq<uint8>, p: nat)
  {
    p <= |mem| && NUL in mem[p..]
  }

  /** The text of the C string at `p` (what `strlen` measures). */
  function StringAt(mem: seq<uint8>, p: nat): (s: seq<uint8>)
    requires TerminatedAt(mem, p)
    ensures NulFree(s)
    ensures p + |s| < |mem| && mem[p + |s|] == NUL
    ensures s == mem[p..p + |s|]
  {
    mem[p..p + IndexOf(mem[p..], NUL)]
  }

  /** `s` is the text of the C string at `p`. */
  predicate IsStringAt(mem: seq<uint8>, p: nat, s: seq<uint8>)
  {
    p + |s| < |mem| && mem[p..p + |s|] == s && mem[p + |s|] == NUL && NulFree(s)
  }

  lemma StringAtIsUnique(mem: seq<uint8>, p: nat, s: seq<uint8>)
    ensures IsStringAt(mem, p, s) <==> TerminatedAt(mem, p) && StringAt(mem, p) == s
  {
    if IsStringAt(mem, p, s) {
      assert mem[p..][|s|] == NUL;
    }
  }

  /** The byte a `char*` to the text `s` points at: the terminator once `s` is used up. */
  function Head(s: seq<uint8>): uint8
  {
    if s == [] then NUL else s[0]
  }

  /** `strcmp` (and `strcmp_P`) on the texts `a` and `b`: the difference of
      the first pair of bytes that differ, the terminators included. */
  function StrCmp(a: seq<uint8>, b: seq<uint8>): (r: int)
    ensures NulFree(a) && NulFree(b) ==> (r == 0 <==> a == b)
  {
    if a == [] || b == [] || a[0] != b[0] then Head(a) - Head(b)
    else StrCmp(a[1..], b[1..])
  }

  /** `strncmp` (and `strncmp_P`): as `StrCmp`, but looking at no more than `n` bytes. */
  function StrNCmp(a: seq<uint8>, b: seq<uint8>, n: nat): (r: int)
    ensures NulFree(a) && NulFree(b) && |b| == n ==> (r == 0 <==> b <= a)
  {
    if n == 0 then 0
    else if a == [] || b == [] || a[0] != b[0] then Head(a) - Head(b)
    else StrNCmp(a[1..], b[1..], n - 1)
  }
}
