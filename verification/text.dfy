/** JavaScript's `trim` and `trimStart`, on strings of Unicode scalar values. */
module Text {
  /** ECMAScript white space and line terminators. */
  predicate IsSpace(c: char) {
    var n := c as int;
    || 9 <= n <= 13 || n == 0x20 || n == 0xA0 || n == 0x1680 || 0x2000 <= n <= 0x200A
    || n == 0x2028 || n == 0x2029 || n == 0x202F || n == 0x205F || n == 0x3000 || n == 0xFEFF
  }

  /** The code points of white space, one by one. */
  const SPACES: set<int> := {
    0x9, 0xA, 0xB, 0xC, 0xD, 0x20, 0xA0, 0x1680, 0x2000, 0x2001, 0x2002, 0x2003, 0x2004, 0x2005, 0x2006, 0x2007, 0x2008, 0x2009,
    0x200A, 0x2028, 0x2029, 0x202F, 0x205F, 0x3000, 0xFEFF
  }

  lemma SpacesAre(c: char)
    ensures IsSpace(c) <==> c as int in SPACES
  {
  }

  function TrimStart(s: string): string {
    if s != [] && IsSpace(s[0]) then TrimStart(s[1..]) else s
  }

  function TrimEnd(s: string): string {
    if s != [] && IsSpace(s[|s| - 1]) then TrimEnd(s[..|s| - 1]) else s
  }

  function Trim(s: string): string {
    TrimEnd(TrimStart(s))
  }

  predicate AllSpace(s: string) {
    forall i :: 0 <= i < |s| ==> IsSpace(s[i])
  }

  /** `t` is `s` without its outer white space. */
  ghost predicate IsTrimmed(t: string, s: string) {
    && (exists a: nat, b: nat :: a <= b <= |s| && t == s[a..b] && AllSpace(s[..a]) && AllSpace(s[b..]))
    && (t != "" ==> !IsSpace(t[0]) && !IsSpace(t[|t| - 1]))
  }

  lemma {:induction false} TrimStartCuts(s: string) returns (a: nat)
    ensures a <= |s| && TrimStart(s) == s[a..] && AllSpace(s[..a]) && (a < |s| ==> !IsSpace(s[a]))
  {
    a := 0;
    if s != [] && IsSpace(s[0]) {
      var k := TrimStartCuts(s[1..]);
      a := k + 1;
      forall i | 0 <= i < a ensures IsSpace(s[i]) { if i > 0 { assert s[1..][..k][i - 1] == s[i]; } }
    }
  }

  lemma {:induction false} TrimEndCuts(s: string) returns (b: nat)
    ensures b <= |s| && TrimEnd(s) == s[..b] && AllSpace(s[b..]) && (b > 0 ==> !IsSpace(s[b - 1]))
  {
    b := |s|;
    if s != [] && IsSpace(s[|s| - 1]) {
      b := TrimEndCuts(s[..|s| - 1]);
      forall i | b <= i < |s| ensures IsSpace(s[i]) { if i < |s| - 1 { assert s[..|s| - 1][b..][i - b] == s[i]; } }
    }
  }

  /** `Trim` takes away all outer white space and nothing else. */
  lemma TrimTrims(s: string)
    ensures IsTrimmed(Trim(s), s)
  {
    var a := TrimStartCuts(s);
    var t := TrimStart(s);
    var b := TrimEndCuts(t);
    assert t[..b] == s[a..a + b] && s[a + b..] == t[b..];
    if b > 0 { assert t[..b][b - 1] == t[b - 1] && t[..b][0] == s[a]; }
  }

  lemma TrimmedIsUnique(t: string, u: string, s: string)
    requires IsTrimmed(t, s) && IsTrimmed(u, s)
    ensures t == u
  {
    var a, b := CutOf(t, s);
    var c, d := CutOf(u, s);
  }

  /** Where the trimmed text begins and ends: no white space at its ends, nothing else outside. */
  lemma CutOf(t: string, s: string) returns (a: nat, b: nat)
    requires IsTrimmed(t, s)
    ensures a <= b <= |s| && t == s[a..b] && forall i :: 0 <= i < |s| && (i < a || b <= i) ==> IsSpace(s[i])
    ensures a < b ==> !IsSpace(s[a]) && !IsSpace(s[b - 1])
  {
    a, b :| a <= b <= |s| && t == s[a..b] && AllSpace(s[..a]) && AllSpace(s[b..]);
    OutsideIsSpace(s, a, b);
  }

  lemma OutsideIsSpace(s: string, a: nat, b: nat)
    requires a <= b <= |s| && AllSpace(s[..a]) && AllSpace(s[b..])
    ensures forall i :: 0 <= i < |s| && (i < a || b <= i) ==> IsSpace(s[i])
  {
    forall i | 0 <= i < |s| && (i < a || b <= i) ensures IsSpace(s[i]) {
      if i < a { assert s[..a][i] == s[i]; } else { assert s[b..][i - b] == s[i]; }
    }
  }

  /** Only white space trims to nothing. */
  lemma TrimIsEmptyIff(s: string)
    ensures Trim(s) == "" <==> AllSpace(s)
  {
    TrimTrims(s);
    if Trim(s) == "" {
      var a: nat, b: nat :| a <= b <= |s| && Trim(s) == s[a..b] && AllSpace(s[..a]) && AllSpace(s[b..]);
      forall i | 0 <= i < |s| ensures IsSpace(s[i]) { if i < a { assert s[..a][i] == s[i]; } else { assert s[b..][i - b] == s[i]; } }
    } else {
      var a: nat, b: nat :| a <= b <= |s| && Trim(s) == s[a..b] && AllSpace(s[..a]) && AllSpace(s[b..]);
      assert s[a] == Trim(s)[0];
    }
  }
}
