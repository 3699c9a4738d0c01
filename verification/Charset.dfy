/** address.cpp: the 32-character alphabet shared by Bech32 and CashAddr, and the case handling of both. */
module Charset {
  import opened Bits
  import Checksum

  const CHARSET := "qpzry9x8" + "gf2tvdw0" + "s3jn54kh" + "ce6mua7l"

  // The first position of c at or after i, or |CHARSET|.
  function Find(c: char, i: nat): (d: nat)
    requires i <= |CHARSET|
    ensures i <= d <= |CHARSET| && (d < |CHARSET| ==> CHARSET[d] == c)
    ensures forall k :: i <= k < d ==> CHARSET[k] != c
    decreases |CHARSET| - i, c
  {
    if i == |CHARSET| || CHARSET[i] == c then i else Find(c, i + 1)
  }

  predicate Known(c: char) {
    Find(c, 0) < |CHARSET|
  }

  predicate AllKnown(s: string) {
    forall i :: 0 <= i < |s| ==> Known(s[i])
  }

  // ----- the 32 characters are distinct, lower case and not '1' or ':' -----

  function Rank(c: char): int {
    if c == 'q' then 0 else if c == 'p' then 1 else if c == 'z' then 2 else if c == 'r' then 3
    else if c == 'y' then 4 else if c == '9' then 5 else if c == 'x' then 6 else if c == '8' then 7
    else if c == 'g' then 8 else if c == 'f' then 9 else if c == '2' then 10 else if c == 't' then 11
    else if c == 'v' then 12 else if c == 'd' then 13 else if c == 'w' then 14 else if c == '0' then 15
    else if c == 's' then 16 else if c == '3' then 17 else if c == 'j' then 18 else if c == 'n' then 19
    else if c == '5' then 20 else if c == '4' then 21 else if c == 'k' then 22 else if c == 'h' then 23
    else if c == 'c' then 24 else if c == 'e' then 25 else if c == '6' then 26 else if c == 'm' then 27
    else if c == 'u' then 28 else if c == 'a' then 29 else if c == '7' then 30 else if c == 'l' then 31 else -1
  }

  predicate Plain(c: char) {
    ('0' <= c <= '9' && c != '1') || 'a' <= c <= 'z'
  }

  ghost predicate Ranked(s: string, first: nat) {
    forall i :: 0 <= i < |s| ==> Rank(s[i]) == first + i && Plain(s[i])
  }

  lemma RankedFirst()
    ensures Ranked("qpzry9x8", 0) && Ranked("gf2tvdw0", 8)
  {}

  lemma RankedLast()
    ensures Ranked("s3jn54kh", 16) && Ranked("ce6mua7l", 24)
  {}

  lemma CharsetRanked()
    ensures |CHARSET| == 32 && Ranked(CHARSET, 0)
  {
    RankedFirst();
    RankedLast();
  }

  lemma FindIs(c: char, d: nat)
    requires d < |CHARSET| && CHARSET[d] == c
    ensures Find(c, 0) == d
  {
    CharsetRanked();
    assert Find(c, 0) <= d;
    assert Rank(CHARSET[Find(c, 0)]) == Find(c, 0);
  }

  lemma KnownIsPlain(c: char)
    requires Known(c)
    ensures Plain(c)
  {
    CharsetRanked();
  }

  // ----- reading and spelling symbols -----

  function Read(s: string): (vs: seq<nat>)
    ensures |vs| == |s| && forall i :: 0 <= i < |s| ==> vs[i] == Find(s[i], 0)
  {
    seq<nat>(|s|, i requires 0 <= i < |s| => Find(s[i], 0))
  }

  lemma FiveBits(v: nat)
    ensures Shr(v, 5) == 0 <==> v < 32
  {
    Checksum.ShiftedBits(v);
  }

  lemma FiveBitSymbols(vs: seq<nat>)
    ensures Fit(vs, 5) <==> forall i :: 0 <= i < |vs| ==> vs[i] < 32
  {
    forall i | 0 <= i < |vs|
      ensures Shr(vs[i], 5) == 0 <==> vs[i] < 32
    {
      FiveBits(vs[i]);
    }
  }

  function Spell(vs: seq<nat>): (s: string)
    requires Fit(vs, 5)
    ensures |s| == |vs|
    ensures forall i :: 0 <= i < |vs| ==> vs[i] < |CHARSET| && s[i] == CHARSET[vs[i]]
  {
    FiveBitSymbols(vs);
    CharsetRanked();
    seq<char>(|vs|, i requires 0 <= i < |vs| => CHARSET[vs[i]])
  }

  lemma ReadFits(s: string)
    requires AllKnown(s)
    ensures Fit(Read(s), 5)
  {
    CharsetRanked();
    FiveBitSymbols(Read(s));
  }

  lemma ReadSpelled(vs: seq<nat>)
    requires Fit(vs, 5)
    ensures AllKnown(Spell(vs)) && Read(Spell(vs)) == vs
  {
    var s := Spell(vs);
    forall i | 0 <= i < |vs|
      ensures Find(s[i], 0) == vs[i]
    {
      FindIs(s[i], vs[i]);
    }
  }

  lemma SpellRead(s: string)
    requires AllKnown(s)
    ensures Fit(Read(s), 5) && Spell(Read(s)) == s
  {
    ReadFits(s);
  }

  lemma SpellConcat(x: seq<nat>, y: seq<nat>)
    requires Fit(x, 5) && Fit(y, 5)
    ensures Fit(x + y, 5) && Spell(x + y) == Spell(x) + Spell(y)
  {
    FitConcat(x, y);
  }

  lemma FitConcat(x: seq<nat>, y: seq<nat>)
    requires Fit(x, 5) && Fit(y, 5)
    ensures Fit(x + y, 5)
  {
    var z := x + y;
    assert forall i :: 0 <= i < |z| ==> z[i] == if i < |x| then x[i] else y[i - |x|];
  }

  lemma LowMasks()
    ensures Mask(5) == 31 && Mask(3) == 7
  {
    assert Mask(2) == 3;
    assert Mask(4) == 15;
  }

  // ----- letter case -----

  predicate IsUpper(c: char) {
    'A' <= c <= 'Z'
  }

  predicate IsLower(c: char) {
    'a' <= c <= 'z'
  }

  function LowerChar(c: char): char {
    if IsUpper(c) then (c as int + 32) as char else c
  }

  function Lower(s: string): (l: string)
    ensures |l| == |s| && forall i :: 0 <= i < |s| ==> l[i] == LowerChar(s[i])
  {
    seq<char>(|s|, i requires 0 <= i < |s| => LowerChar(s[i]))
  }

  predicate Mixed(s: string) {
    (exists i :: 0 <= i < |s| && IsUpper(s[i])) && (exists i :: 0 <= i < |s| && IsLower(s[i]))
  }

  lemma PlainIsLower(s: string)
    requires forall i :: 0 <= i < |s| ==> Plain(s[i])
    ensures Lower(s) == s && !Mixed(s)
  {}

  method IsMixed(s: string) returns (mixed: bool)
    ensures mixed == Mixed(s)
  {
    var hasUpper, hasLower := false, false;
    for i := 0 to |s|
      invariant hasUpper <==> exists k :: 0 <= k < i && IsUpper(s[k])
      invariant hasLower <==> exists k :: 0 <= k < i && IsLower(s[k])
    {
      if IsUpper(s[i]) {
        hasUpper := true;
      } else if IsLower(s[i]) {
        hasLower := true;
      }
    }
    mixed := hasUpper && hasLower;
  }

  method ToLower(s: string) returns (l: string)
    ensures l == Lower(s)
  {
    l := "";
    for i := 0 to |s|
      invariant l == Lower(s)[..i]
    {
      l := l + [LowerChar(s[i])];
    }
  }

  /** The symbols of s, or nothing at the first character outside the alphabet. */
  method ReadSymbols(s: string) returns (known: bool, values: seq<nat>)
    ensures known == AllKnown(s)
    ensures known ==> values == Read(s)
  {
    values := [];
    for i := 0 to |s|
      invariant values == Read(s)[..i] && AllKnown(s[..i])
    {
      var idx := Find(s[i], 0);
      if idx == |CHARSET| {
        return false, [];
      }
      values := values + [idx];
    }
    known := true;
    assert s[..|s|] == s;
  }
}
