/** The string operations index.js applies to the UUID (index.js:32, 40), and
    the textual UUID form of section 4 of RFC 9562 that `crypto.randomUUID`
    produces (a version-4 UUID, section 5.4). */
module Uuid {
  import opened Ascii

  function Min(a: int, b: int): int {
    if a <= b then a else b
  }

  /** `s.replace(/-/g, '')`: every hyphen-minus removed, every other character
      kept in order (`StripDashesConcat`) and with its multiplicity
      (`StripDashesMultiset`). */
  function StripDashes(s: string): (r: string)
    ensures '-' !in r
    ensures |r| <= |s|
    decreases |s|
  {
    if s == [] then []
    else if s[0] == '-' then StripDashes(s[1..])
    else [s[0]] + StripDashes(s[1..])
  }

  /** Exactly the dashes are removed: every other character keeps its count. */
  lemma {:induction false} StripDashesMultiset(s: string)
    ensures multiset(StripDashes(s)) == multiset(s)['-' := 0]
    decreases |s|
  {
    if s != [] {
      assert s == [s[0]] + s[1..];
      StripDashesMultiset(s[1..]);
    }
  }

  /** Removing the dashes of a concatenation removes them from each part. */
  lemma {:induction false} StripDashesConcat(a: string, b: string)
    ensures StripDashes(a + b) == StripDashes(a) + StripDashes(b)
    decreases |a|
  {
    if a != [] {
      assert (a + b)[0] == a[0];
      assert (a + b)[1..] == a[1..] + b;
      StripDashesConcat(a[1..], b);
    } else {
      assert a + b == b;
    }
  }

  /** A string without dashes is left as it is. */
  lemma {:induction false} StripDashesDashFree(s: string)
    requires '-' !in s
    ensures StripDashes(s) == s
    decreases |s|
  {
    if s != [] {
      assert s[0] in s;
      assert forall c :: c in s[1..] ==> c in s;
      StripDashesDashFree(s[1..]);
      assert s == [s[0]] + s[1..];
    }
  }

  /** Only dashes are removed: the number of characters dropped is the number of dashes. */
  lemma StripDashesLength(s: string)
    ensures |StripDashes(s)| == |s| - multiset(s)['-']
  {
    var r := StripDashes(s);
    StripDashesMultiset(s);
    assert |multiset(r)| == |r|;
    assert |multiset(s)| == |s|;
    assert multiset(s) == multiset(r) + multiset{}['-' := multiset(s)['-']];
  }

  /** `s.substring(0, n)` for a non-negative `n`: the first `n` characters, or
      all of them when the string is shorter. */
  function Take(s: string, n: nat): (r: string)
    ensures |r| == Min(n, |s|)
    ensures r == s[..|r|]
  {
    if |s| <= n then s else s[..n]
  }

  /** Positions 8, 13, 18 and 23 carry the separators of the 8-4-4-4-12 form. */
  predicate IsDashPosition(i: int) {
    i == 8 || i == 13 || i == 18 || i == 23
  }

  /** The textual form of a UUID in section 4 of RFC 9562: 36 characters,
      hyphens at the four separator positions, hexadecimal digits elsewhere. */
  predicate IsUuidText(u: string) {
    && |u| == 36
    && forall i :: 0 <= i < |u| ==> if IsDashPosition(i) then u[i] == '-' else IsHexDigit(u[i])
  }

  /** Version 4 (section 5.4 of RFC 9562): version nibble `4` at position 14,
      variant bits `10` so position 19 is one of `8 9 a b`. */
  predicate IsVersion4Uuid(u: string) {
    && IsUuidText(u)
    && u[14] == '4'
    && u[19] in "89abAB"
  }

  /** Dropping the dashes of a string whose first dash is at `k`: the first `k`
      characters survive unchanged and the rest is processed after the dash. */
  lemma StripDashesAtDash(s: string, k: nat)
    requires k < |s| && s[k] == '-' && '-' !in s[..k]
    ensures StripDashes(s) == s[..k] + StripDashes(s[k + 1..])
  {
    assert s == s[..k] + ['-'] + s[k + 1..];
    StripDashesConcat(s[..k] + ['-'], s[k + 1..]);
    StripDashesConcat(s[..k], ['-']);
    StripDashesDashFree(s[..k]);
  }

  lemma AllHexDashFree(s: string)
    requires AllHex(s)
    ensures '-' !in s
  {
  }

  lemma AllHexConcat(a: string, b: string)
    requires AllHex(a) && AllHex(b)
    ensures AllHex(a + b)
  {
  }

  /** The five digit groups of a UUID in textual form. */
  lemma UuidGroups(u: string)
    requires IsUuidText(u)
    ensures AllHex(u[..8]) && AllHex(u[9..13]) && AllHex(u[14..18])
    ensures AllHex(u[19..23]) && AllHex(u[24..])
    ensures u[8] == '-' && u[13] == '-' && u[18] == '-' && u[23] == '-'
  {
  }

  /** A UUID in textual form loses exactly its four separators, leaving the
      five digit groups in order. */
  lemma CanonicalStripDashes(u: string)
    requires IsUuidText(u)
    ensures StripDashes(u) == u[..8] + u[9..13] + u[14..18] + u[19..23] + u[24..]
  {
    UuidGroups(u);
    AllHexDashFree(u[..8]);
    AllHexDashFree(u[9..13]);
    AllHexDashFree(u[14..18]);
    AllHexDashFree(u[19..23]);
    AllHexDashFree(u[24..]);
    StripSeparatedGroups(u);
  }

  /** The separators at 8, 13, 18 and 23 are the only dashes, so they are all
      that `StripDashes` removes. */
  lemma StripSeparatedGroups(u: string)
    requires |u| == 36
    requires u[8] == '-' && u[13] == '-' && u[18] == '-' && u[23] == '-'
    requires '-' !in u[..8] && '-' !in u[9..13] && '-' !in u[14..18]
    requires '-' !in u[19..23] && '-' !in u[24..]
    ensures StripDashes(u) == u[..8] + u[9..13] + u[14..18] + u[19..23] + u[24..]
  {
    var g0, g1, g2, g3, g4 := u[..8], u[9..13], u[14..18], u[19..23], u[24..];
    var t1, t2, t3 := u[9..], u[14..], u[19..];
    assert t1[..4] == g1 && t1[4] == '-' && t1[5..] == t2;
    assert t2[..4] == g2 && t2[4] == '-' && t2[5..] == t3;
    assert t3[..4] == g3 && t3[4] == '-' && t3[5..] == g4;
    StripDashesDashFree(g4);
    StripDashesAtDash(t3, 4);
    StripDashesAtDash(t2, 4);
    StripDashesAtDash(t1, 4);
    StripDashesAtDash(u, 8);
    calc {
      StripDashes(u);
      g0 + StripDashes(t1);
      g0 + (g1 + StripDashes(t2));
      g0 + (g1 + (g2 + StripDashes(t3)));
      g0 + (g1 + (g2 + (g3 + g4)));
      { ConcatAssoc5(g0, g1, g2, g3, g4); }
      g0 + g1 + g2 + g3 + g4;
    }
  }

  lemma ConcatAssoc5(a: string, b: string, c: string, d: string, e: string)
    ensures a + (b + (c + (d + e))) == a + b + c + d + e
  {
  }

  /** What is left of a UUID in textual form is 32 hexadecimal digits. */
  lemma CanonicalStripDashesDigits(u: string)
    requires IsUuidText(u)
    ensures |StripDashes(u)| == 32
    ensures AllHex(StripDashes(u))
  {
    CanonicalStripDashes(u);
    UuidGroups(u);
    AllHexConcat(u[..8], u[9..13]);
    AllHexConcat(u[..8] + u[9..13], u[14..18]);
    AllHexConcat(u[..8] + u[9..13] + u[14..18], u[19..23]);
    AllHexConcat(u[..8] + u[9..13] + u[14..18] + u[19..23], u[24..]);
  }
}
