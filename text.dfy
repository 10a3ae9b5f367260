/** Strings as sequences of characters: ASCII lower-casing, substring search,
    and the two regular-expression replacements the prompt sanitisers use
    (a global alternation of literal words, and a clause that runs to the end
    of its line). */
module Text {
  import opened Common

  // ---------------------------------------------------------------------------
  // Lower-casing
  // ---------------------------------------------------------------------------

  /** ASCII lower-casing of one character; every other character is unchanged. */
  function LowerChar(c: char): char
  {
    if 'A' <= c <= 'Z' then (c as int + 32) as char else c
  }

  function Lower(s: string): (r: string)
    ensures |r| == |s|
    ensures forall i :: 0 <= i < |s| ==> r[i] == LowerChar(s[i])
  {
    seq(|s|, i requires 0 <= i < |s| => LowerChar(s[i]))
  }

  predicate IsLower(s: string)
  {
    forall i :: 0 <= i < |s| ==> LowerChar(s[i]) == s[i]
  }

  lemma LowerIsLower(s: string)
    ensures IsLower(Lower(s))
  {
  }

  lemma LowerOfLower(s: string)
    requires IsLower(s)
    ensures Lower(s) == s
  {
  }

  lemma LowerIdempotent(s: string)
    ensures Lower(Lower(s)) == Lower(s)
  {
    LowerIsLower(s);
    LowerOfLower(Lower(s));
  }

  // ---------------------------------------------------------------------------
  // Substring search (`includes`, `indexOf`, `strpos`)
  // ---------------------------------------------------------------------------

  predicate OccursAt(s: string, t: string, i: int)
  {
    0 <= i && i + |t| <= |s| && s[i..i + |t|] == t
  }

  /** `s.includes(t)` */
  predicate Contains(s: string, t: string)
  {
    exists i | 0 <= i <= |s| :: OccursAt(s, t, i)
  }

  /** `s.includes(w)` for some `w` of `ws` (an `||` chain of `includes`). */
  predicate ContainsAny(s: string, ws: seq<string>)
  {
    exists w :: w in ws && Contains(s, w)
  }

  /** The first index at or after `from` where `t` occurs in `s`. */
  function IndexFrom(s: string, t: string, from: nat): (r: Option<nat>)
    decreases |s| - from
    ensures r.Some? ==> from <= r.value && OccursAt(s, t, r.value)
    ensures r.Some? ==> forall j :: from <= j < r.value ==> !OccursAt(s, t, j)
    ensures r.None? ==> forall j :: from <= j ==> !OccursAt(s, t, j)
  {
    if from + |t| > |s| then None
    else if s[from..from + |t|] == t then Some(from)
    else IndexFrom(s, t, from + 1)
  }

  /** `s.indexOf(t)`, with `None` for JavaScript's -1 or PHP's `false`. */
  function IndexOf(s: string, t: string): (r: Option<nat>)
    ensures r.Some? <==> Contains(s, t)
    ensures r.Some? ==> OccursAt(s, t, r.value) && forall j :: 0 <= j < r.value ==> !OccursAt(s, t, j)
  {
    IndexFrom(s, t, 0)
  }

  // ---------------------------------------------------------------------------
  // Case-insensitive matching at the front of a string (regex flag `i`)
  // ---------------------------------------------------------------------------

  /** `s` begins with `w`, ignoring ASCII case on the side of `s`. */
  predicate StartsWithCI(s: string, w: string)
  {
    |w| <= |s| && forall k :: 0 <= k < |w| ==> LowerChar(s[k]) == w[k]
  }

  /** `w` occurs in `s` ignoring ASCII case. */
  predicate ContainsCI(s: string, w: string)
  {
    Contains(Lower(s), w)
  }

  lemma StartsWithCIAt(s: string, w: string, i: nat)
    requires i <= |s| && StartsWithCI(s[i..], w)
    ensures OccursAt(Lower(s), w, i) && ContainsCI(s, w)
  {
    assert Lower(s)[i..i + |w|] == w;
    assert OccursAt(Lower(s), w, i);
  }

  lemma OccursAtStartsWithCI(s: string, w: string, i: nat)
    requires OccursAt(Lower(s), w, i)
    ensures i <= |s| && StartsWithCI(s[i..], w)
  {
    forall k | 0 <= k < |w|
      ensures LowerChar(s[i..][k]) == w[k]
    {
      assert Lower(s)[i..i + |w|][k] == w[k];
    }
  }

  /** `a` and `b` agree, ignoring case on the side of `a`, on the first
      `min(|a|, |b|)` characters: one is a case-insensitive prefix of the other. */
  predicate Overlaps(a: string, b: string)
  {
    StartsWithCI(a, b[..if |a| < |b| then |a| else |b|])
  }

  lemma StartsWithCIConcat(a: string, x: string, u: string)
    requires StartsWithCI(a + x, u)
    ensures Overlaps(a, u)
  {
    var m := if |a| < |u| then |a| else |u|;
    forall k | 0 <= k < m
      ensures LowerChar(a[k]) == u[..m][k]
    {
      assert (a + x)[k] == a[k];
    }
  }

  lemma StartsWithCIShift(s: string, w: string)
    requires s != [] && w != []
    ensures StartsWithCI(s, w) <==> LowerChar(s[0]) == w[0] && StartsWithCI(s[1..], w[1..])
  {
    if LowerChar(s[0]) == w[0] && StartsWithCI(s[1..], w[1..]) {
      forall k | 0 <= k < |w|
        ensures LowerChar(s[k]) == w[k]
      {
        if k > 0 {
          assert s[1..][k - 1] == s[k];
          assert w[1..][k - 1] == w[k];
        }
      }
    }
  }

  // ---------------------------------------------------------------------------
  // Global replacement of an alternation of literal words: `s.replace(/w1|w2|…/gi, rep)`
  // ---------------------------------------------------------------------------

  predicate NonEmptyWords(ws: seq<string>)
  {
    forall w :: w in ws ==> |w| > 0
  }

  /** The first alternative (in pattern order) that matches at the front of `s`. */
  function FirstMatch(s: string, ws: seq<string>): (r: Option<nat>)
    ensures r.Some? ==> r.value < |ws| && StartsWithCI(s, ws[r.value])
    ensures r.None? ==> forall w :: w in ws ==> !StartsWithCI(s, w)
  {
    if ws == [] then None
    else if StartsWithCI(s, ws[0]) then Some(0)
    else match FirstMatch(s, ws[1..])
      case Some(k) => Some(k + 1)
      case None => None
  }

  /** Leftmost, non-overlapping, case-insensitive replacement of every match of
      the alternation `ws` by `rep`, scanning on after each match. */
  function ReplaceWords(s: string, ws: seq<string>, rep: string): string
    requires NonEmptyWords(ws)
    decreases |s|
  {
    if s == [] then []
    else match FirstMatch(s, ws)
      case Some(k) => rep + ReplaceWords(s[|ws[k]|..], ws, rep)
      case None => [s[0]] + ReplaceWords(s[1..], ws, rep)
  }

  /** No suffix of `u` can begin inside a copy of `rep`. */
  predicate NoSuffixOverlaps(rep: string, u: string)
  {
    forall j :: 0 <= j < |u| ==> !Overlaps(rep, u[j..])
  }

  /** No suffix of `rep` can begin an occurrence of `f`. */
  predicate NoInnerOverlap(rep: string, f: string)
  {
    forall i :: 0 <= i < |rep| ==> !Overlaps(rep[i..], f)
  }

  /** If the output of `ReplaceWords` begins with `u`, and no suffix of `u`
      can be produced by a copy of `rep`, then the input began with `u` and no
      word matched at its front. */
  lemma {:induction false} ReplaceWordsPrefix(t: string, ws: seq<string>, rep: string, u: string)
    requires NonEmptyWords(ws)
    requires NoSuffixOverlaps(rep, u)
    requires StartsWithCI(ReplaceWords(t, ws, rep), u)
    ensures StartsWithCI(t, u)
    ensures u != [] ==> FirstMatch(t, ws).None?
  {
    if u != [] {
      var out := ReplaceWords(t, ws, rep);
      assert t != [];
      assert u[0..] == u;
      match FirstMatch(t, ws)
      case Some(k) =>
        StartsWithCIConcat(rep, ReplaceWords(t[|ws[k]|..], ws, rep), u);
        assert false;
      case None =>
        var x := ReplaceWords(t[1..], ws, rep);
        assert out == [t[0]] + x;
        StartsWithCIShift(out, u);
        assert out[1..] == x;
        forall j | 0 <= j < |u[1..]|
          ensures !Overlaps(rep, u[1..][j..])
        {
          assert u[1..][j..] == u[j + 1..];
        }
        ReplaceWordsPrefix(t[1..], ws, rep, u[1..]);
        StartsWithCIShift(t, u);
    }
  }

  /** The central fact about `ReplaceWords`: an occurrence of `f` in the output
      was already in the input, and was not one of the replaced words.  So
      every replaced word is gone from the output, and a word that was absent
      stays absent. */
  lemma {:induction false} ReplaceWordsOccurrence(s: string, ws: seq<string>, rep: string, f: string, i: nat)
    requires NonEmptyWords(ws) && f != []
    requires NoSuffixOverlaps(rep, f) && NoInnerOverlap(rep, f)
    requires i <= |ReplaceWords(s, ws, rep)| && StartsWithCI(ReplaceWords(s, ws, rep)[i..], f)
    ensures f !in ws && ContainsCI(s, f)
    decreases |s|
  {
    var out := ReplaceWords(s, ws, rep);
    if s == [] {
      assert false;
    } else {
      match FirstMatch(s, ws)
      case Some(k) =>
        var m := |ws[k]|;
        var x := ReplaceWords(s[m..], ws, rep);
        assert out == rep + x;
        if i >= |rep| {
          assert out[i..] == x[i - |rep|..];
          ReplaceWordsOccurrence(s[m..], ws, rep, f, i - |rep|);
          ContainsCIShift(s, f, m);
        } else {
          assert out[i..] == rep[i..] + x;
          StartsWithCIConcat(rep[i..], x, f);
          assert false;
        }
      case None =>
        var x := ReplaceWords(s[1..], ws, rep);
        assert out == [s[0]] + x;
        if i >= 1 {
          assert out[i..] == x[i - 1..];
          ReplaceWordsOccurrence(s[1..], ws, rep, f, i - 1);
          ContainsCIShift(s, f, 1);
        } else {
          assert out[0..] == out;
          StartsWithCIShift(out, f);
          assert out[1..] == x;
          forall j | 0 <= j < |f[1..]|
            ensures !Overlaps(rep, f[1..][j..])
          {
            assert f[1..][j..] == f[j + 1..];
          }
          ReplaceWordsPrefix(s[1..], ws, rep, f[1..]);
          StartsWithCIShift(s, f);
          assert s[0..] == s;
          StartsWithCIAt(s, f, 0);
        }
      }
  }

  lemma ContainsCIShift(s: string, f: string, m: nat)
    requires m <= |s| && ContainsCI(s[m..], f)
    ensures ContainsCI(s, f)
  {
    var i: nat :| OccursAt(Lower(s[m..]), f, i);
    OccursAtStartsWithCI(s[m..], f, i);
    assert s[m..][i..] == s[m + i..];
    StartsWithCIAt(s, f, m + i);
  }

  /** Every word of the alternation is absent from the output. */
  lemma ReplaceWordsRemoves(s: string, ws: seq<string>, rep: string, f: string)
    requires NonEmptyWords(ws) && f in ws
    requires NoSuffixOverlaps(rep, f) && NoInnerOverlap(rep, f)
    ensures !ContainsCI(ReplaceWords(s, ws, rep), f)
  {
    if ContainsCI(ReplaceWords(s, ws, rep), f) {
      var i: nat :| OccursAt(Lower(ReplaceWords(s, ws, rep)), f, i);
      OccursAtStartsWithCI(ReplaceWords(s, ws, rep), f, i);
      ReplaceWordsOccurrence(s, ws, rep, f, i);
    }
  }

  /** A word that is not in the alternation appears in the output only if it
      appeared in the input. */
  lemma ReplaceWordsNoNew(s: string, ws: seq<string>, rep: string, f: string)
    requires NonEmptyWords(ws) && f != []
    requires NoSuffixOverlaps(rep, f) && NoInnerOverlap(rep, f)
    ensures ContainsCI(ReplaceWords(s, ws, rep), f) ==> ContainsCI(s, f)
  {
    if ContainsCI(ReplaceWords(s, ws, rep), f) {
      var i: nat :| OccursAt(Lower(ReplaceWords(s, ws, rep)), f, i);
      OccursAtStartsWithCI(ReplaceWords(s, ws, rep), f, i);
      ReplaceWordsOccurrence(s, ws, rep, f, i);
    }
  }

  // ---------------------------------------------------------------------------
  // Replacement of a clause up to the end of its line: `s.replace(/head.*/gi, rep)`
  // ---------------------------------------------------------------------------

  /** The regular-expression dialect decides which characters `.` refuses to match. */
  datatype Dialect = EcmaScript | Pcre

  /** ECMAScript's `.` stops at LF, CR, U+2028 and U+2029; PCRE's default `.` only at LF. */
  predicate IsLineTerminator(c: char, d: Dialect)
  {
    c == '\n' || (d == EcmaScript && (c == '\r' || c == '\U{2028}' || c == '\U{2029}'))
  }

  predicate NoLineTerminator(s: string, d: Dialect)
  {
    forall k :: 0 <= k < |s| ==> !IsLineTerminator(s[k], d)
  }

  lemma NoLineTerminatorConcat(a: string, b: string, d: Dialect)
    requires NoLineTerminator(a, d) && NoLineTerminator(b, d)
    ensures NoLineTerminator(a + b, d)
  {
    forall k | 0 <= k < |a + b|
      ensures !IsLineTerminator((a + b)[k], d)
    {
      if k >= |a| { assert (a + b)[k] == b[k - |a|]; }
    }
  }

  /** A string holding none of the four terminator characters has none for either dialect. */
  lemma NoLineTerminatorByMembership(s: string, d: Dialect)
    requires '\n' !in s && '\r' !in s && '\U{2028}' !in s && '\U{2029}' !in s
    ensures NoLineTerminator(s, d)
  {
    forall k | 0 <= k < |s|
      ensures !IsLineTerminator(s[k], d)
    {
      assert s[k] in s;
    }
  }

  /** How far `.*` reaches from the front of `s`: up to the first line terminator. */
  function LineLength(s: string, d: Dialect): (n: nat)
    ensures n <= |s|
    ensures NoLineTerminator(s[..n], d)
    ensures n < |s| ==> IsLineTerminator(s[n], d)
  {
    if s == [] || IsLineTerminator(s[0], d) then 0
    else
      var n := 1 + LineLength(s[1..], d);
      assert forall k :: 1 <= k < n ==> s[..n][k] == s[1..][..n - 1][k - 1];
      n
  }

  predicate ValidHeads(heads: seq<string>, d: Dialect)
  {
    forall h :: h in heads ==> |h| > 0 && NoLineTerminator(h, d)
  }

  lemma {:induction false} LineLengthCovers(s: string, h: string, d: Dialect)
    requires StartsWithCI(s, h) && NoLineTerminator(h, d)
    ensures LineLength(s, d) >= |h|
  {
    if h != [] {
      assert !IsLineTerminator(h[0], d);
      assert !IsLineTerminator(s[0], d);
      StartsWithCIShift(s, h);
      forall k | 0 <= k < |h[1..]|
        ensures !IsLineTerminator(h[1..][k], d)
      {
        assert h[1..][k] == h[k + 1];
      }
      LineLengthCovers(s[1..], h[1..], d);
    }
  }

  /** Every match of `head.*` (a head from the alternation `heads`, then the rest
      of its line) is replaced by `rep`; the scan resumes at the line terminator. */
  function ReplaceClauses(s: string, heads: seq<string>, rep: string, d: Dialect): string
    requires ValidHeads(heads, d)
    decreases |s|
  {
    if s == [] then []
    else match FirstMatch(s, heads)
      case Some(k) =>
        LineLengthCovers(s, heads[k], d);
        rep + ReplaceClauses(s[LineLength(s, d)..], heads, rep, d)
      case None => [s[0]] + ReplaceClauses(s[1..], heads, rep, d)
  }

  lemma ContainsInfix(s: string, p: string, w: string)
    requires Contains(s, p + w)
    ensures Contains(s, w)
  {
    var i :| 0 <= i <= |s| && OccursAt(s, p + w, i);
    assert s[i + |p|..i + |p| + |w|] == (p + w)[|p|..];
    assert OccursAt(s, w, i + |p|);
  }

  lemma ContainsPrefix(s: string, p: string, w: string)
    requires Contains(s, p + w)
    ensures Contains(s, p)
  {
    var i :| 0 <= i <= |s| && OccursAt(s, p + w, i);
    assert s[i..i + |p|] == (p + w)[..|p|];
    assert OccursAt(s, p, i);
  }

  /** Every character PCRE's `.` refuses, ECMAScript's refuses too. */
  lemma NoLineTerminatorPcre(s: string)
    requires NoLineTerminator(s, EcmaScript)
    ensures NoLineTerminator(s, Pcre)
  {
  }

  /** With none of the heads anywhere in `s`, the replacement changes nothing. */
  lemma {:induction false} ReplaceClausesIdentity(s: string, heads: seq<string>, rep: string, d: Dialect)
    requires ValidHeads(heads, d)
    requires forall h :: h in heads ==> !ContainsCI(s, h)
    ensures ReplaceClauses(s, heads, rep, d) == s
    decreases |s|
  {
    if s != [] {
      assert s[0..] == s;
      forall h | h in heads
        ensures !StartsWithCI(s, h)
      {
        if StartsWithCI(s, h) {
          StartsWithCIAt(s, h, 0);
        }
      }
      forall h | h in heads
        ensures !ContainsCI(s[1..], h)
      {
        if ContainsCI(s[1..], h) {
          ContainsCIShift(s, h, 1);
        }
      }
      ReplaceClausesIdentity(s[1..], heads, rep, d);
    }
  }

  /** On a single line that starts with a head, the whole input becomes `rep`. */
  lemma ReplaceClausesWholeLine(s: string, heads: seq<string>, rep: string, d: Dialect)
    requires ValidHeads(heads, d) && NoLineTerminator(s, d)
    requires FirstMatch(s, heads).Some?
    ensures ReplaceClauses(s, heads, rep, d) == rep
  {
    var k := FirstMatch(s, heads).value;
    LineLengthCovers(s, heads[k], d);
    assert LineLength(s, d) == |s|;
    assert s[LineLength(s, d)..] == [];
  }
}
