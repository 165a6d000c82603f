/**
  Strings as the address and record code handles them. Text is ASCII: lower-casing and white space
  beyond it are not modelled.
 */
module Text {
  function LowerChar(c: char): char {
    if 'A' <= c <= 'Z' then c - 'A' + 'a' else c
  }

  function Lower(s: string): string {
    if s == "" then "" else [LowerChar(s[0])] + Lower(s[1..])
  }

  const SPACE := {' ', '\t', '\n', '\r', '\U{0B}', '\U{0C}'}

  function TrimLeft(s: string, cut: set<char>): string {
    if s != "" && s[0] in cut then TrimLeft(s[1..], cut) else s
  }

  function TrimRight(s: string, cut: set<char>): string {
    if s != "" && s[|s| - 1] in cut then TrimRight(s[..|s| - 1], cut) else s
  }

  function Trim(s: string, cut: set<char>): string {
    TrimRight(TrimLeft(s, cut), cut)
  }

  function TrimSpace(s: string): string {
    Trim(s, SPACE)
  }

  predicate Within(part: string, whole: string) {
    forall c :: c in part ==> c in whole
  }

  lemma {:induction false} TrimLeftMeans(s: string, cut: set<char>)
    ensures var r := TrimLeft(s, cut); Within(r, s) && |r| <= |s| && (r != "" ==> r[0] !in cut && r[|r| - 1] == s[|s| - 1])
    ensures |TrimLeft(s, cut)| == |s| ==> TrimLeft(s, cut) == s
  {
    if s != "" && s[0] in cut { TrimLeftMeans(s[1..], cut); }
  }

  /** The string without its longest suffix of characters to cut. */
  lemma {:induction false} TrimRightMeans(s: string, cut: set<char>)
    ensures var r := TrimRight(s, cut);
            && |r| <= |s| && s[..|r|] == r
            && (forall i :: |r| <= i < |s| ==> s[i] in cut)
            && (r != "" ==> r[|r| - 1] !in cut)
  {
    if s != "" && s[|s| - 1] in cut { TrimRightMeans(s[..|s| - 1], cut); }
  }

  lemma TrimMeans(s: string, cut: set<char>)
    ensures var r := Trim(s, cut); Within(r, s) && |r| <= |s| && (r != "" ==> r[0] !in cut && r[|r| - 1] !in cut)
    ensures |Trim(s, cut)| == |s| ==> Trim(s, cut) == s
  {
    var t := TrimLeft(s, cut);
    var r := TrimRight(t, cut);
    TrimLeftMeans(s, cut);
    TrimRightMeans(t, cut);
    PrefixWithin(r, t);
  }

  lemma PrefixWithin(r: string, t: string)
    requires |r| <= |t| && t[..|r|] == r
    ensures Within(r, t)
  {
    forall c | c in r
      ensures c in t
    {
      var i :| 0 <= i < |r| && r[i] == c;
      assert t[i] == t[..|r|][i];
    }
  }

  predicate Ends(s: string, cut: set<char>) {
    s != "" && s[0] !in cut && s[|s| - 1] !in cut
  }

  lemma TrimFixes(s: string, cut: set<char>)
    requires Ends(s, cut)
    ensures Trim(s, cut) == s
  {
  }

  lemma {:induction false} LowerMeans(s: string)
    ensures |Lower(s)| == |s| && forall i :: 0 <= i < |s| ==> Lower(s)[i] == LowerChar(s[i])
  {
    if s != "" { LowerMeans(s[1..]); }
  }

  predicate IsLower(s: string) {
    forall c :: c in s ==> !('A' <= c <= 'Z')
  }

  lemma LowerIsLower(s: string)
    ensures IsLower(Lower(s))
  {
    LowerMeans(s);
  }

  lemma LowerFixes(s: string)
    requires IsLower(s)
    ensures Lower(s) == s
  {
    LowerMeans(s);
    assert forall i :: 0 <= i < |s| ==> s[i] in s;
  }

  // ---------- what these functions compute, spelled out ----------

  const UPPER := "ABCDEFGHIJKLMNOPQRSTUVWXYZ"
  const LOWER := "abcdefghijklmnopqrstuvwxyz"

  /** A capital goes to its own small letter, and everything else to itself. */
  predicate LowersTo(c: char, d: char) {
    || (exists k :: 0 <= k < |UPPER| && c == UPPER[k] && d == LOWER[k])
    || (c !in UPPER && d == c)
  }

  lemma LowerCharIsRight(c: char)
    ensures forall d :: LowersTo(c, d) <==> d == LowerChar(c)
  {
    if 'A' <= c <= 'Z' {
      var k := c as int - 'A' as int;
      assert UPPER[k] == c && LOWER[k] == LowerChar(c);
      assert LowersTo(c, LowerChar(c));
    }
    forall j | 0 <= j < |UPPER| && UPPER[j] == c
      ensures LOWER[j] == LowerChar(c)
    {
    }
  }

  predicate IsLowerOf(s: string, t: string) {
    |t| == |s| && forall i :: 0 <= i < |s| ==> LowersTo(s[i], t[i])
  }

  lemma LowerIsRight(s: string)
    ensures forall t :: IsLowerOf(s, t) <==> t == Lower(s)
  {
    LowerMeans(s);
    forall t
      ensures IsLowerOf(s, t) <==> t == Lower(s)
    {
      forall i | 0 <= i < |s|
        ensures |t| == |s| ==> (LowersTo(s[i], t[i]) <==> t[i] == Lower(s)[i])
      {
        LowerCharIsRight(s[i]);
      }
    }
  }

  predicate AllIn(s: string, cut: set<char>) {
    forall i :: 0 <= i < |s| ==> s[i] in cut
  }

  /** What is left between characters to cut, and neither begins nor ends with one. */
  predicate IsTrimOf(s: string, cut: set<char>, before: string, r: string, after: string) {
    && s == before + r + after && AllIn(before, cut) && AllIn(after, cut)
    && (r != "" ==> r[0] !in cut && r[|r| - 1] !in cut)
  }

  ghost predicate TrimsTo(s: string, cut: set<char>, r: string) {
    exists before, after :: IsTrimOf(s, cut, before, r, after)
  }

  lemma {:induction false} TrimLeftCuts(s: string, cut: set<char>) returns (before: string)
    ensures s == before + TrimLeft(s, cut) && AllIn(before, cut)
    ensures TrimLeft(s, cut) != "" ==> TrimLeft(s, cut)[0] !in cut
  {
    before := "";
    if s != "" && s[0] in cut {
      before := TrimLeftCuts(s[1..], cut);
      before := [s[0]] + before;
      assert s == [s[0]] + s[1..];
    }
  }

  lemma TrimTrims(s: string, cut: set<char>)
    ensures TrimsTo(s, cut, Trim(s, cut))
  {
    var before := TrimLeftCuts(s, cut);
    var t := TrimLeft(s, cut);
    var r := TrimRight(t, cut);
    TrimRightMeans(t, cut);
    var after := t[|r|..];
    assert t == r + after;
    assert r != "" ==> r[0] == t[0];
    assert IsTrimOf(s, cut, before, r, after);
  }

  lemma OneTrim(s: string, cut: set<char>, b: string, r: string, a: string, b': string, r': string, a': string)
    requires IsTrimOf(s, cut, b, r, a) && IsTrimOf(s, cut, b', r', a') && r != "" && r' != ""
    ensures |b| == |b'| && |r| == |r'|
  {
    assert s[|b|] == r[0] && s[|b'|] == r'[0];
    assert forall i :: 0 <= i < |b| ==> s[i] == b[i];
    assert forall i :: 0 <= i < |b'| ==> s[i] == b'[i];
    var last, last' := |b| + |r| - 1, |b'| + |r'| - 1;
    assert s[last] == r[|r| - 1] && s[last'] == r'[|r'| - 1];
    assert forall i :: last < i < |s| ==> s[i] == a[i - last - 1];
    assert forall i :: last' < i < |s| ==> s[i] == a'[i - last' - 1];
  }

  lemma TrimOfVisible(s: string, cut: set<char>, b: string, r: string, a: string)
    requires IsTrimOf(s, cut, b, r, a) && r != ""
    ensures !AllIn(s, cut)
  {
    assert s[|b|] == r[0];
  }

  /** There is only one such rest, and it is what trimming gives. */
  lemma TrimIsRight(s: string, cut: set<char>)
    ensures forall r :: TrimsTo(s, cut, r) <==> r == Trim(s, cut)
  {
    TrimTrims(s, cut);
    forall r | TrimsTo(s, cut, r)
      ensures r == Trim(s, cut)
    {
      var b, a :| IsTrimOf(s, cut, b, r, a);
      var b', a' :| IsTrimOf(s, cut, b', Trim(s, cut), a');
      TwoTrims(s, cut, b, r, a, b', Trim(s, cut), a');
    }
  }

  lemma TwoTrims(s: string, cut: set<char>, b: string, r: string, a: string, b': string, r': string, a': string)
    requires IsTrimOf(s, cut, b, r, a) && IsTrimOf(s, cut, b', r', a')
    ensures r == r'
  {
    if r != "" { TrimOfVisible(s, cut, b, r, a); }
    if r' != "" { TrimOfVisible(s, cut, b', r', a'); }
    assert r == "" || r' == "" ==> AllIn(s, cut);
    if r != "" && r' != "" {
      OneTrim(s, cut, b, r, a, b', r', a');
      assert r == s[|b|..|b| + |r|] && r' == s[|b'|..|b'| + |r'|];
    }
  }
}
