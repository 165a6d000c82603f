/**
  Finding the verification code of a message. White space is collapsed first; then, in the
  upper-cased text, the 260 bytes after each hint are searched, and at last the whole text.

  In `Collapse` a char is a Unicode character; everywhere else it is one byte of UTF-8.
 */
module CodeScanner {
  import opened Options

  // ---------- collapsing white space ----------

  predicate IsSpace(c: char) {
    || '\t' <= c <= '\r' || c == ' ' || c == '\U{85}' || c == '\U{A0}' || c == '\U{1680}' || '\U{2000}' <= c <= '\U{200A}'
    || c == '\U{2028}' || c == '\U{2029}' || c == '\U{202F}' || c == '\U{205F}' || c == '\U{3000}'
  }

  /** The words of the first n characters: the longest runs of characters that are not white space. */
  function Words(s: string, n: nat): (words: seq<string>)
    requires n <= |s|
    ensures n > 0 && !IsSpace(s[n - 1]) ==> words != []
  {
    if n == 0 then []
    else
      var before := Words(s, n - 1);
      if IsSpace(s[n - 1]) then before
      else if n == 1 || IsSpace(s[n - 2]) then before + [[s[n - 1]]]
      else before[..|before| - 1] + [before[|before| - 1] + [s[n - 1]]]
  }

  /** Words with one space between any two. */
  function Join(words: seq<string>): string {
    if words == [] then ""
    else if |words| == 1 then words[0]
    else Join(words[..|words| - 1]) + " " + words[|words| - 1]
  }

  lemma JoinMore(words: seq<string>, w: string)
    ensures Join(words + [w]) == if words == [] then w else Join(words) + " " + w
  {
    assert (words + [w])[..|words|] == words;
  }

  lemma JoinLonger(front: seq<string>, last: string, c: char)
    ensures Join(front + [last + [c]]) == Join(front + [last]) + [c]
  {
    JoinMore(front, last + [c]);
    JoinMore(front, last);
  }

  /** One more character that is not white space, in terms of what is written so far. */
  lemma OneMore(s: string, n: nat)
    requires 0 < n <= |s| && !IsSpace(s[n - 1])
    ensures Join(Words(s, n))
            == Join(Words(s, n - 1)) + (if Words(s, n - 1) != [] && IsSpace(s[n - 2]) then " " else "") + [s[n - 1]]
    ensures Words(s, n) != []
  {
    var before := Words(s, n - 1);
    NoWordsNoText(s, n - 1);
    if n == 1 || IsSpace(s[n - 2]) {
      JoinMore(before, [s[n - 1]]);
    } else {
      var last := |before| - 1;
      JoinLonger(before[..last], before[last], s[n - 1]);
      assert before[..last] + [before[last]] == before;
    }
  }

  lemma {:induction false} NoWordsNoText(s: string, n: nat)
    requires n <= |s|
    ensures Words(s, n) == [] ==> forall i :: 0 <= i < n ==> IsSpace(s[i])
  {
    if n > 0 { NoWordsNoText(s, n - 1); }
  }

  /** Nothing to collapse: only single blanks, none of them first or last. */
  predicate Clean(t: string) {
    && (t != "" ==> !IsSpace(t[0]) && !IsSpace(t[|t| - 1]))
    && forall i :: 0 < i < |t| && IsSpace(t[i]) ==> t[i] == ' ' && !IsSpace(t[i - 1])
  }

  function Visible(s: string, n: nat): string
    requires n <= |s|
  {
    if n == 0 then "" else Visible(s, n - 1) + if IsSpace(s[n - 1]) then "" else [s[n - 1]]
  }

  lemma {:induction false} VisiblePrefix(s: string, t: string, n: nat)
    requires n <= |s| && n <= |t| && s[..n] == t[..n]
    ensures Visible(s, n) == Visible(t, n)
  {
    if n > 0 {
      assert s[..n - 1] == s[..n][..n - 1] == t[..n - 1];
      assert s[n - 1] == s[..n][n - 1] == t[n - 1];
      VisiblePrefix(s, t, n - 1);
    }
  }

  lemma CleanAppends(t: string, blank: string, c: char)
    requires Clean(t) && !IsSpace(c) && (blank == "" || (blank == " " && t != ""))
    ensures Clean(t + blank + [c])
  {
    var u := t + blank + [c];
    assert forall i :: 0 <= i < |t| ==> u[i] == t[i];
    assert u[|u| - 1] == c;
    assert blank != "" ==> u[|t|] == ' ';
  }

  lemma VisibleAppends(t: string, blank: string, c: char)
    requires !IsSpace(c) && (blank == "" || blank == " ")
    ensures var u := t + blank + [c]; Visible(u, |u|) == Visible(t, |t|) + [c]
  {
    var u := t + blank + [c];
    assert u[..|t|] == t == t[..|t|];
    VisiblePrefix(u, t, |t|);
  }

  /** Clean text with the same visible characters, in their order. */
  predicate Faithful(s: string, n: nat, t: string)
    requires n <= |s|
  {
    Clean(t) && Visible(t, |t|) == Visible(s, n)
  }

  lemma FaithfulStep(s: string, n: nat, t: string, blank: string)
    requires 0 < n <= |s| && Faithful(s, n - 1, t) && !IsSpace(s[n - 1]) && (blank == "" || (blank == " " && t != ""))
    ensures Faithful(s, n, t + blank + [s[n - 1]])
  {
    CleanAppends(t, blank, s[n - 1]);
    VisibleAppends(t, blank, s[n - 1]);
  }

  lemma {:induction false} CollapsedIsFaithful(s: string, n: nat)
    requires n <= |s|
    ensures Faithful(s, n, Join(Words(s, n))) && (Words(s, n) != [] ==> Join(Words(s, n)) != "")
  {
    if n > 0 {
      CollapsedIsFaithful(s, n - 1);
      if !IsSpace(s[n - 1]) {
        OneMore(s, n);
        FaithfulStep(s, n, Join(Words(s, n - 1)), if Words(s, n - 1) != [] && IsSpace(s[n - 2]) then " " else "");
      }
    }
  }

  /** A prefix of clean text is its words and, perhaps, a blank. */
  lemma {:induction false} CleanIsKept(t: string, n: nat)
    requires Clean(t) && n <= |t|
    ensures t[..n] == Join(Words(t, n)) + if n > 0 && IsSpace(t[n - 1]) then " " else ""
  {
    if n > 0 {
      CleanIsKept(t, n - 1);
      assert t[..n] == t[..n - 1] + [t[n - 1]];
      NoWordsNoText(t, n - 1);
      if !IsSpace(t[n - 1]) { OneMore(t, n); }
    }
  }

  lemma CollapseIsIdempotent(s: string)
    ensures var t := Join(Words(s, |s|)); Join(Words(t, |t|)) == t
  {
    CollapsedIsFaithful(s, |s|);
    var t := Join(Words(s, |s|));
    CleanIsKept(t, |t|);
    assert t[..|t|] == t;
  }

  /** Text that needs no change is returned as it is. */
  method Collapse(value: string) returns (r: string)
    ensures r == Join(Words(value, |value|))
  {
    var needsNormalization, previousSpace := false, true;
    for i := 0 to |value|
      invariant !needsNormalization
      invariant previousSpace == (i == 0 || IsSpace(value[i - 1]))
      invariant forall k :: 0 <= k < i && IsSpace(value[k]) ==> k > 0 && value[k] == ' ' && !IsSpace(value[k - 1])
    {
      var space := IsSpace(value[i]);
      if space && (value[i] != ' ' || previousSpace) {
        needsNormalization := true;
        break;
      }
      previousSpace := space;
    }
    if !needsNormalization && !previousSpace {
      CleanIsKept(value, |value|);
      assert value[..|value|] == value;
      return value;
    }
    r := Rebuilt(value);
  }

  /** The words again, with one blank before each but the first. */
  method Rebuilt(value: string) returns (r: string)
    ensures r == Join(Words(value, |value|))
  {
    r := "";
    var pendingSpace, wrote := false, false;
    for i := 0 to |value|
      invariant r == Join(Words(value, i)) && wrote == (Words(value, i) != [])
      invariant pendingSpace == (wrote && i > 0 && IsSpace(value[i - 1]))
    {
      if IsSpace(value[i]) {
        if wrote { pendingSpace := true; }
        continue;
      }
      OneMore(value, i + 1);
      assert !wrote || i > 0;
      var blank := if pendingSpace then " " else "";
      r := r + blank + [value[i]];
      pendingSpace, wrote := false, true;
    }
  }

  // ---------- likely codes ----------

  predicate Digit(c: char) {
    '0' <= c <= '9'
  }

  predicate Upper(c: char) {
    'A' <= c <= 'Z'
  }

  const WORDS := {
    "HTML", "BODY", "HEAD", "META", "STYLE", "SCRIPT", "TITLE", "TABLE", "TR", "TD", "SPAN", "DIV", "FONT", "CLASS",
    "WIDTH", "HEIGHT", "OPENAI", "TEMPORARY", "VERIFICATION", "VERIFY", "CODE", "CONTINUE", "PLEASE", "IGNORE",
    "ACCOUNT", "CREATE", "CREATING", "TEAM", "BEST", "HELLO", "WELCOME", "LOGIN", "SIGNIN", "BUTTON", "EMAIL", "MAIL",
    "NOREPLY", "SECURITY"
  }

  predicate AllDigits(s: string) {
    forall i :: 0 <= i < |s| ==> Digit(s[i])
  }

  predicate AllUpper(s: string) {
    forall i :: 0 <= i < |s| ==> Upper(s[i])
  }

  /** Four to ten digits and letters, not all zeros; at most eight if all are digits, and no common word. */
  predicate Likely(code: string) {
    && 4 <= |code| <= 10
    && (forall i :: 0 <= i < |code| ==> Digit(code[i]) || Upper(code[i]))
    && (exists i :: 0 <= i < |code| && code[i] != '0')
    && (AllDigits(code) ==> |code| <= 8)
    && (AllUpper(code) ==> code !in WORDS)
  }

  function TrimZeros(s: string): (r: string)
    ensures r == "" <==> forall i :: 0 <= i < |s| ==> s[i] == '0'
  {
    if s == "" then "" else if s[0] == '0' then TrimZeros(s[1..])
    else if s[|s| - 1] == '0' then TrimZeros(s[..|s| - 1]) else s
  }

  method IsLikelyVerificationCodeUpper(code: string) returns (likely: bool)
    ensures likely == Likely(code)
  {
    if |code| < 4 || |code| > 10 { return false; }
    var allDigits, allAlpha := true, true;
    for i := 0 to |code|
      invariant forall k :: 0 <= k < i ==> Digit(code[k]) || Upper(code[k])
      invariant allDigits == forall k :: 0 <= k < i ==> Digit(code[k])
      invariant allAlpha == forall k :: 0 <= k < i ==> Upper(code[k])
    {
      if Digit(code[i]) {
        allAlpha := false;
      } else if Upper(code[i]) {
        allDigits := false;
      } else {
        return false;
      }
    }
    if TrimZeros(code) == "" { return false; }
    if allDigits { return 4 <= |code| <= 8; }
    if allAlpha && code in WORDS { return false; }
    likely := true;
  }

  // ---------- the first likely code ----------

  predicate Matches(c: char, digitsOnly: bool) {
    Digit(c) || (!digitsOnly && Upper(c))
  }

  predicate WordByte(c: char) {
    c == '_' || Digit(c) || Upper(c) || 'a' <= c <= 'z'
  }

  /** s[i..j] is a run of the class that cannot be extended to either side. */
  predicate MaximalRun(s: string, digitsOnly: bool, i: int, j: int) {
    && 0 <= i < j <= |s|
    && (forall k :: i <= k < j ==> Matches(s[k], digitsOnly))
    && (i > 0 ==> !Matches(s[i - 1], digitsOnly))
    && (j < |s| ==> !Matches(s[j], digitsOnly))
  }

  /** The run stands between word boundaries, has an allowed length, and is a likely code. */
  predicate Qualifies(s: string, digitsOnly: bool, i: int, j: int) {
    && MaximalRun(s, digitsOnly, i, j)
    && (i > 0 ==> !WordByte(s[i - 1])) && (j < |s| ==> !WordByte(s[j]))
    && (if digitsOnly then 4 <= j - i <= 8 else 6 <= j - i <= 10)
    && Likely(s[i..j])
  }

  predicate NoneBefore(s: string, digitsOnly: bool, limit: int) {
    forall i, j :: 0 <= i < limit && i < j <= |s| ==> !Qualifies(s, digitsOnly, i, j)
  }

  /** The code is that of the leftmost qualifying run, and empty when there is none. */
  predicate IsFirst(s: string, digitsOnly: bool, code: string) {
    if code == "" then NoneBefore(s, digitsOnly, |s|)
    else exists i, j :: 0 <= i < j <= |s| && Qualifies(s, digitsOnly, i, j) && NoneBefore(s, digitsOnly, i) && code == s[i..j]
  }

  lemma SameEnd(s: string, digitsOnly: bool, i: int, j: int, k: int)
    requires MaximalRun(s, digitsOnly, i, j) && MaximalRun(s, digitsOnly, i, k)
    ensures j == k
  {
  }

  /** There is only one first code. */
  lemma FirstIsUnique(s: string, digitsOnly: bool, a: string, b: string)
    requires IsFirst(s, digitsOnly, a) && IsFirst(s, digitsOnly, b)
    ensures a == b
  {
    if a != "" && b != "" {
      var i, j :| 0 <= i < j <= |s| && Qualifies(s, digitsOnly, i, j) && NoneBefore(s, digitsOnly, i) && a == s[i..j];
      var k, l :| 0 <= k < l <= |s| && Qualifies(s, digitsOnly, k, l) && NoneBefore(s, digitsOnly, k) && b == s[k..l];
      assert i == k;
      SameEnd(s, digitsOnly, i, j, l);
    }
  }

  lemma SkipRun(s: string, digitsOnly: bool, i: int, j: int)
    requires MaximalRun(s, digitsOnly, i, j) && !Qualifies(s, digitsOnly, i, j) && NoneBefore(s, digitsOnly, i)
    ensures NoneBefore(s, digitsOnly, j)
  {
    forall a, b | 0 <= a < j && a < b <= |s|
      ensures !Qualifies(s, digitsOnly, a, b)
    {
      if a == i && MaximalRun(s, digitsOnly, a, b) { SameEnd(s, digitsOnly, i, j, b); }
      if a > i { assert Matches(s[a - 1], digitsOnly); }
    }
  }

  method FirstLikelyCode(source: string, digitsOnly: bool) returns (code: string)
    ensures IsFirst(source, digitsOnly, code)
  {
    var index := 0;
    while index < |source|
      invariant 0 <= index <= |source| && NoneBefore(source, digitsOnly, index)
      invariant 0 < index < |source| && Matches(source[index], digitsOnly) ==> !Matches(source[index - 1], digitsOnly)
      decreases |source| - index
    {
      if !Matches(source[index], digitsOnly) {
        index := index + 1;
        continue;
      }
      var start := index;
      while index < |source| && Matches(source[index], digitsOnly)
        invariant start <= index <= |source|
        invariant forall k :: start <= k < index ==> Matches(source[k], digitsOnly)
      {
        index := index + 1;
      }
      var candidate := source[start..index];
      var likely := IsLikelyVerificationCodeUpper(candidate);
      if !Qualifies(source, digitsOnly, start, index) { SkipRun(source, digitsOnly, start, index); }
      if (start > 0 && WordByte(source[start - 1])) || (index < |source| && WordByte(source[index])) { continue; }
      if digitsOnly {
        if |candidate| < 4 || |candidate| > 8 { continue; }
      } else if |candidate| < 6 || |candidate| > 10 {
        continue;
      }
      if likely { return candidate; }
    }
    code := "";
  }

  // ---------- hints ----------

  /** The three Chinese hints in UTF-8. */
  const HINTS := [
    "TEMPORARY VERIFICATION CODE",
    "VERIFICATION CODE",
    "VERIFY CODE",
    "\U{E9}\U{AA}\U{8C}\U{E8}\U{AF}\U{81}\U{E7}\U{A0}\U{81}",
    "\U{E6}\U{A0}\U{A1}\U{E9}\U{AA}\U{8C}\U{E7}\U{A0}\U{81}",
    "\U{E5}\U{8A}\U{A8}\U{E6}\U{80}\U{81}\U{E7}\U{A0}\U{81}",
    "PASSCODE",
    "ONE-TIME",
    "ONE TIME",
    "OTP",
    "CODE"
  ]

  const WINDOW := 260

  predicate OccursAt(s: string, hint: string, at: int) {
    0 <= at <= |s| - |hint| && s[at..at + |hint|] == hint
  }

  /** The first occurrence of the hint from the offset on. */
  function IndexFrom(s: string, hint: string, offset: nat): (at: int)
    requires offset <= |s|
    ensures at == -1 ==> forall k :: offset <= k ==> !OccursAt(s, hint, k)
    ensures at != -1 ==> offset <= at && OccursAt(s, hint, at) && forall k :: offset <= k < at ==> !OccursAt(s, hint, k)
    decreases |s| - offset
  {
    if OccursAt(s, hint, offset) then offset else if offset == |s| then -1 else IndexFrom(s, hint, offset + 1)
  }

  /** A hint lies at [start..end), among the first n hints. */
  predicate HintAt(s: string, n: int, start: int, end: int) {
    exists h :: 0 <= h < n <= |HINTS| && OccursAt(s, HINTS[h], start) && end == start + |HINTS[h]|
  }

  predicate Earlier(a: int, b: int, c: int, d: int) {
    a < c || (a == c && b > d)
  }

  /** Among the first n hints none lies earlier, or at the same place and longer. */
  ghost predicate NoHintEarlier(s: string, n: int, offset: int, start: int, end: int) {
    forall a, b :: offset <= a && HintAt(s, n, a, b) ==> !Earlier(a, b, start, end)
  }

  ghost predicate NoHint(s: string, n: int, offset: int) {
    forall a, b :: offset <= a ==> !HintAt(s, n, a, b)
  }

  /** The earliest hint from the offset on, and the longest one there; None when there is no hint. */
  ghost predicate IsNextHint(s: string, n: int, offset: int, found: Option<(int, int)>) {
    match found
    case None => NoHint(s, n, offset)
    case Some((start, end)) => offset <= start && HintAt(s, n, start, end) && NoHintEarlier(s, n, offset, start, end)
  }

  /** Looking for one more hint: only its first occurrence matters. */
  lemma OneMoreHint(s: string, n: int, m: int, offset: nat, best: Option<(int, int)>)
    requires offset <= |s| && 0 <= n < m == n + 1 <= |HINTS| && IsNextHint(s, n, offset, best)
    ensures var at := IndexFrom(s, HINTS[n], offset);
            var end := at + |HINTS[n]|;
            IsNextHint(s, m, offset,
                       if at != -1 && (best.None? || Earlier(at, end, best.value.0, best.value.1)) then Some((at, end)) else best)
  {
    var at := IndexFrom(s, HINTS[n], offset);
    var end := at + |HINTS[n]|;
    NewHints(s, n, m, HINTS[n], offset, at);
    if at != -1 && (best.None? || Earlier(at, end, best.value.0, best.value.1)) {
      HintSplits(s, n, at, end);
      BetterHint(s, n, m, offset, best, at, end);
    } else {
      SameHint(s, n, m, offset, best, at, end);
    }
  }

  lemma BetterHint(s: string, n: int, m: int, offset: nat, best: Option<(int, int)>, at: int, end: int)
    requires IsNextHint(s, n, offset, best) && offset <= at && HintAt(s, m, at, end)
    requires best.None? || Earlier(at, end, best.value.0, best.value.1)
    requires forall a, b :: offset <= a && HintAt(s, m, a, b) && !HintAt(s, n, a, b) ==> at <= a && b - a == end - at
    ensures IsNextHint(s, m, offset, Some((at, end)))
  {
  }

  lemma SameHint(s: string, n: int, m: int, offset: nat, best: Option<(int, int)>, at: int, end: int)
    requires 0 <= n < m == n + 1 <= |HINTS| && IsNextHint(s, n, offset, best)
    requires at == -1 || (best.Some? && !Earlier(at, end, best.value.0, best.value.1))
    requires forall a, b :: offset <= a && HintAt(s, m, a, b) && !HintAt(s, n, a, b) ==> at != -1 && at <= a && b - a == end - at
    ensures IsNextHint(s, m, offset, best)
  {
    if best.Some? { HintSplits(s, n, best.value.0, best.value.1); }
  }

  /** The hints among the first n + 1: those among the first n, and others that do not lie before the first of the last kind. */
  lemma NewHints(s: string, n: int, m: int, hint: string, offset: nat, at: int)
    requires offset <= |s| && 0 <= n < m == n + 1 <= |HINTS| && hint == HINTS[n] && at == IndexFrom(s, hint, offset)
    ensures forall a, b :: offset <= a && HintAt(s, m, a, b) && !HintAt(s, n, a, b) ==> at != -1 && at <= a && b == a + |hint|
  {
    forall a, b | offset <= a && HintAt(s, m, a, b) && !HintAt(s, n, a, b)
      ensures at != -1 && at <= a && b == a + |hint|
    {
      HintSplits(s, n, a, b);
    }
  }

  lemma HintSplits(s: string, n: int, a: int, b: int)
    requires 0 <= n < |HINTS|
    ensures HintAt(s, n + 1, a, b) <==> HintAt(s, n, a, b) || (OccursAt(s, HINTS[n], a) && b == a + |HINTS[n]|)
  {
    if HintAt(s, n + 1, a, b) {
      var h :| 0 <= h < n + 1 && OccursAt(s, HINTS[h], a) && b == a + |HINTS[h]|;
      assert h < n ==> HintAt(s, n, a, b);
    }
    if HintAt(s, n, a, b) {
      var h :| 0 <= h < n && OccursAt(s, HINTS[h], a) && b == a + |HINTS[h]|;
      assert 0 <= h < n + 1;
    }
  }

  method NextCodeHint(source: string, offset: nat) returns (found: Option<(int, int)>)
    requires offset <= |source|
    ensures IsNextHint(source, |HINTS|, offset, found)
    ensures found.Some? ==> offset < found.value.1 <= |source|
  {
    found := None;
    for n := 0 to |HINTS|
      invariant IsNextHint(source, n, offset, found)
      invariant found.Some? ==> offset < found.value.1 <= |source|
    {
      OneMoreHint(source, n, n + 1, offset, found);
      var at := IndexFrom(source, HINTS[n], offset);
      if at == -1 { continue; }
      var end := at + |HINTS[n]|;
      if found == None || at < found.value.0 || (at == found.value.0 && end > found.value.1) { found := Some((at, end)); }
    }
  }

  // ---------- extraction ----------

  /** Where the search stands after a hint: at its end. Hints are looked for from there on. */
  ghost predicate Leads(s: string, from: int, to: int) {
    exists start :: IsNextHint(s, |HINTS|, from, Some((start, to)))
  }

  function Window(s: string, at: int): string
    requires 0 <= at <= |s|
  {
    s[at..if at + WINDOW > |s| then |s| else at + WINDOW]
  }

  predicate NoCode(s: string) {
    IsFirst(s, true, "") && IsFirst(s, false, "")
  }

  /** Digits are preferred to letters. */
  predicate IsPreferred(s: string, code: string) {
    code != "" && (IsFirst(s, true, code) || (IsFirst(s, true, "") && IsFirst(s, false, code)))
  }

  /** The ends of the hints that were passed, from 0 on, each with its window empty of codes. */
  ghost predicate Passed(s: string, ends: seq<int>) {
    && ends != [] && ends[0] == 0
    && (forall k :: 0 <= k < |ends| ==> 0 <= ends[k] <= |s|)
    && (forall k :: 0 < k < |ends| ==> Leads(s, ends[k - 1], ends[k]) && NoCode(Window(s, ends[k])))
  }

  ghost predicate LastHint(s: string, at: int) {
    at >= |s| || NoHint(s, |HINTS|, at)
  }

  /**
    Extraction by keyword: hints are followed from the start, past windows without a code, to the
    first window that has one. Otherwise all windows are without a code, and the whole text counts.
   */
  ghost predicate Extracts(s: string, ends: seq<int>, code: string, source: string) {
    && Passed(s, ends)
    && (if source == "keyword"
        then exists at :: 0 <= at <= |s| && Leads(s, ends[|ends| - 1], at) && IsPreferred(Window(s, at), code)
        else && LastHint(s, ends[|ends| - 1])
             && (source == "digits" ==> code != "" && IsFirst(s, true, code))
             && (source == "token" ==> code != "" && IsFirst(s, true, "") && IsFirst(s, false, code))
             && (source == "" ==> code == "" && NoCode(s))
             && source in {"digits", "token", ""})
  }

  lemma FirstIsLikely(s: string, digitsOnly: bool, code: string)
    requires IsFirst(s, digitsOnly, code) && code != ""
    ensures Likely(code) && (digitsOnly ==> AllDigits(code))
  {
    var i, j :| 0 <= i < j <= |s| && Qualifies(s, digitsOnly, i, j) && NoneBefore(s, digitsOnly, i) && code == s[i..j];
    assert forall k :: 0 <= k < |code| ==> code[k] == s[i + k];
  }

  /** Whatever is extracted is a likely code; and nothing is, only from a text without any qualifying run. */
  lemma ExtractedIsLikely(s: string, ends: seq<int>, code: string, source: string)
    requires Extracts(s, ends, code, source)
    ensures if code == "" then source == "" && NoCode(s) else Likely(code) && source != ""
    ensures code == "" ==> forall digitsOnly, i, j :: 0 <= i < j <= |s| ==> !Qualifies(s, digitsOnly, i, j)
  {
    if source == "keyword" {
      var at :| 0 <= at <= |s| && Leads(s, ends[|ends| - 1], at) && IsPreferred(Window(s, at), code);
      FirstIsLikely(Window(s, at), IsFirst(Window(s, at), true, code), code);
    } else if code != "" {
      FirstIsLikely(s, source == "digits", code);
    }
  }

  lemma PassedOneMore(s: string, ends: seq<int>, hint: Option<(int, int)>)
    requires Passed(s, ends) && hint.Some? && IsNextHint(s, |HINTS|, ends[|ends| - 1], hint)
    requires 0 <= hint.value.1 <= |s| && NoCode(Window(s, hint.value.1))
    ensures Passed(s, ends + [hint.value.1])
  {
    assert Leads(s, ends[|ends| - 1], hint.value.1);
  }

  lemma FoundByHint(s: string, ends: seq<int>, hint: Option<(int, int)>, code: string)
    requires Passed(s, ends) && hint.Some? && IsNextHint(s, |HINTS|, ends[|ends| - 1], hint)
    requires 0 <= hint.value.1 <= |s| && IsPreferred(Window(s, hint.value.1), code)
    ensures Extracts(s, ends, code, "keyword") && Likely(code)
  {
    assert Leads(s, ends[|ends| - 1], hint.value.1);
    ExtractedIsLikely(s, ends, code, "keyword");
  }

  /** The text is what collapsing and upper-casing made of the message; the ends only say which hints were passed. */
  method ExtractCode(flat: string) returns (code: string, source: string, ghost ends: seq<int>)
    ensures Extracts(flat, ends, code, source)
    ensures if code == "" then source == "" && NoCode(flat) else Likely(code) && source != ""
  {
    ends := [0];
    if flat == "" { return "", "", ends; }
    var searchAt := 0;
    while searchAt < |flat|
      invariant 0 <= searchAt <= |flat| && Passed(flat, ends) && ends[|ends| - 1] == searchAt
      decreases |flat| - searchAt
    {
      var hint := NextCodeHint(flat, searchAt);
      if hint == None { break; }
      var start := hint.value.1;
      var window := Window(flat, start);
      code := FirstLikelyCode(window, true);
      if code == "" { code := FirstLikelyCode(window, false); }
      if code != "" {
        source := "keyword";
        FoundByHint(flat, ends, hint, code);
        return;
      }
      PassedOneMore(flat, ends, hint);
      ends := ends + [start];
      searchAt := start;
    }
    code := FirstLikelyCode(flat, true);
    source := if code == "" then "" else "digits";
    if code == "" {
      code := FirstLikelyCode(flat, false);
      source := if code == "" then "" else "token";
    }
    ExtractedIsLikely(flat, ends, code, source);
  }
}
