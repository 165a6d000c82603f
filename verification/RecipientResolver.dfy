/**
  Which active domain a recipient belongs to. The ingress walks the labels of the recipient's
  domain through an index; the API scans the list of active domains. Both look for the longest
  active root that is the domain or a dot-suffix of it.
 */
module RecipientResolver {
  import opened Options
  import opened Text

  datatype Entry = Entry(id: int, name: string)

  // ---------- roots ----------

  const DOT := {'.'}
  const ANGLES := {'<', '>'}

  function From(s: string, i: int): string
    requires 0 <= i <= |s|
  {
    s[i..]
  }

  /** The root is the domain or a dot-suffix of it. */
  predicate Under(domain: string, root: string) {
    || domain == root
    || (|root| < |domain| && domain[|domain| - |root| - 1] == '.' && From(domain, |domain| - |root|) == root)
  }

  predicate IsRoot(domain: string, root: string) {
    root != "" && Under(domain, root)
  }

  predicate HasSuffix(s: string, suffix: string) {
    |suffix| <= |s| && s[|s| - |suffix|..] == suffix
  }

  lemma UnderIsDotSuffix(domain: string, root: string)
    ensures Under(domain, root) <==> domain == root || HasSuffix(domain, "." + root)
  {
    if |root| < |domain| {
      var tail := domain[|domain| - |root| - 1..];
      assert tail == [tail[0]] + domain[|domain| - |root|..];
      assert tail == "." + root <==> tail[0] == '.' && tail[1..] == root;
    }
  }

  /** Roots of one domain are determined by their lengths. */
  lemma SameLengthSameRoot(domain: string, a: string, b: string)
    requires Under(domain, a) && Under(domain, b) && |a| == |b|
    ensures a == b
  {
  }

  // ---------- the active domains and their index ----------

  function Normal(s: string): string {
    Lower(Trim(TrimSpace(s), DOT))
  }

  /** Without white space around it, then without dots around it, in lower case. */
  ghost predicate NormalOf(name: string, normal: string) {
    exists w, d :: TrimsTo(name, SPACE, w) && TrimsTo(w, DOT, d) && IsLowerOf(d, normal)
  }

  lemma NormalIsRight(name: string)
    ensures forall normal :: NormalOf(name, normal) <==> normal == Normal(name)
  {
    TrimIsRight(name, SPACE);
    TrimIsRight(TrimSpace(name), DOT);
    LowerIsRight(Trim(TrimSpace(name), DOT));
    forall normal
      ensures NormalOf(name, normal) <==> normal == Normal(name)
    {
      assert TrimsTo(name, SPACE, TrimSpace(name)) && TrimsTo(TrimSpace(name), DOT, Trim(TrimSpace(name), DOT));
    }
  }

  datatype Snapshot = Snapshot(domains: seq<Entry>, byName: map<string, Entry>)

  predicate Listed(domains: seq<Entry>, e: Entry) {
    exists k :: 0 <= k < |domains| && domains[k] == e
  }

  /** The index knows exactly the names of the list, none of them empty. */
  ghost predicate IndexMatches(snap: Snapshot) {
    && (forall k :: 0 <= k < |snap.domains| ==> snap.domains[k].name in snap.byName)
    && (forall name :: name in snap.byName ==>
          name != "" && snap.byName[name].name == name && Listed(snap.domains, snap.byName[name]))
  }

  predicate SameName(domains: seq<Entry>, j: int, k: int)
    requires 0 <= j < |domains| && 0 <= k < |domains|
  {
    domains[j].name == domains[k].name
  }

  ghost predicate UniqueNames(domains: seq<Entry>) {
    forall j, k :: 0 <= j < k < |domains| ==> !SameName(domains, j, k)
  }

  /** The rows that the snapshot keeps, with their names normalised. */
  function Kept(loaded: seq<Entry>, n: nat): seq<Entry>
    requires n <= |loaded|
  {
    if n == 0 then []
    else
      var e := loaded[n - 1];
      if e.id <= 0 || Normal(e.name) == "" then Kept(loaded, n - 1)
      else Kept(loaded, n - 1) + [Entry(e.id, Normal(e.name))]
  }

  /** The entry is a loaded row under its normal name, which is not empty. */
  ghost predicate KeepsRow(row: Entry, e: Entry) {
    row.id > 0 && e.id == row.id && e.name != "" && NormalOf(row.name, e.name)
  }

  /** Exactly the rows with a positive id and a name that is not empty are kept, in their order. */
  lemma {:induction false} KeptMeans(loaded: seq<Entry>, n: nat)
    requires n <= |loaded|
    ensures forall e :: e in Kept(loaded, n) <==> exists k :: 0 <= k < n && KeepsRow(loaded[k], e)
    ensures |Kept(loaded, n)| <= n
  {
    if n > 0 {
      KeptMeans(loaded, n - 1);
      var row := loaded[n - 1];
      NormalIsRight(row.name);
      forall e
        ensures e in Kept(loaded, n) <==> exists k :: 0 <= k < n && KeepsRow(loaded[k], e)
      {
        assert KeepsRow(row, e) <==> row.id > 0 && Normal(row.name) != "" && e == Entry(row.id, Normal(row.name));
        assert (exists k :: 0 <= k < n && KeepsRow(loaded[k], e))
               <==> KeepsRow(row, e) || exists k :: 0 <= k < n - 1 && KeepsRow(loaded[k], e);
      }
    }
  }

  predicate TextBelow(a: string, b: string) {
    if b == "" then false
    else if a == "" then true
    else a[0] < b[0] || (a[0] == b[0] && TextBelow(a[1..], b[1..]))
  }

  /** Longer names first, names of the same length in their order. */
  predicate InFront(a: Entry, b: Entry) {
    if |a.name| == |b.name| then TextBelow(a.name, b.name) else |a.name| > |b.name|
  }

  function Inserted(e: Entry, sorted: seq<Entry>): seq<Entry> {
    if sorted == [] || InFront(e, sorted[0]) then [e] + sorted else [sorted[0]] + Inserted(e, sorted[1..])
  }

  function Sorted(domains: seq<Entry>): seq<Entry> {
    if domains == [] then [] else Inserted(domains[0], Sorted(domains[1..]))
  }

  lemma {:induction false} TextOrder(a: string, b: string, c: string)
    ensures a == b || TextBelow(a, b) || TextBelow(b, a)
    ensures !TextBelow(b, a) && !TextBelow(c, b) ==> !TextBelow(c, a)
  {
    if a != "" && b != "" { TextOrder(a[1..], b[1..], if c == "" then "" else c[1..]); }
  }

  /** No entry stands in front of an earlier one. */
  predicate InOrder(domains: seq<Entry>) {
    forall j, k :: 0 <= j < k < |domains| ==> NotInFront(domains, k, j)
  }

  predicate NotInFront(domains: seq<Entry>, k: int, j: int)
    requires 0 <= j < |domains| && 0 <= k < |domains|
  {
    !InFront(domains[k], domains[j])
  }

  lemma {:induction false} InsertedMeans(e: Entry, sorted: seq<Entry>)
    requires InOrder(sorted)
    ensures multiset(Inserted(e, sorted)) == multiset(sorted) + multiset{e} && InOrder(Inserted(e, sorted))
    ensures Inserted(e, sorted) != [] && (Inserted(e, sorted)[0] == e || (sorted != [] && Inserted(e, sorted)[0] == sorted[0]))
  {
    if sorted != [] && !InFront(e, sorted[0]) {
      var rest := sorted[1..];
      assert sorted == [sorted[0]] + rest;
      assert InOrder(rest) by {
        forall j, k | 0 <= j < k < |rest| ensures NotInFront(rest, k, j) { assert NotInFront(sorted, k + 1, j + 1); }
      }
      InsertedMeans(e, rest);
      HeadStaysFirst(sorted[0], Inserted(e, rest), e, sorted);
    } else {
      HeadGoesFirst(e, sorted);
    }
  }

  lemma HeadStaysFirst(head: Entry, rest: seq<Entry>, e: Entry, sorted: seq<Entry>)
    requires sorted != [] && sorted[0] == head && InOrder(sorted) && InOrder(rest) && !InFront(e, head)
    requires multiset(rest) == multiset(sorted[1..]) + multiset{e}
    ensures InOrder([head] + rest)
  {
    var all := [head] + rest;
    forall j, k | 0 <= j < k < |all|
      ensures NotInFront(all, k, j)
    {
      if j > 0 {
        assert NotInFront(rest, k - 1, j - 1);
      } else if rest[k - 1] != e {
        assert rest[k - 1] in multiset(rest);
        assert rest[k - 1] in sorted[1..];
        var at :| 0 <= at < |sorted| - 1 && sorted[1..][at] == rest[k - 1];
        assert NotInFront(sorted, at + 1, 0);
      }
    }
  }

  lemma HeadGoesFirst(e: Entry, sorted: seq<Entry>)
    requires InOrder(sorted) && (sorted != [] ==> InFront(e, sorted[0]))
    ensures InOrder([e] + sorted)
  {
    var all := [e] + sorted;
    forall j, k | 0 <= j < k < |all|
      ensures NotInFront(all, k, j)
    {
      if j > 0 {
        assert NotInFront(sorted, k - 1, j - 1);
      } else {
        if k > 1 { assert NotInFront(sorted, k - 1, 0); }
        TextOrder(e.name, sorted[0].name, all[k].name);
        TextNotBoth(e.name, sorted[0].name);
      }
    }
  }

  lemma {:induction false} TextNotBoth(a: string, b: string)
    ensures !(TextBelow(a, b) && TextBelow(b, a))
  {
    if a != "" && b != "" { TextNotBoth(a[1..], b[1..]); }
  }

  lemma {:induction false} SortedMeans(domains: seq<Entry>)
    ensures multiset(Sorted(domains)) == multiset(domains) && InOrder(Sorted(domains))
  {
    if domains != [] {
      SortedMeans(domains[1..]);
      assert domains == [domains[0]] + domains[1..];
      InsertedMeans(domains[0], Sorted(domains[1..]));
    }
  }

  /** Sorting the list leaves the index right. */
  lemma SortKeepsIndex(snap: Snapshot)
    requires IndexMatches(snap)
    ensures IndexMatches(Snapshot(Sorted(snap.domains), snap.byName))
  {
    var sorted := Sorted(snap.domains);
    SortedMeans(snap.domains);
    forall k | 0 <= k < |sorted|
      ensures sorted[k].name in snap.byName
    {
      assert sorted[k] in multiset(sorted);
      assert sorted[k] in snap.domains;
    }
    forall name | name in snap.byName
      ensures Listed(sorted, snap.byName[name])
    {
      assert Listed(snap.domains, snap.byName[name]);
      assert snap.byName[name] in multiset(snap.domains);
      assert snap.byName[name] in sorted;
    }
  }

  /** The list is that of the kept rows, longest names first, and the index knows its names. */
  method RefreshSnapshot(loaded: seq<Entry>) returns (snap: Snapshot)
    ensures multiset(snap.domains) == multiset(Kept(loaded, |loaded|)) && InOrder(snap.domains)
    ensures IndexMatches(snap)
    ensures forall e :: e in snap.domains <==> exists k :: 0 <= k < |loaded| && KeepsRow(loaded[k], e)
    ensures forall j, k :: 0 <= j < k < |snap.domains| ==> |snap.domains[j].name| >= |snap.domains[k].name|
  {
    KeptMeans(loaded, |loaded|);
    var domains: seq<Entry>, byName := [], map[];
    for i := 0 to |loaded|
      invariant domains == Kept(loaded, i)
      invariant IndexMatches(Snapshot(domains, byName))
    {
      var name := Normal(loaded[i].name);
      if loaded[i].id <= 0 || name == "" { continue; }
      var item := Entry(loaded[i].id, name);
      IndexGrows(Snapshot(domains, byName), item);
      domains := domains + [item];
      byName := byName[name := item];
    }
    SortedMeans(domains);
    SortKeepsIndex(Snapshot(domains, byName));
    snap := Snapshot(Sorted(domains), byName);
    assert forall e :: e in snap.domains <==> e in multiset(snap.domains);
    assert forall e :: e in domains <==> e in multiset(domains);
    forall j, k | 0 <= j < k < |snap.domains|
      ensures |snap.domains[j].name| >= |snap.domains[k].name|
    {
      assert NotInFront(snap.domains, k, j);
    }
  }

  lemma IndexGrows(snap: Snapshot, item: Entry)
    requires IndexMatches(snap) && item.name != ""
    ensures IndexMatches(Snapshot(snap.domains + [item], snap.byName[item.name := item]))
  {
    var domains, byName := snap.domains + [item], snap.byName[item.name := item];
    assert domains[|domains| - 1] == item;
    forall k | k in byName
      ensures Listed(domains, byName[k])
    {
      if k != item.name {
        assert Listed(snap.domains, byName[k]);
        var at :| 0 <= at < |snap.domains| && snap.domains[at] == byName[k];
        assert domains[at] == byName[k];
      }
    }
  }

  // ---------- the scan, and what it finds ----------

  function Root(e: Entry): string {
    Lower(TrimSpace(e.name))
  }

  /** What the scan has found after one more entry. */
  function Better(e: Entry, best: Option<Entry>, domain: string): Option<Entry> {
    if IsRoot(domain, Root(e)) && (best.None? || |Root(e)| > |best.value.name|) then Some(e) else best
  }

  /** The scan's best entry among the first n: the first of the longest roots. */
  function Scan(domains: seq<Entry>, n: nat, domain: string): Option<Entry>
    requires n <= |domains|
  {
    if n == 0 then None
    else Better(domains[n - 1], Scan(domains, n - 1, domain), domain)
  }

  predicate ListedBefore(domains: seq<Entry>, n: nat, e: Entry)
    requires n <= |domains|
  {
    exists k :: 0 <= k < n && domains[k] == e
  }

  predicate NoneLonger(domains: seq<Entry>, n: nat, domain: string, length: int)
    requires n <= |domains|
  {
    forall k :: 0 <= k < n && IsRoot(domain, domains[k].name) ==> |domains[k].name| <= length
  }

  /** The longest root of the domain among the first n entries; None only when there is none. */
  predicate IsLongest(domains: seq<Entry>, n: nat, domain: string, found: Option<Entry>)
    requires n <= |domains|
  {
    match found
    case None => NoneLonger(domains, n, domain, -1)
    case Some(e) => IsRoot(domain, e.name) && ListedBefore(domains, n, e) && NoneLonger(domains, n, domain, |e.name|)
  }

  lemma OneMore(domains: seq<Entry>, n: nat, domain: string, best: Option<Entry>)
    requires n < |domains| && IsLongest(domains, n, domain, best)
    ensures var e := domains[n];
            IsLongest(domains, n + 1, domain,
                      if IsRoot(domain, e.name) && (best.None? || |e.name| > |best.value.name|) then Some(e) else best)
  {
    assert best.Some? ==> ListedBefore(domains, n + 1, best.value);
    assert ListedBefore(domains, n + 1, domains[n]);
  }

  /** The entry under its root. */
  function Rooted(e: Entry): Entry {
    Entry(e.id, Root(e))
  }

  function AllRooted(domains: seq<Entry>): (r: seq<Entry>)
    ensures |r| == |domains| && forall k :: 0 <= k < |r| ==> r[k] == Rooted(domains[k])
  {
    seq(|domains|, k requires 0 <= k < |domains| => Rooted(domains[k]))
  }

  function RootedIfAny(found: Option<Entry>): Option<Entry> {
    if found.Some? then Some(Rooted(found.value)) else None
  }

  /** The name has no white space around it. */
  predicate Unpadded(e: Entry) {
    |Root(e)| == |e.name|
  }

  predicate AllUnpadded(domains: seq<Entry>) {
    forall k :: 0 <= k < |domains| ==> Unpadded(domains[k])
  }

  lemma ScanListsMore(domains: seq<Entry>, n: nat, domain: string)
    requires 0 < n <= |domains|
    requires Scan(domains, n - 1, domain).Some? ==> ListedBefore(domains, n - 1, Scan(domains, n - 1, domain).value)
    ensures Scan(domains, n, domain).Some? ==> ListedBefore(domains, n, Scan(domains, n, domain).value)
  {
    assert ListedBefore(domains, n, domains[n - 1]);
  }

  /** Whatever the names are, the scan finds a root if there is one. */
  lemma {:induction false} ScanFindsARoot(domains: seq<Entry>, n: nat, domain: string)
    requires n <= |domains|
    ensures Scan(domains, n, domain).None? <==> forall k :: 0 <= k < n ==> !IsRoot(domain, Root(domains[k]))
    ensures Scan(domains, n, domain).Some? ==>
              var e := Scan(domains, n, domain).value; IsRoot(domain, Root(e)) && ListedBefore(domains, n, e)
  {
    if n > 0 {
      ScanFindsARoot(domains, n - 1, domain);
      ScanListsMore(domains, n, domain);
    }
  }

  lemma LongestStep(domains: seq<Entry>, n: nat, domain: string, best: Option<Entry>)
    requires n < |domains| && IsLongest(AllRooted(domains), n, domain, RootedIfAny(best))
    requires best.Some? ==> Unpadded(best.value)
    ensures IsLongest(AllRooted(domains), n + 1, domain, RootedIfAny(Better(domains[n], best, domain)))
  {
    OneMore(AllRooted(domains), n, domain, RootedIfAny(best));
    assert AllRooted(domains)[n] == Rooted(domains[n]);
  }

  /** The scan finds the longest active root, and nothing only when there is none. */
  lemma {:induction false} ScanFindsTheLongest(domains: seq<Entry>, n: nat, domain: string)
    requires n <= |domains| && AllUnpadded(domains)
    ensures IsLongest(AllRooted(domains), n, domain, RootedIfAny(Scan(domains, n, domain)))
  {
    if n > 0 {
      ScanFindsTheLongest(domains, n - 1, domain);
      BestIsUnpadded(domains, n - 1, domain);
      LongestStep(domains, n - 1, domain, Scan(domains, n - 1, domain));
      ScanTurn(domains, n - 1, domain);
    }
  }

  lemma BestIsUnpadded(domains: seq<Entry>, n: nat, domain: string)
    requires n <= |domains| && AllUnpadded(domains)
    ensures Scan(domains, n, domain).Some? ==> Unpadded(Scan(domains, n, domain).value)
  {
    ScanFindsARoot(domains, n, domain);
    var best := Scan(domains, n, domain);
    if best.Some? {
      var k :| 0 <= k < n && domains[k] == best.value;
      assert Unpadded(domains[k]);
    }
  }

  lemma ScanTurn(domains: seq<Entry>, n: nat, domain: string)
    requires n < |domains|
    ensures Scan(domains, n + 1, domain) == Better(domains[n], Scan(domains, n, domain), domain)
  {
  }

  predicate FindsTheLongest(domains: seq<Entry>, domain: string) {
    IsLongest(AllRooted(domains), |domains|, domain, RootedIfAny(Scan(domains, |domains|, domain)))
  }

  /**
    Names with white space around them are the only ones that can mislead the scan, because it
    compares a root with the best name so far, not with that name's root.
   */
  lemma NameMisleadsUnlessUnpadded(p: Entry)
    requires Root(p) != ""
    ensures Unpadded(p) <==> forall e, domain :: FindsTheLongest([p, e], domain)
  {
    if Unpadded(p) {
      forall e, domain
        ensures FindsTheLongest([p, e], domain)
      {
        TwoEntries(p, e, domain);
      }
    } else {
      var root := Root(p);
      var e, domain := Entry(p.id, "." + root), "x.." + root;
      RootIsTrimmed(p);
      TrimFixes("." + root, SPACE);
      LowerFixes("." + root);
      assert Root(e) == "." + root;
      UnderIsDotSuffix(domain, root);
      UnderIsDotSuffix(domain, "." + root);
      assert From(domain, 3) == root && From(domain, 2) == "." + root;
      TwoEntriesScanned(p, e, domain);
      assert !FindsTheLongest([p, e], domain);
    }
  }

  // ---------- requests without empty labels ----------

  predicate Dots(s: string, i: int)
    requires 0 <= i < |s| - 1
  {
    s[i] == '.' && s[i + 1] == '.'
  }

  /** No label of the name is empty. */
  predicate Labelled(s: string) {
    && s != "" && s[0] != '.' && s[|s| - 1] != '.'
    && forall i :: 0 <= i < |s| - 1 ==> !Dots(s, i)
  }

  /** How much white space the stored name has around it. */
  function Padding(e: Entry): (n: nat) {
    RootIsShorter(e);
    |e.name| - |Root(e)|
  }

  lemma RootIsShorter(e: Entry)
    ensures |Root(e)| <= |e.name|
  {
    TrimMeans(e.name, SPACE);
    LowerMeans(TrimSpace(e.name));
  }

  /** Two roots of such a name differ by a label and its dot. */
  lemma RootsDifferByALabel(domain: string, a: string, b: string)
    requires Labelled(domain) && IsRoot(domain, a) && IsRoot(domain, b) && |a| > |b|
    ensures |a| >= |b| + 2
  {
    UnderIsDotSuffix(domain, a);
    UnderIsDotSuffix(domain, b);
    var at := |domain| - |b| - 1;
    assert ("." + b)[0] == domain[at] == '.';
    if a != domain {
      var before := |domain| - |a| - 1;
      assert ("." + a)[0] == domain[before] == '.';
      assert !Dots(domain, before);
    }
  }

  lemma RootOfLabelled(domain: string, root: string)
    requires Labelled(domain) && IsRoot(domain, root)
    ensures Labelled(root)
  {
    UnderIsDotSuffix(domain, root);
    var from := |domain| - |root|;
    assert root == domain[from..];
    if from > 0 {
      assert ("." + root)[0] == domain[from - 1] == '.';
      assert !Dots(domain, from - 1);
    }
    forall i | 0 <= i < |root| - 1
      ensures !Dots(root, i)
    {
      assert !Dots(domain, from + i);
    }
  }

  /** For such requests one character of padding does no harm. */
  lemma {:induction false} ScanFindsTheLongestLabelled(domains: seq<Entry>, n: nat, domain: string)
    requires n <= |domains| && Labelled(domain) && AllSlightlyPadded(domains)
    ensures IsLongest(AllRooted(domains), n, domain, RootedIfAny(Scan(domains, n, domain)))
  {
    if n > 0 {
      ScanFindsTheLongestLabelled(domains, n - 1, domain);
      BestIsSlightlyPadded(domains, n - 1, domain);
      LabelledStep(domains, n - 1, domain, Scan(domains, n - 1, domain));
      ScanTurn(domains, n - 1, domain);
    }
  }

  predicate AllSlightlyPadded(domains: seq<Entry>) {
    forall k :: 0 <= k < |domains| ==> Padding(domains[k]) <= 1
  }

  lemma LabelledStep(domains: seq<Entry>, n: nat, domain: string, best: Option<Entry>)
    requires n < |domains| && Labelled(domain) && IsLongest(AllRooted(domains), n, domain, RootedIfAny(best))
    requires best.Some? ==> Padding(best.value) <= 1
    ensures IsLongest(AllRooted(domains), n + 1, domain, RootedIfAny(Better(domains[n], best, domain)))
  {
    OneMore(AllRooted(domains), n, domain, RootedIfAny(best));
    assert AllRooted(domains)[n] == Rooted(domains[n]);
    if best.Some? && IsRoot(domain, Root(domains[n])) && |Root(domains[n])| > |Root(best.value)| {
      RootsDifferByALabel(domain, Root(domains[n]), Root(best.value));
    }
  }

  lemma BestIsSlightlyPadded(domains: seq<Entry>, n: nat, domain: string)
    requires n <= |domains| && AllSlightlyPadded(domains)
    ensures Scan(domains, n, domain).Some? ==> Padding(Scan(domains, n, domain).value) <= 1
  {
    ScanFindsARoot(domains, n, domain);
    var best := Scan(domains, n, domain);
    if best.Some? {
      var k :| 0 <= k < n && domains[k] == best.value;
      assert Padding(domains[k]) <= 1;
    }
  }

  /**
    For such requests a stored name can mislead the scan if and only if it has no empty label itself
    and at least two characters of white space around it; then "x." before its root is missed.
   */
  lemma NameMisleadsIffPadded(p: Entry)
    ensures Padding(p) <= 1 || !Labelled(Root(p))
            <==> forall e, domain :: Labelled(domain) ==> FindsTheLongest([p, e], domain)
  {
    if Padding(p) <= 1 || !Labelled(Root(p)) {
      forall e, domain | Labelled(domain)
        ensures FindsTheLongest([p, e], domain)
      {
        LabelledEntries(p, e, domain);
      }
    } else {
      PaddedNameMisleads(p);
    }
  }

  lemma LabelledEntries(p: Entry, e: Entry, domain: string)
    requires Labelled(domain) && (Padding(p) <= 1 || !Labelled(Root(p)))
    ensures FindsTheLongest([p, e], domain)
  {
    var roots := AllRooted([p, e]);
    TwoEntriesScanned(p, e, domain);
    assert roots[0] == Rooted(p) && roots[1] == Rooted(e);
    assert ListedBefore(roots, 2, Rooted(p)) && ListedBefore(roots, 2, Rooted(e));
    PaddingIsHarmless(p, e, domain);
  }

  lemma PaddingIsHarmless(p: Entry, e: Entry, domain: string)
    requires Labelled(domain) && (Padding(p) <= 1 || !Labelled(Root(p)))
    ensures IsRoot(domain, Root(p)) && IsRoot(domain, Root(e)) ==> (|Root(e)| > |Root(p)| <==> |Root(e)| > |p.name|)
  {
    RootIsShorter(p);
    if IsRoot(domain, Root(p)) && IsRoot(domain, Root(e)) && |Root(e)| > |Root(p)| {
      RootOfLabelled(domain, Root(p));
      RootsDifferByALabel(domain, Root(e), Root(p));
    }
  }

  lemma ALabelMore(root: string)
    requires Labelled(root)
    ensures Labelled("x." + root)
  {
    var longer := "x." + root;
    forall i | 0 <= i < |longer| - 1
      ensures !Dots(longer, i)
    {
      assert i >= 2 ==> !Dots(root, i - 2);
    }
  }

  lemma PaddedNameMisleads(p: Entry)
    requires Padding(p) >= 2 && Labelled(Root(p))
    ensures var e := Entry(p.id, "x." + Root(p)); Labelled(e.name) && !FindsTheLongest([p, e], e.name)
  {
    var root := Root(p);
    var e := Entry(p.id, "x." + root);
    RootIsTrimmed(p);
    TrimFixes(e.name, SPACE);
    LowerFixes(e.name);
    assert Root(e) == e.name;
    assert From(e.name, 2) == root;
    TwoEntriesScanned(p, e, e.name);
    ALabelMore(root);
    assert AllRooted([p, e])[1] == e;
  }

  lemma RootIsTrimmed(p: Entry)
    requires Root(p) != ""
    ensures IsLower(Root(p)) && IsLower("." + Root(p)) && Ends("." + Root(p), SPACE) && |Root(p)| <= |p.name|
  {
    var t := TrimSpace(p.name);
    TrimMeans(p.name, SPACE);
    LowerIsLower(t);
    LowerMeans(t);
    var last := |t| - 1;
    assert Root(p)[last] == LowerChar(t[last]);
    assert Root(p)[last] !in SPACE;
  }

  lemma TwoEntriesScanned(p: Entry, e: Entry, domain: string)
    ensures var both := [p, e];
            Scan(both, 2, domain)
            == if IsRoot(domain, Root(p)) && !(IsRoot(domain, Root(e)) && |Root(e)| > |p.name|) then Some(p)
               else if IsRoot(domain, Root(e)) then Some(e) else None
  {
    var both := [p, e];
    assert Scan(both, 0, domain) == None;
    assert Scan(both, 1, domain) == if IsRoot(domain, Root(p)) then Some(p) else None;
  }

  lemma TwoEntries(p: Entry, e: Entry, domain: string)
    requires Unpadded(p)
    ensures FindsTheLongest([p, e], domain)
  {
    var roots := AllRooted([p, e]);
    TwoEntriesScanned(p, e, domain);
    assert roots[0] == Rooted(p) && roots[1] == Rooted(e);
    assert ListedBefore(roots, 2, Rooted(p)) && ListedBefore(roots, 2, Rooted(e));
  }

  /** The list holds names in their normal form, as the snapshot's does. */
  predicate Tidy(domains: seq<Entry>) {
    forall k :: 0 <= k < |domains| ==> Root(domains[k]) == domains[k].name
  }

  lemma TidyIsRooted(domains: seq<Entry>, domain: string)
    requires Tidy(domains)
    ensures IsLongest(domains, |domains|, domain, Scan(domains, |domains|, domain))
  {
    assert AllRooted(domains) == domains by {
      assert forall k :: 0 <= k < |domains| ==> Rooted(domains[k]) == domains[k];
    }
    ScanFindsTheLongest(domains, |domains|, domain);
    ScanFindsARoot(domains, |domains|, domain);
    var found := Scan(domains, |domains|, domain);
    if found.Some? {
      var k :| 0 <= k < |domains| && domains[k] == found.value;
      assert Rooted(domains[k]) == found.value;
    }
  }

  /** With unique names there is only one longest root, so any search for it agrees with the scan. */
  lemma OnlyOneLongest(domains: seq<Entry>, domain: string, a: Option<Entry>, b: Option<Entry>)
    requires UniqueNames(domains)
    requires IsLongest(domains, |domains|, domain, a) && IsLongest(domains, |domains|, domain, b)
    ensures a == b
  {
    if a.Some? && b.Some? {
      var j :| 0 <= j < |domains| && domains[j] == a.value;
      var k :| 0 <= k < |domains| && domains[k] == b.value;
      SameLengthSameRoot(domain, a.value.name, b.value.name);
      assert SameName(domains, j, k) && SameName(domains, k, j);
    }
  }

  // ---------- the walk ----------

  function FirstDot(s: string): (k: nat)
    ensures k <= |s| && (k < |s| ==> s[k] == '.') && forall i :: 0 <= i < k ==> s[i] != '.'
  {
    if s == "" || s[0] == '.' then 0 else 1 + FirstDot(s[1..])
  }

  /** Cutting the first label off loses no root but the whole of the candidate. */
  lemma CutOneLabel(candidate: string, dot: nat, root: string)
    requires dot < |candidate| && candidate[dot] == '.' && forall i :: 0 <= i < dot ==> candidate[i] != '.'
    ensures Under(candidate, root) <==> root == candidate || Under(candidate[dot + 1..], root)
  {
    var shorter := candidate[dot + 1..];
    if |root| <= |shorter| {
      assert From(candidate, |candidate| - |root|) == From(shorter, |shorter| - |root|);
      assert From(shorter, 0) == shorter;
    }
  }

  lemma NoDotNoSuffix(candidate: string, root: string)
    requires FirstDot(candidate) == |candidate| || (FirstDot(candidate) == |candidate| - 1 && root != "")
    ensures Under(candidate, root) ==> root == candidate
  {
  }

  /** The candidate is a root of the domain, and no indexed root of the domain is outside it. */
  ghost predicate Leads(snap: Snapshot, domain: string, candidate: string) {
    && Under(domain, candidate)
    && forall root :: root in snap.byName && Under(domain, root) ==> Under(candidate, root)
  }

  lemma UnderIsTransitive(domain: string, root: string, top: string)
    requires Under(domain, root) && Under(root, top)
    ensures Under(domain, top)
  {
    if domain != root && root != top {
      assert From(domain, |domain| - |root|)[|root| - |top| - 1] == '.';
      assert From(domain, |domain| - |top|) == From(root, |root| - |top|);
    }
  }

  lemma CutOneLabelLeads(snap: Snapshot, domain: string, candidate: string)
    requires Leads(snap, domain, candidate) && candidate !in snap.byName
    requires FirstDot(candidate) < |candidate|
    ensures Leads(snap, domain, candidate[FirstDot(candidate) + 1..])
  {
    var shorter := candidate[FirstDot(candidate) + 1..];
    CutOneLabel(candidate, FirstDot(candidate), shorter);
    UnderIsTransitive(domain, candidate, shorter);
    forall root | root in snap.byName && Under(domain, root)
      ensures Under(shorter, root)
    {
      CutOneLabel(candidate, FirstDot(candidate), root);
    }
  }

  lemma LeadsToTheLongest(snap: Snapshot, domain: string, candidate: string, matched: Option<Entry>)
    requires IndexMatches(snap) && Leads(snap, domain, candidate)
    requires matched == if candidate in snap.byName then Some(snap.byName[candidate]) else None
    requires matched == None ==> FirstDot(candidate) >= |candidate| - 1
    ensures IsLongest(snap.domains, |snap.domains|, domain, matched)
  {
    if matched == None {
      forall k | 0 <= k < |snap.domains|
        ensures !IsRoot(domain, snap.domains[k].name)
      {
        NoDotNoSuffix(candidate, snap.domains[k].name);
      }
    } else {
      assert Listed(snap.domains, matched.value);
      assert forall k :: 0 <= k < |snap.domains| && Under(domain, snap.domains[k].name) ==> snap.domains[k].name in snap.byName;
    }
  }

  /** The longest entry of the index that the candidate is under. */
  method Walk(snap: Snapshot, domain: string) returns (matched: Option<Entry>)
    requires IndexMatches(snap)
    ensures IsLongest(snap.domains, |snap.domains|, domain, matched)
    ensures Tidy(snap.domains) && UniqueNames(snap.domains) ==> matched == Scan(snap.domains, |snap.domains|, domain)
  {
    matched := if domain in snap.byName then Some(snap.byName[domain]) else None;
    var candidate := domain;
    while matched == None
      invariant Leads(snap, domain, candidate)
      invariant matched == if candidate in snap.byName then Some(snap.byName[candidate]) else None
      decreases |candidate|, matched == None
    {
      var dot := FirstDot(candidate);
      if dot == |candidate| || dot == |candidate| - 1 { break; }
      CutOneLabelLeads(snap, domain, candidate);
      candidate := candidate[dot + 1..];
      matched := if candidate in snap.byName then Some(snap.byName[candidate]) else None;
    }
    LeadsToTheLongest(snap, domain, candidate, matched);
    if Tidy(snap.domains) && UniqueNames(snap.domains) {
      TidyIsRooted(snap.domains, domain);
      OnlyOneLongest(snap.domains, domain, matched, Scan(snap.domains, |snap.domains|, domain));
    }
  }

  // ---------- addresses ----------

  /** The position of the last '@', or -1. */
  function LastAt(s: string): (k: int)
    ensures -1 <= k < |s| && (k >= 0 ==> s[k] == '@') && forall i :: k < i < |s| ==> s[i] != '@'
  {
    if s == "" then -1 else if s[|s| - 1] == '@' then |s| - 1 else LastAt(s[..|s| - 1])
  }

  predicate HasDoubleDot(s: string) {
    exists i :: 0 <= i < |s| - 1 && s[i] == '.' && s[i + 1] == '.'
  }

  predicate HasBlank(s: string) {
    exists i :: 0 <= i < |s| && s[i] in {' ', '\t', '\r', '\n'}
  }

  /** The local part and the domain of an address, lower-cased. */
  function SplitAddress(address: string): Option<(string, string)> {
    var a := Trim(Lower(TrimSpace(address)), ANGLES);
    var at := LastAt(a);
    if at <= 0 || at == |a| - 1 then None
    else
      var local, domain := TrimSpace(a[..at]), Trim(TrimSpace(a[at + 1..]), DOT);
      if local == "" || domain == "" || HasDoubleDot(domain) || HasBlank(domain) then None
      else Some((local, domain))
  }

  /** What remains of a part that is trimmed of white space and then of dots. */
  lemma TrimmedPart(part: string, whole: string)
    requires Within(part, whole)
    ensures var r := Trim(TrimSpace(part), DOT);
            Within(r, whole) && (r != "" ==> r[0] != '.' && r[|r| - 1] != '.')
  {
    TrimMeans(part, SPACE);
    TrimMeans(TrimSpace(part), DOT);
  }

  /**
    A domain that an address yields is not empty, is in lower case, and consists of non-empty
    labels: no dot at either end, and no two in a row.
   */
  lemma SplitDomainIsClean(address: string)
    requires SplitAddress(address).Some?
    ensures var (local, domain) := SplitAddress(address).value;
            && local != "" && local[0] !in SPACE && local[|local| - 1] !in SPACE
            && domain != "" && domain[0] != '.' && domain[|domain| - 1] != '.' && !HasDoubleDot(domain)
            && '@' !in domain && IsLower(domain) && !HasBlank(domain)
  {
    var lowered := Lower(TrimSpace(address));
    var a := Trim(lowered, ANGLES);
    var at := LastAt(a);
    LowerIsLower(TrimSpace(address));
    TrimMeans(lowered, ANGLES);
    TrimMeans(a[..at], SPACE);
    TrimmedPart(a[at + 1..], a[at + 1..]);
    assert '@' !in a[at + 1..];
    assert Within(a[at + 1..], lowered);
  }

  /** The address without white space around it, in lower case, and then without angle brackets around it. */
  ghost predicate BareOf(address: string, bare: string) {
    exists w, l :: TrimsTo(address, SPACE, w) && IsLowerOf(w, l) && TrimsTo(l, ANGLES, bare)
  }

  /** The domain's side of the last '@', trimmed of white space and then of dots. */
  ghost predicate DomainOf(part: string, domain: string) {
    exists d :: TrimsTo(part, SPACE, d) && TrimsTo(d, DOT, domain)
  }

  ghost predicate Joins(bare: string, local: string, domain: string) {
    exists h, g :: bare == h + "@" + g && '@' !in g && TrimsTo(h, SPACE, local) && DomainOf(g, domain)
  }

  /** The two parts of an address, spelled out. */
  ghost predicate SplitsTo(address: string, local: string, domain: string) {
    && (exists bare :: BareOf(address, bare) && Joins(bare, local, domain))
    && local != "" && domain != "" && !HasDoubleDot(domain) && !HasBlank(domain)
  }

  function Bare(address: string): string {
    Trim(Lower(TrimSpace(address)), ANGLES)
  }

  lemma BareIsRight(address: string)
    ensures forall bare :: BareOf(address, bare) <==> bare == Bare(address)
  {
    TrimIsRight(address, SPACE);
    LowerIsRight(TrimSpace(address));
    TrimIsRight(Lower(TrimSpace(address)), ANGLES);
    forall bare
      ensures BareOf(address, bare) <==> bare == Bare(address)
    {
      assert TrimsTo(address, SPACE, TrimSpace(address)) && IsLowerOf(TrimSpace(address), Lower(TrimSpace(address)));
    }
  }

  lemma DomainIsRight(part: string)
    ensures forall domain :: DomainOf(part, domain) <==> domain == Trim(TrimSpace(part), DOT)
  {
    TrimIsRight(part, SPACE);
    TrimIsRight(TrimSpace(part), DOT);
    forall domain
      ensures DomainOf(part, domain) <==> domain == Trim(TrimSpace(part), DOT)
    {
      assert TrimsTo(part, SPACE, TrimSpace(part));
    }
  }

  lemma LastAtSplits(bare: string, h: string, g: string)
    requires bare == h + "@" + g && '@' !in g
    ensures LastAt(bare) == |h| && bare[..|h|] == h && bare[|h| + 1..] == g
  {
    assert bare[|h|] == '@';
    assert forall i :: |h| < i < |bare| ==> bare[i] == g[i - |h| - 1] && bare[i] in g;
  }

  lemma JoinsAtTheLast(bare: string, local: string, domain: string)
    ensures Joins(bare, local, domain) <==>
              LastAt(bare) >= 0 && local == TrimSpace(bare[..LastAt(bare)]) && domain == Trim(TrimSpace(bare[LastAt(bare) + 1..]), DOT)
  {
    if Joins(bare, local, domain) { JoinedAtTheLast(bare, local, domain); }
    if LastAt(bare) >= 0 { PartsJoin(bare, bare[..LastAt(bare)], bare[LastAt(bare) + 1..]); }
  }

  lemma JoinedAtTheLast(bare: string, local: string, domain: string)
    requires Joins(bare, local, domain)
    ensures LastAt(bare) >= 0 && local == TrimSpace(bare[..LastAt(bare)]) && domain == Trim(TrimSpace(bare[LastAt(bare) + 1..]), DOT)
  {
    var h, g :| bare == h + "@" + g && '@' !in g && TrimsTo(h, SPACE, local) && DomainOf(g, domain);
    LastAtSplits(bare, h, g);
    TrimIsRight(h, SPACE);
    DomainIsRight(g);
  }

  lemma PartsJoin(bare: string, h: string, g: string)
    requires LastAt(bare) >= 0 && h == bare[..LastAt(bare)] && g == bare[LastAt(bare) + 1..]
    ensures Joins(bare, TrimSpace(h), Trim(TrimSpace(g), DOT))
  {
    assert bare == h + "@" + g && '@' !in g;
    TrimTrims(h, SPACE);
    DomainIsRight(g);
  }

  /** An address splits exactly as spelled out, and not at all exactly when there are no such parts. */
  lemma SplitIsRight(address: string, local: string, domain: string)
    ensures SplitAddress(address) == Some((local, domain)) <==> SplitsTo(address, local, domain)
  {
    BareIsRight(address);
    JoinsAtTheLast(Bare(address), local, domain);
    NothingToTrim();
  }

  lemma NothingToTrim()
    ensures TrimSpace("") == "" && Trim("", DOT) == ""
  {
  }

  /** Nothing to trim and nothing to lower. */
  predicate Plain(s: string) {
    s != "" && forall c :: c in s ==> c !in SPACE && c !in ANGLES && !('A' <= c <= 'Z')
  }

  lemma PlainEnds(s: string)
    requires Plain(s)
    ensures Ends(s, SPACE) && Ends(s, ANGLES) && IsLower(s) && !HasBlank(s)
  {
    assert s[0] in s && s[|s| - 1] in s;
  }

  lemma JoinedIsPlain(local: string, domain: string)
    requires Plain(local) && Plain(domain) && '@' !in domain
    ensures var a := local + "@" + domain;
            Plain(a) && LastAt(a) == |local| && a[..|local|] == local && a[|local| + 1..] == domain
  {
    var a := local + "@" + domain;
    assert '@' !in SPACE && '@' !in ANGLES && !('A' <= '@' <= 'Z');
    assert forall i :: |local| < i < |a| ==> a[i] in domain;
    assert a[|local|] == '@';
    assert forall c :: c in a ==> c in local || c == '@' || c in domain;
  }

  /** An address made of plain parts splits into these parts. */
  lemma SplitRoundTrip(local: string, domain: string)
    requires Plain(local) && Plain(domain) && '@' !in domain
    requires Ends(domain, DOT) && !HasDoubleDot(domain)
    ensures SplitAddress(local + "@" + domain) == Some((local, domain))
  {
    var a := local + "@" + domain;
    JoinedIsPlain(local, domain);
    PlainEnds(a);
    PlainEnds(local);
    PlainEnds(domain);
    TrimFixes(a, SPACE);
    LowerFixes(a);
    TrimFixes(a, ANGLES);
    TrimFixes(local, SPACE);
    TrimFixes(domain, SPACE);
    TrimFixes(domain, DOT);
    SplitOf(a, local, domain);
  }

  /** The same in any mixture of capitals and small letters. */
  lemma SplitIgnoresCase(address: string, local: string, domain: string)
    requires Plain(local) && Plain(domain) && '@' !in domain
    requires Ends(domain, DOT) && !HasDoubleDot(domain)
    requires IsLowerOf(address, local + "@" + domain)
    ensures SplitAddress(address) == Some((local, domain))
  {
    var a := local + "@" + domain;
    SplitRoundTrip(local, domain);
    JoinedIsPlain(local, domain);
    BareOfPlain(address, a);
    LowerFixes(a) by { PlainEnds(a); }
    LowerIsRight(a);
    BareOfPlain(a, a);
    SameBareSameSplit(address, a);
  }

  lemma SameBareSameSplit(a: string, b: string)
    requires Bare(a) == Bare(b)
    ensures SplitAddress(a) == SplitAddress(b)
  {
  }

  lemma BareOfPlain(address: string, a: string)
    requires Plain(a) && IsLowerOf(address, a)
    ensures Bare(address) == a
  {
    PlainEnds(a);
    LowerIsRight(address);
    assert LowersTo(address[0], a[0]) && LowersTo(address[|a| - 1], a[|a| - 1]);
    assert Ends(address, SPACE);
    TrimFixes(address, SPACE);
    TrimFixes(a, ANGLES);
  }

  lemma SplitOf(a: string, local: string, domain: string)
    requires TrimSpace(a) == a && Lower(a) == a && Trim(a, ANGLES) == a
    requires 0 < LastAt(a) < |a| - 1 && a[..LastAt(a)] == local && a[LastAt(a) + 1..] == domain
    requires TrimSpace(local) == local != "" && TrimSpace(domain) == domain == Trim(domain, DOT) != ""
    requires !HasDoubleDot(domain) && !HasBlank(domain)
    ensures SplitAddress(a) == Some((local, domain))
  {
  }

  /** An active domain equal to the requested one is the longest root there can be. */
  lemma ExactIsLongest(domains: seq<Entry>, requested: string, domain: string, e: Entry)
    requires AllUnpadded(domains) && domain == Trim(Lower(TrimSpace(requested)), DOT) != ""
    requires Listed(domains, e) && Lower(e.name) == Lower(domain)
    ensures Root(e) == domain && IsLongest(AllRooted(domains), |domains|, domain, Some(Rooted(e)))
  {
    LowerIsLower(TrimSpace(requested));
    TrimMeans(Lower(TrimSpace(requested)), DOT);
    LowerFixes(domain);
    var k :| 0 <= k < |domains| && domains[k] == e;
    assert Unpadded(domains[k]);
    LowerMeans(TrimSpace(e.name));
    TrimMeans(e.name, SPACE);
    assert AllRooted(domains)[k] == Rooted(e);
  }

  // ---------- the two resolvers ----------

  datatype Resolved = Resolved(address: string, local: string, domain: string, domainId: int)

  method ResolveRecipient(snap: Snapshot, address: string) returns (r: Option<Resolved>)
    requires IndexMatches(snap)
    ensures match SplitAddress(address)
            case None => r == None
            case Some((local, domain)) =>
              && (r == None ==> IsLongest(snap.domains, |snap.domains|, domain, None))
              && (r != None ==>
                    && r.value.address == local + "@" + domain && r.value.local == local && r.value.domain == domain
                    && exists e :: IsLongest(snap.domains, |snap.domains|, domain, Some(e)) && e.id == r.value.domainId)
  {
    var split := SplitAddress(address);
    if split == None { return None; }
    var (local, domain) := split.value;
    var matched := Walk(snap, domain);
    if matched == None { return None; }
    assert IsLongest(snap.domains, |snap.domains|, domain, Some(matched.value));
    r := Some(Resolved(local + "@" + domain, local, domain, matched.value.id));
  }

  /** The first entry with the given name, ignoring case, from the k-th on. */
  function FirstNamed(domains: seq<Entry>, k: nat, name: string): Option<Entry>
    requires k <= |domains|
    decreases |domains| - k
  {
    if k == |domains| then None
    else if Lower(domains[k].name) == name then Some(domains[k]) else FirstNamed(domains, k + 1, name)
  }

  lemma {:induction false} FirstNamedMeans(domains: seq<Entry>, k: nat, name: string)
    requires k <= |domains|
    ensures match FirstNamed(domains, k, name)
            case None => forall j :: k <= j < |domains| ==> Lower(domains[j].name) != name
            case Some(e) => Listed(domains, e) && Lower(e.name) == name
    decreases |domains| - k
  {
    if k < |domains| { FirstNamedMeans(domains, k + 1, name); }
  }

  /** The first active domain with the given name, ignoring case. */
  method GetDomainByName(domains: seq<Entry>, name: string) returns (found: Option<Entry>)
    ensures found == FirstNamed(domains, 0, Lower(TrimSpace(name)))
    ensures match found
            case None => forall k :: 0 <= k < |domains| ==> Lower(domains[k].name) != Lower(TrimSpace(name))
            case Some(e) => Listed(domains, e) && Lower(e.name) == Lower(TrimSpace(name))
  {
    FirstNamedMeans(domains, 0, Lower(TrimSpace(name)));
    for k := 0 to |domains|
      invariant FirstNamed(domains, k, Lower(TrimSpace(name))) == FirstNamed(domains, 0, Lower(TrimSpace(name)))
    {
      if Lower(domains[k].name) == Lower(TrimSpace(name)) { return Some(domains[k]); }
    }
    found := None;
  }

  /** What is resolved: nothing, an exact match under its own name, or the scan's root under the requested one. */
  function Resolution(domains: seq<Entry>, requested: string): Option<(Entry, string)> {
    var domain := Trim(Lower(TrimSpace(requested)), DOT);
    if domain == "" then None
    else match FirstNamed(domains, 0, Lower(TrimSpace(domain)))
      case Some(e) => Some((e, e.name))
      case None =>
        match Scan(domains, |domains|, domain)
        case Some(e) => Some((e, domain))
        case None => None
  }

  /** The requested name without white space around it, in lower case, and then without dots around it. */
  ghost predicate RequestOf(requested: string, domain: string) {
    exists w, l :: TrimsTo(requested, SPACE, w) && IsLowerOf(w, l) && TrimsTo(l, DOT, domain)
  }

  /** The stored name is the requested one, up to case. */
  ghost predicate IsNamed(e: Entry, domain: string) {
    exists w, l :: TrimsTo(domain, SPACE, w) && IsLowerOf(w, l) && IsLowerOf(e.name, l)
  }

  ghost predicate RootOf(e: Entry, root: string) {
    exists w :: TrimsTo(e.name, SPACE, w) && IsLowerOf(w, root)
  }

  ghost predicate IsUnder(e: Entry, domain: string) {
    exists root :: RootOf(e, root) && root != "" && (domain == root || HasSuffix(domain, "." + root))
  }

  /** An entry of the requested name is resolved under its own name; if there is none, one that the request is under, under the request. */
  ghost predicate ResolvesRight(domains: seq<Entry>, domain: string, r: Option<(Entry, string)>) {
    && (r == None ==> domain == "" || forall k :: 0 <= k < |domains| ==> !IsNamed(domains[k], domain) && !IsUnder(domains[k], domain))
    && (r != None ==>
          && domain != "" && Listed(domains, r.value.0)
          && if exists k :: 0 <= k < |domains| && IsNamed(domains[k], domain)
             then IsNamed(r.value.0, domain) && r.value.1 == r.value.0.name
             else IsUnder(r.value.0, domain) && r.value.1 == domain)
  }

  ghost predicate ResolvesAsRequested(domains: seq<Entry>, requested: string, r: Option<(Entry, string)>) {
    exists domain :: RequestOf(requested, domain) && ResolvesRight(domains, domain, r)
  }

  lemma RequestIsRight(requested: string)
    ensures RequestOf(requested, Trim(Lower(TrimSpace(requested)), DOT))
  {
    TrimTrims(requested, SPACE);
    LowerIsRight(TrimSpace(requested));
    TrimTrims(Lower(TrimSpace(requested)), DOT);
    assert TrimsTo(requested, SPACE, TrimSpace(requested)) && IsLowerOf(TrimSpace(requested), Lower(TrimSpace(requested)));
  }

  lemma NamedIsRight(e: Entry, domain: string)
    ensures IsNamed(e, domain) <==> Lower(e.name) == Lower(TrimSpace(domain))
  {
    TrimIsRight(domain, SPACE);
    LowerIsRight(TrimSpace(domain));
    LowerIsRight(e.name);
    assert TrimsTo(domain, SPACE, TrimSpace(domain)) && IsLowerOf(TrimSpace(domain), Lower(TrimSpace(domain)));
  }

  lemma UnderIsRight(e: Entry, domain: string)
    ensures IsUnder(e, domain) <==> IsRoot(domain, Root(e))
  {
    TrimIsRight(e.name, SPACE);
    LowerIsRight(TrimSpace(e.name));
    UnderIsDotSuffix(domain, Root(e));
    assert TrimsTo(e.name, SPACE, TrimSpace(e.name)) && RootOf(e, Root(e));
    assert forall root :: RootOf(e, root) ==> root == Root(e);
  }

  lemma ResolutionIsRight(domains: seq<Entry>, requested: string)
    ensures ResolvesAsRequested(domains, requested, Resolution(domains, requested))
  {
    var domain := Trim(Lower(TrimSpace(requested)), DOT);
    RequestIsRight(requested);
    FirstNamedMeans(domains, 0, Lower(TrimSpace(domain)));
    ScanFindsARoot(domains, |domains|, domain);
    forall k | 0 <= k < |domains|
      ensures IsNamed(domains[k], domain) <==> Lower(domains[k].name) == Lower(TrimSpace(domain))
      ensures IsUnder(domains[k], domain) <==> IsRoot(domain, Root(domains[k]))
    {
      NamedIsRight(domains[k], domain);
      UnderIsRight(domains[k], domain);
    }
    assert ResolvesRight(domains, domain, Resolution(domains, requested));
  }

  /** The result is the longest root, unless blanks are left in the name behind the dots that were trimmed. */
  predicate ResolvesToTheLongest(domains: seq<Entry>, requested: string, r: Option<(Entry, string)>) {
    var domain := Trim(Lower(TrimSpace(requested)), DOT);
    domain != "" && TrimSpace(domain) == domain ==>
      IsLongest(AllRooted(domains), |domains|, domain, if r == None then None else Some(Rooted(r.value.0)))
  }

  /** Looking for an exact match first changes nothing: the result is the longest root. */
  lemma ResolutionIsLongest(domains: seq<Entry>, requested: string)
    requires AllUnpadded(domains)
    ensures ResolvesToTheLongest(domains, requested, Resolution(domains, requested))
  {
    var domain := Trim(Lower(TrimSpace(requested)), DOT);
    FirstNamedMeans(domains, 0, Lower(TrimSpace(domain)));
    ScanFindsTheLongest(domains, |domains|, domain);
    var exact := FirstNamed(domains, 0, Lower(TrimSpace(domain)));
    if domain != "" && TrimSpace(domain) == domain && exact.Some? {
      ExactIsLongest(domains, requested, domain, exact.value);
    }
  }

  /** The domain of a requested mailbox. */
  method ResolveActiveMailboxDomain(domains: seq<Entry>, requested: string) returns (r: Option<(Entry, string)>)
    ensures r == Resolution(domains, requested)
    ensures AllUnpadded(domains) ==> ResolvesToTheLongest(domains, requested, r)
    ensures ResolvesAsRequested(domains, requested, r)
  {
    ResolutionIsRight(domains, requested);
    if AllUnpadded(domains) { ResolutionIsLongest(domains, requested); }
    var domain := Trim(Lower(TrimSpace(requested)), DOT);
    if domain == "" { return None; }
    var exact := GetDomainByName(domains, domain);
    if exact != None { return Some((exact.value, exact.value.name)); }
    var best := LongestListed(domains, domain);
    if best == None { return None; }
    r := Some((best.value, domain));
  }

  /** The loop over the active domains. */
  method LongestListed(domains: seq<Entry>, domain: string) returns (best: Option<Entry>)
    ensures best == Scan(domains, |domains|, domain)
  {
    best := None;
    for k := 0 to |domains|
      invariant best == Scan(domains, k, domain)
    {
      var root := Lower(TrimSpace(domains[k].name));
      if root == "" { continue; }
      if Under(domain, root) && (best == None || |root| > |best.value.name|) { best := Some(domains[k]); }
    }
  }
}
