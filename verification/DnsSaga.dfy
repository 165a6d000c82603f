/**
  Applying a DNS plan to a zone record by record. When a write fails, the writes before it are
  reverted in the opposite order, each from what the preview had seen.

  Nobody else writes to the zone meanwhile, and a request that fails has no effect on it.
 */
module DnsSaga {
  import opened Options
  import opened Text

  type Id = nat

  datatype Record = Record(kind: string, name: string, content: string, priority: int, proxied: bool)

  type Zone = map<Id, Record>

  datatype Status = Create | Created | Unchanged | Updated | Many | Differs | RolledBack

  /** `previous` is the one record that the preview found. */
  datatype Item = Item(record: Record, status: Status, previous: Option<(Id, Record)>)

  datatype Outcome = PreviewFailed | Applied | ListFailed | RestoredAfterFailure | NotRestored

  // ---------- records ----------

  predicate SameKey(a: Record, b: Record) {
    a.kind == b.kind && a.name == b.name
  }

  /** What the zone holds after a write: the priority is only sent for MX records. */
  function Stored(r: Record): Record {
    if r.kind == "MX" then r else r.(priority := 0)
  }

  /** A record that writing it back leaves as it was. */
  predicate Canonical(r: Record) {
    Stored(r) == r
  }

  /** Host names are compared without case, surrounding space and final dot. */
  function Content(s: string): string {
    var t := Lower(TrimSpace(s));
    if t != "" && t[|t| - 1] == '.' then t[..|t| - 1] else t
  }

  predicate SameRecord(current: Record, desired: Record) {
    && Lower(current.kind) == Lower(desired.kind) && Content(current.content) == Content(desired.content)
    && current.proxied == desired.proxied && (desired.kind == "MX" ==> current.priority == desired.priority)
  }

  // ---------- the preview ----------

  function Listed(zone: Zone, r: Record): set<Id> {
    set id | id in zone && SameKey(zone[id], r)
  }

  predicate Only(zone: Zone, r: Record, id: Id) {
    id in zone && SameKey(zone[id], r) && forall k :: k in zone && SameKey(zone[k], r) ==> k == id
  }

  /** The item tells how the desired record compares with the zone. */
  predicate Previews(zone: Zone, r: Record, item: Item) {
    && item.record == r
    && match item.status
       case Create => item.previous.None? && forall k :: k in zone ==> !SameKey(zone[k], r)
       case Many => item.previous.None? && exists j, k :: j in zone && k in zone && j != k && SameKey(zone[j], r) && SameKey(zone[k], r)
       case Unchanged =>
         && item.previous.Some? && Only(zone, r, item.previous.value.0)
         && item.previous.value.1 == zone[item.previous.value.0] && SameRecord(item.previous.value.1, r)
       case Differs =>
         && item.previous.Some? && Only(zone, r, item.previous.value.0)
         && item.previous.value.1 == zone[item.previous.value.0] && !SameRecord(item.previous.value.1, r)
       case _ => false
  }

  predicate PreviewsAll(zone: Zone, desired: seq<Record>, items: seq<Item>) {
    |items| == |desired| && forall k :: 0 <= k < |items| ==> Previews(zone, desired[k], items[k])
  }

  predicate KeyShared(desired: seq<Record>, j: int, k: int)
    requires 0 <= j < |desired| && 0 <= k < |desired|
  {
    SameKey(desired[j], desired[k])
  }

  predicate DistinctKeys(desired: seq<Record>) {
    forall j, k :: 0 <= j < k < |desired| ==> !KeyShared(desired, j, k)
  }

  // ---------- writes and their reversal ----------

  /** A write that was made for the item at `index`. */
  datatype Change = Change(index: nat, id: Id)

  predicate Touches(applied: seq<Change>, from: nat, id: Id)
    requires from <= |applied|
  {
    exists j :: from <= j < |applied| && applied[j].id == id
  }

  /** A change fits the zone as it was: it created a new record, or overwrote the one that was previewed. */
  predicate Fits(zone: Zone, item: Item, c: Change) {
    match item.previous
    case None => c.id !in zone
    case Some((id, r)) => c.id == id && id in zone && zone[id] == r
  }

  /** The changes were made for different items, and the ids of created records are different. */
  predicate Changes(before: Zone, items: seq<Item>, applied: seq<Change>) {
    && (forall j :: 0 <= j < |applied| ==> applied[j].index < |items| && Fits(before, items[applied[j].index], applied[j]))
    && (forall j, k :: 0 <= j < k < |applied| ==> Apart(before, applied, j, k))
  }

  /** Nothing but the changes separates the current zone from the zone before. */
  ghost predicate Made(before: Zone, items: seq<Item>, applied: seq<Change>, zone: Zone) {
    && Changes(before, items, applied)
    && (forall id :: id in zone <==> id in before || Touches(applied, 0, id))
    && (forall id :: id in before && !Touches(applied, 0, id) ==> zone[id] == before[id])
  }

  predicate Apart(before: Zone, applied: seq<Change>, j: int, k: int)
    requires 0 <= j < |applied| && 0 <= k < |applied|
  {
    applied[j].index < applied[k].index && (applied[j].id == applied[k].id ==> applied[j].id in before)
  }

  predicate TouchesBelow(applied: seq<Change>, below: nat, id: Id)
    requires below <= |applied|
  {
    exists j :: 0 <= j < below && applied[j].id == id
  }

  /** The zone while the changes from `from` on are reverted. */
  ghost predicate Reverted(before: Zone, applied: seq<Change>, from: nat, zone: Zone)
    requires from <= |applied|
  {
    && (forall id :: id in zone <==> id in before || TouchesBelow(applied, from, id))
    && (forall id :: id in before && !Touches(applied, 0, id) ==> zone[id] == before[id])
    && (forall id :: id in before && Touches(applied, from, id) ==> zone[id] == Stored(before[id]))
  }

  lemma RevertsOne(before: Zone, items: seq<Item>, applied: seq<Change>, n: nat, zone: Zone, zone': Zone)
    requires Changes(before, items, applied)
    requires n < |applied| && Reverted(before, applied, n + 1, zone) && applied[n].id in zone
    requires var c := applied[n];
             zone' == match items[c.index].previous
                      case None => zone - {c.id}
                      case Some((_, r)) => zone[c.id := Stored(r)]
    ensures Reverted(before, applied, n, zone')
  {
    var c := applied[n];
    assert Fits(before, items[c.index], c);
    assert Touches(applied, 0, c.id) && Touches(applied, n, c.id);
    if c.id !in before {
      assert forall j :: 0 <= j < n && applied[j].id == c.id ==> Apart(before, applied, j, n);
    }
    forall id | id in before && Touches(applied, n, id)
      ensures zone'[id] == Stored(before[id])
    {
      if id != c.id { assert Touches(applied, n + 1, id); }
    }
  }

  /** The zone is as before, but for the overwritten records, which were written back. */
  ghost predicate Restored(before: Zone, items: seq<Item>, zone: Zone) {
    && zone.Keys == before.Keys
    && (forall id :: id in before ==> zone[id] == before[id] || (zone[id] == Stored(before[id]) && Overwritten(items, id, before[id])))
    && (zone == before <==> forall k :: 0 <= k < |items| ==> CanonicalIfReverted(items[k]))
  }

  predicate Overwritten(items: seq<Item>, id: Id, r: Record) {
    exists k :: 0 <= k < |items| && items[k].status.RolledBack? && items[k].previous == Some((id, r))
  }

  predicate CanonicalIfReverted(item: Item) {
    item.status.RolledBack? && item.previous.Some? ==> Canonical(item.previous.value.1)
  }

  /** The items differ in their status at most. */
  predicate SamePlan(items: seq<Item>, others: seq<Item>) {
    |items| == |others|
    && forall k :: 0 <= k < |items| ==> items[k].record == others[k].record && items[k].previous == others[k].previous
  }

  lemma SamePlanSameChanges(before: Zone, items: seq<Item>, others: seq<Item>, applied: seq<Change>)
    requires Changes(before, items, applied) && SamePlan(items, others)
    ensures Changes(before, others, applied)
  {
    forall j | 0 <= j < |applied|
      ensures applied[j].index < |others| && Fits(before, others[applied[j].index], applied[j])
    {
      assert Fits(before, items[applied[j].index], applied[j]);
    }
  }

  /** Exactly the items that changes were made for are marked. */
  predicate Marked(items: seq<Item>, applied: seq<Change>, from: nat)
    requires from <= |applied|
  {
    && (forall j :: from <= j < |applied| && applied[j].index < |items| ==> items[applied[j].index].status.RolledBack?)
    && (forall k :: 0 <= k < |items| && items[k].status.RolledBack? ==> MadeFor(applied, from, k))
  }

  predicate MadeFor(applied: seq<Change>, from: nat, k: nat)
    requires from <= |applied|
  {
    exists j :: from <= j < |applied| && applied[j].index == k
  }

  lemma AllReverted(before: Zone, items: seq<Item>, applied: seq<Change>, zone: Zone)
    requires Changes(before, items, applied)
    requires Reverted(before, applied, 0, zone) && Marked(items, applied, 0)
    ensures Restored(before, items, zone)
  {
    forall id | id in before && Touches(applied, 0, id)
      ensures zone[id] == Stored(before[id]) && Overwritten(items, id, before[id])
    {
      var j :| 0 <= j < |applied| && applied[j].id == id;
      assert Fits(before, items[applied[j].index], applied[j]);
      assert items[applied[j].index].previous == Some((id, before[id]));
    }
    if zone == before {
      forall k: nat | k < |items|
        ensures CanonicalIfReverted(items[k])
      {
        if items[k].status.RolledBack? && items[k].previous.Some? {
          assert MadeFor(applied, 0, k);
          var j :| 0 <= j < |applied| && applied[j].index == k;
          assert Fits(before, items[k], applied[j]) && Touches(applied, 0, applied[j].id);
        }
      }
    }
    if forall k :: 0 <= k < |items| ==> CanonicalIfReverted(items[k]) {
      forall id | id in before
        ensures zone[id] == before[id]
      {
        if Touches(applied, 0, id) {
          var k :| 0 <= k < |items| && items[k].status.RolledBack? && items[k].previous == Some((id, before[id]));
          assert CanonicalIfReverted(items[k]);
        }
      }
    }
  }

  // ---------- previewing one record ----------

  function PreviewOf(zone: Zone, r: Record, existing: set<Id>): Item
    requires existing == Listed(zone, r)
  {
    if |existing| == 0 then Item(r, Create, None)
    else if |existing| > 1 then Item(r, Many, None)
    else
      var id := Single(existing);
      Item(r, if SameRecord(zone[id], r) then Unchanged else Differs, Some((id, zone[id])))
  }

  lemma SingletonHasOne(s: set<Id>)
    requires |s| == 1
    ensures exists id :: id in s && forall k :: k in s ==> k == id
  {
    var id :| id in s;
    assert s - {id} == {} by { assert |s - {id}| == 0; }
    assert forall k :: k in s && k != id ==> k in s - {id};
  }

  /** The only member. */
  function Single(s: set<Id>): (id: Id)
    requires |s| == 1
    ensures id in s && forall k :: k in s ==> k == id
  {
    SingletonHasOne(s);
    var id :| id in s && forall k :: k in s ==> k == id;
    id
  }

  lemma PreviewIsRight(zone: Zone, r: Record)
    ensures Previews(zone, r, PreviewOf(zone, r, Listed(zone, r)))
  {
    var existing := Listed(zone, r);
    if |existing| > 1 {
      var j :| j in existing;
      assert |existing - {j}| == |existing| - 1;
      var k :| k in existing - {j};
      assert j in zone && k in zone && j != k && SameKey(zone[j], r) && SameKey(zone[k], r);
    } else if |existing| == 0 {
      assert forall k :: k in zone && SameKey(zone[k], r) ==> k in existing;
    } else {
      SingletonHasOne(existing);
      assert forall k :: k in zone && SameKey(zone[k], r) ==> k in existing;
    }
  }

  // ---------- what a preview tells, spelled out ----------

  /** In lower case, without one final dot. */
  predicate NamesHost(t: string, host: string) {
    IsLowerOf(t, host + ".") || (IsLowerOf(t, host) && (t == "" || t[|t| - 1] != '.'))
  }

  /** The host that the content names: without white space around it, in lower case, without one final dot. */
  ghost predicate HostOf(content: string, host: string) {
    exists t :: TrimsTo(content, SPACE, t) && NamesHost(t, host)
  }

  lemma DotAtTheEnd(l: string, host: string)
    ensures host + "." == l <==> l != "" && l[|l| - 1] == '.' && host == l[..|l| - 1]
  {
    if l != "" && l[|l| - 1] == '.' { assert l == l[..|l| - 1] + "."; }
  }

  lemma DotStaysADot(t: string)
    requires t != ""
    ensures |Lower(t)| == |t| && (t[|t| - 1] == '.' <==> Lower(t)[|t| - 1] == '.')
  {
    LowerMeans(t);
  }

  lemma LowerNamesHost(content: string, host: string)
    ensures NamesHost(TrimSpace(content), host) <==> host == Content(content)
  {
    var t := TrimSpace(content);
    LowerIsRight(t);
    if t != "" { DotStaysADot(t); }
    DotAtTheEnd(Lower(t), host);
  }

  lemma ContentIsHost(content: string)
    ensures forall host :: HostOf(content, host) <==> host == Content(content)
  {
    TrimIsRight(content, SPACE);
    forall host
      ensures HostOf(content, host) <==> host == Content(content)
    {
      LowerNamesHost(content, host);
      assert TrimsTo(content, SPACE, TrimSpace(content));
    }
  }

  /** The record has the desired type and host, is proxied if desired, and has the desired priority if it is an MX record. */
  ghost predicate Agrees(current: Record, desired: Record) {
    && (exists kind :: IsLowerOf(current.kind, kind) && IsLowerOf(desired.kind, kind))
    && (exists host :: HostOf(current.content, host) && HostOf(desired.content, host))
    && (current.proxied <==> desired.proxied)
    && (desired.kind == "MX" ==> current.priority == desired.priority)
  }

  lemma SameIsAgrees(current: Record, desired: Record)
    ensures SameRecord(current, desired) <==> Agrees(current, desired)
  {
    ContentIsHost(current.content);
    ContentIsHost(desired.content);
    LowerIsRight(current.kind);
    LowerIsRight(desired.kind);
    assert (exists kind :: IsLowerOf(current.kind, kind) && IsLowerOf(desired.kind, kind)) <==> Lower(current.kind) == Lower(desired.kind) by {
      assert IsLowerOf(current.kind, Lower(current.kind));
    }
    assert (exists host :: HostOf(current.content, host) && HostOf(desired.content, host))
           <==> Content(current.content) == Content(desired.content) by {
      assert HostOf(current.content, Content(current.content));
    }
  }

  /** The only record of the desired type and name. */
  predicate TheOne(zone: Zone, r: Record, id: Id) {
    && id in zone && zone[id].kind == r.kind && zone[id].name == r.name
    && forall k :: k in zone && zone[k].kind == r.kind && zone[k].name == r.name ==> k == id
  }

  predicate NoneOf(zone: Zone, r: Record) {
    forall k :: k in zone ==> zone[k].kind != r.kind || zone[k].name != r.name
  }

  /** A missing record is to be created; one is unchanged or in conflict, as it agrees or not, and is remembered; more are in conflict. */
  ghost predicate Tells(zone: Zone, r: Record, item: Item) {
    && item.record == r
    && (item.status.Create? <==> NoneOf(zone, r))
    && (item.status.Unchanged? <==> exists id :: TheOne(zone, r, id) && Agrees(zone[id], r))
    && (item.status.Differs? <==> exists id :: TheOne(zone, r, id) && !Agrees(zone[id], r))
    && (item.status.Many? <==> !NoneOf(zone, r) && forall id :: !TheOne(zone, r, id))
    && (forall id :: TheOne(zone, r, id) ==> item.previous == Some((id, zone[id])))
    && ((forall id :: !TheOne(zone, r, id)) ==> item.previous == None)
  }

  ghost predicate TellsAll(zone: Zone, desired: seq<Record>, items: seq<Item>) {
    |items| == |desired| && forall k :: 0 <= k < |desired| ==> Tells(zone, desired[k], items[k])
  }

  lemma OnlyIsTheOne(zone: Zone, r: Record, id: Id)
    ensures Only(zone, r, id) <==> TheOne(zone, r, id)
  {
  }

  lemma PreviewTells(zone: Zone, r: Record)
    ensures Tells(zone, r, PreviewOf(zone, r, Listed(zone, r)))
  {
    PreviewIsRight(zone, r);
    PreviewsTells(zone, r, PreviewOf(zone, r, Listed(zone, r)));
  }

  lemma PreviewsTells(zone: Zone, r: Record, item: Item)
    requires Previews(zone, r, item)
    ensures Tells(zone, r, item)
  {
    if item.previous.Some? {
      var id := item.previous.value.0;
      OnlyIsTheOne(zone, r, id);
      SameIsAgrees(zone[id], r);
      assert forall k :: TheOne(zone, r, k) ==> k == id;
    }
  }

  // ---------- the whole course of an application ----------

  /** The remote side: which of its requests fail, and the id that a new record gets. */
  datatype Remote = Remote(fails: nat -> bool, freshId: Zone -> Id)

  ghost predicate FreshIds(remote: Remote) {
    forall z :: remote.freshId(z) !in z
  }

  /** How far the work has come; `calls` numbers the requests. */
  datatype Work = Work(zone: Zone, calls: nat, items: seq<Item>, applied: seq<Change>)

  datatype Turn = GoOn | ListErred | WriteErred

  /** How many of the next n requests come before the first one that fails. */
  function Successes(remote: Remote, calls: nat, n: nat): (k: nat)
    ensures k <= n
    decreases n
  {
    if n == 0 || remote.fails(calls) then 0 else 1 + Successes(remote, calls + 1, n - 1)
  }

  function Planned(zone: Zone, desired: seq<Record>): seq<Item> {
    seq(|desired|, k requires 0 <= k < |desired| => PreviewOf(zone, desired[k], Listed(zone, desired[k])))
  }

  function Writing(w: Work, i: nat, id: Id, status: Status): Work
    requires i < |w.items|
  {
    Work(w.zone[id := Stored(w.items[i].record)], w.calls, w.items[i := w.items[i].(status := status)], w.applied + [Change(i, id)])
  }

  /** An item whose record is missing. */
  function Creating(w: Work, i: nat, remote: Remote): (Turn, Work)
    requires i < |w.items|
  {
    var next := w.(calls := w.calls + 1);
    if remote.fails(w.calls) then (WriteErred, next) else (GoOn, Writing(next, i, remote.freshId(w.zone), Created))
  }

  /** An item whose record differs: it is listed again, and overwritten if there is still one. */
  function Updating(w: Work, i: nat, remote: Remote): (Turn, Work)
    requires i < |w.items|
  {
    var existing, listed := Listed(w.zone, w.items[i].record), w.(calls := w.calls + 1);
    if remote.fails(w.calls) then (ListErred, listed)
    else if |existing| != 1 then (GoOn, listed)
    else
      var next := w.(calls := w.calls + 2);
      if remote.fails(w.calls + 1) then (WriteErred, next) else (GoOn, Writing(next, i, Single(existing), Updated))
  }

  /** Conflicts are overwritten only when that is confirmed, and never when there are several records. */
  function Round(w: Work, i: nat, confirm: bool, remote: Remote): (r: (Turn, Work))
    requires i < |w.items|
    ensures |r.1.items| == |w.items|
  {
    if w.items[i].status.Create? then Creating(w, i, remote)
    else if w.items[i].status.Differs? && confirm then Updating(w, i, remote)
    else (GoOn, w)
  }

  /** The items from the i-th on, up to one at which a request fails. */
  function Rounds(w: Work, i: nat, confirm: bool, remote: Remote): (r: (Turn, Work))
    requires i <= |w.items|
    ensures |r.1.items| == |w.items|
    decreases |w.items| - i
  {
    if i == |w.items| then (GoOn, w)
    else
      var r := Round(w, i, confirm, remote);
      if r.0.GoOn? then Rounds(r.1, i + 1, confirm, remote) else r
  }

  function ZoneWithout(zone: Zone, id: Id, previous: Option<(Id, Record)>): Zone {
    match previous
    case None => zone - {id}
    case Some((_, r)) => zone[id := Stored(r)]
  }

  predicate IndexesOk(w: Work) {
    forall j :: 0 <= j < |w.applied| ==> w.applied[j].index < |w.items|
  }

  /** Reverting the n-th change; it fails with its request, or when the record is gone. */
  function Reverting(w: Work, n: nat, remote: Remote): (bool, Work)
    requires n < |w.applied| && IndexesOk(w)
  {
    var c, next := w.applied[n], w.(calls := w.calls + 1);
    var item := w.items[c.index];
    if remote.fails(w.calls) || c.id !in w.zone then (false, next)
    else (true, next.(zone := ZoneWithout(w.zone, c.id, item.previous), items := w.items[c.index := item.(status := RolledBack)]))
  }

  /** Reverts the first n changes, last one first, and goes on when one cannot be reverted. */
  function Reversal(w: Work, n: nat, failed: bool, remote: Remote): (bool, Work)
    requires n <= |w.applied| && IndexesOk(w)
    decreases n
  {
    if n == 0 then (failed, w)
    else
      var (ok, next) := Reverting(w, n - 1, remote);
      Reversal(next, n - 1, failed || !ok, remote)
  }

  /** What follows the preview. */
  function Rest(zone: Zone, calls: nat, desired: seq<Record>, confirm: bool, remote: Remote): (Turn, Work) {
    Rounds(Work(zone, calls + |desired|, Planned(zone, desired), []), 0, confirm, remote)
  }

  /** A failing listing ends the work without reverting anything. */
  function Applying(zone: Zone, calls: nat, desired: seq<Record>, confirm: bool, remote: Remote): (Outcome, Work) {
    var k := Successes(remote, calls, |desired|);
    if k < |desired| then (PreviewFailed, Work(zone, calls + k + 1, [], []))
    else
      var (turn, w) := Rest(zone, calls, desired, confirm, remote);
      match turn
      case GoOn => (Applied, w)
      case ListErred => (ListFailed, w)
      case WriteErred =>
        RoundsKeepIndexes(Work(zone, calls + |desired|, Planned(zone, desired), []), 0, confirm, remote);
        var (failed, w') := Reversal(w, |w.applied|, false, remote);
        (if failed then NotRestored else RestoredAfterFailure, w')
  }

  lemma {:induction false} RoundsKeepIndexes(w: Work, i: nat, confirm: bool, remote: Remote)
    requires i <= |w.items| && IndexesOk(w)
    ensures IndexesOk(Rounds(w, i, confirm, remote).1)
    decreases |w.items| - i
  {
    if i < |w.items| {
      var r := Round(w, i, confirm, remote);
      assert IndexesOk(r.1);
      if r.0.GoOn? { RoundsKeepIndexes(r.1, i + 1, confirm, remote); }
    }
  }

  // ---------- what one write keeps ----------

  predicate PreviewsFrom(zone: Zone, desired: seq<Record>, items: seq<Item>, from: nat)
    requires |items| == |desired|
  {
    && (forall k :: 0 <= k < |items| ==> items[k].record == desired[k])
    && forall k :: from <= k < |items| ==> Previews(zone, desired[k], items[k])
  }

  predicate Wanted(desired: seq<Record>, n: nat, r: Record)
    requires n <= |desired|
  {
    exists k :: 0 <= k < n && SameKey(desired[k], r)
  }

  /**
    The first n items were dealt with: none still waits for its creation, every new record has the
    type and name of one of them, records of other types and names are untouched, and so is every
    old record unless overwriting was confirmed.
   */
  ghost predicate Done(before: Zone, desired: seq<Record>, items: seq<Item>, zone: Zone, n: nat, confirm: bool)
    requires n <= |items| == |desired|
  {
    && (forall k :: 0 <= k < n ==> items[k].record == desired[k] && !items[k].status.Create? && !items[k].status.RolledBack?)
    && (forall id :: id in before ==> id in zone)
    && (forall id :: id in zone && id !in before ==> Wanted(desired, n, zone[id]))
    && (forall id :: id in before && (!confirm || !Wanted(desired, n, before[id])) ==> zone[id] == before[id])
  }

  ghost predicate Progress(before: Zone, desired: seq<Record>, items: seq<Item>, applied: seq<Change>, zone: Zone, n: nat,
                           confirm: bool)
    requires n <= |items| == |desired|
  {
    && PreviewsFrom(before, desired, items, n) && Done(before, desired, items, zone, n, confirm)
    && Made(before, items, applied, zone) && KeysKept(before, zone)
    && (forall j :: 0 <= j < |applied| ==> applied[j].index < n)
    && (DistinctKeys(desired) ==> SettledUpTo(zone, items, n))
  }

  /** Records keep their type and name, and no new record has the type and name of an old one. */
  ghost predicate KeysKept(before: Zone, zone: Zone) {
    && before.Keys <= zone.Keys
    && (forall id :: id in before ==> SameKey(zone[id], before[id]))
    && forall id, k :: id in zone && id !in before && k in before ==> !SameKey(zone[id], before[k])
  }

  /** The zone holds exactly one record of this type and name, and it is as desired. */
  ghost predicate Settled(zone: Zone, r: Record) {
    exists id :: Only(zone, r, id) && SameRecord(zone[id], r)
  }

  ghost predicate SettledUpTo(zone: Zone, items: seq<Item>, n: nat)
    requires n <= |items|
  {
    forall k :: 0 <= k < n && Written(items[k].status) ==>
      Settled(zone, items[k].record)
  }

  /** The desired record is in the zone now. */
  predicate Written(status: Status) {
    status.Created? || status.Updated? || status.Unchanged?
  }

  /** A settled record is previewed as unchanged. */
  lemma SettledPreviewUnchanged(zone: Zone, items: seq<Item>)
    requires SettledUpTo(zone, items, |items|)
    ensures forall k :: 0 <= k < |items| && Written(items[k].status) ==>
              PreviewOf(zone, items[k].record, Listed(zone, items[k].record)).status.Unchanged?
  {
    forall k | 0 <= k < |items| && Written(items[k].status)
      ensures PreviewOf(zone, items[k].record, Listed(zone, items[k].record)).status.Unchanged?
    {
      var r := items[k].record;
      var id: Id :| Only(zone, r, id) && SameRecord(zone[id], r);
      assert Listed(zone, r) == {id};
    }
  }

  lemma OneListed(before: Zone, zone: Zone, r: Record, id: Id)
    requires KeysKept(before, zone) && Only(before, r, id)
    ensures Listed(zone, r) == {id}
  {
  }

  lemma WriteKeepsKeys(before: Zone, zone: Zone, id: Id, r: Record)
    requires KeysKept(before, zone)
    requires if id in zone then SameKey(zone[id], r) else forall k :: k in before ==> !SameKey(before[k], r)
    ensures KeysKept(before, zone[id := Stored(r)])
  {
  }

  lemma WriteIsMade(before: Zone, items: seq<Item>, applied: seq<Change>, zone: Zone, i: nat, id: Id, status: Status)
    requires Made(before, items, applied, zone) && i < |items| && Fits(before, items[i], Change(i, id))
    requires forall j :: 0 <= j < |applied| ==> applied[j].index < i
    requires id in zone ==> id in before
    ensures Made(before, items[i := items[i].(status := status)], applied + [Change(i, id)], zone[id := Stored(items[i].record)])
  {
    var applied' := applied + [Change(i, id)];
    forall k | Touches(applied, 0, k)
      ensures Touches(applied', 0, k)
    {
      var j :| 0 <= j < |applied| && applied[j].id == k;
      assert applied'[j].id == k;
    }
    assert applied'[|applied|].id == id;
    forall j, k | 0 <= j < k < |applied'|
      ensures Apart(before, applied', j, k)
    {
      if k < |applied| {
        assert Apart(before, applied, j, k);
      } else if applied[j].id == id {
        assert Touches(applied, 0, id);
      }
    }
  }

  /** A write settles its own item, and with distinct keys it leaves the other items settled. */
  lemma WriteSettles(desired: seq<Record>, items: seq<Item>, zone: Zone, i: nat, id: Id, status: Status)
    requires i < |items| == |desired| && forall k :: 0 <= k < |items| ==> items[k].record == desired[k]
    requires DistinctKeys(desired) ==>
               if id in zone then Only(zone, items[i].record, id) else forall k :: k in zone ==> !SameKey(zone[k], items[i].record)
    requires DistinctKeys(desired) ==> SettledUpTo(zone, items, i)
    ensures DistinctKeys(desired) ==>
              SettledUpTo(zone[id := Stored(items[i].record)], items[i := items[i].(status := status)], i + 1)
  {
    var zone', items' := zone[id := Stored(items[i].record)], items[i := items[i].(status := status)];
    if DistinctKeys(desired) {
      assert Only(zone', items[i].record, id);
      forall k | 0 <= k < i && Written(items[k].status)
        ensures Settled(zone', items[k].record)
      {
        assert !KeyShared(desired, k, i);
        var kid :| Only(zone, items[k].record, kid) && SameRecord(zone[kid], items[k].record);
        assert Only(zone', items[k].record, kid);
      }
    }
  }

  /** The changes from n on are reverted and marked. */
  ghost predicate Undone(before: Zone, items: seq<Item>, applied: seq<Change>, n: nat, zone: Zone)
    requires n <= |applied|
  {
    Changes(before, items, applied) && Reverted(before, applied, n, zone) && Marked(items, applied, n)
  }

  lemma NothingUndone(before: Zone, items: seq<Item>, applied: seq<Change>, zone: Zone)
    requires Made(before, items, applied, zone) && forall k :: 0 <= k < |items| ==> !items[k].status.RolledBack?
    ensures Undone(before, items, applied, |applied|, zone)
  {
  }

  lemma UndoneOneMore(before: Zone, items: seq<Item>, applied: seq<Change>, n: nat, zone: Zone, zone': Zone)
    requires n < |applied| && Undone(before, items, applied, n + 1, zone) && applied[n].id in zone
    requires zone' == match items[applied[n].index].previous
                      case None => zone - {applied[n].id}
                      case Some((_, r)) => zone[applied[n].id := Stored(r)]
    ensures var c := applied[n];
            Undone(before, items[c.index := items[c.index].(status := RolledBack)], applied, n, zone')
  {
    var c := applied[n];
    var marked := items[c.index := items[c.index].(status := RolledBack)];
    RevertsOne(before, items, applied, n, zone, zone');
    SamePlanSameChanges(before, items, marked, applied);
    MarksOne(items, applied, n);
  }

  lemma MarksOne(items: seq<Item>, applied: seq<Change>, n: nat)
    requires n < |applied| && applied[n].index < |items| && Marked(items, applied, n + 1)
    ensures var c := applied[n];
            Marked(items[c.index := items[c.index].(status := RolledBack)], applied, n)
  {
    var c := applied[n];
    var marked := items[c.index := items[c.index].(status := RolledBack)];
    forall k: nat | k < |marked| && marked[k].status.RolledBack?
      ensures MadeFor(applied, n, k)
    {
      if k != c.index { assert MadeFor(applied, n + 1, k); }
    }
  }

  /** Where a write of item i may go: to the record that the preview found, or to a new one. */
  predicate Target(zone: Zone, item: Item, id: Id, status: Status) {
    if status.Created? then item.status.Create? && id !in zone
    else item.status.Differs? && status.Updated? && id in Listed(zone, item.record)
  }

  lemma WriteProgresses(before: Zone, desired: seq<Record>, items: seq<Item>, applied: seq<Change>, zone: Zone, i: nat,
                        confirm: bool, id: Id, status: Status)
    requires i < |items| == |desired| && Progress(before, desired, items, applied, zone, i, confirm)
    requires Target(zone, items[i], id, status) && (status.Updated? ==> confirm)
    ensures Progress(before, desired, items[i := items[i].(status := status)], applied + [Change(i, id)],
                     zone[id := Stored(items[i].record)], i + 1, confirm)
  {
    var item := items[i];
    assert Previews(before, desired[i], item);
    if status.Updated? { OneListed(before, zone, item.record, item.previous.value.0); }
    WriteIsMade(before, items, applied, zone, i, id, status);
    WriteKeepsKeys(before, zone, id, item.record);
    WriteIsDone(before, desired, items, zone, i, confirm, id, status);
    if DistinctKeys(desired) { TargetIsOnly(before, desired, items, zone, i, confirm, id, status); }
    WriteSettles(desired, items, zone, i, id, status);
  }

  lemma WriteIsDone(before: Zone, desired: seq<Record>, items: seq<Item>, zone: Zone, i: nat, confirm: bool, id: Id,
                    status: Status)
    requires i < |items| == |desired| && Done(before, desired, items, zone, i, confirm)
    requires items[i].record == desired[i] && (status.Created? || (status.Updated? && confirm))
    requires if status.Created? then id !in zone else id in before && SameKey(before[id], desired[i])
    ensures Done(before, desired, items[i := items[i].(status := status)], zone[id := Stored(desired[i])], i + 1, confirm)
  {
    assert forall r :: Wanted(desired, i, r) ==> Wanted(desired, i + 1, r);
    assert SameKey(desired[i], Stored(desired[i])) && Wanted(desired, i + 1, Stored(desired[i]));
    assert status.Updated? ==> SameKey(desired[i], before[id]) && Wanted(desired, i + 1, before[id]);
  }

  lemma OthersUnwanted(desired: seq<Record>, i: nat, r: Record)
    requires i < |desired| && DistinctKeys(desired) && SameKey(r, desired[i])
    ensures !Wanted(desired, i, r)
  {
    forall k | 0 <= k < i
      ensures !SameKey(desired[k], r)
    {
      assert !KeyShared(desired, k, i);
    }
  }

  /** With distinct keys there is no other record of the item's type and name. */
  lemma TargetIsOnly(before: Zone, desired: seq<Record>, items: seq<Item>, zone: Zone, i: nat, confirm: bool, id: Id,
                     status: Status)
    requires i < |items| == |desired| && DistinctKeys(desired) && Done(before, desired, items, zone, i, confirm)
    requires Previews(before, desired[i], items[i]) && KeysKept(before, zone) && Target(zone, items[i], id, status)
    ensures if id in zone then Only(zone, desired[i], id) else forall k :: k in zone ==> !SameKey(zone[k], desired[i])
  {
    var item := items[i];
    if status.Updated? {
      OneListed(before, zone, item.record, item.previous.value.0);
      assert forall k :: k in zone && SameKey(zone[k], desired[i]) ==> k in Listed(zone, desired[i]);
    } else {
      forall k | k in zone
        ensures !SameKey(zone[k], desired[i])
      {
        if k !in before && SameKey(zone[k], desired[i]) { OthersUnwanted(desired, i, zone[k]); }
      }
    }
  }

  lemma PreviewProgresses(zone: Zone, desired: seq<Record>, items: seq<Item>, confirm: bool)
    requires PreviewsAll(zone, desired, items)
    ensures Progress(zone, desired, items, [], zone, 0, confirm)
  {
    assert forall k :: 0 <= k < |items| ==> Previews(zone, desired[k], items[k]);
  }

  lemma NoneRolledBack(before: Zone, desired: seq<Record>, items: seq<Item>, applied: seq<Change>, zone: Zone, n: nat, confirm: bool)
    requires n <= |items| == |desired| && Progress(before, desired, items, applied, zone, n, confirm)
    ensures Made(before, items, applied, zone) && forall k :: 0 <= k < |items| ==> !items[k].status.RolledBack?
  {
    assert forall k :: n <= k < |items| ==> Previews(before, desired[k], items[k]);
  }

  /** An item that needs no write, or must not get one. */
  lemma SkipProgresses(before: Zone, desired: seq<Record>, items: seq<Item>, applied: seq<Change>, zone: Zone, i: nat, confirm: bool)
    requires i < |items| == |desired| && Progress(before, desired, items, applied, zone, i, confirm)
    requires !items[i].status.Create?
    ensures Progress(before, desired, items, applied, zone, i + 1, confirm)
  {
    var item := items[i];
    assert Previews(before, desired[i], item);
    assert forall r :: Wanted(desired, i, r) ==> Wanted(desired, i + 1, r);
    if DistinctKeys(desired) && item.status.Unchanged? {
      var id := item.previous.value.0;
      OthersUnwanted(desired, i, before[id]);
      assert Only(zone, item.record, id);
    }
  }
  // ---------- what an application comes to ----------

  /**
    What each outcome says about the zone. RolledBack is reported only for a zone that is as before, but
    for overwritten records that do not survive being written back; if nothing was at risk it is as before.
    When not everything could be reverted, the zone differs only where items are left unmarked or where
    such a record was written back.
   */
  ghost predicate IsRight(before: Zone, desired: seq<Record>, confirm: bool, outcome: Outcome, items: seq<Item>, zone: Zone) {
    match outcome
    case PreviewFailed => zone == before
    case Applied =>
      && |items| == |desired| && Done(before, desired, items, zone, |items|, confirm)
      && (DistinctKeys(desired) ==> WrittenPreviewsUnchanged(zone, desired, items))
    case ListFailed =>
      |items| == |desired| && exists n: nat :: n < |items| && Done(before, desired, items, zone, n, confirm)
    case RestoredAfterFailure =>
      Restored(before, items, zone) && (!AtRisk(before, desired, confirm) ==> zone == before)
    case NotRestored => PartlyRestored(before, items, zone)
  }

  predicate WrittenPreviewsUnchanged(zone: Zone, desired: seq<Record>, items: seq<Item>)
    requires |items| == |desired|
  {
    forall k :: 0 <= k < |items| && Written(items[k].status) ==>
      PreviewOf(zone, desired[k], Listed(zone, desired[k])).status.Unchanged?
  }

  /** The item is to be written to the zone. */
  predicate NeedsWrite(item: Item, confirm: bool) {
    item.status.Create? || (item.status.Differs? && confirm)
  }

  /** The item is to overwrite a record that does not survive being written back. */
  predicate Loses(item: Item, confirm: bool) {
    confirm && item.status.Differs? && item.previous.Some? && !Canonical(item.previous.value.1)
  }

  /** In the plan such an item comes before another that is to be written. */
  predicate AtRisk(zone: Zone, desired: seq<Record>, confirm: bool) {
    exists k, j :: 0 <= k < j < |desired| && Loses(Planned(zone, desired)[k], confirm) && NeedsWrite(Planned(zone, desired)[j], confirm)
  }

  /** Writing back any record of the desired types and names leaves it as it was. */
  predicate WantedAreCanonical(zone: Zone, desired: seq<Record>) {
    forall id :: id in zone && Wanted(desired, |desired|, zone[id]) ==> Canonical(zone[id])
  }

  /** The item's write is still in the zone, or what was written back is not what was there. */
  predicate Explains(item: Item, id: Id, r: Record) {
    item.previous == Some((id, r)) && (item.status.Updated? || !Canonical(r))
  }

  ghost predicate PartlyRestored(before: Zone, items: seq<Item>, zone: Zone) {
    && (forall id :: id in before ==> id in zone && (zone[id] == before[id] || exists k :: 0 <= k < |items| && Explains(items[k], id, before[id])))
    && (forall id :: id in zone && id !in before ==>
          exists k :: 0 <= k < |items| && items[k].status.Created? && zone[id] == Stored(items[k].record))
  }

  // ---------- the items ----------

  lemma PlannedIsRight(zone: Zone, desired: seq<Record>)
    ensures PreviewsAll(zone, desired, Planned(zone, desired))
  {
    forall k | 0 <= k < |desired|
      ensures Previews(zone, desired[k], Planned(zone, desired)[k])
    {
      PreviewIsRight(zone, desired[k]);
    }
  }

  /** Which write an item with a change got, and what it found before. */
  predicate ItemOk(before: Zone, item: Item) {
    && (item.status.Created? ==> item.previous.None?)
    && (item.status.Updated? ==> item.previous.Some?)
    && (item.previous.Some? ==>
          && item.previous.value.0 in before && before[item.previous.value.0] == item.previous.value.1
          && SameKey(item.previous.value.1, item.record))
  }

  predicate ItemsOk(before: Zone, items: seq<Item>) {
    forall k :: 0 <= k < |items| ==> ItemOk(before, items[k])
  }

  /** A change belongs to an item that was created or updated, and what it created is still in the zone. */
  predicate ChangeOk(before: Zone, zone: Zone, items: seq<Item>, c: Change) {
    && c.index < |items|
    && (items[c.index].status.Created? || items[c.index].status.Updated?)
    && (c.id !in before ==> items[c.index].status.Created? && c.id in zone && zone[c.id] == Stored(items[c.index].record))
  }

  predicate ChangesOk(before: Zone, zone: Zone, items: seq<Item>, applied: seq<Change>) {
    forall j :: 0 <= j < |applied| ==> ChangeOk(before, zone, items, applied[j])
  }

  ghost predicate PlanOk(before: Zone, desired: seq<Record>, zone: Zone, items: seq<Item>, applied: seq<Change>, n: nat,
                         confirm: bool)
    requires n <= |items| == |desired|
  {
    && Progress(before, desired, items, applied, zone, n, confirm) && ItemsOk(before, items)
    && ChangesOk(before, zone, items, applied)
  }

  ghost predicate WorkOk(before: Zone, desired: seq<Record>, w: Work, n: nat, confirm: bool)
    requires n <= |w.items| == |desired|
  {
    PlanOk(before, desired, w.zone, w.items, w.applied, n, confirm)
  }

  lemma RoundKeepsIndexes(w: Work, i: nat, confirm: bool, remote: Remote)
    requires i < |w.items| && IndexesOk(w)
    ensures IndexesOk(Round(w, i, confirm, remote).1)
  {
  }

  lemma WritingIsOk(before: Zone, desired: seq<Record>, w: Work, i: nat, confirm: bool, id: Id, status: Status)
    requires i < |w.items| == |desired| && WorkOk(before, desired, w, i, confirm)
    requires Target(w.zone, w.items[i], id, status) && (status.Updated? ==> confirm)
    ensures WorkOk(before, desired, Writing(w, i, id, status), i + 1, confirm)
  {
    assert Previews(before, desired[i], w.items[i]);
    WriteProgresses(before, desired, w.items, w.applied, w.zone, i, confirm, id, status);
    if status.Updated? { OneListed(before, w.zone, w.items[i].record, w.items[i].previous.value.0); }
    ChangesStayOk(before, w, i, id, status);
  }

  lemma ChangesStayOk(before: Zone, w: Work, i: nat, id: Id, status: Status)
    requires i < |w.items| && ItemsOk(before, w.items) && ChangesOk(before, w.zone, w.items, w.applied)
    requires forall j :: 0 <= j < |w.applied| ==> w.applied[j].index < i
    requires if status.Created? then w.items[i].previous.None? && id !in w.zone
             else status.Updated? && w.items[i].previous.Some? && id in before
    ensures var w' := Writing(w, i, id, status);
            ItemsOk(before, w'.items) && ChangesOk(before, w'.zone, w'.items, w'.applied)
  {
    var w' := Writing(w, i, id, status);
    forall j | 0 <= j < |w'.applied|
      ensures ChangeOk(before, w'.zone, w'.items, w'.applied[j])
    {
      if j < |w.applied| { assert ChangeOk(before, w.zone, w.items, w.applied[j]); }
    }
  }

  lemma RoundIsOk(before: Zone, desired: seq<Record>, w: Work, i: nat, confirm: bool, remote: Remote)
    requires FreshIds(remote) && i < |w.items| == |desired| && WorkOk(before, desired, w, i, confirm)
    ensures var r := Round(w, i, confirm, remote);
            |r.1.items| == |desired| && WorkOk(before, desired, r.1, if r.0.GoOn? then i + 1 else i, confirm)
  {
    if w.items[i].status.Create? {
      CreatingIsOk(before, desired, w, i, confirm, remote);
    } else if w.items[i].status.Differs? && confirm {
      UpdatingIsOk(before, desired, w, i, confirm, remote);
    } else {
      SkippingIsOk(before, desired, w, i, confirm);
    }
  }

  lemma CreatingIsOk(before: Zone, desired: seq<Record>, w: Work, i: nat, confirm: bool, remote: Remote)
    requires FreshIds(remote) && i < |w.items| == |desired| && WorkOk(before, desired, w, i, confirm)
    requires w.items[i].status.Create?
    ensures var r := Creating(w, i, remote);
            |r.1.items| == |desired| && WorkOk(before, desired, r.1, if r.0.GoOn? then i + 1 else i, confirm)
  {
    if !remote.fails(w.calls) {
      WritingIsOk(before, desired, w.(calls := w.calls + 1), i, confirm, remote.freshId(w.zone), Created);
    }
  }

  lemma UpdatingIsOk(before: Zone, desired: seq<Record>, w: Work, i: nat, confirm: bool, remote: Remote)
    requires i < |w.items| == |desired| && WorkOk(before, desired, w, i, confirm)
    requires w.items[i].status.Differs? && confirm
    ensures var r := Updating(w, i, remote);
            |r.1.items| == |desired| && WorkOk(before, desired, r.1, if r.0.GoOn? then i + 1 else i, confirm)
  {
    var existing := Listed(w.zone, w.items[i].record);
    SkippingIsOk(before, desired, w, i, confirm);
    if |existing| == 1 { OverwritingIsOk(before, desired, w, i, existing); }
    UpdatingEnds(w, i, remote);
  }

  /** The three ends of an update: a request fails, the record is no longer the only one, or it is overwritten. */
  lemma UpdatingEnds(w: Work, i: nat, remote: Remote)
    requires i < |w.items|
    ensures var r, existing := Updating(w, i, remote), Listed(w.zone, w.items[i].record);
            || (r.1 == w.(calls := r.1.calls) && (r.0.GoOn? ==> |existing| != 1))
            || (|existing| == 1 && r == (GoOn, Writing(w.(calls := w.calls + 2), i, Single(existing), Updated)))
  {
  }

  lemma OverwritingIsOk(before: Zone, desired: seq<Record>, w: Work, i: nat, existing: set<Id>)
    requires i < |w.items| == |desired| && WorkOk(before, desired, w, i, true) && w.items[i].status.Differs?
    requires existing == Listed(w.zone, w.items[i].record) && |existing| == 1
    ensures WorkOk(before, desired, Writing(w.(calls := w.calls + 2), i, Single(existing), Updated), i + 1, true)
  {
    WritingIsOk(before, desired, w.(calls := w.calls + 2), i, true, Single(existing), Updated);
  }

  lemma SkippingIsOk(before: Zone, desired: seq<Record>, w: Work, i: nat, confirm: bool)
    requires i < |w.items| == |desired| && WorkOk(before, desired, w, i, confirm) && !w.items[i].status.Create?
    ensures WorkOk(before, desired, w, i + 1, confirm)
  {
    SkipProgresses(before, desired, w.items, w.applied, w.zone, i, confirm);
  }

  /** What every round keeps, all of them keep, and n says at which item they end. */
  lemma {:induction false} RoundsKeep(kept: (Work, nat) -> bool, w: Work, i: nat, confirm: bool, remote: Remote) returns (n: nat)
    requires i <= |w.items| && kept(w, i)
    requires forall v: Work, k: nat :: k < |v.items| && kept(v, k) ==>
               kept(Round(v, k, confirm, remote).1, if Round(v, k, confirm, remote).0.GoOn? then k + 1 else k)
    ensures var r := Rounds(w, i, confirm, remote);
            && n <= |r.1.items| == |w.items| && kept(r.1, n) && (r.0.GoOn? <==> n == |w.items|)
            && (!r.0.GoOn? ==> NeedsWrite(r.1.items[n], confirm))
    decreases |w.items| - i
  {
    n := i;
    if i < |w.items| {
      var r := Round(w, i, confirm, remote);
      if r.0.GoOn? { n := RoundsKeep(kept, r.1, i + 1, confirm, remote); }
    }
  }

  /** The first n items of the plan were written if they needed it. */
  predicate Advanced(planned: seq<Item>, items: seq<Item>, n: nat, confirm: bool) {
    && n <= |items| == |planned|
    && (forall k :: n <= k < |items| ==> items[k] == planned[k])
    && forall k :: 0 <= k < n ==>
         if NeedsWrite(planned[k], confirm) then IsWritten(planned[k], items[k], confirm) else items[k] == planned[k]
  }

  predicate IsWritten(planned: Item, item: Item, confirm: bool) {
    || (planned.status.Create? && item == planned.(status := Created))
    || (planned.status.Differs? && confirm && item == planned.(status := Updated))
  }

  /** A record that is to be overwritten is still the only one. */
  lemma FoundAgain(before: Zone, desired: seq<Record>, w: Work, j: nat, confirm: bool)
    requires j < |w.items| == |desired| && WorkOk(before, desired, w, j, confirm) && w.items[j].status.Differs?
    ensures |Listed(w.zone, w.items[j].record)| == 1
  {
    assert Previews(before, desired[j], w.items[j]);
    OneListed(before, w.zone, w.items[j].record, w.items[j].previous.value.0);
  }

  lemma RoundAdvances(planned: seq<Item>, w: Work, i: nat, confirm: bool, remote: Remote)
    requires i < |w.items| && Advanced(planned, w.items, i, confirm)
    requires w.items[i].status.Differs? ==> |Listed(w.zone, w.items[i].record)| == 1
    ensures var r := Round(w, i, confirm, remote); Advanced(planned, r.1.items, if r.0.GoOn? then i + 1 else i, confirm)
  {
  }

  lemma RoundsAreOk(before: Zone, desired: seq<Record>, w: Work, confirm: bool, remote: Remote) returns (n: nat)
    requires FreshIds(remote) && |w.items| == |desired| && WorkOk(before, desired, w, 0, confirm)
    ensures var r := Rounds(w, 0, confirm, remote);
            && n <= |r.1.items| == |desired| && WorkOk(before, desired, r.1, n, confirm) && (r.0.GoOn? <==> n == |desired|)
            && Advanced(w.items, r.1.items, n, confirm) && (!r.0.GoOn? ==> NeedsWrite(r.1.items[n], confirm))
  {
    var kept := (v: Work, k: nat) =>
      k <= |v.items| == |desired| && WorkOk(before, desired, v, k, confirm) && Advanced(w.items, v.items, k, confirm);
    forall v: Work, k: nat | k < |v.items| && kept(v, k)
      ensures kept(Round(v, k, confirm, remote).1, if Round(v, k, confirm, remote).0.GoOn? then k + 1 else k)
    {
      RoundIsOk(before, desired, v, k, confirm, remote);
      if v.items[k].status.Differs? { FoundAgain(before, desired, v, k, confirm); }
      RoundAdvances(w.items, v, k, confirm, remote);
    }
    n := RoundsKeep(kept, w, 0, confirm, remote);
  }

  // ---------- the reversal ----------

  /** A change whose item is not marked. */
  predicate Unmarked(w: Work, j: int)
    requires 0 <= j < |w.applied|
  {
    w.applied[j].index < |w.items| && !w.items[w.applied[j].index].status.RolledBack?
  }

  /** Whatever is not as before is written back, or belongs to a change that is not marked. */
  ghost predicate Halfway(before: Zone, w: Work) {
    && Changes(before, w.items, w.applied)
    && (forall id :: id in before ==>
          && id in w.zone
          && (w.zone[id] == before[id] || (w.zone[id] == Stored(before[id]) && Touches(w.applied, 0, id)) || UnmarkedAt(w, id)))
    && (forall id :: id in w.zone && id !in before ==> UnmarkedAt(w, id))
  }

  predicate UnmarkedAt(w: Work, id: Id) {
    exists j :: 0 <= j < |w.applied| && w.applied[j].id == id && Unmarked(w, j)
  }

  /** Marked items apart, statuses and the zone are those of the work that is reverted. */
  ghost predicate RevertsFrom(before: Zone, start: Work, w: Work) {
    && w.applied == start.applied && SamePlan(start.items, w.items)
    && (forall k :: 0 <= k < |w.items| ==> w.items[k].status == start.items[k].status || w.items[k].status.RolledBack?)
    && (forall id :: id in w.zone && id !in before ==> id in start.zone && w.zone[id] == start.zone[id])
  }

  lemma RevertingHalfway(before: Zone, start: Work, w: Work, n: nat, remote: Remote)
    requires n < |w.applied| && IndexesOk(w) && Halfway(before, w) && RevertsFrom(before, start, w)
    ensures var w' := Reverting(w, n, remote).1; Halfway(before, w') && RevertsFrom(before, start, w') && IndexesOk(w')
  {
    var (ok, w') := Reverting(w, n, remote);
    SamePlanSameChanges(before, w.items, w'.items, w.applied);
    if ok {
      var c := w.applied[n];
      assert Fits(before, w.items[c.index], c);
      forall id | id != c.id && UnmarkedAt(w, id)
        ensures UnmarkedAt(w', id)
      {
        OthersStayUnmarked(before, w, n, id, remote);
      }
    } else {
      forall id | UnmarkedAt(w, id)
        ensures UnmarkedAt(w', id)
      {
        var j :| 0 <= j < |w.applied| && w.applied[j].id == id && Unmarked(w, j);
        assert Unmarked(w', j);
      }
    }
  }

  lemma OthersStayUnmarked(before: Zone, w: Work, n: nat, id: Id, remote: Remote)
    requires n < |w.applied| && IndexesOk(w) && Changes(before, w.items, w.applied) && id != w.applied[n].id && UnmarkedAt(w, id)
    ensures UnmarkedAt(Reverting(w, n, remote).1, id)
  {
    var w' := Reverting(w, n, remote).1;
    var j :| 0 <= j < |w.applied| && w.applied[j].id == id && Unmarked(w, j);
    assert if j < n then Apart(before, w.applied, j, n) else Apart(before, w.applied, n, j);
    assert Unmarked(w', j);
  }

  lemma RevertingUndone(before: Zone, w: Work, n: nat, remote: Remote)
    requires n < |w.applied| && IndexesOk(w) && UndoneFrom(before, w, n + 1) && Reverting(w, n, remote).0
    ensures UndoneFrom(before, Reverting(w, n, remote).1, n)
  {
    UndoneOneMore(before, w.items, w.applied, n, w.zone, Reverting(w, n, remote).1.zone);
  }

  /** Whether or not changes fail to be reverted. */
  lemma {:induction false} ReversalGoesHalfway(before: Zone, start: Work, w: Work, n: nat, failed: bool, remote: Remote)
    requires n <= |w.applied| && IndexesOk(w) && Halfway(before, w) && RevertsFrom(before, start, w)
    ensures var w' := Reversal(w, n, failed, remote).1; Halfway(before, w') && RevertsFrom(before, start, w')
    decreases n
  {
    if n > 0 {
      var (ok, next) := Reverting(w, n - 1, remote);
      RevertingHalfway(before, start, w, n - 1, remote);
      ReversalGoesHalfway(before, start, next, n - 1, failed || !ok, remote);
    }
  }

  lemma {:induction false} FailureIsKept(w: Work, n: nat, remote: Remote)
    requires n <= |w.applied| && IndexesOk(w)
    ensures Reversal(w, n, true, remote).0
    decreases n
  {
    if n > 0 { FailureIsKept(Reverting(w, n - 1, remote).1, n - 1, remote); }
  }

  lemma ReversalTurn(w: Work, n: nat, failed: bool, remote: Remote)
    requires 0 < n <= |w.applied| && IndexesOk(w)
    ensures var r := Reverting(w, n - 1, remote);
            && IndexesOk(r.1) && r.1.applied == w.applied
            && Reversal(w, n, failed, remote) == Reversal(r.1, n - 1, failed || !r.0, remote)
  {
  }

  ghost predicate UndoneFrom(before: Zone, w: Work, n: nat)
    requires n <= |w.applied|
  {
    Undone(before, w.items, w.applied, n, w.zone)
  }

  /** Reverting the m-th change succeeds and leads from v to v'. */
  ghost predicate Turns(v: Work, v': Work, m: nat, remote: Remote) {
    m < |v.applied| && IndexesOk(v) && Reverting(v, m, remote) == (true, v')
  }

  /** What every successful reversion keeps, the whole reversal keeps. */
  lemma {:induction false} ReversalKeeps(kept: (Work, nat) -> bool, w: Work, n: nat, remote: Remote)
    requires n <= |w.applied| && IndexesOk(w) && kept(w, n) && !Reversal(w, n, false, remote).0
    requires forall v, v', m: nat :: Turns(v, v', m, remote) && kept(v, m + 1) ==> kept(v', m)
    ensures kept(Reversal(w, n, false, remote).1, 0)
    decreases n
  {
    if n > 0 {
      ReversalTurn(w, n, false, remote);
      var r := Reverting(w, n - 1, remote);
      if !r.0 { FailureIsKept(r.1, n - 1, remote); }
      assert Turns(w, r.1, n - 1, remote);
      ReversalKeeps(kept, r.1, n - 1, remote);
    }
  }

  /** If none fails, all changes are undone. */
  lemma ReversalUndoes(before: Zone, w: Work, remote: Remote)
    requires IndexesOk(w) && UndoneFrom(before, w, |w.applied|) && !Reversal(w, |w.applied|, false, remote).0
    ensures UndoneFrom(before, Reversal(w, |w.applied|, false, remote).1, 0)
  {
    var kept := (v: Work, m: nat) => m <= |v.applied| && UndoneFrom(before, v, m);
    forall v: Work, v': Work, m: nat | Turns(v, v', m, remote) && kept(v, m + 1)
      ensures kept(v', m)
    {
      RevertingUndone(before, v, m, remote);
    }
    ReversalKeeps(kept, w, |w.applied|, remote);
  }

  lemma StartsHalfway(before: Zone, desired: seq<Record>, w: Work, n: nat, confirm: bool)
    requires n <= |w.items| == |desired| && WorkOk(before, desired, w, n, confirm)
    ensures Halfway(before, w) && RevertsFrom(before, w, w) && IndexesOk(w)
    ensures Undone(before, w.items, w.applied, |w.applied|, w.zone)
  {
    NoneRolledBack(before, desired, w.items, w.applied, w.zone, n, confirm);
    NothingUndone(before, w.items, w.applied, w.zone);
    forall id | Touches(w.applied, 0, id)
      ensures UnmarkedAt(w, id)
    {
      var j :| 0 <= j < |w.applied| && w.applied[j].id == id;
      assert ChangeOk(before, w.zone, w.items, w.applied[j]);
      assert Unmarked(w, j);
    }
  }

  lemma HalfwayIsPartly(before: Zone, desired: seq<Record>, start: Work, n: nat, confirm: bool, w: Work)
    requires n <= |start.items| == |desired| && WorkOk(before, desired, start, n, confirm)
    requires Halfway(before, w) && RevertsFrom(before, start, w)
    ensures PartlyRestored(before, w.items, w.zone)
  {
    forall id | id in before && w.zone[id] != before[id]
      ensures exists k :: 0 <= k < |w.items| && Explains(w.items[k], id, before[id])
    {
      ExplainedAt(before, desired, start, n, confirm, w, id);
    }
    forall id | id in w.zone && id !in before
      ensures exists k :: 0 <= k < |w.items| && w.items[k].status.Created? && w.zone[id] == Stored(w.items[k].record)
    {
      NewRecordIsCreated(before, start, w, id);
    }
  }

  lemma NewRecordIsCreated(before: Zone, start: Work, w: Work, id: Id)
    requires ChangesOk(before, start.zone, start.items, start.applied) && RevertsFrom(before, start, w)
    requires id in w.zone && id !in before && UnmarkedAt(w, id)
    ensures exists k :: 0 <= k < |w.items| && w.items[k].status.Created? && w.zone[id] == Stored(w.items[k].record)
  {
    var j :| 0 <= j < |w.applied| && w.applied[j].id == id && Unmarked(w, j);
    assert ChangeOk(before, start.zone, start.items, start.applied[j]);
    assert w.items[w.applied[j].index].status.Created?;
  }

  lemma ExplainedAt(before: Zone, desired: seq<Record>, start: Work, n: nat, confirm: bool, w: Work, id: Id)
    requires n <= |start.items| == |desired| && WorkOk(before, desired, start, n, confirm)
    requires Halfway(before, w) && RevertsFrom(before, start, w) && id in before && w.zone[id] != before[id]
    ensures exists k :: 0 <= k < |w.items| && Explains(w.items[k], id, before[id])
  {
    assert UnmarkedAt(start, id) by { DifferentIsTouched(before, desired, start, n, confirm, w, id); }
    if UnmarkedAt(w, id) {
      var j :| 0 <= j < |w.applied| && w.applied[j].id == id && Unmarked(w, j);
      ChangeExplains(before, desired, start, n, confirm, w, j);
    } else {
      var j :| 0 <= j < |start.applied| && start.applied[j].id == id && Unmarked(start, j);
      ChangeExplains(before, desired, start, n, confirm, w, j);
    }
  }

  lemma ChangeExplains(before: Zone, desired: seq<Record>, start: Work, n: nat, confirm: bool, w: Work, j: nat)
    requires n <= |start.items| == |desired| && WorkOk(before, desired, start, n, confirm)
    requires Halfway(before, w) && RevertsFrom(before, start, w) && j < |w.applied| && w.applied[j].id in before
    requires Unmarked(w, j) || !Canonical(before[w.applied[j].id])
    ensures exists k :: 0 <= k < |w.items| && Explains(w.items[k], w.applied[j].id, before[w.applied[j].id])
  {
    var c := w.applied[j];
    assert Fits(before, w.items[c.index], c) && ChangeOk(before, start.zone, start.items, start.applied[j]) && ItemOk(before, start.items[c.index]);
    assert Explains(w.items[c.index], c.id, before[c.id]);
  }

  /** Only what a change touched can differ. */
  lemma DifferentIsTouched(before: Zone, desired: seq<Record>, start: Work, n: nat, confirm: bool, w: Work, id: Id)
    requires n <= |start.items| == |desired| && WorkOk(before, desired, start, n, confirm)
    requires Halfway(before, w) && RevertsFrom(before, start, w) && id in before && w.zone[id] != before[id]
    ensures UnmarkedAt(start, id)
  {
    assert Touches(w.applied, 0, id);
    var j :| 0 <= j < |start.applied| && start.applied[j].id == id;
    assert ChangeOk(before, start.zone, start.items, start.applied[j]);
    assert Unmarked(start, j);
  }

  // ---------- all together ----------

  lemma ApplyingIsRight(zone: Zone, calls: nat, desired: seq<Record>, confirm: bool, remote: Remote)
    requires FreshIds(remote)
    ensures var (outcome, w) := Applying(zone, calls, desired, confirm, remote);
            IsRight(zone, desired, confirm, outcome, w.items, w.zone)
  {
    if Successes(remote, calls, |desired|) == |desired| {
      var start := Work(zone, calls + |desired|, Planned(zone, desired), []);
      PlannedIsRight(zone, desired);
      PlannedIsOk(zone, desired, start, confirm);
      var n := RoundsAreOk(zone, desired, start, confirm, remote);
      RoundsKeepIndexes(start, 0, confirm, remote);
      var (turn, w) := Rounds(start, 0, confirm, remote);
      if turn.WriteErred? {
        ReversalComesRight(zone, desired, w, n, confirm, remote);
      } else if turn.GoOn? && DistinctKeys(desired) {
        SettledPreviewUnchanged(w.zone, w.items);
        assert forall k :: 0 <= k < |w.items| ==> w.items[k].record == desired[k];
      }
    }
  }

  lemma PlannedIsOk(zone: Zone, desired: seq<Record>, w: Work, confirm: bool)
    requires w.zone == zone && w.items == Planned(zone, desired) && w.applied == [] && PreviewsAll(zone, desired, w.items)
    ensures WorkOk(zone, desired, w, 0, confirm)
  {
    PreviewProgresses(zone, desired, w.items, confirm);
    forall k | 0 <= k < |w.items|
      ensures ItemOk(zone, w.items[k])
    {
      assert Previews(zone, desired[k], w.items[k]);
    }
  }

  lemma ReversalComesRight(before: Zone, desired: seq<Record>, w: Work, n: nat, confirm: bool, remote: Remote)
    requires n < |w.items| == |desired| && WorkOk(before, desired, w, n, confirm) && IndexesOk(w)
    requires Advanced(Planned(before, desired), w.items, n, confirm) && NeedsWrite(w.items[n], confirm)
    ensures var (failed, w') := Reversal(w, |w.applied|, false, remote);
            IsRight(before, desired, confirm, if failed then NotRestored else RestoredAfterFailure, w'.items, w'.zone)
  {
    StartsHalfway(before, desired, w, n, confirm);
    ReversalGoesHalfway(before, w, w, |w.applied|, false, remote);
    var (failed, w') := Reversal(w, |w.applied|, false, remote);
    if failed {
      HalfwayIsPartly(before, desired, w, n, confirm, w');
    } else {
      ReversalUndoes(before, w, remote);
      AllReverted(before, w'.items, w'.applied, w'.zone);
      if !AtRisk(before, desired, confirm) { SafeIsRestored(before, desired, w, n, confirm, w'); }
    }
  }

  /** A change was made for an item of the plan before the one at which a write failed. */
  lemma ReversedWasWritten(before: Zone, desired: seq<Record>, start: Work, n: nat, confirm: bool, k: nat)
    requires n <= |start.items| == |desired| && WorkOk(before, desired, start, n, confirm)
    requires Advanced(Planned(before, desired), start.items, n, confirm)
    requires MadeFor(start.applied, 0, k) && k < |start.items| && start.items[k].previous.Some?
    ensures k < n && confirm && Planned(before, desired)[k].status.Differs?
    ensures Planned(before, desired)[k].previous == start.items[k].previous
  {
    var j :| 0 <= j < |start.applied| && start.applied[j].index == k;
    assert ChangeOk(before, start.zone, start.items, start.applied[j]) && ItemOk(before, start.items[k]);
    PlannedIsRight(before, desired);
    assert Previews(before, desired[k], Planned(before, desired)[k]);
  }

  lemma NotLost(zone: Zone, desired: seq<Record>, confirm: bool, k: nat, n: nat)
    requires k < n < |desired| && NeedsWrite(Planned(zone, desired)[n], confirm) && !AtRisk(zone, desired, confirm)
    ensures !Loses(Planned(zone, desired)[k], confirm)
  {
  }

  lemma SafeIsRestored(before: Zone, desired: seq<Record>, start: Work, n: nat, confirm: bool, w: Work)
    requires n < |start.items| == |desired| && WorkOk(before, desired, start, n, confirm) && RevertsFrom(before, start, w)
    requires Advanced(Planned(before, desired), start.items, n, confirm) && NeedsWrite(start.items[n], confirm)
    requires Restored(before, w.items, w.zone) && Marked(w.items, w.applied, 0) && !AtRisk(before, desired, confirm)
    ensures w.zone == before
  {
    forall k: nat | k < |w.items|
      ensures CanonicalIfReverted(w.items[k])
    {
      if w.items[k].status.RolledBack? && w.items[k].previous.Some? {
        assert MadeFor(w.applied, 0, k);
        ReversedWasWritten(before, desired, start, n, confirm, k);
        NotLost(before, desired, confirm, k, n);
      }
    }
  }

  /** If all records of the desired types and names survive being written back, nothing is at risk. */
  lemma CanonicalIsNotAtRisk(zone: Zone, desired: seq<Record>, confirm: bool)
    requires WantedAreCanonical(zone, desired)
    ensures !AtRisk(zone, desired, confirm)
  {
    PlannedIsRight(zone, desired);
    forall k | 0 <= k < |desired|
      ensures !Loses(Planned(zone, desired)[k], confirm)
    {
      var item := Planned(zone, desired)[k];
      assert Previews(zone, desired[k], item);
      if item.status.Differs? { assert Wanted(desired, |desired|, zone[item.previous.value.0]); }
    }
  }

  /** An MX record and perhaps an address record after it: what is asked for when a domain is set up. */
  predicate MailRecords(desired: seq<Record>) {
    1 <= |desired| <= 2 && desired[0].kind == "MX"
  }

  /** Such a plan puts nothing at risk, whatever the zone: what it may lose could only be written last. */
  lemma MailRecordsAreNotAtRisk(zone: Zone, desired: seq<Record>, confirm: bool)
    requires MailRecords(desired)
    ensures !AtRisk(zone, desired, confirm)
  {
    PlannedIsRight(zone, desired);
    assert Previews(zone, desired[0], Planned(zone, desired)[0]);
  }

  // ---------- what an application leaves, spelled out ----------

  predicate SameName(desired: seq<Record>, j: int, k: int)
    requires 0 <= j < |desired| && 0 <= k < |desired|
  {
    desired[j].kind == desired[k].kind && desired[j].name == desired[k].name
  }

  /** The records of this type and name are as desired, or were too many, or one conflicts and is left alone unless that is confirmed. */
  ghost predicate LeftRight(before: Zone, after: Zone, r: Record, confirm: bool) {
    || (exists id :: TheOne(after, r, id) && Agrees(after[id], r))
    || (!NoneOf(before, r) && forall id :: !TheOne(before, r, id))
    || (!confirm && exists id :: TheOne(before, r, id) && !Agrees(before[id], r) && id in after && after[id] == before[id])
  }

  ghost predicate AllLeftRight(before: Zone, after: Zone, desired: seq<Record>, confirm: bool) {
    (forall j, k :: 0 <= j < k < |desired| ==> !SameName(desired, j, k)) ==>
      forall k :: 0 <= k < |desired| ==> LeftRight(before, after, desired[k], confirm)
  }

  lemma ItemIsLeftRight(before: Zone, desired: seq<Record>, w: Work, confirm: bool, k: nat)
    requires |w.items| == |desired| && k < |desired| && WorkOk(before, desired, w, |desired|, confirm) && DistinctKeys(desired)
    requires Advanced(Planned(before, desired), w.items, |desired|, confirm)
    ensures LeftRight(before, w.zone, desired[k], confirm)
  {
    var planned, item := Planned(before, desired)[k], w.items[k];
    PreviewTells(before, desired[k]);
    if Written(item.status) {
      SettledIsLeftRight(before, w.zone, item.record, confirm);
    } else if planned.status.Differs? {
      ConflictIsLeft(before, desired, w, k);
    }
  }

  lemma SettledIsLeftRight(before: Zone, after: Zone, r: Record, confirm: bool)
    requires Settled(after, r)
    ensures LeftRight(before, after, r, confirm)
  {
    var id: Id :| Only(after, r, id) && SameRecord(after[id], r);
    OnlyIsTheOne(after, r, id);
    SameIsAgrees(after[id], r);
  }

  /** Without confirmation no old record is changed. */
  lemma ConflictIsLeft(before: Zone, desired: seq<Record>, w: Work, k: nat)
    requires |w.items| == |desired| && k < |desired| && WorkOk(before, desired, w, |desired|, false)
    requires Tells(before, desired[k], Planned(before, desired)[k]) && Planned(before, desired)[k].status.Differs?
    ensures LeftRight(before, w.zone, desired[k], false)
  {
    var id: Id :| TheOne(before, desired[k], id) && !Agrees(before[id], desired[k]);
    assert id in w.zone && w.zone[id] == before[id];
  }

  /**
    After an application that ran to its end, for distinct desired records: with confirmation, each is
    in the zone as the only one of its type and name, unless there were several before. Without it, a
    record in conflict is as it was, and all others are as with it.
   */
  lemma AppliedIsLeftRight(zone: Zone, calls: nat, desired: seq<Record>, confirm: bool, remote: Remote)
    requires FreshIds(remote)
    ensures var (outcome, w) := Applying(zone, calls, desired, confirm, remote);
            outcome.Applied? ==> AllLeftRight(zone, w.zone, desired, confirm)
  {
    if Successes(remote, calls, |desired|) == |desired| {
      var start := Work(zone, calls + |desired|, Planned(zone, desired), []);
      PlannedIsRight(zone, desired);
      PlannedIsOk(zone, desired, start, confirm);
      var n := RoundsAreOk(zone, desired, start, confirm, remote);
      var (turn, w) := Rounds(start, 0, confirm, remote);
      if turn.GoOn? && forall j, k :: 0 <= j < k < |desired| ==> !SameName(desired, j, k) {
        NamesAreKeys(desired);
        forall k | 0 <= k < |desired|
          ensures LeftRight(zone, w.zone, desired[k], confirm)
        {
          ItemIsLeftRight(zone, desired, w, confirm, k);
        }
      }
    }
  }

  /** Every outcome says what it should about the zone, and success leaves it as desired. */
  ghost predicate Accomplishes(before: Zone, desired: seq<Record>, confirm: bool, outcome: Outcome, items: seq<Item>, zone: Zone) {
    && IsRight(before, desired, confirm, outcome, items, zone)
    && (outcome.Applied? ==> AllLeftRight(before, zone, desired, confirm))
  }

  lemma ApplyingAccomplishes(zone: Zone, calls: nat, desired: seq<Record>, confirm: bool, remote: Remote)
    requires FreshIds(remote)
    ensures var (outcome, w) := Applying(zone, calls, desired, confirm, remote);
            Accomplishes(zone, desired, confirm, outcome, w.items, w.zone)
  {
    ApplyingIsRight(zone, calls, desired, confirm, remote);
    AppliedIsLeftRight(zone, calls, desired, confirm, remote);
  }

  lemma NamesAreKeys(desired: seq<Record>)
    requires forall j, k :: 0 <= j < k < |desired| ==> !SameName(desired, j, k)
    ensures DistinctKeys(desired)
  {
    forall j, k | 0 <= j < k < |desired|
      ensures !KeyShared(desired, j, k)
    {
      assert !SameName(desired, j, k);
    }
  }

  // ---------- what is at risk can be lost ----------

  /** Only the given request fails. */
  function FailsAt(k: nat, freshId: Zone -> Id): Remote {
    Remote(n => n == k, freshId)
  }

  lemma {:induction false} SomeIdIsFree(ids: set<Id>) returns (id: Id)
    ensures forall k :: k in ids ==> k < id
  {
    id := 0;
    if ids != {} {
      var k :| k in ids;
      var above := SomeIdIsFree(ids - {k});
      id := if above > k then above else k + 1;
      assert forall m :: m in ids ==> m == k || m in ids - {k};
    }
  }

  ghost function FreshId(zone: Zone): (id: Id)
    ensures id !in zone
  {
    assert exists id: Id :: id !in zone by { var id := SomeIdIsFree(zone.Keys); assert id !in zone; }
    var id: Id :| id !in zone;
    id
  }

  lemma FreshRemote(k: nat) returns (remote: Remote)
    ensures FreshIds(remote) && forall n :: remote.fails(n) <==> n == k
  {
    remote := FailsAt(k, z => FreshId(z));
  }

  /** How many requests the item takes. */
  function Requests(item: Item, confirm: bool): nat {
    if item.status.Create? then 1 else if item.status.Differs? && confirm then 2 else 0
  }

  function RequestsBetween(planned: seq<Item>, i: nat, j: nat, confirm: bool): nat
    requires i <= j <= |planned|
    decreases j - i
  {
    if i == j then 0 else Requests(planned[i], confirm) + RequestsBetween(planned, i + 1, j, confirm)
  }

  /** A round whose requests succeed writes what needs it. */
  lemma RoundWrites(before: Zone, desired: seq<Record>, w: Work, i: nat, confirm: bool, remote: Remote)
    requires i < |w.items| == |desired| && WorkOk(before, desired, w, i, confirm)
    requires forall c :: w.calls <= c < w.calls + Requests(w.items[i], confirm) ==> !remote.fails(c)
    ensures var (turn, v) := Round(w, i, confirm, remote);
            && turn.GoOn? && v.calls == w.calls + Requests(w.items[i], confirm)
            && (forall m :: 0 <= m < |w.items| && m != i ==> v.items[m] == w.items[m])
            && v.items[i].previous == w.items[i].previous && v.items[i].record == w.items[i].record
            && if NeedsWrite(w.items[i], confirm) then exists id :: v.applied == w.applied + [Change(i, id)] else v.applied == w.applied
  {
    assert Previews(before, desired[i], w.items[i]);
    if w.items[i].status.Differs? { OneListed(before, w.zone, w.items[i].record, w.items[i].previous.value.0); }
  }

  lemma MadeForMore(applied: seq<Change>, more: seq<Change>, k: nat)
    ensures MadeFor(applied, 0, k) ==> MadeFor(applied + more, 0, k)
    ensures forall id :: MadeFor(applied + [Change(k, id)], 0, k)
  {
    if MadeFor(applied, 0, k) {
      var j :| 0 <= j < |applied| && applied[j].index == k;
      assert (applied + more)[j].index == k;
    }
    forall id ensures MadeFor(applied + [Change(k, id)], 0, k) { assert (applied + [Change(k, id)])[|applied|].index == k; }
  }

  /** The work before item j when its requests succeed: what needed it was written. */
  ghost predicate Reached(before: Zone, desired: seq<Record>, planned: seq<Item>, w: Work, j: nat, confirm: bool) {
    && j <= |w.items| == |desired| == |planned| && WorkOk(before, desired, w, j, confirm) && SamePlan(planned, w.items)
    && (forall m :: j <= m < |planned| ==> w.items[m] == planned[m])
    && forall m: nat :: m < j && NeedsWrite(planned[m], confirm) ==> MadeFor(w.applied, 0, m)
  }

  lemma ReachesNext(before: Zone, desired: seq<Record>, planned: seq<Item>, w: Work, i: nat, confirm: bool, remote: Remote)
    requires FreshIds(remote) && i < |planned| && Reached(before, desired, planned, w, i, confirm)
    requires forall c :: w.calls <= c < w.calls + Requests(planned[i], confirm) ==> !remote.fails(c)
    ensures var (turn, v) := Round(w, i, confirm, remote);
            turn.GoOn? && v.calls == w.calls + Requests(planned[i], confirm) && Reached(before, desired, planned, v, i + 1, confirm)
  {
    RoundIsOk(before, desired, w, i, confirm, remote);
    RoundWrites(before, desired, w, i, confirm, remote);
    var v := Round(w, i, confirm, remote).1;
    forall m: nat | m < i + 1 && NeedsWrite(planned[m], confirm)
      ensures MadeFor(v.applied, 0, m)
    {
      MadeForMore(w.applied, v.applied[|w.applied|..], m);
      MadeForMore(w.applied, [], i);
    }
  }

  /** If round i starts from kept work and its requests succeed, it goes on with kept work. */
  ghost predicate GoesOn(kept: (Work, nat) -> bool, planned: seq<Item>, w: Work, i: nat, confirm: bool, remote: Remote) {
    i < |planned| && kept(w, i) && (forall c :: w.calls <= c < w.calls + Requests(planned[i], confirm) ==> !remote.fails(c)) ==>
      && |w.items| == |planned|
      && var (turn, v) := Round(w, i, confirm, remote);
         turn.GoOn? && v.calls == w.calls + Requests(planned[i], confirm) && kept(v, i + 1)
  }

  lemma {:induction false} RoundsGoOn(kept: (Work, nat) -> bool, planned: seq<Item>, w: Work, i: nat, j: nat,
                                      confirm: bool, remote: Remote) returns (v: Work)
    requires i <= j <= |planned| == |w.items| && kept(w, i)
    requires forall u: Work, m: nat :: GoesOn(kept, planned, u, m, confirm, remote)
    requires forall c :: w.calls <= c < w.calls + RequestsBetween(planned, i, j, confirm) ==> !remote.fails(c)
    ensures |v.items| == |planned| && kept(v, j) && v.calls == w.calls + RequestsBetween(planned, i, j, confirm)
    ensures Rounds(w, i, confirm, remote) == Rounds(v, j, confirm, remote)
    decreases j - i
  {
    v := w;
    if i < j {
      assert GoesOn(kept, planned, w, i, confirm, remote);
      v := RoundsGoOn(kept, planned, Round(w, i, confirm, remote).1, i + 1, j, confirm, remote);
    }
  }

  lemma ReachedGoesOn(before: Zone, desired: seq<Record>, planned: seq<Item>, u: Work, m: nat, confirm: bool, remote: Remote)
    requires FreshIds(remote)
    ensures m < |planned| && Reached(before, desired, planned, u, m, confirm)
            && (forall c :: u.calls <= c < u.calls + Requests(planned[m], confirm) ==> !remote.fails(c)) ==>
              && |u.items| == |planned|
              && var (turn, v) := Round(u, m, confirm, remote);
                 turn.GoOn? && v.calls == u.calls + Requests(planned[m], confirm) && Reached(before, desired, planned, v, m + 1, confirm)
  {
    if m < |planned| && Reached(before, desired, planned, u, m, confirm)
       && forall c :: u.calls <= c < u.calls + Requests(planned[m], confirm) ==> !remote.fails(c) {
      ReachesNext(before, desired, planned, u, m, confirm, remote);
    }
  }

  lemma RoundsReach(before: Zone, desired: seq<Record>, planned: seq<Item>, w: Work, j: nat, confirm: bool, remote: Remote)
    returns (v: Work)
    requires FreshIds(remote) && j <= |planned| == |w.items| && Reached(before, desired, planned, w, 0, confirm)
    requires forall c :: w.calls <= c < w.calls + RequestsBetween(planned, 0, j, confirm) ==> !remote.fails(c)
    ensures |v.items| == |planned| && Reached(before, desired, planned, v, j, confirm)
    ensures v.calls == w.calls + RequestsBetween(planned, 0, j, confirm)
    ensures Rounds(w, 0, confirm, remote) == Rounds(v, j, confirm, remote)
  {
    var kept := (u: Work, m: nat) => Reached(before, desired, planned, u, m, confirm);
    forall u: Work, m: nat
      ensures GoesOn(kept, planned, u, m, confirm, remote)
    {
      ReachedGoesOn(before, desired, planned, u, m, confirm, remote);
    }
    v := RoundsGoOn(kept, planned, w, 0, j, confirm, remote);
  }

  /** The write at item j fails. */
  lemma WriteFails(before: Zone, desired: seq<Record>, w: Work, j: nat, confirm: bool, remote: Remote)
    requires j < |w.items| == |desired| && WorkOk(before, desired, w, j, confirm) && NeedsWrite(w.items[j], confirm)
    requires forall n :: remote.fails(n) <==> n == w.calls + Requests(w.items[j], confirm) - 1
    ensures Rounds(w, j, confirm, remote) == (WriteErred, w.(calls := w.calls + Requests(w.items[j], confirm)))
  {
    if w.items[j].status.Differs? { FoundAgain(before, desired, w, j, confirm); }
    RoundFails(w, j, confirm, remote);
  }

  lemma RoundFails(w: Work, j: nat, confirm: bool, remote: Remote)
    requires j < |w.items| && NeedsWrite(w.items[j], confirm)
    requires w.items[j].status.Differs? ==> |Listed(w.zone, w.items[j].record)| == 1
    requires forall n :: remote.fails(n) <==> n == w.calls + Requests(w.items[j], confirm) - 1
    ensures Rounds(w, j, confirm, remote) == (WriteErred, w.(calls := w.calls + Requests(w.items[j], confirm)))
  {
    assert Round(w, j, confirm, remote) == (WriteErred, w.(calls := w.calls + Requests(w.items[j], confirm)));
  }

  /** Without further failures every change is reverted. */
  lemma {:induction false} ReversalSucceeds(before: Zone, w: Work, n: nat, remote: Remote)
    requires n <= |w.applied| && IndexesOk(w) && UndoneFrom(before, w, n) && forall c :: w.calls <= c ==> !remote.fails(c)
    ensures !Reversal(w, n, false, remote).0
    decreases n
  {
    if n > 0 {
      assert TouchesBelow(w.applied, n, w.applied[n - 1].id);
      ReversalTurn(w, n, false, remote);
      RevertingUndone(before, w, n - 1, remote);
      ReversalSucceeds(before, Reverting(w, n - 1, remote).1, n - 1, remote);
    }
  }

  lemma {:induction false} NoPreviewFails(remote: Remote, calls: nat, n: nat)
    requires forall c :: calls <= c < calls + n ==> !remote.fails(c)
    ensures Successes(remote, calls, n) == n
    decreases n
  {
    if n > 0 { NoPreviewFails(remote, calls + 1, n - 1); }
  }

  /** What is written back after the work is lost if it does not survive that. */
  lemma ReversalLoses(before: Zone, desired: seq<Record>, planned: seq<Item>, w: Work, j: nat, confirm: bool, remote: Remote, k: nat)
    requires Reached(before, desired, planned, w, j, confirm) && IndexesOk(w) && forall c :: w.calls <= c ==> !remote.fails(c)
    requires k < j && NeedsWrite(planned[k], confirm) && Loses(planned[k], confirm)
    ensures var (failed, w') := Reversal(w, |w.applied|, false, remote); !failed && w'.zone != before
  {
    StartsHalfway(before, desired, w, j, confirm);
    ReversalSucceeds(before, w, |w.applied|, remote);
    ReversalUndoes(before, w, remote);
    ReversalGoesHalfway(before, w, w, |w.applied|, false, remote);
    var w' := Reversal(w, |w.applied|, false, remote).1;
    AllReverted(before, w'.items, w'.applied, w'.zone);
    assert MadeFor(w.applied, 0, k);
    var m :| 0 <= m < |w'.applied| && w'.applied[m].index == k;
    assert w'.items[k].status.RolledBack? && w'.items[k].previous == planned[k].previous;
    assert !CanonicalIfReverted(w'.items[k]);
  }

  /**
    When a plan is at risk, there is a request whose failure makes the application report that it has
    rolled back, although a record has lost its priority.
   */
  lemma RollbackLosesPriority(zone: Zone, calls: nat, desired: seq<Record>, confirm: bool) returns (remote: Remote)
    requires AtRisk(zone, desired, confirm)
    ensures FreshIds(remote)
    ensures var (outcome, w) := Applying(zone, calls, desired, confirm, remote); outcome == RestoredAfterFailure && w.zone != zone
  {
    var planned := Planned(zone, desired);
    var k, j :| 0 <= k < j < |desired| && Loses(planned[k], confirm) && NeedsWrite(planned[j], confirm);
    remote := FreshRemote(LastCall(calls, desired, planned, j, confirm));
    NoPreviewFails(remote, calls, |desired|);
    var w := LosesAt(zone, calls, desired, confirm, k, j, remote);
  }

  /** The request that writes item j, when all before it succeed. */
  function LastCall(calls: nat, desired: seq<Record>, planned: seq<Item>, j: nat, confirm: bool): nat
    requires j < |planned| && NeedsWrite(planned[j], confirm)
  {
    calls + |desired| + RequestsBetween(planned, 0, j, confirm) + Requests(planned[j], confirm) - 1
  }

  /** The plan is carried out up to item j, and reverted. */
  lemma LosesAt(zone: Zone, calls: nat, desired: seq<Record>, confirm: bool, k: nat, j: nat, remote: Remote) returns (w: Work)
    requires k < j < |desired| && FreshIds(remote)
    requires var planned := Planned(zone, desired);
             && Loses(planned[k], confirm) && NeedsWrite(planned[j], confirm)
             && forall n :: remote.fails(n) <==> n == LastCall(calls, desired, planned, j, confirm)
    ensures Rest(zone, calls, desired, confirm, remote) == (WriteErred, w) && IndexesOk(w)
    ensures var (failed, w') := Reversal(w, |w.applied|, false, remote); !failed && w'.zone != zone
  {
    var planned, start := Planned(zone, desired), Work(zone, calls + |desired|, Planned(zone, desired), []);
    PlanIsReached(zone, desired, start, confirm);
    var v := RoundsReach(zone, desired, planned, start, j, confirm, remote);
    w := v.(calls := v.calls + Requests(planned[j], confirm));
    FailsThere(zone, desired, planned, v, j, confirm, remote);
    LosesThere(zone, desired, planned, v, w.calls, k, j, confirm, remote);
  }

  lemma PlanIsReached(zone: Zone, desired: seq<Record>, start: Work, confirm: bool)
    requires start.zone == zone && start.items == Planned(zone, desired) && start.applied == []
    ensures Reached(zone, desired, start.items, start, 0, confirm)
  {
    PlannedIsRight(zone, desired);
    PlannedIsOk(zone, desired, start, confirm);
  }

  lemma FailsThere(before: Zone, desired: seq<Record>, planned: seq<Item>, v: Work, j: nat, confirm: bool, remote: Remote)
    requires j < |planned| == |v.items| && Reached(before, desired, planned, v, j, confirm) && NeedsWrite(planned[j], confirm)
    requires forall n :: remote.fails(n) <==> n == v.calls + Requests(planned[j], confirm) - 1
    ensures Rounds(v, j, confirm, remote) == (WriteErred, v.(calls := v.calls + Requests(planned[j], confirm)))
  {
    WriteFails(before, desired, v, j, confirm, remote);
  }

  lemma LosesThere(before: Zone, desired: seq<Record>, planned: seq<Item>, v: Work, calls: nat, k: nat, j: nat, confirm: bool,
                   remote: Remote)
    requires k < j < |planned| && Reached(before, desired, planned, v, j, confirm) && Loses(planned[k], confirm)
    requires forall c :: calls <= c ==> !remote.fails(c)
    ensures var w := v.(calls := calls);
            && IndexesOk(w)
            && var (failed, w') := Reversal(w, |w.applied|, false, remote); !failed && w'.zone != before
  {
    CallsDoNotMatter(before, desired, planned, v, calls, j, confirm);
    ReversalLoses(before, desired, planned, v.(calls := calls), j, confirm, remote, k);
  }

  lemma CallsDoNotMatter(before: Zone, desired: seq<Record>, planned: seq<Item>, w: Work, calls: nat, j: nat, confirm: bool)
    requires Reached(before, desired, planned, w, j, confirm)
    ensures Reached(before, desired, planned, w.(calls := calls), j, confirm) && IndexesOk(w)
  {
  }

  /** A reported rollback restores the zone, whatever fails. */
  predicate RestoresIfRolledBack(zone: Zone, calls: nat, desired: seq<Record>, confirm: bool, remote: Remote) {
    var (outcome, w) := Applying(zone, calls, desired, confirm, remote); outcome.RestoredAfterFailure? ==> w.zone == zone
  }

  /**
    Exactly when a reported rollback can be relied on: unless the plan is to overwrite a record that
    does not survive being written back, and after that to write another one.
   */
  lemma RollbackRestoresIff(zone: Zone, calls: nat, desired: seq<Record>, confirm: bool)
    ensures !AtRisk(zone, desired, confirm)
            <==> forall remote :: FreshIds(remote) ==> RestoresIfRolledBack(zone, calls, desired, confirm, remote)
  {
    if AtRisk(zone, desired, confirm) {
      var remote := RollbackLosesPriority(zone, calls, desired, confirm);
      assert !RestoresIfRolledBack(zone, calls, desired, confirm, remote);
    } else {
      forall remote | FreshIds(remote)
        ensures RestoresIfRolledBack(zone, calls, desired, confirm, remote)
      {
        ApplyingIsRight(zone, calls, desired, confirm, remote);
      }
    }
  }

  /** Priorities are lost by records that are not MX records and have one. */
  lemma OnlyPrioritiesAreLost(r: Record)
    ensures Canonical(r) <==> r.kind == "MX" || r.priority == 0
    ensures Stored(r) == Record(r.kind, r.name, r.content, if r.kind == "MX" then r.priority else 0, r.proxied)
  {
  }

  /** A record with a priority that is not sent is overwritten, and a new record created after it. */
  lemma OverwritingIsRisky(r: Record, d: Record, other: Record)
    requires !Canonical(r) && SameKey(r, d) && !SameRecord(r, d) && !SameKey(d, other)
    ensures AtRisk(map[0 := r], [d, other], true)
    ensures !AtRisk(map[0 := r], [other, d], true) && !AtRisk(map[0 := r], [d], true)
  {
    var zone: Zone := map[0 := r];
    assert Listed(zone, d) == {0} && Listed(zone, other) == {};
    assert Planned(zone, [d, other]) == [Item(d, Differs, Some((0, r))), Item(other, Create, None)];
    assert Loses(Planned(zone, [d, other])[0], true) && NeedsWrite(Planned(zone, [d, other])[1], true);
    assert Planned(zone, [other, d]) == [Item(other, Create, None), Item(d, Differs, Some((0, r)))];
  }

  // ---------- the client ----------

  class CloudflareClient {
    var zone: Zone
    var calls: nat
    const remote: Remote

    constructor (zone: Zone, remote: Remote)
      ensures this.zone == zone && this.remote == remote && calls == 0
    {
      this.zone, this.remote, calls := zone, remote, 0;
    }

    method ListRecords(r: Record) returns (found: Option<set<Id>>)
      modifies this`calls
      ensures calls == old(calls) + 1
      ensures found == if remote.fails(old(calls)) then None else Some(Listed(zone, r))
    {
      found := if remote.fails(calls) then None else Some(Listed(zone, r));
      calls := calls + 1;
    }

    method WriteRecord(id: Id, r: Record) returns (ok: bool)
      modifies this
      ensures calls == old(calls) + 1 && ok == (!remote.fails(old(calls)) && id in old(zone))
      ensures zone == if ok then old(zone)[id := Stored(r)] else old(zone)
    {
      ok := !remote.fails(calls) && id in zone;
      calls := calls + 1;
      if ok { zone := zone[id := Stored(r)]; }
    }

    method CreateRecord(r: Record) returns (id: Option<Id>)
      modifies this
      ensures calls == old(calls) + 1
      ensures id == if remote.fails(old(calls)) then None else Some(remote.freshId(old(zone)))
      ensures zone == if id.Some? then old(zone)[id.value := Stored(r)] else old(zone)
    {
      id := if remote.fails(calls) then None else Some(remote.freshId(zone));
      calls := calls + 1;
      if id.Some? { zone := zone[id.value := Stored(r)]; }
    }

    method DeleteRecord(id: Id) returns (ok: bool)
      modifies this
      ensures calls == old(calls) + 1 && ok == (!remote.fails(old(calls)) && id in old(zone))
      ensures zone == if ok then old(zone) - {id} else old(zone)
    {
      ok := !remote.fails(calls) && id in zone;
      calls := calls + 1;
      if ok { zone := zone - {id}; }
    }

    /** None when a request fails; nothing is asked after that. */
    method Preview(desired: seq<Record>) returns (items: Option<seq<Item>>)
      modifies this`calls
      ensures var k := Successes(remote, old(calls), |desired|);
              && items == (if k == |desired| then Some(Planned(zone, desired)) else None)
              && calls == old(calls) + if k == |desired| then k else k + 1
      ensures items != None ==> TellsAll(zone, desired, items.value)
    {
      var plan: seq<Item> := [];
      for k := 0 to |desired|
        invariant |plan| == k && calls == old(calls) + k
        invariant forall j :: 0 <= j < k ==> plan[j] == PreviewOf(zone, desired[j], Listed(zone, desired[j]))
        invariant Successes(remote, old(calls), |desired|) == k + Successes(remote, calls, |desired| - k)
      {
        var existing := ListRecords(desired[k]);
        if existing == None { return None; }
        plan := plan + [PreviewOf(zone, desired[k], existing.value)];
      }
      assert plan == Planned(zone, desired);
      forall k | 0 <= k < |desired| ensures Tells(zone, desired[k], plan[k]) { PreviewTells(zone, desired[k]); }
      items := Some(plan);
    }

    /** Deletes a created record, or writes back an overwritten one. */
    method RevertChange(id: Id, previous: Option<(Id, Record)>) returns (ok: bool)
      modifies this
      ensures calls == old(calls) + 1 && ok == (!remote.fails(old(calls)) && id in old(zone))
      ensures zone == if ok then ZoneWithout(old(zone), id, previous) else old(zone)
    {
      match previous {
        case None => ok := DeleteRecord(id);
        case Some((_, r)) => ok := WriteRecord(id, r);
      }
    }

    method RollbackApply(items: seq<Item>, applied: seq<Change>) returns (marked: seq<Item>, failed: bool)
      requires IndexesOk(Work(zone, calls, items, applied))
      modifies this
      ensures (failed, Work(zone, calls, marked, applied))
              == Reversal(Work(old(zone), old(calls), items, applied), |applied|, false, remote)
    {
      marked, failed := items, false;
      var n := |applied|;
      while n > 0
        invariant 0 <= n <= |applied| && IndexesOk(Work(zone, calls, marked, applied))
        invariant Reversal(Work(zone, calls, marked, applied), n, failed, remote)
                  == Reversal(Work(old(zone), old(calls), items, applied), |applied|, false, remote)
      {
        n := n - 1;
        var c := applied[n];
        var ok := RevertChange(c.id, marked[c.index].previous);
        if !ok {
          failed := true;
          continue;
        }
        marked := marked[c.index := marked[c.index].(status := RolledBack)];
      }
    }

    /** One item of the plan. */
    method ApplyItem(items: seq<Item>, applied: seq<Change>, i: nat, confirm: bool)
      returns (turn: Turn, items': seq<Item>, applied': seq<Change>)
      requires i < |items|
      modifies this
      ensures (turn, Work(zone, calls, items', applied')) == Round(Work(old(zone), old(calls), items, applied), i, confirm, remote)
    {
      var item := items[i];
      turn, items', applied' := GoOn, items, applied;
      if item.status.Create? {
        var created := CreateRecord(item.record);
        if created == None { return WriteErred, items, applied; }
        items' := items[i := item.(status := Created)];
        applied' := applied + [Change(i, created.value)];
      } else if item.status.Differs? && confirm {
        var existing := ListRecords(item.record);
        if existing == None { return ListErred, items, applied; }
        if |existing.value| != 1 { return; }
        var id := Single(existing.value);
        var ok := WriteRecord(id, item.record);
        if !ok { return WriteErred, items, applied; }
        items' := items[i := item.(status := Updated)];
        applied' := applied + [Change(i, id)];
      }
    }

    /** The items of the plan, up to one at which a request fails. */
    method ApplyItems(plan: seq<Item>, confirm: bool) returns (turn: Turn, items: seq<Item>, applied: seq<Change>)
      modifies this
      ensures (turn, Work(zone, calls, items, applied)) == Rounds(Work(old(zone), old(calls), plan, []), 0, confirm, remote)
      ensures IndexesOk(Work(zone, calls, items, applied))
    {
      turn, items, applied := GoOn, plan, [];
      for i := 0 to |plan|
        invariant |items| == |plan| && turn.GoOn? && IndexesOk(Work(zone, calls, items, applied))
        invariant Rounds(Work(zone, calls, items, applied), i, confirm, remote)
                  == Rounds(Work(old(zone), old(calls), plan, []), 0, confirm, remote)
      {
        RoundKeepsIndexes(Work(zone, calls, items, applied), i, confirm, remote);
        turn, items, applied := ApplyItem(items, applied, i, confirm);
        if !turn.GoOn? { return; }
      }
    }

    method Apply(desired: seq<Record>, confirm: bool) returns (items: seq<Item>, outcome: Outcome)
      requires FreshIds(remote)
      modifies this
      ensures var r := Applying(old(zone), old(calls), desired, confirm, remote);
              outcome == r.0 && items == r.1.items && zone == r.1.zone && calls == r.1.calls
      ensures Accomplishes(old(zone), desired, confirm, outcome, items, zone)
    {
      ApplyingAccomplishes(zone, calls, desired, confirm, remote);
      var preview := Preview(desired);
      if preview == None { return [], PreviewFailed; }
      var turn: Turn, applied: seq<Change>;
      turn, items, applied := ApplyItems(preview.value, confirm);
      match turn {
        case GoOn => return items, Applied;
        case ListErred => return items, ListFailed;
        case WriteErred =>
          var failed: bool;
          items, failed := RollbackApply(items, applied);
          return items, if failed then NotRestored else RestoredAfterFailure;
      }
    }
  }
}
