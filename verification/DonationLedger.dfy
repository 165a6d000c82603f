/** What every sequence of committed donation transactions keeps. */
module DonationLedger {
  import opened Options
  import opened DonationModel

  // ---------- aggregates under change ----------

  lemma {:induction false} RewardsCongruent(a: seq<Donation>, b: seq<Donation>, n: nat, t: TokenId, l: Limit)
    requires n <= |a| && n <= |b|
    requires forall i :: 0 <= i < n ==> Contribution(a[i], t, l) == Contribution(b[i], t, l)
    ensures RewardsUpTo(a, n, t, l) == RewardsUpTo(b, n, t, l)
  {
    if n > 0 {
      RewardsCongruent(a, b, n - 1, t, l);
    }
  }

  lemma {:induction false} InertRewards(rows: seq<Donation>, m: nat, n: nat, t: TokenId, l: Limit)
    requires m <= n <= |rows|
    requires forall i :: m <= i < n ==> Contribution(rows[i], t, l) == 0
    ensures RewardsUpTo(rows, n, t, l) == RewardsUpTo(rows, m, t, l)
  {
    if m < n {
      InertRewards(rows, m, n - 1, t, l);
    }
  }

  lemma {:induction false} HeldDiffersAt(a: seq<Donation>, b: seq<Donation>, n: nat, t: TokenId, at: nat)
    requires n <= |a| && n <= |b|
    requires forall i :: 0 <= i < n && i != at ==> Holds(a[i], t) == Holds(b[i], t)
    ensures HeldUpTo(b, n, t) == HeldUpTo(a, n, t) + if at < n then Holds(b[at], t) - Holds(a[at], t) else 0
  {
    if n > 0 {
      HeldDiffersAt(a, b, n - 1, t, at);
    }
  }

  lemma {:induction false} DeltasCongruent(a: seq<Event>, b: seq<Event>, n: nat, which: Selection, l: Limit)
    requires n <= |a| && n <= |b|
    requires forall i :: 0 <= i < n ==> a[i] == b[i]
    ensures DeltasUpTo(a, n, which, l) == DeltasUpTo(b, n, which, l)
  {
    if n > 0 {
      DeltasCongruent(a, b, n - 1, which, l);
    }
  }

  lemma {:induction false} DeltasAppend(a: seq<Event>, b: seq<Event>, n: nat, which: Selection, l: Limit)
    requires n <= |b|
    ensures DeltasUpTo(a + b, |a| + n, which, l) == EventSum(a, which, l) + (DeltasUpTo(b, n, which, l))
  {
    if n == 0 {
      DeltasCongruent(a + b, a, |a|, which, l);
    } else {
      DeltasAppend(a, b, n - 1, which, l);
    }
  }

  /** Appending to the ledger adds what is appended. */
  lemma EventSumAppend(a: seq<Event>, b: seq<Event>, which: Selection, l: Limit)
    ensures EventSum(a + b, which, l) == EventSum(a, which, l) + (EventSum(b, which, l))
  {
    DeltasAppend(a, b, |b|, which, l);
  }

  lemma {:induction false} InertDeltas(events: seq<Event>, n: nat, which: Selection, l: Limit)
    requires n <= |events|
    requires forall k :: 0 <= k < n ==> Delta(events[k], which, l) == 0
    ensures DeltasUpTo(events, n, which, l) == 0
  {
    if n > 0 {
      InertDeltas(events, n - 1, which, l);
    }
  }

  // ---------- the tokens of a set of grants ----------

  predicate Ascending(ts: seq<TokenId>) {
    forall j, k :: 0 <= j < k < |ts| ==> ts[j] < ts[k]
  }

  lemma {:induction false} InsertIsSorted(t: TokenId, sorted: seq<TokenId>)
    requires Ascending(sorted)
    ensures Ascending(Insert(t, sorted))
    ensures forall u :: u in Insert(t, sorted) <==> u == t || u in sorted
  {
    if sorted != [] && sorted[0] < t {
      InsertIsSorted(t, sorted[1..]);
      var rest := Insert(t, sorted[1..]);
      assert forall k :: 0 <= k < |rest| ==> rest[k] in rest;
      assert sorted == [sorted[0]] + sorted[1..];
    }
  }

  /** Token locks are taken in one fixed order, and every granted row's token is among them. */
  lemma {:induction false} TokensOfIsSorted(grants: seq<Grant>)
    ensures Ascending(TokensOf(grants))
    ensures forall k :: 0 <= k < |grants| ==> grants[k].row.token in TokensOf(grants)
  {
    if grants != [] {
      var init := grants[..|grants| - 1];
      TokensOfIsSorted(init);
      InsertIsSorted(grants[|grants| - 1].row.token, TokensOf(init));
      forall k | 0 <= k < |grants|
        ensures grants[k].row.token in TokensOf(grants)
      {
        if k < |init| { assert init[k].row.token in TokensOf(init); }
      }
    }
  }

  /** No other token is locked. */
  lemma {:induction false} TokensOfIsGranted(grants: seq<Grant>, t: TokenId)
    requires t in TokensOf(grants)
    ensures exists k :: 0 <= k < |grants| && grants[k].row.token == t
  {
    var init := grants[..|grants| - 1];
    TokensOfIsSorted(init);
    InsertIsSorted(grants[|grants| - 1].row.token, TokensOf(init));
    if t == grants[|grants| - 1].row.token {
    } else {
      TokensOfIsGranted(init, t);
      var k :| 0 <= k < |init| && init[k].row.token == t;
      assert grants[k].row.token == t;
    }
  }

  // ---------- the shape of what a transaction writes ----------

  /** The grants are rows of the table, each at most once. */
  predicate GrantsMatch(db: Db, grants: seq<Grant>) {
    && (forall k :: 0 <= k < |grants| ==>
          grants[k].id < |db.donations| && grants[k].row == db.donations[grants[k].id])
    && (forall j, k :: 0 <= j < k < |grants| ==> DifferentRows(grants, j, k))
  }

  predicate DifferentRows(grants: seq<Grant>, j: nat, k: nat)
    requires j < |grants| && k < |grants|
  {
    grants[j].id != grants[k].id
  }

  predicate GrantsFit(op: Op, grants: seq<Grant>) {
    && (RowOp(op) ==> |grants| == 1 && grants[0].id == op.id)
    && (op.Create? || op.Adjust? ==> grants == [])
  }

  /** Changed rows keep token and domain, and they and the events belong to the given tokens. */
  predicate Confined(db: Db, w: Writes, ts: seq<TokenId>) {
    && (forall i :: i in w.rows ==>
          && i < |db.donations|
          && w.rows[i].token == db.donations[i].token
          && w.rows[i].domain == db.donations[i].domain
          && w.rows[i].token in ts)
    && (forall k :: 0 <= k < |w.events| ==> w.events[k].token in ts)
    && (forall k :: 0 <= k < |w.inserts| ==> !w.inserts[k].rewardActive)
  }

  predicate RowSound(row: Donation) {
    (row.rewardActive <==> row.status == Active) && PolicyReward(row.reward)
  }

  predicate EventSound(db: Db, e: Event) {
    && (e.kind == ManualAdjust <==> e.donation.None?)
    && (e.donation.Some? ==> e.donation.value < |db.donations| && db.donations[e.donation.value].token == e.token)
  }

  /** Every row that the bulk application changes comes from a grant. */
  lemma {:induction false} PolicyRowsGranted(grants: seq<Grant>, n: nat, reward: Vec, i: DonationId)
    requires n <= |grants| && i in PolicyRows(grants, n, reward)
    ensures exists k :: 0 <= k < n && grants[k].id == i
                        && PolicyRows(grants, n, reward)[i] == grants[k].row.(reward := reward)
  {
    if i == grants[n - 1].id {
    } else {
      PolicyRowsGranted(grants, n - 1, reward, i);
    }
  }

  /** And every granted row is changed. */
  lemma {:induction false} GrantIsUpdated(grants: seq<Grant>, n: nat, reward: Vec, k: nat)
    requires k < n <= |grants|
    ensures grants[k].id in PolicyRows(grants, n, reward)
  {
    if k < n - 1 { GrantIsUpdated(grants, n - 1, reward, k); }
  }

  /** Every changed row comes from a granted one and stays sound. */
  lemma ChangedRow(db: Db, op: Op, grants: seq<Grant>, i: DonationId)
    requires GrantsMatch(db, grants) && GrantsFit(op, grants)
    requires i in BodyWrites(op, grants).rows
    ensures var row := BodyWrites(op, grants).rows[i];
            && i < |db.donations|
            && row.token == db.donations[i].token && row.domain == db.donations[i].domain
            && row.token in TokensOf(grants)
            && (RowSound(db.donations[i]) && (op.ApplyPolicy? ==> PolicyReward(op.reward)) ==> RowSound(row))
  {
    TokensOfIsSorted(grants);
    if op.ApplyPolicy? {
      PolicyRowsGranted(grants, |grants|, op.reward, i);
      var k :| 0 <= k < |grants| && grants[k].id == i
               && BodyWrites(op, grants).rows[i] == grants[k].row.(reward := op.reward);
    }
  }

  /** Whatever the transaction, its writes stay inside the tokens that it recalculates. */
  lemma BodyShape(db: Db, op: Op, grants: seq<Grant>)
    requires GrantsMatch(db, grants) && GrantsFit(op, grants)
    ensures Confined(db, BodyWrites(op, grants), TokensToRecalculate(op, grants))
  {
    TokensOfIsSorted(grants);
    var w := BodyWrites(op, grants);
    forall i | i in w.rows
      ensures && i < |db.donations|
              && w.rows[i].token == db.donations[i].token
              && w.rows[i].domain == db.donations[i].domain
              && w.rows[i].token in TokensToRecalculate(op, grants)
    {
      ChangedRow(db, op, grants, i);
    }
  }

  /** Writes confined to some tokens leave the quota of every other token alone. */
  lemma PreClampFrame(db: Db, w: Writes, ts: seq<TokenId>, t: TokenId, l: Limit)
    requires Confined(db, w, ts) && t !in ts
    ensures ActiveSum(Overlay(db, w).donations, t, l) == ActiveSum(db.donations, t, l)
    ensures EventSum(Overlay(db, w).events, ManualOf(t), l) == EventSum(db.events, ManualOf(t), l)
  {
    var rows, n := Overlay(db, w).donations, |db.donations|;
    RewardsCongruent(rows, db.donations, n, t, l);
    InertRewards(rows, n, |rows|, t, l);
    EventSumAppend(db.events, w.events, ManualOf(t), l);
    InertDeltas(w.events, |w.events|, ManualOf(t), l);
  }

  // ---------- the quota equation ----------

  predicate RowsSound(db: Db) {
    forall i :: 0 <= i < |db.donations| ==>
      RowSound(db.donations[i]) && db.donations[i].token in db.tokens && db.donations[i].domain in db.domains
  }

  predicate SameDomain(db: Db, i: nat, j: nat)
    requires i < |db.donations| && j < |db.donations|
  {
    db.donations[i].domain == db.donations[j].domain
  }

  /** No domain is claimed twice. */
  predicate DomainsDistinct(db: Db) {
    forall i, j :: 0 <= i < j < |db.donations| ==> !SameDomain(db, i, j)
  }

  predicate EventsSound(db: Db) {
    forall k :: 0 <= k < |db.events| ==> EventSound(db, db.events[k]) && db.events[k].token in db.tokens
  }

  predicate WellFormed(db: Db) {
    RowsSound(db) && DomainsDistinct(db) && EventsSound(db)
  }

  /** Every stored quota is the clamped sum of active rewards and manual adjustments. */
  predicate QuotaExact(db: Db) {
    forall t :: t in db.tokens ==> db.tokens[t].quota == Effective(PreClamps(db, t), db.tokens[t].cap)
  }

  lemma DoShape(db: Db, c: Commit)
    requires Legal(db, c)
    ensures var grants := Grants(db, c.ids);
            GrantsMatch(db, grants) && GrantsFit(c.op, grants)
    ensures Do(db, c).donations == AfterBody(db, c).donations
    ensures Do(db, c).events == AfterBody(db, c).events
    ensures forall t :: t in Do(db, c).tokens <==>
              t in db.tokens || (c.op.Create? && c.op.isNew && t == c.op.token)
              || t in TokensToRecalculate(c.op, Grants(db, c.ids))
  {
    var grants := Grants(db, c.ids);
    forall j, k | 0 <= j < k < |grants|
      ensures DifferentRows(grants, j, k)
    {
      assert Differ(c.ids, j, k);
    }
  }

  lemma OverlayRowsSound(db: Db, w: Writes, r: Db)
    requires RowsSound(db) && r.donations == Overlay(db, w).donations
    requires forall t :: t in db.tokens ==> t in r.tokens
    requires forall d :: d in db.domains ==> d in r.domains
    requires forall i :: i in w.rows && i < |db.donations| ==>
               RowSound(w.rows[i]) && w.rows[i].token == db.donations[i].token && w.rows[i].domain == db.donations[i].domain
    requires forall k :: 0 <= k < |w.inserts| ==>
               RowSound(w.inserts[k]) && w.inserts[k].token in r.tokens && w.inserts[k].domain in r.domains
    ensures RowsSound(r)
  {
  }

  lemma DoKeepsRowsSound(db: Db, c: Commit)
    requires RowsSound(db) && Legal(db, c)
    ensures RowsSound(Do(db, c))
  {
    var grants := Grants(db, c.ids);
    var w := BodyWrites(c.op, grants);
    DoShape(db, c);
    forall i | i in w.rows
      ensures && i < |db.donations| && RowSound(w.rows[i])
              && w.rows[i].token == db.donations[i].token && w.rows[i].domain == db.donations[i].domain
    {
      ChangedRow(db, c.op, grants, i);
    }
    OverlayRowsSound(db, w, Do(db, c));
  }

  lemma OverlayDomainsDistinct(db: Db, w: Writes, r: Db)
    requires DomainsDistinct(db) && r.donations == Overlay(db, w).donations
    requires forall i :: i in w.rows && i < |db.donations| ==> w.rows[i].domain == db.donations[i].domain
    requires |w.inserts| <= 1 && (w.inserts != [] ==> !DomainClaimed(db, w.inserts[0].domain))
    ensures DomainsDistinct(r)
  {
    forall i, j | 0 <= i < j < |r.donations|
      ensures !SameDomain(r, i, j)
    {
      if j < |db.donations| { assert !SameDomain(db, i, j); }
    }
  }

  lemma DoKeepsDomainsDistinct(db: Db, c: Commit)
    requires DomainsDistinct(db) && Legal(db, c)
    ensures DomainsDistinct(Do(db, c))
  {
    var grants := Grants(db, c.ids);
    DoShape(db, c);
    BodyShape(db, c.op, grants);
    OverlayDomainsDistinct(db, BodyWrites(c.op, grants), Do(db, c));
  }

  lemma OverlayEventsSound(db: Db, w: Writes, r: Db)
    requires EventsSound(db) && r.donations == Overlay(db, w).donations && r.events == db.events + w.events
    requires forall t :: t in db.tokens ==> t in r.tokens
    requires forall i :: i in w.rows && i < |db.donations| ==> w.rows[i].token == db.donations[i].token
    requires forall k :: 0 <= k < |w.events| ==> EventSound(db, w.events[k]) && w.events[k].token in r.tokens
    ensures EventsSound(r)
  {
  }

  lemma DoKeepsEventsSound(db: Db, c: Commit)
    requires EventsSound(db) && Legal(db, c)
    ensures EventsSound(Do(db, c))
  {
    var grants := Grants(db, c.ids);
    var w := BodyWrites(c.op, grants);
    DoShape(db, c);
    BodyShape(db, c.op, grants);
    forall k | 0 <= k < |w.events|
      ensures EventSound(db, w.events[k])
    {
      NewEventsSound(db, c, k);
    }
    OverlayEventsSound(db, w, Do(db, c));
  }

  lemma NewEventsSound(db: Db, c: Commit, k: nat)
    requires Legal(db, c) && k < |BodyWrites(c.op, Grants(db, c.ids)).events|
    ensures EventSound(db, BodyWrites(c.op, Grants(db, c.ids)).events[k])
  {
  }

  lemma PreClampOutside(db: Db, c: Commit, t: TokenId)
    requires Legal(db, c) && t !in TokensToRecalculate(c.op, Grants(db, c.ids))
    ensures PreClamps(Do(db, c), t) == PreClamps(db, t)
  {
    var grants := Grants(db, c.ids);
    DoShape(db, c);
    BodyShape(db, c.op, grants);
    forall l
      ensures PreClamp(Do(db, c), t, l) == PreClamp(db, t, l)
    {
      PreClampFrame(db, BodyWrites(c.op, grants), TokensToRecalculate(c.op, grants), t, l);
    }
  }

  lemma NothingForUnknownToken(db: Db, t: TokenId)
    requires t !in db.tokens && RowsSound(db) && EventsSound(db)
    ensures PreClamps(db, t) == ZERO
  {
    UnknownTokenHasNothing(db, t, Rpm);
    UnknownTokenHasNothing(db, t, Daily);
    UnknownTokenHasNothing(db, t, Total);
  }

  lemma QuotaOutside(db: Db, c: Commit, t: TokenId)
    requires QuotaExact(db) && RowsSound(db) && EventsSound(db) && Legal(db, c)
    requires t in Do(db, c).tokens && t !in TokensToRecalculate(c.op, Grants(db, c.ids))
    ensures Do(db, c).tokens[t].quota == Effective(PreClamps(db, t), Do(db, c).tokens[t].cap)
  {
    DoShape(db, c);
    if t !in db.tokens { NothingForUnknownToken(db, t); }
  }

  lemma DoKeepsQuotaExact(db: Db, c: Commit)
    requires QuotaExact(db) && RowsSound(db) && EventsSound(db) && Legal(db, c)
    ensures QuotaExact(Do(db, c))
  {
    var r, ts := Do(db, c), TokensToRecalculate(c.op, Grants(db, c.ids));
    forall t | t in r.tokens
      ensures r.tokens[t].quota == Effective(PreClamps(r, t), r.tokens[t].cap)
    {
      if t in ts {
        SameTables(r, AfterBody(db, c), t);
      } else {
        PreClampOutside(db, c, t);
        QuotaOutside(db, c, t);
      }
    }
  }

  lemma SameTables(a: Db, b: Db, t: TokenId)
    requires a.donations == b.donations && a.events == b.events
    ensures PreClamps(a, t) == PreClamps(b, t)
  {
  }

  lemma UnknownTokenHasNothing(db: Db, t: TokenId, l: Limit)
    requires t !in db.tokens
    requires RowsSound(db) && EventsSound(db)
    ensures PreClamp(db, t, l) == 0
  {
    InertDeltas(db.events, |db.events|, ManualOf(t), l);
    InertRewards(db.donations, 0, |db.donations|, t, l);
  }

  /**
    After every sequence of committed transactions, each token's stored quota is the clamped
    sum of its active rewards and manual adjustments, with the rpm cap last read.
   */
  lemma {:induction false} ReplayKeepsQuota(log: seq<Commit>)
    requires Replay(log).Some?
    ensures WellFormed(Replay(log).value) && QuotaExact(Replay(log).value)
  {
    if log != [] {
      ReplayKeepsQuota(log[..|log| - 1]);
      var db := Replay(log[..|log| - 1]).value;
      DoKeepsRowsSound(db, log[|log| - 1]);
      DoKeepsDomainsDistinct(db, log[|log| - 1]);
      DoKeepsEventsSound(db, log[|log| - 1]);
      DoKeepsQuotaExact(db, log[|log| - 1]);
    }
  }

  // ---------- the event ledger ----------

  /** What the donation currently contributes to its token. */
  function Current(row: Donation, l: Limit): int {
    if row.rewardActive then row.reward.Get(l) else 0
  }

  /** By how much the donation's ledger exceeds what it currently contributes. */
  function Drift(db: Db, id: DonationId, l: Limit): int
    requires id < |db.donations|
  {
    EventSum(db.events, OfDonation(id), l) - Current(db.donations[id], l)
  }

  /** Every donation's events sum to its reward when it is active, and to zero otherwise. */
  predicate LedgerExact(db: Db) {
    forall id, l :: 0 <= id < |db.donations| ==> Drift(db, id, l) == 0
  }

  /** The one transaction that changes a contribution without recording an event. */
  predicate RestoresActive(db: Db, c: Commit)
    requires IdsOk(db, c)
  {
    c.op.Unrevoke? && db.donations[c.ids[0]].rewardActive
  }

  lemma {:induction false} PolicyDeltas(grants: seq<Grant>, n: nat, reward: Vec, id: DonationId, l: Limit)
    requires n <= |grants|
    requires forall j, k :: 0 <= j < k < |grants| ==> DifferentRows(grants, j, k)
    ensures id !in PolicyRows(grants, n, reward) ==>
              DeltasUpTo(PolicyEvents(grants, reward), n, OfDonation(id), l) == 0
    ensures id in PolicyRows(grants, n, reward) ==>
              exists k :: 0 <= k < n && grants[k].id == id
                && PolicyRows(grants, n, reward)[id] == grants[k].row.(reward := reward)
                && DeltasUpTo(PolicyEvents(grants, reward), n, OfDonation(id), l)
                   == PolicyEvent(grants[k], reward).delta.Get(l)
  {
    if n > 0 {
      PolicyDeltas(grants, n - 1, reward, id, l);
      var rows, last := PolicyRows(grants, n - 1, reward), grants[n - 1];
      forall k | 0 <= k < n - 1
        ensures grants[k].id != last.id
      {
        assert DifferentRows(grants, k, n - 1);
      }
      if id in rows { PolicyRowsGranted(grants, n - 1, reward, id); }
    }
  }

  lemma LedgerOfSingle(events: seq<Event>, id: DonationId, l: Limit)
    requires |events| <= 1
    ensures EventSum(events, OfDonation(id), l) == if events == [] then 0 else Delta(events[0], OfDonation(id), l)
  {
    if events != [] {
      assert DeltasUpTo(events, 0, OfDonation(id), l) == 0;
    }
  }

  /** What the body writes about a donation: the row's contribution moves by what the events record. */
  lemma BodyLedger(op: Op, grants: seq<Grant>, id: DonationId, row: Donation, l: Limit)
    requires GrantsFit(op, grants)
    requires forall j, k :: 0 <= j < k < |grants| ==> DifferentRows(grants, j, k)
    requires forall k :: 0 <= k < |grants| && grants[k].id == id ==> grants[k].row == row
    ensures var w := BodyWrites(op, grants);
            EventSum(w.events, OfDonation(id), l)
            == (if id in w.rows then Current(w.rows[id], l) - Current(row, l) else 0)
               + if op.Unrevoke? && id == grants[0].id && row.rewardActive then row.reward.Get(l) else 0
  {
    var w := BodyWrites(op, grants);
    if op.ApplyPolicy? {
      PolicyDeltas(grants, |grants|, op.reward, id, l);
    } else {
      LedgerOfSingle(w.events, id, l);
    }
  }

  /** A commit changes a donation's ledger by exactly what it changes its contribution, with one exception. */
  lemma LedgerStep(db: Db, c: Commit, id: DonationId, l: Limit)
    requires Legal(db, c) && id < |db.donations|
    ensures Drift(Do(db, c), id, l)
            == Drift(db, id, l) + if RestoresActive(db, c) && id == c.ids[0] then db.donations[id].reward.Get(l) else 0
  {
    var grants := Grants(db, c.ids);
    DoShape(db, c);
    BodyLedger(c.op, grants, id, db.donations[id], l);
    EventSumAppend(db.events, BodyWrites(c.op, grants).events, OfDonation(id), l);
  }

  lemma NewDonationHasNoEvents(db: Db, c: Commit, l: Limit)
    requires Legal(db, c) && EventsSound(db) && c.op.Create?
    ensures Drift(Do(db, c), |db.donations|, l) == 0
  {
    DoShape(db, c);
    assert Do(db, c).events == db.events;
    InertDeltas(db.events, |db.events|, OfDonation(|db.donations|), l);
  }

  /** No transaction in the log restored a donation whose reward was still active. */
  predicate GuardedLog(log: seq<Commit>)
    requires Replay(log).Some?
  {
    log == [] || (var prefix := log[..|log| - 1];
                  GuardedLog(prefix) && !RestoresActive(Replay(prefix).value, log[|log| - 1]))
  }

  /** What one more commit adds to a donation's drift. */
  function DriftAdded(db: Db, c: Commit, id: DonationId, l: Limit): int
    requires Legal(db, c)
  {
    if id < |db.donations| && RestoresActive(db, c) && id == c.ids[0] then db.donations[id].reward.Get(l) else 0
  }

  lemma DriftStep(db: Db, c: Commit, id: DonationId, l: Limit)
    requires Legal(db, c) && EventsSound(db) && id < |Do(db, c).donations|
    ensures Drift(Do(db, c), id, l) == (if id < |db.donations| then Drift(db, id, l) else 0) + DriftAdded(db, c, id, l)
  {
    if id < |db.donations| {
      LedgerStep(db, c, id, l);
    } else {
      NewDonationHasNoEvents(db, c, l);
    }
  }

  /** A donation's ledger never falls behind its contribution. */
  lemma {:induction false} DriftNeverShrinks(log: seq<Commit>, id: DonationId, l: Limit)
    requires Replay(log).Some? && id < |Replay(log).value.donations|
    ensures Drift(Replay(log).value, id, l) >= 0
    ensures GuardedLog(log) ==> Drift(Replay(log).value, id, l) == 0
  {
    var prefix, c := log[..|log| - 1], log[|log| - 1];
    var db := Replay(prefix).value;
    ReplayKeepsQuota(prefix);
    DriftStep(db, c, id, l);
    if id < |db.donations| {
      DriftNeverShrinks(prefix, id, l);
      assert RowSound(db.donations[id]);
    }
  }

  /** Once a restore was unguarded, some donation's ledger stays ahead of its contribution for good. */
  lemma {:induction false} UnguardedRestoreDrifts(log: seq<Commit>) returns (id: DonationId)
    requires Replay(log).Some? && !GuardedLog(log)
    ensures id < |Replay(log).value.donations| && Drift(Replay(log).value, id, Rpm) > 0
  {
    var prefix, c := log[..|log| - 1], log[|log| - 1];
    var db := Replay(prefix).value;
    ReplayKeepsQuota(prefix);
    if !GuardedLog(prefix) {
      id := UnguardedRestoreDrifts(prefix);
    } else {
      id := c.ids[0];
      DriftNeverShrinks(prefix, id, Rpm);
    }
    DriftStep(db, c, id, Rpm);
    assert RowSound(db.donations[id]);
  }

  /**
    The ledger equals the current rewards after a run exactly when no restore in the run was
    applied to a donation that was still active; the caller's check that the donation is
    revoked is what rules that out.
   */
  lemma LedgerExactIffGuarded(log: seq<Commit>)
    requires Replay(log).Some?
    ensures LedgerExact(Replay(log).value) <==> GuardedLog(log)
  {
    if GuardedLog(log) {
      forall id, l | 0 <= id < |Replay(log).value.donations|
        ensures Drift(Replay(log).value, id, l) == 0
      {
        DriftNeverShrinks(log, id, l);
      }
    } else {
      var id := UnguardedRestoreDrifts(log);
      assert Drift(Replay(log).value, id, Rpm) != 0;
    }
  }

  /** The donations' ledgers, over the first n rows of the token and the first m events. */
  function LedgersUpTo(rows: seq<Donation>, n: nat, events: seq<Event>, m: nat, t: TokenId, l: Limit): int
    requires n <= |rows| && m <= |events|
  {
    if n == 0 then 0
    else LedgersUpTo(rows, n - 1, events, m, t, l)
         + if rows[n - 1].token == t then DeltasUpTo(events, m, OfDonation(n - 1), l) else 0
  }

  lemma {:induction false} LedgersOfNoEvents(rows: seq<Donation>, n: nat, events: seq<Event>, t: TokenId, l: Limit)
    requires n <= |rows|
    ensures LedgersUpTo(rows, n, events, 0, t, l) == 0
  {
    if n > 0 {
      LedgersOfNoEvents(rows, n - 1, events, t, l);
    }
  }

  /** One more event counts in the ledger of the one donation that it names. */
  lemma {:induction false} LedgersAddEvent(rows: seq<Donation>, n: nat, events: seq<Event>, m: nat, t: TokenId, l: Limit)
    requires n <= |rows| && 0 < m <= |events|
    ensures var e := events[m - 1];
            LedgersUpTo(rows, n, events, m, t, l)
            == LedgersUpTo(rows, n, events, m - 1, t, l)
               + if e.donation.Some? && e.donation.value < n && rows[e.donation.value].token == t then e.delta.Get(l) else 0
  {
    if n > 0 {
      LedgersAddEvent(rows, n - 1, events, m, t, l);
    }
  }

  /** Summed over a token's donations, and with its manual adjustments, the ledgers are the token's whole ledger. */
  lemma {:induction false} LedgersSplit(db: Db, m: nat, t: TokenId, l: Limit)
    requires EventsSound(db) && m <= |db.events|
    ensures LedgersUpTo(db.donations, |db.donations|, db.events, m, t, l) + DeltasUpTo(db.events, m, ManualOf(t), l)
            == DeltasUpTo(db.events, m, OfToken(t), l)
  {
    if m == 0 {
      LedgersOfNoEvents(db.donations, |db.donations|, db.events, t, l);
    } else {
      LedgersSplit(db, m - 1, t, l);
      LedgersAddEvent(db.donations, |db.donations|, db.events, m, t, l);
      assert EventSound(db, db.events[m - 1]);
    }
  }

  lemma {:induction false} ExactLedgersAreRewards(db: Db, n: nat, t: TokenId, l: Limit)
    requires LedgerExact(db) && n <= |db.donations|
    ensures LedgersUpTo(db.donations, n, db.events, |db.events|, t, l) == RewardsUpTo(db.donations, n, t, l)
  {
    if n > 0 {
      ExactLedgersAreRewards(db, n - 1, t, l);
      assert Drift(db, n - 1, l) == 0;
    }
  }

  /**
    After a guarded run, the quota of every token before clamping, which is recomputed from
    the donation rows, equals the sum of the token's whole event ledger.
   */
  lemma TokenLedgerIsQuota(log: seq<Commit>, t: TokenId, l: Limit)
    requires Replay(log).Some? && GuardedLog(log)
    ensures var db := Replay(log).value;
            PreClamp(db, t, l) == EventSum(db.events, OfToken(t), l)
  {
    var db := Replay(log).value;
    ReplayKeepsQuota(log);
    LedgerExactIffGuarded(log);
    LedgersSplit(db, |db.events|, t, l);
    ExactLedgersAreRewards(db, |db.donations|, t, l);
  }

  // ---------- the domain limit ----------

  /** The restores of revoked donations of the token in the log. */
  function Restores(log: seq<Commit>, t: TokenId): nat
    requires Replay(log).Some?
  {
    if log == [] then 0
    else
      var prefix, c := log[..|log| - 1], log[|log| - 1];
      Restores(prefix, t) + if RestoresRevoked(Replay(prefix).value, c, t) then 1 else 0
  }

  predicate RestoresRevoked(db: Db, c: Commit, t: TokenId)
    requires IdsOk(db, c)
  {
    c.op.Unrevoke? && db.donations[c.ids[0]].token == t && db.donations[c.ids[0]].status == Revoked
  }

  predicate CreatesFor(c: Commit, t: TokenId) {
    c.op.Create? && c.op.token == t
  }

  lemma PolicyKeepsHolds(db: Db, c: Commit, t: TokenId, i: nat)
    requires Legal(db, c) && i < |db.donations| && !RowOp(c.op)
    ensures Holds(Do(db, c).donations[i], t) == Holds(db.donations[i], t)
  {
    var grants := Grants(db, c.ids);
    DoShape(db, c);
    if c.op.ApplyPolicy? && i in BodyWrites(c.op, grants).rows {
      PolicyRowsGranted(grants, |grants|, c.op.reward, i);
    }
  }

  /** Only a creation and a restore can raise a token's count of held donations, by one. */
  lemma HeldStep(db: Db, c: Commit, t: TokenId)
    requires Legal(db, c)
    ensures HeldCount(Do(db, c).donations, t)
            <= HeldCount(db.donations, t) + (if CreatesFor(c, t) then 1 else 0)
               + if RestoresRevoked(db, c, t) then 1 else 0
  {
    DoShape(db, c);
    if RowOp(c.op) { RowHeldStep(db, c, t); } else { OtherHeldStep(db, c, t); }
  }

  lemma RowHeldStep(db: Db, c: Commit, t: TokenId)
    requires Legal(db, c) && RowOp(c.op)
    ensures HeldCount(Do(db, c).donations, t)
            <= HeldCount(db.donations, t) + if RestoresRevoked(db, c, t) then 1 else 0
  {
    DoShape(db, c);
    HeldDiffersAt(db.donations, Do(db, c).donations, |db.donations|, t, c.ids[0]);
  }

  lemma OtherHeldStep(db: Db, c: Commit, t: TokenId)
    requires Legal(db, c) && !RowOp(c.op)
    ensures HeldCount(Do(db, c).donations, t) == HeldCount(db.donations, t) + if CreatesFor(c, t) then 1 else 0
  {
    var n, r := |db.donations|, Do(db, c);
    DoShape(db, c);
    forall i | 0 <= i < n
      ensures Holds(r.donations[i], t) == Holds(db.donations[i], t)
    {
      PolicyKeepsHolds(db, c, t, i);
    }
    HeldDiffersAt(db.donations, r.donations, n, t, n);
  }

  /** With a fixed limit, only restores can carry a token's held donations past it, one each. */
  lemma {:induction false} HeldWithinLimit(log: seq<Commit>, t: TokenId, limit: nat)
    requires Replay(log).Some?
    requires forall k :: 0 <= k < |log| && log[k].op.Create? ==> log[k].op.maxDomains <= limit
    ensures HeldCount(Replay(log).value.donations, t) <= limit + Restores(log, t)
  {
    if log != [] {
      var prefix, c := log[..|log| - 1], log[|log| - 1];
      assert forall k :: 0 <= k < |prefix| ==> prefix[k] == log[k];
      HeldWithinLimit(prefix, t, limit);
      HeldStep(Replay(prefix).value, c, t);
    }
  }
}
