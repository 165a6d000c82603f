/** The donation transactions as the store executes them, one at a time, on its tables. */
module DonationStore {
  import opened Options
  import opened DonationModel
  import opened DonationLedger

  /** The commit of a transaction that read the cap caps(t) when it recalculated token t. */
  function Committed(db: Db, op: Op, ids: seq<DonationId>, caps: TokenId -> int): Commit
    requires forall k :: 0 <= k < |ids| ==> ids[k] < |db.donations|
  {
    Commit(op, ids, map t | t in TokensToRecalculate(op, Grants(db, ids)) :: caps(t))
  }

  /** The rows below n that are not revoked, in table order. */
  function NotRevoked(rows: seq<Donation>, n: nat): (ids: seq<DonationId>)
    requires n <= |rows|
    ensures forall k :: 0 <= k < |ids| ==> ids[k] < n && rows[ids[k]].status != Revoked
    ensures forall i :: 0 <= i < n && rows[i].status != Revoked ==> i in ids
  {
    if n == 0 then []
    else if rows[n - 1].status == Revoked then NotRevoked(rows, n - 1)
    else NotRevoked(rows, n - 1) + [n - 1]
  }

  lemma {:induction false} NotRevokedDiffer(rows: seq<Donation>, n: nat)
    requires n <= |rows|
    ensures forall j, k :: 0 <= j < k < |NotRevoked(rows, n)| ==> Differ(NotRevoked(rows, n), j, k)
  {
    if n > 0 {
      NotRevokedDiffer(rows, n - 1);
      var before, ids := NotRevoked(rows, n - 1), NotRevoked(rows, n);
      forall j, k | 0 <= j < k < |ids|
        ensures Differ(ids, j, k)
      {
        if k < |before| { assert Differ(before, j, k); }
      }
    }
  }

  // ---------- what Legal and Do amount to, operation by operation ----------

  lemma CreateIsDo(db: Db, op: Op)
    requires op.Create?
    ensures var c := Commit(op, [], map[]);
            && (Legal(db, c) <==>
                  && op.domain != ""
                  && (op.isNew <==> op.token !in db.tokens) && HeldCount(db.donations, op.token) < op.maxDomains
                  && DomainFree(db, op.domain) && PolicyReward(op.reward) && Fits(op.reward))
            && (Legal(db, c) ==>
                  Do(db, c) == Db(db.donations + [Donation(op.domain, op.token, Pending, false, op.reward, 0)],
                                  if op.isNew then db.tokens[op.token := Token(ZERO, 0)] else db.tokens,
                                  db.events, db.domains[op.domain := true]))
  {
    var c := Commit(op, [], map[]);
    if Legal(db, c) {
      var after := AfterBody(db, c);
      assert after.donations == db.donations + [Donation(op.domain, op.token, Pending, false, op.reward, 0)];
      assert after.events == db.events;
    }
  }

  /** One token is recalculated: the commit is the body's writes plus that quota. */
  lemma SingleTokenIsDo(db: Db, c: Commit, t: TokenId, cap: int, after: Db)
    requires IdsOk(db, c) && TokensToRecalculate(c.op, Grants(db, c.ids)) == [t] && c.caps == map[t := cap]
    requires after == AfterBody(db, c)
    ensures Legal(db, c) <==> Guard(db, c) && Fits(Recalculated(after, t, cap).quota)
    ensures Legal(db, c) ==> Do(db, c) == after.(tokens := after.tokens[t := Recalculated(after, t, cap)])
  {
    OneToken(after, t, c.caps);
  }

  lemma OneToken(db: Db, t: TokenId, caps: map<TokenId, int>)
    requires t in caps
    ensures t in [t] && (map u | u in [t] :: Recalculated(db, u, caps[t])) == map[t := Recalculated(db, t, caps[t])]
    ensures forall u :: u in [t] ==> u == t
  {
    assert t in [t];
  }

  function RowAfter(db: Db, op: Op): Db
    requires RowOp(op) && op.id < |db.donations|
  {
    var row := db.donations[op.id];
    Db(db.donations[op.id := NewRow(op, row)], db.tokens, db.events + RowEvents(op, Grant(op.id, row)), db.domains)
  }

  lemma RowIsDo(db: Db, op: Op, caps: TokenId -> int)
    requires RowOp(op) && op.id < |db.donations|
    ensures var c, t, after := Committed(db, op, [op.id], caps), db.donations[op.id].token, RowAfter(db, op);
            && (Legal(db, c) <==> !(op.Verify? && db.donations[op.id].status == Revoked)
                                  && Fits(Recalculated(after, t, caps(t)).quota))
            && (Legal(db, c) ==> Do(db, c) == after.(tokens := after.tokens[t := Recalculated(after, t, caps(t))]))
  {
    var c, t, grants := Committed(db, op, [op.id], caps), db.donations[op.id].token, Grants(db, [op.id]);
    assert grants[..0] == [] && TokensOf([]) == [];
    assert TokensOf(grants) == [t];
    assert AfterBody(db, c) == RowAfter(db, op);
    SingleTokenIsDo(db, c, t, caps(t), RowAfter(db, op));
  }

  lemma AdjustIsDo(db: Db, op: Op, caps: TokenId -> int)
    requires op.Adjust?
    ensures var c := Committed(db, op, [], caps);
            var after := db.(events := db.events + [Event(op.token, None, ManualAdjust, op.delta)]);
            && (Legal(db, c) <==> op.token in db.tokens && AdjustmentInRange(op.delta)
                                  && Fits(Recalculated(after, op.token, caps(op.token)).quota))
            && (Legal(db, c) ==> Do(db, c) == after.(tokens := after.tokens[op.token := Recalculated(after, op.token, caps(op.token))]))
  {
    var c := Committed(db, op, [], caps);
    var after := db.(events := db.events + [Event(op.token, None, ManualAdjust, op.delta)]);
    assert AfterBody(db, c) == after;
    SingleTokenIsDo(db, c, op.token, caps(op.token), after);
  }

  /** The bulk application after its row updates. */
  function PolicyAfter(db: Db, grants: seq<Grant>, reward: Vec): Db {
    Overlay(db, NO_WRITES.(rows := PolicyRows(grants, |grants|, reward), events := PolicyEvents(grants, reward)))
  }

  lemma PolicyLegal(db: Db, reward: Vec, ids: seq<DonationId>, caps: TokenId -> int)
    requires PolicyReward(reward)
    requires forall k :: 0 <= k < |ids| ==> ids[k] < |db.donations| && db.donations[ids[k]].status != Revoked
    requires forall j, k :: 0 <= j < k < |ids| ==> Differ(ids, j, k)
    ensures var c, grants := Committed(db, ApplyPolicy(reward), ids, caps), Grants(db, ids);
            && IdsOk(db, c) && AfterBody(db, c) == PolicyAfter(db, grants, reward)
            && (Legal(db, c) <==> (grants != [] ==> Fits(reward))
                                  && AllFit(AfterBody(db, c), TokensOf(grants), |TokensOf(grants)|, caps))
  {
    var c, grants := Committed(db, ApplyPolicy(reward), ids, caps), Grants(db, ids);
    var after, ts := AfterBody(db, c), TokensOf(grants);
    assert Guard(db, c) <==> (ids != [] ==> Fits(reward));
    AllFitIsForAll(after, ts, caps);
  }

  lemma AllFitIsForAll(db: Db, ts: seq<TokenId>, caps: TokenId -> int)
    ensures AllFit(db, ts, |ts|, caps) <==> forall t :: t in ts ==> Fits(Recalculated(db, t, caps(t)).quota)
  {
    if AllFit(db, ts, |ts|, caps) {
      forall t | t in ts
        ensures Fits(Recalculated(db, t, caps(t)).quota)
      {
        var j :| 0 <= j < |ts| && ts[j] == t;
      }
    }
  }

  lemma StoredIsDo(db: Db, c: Commit, caps: TokenId -> int)
    requires Legal(db, c)
    requires forall t :: t in TokensToRecalculate(c.op, Grants(db, c.ids)) ==> t in c.caps && c.caps[t] == caps(t)
    ensures var after, ts := AfterBody(db, c), TokensToRecalculate(c.op, Grants(db, c.ids));
            Do(db, c) == after.(tokens := Stored(after, ts, |ts|, caps))
  {
    var after, ts := AfterBody(db, c), TokensToRecalculate(c.op, Grants(db, c.ids));
    AssignedIsAll(after.tokens, ts, |ts|, QuotaWith(after, caps));
    assert ts[..|ts|] == ts;
    SameCaps(after, ts, c.caps, caps);
  }

  lemma SameCaps(db: Db, ts: seq<TokenId>, read: map<TokenId, int>, caps: TokenId -> int)
    requires forall t :: t in ts ==> t in read && read[t] == caps(t)
    ensures (map t | t in ts :: Recalculated(db, t, read[t])) == map t | t in ts :: QuotaWith(db, caps)(t)
  {
  }

  lemma PolicyIsDo(db: Db, reward: Vec, ids: seq<DonationId>, caps: TokenId -> int)
    requires PolicyReward(reward)
    requires forall k :: 0 <= k < |ids| ==> ids[k] < |db.donations| && db.donations[ids[k]].status != Revoked
    requires forall j, k :: 0 <= j < k < |ids| ==> Differ(ids, j, k)
    ensures var c, grants := Committed(db, ApplyPolicy(reward), ids, caps), Grants(db, ids);
            var after, ts := PolicyAfter(db, grants, reward), TokensOf(grants);
            && (Legal(db, c) <==> (grants != [] ==> Fits(reward)) && AllFit(after, ts, |ts|, caps))
            && (Legal(db, c) ==> Do(db, c) == after.(tokens := Stored(after, ts, |ts|, caps)))
  {
    var c := Committed(db, ApplyPolicy(reward), ids, caps);
    PolicyLegal(db, reward, ids, caps);
    if Legal(db, c) { StoredIsDo(db, c, caps); }
  }

  /** What the bulk application of the class below commits. */
  function PolicyCommit(db: Db, reward: Vec, caps: TokenId -> int): Commit {
    Committed(db, ApplyPolicy(reward), NotRevoked(db.donations, |db.donations|), caps)
  }

  lemma PolicyOnAllRows(db: Db, reward: Vec, caps: TokenId -> int)
    requires PolicyReward(reward)
    ensures var c, grants := PolicyCommit(db, reward, caps), Grants(db, NotRevoked(db.donations, |db.donations|));
            var after, ts := PolicyAfter(db, grants, reward), TokensOf(grants);
            && (Legal(db, c) <==> (grants != [] ==> Fits(reward)) && AllFit(after, ts, |ts|, caps))
            && (Legal(db, c) ==> Do(db, c) == after.(tokens := Stored(after, ts, |ts|, caps)))
  {
    NotRevokedDiffer(db.donations, |db.donations|);
    PolicyIsDo(db, reward, NotRevoked(db.donations, |db.donations|), caps);
  }

  /** The first n tokens with the quotas that they are given. */
  function Assigned(tokens: map<TokenId, Token>, ts: seq<TokenId>, n: nat, quota: TokenId -> Token): map<TokenId, Token>
    requires n <= |ts|
  {
    if n == 0 then tokens else Assigned(tokens, ts, n - 1, quota)[ts[n - 1] := quota(ts[n - 1])]
  }

  lemma {:induction false} AssignedIsAll(tokens: map<TokenId, Token>, ts: seq<TokenId>, n: nat, quota: TokenId -> Token)
    requires n <= |ts|
    ensures Assigned(tokens, ts, n, quota) == tokens + map t | t in ts[..n] :: quota(t)
  {
    if n > 0 {
      AssignedIsAll(tokens, ts, n - 1, quota);
      assert ts[..n] == ts[..n - 1] + [ts[n - 1]];
    }
  }

  function QuotaWith(db: Db, caps: TokenId -> int): TokenId -> Token {
    (t: TokenId) => Recalculated(db, t, caps(t))
  }

  /** The quotas of the first n tokens recalculated and stored. */
  function Stored(db: Db, ts: seq<TokenId>, n: nat, caps: TokenId -> int): map<TokenId, Token>
    requires n <= |ts|
  {
    Assigned(db.tokens, ts, n, QuotaWith(db, caps))
  }

  predicate AllFit(db: Db, ts: seq<TokenId>, n: nat, caps: TokenId -> int)
    requires n <= |ts|
  {
    forall j :: 0 <= j < n ==> Fits(Recalculated(db, ts[j], caps(ts[j])).quota)
  }

  predicate KeysHold(db: Db) {
    forall i :: 0 <= i < |db.donations| ==> db.donations[i].token in db.tokens
  }

  lemma DoKeepsKeys(db: Db, c: Commit)
    requires KeysHold(db) && Legal(db, c)
    ensures KeysHold(Do(db, c))
  {
    DoShape(db, c);
    BodyShape(db, c.op, Grants(db, c.ids));
  }

  // ---------- what the methods promise, spelled out ----------

  /** The token's donations that count against its limit. */
  ghost function HeldBy(rows: seq<Donation>, n: nat, t: TokenId): set<DonationId>
    requires n <= |rows|
  {
    set i: DonationId | i < n && rows[i].token == t && rows[i].status != Revoked
  }

  lemma {:induction false} HeldIsCardinality(rows: seq<Donation>, n: nat, t: TokenId)
    requires n <= |rows|
    ensures HeldUpTo(rows, n, t) == |HeldBy(rows, n, t)|
  {
    if n > 0 {
      HeldIsCardinality(rows, n - 1, t);
      var before, last := HeldBy(rows, n - 1, t), n - 1;
      assert HeldBy(rows, n, t) == if rows[last].token == t && rows[last].status != Revoked then before + {last} else before;
    }
  }

  /** The quota of the given sums: none below zero, and rpm at most the cap if there is one. */
  predicate IsQuota(q: Vec, rpm: int, daily: int, total: int, cap: int) {
    && (0 < cap && cap < rpm ==> q.rpm == cap) && (!(0 < cap && cap < rpm) ==> q.rpm == if rpm < 0 then 0 else rpm)
    && q.daily == (if daily < 0 then 0 else daily) && q.total == if total < 0 then 0 else total
  }

  predicate TokenIsRight(db: Db, t: TokenId, cap: int) {
    && t in db.tokens && db.tokens[t].cap == cap
    && IsQuota(db.tokens[t].quota,
               ActiveSum(db.donations, t, Rpm) + EventSum(db.events, ManualOf(t), Rpm),
               ActiveSum(db.donations, t, Daily) + EventSum(db.events, ManualOf(t), Daily),
               ActiveSum(db.donations, t, Total) + EventSum(db.events, ManualOf(t), Total), cap)
    && db.tokens[t].quota.rpm <= 0x7FFF_FFFF && db.tokens[t].quota.daily <= 0x7FFF_FFFF
    && db.tokens[t].quota.total <= 0x7FFF_FFFF_FFFF_FFFF
  }

  lemma RecalculatedIsRight(db: Db, t: TokenId, cap: int)
    requires t in db.tokens && db.tokens[t] == Recalculated(db, t, cap) && Fits(db.tokens[t].quota)
    ensures TokenIsRight(db, t, cap)
  {
  }

  /**
    A valid verdict makes the donation active, and grants its reward if it was not. A failure of an
    active donation withdraws the reward when it does not pass, or came too often; otherwise it only counts.
   */
  predicate Verified(id: DonationId, row: Donation, row': Donation, added: seq<Event>, verdict: Verdict, tolerance: int) {
    var limit := if tolerance < 1 then 1 else tolerance;
    && row'.domain == row.domain && row'.token == row.token && row'.reward == row.reward && row.status != Revoked
    && (verdict.valid ==>
          && row'.status == Active && row'.rewardActive && row'.failures == 0
          && added == if row.rewardActive then [] else [Event(row.token, Some(id), Granted, row.reward)])
    && (!verdict.valid ==> row'.failures == row.failures + 1)
    && (!verdict.valid && row.rewardActive && (!verdict.transient || row.failures + 1 >= limit) ==>
          && row'.status == Inactive && !row'.rewardActive
          && added == [Event(row.token, Some(id), Withdrawn, Vec(-row.reward.rpm, -row.reward.daily, -row.reward.total))])
    && (!verdict.valid && row.rewardActive && verdict.transient && row.failures + 1 < limit ==>
          row'.status == row.status && row'.rewardActive && added == [])
    && (!verdict.valid && !row.rewardActive ==> row'.status == row.status && !row'.rewardActive && added == [])
  }

  predicate WasRevoked(id: DonationId, row: Donation, row': Donation, added: seq<Event>) {
    && row' == Donation(row.domain, row.token, Revoked, false, row.reward, row.failures)
    && added == if row.rewardActive
                then [Event(row.token, Some(id), Withdrawn, Vec(-row.reward.rpm, -row.reward.daily, -row.reward.total))] else []
  }

  predicate WasRestored(row: Donation, row': Donation, added: seq<Event>) {
    row' == Donation(row.domain, row.token, Inactive, false, row.reward, 0) && added == []
  }

  /** One row, its events and its token are changed, and nothing else. */
  ghost predicate RowChanged(db: Db, db': Db, op: Op, cap: int) {
    && RowOp(op) && op.id < |db.donations| == |db'.donations| && |db.events| <= |db'.events|
    && db'.events[..|db.events|] == db.events && db'.domains == db.domains
    && (forall i :: 0 <= i < |db.donations| && i != op.id ==> db'.donations[i] == db.donations[i])
    && (forall t :: t in db.tokens || t in db'.tokens ==>
          t == db.donations[op.id].token || (t in db.tokens && t in db'.tokens && db'.tokens[t] == db.tokens[t]))
    && TokenIsRight(db', db.donations[op.id].token, cap)
    && var row, row', added := db.donations[op.id], db'.donations[op.id], db'.events[|db.events|..];
       match op
       case Verify(id, verdict, tolerance) => Verified(id, row, row', added, verdict, tolerance)
       case SetRevoked(id) => WasRevoked(id, row, row', added)
       case Unrevoke(_) => WasRestored(row, row', added)
       case _ => false
  }

  lemma RowIsRight(db: Db, op: Op, caps: TokenId -> int)
    requires RowOp(op) && op.id < |db.donations| && Legal(db, Committed(db, op, [op.id], caps)) && KeysHold(db)
    ensures KeysHold(Do(db, Committed(db, op, [op.id], caps)))
    ensures RowChanged(db, Do(db, Committed(db, op, [op.id], caps)), op, caps(db.donations[op.id].token))
  {
    DoKeepsKeys(db, Committed(db, op, [op.id], caps));
    RowIsDo(db, op, caps);
    var db', row := Do(db, Committed(db, op, [op.id], caps)), db.donations[op.id];
    SameTables(db', RowAfter(db, op), row.token);
    RecalculatedIsRight(db', row.token, caps(row.token));
    assert db'.events[|db.events|..] == RowEvents(op, Grant(op.id, row));
    NewRowIsRight(op, row);
  }

  lemma NewRowIsRight(op: Op, row: Donation)
    requires RowOp(op) && !(op.Verify? && row.status == Revoked)
    ensures var row', added := NewRow(op, row), RowEvents(op, Grant(op.id, row));
            match op
            case Verify(id, verdict, tolerance) => Verified(id, row, row', added, verdict, tolerance)
            case SetRevoked(id) => WasRevoked(id, row, row', added)
            case Unrevoke(_) => WasRestored(row, row', added)
            case _ => false
  {
  }

  /** Every donation that is not revoked gets the reward, and an event that says by how much that changes an active one. */
  predicate PolicyApplied(db: Db, db': Db, reward: Vec, caps: TokenId -> int) {
    && |db'.donations| == |db.donations| && db'.domains == db.domains
    && (forall i :: 0 <= i < |db.donations| ==>
          db'.donations[i] == if db.donations[i].status == Revoked then db.donations[i] else db.donations[i].(reward := reward))
    && (forall i :: 0 <= i < |db.donations| && db.donations[i].status != Revoked ==>
          TokenIsRight(db', db.donations[i].token, caps(db.donations[i].token)))
    && var ids := NotRevoked(db.donations, |db.donations|);
       db'.events == db.events + PolicyEventsOf(db.donations, ids, reward)
  }

  function PolicyEventsOf(rows: seq<Donation>, ids: seq<DonationId>, reward: Vec): seq<Event>
    requires forall k :: 0 <= k < |ids| ==> ids[k] < |rows|
  {
    seq(|ids|, k requires 0 <= k < |ids| => PolicyEventOf(rows[ids[k]], ids[k], reward))
  }

  function PolicyEventOf(row: Donation, id: DonationId, reward: Vec): Event {
    Event(row.token, Some(id), PolicyUpdate,
          if row.rewardActive then Vec(reward.rpm - row.reward.rpm, reward.daily - row.reward.daily, reward.total - row.reward.total)
          else Vec(0, 0, 0))
  }

  lemma PolicyRowsAreAll(db: Db, reward: Vec, i: DonationId)
    requires i < |db.donations|
    ensures var ids := NotRevoked(db.donations, |db.donations|);
            var rows := PolicyRows(Grants(db, ids), |ids|, reward);
            if db.donations[i].status == Revoked then i !in rows
            else i in rows && rows[i] == db.donations[i].(reward := reward)
  {
    var ids := NotRevoked(db.donations, |db.donations|);
    var grants := Grants(db, ids);
    if i in PolicyRows(grants, |grants|, reward) { PolicyRowsGranted(grants, |grants|, reward, i); }
    if db.donations[i].status != Revoked {
      var k :| 0 <= k < |ids| && ids[k] == i;
      GrantIsUpdated(grants, |grants|, reward, k);
    }
  }

  lemma PolicyTokenIsRight(db: Db, reward: Vec, caps: TokenId -> int, i: DonationId)
    requires PolicyReward(reward) && Legal(db, PolicyCommit(db, reward, caps))
    requires i < |db.donations| && db.donations[i].status != Revoked
    ensures TokenIsRight(Do(db, PolicyCommit(db, reward, caps)), db.donations[i].token, caps(db.donations[i].token))
  {
    var ids, c := NotRevoked(db.donations, |db.donations|), PolicyCommit(db, reward, caps);
    var grants, t := Grants(db, ids), db.donations[i].token;
    TokensOfIsSorted(grants);
    var k :| 0 <= k < |ids| && ids[k] == i;
    assert grants[k].row.token == t && t in TokensOf(grants);
    DoShape(db, c);
    SameTables(Do(db, c), AfterBody(db, c), t);
    RecalculatedIsRight(Do(db, c), t, caps(t));
  }

  lemma PolicyIsRight(db: Db, reward: Vec, caps: TokenId -> int)
    requires PolicyReward(reward) && Legal(db, PolicyCommit(db, reward, caps))
    ensures PolicyApplied(db, Do(db, PolicyCommit(db, reward, caps)), reward, caps)
  {
    var ids, c := NotRevoked(db.donations, |db.donations|), PolicyCommit(db, reward, caps);
    DoShape(db, c);
    PolicyBodyIsRight(db, reward, caps);
    PolicyEventsAreRight(db, reward, caps);
    forall i: DonationId | i < |db.donations| && db.donations[i].status != Revoked
      ensures TokenIsRight(Do(db, c), db.donations[i].token, caps(db.donations[i].token))
    {
      PolicyTokenIsRight(db, reward, caps, i);
    }
  }

  lemma PolicyBodyIsRight(db: Db, reward: Vec, caps: TokenId -> int)
    requires IdsOk(db, PolicyCommit(db, reward, caps))
    ensures var after := AfterBody(db, PolicyCommit(db, reward, caps));
            && |after.donations| == |db.donations| && after.domains == db.domains
            && (forall i :: 0 <= i < |db.donations| ==>
                  after.donations[i] == if db.donations[i].status == Revoked then db.donations[i] else db.donations[i].(reward := reward))
  {
    forall i: DonationId | i < |db.donations|
      ensures var after := AfterBody(db, PolicyCommit(db, reward, caps));
              after.donations[i] == if db.donations[i].status == Revoked then db.donations[i] else db.donations[i].(reward := reward)
    {
      PolicyRowsAreAll(db, reward, i);
    }
  }

  lemma PolicyEventsAreRight(db: Db, reward: Vec, caps: TokenId -> int)
    requires IdsOk(db, PolicyCommit(db, reward, caps))
    ensures AfterBody(db, PolicyCommit(db, reward, caps)).events
            == db.events + PolicyEventsOf(db.donations, NotRevoked(db.donations, |db.donations|), reward)
  {
    var ids := NotRevoked(db.donations, |db.donations|);
    assert PolicyEvents(Grants(db, ids), reward) == PolicyEventsOf(db.donations, ids, reward);
  }

  // ---------- a run whose ledger drifts ----------

  /** Tables with the one donation and the one token. */
  function OneDonation(row: Donation, token: Token, events: seq<Event>): Db {
    Db([row], map[row.token := token], events, map[row.domain := true])
  }

  lemma SmallSum(row: Donation, token: Token, events: seq<Event>, l: Limit)
    requires EventSumsAreZero(events, row.token)
    ensures PreClamp(OneDonation(row, token, events), row.token, l) == Contribution(row, row.token, l)
  {
    var db, t := OneDonation(row, token, events), row.token;
    assert RewardsUpTo(db.donations, 0, t, l) == 0;
    assert RewardsUpTo(db.donations, 1, t, l) == Contribution(row, t, l);
  }

  lemma SmallQuotaFits(row: Donation, token: Token, events: seq<Event>)
    requires row.reward == Vec(1, 0, 1) && EventSumsAreZero(events, row.token)
    ensures Fits(Recalculated(OneDonation(row, token, events), row.token, 0).quota)
  {
    var db, t := OneDonation(row, token, events), row.token;
    forall l
      ensures PreClamp(db, t, l) == Contribution(row, t, l)
    {
      SmallSum(row, token, events, l);
    }
  }

  predicate EventSumsAreZero(events: seq<Event>, t: TokenId) {
    forall l :: EventSum(events, ManualOf(t), l) == 0
  }

  const NO_CAP: TokenId -> int := _ => 0

  function OneAfter(row: Donation, token: Token, events: seq<Event>, op: Op): Db
    requires RowOp(op)
  {
    OneDonation(NewRow(op, row), token, events + RowEvents(op, Grant(0, row)))
  }

  lemma RowAfterIsOneAfter(row: Donation, token: Token, events: seq<Event>, op: Op)
    requires RowOp(op) && op.id == 0
    ensures RowAfter(OneDonation(row, token, events), op) == OneAfter(row, token, events, op)
  {
  }

  /** Any of the single-row transactions on the one donation commits, as long as a revoked one is not verified. */
  lemma RowCommits(row: Donation, token: Token, events: seq<Event>, op: Op)
    requires RowOp(op) && op.id == 0 && row.reward == Vec(1, 0, 1) && row.status != Revoked
    requires EventSumsAreZero(events + RowEvents(op, Grant(0, row)), row.token)
    ensures var db, after := OneDonation(row, token, events), OneAfter(row, token, events, op);
            var c, t := Committed(db, op, [0], NO_CAP), row.token;
            && Legal(db, c)
            && Do(db, c) == OneDonation(NewRow(op, row), Recalculated(after, t, 0), events + RowEvents(op, Grant(0, row)))
  {
    RowAfterIsOneAfter(row, token, events, op);
    SmallQuotaFits(NewRow(op, row), token, events + RowEvents(op, Grant(0, row)));
    RowIsDo(OneDonation(row, token, events), op, NO_CAP);
    StoresTheQuota(NewRow(op, row), token, Recalculated(OneAfter(row, token, events, op), row.token, 0),
                   events + RowEvents(op, Grant(0, row)));
  }

  lemma StoresTheQuota(row: Donation, token: Token, token': Token, events: seq<Event>)
    ensures var db := OneDonation(row, token, events);
            db.(tokens := db.tokens[row.token := token']) == OneDonation(row, token', events)
  {
  }

  lemma ClaimCommits(row: Donation)
    requires Claimed(row)
    ensures var c := Commit(Create(row.domain, row.token, true, row.reward, 1), [], map[]);
            Legal(EMPTY, c) && Do(EMPTY, c) == OneDonation(row, Token(ZERO, 0), [])
  {
    assert HeldUpTo([], 0, row.token) == 0;
    CreateIsDo(EMPTY, Create(row.domain, row.token, true, row.reward, 1));
  }

  predicate Claimed(row: Donation) {
    row == Donation(row.domain, row.token, Pending, false, Vec(1, 0, 1), 0) && row.domain != ""
  }

  /** The claim and its successful verification. */
  lemma VerifiedClaim(row: Donation, verify: Op) returns (c1: Commit, c2: Commit, token: Token, events: seq<Event>)
    requires Claimed(row) && verify.Verify? && verify.id == 0 && verify.verdict.valid
    ensures Legal(EMPTY, c1) && Legal(Do(EMPTY, c1), c2)
    ensures Do(Do(EMPTY, c1), c2) == OneDonation(row.(status := Active, rewardActive := true), token, events)
    ensures EventSumsAreZero(events, row.token)
  {
    c1 := Commit(Create(row.domain, row.token, true, row.reward, 1), [], map[]);
    ClaimCommits(row);
    c2, token, events := VerificationCommits(row, verify);
  }

  lemma VerificationCommits(row: Donation, verify: Op) returns (c: Commit, token: Token, events: seq<Event>)
    requires Claimed(row) && verify.Verify? && verify.id == 0 && verify.verdict.valid
    ensures var db := OneDonation(row, Token(ZERO, 0), []);
            Legal(db, c) && Do(db, c) == OneDonation(row.(status := Active, rewardActive := true), token, events)
    ensures EventSumsAreZero(events, row.token)
  {
    events := [] + RowEvents(verify, Grant(0, row));
    assert events == [Event(row.token, Some(0), Granted, row.reward)];
    SmallSums(events[0]);
    RowCommits(row, Token(ZERO, 0), [], verify);
    c := Committed(OneDonation(row, Token(ZERO, 0), []), verify, [0], NO_CAP);
    token := Recalculated(OneAfter(row, Token(ZERO, 0), [], verify), row.token, 0);
  }

  lemma RestoreCommits(row: Donation, token: Token, events: seq<Event>, restore: Op) returns (c: Commit)
    requires restore == Unrevoke(0) && row.reward == Vec(1, 0, 1) && row.status == Active && row.rewardActive
    requires EventSumsAreZero(events, row.token)
    ensures Legal(OneDonation(row, token, events), c) && RestoresActive(OneDonation(row, token, events), c)
  {
    assert events + RowEvents(restore, Grant(0, row)) == events;
    RowCommits(row, token, events, restore);
    c := Committed(OneDonation(row, token, events), restore, [0], NO_CAP);
  }

  /** A claim that is verified and then restored without having been revoked: its ledger drifts. */
  lemma UnguardedRunExists(row: Donation) returns (log: seq<Commit>)
    requires Claimed(row)
    ensures Replay(log).Some? && !GuardedLog(log) && !LedgerExact(Replay(log).value)
  {
    var c1, c2, token, events := VerifiedClaim(row, Verify(0, Verdict(true, false), 1));
    var c3 := RestoreCommits(row.(status := Active, rewardActive := true), token, events, Unrevoke(0));
    OneCommitMore([], c1, EMPTY);
    OneCommitMore([] + [c1], c2, Do(EMPTY, c1));
    OneCommitMore([] + [c1] + [c2], c3, Do(Do(EMPTY, c1), c2));
    log := [] + [c1] + [c2] + [c3];
    LedgerExactIffGuarded(log);
  }

  lemma SmallSums(e: Event)
    requires e.kind == Granted
    ensures EventSumsAreZero([e], e.token)
  {
    var which := ManualOf(e.token);
    forall l ensures EventSum([e], which, l) == 0 { assert DeltasUpTo([e], 0, which, l) == 0; }
  }

  lemma OneCommitMore(log: seq<Commit>, c: Commit, db: Db)
    requires Replay(log) == Some(db) && Legal(db, c)
    ensures Replay(log + [c]) == Some(Do(db, c))
    ensures RestoresActive(db, c) ==> !GuardedLog(log + [c])
  {
    assert (log + [c])[..|log|] == log;
  }

  class Store {
    var donations: seq<Donation>
    var tokens: map<TokenId, Token>
    var events: seq<Event>
    var domains: map<string, bool>

    function Tables(): Db
      reads this
    {
      Db(donations, tokens, events, domains)
    }

    /** The foreign key of domain_donations.token_id. */
    ghost predicate Valid()
      reads this
    {
      KeysHold(Tables())
    }

    constructor ()
      ensures Tables() == EMPTY && Valid()
    {
      donations, tokens, events, domains := [], map[], [], map[];
    }

    method Rollback(saved: Db)
      modifies this
      ensures Tables() == saved
    {
      donations, tokens, events, domains := saved.donations, saved.tokens, saved.events, saved.domains;
    }

    /** Recomputes the token's quota from the rows and the manual adjustments. */
    method Recalculate(t: TokenId, cap: int) returns (ok: bool)
      requires t in tokens
      modifies this`tokens
      ensures ok <==> Fits(Recalculated(Tables(), t, cap).quota)
      ensures tokens == if ok then old(tokens)[t := Recalculated(old(Tables()), t, cap)] else old(tokens)
      ensures ok ==> TokenIsRight(Tables(), t, cap)
    {
      var rpm, daily, total := ActiveSum(donations, t, Rpm), ActiveSum(donations, t, Daily), ActiveSum(donations, t, Total);
      rpm := rpm + EventSum(events, ManualOf(t), Rpm);
      daily := daily + EventSum(events, ManualOf(t), Daily);
      total := total + EventSum(events, ManualOf(t), Total);
      if rpm < 0 { rpm := 0; }
      if daily < 0 { daily := 0; }
      if total < 0 { total := 0; }
      if cap > 0 && rpm > cap { rpm := cap; }
      ok := rpm <= INT4_MAX && daily <= INT4_MAX && total <= INT8_MAX;
      if ok {
        tokens := tokens[t := Token(Vec(rpm, daily, total), cap)];
        RecalculatedIsRight(Tables(), t, cap);
      }
    }

    /** Creates the claim, and the reward token if it is new. */
    method CreateRequest(domain: string, token: TokenId, isNew: bool, reward: Vec, maxDomains: int) returns (ok: bool)
      requires Valid() && PolicyReward(reward)
      modifies this
      ensures Valid()
      ensures var c := Commit(Create(domain, token, isNew, reward, maxDomains), [], map[]);
              && (ok <==> Legal(old(Tables()), c))
              && Tables() == if ok then Do(old(Tables()), c) else old(Tables())
      ensures ok <==> && domain != "" && (isNew <==> token !in old(tokens))
                      && |HeldBy(old(donations), |old(donations)|, token)| < maxDomains
                      && (forall i :: 0 <= i < |old(donations)| ==> old(donations)[i].domain != domain)
                      && (domain in old(domains) ==> old(domains)[domain])
                      && reward.rpm <= 0x7FFF_FFFF && reward.daily <= 0x7FFF_FFFF && reward.total <= 0x7FFF_FFFF_FFFF_FFFF
      ensures ok ==> && donations == old(donations) + [Donation(domain, token, Pending, false, reward, 0)]
                     && tokens == (if isNew then old(tokens)[token := Token(Vec(0, 0, 0), 0)] else old(tokens))
                     && events == old(events) && domains == old(domains)[domain := true]
    {
      HeldIsCardinality(donations, |donations|, token);
      ghost var before, op := Tables(), Create(domain, token, isNew, reward, maxDomains);
      CreateIsDo(before, op);
      if domain == "" { return false; }
      if isNew == (token in tokens) || HeldCount(donations, token) >= maxDomains || !DomainFree(Tables(), domain)
         || !Fits(reward) {
        return false;
      }
      if isNew { tokens := tokens[token := Token(ZERO, 0)]; }
      domains := domains[domain := true];
      donations := donations + [Donation(domain, token, Pending, false, reward, 0)];
      DoKeepsKeys(before, Commit(op, [], map[]));
      return true;
    }

    /** Verification, revocation and restoration of one donation: the row, its event, the quota. */
    method ChangeRow(op: Op, caps: TokenId -> int) returns (ok: bool)
      requires Valid() && RowOp(op)
      modifies this
      ensures Valid()
      ensures op.id >= |old(donations)| ==> !ok && Tables() == old(Tables())
      ensures op.id < |old(donations)| ==>
                var c := Committed(old(Tables()), op, [op.id], caps);
                && (ok <==> Legal(old(Tables()), c))
                && Tables() == if ok then Do(old(Tables()), c) else old(Tables())
      ensures ok ==> op.id < |old(donations)| && RowChanged(old(Tables()), Tables(), op, caps(old(donations)[op.id].token))
    {
      if op.id >= |donations| { return false; }
      var saved, row := Tables(), donations[op.id];
      RowIsDo(saved, op, caps);
      if op.Verify? && row.status == Revoked { return false; }
      donations := donations[op.id := NewRow(op, row)];
      events := events + RowEvents(op, Grant(op.id, row));
      assert Tables() == RowAfter(saved, op);
      var cap := caps(row.token);
      ok := Recalculate(row.token, cap);
      if ok {
        RowIsRight(saved, op, caps);
      } else {
        Rollback(saved);
      }
    }

    /** A manual adjustment is an event of its own, and refused outside its range. */
    method AdjustToken(token: TokenId, delta: Vec, caps: TokenId -> int) returns (ok: bool)
      requires Valid()
      modifies this
      ensures Valid()
      ensures var c := Committed(old(Tables()), Adjust(token, delta), [], caps);
              && (ok <==> Legal(old(Tables()), c))
              && Tables() == if ok then Do(old(Tables()), c) else old(Tables())
      ensures ok ==> && -1_000_000_000 <= delta.rpm <= 1_000_000_000 && -1_000_000_000 <= delta.daily <= 1_000_000_000
                     && -1_000_000_000 <= delta.total <= 1_000_000_000
                     && events == old(events) + [Event(token, None, ManualAdjust, delta)] && TokenIsRight(Tables(), token, caps(token))
                     && donations == old(donations) && domains == old(domains)
                     && forall t :: t in tokens && t != token ==> t in old(tokens) && tokens[t] == old(tokens)[t]
    {
      var saved := Tables();
      AdjustIsDo(saved, Adjust(token, delta), caps);
      if !AdjustmentInRange(delta) || token !in tokens { return false; }
      events := events + [Event(token, None, ManualAdjust, delta)];
      assert Tables() == saved.(events := events);
      var cap := caps(token);
      ok := Recalculate(token, cap);
      if ok { DoKeepsKeys(saved, Committed(saved, Adjust(token, delta), [], caps)); } else { Rollback(saved); }
    }

    /** Applies the reward rules to every donation that is not revoked. */
    method ApplyPolicyToExisting(reward: Vec, caps: TokenId -> int) returns (ok: bool)
      requires Valid() && PolicyReward(reward)
      modifies this
      ensures Valid()
      ensures var c := PolicyCommit(old(Tables()), reward, caps);
              && (ok <==> Legal(old(Tables()), c))
              && Tables() == if ok then Do(old(Tables()), c) else old(Tables())
      ensures ok ==> PolicyApplied(old(Tables()), Tables(), reward, caps)
    {
      ghost var before := Tables();
      PolicyOnAllRows(before, reward, caps);
      var grants := CollectGrants();
      ok := ApplyToGrants(grants, reward, caps);
      if ok {
        DoKeepsKeys(before, PolicyCommit(before, reward, caps));
        PolicyIsRight(before, reward, caps);
      }
    }

    /** Updates the granted rows, then recalculates their tokens; rolls back when a value does not fit. */
    method ApplyToGrants(grants: seq<Grant>, reward: Vec, caps: TokenId -> int) returns (ok: bool)
      requires Valid()
      requires forall k :: 0 <= k < |grants| ==> grants[k].id < |donations| && grants[k].row == donations[grants[k].id]
      modifies this
      ensures var after, ts := PolicyAfter(old(Tables()), grants, reward), TokensOf(grants);
              && (ok <==> (grants != [] ==> Fits(reward)) && AllFit(after, ts, |ts|, caps))
              && Tables() == if ok then after.(tokens := Stored(after, ts, |ts|, caps)) else old(Tables())
    {
      var saved := Tables();
      var tokenIds := TokensOf(grants);
      if grants != [] && !Fits(reward) { return false; }
      TokensAreKnown(saved, grants);
      UpdateRows(grants, reward);
      ok := RecalculateAll(tokenIds, caps);
      if !ok { Rollback(saved); }
    }

    method CollectGrants() returns (grants: seq<Grant>)
      ensures grants == Grants(Tables(), NotRevoked(donations, |donations|))
    {
      grants := [];
      var i := 0;
      while i < |donations|
        invariant 0 <= i <= |donations|
        invariant grants == Grants(Tables(), NotRevoked(donations, i))
      {
        if donations[i].status != Revoked { grants := grants + [Grant(i, donations[i])]; }
        i := i + 1;
      }
    }

    method UpdateRows(grants: seq<Grant>, reward: Vec)
      requires forall k :: 0 <= k < |grants| ==> grants[k].id < |donations|
      modifies this
      ensures Tables() == PolicyAfter(old(Tables()), grants, reward)
    {
      ghost var saved := Tables();
      var n := 0;
      while n < |grants|
        invariant 0 <= n <= |grants|
        invariant tokens == saved.tokens && domains == saved.domains
        invariant RowsUpdated(saved.donations, donations, PolicyRows(grants, n, reward))
        invariant events == saved.events + PolicyEvents(grants, reward)[..n]
      {
        var g := grants[n];
        OneRowUpdated(saved.donations, donations, PolicyRows(grants, n, reward), g.id, g.row.(reward := reward));
        donations := donations[g.id := g.row.(reward := reward)];
        events := events + [PolicyEvent(g, reward)];
        n := n + 1;
      }
      UpdatedIsPolicyAfter(saved, donations, grants, reward);
    }

    /** Recalculates the tokens one after the other; a quota that does not fit stops it. */
    method RecalculateAll(tokenIds: seq<TokenId>, caps: TokenId -> int) returns (ok: bool)
      requires forall t :: t in tokenIds ==> t in tokens
      modifies this`tokens
      ensures ok <==> AllFit(old(Tables()), tokenIds, |tokenIds|, caps)
      ensures ok ==> tokens == Stored(old(Tables()), tokenIds, |tokenIds|, caps)
    {
      ghost var after := Tables();
      ok := true;
      var n := 0;
      while n < |tokenIds|
        invariant 0 <= n <= |tokenIds| && ok
        invariant forall t :: t in after.tokens ==> t in tokens
        invariant tokens == Stored(after, tokenIds, n, caps) && AllFit(after, tokenIds, n, caps)
      {
        var t := tokenIds[n];
        var cap := caps(t);
        SameTables(Tables(), after, t);
        ok := Recalculate(t, cap);
        if !ok { return; }
        n := n + 1;
      }
    }
  }

  /** The rows with the given ones replaced. */
  predicate RowsUpdated(before: seq<Donation>, after: seq<Donation>, rows: map<DonationId, Donation>) {
    && |after| == |before|
    && forall i :: 0 <= i < |after| ==> after[i] == if i in rows then rows[i] else before[i]
  }

  lemma OneRowUpdated(before: seq<Donation>, after: seq<Donation>, rows: map<DonationId, Donation>, id: DonationId, row: Donation)
    requires RowsUpdated(before, after, rows) && id < |after|
    ensures RowsUpdated(before, after[id := row], rows[id := row])
  {
  }

  lemma UpdatedIsPolicyAfter(db: Db, rows: seq<Donation>, grants: seq<Grant>, reward: Vec)
    requires RowsUpdated(db.donations, rows, PolicyRows(grants, |grants|, reward))
    ensures rows == PolicyAfter(db, grants, reward).donations
  {
  }

  lemma TokensAreKnown(db: Db, grants: seq<Grant>)
    requires KeysHold(db)
    requires forall k :: 0 <= k < |grants| ==> grants[k].id < |db.donations| && grants[k].row == db.donations[grants[k].id]
    ensures forall t :: t in TokensOf(grants) ==> t in db.tokens
  {
    forall t | t in TokensOf(grants)
      ensures t in db.tokens
    {
      TokensOfIsGranted(grants, t);
      var k :| 0 <= k < |grants| && grants[k].row.token == t;
    }
  }
}
