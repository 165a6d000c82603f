/**
  Deleting domains while donation transactions run. A deletion cascades to the domain's donation: it
  waits for the lock of that row, takes the reward out of the table, and neither takes the lock of the
  token nor recalculates its quota. So it can come between the statements of any transaction that does
  not hold the row.

  A deleted row keeps its place as a tombstone, which contributes nothing and which no statement finds.
 */
module DonationDeletion {
  import opened Options
  import opened DonationModel
  import opened DonationLedger
  import opened P = DonationProtocol

  /**
    The protocol with the rows deleted so far, in that order. For each transaction and each token whose
    rewards it summed, `read` says how many rows had been deleted then; for each stored quota, `since`
    says it of the sum that the quota was computed from, and `committed` of its commit.
   */
  datatype State = State(p: P.State, deleted: seq<Donation>, read: seq<map<TokenId, nat>>,
                         since: map<TokenId, nat>, committed: map<TokenId, nat>)

  datatype Event = Begins(op: Op) | Acts(x: TxId, a: Action) | Deletes(id: DonationId)

  const INITIAL := State.State(P.INITIAL, [], [], map[], map[])

  function Tombstone(row: Donation): Donation {
    Donation("", row.token, Revoked, false, row.reward, 0)
  }

  predicate Gone(db: Db, id: DonationId)
    requires id < |db.donations|
  {
    db.donations[id].domain == ""
  }

  function Deleted(db: Db, id: DonationId): Db
    requires id < |db.donations|
  {
    var row := db.donations[id];
    db.(donations := db.donations[id := Tombstone(row)], domains := (db.domains - {row.domain})["" := false])
  }

  predicate Deletable(s: P.State, id: DonationId) {
    id < |s.db.donations| && !Gone(s.db, id) && RowLock(id) !in s.locks
  }

  /** The row that a transaction asks for was deleted. */
  predicate FindsNothing(s: P.State, x: TxId, a: Action)
    requires x < |s.txs|
  {
    var tx := s.txs[x];
    a.ReadRow? && tx.phase.Start? && RowOp(tx.op) && tx.op.id < |s.db.donations| && Gone(s.db, tx.op.id)
  }

  function After(s: State, e: Event): Option<State> {
    match e
    case Begins(op) => if OpOk(op) then Some(s.(p := Begin(s.p, op), read := s.read + [map[]])) else None
    case Deletes(id) =>
      if Deletable(s.p, id)
      then Some(s.(p := s.p.(db := Deleted(s.p.db, id)), deleted := s.deleted + [s.p.db.donations[id]])) else None
    case Acts(x, a) =>
      if x >= |s.p.txs| || x >= |s.read| then None
      else if FindsNothing(s.p, x, a) then Some(s.(p := Abort(s.p, x)))
      else
        match Step(s.p, x, a)
        case None => None
        case Some(p') => Some(Noted(s, x, a, p'))
  }

  function Seen(read: map<TokenId, nat>, t: TokenId, deletions: nat): map<TokenId, nat> {
    read[t := deletions]
  }

  /** What is recorded of a statement: which deletions its sum has seen, and at a commit those of its quotas. */
  function Noted(s: State, x: TxId, a: Action, p': P.State): State
    requires x < |s.p.txs| && x < |s.read|
  {
    var tx := s.p.txs[x];
    if a.ReadRewards? && tx.phase.SumRewards? && tx.phase.stored < |Tokens(tx)| then
      s.(p := p', read := s.read[x := Seen(s.read[x], Tokens(tx)[tx.phase.stored], |s.deleted|)])
    else if a.CommitTx? then
      s.(p := p',
         since := s.since + map t | t in tx.w.tokens :: if tx.op.Create? then |s.deleted| else MissesOf(s, x).From(t),
         committed := s.committed + map t | t in tx.w.tokens :: |s.deleted|)
    else s.(p := p')
  }

  ghost predicate Next(s: State, s': State) {
    exists e :: After(s, e) == Some(s')
  }

  ghost predicate Run(states: seq<State>) {
    && states != [] && states[0] == INITIAL
    && forall i :: 0 <= i < |states| - 1 ==> Next(states[i], states[i + 1])
  }

  function MissesOf(s: State, x: TxId): Misses
    requires x < |s.read|
  {
    Misses(s.deleted, s.read[x])
  }

  /** The active rewards of the token that were deleted since the sum that its quota was computed from. */
  function Lost(s: State, t: TokenId): Vec {
    Misses(s.deleted, s.since).Of(t)
  }

  predicate Contributes(row: Donation, t: TokenId) {
    row.token == t && row.rewardActive
  }

  /** An active donation of the token was deleted after the first k deletions. */
  predicate DeletedSince(deleted: seq<Donation>, k: nat, t: TokenId) {
    exists j :: k <= j < |deleted| && Contributes(deleted[j], t)
  }

  /** An active donation of the token was deleted since the sum that its quota was computed from. */
  predicate Overtaken(s: State, t: TokenId) {
    DeletedSince(s.deleted, Misses(s.deleted, s.since).From(t), t)
  }

  // ---------- the invariant ----------

  predicate Sound(db: Db) {
    && (forall i :: 0 <= i < |db.donations| ==> RowSound(db.donations[i]) && db.donations[i].token in db.tokens)
    && forall k :: 0 <= k < |db.events| ==> db.events[k].token in db.tokens
  }

  /** The stored quota is what the tables give, with the rewards that deletions have taken away since. */
  predicate QuotaRemembers(db: Db, t: TokenId, lost: Vec)
    requires t in db.tokens
  {
    db.tokens[t].quota == Effective(PreClamps(db, t).Plus(lost), db.tokens[t].cap)
  }

  predicate Bounded(read: map<TokenId, nat>, n: nat) {
    forall t :: t in read ==> read[t] <= n
  }

  predicate TxsOk(s: State) {
    && |s.read| == |s.p.txs|
    && forall x :: 0 <= x < |s.p.txs| ==>
         Bounded(s.read[x], |s.deleted|) && TxOk(s.p.db, s.p.locks, x, s.p.txs[x], MissesOf(s, x))
  }

  predicate QuotasOk(s: State) {
    Bounded(s.since, |s.deleted|) && forall t :: t in s.p.db.tokens ==> QuotaRemembers(s.p.db, t, Lost(s, t))
  }

  predicate RowsWereSound(deleted: seq<Donation>) {
    forall j :: 0 <= j < |deleted| ==> RowSound(deleted[j])
  }

  predicate Inv(s: State) {
    Sound(s.p.db) && RowsWereSound(s.deleted) && TxsOk(s) && QuotasOk(s)
  }

  // ---------- what a deletion takes ----------

  function Reward(row: Donation, t: TokenId): Vec {
    if Contributes(row, t) then row.reward else ZERO
  }

  lemma {:induction false} RewardsWithout(rows: seq<Donation>, n: nat, id: DonationId, t: TokenId, l: Limit)
    requires id < |rows| && n <= |rows|
    ensures RewardsUpTo(rows[id := Tombstone(rows[id])], n, t, l)
            == RewardsUpTo(rows, n, t, l) - if id < n then Contribution(rows[id], t, l) else 0
  {
    if n > 0 { RewardsWithout(rows, n - 1, id, t, l); }
  }

  lemma SumsWithout(rows: seq<Donation>, id: DonationId, t: TokenId)
    requires id < |rows|
    ensures Sums(rows[id := Tombstone(rows[id])], t).Plus(Reward(rows[id], t)) == Sums(rows, t)
  {
    RewardsWithout(rows, |rows|, id, t, Rpm);
    RewardsWithout(rows, |rows|, id, t, Daily);
    RewardsWithout(rows, |rows|, id, t, Total);
  }

  lemma SumsAppend(rows: seq<Donation>, row: Donation, t: TokenId)
    ensures Sums(rows + [row], t) == Sums(rows, t).Plus(Reward(row, t))
  {
    RewardsCongruent(rows + [row], rows, |rows|, t, Rpm);
    RewardsCongruent(rows + [row], rows, |rows|, t, Daily);
    RewardsCongruent(rows + [row], rows, |rows|, t, Total);
  }

  /** Whatever was read before misses the deleted row from now on. */
  lemma MissesMore(misses: Misses, row: Donation, t: TokenId)
    requires Bounded(misses.read, |misses.deleted|)
    ensures Misses(misses.deleted + [row], misses.read).Of(t) == misses.Of(t).Plus(Reward(row, t))
  {
    var k := misses.From(t);
    assert (misses.deleted + [row])[k..] == misses.deleted[k..] + [row];
    SumsAppend(misses.deleted[k..], row, t);
  }

  /** What a transaction with the given writes sees, together with what it misses, stays the same. */
  lemma DeletionKeepsBalance(db: Db, id: DonationId, w: Writes, t: TokenId, misses: Misses)
    requires id < |db.donations| && id !in w.rows && Bounded(misses.read, |misses.deleted|)
    ensures var db', misses' := Deleted(db, id), misses.(deleted := misses.deleted + [db.donations[id]]);
            && Sums(Overlay(db', w).donations, t).Plus(misses'.Of(t)) == Sums(Overlay(db, w).donations, t).Plus(misses.Of(t))
            && PreClamps(Overlay(db', w), t).Plus(misses'.Of(t)) == PreClamps(Overlay(db, w), t).Plus(misses.Of(t))
  {
    var rows, rows' := Overlay(db, w).donations, Overlay(Deleted(db, id), w).donations;
    assert rows[id] == db.donations[id];
    assert rows' == rows[id := Tombstone(rows[id])];
    SumsWithout(rows, id, t);
    MissesMore(misses, db.donations[id], t);
    PreClampsAreSums(Overlay(db, w), t);
    PreClampsAreSums(Overlay(Deleted(db, id), w), t);
  }

  lemma PreClampsAreSums(db: Db, t: TokenId)
    ensures PreClamps(db, t) == WithManual(Sums(db.donations, t), db.events, t)
  {
  }

  // ---------- a deletion keeps the invariant ----------

  lemma {:induction false} HeldAfterDeletion(rows: seq<Donation>, n: nat, id: DonationId, t: TokenId)
    requires id < |rows| && n <= |rows|
    ensures HeldUpTo(rows[id := Tombstone(rows[id])], n, t) <= HeldUpTo(rows, n, t)
  {
    if n > 0 { HeldAfterDeletion(rows, n - 1, id, t); }
  }

  lemma FreeAfterDeletion(db: Db, id: DonationId, domain: string)
    requires id < |db.donations| && domain != "" && DomainFree(db, domain)
    ensures DomainFree(Deleted(db, id), domain)
  {
  }

  lemma DeletionKeepsQuotas(db: Db, locks: map<Resource, TxId>, x: TxId, tx: Tx, n: nat, id: DonationId, misses: Misses)
    requires BodyWritten(db, locks, x, tx, n, misses) && id < |db.donations| && id !in tx.w.rows
    requires Bounded(misses.read, |misses.deleted|)
    ensures BodyWritten(Deleted(db, id), locks, x, tx, n, misses.(deleted := misses.deleted + [db.donations[id]]))
  {
    var misses' := misses.(deleted := misses.deleted + [db.donations[id]]);
    forall j | 0 <= j < n
      ensures QuotaStored(Deleted(db, id), tx, Tokens(tx)[j], misses'.Of(Tokens(tx)[j]))
    {
      assert QuotaStored(db, tx, Tokens(tx)[j], misses.Of(Tokens(tx)[j]));
      DeletionKeepsBalance(db, id, tx.w, Tokens(tx)[j], misses);
    }
  }

  lemma DeletionKeepsRecalculation(db: Db, locks: map<Resource, TxId>, x: TxId, tx: Tx, id: DonationId, misses: Misses)
    requires PhaseOk(db, locks, x, tx, misses) && Recalculating(tx.phase)
    requires id < |db.donations| && id !in tx.w.rows && Bounded(misses.read, |misses.deleted|)
    ensures PhaseOk(Deleted(db, id), locks, x, tx, misses.(deleted := misses.deleted + [db.donations[id]]))
  {
    DeletionKeepsQuotas(db, locks, x, tx, tx.phase.stored, id, misses);
    if !tx.phase.SumRewards? { DeletionKeepsBalance(db, id, tx.w, Tokens(tx)[tx.phase.stored], misses); }
  }

  lemma DeletionKeepsTx(db: Db, locks: map<Resource, TxId>, x: TxId, tx: Tx, id: DonationId, misses: Misses)
    requires TxOk(db, locks, x, tx, misses) && id < |db.donations| && RowLock(id) !in locks
    requires Bounded(misses.read, |misses.deleted|)
    ensures TxOk(Deleted(db, id), locks, x, tx, misses.(deleted := misses.deleted + [db.donations[id]]))
  {
    if !tx.phase.Finished? {
      assert forall k :: 0 <= k < |tx.grants| ==> Held(locks, x, RowLock(tx.grants[k].id));
      GrantsRemain(db, tx.grants, id);
      if Recalculating(tx.phase) {
        WrittenRowsAreGranted(db, tx, id);
        DeletionKeepsRecalculation(db, locks, x, tx, id, misses);
      } else {
        OtherPhaseStays(db, locks, x, tx, id, misses, misses.(deleted := misses.deleted + [db.donations[id]]));
      }
    }
  }

  lemma GrantsRemain(db: Db, grants: seq<Grant>, id: DonationId)
    requires GrantsMatch(db, grants) && id < |db.donations| && forall k :: 0 <= k < |grants| ==> grants[k].id != id
    ensures GrantsMatch(Deleted(db, id), grants)
  {
  }

  lemma WrittenRowsAreGranted(db: Db, tx: Tx, id: DonationId)
    requires GrantsFit(tx.op, tx.grants) && tx.w.rows == BodyWrites(tx.op, tx.grants).rows
    requires forall k :: 0 <= k < |tx.grants| ==> tx.grants[k].id != id
    ensures id !in tx.w.rows
  {
    if id in tx.w.rows { GrantedId(tx.op, tx.grants, id); }
  }

  lemma OtherPhaseStays(db: Db, locks: map<Resource, TxId>, x: TxId, tx: Tx, id: DonationId, misses: Misses, misses': Misses)
    requires PhaseOk(db, locks, x, tx, misses) && OpOk(tx.op) && !Recalculating(tx.phase) && id < |db.donations|
    ensures PhaseOk(Deleted(db, id), locks, x, tx, misses')
  {
    if tx.phase.Claim? || tx.phase.Ready? { HeldAfterDeletion(db.donations, |db.donations|, id, tx.op.token); }
    if tx.phase.Ready? { FreeAfterDeletion(db, id, tx.op.domain); }
  }

  lemma DeletionRemembers(db: Db, id: DonationId, t: TokenId, misses: Misses)
    requires id < |db.donations| && t in db.tokens && Bounded(misses.read, |misses.deleted|)
    requires QuotaRemembers(db, t, misses.Of(t))
    ensures QuotaRemembers(Deleted(db, id), t, misses.(deleted := misses.deleted + [db.donations[id]]).Of(t))
  {
    DeletionKeepsBalance(db, id, NO_WRITES, t, misses);
    NoWritesNoChange(db);
    NoWritesNoChange(Deleted(db, id));
  }

  lemma NoWritesNoChange(db: Db)
    ensures Overlay(db, NO_WRITES) == db
  {
  }

  lemma DeletionKeepsSound(db: Db, id: DonationId)
    requires Sound(db) && id < |db.donations|
    ensures Sound(Deleted(db, id))
  {
  }

  lemma DeletionKeepsInv(s: State, id: DonationId)
    requires Inv(s) && Deletable(s.p, id)
    ensures Inv(After(s, Deletes(id)).value)
  {
    DeletionKeepsSound(s.p.db, id);
    DeletionKeepsTxs(s, id);
    DeletionKeepsQuotasOk(s, id);
  }

  lemma DeletionKeepsTxs(s: State, id: DonationId)
    requires TxsOk(s) && Deletable(s.p, id)
    ensures TxsOk(After(s, Deletes(id)).value)
  {
    var s' := After(s, Deletes(id)).value;
    forall x | 0 <= x < |s'.p.txs|
      ensures Bounded(s'.read[x], |s'.deleted|) && TxOk(s'.p.db, s'.p.locks, x, s'.p.txs[x], MissesOf(s', x))
    {
      DeletionKeepsTx(s.p.db, s.p.locks, x, s.p.txs[x], id, MissesOf(s, x));
    }
  }

  lemma DeletionKeepsQuotasOk(s: State, id: DonationId)
    requires QuotasOk(s) && Deletable(s.p, id)
    ensures QuotasOk(After(s, Deletes(id)).value)
  {
    var s' := After(s, Deletes(id)).value;
    forall t | t in s'.p.db.tokens
      ensures QuotaRemembers(s'.p.db, t, Lost(s', t))
    {
      DeletionRemembers(s.p.db, id, t, Misses(s.deleted, s.since));
    }
  }

  // ---------- statements keep the invariant ----------

  /** Only its own transaction and, at a commit, its own rows, tokens and domains are changed. */
  lemma OthersStay(s: State, s': State, x: TxId)
    requires TxsOk(s) && x < |s.p.txs| == |s'.p.txs| && |s'.read| == |s.read|
    requires s'.deleted == s.deleted
    requires forall y :: 0 <= y < |s.p.txs| && y != x ==> s'.p.txs[y] == s.p.txs[y] && s'.read[y] == s.read[y]
    requires forall y, r :: y != x && Held(s.p.locks, y, r) ==> Held(s'.p.locks, y, r)
    requires s'.p.db == s.p.db || (Owned(s.p.db, s.p.locks, x, s.p.txs[x].w) && s'.p.db == Overlay(s.p.db, s.p.txs[x].w))
    ensures forall y :: 0 <= y < |s'.p.txs| && y != x ==>
              Bounded(s'.read[y], |s'.deleted|) && TxOk(s'.p.db, s'.p.locks, y, s'.p.txs[y], MissesOf(s', y))
  {
    forall y | 0 <= y < |s'.p.txs| && y != x
      ensures Bounded(s'.read[y], |s'.deleted|) && TxOk(s'.p.db, s'.p.locks, y, s'.p.txs[y], MissesOf(s', y))
    {
      if s'.p.db == s.p.db { NothingDisturbed(s.p.db, s.p.locks, y); }
      else { OthersUndisturbed(s.p.db, s.p.locks, x, s.p.txs[x].w, y); }
      TxStaysOk(s.p.db, s'.p.db, s.p.locks, s'.p.locks, y, s.p.txs[y], MissesOf(s, y));
    }
  }

  lemma OwnStays(s: State, x: TxId, a: Action)
    requires TxsOk(s) && x < |s.p.txs| && Step(s.p, x, a).Some?
    ensures var s' := Noted(s, x, a, Step(s.p, x, a).value);
            && |s'.p.txs| == |s.p.txs|
            && Bounded(s'.read[x], |s'.deleted|) && TxOk(s'.p.db, s'.p.locks, x, s'.p.txs[x], MissesOf(s', x))
  {
    var tx, s' := s.p.txs[x], Noted(s, x, a, Step(s.p, x, a).value);
    if a.ReadRewards? && tx.phase.SumRewards? && tx.phase.stored < |Tokens(tx)| {
      SumSeesAll(tx, tx.phase.stored, MissesOf(s, x), s.deleted, s.read[x]);
    }
    OwnTxOk(s.p, x, a, MissesOf(s, x), MissesOf(s', x));
    StepShape(s.p, x, a);
  }

  lemma SumSeesAll(tx: Tx, n: nat, misses: Misses, deleted: seq<Donation>, read: map<TokenId, nat>)
    requires n < |Tokens(tx)| && misses == Misses(deleted, read)
    ensures var misses' := Misses(deleted, read[Tokens(tx)[n] := |deleted|]);
            SameMisses(tx, n, misses, misses') && misses'.Of(Tokens(tx)[n]) == ZERO
  {
    var misses' := Misses(deleted, read[Tokens(tx)[n] := |deleted|]);
    TokensAreSorted(tx);
    forall j | 0 <= j < n
      ensures misses'.Of(Tokens(tx)[j]) == misses.Of(Tokens(tx)[j])
    {
      assert Tokens(tx)[j] < Tokens(tx)[n];
      assert misses'.From(Tokens(tx)[j]) == misses.From(Tokens(tx)[j]);
    }
  }

  lemma TokensAreSorted(tx: Tx)
    ensures Ascending(Tokens(tx))
  {
    TokensOfIsSorted(tx.grants);
  }

  lemma StatementKeepsTxs(s: State, x: TxId, a: Action)
    requires TxsOk(s) && x < |s.p.txs| && Step(s.p, x, a).Some?
    ensures TxsOk(Noted(s, x, a, Step(s.p, x, a).value))
  {
    var s' := Noted(s, x, a, Step(s.p, x, a).value);
    OwnStays(s, x, a);
    StepShape(s.p, x, a);
    if a.CommitTx? { CommitIsOwned(s.p.db, s.p.locks, x, s.p.txs[x], MissesOf(s, x)); }
    OthersStay(s, s', x);
  }

  /** A commit leaves every quota with what it misses. */
  lemma CommitRemembers(s: State, x: TxId, t: TokenId)
    requires Inv(s) && x < |s.p.txs| && DoCommit(s.p, x).Some?
    requires var s' := Noted(s, x, CommitTx, DoCommit(s.p, x).value); t in s'.p.db.tokens
    ensures var s' := Noted(s, x, CommitTx, DoCommit(s.p, x).value); QuotaRemembers(s'.p.db, t, Lost(s', t))
  {
    var tx, s' := s.p.txs[x], Noted(s, x, CommitTx, DoCommit(s.p, x).value);
    if t !in tx.w.tokens {
      assert Misses(s'.deleted, s'.since).From(t) == Misses(s.deleted, s.since).From(t);
      OutsideCommit(s.p.db, s.p.locks, x, tx, MissesOf(s, x), t);
    } else if tx.op.Create? {
      NewTokenHasNothing(s.p.db, s.p.locks, x, tx, MissesOf(s, x), t);
      assert s'.deleted[|s.deleted|..] == [];
    } else {
      assert Misses(s'.deleted, s'.since).From(t) == MissesOf(s, x).From(t);
      RecalculatedAtCommit(s.p.db, s.p.locks, x, tx, MissesOf(s, x), t);
    }
  }

  lemma RecalculatedAtCommit(db: Db, locks: map<Resource, TxId>, x: TxId, tx: Tx, misses: Misses, t: TokenId)
    requires TxOk(db, locks, x, tx, misses) && CanCommit(tx) && !tx.op.Create? && t in tx.w.tokens
    ensures QuotaRemembers(Overlay(db, tx.w), t, misses.Of(t))
  {
    var n := |Tokens(tx)|;
    var j :| 0 <= j < n && Tokens(tx)[..n][j] == t;
    assert QuotaStored(db, tx, Tokens(tx)[j], misses.Of(Tokens(tx)[j]));
  }

  lemma UnknownHasNothing(db: Db, t: TokenId, l: Limit)
    requires Sound(db) && t !in db.tokens
    ensures PreClamp(db, t, l) == 0
  {
    InertDeltas(db.events, |db.events|, ManualOf(t), l);
    InertRewards(db.donations, 0, |db.donations|, t, l);
  }

  lemma NewTokenIsNew(db: Db, locks: map<Resource, TxId>, x: TxId, tx: Tx, misses: Misses)
    requires TxOk(db, locks, x, tx, misses) && CanCommit(tx) && tx.op.Create? && tx.w.tokens != map[]
    ensures tx.op.token !in db.tokens && tx.w.tokens == map[tx.op.token := Token(ZERO, 0)]
  {
  }

  lemma NewTokenHasNothing(db: Db, locks: map<Resource, TxId>, x: TxId, tx: Tx, misses: Misses, t: TokenId)
    requires Sound(db) && TxOk(db, locks, x, tx, misses) && CanCommit(tx) && tx.op.Create? && t in tx.w.tokens
    ensures QuotaRemembers(Overlay(db, tx.w), t, ZERO)
  {
    NewTokenIsNew(db, locks, x, tx, misses);
    CommittedBody(db, locks, x, tx, misses);
    NothingInNewQuota(db, tx, t);
  }

  lemma NothingInNewQuota(db: Db, tx: Tx, t: TokenId)
    requires Sound(db) && GrantsMatch(db, tx.grants) && GrantsFit(tx.op, tx.grants) && tx.op.Create? && t !in db.tokens
    requires tx.w == BodyWrites(tx.op, tx.grants).(tokens := tx.w.tokens) && tx.w.tokens == map[t := Token(ZERO, 0)]
    ensures QuotaRemembers(Overlay(db, tx.w), t, ZERO)
  {
    NothingInNewToken(db, tx, t, Rpm);
    NothingInNewToken(db, tx, t, Daily);
    NothingInNewToken(db, tx, t, Total);
    EmptyQuota(PreClamps(Overlay(db, tx.w), t));
  }

  lemma EmptyQuota(pre: Vec)
    requires pre == ZERO
    ensures Effective(pre.Plus(ZERO), 0) == ZERO
  {
  }

  lemma NothingInNewToken(db: Db, tx: Tx, t: TokenId, l: Limit)
    requires Sound(db) && GrantsMatch(db, tx.grants) && GrantsFit(tx.op, tx.grants) && tx.op.Create? && t !in db.tokens
    requires tx.w == BodyWrites(tx.op, tx.grants).(tokens := tx.w.tokens)
    ensures PreClamp(Overlay(db, tx.w), t, l) == 0
  {
    PreClampOutsideWrites(db, tx, t, l);
    UnknownHasNothing(db, t, l);
  }

  lemma PreClampOutsideWrites(db: Db, tx: Tx, t: TokenId, l: Limit)
    requires GrantsMatch(db, tx.grants) && GrantsFit(tx.op, tx.grants) && tx.w == BodyWrites(tx.op, tx.grants).(tokens := tx.w.tokens)
    requires t !in TokensToRecalculate(tx.op, tx.grants)
    ensures PreClamp(Overlay(db, tx.w), t, l) == PreClamp(db, t, l)
  {
    BodyShape(db, tx.op, tx.grants);
    PreClampFrame(db, tx.w, TokensToRecalculate(tx.op, tx.grants), t, l);
  }

  lemma OutsideCommit(db: Db, locks: map<Resource, TxId>, x: TxId, tx: Tx, misses: Misses, t: TokenId)
    requires TxOk(db, locks, x, tx, misses) && CanCommit(tx) && t !in tx.w.tokens
    ensures PreClamps(Overlay(db, tx.w), t) == PreClamps(db, t)
  {
    CommittedBody(db, locks, x, tx, misses);
    forall l
      ensures PreClamp(Overlay(db, tx.w), t, l) == PreClamp(db, t, l)
    {
      PreClampOutsideWrites(db, tx, t, l);
    }
  }

  /** At its commit a transaction has written its body, and the quotas of all tokens that it recalculates. */
  lemma CommittedBody(db: Db, locks: map<Resource, TxId>, x: TxId, tx: Tx, misses: Misses)
    requires TxOk(db, locks, x, tx, misses) && CanCommit(tx)
    ensures GrantsMatch(db, tx.grants) && GrantsFit(tx.op, tx.grants) && tx.w == BodyWrites(tx.op, tx.grants).(tokens := tx.w.tokens)
    ensures forall t :: t in TokensToRecalculate(tx.op, tx.grants) ==> t in tx.w.tokens
    ensures forall t :: t in TokensToRecalculate(tx.op, tx.grants) ==> t in db.tokens
  {
    if !tx.op.Create? {
      forall j | 0 <= j < |Tokens(tx)|
        ensures Tokens(tx)[j] in tx.w.tokens
      {
        assert QuotaStored(db, tx, Tokens(tx)[j], misses.Of(Tokens(tx)[j]));
      }
    }
  }

  lemma CommitKeepsSound(db: Db, locks: map<Resource, TxId>, x: TxId, tx: Tx, misses: Misses)
    requires Sound(db) && TxOk(db, locks, x, tx, misses) && CanCommit(tx)
    ensures Sound(Overlay(db, tx.w))
  {
    CommittedBody(db, locks, x, tx, misses);
    BodyShape(db, tx.op, tx.grants);
    forall i | i in tx.w.rows
      ensures i < |db.donations| && RowSound(tx.w.rows[i]) && tx.w.rows[i].token == db.donations[i].token
    {
      ChangedRow(db, tx.op, tx.grants, i);
    }
    OverlayIsSound(db, tx.w);
  }

  lemma OverlayIsSound(db: Db, w: Writes)
    requires Sound(db)
    requires forall i :: i in w.rows && i < |db.donations| ==> RowSound(w.rows[i]) && w.rows[i].token == db.donations[i].token
    requires forall k :: 0 <= k < |w.inserts| ==> RowSound(w.inserts[k]) && w.inserts[k].token in db.tokens + w.tokens
    requires forall k :: 0 <= k < |w.events| ==> w.events[k].token in db.tokens + w.tokens
    ensures Sound(Overlay(db, w))
  {
  }

  lemma CommitKeepsQuotas(s: State, x: TxId)
    requires Inv(s) && x < |s.p.txs| && DoCommit(s.p, x).Some?
    ensures var s' := Noted(s, x, CommitTx, DoCommit(s.p, x).value); QuotasOk(s') && Sound(s'.p.db)
  {
    var s' := Noted(s, x, CommitTx, DoCommit(s.p, x).value);
    forall t | t in s'.p.db.tokens
      ensures QuotaRemembers(s'.p.db, t, Lost(s', t))
    {
      CommitRemembers(s, x, t);
    }
    CommitKeepsSound(s.p.db, s.p.locks, x, s.p.txs[x], MissesOf(s, x));
  }

  lemma StatementKeepsInv(s: State, x: TxId, a: Action)
    requires Inv(s) && x < |s.p.txs| && Step(s.p, x, a).Some?
    ensures Inv(Noted(s, x, a, Step(s.p, x, a).value))
  {
    var s' := Noted(s, x, a, Step(s.p, x, a).value);
    StatementKeepsTxs(s, x, a);
    StepShape(s.p, x, a);
    if a.CommitTx? {
      CommitKeepsQuotas(s, x);
    } else {
      SameQuotas(s, s');
    }
  }

  lemma SameQuotas(s: State, s': State)
    requires QuotasOk(s) && s'.p.db == s.p.db && s'.deleted == s.deleted && s'.since == s.since
    ensures QuotasOk(s')
  {
    forall t | t in s'.p.db.tokens
      ensures QuotaRemembers(s'.p.db, t, Lost(s', t))
    {
      assert Lost(s', t) == Lost(s, t);
    }
  }

  /** A transaction whose row was deleted ends. */
  lemma AbortKeepsInv(s: State, x: TxId)
    requires Inv(s) && x < |s.p.txs| && !s.p.txs[x].phase.Finished?
    ensures Inv(s.(p := Abort(s.p, x)))
  {
    StatementKeepsInv(s, x, Fail);
  }

  lemma BeginKeepsInv(s: State, op: Op)
    requires Inv(s) && OpOk(op)
    ensures Inv(After(s, Begins(op)).value)
  {
    var s' := After(s, Begins(op)).value;
    FreshIsOk(s.p.db, s.p.locks, |s.p.txs|, op);
    MissesAreIrrelevant(s.p.db, s.p.locks, |s.p.txs|, Fresh(op), NONE, Misses(s.deleted, map[]));
    forall x | 0 <= x < |s'.p.txs|
      ensures Bounded(s'.read[x], |s'.deleted|) && TxOk(s'.p.db, s'.p.locks, x, s'.p.txs[x], MissesOf(s', x))
    {
      if x < |s.p.txs| { assert TxOk(s.p.db, s.p.locks, x, s.p.txs[x], MissesOf(s, x)); }
    }
    SameQuotas(s, s');
  }

  lemma StepKeepsInv(s: State, e: Event)
    requires Inv(s) && After(s, e).Some?
    ensures Inv(After(s, e).value)
  {
    match e
    case Begins(op) => BeginKeepsInv(s, op);
    case Deletes(id) => DeletionKeepsInv(s, id);
    case Acts(x, a) => if FindsNothing(s.p, x, a) { AbortKeepsInv(s, x); } else { StatementKeepsInv(s, x, a); }
  }

  lemma {:induction false} RunKeepsInv(states: seq<State>, i: nat)
    requires Run(states) && i < |states|
    ensures Inv(states[i])
  {
    if i > 0 {
      RunKeepsInv(states, i - 1);
      assert Next(states[i - 1], states[i - 1 + 1]);
      var e :| After(states[i - 1], e) == Some(states[i]);
      StepKeepsInv(states[i - 1], e);
    }
  }

  // ---------- when quotas are exact ----------

  predicate Exact(db: Db, t: TokenId)
    requires t in db.tokens
  {
    db.tokens[t].quota == Effective(PreClamps(db, t), db.tokens[t].cap)
  }

  /** The loss does not show: there is none, or the sum is not positive even with it, or it exceeds the cap without it. */
  predicate Hidden(db: Db, t: TokenId, lost: Vec, l: Limit)
    requires t in db.tokens
  {
    || lost.Get(l) == 0
    || PreClamp(db, t, l) + lost.Get(l) <= 0
    || (l == Rpm && 0 < db.tokens[t].cap <= PreClamp(db, t, l))
  }

  lemma ExactIffHidden(db: Db, t: TokenId, lost: Vec)
    requires t in db.tokens && QuotaRemembers(db, t, lost) && forall l :: lost.Get(l) >= 0
    ensures Exact(db, t) <==> Hidden(db, t, lost, Rpm) && Hidden(db, t, lost, Daily) && Hidden(db, t, lost, Total)
  {
    assert lost.Get(Rpm) >= 0 && lost.Get(Daily) >= 0 && lost.Get(Total) >= 0;
  }

  lemma {:induction false} SumsOfSound(rows: seq<Donation>, n: nat, t: TokenId, l: Limit)
    requires RowsWereSound(rows) && n <= |rows|
    ensures RewardsUpTo(rows, n, t, l) >= 0
    ensures (forall j :: 0 <= j < n ==> !Contributes(rows[j], t)) ==> RewardsUpTo(rows, n, t, l) == 0
    ensures l == Total ==> forall j :: 0 <= j < n && Contributes(rows[j], t) ==> RewardsUpTo(rows, n, t, l) > 0
  {
    if n > 0 {
      assert RowSound(rows[n - 1]);
      SumsOfSound(rows, n - 1, t, l);
    }
  }

  lemma LostMeansDeleted(deleted: seq<Donation>, k: nat, t: TokenId)
    requires k <= |deleted| && RowsWereSound(deleted)
    ensures var lost := Sums(deleted[k..], t);
            && (forall l :: lost.Get(l) >= 0)
            && (DeletedSince(deleted, k, t) ==> lost.total > 0)
            && (!DeletedSince(deleted, k, t) ==> lost == ZERO)
  {
    var rows := deleted[k..];
    SumsOfSound(rows, |rows|, t, Rpm);
    SumsOfSound(rows, |rows|, t, Daily);
    SumsOfSound(rows, |rows|, t, Total);
    forall l ensures Sums(rows, t).Get(l) >= 0 { SumsOfSound(rows, |rows|, t, l); }
    if DeletedSince(deleted, k, t) {
      var j :| k <= j < |deleted| && Contributes(deleted[j], t);
      assert Contributes(rows[j - k], t);
    } else {
      assert forall j :: 0 <= j < |rows| ==> rows[j] == deleted[j + k];
    }
  }

  /** The rewards of the token's active donations that were deleted since are never negative, and positive if there are any. */
  lemma LostIsCovered(s: State, t: TokenId)
    requires Inv(s)
    ensures forall l :: Lost(s, t).Get(l) >= 0
    ensures if Overtaken(s, t) then Lost(s, t).total > 0 else Lost(s, t) == ZERO
  {
    LostMeansDeleted(s.deleted, Misses(s.deleted, s.since).From(t), t);
  }

  /**
    At every point of every interleaving of transactions and deletions, a token's quota is exact if and
    only if for none of the limits it shows what was deleted since the sum that it was computed from.
   */
  lemma QuotaExactIffHidden(states: seq<State>, i: nat, t: TokenId)
    requires Run(states) && i < |states| && t in states[i].p.db.tokens
    ensures var s := states[i];
            Exact(s.p.db, t) <==>
              Hidden(s.p.db, t, Lost(s, t), Rpm) && Hidden(s.p.db, t, Lost(s, t), Daily) && Hidden(s.p.db, t, Lost(s, t), Total)
  {
    RunKeepsInv(states, i);
    LostIsCovered(states[i], t);
    ExactIffHidden(states[i].p.db, t, Lost(states[i], t));
  }

  /**
    So it is exact if no active donation of the token was deleted since that sum; and with a positive
    total only then, because every reward has a positive total.
   */
  lemma QuotaExactIffNotOvertaken(states: seq<State>, i: nat, t: TokenId)
    requires Run(states) && i < |states| && t in states[i].p.db.tokens
    ensures var s := states[i];
            && (!Overtaken(s, t) ==> Exact(s.p.db, t))
            && (s.p.db.tokens[t].quota.total > 0 ==> (Exact(s.p.db, t) <==> !Overtaken(s, t)))
  {
    var s := states[i];
    QuotaExactIffHidden(states, i, t);
    RunKeepsInv(states, i);
    LostIsCovered(s, t);
    assert QuotaRemembers(s.p.db, t, Lost(s, t));
  }

  // ---------- deletions that overlap no recalculation ----------

  /** How many tokens' rewards the transaction has summed. */
  function Summed(phase: Phase): nat {
    match phase
    case SumRewards(n) => n
    case SumManual(n, _) => n + 1
    case Store(n, _) => n + 1
    case _ => 0
  }

  /** No transaction stands between a sum and its commit. */
  predicate Calm(s: State) {
    forall x :: 0 <= x < |s.p.txs| ==> Summed(s.p.txs[x].phase) == 0
  }

  predicate Apart(s: State, s': State) {
    s'.deleted != s.deleted ==> Calm(s)
  }

  /** Nothing is deleted but in calm states. */
  predicate DeletesApart(states: seq<State>) {
    forall i :: 0 <= i < |states| - 1 ==> Apart(states[i], states[i + 1])
  }

  predicate SumsAreCurrent(s: State, x: TxId)
    requires x < |s.p.txs| && x < |s.read|
  {
    var tx := s.p.txs[x];
    forall j :: 0 <= j < Summed(tx.phase) && j < |Tokens(tx)| ==> MissesOf(s, x).From(Tokens(tx)[j]) == |s.deleted|
  }

  /** Transactions have seen all deletions, and so has every quota those before its commit. */
  ghost predicate Current(s: State) {
    && |s.read| == |s.p.txs| && Bounded(s.committed, |s.deleted|)
    && (forall x :: 0 <= x < |s.p.txs| ==> SumsAreCurrent(s, x))
    && forall t :: Misses(s.deleted, s.since).From(t) == Misses(s.deleted, s.committed).From(t)
  }

  lemma StatementKeepsCurrent(s: State, x: TxId, a: Action)
    requires Inv(s) && Current(s) && x < |s.p.txs| && Step(s.p, x, a).Some?
    ensures Current(Noted(s, x, a, Step(s.p, x, a).value))
  {
    var s' := Noted(s, x, a, Step(s.p, x, a).value);
    StepShape(s.p, x, a);
    forall y | 0 <= y < |s'.p.txs|
      ensures SumsAreCurrent(s', y)
    {
      assert SumsAreCurrent(s, y);
      if y == x { OwnSumsAreCurrent(s, x, a); }
    }
    if a.CommitTx? { CommitKeepsSinceCurrent(s, x); }
  }

  lemma OwnSumsAreCurrent(s: State, x: TxId, a: Action)
    requires TxsOk(s) && x < |s.p.txs| && SumsAreCurrent(s, x) && Step(s.p, x, a).Some?
    ensures var s' := Noted(s, x, a, Step(s.p, x, a).value); |s'.p.txs| == |s.p.txs| && SumsAreCurrent(s', x)
  {
    var tx, s' := s.p.txs[x], Noted(s, x, a, Step(s.p, x, a).value);
    StepShape(s.p, x, a);
    SummedAfter(s.p, x, a);
    if Summed(s'.p.txs[x].phase) > 0 && a.ReadRewards? {
      SumIsCurrent(tx, s.deleted, s.read[x]);
    }
  }

  lemma SummedAfter(s: P.State, x: TxId, a: Action)
    requires x < |s.txs| && Step(s, x, a).Some? && |Step(s, x, a).value.txs| == |s.txs|
    ensures var tx, tx' := s.txs[x], Step(s, x, a).value.txs[x];
            Summed(tx'.phase) == 0 ||
            (&& Tokens(tx') == Tokens(tx) && !a.CommitTx?
             && if a.ReadRewards?
                then tx.phase.SumRewards? && tx.phase.stored < |Tokens(tx)| && Summed(tx'.phase) == Summed(tx.phase) + 1
                else Summed(tx'.phase) == Summed(tx.phase))
  {
  }

  lemma SumIsCurrent(tx: Tx, deleted: seq<Donation>, read: map<TokenId, nat>)
    requires tx.phase.SumRewards? && tx.phase.stored < |Tokens(tx)|
    requires forall j :: 0 <= j < tx.phase.stored ==> Misses(deleted, read).From(Tokens(tx)[j]) == |deleted|
    ensures forall j :: 0 <= j <= tx.phase.stored ==>
              Misses(deleted, read[Tokens(tx)[tx.phase.stored] := |deleted|]).From(Tokens(tx)[j]) == |deleted|
  {
    forall j | 0 <= j < tx.phase.stored
      ensures Misses(deleted, read[Tokens(tx)[tx.phase.stored] := |deleted|]).From(Tokens(tx)[j]) == |deleted|
    {
      assert Misses(deleted, read).From(Tokens(tx)[j]) == |deleted|;
    }
  }

  lemma CommitKeepsSinceCurrent(s: State, x: TxId)
    requires Inv(s) && Current(s) && x < |s.p.txs| && DoCommit(s.p, x).Some?
    ensures var s' := Noted(s, x, CommitTx, DoCommit(s.p, x).value);
            && Bounded(s'.committed, |s'.deleted|)
            && forall t :: Misses(s'.deleted, s'.since).From(t) == Misses(s'.deleted, s'.committed).From(t)
  {
    var tx, s' := s.p.txs[x], Noted(s, x, CommitTx, DoCommit(s.p, x).value);
    forall t
      ensures Misses(s'.deleted, s'.since).From(t) == Misses(s'.deleted, s'.committed).From(t)
    {
      assert Misses(s.deleted, s.since).From(t) == Misses(s.deleted, s.committed).From(t);
      if t in tx.w.tokens && !tx.op.Create? { SeenAtCommit(s, x, t); }
    }
  }

  lemma SeenAtCommit(s: State, x: TxId, t: TokenId)
    requires TxsOk(s) && x < |s.p.txs| && SumsAreCurrent(s, x) && CanCommit(s.p.txs[x])
    requires !s.p.txs[x].op.Create? && t in s.p.txs[x].w.tokens
    ensures MissesOf(s, x).From(t) == |s.deleted|
  {
    var tx := s.p.txs[x];
    assert TxOk(s.p.db, s.p.locks, x, tx, MissesOf(s, x));
    var j :| 0 <= j < |Tokens(tx)| && Tokens(tx)[..|Tokens(tx)|][j] == t;
    assert Tokens(tx)[j] == t;
  }

  lemma DeletionKeepsCurrent(s: State, id: DonationId)
    requires Inv(s) && Current(s) && Calm(s) && Deletable(s.p, id)
    ensures Current(After(s, Deletes(id)).value)
  {
    var s' := After(s, Deletes(id)).value;
    forall t
      ensures Misses(s'.deleted, s'.since).From(t) == Misses(s'.deleted, s'.committed).From(t)
    {
      assert Misses(s.deleted, s.since).From(t) == Misses(s.deleted, s.committed).From(t);
    }
  }

  lemma StepKeepsCurrent(s: State, e: Event)
    requires Inv(s) && Current(s) && After(s, e).Some?
    requires Apart(s, After(s, e).value)
    ensures Current(After(s, e).value)
  {
    match e
    case Deletes(id) =>
      assert |After(s, e).value.deleted| == |s.deleted| + 1;
      DeletionKeepsCurrent(s, id);
    case Acts(x, a) => if FindsNothing(s.p, x, a) { StatementKeepsCurrent(s, x, Fail); } else { StatementKeepsCurrent(s, x, a); }
    case Begins(op) =>
      var s' := After(s, e).value;
      forall y | 0 <= y < |s'.p.txs|
        ensures SumsAreCurrent(s', y)
      {
        if y < |s.p.txs| { assert SumsAreCurrent(s, y); }
      }
  }

  /** If it holds of the i-th state it holds of the next one. */
  ghost predicate Turns(kept: nat -> bool, i: nat) {
    kept(i) ==> kept(i + 1)
  }

  lemma {:induction false} KeptThroughout(kept: nat -> bool, i: nat)
    requires kept(0) && forall k: nat :: k < i ==> Turns(kept, k)
    ensures kept(i)
  {
    if i > 0 {
      KeptThroughout(kept, i - 1);
      assert Turns(kept, i - 1);
    }
  }

  ghost predicate CurrentAt(states: seq<State>, i: nat) {
    i < |states| && Current(states[i])
  }

  lemma TurnKeepsCurrent(states: seq<State>, i: nat)
    requires Run(states) && DeletesApart(states) && i < |states| - 1 && CurrentAt(states, i)
    ensures CurrentAt(states, i + 1)
  {
    RunKeepsInv(states, i);
    NextKeepsCurrent(states[i], states[i + 1]);
  }

  lemma RunIsCurrent(states: seq<State>, i: nat)
    requires Run(states) && DeletesApart(states) && i < |states|
    ensures Current(states[i])
  {
    var kept := (k: nat) => CurrentAt(states, k);
    forall k: nat | k < i
      ensures Turns(kept, k)
    {
      if kept(k) { TurnKeepsCurrent(states, k); }
    }
    assert kept(0);
    KeptThroughout(kept, i);
  }

  lemma NextKeepsCurrent(s: State, s': State)
    requires Next(s, s') && Inv(s) && Current(s) && Apart(s, s')
    ensures Current(s')
  {
    var e :| After(s, e) == Some(s');
    StepKeepsCurrent(s, e);
  }

  /**
    When deletions overlap no recalculation, it is the commits that count: a quota is exact if no active
    donation of the token was deleted since its last recalculation, and with a positive total only then.
   */
  lemma QuotaExactIffNoneDeletedSinceCommit(states: seq<State>, i: nat, t: TokenId)
    requires Run(states) && DeletesApart(states) && i < |states| && t in states[i].p.db.tokens
    ensures var s := states[i];
            var stale := DeletedSince(s.deleted, Misses(s.deleted, s.committed).From(t), t);
            && (!stale ==> Exact(s.p.db, t))
            && (s.p.db.tokens[t].quota.total > 0 ==> (Exact(s.p.db, t) <==> !stale))
  {
    RunIsCurrent(states, i);
    QuotaExactIffNotOvertaken(states, i, t);
    var s := states[i];
    assert Misses(s.deleted, s.since).From(t) == Misses(s.deleted, s.committed).From(t);
  }

  // ---------- runs that end with a stale quota ----------

  function Last(states: seq<State>): State
    requires states != []
  {
    states[|states| - 1]
  }

  lemma RunGoesOn(states: seq<State>, e: Event)
    requires Run(states) && After(Last(states), e).Some?
    ensures Run(states + [After(Last(states), e).value])
  {
    var longer := states + [After(Last(states), e).value];
    forall i | 0 <= i < |longer| - 1
      ensures Next(longer[i], longer[i + 1])
    {
      if i < |states| - 1 { assert Next(states[i], states[i + 1]); }
    }
  }

  lemma RunSteps(before: seq<State>, x: TxId, a: Action) returns (states: seq<State>)
    requires Run(before) && x < |Last(before).p.txs| && x < |Last(before).read|
    requires !FindsNothing(Last(before).p, x, a) && Step(Last(before).p, x, a).Some?
    ensures Run(states) && Last(states) == Noted(Last(before), x, a, Step(Last(before).p, x, a).value)
  {
    RunGoesOn(before, Acts(x, a));
    states := before + [After(Last(before), Acts(x, a)).value];
  }

  lemma RunBegins(before: seq<State>, op: Op) returns (states: seq<State>)
    requires Run(before) && OpOk(op)
    ensures Run(states) && Last(states) == After(Last(before), Begins(op)).value
  {
    RunGoesOn(before, Begins(op));
    states := before + [After(Last(before), Begins(op)).value];
  }

  lemma RunDeletes(before: seq<State>, id: DonationId) returns (states: seq<State>)
    requires Run(before) && Deletable(Last(before).p, id)
    ensures Run(states) && Last(states) == After(Last(before), Deletes(id)).value
  {
    RunGoesOn(before, Deletes(id));
    states := before + [After(Last(before), Deletes(id)).value];
  }

  /** A transaction on one token that has taken all locks but the token's. */
  predicate WantsToken(s: State, x: TxId, t: TokenId) {
    && x < |s.p.txs| == |s.read|
    && var tx := s.p.txs[x];
       && tx.phase == LockTokens(0) && Tokens(tx) == [t] && !tx.op.Create? && !tx.op.ApplyPolicy?
       && (RowOp(tx.op) ==> |tx.grants| == 1) && t in s.p.db.tokens && TokenLock(t) !in s.p.locks
  }

  /** It locks the token, writes its body and sums the rewards. */
  lemma FirstHalf(before: seq<State>, x: TxId, t: TokenId) returns (states: seq<State>)
    requires Run(before) && WantsToken(Last(before), x, t)
    ensures Run(states)
    ensures var s, s' := Last(before), Last(states);
            var tx := s.p.txs[x];
            var w := BodyWrites(tx.op, tx.grants);
            && s'.p.db == s.p.db && s'.p.locks == s.p.locks[TokenLock(t) := x] && s'.deleted == s.deleted
            && |s'.p.txs| == |s'.read| == |s.p.txs|
            && s'.p.txs[x] == tx.(w := w, phase := SumManual(0, Sums(Overlay(s.p.db, w).donations, t)))
            && s'.read[x] == s.read[x][t := |s.deleted|]
  {
    states := RunSteps(before, x, LockToken);
    states := WritesAndSums(states, x, t);
  }

  lemma WritesAndSums(before: seq<State>, x: TxId, t: TokenId) returns (states: seq<State>)
    requires Run(before) && x < |Last(before).p.txs| == |Last(before).read|
    requires var tx := Last(before).p.txs[x];
             && tx.phase == LockTokens(1) && Tokens(tx) == [t] && !tx.op.Create? && !tx.op.ApplyPolicy?
             && (RowOp(tx.op) ==> |tx.grants| == 1)
    ensures Run(states)
    ensures var s, tx := Last(before), Last(before).p.txs[x];
            var w := BodyWrites(tx.op, tx.grants);
            var tx' := tx.(w := w, phase := SumManual(0, Sums(Overlay(s.p.db, w).donations, t)));
            Last(states) == s.(p := Update(s.p, x, tx'), read := s.read[x := Seen(s.read[x], t, |s.deleted|)])
  {
    states := RunSteps(before, x, WriteBody);
    states := RunSteps(states, x, ReadRewards);
  }

  /** It sums the adjustments, stores the quota without a cap, and commits. */
  lemma SecondHalf(before: seq<State>, x: TxId, t: TokenId, rewards: Vec) returns (states: seq<State>)
    requires Run(before) && x < |Last(before).p.txs| == |Last(before).read|
    requires var tx := Last(before).p.txs[x];
             && tx.phase == SumManual(0, rewards) && Tokens(tx) == [t] && !tx.op.Create?
             && Fits(Effective(WithManual(rewards, Overlay(Last(before).p.db, tx.w).events, t), 0))
    ensures Run(states)
    ensures var s, s' := Last(before), Last(states);
            var tx := s.p.txs[x];
            var quota := Effective(WithManual(rewards, Overlay(s.p.db, tx.w).events, t), 0);
            && s'.p.db == Overlay(s.p.db, tx.w.(tokens := tx.w.tokens[t := Token(quota, 0)]))
            && s'.p.locks == Without(s.p.locks, x) && s'.deleted == s.deleted
            && |s'.p.txs| == |s'.read| == |s.p.txs|
            && t in s'.committed && s'.committed[t] == |s.deleted|
  {
    states := RunSteps(before, x, ReadManual);
    states := RunSteps(states, x, StoreQuota(0));
    states := RunSteps(states, x, CommitTx);
  }

  predicate Claims(op: Op) {
    op.Create? && OpOk(op) && op.isNew && op.reward == Vec(1, 0, 1)
  }

  /** The tables with one donation of the token. */
  predicate HasOne(s: State, row: Donation) {
    && |s.p.txs| == |s.read| && s.p.locks == map[] && s.deleted == []
    && s.p.db.donations == [row] && row.token in s.p.db.tokens && row.domain != ""
  }

  function ClaimedRow(op: Op): Donation
    requires op.Create?
  {
    Donation(op.domain, op.token, Pending, false, op.reward, 0)
  }

  lemma ClaimRuns(op: Op) returns (states: seq<State>)
    requires Claims(op)
    ensures Run(states) && HasOne(Last(states), ClaimedRow(op)) && Last(states).p.db.events == []
  {
    states := [INITIAL];
    states := RunBegins(states, op);
    states := RunSteps(states, 0, InsertToken);
    assert HeldUpTo([], 0, op.token) == 0;
    states := RunSteps(states, 0, CountDomains);
    states := RunSteps(states, 0, ClaimDomain);
    var locks := Last(states).p.locks;
    assert Without(locks, 0) == map[];
    states := RunSteps(states, 0, CommitTx);
  }

  lemma OneSum(row: Donation, t: TokenId)
    ensures Sums([row], t) == Reward(row, t)
  {
    SumsAppend([], row, t);
    assert [] + [row] == [row];
  }

  predicate NoAdjustment(events: seq<DonationModel.Event>) {
    forall k :: 0 <= k < |events| && events[k].kind == ManualAdjust ==> events[k].delta == ZERO
  }

  lemma NothingAdjusted(rewards: Vec, events: seq<DonationModel.Event>, t: TokenId)
    requires NoAdjustment(events)
    ensures WithManual(rewards, events, t) == rewards
  {
    InertDeltas(events, |events|, ManualOf(t), Rpm);
    InertDeltas(events, |events|, ManualOf(t), Daily);
    InertDeltas(events, |events|, ManualOf(t), Total);
  }

  /** One request in total, and a quota that says so. */
  predicate HasQuota(s: State, row: Donation) {
    && HasOne(s, row) && row.rewardActive && row.reward == Vec(1, 0, 1)
    && NoAdjustment(s.p.db.events) && s.p.db.tokens[row.token].quota.total == 1
  }

  lemma VerificationRuns(before: seq<State>, row: Donation) returns (states: seq<State>)
    requires Run(before) && HasOne(Last(before), row) && Last(before).p.db.events == []
    requires row.status == Pending && !row.rewardActive && row.reward == Vec(1, 0, 1)
    ensures Run(states) && HasQuota(Last(states), row.(status := Active, rewardActive := true, failures := 0))
  {
    var s, x, t := Last(before), |Last(before).p.txs|, row.token;
    var op, row' := Verify(0, Verdict(true, false), 1), row.(status := Active, rewardActive := true, failures := 0);
    states := RunBegins(before, op);
    states := RunSteps(states, x, ReadRow);
    OnlyToken(Grant(0, row));
    states := FirstHalf(states, x, t);
    var w := BodyWrites(op, [Grant(0, row)]);
    assert Overlay(s.p.db, w).donations == [row'];
    OneSum(row', t);
    NothingAdjusted(row'.reward, Overlay(s.p.db, w).events, t);
    states := SecondHalf(states, x, t, row'.reward);
    assert Last(states).p.locks == map[];
  }

  lemma OnlyToken(g: Grant)
    ensures TokensOf([g]) == [g.row.token]
  {
    assert [g][..0] == [];
    assert TokensOf([]) == [];
  }

  /** The claim of a domain and its verification. */
  lemma QuotaRuns(op: Op) returns (states: seq<State>, row: Donation)
    requires Claims(op)
    ensures Run(states) && HasQuota(Last(states), row) && row.token == op.token
  {
    states := ClaimRuns(op);
    states := VerificationRuns(states, ClaimedRow(op));
    row := ClaimedRow(op).(status := Active, rewardActive := true, failures := 0);
  }

  /** The donation's domain is deleted: the token keeps a quota that nothing backs. */
  lemma StaleQuotaIsReached(op: Op) returns (states: seq<State>)
    requires Claims(op)
    ensures Run(states) && op.token in Last(states).p.db.tokens && !Exact(Last(states).p.db, op.token)
  {
    var row;
    states, row := QuotaRuns(op);
    states := RunDeletes(states, 0);
    NothingIsLeft(Last(states).p.db, row, op.token);
  }

  lemma NothingIsLeft(db: Db, row: Donation, t: TokenId)
    requires db.donations == [Tombstone(row)] && NoAdjustment(db.events) && t in db.tokens && db.tokens[t].quota.total == 1
    ensures !Exact(db, t)
  {
    OneSum(Tombstone(row), t);
    PreClampsAreSums(db, t);
    NothingAdjusted(ZERO, db.events, t);
  }

  /**
    The same although nothing is deleted after the token's last recalculation is committed: the deletion
    comes between the statements of an adjustment, after it summed the rewards.
   */
  lemma OvertakenQuotaIsReached(op: Op) returns (states: seq<State>)
    requires Claims(op)
    ensures Run(states)
    ensures var s, t := Last(states), op.token;
            && t in s.p.db.tokens && !Exact(s.p.db, t)
            && t in s.committed && s.committed[t] == |s.deleted|
  {
    var row;
    states, row := QuotaRuns(op);
    states := AdjustmentOvertaken(states, row);
  }

  lemma AdjustmentOvertaken(before: seq<State>, row: Donation) returns (states: seq<State>)
    requires Run(before) && HasQuota(Last(before), row)
    ensures Run(states)
    ensures var s, t := Last(states), row.token;
            && t in s.p.db.tokens && !Exact(s.p.db, t)
            && t in s.committed && s.committed[t] == |s.deleted|
  {
    var x, t, op := |Last(before).p.txs|, row.token, Adjust(row.token, ZERO);
    states := RunBegins(before, op);
    states := FirstHalf(states, x, t);
    OneSum(row, t);
    assert Overlay(Last(states).p.db, BodyWrites(op, [])).donations == [row];
    states := RunDeletes(states, 0);
    states := DeletionUnseen(states, x, row);
  }

  /** A recalculation that summed the reward of the row before it was deleted. */
  lemma DeletionUnseen(before: seq<State>, x: TxId, row: Donation) returns (states: seq<State>)
    requires Run(before) && x < |Last(before).p.txs| == |Last(before).read|
    requires row.reward == Vec(1, 0, 1) && NoAdjustment(Last(before).p.db.events)
    requires var s, t, op := Last(before), row.token, Adjust(row.token, ZERO);
             && s.p.db.donations == [Tombstone(row)] && t in s.p.db.tokens
             && s.p.txs[x] == Tx(op, SumManual(0, row.reward), [], BodyWrites(op, []), map[])
    ensures Run(states)
    ensures var s, t := Last(states), row.token;
            && t in s.p.db.tokens && !Exact(s.p.db, t)
            && t in s.committed && s.committed[t] == |s.deleted|
  {
    var db, t, w := Last(before).p.db, row.token, BodyWrites(Adjust(row.token, ZERO), []);
    NothingAdjusted(row.reward, Overlay(db, w).events, t);
    states := SecondHalf(before, x, t, row.reward);
    assert Last(states).p.db.donations == [Tombstone(row)];
    NothingIsLeft(Last(states).p.db, row, t);
  }
}
