/**
  The donation transactions as the statements that they are made of.

  Transactions run concurrently at READ COMMITTED: a statement sees the committed tables and
  its own transaction's pending writes, `FOR UPDATE` takes a row lock that is kept to the end
  of the transaction, and a commit publishes all pending writes at once.  The theorem of this
  module is that every interleaving is equivalent to running the committed transactions one
  after the other in commit order.
 */
module DonationProtocol {
  import opened Options
  import opened DonationModel
  import opened DonationLedger

  type TxId = nat

  datatype Resource = RowLock(id: DonationId) | TokenLock(token: TokenId) | DomainLock(name: string)

  /** Where a transaction stands. */
  datatype Phase =
    | Start
    | Scan(todo: seq<DonationId>)              // rows that the bulk SELECT … FOR UPDATE has still to visit
    | LockTokens(locked: nat)                  // that many of the tokens are locked
    | Claim                                    // the domain limit was checked, the domain is next
    | SumRewards(stored: nat)                  // that many quotas are stored; the rewards are summed next
    | SumManual(stored: nat, rewards: Vec)     // the adjustments are summed next
    | Store(stored: nat, pre: Vec)             // the quota is clamped and stored next
    | Ready                                    // a creation before its commit
    | Finished

  datatype Tx = Tx(op: Op, phase: Phase, grants: seq<Grant>, w: Writes, caps: map<TokenId, int>)

  datatype State = State(db: Db, locks: map<Resource, TxId>, txs: seq<Tx>, log: seq<Commit>)

  datatype Action =
    | ReadRow | OpenScan(order: seq<DonationId>) | ScanRow | CloseScan
    | InsertToken | LockToken | CountDomains | ClaimDomain
    | WriteBody | ReadRewards | ReadManual | StoreQuota(cap: int)
    | CommitTx | Fail

  // ---------- the statements ----------

  /** What holds of a request before its transaction begins. */
  predicate OpOk(op: Op) {
    && (op.Create? ==> op.domain != "" && PolicyReward(op.reward) && op.maxDomains >= 1)
    && (op.ApplyPolicy? ==> PolicyReward(op.reward))
    && (op.Adjust? ==> AdjustmentInRange(op.delta))
  }

  function Fresh(op: Op): Tx {
    Tx(op, if op.Adjust? || (op.Create? && !op.isNew) then LockTokens(0) else Start, [], NO_WRITES, map[])
  }

  function Begin(s: State, op: Op): State {
    s.(txs := s.txs + [Fresh(op)])
  }

  function Tokens(tx: Tx): seq<TokenId> {
    TokensToLock(tx.op, tx.grants)
  }

  function Update(s: State, x: TxId, tx: Tx): State
    requires x < |s.txs|
  {
    s.(txs := s.txs[x := tx])
  }

  function Acquire(s: State, x: TxId, r: Resource, tx: Tx): State
    requires x < |s.txs|
  {
    Update(s, x, tx).(locks := s.locks[r := x])
  }

  function Without(locks: map<Resource, TxId>, x: TxId): map<Resource, TxId> {
    map r | r in locks && locks[r] != x :: locks[r]
  }

  function Abort(s: State, x: TxId): State
    requires x < |s.txs|
  {
    Update(s, x, s.txs[x].(phase := Finished)).(locks := Without(s.locks, x))
  }

  function CommitOf(tx: Tx): Commit {
    Commit(tx.op, seq(|tx.grants|, k requires 0 <= k < |tx.grants| => tx.grants[k].id), tx.caps)
  }

  function Sums(rows: seq<Donation>, t: TokenId): Vec {
    Vec(ActiveSum(rows, t, Rpm), ActiveSum(rows, t, Daily), ActiveSum(rows, t, Total))
  }

  function WithManual(rewards: Vec, events: seq<Event>, t: TokenId): Vec {
    Vec(rewards.rpm + EventSum(events, ManualOf(t), Rpm),
        rewards.daily + EventSum(events, ManualOf(t), Daily),
        rewards.total + EventSum(events, ManualOf(t), Total))
  }

  /** SELECT … FROM domain_donations WHERE id = … FOR UPDATE. */
  function DoReadRow(s: State, x: TxId): Option<State>
    requires x < |s.txs|
  {
    var tx := s.txs[x];
    if !(tx.phase.Start? && RowOp(tx.op)) then None
    else if tx.op.id >= |s.db.donations| then Some(Abort(s, x))
    else if RowLock(tx.op.id) in s.locks then None
    else if tx.op.Verify? && s.db.donations[tx.op.id].status == Revoked then Some(Abort(s, x))
    else Some(Acquire(s, x, RowLock(tx.op.id),
                      tx.(grants := [Grant(tx.op.id, s.db.donations[tx.op.id])], phase := LockTokens(0))))
  }

  /** An order in which a scan can visit the rows that are not revoked. */
  predicate ScanOrder(db: Db, order: seq<DonationId>) {
    && (forall k :: 0 <= k < |order| ==> order[k] < |db.donations| && db.donations[order[k]].status != Revoked)
    && (forall i :: 0 <= i < |db.donations| && db.donations[i].status != Revoked ==> i in order)
    && (forall j, k :: 0 <= j < k < |order| ==> Differ(order, j, k))
  }

  /** The bulk scan visits the rows that are not revoked when it begins; SQL leaves the order open. */
  function DoOpenScan(s: State, x: TxId, order: seq<DonationId>): Option<State>
    requires x < |s.txs|
  {
    var tx := s.txs[x];
    if !(tx.phase.Start? && tx.op.ApplyPolicy? && ScanOrder(s.db, order)) then None
    else Some(Update(s, x, tx.(phase := Scan(order))))
  }

  /** Locks the next row and re-checks it: a row that was revoked meanwhile is skipped. */
  function DoScanRow(s: State, x: TxId): Option<State>
    requires x < |s.txs|
  {
    var tx := s.txs[x];
    if !(tx.phase.Scan? && tx.phase.todo != [] && tx.phase.todo[0] < |s.db.donations|) then None
    else
      var i, next := tx.phase.todo[0], tx.(phase := Scan(tx.phase.todo[1..]));
      if RowLock(i) in s.locks then None
      else if s.db.donations[i].status == Revoked then Some(Update(s, x, next))
      else Some(Acquire(s, x, RowLock(i), next.(grants := tx.grants + [Grant(i, s.db.donations[i])])))
  }

  function DoCloseScan(s: State, x: TxId): Option<State>
    requires x < |s.txs|
  {
    var tx := s.txs[x];
    if tx.phase == Scan([]) then Some(Update(s, x, tx.(phase := LockTokens(0)))) else None
  }

  /** A new token's row is locked by its own insertion. */
  function DoInsertToken(s: State, x: TxId): Option<State>
    requires x < |s.txs|
  {
    var tx := s.txs[x];
    if !(tx.phase.Start? && tx.op.Create?) then None
    else if tx.op.token in s.db.tokens then Some(Abort(s, x))
    else if TokenLock(tx.op.token) in s.locks then None
    else Some(Acquire(s, x, TokenLock(tx.op.token), tx.(phase := LockTokens(1))))
  }

  function DoLockToken(s: State, x: TxId): Option<State>
    requires x < |s.txs|
  {
    var tx := s.txs[x];
    if !(tx.phase.LockTokens? && tx.phase.locked < |Tokens(tx)|) then None
    else
      var t := Tokens(tx)[tx.phase.locked];
      if t !in s.db.tokens then Some(Abort(s, x))
      else if TokenLock(t) in s.locks then None
      else Some(Acquire(s, x, TokenLock(t), tx.(phase := LockTokens(tx.phase.locked + 1))))
  }

  function DoCountDomains(s: State, x: TxId): Option<State>
    requires x < |s.txs|
  {
    var tx := s.txs[x];
    if !(tx.phase == LockTokens(1) && tx.op.Create?) then None
    else if HeldCount(s.db.donations, tx.op.token) >= tx.op.maxDomains then Some(Abort(s, x))
    else Some(Update(s, x, tx.(phase := Claim)))
  }

  /** Concurrent claims of one domain wait for each other on its unique key. */
  function DoClaimDomain(s: State, x: TxId): Option<State>
    requires x < |s.txs|
  {
    var tx := s.txs[x];
    if !(tx.phase.Claim? && tx.op.Create?) || DomainLock(tx.op.domain) in s.locks then None
    else if !DomainFree(s.db, tx.op.domain) || !Fits(tx.op.reward) then Some(Abort(s, x))
    else Some(Acquire(s, x, DomainLock(tx.op.domain), tx.(w := BodyWrites(tx.op, []), phase := Ready)))
  }

  function DoWriteBody(s: State, x: TxId): Option<State>
    requires x < |s.txs|
  {
    var tx := s.txs[x];
    if tx.phase != LockTokens(|Tokens(tx)|) || tx.op.Create? || (RowOp(tx.op) && |tx.grants| != 1) then None
    else if tx.op.ApplyPolicy? && tx.grants != [] && !Fits(tx.op.reward) then Some(Abort(s, x))
    else Some(Update(s, x, tx.(w := BodyWrites(tx.op, tx.grants), phase := SumRewards(0))))
  }

  function DoReadRewards(s: State, x: TxId): Option<State>
    requires x < |s.txs|
  {
    var tx := s.txs[x];
    if !(tx.phase.SumRewards? && tx.phase.stored < |Tokens(tx)|) then None
    else
      var n := tx.phase.stored;
      Some(Update(s, x, tx.(phase := SumManual(n, Sums(Overlay(s.db, tx.w).donations, Tokens(tx)[n])))))
  }

  function DoReadManual(s: State, x: TxId): Option<State>
    requires x < |s.txs|
  {
    var tx := s.txs[x];
    if !(tx.phase.SumManual? && tx.phase.stored < |Tokens(tx)|) then None
    else
      var n := tx.phase.stored;
      Some(Update(s, x, tx.(phase := Store(n, WithManual(tx.phase.rewards, Overlay(s.db, tx.w).events, Tokens(tx)[n])))))
  }

  function DoStoreQuota(s: State, x: TxId, cap: int): Option<State>
    requires x < |s.txs|
  {
    var tx := s.txs[x];
    if !(tx.phase.Store? && tx.phase.stored < |Tokens(tx)|) then None
    else
      var n, quota := tx.phase.stored, Effective(tx.phase.pre, cap);
      var t := Tokens(tx)[n];
      if !Fits(quota) then Some(Abort(s, x))
      else Some(Update(s, x, tx.(w := tx.w.(tokens := tx.w.tokens[t := Token(quota, cap)]),
                                 caps := tx.caps[t := cap], phase := SumRewards(n + 1))))
  }

  predicate CanCommit(tx: Tx) {
    tx.phase.Ready? || tx.phase == SumRewards(|Tokens(tx)|)
  }

  function DoCommit(s: State, x: TxId): Option<State>
    requires x < |s.txs|
  {
    var tx := s.txs[x];
    if !CanCommit(tx) then None
    else Some(State(Overlay(s.db, tx.w), Without(s.locks, x), s.txs[x := tx.(phase := Finished)], s.log + [CommitOf(tx)]))
  }

  /** One statement of transaction x; None when it is not its turn or it waits for a lock. */
  function Step(s: State, x: TxId, a: Action): Option<State>
    requires x < |s.txs|
  {
    match a
    case ReadRow => DoReadRow(s, x)
    case OpenScan(order) => DoOpenScan(s, x, order)
    case ScanRow => DoScanRow(s, x)
    case CloseScan => DoCloseScan(s, x)
    case InsertToken => DoInsertToken(s, x)
    case LockToken => DoLockToken(s, x)
    case CountDomains => DoCountDomains(s, x)
    case ClaimDomain => DoClaimDomain(s, x)
    case WriteBody => DoWriteBody(s, x)
    case ReadRewards => DoReadRewards(s, x)
    case ReadManual => DoReadManual(s, x)
    case StoreQuota(cap) => DoStoreQuota(s, x, cap)
    case CommitTx => DoCommit(s, x)
    case Fail => if s.txs[x].phase.Finished? then None else Some(Abort(s, x))
  }

  const INITIAL := State(EMPTY, map[], [], [])

  /** Either a transaction begins, or one executes a statement. */
  ghost predicate Next(s: State, s': State) {
    || (exists op :: OpOk(op) && s' == Begin(s, op))
    || (exists x: TxId, a :: x < |s.txs| && Step(s, x, a) == Some(s'))
  }

  ghost predicate NextAt(states: seq<State>, i: nat)
    requires i + 1 < |states|
  {
    Next(states[i], states[i + 1])
  }

  ghost predicate Run(states: seq<State>) {
    && states != []
    && states[0] == INITIAL
    && forall i: nat :: i < |states| - 1 ==> NextAt(states, i)
  }

  // ---------- the invariant ----------

  predicate Held(locks: map<Resource, TxId>, x: TxId, r: Resource) {
    r in locks && locks[r] == x
  }

  predicate RowsHeld(locks: map<Resource, TxId>, x: TxId, grants: seq<Grant>) {
    forall k :: 0 <= k < |grants| ==> Held(locks, x, RowLock(grants[k].id))
  }

  predicate TokensHeld(locks: map<Resource, TxId>, x: TxId, ts: seq<TokenId>, n: nat)
    requires n <= |ts|
  {
    forall j :: 0 <= j < n ==> Held(locks, x, TokenLock(ts[j]))
  }

  predicate RowGuards(op: Op, grants: seq<Grant>) {
    op.Verify? || op.ApplyPolicy? ==> forall k :: 0 <= k < |grants| ==> grants[k].row.status != Revoked
  }

  /**
    What a transaction's sums still count although it is gone: rows that were deleted, in that order,
    and how many they were when it summed the rewards of each token. The transactions of this module
    delete nothing; `DonationDeletion` adds deletions.
   */
  datatype Misses = Misses(deleted: seq<Donation>, read: map<TokenId, nat>) {
    function From(t: TokenId): (k: nat)
      ensures k <= |deleted|
    {
      if t !in read then 0 else if read[t] <= |deleted| then read[t] else |deleted|
    }
    /** The active rewards of the token that were deleted since. */
    function Of(t: TokenId): Vec {
      Sums(deleted[From(t)..], t)
    }
  }

  const NONE := Misses([], map[])

  /** The first n quotas are recalculated and stored. */
  predicate QuotasStored(db: Db, tx: Tx, n: nat, misses: Misses := NONE)
    requires n <= |Tokens(tx)|
  {
    && (forall t :: t in tx.w.tokens ==> t in Tokens(tx)[..n])
    && forall j :: 0 <= j < n ==> QuotaStored(db, tx, Tokens(tx)[j], misses.Of(Tokens(tx)[j]))
  }

  predicate QuotaStored(db: Db, tx: Tx, t: TokenId, missed: Vec := ZERO) {
    && t in tx.w.tokens && t in tx.caps
    && tx.w.tokens[t] == Token(Effective(PreClamps(Overlay(db, tx.w), t).Plus(missed), tx.caps[t]), tx.caps[t])
    && Fits(tx.w.tokens[t].quota)
  }

  /** A recalculating transaction whose rows and events are written. */
  predicate BodyWritten(db: Db, locks: map<Resource, TxId>, x: TxId, tx: Tx, n: nat, misses: Misses := NONE) {
    && !tx.op.Create? && GrantsFit(tx.op, tx.grants)
    && n <= |Tokens(tx)|
    && TokensHeld(locks, x, Tokens(tx), |Tokens(tx)|)
    && (forall j :: 0 <= j < |Tokens(tx)| ==> Tokens(tx)[j] in db.tokens)
    && tx.w == BodyWrites(tx.op, tx.grants).(tokens := tx.w.tokens)
    && (tx.op.ApplyPolicy? && tx.grants != [] ==> Fits(tx.op.reward))
    && QuotasStored(db, tx, n, misses)
  }

  predicate PhaseOk(db: Db, locks: map<Resource, TxId>, x: TxId, tx: Tx, misses: Misses := NONE) {
    match tx.phase
    case Start => tx.grants == [] && tx.w == NO_WRITES && !tx.op.Adjust? && (tx.op.Create? ==> tx.op.isNew)
    case Scan(todo) =>
      && tx.op.ApplyPolicy? && tx.w == NO_WRITES
      && (forall k :: 0 <= k < |todo| ==> todo[k] < |db.donations|)
      && (forall j, k :: 0 <= j < k < |todo| ==> Differ(todo, j, k))
      && (forall k :: 0 <= k < |tx.grants| ==> tx.grants[k].id !in todo)
    case LockTokens(n) =>
      && GrantsFit(tx.op, tx.grants) && tx.w == NO_WRITES
      && n <= |Tokens(tx)| && TokensHeld(locks, x, Tokens(tx), n)
      && (tx.op.Create? && tx.op.isNew ==> n == 1 && tx.op.token !in db.tokens)
      && (!(tx.op.Create? && tx.op.isNew) ==> forall j :: 0 <= j < n ==> Tokens(tx)[j] in db.tokens)
    case Claim =>
      && tx.op.Create? && tx.grants == [] && tx.w == NO_WRITES
      && Held(locks, x, TokenLock(tx.op.token))
      && (tx.op.isNew <==> tx.op.token !in db.tokens)
      && HeldCount(db.donations, tx.op.token) < tx.op.maxDomains
    case SumRewards(n) => BodyWritten(db, locks, x, tx, n, misses)
    case SumManual(n, rewards) =>
      && BodyWritten(db, locks, x, tx, n, misses) && n < |Tokens(tx)|
      && rewards == Sums(Overlay(db, tx.w).donations, Tokens(tx)[n]).Plus(misses.Of(Tokens(tx)[n]))
    case Store(n, pre) =>
      && BodyWritten(db, locks, x, tx, n, misses) && n < |Tokens(tx)|
      && pre == PreClamps(Overlay(db, tx.w), Tokens(tx)[n]).Plus(misses.Of(Tokens(tx)[n]))
    case Ready =>
      && tx.op.Create? && tx.grants == [] && tx.w == BodyWrites(tx.op, [])
      && Held(locks, x, TokenLock(tx.op.token)) && Held(locks, x, DomainLock(tx.op.domain))
      && (tx.op.isNew <==> tx.op.token !in db.tokens)
      && HeldCount(db.donations, tx.op.token) < tx.op.maxDomains
      && DomainFree(db, tx.op.domain) && Fits(tx.op.reward)
    case Finished => true
  }

  /** What a transaction has read is still what is committed, and what it has computed still follows from it. */
  predicate TxOk(db: Db, locks: map<Resource, TxId>, x: TxId, tx: Tx, misses: Misses := NONE) {
    && OpOk(tx.op)
    && (!tx.phase.Finished? ==>
          && GrantsMatch(db, tx.grants)
          && RowGuards(tx.op, tx.grants)
          && RowsHeld(locks, x, tx.grants)
          && PhaseOk(db, locks, x, tx, misses))
  }

  predicate Recalculating(phase: Phase) {
    phase.SumRewards? || phase.SumManual? || phase.Store?
  }

  lemma NothingMissed(t: TokenId)
    ensures NONE.Of(t) == ZERO
  {
  }

  /** Whoever does not recalculate misses nothing. */
  lemma MissesAreIrrelevant(db: Db, locks: map<Resource, TxId>, x: TxId, tx: Tx, misses: Misses, misses': Misses)
    requires TxOk(db, locks, x, tx, misses) && (!Recalculating(tx.phase) || tx.phase == SumRewards(0))
    ensures TxOk(db, locks, x, tx, misses')
  {
  }

  predicate Inv(s: State) {
    && Replay(s.log) == Some(s.db)
    && forall x :: 0 <= x < |s.txs| ==> TxOk(s.db, s.locks, x, s.txs[x])
  }

  // ---------- what other transactions cannot disturb ----------

  /** Nothing about token t changed between the two tables. */
  predicate Quiet(db: Db, db': Db, t: TokenId) {
    && |db.donations| <= |db'.donations|
    && (forall i :: 0 <= i < |db.donations| && db.donations[i].token == t ==> db'.donations[i] == db.donations[i])
    && (forall i :: 0 <= i < |db'.donations| && db'.donations[i].token == t ==>
          i < |db.donations| && db.donations[i].token == t)
    && |db.events| <= |db'.events|
    && db'.events[..|db.events|] == db.events
    && (forall k :: |db.events| <= k < |db'.events| ==> db'.events[k].token != t)
    && (t in db'.tokens <==> t in db.tokens)
  }

  lemma QuietHeldCount(db: Db, db': Db, t: TokenId)
    requires Quiet(db, db', t)
    ensures HeldCount(db'.donations, t) == HeldCount(db.donations, t)
  {
    var n := |db.donations|;
    HeldDiffersAt(db.donations, db'.donations, n, t, n);
    NoneHeld(db'.donations, n, |db'.donations|, t);
  }

  lemma {:induction false} NoneHeld(rows: seq<Donation>, m: nat, n: nat, t: TokenId)
    requires m <= n <= |rows|
    requires forall i :: m <= i < n ==> rows[i].token != t
    ensures HeldUpTo(rows, n, t) == HeldUpTo(rows, m, t)
  {
    if m < n {
      NoneHeld(rows, m, n - 1, t);
    }
  }

  lemma QuietSums(db: Db, db': Db, w: Writes, t: TokenId, l: Limit)
    requires Quiet(db, db', t) && w.inserts == []
    requires forall i :: i in w.rows ==> i < |db.donations|
    ensures ActiveSum(Overlay(db', w).donations, t, l) == ActiveSum(Overlay(db, w).donations, t, l)
    ensures EventSum(Overlay(db', w).events, ManualOf(t), l) == EventSum(Overlay(db, w).events, ManualOf(t), l)
  {
    var n, a, b := |db.donations|, Overlay(db, w).donations, Overlay(db', w).donations;
    RewardsCongruent(a, b, n, t, l);
    InertRewards(b, n, |b|, t, l);
    var extra := db'.events[|db.events|..];
    assert db'.events == db.events + extra;
    EventSumAppend(db'.events, w.events, ManualOf(t), l);
    EventSumAppend(db.events, w.events, ManualOf(t), l);
    EventSumAppend(db.events, extra, ManualOf(t), l);
    InertDeltas(extra, |extra|, ManualOf(t), l);
  }

  lemma QuietPreClamps(db: Db, db': Db, w: Writes, t: TokenId)
    requires Quiet(db, db', t) && w.inserts == []
    requires forall i :: i in w.rows ==> i < |db.donations|
    ensures Sums(Overlay(db', w).donations, t) == Sums(Overlay(db, w).donations, t)
    ensures PreClamps(Overlay(db', w), t) == PreClamps(Overlay(db, w), t)
  {
    forall l
      ensures ActiveSum(Overlay(db', w).donations, t, l) == ActiveSum(Overlay(db, w).donations, t, l)
      ensures EventSum(Overlay(db', w).events, ManualOf(t), l) == EventSum(Overlay(db, w).events, ManualOf(t), l)
    {
      QuietSums(db, db', w, t, l);
    }
  }

  /** What x holds locked is untouched: its rows, its tokens, its domain. */
  ghost predicate Undisturbed(db: Db, db': Db, locks: map<Resource, TxId>, x: TxId) {
    && |db.donations| <= |db'.donations|
    && (forall i: nat :: Held(locks, x, RowLock(i)) && i < |db.donations| ==> db'.donations[i] == db.donations[i])
    && (forall t :: Held(locks, x, TokenLock(t)) ==> Quiet(db, db', t))
    && (forall t :: t in db.tokens ==> t in db'.tokens)
    && (forall d :: Held(locks, x, DomainLock(d)) && DomainFree(db, d) ==> DomainFree(db', d))
  }

  lemma QuotasUndisturbed(db: Db, db': Db, locks: map<Resource, TxId>, x: TxId, tx: Tx, n: nat, misses: Misses)
    requires GrantsMatch(db, tx.grants) && BodyWritten(db, locks, x, tx, n, misses)
    requires Undisturbed(db, db', locks, x)
    ensures BodyWritten(db', locks, x, tx, n, misses)
    ensures forall j :: 0 <= j < |Tokens(tx)| ==>
              && Sums(Overlay(db', tx.w).donations, Tokens(tx)[j]) == Sums(Overlay(db, tx.w).donations, Tokens(tx)[j])
              && PreClamps(Overlay(db', tx.w), Tokens(tx)[j]) == PreClamps(Overlay(db, tx.w), Tokens(tx)[j])
  {
    BodyShape(db, tx.op, tx.grants);
    forall j | 0 <= j < |Tokens(tx)|
      ensures && Sums(Overlay(db', tx.w).donations, Tokens(tx)[j]) == Sums(Overlay(db, tx.w).donations, Tokens(tx)[j])
              && PreClamps(Overlay(db', tx.w), Tokens(tx)[j]) == PreClamps(Overlay(db, tx.w), Tokens(tx)[j])
    {
      assert Held(locks, x, TokenLock(Tokens(tx)[j]));
      QuietPreClamps(db, db', tx.w, Tokens(tx)[j]);
    }
    forall j | 0 <= j < n
      ensures QuotaStored(db', tx, Tokens(tx)[j], misses.Of(Tokens(tx)[j]))
    {
      assert QuotaStored(db, tx, Tokens(tx)[j], misses.Of(Tokens(tx)[j]));
    }
  }

  /** A transaction that is undisturbed and keeps its locks stays as it was. */
  lemma TxStaysOk(db: Db, db': Db, locks: map<Resource, TxId>, locks': map<Resource, TxId>, x: TxId, tx: Tx,
                  misses: Misses := NONE)
    requires TxOk(db, locks, x, tx, misses)
    requires forall r :: Held(locks, x, r) ==> Held(locks', x, r)
    requires Undisturbed(db, db', locks, x)
    ensures TxOk(db', locks', x, tx, misses)
  {
    if !tx.phase.Finished? {
      GrantsUndisturbed(db, db', locks, x, tx.grants);
      if Recalculating(tx.phase) {
        RecalculationStays(db, db', locks, locks', x, tx, misses);
      } else if tx.phase.Claim? || tx.phase.Ready? {
        CreationStays(db, db', locks, locks', x, tx);
      } else if tx.phase.LockTokens? {
        LockingStays(db, db', locks, locks', x, tx);
      }
    }
  }

  lemma RecalculationStays(db: Db, db': Db, locks: map<Resource, TxId>, locks': map<Resource, TxId>, x: TxId, tx: Tx,
                           misses: Misses)
    requires PhaseOk(db, locks, x, tx, misses) && Undisturbed(db, db', locks, x)
    requires GrantsMatch(db, tx.grants) && RowsHeld(locks, x, tx.grants)
    requires forall r :: Held(locks, x, r) ==> Held(locks', x, r)
    requires Recalculating(tx.phase)
    ensures PhaseOk(db', locks', x, tx, misses)
  {
    match tx.phase
    case SumRewards(n) => QuotasUndisturbed(db, db', locks, x, tx, n, misses);
    case SumManual(n, _) => QuotasUndisturbed(db, db', locks, x, tx, n, misses);
    case Store(n, _) => QuotasUndisturbed(db, db', locks, x, tx, n, misses);
  }

  lemma CreationStays(db: Db, db': Db, locks: map<Resource, TxId>, locks': map<Resource, TxId>, x: TxId, tx: Tx)
    requires PhaseOk(db, locks, x, tx) && Undisturbed(db, db', locks, x)
    requires forall r :: Held(locks, x, r) ==> Held(locks', x, r)
    requires tx.phase.Claim? || tx.phase.Ready?
    ensures PhaseOk(db', locks', x, tx)
  {
    QuietHeldCount(db, db', tx.op.token);
  }

  lemma LockingStays(db: Db, db': Db, locks: map<Resource, TxId>, locks': map<Resource, TxId>, x: TxId, tx: Tx)
    requires PhaseOk(db, locks, x, tx) && Undisturbed(db, db', locks, x)
    requires forall r :: Held(locks, x, r) ==> Held(locks', x, r)
    requires tx.phase.LockTokens?
    ensures PhaseOk(db', locks', x, tx)
  {
    if tx.op.Create? && tx.op.isNew { assert Held(locks, x, TokenLock(Tokens(tx)[0])); }
  }

  lemma GrantsUndisturbed(db: Db, db': Db, locks: map<Resource, TxId>, x: TxId, grants: seq<Grant>)
    requires GrantsMatch(db, grants) && RowsHeld(locks, x, grants) && Undisturbed(db, db', locks, x)
    ensures GrantsMatch(db', grants)
  {
    forall k | 0 <= k < |grants|
      ensures grants[k].id < |db'.donations| && grants[k].row == db'.donations[grants[k].id]
    {
      assert Held(locks, x, RowLock(grants[k].id));
    }
  }

  // ---------- commits ----------

  lemma CommittedGrants(db: Db, tx: Tx)
    requires GrantsMatch(db, tx.grants) && GrantsFit(tx.op, tx.grants)
    ensures IdsOk(db, CommitOf(tx)) && Grants(db, CommitOf(tx).ids) == tx.grants
  {
    var ids := CommitOf(tx).ids;
    forall j, k | 0 <= j < k < |ids|
      ensures Differ(ids, j, k)
    {
      assert DifferentRows(tx.grants, j, k);
    }
    assert RowOp(tx.op) ==> ids == [tx.op.id];
    assert Grants(db, ids) == tx.grants;
  }

  /** The pending writes of a transaction at its commit are what the same transaction does when run alone. */
  lemma CommitIsAtomic(db: Db, locks: map<Resource, TxId>, x: TxId, tx: Tx)
    requires TxOk(db, locks, x, tx) && CanCommit(tx)
    ensures Legal(db, CommitOf(tx))
    ensures Do(db, CommitOf(tx)) == Overlay(db, tx.w)
  {
    var c := CommitOf(tx);
    CommittedGrants(db, tx);
    if tx.op.Create? {
      assert Overlay(db, tx.w).tokens == AfterBody(db, c).tokens;
      assert TokensToRecalculate(tx.op, tx.grants) == [];
      assert Do(db, c).tokens == AfterBody(db, c).tokens;
    } else {
      RecalculationIsLegal(db, locks, x, tx);
      QuotasAtCommit(db, locks, x, tx);
      RecalculationIsAtomic(db, tx);
    }
  }

  lemma StoredAtCommit(db: Db, locks: map<Resource, TxId>, x: TxId, tx: Tx, t: TokenId)
    requires TxOk(db, locks, x, tx) && CanCommit(tx) && !tx.op.Create? && t in Tokens(tx)
    requires IdsOk(db, CommitOf(tx)) && Grants(db, CommitOf(tx).ids) == tx.grants
    ensures t in tx.caps && t in tx.w.tokens && Fits(tx.w.tokens[t].quota)
    ensures tx.w.tokens[t] == Recalculated(AfterBody(db, CommitOf(tx)), t, tx.caps[t])
  {
    var j :| 0 <= j < |Tokens(tx)| && Tokens(tx)[j] == t;
    assert QuotaStored(db, tx, Tokens(tx)[j], NONE.Of(Tokens(tx)[j]));
    NothingMissed(t);
    var after := AfterBody(db, CommitOf(tx));
    assert after.donations == Overlay(db, tx.w).donations && after.events == Overlay(db, tx.w).events;
    SameTables(after, Overlay(db, tx.w), t);
  }

  lemma RecalculationIsLegal(db: Db, locks: map<Resource, TxId>, x: TxId, tx: Tx)
    requires TxOk(db, locks, x, tx) && CanCommit(tx) && !tx.op.Create?
    requires IdsOk(db, CommitOf(tx)) && Grants(db, CommitOf(tx).ids) == tx.grants
    ensures Legal(db, CommitOf(tx))
  {
    forall t | t in Tokens(tx)
      ensures t in tx.caps && Fits(Recalculated(AfterBody(db, CommitOf(tx)), t, tx.caps[t]).quota)
    {
      StoredAtCommit(db, locks, x, tx, t);
    }
    if tx.op.Adjust? { assert Tokens(tx)[0] in db.tokens; }
    assert Guard(db, CommitOf(tx));
  }

  lemma QuotasAtCommit(db: Db, locks: map<Resource, TxId>, x: TxId, tx: Tx)
    requires TxOk(db, locks, x, tx) && CanCommit(tx) && !tx.op.Create?
    requires IdsOk(db, CommitOf(tx)) && Grants(db, CommitOf(tx).ids) == tx.grants
    ensures forall t :: t in Tokens(tx) ==> t in tx.caps
    ensures tx.w.tokens == map t | t in Tokens(tx) :: Recalculated(AfterBody(db, CommitOf(tx)), t, tx.caps[t])
  {
    var ts := Tokens(tx);
    assert ts[..|ts|] == ts;
    forall t
      ensures t in tx.w.tokens <==> t in ts
      ensures t in ts ==> t in tx.caps && tx.w.tokens[t] == Recalculated(AfterBody(db, CommitOf(tx)), t, tx.caps[t])
    {
      if t in ts { StoredAtCommit(db, locks, x, tx, t); }
    }
  }

  lemma RecalculationIsAtomic(db: Db, tx: Tx)
    requires GrantsMatch(db, tx.grants) && GrantsFit(tx.op, tx.grants) && !tx.op.Create?
    requires tx.w == BodyWrites(tx.op, tx.grants).(tokens := tx.w.tokens)
    requires Legal(db, CommitOf(tx)) && Grants(db, CommitOf(tx).ids) == tx.grants
    requires tx.w.tokens == map t | t in Tokens(tx) :: Recalculated(AfterBody(db, CommitOf(tx)), t, tx.caps[t])
    ensures Do(db, CommitOf(tx)) == Overlay(db, tx.w)
  {
    var after := AfterBody(db, CommitOf(tx));
    assert BodyWrites(tx.op, tx.grants).tokens == map[];
    assert after.tokens == db.tokens;
    assert after.donations == Overlay(db, tx.w).donations;
  }

  lemma {:induction false} GrantedId(op: Op, grants: seq<Grant>, i: DonationId)
    requires GrantsFit(op, grants) && i in BodyWrites(op, grants).rows
    ensures exists k :: 0 <= k < |grants| && grants[k].id == i
  {
    if op.ApplyPolicy? {
      PolicyRowsGranted(grants, |grants|, op.reward, i);
    }
  }

  /** A commit touches only rows, tokens and domains that its transaction holds locked. */
  predicate Owned(db: Db, locks: map<Resource, TxId>, x: TxId, w: Writes) {
    && (forall i :: i in w.rows ==>
          && i < |db.donations| && Held(locks, x, RowLock(i))
          && w.rows[i].token == db.donations[i].token && w.rows[i].domain == db.donations[i].domain
          && Held(locks, x, TokenLock(w.rows[i].token)))
    && (forall k :: 0 <= k < |w.events| ==> Held(locks, x, TokenLock(w.events[k].token)))
    && (forall k :: 0 <= k < |w.inserts| ==>
          Held(locks, x, TokenLock(w.inserts[k].token)) && Held(locks, x, DomainLock(w.inserts[k].domain)))
    && (forall t :: t in w.tokens ==> Held(locks, x, TokenLock(t)))
    && (forall d :: d in w.domains ==> Held(locks, x, DomainLock(d)))
  }

  lemma CommitIsOwned(db: Db, locks: map<Resource, TxId>, x: TxId, tx: Tx, misses: Misses := NONE)
    requires TxOk(db, locks, x, tx, misses) && CanCommit(tx)
    ensures Owned(db, locks, x, tx.w)
  {
    if !tx.op.Create? {
      BodyShape(db, tx.op, tx.grants);
      var ts := Tokens(tx);
      assert forall j :: 0 <= j < |ts| ==> Held(locks, x, TokenLock(ts[j]));
      forall i | i in tx.w.rows
        ensures Held(locks, x, RowLock(i))
      {
        GrantedId(tx.op, tx.grants, i);
        var k :| 0 <= k < |tx.grants| && tx.grants[k].id == i;
        assert Held(locks, x, RowLock(tx.grants[k].id));
      }
    }
  }

  lemma OthersUndisturbed(db: Db, locks: map<Resource, TxId>, x: TxId, w: Writes, y: TxId)
    requires Owned(db, locks, x, w) && x != y
    ensures Undisturbed(db, Overlay(db, w), locks, y)
  {
    var db' := Overlay(db, w);
    forall t | Held(locks, y, TokenLock(t))
      ensures Quiet(db, db', t)
    {
      assert forall i :: 0 <= i < |db.donations| && i in w.rows ==> db.donations[i].token != t;
    }
    forall d | Held(locks, y, DomainLock(d)) && DomainFree(db, d)
      ensures DomainFree(db', d)
    {
      assert forall i :: 0 <= i < |db.donations| ==> db'.donations[i].domain == db.donations[i].domain;
    }
  }

  // ---------- every statement keeps the invariant ----------

  lemma NothingDisturbed(db: Db, locks: map<Resource, TxId>, y: TxId)
    ensures Undisturbed(db, db, locks, y)
  {
  }

  lemma OthersStayOk(s: State, s': State, x: TxId)
    requires Inv(s) && x < |s.txs| == |s'.txs|
    requires forall y :: 0 <= y < |s.txs| && y != x ==> s'.txs[y] == s.txs[y]
    requires forall y, r :: y != x && Held(s.locks, y, r) ==> Held(s'.locks, y, r)
    requires s'.db == s.db || (Owned(s.db, s.locks, x, s.txs[x].w) && s'.db == Overlay(s.db, s.txs[x].w))
    ensures forall y :: 0 <= y < |s'.txs| && y != x ==> TxOk(s'.db, s'.locks, y, s'.txs[y])
  {
    forall y | 0 <= y < |s'.txs| && y != x
      ensures TxOk(s'.db, s'.locks, y, s'.txs[y])
    {
      if s'.db == s.db { NothingDisturbed(s.db, s.locks, y); } else { OthersUndisturbed(s.db, s.locks, x, s.txs[x].w, y); }
      TxStaysOk(s.db, s'.db, s.locks, s'.locks, y, s.txs[y]);
    }
  }

  lemma FirstGrant(db: Db, locks: map<Resource, TxId>, x: TxId, tx: Tx)
    requires TxOk(db, locks, x, tx) && tx.phase.Start? && RowOp(tx.op) && tx.op.id < |db.donations|
    requires tx.op.Verify? ==> db.donations[tx.op.id].status != Revoked
    ensures var id := tx.op.id;
            TxOk(db, locks[RowLock(id) := x], x, tx.(grants := [Grant(id, db.donations[id])], phase := LockTokens(0)))
  {
  }

  lemma TxOkOf(s: State, x: TxId)
    requires Inv(s) && x < |s.txs|
    ensures TxOk(s.db, s.locks, x, s.txs[x])
  {
  }

  lemma ReadRowKeepsOk(s: State, x: TxId)
    requires x < |s.txs| && TxOk(s.db, s.locks, x, s.txs[x]) && DoReadRow(s, x).Some?
    requires !DoReadRow(s, x).value.txs[x].phase.Finished?
    ensures var s' := DoReadRow(s, x).value; TxOk(s'.db, s'.locks, x, s'.txs[x])
  {
    FirstGrant(s.db, s.locks, x, s.txs[x]);
  }

  lemma StartingKeepsOk(s: State, x: TxId, a: Action)
    requires x < |s.txs| && TxOk(s.db, s.locks, x, s.txs[x]) && Step(s, x, a).Some?
    requires a.CloseScan? || a.InsertToken?
    ensures var s' := Step(s, x, a).value; TxOk(s'.db, s'.locks, x, s'.txs[x])
  {
  }

  lemma OpenScanKeepsOk(s: State, x: TxId, order: seq<DonationId>)
    requires x < |s.txs| && TxOk(s.db, s.locks, x, s.txs[x]) && DoOpenScan(s, x, order).Some?
    ensures var s' := DoOpenScan(s, x, order).value; TxOk(s'.db, s'.locks, x, s'.txs[x])
  {
  }

  lemma OneMoreToken(db: Db, locks: map<Resource, TxId>, x: TxId, tx: Tx, n: nat)
    requires tx.phase == LockTokens(n) && TxOk(db, locks, x, tx) && n < |Tokens(tx)|
    requires Tokens(tx)[n] in db.tokens
    ensures TxOk(db, locks[TokenLock(Tokens(tx)[n]) := x], x, tx.(phase := LockTokens(n + 1)))
  {
    var tx', locks' := tx.(phase := LockTokens(n + 1)), locks[TokenLock(Tokens(tx)[n]) := x];
    assert Tokens(tx') == Tokens(tx);
    assert forall r :: Held(locks, x, r) ==> Held(locks', x, r);
    assert RowsHeld(locks', x, tx.grants);
    assert TokensHeld(locks', x, Tokens(tx), n + 1);
  }

  lemma LockTokenKeepsOk(s: State, x: TxId)
    requires x < |s.txs| && TxOk(s.db, s.locks, x, s.txs[x]) && DoLockToken(s, x).Some?
    requires !DoLockToken(s, x).value.txs[x].phase.Finished?
    ensures var s' := DoLockToken(s, x).value; TxOk(s'.db, s'.locks, x, s'.txs[x])
  {
    OneMoreToken(s.db, s.locks, x, s.txs[x], s.txs[x].phase.locked);
  }

  lemma FinishedIsOk(s: State, x: TxId, a: Action, misses: Misses)
    requires x < |s.txs| && OpOk(s.txs[x].op) && Step(s, x, a).Some?
    requires Step(s, x, a).value.txs[x].phase.Finished?
    ensures var s' := Step(s, x, a).value; TxOk(s'.db, s'.locks, x, s'.txs[x], misses)
  {
    OpNeverChanges(s, x, a);
  }

  lemma OpNeverChanges(s: State, x: TxId, a: Action)
    requires x < |s.txs| && Step(s, x, a).Some?
    ensures x < |Step(s, x, a).value.txs| && Step(s, x, a).value.txs[x].op == s.txs[x].op
  {
  }

  lemma CreatingKeepsOk(s: State, x: TxId, a: Action)
    requires x < |s.txs| && TxOk(s.db, s.locks, x, s.txs[x]) && Step(s, x, a).Some?
    requires a.CountDomains? || a.ClaimDomain?
    ensures var s' := Step(s, x, a).value; TxOk(s'.db, s'.locks, x, s'.txs[x])
  {
    var tx := s.txs[x];
    if a.CountDomains? {
      assert Held(s.locks, x, TokenLock(Tokens(tx)[0]));
    }
  }

  /** The misses agree on the tokens whose quotas are stored. */
  predicate SameMisses(tx: Tx, n: nat, misses: Misses, misses': Misses)
    requires n <= |Tokens(tx)|
  {
    forall j :: 0 <= j < n ==> misses'.Of(Tokens(tx)[j]) == misses.Of(Tokens(tx)[j])
  }

  lemma PhaseIsIrrelevant(db: Db, locks: map<Resource, TxId>, x: TxId, tx: Tx, phase: Phase, n: nat,
                          misses: Misses, misses': Misses)
    requires BodyWritten(db, locks, x, tx, n, misses) && SameMisses(tx, n, misses, misses')
    ensures BodyWritten(db, locks, x, tx.(phase := phase), n, misses')
  {
    var tx' := tx.(phase := phase);
    assert Tokens(tx') == Tokens(tx);
    forall j | 0 <= j < n
      ensures QuotaStored(db, tx', Tokens(tx')[j], misses'.Of(Tokens(tx')[j]))
    {
      assert QuotaStored(db, tx, Tokens(tx)[j], misses.Of(Tokens(tx)[j]));
    }
  }

  /** What is summed now misses nothing. */
  lemma RewardsRead(db: Db, locks: map<Resource, TxId>, x: TxId, tx: Tx, n: nat, misses: Misses, misses': Misses)
    requires tx.phase == SumRewards(n) && TxOk(db, locks, x, tx, misses) && n < |Tokens(tx)|
    requires SameMisses(tx, n, misses, misses') && misses'.Of(Tokens(tx)[n]) == ZERO
    ensures TxOk(db, locks, x, tx.(phase := SumManual(n, Sums(Overlay(db, tx.w).donations, Tokens(tx)[n]))), misses')
  {
    PhaseIsIrrelevant(db, locks, x, tx, SumManual(n, Sums(Overlay(db, tx.w).donations, Tokens(tx)[n])), n, misses, misses');
  }

  lemma ManualRead(db: Db, locks: map<Resource, TxId>, x: TxId, tx: Tx, n: nat, rewards: Vec, misses: Misses)
    requires tx.phase == SumManual(n, rewards) && TxOk(db, locks, x, tx, misses)
    ensures TxOk(db, locks, x, tx.(phase := Store(n, WithManual(rewards, Overlay(db, tx.w).events, Tokens(tx)[n]))), misses)
  {
    PhaseIsIrrelevant(db, locks, x, tx, Store(n, WithManual(rewards, Overlay(db, tx.w).events, Tokens(tx)[n])), n,
                      misses, misses);
  }

  lemma ScannedRow(db: Db, locks: map<Resource, TxId>, x: TxId, grants: seq<Grant>, i: DonationId)
    requires GrantsMatch(db, grants) && RowsHeld(locks, x, grants) && i < |db.donations|
    requires forall k :: 0 <= k < |grants| ==> grants[k].id != i
    ensures GrantsMatch(db, grants + [Grant(i, db.donations[i])])
    ensures RowsHeld(locks[RowLock(i) := x], x, grants + [Grant(i, db.donations[i])])
  {
    var grants' := grants + [Grant(i, db.donations[i])];
    forall j, k | 0 <= j < k < |grants'|
      ensures DifferentRows(grants', j, k)
    {
      if k < |grants| { assert DifferentRows(grants, j, k); }
    }
    forall k | 0 <= k < |grants'|
      ensures Held(locks[RowLock(i) := x], x, RowLock(grants'[k].id))
    {
      if k < |grants| { assert Held(locks, x, RowLock(grants[k].id)); }
    }
  }

  lemma ScanTail(todo: seq<DonationId>)
    requires todo != []
    requires forall j, k :: 0 <= j < k < |todo| ==> Differ(todo, j, k)
    ensures forall j, k :: 0 <= j < k < |todo[1..]| ==> Differ(todo[1..], j, k)
    ensures todo[0] !in todo[1..]
    ensures forall i :: i in todo[1..] ==> i in todo
  {
    var tail := todo[1..];
    forall j, k | 0 <= j < k < |tail|
      ensures Differ(tail, j, k)
    {
      assert Differ(todo, j + 1, k + 1);
    }
    forall k | 0 <= k < |tail|
      ensures tail[k] != todo[0] && tail[k] in todo
    {
      assert Differ(todo, 0, k + 1);
    }
  }

  lemma ScanGoesOn(db: Db, locks: map<Resource, TxId>, x: TxId, tx: Tx)
    requires TxOk(db, locks, x, tx) && tx.phase.Scan? && tx.phase.todo != []
    ensures var i, next := tx.phase.todo[0], tx.(phase := Scan(tx.phase.todo[1..]));
            && (db.donations[i].status == Revoked ==> TxOk(db, locks, x, next))
            && (db.donations[i].status != Revoked ==>
                  TxOk(db, locks[RowLock(i) := x], x, next.(grants := tx.grants + [Grant(i, db.donations[i])])))
  {
    var todo := tx.phase.todo;
    ScanTail(todo);
    assert todo[0] in todo;
    ScannedRow(db, locks, x, tx.grants, todo[0]);
  }

  lemma ScanKeepsOk(s: State, x: TxId)
    requires x < |s.txs| && TxOk(s.db, s.locks, x, s.txs[x]) && DoScanRow(s, x).Some?
    ensures var s' := DoScanRow(s, x).value; TxOk(s'.db, s'.locks, x, s'.txs[x])
  {
    ScanGoesOn(s.db, s.locks, x, s.txs[x]);
  }

  lemma WriteKeepsOk(s: State, x: TxId)
    requires x < |s.txs| && TxOk(s.db, s.locks, x, s.txs[x]) && DoWriteBody(s, x).Some?
    requires !DoWriteBody(s, x).value.txs[x].phase.Finished?
    ensures var s' := DoWriteBody(s, x).value; TxOk(s'.db, s'.locks, x, s'.txs[x])
  {
    var tx, s' := s.txs[x], DoWriteBody(s, x).value;
    var tx' := s'.txs[x];
    assert Tokens(tx') == Tokens(tx);
    BodyShape(s.db, tx.op, tx.grants);
    assert tx'.w.tokens == map[];
  }

  lemma EarlierQuota(db: Db, tx: Tx, n: nat, j: nat, misses: Misses)
    requires j < n < |Tokens(tx)| && Ascending(Tokens(tx)) && QuotasStored(db, tx, n, misses)
    ensures QuotaStored(db, tx, Tokens(tx)[j], misses.Of(Tokens(tx)[j])) && Tokens(tx)[j] != Tokens(tx)[n]
  {
    assert Tokens(tx)[j] < Tokens(tx)[n];
  }

  /** The transaction after it stored the n-th quota. */
  function Stored(db: Db, tx: Tx, n: nat, cap: int, missed: Vec): Tx
    requires n < |Tokens(tx)|
  {
    var t := Tokens(tx)[n];
    var quota := Effective(PreClamps(Overlay(db, tx.w), t).Plus(missed), cap);
    tx.(w := tx.w.(tokens := tx.w.tokens[t := Token(quota, cap)]), caps := tx.caps[t := cap], phase := SumRewards(n + 1))
  }

  lemma QuotaStaysStored(db: Db, tx: Tx, n: nat, u: TokenId, cap: int, missed: Vec, missedOfU: Vec)
    requires n < |Tokens(tx)|
    requires var t := Tokens(tx)[n];
             if u == t then missedOfU == missed && Fits(Effective(PreClamps(Overlay(db, tx.w), t).Plus(missed), cap))
             else QuotaStored(db, tx, u, missedOfU)
    ensures QuotaStored(db, Stored(db, tx, n, cap, missed), u, missedOfU)
  {
    SameTables(Overlay(db, Stored(db, tx, n, cap, missed).w), Overlay(db, tx.w), u);
  }

  lemma QuotasStoredAfter(db: Db, tx: Tx, n: nat, cap: int, misses: Misses)
    requires n < |Tokens(tx)| && Ascending(Tokens(tx)) && QuotasStored(db, tx, n, misses)
    requires var t := Tokens(tx)[n]; Fits(Effective(PreClamps(Overlay(db, tx.w), t).Plus(misses.Of(t)), cap))
    ensures var tx' := Stored(db, tx, n, cap, misses.Of(Tokens(tx)[n]));
            Tokens(tx') == Tokens(tx) && QuotasStored(db, tx', n + 1, misses)
  {
    var ts := Tokens(tx);
    var tx' := Stored(db, tx, n, cap, misses.Of(ts[n]));
    assert Tokens(tx') == ts;
    forall j | 0 <= j < n + 1
      ensures QuotaStored(db, tx', ts[j], misses.Of(ts[j]))
    {
      EachQuotaStored(db, tx, n, j, cap, misses);
    }
    assert ts[..n + 1] == ts[..n] + [ts[n]];
  }

  lemma EachQuotaStored(db: Db, tx: Tx, n: nat, j: nat, cap: int, misses: Misses)
    requires j <= n < |Tokens(tx)| && Ascending(Tokens(tx)) && QuotasStored(db, tx, n, misses)
    requires var t := Tokens(tx)[n]; Fits(Effective(PreClamps(Overlay(db, tx.w), t).Plus(misses.Of(t)), cap))
    ensures var ts := Tokens(tx); QuotaStored(db, Stored(db, tx, n, cap, misses.Of(ts[n])), ts[j], misses.Of(ts[j]))
  {
    var ts := Tokens(tx);
    if j < n { EarlierQuota(db, tx, n, j, misses); }
    QuotaStaysStored(db, tx, n, ts[j], cap, misses.Of(ts[n]), misses.Of(ts[j]));
  }

  lemma OneMoreQuota(db: Db, locks: map<Resource, TxId>, x: TxId, tx: Tx, n: nat, cap: int, misses: Misses)
    requires BodyWritten(db, locks, x, tx, n, misses) && n < |Tokens(tx)|
    requires var t := Tokens(tx)[n]; Fits(Effective(PreClamps(Overlay(db, tx.w), t).Plus(misses.Of(t)), cap))
    ensures BodyWritten(db, locks, x, Stored(db, tx, n, cap, misses.Of(Tokens(tx)[n])), n + 1, misses)
  {
    TokensOfIsSorted(tx.grants);
    QuotasStoredAfter(db, tx, n, cap, misses);
  }

  lemma StoreKeepsOk(s: State, x: TxId, cap: int, misses: Misses)
    requires x < |s.txs| && TxOk(s.db, s.locks, x, s.txs[x], misses) && DoStoreQuota(s, x, cap).Some?
    requires !DoStoreQuota(s, x, cap).value.txs[x].phase.Finished?
    ensures var s' := DoStoreQuota(s, x, cap).value; TxOk(s'.db, s'.locks, x, s'.txs[x], misses)
  {
    StoreIsStored(s, x, cap, misses);
    StoredIsOk(s.db, s.locks, x, s.txs[x], cap, misses);
  }

  lemma StoreIsStored(s: State, x: TxId, cap: int, misses: Misses)
    requires x < |s.txs| && TxOk(s.db, s.locks, x, s.txs[x], misses) && DoStoreQuota(s, x, cap).Some?
    requires !DoStoreQuota(s, x, cap).value.txs[x].phase.Finished?
    ensures var tx := s.txs[x];
            && tx.phase.Store? && tx.phase.stored < |Tokens(tx)| && Fits(Effective(tx.phase.pre, cap))
            && DoStoreQuota(s, x, cap).value
               == Update(s, x, Stored(s.db, tx, tx.phase.stored, cap, misses.Of(Tokens(tx)[tx.phase.stored])))
  {
  }

  lemma StoredIsOk(db: Db, locks: map<Resource, TxId>, x: TxId, tx: Tx, cap: int, misses: Misses)
    requires TxOk(db, locks, x, tx, misses) && tx.phase.Store? && tx.phase.stored < |Tokens(tx)|
    requires Fits(Effective(tx.phase.pre, cap))
    ensures TxOk(db, locks, x, Stored(db, tx, tx.phase.stored, cap, misses.Of(Tokens(tx)[tx.phase.stored])), misses)
  {
    OneMoreQuota(db, locks, x, tx, tx.phase.stored, cap, misses);
  }

  lemma RecalculatingKeepsOk(s: State, x: TxId, a: Action, misses: Misses, misses': Misses)
    requires x < |s.txs| && TxOk(s.db, s.locks, x, s.txs[x], misses) && Step(s, x, a).Some?
    requires (a.ReadRewards? || a.ReadManual? || a.StoreQuota?) && SeesNow(s.txs[x], a, misses, misses')
    requires !Step(s, x, a).value.txs[x].phase.Finished?
    ensures var s' := Step(s, x, a).value; TxOk(s'.db, s'.locks, x, s'.txs[x], misses')
  {
    var tx := s.txs[x];
    match a
    case ReadRewards => RewardsRead(s.db, s.locks, x, tx, tx.phase.stored, misses, misses');
    case ReadManual => ManualRead(s.db, s.locks, x, tx, tx.phase.stored, tx.phase.rewards, misses);
    case StoreQuota(cap) => StoreKeepsOk(s, x, cap, misses);
  }

  /** Summing the rewards of a token sees all that is there, and no other statement changes what is missed. */
  predicate SeesNow(tx: Tx, a: Action, misses: Misses, misses': Misses) {
    if a.ReadRewards? && tx.phase.SumRewards? && tx.phase.stored < |Tokens(tx)|
    then SameMisses(tx, tx.phase.stored, misses, misses') && misses'.Of(Tokens(tx)[tx.phase.stored]) == ZERO
    else misses' == misses
  }

  lemma LockingKeepsOk(s: State, x: TxId, a: Action)
    requires x < |s.txs| && TxOk(s.db, s.locks, x, s.txs[x]) && Step(s, x, a).Some?
    requires !Step(s, x, a).value.txs[x].phase.Finished?
    requires !(a.ReadRewards? || a.ReadManual? || a.StoreQuota?)
    ensures var s' := Step(s, x, a).value; TxOk(s'.db, s'.locks, x, s'.txs[x])
  {
    match a
    case ScanRow => ScanKeepsOk(s, x);
    case LockToken => LockTokenKeepsOk(s, x);
    case CountDomains => CreatingKeepsOk(s, x, a);
    case ClaimDomain => CreatingKeepsOk(s, x, a);
    case ReadRow => ReadRowKeepsOk(s, x);
    case OpenScan(order) => OpenScanKeepsOk(s, x, order);
    case CloseScan => StartingKeepsOk(s, x, a);
    case InsertToken => StartingKeepsOk(s, x, a);
    case WriteBody => WriteKeepsOk(s, x);
  }

  /** The statements before the recalculation. */
  lemma LockingPhases(s: State, x: TxId, a: Action)
    requires x < |s.txs| && Step(s, x, a).Some? && !Step(s, x, a).value.txs[x].phase.Finished?
    requires !(a.ReadRewards? || a.ReadManual? || a.StoreQuota?)
    ensures var after := Step(s, x, a).value.txs[x].phase;
            !Recalculating(s.txs[x].phase) && (!Recalculating(after) || after == SumRewards(0))
  {
  }

  /** The statement's own transaction is as it should be afterwards. */
  lemma OwnTxOk(s: State, x: TxId, a: Action, misses: Misses, misses': Misses)
    requires x < |s.txs| && TxOk(s.db, s.locks, x, s.txs[x], misses) && Step(s, x, a).Some?
    requires SeesNow(s.txs[x], a, misses, misses')
    ensures var s' := Step(s, x, a).value; TxOk(s'.db, s'.locks, x, s'.txs[x], misses')
  {
    var s' := Step(s, x, a).value;
    if s'.txs[x].phase.Finished? {
      FinishedIsOk(s, x, a, misses');
    } else if a.ReadRewards? || a.ReadManual? || a.StoreQuota? {
      RecalculatingKeepsOk(s, x, a, misses, misses');
    } else {
      LockingPhases(s, x, a);
      MissesAreIrrelevant(s.db, s.locks, x, s.txs[x], misses, NONE);
      LockingKeepsOk(s, x, a);
      MissesAreIrrelevant(s'.db, s'.locks, x, s'.txs[x], NONE, misses');
    }
  }

  /** Only a commit changes the tables and the log. */
  lemma StepShape(s: State, x: TxId, a: Action)
    requires x < |s.txs| && Step(s, x, a).Some?
    ensures var s' := Step(s, x, a).value;
            && |s'.txs| == |s.txs|
            && (forall y :: 0 <= y < |s.txs| && y != x ==> s'.txs[y] == s.txs[y])
            && (forall y, r :: y != x && Held(s.locks, y, r) ==> Held(s'.locks, y, r))
            && (!a.CommitTx? ==> s'.db == s.db && s'.log == s.log)
  {
  }

  lemma NothingIsMissed(tx: Tx, a: Action)
    ensures SeesNow(tx, a, NONE, NONE)
  {
    if tx.phase.SumRewards? && tx.phase.stored < |Tokens(tx)| { NothingMissed(Tokens(tx)[tx.phase.stored]); }
  }

  lemma StepKeepsInv(s: State, x: TxId, a: Action)
    requires Inv(s) && x < |s.txs| && Step(s, x, a).Some?
    ensures Inv(Step(s, x, a).value)
  {
    var s' := Step(s, x, a).value;
    TxOkOf(s, x);
    NothingIsMissed(s.txs[x], a);
    OwnTxOk(s, x, a, NONE, NONE);
    StepShape(s, x, a);
    if a.CommitTx? {
      CommitKeepsReplay(s, x);
    }
    OthersStayOk(s, s', x);
  }

  lemma CommitKeepsReplay(s: State, x: TxId)
    requires Inv(s) && x < |s.txs| && DoCommit(s, x).Some?
    ensures var s' := DoCommit(s, x).value;
            && Replay(s'.log) == Some(s'.db)
            && Owned(s.db, s.locks, x, s.txs[x].w) && s'.db == Overlay(s.db, s.txs[x].w)
  {
    var s' := DoCommit(s, x).value;
    assert TxOk(s.db, s.locks, x, s.txs[x]);
    CommitIsOwned(s.db, s.locks, x, s.txs[x]);
    CommitIsAtomic(s.db, s.locks, x, s.txs[x]);
    assert s'.log[..|s'.log| - 1] == s.log;
  }

  lemma BeginKeepsInv(s: State, op: Op)
    requires Inv(s) && OpOk(op)
    ensures Inv(Begin(s, op))
  {
    var s' := Begin(s, op);
    FreshIsOk(s.db, s.locks, |s.txs|, op);
    forall x | 0 <= x < |s'.txs|
      ensures TxOk(s'.db, s'.locks, x, s'.txs[x])
    {
      if x < |s.txs| { TxOkOf(s, x); }
    }
  }

  lemma FreshIsOk(db: Db, locks: map<Resource, TxId>, x: TxId, op: Op)
    requires OpOk(op)
    ensures TxOk(db, locks, x, Fresh(op))
  {
  }

  lemma NextKeepsInv(s: State, s': State)
    requires Inv(s) && Next(s, s')
    ensures Inv(s')
  {
    if x: TxId, a :| x < |s.txs| && Step(s, x, a) == Some(s') {
      StepKeepsInv(s, x, a);
    } else {
      var op :| OpOk(op) && s' == Begin(s, op);
      BeginKeepsInv(s, op);
    }
  }

  lemma {:induction false} RunKeepsInv(states: seq<State>, i: nat)
    requires Run(states) && i < |states|
    ensures Inv(states[i])
  {
    if i > 0 {
      RunKeepsInv(states, i - 1);
      assert NextAt(states, i - 1);
      NextKeepsInv(states[i - 1], states[i]);
    }
  }

  /**
    Whatever the interleaving of statements, the committed tables are those that the committed
    transactions produce when they run one after the other in the order of their commits.
   */
  lemma CommitsSerialize(states: seq<State>, i: nat)
    requires Run(states) && i < |states|
    ensures Replay(states[i].log) == Some(states[i].db)
  {
    RunKeepsInv(states, i);
  }

  /** At every point of every run, every token's committed quota follows from the committed rows and events. */
  lemma QuotaExactInEveryRun(states: seq<State>, i: nat)
    requires Run(states) && i < |states|
    ensures QuotaExact(states[i].db) && WellFormed(states[i].db)
  {
    CommitsSerialize(states, i);
    ReplayKeepsQuota(states[i].log);
  }

  /** At every point of every run, the ledgers are exact if and only if no committed restore hit an active donation. */
  lemma LedgerInEveryRun(states: seq<State>, i: nat, t: TokenId, l: Limit)
    requires Run(states) && i < |states|
    ensures Replay(states[i].log).Some?
    ensures LedgerExact(states[i].db) <==> GuardedLog(states[i].log)
    ensures GuardedLog(states[i].log) ==> PreClamp(states[i].db, t, l) == EventSum(states[i].db.events, OfToken(t), l)
  {
    CommitsSerialize(states, i);
    LedgerExactIffGuarded(states[i].log);
    if GuardedLog(states[i].log) {
      TokenLedgerIsQuota(states[i].log, t, l);
    }
  }

  /** Concurrent creations cannot carry a token past the domain limit. */
  lemma DomainLimitInEveryRun(states: seq<State>, i: nat, t: TokenId, limit: nat)
    requires Run(states) && i < |states|
    requires forall k :: 0 <= k < |states[i].log| && states[i].log[k].op.Create? ==> states[i].log[k].op.maxDomains <= limit
    ensures Replay(states[i].log).Some?
    ensures HeldCount(states[i].db.donations, t) <= limit + Restores(states[i].log, t)
  {
    CommitsSerialize(states, i);
    HeldWithinLimit(states[i].log, t, limit);
  }
}
