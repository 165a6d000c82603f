/**
  The lock order of the donation transactions: as long as the scans of bulk policy applications
  follow one order of the rows, and so with at most one such application in flight, nobody waits
  for ever, and every schedule is finite.  `DonationDeadlocks` is about scans that disagree.
 */
module DonationLocks {
  import opened Options
  import opened DonationModel
  import opened DonationLedger
  import opened DonationProtocol

  predicate Unfinished(s: State, x: TxId) {
    x < |s.txs| && !s.txs[x].phase.Finished?
  }

  // ---------- who holds which lock ----------

  /** A lock is held by an unfinished transaction that has passed the statement acquiring it. */
  predicate HolderOk(s: State, r: Resource)
    requires r in s.locks
  {
    var x := s.locks[r];
    && Unfinished(s, x)
    && (var tx := s.txs[x];
        match r
        case RowLock(i) => !tx.phase.Start? && IsGranted(tx.grants, i)
        case TokenLock(t) =>
          && !tx.phase.Start? && !tx.phase.Scan?
          && (tx.phase.LockTokens? ==> tx.phase.locked <= |Tokens(tx)| && t in Tokens(tx)[..tx.phase.locked])
        case DomainLock(_) => tx.phase.Ready?)
  }

  predicate IsGranted(grants: seq<Grant>, i: DonationId) {
    exists k :: 0 <= k < |grants| && grants[k].id == i
  }

  predicate LocksOk(s: State) {
    forall r :: r in s.locks ==> HolderOk(s, r)
  }

  lemma AcquiredLockOk(s: State, x: TxId, a: Action, r: Resource)
    requires x < |s.txs| && Step(s, x, a).Some?
    requires r in Step(s, x, a).value.locks && r !in s.locks
    ensures HolderOk(Step(s, x, a).value, r)
  {
    var tx, tx' := s.txs[x], Step(s, x, a).value.txs[x];
    if a.LockToken? {
      assert Tokens(tx') == Tokens(tx);
      assert Tokens(tx')[..tx'.phase.locked][tx.phase.locked] == Tokens(tx)[tx.phase.locked];
    } else if a.InsertToken? {
      assert Tokens(tx')[..1] == [tx.op.token];
    } else if a.ReadRow? || a.ScanRow? {
      assert tx'.grants[|tx'.grants| - 1].id == r.id;
    }
  }

  lemma KeptLockOk(s: State, x: TxId, a: Action, r: Resource)
    requires x < |s.txs| && Step(s, x, a).Some?
    requires r in s.locks && s.locks[r] == x && HolderOk(s, r) && r in Step(s, x, a).value.locks
    ensures HolderOk(Step(s, x, a).value, r)
  {
    var tx, tx' := s.txs[x], Step(s, x, a).value.txs[x];
    if a.LockToken? && r.TokenLock? {
      var n := tx.phase.locked;
      assert Tokens(tx') == Tokens(tx);
      var j :| 0 <= j < n && Tokens(tx)[..n][j] == r.token;
      assert Tokens(tx')[..n + 1][j] == r.token;
    } else if a.ScanRow? && r.RowLock? {
      var k :| 0 <= k < |tx.grants| && tx.grants[k].id == r.id;
      assert tx'.grants[k].id == r.id;
    }
  }

  lemma StepKeepsLocksOk(s: State, x: TxId, a: Action)
    requires Inv(s) && LocksOk(s) && x < |s.txs| && Step(s, x, a).Some?
    ensures LocksOk(Step(s, x, a).value)
  {
    var s' := Step(s, x, a).value;
    StepShape(s, x, a);
    forall r | r in s'.locks
      ensures HolderOk(s', r)
    {
      if r !in s.locks {
        AcquiredLockOk(s, x, a, r);
      } else if s.locks[r] == x {
        assert HolderOk(s, r);
        KeptLockOk(s, x, a, r);
      } else {
        assert HolderOk(s, r);
        assert Held(s.locks, s.locks[r], r);
      }
    }
  }

  lemma BeginKeepsLocksOk(s: State, op: Op)
    requires LocksOk(s)
    ensures LocksOk(Begin(s, op))
  {
    assert forall r :: r in s.locks ==> HolderOk(s, r);
  }

  lemma NextKeepsLocksOk(s: State, s': State)
    requires Inv(s) && LocksOk(s) && Next(s, s')
    ensures LocksOk(s')
  {
    if x: TxId, a :| x < |s.txs| && Step(s, x, a) == Some(s') {
      StepKeepsLocksOk(s, x, a);
    } else {
      var op :| OpOk(op) && s' == Begin(s, op);
      BeginKeepsLocksOk(s, op);
    }
  }

  lemma StepOfRun(states: seq<State>, i: nat)
    requires Run(states) && i + 1 < |states|
    ensures Next(states[i], states[i + 1])
  {
    assert NextAt(states, i);
  }

  lemma {:induction false} RunKeepsLocksOk(states: seq<State>, i: nat)
    requires Run(states) && i < |states|
    ensures LocksOk(states[i])
  {
    if i > 0 {
      RunKeepsLocksOk(states, i - 1);
      RunKeepsInv(states, i - 1);
      StepOfRun(states, i - 1);
      NextKeepsLocksOk(states[i - 1], states[i]);
    }
  }

  // ---------- waiting ----------

  /** The lock that the transaction's next statement takes. */
  function Wanted(s: State, x: TxId): Option<Resource>
    requires x < |s.txs|
  {
    var tx := s.txs[x];
    match tx.phase
    case Start =>
      if RowOp(tx.op) && tx.op.id < |s.db.donations| then Some(RowLock(tx.op.id))
      else if tx.op.Create? && tx.op.token !in s.db.tokens then Some(TokenLock(tx.op.token))
      else None
    case Scan(todo) => if todo != [] then Some(RowLock(todo[0])) else None
    case LockTokens(n) =>
      if n < |Tokens(tx)| && Tokens(tx)[n] in s.db.tokens then Some(TokenLock(Tokens(tx)[n])) else None
    case Claim => if tx.op.Create? then Some(DomainLock(tx.op.domain)) else None
    case _ => None
  }

  predicate Blocked(s: State, x: TxId) {
    Unfinished(s, x) && Wanted(s, x).Some? && Wanted(s, x).value in s.locks
  }

  /** x waits for a lock that y holds. */
  predicate WaitsFor(s: State, x: TxId, y: TxId) {
    Blocked(s, x) && s.locks[Wanted(s, x).value] == y
  }

  /** The statement that the transaction is at. */
  function NextAction(s: State, x: TxId, order: seq<DonationId>): Action
    requires x < |s.txs|
  {
    var tx := s.txs[x];
    match tx.phase
    case Start => if RowOp(tx.op) then ReadRow else if tx.op.Create? then InsertToken else OpenScan(order)
    case Scan(todo) => if todo == [] then CloseScan else ScanRow
    case LockTokens(n) => if n < |Tokens(tx)| then LockToken else if tx.op.Create? then CountDomains else WriteBody
    case Claim => ClaimDomain
    case SumRewards(n) => if n < |Tokens(tx)| then ReadRewards else CommitTx
    case SumManual(_, _) => ReadManual
    case Store(_, _) => StoreQuota(0)
    case Ready => CommitTx
    case Finished => Fail
  }

  /** What a transaction's phase says about where it stands, without the values it has read. */
  predicate WellPlaced(s: State, x: TxId)
    requires x < |s.txs|
  {
    var tx := s.txs[x];
    match tx.phase
    case Start => RowOp(tx.op) || tx.op.ApplyPolicy? || tx.op.Create?
    case Scan(todo) => tx.op.ApplyPolicy? && (todo != [] ==> todo[0] < |s.db.donations|)
    case LockTokens(n) => n <= |Tokens(tx)| && (RowOp(tx.op) ==> |tx.grants| == 1)
    case Claim => tx.op.Create?
    case SumRewards(n) => n <= |Tokens(tx)|
    case SumManual(n, _) => n < |Tokens(tx)|
    case Store(n, _) => n < |Tokens(tx)|
    case Ready => true
    case Finished => true
  }

  lemma AlwaysWellPlaced(s: State, x: TxId)
    requires Inv(s) && x < |s.txs|
    ensures WellPlaced(s, x)
  {
    assert TxOk(s.db, s.locks, x, s.txs[x]);
  }

  lemma WellPlacedCanStep(s: State, x: TxId, order: seq<DonationId>)
    requires Unfinished(s, x) && WellPlaced(s, x) && !Blocked(s, x) && ScanOrder(s.db, order)
    ensures Step(s, x, NextAction(s, x, order)).Some?
  {
  }

  // ---------- scans that follow one order of the rows ----------

  /** A row order gives every row its own position. */
  type RowOrder = DonationId -> nat

  ghost predicate IsOrder(pos: RowOrder) {
    forall i, j :: pos(i) == pos(j) ==> i == j
  }

  predicate Precedes(pos: RowOrder, order: seq<DonationId>, j: int, k: int)
    requires 0 <= j < |order| && 0 <= k < |order|
  {
    pos(order[j]) < pos(order[k])
  }

  predicate Ascends(pos: RowOrder, order: seq<DonationId>) {
    forall j, k :: 0 <= j < k < |order| ==> Precedes(pos, order, j, k)
  }

  /** What the scan has still to visit follows the order, after what it has locked. */
  predicate ScanFollows(pos: RowOrder, tx: Tx) {
    tx.phase.Scan? ==>
      && Ascends(pos, tx.phase.todo)
      && forall g, k :: 0 <= g < |tx.grants| && 0 <= k < |tx.phase.todo| ==> pos(tx.grants[g].id) < pos(tx.phase.todo[k])
  }

  predicate ScansFollow(s: State, pos: RowOrder) {
    forall x :: 0 <= x < |s.txs| ==> ScanFollows(pos, s.txs[x])
  }

  predicate OpensInOrder(a: Action, pos: RowOrder) {
    a.OpenScan? ==> Ascends(pos, a.order)
  }

  lemma StepKeepsScansFollow(s: State, x: TxId, a: Action, pos: RowOrder)
    requires x < |s.txs| && Step(s, x, a).Some? && ScansFollow(s, pos) && OpensInOrder(a, pos)
    requires forall y :: 0 <= y < |s.txs| && s.txs[y].phase.Start? ==> s.txs[y].grants == []
    ensures ScansFollow(Step(s, x, a).value, pos)
  {
    var s' := Step(s, x, a).value;
    StepShape(s, x, a);
    OwnScanFollows(s, x, a, pos);
    forall y | 0 <= y < |s'.txs|
      ensures ScanFollows(pos, s'.txs[y])
    {
      assert ScanFollows(pos, s.txs[y]);
    }
  }

  lemma OwnScanFollows(s: State, x: TxId, a: Action, pos: RowOrder)
    requires x < |s.txs| && Step(s, x, a).Some? && ScanFollows(pos, s.txs[x]) && OpensInOrder(a, pos)
    requires s.txs[x].phase.Start? ==> s.txs[x].grants == []
    ensures ScanFollows(pos, Step(s, x, a).value.txs[x])
  {
    if a.ScanRow? { TailFollows(pos, s.txs[x], Step(s, x, a).value.txs[x]); }
  }

  lemma TailFollows(pos: RowOrder, tx: Tx, tx': Tx)
    requires ScanFollows(pos, tx) && tx.phase.Scan? && tx.phase.todo != [] && tx'.phase == Scan(tx.phase.todo[1..])
    requires forall g :: 0 <= g < |tx'.grants| ==>
               tx'.grants[g].id == if g < |tx.grants| then tx.grants[g].id else tx.phase.todo[0]
    ensures ScanFollows(pos, tx')
  {
    var todo := tx.phase.todo;
    forall j, k | 0 <= j < k < |tx'.phase.todo|
      ensures Precedes(pos, tx'.phase.todo, j, k)
    {
      assert Precedes(pos, todo, j + 1, k + 1);
    }
    forall g, k | 0 <= g < |tx'.grants| && 0 <= k < |tx'.phase.todo|
      ensures pos(tx'.grants[g].id) < pos(tx'.phase.todo[k])
    {
      assert tx'.phase.todo[k] == todo[k + 1];
      if g >= |tx.grants| { assert Precedes(pos, todo, 0, k + 1); }
    }
  }

  /** The rows below n that are not revoked, in the given order. */
  lemma {:induction false} OrderedScan(db: Db, n: nat, pos: RowOrder) returns (order: seq<DonationId>)
    requires n <= |db.donations| && IsOrder(pos)
    ensures Ascends(pos, order)
    ensures forall i :: i in order <==> 0 <= i < n && db.donations[i].status != Revoked
  {
    order := [];
    if n > 0 {
      order := OrderedScan(db, n - 1, pos);
      if db.donations[n - 1].status != Revoked { order := Inserted(order, n - 1, pos); }
    }
  }

  lemma {:induction false} Inserted(order: seq<DonationId>, i: DonationId, pos: RowOrder) returns (longer: seq<DonationId>)
    requires Ascends(pos, order) && i !in order && IsOrder(pos)
    ensures Ascends(pos, longer) && forall k :: k in longer <==> k == i || k in order
  {
    if order == [] {
      longer := [i];
    } else {
      var last := |order| - 1;
      LastIsHighest(pos, order);
      if pos(i) < pos(order[last]) {
        var front := Inserted(order[..last], i, pos);
        longer := front + [order[last]];
        Appended(pos, front, order[last]);
      } else {
        longer := order + [i];
        Appended(pos, order, i);
      }
    }
  }

  lemma LastIsHighest(pos: RowOrder, order: seq<DonationId>)
    requires Ascends(pos, order) && order != []
    ensures var last := |order| - 1;
            && Ascends(pos, order[..last]) && order == order[..last] + [order[last]]
            && (forall k :: k in order <==> k in order[..last] || k == order[last])
            && (forall k :: k in order[..last] ==> pos(k) < pos(order[last]))
  {
    var last := |order| - 1;
    forall j, k | 0 <= j < k < last
      ensures Precedes(pos, order[..last], j, k)
    {
      assert Precedes(pos, order, j, k);
    }
    forall k | k in order[..last]
      ensures pos(k) < pos(order[last])
    {
      var j :| 0 <= j < last && order[..last][j] == k;
      assert Precedes(pos, order, j, last);
    }
    assert order == order[..last] + [order[last]];
  }

  lemma Appended(pos: RowOrder, order: seq<DonationId>, i: DonationId)
    requires Ascends(pos, order) && forall k :: k in order ==> pos(k) < pos(i)
    ensures Ascends(pos, order + [i])
  {
    forall j, k | 0 <= j < k < |order + [i]|
      ensures Precedes(pos, order + [i], j, k)
    {
      if k < |order| { assert Precedes(pos, order, j, k); }
    }
  }

  lemma AscendingIsScanOrder(db: Db, pos: RowOrder, order: seq<DonationId>)
    requires Ascends(pos, order) && forall i :: i in order <==> 0 <= i < |db.donations| && db.donations[i].status != Revoked
    ensures ScanOrder(db, order)
  {
    assert forall k :: 0 <= k < |order| ==> order[k] in order;
    forall j, k | 0 <= j < k < |order|
      ensures Differ(order, j, k)
    {
      assert Precedes(pos, order, j, k);
    }
  }

  /** A transaction that is not blocked can execute its next statement. */
  lemma UnblockedCanStep(s: State, x: TxId, pos: RowOrder) returns (a: Action)
    requires Inv(s) && Unfinished(s, x) && !Blocked(s, x) && IsOrder(pos)
    ensures a != Fail && Step(s, x, a).Some? && OpensInOrder(a, pos)
  {
    var order := OrderedScan(s.db, |s.db.donations|, pos);
    AscendingIsScanOrder(s.db, pos, order);
    a := NextAction(s, x, order);
    AlwaysWellPlaced(s, x);
    WellPlacedCanStep(s, x, order);
  }

  /** Donation rows come before tokens, rows and tokens are ordered, and the domain comes last. */
  datatype Rank = Rank(kind: nat, place: nat)

  /** The rank of what a transaction waits for. */
  function RankOf(s: State, x: TxId, pos: RowOrder): Rank
    requires x < |s.txs|
  {
    match Wanted(s, x)
    case None => Rank(0, 0)
    case Some(RowLock(i)) => Rank(1, pos(i))
    case Some(TokenLock(t)) => Rank(2, t)
    case Some(DomainLock(_)) => Rank(3, 0)
  }

  predicate Below(a: Rank, b: Rank) {
    a.kind < b.kind || (a.kind == b.kind && a.place < b.place)
  }

  /** No transaction asks for a lock that it already holds. */
  lemma NeverWaitsForItself(s: State, x: TxId)
    requires Inv(s) && LocksOk(s)
    ensures !WaitsFor(s, x, x)
  {
    if Blocked(s, x) {
      var tx, r := s.txs[x], Wanted(s, x).value;
      assert TxOk(s.db, s.locks, x, tx) && HolderOk(s, r);
      if tx.phase.LockTokens? {
        TokensOfIsSorted(tx.grants);
        var n := tx.phase.locked;
        assert forall j :: 0 <= j < n ==> Tokens(tx)[j] < Tokens(tx)[n];
      }
    }
  }

  lemma TokenHolderWaitsHigher(s: State, y: TxId, t: TokenId)
    requires Inv(s) && Blocked(s, y)
    requires TokenLock(t) in s.locks && s.locks[TokenLock(t)] == y && HolderOk(s, TokenLock(t))
    requires s.txs[y].phase.LockTokens?
    ensures Wanted(s, y).Some? && Wanted(s, y).value.TokenLock? && t < Wanted(s, y).value.token
  {
    var ty := s.txs[y];
    assert TxOk(s.db, s.locks, y, ty);
    TokensOfIsSorted(ty.grants);
    var n := ty.phase.locked;
    var j :| 0 <= j < n && Tokens(ty)[..n][j] == t;
    assert Tokens(ty)[j] < Tokens(ty)[n];
  }

  lemma RowHolderWaitsHigher(s: State, x: TxId, y: TxId, i: DonationId, pos: RowOrder)
    requires Inv(s) && ScansFollow(s, pos) && Blocked(s, x) && Wanted(s, x) == Some(RowLock(i)) && Blocked(s, y)
    requires RowLock(i) in s.locks && s.locks[RowLock(i)] == y && HolderOk(s, RowLock(i))
    ensures Below(RankOf(s, x, pos), RankOf(s, y, pos))
  {
    assert TxOk(s.db, s.locks, y, s.txs[y]) && ScanFollows(pos, s.txs[y]);
  }

  /** Along every waiting edge the rank rises, so transactions never wait for each other in a circle. */
  lemma WaitingAscends(s: State, x: TxId, y: TxId, pos: RowOrder)
    requires Inv(s) && LocksOk(s) && ScansFollow(s, pos)
    requires WaitsFor(s, x, y) && Blocked(s, y)
    ensures Below(RankOf(s, x, pos), RankOf(s, y, pos))
  {
    var r := Wanted(s, x).value;
    assert HolderOk(s, r);
    match r
    case RowLock(i) => RowHolderWaitsHigher(s, x, y, i, pos);
    case TokenLock(t) => if s.txs[y].phase.LockTokens? { TokenHolderWaitsHigher(s, y, t); }
    case DomainLock(_) =>
  }

  lemma {:induction false} TokenBound(locks: map<Resource, TxId>) returns (bound: nat)
    ensures forall t: nat :: TokenLock(t) in locks ==> t < bound
    decreases |locks|
  {
    if locks == map[] {
      bound := 0;
    } else {
      var r :| r in locks;
      var rest := map q | q in locks && q != r :: locks[q];
      assert rest.Keys == locks.Keys - {r};
      bound := TokenBound(rest);
      if r.TokenLock? && bound <= r.token { bound := r.token + 1; }
      assert forall t: nat :: TokenLock(t) in locks && TokenLock(t) != r ==> TokenLock(t) in rest;
    }
  }

  lemma {:induction false} PlaceBound(n: nat, pos: RowOrder) returns (bound: nat)
    ensures forall i: DonationId :: i < n ==> pos(i) < bound
  {
    bound := 0;
    if n > 0 {
      bound := PlaceBound(n - 1, pos);
      if bound <= pos(n - 1) { bound := pos(n - 1) + 1; }
    }
  }

  /** No lock's place is as high as the bound. */
  ghost predicate Bounded(s: State, pos: RowOrder, bound: nat) {
    && (forall t: nat :: TokenLock(t) in s.locks ==> t < bound)
    && forall i: DonationId :: i < |s.db.donations| ==> pos(i) < bound
  }

  lemma SomeBound(s: State, pos: RowOrder) returns (bound: nat)
    ensures Bounded(s, pos, bound)
  {
    var tokens := TokenBound(s.locks);
    var rows := PlaceBound(|s.db.donations|, pos);
    bound := if tokens < rows then rows else tokens;
  }

  lemma RankBelowBound(s: State, x: TxId, pos: RowOrder, bound: nat)
    requires Inv(s) && Blocked(s, x) && Bounded(s, pos, bound)
    ensures RankOf(s, x, pos).kind <= 3 && RankOf(s, x, pos).place <= bound
  {
    AlwaysWellPlaced(s, x);
  }

  /** Following the waiting edges leads to a transaction that can run. */
  lemma {:induction false} FollowWaiting(s: State, x: TxId, pos: RowOrder, bound: nat) returns (y: TxId)
    requires Inv(s) && LocksOk(s) && ScansFollow(s, pos) && Unfinished(s, x) && Bounded(s, pos, bound)
    ensures Unfinished(s, y) && !Blocked(s, y)
    decreases 3 - RankOf(s, x, pos).kind, bound - RankOf(s, x, pos).place
  {
    y := x;
    if Blocked(s, x) {
      y := s.locks[Wanted(s, x).value];
      assert HolderOk(s, Wanted(s, x).value);
      if Blocked(s, y) {
        WaitingAscends(s, x, y, pos);
        RankBelowBound(s, x, pos, bound);
        RankBelowBound(s, y, pos, bound);
        y := FollowWaiting(s, y, pos, bound);
      }
    }
  }

  /**
    In every reachable state in which the scans in flight follow one order of the rows, some
    unfinished transaction can go on, and in a way that keeps this so.
   */
  lemma NoDeadlock(states: seq<State>, x: TxId, pos: RowOrder) returns (y: TxId, a: Action)
    requires Run(states) && IsOrder(pos)
    requires var s := states[|states| - 1]; ScansFollow(s, pos) && Unfinished(s, x)
    ensures var s := states[|states| - 1];
            && Unfinished(s, y) && a != Fail && Step(s, y, a).Some?
            && ScansFollow(Step(s, y, a).value, pos)
  {
    var s := states[|states| - 1];
    RunKeepsInv(states, |states| - 1);
    RunKeepsLocksOk(states, |states| - 1);
    y, a := SomebodyCanStep(s, x, pos);
    ScansStayInOrder(s, y, a, pos);
  }

  lemma SomebodyCanStep(s: State, x: TxId, pos: RowOrder) returns (y: TxId, a: Action)
    requires Inv(s) && LocksOk(s) && ScansFollow(s, pos) && IsOrder(pos) && Unfinished(s, x)
    ensures Unfinished(s, y) && a != Fail && Step(s, y, a).Some? && OpensInOrder(a, pos)
  {
    var bound := SomeBound(s, pos);
    y := FollowWaiting(s, x, pos, bound);
    a := UnblockedCanStep(s, y, pos);
  }

  lemma ScansStayInOrder(s: State, x: TxId, a: Action, pos: RowOrder)
    requires Inv(s) && x < |s.txs| && Step(s, x, a).Some? && ScansFollow(s, pos) && OpensInOrder(a, pos)
    ensures ScansFollow(Step(s, x, a).value, pos)
  {
    forall y | 0 <= y < |s.txs| && s.txs[y].phase.Start?
      ensures s.txs[y].grants == []
    {
      assert TxOk(s.db, s.locks, y, s.txs[y]);
    }
    StepKeepsScansFollow(s, x, a, pos);
  }

  // ---------- one bulk application at a time ----------

  predicate OnePolicy(s: State) {
    forall x, y :: 0 <= x < y < |s.txs| ==> !BothPolicies(s, x, y)
  }

  predicate BothPolicies(s: State, x: TxId, y: TxId) {
    Unfinished(s, x) && Unfinished(s, y) && s.txs[x].op.ApplyPolicy? && s.txs[y].op.ApplyPolicy?
  }

  /** The rows of a scan: those that it has locked, then those that it has still to visit. */
  function ScanRows(tx: Tx): seq<DonationId>
    requires tx.phase.Scan?
  {
    seq(|tx.grants|, k requires 0 <= k < |tx.grants| => tx.grants[k].id) + tx.phase.todo
  }

  function IndexOf(rows: seq<DonationId>, i: DonationId): (k: nat)
    ensures k <= |rows| && (k < |rows| ==> rows[k] == i) && (i in rows ==> k < |rows|)
    ensures forall m :: 0 <= m < k ==> rows[m] != i
  {
    if rows == [] || rows[0] == i then 0 else 1 + IndexOf(rows[1..], i)
  }

  /** The order in which the rows are listed, with all other rows behind them. */
  function ListedOrder(rows: seq<DonationId>): RowOrder {
    i => if i in rows then IndexOf(rows, i) else |rows| + i
  }

  predicate Distinct(rows: seq<DonationId>) {
    forall j, k :: 0 <= j < k < |rows| ==> Differ(rows, j, k)
  }

  lemma ListedOrderIsOrder(rows: seq<DonationId>)
    ensures IsOrder(ListedOrder(rows))
  {
  }

  lemma ListedAt(rows: seq<DonationId>, k: nat)
    requires k < |rows| && Distinct(rows)
    ensures ListedOrder(rows)(rows[k]) == k
  {
    assert rows[k] in rows;
    forall m | 0 <= m < k
      ensures rows[m] != rows[k]
    {
      assert Differ(rows, m, k);
    }
  }

  lemma ScanRowsDistinct(db: Db, locks: map<Resource, TxId>, x: TxId, tx: Tx)
    requires TxOk(db, locks, x, tx) && tx.phase.Scan?
    ensures Distinct(ScanRows(tx))
  {
    var rows, n := ScanRows(tx), |tx.grants|;
    forall j, k | 0 <= j < k < |rows|
      ensures Differ(rows, j, k)
    {
      if k < n {
        assert DifferentRows(tx.grants, j, k);
      } else if j >= n {
        assert Differ(tx.phase.todo, j - n, k - n);
      } else {
        assert tx.phase.todo[k - n] in tx.phase.todo;
      }
    }
  }

  lemma FollowsItself(db: Db, locks: map<Resource, TxId>, x: TxId, tx: Tx)
    requires TxOk(db, locks, x, tx) && tx.phase.Scan?
    ensures ScanFollows(ListedOrder(ScanRows(tx)), tx)
  {
    var rows, n := ScanRows(tx), |tx.grants|;
    ScanRowsDistinct(db, locks, x, tx);
    forall k: nat | k < |rows| ensures ListedOrder(rows)(rows[k]) == k { ListedAt(rows, k); }
    assert forall g :: 0 <= g < n ==> rows[g] == tx.grants[g].id;
    assert forall k :: 0 <= k < |tx.phase.todo| ==> rows[n + k] == tx.phase.todo[k];
  }

  /** With at most one bulk application in flight there is one scan, and it follows its own order. */
  lemma OnePolicyFollows(s: State) returns (pos: RowOrder)
    requires Inv(s) && OnePolicy(s)
    ensures IsOrder(pos) && ScansFollow(s, pos)
  {
    if x :| 0 <= x < |s.txs| && s.txs[x].phase.Scan? {
      pos := ListedOrder(ScanRows(s.txs[x]));
      ListedOrderIsOrder(ScanRows(s.txs[x]));
      forall y | 0 <= y < |s.txs|
        ensures ScanFollows(pos, s.txs[y])
      {
        assert TxOk(s.db, s.locks, x, s.txs[x]) && TxOk(s.db, s.locks, y, s.txs[y]);
        if y == x {
          FollowsItself(s.db, s.locks, x, s.txs[x]);
        } else {
          assert if x < y then !BothPolicies(s, x, y) else !BothPolicies(s, y, x);
        }
      }
    } else {
      pos := i => i;
    }
  }

  /** So in every reachable state with at most one bulk application some unfinished transaction can go on. */
  lemma OnePolicyNoDeadlock(states: seq<State>, x: TxId) returns (y: TxId, a: Action)
    requires Run(states)
    requires var s := states[|states| - 1]; OnePolicy(s) && Unfinished(s, x)
    ensures var s := states[|states| - 1]; Unfinished(s, y) && a != Fail && Step(s, y, a).Some?
  {
    RunKeepsInv(states, |states| - 1);
    var pos := OnePolicyFollows(states[|states| - 1]);
    y, a := NoDeadlock(states, x, pos);
  }

  // ---------- termination ----------

  function Left(total: nat, done: nat): nat {
    if done <= total then total - done else 0
  }

  /** How many statements the transaction still executes at most, once it has its first row. */
  function Work(tx: Tx): nat {
    var n := |Tokens(tx)|;
    match tx.phase
    case Start => 0
    case Scan(todo) => 4 * |tx.grants| + 5 * |todo| + 5
    case LockTokens(done) => Left(n, done) + 3 * n + 4
    case Claim => 2
    case SumRewards(done) => 3 * Left(n, done) + 1
    case SumManual(done, _) => 3 * Left(n, done)
    case Store(done, _) => 3 * Left(n, done) - if done < n then 1 else 0
    case Ready => 1
    case Finished => 0
  }

  function TotalWork(txs: seq<Tx>, n: nat): nat
    requires n <= |txs|
  {
    if n == 0 then 0 else TotalWork(txs, n - 1) + Work(txs[n - 1])
  }

  function NotStarted(txs: seq<Tx>, n: nat): nat
    requires n <= |txs|
  {
    if n == 0 then 0 else NotStarted(txs, n - 1) + if txs[n - 1].phase.Start? then 1 else 0
  }

  lemma {:induction false} TotalWorkUpdate(txs: seq<Tx>, n: nat, x: TxId, tx: Tx)
    requires n <= |txs| && x < |txs|
    ensures TotalWork(txs[x := tx], n) == TotalWork(txs, n) + if x < n then Work(tx) - Work(txs[x]) else 0
    ensures NotStarted(txs[x := tx], n)
            == NotStarted(txs, n) + if x < n then (if tx.phase.Start? then 1 else 0) - (if txs[x].phase.Start? then 1 else 0) else 0
  {
    if n > 0 {
      TotalWorkUpdate(txs, n - 1, x, tx);
    }
  }

  lemma {:induction false} InsertLength(t: TokenId, sorted: seq<TokenId>)
    ensures |Insert(t, sorted)| <= |sorted| + 1
  {
    if sorted != [] && sorted[0] < t {
      InsertLength(t, sorted[1..]);
    }
  }

  lemma {:induction false} TokensOfLength(grants: seq<Grant>)
    ensures |TokensOf(grants)| <= |grants|
  {
    if grants != [] {
      TokensOfLength(grants[..|grants| - 1]);
      InsertLength(grants[|grants| - 1].row.token, TokensOf(grants[..|grants| - 1]));
    }
  }

  lemma FinishingDecreases(s: State, x: TxId)
    requires x < |s.txs| && WellPlaced(s, x) && !s.txs[x].phase.Start? && !s.txs[x].phase.Finished?
    ensures Work(s.txs[x]) > 0
  {
  }

  lemma LockingDecreases(s: State, x: TxId, a: Action)
    requires x < |s.txs| && WellPlaced(s, x) && Step(s, x, a).Some? && !s.txs[x].phase.Start?
    requires a.ScanRow? || a.CloseScan? || a.LockToken? || a.CountDomains? || a.ClaimDomain?
    requires !Step(s, x, a).value.txs[x].phase.Finished?
    ensures var tx' := Step(s, x, a).value.txs[x]; !tx'.phase.Start? && Work(tx') < Work(s.txs[x])
  {
    var tx := s.txs[x];
    TokensOfLength(tx.grants);
    if a.LockToken? {
      assert Tokens(Step(s, x, a).value.txs[x]) == Tokens(tx);
    } else if a.CloseScan? {
      assert Tokens(Step(s, x, a).value.txs[x]) == TokensOf(tx.grants);
    }
  }

  lemma RecalculatingDecreases(s: State, x: TxId, a: Action)
    requires x < |s.txs| && WellPlaced(s, x) && Step(s, x, a).Some? && !s.txs[x].phase.Start?
    requires a.WriteBody? || a.ReadRewards? || a.ReadManual? || a.StoreQuota?
    requires !Step(s, x, a).value.txs[x].phase.Finished?
    ensures var tx' := Step(s, x, a).value.txs[x]; !tx'.phase.Start? && Work(tx') < Work(s.txs[x])
  {
  }

  lemma OwnWorkDecreases(s: State, x: TxId, a: Action)
    requires x < |s.txs| && WellPlaced(s, x) && Step(s, x, a).Some? && !s.txs[x].phase.Start?
    ensures var tx' := Step(s, x, a).value.txs[x]; !tx'.phase.Start? && Work(tx') < Work(s.txs[x])
  {
    if Step(s, x, a).value.txs[x].phase.Finished? {
      FinishingDecreases(s, x);
    } else if a.WriteBody? || a.ReadRewards? || a.ReadManual? || a.StoreQuota? {
      RecalculatingDecreases(s, x, a);
    } else {
      LockingDecreases(s, x, a);
    }
  }

  /** Every statement brings the finite set of transactions nearer to its end. */
  lemma EveryStepDecreases(s: State, x: TxId, a: Action)
    requires Inv(s) && x < |s.txs| && Step(s, x, a).Some?
    ensures var s' := Step(s, x, a).value;
            && |s'.txs| == |s.txs|
            && (NotStarted(s'.txs, |s.txs|) < NotStarted(s.txs, |s.txs|)
                || (NotStarted(s'.txs, |s.txs|) == NotStarted(s.txs, |s.txs|)
                    && TotalWork(s'.txs, |s.txs|) < TotalWork(s.txs, |s.txs|)))
  {
    var s' := Step(s, x, a).value;
    StepShape(s, x, a);
    assert s'.txs == s.txs[x := s'.txs[x]];
    TotalWorkUpdate(s.txs, |s.txs|, x, s'.txs[x]);
    AlwaysWellPlaced(s, x);
    if s.txs[x].phase.Start? {
      StartIsLeft(s, x, a);
    } else {
      OwnWorkDecreases(s, x, a);
    }
  }

  lemma StartIsLeft(s: State, x: TxId, a: Action)
    requires x < |s.txs| && s.txs[x].phase.Start? && Step(s, x, a).Some?
    ensures !Step(s, x, a).value.txs[x].phase.Start?
  {
  }

  /** The states of a run in which nobody new begins and nothing fails, from s to the last one. */
  ghost predicate Schedule(s: State, states: seq<State>) {
    && states != []
    && states[0] == s
    && forall i :: 0 <= i < |states| - 1 ==> Goes(states[i], states[i + 1])
  }

  ghost predicate Goes(s: State, s': State) {
    exists x: TxId, a :: x < |s.txs| && a != Fail && Step(s, x, a) == Some(s')
  }

  predicate AllFinished(s: State) {
    forall x :: 0 <= x < |s.txs| ==> s.txs[x].phase.Finished?
  }

  /** Some transaction can go on, and that brings all of them nearer to their end. */
  lemma SomebodyGoesOn(s: State, pos: RowOrder) returns (s': State)
    requires Inv(s) && LocksOk(s) && ScansFollow(s, pos) && IsOrder(pos) && !AllFinished(s)
    ensures Goes(s, s') && Inv(s') && LocksOk(s') && ScansFollow(s', pos)
    ensures NotStarted(s'.txs, |s'.txs|) < NotStarted(s.txs, |s.txs|)
            || (NotStarted(s'.txs, |s'.txs|) == NotStarted(s.txs, |s.txs|)
                && TotalWork(s'.txs, |s'.txs|) < TotalWork(s.txs, |s.txs|))
  {
    var x :| 0 <= x < |s.txs| && !s.txs[x].phase.Finished?;
    var y, a := SomebodyCanStep(s, x, pos);
    s' := Step(s, y, a).value;
    StepKeepsInv(s, y, a);
    StepKeepsLocksOk(s, y, a);
    ScansStayInOrder(s, y, a, pos);
    EveryStepDecreases(s, y, a);
  }

  lemma GoesFirst(s: State, s': State, rest: seq<State>)
    requires Goes(s, s') && Schedule(s', rest)
    ensures Schedule(s, [s] + rest)
  {
    var states := [s] + rest;
    forall i | 0 <= i < |states| - 1
      ensures Goes(states[i], states[i + 1])
    {
      if i > 0 { assert Goes(rest[i - 1], rest[i - 1 + 1]); }
    }
  }

  /**
    From every state that the protocol keeps and in which the scans follow one order, the transactions
    in flight can all be brought to their end; since every statement decreases the measure, whatever
    the schedule does first it cannot postpone that for ever.
   */
  lemma {:induction false} EverybodyFinishes(s: State, pos: RowOrder) returns (states: seq<State>)
    requires Inv(s) && LocksOk(s) && ScansFollow(s, pos) && IsOrder(pos)
    ensures Schedule(s, states) && AllFinished(states[|states| - 1])
    decreases NotStarted(s.txs, |s.txs|), TotalWork(s.txs, |s.txs|)
  {
    if AllFinished(s) {
      states := [s];
    } else {
      var s' := SomebodyGoesOn(s, pos);
      var rest := EverybodyFinishes(s', pos);
      states := [s] + rest;
      GoesFirst(s, s', rest);
    }
  }

  /** So with at most one bulk application in flight everybody can finish. */
  lemma OnePolicyFinishes(s: State) returns (states: seq<State>)
    requires Inv(s) && LocksOk(s) && OnePolicy(s)
    ensures Schedule(s, states) && AllFinished(states[|states| - 1])
  {
    var pos := OnePolicyFollows(s);
    states := EverybodyFinishes(s, pos);
  }
}
