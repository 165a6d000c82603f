/**
  Bulk policy applications whose scans disagree. The scan's query has no ORDER BY, so two of them may
  lock the same rows in different orders and come to wait for each other.
 */
module DonationDeadlocks {
  import opened Options
  import opened DonationModel
  import opened DonationProtocol
  import opened DonationLedger
  import opened DonationLocks

  predicate MutualWait(s: State, x: TxId, y: TxId) {
    WaitsFor(s, x, y) && WaitsFor(s, y, x)
  }

  // ---------- what waiting for each other takes ----------

  /** The scan visits row i, and later row j. */
  predicate Visits(rows: seq<DonationId>, i: DonationId, j: DonationId) {
    exists a, b :: 0 <= a < b < |rows| && rows[a] == i && rows[b] == j
  }

  lemma MutualWaitIsOfScans(s: State, x: TxId, y: TxId)
    requires Inv(s) && LocksOk(s) && MutualWait(s, x, y)
    ensures s.txs[x].phase.Scan? && Wanted(s, x).value.RowLock?
  {
    var r, q := Wanted(s, x).value, Wanted(s, y).value;
    assert HolderOk(s, r) && HolderOk(s, q);
    assert TxOk(s.db, s.locks, x, s.txs[x]) && TxOk(s.db, s.locks, y, s.txs[y]);
    if r.TokenLock? && q.TokenLock? {
      TokenHolderWaitsHigher(s, y, r.token);
      TokenHolderWaitsHigher(s, x, q.token);
    }
  }

  lemma WantsWhatTheOtherGranted(s: State, x: TxId, y: TxId)
    requires Inv(s) && LocksOk(s) && WaitsFor(s, x, y) && s.txs[x].phase.Scan? && s.txs[y].phase.Scan?
    ensures s.txs[x].phase.todo != [] && IsGranted(s.txs[y].grants, s.txs[x].phase.todo[0])
  {
    assert HolderOk(s, Wanted(s, x).value);
  }

  lemma GrantedIsVisited(tx: Tx, i: DonationId)
    requires tx.phase.Scan? && tx.phase.todo != [] && IsGranted(tx.grants, i)
    ensures Visits(ScanRows(tx), i, tx.phase.todo[0]) && ScanRows(tx)[0] == tx.grants[0].id
  {
    var k :| 0 <= k < |tx.grants| && tx.grants[k].id == i;
    var rows := ScanRows(tx);
    assert rows[k] == i && rows[|tx.grants|] == tx.phase.todo[0];
  }

  /**
    Two transactions that wait for each other are scans that disagree: each has locked the row that
    the other wants next, and they have begun with different rows.
   */
  lemma MutualWaitDisagrees(s: State, x: TxId, y: TxId)
    requires Inv(s) && LocksOk(s) && MutualWait(s, x, y)
    ensures s.txs[x].phase.Scan? && s.txs[y].phase.Scan? && s.txs[x].phase.todo != [] && s.txs[y].phase.todo != []
    ensures var i, j := s.txs[y].phase.todo[0], s.txs[x].phase.todo[0];
            Visits(ScanRows(s.txs[x]), i, j) && Visits(ScanRows(s.txs[y]), j, i)
    ensures ScanRows(s.txs[x])[0] != ScanRows(s.txs[y])[0]
  {
    MutualWaitIsOfScans(s, x, y);
    MutualWaitIsOfScans(s, y, x);
    WantsWhatTheOtherGranted(s, x, y);
    WantsWhatTheOtherGranted(s, y, x);
    GrantedIsVisited(s.txs[x], s.txs[y].phase.todo[0]);
    GrantedIsVisited(s.txs[y], s.txs[x].phase.todo[0]);
    NeverWaitsForItself(s, x);
    assert TxOk(s.db, s.locks, x, s.txs[x]) && TxOk(s.db, s.locks, y, s.txs[y]);
    assert Held(s.locks, x, RowLock(s.txs[x].grants[0].id)) && Held(s.locks, y, RowLock(s.txs[y].grants[0].id));
  }

  // ---------- two scans over the same free rows ----------

  /** The two transactions have just opened their scans, and all rows are free. */
  predicate Opened(s: State, x: TxId, y: TxId) {
    && x < |s.txs| && y < |s.txs| && x != y
    && OpenedBy(s, x) && OpenedBy(s, y)
  }

  predicate OpenedBy(s: State, x: TxId)
    requires x < |s.txs|
  {
    var tx := s.txs[x];
    && tx.phase.Scan? && tx.grants == [] && ScanOrder(s.db, tx.phase.todo)
    && forall i :: i in tx.phase.todo ==> RowLock(i) !in s.locks
  }

  /** One of the two locks its next row. */
  ghost predicate ScansOn(s: State, s': State, x: TxId, y: TxId) {
    exists z: TxId :: (z == x || z == y) && z < |s.txs| && Step(s, z, ScanRow) == Some(s')
  }

  /** The states while the two go on with their scans, in any interleaving. */
  ghost predicate PairSchedule(s: State, states: seq<State>, x: TxId, y: TxId) {
    && states != [] && states[0] == s
    && forall i :: 0 <= i < |states| - 1 ==> ScansOn(states[i], states[i + 1], x, y)
  }

  function Last(states: seq<State>): State
    requires states != []
  {
    states[|states| - 1]
  }

  predicate Scannable(s: State, i: DonationId) {
    i < |s.db.donations| && s.db.donations[i].status != Revoked && RowLock(i) !in s.locks
  }

  /** The scan of z has locked n more of its rows; nothing else has changed. */
  ghost predicate Took(s: State, s': State, z: TxId, n: nat)
    requires z < |s.txs| && s.txs[z].phase.Scan? && n <= |s.txs[z].phase.todo|
  {
    var todo := s.txs[z].phase.todo;
    && s'.db == s.db && |s'.txs| == |s.txs| && s'.txs[z].phase == Scan(todo[n..])
    && (forall y :: 0 <= y < |s.txs| && y != z ==> s'.txs[y] == s.txs[y])
    && (forall r :: r in s.locks ==> r in s'.locks && s'.locks[r] == s.locks[r])
    && (forall k :: 0 <= k < n ==> Held(s'.locks, z, RowLock(todo[k])))
    && (forall r :: r in s'.locks ==> r in s.locks || (r.RowLock? && r.id in todo[..n]))
  }

  lemma TakesOne(s: State, z: TxId)
    requires z < |s.txs| && s.txs[z].phase.Scan? && s.txs[z].phase.todo != [] && Scannable(s, s.txs[z].phase.todo[0])
    ensures DoScanRow(s, z).Some? && Took(s, DoScanRow(s, z).value, z, 1)
  {
    assert s.txs[z].phase.todo[..1] == [s.txs[z].phase.todo[0]];
  }

  lemma TookMore(s: State, s1: State, s2: State, z: TxId, n: nat)
    requires z < |s.txs| && s.txs[z].phase.Scan? && 0 < n <= |s.txs[z].phase.todo|
    requires Took(s, s1, z, 1) && Took(s1, s2, z, n - 1)
    ensures Took(s, s2, z, n)
  {
    var todo := s.txs[z].phase.todo;
    assert todo[1..][n - 1..] == todo[n..];
    assert forall k :: 0 <= k < n - 1 ==> todo[1..][k] == todo[k + 1];
    assert forall i :: i in todo[1..][..n - 1] ==> i in todo[..n];
    forall k | 0 <= k < n
      ensures Held(s2.locks, z, RowLock(todo[k]))
    {
      if k == 0 { assert Held(s1.locks, z, RowLock(todo[0])); } else { assert Held(s2.locks, z, RowLock(todo[1..][k - 1])); }
    }
  }

  lemma PairPrepend(s: State, s': State, rest: seq<State>, x: TxId, y: TxId)
    requires ScansOn(s, s', x, y) && PairSchedule(s', rest, x, y)
    ensures PairSchedule(s, [s] + rest, x, y) && Last([s] + rest) == Last(rest)
  {
    var states := [s] + rest;
    forall i | 0 <= i < |states| - 1
      ensures ScansOn(states[i], states[i + 1], x, y)
    {
      if i > 0 { assert ScansOn(rest[i - 1], rest[i - 1 + 1], x, y); }
    }
  }

  lemma {:induction false} PairConcat(s: State, a: seq<State>, b: seq<State>, x: TxId, y: TxId) returns (c: seq<State>)
    requires PairSchedule(s, a, x, y) && PairSchedule(Last(a), b, x, y)
    ensures PairSchedule(s, c, x, y) && Last(c) == Last(b)
    decreases |a|
  {
    if |a| == 1 {
      c := b;
    } else {
      forall i | 0 <= i < |a[1..]| - 1
        ensures ScansOn(a[1..][i], a[1..][i + 1], x, y)
      {
        assert ScansOn(a[i + 1], a[i + 1 + 1], x, y);
      }
      assert ScansOn(a[0], a[0 + 1], x, y);
      var rest := PairConcat(a[1], a[1..], b, x, y);
      c := [s] + rest;
      PairPrepend(s, a[1], rest, x, y);
    }
  }

  /** A scan can lock its next n rows one after the other when they are free. */
  lemma {:induction false} TakeRows(s: State, z: TxId, n: nat, x: TxId, y: TxId) returns (states: seq<State>)
    requires z == x || z == y
    requires z < |s.txs| && s.txs[z].phase.Scan? && n <= |s.txs[z].phase.todo| && Distinct(s.txs[z].phase.todo)
    requires forall k :: 0 <= k < n ==> Scannable(s, s.txs[z].phase.todo[k])
    ensures PairSchedule(s, states, x, y) && Took(s, Last(states), z, n)
    decreases n
  {
    if n == 0 {
      states := [s];
    } else {
      var todo := s.txs[z].phase.todo;
      TakesOne(s, z);
      var s1 := DoScanRow(s, z).value;
      assert Step(s, z, ScanRow) == Some(s1);
      assert ScansOn(s, s1, x, y);
      RestScannable(s, s1, z, n);
      var rest := TakeRows(s1, z, n - 1, x, y);
      states := [s] + rest;
      PairPrepend(s, s1, rest, x, y);
      TookMore(s, s1, Last(rest), z, n);
    }
  }

  lemma RestScannable(s: State, s1: State, z: TxId, n: nat)
    requires z < |s.txs| && s.txs[z].phase.Scan? && 0 < n <= |s.txs[z].phase.todo| && Distinct(s.txs[z].phase.todo)
    requires Took(s, s1, z, 1) && forall k :: 0 <= k < n ==> Scannable(s, s.txs[z].phase.todo[k])
    ensures Distinct(s1.txs[z].phase.todo)
    ensures forall k :: 0 <= k < n - 1 ==> Scannable(s1, s1.txs[z].phase.todo[k])
  {
    var todo := s.txs[z].phase.todo;
    forall j, k | 0 <= j < k < |todo| - 1
      ensures Differ(todo[1..], j, k)
    {
      assert Differ(todo, j + 1, k + 1);
    }
    forall k | 0 <= k < n - 1
      ensures Scannable(s1, todo[1..][k])
    {
      assert Differ(todo, 0, k + 1);
      assert Scannable(s, todo[k + 1]);
      assert todo[..1] == [todo[0]];
    }
  }

  /** Where the row is in the list. */
  lemma PlaceOf(rows: seq<DonationId>, i: DonationId) returns (k: nat)
    requires i in rows
    ensures k < |rows| && rows[k] == i && i !in rows[..k]
  {
    k := IndexOf(rows, i);
  }

  /** The first row of the list, behind the first one, that is among the given ones. */
  lemma {:induction false} FirstAmong(rows: seq<DonationId>, n: nat, taken: seq<DonationId>) returns (m: nat)
    requires 0 < n < |rows| && rows[n] in taken
    ensures 0 < m <= n && rows[m] in taken && forall k :: 0 < k < m ==> rows[k] !in taken
  {
    if k: nat :| 0 < k < n && rows[k] in taken {
      m := FirstAmong(rows, k, taken);
    } else {
      m := n;
    }
  }

  /** y locks its first row, and x all rows before that one. */
  lemma RunsInto(s: State, x: TxId, y: TxId) returns (states: seq<State>, s1: State, n: nat)
    requires Opened(s, x, y) && s.txs[y].phase.todo != [] && s.txs[y].phase.todo[0] in s.txs[x].phase.todo
    ensures PairSchedule(s, states, x, y) && Took(s, s1, y, 1)
    ensures n < |s.txs[x].phase.todo| && s.txs[x].phase.todo[n] == s.txs[y].phase.todo[0] && Took(s1, Last(states), x, n)
  {
    var first := TakeRows(s, y, 1, x, y);
    s1 := Last(first);
    n := PlaceOf(s.txs[x].phase.todo, s.txs[y].phase.todo[0]);
    OthersStayFree(s, s1, y, 1, x, 0, n);
    var second := TakeRows(s1, x, n, x, y);
    states := PairConcat(s, first, second, x, y);
  }

  /** Scans that begin with different rows can be led to wait for each other. */
  lemma DifferentFirstRowsCanDeadlock(s: State, x: TxId, y: TxId) returns (states: seq<State>)
    requires Opened(s, x, y) && s.txs[x].phase.todo != [] && s.txs[y].phase.todo != []
    requires s.txs[x].phase.todo[0] != s.txs[y].phase.todo[0]
    ensures PairSchedule(s, states, x, y) && MutualWait(Last(states), x, y)
  {
    VisitTheSame(s, x, y);
    var tx, ty := s.txs[x].phase.todo, s.txs[y].phase.todo;
    var both, s1, n := RunsInto(s, x, y);
    var at := PlaceOf(ty, tx[0]);
    assert tx[..n][0] == tx[0];
    var m := FirstAmong(ty, at, tx[..n]);
    states := RunsBack(s, s1, both, x, y, n, m);
  }

  lemma VisitTheSame(s: State, x: TxId, y: TxId)
    requires Opened(s, x, y)
    ensures forall i :: i in s.txs[x].phase.todo <==> i in s.txs[y].phase.todo
    ensures s.txs[x].phase.todo != [] ==> s.txs[x].phase.todo[0] in s.txs[y].phase.todo
    ensures s.txs[y].phase.todo != [] ==> s.txs[y].phase.todo[0] in s.txs[x].phase.todo
  {
    assert s.txs[x].phase.todo != [] ==> s.txs[x].phase.todo[0] in s.txs[x].phase.todo;
    assert s.txs[y].phase.todo != [] ==> s.txs[y].phase.todo[0] in s.txs[y].phase.todo;
  }

  /** Then y goes on until it wants one of these. */
  lemma RunsBack(s: State, s1: State, both: seq<State>, x: TxId, y: TxId, n: nat, m: nat) returns (states: seq<State>)
    requires Opened(s, x, y) && n < |s.txs[x].phase.todo| && 0 < m < |s.txs[y].phase.todo|
    requires PairSchedule(s, both, x, y) && Took(s, s1, y, 1) && Took(s1, Last(both), x, n)
    requires s.txs[x].phase.todo[n] == s.txs[y].phase.todo[0] && s.txs[y].phase.todo[m] in s.txs[x].phase.todo[..n]
    requires forall k :: 0 < k < m ==> s.txs[y].phase.todo[k] !in s.txs[x].phase.todo[..n]
    ensures PairSchedule(s, states, x, y) && MutualWait(Last(states), x, y)
  {
    StillFree(s, s1, Last(both), x, y, n, m);
    var third := TakeRows(Last(both), y, m - 1, x, y);
    states := PairConcat(s, both, third, x, y);
    EndsInMutualWait(s, s1, Last(both), Last(third), x, y, n, m);
  }

  /** The rows of x from `from` to `to` are free after y took some, if they are not among these. */
  lemma OthersStayFree(s: State, s1: State, y: TxId, taken: nat, x: TxId, from: nat, to: nat)
    requires x < |s.txs| && y < |s.txs| && x != y && OpenedBy(s, x) && OpenedBy(s, y)
    requires taken <= |s.txs[y].phase.todo| && Took(s, s1, y, taken) && from <= to <= |s.txs[x].phase.todo|
    requires forall k :: from <= k < to ==> s.txs[x].phase.todo[k] !in s.txs[y].phase.todo[..taken]
    ensures forall k :: from <= k < to ==> Scannable(s1, s.txs[x].phase.todo[k])
  {
    forall k | from <= k < to
      ensures Scannable(s1, s.txs[x].phase.todo[k])
    {
      assert s.txs[x].phase.todo[k] in s.txs[x].phase.todo;
    }
  }

  lemma StillFree(s: State, s1: State, s2: State, x: TxId, y: TxId, n: nat, m: nat)
    requires Opened(s, x, y) && n <= |s.txs[x].phase.todo| && 0 < m <= |s.txs[y].phase.todo|
    requires Took(s, s1, y, 1) && Took(s1, s2, x, n)
    requires forall k :: 0 < k < m ==> s.txs[y].phase.todo[k] !in s.txs[x].phase.todo[..n]
    ensures s2.txs[y].phase == Scan(s.txs[y].phase.todo[1..]) && Distinct(s2.txs[y].phase.todo)
    ensures forall k :: 0 <= k < m - 1 ==> Scannable(s2, s2.txs[y].phase.todo[k])
  {
    var ty := s.txs[y].phase.todo;
    forall j, k | 0 <= j < k < |ty| - 1
      ensures Differ(ty[1..], j, k)
    {
      assert Differ(ty, j + 1, k + 1);
    }
    forall k | 0 <= k < m - 1
      ensures Scannable(s2, ty[1..][k])
    {
      assert ty[k + 1] in ty && Differ(ty, 0, k + 1) && ty[..1] == [ty[0]];
    }
  }

  lemma EndsInMutualWait(s: State, s1: State, s2: State, s3: State, x: TxId, y: TxId, n: nat, m: nat)
    requires Opened(s, x, y) && n < |s.txs[x].phase.todo| && 0 < m < |s.txs[y].phase.todo|
    requires Took(s, s1, y, 1) && Took(s1, s2, x, n) && s2.txs[y].phase == Scan(s.txs[y].phase.todo[1..])
    requires Took(s2, s3, y, m - 1)
    requires s.txs[x].phase.todo[n] == s.txs[y].phase.todo[0] && s.txs[y].phase.todo[m] in s.txs[x].phase.todo[..n]
    ensures MutualWait(s3, x, y)
  {
    var tx, ty := s.txs[x].phase.todo, s.txs[y].phase.todo;
    assert ty[1..][m - 1..] == ty[m..];
    assert Held(s1.locks, y, RowLock(ty[0]));
    var k :| 0 <= k < n && tx[..n][k] == ty[m];
    assert Held(s2.locks, x, RowLock(tx[k]));
    WantsHeld(s3, x, y, tx, n);
    WantsHeld(s3, y, x, ty, m);
  }

  lemma WantsHeld(s: State, x: TxId, y: TxId, rows: seq<DonationId>, n: nat)
    requires x < |s.txs| && n < |rows| && s.txs[x].phase == Scan(rows[n..]) && Held(s.locks, y, RowLock(rows[n]))
    ensures WaitsFor(s, x, y)
  {
    assert rows[n..][0] == rows[n];
  }

  // ---------- and only such scans can ----------

  lemma ScanRowKeepsRows(s: State, z: TxId, s': State)
    requires z < |s.txs| && Step(s, z, ScanRow) == Some(s') && s.txs[z].phase.Scan?
    requires forall i :: i in s.txs[z].phase.todo && i < |s.db.donations| ==> s.db.donations[i].status != Revoked
    ensures s'.db == s.db && |s'.txs| == |s.txs| && s'.txs[z].phase.Scan? && ScanRows(s'.txs[z]) == ScanRows(s.txs[z])
    ensures forall y :: 0 <= y < |s.txs| && y != z ==> s'.txs[y] == s.txs[y]
    ensures forall i :: i in s'.txs[z].phase.todo ==> i in s.txs[z].phase.todo
  {
    assert s.txs[z].phase.todo == [s.txs[z].phase.todo[0]] + s.txs[z].phase.todo[1..];
  }

  /** While the two go on scanning, each keeps its list of rows. */
  ghost predicate KeepsRows(s: State, s': State, x: TxId)
    requires x < |s.txs|
  {
    && s'.db == s.db && x < |s'.txs| && s.txs[x].phase.Scan? && s'.txs[x].phase.Scan?
    && ScanRows(s'.txs[x]) == ScanRows(s.txs[x])
    && forall i :: i in s'.txs[x].phase.todo ==> i in s.txs[x].phase.todo
  }

  lemma {:induction false} PairKeepsRows(s: State, states: seq<State>, x: TxId, y: TxId, k: nat)
    requires Inv(s) && LocksOk(s) && Opened(s, x, y) && PairSchedule(s, states, x, y) && k < |states|
    ensures Inv(states[k]) && LocksOk(states[k]) && KeepsRows(s, states[k], x) && KeepsRows(s, states[k], y)
  {
    if k > 0 {
      PairKeepsRows(s, states, x, y, k - 1);
      var before, after := states[k - 1], states[k];
      assert ScansOn(states[k - 1], states[k - 1 + 1], x, y);
      var z: TxId :| (z == x || z == y) && z < |before.txs| && Step(before, z, ScanRow) == Some(after);
      StepKeepsInv(before, z, ScanRow);
      StepKeepsLocksOk(before, z, ScanRow);
      assert forall i :: i in before.txs[z].phase.todo ==> i in s.txs[z].phase.todo;
      ScanRowKeepsRows(before, z, after);
    }
  }

  lemma SameFirstRowsCannotDeadlock(s: State, states: seq<State>, x: TxId, y: TxId)
    requires Inv(s) && LocksOk(s) && Opened(s, x, y) && PairSchedule(s, states, x, y) && MutualWait(Last(states), x, y)
    ensures s.txs[x].phase.todo != [] && s.txs[y].phase.todo != [] && s.txs[x].phase.todo[0] != s.txs[y].phase.todo[0]
  {
    PairKeepsRows(s, states, x, y, |states| - 1);
    FirstRowsDiffer(s, Last(states), x, y);
  }

  lemma FirstRowsDiffer(s: State, t: State, x: TxId, y: TxId)
    requires Opened(s, x, y) && Inv(t) && LocksOk(t) && KeepsRows(s, t, x) && KeepsRows(s, t, y) && MutualWait(t, x, y)
    ensures s.txs[x].phase.todo != [] && s.txs[y].phase.todo != [] && s.txs[x].phase.todo[0] != s.txs[y].phase.todo[0]
  {
    MutualWaitDisagrees(t, x, y);
    OpenedRows(s, x);
    OpenedRows(s, y);
  }

  lemma OpenedRows(s: State, x: TxId)
    requires x < |s.txs| && OpenedBy(s, x)
    ensures ScanRows(s.txs[x]) == s.txs[x].phase.todo
  {
  }

  /** Two scans over the same free rows can come to wait for each other if and only if they begin with different rows. */
  lemma PairCanDeadlockIff(s: State, x: TxId, y: TxId)
    requires Inv(s) && LocksOk(s) && Opened(s, x, y) && s.txs[x].phase.todo != []
    ensures s.txs[y].phase.todo != []
    ensures s.txs[x].phase.todo[0] != s.txs[y].phase.todo[0]
            <==> exists states :: PairSchedule(s, states, x, y) && MutualWait(Last(states), x, y)
  {
    VisitTheSame(s, x, y);
    if s.txs[x].phase.todo[0] != s.txs[y].phase.todo[0] {
      var states := DifferentFirstRowsCanDeadlock(s, x, y);
    }
    if states :| PairSchedule(s, states, x, y) && MutualWait(Last(states), x, y) {
      SameFirstRowsCannotDeadlock(s, states, x, y);
    }
  }

  // ---------- a run that ends in a deadlock ----------

  lemma RunGoesOn(states: seq<State>, s': State)
    requires Run(states) && Next(Last(states), s')
    ensures Run(states + [s'])
  {
    var longer := states + [s'];
    forall i: nat | i < |longer| - 1
      ensures NextAt(longer, i)
    {
      if i < |states| - 1 { assert NextAt(states, i); }
    }
  }

  lemma RunSteps(states: seq<State>, x: TxId, a: Action)
    requires Run(states) && x < |Last(states).txs| && Step(Last(states), x, a).Some?
    ensures Run(states + [Step(Last(states), x, a).value])
  {
    RunGoesOn(states, Step(Last(states), x, a).value);
  }

  lemma RunBegins(states: seq<State>, op: Op)
    requires Run(states) && OpOk(op)
    ensures Run(states + [Begin(Last(states), op)])
  {
    RunGoesOn(states, Begin(Last(states), op));
  }

  /** A creation that nothing stands in the way of. */
  predicate Creatable(s: State, op: Op) {
    && op.Create? && op.isNew && OpOk(op) && op.token !in s.db.tokens && s.locks == map[]
    && HeldCount(s.db.donations, op.token) < op.maxDomains && DomainFree(s.db, op.domain) && Fits(op.reward)
  }

  function ClaimedRow(op: Op): Donation
    requires op.Create?
  {
    Donation(op.domain, op.token, Pending, false, op.reward, 0)
  }

  /** Its statements, one after the other. */
  lemma CreationRuns(before: seq<State>, op: Op) returns (states: seq<State>)
    requires Run(before) && Creatable(Last(before), op)
    ensures Run(states)
    ensures var s, t := Last(before), Last(states);
            && t.locks == map[] && t.db.donations == s.db.donations + [ClaimedRow(op)]
            && t.db.tokens == s.db.tokens[op.token := Token(ZERO, 0)] && t.db.domains == s.db.domains[op.domain := true]
            && |t.txs| == |s.txs| + 1
  {
    var s, x := Last(before), |Last(before).txs|;
    RunBegins(before, op);
    states := before + [Begin(s, op)];
    states := ClaimRuns(states, x);
    var w, t := BodyWrites(op, []), Last(states);
    assert Without(t.locks, x) == map[];
    RunSteps(states, x, CommitTx);
    states := states + [Step(t, x, CommitTx).value];
    assert Overlay(s.db, w).donations == s.db.donations + [ClaimedRow(op)];
  }

  lemma ClaimRuns(before: seq<State>, x: TxId) returns (states: seq<State>)
    requires Run(before) && |Last(before).txs| == x + 1
    requires var s := Last(before); s.txs[x] == Fresh(s.txs[x].op) && Creatable(s, s.txs[x].op)
    ensures Run(states)
    ensures var s, t, tx := Last(before), Last(states), Last(before).txs[x];
            && t.db == s.db && |t.txs| == |s.txs| && t.txs[x] == tx.(phase := Ready, w := BodyWrites(tx.op, []))
            && t.locks == map[TokenLock(tx.op.token) := x, DomainLock(tx.op.domain) := x]
  {
    states := before;
    var s1 := DoInsertToken(Last(states), x).value;
    RunSteps(states, x, InsertToken);
    states := states + [s1];
    var s2 := DoCountDomains(s1, x).value;
    RunSteps(states, x, CountDomains);
    states := states + [s2];
    var s3 := DoClaimDomain(s2, x).value;
    RunSteps(states, x, ClaimDomain);
    states := states + [s3];
  }

  /** Two bulk applications begin and open their scans in the given orders. */
  lemma ScansOpen(before: seq<State>, reward: Vec, p: seq<DonationId>, q: seq<DonationId>)
    returns (states: seq<State>, x: TxId, y: TxId)
    requires Run(before) && PolicyReward(reward) && Last(before).locks == map[]
    requires ScanOrder(Last(before).db, p) && ScanOrder(Last(before).db, q)
    ensures Run(states) && Opened(Last(states), x, y)
    ensures Last(states).txs[x].phase == Scan(p) && Last(states).txs[y].phase == Scan(q)
  {
    var op := ApplyPolicy(reward);
    x, y := |Last(before).txs|, |Last(before).txs| + 1;
    RunBegins(before, op);
    states := before + [Begin(Last(before), op)];
    RunBegins(states, op);
    states := states + [Begin(Last(states), op)];
    RunSteps(states, x, OpenScan(p));
    states := states + [DoOpenScan(Last(states), x, p).value];
    RunSteps(states, y, OpenScan(q));
    states := states + [DoOpenScan(Last(states), y, q).value];
  }

  lemma {:induction false} RunThenPair(before: seq<State>, more: seq<State>, x: TxId, y: TxId, k: nat) returns (states: seq<State>)
    requires Run(before) && PairSchedule(Last(before), more, x, y) && k < |more|
    ensures Run(states) && Last(states) == more[k]
  {
    if k == 0 {
      states := before;
    } else {
      states := RunThenPair(before, more, x, y, k - 1);
      assert ScansOn(more[k - 1], more[k - 1 + 1], x, y);
      RunGoesOn(states, more[k]);
      states := states + [more[k]];
    }
  }

  lemma TwoRowsScan(db: Db)
    requires |db.donations| == 2 && db.donations[0].status != Revoked && db.donations[1].status != Revoked
    ensures ScanOrder(db, [0, 1]) && ScanOrder(db, [1, 0])
  {
  }

  /** Two claims of different domains under new tokens. */
  predicate TwoClaims(a: Op, b: Op) {
    && a.Create? && a.isNew && OpOk(a) && Fits(a.reward)
    && b.Create? && b.isNew && OpOk(b) && Fits(b.reward)
    && a.token != b.token && a.domain != b.domain
  }

  lemma ClaimsRun(a: Op, b: Op) returns (states: seq<State>)
    requires TwoClaims(a, b)
    ensures Run(states) && Last(states).locks == map[] && Last(states).db.donations == [ClaimedRow(a), ClaimedRow(b)]
  {
    assert HeldUpTo([], 0, a.token) == 0;
    states := CreationRuns([INITIAL], a);
    var one := [ClaimedRow(a)];
    assert Last(states).db.donations == one;
    assert HeldUpTo(one, 0, b.token) == 0;
    assert HeldUpTo(one, 1, b.token) == Holds(one[0], b.token) == 0;
    states := CreationRuns(states, b);
  }

  /** From the empty tables: two claims, then two bulk applications that come to wait for each other. */
  lemma DeadlockIsReached(a: Op, b: Op, reward: Vec) returns (states: seq<State>, x: TxId, y: TxId)
    requires TwoClaims(a, b) && PolicyReward(reward)
    ensures Run(states) && MutualWait(Last(states), x, y)
  {
    var claimed := ClaimsRun(a, b);
    TwoRowsScan(Last(claimed).db);
    states, x, y := ScansOpen(claimed, reward, [0, 1], [1, 0]);
    var more := DifferentFirstRowsCanDeadlock(Last(states), x, y);
    states := RunThenPair(states, more, x, y, |more| - 1);
  }
}
