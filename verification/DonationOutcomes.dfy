/**
  What becomes of a donation, told from the log of committed transactions alone: when its reward is
  active, when it is revoked, and what a bulk application gives it.
 */
module DonationOutcomes {
  import opened Options
  import opened DonationModel
  import opened DonationLedger
  import P = DonationProtocol

  // ---------- when a reward is active ----------

  predicate ChecksIt(op: Op, id: DonationId) {
    op.Verify? && op.id == id
  }

  /** The transaction verifies, revokes or restores the donation. */
  predicate Concerns(op: Op, id: DonationId) {
    match op
    case Verify(i, _, _) => i == id
    case SetRevoked(i) => i == id
    case Unrevoke(i) => i == id
    case _ => false
  }

  /** How many verifications of the donation failed, from the i-th transaction up to the j-th. */
  function FailedChecks(log: seq<Commit>, i: nat, j: nat, id: DonationId): nat
    requires j <= |log|
  {
    if j <= i then 0
    else FailedChecks(log, i, j - 1, id) + if ChecksIt(log[j - 1].op, id) && !log[j - 1].op.verdict.valid then 1 else 0
  }

  /** The j-th transaction verifies the donation, and fails for a passing reason and not too often since the i-th. */
  predicate Tolerated(log: seq<Commit>, i: nat, j: nat, id: DonationId)
    requires j < |log|
  {
    var op := log[j].op;
    && ChecksIt(op, id) && !op.verdict.valid && op.verdict.transient
    && FailedChecks(log, i + 1, j + 1, id) < if op.tolerance < 1 then 1 else op.tolerance
  }

  /** The i-th transaction found the domain valid, and whatever concerned the donation since was tolerated. */
  predicate ActiveSince(log: seq<Commit>, i: nat, id: DonationId) {
    && i < |log| && ChecksIt(log[i].op, id) && log[i].op.verdict.valid
    && forall j: nat :: i < j < |log| && Concerns(log[j].op, id) ==> Tolerated(log, i, j, id)
  }

  /** The row as the log says it is. */
  ghost predicate AsLogged(db: Db, log: seq<Commit>, id: DonationId) {
    id < |db.donations| ==>
      && (db.donations[id].rewardActive <==> exists i: nat :: ActiveSince(log, i, id))
      && forall i: nat :: ActiveSince(log, i, id) ==> db.donations[id].failures == FailedChecks(log, i + 1, |log|, id)
  }

  lemma {:induction false} ChecksOfPrefix(log: seq<Commit>, c: Commit, i: nat, j: nat, id: DonationId)
    requires j <= |log|
    ensures FailedChecks(log + [c], i, j, id) == FailedChecks(log, i, j, id)
  {
    if i < j { ChecksOfPrefix(log, c, i, j - 1, id); }
  }

  lemma ToleratedInPrefix(log: seq<Commit>, c: Commit, i: nat, j: nat, id: DonationId)
    requires j < |log|
    ensures Tolerated(log + [c], i, j, id) == Tolerated(log, i, j, id)
  {
    ChecksOfPrefix(log, c, i + 1, j + 1, id);
  }

  /** One more transaction. */
  lemma ActiveStep(log: seq<Commit>, c: Commit, i: nat, id: DonationId)
    requires i < |log|
    ensures ActiveSince(log + [c], i, id) <==>
              ActiveSince(log, i, id) && (Concerns(c.op, id) ==> Tolerated(log + [c], i, |log|, id))
  {
    var longer := log + [c];
    forall j: nat | j < |log|
      ensures Tolerated(longer, i, j, id) == Tolerated(log, i, j, id) && longer[j] == log[j]
    {
      ToleratedInPrefix(log, c, i, j, id);
    }
    assert longer[|log|] == c;
  }

  lemma OneMoreCheck(log: seq<Commit>, c: Commit, i: nat, id: DonationId)
    requires i <= |log|
    ensures FailedChecks(log + [c], i, |log| + 1, id)
            == FailedChecks(log, i, |log|, id) + if ChecksIt(c.op, id) && !c.op.verdict.valid then 1 else 0
  {
    ChecksOfPrefix(log, c, i, |log|, id);
  }

  lemma LastIsActive(log: seq<Commit>, c: Commit, id: DonationId)
    ensures ActiveSince(log + [c], |log|, id) <==> ChecksIt(c.op, id) && c.op.verdict.valid
  {
    assert (log + [c])[|log|] == c;
  }

  /** What a transaction that does not concern the donation leaves alone. */
  lemma OthersLeaveIt(db: Db, c: Commit, id: DonationId)
    requires Legal(db, c) && id < |db.donations| && !Concerns(c.op, id)
    ensures id < |Do(db, c).donations|
    ensures var row, row' := db.donations[id], Do(db, c).donations[id];
            row'.rewardActive == row.rewardActive && row'.failures == row.failures && row'.status == row.status
            && row'.token == row.token && row'.domain == row.domain
  {
    var grants := Grants(db, c.ids);
    DoShape(db, c);
    if c.op.ApplyPolicy? && id in BodyWrites(c.op, grants).rows { PolicyRowsGranted(grants, |grants|, c.op.reward, id); }
  }

  lemma NewIsPending(db: Db, c: Commit, id: DonationId)
    requires Legal(db, c) && |db.donations| <= id < |Do(db, c).donations|
    ensures c.op.Create? && id == |db.donations| && !Do(db, c).donations[id].rewardActive && Do(db, c).donations[id].status == Pending
  {
    DoShape(db, c);
  }

  lemma ConcernedExists(db: Db, c: Commit, id: DonationId)
    requires Legal(db, c) && Concerns(c.op, id)
    ensures id < |db.donations| && c.ids == [id] && |Do(db, c).donations| == |db.donations|
    ensures Do(db, c).donations[id] == NewRow(c.op, db.donations[id])
  {
    DoShape(db, c);
  }

  /** Transactions only concern donations that are there. */
  lemma {:induction false} UnknownIsUnconcerned(log: seq<Commit>, j: nat, id: DonationId)
    requires Replay(log).Some? && j < |log| && Concerns(log[j].op, id)
    ensures id < |Replay(log).value.donations|
  {
    var prefix, c := log[..|log| - 1], log[|log| - 1];
    var db := Replay(prefix).value;
    DoShape(db, c);
    if j < |log| - 1 { UnknownIsUnconcerned(prefix, j, id); } else { ConcernedExists(db, c, id); }
  }

  lemma StepIsLogged(db: Db, log: seq<Commit>, c: Commit, id: DonationId)
    requires Replay(log) == Some(db) && Legal(db, c) && AsLogged(db, log, id)
    ensures AsLogged(Do(db, c), log + [c], id)
  {
    StepsAre(log, c, id);
    if Concerns(c.op, id) {
      ConcernedIsLogged(db, log, c, id);
    } else if id < |db.donations| {
      UnconcernedIsLogged(db, log, c, id);
    } else if id < |Do(db, c).donations| {
      NewIsLogged(db, log, c, id);
    }
  }

  ghost predicate Steps(log: seq<Commit>, c: Commit, id: DonationId) {
    && (ActiveSince(log + [c], |log|, id) <==> ChecksIt(c.op, id) && c.op.verdict.valid)
    && forall i: nat :: i < |log| ==>
         && (ActiveSince(log + [c], i, id) <==>
               ActiveSince(log, i, id) && (Concerns(c.op, id) ==> Tolerated(log + [c], i, |log|, id)))
         && FailedChecks(log + [c], i + 1, |log| + 1, id)
            == FailedChecks(log, i + 1, |log|, id) + if ChecksIt(c.op, id) && !c.op.verdict.valid then 1 else 0
  }

  lemma StepsAre(log: seq<Commit>, c: Commit, id: DonationId)
    ensures Steps(log, c, id)
  {
    LastIsActive(log, c, id);
    forall i: nat | i < |log|
      ensures ActiveSince(log + [c], i, id) <==>
                ActiveSince(log, i, id) && (Concerns(c.op, id) ==> Tolerated(log + [c], i, |log|, id))
      ensures FailedChecks(log + [c], i + 1, |log| + 1, id)
              == FailedChecks(log, i + 1, |log|, id) + if ChecksIt(c.op, id) && !c.op.verdict.valid then 1 else 0
    {
      ActiveStep(log, c, i, id);
      OneMoreCheck(log, c, i + 1, id);
    }
  }

  lemma UnconcernedIsLogged(db: Db, log: seq<Commit>, c: Commit, id: DonationId)
    requires Legal(db, c) && id < |db.donations| && AsLogged(db, log, id) && !Concerns(c.op, id) && Steps(log, c, id)
    ensures AsLogged(Do(db, c), log + [c], id)
  {
    OthersLeaveIt(db, c, id);
    if i: nat :| ActiveSince(log, i, id) { assert ActiveSince(log + [c], i, id); }
  }

  lemma NewIsLogged(db: Db, log: seq<Commit>, c: Commit, id: DonationId)
    requires Replay(log) == Some(db) && Legal(db, c) && |db.donations| <= id < |Do(db, c).donations| && Steps(log, c, id)
    ensures AsLogged(Do(db, c), log + [c], id)
  {
    NewIsPending(db, c, id);
    forall i: nat | i < |log|
      ensures !ActiveSince(log, i, id)
    {
      if ActiveSince(log, i, id) { UnknownIsUnconcerned(log, i, id); }
    }
  }

  lemma ConcernedIsLogged(db: Db, log: seq<Commit>, c: Commit, id: DonationId)
    requires Legal(db, c) && AsLogged(db, log, id) && Concerns(c.op, id) && Steps(log, c, id)
    ensures AsLogged(Do(db, c), log + [c], id)
  {
    ConcernedExists(db, c, id);
    if !c.op.Verify? {
      EndedIsLogged(db.donations[id], Do(db, c), log, c, id);
    } else if c.op.verdict.valid {
      ValidIsLogged(db.donations[id], Do(db, c), log, c, id);
    } else {
      FailedIsLogged(db, db.donations[id], Do(db, c), log, c, id);
    }
  }

  lemma EndedIsLogged(row: Donation, db': Db, log: seq<Commit>, c: Commit, id: DonationId)
    requires (c.op.SetRevoked? || c.op.Unrevoke?) && Concerns(c.op, id) && Steps(log, c, id)
    requires id < |db'.donations| && db'.donations[id] == NewRow(c.op, row)
    ensures AsLogged(db', log + [c], id)
  {
    assert (log + [c])[|log|] == c;
    forall i: nat | i < |log| ensures !ActiveSince(log + [c], i, id) { assert !Tolerated(log + [c], i, |log|, id); }
  }

  lemma ValidIsLogged(row: Donation, db': Db, log: seq<Commit>, c: Commit, id: DonationId)
    requires c.op.Verify? && c.op.verdict.valid && Concerns(c.op, id) && Steps(log, c, id)
    requires id < |db'.donations| && db'.donations[id] == NewRow(c.op, row)
    ensures AsLogged(db', log + [c], id)
  {
    assert (log + [c])[|log|] == c;
    assert ActiveSince(log + [c], |log|, id);
    forall i: nat | i < |log| ensures !ActiveSince(log + [c], i, id) { assert !Tolerated(log + [c], i, |log|, id); }
  }

  lemma FailedIsLogged(db: Db, row: Donation, db': Db, log: seq<Commit>, c: Commit, id: DonationId)
    requires id < |db.donations| && db.donations[id] == row && AsLogged(db, log, id)
    requires c.op.Verify? && !c.op.verdict.valid && Concerns(c.op, id) && Steps(log, c, id)
    requires id < |db'.donations| && db'.donations[id] == NewRow(c.op, row)
    ensures AsLogged(db', log + [c], id)
  {
    assert (log + [c])[|log|] == c;
    forall i: nat | i < |log| && ActiveSince(log, i, id)
      ensures row.failures == FailedChecks(log, i + 1, |log|, id)
      ensures ActiveSince(log + [c], i, id) <==> NewRow(c.op, row).rewardActive
    {
      assert row.rewardActive;
    }
    if row.rewardActive {
      var i: nat :| ActiveSince(log, i, id);
      assert ActiveSince(log + [c], i, id) <==> NewRow(c.op, row).rewardActive;
    }
  }

  /**
    After every sequence of committed transactions, whichever donations and tokens they are about: a
    donation's reward is active exactly when a verification found its domain valid and everything that
    concerned it since was a failed verification of a passing kind, each with fewer failures so far
    than the tolerance that it read. One failure that does not pass ends it, and so does a revocation.
   */
  lemma {:induction false} RewardActiveIff(log: seq<Commit>, id: DonationId)
    requires Replay(log).Some?
    ensures AsLogged(Replay(log).value, log, id)
  {
    if log != [] {
      var prefix, c := log[..|log| - 1], log[|log| - 1];
      RewardActiveIff(prefix, id);
      StepIsLogged(Replay(prefix).value, prefix, c, id);
      assert prefix + [c] == log;
    }
  }

  /** The same at every point of every interleaving of transactions, told from the commits so far. */
  lemma RewardActiveInEveryRun(states: seq<P.State>, i: nat, id: DonationId)
    requires P.Run(states) && i < |states|
    ensures AsLogged(states[i].db, states[i].log, id)
  {
    P.CommitsSerialize(states, i);
    RewardActiveIff(states[i].log, id);
  }

  lemma {:induction false} FailedChecksGrow(log: seq<Commit>, i: nat, j: nat, k: nat, id: DonationId)
    requires j <= k <= |log|
    ensures FailedChecks(log, i, j, id) <= FailedChecks(log, i, k, id)
    ensures (forall m: nat :: j <= m < k ==> !(ChecksIt(log[m].op, id) && !log[m].op.verdict.valid)) ==>
              FailedChecks(log, i, k, id) == FailedChecks(log, i, j, id)
  {
    if j < k { FailedChecksGrow(log, i, j, k - 1, id); }
  }

  /** The i-th transaction found the domain valid, and after it the donation met failures that pass, with one tolerance. */
  predicate MeetsPassingFailures(log: seq<Commit>, i: nat, id: DonationId, tolerance: int) {
    && i < |log| && ChecksIt(log[i].op, id) && log[i].op.verdict.valid
    && forall j: nat :: i < j < |log| && Concerns(log[j].op, id) ==>
         ChecksIt(log[j].op, id) && !log[j].op.verdict.valid && log[j].op.verdict.transient && log[j].op.tolerance == tolerance
  }

  lemma {:induction false} LastFailure(log: seq<Commit>, i: nat, k: nat, id: DonationId) returns (j: nat)
    requires k <= |log| && FailedChecks(log, i, k, id) > 0
    ensures i <= j < k && ChecksIt(log[j].op, id) && !log[j].op.verdict.valid
    ensures FailedChecks(log, i, j + 1, id) == FailedChecks(log, i, k, id)
  {
    j := k - 1;
    if !(ChecksIt(log[j].op, id) && !log[j].op.verdict.valid) { j := LastFailure(log, i, k - 1, id); }
  }

  /**
    A donation that was found valid, and since then only met failures that pass, keeps its reward through
    as many of them as the tolerance less one, and loses it at the next; a tolerance below one counts as one.
   */
  lemma PassingFailuresAreTolerated(log: seq<Commit>, i: nat, id: DonationId, tolerance: int)
    requires Replay(log).Some? && MeetsPassingFailures(log, i, id, tolerance) && id < |Replay(log).value.donations|
    ensures Replay(log).value.donations[id].rewardActive
            <==> FailedChecks(log, i + 1, |log|, id) < if tolerance < 1 then 1 else tolerance
  {
    RewardActiveIff(log, id);
    SinceTheLastValid(log, i, id, tolerance);
    ToleratedIffFew(log, i, id, tolerance);
  }

  lemma SinceTheLastValid(log: seq<Commit>, i: nat, id: DonationId, tolerance: int)
    requires MeetsPassingFailures(log, i, id, tolerance)
    ensures forall k: nat :: ActiveSince(log, k, id) ==> k == i
  {
    forall k: nat | k != i
      ensures !ActiveSince(log, k, id)
    {
      assert !Tolerated(log, k, i, id);
      assert i < k < |log| && ChecksIt(log[k].op, id) ==> Concerns(log[k].op, id);
    }
  }

  lemma ToleratedIffFew(log: seq<Commit>, i: nat, id: DonationId, tolerance: int)
    requires MeetsPassingFailures(log, i, id, tolerance)
    ensures ActiveSince(log, i, id) <==> FailedChecks(log, i + 1, |log|, id) < if tolerance < 1 then 1 else tolerance
  {
    if FailedChecks(log, i + 1, |log|, id) > 0 {
      var j := LastFailure(log, i + 1, |log|, id);
      assert ActiveSince(log, i, id) ==> Tolerated(log, i, j, id);
    }
    forall j: nat | i < j < |log| && Concerns(log[j].op, id)
      ensures FailedChecks(log, i + 1, |log|, id) < (if tolerance < 1 then 1 else tolerance) ==> Tolerated(log, i, j, id)
    {
      FailedChecksGrow(log, i + 1, j + 1, |log|, id);
    }
  }

  // ---------- when a donation is revoked ----------

  /** The i-th transaction revoked the donation, and none restored it since. */
  predicate RevokedSince(log: seq<Commit>, i: nat, id: DonationId) {
    i < |log| && log[i].op == SetRevoked(id) && forall j: nat :: i < j < |log| ==> log[j].op != Unrevoke(id)
  }

  ghost predicate RevokedAsLogged(db: Db, log: seq<Commit>, id: DonationId) {
    id < |db.donations| ==> (db.donations[id].status == Revoked <==> exists i: nat :: RevokedSince(log, i, id))
  }

  lemma RevokedStep(log: seq<Commit>, c: Commit, id: DonationId)
    ensures (exists i: nat :: RevokedSince(log + [c], i, id))
            <==> c.op == SetRevoked(id) || (c.op != Unrevoke(id) && exists i: nat :: RevokedSince(log, i, id))
  {
    var longer := log + [c];
    assert longer[|log|] == c;
    forall i: nat | i < |log|
      ensures RevokedSince(longer, i, id) <==> RevokedSince(log, i, id) && c.op != Unrevoke(id)
    {
      assert forall j: nat :: j < |log| ==> longer[j] == log[j];
    }
    assert RevokedSince(longer, |log|, id) <==> c.op == SetRevoked(id);
    if i: nat :| RevokedSince(longer, i, id) { assert i == |log| || RevokedSince(log, i, id); }
    if i: nat :| RevokedSince(log, i, id) { assert c.op != Unrevoke(id) ==> RevokedSince(longer, i, id); }
  }

  lemma StatusStep(db: Db, c: Commit, id: DonationId)
    requires Legal(db, c) && id < |Do(db, c).donations|
    ensures Do(db, c).donations[id].status == Revoked
            <==> c.op == SetRevoked(id) || (c.op != Unrevoke(id) && id < |db.donations| && db.donations[id].status == Revoked)
  {
    if Concerns(c.op, id) { ConcernedExists(db, c, id); }
    else if id < |db.donations| { OthersLeaveIt(db, c, id); }
    else { NewIsPending(db, c, id); }
  }

  /** A donation is revoked exactly when it was revoked and not restored since; no verification changes that. */
  lemma {:induction false} RevokedIff(log: seq<Commit>, id: DonationId)
    requires Replay(log).Some?
    ensures RevokedAsLogged(Replay(log).value, log, id)
  {
    if log != [] {
      var prefix, c := log[..|log| - 1], log[|log| - 1];
      assert prefix + [c] == log;
      RevokedIff(prefix, id);
      RevokedStep(prefix, c, id);
      if id < |Replay(log).value.donations| { StatusStep(Replay(prefix).value, c, id); }
      if |Replay(prefix).value.donations| <= id {
        forall i: nat | i < |prefix| ensures !RevokedSince(prefix, i, id) {
          if RevokedSince(prefix, i, id) { UnknownIsUnconcerned(prefix, i, id); }
        }
      }
    }
  }

  // ---------- what a donation's reward is ----------

  /** Only a bulk application changes the reward of a donation, and that to its own. */
  lemma RewardStep(db: Db, c: Commit, id: DonationId)
    requires Legal(db, c) && id < |Do(db, c).donations|
    ensures Do(db, c).donations[id].reward
            == if id < |db.donations| then (if c.op.ApplyPolicy? && id in c.ids then c.op.reward else db.donations[id].reward)
               else c.op.reward
  {
    var grants := Grants(db, c.ids);
    DoShape(db, c);
    if c.op.ApplyPolicy? {
      if id in c.ids {
        var k :| 0 <= k < |c.ids| && c.ids[k] == id;
        GrantIsUpdated(grants, |grants|, c.op.reward, k);
      }
      if id in PolicyRows(grants, |grants|, c.op.reward) { PolicyRowsGranted(grants, |grants|, c.op.reward, id); }
    }
  }

  // ---------- whom a bulk application reaches ----------

  predicate Unrevoked(db: Db, id: DonationId) {
    id < |db.donations| && db.donations[id].status != Revoked
  }

  predicate Granted(grants: seq<Grant>, id: DonationId) {
    exists g :: 0 <= g < |grants| && grants[g].id == id
  }

  /** A bulk application has locked the donation's row, or has yet to visit it, or has ended. */
  predicate WillReach(tx: P.Tx, reward: Vec, id: DonationId) {
    && tx.op == ApplyPolicy(reward)
    && match tx.phase
       case Finished => true
       case Scan(todo) => id in todo || Granted(tx.grants, id)
       case Start => false
       case Claim => false
       case Ready => false
       case _ => Granted(tx.grants, id)
  }

  lemma ScanReaches(s: P.State, x: P.TxId, reward: Vec, id: DonationId)
    requires x < |s.txs| && WillReach(s.txs[x], reward, id) && Unrevoked(s.db, id) && P.DoScanRow(s, x).Some?
    ensures WillReach(P.DoScanRow(s, x).value.txs[x], reward, id)
  {
    var tx, tx' := s.txs[x], P.DoScanRow(s, x).value.txs[x];
    assert tx.phase.todo == [tx.phase.todo[0]] + tx.phase.todo[1..];
    if Granted(tx.grants, id) {
      var g :| 0 <= g < |tx.grants| && tx.grants[g].id == id;
      assert tx'.grants[g].id == id;
    } else if tx.phase.todo[0] == id {
      assert tx'.grants[|tx.grants|].id == id;
    }
  }

  lemma StatementReaches(s: P.State, x: P.TxId, a: P.Action, reward: Vec, id: DonationId)
    requires x < |s.txs| && WillReach(s.txs[x], reward, id) && Unrevoked(s.db, id) && P.Step(s, x, a).Some?
    ensures x < |P.Step(s, x, a).value.txs| && WillReach(P.Step(s, x, a).value.txs[x], reward, id)
  {
    if a.ScanRow? { ScanReaches(s, x, reward, id); }
  }

  ghost predicate ReachesAt(states: seq<P.State>, k: nat, x: P.TxId, reward: Vec, id: DonationId) {
    k < |states| && x < |states[k].txs| && WillReach(states[k].txs[x], reward, id)
  }

  lemma NextReaches(s: P.State, s': P.State, x: P.TxId, reward: Vec, id: DonationId)
    requires P.Next(s, s') && x < |s.txs| && WillReach(s.txs[x], reward, id) && Unrevoked(s.db, id)
    ensures x < |s'.txs| && WillReach(s'.txs[x], reward, id)
  {
    if y: P.TxId, a :| y < |s.txs| && P.Step(s, y, a) == Some(s') {
      P.StepShape(s, y, a);
      if y == x { StatementReaches(s, x, a, reward, id); }
    }
  }

  /** If it holds of the k-th state it holds of the next one. */
  ghost predicate Turns(kept: nat -> bool, k: nat) {
    kept(k) ==> kept(k + 1)
  }

  lemma {:induction false} KeptFrom(kept: nat -> bool, i: nat, k: nat)
    requires i <= k && kept(i) && forall m: nat :: i <= m < k ==> Turns(kept, m)
    ensures kept(k)
    decreases k
  {
    if i < k {
      KeptFrom(kept, i, k - 1);
      assert Turns(kept, k - 1);
    }
  }

  lemma TurnReaches(states: seq<P.State>, m: nat, x: P.TxId, reward: Vec, id: DonationId)
    requires P.Run(states) && m + 1 < |states| && ReachesAt(states, m, x, reward, id) && Unrevoked(states[m].db, id)
    ensures ReachesAt(states, m + 1, x, reward, id)
  {
    assert P.NextAt(states, m);
    NextReaches(states[m], states[m + 1], x, reward, id);
  }

  lemma RunReaches(states: seq<P.State>, i: nat, k: nat, x: P.TxId, reward: Vec, id: DonationId)
    requires P.Run(states) && i <= k < |states| && ReachesAt(states, i, x, reward, id)
    requires forall m :: i <= m < k ==> Unrevoked(states[m].db, id)
    ensures ReachesAt(states, k, x, reward, id)
  {
    var kept := (m: nat) => ReachesAt(states, m, x, reward, id);
    forall m: nat | i <= m < k
      ensures Turns(kept, m)
    {
      if kept(m) { TurnReaches(states, m, x, reward, id); }
    }
    KeptFrom(kept, i, k);
  }

  lemma CommitReaches(db: Db, locks: map<P.Resource, P.TxId>, x: P.TxId, tx: P.Tx, reward: Vec, id: DonationId)
    requires P.TxOk(db, locks, x, tx) && P.CanCommit(tx) && WillReach(tx, reward, id) && id < |db.donations|
    ensures Overlay(db, tx.w).donations[id].reward == reward
  {
    var g :| 0 <= g < |tx.grants| && tx.grants[g].id == id;
    GrantIsUpdated(tx.grants, |tx.grants|, reward, g);
    PolicyRowsGranted(tx.grants, |tx.grants|, reward, id);
  }

  /**
    In every interleaving, a bulk application that commits has given its reward to every donation that
    was there and not revoked at any time from the start of its scan to its commit.
   */
  lemma PolicyReachesAll(states: seq<P.State>, i: nat, j: nat, x: P.TxId, order: seq<DonationId>, id: DonationId)
    requires P.Run(states) && i < j < |states| - 1 && x < |states[i].txs| && x < |states[j].txs|
    requires P.Step(states[i], x, P.OpenScan(order)) == Some(states[i + 1])
    requires P.Step(states[j], x, P.CommitTx) == Some(states[j + 1])
    requires forall k :: i <= k <= j ==> Unrevoked(states[k].db, id)
    ensures id < |states[j + 1].db.donations| && states[j + 1].db.donations[id].reward == states[i].txs[x].op.reward
  {
    var reward := states[i].txs[x].op.reward;
    assert Unrevoked(states[i].db, id);
    assert ReachesAt(states, i + 1, x, reward, id);
    RunReaches(states, i + 1, j, x, reward, id);
    P.RunKeepsInv(states, j);
    P.TxOkOf(states[j], x);
    CommitReaches(states[j].db, states[j].locks, x, states[j].txs[x], reward, id);
  }
}
