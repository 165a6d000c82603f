/**
  The donation tables and what one committed transaction does to them.

  A transaction is described twice in this project: here as one atomic change of the
  tables (`Legal` and `Do`), and in `DonationProtocol` as the statements it is made of,
  interleaved with those of other transactions.
 */
module DonationModel {
  import opened Options

  type DonationId = nat   // the row's position in domain_donations
  type TokenId = nat      // ordered as the token ids' text

  /** The three request limits that a token has. */
  datatype Limit = Rpm | Daily | Total

  /** One value for each of the limits. */
  datatype Vec = Vec(rpm: int, daily: int, total: int) {
    function Get(l: Limit): int {
      match l
      case Rpm => rpm
      case Daily => daily
      case Total => total
    }
    function Plus(other: Vec): Vec {
      Vec(rpm + other.rpm, daily + other.daily, total + other.total)
    }
    function Minus(other: Vec): Vec {
      Vec(rpm - other.rpm, daily - other.daily, total - other.total)
    }
    function Negated(): Vec {
      Vec(-rpm, -daily, -total)
    }
  }

  const ZERO := Vec(0, 0, 0)
  const INT4_MAX := 0x7FFF_FFFF
  const INT8_MAX := 0x7FFF_FFFF_FFFF_FFFF
  const MAX_ADJUSTMENT := 1_000_000_000

  datatype Status = Pending | Active | Inactive | Revoked

  datatype Donation = Donation(domain: string, token: TokenId, status: Status,
                               rewardActive: bool, reward: Vec, failures: int)

  datatype EventKind = Granted | Withdrawn | PolicyUpdate | ManualAdjust

  datatype Event = Event(token: TokenId, donation: Option<DonationId>, kind: EventKind, delta: Vec)

  /** A token row; `cap` remembers the rpm cap that its last recalculation read. */
  datatype Token = Token(quota: Vec, cap: int)

  /** `domains` says of each known domain whether its source is 'donated'. */
  datatype Db = Db(donations: seq<Donation>, tokens: map<TokenId, Token>, events: seq<Event>,
                   domains: map<string, bool>)

  const EMPTY := Db([], map[], [], map[])

  // ---------- aggregates ----------

  function Contribution(row: Donation, t: TokenId, l: Limit): int {
    if row.token == t && row.rewardActive then row.reward.Get(l) else 0
  }

  /** The active rewards of the token among the first n rows. */
  function RewardsUpTo(rows: seq<Donation>, n: nat, t: TokenId, l: Limit): int
    requires n <= |rows|
  {
    if n == 0 then 0 else RewardsUpTo(rows, n - 1, t, l) + Contribution(rows[n - 1], t, l)
  }

  function ActiveSum(rows: seq<Donation>, t: TokenId, l: Limit): int {
    RewardsUpTo(rows, |rows|, t, l)
  }

  /** Which events an aggregate selects. */
  datatype Selection = ManualOf(token: TokenId) | OfDonation(id: DonationId) | OfToken(token: TokenId)

  predicate Selects(which: Selection, e: Event) {
    match which
    case ManualOf(t) => e.token == t && e.kind == ManualAdjust
    case OfDonation(id) => e.donation == Some(id)
    case OfToken(t) => e.token == t
  }

  function Delta(e: Event, which: Selection, l: Limit): int {
    if Selects(which, e) then e.delta.Get(l) else 0
  }

  /** The deltas of the selected events among the first n. */
  function DeltasUpTo(events: seq<Event>, n: nat, which: Selection, l: Limit): int
    requires n <= |events|
  {
    if n == 0 then 0 else DeltasUpTo(events, n - 1, which, l) + Delta(events[n - 1], which, l)
  }

  function EventSum(events: seq<Event>, which: Selection, l: Limit): int {
    DeltasUpTo(events, |events|, which, l)
  }

  /** The token's quota before clamping: active rewards plus manual adjustments. */
  function PreClamp(db: Db, t: TokenId, l: Limit): int {
    ActiveSum(db.donations, t, l) + EventSum(db.events, ManualOf(t), l)
  }

  function NonNegative(x: int): int {
    if x < 0 then 0 else x
  }

  /** Every component is floored at zero; rpm is also capped when the cap is positive. */
  function Effective(pre: Vec, cap: int): Vec {
    Vec(if 0 < cap < NonNegative(pre.rpm) then cap else NonNegative(pre.rpm),
        NonNegative(pre.daily), NonNegative(pre.total))
  }

  function PreClamps(db: Db, t: TokenId): Vec {
    Vec(PreClamp(db, t, Rpm), PreClamp(db, t, Daily), PreClamp(db, t, Total))
  }

  /** Whether the values can be stored in the INT, INT and BIGINT columns. */
  predicate Fits(v: Vec) {
    v.rpm <= INT4_MAX && v.daily <= INT4_MAX && v.total <= INT8_MAX
  }

  function Holds(row: Donation, t: TokenId): nat {
    if row.token == t && row.status != Revoked then 1 else 0
  }

  function HeldUpTo(rows: seq<Donation>, n: nat, t: TokenId): nat
    requires n <= |rows|
  {
    if n == 0 then 0 else HeldUpTo(rows, n - 1, t) + Holds(rows[n - 1], t)
  }

  /** How many donations of the token are not revoked. */
  function HeldCount(rows: seq<Donation>, t: TokenId): nat {
    HeldUpTo(rows, |rows|, t)
  }

  predicate DomainClaimed(db: Db, domain: string) {
    exists i :: 0 <= i < |db.donations| && db.donations[i].domain == domain
  }

  /** A domain can be claimed when it is new, or known as donated and not claimed yet. */
  predicate DomainFree(db: Db, domain: string) {
    && !DomainClaimed(db, domain)
    && (domain in db.domains ==> db.domains[domain])
  }

  // ---------- the transactions ----------

  /** The settings that DonationPolicy reads: the reward of a donation, and how many a token may hold. */
  datatype Policy = Policy(reward: Vec, maxDomains: int) {
    predicate Raised() {
      PolicyReward(reward) && maxDomains >= 1
    }
    predicate AtLeast(other: Policy) {
      maxDomains >= other.maxDomains && forall l :: reward.Get(l) >= other.reward.Get(l)
    }
  }

  /** Each setting is raised to its minimum if it is below it, and no further. */
  function RaisedPolicy(settings: Policy): (p: Policy)
    ensures p.Raised() && p.AtLeast(settings)
    ensures settings.Raised() ==> p == settings
    ensures forall other: Policy :: other.Raised() && other.AtLeast(settings) ==> other.AtLeast(p)
  {
    var p := Policy(Vec(if settings.reward.rpm < 1 then 1 else settings.reward.rpm,
                        NonNegative(settings.reward.daily),
                        if settings.reward.total < 1 then 1 else settings.reward.total),
                    if settings.maxDomains < 1 then 1 else settings.maxDomains);
    RaisedIsLeast(settings, p);
    p
  }

  lemma RaisedIsLeast(settings: Policy, p: Policy)
    requires p.reward.rpm == (if settings.reward.rpm < 1 then 1 else settings.reward.rpm)
    requires p.reward.daily == NonNegative(settings.reward.daily)
    requires p.reward.total == (if settings.reward.total < 1 then 1 else settings.reward.total)
    requires p.maxDomains == if settings.maxDomains < 1 then 1 else settings.maxDomains
    ensures p.Raised() && p.AtLeast(settings)
    ensures forall other: Policy :: other.Raised() && other.AtLeast(settings) ==> other.AtLeast(p)
  {
    forall other: Policy | other.Raised() && other.AtLeast(settings)
      ensures other.AtLeast(p)
    {
      assert other.reward.Get(Rpm) >= settings.reward.Get(Rpm);
      assert other.reward.Get(Daily) >= settings.reward.Get(Daily);
      assert other.reward.Get(Total) >= settings.reward.Get(Total);
    }
  }

  predicate PolicyReward(v: Vec) {
    v.rpm >= 1 && v.daily >= 0 && v.total >= 1
  }

  /** A DNS verdict. */
  datatype Verdict = Verdict(valid: bool, transient: bool)

  datatype Op =
    | Create(domain: string, token: TokenId, isNew: bool, reward: Vec, maxDomains: int)
    | Verify(id: DonationId, verdict: Verdict, tolerance: int)
    | SetRevoked(id: DonationId)
    | Unrevoke(id: DonationId)
    | Adjust(token: TokenId, delta: Vec)
    | ApplyPolicy(reward: Vec)

  predicate RowOp(op: Op) {
    op.Verify? || op.SetRevoked? || op.Unrevoke?
  }

  predicate AdjustmentInRange(delta: Vec) {
    && -MAX_ADJUSTMENT <= delta.rpm <= MAX_ADJUSTMENT
    && -MAX_ADJUSTMENT <= delta.daily <= MAX_ADJUSTMENT
    && -MAX_ADJUSTMENT <= delta.total <= MAX_ADJUSTMENT
  }

  /** A donation row as a transaction read it under the row's lock. */
  datatype Grant = Grant(id: DonationId, row: Donation)

  /** The pending changes of a transaction. */
  datatype Writes = Writes(rows: map<DonationId, Donation>, inserts: seq<Donation>, events: seq<Event>,
                           tokens: map<TokenId, Token>, domains: map<string, bool>)

  const NO_WRITES := Writes(map[], [], [], map[], map[])

  /** The tables with the pending changes on top. */
  function Overlay(db: Db, w: Writes): (r: Db)
    ensures |r.donations| == |db.donations| + |w.inserts|
  {
    Db(seq(|db.donations|, i requires 0 <= i < |db.donations| =>
         if i in w.rows then w.rows[i] else db.donations[i]) + w.inserts,
       db.tokens + w.tokens,
       db.events + w.events,
       db.domains + w.domains)
  }

  /** A verification that fails deactivates the reward, unless the failure is transient and tolerated. */
  predicate Deactivates(row: Donation, verdict: Verdict, tolerance: int) {
    && row.rewardActive
    && !verdict.valid
    && (!verdict.transient || row.failures + 1 >= if tolerance < 1 then 1 else tolerance)
  }

  /** The row that a single-row transaction leaves behind. */
  function NewRow(op: Op, row: Donation): Donation
    requires RowOp(op)
  {
    match op
    case Verify(_, verdict, tolerance) =>
      if verdict.valid then row.(status := Active, rewardActive := true, failures := 0)
      else if Deactivates(row, verdict, tolerance) then
        row.(status := Inactive, rewardActive := false, failures := row.failures + 1)
      else row.(failures := row.failures + 1)
    case SetRevoked(_) => row.(status := Revoked, rewardActive := false)
    case Unrevoke(_) => row.(status := Inactive, rewardActive := false, failures := 0)
  }

  /** The events that a single-row transaction appends to the ledger. */
  function RowEvents(op: Op, g: Grant): seq<Event>
    requires RowOp(op)
  {
    var row := g.row;
    match op
    case Verify(_, verdict, tolerance) =>
      if verdict.valid && !row.rewardActive then [Event(row.token, Some(g.id), Granted, row.reward)]
      else if Deactivates(row, verdict, tolerance) then [Event(row.token, Some(g.id), Withdrawn, row.reward.Negated())]
      else []
    case SetRevoked(_) =>
      if row.rewardActive then [Event(row.token, Some(g.id), Withdrawn, row.reward.Negated())] else []
    case Unrevoke(_) => []
  }

  function PolicyEvent(g: Grant, reward: Vec): Event {
    Event(g.row.token, Some(g.id), PolicyUpdate, if g.row.rewardActive then reward.Minus(g.row.reward) else ZERO)
  }

  /** The rows of the first n grants with the new reward. */
  function PolicyRows(grants: seq<Grant>, n: nat, reward: Vec): map<DonationId, Donation>
    requires n <= |grants|
  {
    if n == 0 then map[]
    else PolicyRows(grants, n - 1, reward)[grants[n - 1].id := grants[n - 1].row.(reward := reward)]
  }

  function PolicyEvents(grants: seq<Grant>, reward: Vec): seq<Event> {
    seq(|grants|, k requires 0 <= k < |grants| => PolicyEvent(grants[k], reward))
  }

  /** What the transaction writes before it recalculates any quota. */
  function BodyWrites(op: Op, grants: seq<Grant>): Writes
    requires RowOp(op) ==> |grants| == 1
  {
    match op
    case Create(domain, token, isNew, reward, _) =>
      Writes(map[], [Donation(domain, token, Pending, false, reward, 0)], [],
             if isNew then map[token := Token(ZERO, 0)] else map[], map[domain := true])
    case Adjust(token, delta) => NO_WRITES.(events := [Event(token, None, ManualAdjust, delta)])
    case ApplyPolicy(reward) => NO_WRITES.(rows := PolicyRows(grants, |grants|, reward), events := PolicyEvents(grants, reward))
    case _ => NO_WRITES.(rows := map[grants[0].id := NewRow(op, grants[0].row)], events := RowEvents(op, grants[0]))
  }

  /** Inserts into an ascending sequence, dropping duplicates. */
  function Insert(t: TokenId, sorted: seq<TokenId>): seq<TokenId> {
    if sorted == [] then [t]
    else if t < sorted[0] then [t] + sorted
    else if t == sorted[0] then sorted
    else [sorted[0]] + Insert(t, sorted[1..])
  }

  /** The tokens of the grants, deduplicated and in ascending order. */
  function TokensOf(grants: seq<Grant>): seq<TokenId> {
    if grants == [] then [] else Insert(grants[|grants| - 1].row.token, TokensOf(grants[..|grants| - 1]))
  }

  /** The tokens that the transaction locks, in the order in which it locks them. */
  function TokensToLock(op: Op, grants: seq<Grant>): seq<TokenId> {
    if op.Create? || op.Adjust? then [op.token] else TokensOf(grants)
  }

  /** The tokens whose quota the transaction recalculates. */
  function TokensToRecalculate(op: Op, grants: seq<Grant>): seq<TokenId> {
    if op.Create? then [] else TokensToLock(op, grants)
  }

  // ---------- one committed transaction ----------

  /** A committed transaction: what it was, the rows it locked, and the rpm caps it read. */
  datatype Commit = Commit(op: Op, ids: seq<DonationId>, caps: map<TokenId, int>)

  function Grants(db: Db, ids: seq<DonationId>): (r: seq<Grant>)
    requires forall k :: 0 <= k < |ids| ==> ids[k] < |db.donations|
    ensures |r| == |ids|
  {
    seq(|ids|, k requires 0 <= k < |ids| => Grant(ids[k], db.donations[ids[k]]))
  }

  predicate Differ<T(==)>(s: seq<T>, j: nat, k: nat)
    requires j < |s| && k < |s|
  {
    s[j] != s[k]
  }

  predicate IdsOk(db: Db, c: Commit) {
    && (forall k :: 0 <= k < |c.ids| ==> c.ids[k] < |db.donations|)
    && (forall j, k :: 0 <= j < k < |c.ids| ==> Differ(c.ids, j, k))
    && (RowOp(c.op) ==> c.ids == [c.op.id])
    && (c.op.Create? || c.op.Adjust? ==> c.ids == [])
  }

  /** The transaction's own guards. */
  predicate Guard(db: Db, c: Commit)
    requires IdsOk(db, c)
  {
    match c.op
    case Create(domain, token, isNew, reward, maxDomains) =>
      && domain != ""
      && (isNew <==> token !in db.tokens)
      && HeldCount(db.donations, token) < maxDomains
      && DomainFree(db, domain)
      && PolicyReward(reward)
      && Fits(reward)
    case Verify(_, _, _) => db.donations[c.ids[0]].status != Revoked
    case SetRevoked(_) => true
    case Unrevoke(_) => true
    case Adjust(token, delta) => token in db.tokens && AdjustmentInRange(delta)
    case ApplyPolicy(reward) =>
      && PolicyReward(reward)
      && (c.ids != [] ==> Fits(reward))
      && forall k :: 0 <= k < |c.ids| ==> db.donations[c.ids[k]].status != Revoked
  }

  /** The tables after the body's writes, before the recalculation. */
  function AfterBody(db: Db, c: Commit): Db
    requires IdsOk(db, c)
  {
    Overlay(db, BodyWrites(c.op, Grants(db, c.ids)))
  }

  function Recalculated(db: Db, t: TokenId, cap: int): Token {
    Token(Effective(PreClamps(db, t), cap), cap)
  }

  predicate Legal(db: Db, c: Commit) {
    && IdsOk(db, c)
    && Guard(db, c)
    && forall t :: t in TokensToRecalculate(c.op, Grants(db, c.ids)) ==>
         t in c.caps && Fits(Recalculated(AfterBody(db, c), t, c.caps[t]).quota)
  }

  /** The atomic effect of a committed transaction. */
  function Do(db: Db, c: Commit): Db
    requires Legal(db, c)
  {
    var after := AfterBody(db, c);
    after.(tokens := after.tokens +
                     map t | t in TokensToRecalculate(c.op, Grants(db, c.ids)) :: Recalculated(after, t, c.caps[t]))
  }

  /** Runs the logged transactions one after the other, from empty tables. */
  function Replay(log: seq<Commit>): Option<Db> {
    if log == [] then Some(EMPTY)
    else match Replay(log[..|log| - 1])
      case None => None
      case Some(db) => if Legal(db, log[|log| - 1]) then Some(Do(db, log[|log| - 1])) else None
  }
}
