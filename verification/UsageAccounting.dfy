/**
  How often each token was used: request_count_total in the token's row, and one row of
  api_request_daily for each day. Requests are counted one at a time, by the admission check or by
  the recorder's fallback, or in batches that are aggregated first.
 */
module UsageAccounting {
  import opened Options

  type TokenId = nat
  type Day = int
  type Instant = nat   // in seconds; 0 is the zero time

  const DAY_SECONDS := 86400
  const SHANGHAI := 28800

  /** The Shanghai day of an instant. */
  function DayOf(at: Instant): Day {
    (at + SHANGHAI) / DAY_SECONDS
  }

  /** Days follow each other, and each begins at 16:00 UTC, which is midnight in Shanghai. */
  lemma DayBeginsAtSixteen(at: Instant)
    ensures DayOf(at + 1) == DayOf(at) + if (at + 1) % 86400 == 57600 then 1 else 0
    ensures DayOf(at) * 86400 - 28800 <= at < (DayOf(at) + 1) * 86400 - 28800
  {
  }

  datatype Event = Event(token: TokenId, at: Instant, countsUsage: bool)

  datatype TokenRow = TokenRow(total: nat, limit: int, lastUsed: Instant, revoked: bool, expires: Option<Instant>)

  type Daily = map<(TokenId, Day), nat>

  datatype Usage = Usage(tokens: map<TokenId, TokenRow>, daily: Daily)

  const NO_USAGE := Usage(map[], map[])

  // ---------- aggregates of a list of events ----------

  /** The counted events of the token among the first n. */
  function TotalUpTo(events: seq<Event>, n: nat, t: TokenId): nat
    requires n <= |events|
  {
    if n == 0 then 0
    else TotalUpTo(events, n - 1, t) + if events[n - 1].countsUsage && events[n - 1].token == t then 1 else 0
  }

  /** Those of them on the given day. */
  function DayUpTo(events: seq<Event>, n: nat, k: (TokenId, Day)): nat
    requires n <= |events|
  {
    if n == 0 then 0
    else
      var e := events[n - 1];
      DayUpTo(events, n - 1, k) + if e.countsUsage && (e.token, DayOf(e.at)) == k then 1 else 0
  }

  function LastUpTo(events: seq<Event>, n: nat, t: TokenId): Instant
    requires n <= |events|
  {
    if n == 0 then 0
    else
      var e, before := events[n - 1], LastUpTo(events, n - 1, t);
      if e.countsUsage && e.token == t && e.at > before then e.at else before
  }

  // ---------- sums over the days of a token ----------

  ghost function SumOf(daily: Daily, keys: set<(TokenId, Day)>): nat
    requires keys <= daily.Keys
  {
    if keys == {} then 0
    else
      var k :| k in keys;
      daily[k] + SumOf(daily, keys - {k})
  }

  function DaysOf(daily: Daily, t: TokenId): set<(TokenId, Day)> {
    set k | k in daily && k.0 == t
  }

  ghost function DaySum(daily: Daily, t: TokenId): nat {
    SumOf(daily, DaysOf(daily, t))
  }

  lemma {:induction false} SumWithout(daily: Daily, keys: set<(TokenId, Day)>, k: (TokenId, Day))
    requires keys <= daily.Keys && k in keys
    ensures SumOf(daily, keys) == daily[k] + SumOf(daily, keys - {k})
  {
    var first :| first in keys && SumOf(daily, keys) == daily[first] + SumOf(daily, keys - {first});
    if first != k {
      SumWithout(daily, keys - {first}, k);
      SumWithout(daily, keys - {k}, first);
      assert keys - {first} - {k} == keys - {k} - {first};
    }
  }

  lemma {:induction false} SumSame(daily: Daily, other: Daily, keys: set<(TokenId, Day)>)
    requires keys <= daily.Keys && keys <= other.Keys && forall k :: k in keys ==> daily[k] == other[k]
    ensures SumOf(daily, keys) == SumOf(other, keys)
  {
    if keys != {} {
      var k :| k in keys;
      SumWithout(daily, keys, k);
      SumWithout(other, keys, k);
      SumSame(daily, other, keys - {k});
    }
  }

  function CountOn(daily: Daily, k: (TokenId, Day)): nat {
    if k in daily then daily[k] else 0
  }

  /** The upsert of one daily row. */
  function AddTo(daily: Daily, k: (TokenId, Day), n: nat): Daily {
    daily[k := CountOn(daily, k) + n]
  }

  lemma AddToSum(daily: Daily, k: (TokenId, Day), n: nat, t: TokenId)
    ensures DaySum(AddTo(daily, k, n), t) == DaySum(daily, t) + if k.0 == t then n else 0
  {
    var after, days := AddTo(daily, k, n), DaysOf(daily, t);
    if k.0 == t {
      assert DaysOf(after, t) == days + {k};
      SumWithout(after, days + {k}, k);
      assert days + {k} - {k} == days - {k};
      SumSame(daily, after, days - {k});
      if k in days { SumWithout(daily, days, k); } else { assert days - {k} == days; }
    } else {
      assert DaysOf(after, t) == days;
      SumSame(daily, after, days);
    }
  }

  // ---------- a batch ----------

  /** The daily rows after the counted events of active tokens were added, one event at a time. */
  function DailyAfter(daily: Daily, events: seq<Event>, n: nat, active: set<TokenId>): Daily
    requires n <= |events|
  {
    if n == 0 then daily
    else
      var before, e := DailyAfter(daily, events, n - 1, active), events[n - 1];
      if e.countsUsage && e.token in active then AddTo(before, (e.token, DayOf(e.at)), 1) else before
  }

  /** Whatever the events: per token, the batch adds as much to the days as to the total. */
  lemma {:induction false} BatchDaysAddUp(daily: Daily, events: seq<Event>, n: nat, active: set<TokenId>, t: TokenId)
    requires n <= |events|
    ensures DaySum(DailyAfter(daily, events, n, active), t)
            == DaySum(daily, t) + if t in active then TotalUpTo(events, n, t) else 0
  {
    if n > 0 {
      BatchDaysAddUp(daily, events, n - 1, active, t);
      var before, e := DailyAfter(daily, events, n - 1, active), events[n - 1];
      if e.countsUsage && e.token in active { AddToSum(before, (e.token, DayOf(e.at)), 1, t); }
    }
  }

  /** Adding the events one at a time is adding each day's aggregate once. */
  lemma {:induction false} BatchDaysAreAggregates(daily: Daily, events: seq<Event>, n: nat, active: set<TokenId>, k: (TokenId, Day))
    requires n <= |events|
    ensures CountOn(DailyAfter(daily, events, n, active), k)
            == CountOn(daily, k) + if k.0 in active then DayUpTo(events, n, k) else 0
    ensures k in DailyAfter(daily, events, n, active) <==> k in daily || (k.0 in active && DayUpTo(events, n, k) > 0)
  {
    if n > 0 { BatchDaysAreAggregates(daily, events, n - 1, active, k); }
  }

  predicate Active(tokens: map<TokenId, TokenRow>, t: TokenId) {
    t in tokens && !tokens[t].revoked
  }

  function ActiveTokens(tokens: map<TokenId, TokenRow>): set<TokenId> {
    set t | t in tokens && !tokens[t].revoked
  }

  /** The batch's first statement. */
  function TotalsAdded(tokens: map<TokenId, TokenRow>, events: seq<Event>): map<TokenId, TokenRow> {
    map t | t in tokens ::
      var row, n := tokens[t], TotalUpTo(events, |events|, t);
      if row.revoked || n == 0 then row
      else row.(total := row.total + n,
                lastUsed := if row.lastUsed < LastUpTo(events, |events|, t) then LastUpTo(events, |events|, t) else row.lastUsed)
  }

  function WithRevoked(tokens: map<TokenId, TokenRow>, which: set<TokenId>, revoked: bool): map<TokenId, TokenRow> {
    map t | t in tokens :: if t in which then tokens[t].(revoked := revoked) else tokens[t]
  }

  /**
    The transaction of a batch. Its two statements each see what was committed before them, so tokens
    whose rows the first did not update may be enabled by another transaction in between.
   */
  function Batched(db: Usage, events: seq<Event>, enabled: set<TokenId>): Usage {
    var between := WithRevoked(TotalsAdded(db.tokens, events), enabled, false);
    Usage(between, DailyAfter(db.daily, events, |events|, ActiveTokens(between)))
  }

  // ---------- single requests ----------

  function CountedOnce(db: Usage, t: TokenId, now: Instant): Usage
    requires t in db.tokens
  {
    var row := db.tokens[t];
    Usage(db.tokens[t := row.(total := row.total + 1, lastUsed := now)], AddTo(db.daily, (t, DayOf(now)), 1))
  }

  predicate Admissible(db: Usage, t: TokenId, now: Instant) {
    && Active(db.tokens, t)
    && (db.tokens[t].expires.Some? ==> db.tokens[t].expires.value > now)
    && (db.tokens[t].limit <= 0 || db.tokens[t].total < db.tokens[t].limit)
  }

  datatype Op =
    | CreateToken(token: TokenId, limit: int)
    | SetLimit(token: TokenId, limit: int)
    | SetRevoked(token: TokenId, revoked: bool)
    | IncrementIfAllowed(token: TokenId, now: Instant)
    | RecordOne(token: TokenId, now: Instant)
    | RecordBatch(events: seq<Event>, enabled: set<TokenId>)

  function Do(db: Usage, op: Op): Usage {
    match op
    case CreateToken(t, limit) =>
      if t in db.tokens then db else db.(tokens := db.tokens[t := TokenRow(0, limit, 0, false, None)])
    case SetLimit(t, limit) =>
      if t in db.tokens then db.(tokens := db.tokens[t := db.tokens[t].(limit := limit)]) else db
    case SetRevoked(t, revoked) => db.(tokens := WithRevoked(db.tokens, {t}, revoked))
    case IncrementIfAllowed(t, now) => if Admissible(db, t, now) then CountedOnce(db, t, now) else db
    case RecordOne(t, now) => if Active(db.tokens, t) then CountedOnce(db, t, now) else db
    case RecordBatch(events, enabled) => Batched(db, events, enabled)
  }

  function Replay(ops: seq<Op>, n: nat): Usage
    requires n <= |ops|
  {
    if n == 0 then NO_USAGE else Do(Replay(ops, n - 1), ops[n - 1])
  }

  // ---------- totals against days ----------

  /** How much the days of a token exceed its total. */
  ghost function Excess(db: Usage, t: TokenId): int {
    DaySum(db.daily, t) - if t in db.tokens then db.tokens[t].total else 0
  }

  /** What a step adds to the excess: the batch's events of a token that was enabled between its statements. */
  function Slip(db: Usage, op: Op, t: TokenId): nat {
    if op.RecordBatch? && t in db.tokens && db.tokens[t].revoked && t in op.enabled
    then TotalUpTo(op.events, |op.events|, t) else 0
  }

  lemma StepAddsSlip(db: Usage, op: Op, t: TokenId)
    ensures Excess(Do(db, op), t) == Excess(db, t) + Slip(db, op, t)
  {
    match op
    case IncrementIfAllowed(u, now) => AddToSum(db.daily, (u, DayOf(now)), 1, t);
    case RecordOne(u, now) => AddToSum(db.daily, (u, DayOf(now)), 1, t);
    case RecordBatch(events, enabled) =>
      var between := WithRevoked(TotalsAdded(db.tokens, events), enabled, false);
      BatchDaysAddUp(db.daily, events, |events|, ActiveTokens(between), t);
    case _ =>
  }

  predicate NoSlip(ops: seq<Op>, n: nat, t: TokenId)
    requires n <= |ops|
  {
    forall i: nat :: i < n ==> Slip(Replay(ops, i), ops[i], t) == 0
  }

  /**
    After any history, a token's total is the sum of its daily counts, over all days, if and only if
    no batch held counted events of the token while it was revoked at the batch's first statement
    and enabled before its second.
   */
  lemma {:induction false} TotalIsSumOfDaysIff(ops: seq<Op>, n: nat, t: TokenId)
    requires n <= |ops|
    ensures Excess(Replay(ops, n), t) >= 0
    ensures Excess(Replay(ops, n), t) == 0 <==> NoSlip(ops, n, t)
  {
    if n == 0 {
      assert DaysOf(map[], t) == {};
    } else {
      TotalIsSumOfDaysIff(ops, n - 1, t);
      StepAddsSlip(Replay(ops, n - 1), ops[n - 1], t);
      assert NoSlip(ops, n, t) <==> NoSlip(ops, n - 1, t) && Slip(Replay(ops, n - 1), ops[n - 1], t) == 0;
    }
  }

  /** A history in which the two do disagree. */
  lemma EnablingInBetweenSlips(t: TokenId, at: Instant)
    ensures var ops := [CreateToken(t, 0), SetRevoked(t, true), RecordBatch([Event(t, at, true)], {t})];
            Excess(Replay(ops, 3), t) == 1
  {
    var events := [Event(t, at, true)];
    var ops := [CreateToken(t, 0), SetRevoked(t, true), RecordBatch(events, {t})];
    var db := Replay(ops, 2);
    assert Replay(ops, 1) == Do(Replay(ops, 0), ops[0]) && db == Do(Replay(ops, 1), ops[1]);
    StepAddsSlip(Replay(ops, 0), ops[0], t);
    StepAddsSlip(Replay(ops, 1), ops[1], t);
    StepAddsSlip(db, ops[2], t);
    assert DaysOf(map[], t) == {};
    assert TotalUpTo(events, 0, t) == 0;
    assert TotalUpTo(events, 1, t) == 1;
  }

  // ---------- the total limit ----------

  function LimitOf(db: Usage, t: TokenId): int {
    if t in db.tokens then db.tokens[t].limit else 0
  }

  function Higher(a: int, b: int): int {
    if a > b then a else b
  }

  /** The highest limit that the token has had so far; at least zero. */
  function HighestLimit(ops: seq<Op>, n: nat, t: TokenId): int
    requires n <= |ops|
  {
    if n == 0 then 0 else Higher(HighestLimit(ops, n - 1, t), LimitOf(Replay(ops, n), t))
  }

  /** What a step counts for the token without comparing its total with a positive limit. */
  function CountsUnchecked(db: Usage, op: Op, t: TokenId): nat {
    if !Active(db.tokens, t) then 0
    else
      match op
      case IncrementIfAllowed(u, now) => if u == t && Admissible(db, t, now) && db.tokens[t].limit <= 0 then 1 else 0
      case RecordOne(u, _) => if u == t then 1 else 0
      case RecordBatch(events, _) => TotalUpTo(events, |events|, t)
      case _ => 0
  }

  function Unchecked(ops: seq<Op>, n: nat, t: TokenId): nat
    requires n <= |ops|
  {
    if n == 0 then 0 else Unchecked(ops, n - 1, t) + CountsUnchecked(Replay(ops, n - 1), ops[n - 1], t)
  }

  /**
    After any history, whatever the limits were set to and however requests were counted: a token's
    total is at most the highest limit that it has had, plus the requests that were counted without
    the check of a positive limit.
   */
  lemma {:induction false} TotalWithinLimit(ops: seq<Op>, n: nat, t: TokenId)
    requires n <= |ops|
    ensures TotalOf(Replay(ops, n), t) <= HighestLimit(ops, n, t) + Unchecked(ops, n, t)
  {
    if n > 0 {
      TotalWithinLimit(ops, n - 1, t);
      StepWithinLimit(Replay(ops, n - 1), ops[n - 1], t);
    }
  }

  function TotalOf(db: Usage, t: TokenId): nat {
    if t in db.tokens then db.tokens[t].total else 0
  }

  /** A step counts what it counts unchecked, or one request within a positive limit that it keeps. */
  lemma StepWithinLimit(db: Usage, op: Op, t: TokenId)
    ensures TotalOf(Do(db, op), t) == TotalOf(db, t) + CountsUnchecked(db, op, t)
            || (CountsUnchecked(db, op, t) == 0 && TotalOf(Do(db, op), t) == TotalOf(db, t) + 1 <= LimitOf(Do(db, op), t))
  {
  }

  // ---------- the statements of a batch, over its aggregates ----------

  datatype Aggregate = Aggregate(count: nat, lastUsed: Instant)

  /** UPDATE account_tokens, joined with the totals. */
  function Updated(tokens: map<TokenId, TokenRow>, totals: map<TokenId, Aggregate>): map<TokenId, TokenRow> {
    map t | t in tokens ::
      if t !in totals || tokens[t].revoked then tokens[t]
      else tokens[t].(total := tokens[t].total + totals[t].count,
                      lastUsed := if tokens[t].lastUsed < totals[t].lastUsed then totals[t].lastUsed else tokens[t].lastUsed)
  }

  /** INSERT INTO api_request_daily, joined with the active tokens; a conflict adds to the row's count. */
  function Inserted(daily: Daily, days: Daily, active: set<TokenId>): Daily {
    daily + map k | k in days && k.0 in active :: CountOn(daily, k) + days[k]
  }

  ghost predicate AreTotals(events: seq<Event>, totals: map<TokenId, Aggregate>) {
    && (forall t :: t in totals <==> TotalUpTo(events, |events|, t) > 0)
    && (forall t :: t in totals ==> totals[t] == Aggregate(TotalUpTo(events, |events|, t), LastUpTo(events, |events|, t)))
  }

  ghost predicate AreDays(events: seq<Event>, days: Daily) {
    && (forall k :: k in days <==> DayUpTo(events, |events|, k) > 0)
    && (forall k :: k in days ==> days[k] == DayUpTo(events, |events|, k))
  }

  lemma UpdateIsTotalsAdded(tokens: map<TokenId, TokenRow>, events: seq<Event>, totals: map<TokenId, Aggregate>)
    requires AreTotals(events, totals)
    ensures Updated(tokens, totals) == TotalsAdded(tokens, events)
  {
  }

  lemma InsertIsDailyAfter(daily: Daily, events: seq<Event>, days: Daily, active: set<TokenId>)
    requires AreDays(events, days)
    ensures Inserted(daily, days, active) == DailyAfter(daily, events, |events|, active)
  {
    var actual, expected := Inserted(daily, days, active), DailyAfter(daily, events, |events|, active);
    forall k
      ensures (k in actual <==> k in expected) && CountOn(actual, k) == CountOn(expected, k)
    {
      BatchDaysAreAggregates(daily, events, |events|, active, k);
    }
    forall k | k in actual ensures actual[k] == expected[k] {
      assert CountOn(actual, k) == CountOn(expected, k);
    }
  }

  /** The two maps of one batch agree: a token's count is the sum of its counts by day. */
  lemma MapsAgree(events: seq<Event>, totals: map<TokenId, Aggregate>, days: Daily, t: TokenId)
    requires AreTotals(events, totals) && AreDays(events, days)
    ensures DaySum(days, t) == if t in totals then totals[t].count else 0
  {
    var active := (set k | k in days :: k.0) + {t};
    InsertIsDailyAfter(map[], events, days, active);
    assert Inserted(map[], days, active) == days;
    BatchDaysAddUp(map[], events, |events|, active, t);
    assert DaysOf(map[], t) == {};
  }

  // ---------- what the methods promise, spelled out ----------

  /** The events that count for the token. */
  ghost function Counted(events: seq<Event>, n: nat, t: TokenId): set<nat>
    requires n <= |events|
  {
    set i: nat | i < n && events[i].countsUsage && events[i].token == t
  }

  /** Those of them between two midnights in Shanghai. */
  ghost function CountedOn(events: seq<Event>, n: nat, t: TokenId, day: Day): set<nat>
    requires n <= |events|
  {
    set i: nat | i < n && events[i].countsUsage && events[i].token == t
                 && day * 86400 - 28800 <= events[i].at < (day + 1) * 86400 - 28800
  }

  lemma {:induction false} TotalIsCardinality(events: seq<Event>, n: nat, t: TokenId)
    requires n <= |events|
    ensures TotalUpTo(events, n, t) == |Counted(events, n, t)|
  {
    if n > 0 {
      TotalIsCardinality(events, n - 1, t);
      var e, before := events[n - 1], Counted(events, n - 1, t);
      assert Counted(events, n, t) == if e.countsUsage && e.token == t then before + {n - 1} else before;
    }
  }

  lemma {:induction false} DayIsCardinality(events: seq<Event>, n: nat, t: TokenId, day: Day)
    requires n <= |events|
    ensures DayUpTo(events, n, (t, day)) == |CountedOn(events, n, t, day)|
  {
    if n > 0 {
      DayIsCardinality(events, n - 1, t, day);
      var e, before := events[n - 1], CountedOn(events, n - 1, t, day);
      assert DayOf(e.at) == day <==> day * 86400 - 28800 <= e.at < (day + 1) * 86400 - 28800;
      assert CountedOn(events, n, t, day)
             == if e.countsUsage && (e.token, DayOf(e.at)) == (t, day) then before + {n - 1} else before;
    }
  }

  /** The last use is no earlier than before and than any counted event, and is one of these. */
  predicate LastUsedIsRight(before: Instant, after: Instant, events: seq<Event>, t: TokenId) {
    && before <= after
    && (forall i :: 0 <= i < |events| && events[i].countsUsage && events[i].token == t ==> events[i].at <= after)
    && (after == before || exists i :: 0 <= i < |events| && events[i].countsUsage && events[i].token == t && events[i].at == after)
  }

  lemma {:induction false} LastIsLatest(events: seq<Event>, n: nat, t: TokenId)
    requires n <= |events|
    ensures forall i :: 0 <= i < n && events[i].countsUsage && events[i].token == t ==> events[i].at <= LastUpTo(events, n, t)
    ensures LastUpTo(events, n, t) == 0
            || exists i :: 0 <= i < n && events[i].countsUsage && events[i].token == t && events[i].at == LastUpTo(events, n, t)
  {
    if n > 0 { LastIsLatest(events, n - 1, t); }
  }

  /**
    A batch counts every counted event once in its token's total, unless the token was revoked at the
    first statement, and once on its day, unless it was revoked at the second.
   */
  ghost predicate TotalCounted(before: Usage, after: Usage, events: seq<Event>, enabled: set<TokenId>, t: TokenId)
    requires t in before.tokens
  {
    && t in after.tokens
    && var row, row' := before.tokens[t], after.tokens[t];
       && row'.limit == row.limit && row'.expires == row.expires && row'.revoked == (row.revoked && t !in enabled)
       && row'.total == row.total + (if row.revoked then 0 else |Counted(events, |events|, t)|)
       && (row.revoked ==> row'.lastUsed == row.lastUsed)
       && (!row.revoked ==> LastUsedIsRight(row.lastUsed, row'.lastUsed, events, t))
  }

  ghost predicate DayCounted(before: Usage, after: Usage, events: seq<Event>, t: TokenId, day: Day) {
    CountOn(after.daily, (t, day))
    == CountOn(before.daily, (t, day)) + if t in after.tokens && !after.tokens[t].revoked then |CountedOn(events, |events|, t, day)| else 0
  }

  ghost predicate BatchCounted(before: Usage, after: Usage, events: seq<Event>, enabled: set<TokenId>) {
    && after.tokens.Keys == before.tokens.Keys
    && (forall t :: t in before.tokens ==> TotalCounted(before, after, events, enabled, t))
    && forall t, day :: DayCounted(before, after, events, t, day)
  }

  lemma BatchIsCounted(db: Usage, events: seq<Event>, enabled: set<TokenId>)
    ensures BatchCounted(db, Batched(db, events, enabled), events, enabled)
  {
    var after := Batched(db, events, enabled);
    forall t | t in db.tokens
      ensures TotalCounted(db, after, events, enabled, t)
    {
      BatchTotalIsCounted(db, events, enabled, t);
    }
    forall t, day
      ensures DayCounted(db, after, events, t, day)
    {
      BatchDaysAreAggregates(db.daily, events, |events|, ActiveTokens(after.tokens), (t, day));
      DayIsCardinality(events, |events|, t, day);
    }
  }

  lemma BatchTotalIsCounted(db: Usage, events: seq<Event>, enabled: set<TokenId>, t: TokenId)
    requires t in db.tokens
    ensures TotalCounted(db, Batched(db, events, enabled), events, enabled, t)
  {
    TotalIsCardinality(events, |events|, t);
    LastIsLatest(events, |events|, t);
    assert forall i: nat :: i < |events| && events[i].countsUsage && events[i].token == t ==> i in Counted(events, |events|, t);
    assert TotalUpTo(events, |events|, t) == 0 ==> Counted(events, |events|, t) == {};
  }

  // ---------- the store ----------

  class UsageStore {
    var tokens: map<TokenId, TokenRow>
    var daily: Daily

    ghost function Contents(): Usage
      reads this
    {
      Usage(tokens, daily)
    }

    constructor ()
      ensures Contents() == NO_USAGE
    {
      tokens, daily := map[], map[];
    }

    /** Some of the new total and the limit; None when the request is not admitted. */
    method IncrementTokenUsageIfAllowed(t: TokenId, now: Instant) returns (used: Option<(nat, int)>)
      modifies this
      ensures Contents() == Do(old(Contents()), IncrementIfAllowed(t, now))
      ensures used.Some? <==> Admissible(old(Contents()), t, now)
      ensures used.Some? ==> used.value == (tokens[t].total, tokens[t].limit)
      ensures used.Some? && used.value.1 > 0 ==> used.value.0 <= used.value.1
      ensures used.Some? <==> && t in old(tokens) && !old(tokens)[t].revoked
                              && (old(tokens)[t].expires == None || now < old(tokens)[t].expires.value)
                              && (old(tokens)[t].limit <= 0 || old(tokens)[t].total < old(tokens)[t].limit)
      ensures used.Some? ==>
                && tokens == old(tokens)[t := old(tokens)[t].(total := old(tokens)[t].total + 1, lastUsed := now)]
                && var k := (t, (now + 28800) / 86400);
                   daily == old(daily)[k := (if k in old(daily) then old(daily)[k] else 0) + 1]
      ensures used.None? ==> tokens == old(tokens) && daily == old(daily)
    {
      if t !in tokens { return None; }
      var row := tokens[t];
      if row.revoked || (row.expires.Some? && row.expires.value <= now) { return None; }
      if row.limit > 0 && row.total >= row.limit { return None; }
      tokens := tokens[t := row.(total := row.total + 1, lastUsed := now)];
      var k := (t, DayOf(now));
      daily := daily[k := (if k in daily then daily[k] else 0) + 1];
      used := Some((row.total + 1, row.limit));
    }

    /** The two maps that a batch is aggregated into: keys are what was counted at all. */
    method Aggregated(events: seq<Event>) returns (totals: map<TokenId, Aggregate>, days: Daily)
      ensures AreTotals(events, totals) && AreDays(events, days)
    {
      totals, days := map[], map[];
      for i := 0 to |events|
        invariant forall t :: t in totals <==> TotalUpTo(events, i, t) > 0
        invariant forall t :: t in totals ==> totals[t] == Aggregate(TotalUpTo(events, i, t), LastUpTo(events, i, t))
        invariant forall t :: t !in totals ==> LastUpTo(events, i, t) == 0
        invariant forall k :: k in days <==> DayUpTo(events, i, k) > 0
        invariant forall k :: k in days ==> days[k] == DayUpTo(events, i, k)
      {
        var e := events[i];
        if !e.countsUsage { continue; }
        var total := if e.token in totals then totals[e.token] else Aggregate(0, 0);
        total := total.(count := total.count + 1);
        if e.at > total.lastUsed { total := total.(lastUsed := e.at); }
        totals := totals[e.token := total];
        var k := (e.token, DayOf(e.at));
        days := days[k := (if k in days then days[k] else 0) + 1];
      }
    }

    /** The batch's transaction; `enabled` are the tokens that others enable between its statements. */
    method RecordDeferredTokenUsage(events: seq<Event>, enabled: set<TokenId>)
      modifies this
      ensures Contents() == Do(old(Contents()), RecordBatch(events, enabled))
      ensures BatchCounted(old(Contents()), Contents(), events, enabled)
    {
      BatchIsCounted(Contents(), events, enabled);
      var totals, days := Aggregated(events);
      UpdateIsTotalsAdded(tokens, events, totals);
      tokens := Updated(tokens, totals);
      tokens := WithRevoked(tokens, enabled, false);
      InsertIsDailyAfter(daily, events, days, ActiveTokens(tokens));
      daily := Inserted(daily, days, ActiveTokens(tokens));
    }
  }
}
