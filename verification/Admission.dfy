/**
  The admission of API requests: the checks that a request passes before its handler runs, and how
  its use of the token is counted, at once or after the response.
 */
module Admission {
  import opened Options
  import QuotaCounters
  import UsageAccounting

  type TokenId = UsageAccounting.TokenId
  type Instant = nat   // in seconds

  /** The token as the request was given it, possibly from the cache. */
  datatype Seen = Seen(revoked: bool, expires: Option<Instant>, donation: bool, limits: QuotaCounters.Limits,
                       totalLimit: int, total: nat)

  datatype Verdict =
    | Unauthorized | RewardInactive | LimiterUnavailable | MinuteExceeded | DayExceeded
    | TotalExceeded | StoreUnavailable | Admitted(deferred: bool)

  /** Whether the call of the counter script fails, and that of the database; a failing call has no effect. */
  datatype Faults = Faults(limiter: bool, store: bool)

  /** The remaining quota that the response reports. */
  datatype Quota = Quota(minute: int, day: int, total: int)

  function Max(a: int, b: int): int {
    if a > b then a else b
  }

  // ---------- the sequence of checks ----------

  /** The checks that look at the token only. */
  function Screened(seen: Seen, now: Instant): Option<Verdict> {
    if seen.revoked || (seen.expires.Some? && seen.expires.value < now) then Some(Unauthorized)
    else if seen.donation && (seen.totalLimit <= 0 || seen.limits.perMinute <= 0) then Some(RewardInactive)
    else None
  }

  function Decide(c: QuotaCounters.Counters, u: UsageAccounting.Usage, r: QuotaCounters.Request, seen: Seen, now: Instant,
                  faults: Faults): Verdict {
    if Screened(seen, now).Some? then Screened(seen, now).value
    else if LimiterFails(seen, faults) then LimiterUnavailable
    else
      match QuotaCounters.RejectedBy(c, r, seen.limits)
      case 1 => MinuteExceeded
      case 2 => DayExceeded
      case _ =>
        if seen.totalLimit <= 0 then Admitted(true)
        else if faults.store then StoreUnavailable
        else if UsageAccounting.Admissible(u, r.token, now) then Admitted(false)
        else TotalExceeded
  }

  /** Without a limit per minute or per day the script is not called. */
  predicate LimiterFails(seen: Seen, faults: Faults) {
    faults.limiter && (seen.limits.perMinute > 0 || seen.limits.perDay > 0)
  }

  function CountersAfter(c: QuotaCounters.Counters, r: QuotaCounters.Request, seen: Seen, now: Instant, faults: Faults)
    : QuotaCounters.Counters
  {
    if Screened(seen, now).Some? || LimiterFails(seen, faults) then c else QuotaCounters.AfterScript(c, r, seen.limits)
  }

  function UsageAfter(u: UsageAccounting.Usage, t: TokenId, verdict: Verdict, now: Instant): UsageAccounting.Usage {
    if verdict == Admitted(false) then UsageAccounting.Do(u, UsageAccounting.IncrementIfAllowed(t, now)) else u
  }

  /** The token is revoked or has expired. */
  predicate IsBad(seen: Seen, now: Instant) {
    seen.revoked || (seen.expires != None && seen.expires.value < now)
  }

  /** A reward token whose total or whose limit per minute is used up by nobody, because there is none. */
  predicate LacksReward(seen: Seen) {
    seen.donation && !(seen.totalLimit > 0 && seen.limits.perMinute > 0)
  }

  /** The row is not revoked, has not expired, and is below its limit if that is positive. */
  predicate MayBeUsed(tokens: map<TokenId, UsageAccounting.TokenRow>, t: TokenId, now: Instant) {
    && t in tokens && !tokens[t].revoked && (tokens[t].expires == None || now < tokens[t].expires.value)
    && (tokens[t].limit > 0 ==> tokens[t].total < tokens[t].limit)
  }

  function MinuteKey(r: QuotaCounters.Request): QuotaCounters.Key {
    QuotaCounters.MinuteKey(r.token, r.at / 60_000)
  }

  function DayKey(r: QuotaCounters.Request): QuotaCounters.Key {
    QuotaCounters.DayKey(r.token, (r.at + 28_800_000) / 86_400_000)
  }

  /** The request got past the checks that look at the token only, and past the call of the script. */
  predicate WasCounted(verdict: Verdict) {
    !(verdict.Unauthorized? || verdict.RewardInactive? || verdict.LimiterUnavailable?)
  }

  /** Revoked and expired tokens are refused, and then reward tokens that lack their reward, before anything is counted. */
  predicate ScreenedRight(before: QuotaCounters.Counters, after: QuotaCounters.Counters, seen: Seen, now: Instant, faults: Faults,
                          verdict: Verdict)
  {
    && (verdict.Unauthorized? <==> IsBad(seen, now))
    && (verdict.RewardInactive? <==> !IsBad(seen, now) && LacksReward(seen))
    && (verdict.LimiterUnavailable? <==>
          !IsBad(seen, now) && !LacksReward(seen) && faults.limiter && (seen.limits.perMinute > 0 || seen.limits.perDay > 0))
    && (!WasCounted(verdict) ==> after == before)
  }

  /** The count is within the limit. */
  predicate Within(counters: QuotaCounters.Counters, k: QuotaCounters.Key, limit: int) {
    k in counters && counters[k].count <= limit
  }

  /** Refusals by the minute, and then by the day, are for counts past the limit. */
  predicate LimitedRight(counters: QuotaCounters.Counters, r: QuotaCounters.Request, seen: Seen, verdict: Verdict) {
    WasCounted(verdict) ==>
      && (verdict.MinuteExceeded? <==> seen.limits.perMinute > 0 && !Within(counters, MinuteKey(r), seen.limits.perMinute))
      && (verdict.DayExceeded? <==>
            !verdict.MinuteExceeded? && seen.limits.perDay > 0 && !Within(counters, DayKey(r), seen.limits.perDay))
  }

  /** The rest is admitted, and counted at once if the total is limited and the row allows it; nothing else is counted. */
  predicate TotalledRight(before: UsageAccounting.Usage, after: UsageAccounting.Usage, r: QuotaCounters.Request, seen: Seen, now: Instant,
                          faults: Faults, verdict: Verdict)
  {
    var reached := WasCounted(verdict) && !verdict.MinuteExceeded? && !verdict.DayExceeded?;
    && (verdict == Admitted(true) <==> reached && seen.totalLimit <= 0)
    && (verdict.StoreUnavailable? <==> reached && seen.totalLimit > 0 && faults.store)
    && (verdict == Admitted(false) <==> reached && seen.totalLimit > 0 && !faults.store && MayBeUsed(before.tokens, r.token, now))
    && if verdict == Admitted(false)
       then r.token in before.tokens && after.tokens == before.tokens[r.token := before.tokens[r.token].(total := before.tokens[r.token].total + 1, lastUsed := now)]
       else after == before
  }

  /** The remaining quota is what the counters and the total leave. */
  predicate QuotaIsRight(counters: QuotaCounters.Counters, u: UsageAccounting.Usage, r: QuotaCounters.Request, seen: Seen, verdict: Verdict,
                         quota: Quota)
  {
    && (WasCounted(verdict) && seen.limits.perMinute > 0 ==>
          MinuteKey(r) in counters && quota.minute == seen.limits.perMinute - counters[MinuteKey(r)].count)
    && (WasCounted(verdict) && !verdict.MinuteExceeded? && seen.limits.perDay > 0 ==>
          DayKey(r) in counters && quota.day == seen.limits.perDay - counters[DayKey(r)].count)
    && (verdict == Admitted(false) ==>
          r.token in u.tokens && quota.total == Max(0, u.tokens[r.token].limit - u.tokens[r.token].total))
    && (verdict == Admitted(true) ==> quota.total == Max(0, seen.totalLimit - seen.total))
  }

  lemma DecisionIsRight(c: QuotaCounters.Counters, u: UsageAccounting.Usage, r: QuotaCounters.Request, seen: Seen, now: Instant,
                        faults: Faults)
    ensures var verdict, c' := Decide(c, u, r, seen, now, faults), CountersAfter(c, r, seen, now, faults);
            && ScreenedRight(c, c', seen, now, faults, verdict) && LimitedRight(c', r, seen, verdict)
            && TotalledRight(u, UsageAfter(u, r.token, verdict, now), r, seen, now, faults, verdict)
  {
  }

  /** The middleware, over the counters and the store that it uses. */
  method Authorize(redis: QuotaCounters.Redis, store: UsageAccounting.UsageStore, r: QuotaCounters.Request, seen: Seen, now: Instant,
                   faults: Faults)
    returns (verdict: Verdict, quota: Quota)
    modifies redis, store
    ensures verdict == Decide(old(redis.data), old(store.Contents()), r, seen, now, faults)
    ensures redis.data == CountersAfter(old(redis.data), r, seen, now, faults)
    ensures store.Contents() == UsageAfter(old(store.Contents()), r.token, verdict, now)
    ensures verdict.Admitted? ==>
              && (seen.limits.perMinute > 0 ==> 0 <= quota.minute)
              && (seen.limits.perDay > 0 ==> 0 <= quota.day)
              && 0 <= quota.total
    ensures verdict.TotalExceeded? ==> quota.total == 0
    ensures ScreenedRight(old(redis.data), redis.data, seen, now, faults, verdict)
    ensures LimitedRight(redis.data, r, seen, verdict)
    ensures TotalledRight(old(store.Contents()), store.Contents(), r, seen, now, faults, verdict)
    ensures QuotaIsRight(redis.data, store.Contents(), r, seen, verdict, quota)
  {
    DecisionIsRight(redis.data, store.Contents(), r, seen, now, faults);
    quota := Quota(seen.limits.perMinute, seen.limits.perDay, Max(0, seen.totalLimit - seen.total));
    if seen.revoked { return Unauthorized, quota; }
    if seen.expires.Some? && seen.expires.value < now { return Unauthorized, quota; }
    if seen.donation && (seen.totalLimit <= 0 || seen.limits.perMinute <= 0) { return RewardInactive, quota; }
    if LimiterFails(seen, faults) { return LimiterUnavailable, quota; }
    var counters := redis.IncrementQuotaCounters(r, seen.limits);
    if counters.minuteCount >= 0 { quota := quota.(minute := seen.limits.perMinute - counters.minuteCount); }
    if counters.dailyCount >= 0 { quota := quota.(day := seen.limits.perDay - counters.dailyCount); }
    if counters.rejectedBy == 1 { return MinuteExceeded, quota; }
    if counters.rejectedBy == 2 { return DayExceeded, quota; }
    if seen.totalLimit > 0 {
      if faults.store { return StoreUnavailable, quota; }
      var used := store.IncrementTokenUsageIfAllowed(r.token, now);
      if used == None { return TotalExceeded, quota.(total := 0); }
      quota := quota.(total := Max(0, used.value.1 - used.value.0));
      verdict := Admitted(false);
    } else {
      quota := quota.(total := Max(0, seen.totalLimit - seen.total));
      verdict := Admitted(true);
    }
  }

  /** What a refusal costs: one that the minute caused leaves the day and the totals alone; none changes the totals. */
  lemma RefusalsAreCheap(c: QuotaCounters.Counters, u: UsageAccounting.Usage, r: QuotaCounters.Request, seen: Seen, now: Instant,
                         faults: Faults)
    ensures var verdict, after := Decide(c, u, r, seen, now, faults), CountersAfter(c, r, seen, now, faults);
            && (!verdict.Admitted? ==> UsageAfter(u, r.token, verdict, now) == u)
            && (verdict.Unauthorized? || verdict.RewardInactive? || verdict.LimiterUnavailable? ==> after == c)
            && (verdict.MinuteExceeded? ==>
                  forall k: QuotaCounters.Key :: k.DayKey? ==> (k in after <==> k in c) && (k in c ==> after[k] == c[k]))
  {
  }

  // ---------- every admitted request is counted once ----------

  /**
    `inFlight` are the admitted requests whose handlers have not finished, `unstored` the events that
    the recorder holds, `admitted` the tokens of all admitted requests, and `lost` those of the
    requests whose use was given up.
   */
  datatype State = State(counters: QuotaCounters.Counters, usage: UsageAccounting.Usage, inFlight: seq<Flight>,
                         unstored: seq<UsageAccounting.Event>, admitted: seq<TokenId>, lost: seq<TokenId>)

  datatype Flight = Flight(token: TokenId, deferred: bool)

  datatype Action =
    | Arrive(request: QuotaCounters.Request, seen: Seen, now: Instant, faults: Faults)
    | Finish(which: nat, now: Instant, full: bool, failing: bool)   // the queue is full; the fallback fails
    | StoreBatch(size: nat)
    | GiveUp                                                        // the recorder closes and cannot store
    | CreateToken(token: TokenId, limit: int)
    | SetLimit(token: TokenId, limit: int)
    | SetRevoked(token: TokenId, revoked: bool)

  function Given(u: UsageAccounting.Usage, op: UsageAccounting.Op): UsageAccounting.Usage {
    UsageAccounting.Do(u, op)
  }

  /** The counted events of inactive tokens, which the batch's statements pass over. */
  function Skipped(u: UsageAccounting.Usage, events: seq<UsageAccounting.Event>): seq<TokenId> {
    if events == [] then []
    else
      var last := events[|events| - 1];
      Skipped(u, events[..|events| - 1])
      + if last.countsUsage && !UsageAccounting.Active(u.tokens, last.token) then [last.token] else []
  }

  function Uncounted(events: seq<UsageAccounting.Event>): seq<TokenId> {
    if events == [] then []
    else Uncounted(events[..|events| - 1]) + if events[|events| - 1].countsUsage then [events[|events| - 1].token] else []
  }

  function Ended(s: State, which: nat, now: Instant, full: bool, failing: bool): State
    requires which < |s.inFlight|
  {
    var f := s.inFlight[which];
    var s' := s.(inFlight := s.inFlight[..which] + s.inFlight[which + 1..]);
    if !full then s'.(unstored := s.unstored + [UsageAccounting.Event(f.token, now, f.deferred)])
    else if !f.deferred then s'
    else if failing || !UsageAccounting.Active(s.usage.tokens, f.token) then s'.(lost := s.lost + [f.token])
    else s'.(usage := Given(s.usage, UsageAccounting.RecordOne(f.token, now)))
  }

  function BatchStored(s: State, batch: seq<UsageAccounting.Event>, rest: seq<UsageAccounting.Event>): State {
    s.(usage := Given(s.usage, UsageAccounting.RecordBatch(batch, {})), unstored := rest, lost := s.lost + Skipped(s.usage, batch))
  }

  function Step(s: State, action: Action): Option<State> {
    match action
    case Arrive(r, seen, now, faults) =>
      var verdict := Decide(s.counters, s.usage, r, seen, now, faults);
      var s' := s.(counters := CountersAfter(s.counters, r, seen, now, faults), usage := UsageAfter(s.usage, r.token, verdict, now));
      Some(if verdict.Admitted?
           then s'.(inFlight := s.inFlight + [Flight(r.token, verdict.deferred)], admitted := s.admitted + [r.token])
           else s')
    case Finish(which, now, full, failing) =>
      if which < |s.inFlight| then Some(Ended(s, which, now, full, failing)) else None
    case StoreBatch(size) =>
      if size > |s.unstored| then None
      else
        var (batch, rest) := (s.unstored[..size], s.unstored[size..]);
        Some(BatchStored(s, batch, rest))
    case GiveUp => Some(s.(unstored := [], lost := s.lost + Uncounted(s.unstored)))
    case CreateToken(t, limit) => Some(s.(usage := Given(s.usage, UsageAccounting.CreateToken(t, limit))))
    case SetLimit(t, limit) => Some(s.(usage := Given(s.usage, UsageAccounting.SetLimit(t, limit))))
    case SetRevoked(t, revoked) => Some(s.(usage := Given(s.usage, UsageAccounting.SetRevoked(t, revoked))))
  }

  const INITIAL := State(map[], UsageAccounting.NO_USAGE, [], [], [], [])

  ghost predicate Run(states: seq<State>) {
    && states != [] && states[0] == INITIAL
    && forall i :: 0 <= i < |states| - 1 ==> exists action :: Step(states[i], action) == Some(states[i + 1])
  }

  function Times(ts: seq<TokenId>, t: TokenId): nat {
    multiset(ts)[t]
  }

  lemma TimesAdd(a: seq<TokenId>, b: seq<TokenId>, t: TokenId)
    ensures Times(a + b, t) == Times(a, t) + Times(b, t)
  {
  }

  function Owed(flights: seq<Flight>, n: nat, t: TokenId): nat
    requires n <= |flights|
  {
    if n == 0 then 0 else Owed(flights, n - 1, t) + if flights[n - 1] == Flight(t, true) then 1 else 0
  }

  /** Admitted requests are those counted, those to be counted by the recorder, and those given up. */
  predicate Conserved(s: State, t: TokenId) {
    UsageAccounting.TotalOf(s.usage, t) + Owed(s.inFlight, |s.inFlight|, t)
    + UsageAccounting.TotalUpTo(s.unstored, |s.unstored|, t) + Times(s.lost, t)
    == Times(s.admitted, t)
  }

  lemma {:induction false} OwedWithout(flights: seq<Flight>, n: nat, which: nat, t: TokenId)
    requires which < n <= |flights|
    ensures var rest := flights[..which] + flights[which + 1..];
            Owed(flights, n, t) == Owed(rest, n - 1, t) + if flights[which] == Flight(t, true) then 1 else 0
  {
    var rest := flights[..which] + flights[which + 1..];
    if n - 1 == which {
      OwedPrefix(flights, rest, which, t);
    } else {
      OwedWithout(flights, n - 1, which, t);
      assert rest[n - 2] == flights[n - 1];
    }
  }

  lemma {:induction false} OwedPrefix(a: seq<Flight>, b: seq<Flight>, n: nat, t: TokenId)
    requires n <= |a| && n <= |b| && forall i :: 0 <= i < n ==> a[i] == b[i]
    ensures Owed(a, n, t) == Owed(b, n, t)
  {
    if n > 0 { OwedPrefix(a, b, n - 1, t); }
  }

  lemma {:induction false} TotalPrefix(a: seq<UsageAccounting.Event>, b: seq<UsageAccounting.Event>, n: nat, t: TokenId)
    requires n <= |a| && n <= |b| && forall i :: 0 <= i < n ==> a[i] == b[i]
    ensures UsageAccounting.TotalUpTo(a, n, t) == UsageAccounting.TotalUpTo(b, n, t)
  {
    if n > 0 { TotalPrefix(a, b, n - 1, t); }
  }

  lemma {:induction false} TotalSplits(events: seq<UsageAccounting.Event>, size: nat, n: nat, t: TokenId)
    requires size <= n <= |events|
    ensures UsageAccounting.TotalUpTo(events, n, t)
            == UsageAccounting.TotalUpTo(events[..size], size, t) + UsageAccounting.TotalUpTo(events[size..], n - size, t)
  {
    if n == size {
      TotalPrefix(events, events[..size], size, t);
    } else {
      TotalSplits(events, size, n - 1, t);
    }
  }

  lemma {:induction false} SkippedTimes(u: UsageAccounting.Usage, events: seq<UsageAccounting.Event>, t: TokenId)
    ensures Times(Skipped(u, events), t)
            == if UsageAccounting.Active(u.tokens, t) then 0 else UsageAccounting.TotalUpTo(events, |events|, t)
    ensures Times(Uncounted(events), t) == UsageAccounting.TotalUpTo(events, |events|, t)
  {
    if events != [] {
      var prefix := events[..|events| - 1];
      SkippedTimes(u, prefix, t);
      TotalPrefix(prefix, events, |prefix|, t);
    }
  }

  lemma FinishConserves(s: State, which: nat, now: Instant, full: bool, failing: bool, t: TokenId)
    requires which < |s.inFlight| && Conserved(s, t)
    ensures Conserved(Ended(s, which, now, full, failing), t)
  {
    var f := s.inFlight[which];
    OwedWithout(s.inFlight, |s.inFlight|, which, t);
    if full {
      if f.deferred { TimesAdd(s.lost, [f.token], t); }
    } else {
      OneEventMore(s.unstored, UsageAccounting.Event(f.token, now, f.deferred), t);
    }
  }

  lemma OneEventMore(events: seq<UsageAccounting.Event>, e: UsageAccounting.Event, t: TokenId)
    ensures UsageAccounting.TotalUpTo(events + [e], |events| + 1, t)
            == UsageAccounting.TotalUpTo(events, |events|, t) + if e.countsUsage && e.token == t then 1 else 0
  {
    TotalPrefix(events + [e], events, |events|, t);
  }

  lemma BatchTotals(u: UsageAccounting.Usage, batch: seq<UsageAccounting.Event>, t: TokenId)
    ensures UsageAccounting.TotalOf(Given(u, UsageAccounting.RecordBatch(batch, {})), t)
            == UsageAccounting.TotalOf(u, t) + if UsageAccounting.Active(u.tokens, t) then UsageAccounting.TotalUpTo(batch, |batch|, t) else 0
  {
  }

  lemma BatchConserves(s: State, batch: seq<UsageAccounting.Event>, rest: seq<UsageAccounting.Event>, t: TokenId)
    requires Conserved(s, t)
    requires UsageAccounting.TotalUpTo(s.unstored, |s.unstored|, t)
             == UsageAccounting.TotalUpTo(batch, |batch|, t) + UsageAccounting.TotalUpTo(rest, |rest|, t)
    ensures Conserved(BatchStored(s, batch, rest), t)
  {
    var skipped := Skipped(s.usage, batch);
    SkippedTimes(s.usage, batch, t);
    BatchTotals(s.usage, batch, t);
    TimesAdd(s.lost, skipped, t);
  }

  lemma ArrivalConserves(s: State, r: QuotaCounters.Request, seen: Seen, now: Instant, faults: Faults, t: TokenId)
    requires Conserved(s, t)
    ensures Conserved(Step(s, Arrive(r, seen, now, faults)).value, t)
  {
    var verdict := Decide(s.counters, s.usage, r, seen, now, faults);
    AdmissionCounts(s.usage, r, seen, now, faults, s.counters, t);
    if verdict.Admitted? {
      OwedPrefix(s.inFlight + [Flight(r.token, verdict.deferred)], s.inFlight, |s.inFlight|, t);
      TimesAdd(s.admitted, [r.token], t);
    }
  }

  /** The total grows by one exactly at an admission that is counted at once. */
  lemma AdmissionCounts(u: UsageAccounting.Usage, r: QuotaCounters.Request, seen: Seen, now: Instant, faults: Faults,
                        c: QuotaCounters.Counters, t: TokenId)
    ensures var verdict := Decide(c, u, r, seen, now, faults);
            UsageAccounting.TotalOf(UsageAfter(u, r.token, verdict, now), t)
            == UsageAccounting.TotalOf(u, t) + if verdict == Admitted(false) && r.token == t then 1 else 0
  {
  }

  lemma GivingUpConserves(s: State, t: TokenId)
    requires Conserved(s, t)
    ensures Conserved(s.(unstored := [], lost := s.lost + Uncounted(s.unstored)), t)
  {
    SkippedTimes(s.usage, s.unstored, t);
    TimesAdd(s.lost, Uncounted(s.unstored), t);
  }

  lemma SameTotal(s: State, op: UsageAccounting.Op, t: TokenId)
    requires op.CreateToken? || op.SetLimit? || op.SetRevoked?
    requires Conserved(s, t)
    ensures Conserved(s.(usage := Given(s.usage, op)), t)
  {
  }

  lemma StepConserves(s: State, action: Action, t: TokenId)
    requires Conserved(s, t) && Step(s, action).Some?
    ensures Conserved(Step(s, action).value, t)
  {
    match action
    case Arrive(r, seen, now, faults) => ArrivalConserves(s, r, seen, now, faults, t);
    case Finish(which, now, full, failing) => FinishConserves(s, which, now, full, failing, t);
    case StoreBatch(size) =>
      TotalSplits(s.unstored, size, |s.unstored|, t);
      BatchConserves(s, s.unstored[..size], s.unstored[size..], t);
    case GiveUp => GivingUpConserves(s, t);
    case CreateToken(u, limit) => SameTotal(s, UsageAccounting.CreateToken(u, limit), t);
    case SetLimit(u, limit) => SameTotal(s, UsageAccounting.SetLimit(u, limit), t);
    case SetRevoked(u, revoked) => SameTotal(s, UsageAccounting.SetRevoked(u, revoked), t);
  }

  /**
    In every run, whatever tokens the cache presents: the requests admitted for a token are exactly
    those in its total, those that its handlers or the recorder will still report, and those given up.
   */
  lemma {:induction false} EveryAdmissionIsCountedOnce(states: seq<State>, i: nat, t: TokenId)
    requires Run(states) && i < |states|
    ensures Conserved(states[i], t)
  {
    if i > 0 {
      EveryAdmissionIsCountedOnce(states, i - 1, t);
      var action :| Step(states[i - 1], action) == Some(states[i - 1 + 1]);
      StepConserves(states[i - 1], action, t);
    }
  }

  /** The k-th admission was of this request: its token was good, and the counters and the total let it pass. */
  ghost predicate AdmittedBy(s: State, s': State, k: nat, r: QuotaCounters.Request, seen: Seen, now: Instant, faults: Faults) {
    && Step(s, Arrive(r, seen, now, faults)) == Some(s') && |s.admitted| == k && s'.admitted == s.admitted + [r.token]
    && !IsBad(seen, now) && !LacksReward(seen)
    && (seen.limits.perMinute > 0 ==> Within(s'.counters, MinuteKey(r), seen.limits.perMinute))
    && (seen.limits.perDay > 0 ==> Within(s'.counters, DayKey(r), seen.limits.perDay))
    && (seen.totalLimit > 0 ==> MayBeUsed(s.usage.tokens, r.token, now))
  }

  lemma ArrivalIsGood(s: State, r: QuotaCounters.Request, seen: Seen, now: Instant, faults: Faults)
    ensures var s' := Step(s, Arrive(r, seen, now, faults)).value;
            s'.admitted == s.admitted || AdmittedBy(s, s', |s.admitted|, r, seen, now, faults)
  {
    DecisionIsRight(s.counters, s.usage, r, seen, now, faults);
  }

  lemma AdmissionsGrow(s: State, action: Action)
    requires Step(s, action).Some?
    ensures action.Arrive? || Step(s, action).value.admitted == s.admitted
  {
  }

  /**
    In every run, every admission was of a request whose token was neither revoked nor expired, which had
    its reward if it was a reward token, whose counts were within the limits per minute and per day, and,
    if its total is limited, whose row was good and below its limit when it was counted.
   */
  lemma {:induction false} EveryAdmissionWasGood(states: seq<State>, i: nat, k: nat)
    returns (j: nat, r: QuotaCounters.Request, seen: Seen, now: Instant, faults: Faults)
    requires Run(states) && i < |states| && k < |states[i].admitted|
    ensures j < i && AdmittedBy(states[j], states[j + 1], k, r, seen, now, faults)
    ensures states[i].admitted[k] == r.token
  {
    var s := states[i - 1];
    var action :| Step(states[i - 1], action) == Some(states[i - 1 + 1]);
    AdmissionsGrow(s, action);
    if action.Arrive? { ArrivalIsGood(s, action.request, action.seen, action.now, action.faults); }
    if k < |s.admitted| {
      j, r, seen, now, faults := EveryAdmissionWasGood(states, i - 1, k);
    } else {
      j, r, seen, now, faults := i - 1, action.request, action.seen, action.now, action.faults;
    }
  }

  /** So with nothing in flight, nothing unstored and nothing given up, the total is the number of admitted requests. */
  lemma TotalIsAdmittedAtRest(states: seq<State>, i: nat, t: TokenId)
    requires Run(states) && i < |states|
    requires states[i].inFlight == [] && states[i].unstored == [] && t !in states[i].lost
    ensures UsageAccounting.TotalOf(states[i].usage, t) == Times(states[i].admitted, t)
  {
    EveryAdmissionIsCountedOnce(states, i, t);
  }
}
