/**
  The request counters behind the per-minute and per-day limits: one script, run atomically,
  increments an expiring counter for the token's minute and then one for its Shanghai day.

  A request computes its keys and lifetimes when it arrives; the script runs a little later. Times
  are in milliseconds.
 */
module QuotaCounters {
  type TokenId = nat
  type Instant = nat

  const MINUTE := 60_000
  const DAY := 86_400_000
  const SHANGHAI := 28_800_000
  const MINUTE_TTL := 120_000
  const GRACE := 300_000

  datatype Limits = Limits(perMinute: int, perDay: int)

  datatype Key = MinuteKey(token: TokenId, minute: nat) | DayKey(token: TokenId, day: nat)

  datatype Counter = Counter(count: nat, expiresAt: Instant)

  type Counters = map<Key, Counter>

  /** `at` is when the request read the clock for its keys, `sent` when it computed the day key's lifetime. */
  datatype Request = Request(token: TokenId, at: Instant, sent: Instant, exec: Instant)

  /** Counts are -1 for a limit that is off or was not reached. */
  datatype Verdict = Verdict(minuteCount: int, dailyCount: int, rejectedBy: nat)

  function MinuteOf(r: Request): Key {
    MinuteKey(r.token, r.at / MINUTE)
  }

  function DayOf(r: Request): Key {
    DayKey(r.token, (r.at + SHANGHAI) / DAY)
  }

  function NextMidnight(at: Instant): int {
    ((at + SHANGHAI) / DAY + 1) * DAY - SHANGHAI
  }

  /** At least a second. */
  function Lifetime(ms: int): nat {
    if ms < 1000 then 1000 else ms
  }

  function DayLifetime(r: Request): nat {
    Lifetime(NextMidnight(r.at) + GRACE - r.sent)
  }

  /** Minutes are those of the clock, and days begin at 16:00 UTC, which is midnight in Shanghai. */
  lemma WindowsFollowTheClock(r: Request, next: Request)
    requires next == r.(at := r.at + 1)
    ensures MinuteOf(next) == MinuteKey(r.token, MinuteOf(r).minute + if next.at % 60_000 == 0 then 1 else 0)
    ensures DayOf(next) == DayKey(r.token, DayOf(r).day + if next.at % 86_400_000 == 57_600_000 then 1 else 0)
    ensures NextMidnight(r.at) % 86_400_000 == 57_600_000 && r.at < NextMidnight(r.at) <= r.at + 86_400_000
    ensures r.at == 0 ==> MinuteOf(r).minute == 0 && DayOf(r).day == 0
  {
  }

  // ---------- the script ----------

  predicate Lives(c: Counters, k: Key, now: Instant) {
    k in c && now < c[k].expiresAt
  }

  /** INCR, and PEXPIRE when the counter is new. */
  function Incremented(c: Counters, k: Key, ttl: nat, now: Instant): Counters {
    c[k := if Lives(c, k, now) then c[k].(count := c[k].count + 1) else Counter(1, now + ttl)]
  }

  function AfterMinute(c: Counters, r: Request, limits: Limits): Counters {
    if limits.perMinute > 0 then Incremented(c, MinuteOf(r), MINUTE_TTL, r.exec) else c
  }

  predicate MinuteRejects(c: Counters, r: Request, limits: Limits) {
    limits.perMinute > 0 && AfterMinute(c, r, limits)[MinuteOf(r)].count > limits.perMinute
  }

  function AfterScript(c: Counters, r: Request, limits: Limits): Counters {
    var c' := AfterMinute(c, r, limits);
    if MinuteRejects(c, r, limits) || limits.perDay <= 0 then c' else Incremented(c', DayOf(r), DayLifetime(r), r.exec)
  }

  function RejectedBy(c: Counters, r: Request, limits: Limits): nat {
    if MinuteRejects(c, r, limits) then 1
    else if limits.perDay > 0 && AfterScript(c, r, limits)[DayOf(r)].count > limits.perDay then 2
    else 0
  }

  /** The counter is one more if it was there and had not expired, and otherwise one that begins now. */
  predicate CountedUp(before: Counters, after: Counters, k: Key, now: Instant, expiry: int) {
    && k in after
    && if k in before && now < before[k].expiresAt
       then after[k].count == before[k].count + 1 && after[k].expiresAt == before[k].expiresAt
       else after[k].count == 1 && after[k].expiresAt == expiry
  }

  predicate SameCounter(before: Counters, after: Counters, k: Key) {
    (k in after <==> k in before) && (k in before ==> after[k] == before[k])
  }

  /**
    What one call of the script does, spelled out: the minute is counted if it is limited, for two
    minutes; then, unless it refuses, the day, until five minutes after midnight but for a second at least.
   */
  ghost predicate ScriptRan(before: Counters, after: Counters, v: Verdict, r: Request, limits: Limits) {
    var minute, day := MinuteKey(r.token, r.at / 60_000), DayKey(r.token, (r.at + 28_800_000) / 86_400_000);
    var dayLeft := ((r.at + 28_800_000) / 86_400_000 + 1) * 86_400_000 - 28_800_000 + 300_000 - r.sent;
    && (if limits.perMinute > 0
        then CountedUp(before, after, minute, r.exec, r.exec + 120_000) && v.minuteCount == after[minute].count
        else SameCounter(before, after, minute) && v.minuteCount == -1)
    && (v.rejectedBy == 1 <==> limits.perMinute > 0 && v.minuteCount > limits.perMinute)
    && (if limits.perDay > 0 && v.rejectedBy != 1
        then CountedUp(before, after, day, r.exec, r.exec + (if dayLeft < 1000 then 1000 else dayLeft)) && v.dailyCount == after[day].count
        else SameCounter(before, after, day) && v.dailyCount == -1)
    && (v.rejectedBy == 2 <==> limits.perDay > 0 && v.rejectedBy != 1 && v.dailyCount > limits.perDay)
    && v.rejectedBy <= 2
    && forall k :: k != minute && k != day ==> SameCounter(before, after, k)
  }

  class Redis {
    var data: Counters

    constructor ()
      ensures data == map[]
    {
      data := map[];
    }

    method Incr(k: Key, ttl: nat, now: Instant) returns (count: nat)
      modifies this
      ensures data == Incremented(old(data), k, ttl, now) && count == data[k].count
    {
      if k in data && data[k].expiresAt <= now { data := data - {k}; }
      if k in data {
        data := data[k := data[k].(count := data[k].count + 1)];
      } else {
        data := data[k := Counter(1, now + ttl)];
      }
      count := data[k].count;
    }

    /** The script, with the clamping of the lifetimes that the caller does. */
    method IncrementQuotaCounters(r: Request, limits: Limits) returns (v: Verdict)
      modifies this
      ensures data == AfterScript(old(data), r, limits)
      ensures v.rejectedBy == RejectedBy(old(data), r, limits)
      ensures v.minuteCount == if limits.perMinute > 0 then AfterMinute(old(data), r, limits)[MinuteOf(r)].count else -1
      ensures v.dailyCount == if limits.perDay > 0 && v.rejectedBy != 1 then data[DayOf(r)].count else -1
      ensures ScriptRan(old(data), data, v, r, limits)
    {
      var minuteCount: int, dailyCount: int := -1, -1;
      if limits.perMinute > 0 {
        minuteCount := Incr(MinuteOf(r), Lifetime(MINUTE_TTL), r.exec);
        if minuteCount > limits.perMinute { return Verdict(minuteCount, dailyCount, 1); }
      }
      if limits.perDay > 0 {
        dailyCount := Incr(DayOf(r), DayLifetime(r), r.exec);
        if dailyCount > limits.perDay { return Verdict(minuteCount, dailyCount, 2); }
      }
      v := Verdict(minuteCount, dailyCount, 0);
    }
  }

  // ---------- traces ----------

  predicate Ordered(r: Request) {
    r.at <= r.sent <= r.exec
  }

  /** When the counter of a window can be gone at the earliest: it is created after its window has begun. */
  function Deadline(k: Key): int {
    match k
    case MinuteKey(_, minute) => (minute + 2) * MINUTE
    case DayKey(_, day) => (day + 1) * DAY - SHANGHAI + GRACE
  }

  /** The script ran before the counters that it uses can be gone. */
  predicate InTime(r: Request, limits: Limits) {
    && Ordered(r)
    && (limits.perMinute > 0 ==> r.exec < Deadline(MinuteOf(r)))
    && (limits.perDay > 0 ==> r.exec < Deadline(DayOf(r)))
  }

  /** A trace lists requests in the order in which their scripts ran. */
  predicate TraceInTime(trace: seq<Request>, limits: TokenId -> Limits) {
    forall i :: 0 <= i < |trace| ==> InTime(trace[i], limits(trace[i].token))
  }

  /** The counters after the first n requests; a token's limits do not change. */
  function Run(trace: seq<Request>, limits: TokenId -> Limits, n: nat): Counters
    requires n <= |trace|
  {
    if n == 0 then map[] else AfterScript(Run(trace, limits, n - 1), trace[n - 1], limits(trace[n - 1].token))
  }

  function VerdictOf(trace: seq<Request>, limits: TokenId -> Limits, i: nat): nat
    requires i < |trace|
  {
    RejectedBy(Run(trace, limits, i), trace[i], limits(trace[i].token))
  }

  // ---------- what the limits mean ----------

  /** How many of the first n requests belong to the minute. */
  function InMinute(trace: seq<Request>, n: nat, k: Key): nat
    requires n <= |trace|
  {
    if n == 0 then 0 else InMinute(trace, n - 1, k) + if MinuteOf(trace[n - 1]) == k then 1 else 0
  }

  /** The request is among the first perMinute of its minute. */
  predicate WithinMinute(trace: seq<Request>, limits: TokenId -> Limits, i: nat)
    requires i < |trace|
  {
    var most := limits(trace[i].token).perMinute;
    most <= 0 || InMinute(trace, i, MinuteOf(trace[i])) < most
  }

  /** How many of the first n requests belong to the day and are not refused by their minute. */
  function InDay(trace: seq<Request>, limits: TokenId -> Limits, n: nat, k: Key): nat
    requires n <= |trace|
  {
    if n == 0 then 0
    else InDay(trace, limits, n - 1, k) + if DayOf(trace[n - 1]) == k && WithinMinute(trace, limits, n - 1) then 1 else 0
  }

  predicate WithinDay(trace: seq<Request>, limits: TokenId -> Limits, i: nat)
    requires i < |trace|
  {
    var most := limits(trace[i].token).perDay;
    most <= 0 || InDay(trace, limits, i, DayOf(trace[i])) < most
  }

  /** The counter exists once something was counted, has the right count, and outlives its window. */
  predicate Counts(c: Counters, k: Key, n: nat, until: int) {
    if n == 0 then k !in c else k in c && c[k].count == n && c[k].expiresAt >= until
  }

  ghost predicate Tracks(c: Counters, trace: seq<Request>, limits: TokenId -> Limits, n: nat)
    requires n <= |trace|
  {
    && (forall k: Key :: k.MinuteKey? && limits(k.token).perMinute > 0 ==>
          Counts(c, k, InMinute(trace, n, k), Deadline(k)))
    && (forall k: Key :: k.DayKey? && limits(k.token).perDay > 0 ==>
          Counts(c, k, InDay(trace, limits, n, k), Deadline(k)))
  }

  /** The counters that a script creates outlive their windows' deadlines. */
  lemma CreatedCounterLasts(r: Request)
    requires Ordered(r)
    ensures Deadline(MinuteOf(r)) <= r.exec + MINUTE_TTL
    ensures Deadline(DayOf(r)) <= r.exec + DayLifetime(r)
  {
  }

  lemma MinuteTracks(c: Counters, trace: seq<Request>, limits: TokenId -> Limits, n: nat)
    requires n < |trace| && InTime(trace[n], limits(trace[n].token)) && Tracks(c, trace, limits, n)
    ensures var r, after := trace[n], AfterMinute(c, trace[n], limits(trace[n].token));
            && (forall k: Key :: k.MinuteKey? && limits(k.token).perMinute > 0 ==>
                  Counts(after, k, InMinute(trace, n + 1, k), Deadline(k)))
            && (MinuteRejects(c, r, limits(r.token)) <==> !WithinMinute(trace, limits, n))
  {
    var r := trace[n];
    CreatedCounterLasts(r);
    assert limits(r.token).perMinute > 0 ==>
             Counts(c, MinuteOf(r), InMinute(trace, n, MinuteOf(r)), Deadline(MinuteOf(r)));
  }

  lemma DayTracks(c: Counters, trace: seq<Request>, limits: TokenId -> Limits, n: nat)
    requires n < |trace| && InTime(trace[n], limits(trace[n].token)) && Tracks(c, trace, limits, n)
    ensures var r := trace[n];
            && Tracks(AfterScript(c, r, limits(r.token)), trace, limits, n + 1)
            && RejectedBy(c, r, limits(r.token))
               == if !WithinMinute(trace, limits, n) then 1 else if !WithinDay(trace, limits, n) then 2 else 0
  {
    var r := trace[n];
    MinuteTracks(c, trace, limits, n);
    CreatedCounterLasts(r);
    assert limits(r.token).perDay > 0 ==>
             Counts(c, DayOf(r), InDay(trace, limits, n, DayOf(r)), Deadline(DayOf(r)));
  }

  lemma {:induction false} RunTracks(trace: seq<Request>, limits: TokenId -> Limits, n: nat)
    requires n <= |trace| && TraceInTime(trace, limits)
    ensures Tracks(Run(trace, limits, n), trace, limits, n)
  {
    if n == 0 {
      NothingTracks(trace, limits);
    } else {
      RunTracks(trace, limits, n - 1);
      DayTracks(Run(trace, limits, n - 1), trace, limits, n - 1);
    }
  }

  lemma NothingTracks(trace: seq<Request>, limits: TokenId -> Limits)
    ensures Tracks(map[], trace, limits, 0)
  {
  }

  /**
    For every trace of requests in time: a request is refused by its minute exactly when perMinute
    requests of that minute came before it; otherwise by its day exactly when perDay requests of that
    day, not refused by their minutes, came before it; and passes otherwise. So a request that its
    minute refuses never uses up any of its day.
   */
  lemma VerdictIsExact(trace: seq<Request>, limits: TokenId -> Limits, i: nat)
    requires i < |trace| && TraceInTime(trace, limits)
    ensures VerdictOf(trace, limits, i)
            == if !WithinMinute(trace, limits, i) then 1 else if !WithinDay(trace, limits, i) then 2 else 0
  {
    RunTracks(trace, limits, i);
    DayTracks(Run(trace, limits, i), trace, limits, i);
  }

  /** How many of the first n requests of the window pass. */
  function Passed(trace: seq<Request>, limits: TokenId -> Limits, n: nat, k: Key): nat
    requires n <= |trace|
  {
    if n == 0 then 0
    else Passed(trace, limits, n - 1, k)
         + if (MinuteOf(trace[n - 1]) == k || DayOf(trace[n - 1]) == k) && VerdictOf(trace, limits, n - 1) == 0 then 1 else 0
  }

  /** No window of a token lets more requests pass than its limit. */
  lemma {:induction false} PassesWithinLimits(trace: seq<Request>, limits: TokenId -> Limits, n: nat, k: Key)
    requires n <= |trace| && TraceInTime(trace, limits)
    ensures k.MinuteKey? && limits(k.token).perMinute > 0 ==>
              Passed(trace, limits, n, k) <= InMinute(trace, n, k) && Passed(trace, limits, n, k) <= limits(k.token).perMinute
    ensures k.DayKey? && limits(k.token).perDay > 0 ==>
              Passed(trace, limits, n, k) <= InDay(trace, limits, n, k) && Passed(trace, limits, n, k) <= limits(k.token).perDay
  {
    if n > 0 {
      PassesWithinLimits(trace, limits, n - 1, k);
      VerdictIsExact(trace, limits, n - 1);
    }
  }

  // ---------- scripts that run too late ----------

  /** One limit alone: the minute's or the day's. */
  function Only(k: Key, most: int): TokenId -> Limits {
    _ => if k.MinuteKey? then Limits(most, 0) else Limits(0, most)
  }

  predicate InWindow(r: Request, k: Key) {
    if k.MinuteKey? then MinuteOf(r) == k else DayOf(r) == k
  }

  /** Requests of the window whose scripts ran before that of r. */
  predicate Earlier(before: seq<Request>, r: Request, k: Key) {
    forall i :: 0 <= i < |before| ==> Ordered(before[i]) && InWindow(before[i], k) && before[i].exec <= r.exec
  }

  /** A request whose script runs at once, as early in the window as a counter may be created. */
  function Prompt(r: Request, k: Key): Request {
    var at := if k.MinuteKey? then k.minute * MINUTE else r.at;
    Request(r.token, at, at, at)
  }

  function Repeated(r: Request, n: nat): (trace: seq<Request>)
    ensures |trace| == n && forall i :: 0 <= i < n ==> trace[i] == r
  {
    seq(n, _ => r)
  }

  lemma PromptCounter(r: Request, k: Key, late: Request)
    requires r == Prompt(late, k) && InWindow(late, k) && Ordered(late)
    ensures InWindow(r, k) && Ordered(r) && r.exec <= late.exec && r.exec < Deadline(k)
    ensures Deadline(k) == r.exec + if k.MinuteKey? then MINUTE_TTL else DayLifetime(r)
  {
  }

  /** Prompt requests leave one counter behind, which goes exactly at the deadline. */
  lemma {:induction false} PromptRun(r: Request, late: Request, k: Key, trace: seq<Request>, most: int, n: nat)
    requires r == Prompt(late, k) && InWindow(late, k) && Ordered(late)
    requires n <= |trace| && forall i :: 0 <= i < n ==> trace[i] == r
    ensures Run(trace, Only(k, most), n) == if n == 0 || most <= 0 then map[] else map[k := Counter(n, Deadline(k))]
    decreases n
  {
    if n > 0 {
      PromptRun(r, late, k, trace, most, n - 1);
      PromptCounter(r, k, late);
    }
  }

  /** As many prompt requests as are allowed pass, and then one more does if its script finds the counter gone. */
  lemma {:induction false} PromptsPass(r: Request, late: Request, k: Key, trace: seq<Request>, most: nat, n: nat)
    requires r == Prompt(late, k) && InWindow(late, k) && Ordered(late) && most > 0
    requires trace == Repeated(r, most) + [late] && n <= most
    ensures Passed(trace, Only(k, most), n, k) == n
  {
    if n > 0 {
      PromptsPass(r, late, k, trace, most, n - 1);
      PromptRun(r, late, k, trace, most, n - 1);
      PromptRun(r, late, k, trace, most, n);
      PromptCounter(r, k, late);
    }
  }

  lemma LatePasses(late: Request, k: Key, most: nat) returns (before: seq<Request>)
    requires InWindow(late, k) && Ordered(late) && most > 0 && late.exec >= Deadline(k)
    ensures Earlier(before, late, k)
    ensures Passed(before + [late], Only(k, most), |before| + 1, k) == most + 1
  {
    var r := Prompt(late, k);
    before := Repeated(r, most);
    PromptCounter(r, k, late);
    PromptsPass(r, late, k, before + [late], most, most);
    PromptRun(r, late, k, before + [late], most, most);
  }

  lemma EarlierInTime(before: seq<Request>, r: Request, k: Key, most: int)
    requires Earlier(before, r, k) && InWindow(r, k) && Ordered(r) && r.exec < Deadline(k)
    ensures TraceInTime(before + [r], Only(k, most))
  {
  }

  /**
    The deadline is exact, for the minute and for the day: the window's limit, whatever it is, holds
    after every sequence of the window's requests up to r if and only if r's script runs before the deadline.
   */
  lemma LimitHoldsIffInTime(r: Request, k: Key, most: nat)
    requires Ordered(r) && InWindow(r, k) && most > 0
    ensures r.exec < Deadline(k)
            <==> forall before :: Earlier(before, r, k) ==> Passed(before + [r], Only(k, most), |before| + 1, k) <= most
  {
    if r.exec < Deadline(k) {
      forall before | Earlier(before, r, k)
        ensures Passed(before + [r], Only(k, most), |before| + 1, k) <= most
      {
        EarlierInTime(before, r, k, most);
        PassesWithinLimits(before + [r], Only(k, most), |before| + 1, k);
      }
    } else {
      var before := LatePasses(r, k, most);
    }
  }
}
