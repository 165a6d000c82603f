/**
  The cache in front of the token lookup. An entry lives for five seconds at most; an epoch that
  every invalidation advances tells a caller whether what it loaded may be out of date.

  Callers, shared loads and invalidations are a state machine whose steps are the single
  lock-protected or atomic operations. The class at the end holds the cache's own algorithms.
 */
module TokenAuthCache {
  import opened Options

  type Hash = string
  type TokenId = nat
  type Instant = int   // in milliseconds

  const TTL := 5000
  const MAX_ENTRIES := 4096

  /** `read` is the database read that the entry came from. */
  datatype Entry = Entry(token: TokenId, read: nat, storedAt: Instant, expiresAt: Instant, origin: Origin)

  /**
    When an entry came about: the epoch and the time at which its load compared the epochs, the epoch
    at which it was put, and the invalidations of its token that had been purged by then.
   */
  datatype Origin = Origin(checkEpoch: nat, checkedAt: Instant, putEpoch: nat, finished: set<nat>)

  type Cache = map<Hash, Entry>

  function Earlier(a: Instant, b: Option<Instant>): Instant {
    if b.Some? && b.value < a then b.value else a
  }

  // ---------- the cache's own operations ----------

  predicate Live(e: Entry, now: Instant) {
    now < e.expiresAt
  }

  function Unexpired(cache: Cache, now: Instant): Cache {
    map h | h in cache && Live(cache[h], now) :: cache[h]
  }

  predicate Earliest(cache: Cache, victim: Hash) {
    victim in cache && forall h :: h in cache ==> cache[victim].expiresAt <= cache[h].expiresAt
  }

  /** A full cache makes room for a new hash: by its expired entries, or else by an entry that expires first. */
  ghost predicate Put(cache: Cache, cache': Cache, h: Hash, e: Entry, now: Instant) {
    if h in cache || |cache| < MAX_ENTRIES then cache' == cache[h := e]
    else if |Unexpired(cache, now)| < MAX_ENTRIES then cache' == Unexpired(cache, now)[h := e]
    else exists victim :: Earliest(Unexpired(cache, now), victim) && cache' == (Unexpired(cache, now) - {victim})[h := e]
  }

  function Purged(cache: Cache, tokens: set<TokenId>): Cache {
    map h | h in cache && cache[h].token !in tokens :: cache[h]
  }

  lemma UnexpiredIsSmaller(cache: Cache, now: Instant)
    ensures |Unexpired(cache, now)| <= |cache|
    ensures (forall h :: h in cache ==> Live(cache[h], now)) ==> Unexpired(cache, now) == cache
  {
    var live := Unexpired(cache, now);
    SubsetIsSmaller(live.Keys, cache.Keys);
    assert |live| == |live.Keys| && |cache| == |cache.Keys|;
  }

  lemma SubsetIsSmaller<T>(a: set<T>, b: set<T>)
    requires a <= b
    ensures |a| <= |b|
  {
    assert b == a + (b - a);
  }

  lemma InsertSize(cache: Cache, h: Hash, e: Entry)
    ensures |cache[h := e]| == if h in cache then |cache| else |cache| + 1
  {
    assert cache[h := e].Keys == cache.Keys + {h};
    assert |cache[h := e]| == |cache[h := e].Keys| && |cache| == |cache.Keys|;
  }

  lemma RemoveSize(cache: Cache, h: Hash)
    requires h in cache
    ensures |cache - {h}| == |cache| - 1
  {
    assert (cache - {h}).Keys == cache.Keys - {h};
    assert |cache - {h}| == |(cache - {h}).Keys| && |cache| == |cache.Keys|;
  }

  /**
    What a put may drop: nothing but expired entries, and one entry that expires no later than any
    other; and when a full cache has no expired entry, exactly one of the latter.
   */
  lemma PutDropsTheEarliest(cache: Cache, cache': Cache, h: Hash, e: Entry, now: Instant)
    requires Put(cache, cache', h, e, now) && |cache| <= MAX_ENTRIES
    ensures |cache'| <= MAX_ENTRIES && h in cache' && cache'[h] == e
    ensures forall k :: k in cache' && k != h ==> k in cache && cache'[k] == cache[k]
    ensures |cache| == MAX_ENTRIES && h !in cache && (forall k :: k in cache ==> Live(cache[k], now)) ==>
              exists victim :: Earliest(cache, victim) && cache' == (cache - {victim})[h := e]
  {
    UnexpiredIsSmaller(cache, now);
    InsertSize(cache, h, e);
    var live := Unexpired(cache, now);
    InsertSize(live, h, e);
    if h !in cache && |cache| >= MAX_ENTRIES && |live| >= MAX_ENTRIES {
      var victim :| Earliest(live, victim) && cache' == (live - {victim})[h := e];
      RemoveSize(live, victim);
      InsertSize(live - {victim}, h, e);
    }
  }

  // ---------- callers, loads and invalidations ----------

  /** A read of the database, and the epoch when it happened. */
  datatype Read = Read(hash: Hash, token: TokenId, expiry: Option<Instant>, epoch: nat)

  /** An invalidation first advances the epoch, at the given time, and later purges the cache. */
  datatype Invalidation = Invalidation(tokens: set<TokenId>, at: Instant, done: bool)

  /** What has happened so far. The epoch is the number of invalidations that were begun. */
  datatype Past = Past(clock: Instant, rows: seq<Read>, invalidations: seq<Invalidation>) {
    function Epoch(): nat {
      |invalidations|
    }
  }

  /** How a result was come by; a hit records the clock sample it was judged by and when its entry came about. */
  datatype Source = FromDatabase | FromCache(sample: Instant, storedAt: Instant, checkedAt: Instant)

  datatype LoadPhase =
    | Started
    | Hit(read: nat, source: Source)
    | Missed
    | EpochTaken(epoch: nat)
    | Loaded(read: nat, epoch: nat)
    | Storing(read: nat, epoch: nat, at: Instant)     // found the epoch unchanged, is about to cache
    | Result(read: nat, epoch: nat, source: Source)
    | Failed

  /** A load that the callers of one hash share. */
  datatype Load = Load(hash: Hash, phase: LoadPhase)

  datatype CallerPhase =
    | Looking
    | Wanting
    | Joined(load: nat)
    | Returned(read: nat, source: Source, epoch: nat)   // the epoch of its last check
    | Refused

  datatype Caller = Caller(hash: Hash, phase: CallerPhase)

  datatype State = State(past: Past, cache: Cache, group: map<Hash, nat>, loads: seq<Load>, callers: seq<Caller>)

  datatype Action =
    | Pass(to: Instant)
    | Begin(hash: Hash)
    | Lookup(who: nat, sample: Instant)
    | DropExpired(hash: Hash, sample: Instant)
    | Join(who: nat)
    | LoadLookup(load: nat, sample: Instant)
    | LoadEpoch(load: nat)
    | LoadRead(load: nat, token: TokenId, expiry: Option<Instant>)
    | LoadFail(load: nat)
    | LoadCheck(load: nat)
    | LoadPut(load: nat, sample: Instant, cache: Cache)
    | Check(who: nat)
    | Bump(tokens: set<TokenId>)
    | Purge(which: nat)

  function AtCaller(s: State, who: nat, phase: CallerPhase): State
    requires who < |s.callers|
  {
    s.(callers := s.callers[who := s.callers[who].(phase := phase)])
  }

  function AtLoad(s: State, load: nat, phase: LoadPhase): State
    requires load < |s.loads|
  {
    s.(loads := s.loads[load := s.loads[load].(phase := phase)])
  }

  /** A finished load leaves the group unless a newer one took its place. */
  function Finish(s: State, load: nat, phase: LoadPhase): State
    requires load < |s.loads|
  {
    var h := s.loads[load].hash;
    var s' := AtLoad(s, load, phase);
    if h in s.group && s.group[h] == load then s'.(group := s.group - {h}) else s'
  }

  /** A clock sample may be older than the moment at which it is used. */
  predicate IsHit(s: State, h: Hash, sample: Instant) {
    h in s.cache && Live(s.cache[h], sample)
  }

  function HitSource(s: State, h: Hash, sample: Instant): Source
    requires h in s.cache
  {
    FromCache(sample, s.cache[h].storedAt, s.cache[h].origin.checkedAt)
  }

  /** The finished invalidations of the token. */
  function Finished(past: Past, token: TokenId): set<nat> {
    set k: nat | k < |past.invalidations| && past.invalidations[k].done && token in past.invalidations[k].tokens
  }

  function EntryOf(past: Past, read: nat, epoch: nat, at: Instant, sample: Instant): Entry
    requires read < |past.rows|
  {
    var r := past.rows[read];
    Entry(r.token, read, sample, Earlier(sample + TTL, r.expiry), Origin(epoch, at, past.Epoch(), Finished(past, r.token)))
  }

  ghost predicate CallerStep(s: State, s': State, i: nat, action: Action)
    requires i < |s.callers|
  {
    var h := s.callers[i].hash;
    match (action, s.callers[i].phase)
    case (Lookup(_, sample), Looking) =>
      && sample <= s.past.clock
      && s' == AtCaller(s, i, if IsHit(s, h, sample) then Returned(s.cache[h].read, HitSource(s, h, sample), s.past.Epoch())
                              else Wanting)
    case (Join(_), Wanting) =>
      if h in s.group then s' == AtCaller(s, i, Joined(s.group[h]))
      else s' == AtCaller(WithLoad(s, h), i, Joined(|s.loads|))
    case (Check(_), Joined(load)) =>
      && load < |s.loads|
      && (match s.loads[load].phase
          case Result(read, epoch, source) =>
            if epoch == s.past.Epoch() then s' == AtCaller(s, i, Returned(read, source, epoch))
            else s' == AtCaller(s, i, Wanting).(group := s.group - {h})
          case Failed => s' == AtCaller(s, i, Refused)
          case _ => false)
    case _ => false
  }

  function WithLoad(s: State, h: Hash): State {
    s.(loads := s.loads + [Load(h, Started)], group := s.group[h := |s.loads|])
  }

  function WithRow(s: State, r: Read): State {
    s.(past := s.past.(rows := s.past.rows + [r]))
  }

  ghost predicate LoadStep(s: State, s': State, l: nat, action: Action)
    requires l < |s.loads|
  {
    var h, epoch := s.loads[l].hash, s.past.Epoch();
    match (action, s.loads[l].phase)
    case (LoadLookup(_, sample), Started) =>
      && sample <= s.past.clock
      && s' == AtLoad(s, l, if IsHit(s, h, sample) then Hit(s.cache[h].read, HitSource(s, h, sample)) else Missed)
    case (LoadEpoch(_), Hit(read, source)) => s' == Finish(s, l, Result(read, epoch, source))
    case (LoadEpoch(_), Missed) => s' == AtLoad(s, l, EpochTaken(epoch))
    case (LoadRead(_, token, expiry), EpochTaken(taken)) =>
      s' == AtLoad(WithRow(s, Read(h, token, expiry, epoch)), l, Loaded(|s.past.rows|, taken))
    case (LoadFail(_), EpochTaken(_)) => s' == Finish(s, l, Failed)
    case (LoadCheck(_), Loaded(read, taken)) =>
      s' == if taken == epoch then AtLoad(s, l, Storing(read, taken, s.past.clock))
            else Finish(s, l, Result(read, taken, FromDatabase))
    case (LoadPut(_, sample, cache'), Storing(read, taken, at)) =>
      && at <= sample <= s.past.clock && read < |s.past.rows|
      && Put(s.cache, cache', h, EntryOf(s.past, read, taken, at, sample), sample)
      && s' == Finish(s.(cache := cache'), l, Result(read, taken, FromDatabase))
    case _ => false
  }

  function Bumped(s: State, tokens: set<TokenId>): State {
    s.(past := s.past.(invalidations := s.past.invalidations + [Invalidation(tokens, s.past.clock, false)]))
  }

  function Purging(s: State, k: nat): State
    requires k < |s.past.invalidations|
  {
    var inv := s.past.invalidations[k];
    s.(cache := Purged(s.cache, inv.tokens),
       group := s.group - (set h | h in s.cache && s.cache[h].token in inv.tokens),
       past := s.past.(invalidations := s.past.invalidations[k := inv.(done := true)]))
  }

  ghost predicate Step(s: State, s': State, action: Action) {
    match action
    case Pass(to) => s.past.clock <= to && s' == s.(past := s.past.(clock := to))
    case Begin(h) => s' == s.(callers := s.callers + [Caller(h, Looking)])
    case Lookup(i, _) => i < |s.callers| && CallerStep(s, s', i, action)
    case Join(i) => i < |s.callers| && CallerStep(s, s', i, action)
    case Check(i) => i < |s.callers| && CallerStep(s, s', i, action)
    case DropExpired(h, sample) =>
      h in s.cache && !Live(s.cache[h], sample) && sample <= s.past.clock && s' == s.(cache := s.cache - {h})
    case Bump(tokens) => tokens != {} && s' == Bumped(s, tokens)
    case Purge(k) => k < |s.past.invalidations| && !s.past.invalidations[k].done && s' == Purging(s, k)
    case _ => action.load < |s.loads| && LoadStep(s, s', action.load, action)
  }

  ghost predicate Next(s: State, s': State) {
    exists action :: Step(s, s', action)
  }

  const INITIAL := State(Past(0, [], []), map[], map[], [], [])

  ghost predicate Run(states: seq<State>) {
    && states != [] && states[0] == INITIAL
    && forall i :: 0 <= i < |states| - 1 ==> Next(states[i], states[i + 1])
  }

  // ---------- the invariant ----------

  predicate ReadOf(past: Past, read: nat, h: Hash) {
    read < |past.rows| && past.rows[read].hash == h
  }

  /** Whatever was bumped at this epoch or later was bumped at this time or later. */
  predicate Dates(past: Past, epoch: nat, at: Instant) {
    at <= past.clock && forall k :: epoch <= k < |past.invalidations| ==> at <= past.invalidations[k].at
  }

  /** An entry expires within five seconds of being stored, and no later than its token. */
  predicate EntryOk(past: Past, h: Hash, e: Entry) {
    var o := e.origin;
    && ReadOf(past, e.read, h) && e.token == past.rows[e.read].token
    && e.expiresAt == Earlier(e.storedAt + TTL, past.rows[e.read].expiry)
    && o.checkEpoch == past.rows[e.read].epoch <= o.putEpoch <= past.Epoch()
    && o.checkedAt <= e.storedAt && Dates(past, o.checkEpoch, o.checkedAt)
    && forall k :: k in o.finished ==> k < o.putEpoch
  }

  /** The token's finished invalidations were finished when the entry was put: later ones would have removed it. */
  predicate NotPurgedSince(past: Past, e: Entry) {
    e.origin.finished == Finished(past, e.token)
  }

  predicate CacheOk(past: Past, cache: Cache) {
    && |cache| <= MAX_ENTRIES
    && forall h :: h in cache ==> EntryOk(past, h, cache[h]) && NotPurgedSince(past, cache[h])
  }

  /** A hit was judged live; a database read saw the epoch that it is reported with, or a later one. */
  predicate SourceOk(past: Past, read: nat, h: Hash, source: Source, epoch: nat) {
    && ReadOf(past, read, h)
    && match source
       case FromDatabase => epoch <= past.rows[read].epoch
       case FromCache(sample, storedAt, checkedAt) =>
         sample < Earlier(storedAt + TTL, past.rows[read].expiry) && Dates(past, past.rows[read].epoch, checkedAt)
  }

  predicate LoadOk(past: Past, load: Load) {
    match load.phase
    case Hit(read, source) => source.FromCache? && SourceOk(past, read, load.hash, source, 0)
    case EpochTaken(taken) => taken <= past.Epoch()
    case Loaded(read, taken) => SourceOk(past, read, load.hash, FromDatabase, taken)
    case Storing(read, taken, at) => ReadOf(past, read, load.hash) && past.rows[read].epoch == taken && Dates(past, taken, at)
    case Result(read, taken, source) => SourceOk(past, read, load.hash, source, taken)
    case _ => true
  }

  predicate LoadsOk(past: Past, loads: seq<Load>) {
    forall l :: 0 <= l < |loads| ==> LoadOk(past, loads[l])
  }

  predicate JoinedOk(loads: seq<Load>, c: Caller) {
    c.phase.Joined? ==> c.phase.load < |loads| && loads[c.phase.load].hash == c.hash
  }

  predicate ReturnedOk(past: Past, c: Caller) {
    c.phase.Returned? ==>
      && SourceOk(past, c.phase.read, c.hash, c.phase.source, c.phase.epoch)
      && (c.phase.source.FromDatabase? ==> past.rows[c.phase.read].epoch == c.phase.epoch)
  }

  predicate JoinsOk(callers: seq<Caller>, loads: seq<Load>) {
    forall i :: 0 <= i < |callers| ==> JoinedOk(loads, callers[i])
  }

  predicate ReturnsOk(past: Past, callers: seq<Caller>) {
    forall i :: 0 <= i < |callers| ==> ReturnedOk(past, callers[i])
  }

  predicate GroupOk(group: map<Hash, nat>, loads: seq<Load>) {
    forall h :: h in group ==> group[h] < |loads| && loads[group[h]].hash == h
  }

  predicate RowsOk(past: Past) {
    forall r :: 0 <= r < |past.rows| ==> past.rows[r].epoch <= past.Epoch()
  }

  predicate Inv(s: State) {
    && CacheOk(s.past, s.cache) && RowsOk(s.past) && GroupOk(s.group, s.loads)
    && LoadsOk(s.past, s.loads) && JoinsOk(s.callers, s.loads) && ReturnsOk(s.past, s.callers)
  }

  // ---------- time goes on ----------

  /** More rows, more invalidations, some of them finished, and a later clock. */
  predicate Later(p: Past, q: Past) {
    && p.clock <= q.clock
    && |p.rows| <= |q.rows| && q.rows[..|p.rows|] == p.rows
    && |p.invalidations| <= |q.invalidations|
    && (forall k :: 0 <= k < |p.invalidations| ==> q.invalidations[k].at == p.invalidations[k].at)
    && (forall k :: |p.invalidations| <= k < |q.invalidations| ==> p.clock <= q.invalidations[k].at)
  }

  lemma DatesLater(p: Past, q: Past, epoch: nat, at: Instant)
    requires Later(p, q) && Dates(p, epoch, at)
    ensures Dates(q, epoch, at)
  {
  }

  lemma RowLater(p: Past, q: Past, read: nat)
    requires Later(p, q) && read < |p.rows|
    ensures q.rows[read] == p.rows[read]
  {
    assert q.rows[..|p.rows|][read] == p.rows[read];
  }

  lemma EntryLater(p: Past, q: Past, h: Hash, e: Entry)
    requires Later(p, q) && EntryOk(p, h, e)
    ensures EntryOk(q, h, e)
  {
    RowLater(p, q, e.read);
    DatesLater(p, q, e.origin.checkEpoch, e.origin.checkedAt);
  }

  lemma SourceLater(p: Past, q: Past, read: nat, h: Hash, source: Source, epoch: nat)
    requires Later(p, q) && SourceOk(p, read, h, source, epoch)
    ensures SourceOk(q, read, h, source, epoch)
  {
    RowLater(p, q, read);
    if source.FromCache? { DatesLater(p, q, p.rows[read].epoch, source.checkedAt); }
  }

  lemma LoadLater(p: Past, q: Past, load: Load)
    requires Later(p, q) && LoadOk(p, load)
    ensures LoadOk(q, load)
  {
    match load.phase
    case Hit(read, source) => SourceLater(p, q, read, load.hash, source, 0);
    case Loaded(read, taken) => SourceLater(p, q, read, load.hash, FromDatabase, taken);
    case Storing(read, taken, at) =>
      RowLater(p, q, read);
      DatesLater(p, q, taken, at);
    case Result(read, taken, source) => SourceLater(p, q, read, load.hash, source, taken);
    case _ =>
  }

  lemma ReturnLater(p: Past, q: Past, c: Caller)
    requires Later(p, q) && ReturnedOk(p, c)
    ensures ReturnedOk(q, c)
  {
    if c.phase.Returned? {
      RowLater(p, q, c.phase.read);
      SourceLater(p, q, c.phase.read, c.hash, c.phase.source, c.phase.epoch);
    }
  }

  /** Nothing that is known of loads and callers is lost as time goes on. */
  lemma KnownLater(s: State, q: Past)
    requires Inv(s) && Later(s.past, q)
    ensures LoadsOk(q, s.loads) && ReturnsOk(q, s.callers)
    ensures forall h :: h in s.cache ==> EntryOk(q, h, s.cache[h])
  {
    forall l | 0 <= l < |s.loads| ensures LoadOk(q, s.loads[l]) { LoadLater(s.past, q, s.loads[l]); }
    forall i | 0 <= i < |s.callers| ensures ReturnedOk(q, s.callers[i]) { ReturnLater(s.past, q, s.callers[i]); }
    forall h | h in s.cache ensures EntryOk(q, h, s.cache[h]) { EntryLater(s.past, q, h, s.cache[h]); }
  }

  // ---------- every step keeps the invariant ----------

  /** Loads keep their hashes, so nothing that refers to them is disturbed. */
  lemma LoadMoves(s: State, l: nat, phase: LoadPhase)
    requires Inv(s) && l < |s.loads| && LoadOk(s.past, Load(s.loads[l].hash, phase))
    ensures Inv(AtLoad(s, l, phase)) && Inv(Finish(s, l, phase))
  {
    MovedLoads(s, l, phase);
  }

  lemma MovedLoads(s: State, l: nat, phase: LoadPhase)
    requires GroupOk(s.group, s.loads) && LoadsOk(s.past, s.loads) && JoinsOk(s.callers, s.loads)
    requires l < |s.loads| && LoadOk(s.past, Load(s.loads[l].hash, phase))
    ensures var loads := AtLoad(s, l, phase).loads;
            && GroupOk(s.group, loads) && GroupOk(s.group - {s.loads[l].hash}, loads)
            && LoadsOk(s.past, loads) && JoinsOk(s.callers, loads)
  {
    var loads := AtLoad(s, l, phase).loads;
    assert forall k :: 0 <= k < |loads| ==> loads[k].hash == s.loads[k].hash;
  }

  lemma CallerMoves(s: State, i: nat, phase: CallerPhase)
    requires Inv(s) && i < |s.callers|
    requires JoinedOk(s.loads, Caller(s.callers[i].hash, phase)) && ReturnedOk(s.past, Caller(s.callers[i].hash, phase))
    ensures Inv(AtCaller(s, i, phase))
  {
    var callers := AtCaller(s, i, phase).callers;
    assert JoinsOk(callers, s.loads);
    assert ReturnsOk(s.past, callers);
  }

  lemma NewLoad(s: State, h: Hash)
    requires Inv(s)
    ensures Inv(WithLoad(s, h))
  {
    var s' := WithLoad(s, h);
    assert GroupOk(s'.group, s'.loads);
    assert LoadsOk(s.past, s'.loads);
    assert JoinsOk(s.callers, s'.loads);
  }

  lemma NewRow(s: State, r: Read)
    requires Inv(s) && r.epoch <= s.past.Epoch()
    ensures Inv(WithRow(s, r))
  {
    var s' := WithRow(s, r);
    assert Later(s.past, s'.past);
    KnownLater(s, s'.past);
    assert forall h :: h in s.cache ==> NotPurgedSince(s'.past, s.cache[h]);
    assert RowsOk(s'.past);
  }

  lemma PutKeepsCache(past: Past, cache: Cache, h: Hash, e: Entry, sample: Instant, cache': Cache)
    requires CacheOk(past, cache) && EntryOk(past, h, e) && NotPurgedSince(past, e) && Put(cache, cache', h, e, sample)
    ensures CacheOk(past, cache')
  {
    PutDropsTheEarliest(cache, cache', h, e, sample);
  }

  lemma HitIsOk(s: State, h: Hash, sample: Instant)
    requires Inv(s) && IsHit(s, h, sample)
    ensures SourceOk(s.past, s.cache[h].read, h, HitSource(s, h, sample), s.past.Epoch())
  {
    assert EntryOk(s.past, h, s.cache[h]);
  }

  lemma LookupKeepsInv(s: State, s': State, i: nat, action: Action)
    requires Inv(s) && i < |s.callers| && action.Lookup? && CallerStep(s, s', i, action)
    ensures Inv(s')
  {
    var h := s.callers[i].hash;
    if IsHit(s, h, action.sample) {
      HitIsOk(s, h, action.sample);
      CallerMoves(s, i, Returned(s.cache[h].read, HitSource(s, h, action.sample), s.past.Epoch()));
    } else {
      CallerMoves(s, i, Wanting);
    }
  }

  lemma JoinKeepsInv(s: State, s': State, i: nat, action: Action)
    requires Inv(s) && i < |s.callers| && action.Join? && CallerStep(s, s', i, action)
    ensures Inv(s')
  {
    var h := s.callers[i].hash;
    if h in s.group {
      CallerMoves(s, i, Joined(s.group[h]));
    } else {
      NewLoad(s, h);
      CallerMoves(WithLoad(s, h), i, Joined(|s.loads|));
    }
  }

  lemma CheckKeepsInv(s: State, s': State, i: nat, action: Action)
    requires Inv(s) && i < |s.callers| && action.Check? && CallerStep(s, s', i, action)
    ensures Inv(s')
  {
    var load := s.loads[s.callers[i].phase.load];
    assert JoinedOk(s.loads, s.callers[i]) && LoadOk(s.past, load) && RowsOk(s.past);
    if load.phase.Failed? {
      CallerMoves(s, i, Refused);
    } else if load.phase.epoch == s.past.Epoch() {
      CallerMoves(s, i, Returned(load.phase.read, load.phase.source, s.past.Epoch()));
    } else {
      CallerMoves(s, i, Wanting);
    }
  }

  lemma LoadLooksUp(s: State, s': State, l: nat, action: Action)
    requires Inv(s) && l < |s.loads| && action.LoadLookup? && LoadStep(s, s', l, action)
    ensures Inv(s')
  {
    var h := s.loads[l].hash;
    if IsHit(s, h, action.sample) {
      HitIsOk(s, h, action.sample);
      LoadMoves(s, l, Hit(s.cache[h].read, HitSource(s, h, action.sample)));
    } else {
      LoadMoves(s, l, Missed);
    }
  }

  lemma LoadReads(s: State, s': State, l: nat, action: Action)
    requires Inv(s) && l < |s.loads| && action.LoadRead? && LoadStep(s, s', l, action)
    ensures Inv(s')
  {
    var r := Read(s.loads[l].hash, action.token, action.expiry, s.past.Epoch());
    assert LoadOk(s.past, s.loads[l]);
    NewRow(s, r);
    LoadMoves(WithRow(s, r), l, Loaded(|s.past.rows|, s.loads[l].phase.epoch));
  }

  lemma LoadChecks(s: State, s': State, l: nat, action: Action)
    requires Inv(s) && l < |s.loads| && action.LoadCheck? && LoadStep(s, s', l, action)
    ensures Inv(s')
  {
    var p := s.loads[l].phase;
    assert LoadOk(s.past, s.loads[l]) && RowsOk(s.past);
    if p.epoch == s.past.Epoch() {
      LoadMoves(s, l, Storing(p.read, p.epoch, s.past.clock));
    } else {
      LoadMoves(s, l, Result(p.read, p.epoch, FromDatabase));
    }
  }

  lemma LoadPuts(s: State, s': State, l: nat, action: Action)
    requires Inv(s) && l < |s.loads| && action.LoadPut? && LoadStep(s, s', l, action)
    ensures Inv(s')
  {
    var p := s.loads[l].phase;
    assert LoadOk(s.past, s.loads[l]) && RowsOk(s.past);
    PutKeepsCache(s.past, s.cache, s.loads[l].hash, EntryOf(s.past, p.read, p.epoch, p.at, action.sample), action.sample,
                  action.cache);
    LoadMoves(s.(cache := action.cache), l, Result(p.read, p.epoch, FromDatabase));
  }

  lemma LoadKeepsInv(s: State, s': State, l: nat, action: Action)
    requires Inv(s) && l < |s.loads| && LoadStep(s, s', l, action)
    ensures Inv(s')
  {
    match action
    case LoadLookup(_, _) => LoadLooksUp(s, s', l, action);
    case LoadEpoch(_) =>
      assert LoadOk(s.past, s.loads[l]);
      var epoch := s.past.Epoch();
      LoadMoves(s, l, if s.loads[l].phase.Missed? then EpochTaken(epoch)
                      else Result(s.loads[l].phase.read, epoch, s.loads[l].phase.source));
    case LoadRead(_, _, _) => LoadReads(s, s', l, action);
    case LoadFail(_) => LoadMoves(s, l, Failed);
    case LoadCheck(_) => LoadChecks(s, s', l, action);
    case LoadPut(_, _, _) => LoadPuts(s, s', l, action);
  }

  lemma PurgeKeepsInv(s: State, k: nat)
    requires Inv(s) && k < |s.past.invalidations|
    ensures Inv(Purging(s, k))
  {
    var s' := Purging(s, k);
    KnownLater(s, s'.past);
    SubsetIsSmaller(s'.cache.Keys, s.cache.Keys);
    assert |s'.cache| == |s'.cache.Keys| && |s.cache| == |s.cache.Keys|;
    forall h | h in s'.cache
      ensures NotPurgedSince(s'.past, s'.cache[h])
    {
      assert NotPurgedSince(s.past, s.cache[h]);
    }
    assert GroupOk(s'.group, s.loads);
  }

  lemma BumpKeepsInv(s: State, tokens: set<TokenId>)
    requires Inv(s)
    ensures Inv(Bumped(s, tokens))
  {
    var s' := Bumped(s, tokens);
    KnownLater(s, s'.past);
    forall h | h in s.cache
      ensures NotPurgedSince(s'.past, s.cache[h])
    {
      assert NotPurgedSince(s.past, s.cache[h]);
    }
  }

  lemma PassKeepsInv(s: State, to: Instant)
    requires Inv(s) && s.past.clock <= to
    ensures Inv(s.(past := s.past.(clock := to)))
  {
    var past := s.past.(clock := to);
    KnownLater(s, past);
    assert forall h :: h in s.cache ==> NotPurgedSince(past, s.cache[h]);
  }

  lemma StepKeepsInv(s: State, s': State, action: Action)
    requires Inv(s) && Step(s, s', action)
    ensures Inv(s')
  {
    match action
    case Pass(to) => PassKeepsInv(s, to);
    case Begin(_) =>
      assert JoinsOk(s'.callers, s.loads);
      assert ReturnsOk(s.past, s'.callers);
    case Lookup(i, _) => LookupKeepsInv(s, s', i, action);
    case Join(i) => JoinKeepsInv(s, s', i, action);
    case Check(i) => CheckKeepsInv(s, s', i, action);
    case DropExpired(h, _) => RemoveSize(s.cache, h);
    case Bump(tokens) => BumpKeepsInv(s, tokens);
    case Purge(k) => PurgeKeepsInv(s, k);
    case _ => LoadKeepsInv(s, s', action.load, action);
  }

  lemma {:induction false} RunKeepsInv(states: seq<State>, i: nat)
    requires Run(states) && i < |states|
    ensures Inv(states[i])
  {
    if i > 0 {
      RunKeepsInv(states, i - 1);
      assert Next(states[i - 1], states[i - 1 + 1]);
      var action :| Step(states[i - 1], states[i], action);
      StepKeepsInv(states[i - 1], states[i], action);
    }
  }

  // ---------- what callers get ----------

  /**
    In every run, a caller's result is for the hash it asked for, and it either was read from the
    database with no invalidation between that read and the caller's final check, or was a cache
    hit, judged less than five seconds after the entry was stored and before its token expired.
    The cache never holds more than 4096 entries.
   */
  lemma ResultsAreFresh(states: seq<State>, i: nat, who: nat)
    requires Run(states) && i < |states|
    ensures var s := states[i];
            && |s.cache| <= MAX_ENTRIES
            && (who < |s.callers| && s.callers[who].phase.Returned? ==>
                  var p := s.callers[who].phase;
                  && p.read < |s.past.rows| && s.past.rows[p.read].hash == s.callers[who].hash
                  && match p.source
                     case FromDatabase => s.past.rows[p.read].epoch == p.epoch
                     case FromCache(sample, storedAt, _) =>
                       && sample < storedAt + TTL
                       && (s.past.rows[p.read].expiry.Some? ==> sample < s.past.rows[p.read].expiry.value))
  {
    RunKeepsInv(states, i);
    var s := states[i];
    if who < |s.callers| { assert ReturnedOk(s.past, s.callers[who]); }
  }

  /**
    How long an old row is served: when an invalidation was begun after the row was read, no lookup
    returns the row that samples the clock five seconds after that or later, give or take the time
    that the load took from its comparison of the epochs to its put. A row that the caller's load
    read itself is returned only if the invalidation was begun after the caller's final check.
   */
  lemma OldRowsExpire(states: seq<State>, i: nat, who: nat, k: nat)
    requires Run(states) && i < |states|
    ensures var s := states[i];
            who < |s.callers| && s.callers[who].phase.Returned? ==>
              var p := s.callers[who].phase;
              p.read < |s.past.rows| && (s.past.rows[p.read].epoch <= k < |s.past.invalidations| ==>
                match p.source
                case FromDatabase => p.epoch <= k
                case FromCache(sample, storedAt, checkedAt) =>
                  sample < s.past.invalidations[k].at + TTL + (storedAt - checkedAt))
  {
    RunKeepsInv(states, i);
    var s := states[i];
    if who < |s.callers| { assert ReturnedOk(s.past, s.callers[who]); }
  }

  // ---------- stale entries ----------

  /** An invalidation of the token was begun at this epoch or later, and is finished. */
  predicate InvalidatedSince(past: Past, token: TokenId, epoch: nat) {
    exists k: nat :: epoch <= k < |past.invalidations| && k in Finished(past, token)
  }

  /** The entry's row was read before an invalidation of its token was begun that is finished by now. */
  predicate Stale(s: State, h: Hash)
    requires h in s.cache && s.cache[h].read < |s.past.rows|
  {
    InvalidatedSince(s.past, s.cache[h].token, s.past.rows[s.cache[h].read].epoch)
  }

  /** The load compared the epochs from state c to the next one, and put the entry from state p to the next one. */
  ghost predicate CheckedThenPut(states: seq<State>, c: nat, p: nat, l: nat, h: Hash, e: Entry)
    requires c < p < |states| - 1
  {
    && Step(states[c], states[c + 1], LoadCheck(l)) && PutsAt(states[p], states[p + 1], l, h, e)
    && e.origin == Origin(states[c].past.Epoch(), states[c].past.clock, states[p].past.Epoch(), Finished(states[p].past, e.token))
  }

  ghost predicate PutsAt(s: State, s': State, l: nat, h: Hash, e: Entry) {
    && l < |s.loads| && s.loads[l].hash == h
    && exists sample, cache' :: Step(s, s', LoadPut(l, sample, cache')) && h in cache' && cache'[h] == e
  }

  ghost predicate ChecksAt(s: State, s': State, l: nat, epoch: nat, at: Instant) {
    Step(s, s', LoadCheck(l)) && s.past.Epoch() == epoch && s.past.clock == at
  }

  predicate SameLoad(s: State, s': State, l: nat) {
    l < |s.loads| && l < |s'.loads| && s.loads[l] == s'.loads[l]
  }

  /** Only a comparison of the epochs lets a load store. */
  lemma StartsStoring(s: State, s': State, l: nat)
    requires Next(s, s') && l < |s'.loads| && s'.loads[l].phase.Storing?
    ensures SameLoad(s, s', l) || ChecksAt(s, s', l, s'.loads[l].phase.epoch, s'.loads[l].phase.at)
  {
    var action :| Step(s, s', action);
    if action.LoadLookup? || action.LoadEpoch? || action.LoadRead? || action.LoadFail? || action.LoadCheck? || action.LoadPut? {
      LoadStartsStoring(s, s', action.load, action, l);
    }
  }

  lemma LoadStartsStoring(s: State, s': State, k: nat, action: Action, l: nat)
    requires k < |s.loads| && LoadStep(s, s', k, action) && l < |s'.loads| && s'.loads[l].phase.Storing?
    ensures SameLoad(s, s', l)
            || (l == k && action.LoadCheck? && s'.loads[l].phase.epoch == s.past.Epoch() && s'.loads[l].phase.at == s.past.clock)
  {
  }

  lemma StepOf(states: seq<State>, i: nat)
    requires Run(states) && i + 1 < |states|
    ensures Next(states[i], states[i + 1])
  {
  }

  lemma {:induction false} StoringWasChecked(states: seq<State>, i: nat, l: nat) returns (c: nat)
    requires Run(states) && i < |states| && l < |states[i].loads| && states[i].loads[l].phase.Storing?
    ensures c < i && ChecksAt(states[c], states[c + 1], l, states[i].loads[l].phase.epoch, states[i].loads[l].phase.at)
  {
    c := 0;
    if i > 0 {
      StepOf(states, i - 1);
      StartsStoring(states[i - 1], states[i], l);
      if SameLoad(states[i - 1], states[i], l) {
        c := StoringWasChecked(states, i - 1, l);
      } else {
        c := i - 1;
      }
    }
  }

  /** Only a put brings an entry into the cache. */
  lemma EntersCache(s: State, s': State, h: Hash)
    requires Inv(s) && Next(s, s') && h in s'.cache && !(h in s.cache && s.cache[h] == s'.cache[h])
    ensures exists l: nat :: PutsAt(s, s', l, h, s'.cache[h])
  {
    var action :| Step(s, s', action);
    if action.LoadPut? { PutsEntry(s, s', action, h); } else { OthersOnlyDrop(s, s', action, h); }
  }

  lemma OthersOnlyDrop(s: State, s': State, action: Action, h: Hash)
    requires Step(s, s', action) && !action.LoadPut? && h in s'.cache
    ensures h in s.cache && s.cache[h] == s'.cache[h]
  {
  }

  lemma PutsEntry(s: State, s': State, action: Action, h: Hash)
    requires Inv(s) && action.LoadPut? && Step(s, s', action)
    requires h in s'.cache && !(h in s.cache && s.cache[h] == s'.cache[h])
    ensures PutsAt(s, s', action.load, h, s'.cache[h])
  {
    var l := action.load;
    var p := s.loads[l].phase;
    PutDropsTheEarliest(s.cache, action.cache, s.loads[l].hash, EntryOf(s.past, p.read, p.epoch, p.at, action.sample),
                        action.sample);
  }

  /** What does not hold at first, but later, begins to hold in some step. */
  lemma {:induction false} BeginsToHold(held: nat -> bool, i: nat) returns (j: nat)
    requires !held(0) && held(i)
    ensures j < i && !held(j) && held(j + 1)
  {
    j := i - 1;
    if held(j) { j := BeginsToHold(held, j); }
  }

  predicate HasEntry(states: seq<State>, k: nat, h: Hash, e: Entry) {
    k < |states| && h in states[k].cache && states[k].cache[h] == e
  }

  /** Every entry in the cache was put by a load that had found the epoch unchanged. */
  lemma EntryWasPut(states: seq<State>, i: nat, h: Hash) returns (c: nat, p: nat, l: nat)
    requires Run(states) && i < |states| && h in states[i].cache
    ensures c < p < i && CheckedThenPut(states, c, p, l, h, states[i].cache[h])
  {
    var e := states[i].cache[h];
    p := BeginsToHold((k: nat) => HasEntry(states, k, h, e), i);
    RunKeepsInv(states, p);
    StepOf(states, p);
    c, l := JustPut(states, p, h);
  }

  lemma JustPut(states: seq<State>, p: nat, h: Hash) returns (c: nat, l: nat)
    requires Run(states) && p + 1 < |states| && Inv(states[p]) && Next(states[p], states[p + 1]) && h in states[p + 1].cache
    requires !(h in states[p].cache && states[p].cache[h] == states[p + 1].cache[h])
    ensures c < p && CheckedThenPut(states, c, p, l, h, states[p + 1].cache[h])
  {
    EntersCache(states[p], states[p + 1], h);
    l :| PutsAt(states[p], states[p + 1], l, h, states[p + 1].cache[h]);
    PutOrigin(states[p], states[p + 1], l, h);
    c := StoringWasChecked(states, p, l);
  }

  lemma PutOrigin(s: State, s': State, l: nat, h: Hash)
    requires h in s'.cache && PutsAt(s, s', l, h, s'.cache[h]) && Inv(s)
    ensures s.loads[l].phase.Storing?
    ensures var p, e := s.loads[l].phase, s'.cache[h];
            e.origin == Origin(p.epoch, p.at, s.past.Epoch(), Finished(s.past, e.token))
  {
    var sample, cache' :| Step(s, s', LoadPut(l, sample, cache')) && h in cache' && cache'[h] == s'.cache[h];
    var p := s.loads[l].phase;
    PutDropsTheEarliest(s.cache, cache', h, EntryOf(s.past, p.read, p.epoch, p.at, sample), sample);
  }

  /** An invalidation of the token was begun and finished between the states c and p. */
  predicate InvalidatedBetween(before: Past, after: Past, token: TokenId) {
    InvalidatedSince(after, token, before.Epoch())
  }

  /**
    In every run, an entry is stale if and only if an invalidation of its token was begun and finished
    after the load had compared the epochs and before it put the entry; that is, if and only if it was
    so from the start. An entry that is put while the epoch is still the same is never stale.
   */
  lemma StaleIffOvertaken(states: seq<State>, i: nat, h: Hash) returns (c: nat, p: nat, l: nat)
    requires Run(states) && i < |states| && h in states[i].cache
    ensures states[i].cache[h].read < |states[i].past.rows|
    ensures c < p < i && CheckedThenPut(states, c, p, l, h, states[i].cache[h])
    ensures Stale(states[i], h) <==> InvalidatedBetween(states[c].past, states[p].past, states[i].cache[h].token)
    ensures states[p].past.Epoch() == states[c].past.Epoch() ==> !Stale(states[i], h)
  {
    c, p, l := EntryWasPut(states, i, h);
    RunKeepsInv(states, i);
    var s, e := states[i], states[i].cache[h];
    assert EntryOk(s.past, h, e) && NotPurgedSince(s.past, e);
    assert Finished(s.past, e.token) == Finished(states[p].past, e.token);
    assert forall k: nat :: k in Finished(states[p].past, e.token) ==> k < |states[p].past.invalidations|;
    assert forall k: nat :: k in Finished(s.past, e.token) ==> k < |s.past.invalidations|;
  }

  lemma Extended(states: seq<State>, s': State, action: Action)
    requires Run(states) && Step(states[|states| - 1], s', action)
    ensures Run(states + [s'])
  {
    var longer := states + [s'];
    assert Next(states[|states| - 1], s');
    forall i | 0 <= i < |longer| - 1
      ensures Next(longer[i], longer[i + 1])
    {
      if i < |states| - 1 { assert Next(states[i], states[i + 1]); }
    }
  }

  /** A run to a load that is about to put the row that it read. */
  lemma RunToStoring(h: Hash, t: TokenId) returns (states: seq<State>)
    ensures Run(states) && states[|states| - 1] == InRun(h, [Read(h, t, None, 0)], Storing(0, 0, 0))
  {
    states := [INITIAL];
    var s1 := INITIAL.(callers := [Caller(h, Looking)]);
    Extended(states, s1, Begin(h));
    states := states + [s1];
    var s2 := AtCaller(s1, 0, Wanting);
    Extended(states, s2, Lookup(0, 0));
    states := states + [s2];
    var s3 := AtCaller(WithLoad(s2, h), 0, Joined(0));
    Extended(states, s3, Join(0));
    states := states + [s3];
    states := RunLoad(states, h, t);
  }

  /** What the load of the run has come to. */
  function InRun(h: Hash, rows: seq<Read>, phase: LoadPhase): State {
    State(Past(0, rows, []), map[], map[h := 0], [Load(h, phase)], [Caller(h, Joined(0))])
  }

  lemma RunLoad(before: seq<State>, h: Hash, t: TokenId) returns (states: seq<State>)
    requires Run(before) && before[|before| - 1] == InRun(h, [], Started)
    ensures Run(states) && states[|states| - 1] == InRun(h, [Read(h, t, None, 0)], Storing(0, 0, 0))
  {
    var taken := RunToEpoch(before, h);
    var s5 := taken[|taken| - 1];
    var s6 := AtLoad(WithRow(s5, Read(h, t, None, 0)), 0, Loaded(0, 0));
    Extended(taken, s6, LoadRead(0, t, None));
    var s7 := AtLoad(s6, 0, Storing(0, 0, 0));
    Extended(taken + [s6], s7, LoadCheck(0));
    states := taken + [s6] + [s7];
  }

  lemma RunToEpoch(before: seq<State>, h: Hash) returns (states: seq<State>)
    requires Run(before) && before[|before| - 1] == InRun(h, [], Started)
    ensures Run(states) && states[|states| - 1] == InRun(h, [], EpochTaken(0))
  {
    var s4 := AtLoad(before[|before| - 1], 0, Missed);
    Extended(before, s4, LoadLookup(0, 0));
    var s5 := AtLoad(s4, 0, EpochTaken(0));
    Extended(before + [s4], s5, LoadEpoch(0));
    states := before + [s4] + [s5];
  }

  /**
    Stale entries do arise, in runs from the empty cache: an invalidation of the token that is begun
    and finished between the comparison and the put leaves one behind.
   */
  lemma StaleEntryIsReached(h: Hash, t: TokenId) returns (states: seq<State>)
    ensures Run(states)
    ensures var s := states[|states| - 1]; h in s.cache && s.cache[h].read < |s.past.rows| && Stale(s, h)
  {
    states := RunToStoring(h, t);
    var s := states[|states| - 1];
    var bumped := Bumped(s, {t});
    Extended(states, bumped, Bump({t}));
    var purged := Purging(bumped, 0);
    Extended(states + [bumped], purged, Purge(0));
    assert purged.cache == map[];
    states := LatePut(states + [bumped] + [purged], h, t);
  }

  lemma LatePut(before: seq<State>, h: Hash, t: TokenId) returns (states: seq<State>)
    requires Run(before)
    requires before[|before| - 1] == InRun(h, [Read(h, t, None, 0)], Storing(0, 0, 0)).(
                                       past := Past(0, [Read(h, t, None, 0)], [Invalidation({t}, 0, true)]))
    ensures Run(states)
    ensures var s := states[|states| - 1]; h in s.cache && s.cache[h].read < |s.past.rows| && Stale(s, h)
  {
    var s := before[|before| - 1];
    var e := EntryOf(s.past, 0, 0, 0, 0);
    var put := Finish(s.(cache := map[h := e]), 0, Result(0, 0, FromDatabase));
    Extended(before, put, LoadPut(0, 0, map[h := e]));
    states := before + [put];
    assert 0 in Finished(put.past, t);
  }

  // ---------- when a result is given ----------

  /** In this step the caller is given its result, and the epoch of the result is that of the moment. */
  ghost predicate GivenIn(s: State, s': State, who: nat) {
    && who < |s.callers| && who < |s'.callers| && !s.callers[who].phase.Returned? && s'.callers[who].phase.Returned?
    && s'.callers[who].phase.epoch == |s.past.invalidations|
  }

  lemma ResultsStay(s: State, s': State, action: Action, who: nat)
    requires Step(s, s', action) && who < |s'.callers| && s'.callers[who].phase.Returned?
    ensures who < |s.callers| && (s.callers[who] == s'.callers[who] || GivenIn(s, s', who))
  {
  }

  /**
    In every run, a result was given in a step before which no invalidation had been begun since the read
    of its row, if that is where it came from: the row was read in the epoch of that very moment.
   */
  lemma ResultsAreGivenInTheirEpoch(states: seq<State>, i: nat, who: nat) returns (j: nat)
    requires Run(states) && i < |states| && who < |states[i].callers| && states[i].callers[who].phase.Returned?
    ensures j < i && GivenIn(states[j], states[j + 1], who) && states[j + 1].callers[who] == states[i].callers[who]
    ensures var p := states[i].callers[who].phase;
            p.read < |states[i].past.rows|
            && (p.source == FromDatabase ==> states[i].past.rows[p.read].epoch == |states[j].past.invalidations|)
  {
    ResultsAreFresh(states, i, who);
    j := WasGiven(states, i, who);
  }

  predicate HasResult(states: seq<State>, k: nat, who: nat, c: Caller) {
    k < |states| && who < |states[k].callers| && states[k].callers[who] == c
  }

  lemma WasGiven(states: seq<State>, i: nat, who: nat) returns (j: nat)
    requires Run(states) && i < |states| && who < |states[i].callers| && states[i].callers[who].phase.Returned?
    ensures j < i && GivenIn(states[j], states[j + 1], who) && states[j + 1].callers[who] == states[i].callers[who]
  {
    var c := states[i].callers[who];
    j := BeginsToHold((k: nat) => HasResult(states, k, who, c), i);
    StepOf(states, j);
    NextGives(states[j], states[j + 1], who);
  }

  predicate SameCaller(s: State, s': State, who: nat) {
    who < |s.callers| && who < |s'.callers| && s.callers[who] == s'.callers[who]
  }

  lemma NextGives(s: State, s': State, who: nat)
    requires Next(s, s') && who < |s'.callers| && s'.callers[who].phase.Returned?
    ensures SameCaller(s, s', who) || GivenIn(s, s', who)
  {
    var action :| Step(s, s', action);
    ResultsStay(s, s', action, who);
  }

  // ---------- what the methods promise, spelled out ----------

  ghost function LiveHashes(cache: Cache, now: Instant): set<Hash> {
    set k | k in cache && now < cache[k].expiresAt
  }

  /** The entry that makes room expires no later than any other, and all that have expired go with it. */
  predicate Evicts(before: Cache, after: Cache, h: Hash, victim: Hash, now: Instant) {
    && victim in before
    && (forall k :: k in before && now < before[k].expiresAt ==> before[victim].expiresAt <= before[k].expiresAt)
    && forall k :: k in before && k != h ==> (k in after <==> k != victim && now < before[k].expiresAt)
  }

  /** Nothing is dropped while there is room; then the expired entries are; and if that is not enough, one that expires first. */
  ghost predicate MakesRoom(before: Cache, after: Cache, h: Hash, e: Entry, now: Instant) {
    && h in after && after[h] == e
    && (forall k :: k in after && k != h ==> k in before && after[k] == before[k])
    && if h in before || |before| < 4096 then forall k :: k in before ==> k in after
       else if |LiveHashes(before, now)| < 4096 then forall k :: k in before ==> (k in after <==> now < before[k].expiresAt)
       else exists victim :: Evicts(before, after, h, victim, now)
  }

  lemma LiveSize(cache: Cache, now: Instant)
    ensures |LiveHashes(cache, now)| == |Unexpired(cache, now)|
  {
    assert Unexpired(cache, now).Keys == LiveHashes(cache, now);
  }

  lemma PutMakesRoom(cache: Cache, cache': Cache, h: Hash, e: Entry, now: Instant)
    requires Put(cache, cache', h, e, now)
    ensures MakesRoom(cache, cache', h, e, now)
  {
    LiveSize(cache, now);
    if h !in cache && |cache| >= MAX_ENTRIES && |LiveHashes(cache, now)| >= MAX_ENTRIES {
      var victim :| Earliest(Unexpired(cache, now), victim) && cache' == (Unexpired(cache, now) - {victim})[h := e];
      assert forall k :: k in cache && now < cache[k].expiresAt ==> k in Unexpired(cache, now) && Unexpired(cache, now)[k] == cache[k];
      assert Evicts(cache, cache', h, victim, now);
    }
  }

  // ---------- the cache ----------

  function Looked(s: State, who: nat, now: Instant): State
    requires who < |s.callers|
  {
    var h := s.callers[who].hash;
    AtCaller(s, who, if IsHit(s, h, now) then Returned(s.cache[h].read, HitSource(s, h, now), s.past.Epoch()) else Wanting)
  }

  lemma LookedIsStep(s: State, who: nat, now: Instant)
    requires Inv(s) && who < |s.callers| && s.callers[who].phase.Looking? && now <= s.past.clock
    ensures Step(s, Looked(s, who, now), Lookup(who, now)) && Inv(Looked(s, who, now))
  {
    LookupKeepsInv(s, Looked(s, who, now), who, Lookup(who, now));
  }

  lemma DropIsStep(s: State, h: Hash, now: Instant)
    requires Inv(s) && h in s.cache && !Live(s.cache[h], now) && now <= s.past.clock
    ensures Step(s, s.(cache := s.cache - {h}), DropExpired(h, now)) && Inv(s.(cache := s.cache - {h}))
  {
    RemoveSize(s.cache, h);
  }

  function PutBy(s: State, load: nat, cache: Cache): State
    requires load < |s.loads| && s.loads[load].phase.Storing?
  {
    var p := s.loads[load].phase;
    Finish(s.(cache := cache), load, Result(p.read, p.epoch, FromDatabase))
  }

  lemma PutIsStep(s: State, load: nat, now: Instant, cache: Cache)
    requires Inv(s) && load < |s.loads| && s.loads[load].phase.Storing?
    requires var p := s.loads[load].phase;
             && p.at <= now <= s.past.clock && p.read < |s.past.rows|
             && Put(s.cache, cache, s.loads[load].hash, EntryOf(s.past, p.read, p.epoch, p.at, now), now)
    ensures Step(s, PutBy(s, load, cache), LoadPut(load, now, cache)) && Inv(PutBy(s, load, cache))
    ensures PutBy(s, load, cache).cache == cache && PutBy(s, load, cache).past == s.past
  {
    LoadPuts(s, PutBy(s, load, cache), load, LoadPut(load, now, cache));
  }

  lemma InvalidationIsSteps(s: State, tokens: set<TokenId>)
    requires Inv(s) && tokens != {}
    ensures Step(s, Bumped(s, tokens), Bump(tokens))
    ensures Step(Bumped(s, tokens), Purging(Bumped(s, tokens), s.past.Epoch()), Purge(s.past.Epoch()))
    ensures var s' := Purging(Bumped(s, tokens), s.past.Epoch());
            Inv(s') && s'.cache == Purged(s.cache, tokens) && s'.past.Epoch() == s.past.Epoch() + 1
  {
    BumpKeepsInv(s, tokens);
    PurgeKeepsInv(Bumped(s, tokens), s.past.Epoch());
  }

  /** The cache's fields, with the state that they are part of beside them. */
  class AuthCache {
    var entries: Cache
    var epoch: nat
    ghost var machine: State

    ghost predicate Valid()
      reads this
    {
      Inv(machine) && machine.cache == entries && machine.past.Epoch() == epoch
    }

    constructor ()
      ensures Valid() && machine == INITIAL
    {
      entries, epoch, machine := map[], 0, INITIAL;
    }

    /**
      A caller's lookup, and the removal of what it finds expired. What it is given was stored less
      than five seconds before, and its token has not expired.
     */
    method GetCached(ghost who: nat, h: Hash, now: Instant) returns (found: Option<Entry>)
      requires Valid() && who < |machine.callers| && machine.callers[who] == Caller(h, Looking) && now <= machine.past.clock
      modifies this
      ensures Valid()
      ensures exists middle :: Step(old(machine), middle, Lookup(who, now))
                               && (machine == middle || Step(middle, machine, DropExpired(h, now)))
      ensures found == None ==> machine.callers[who].phase == Wanting && !IsHit(machine, h, now)
      ensures found != None ==>
                && machine.callers[who].phase.Returned? && machine.callers[who].phase.read == found.value.read
                && found.value.read < |machine.past.rows| && machine.past.rows[found.value.read].hash == h
                && now < Earlier(found.value.storedAt + TTL, machine.past.rows[found.value.read].expiry)
      ensures found == if h in old(entries) && now < old(entries)[h].expiresAt then Some(old(entries)[h]) else None
      ensures entries == if found == None then old(entries) - {h} else old(entries)
    {
      ghost var s := machine;
      LookedIsStep(s, who, now);
      machine := Looked(s, who, now);
      if h !in entries { return None; }
      if !(now < entries[h].expiresAt) {
        DropIsStep(machine, h, now);
        machine := machine.(cache := entries - {h});
        entries := entries - {h};
        return None;
      }
      HitIsOk(s, h, now);
      found := Some(entries[h]);
    }

    /** The loop over a full cache that drops the expired entries. */
    method DropAllExpired(now: Instant)
      modifies this`entries
      ensures entries == Unexpired(old(entries), now)
    {
      var rest := entries.Keys;
      while rest != {}
        invariant rest <= entries.Keys <= old(entries.Keys)
        invariant forall h :: h in old(entries) && h !in rest ==> (h in entries <==> Live(old(entries)[h], now))
        invariant forall h :: h in rest ==> h in entries
        invariant forall h :: h in entries ==> entries[h] == old(entries)[h]
        decreases rest
      {
        var h :| h in rest;
        if !(now < entries[h].expiresAt) { entries := entries - {h}; }
        rest := rest - {h};
      }
    }

    /** The loop that looks for the entry that expires first. */
    method FindEarliest() returns (earliest: Hash)
      requires entries != map[]
      ensures Earliest(entries, earliest)
    {
      var rest := entries.Keys;
      var best: Option<Hash> := None;
      while rest != {}
        invariant rest <= entries.Keys
        invariant best == None ==> rest == entries.Keys
        invariant best != None ==> best.value in entries
                                   && forall h :: h in entries && h !in rest ==> entries[best.value].expiresAt <= entries[h].expiresAt
        decreases rest
      {
        var h :| h in rest;
        if best == None || entries[h].expiresAt < entries[best.value].expiresAt { best := Some(h); }
        rest := rest - {h};
      }
      earliest := best.value;
    }

    /** Makes room if need be and puts the entry. */
    method CacheAccount(h: Hash, e: Entry, now: Instant)
      requires |entries| <= MAX_ENTRIES
      modifies this`entries
      ensures |entries| <= MAX_ENTRIES && Put(old(entries), entries, h, e, now)
      ensures |entries| <= 4096 && MakesRoom(old(entries), entries, h, e, now)
    {
      if h !in entries && |entries| >= MAX_ENTRIES {
        DropAllExpired(now);
        if |entries| >= MAX_ENTRIES {
          var victim := FindEarliest();
          entries := entries - {victim};
        }
      }
      entries := entries[h := e];
      PutDropsTheEarliest(old(entries), entries, h, e, now);
      PutMakesRoom(old(entries), entries, h, e, now);
    }

    /** The put of a load that found the epoch unchanged; entries are stamped with the time before the lock is taken. */
    method PutLoaded(ghost load: nat, h: Hash, token: TokenId, read: nat, expiry: Option<Instant>, origin: Origin, now: Instant)
      requires Valid() && load < |machine.loads| && machine.loads[load].hash == h && machine.loads[load].phase.Storing?
      requires machine.loads[load].phase.at <= now <= machine.past.clock
      requires var p := machine.loads[load].phase;
               && p.read == read < |machine.past.rows|
               && machine.past.rows[read].token == token && machine.past.rows[read].expiry == expiry
               && origin == Origin(p.epoch, p.at, epoch, Finished(machine.past, token))
      modifies this
      ensures Valid() && Step(old(machine), machine, LoadPut(load, now, entries))
      ensures h in entries && entries[h].token == token && entries[h].read == read && entries[h].storedAt == now
      ensures h in entries ==>
                entries[h].expiresAt == if expiry != None && expiry.value < now + 5000 then expiry.value else now + 5000
      ensures h in entries ==> MakesRoom(old(entries), entries, h, entries[h], now)
    {
      ghost var p := machine.loads[load].phase;
      var expiresAt := now + TTL;
      if expiry != None && expiry.value < expiresAt { expiresAt := expiry.value; }
      var e := Entry(token, read, now, expiresAt, origin);
      assert e == EntryOf(machine.past, p.read, p.epoch, p.at, now);
      CacheAccount(h, e, now);
      PutIsStep(machine, load, now, entries);
      machine := PutBy(machine, load, entries);
    }

    /** Begins and finishes an invalidation; nothing to invalidate leaves the epoch alone. */
    method Invalidate(tokens: set<TokenId>)
      requires Valid()
      modifies this
      ensures Valid() && epoch == if tokens == {} then old(epoch) else old(epoch) + 1
      ensures tokens == {} ==> machine == old(machine)
      ensures tokens != {} ==> exists middle :: Step(old(machine), middle, Bump(tokens)) && Step(middle, machine, Purge(old(epoch)))
      ensures entries == Purged(old(entries), tokens)
      ensures forall h :: h in entries <==> h in old(entries) && old(entries)[h].token !in tokens
      ensures forall h :: h in entries ==> entries[h] == old(entries)[h]
    {
      if tokens == {} { return; }
      InvalidationIsSteps(machine, tokens);
      PurgeEntries(tokens);
      machine := Purging(Bumped(machine, tokens), epoch);
      epoch := epoch + 1;
    }

    method PurgeEntries(tokens: set<TokenId>)
      modifies this`entries
      ensures entries == Purged(old(entries), tokens)
    {
      var rest := entries.Keys;
      while rest != {}
        invariant rest <= entries.Keys <= old(entries.Keys)
        invariant forall h :: h in old(entries) && h !in rest ==> (h in entries <==> old(entries)[h].token !in tokens)
        invariant forall h :: h in entries ==> entries[h] == old(entries)[h]
        decreases rest
      {
        var h :| h in rest;
        if entries[h].token in tokens { entries := entries - {h}; }
        rest := rest - {h};
      }
    }
  }
}
