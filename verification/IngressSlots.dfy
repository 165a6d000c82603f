/**
  The LMTP ingress pipeline: sessions reserve a slot before they read a message, submit it as a
  job to a bounded queue, and wait for the one result that a worker sends into the job's own
  one-slot channel. Shutdown cancels, waits for everyone and then drains the queue.

  The pipeline is a state machine whose steps are the single channel operations and counter
  updates of sessions, workers and the shutdown goroutine, interleaved in any way.
 */
module IngressSlots {
  import opened Options

  type JobId = nat   // numbered in the order in which they are submitted

  datatype Outcome = Delivered | TempFailed | PermFailed

  /** A job's result channel; Taken when its session has received from it. */
  datatype Channel = Empty | Filled(outcome: Outcome) | Taken(outcome: Outcome)

  datatype Counts = Counts(submitted: nat, delivered: nat, temp: nat, perm: nat, cancelled: nat, queueFull: nat)

  /** What the goroutines share: the slots channel (its length), the jobs channel, the result channels. */
  datatype Shared = Shared(size: nat, free: nat, queue: seq<JobId>, results: seq<Channel>, counts: Counts)

  const NO_COUNTS := Counts(0, 0, 0, 0, 0, 0)

  function CountOf(counts: Counts, o: Outcome): nat {
    match o
    case Delivered => counts.delivered
    case TempFailed => counts.temp
    case PermFailed => counts.perm
  }

  function CountOne(counts: Counts, o: Outcome): Counts {
    match o
    case Delivered => counts.(delivered := counts.delivered + 1)
    case TempFailed => counts.(temp := counts.temp + 1)
    case PermFailed => counts.(perm := counts.perm + 1)
  }

  // ---------- operations on the shared part ----------

  function Counting(sh: Shared, o: Outcome): Shared {
    sh.(counts := CountOne(sh.counts, o))
  }

  /** A result for a channel that is not empty would be dropped. */
  function Sending(sh: Shared, j: JobId, o: Outcome): Shared
    requires j < |sh.results|
  {
    if sh.results[j].Empty? then sh.(results := sh.results[j := Filled(o)]) else sh
  }

  function Freeing(sh: Shared): Shared {
    sh.(free := sh.free + 1)
  }

  function Dequeued(sh: Shared): Shared
    requires sh.queue != []
  {
    sh.(queue := sh.queue[1..])
  }

  function Enqueued(sh: Shared): Shared {
    sh.(queue := sh.queue + [|sh.results|], results := sh.results + [Empty])
  }

  function Cancelling(sh: Shared): Shared {
    sh.(counts := sh.counts.(cancelled := sh.counts.cancelled + 1))
  }

  // ---------- the goroutines ----------

  datatype Actor =
    // a session
    | Idle                           // between DATA commands
    | Reserved                       // took a slot, reads the message
    | Submitted(job: JobId)          // enqueued the job, has not counted it yet
    | Waiting(job: JobId)
    | Closed
    // a worker, or the shutdown goroutine
    | Ready
    | Handling(job: JobId)           // dequeued
    | Storing(job: JobId)            // found the job's context alive, parses and inserts
    | Counted(job: JobId, outcome: Outcome)
    | Sent                           // has not returned the slot yet
    | Exited

  /** `drain` is the shutdown goroutine: Idle while it waits for the others, Exited when it is done. */
  datatype State = State(shared: Shared, actors: seq<Actor>, drain: Actor,
                         accepting: bool, cancelled: bool, expired: set<JobId>)

  datatype Move =
    | Acquire | Submit | Release(refused: bool, closing: bool) | Record | Receive(closing: bool)
    | TimeOut(closing: bool) | Close
    | Take | Check | Finish(outcome: Outcome) | Send | Free | Exit

  datatype Action =
    | Connect
    | Cancel
    | StopAccepting
    | Expire(job: JobId)
    | Act(who: nat, move: Move)
    | StartDrain
    | Drain(move: Move)

  /** The context of a job ends with its timeout, or when the server is cancelled. */
  predicate ContextDone(s: State, j: JobId) {
    s.cancelled || j in s.expired
  }

  function Between(closing: bool): Actor {
    if closing then Closed else Idle
  }

  /**
    What a goroutine's next operation does to the shared part and to itself; None when the
    operation is not its next one, or blocks.
   */
  function ActorStep(s: State, a: Actor, move: Move): Option<(Shared, Actor)> {
    var sh := s.shared;
    match (a, move)
    case (Idle, Acquire) =>
      if sh.free > 0 then Some((sh.(free := sh.free - 1), Reserved))
      else Some((sh.(counts := sh.counts.(queueFull := sh.counts.queueFull + 1)), Idle))
    case (Idle, Close) => Some((sh, Closed))
    case (Reserved, Submit) =>
      if |sh.queue| < sh.size then Some((Enqueued(sh), Submitted(|sh.results|))) else None
    case (Reserved, Release(refused, closing)) =>
      if sh.free < sh.size then Some((Freeing(if refused then Cancelling(sh) else sh), Between(closing))) else None
    case (Submitted(j), Record) =>
      Some((sh.(counts := sh.counts.(submitted := sh.counts.submitted + 1)), Waiting(j)))
    case (Waiting(j), Receive(closing)) =>
      if j < |sh.results| && sh.results[j].Filled?
      then Some((sh.(results := sh.results[j := Taken(sh.results[j].outcome)]), Between(closing))) else None
    case (Waiting(j), TimeOut(closing)) =>
      if ContextDone(s, j) then Some((sh, Between(closing))) else None
    case (Ready, Take) =>
      if sh.queue != [] then Some((Dequeued(sh), Handling(sh.queue[0]))) else None
    case (Ready, Exit) =>
      if s.cancelled then Some((sh, Exited)) else None
    case (Handling(j), Check) =>
      Some(if ContextDone(s, j) then (Counting(sh, TempFailed), Counted(j, TempFailed)) else (sh, Storing(j)))
    case (Storing(j), Finish(o)) => Some((Counting(sh, o), Counted(j, o)))
    case (Counted(j, o), Send) =>
      if j < |sh.results| then Some((Sending(sh, j, o), Sent)) else None
    case (Sent, Free) =>
      if sh.free < sh.size then Some((Freeing(sh), Ready)) else None
    case _ => None
  }

  /**
    The shutdown goroutine's loop: it counts each job it takes as cancelled and as temporarily
    failed, and it ends where a receive would block.
   */
  function DrainStep(s: State, move: Move): Option<(Shared, Actor)> {
    match (s.drain, move)
    case (Handling(j), Finish(o)) =>
      if o.TempFailed? then Some((Counting(Cancelling(s.shared), o), Counted(j, o))) else None
    case (Ready, Exit) => if s.shared.queue == [] then Some((s.shared, Exited)) else None
    case (Ready, Take) => ActorStep(s, s.drain, move)
    case (Counted(_, _), Send) => ActorStep(s, s.drain, move)
    case (Sent, Free) => ActorStep(s, s.drain, move)
    case _ => None
  }

  predicate Finished(a: Actor) {
    a.Closed? || a.Exited?
  }

  /** The goroutines that shutdown waits for have all returned. */
  predicate AllDone(s: State) {
    !s.accepting && forall i :: 0 <= i < |s.actors| ==> Finished(s.actors[i])
  }

  function Step(s: State, action: Action): Option<State> {
    match action
    case Connect => if s.accepting then Some(s.(actors := s.actors + [Idle])) else None
    case Cancel => Some(s.(cancelled := true))
    case StopAccepting => if s.cancelled then Some(s.(accepting := false)) else None
    case Expire(j) => Some(s.(expired := s.expired + {j}))
    case Act(i, move) =>
      if i >= |s.actors| then None
      else
        (match ActorStep(s, s.actors[i], move)
         case None => None
         case Some((sh, a)) => Some(s.(shared := sh, actors := s.actors[i := a])))
    case StartDrain => if s.cancelled && s.drain.Idle? && AllDone(s) then Some(s.(drain := Ready)) else None
    case Drain(move) =>
      (match DrainStep(s, move)
       case None => None
       case Some((sh, a)) => Some(s.(shared := sh, drain := a)))
  }

  /** A server as it starts: every slot free, every worker ready. */
  ghost predicate Initial(s: State) {
    && s.shared == Shared(s.shared.size, s.shared.size, [], [], NO_COUNTS)
    && (forall i :: 0 <= i < |s.actors| ==> s.actors[i] == Ready)
    && s.drain == Idle && s.accepting && !s.cancelled
  }

  ghost predicate Run(states: seq<State>) {
    && states != [] && Initial(states[0])
    && forall i :: 0 <= i < |states| - 1 ==> exists action :: Step(states[i], action) == Some(states[i + 1])
  }

  // ---------- counting over the goroutines ----------

  datatype Trait =
    | HoldsSlot
    | HoldsJob(job: JobId)           // and has not sent its result
    | Uncounted                      // dequeued a job, has not counted an outcome
    | Unrecorded                     // enqueued a job, has not counted it as submitted
    | Unsent(outcome: Outcome)       // counted an outcome, has not sent it
    | Awaits(job: JobId)

  function Weight(a: Actor, t: Trait): nat {
    var yes := match t
      case HoldsSlot => a.Reserved? || a.Handling? || a.Storing? || a.Counted? || a.Sent?
      case HoldsJob(j) => (a.Handling? || a.Storing? || a.Counted?) && a.job == j
      case Uncounted => a.Handling? || a.Storing?
      case Unrecorded => a.Submitted?
      case Unsent(o) => a.Counted? && a.outcome == o
      case Awaits(j) => (a.Submitted? || a.Waiting?) && a.job == j;
    if yes then 1 else 0
  }

  function WeightUpTo(actors: seq<Actor>, n: nat, t: Trait): nat
    requires n <= |actors|
  {
    if n == 0 then 0 else WeightUpTo(actors, n - 1, t) + Weight(actors[n - 1], t)
  }

  function Total(s: State, t: Trait): nat {
    WeightUpTo(s.actors, |s.actors|, t) + Weight(s.drain, t)
  }

  function ResultsUpTo(results: seq<Channel>, n: nat, o: Outcome): nat
    requires n <= |results|
  {
    if n == 0 then 0
    else ResultsUpTo(results, n - 1, o) + (if results[n - 1].Empty? || results[n - 1].outcome != o then 0 else 1)
  }

  lemma {:induction false} WeightChanges(actors: seq<Actor>, n: nat, i: nat, a: Actor, t: Trait)
    requires i < |actors| && n <= |actors|
    ensures WeightUpTo(actors[i := a], n, t)
            == WeightUpTo(actors, n, t) + if i < n then Weight(a, t) - Weight(actors[i], t) else 0
  {
    if n > 0 { WeightChanges(actors, n - 1, i, a, t); }
  }

  lemma {:induction false} WeightAppends(actors: seq<Actor>, n: nat, a: Actor, t: Trait)
    requires n <= |actors|
    ensures WeightUpTo(actors + [a], n, t) == WeightUpTo(actors, n, t)
  {
    if n > 0 { WeightAppends(actors, n - 1, a, t); }
  }

  lemma {:induction false} WeightAtLeast(actors: seq<Actor>, n: nat, i: nat, t: Trait)
    requires i < n <= |actors|
    ensures WeightUpTo(actors, n, t) >= Weight(actors[i], t)
  {
    if i < n - 1 { WeightAtLeast(actors, n - 1, i, t); }
  }

  lemma {:induction false} NobodyWeighs(actors: seq<Actor>, n: nat, t: Trait)
    requires n <= |actors| && forall i :: 0 <= i < n ==> Weight(actors[i], t) == 0
    ensures WeightUpTo(actors, n, t) == 0
  {
    if n > 0 { NobodyWeighs(actors, n - 1, t); }
  }

  /** The weight that an empty channel gains when it is filled, and keeps when it is taken. */
  lemma {:induction false} ResultsChange(results: seq<Channel>, n: nat, j: JobId, c: Channel, o: Outcome)
    requires j < |results| && n <= |results|
    ensures ResultsUpTo(results[j := c], n, o)
            == ResultsUpTo(results, n, o)
               + if j < n then ResultsUpTo([c], 1, o) - ResultsUpTo([results[j]], 1, o) else 0
  {
    assert ResultsUpTo([c], 0, o) == 0 == ResultsUpTo([results[j]], 0, o);
    if n > 0 { ResultsChange(results, n - 1, j, c, o); }
  }

  lemma {:induction false} ResultsAppend(results: seq<Channel>, n: nat, c: Channel, o: Outcome)
    requires n <= |results|
    ensures ResultsUpTo(results + [c], n, o) == ResultsUpTo(results, n, o)
  {
    if n > 0 { ResultsAppend(results, n - 1, c, o); }
  }

  // ---------- the invariant ----------

  /** Every slot is free, reserved by a session, behind a queued job, or with whoever handles a job. */
  ghost predicate SlotsBalance(s: State) {
    s.shared.free + |s.shared.queue| + Total(s, HoldsSlot) == s.shared.size
  }

  function Answered(c: Channel): nat {
    if c.Empty? then 0 else 1
  }

  /** A job is in exactly one place: in the queue, in someone's hands, or answered. */
  ghost predicate JobInOnePlace(s: State, j: JobId)
    requires j < |s.shared.results|
  {
    multiset(s.shared.queue)[j] + Total(s, HoldsJob(j)) + Answered(s.shared.results[j]) == 1
  }

  /** At most one session can still receive a job's result, and only if nobody has. */
  ghost predicate OneReader(s: State, j: JobId)
    requires j < |s.shared.results|
  {
    Total(s, Awaits(j)) + (if s.shared.results[j].Taken? then 1 else 0) <= 1
  }

  predicate JobKnown(a: Actor, n: nat) {
    a.Submitted? || a.Waiting? || a.Handling? || a.Storing? || a.Counted? ==> a.job < n
  }

  ghost predicate JobsKnown(s: State) {
    var n := |s.shared.results|;
    && (forall k :: 0 <= k < |s.shared.queue| ==> s.shared.queue[k] < n)
    && (forall i :: 0 <= i < |s.actors| ==> JobKnown(s.actors[i], n))
    && JobKnown(s.drain, n)
  }

  /** Each counter agrees with the jobs and the results that there are. */
  ghost predicate CountsBalance(s: State) {
    var sh := s.shared;
    && |sh.results| == sh.counts.submitted + Total(s, Unrecorded)
    && |sh.results| == |sh.queue| + Total(s, Uncounted) + sh.counts.delivered + sh.counts.temp + sh.counts.perm
    && forall o :: CountOf(sh.counts, o) == ResultsUpTo(sh.results, |sh.results|, o) + Total(s, Unsent(o))
  }

  predicate DrainOk(s: State) {
    && !s.drain.Reserved? && !s.drain.Submitted? && !s.drain.Waiting? && !s.drain.Closed? && !s.drain.Storing?
    && (!s.drain.Idle? ==> s.cancelled && AllDone(s))
    && (s.drain.Exited? ==> s.shared.queue == [])
  }

  ghost predicate Inv(s: State) {
    && SlotsBalance(s) && JobsKnown(s) && CountsBalance(s) && DrainOk(s)
    && forall j: JobId :: j < |s.shared.results| ==> JobInOnePlace(s, j) && OneReader(s, j)
  }

  // ---------- one goroutine's step, seen locally ----------

  function Places(sh: Shared, a: Actor, j: JobId): nat
    requires j < |sh.results|
  {
    multiset(sh.queue)[j] + Weight(a, HoldsJob(j)) + Answered(sh.results[j])
  }

  function Readers(sh: Shared, a: Actor, j: JobId): nat
    requires j < |sh.results|
  {
    Weight(a, Awaits(j)) + if sh.results[j].Taken? then 1 else 0
  }

  function Surplus(sh: Shared, a: Actor, o: Outcome): int {
    CountOf(sh.counts, o) - ResultsUpTo(sh.results, |sh.results|, o) - Weight(a, Unsent(o))
  }

  ghost predicate SlotsAndCountsKept(sh: Shared, a: Actor, sh': Shared, a': Actor) {
    && sh'.size == sh.size
    && sh'.free + |sh'.queue| + Weight(a', HoldsSlot) == sh.free + |sh.queue| + Weight(a, HoldsSlot)
    && |sh'.results| - sh'.counts.submitted - Weight(a', Unrecorded)
       == |sh.results| - sh.counts.submitted - Weight(a, Unrecorded)
    && |sh'.results| - |sh'.queue| - Weight(a', Uncounted)
         - sh'.counts.delivered - sh'.counts.temp - sh'.counts.perm
       == |sh.results| - |sh.queue| - Weight(a, Uncounted)
         - sh.counts.delivered - sh.counts.temp - sh.counts.perm
    && forall o :: Surplus(sh', a', o) == Surplus(sh, a, o)
  }

  ghost predicate JobsKept(sh: Shared, a: Actor, sh': Shared, a': Actor) {
    && |sh.results| <= |sh'.results|
    && JobKnown(a', |sh'.results|)
    && (forall k :: 0 <= k < |sh'.queue| ==> sh'.queue[k] < |sh'.results|)
    && (forall j: JobId :: j < |sh.results| ==> Places(sh', a', j) == Places(sh, a, j))
    && (forall j: JobId :: j < |sh.results| ==> Readers(sh', a', j) <= Readers(sh, a, j))
    && (forall j: JobId :: |sh.results| <= j < |sh'.results| ==> Places(sh', a', j) == 1 == Readers(sh', a', j))
  }

  /** What the invariant says of one goroutine: it knows its job, and it has not been answered. */
  ghost predicate Fit(sh: Shared, a: Actor) {
    && JobKnown(a, |sh.results|)
    && (a.Counted? ==> sh.results[a.job].Empty?)
    && (forall k :: 0 <= k < |sh.queue| ==> sh.queue[k] < |sh.results|)
  }

  lemma DequeueSplits(queue: seq<JobId>)
    requires queue != []
    ensures multiset(queue) == multiset{queue[0]} + multiset(queue[1..])
  {
    assert queue == [queue[0]] + queue[1..];
  }

  lemma ResultSet(results: seq<Channel>, j: JobId, c: Channel, o: Outcome)
    requires j < |results| && !c.Empty? && (results[j].Empty? || results[j].outcome == c.outcome)
    ensures ResultsUpTo(results[j := c], |results|, o)
            == ResultsUpTo(results, |results|, o) + if results[j].Empty? && c.outcome == o then 1 else 0
  {
    ResultsChange(results, |results|, j, c, o);
    assert ResultsUpTo([c], 0, o) == 0 == ResultsUpTo([results[j]], 0, o);
  }

  lemma JobsKeptByActor(s: State, a: Actor, move: Move)
    requires Fit(s.shared, a) && ActorStep(s, a, move).Some?
    ensures var (sh', a') := ActorStep(s, a, move).value; JobsKept(s.shared, a, sh', a')
  {
    match move
    case Submit => SubmitKeepsJobs(s.shared);
    case Take => TakeKeepsJobs(s.shared);
    case Send => SendKeepsJobs(s.shared, a.job, a.outcome);
    case Receive(closing) => ReceiveKeepsJobs(s.shared, a.job, Between(closing));
    case _ =>
      OtherMoves(s, a, move);
      var (sh', a') := ActorStep(s, a, move).value;
      NoJobMoves(s.shared, a, sh', a');
  }

  /** The other moves leave jobs and results alone. */
  lemma OtherMoves(s: State, a: Actor, move: Move)
    requires ActorStep(s, a, move).Some? && !move.Submit? && !move.Take? && !move.Send? && !move.Receive?
    ensures var (sh', a') := ActorStep(s, a, move).value;
            && sh'.queue == s.shared.queue && sh'.results == s.shared.results
            && (JobKnown(a, |s.shared.results|) ==> JobKnown(a', |s.shared.results|))
            && (forall t: Trait :: t.HoldsJob? ==> Weight(a', t) == Weight(a, t))
            && (forall t: Trait :: t.Awaits? ==> Weight(a', t) <= Weight(a, t))
  {
  }

  lemma NoJobMoves(sh: Shared, a: Actor, sh': Shared, a': Actor)
    requires Fit(sh, a) && sh'.queue == sh.queue && sh'.results == sh.results && JobKnown(a', |sh.results|)
    requires forall t: Trait :: t.HoldsJob? ==> Weight(a', t) == Weight(a, t)
    requires forall t: Trait :: t.Awaits? ==> Weight(a', t) <= Weight(a, t)
    ensures JobsKept(sh, a, sh', a')
  {
    forall j: JobId | j < |sh.results|
      ensures Places(sh', a', j) == Places(sh, a, j) && Readers(sh', a', j) <= Readers(sh, a, j)
    {
      SamePlaces(sh, sh', a, a', j);
    }
  }

  lemma SamePlaces(sh: Shared, sh': Shared, a: Actor, a': Actor, j: JobId)
    requires sh'.queue == sh.queue && sh'.results == sh.results && j < |sh.results|
    requires Weight(a', HoldsJob(j)) == Weight(a, HoldsJob(j)) && Weight(a', Awaits(j)) <= Weight(a, Awaits(j))
    ensures Places(sh', a', j) == Places(sh, a, j) && Readers(sh', a', j) <= Readers(sh, a, j)
  {
  }

  lemma SendKeepsJobs(sh: Shared, j: JobId, o: Outcome)
    requires Fit(sh, Counted(j, o))
    ensures JobsKept(sh, Counted(j, o), Sending(sh, j, o), Sent)
  {
  }

  lemma ReceiveKeepsJobs(sh: Shared, j: JobId, a: Actor)
    requires Fit(sh, Waiting(j)) && sh.results[j].Filled? && (a.Idle? || a.Closed?)
    ensures JobsKept(sh, Waiting(j), sh.(results := sh.results[j := Taken(sh.results[j].outcome)]), a)
  {
  }

  lemma SubmitKeepsJobs(sh: Shared)
    requires Fit(sh, Reserved)
    ensures JobsKept(sh, Reserved, Enqueued(sh), Submitted(|sh.results|))
  {
    var n, sh' := |sh.results|, Enqueued(sh);
    assert n !in sh.queue;
    assert multiset(sh'.queue) == multiset(sh.queue) + multiset{n};
    assert forall j: JobId :: j < n ==> sh'.results[j] == sh.results[j];
  }

  lemma TakeKeepsJobs(sh: Shared)
    requires Fit(sh, Ready) && sh.queue != []
    ensures JobsKept(sh, Ready, Dequeued(sh), Handling(sh.queue[0]))
  {
    var sh', a' := Dequeued(sh), Handling(sh.queue[0]);
    DequeueSplits(sh.queue);
    assert forall k :: 0 <= k < |sh'.queue| ==> sh'.queue[k] == sh.queue[k + 1];
    assert sh.queue[0] < |sh.results|;
  }

  lemma CountsKeptByActor(s: State, a: Actor, move: Move)
    requires Fit(s.shared, a) && ActorStep(s, a, move).Some?
    ensures var (sh', a') := ActorStep(s, a, move).value; SlotsAndCountsKept(s.shared, a, sh', a')
  {
    var sh := s.shared;
    var (sh', a') := ActorStep(s, a, move).value;
    forall o
      ensures Surplus(sh', a', o) == Surplus(sh, a, o)
    {
      match move
      case Submit => ResultsAppend(sh.results, |sh.results|, Empty, o);
      case Receive(_) => ResultSet(sh.results, a.job, sh'.results[a.job], o);
      case Send => ResultSet(sh.results, a.job, sh'.results[a.job], o);
      case _ =>
    }
  }

  lemma KeptByDrain(s: State, move: Move)
    requires Fit(s.shared, s.drain) && DrainStep(s, move).Some?
    ensures var (sh', a') := DrainStep(s, move).value;
            JobsKept(s.shared, s.drain, sh', a') && SlotsAndCountsKept(s.shared, s.drain, sh', a')
  {
    if move.Take? || move.Send? || move.Free? {
      JobsKeptByActor(s, s.drain, move);
      CountsKeptByActor(s, s.drain, move);
    }
  }

  // ---------- every step keeps the invariant ----------

  /** The totals of all the goroutines but one that weighs w. */
  lemma Others(s: State, i: nat, a: Actor, t: Trait)
    requires i < |s.actors|
    ensures Total(s.(actors := s.actors[i := a]), t) == Total(s, t) - Weight(s.actors[i], t) + Weight(a, t)
    ensures Total(s, t) >= Weight(s.actors[i], t)
  {
    WeightChanges(s.actors, |s.actors|, i, a, t);
    WeightAtLeast(s.actors, |s.actors|, i, t);
  }

  /** A change of the shared part that one goroutine's change of weight makes up for. */
  ghost predicate Moved(s: State, s': State, a: Actor, a': Actor) {
    forall t :: Total(s', t) == Total(s, t) - Weight(a, t) + Weight(a', t)
  }

  lemma FitsIn(s: State, a: Actor)
    requires Inv(s) && JobKnown(a, |s.shared.results|)
    requires forall t :: Total(s, t) >= Weight(a, t)
    ensures Fit(s.shared, a)
  {
    if a.Counted? {
      assert JobInOnePlace(s, a.job) && Total(s, HoldsJob(a.job)) >= Weight(a, HoldsJob(a.job)) == 1;
    }
  }

  lemma {:induction false} UnknownWeighsNothing(s: State, n: nat, j: JobId)
    requires n <= |s.actors| && JobsKnown(s) && j >= |s.shared.results|
    ensures WeightUpTo(s.actors, n, HoldsJob(j)) == WeightUpTo(s.actors, n, Awaits(j)) == 0
  {
    if n > 0 { UnknownWeighsNothing(s, n - 1, j); }
  }

  lemma JobsStay(s: State, s': State, a: Actor, a': Actor)
    requires Inv(s) && Moved(s, s', a, a') && JobKnown(a, |s.shared.results|)
    requires JobsKept(s.shared, a, s'.shared, a')
    ensures forall j: JobId :: j < |s'.shared.results| ==> JobInOnePlace(s', j) && OneReader(s', j)
  {
    forall j: JobId | j < |s'.shared.results|
      ensures JobInOnePlace(s', j) && OneReader(s', j)
    {
      if j < |s.shared.results| { OldJobStays(s, s', a, a', j); } else { NewJobStays(s, s', a, a', j); }
    }
  }

  lemma OldJobStays(s: State, s': State, a: Actor, a': Actor, j: JobId)
    requires j < |s.shared.results| && JobInOnePlace(s, j) && OneReader(s, j)
    requires Moved(s, s', a, a') && JobsKept(s.shared, a, s'.shared, a')
    ensures j < |s'.shared.results| && JobInOnePlace(s', j) && OneReader(s', j)
  {
    assert Total(s', HoldsJob(j)) == Total(s, HoldsJob(j)) - Weight(a, HoldsJob(j)) + Weight(a', HoldsJob(j));
    assert Total(s', Awaits(j)) == Total(s, Awaits(j)) - Weight(a, Awaits(j)) + Weight(a', Awaits(j));
    assert Places(s'.shared, a', j) == Places(s.shared, a, j);
    assert Readers(s'.shared, a', j) <= Readers(s.shared, a, j);
  }

  lemma NewJobStays(s: State, s': State, a: Actor, a': Actor, j: JobId)
    requires |s.shared.results| <= j < |s'.shared.results| && JobsKnown(s) && JobKnown(a, |s.shared.results|)
    requires Moved(s, s', a, a') && JobsKept(s.shared, a, s'.shared, a')
    ensures JobInOnePlace(s', j) && OneReader(s', j)
  {
    UnknownWeighsNothing(s, |s.actors|, j);
    assert Total(s', HoldsJob(j)) == Total(s, HoldsJob(j)) - Weight(a, HoldsJob(j)) + Weight(a', HoldsJob(j));
    assert Total(s', Awaits(j)) == Total(s, Awaits(j)) - Weight(a, Awaits(j)) + Weight(a', Awaits(j));
    assert Places(s'.shared, a', j) == 1 == Readers(s'.shared, a', j);
  }

  lemma CountsStay(s: State, s': State, a: Actor, a': Actor)
    requires Inv(s) && Moved(s, s', a, a') && SlotsAndCountsKept(s.shared, a, s'.shared, a')
    ensures SlotsBalance(s') && CountsBalance(s')
  {
    var sh, sh' := s.shared, s'.shared;
    forall o
      ensures CountOf(sh'.counts, o) == ResultsUpTo(sh'.results, |sh'.results|, o) + Total(s', Unsent(o))
    {
      assert Surplus(sh', a', o) == Surplus(sh, a, o);
      assert Total(s', Unsent(o)) == Total(s, Unsent(o)) - Weight(a, Unsent(o)) + Weight(a', Unsent(o));
    }
  }

  lemma ActKeepsInv(s: State, i: nat, move: Move)
    requires Inv(s) && Step(s, Act(i, move)).Some?
    ensures Inv(Step(s, Act(i, move)).value)
  {
    var s', a := Step(s, Act(i, move)).value, s.actors[i];
    var a' := s'.actors[i];
    forall t
      ensures Total(s', t) == Total(s, t) - Weight(a, t) + Weight(a', t) && Total(s, t) >= Weight(a, t)
    {
      Others(s, i, a', t);
    }
    FitsIn(s, a);
    JobsKeptByActor(s, a, move);
    CountsKeptByActor(s, a, move);
    JobsStay(s, s', a, a');
    CountsStay(s, s', a, a');
  }

  lemma DrainKeepsInv(s: State, move: Move)
    requires Inv(s) && Step(s, Drain(move)).Some?
    ensures Inv(Step(s, Drain(move)).value)
  {
    var s' := Step(s, Drain(move)).value;
    assert forall t :: Total(s', t) == Total(s, t) - Weight(s.drain, t) + Weight(s'.drain, t);
    FitsIn(s, s.drain);
    KeptByDrain(s, move);
    JobsStay(s, s', s.drain, s'.drain);
    CountsStay(s, s', s.drain, s'.drain);
  }

  lemma SameTotals(s: State, s': State)
    requires Inv(s) && s'.shared == s.shared && forall t :: Total(s', t) == Total(s, t)
    ensures SlotsBalance(s') && CountsBalance(s')
    ensures forall j: JobId :: j < |s'.shared.results| ==> JobInOnePlace(s', j) && OneReader(s', j)
  {
    forall j: JobId | j < |s'.shared.results|
      ensures JobInOnePlace(s', j) && OneReader(s', j)
    {
      assert JobInOnePlace(s, j) && OneReader(s, j);
    }
  }

  lemma StepKeepsInv(s: State, action: Action)
    requires Inv(s) && Step(s, action).Some?
    ensures Inv(Step(s, action).value)
  {
    var s' := Step(s, action).value;
    match action
    case Act(i, move) => ActKeepsInv(s, i, move);
    case Drain(move) => DrainKeepsInv(s, move);
    case Connect =>
      forall t ensures Total(s', t) == Total(s, t) {
        WeightAppends(s.actors, |s.actors|, Idle, t);
      }
      SameTotals(s, s');
    case _ =>
      assert forall t :: Total(s', t) == Total(s, t);
      SameTotals(s, s');
  }

  lemma InitialInv(s: State)
    requires Initial(s)
    ensures Inv(s)
  {
    forall t ensures Total(s, t) == 0 { NobodyWeighs(s.actors, |s.actors|, t); }
  }

  lemma {:induction false} RunKeepsInv(states: seq<State>, i: nat)
    requires Run(states) && i < |states|
    ensures Inv(states[i])
  {
    if i == 0 {
      InitialInv(states[0]);
    } else {
      RunKeepsInv(states, i - 1);
      var action :| Step(states[i - 1], action) == Some(states[i - 1 + 1]);
      StepKeepsInv(states[i - 1], action);
    }
  }

  // ---------- what the invariant gives ----------

  lemma HolderCounts(s: State, i: nat)
    requires Inv(s) && i < |s.actors| && Weight(s.actors[i], HoldsSlot) == 1
    ensures s.shared.free + |s.shared.queue| < s.shared.size
  {
    WeightAtLeast(s.actors, |s.actors|, i, HoldsSlot);
  }

  /**
    A session that reserved a slot finds room in the queue, so its submission is refused only
    because its context ended; whoever returns a slot finds room in the channel of free slots;
    and the number in flight that is reported is exactly the slots taken, never negative.
   */
  lemma SlotHoldersNeverBlock(states: seq<State>, i: nat, who: nat)
    requires Run(states) && i < |states|
    ensures var s := states[i];
            && 0 <= s.shared.size - s.shared.free == |s.shared.queue| + Total(s, HoldsSlot)
            && (who < |s.actors| && s.actors[who].Reserved? ==>
                  && |s.shared.queue| < s.shared.size
                  && Step(s, Act(who, Submit)).Some?
                  && forall refused, closing :: Step(s, Act(who, Release(refused, closing))).Some?)
            && (who < |s.actors| && s.actors[who].Sent? ==> Step(s, Act(who, Free)).Some?)
            && (s.drain.Sent? ==> Step(s, Drain(Free)).Some?)
  {
    RunKeepsInv(states, i);
    var s := states[i];
    if who < |s.actors| && Weight(s.actors[who], HoldsSlot) == 1 { HolderCounts(s, who); }
  }

  /**
    A result is always sent into an empty channel, so that it becomes the job's one result; and a
    session that still waits for a job has not been overtaken by another reader.
   */
  lemma NoResultIsDropped(states: seq<State>, i: nat, who: nat)
    requires Run(states) && i < |states| && who < |states[i].actors|
    ensures var s, a := states[i], states[i].actors[who];
            && (a.Counted? ==>
                  && a.job < |s.shared.results| && s.shared.results[a.job].Empty?
                  && Step(s, Act(who, Send)).Some?
                  && Step(s, Act(who, Send)).value.shared.results[a.job] == Filled(a.outcome))
            && (a.Waiting? ==> a.job < |s.shared.results| && !s.shared.results[a.job].Taken?)
  {
    RunKeepsInv(states, i);
    var s, a := states[i], states[i].actors[who];
    if a.Counted? || a.Waiting? {
      assert JobKnown(a, |s.shared.results|);
      assert JobInOnePlace(s, a.job) && OneReader(s, a.job);
      WeightAtLeast(s.actors, |s.actors|, who, HoldsJob(a.job));
      WeightAtLeast(s.actors, |s.actors|, who, Awaits(a.job));
    }
  }

  /**
    When the shutdown goroutine is done, every slot is free, every job that was ever submitted has
    its result, and the counters add up, outcome by outcome.
   */
  lemma ShutdownSettlesEverything(states: seq<State>, i: nat)
    requires Run(states) && i < |states| && states[i].drain.Exited?
    ensures var sh := states[i].shared;
            && sh.free == sh.size && sh.queue == []
            && (forall j :: 0 <= j < |sh.results| ==> !sh.results[j].Empty?)
            && sh.counts.submitted == |sh.results| == sh.counts.delivered + sh.counts.temp + sh.counts.perm
            && (forall o :: CountOf(sh.counts, o) == ResultsUpTo(sh.results, |sh.results|, o))
  {
    RunKeepsInv(states, i);
    var s := states[i];
    forall t
      ensures Total(s, t) == 0
    {
      NobodyWeighs(s.actors, |s.actors|, t);
    }
    forall j: JobId | j < |s.shared.results|
      ensures !s.shared.results[j].Empty?
    {
      assert JobInOnePlace(s, j);
    }
  }

  lemma {:induction false} SomebodyWeighs(actors: seq<Actor>, n: nat, t: Trait) returns (who: nat)
    requires n <= |actors| && WeightUpTo(actors, n, t) > 0
    ensures who < n && Weight(actors[who], t) == 1
  {
    who := n - 1;
    if Weight(actors[who], t) == 0 { who := SomebodyWeighs(actors, n - 1, t); }
  }

  /** The job is in the queue, or with somebody who has not sent its result. */
  ghost predicate OnItsWay(s: State, j: JobId) {
    j in s.shared.queue || Weight(s.drain, HoldsJob(j)) == 1
    || exists who :: 0 <= who < |s.actors| && Weight(s.actors[who], HoldsJob(j)) == 1
  }

  lemma UnansweredIsOnItsWay(s: State, j: JobId)
    requires Inv(s) && j < |s.shared.results| && s.shared.results[j].Empty?
    ensures OnItsWay(s, j)
  {
    assert JobInOnePlace(s, j);
    if j !in s.shared.queue && Weight(s.drain, HoldsJob(j)) == 0 {
      var who := SomebodyWeighs(s.actors, |s.actors|, HoldsJob(j));
    }
  }

  predicate Enabled(s: State, who: nat, move: Move) {
    Step(s, Act(who, move)).Some?
  }

  /**
    In every run nobody is stuck: a session or worker can go on at once, unless it is a session whose job
    is still in the queue or in somebody's hands and whose context has not ended, or a worker with nothing
    in the queue before the shutdown. A session whose job was answered receives that very answer.
   */
  lemma NobodyIsStuck(states: seq<State>, i: nat, who: nat)
    requires Run(states) && i < |states| && who < |states[i].actors|
    ensures var s, a := states[i], states[i].actors[who];
            match a
            case Idle => Enabled(s, who, Acquire) && Enabled(s, who, Close)
            case Reserved => Enabled(s, who, Submit) && forall refused, closing :: Enabled(s, who, Release(refused, closing))
            case Submitted(_) => Enabled(s, who, Record)
            case Waiting(j) =>
              && j < |s.shared.results|
              && (ContextDone(s, j) ==> forall closing :: Enabled(s, who, TimeOut(closing)))
              && (match s.shared.results[j]
                  case Empty => OnItsWay(s, j)
                  case Filled(o) =>
                    forall closing :: Enabled(s, who, Receive(closing))
                                      && Step(s, Act(who, Receive(closing))).value.shared.results == s.shared.results[j := Taken(o)]
                  case Taken(_) => false)
            case Ready => (s.shared.queue != [] ==> Enabled(s, who, Take)) && (s.cancelled ==> Enabled(s, who, Exit))
            case Handling(_) => Enabled(s, who, Check)
            case Storing(_) => forall o :: Enabled(s, who, Finish(o))
            case Counted(_, _) => Enabled(s, who, Send)
            case Sent => Enabled(s, who, Free)
            case _ => Finished(a)
  {
    RunKeepsInv(states, i);
    NoResultIsDropped(states, i, who);
    SlotHoldersNeverBlock(states, i, who);
    var s, a := states[i], states[i].actors[who];
    if a.Waiting? && s.shared.results[a.job].Empty? { UnansweredIsOnItsWay(s, a.job); }
  }

  /** The jobs that were answered with this outcome. */
  function AnsweredWith(results: seq<Channel>, n: nat, o: Outcome): set<JobId>
    requires n <= |results|
  {
    set j: JobId | j < n && (results[j] == Filled(o) || results[j] == Taken(o))
  }

  lemma {:induction false} ResultsAreCardinality(results: seq<Channel>, n: nat, o: Outcome)
    requires n <= |results|
    ensures ResultsUpTo(results, n, o) == |AnsweredWith(results, n, o)|
  {
    if n > 0 {
      ResultsAreCardinality(results, n - 1, o);
      var before, c := AnsweredWith(results, n - 1, o), results[n - 1];
      assert AnsweredWith(results, n, o) == if c == Filled(o) || c == Taken(o) then before + {n - 1} else before;
    }
  }

  /** So then each of the three counters is the number of the jobs that were answered so. */
  lemma CountersAreAnswers(states: seq<State>, i: nat)
    requires Run(states) && i < |states| && states[i].drain.Exited?
    ensures var sh := states[i].shared;
            && sh.counts.submitted == |sh.results|
            && sh.counts.delivered == |AnsweredWith(sh.results, |sh.results|, Delivered)|
            && sh.counts.temp == |AnsweredWith(sh.results, |sh.results|, TempFailed)|
            && sh.counts.perm == |AnsweredWith(sh.results, |sh.results|, PermFailed)|
  {
    ShutdownSettlesEverything(states, i);
    var sh := states[i].shared;
    ResultsAreCardinality(sh.results, |sh.results|, Delivered);
    ResultsAreCardinality(sh.results, |sh.results|, TempFailed);
    ResultsAreCardinality(sh.results, |sh.results|, PermFailed);
    assert CountOf(sh.counts, Delivered) == ResultsUpTo(sh.results, |sh.results|, Delivered);
    assert CountOf(sh.counts, TempFailed) == ResultsUpTo(sh.results, |sh.results|, TempFailed);
    assert CountOf(sh.counts, PermFailed) == ResultsUpTo(sh.results, |sh.results|, PermFailed);
  }

  // ---------- the drain loop ----------

  /** One turn of the loop: the first queued job is counted, answered, and its slot freed. */
  function Turn(sh: Shared): Shared
    requires sh.queue != [] && sh.queue[0] < |sh.results|
  {
    Freeing(Sending(Counting(Cancelling(Dequeued(sh)), TempFailed), sh.queue[0], TempFailed))
  }

  ghost predicate QueueKnown(sh: Shared) {
    forall k :: 0 <= k < |sh.queue| ==> sh.queue[k] < |sh.results|
  }

  function Drained(sh: Shared): Shared
    requires QueueKnown(sh)
    decreases |sh.queue|
  {
    if sh.queue == [] then sh
    else
      assert forall k :: 0 <= k < |sh.queue| - 1 ==> sh.queue[1..][k] == sh.queue[k + 1];
      Drained(Turn(sh))
  }

  lemma DrainedTurn(sh: Shared)
    requires QueueKnown(sh) && sh.queue != []
    ensures QueueKnown(Turn(sh)) && Drained(sh) == Drained(Turn(sh))
  {
    assert forall k :: 0 <= k < |sh.queue| - 1 ==> sh.queue[1..][k] == sh.queue[k + 1];
  }

  function Then(s: Option<State>, action: Action): Option<State> {
    match s
    case None => None
    case Some(s') => Step(s', action)
  }

  function FourSteps(s: State): Option<State> {
    Then(Then(Then(Step(s, Drain(Take)), Drain(Finish(TempFailed))), Drain(Send)), Drain(Free))
  }

  /** A turn is four steps of the shutdown goroutine, none of which can block. */
  lemma TurnIsFourSteps(s: State)
    requires Inv(s) && s.drain == Ready && s.shared.queue != []
    ensures QueueKnown(s.shared) && FourSteps(s) == Some(s.(shared := Turn(s.shared)))
  {
    assert s.shared.free < s.shared.size by { assert SlotsBalance(s); }
    var j := s.shared.queue[0];
    var counted := s.(shared := Counting(Cancelling(Dequeued(s.shared)), TempFailed), drain := Counted(j, TempFailed));
    TakesAndCounts(s, counted, j);
    DrainSendsAndFrees(s, counted, j);
  }

  lemma TakesAndCounts(s: State, counted: State, j: JobId)
    requires s.drain == Ready && s.shared.queue != [] && s.shared.queue[0] == j
    requires counted == s.(shared := Counting(Cancelling(Dequeued(s.shared)), TempFailed), drain := Counted(j, TempFailed))
    ensures Then(Step(s, Drain(Take)), Drain(Finish(TempFailed))) == Some(counted)
  {
    var taken := s.(shared := Dequeued(s.shared), drain := Handling(j));
    assert Step(s, Drain(Take)) == Some(taken);
  }

  lemma DrainSendsAndFrees(s: State, counted: State, j: JobId)
    requires s.drain == Ready && counted.drain == Counted(j, TempFailed) && j < |counted.shared.results|
    requires counted.shared.free < counted.shared.size
    requires counted == s.(shared := counted.shared, drain := counted.drain)
    ensures Then(Step(counted, Drain(Send)), Drain(Free))
            == Some(s.(shared := Freeing(Sending(counted.shared, j, TempFailed))))
  {
    var sent := counted.(shared := Sending(counted.shared, j, TempFailed), drain := Sent);
    assert Step(counted, Drain(Send)) == Some(sent);
  }

  lemma FourStepsKeepInv(s: State)
    requires Inv(s) && FourSteps(s).Some?
    ensures Inv(FourSteps(s).value)
  {
    var s1 := Step(s, Drain(Take));
    var s2 := Then(s1, Drain(Finish(TempFailed)));
    var s3 := Then(s2, Drain(Send));
    StepKeepsInv(s, Drain(Take));
    StepKeepsInv(s1.value, Drain(Finish(TempFailed)));
    StepKeepsInv(s2.value, Drain(Send));
    StepKeepsInv(s3.value, Drain(Free));
  }

  /**
    The loop answers exactly the queued jobs that have no result, counts each queued job once as
    cancelled and once as temporarily failed, and frees as many slots.
   */
  lemma {:induction false} DrainedExactly(sh: Shared)
    requires QueueKnown(sh)
    ensures var n, after := |sh.queue|, Drained(sh);
            && after.queue == [] && after.free == sh.free + n && after.size == sh.size
            && |after.results| == |sh.results|
            && (forall j :: 0 <= j < |sh.results| ==>
                  after.results[j] == if j in sh.queue && sh.results[j].Empty? then Filled(TempFailed) else sh.results[j])
            && after.counts == sh.counts.(cancelled := sh.counts.cancelled + n, temp := sh.counts.temp + n)
    decreases |sh.queue|
  {
    if sh.queue != [] {
      assert forall k :: 0 <= k < |sh.queue| - 1 ==> sh.queue[1..][k] == sh.queue[k + 1];
      assert sh.queue == [sh.queue[0]] + sh.queue[1..];
      DrainedExactly(Turn(sh));
    }
  }

  lemma {:induction false} DrainKeepsInvariant(s: State)
    requires Inv(s) && s.drain == Ready
    ensures Inv(s.(shared := Drained(s.shared)))
    ensures Drained(s.shared).free == s.shared.size
    decreases |s.shared.queue|
  {
    if s.shared.queue != [] {
      TurnIsFourSteps(s);
      FourStepsKeepInv(s);
      DrainKeepsInvariant(s.(shared := Turn(s.shared)));
    } else {
      assert forall t :: Total(s, t) == 0 by {
        forall t ensures Total(s, t) == 0 { NobodyWeighs(s.actors, |s.actors|, t); }
      }
    }
  }

  // ---------- a worker's handling of a job ----------

  /** The four steps after the job is dequeued: the check, the insertion, the result, the slot. */
  function Handled(s: State, who: nat, stored: Outcome): Option<State> {
    var checked := Step(s, Act(who, Check));
    var counted := if checked.Some? && who < |checked.value.actors| && checked.value.actors[who].Storing?
                   then Then(checked, Act(who, Finish(stored))) else checked;
    Then(Then(counted, Act(who, Send)), Act(who, Free))
  }

  /** A job whose context has ended fails temporarily. */
  function OutcomeOf(s: State, j: JobId, stored: Outcome): Outcome {
    if ContextDone(s, j) then TempFailed else stored
  }

  /** The shared part and the worker afterwards. */
  function HandledState(s: State, who: nat, j: JobId, stored: Outcome): State
    requires who < |s.actors| && j < |s.shared.results|
  {
    var o := OutcomeOf(s, j, stored);
    s.(shared := Freeing(Sending(Counting(s.shared, o), j, o)), actors := s.actors[who := Ready])
  }

  lemma HandlesWithoutBlocking(s: State, who: nat, j: JobId, stored: Outcome)
    requires Inv(s) && who < |s.actors| && s.actors[who] == Handling(j)
    ensures j < |s.shared.results| && s.shared.results[j].Empty? && s.shared.free < s.shared.size
    ensures Handled(s, who, stored) == Some(HandledState(s, who, j, stored))
  {
    HolderCounts(s, who);
    assert JobKnown(s.actors[who], |s.shared.results|) && JobInOnePlace(s, j);
    WeightAtLeast(s.actors, |s.actors|, who, HoldsJob(j));
    var o := OutcomeOf(s, j, stored);
    var counted := s.(shared := Counting(s.shared, o), actors := s.actors[who := Counted(j, o)]);
    if !ContextDone(s, j) {
      var checked := s.(actors := s.actors[who := Storing(j)]);
      assert Step(s, Act(who, Check)) == Some(checked);
      assert checked.actors[who := Counted(j, stored)] == counted.actors;
      assert Step(checked, Act(who, Finish(stored))) == Some(counted);
    } else {
      assert Step(s, Act(who, Check)) == Some(counted);
    }
    SendsAndFrees(s, counted, who, j, o);
  }

  lemma SendsAndFrees(s: State, counted: State, who: nat, j: JobId, o: Outcome)
    requires who < |s.actors| && j < |s.shared.results| && s.shared.free < s.shared.size
    requires counted == s.(shared := Counting(s.shared, o), actors := s.actors[who := Counted(j, o)])
    ensures Then(Step(counted, Act(who, Send)), Act(who, Free))
            == Some(s.(shared := Freeing(Sending(Counting(s.shared, o), j, o)), actors := s.actors[who := Ready]))
  {
    var sent := counted.(shared := Sending(counted.shared, j, o), actors := s.actors[who := Sent]);
    assert counted.actors[who := Sent] == s.actors[who := Sent];
    assert Step(counted, Act(who, Send)) == Some(sent);
    assert sent.actors[who := Ready] == s.actors[who := Ready];
  }

  lemma HandlingKeepsInv(s: State, who: nat, stored: Outcome)
    requires Inv(s) && Handled(s, who, stored).Some?
    ensures Inv(Handled(s, who, stored).value)
  {
    var s1 := Step(s, Act(who, Check));
    StepKeepsInv(s, Act(who, Check));
    var s2 := if who < |s1.value.actors| && s1.value.actors[who].Storing? then Then(s1, Act(who, Finish(stored))) else s1;
    if s2 != s1 { StepKeepsInv(s1.value, Act(who, Finish(stored))); }
    var s3 := Then(s2, Act(who, Send));
    StepKeepsInv(s2.value, Act(who, Send));
    StepKeepsInv(s3.value, Act(who, Free));
  }

  lemma AcquiringKeepsInv(s: State, who: nat)
    requires Inv(s) && who < |s.actors| && s.actors[who] == Idle
    ensures Step(s, Act(who, Acquire)).Some? && Inv(Step(s, Act(who, Acquire)).value)
  {
    StepKeepsInv(s, Act(who, Acquire));
  }

  lemma QueuedAreUnanswered(s: State)
    requires Inv(s)
    ensures forall j :: j in s.shared.queue ==> j < |s.shared.results| && s.shared.results[j] == Empty
  {
    forall j: JobId | j in s.shared.queue
      ensures j < |s.shared.results| && s.shared.results[j] == Empty
    {
      assert JobInOnePlace(s, j);
      assert multiset(s.shared.queue)[j] >= 1;
    }
  }

  // ---------- the server ----------

  /** The server's fields, with the state of the whole pipeline beside them. */
  class Server {
    const size: nat
    var slots: nat            // the length of the channel of free slots
    var jobs: seq<JobId>
    var results: seq<Channel>
    var counts: Counts
    ghost var machine: State

    ghost function Fields(): Shared
      reads this
    {
      Shared(size, slots, jobs, results, counts)
    }

    ghost predicate Valid()
      reads this
    {
      Inv(machine) && machine.shared == Fields()
    }

    /** A queue size that is not positive becomes 2048; the loop fills the channel of free slots. */
    constructor (queueSize: int, ghost workers: nat)
      ensures Valid() && Initial(machine) && |machine.actors| == workers
      ensures size == if queueSize <= 0 then 2048 else queueSize
    {
      size := if queueSize <= 0 then 2048 else queueSize;
      slots, jobs, results, counts := 0, [], [], NO_COUNTS;
      new;
      var i := 0;
      while i < size
        invariant i <= size && Fields() == Shared(size, i, [], [], NO_COUNTS)
      {
        slots := slots + 1;
        i := i + 1;
      }
      machine := State(Fields(), seq(workers, _ => Ready), Idle, true, false, {});
      InitialInv(machine);
    }

    method AcquireSlot() returns (ok: bool)
      modifies this`slots
      ensures ok == (old(slots) > 0) && slots == if ok then old(slots) - 1 else old(slots)
    {
      ok := slots > 0;
      if ok { slots := slots - 1; }
    }

    /** An idle session's attempt to reserve a slot: it holds one afterwards, or the attempt is counted as refused. */
    method ReserveSlot(ghost who: nat) returns (ok: bool)
      requires Valid() && who < |machine.actors| && machine.actors[who] == Idle
      modifies this
      ensures Valid() && Step(old(machine), Act(who, Acquire)) == Some(machine)
      ensures machine.actors[who] == if ok then Reserved else Idle
      ensures ok ==> |jobs| < size
      ensures jobs == old(jobs) && results == old(results)
      ensures if old(slots) > 0 then ok && slots == old(slots) - 1 && counts == old(counts)
              else !ok && slots == 0 && counts == old(counts).(queueFull := old(counts).queueFull + 1)
    {
      AcquiringKeepsInv(machine, who);
      ok := AcquireSlot();
      if !ok { counts := counts.(queueFull := counts.queueFull + 1); }
      machine := Step(machine, Act(who, Acquire)).value;
      if ok { HolderCounts(machine, who); }
    }

    method SendJobResult(j: JobId, o: Outcome)
      requires j < |results|
      modifies this`results
      ensures Fields() == Sending(old(Fields()), j, o)
    {
      if results[j].Empty? { results := results[j := Filled(o)]; }
    }

    /**
      What a worker does with a job that it took; `failed` says that the insertion erred, and `delivered`
      what it reported otherwise. The job gets its one result, the outcome is counted, and the slot is
      returned without blocking.
     */
    method HandleJob(ghost who: nat, j: JobId, contextDone: bool, failed: bool, delivered: bool)
      requires Valid() && who < |machine.actors| && machine.actors[who] == Handling(j)
      requires contextDone == ContextDone(machine, j)
      modifies this
      ensures Valid() && who < |machine.actors| && machine.actors[who] == Ready
      ensures Some(machine) == Handled(old(machine), who, if failed then TempFailed else if delivered then Delivered else PermFailed)
      ensures slots == old(slots) + 1 && jobs == old(jobs) && j < |results| && old(results)[j] == Empty
      ensures contextDone || failed ==>
                results == old(results)[j := Filled(TempFailed)] && counts == old(counts).(temp := old(counts).temp + 1)
      ensures !contextDone && !failed && delivered ==>
                results == old(results)[j := Filled(Delivered)] && counts == old(counts).(delivered := old(counts).delivered + 1)
      ensures !contextDone && !failed && !delivered ==>
                results == old(results)[j := Filled(PermFailed)] && counts == old(counts).(perm := old(counts).perm + 1)
    {
      ghost var stored := if failed then TempFailed else if delivered then Delivered else PermFailed;
      HandlesWithoutBlocking(machine, who, j, stored);
      HandlingKeepsInv(machine, who, stored);
      var o := Delivered;
      if contextDone || failed {
        o := TempFailed;
      } else if !delivered {
        o := PermFailed;
      }
      counts := CountOne(counts, o);
      SendJobResult(j, o);
      slots := slots + 1;
      machine := HandledState(machine, who, j, stored);
    }

    method DrainLoop()
      requires QueueKnown(Fields())
      modifies this`slots, this`jobs, this`results, this`counts
      ensures jobs == [] && Fields() == Drained(old(Fields()))
    {
      ghost var start := Fields();
      while jobs != []
        invariant QueueKnown(Fields()) && Drained(Fields()) == Drained(start)
        decreases |jobs|
      {
        ghost var before := Fields();
        DrainedTurn(before);
        var job := jobs[0];
        jobs := jobs[1..];
        counts := counts.(cancelled := counts.cancelled + 1);
        counts := counts.(temp := counts.temp + 1);
        SendJobResult(job, TempFailed);
        slots := slots + 1;
        assert Fields() == Turn(before);
      }
    }

    /** The shutdown goroutine's loop: it empties the queue, answers what was in it and frees every slot. */
    method DrainQueuedJobs()
      requires Valid() && machine.drain == Ready
      modifies this
      ensures Valid() && jobs == [] && slots == size
      ensures QueueKnown(old(Fields())) && Fields() == Drained(old(Fields()))
      ensures machine == old(machine).(shared := Fields())
      ensures |results| == |old(results)|
      ensures forall j :: 0 <= j < |results| ==>
                results[j] == if j in old(jobs) then Filled(TempFailed) else old(results)[j]
      ensures forall j :: j in old(jobs) ==> j < |results| && old(results)[j] == Empty
      ensures counts == old(counts).(cancelled := old(counts).cancelled + |old(jobs)|, temp := old(counts).temp + |old(jobs)|)
    {
      ghost var start := machine;
      DrainKeepsInvariant(start);
      QueuedAreUnanswered(start);
      DrainLoop();
      DrainedExactly(start.shared);
      machine := start.(shared := Fields());
    }
  }
}
