/**
  The recorder of API requests: handlers offer events to a bounded queue, and one goroutine moves
  them to a batch of at most 256 that it keeps until a transaction has stored it.

  The recorder is a state machine in which handlers may offer events between any two operations of
  the goroutine; the class at the end has the same operations as methods.
 */
module UsageRecorder {
  import opened Options

  /** `request` stands for method, route, status, latency, request id and time. */
  datatype Event = Event(token: nat, request: nat, countsUsage: bool)

  const BATCH := 256

  /** Where the goroutine is. */
  datatype Phase =
    | Selecting
    | Full        // received the event that fills the batch, flushes next
    | Stopping    // at the top of the loop that follows the stop signal
    | Taking      // about to look at the queue in that loop
    | LastFlush   // found the queue empty
    | Done

  /**
    `accepted` is every event that entered the queue, and `stored` every event that a transaction
    committed, in order. `seen` is the number of events accepted when the stopping goroutine
    looked at the queue for the last time.
   */
  datatype State = State(capacity: nat, queue: seq<Event>, pending: seq<Event>, phase: Phase, retryAfter: int,
                         counts: Counts, accepted: seq<Event>, stored: seq<Event>, seen: nat)

  datatype Counts = Counts(enqueued: nat, dropped: nat, fallbacks: nat, flushes: nat, flushErrors: nat,
                           flushed: nat, failed: nat)

  /** One call of the store: the time before it, the time after it, and whether it fails. */
  datatype Call = Call(now: int, later: int, fails: bool)

  datatype Action =
    | Offer(event: Event)
    | Receive
    | FlushFull(call: Call)
    | Tick(call: Call)
    | Stop
    | StopLoop(call: Call)
    | StopReceive
    | FinalFlush(call: Call)

  // ---------- the operations ----------

  /** The handler's side: a full queue drops the event, and counts its usage directly if it must be counted. */
  function Offered(s: State, e: Event): State {
    var c := s.counts;
    if |s.queue| < s.capacity
    then s.(queue := s.queue + [e], accepted := s.accepted + [e], counts := c.(enqueued := c.enqueued + 1))
    else s.(counts := c.(dropped := c.dropped + 1, fallbacks := c.fallbacks + if e.countsUsage then 1 else 0))
  }

  function Received(s: State): State
    requires s.queue != []
  {
    s.(queue := s.queue[1..], pending := s.pending + [s.queue[0]])
  }

  predicate Skipped(s: State, force: bool, call: Call) {
    s.pending == [] || (!force && call.now < s.retryAfter)
  }

  /** A flush that fails keeps the batch and sets the time before which an unforced flush is skipped. */
  function Flushed(s: State, force: bool, call: Call, interval: nat): State {
    var c := s.counts;
    if Skipped(s, force, call) then s
    else if call.fails
    then s.(retryAfter := call.later + interval, counts := c.(flushes := c.flushes + 1, flushErrors := c.flushErrors + 1))
    else s.(stored := s.stored + s.pending, pending := [], retryAfter := 0,
            counts := c.(flushes := c.flushes + 1, flushed := c.flushed + |s.pending|))
  }

  function Failing(s: State, lost: nat): State {
    s.(phase := Done, counts := s.counts.(failed := s.counts.failed + lost))
  }

  /** None when the operation is not the goroutine's next one. */
  function Step(s: State, action: Action, interval: nat): Option<State> {
    match action
    case Offer(e) => Some(Offered(s, e))
    case Receive =>
      if s.phase.Selecting? && |s.pending| < BATCH && s.queue != [] then
        var s' := Received(s);
        Some(s'.(phase := if |s'.pending| >= BATCH then Full else Selecting))
      else None
    case FlushFull(call) => if s.phase.Full? then Some(Flushed(s, false, call, interval).(phase := Selecting)) else None
    case Tick(call) => if s.phase.Selecting? then Some(Flushed(s, false, call, interval)) else None
    case Stop => if s.phase.Selecting? then Some(s.(phase := Stopping)) else None
    case StopLoop(call) =>
      if !s.phase.Stopping? then None
      else if |s.pending| < BATCH then Some(s.(phase := Taking))
      else
        var s' := Flushed(s, true, call, interval);
        if s'.pending == [] then Some(s'.(phase := Taking))
        else Some(Failing(s', |s'.pending| + |s'.queue|).(seen := |s'.accepted|))
    case StopReceive =>
      if !s.phase.Taking? then None
      else if s.queue != [] then Some(Received(s).(phase := Stopping))
      else Some(s.(phase := LastFlush, seen := |s.accepted|))
    case FinalFlush(call) =>
      if !s.phase.LastFlush? then None
      else
        var s' := Flushed(s, true, call, interval);
        if s'.pending == [] then Some(s'.(phase := Done)) else Some(Failing(s', |s'.pending|))
  }

  /** A capacity that is not positive becomes one. */
  function Initial(capacity: int): State {
    State(if capacity < 1 then 1 else capacity, [], [], Selecting, 0, Counts(0, 0, 0, 0, 0, 0, 0), [], [], 0)
  }

  ghost predicate Run(states: seq<State>, interval: nat) {
    && states != [] && (exists capacity :: states[0] == Initial(capacity))
    && forall i :: 0 <= i < |states| - 1 ==> exists action :: Step(states[i], action, interval) == Some(states[i + 1])
  }

  // ---------- nothing is lost, repeated or reordered ----------

  /** Stored, batched and queued events are together the accepted ones, in their order. */
  predicate LogIntact(s: State) {
    s.accepted == s.stored + s.pending + s.queue
  }

  predicate CountsIntact(s: State) {
    && s.counts.enqueued == |s.accepted| && s.counts.flushed == |s.stored|
    && (!s.phase.Done? ==> s.counts.failed == 0)
    && (s.phase.LastFlush? ==> s.seen == |s.stored| + |s.pending|)
    && (s.phase.Done? ==> s.counts.failed + |s.stored| == s.seen <= |s.accepted|)
  }

  predicate Bounded(s: State) {
    && |s.pending| <= BATCH && |s.queue| <= s.capacity
    && (s.phase.Full? ==> |s.pending| == BATCH)
    && (s.phase.Taking? ==> |s.pending| < BATCH)
  }

  predicate Inv(s: State) {
    LogIntact(s) && CountsIntact(s) && Bounded(s)
  }

  lemma ReceiveKeepsLog(s: State)
    requires LogIntact(s) && s.queue != []
    ensures LogIntact(Received(s))
  {
    assert s.queue == [s.queue[0]] + s.queue[1..];
    assert s.stored + s.pending + s.queue == s.stored + (s.pending + [s.queue[0]]) + s.queue[1..];
  }

  lemma FlushKeepsLog(s: State, force: bool, call: Call, interval: nat)
    requires LogIntact(s)
    ensures LogIntact(Flushed(s, force, call, interval))
  {
    assert s.stored + s.pending + [] + s.queue == s.stored + s.pending + s.queue;
  }

  lemma StepKeepsInv(s: State, action: Action, interval: nat)
    requires Inv(s) && Step(s, action, interval).Some?
    ensures Inv(Step(s, action, interval).value)
  {
    match action
    case Offer(e) => OfferKeepsInv(s, e);
    case Receive => ReceiveKeepsLog(s);
    case FlushFull(call) => FlushKeepsInv(s, false, call, interval);
    case Tick(call) => FlushKeepsInv(s, false, call, interval);
    case Stop =>
    case StopLoop(call) => StopLoopKeepsInv(s, call, interval);
    case StopReceive => StopReceiveKeepsInv(s);
    case FinalFlush(call) => FinalFlushKeepsInv(s, call, interval);
  }

  lemma OfferKeepsInv(s: State, e: Event)
    requires Inv(s)
    ensures Inv(Offered(s, e))
  {
    assert s.stored + s.pending + (s.queue + [e]) == s.accepted + [e];
  }

  /** A flush leaves the batch as it is, or stores it all. */
  lemma FlushKeepsInv(s: State, force: bool, call: Call, interval: nat)
    requires Inv(s) && !s.phase.Done?
    ensures var s' := Flushed(s, force, call, interval);
            && LogIntact(s') && CountsIntact(s') && |s'.pending| <= |s.pending|
            && (s'.pending == s.pending || s'.pending == [])
  {
    FlushKeepsLog(s, force, call, interval);
  }

  lemma StopLoopKeepsInv(s: State, call: Call, interval: nat)
    requires Inv(s) && s.phase.Stopping?
    ensures Inv(Step(s, StopLoop(call), interval).value)
  {
    FlushKeepsInv(s, true, call, interval);
  }

  lemma StopReceiveKeepsInv(s: State)
    requires Inv(s) && s.phase.Taking?
    ensures Inv(if s.queue != [] then Received(s).(phase := Stopping) else s.(phase := LastFlush, seen := |s.accepted|))
  {
    if s.queue != [] { ReceiveKeepsLog(s); }
  }

  lemma FinalFlushKeepsInv(s: State, call: Call, interval: nat)
    requires Inv(s) && s.phase.LastFlush?
    ensures Inv(Step(s, FinalFlush(call), interval).value)
  {
    FlushKeepsInv(s, true, call, interval);
  }

  lemma {:induction false} RunKeepsInv(states: seq<State>, interval: nat, i: nat)
    requires Run(states, interval) && i < |states|
    ensures Inv(states[i])
  {
    if i > 0 {
      RunKeepsInv(states, interval, i - 1);
      var action :| Step(states[i - 1], action, interval) == Some(states[i - 1 + 1]);
      StepKeepsInv(states[i - 1], action, interval);
    }
  }

  /**
    At every moment of every run, whichever calls of the store fail: the accepted events are those
    stored, then those in the batch, then those in the queue, each exactly once; the batch never
    exceeds 256; and the counters of enqueued and flushed events are exact.
   */
  lemma NothingIsLost(states: seq<State>, interval: nat, i: nat)
    requires Run(states, interval) && i < |states|
    ensures var s := states[i];
            && s.accepted == s.stored + s.pending + s.queue
            && |s.pending| <= BATCH
            && s.counts.enqueued == |s.accepted| && s.counts.flushed == |s.stored|
  {
    RunKeepsInv(states, interval, i);
  }

  /**
    Once the goroutine has ended, failedEvents is the number of events that were accepted before it
    looked at the queue for the last time and that no transaction stored. They are a suffix of the
    accepted events, so it is all that is not stored when no handler offers events any more.
   */
  lemma FailedIsWhatIsNotStored(states: seq<State>, interval: nat, i: nat)
    requires Run(states, interval) && i < |states| && states[i].phase.Done?
    ensures var s := states[i];
            && |s.stored| <= s.seen <= |s.accepted| && s.stored == s.accepted[..|s.stored|]
            && s.counts.failed == s.seen - |s.stored|
            && (s.seen == |s.accepted| ==> s.counts.failed == |s.accepted[|s.stored|..]|)
  {
    RunKeepsInv(states, interval, i);
    var s := states[i];
    assert (s.stored + (s.pending + s.queue))[..|s.stored|] == s.stored;
    assert s.stored + s.pending + s.queue == s.stored + (s.pending + s.queue);
  }

  /** A handler's late event is the only reason for the count to fall short of what is not stored. */
  lemma LateEventIsNotCounted(s: State, e: Event, interval: nat)
    requires Inv(s) && s.phase.Done? && |s.queue| < s.capacity
    ensures var s' := Step(s, Offer(e), interval).value;
            s'.counts.failed < |s'.accepted| - |s'.stored| && s'.phase.Done?
  {
  }

  // ---------- when a batch is stored ----------

  /** There is a batch, and the flush is forced or the time to wait after a failure is over. */
  predicate Due(s: State, force: bool, call: Call) {
    s.pending != [] && (force || call.now >= s.retryAfter)
  }

  /**
    A flush that is due stores the whole batch behind what is stored already, and nothing keeps the next
    one waiting; if its call fails it keeps the batch, and the next one waits. Otherwise nothing changes.
   */
  predicate FlushesRight(s: State, s': State, force: bool, call: Call, interval: nat) {
    && s'.queue == s.queue && s'.accepted == s.accepted && s'.phase == s.phase && s'.seen == s.seen && s'.capacity == s.capacity
    && (Due(s, force, call) && !call.fails ==>
          && s'.stored == s.stored + s.pending && s'.pending == [] && s'.retryAfter == 0
          && s'.counts == s.counts.(flushes := s.counts.flushes + 1, flushed := s.counts.flushed + |s.pending|))
    && (Due(s, force, call) && call.fails ==>
          && s'.stored == s.stored && s'.pending == s.pending && s'.retryAfter == call.later + interval
          && s'.counts == s.counts.(flushes := s.counts.flushes + 1, flushErrors := s.counts.flushErrors + 1))
    && (!Due(s, force, call) ==> s' == s)
  }

  lemma FlushIsRight(s: State, force: bool, call: Call, interval: nat)
    ensures FlushesRight(s, Flushed(s, force, call, interval), force, call, interval)
  {
  }

  /** The call that the action makes if the recorder is due to make one, and whether it does so unforced. */
  function CallOf(action: Action): Option<(Call, bool)> {
    match action
    case FlushFull(call) => Some((call, false))
    case Tick(call) => Some((call, false))
    case StopLoop(call) => Some((call, true))
    case FinalFlush(call) => Some((call, true))
    case _ => None
  }

  /** In this step a call of the store fails. */
  predicate Fails(s: State, action: Action, s': State, interval: nat) {
    Step(s, action, interval) == Some(s') && CallOf(action).Some? && CallOf(action).value.0.fails
    && s'.counts.flushErrors == s.counts.flushErrors + 1
  }

  /** Only calls of the store change the time to wait for: a success clears it, and a failure sets it. */
  lemma WaitingStep(s: State, action: Action, interval: nat)
    requires Step(s, action, interval).Some?
    ensures var s' := Step(s, action, interval).value;
            && s.stored <= s'.stored && s.counts.flushErrors <= s'.counts.flushErrors <= s.counts.flushErrors + 1
            && (s'.counts.flushErrors == s.counts.flushErrors && s'.stored == s.stored ==> s'.retryAfter == s.retryAfter)
            && (s'.counts.flushErrors == s.counts.flushErrors && s'.stored != s.stored ==> s'.retryAfter == 0)
            && (s'.counts.flushErrors > s.counts.flushErrors ==>
                  && Fails(s, action, s', interval) && s'.retryAfter == CallOf(action).value.0.later + interval && s'.stored == s.stored)
  {
    if CallOf(action).Some? { FlushIsRight(s, CallOf(action).value.1, CallOf(action).value.0, interval); }
  }

  /** The j-th step was a failing call; since then none failed and none succeeded. */
  ghost predicate LastFailure(states: seq<State>, j: nat, i: nat, action: Action, interval: nat) {
    && j < i < |states| && Fails(states[j], action, states[j + 1], interval)
    && states[i].counts.flushErrors == states[j + 1].counts.flushErrors && states[i].stored == states[j].stored
  }

  /** At every moment the time to wait for is nothing, or an interval after the end of the last failed call, with no success since. */
  lemma {:induction false} WaitsForTheLastFailure(states: seq<State>, interval: nat, i: nat) returns (j: nat, action: Action)
    requires Run(states, interval) && i < |states|
    ensures states[i].retryAfter != 0 ==>
              LastFailure(states, j, i, action, interval) && states[i].retryAfter == CallOf(action).value.0.later + interval
  {
    j, action := 0, Stop;
    if i > 0 {
      var before, after := states[i - 1], states[i];
      var last :| Step(states[i - 1], last, interval) == Some(states[i - 1 + 1]);
      WaitingStep(before, last, interval);
      if after.counts.flushErrors > before.counts.flushErrors {
        j, action := i - 1, last;
      } else {
        j, action := WaitsForTheLastFailure(states, interval, i - 1);
      }
    }
  }

  lemma {:induction false} WaitingGoesOn(states: seq<State>, interval: nat, i: nat, j: nat)
    requires Run(states, interval) && i <= j < |states|
    ensures states[i].stored <= states[j].stored && states[i].counts.flushErrors <= states[j].counts.flushErrors
    ensures states[i].stored == states[j].stored && states[i].counts.flushErrors == states[j].counts.flushErrors ==>
              states[i].retryAfter == states[j].retryAfter
    decreases j
  {
    if i < j {
      WaitingGoesOn(states, interval, i, j - 1);
      var action :| Step(states[j - 1], action, interval) == Some(states[j - 1 + 1]);
      WaitingStep(states[j - 1], action, interval);
    }
  }

  /**
    After a failed call of the store, in every run: as long as there is no other call, ticks and full
    batches leave what is stored alone until an interval after its end. From then on the first one, if its
    call succeeds, stores all that is pending.
   */
  lemma RetriesAfterTheInterval(states: seq<State>, interval: nat, j: nat, i: nat, failed: Action, next: Action)
    requires Run(states, interval) && LastFailure(states, j, i, failed, interval)
    requires (next.Tick? || next.FlushFull?) && Step(states[i], next, interval).Some?
    ensures var s, s', again, call := states[i], Step(states[i], next, interval).value, CallOf(failed).value.0.later + interval, next.call;
            && (call.now < again ==> s'.stored == s.stored && s'.pending == s.pending)
            && (call.now >= again && !call.fails ==> s'.stored == s.stored + s.pending && s'.pending == [])
            && (call.now >= again && call.fails ==> s'.stored == s.stored && s'.pending == s.pending)
  {
    WaitingStep(states[j], failed, interval);
    WaitingGoesOn(states, interval, j + 1, i);
    FlushIsRight(states[i], false, next.call, interval);
  }

  /** A recorder with which nothing failed, or nothing since its last success, stores its batch at the first tick that succeeds. */
  lemma TicksStore(states: seq<State>, interval: nat, i: nat, call: Call)
    requires Run(states, interval) && i < |states| && states[i].phase.Selecting? && !call.fails && call.now >= 0
    ensures var s, s' := states[i], Step(states[i], Tick(call), interval).value;
            || (s'.stored == s.stored + s.pending && s'.pending == [])
            || exists j, action :: LastFailure(states, j, i, action, interval) && call.now < CallOf(action).value.0.later + interval
  {
    var j, action := WaitsForTheLastFailure(states, interval, i);
    FlushIsRight(states[i], false, call, interval);
  }

  // ---------- the loop after the stop signal, when no handler offers events any more ----------

  /** A turn of the loop: the steps that Step allows there, one after the other. It makes at most one call. */
  function Turn(s: State, call: Call, interval: nat): State
    requires s.phase.Stopping?
  {
    var top := Step(s, StopLoop(call), interval).value;
    if top.phase.Done? then top
    else
      var looked := Step(top, StopReceive, interval).value;
      if looked.phase.Stopping? then looked else Step(looked, FinalFlush(call), interval).value
  }

  lemma TurnKeepsInv(s: State, call: Call, interval: nat)
    requires Inv(s) && s.phase.Stopping?
    ensures var s' := Turn(s, call, interval);
            && Inv(s') && s'.accepted == s.accepted
            && ((s'.phase.Stopping? && |s'.queue| < |s.queue|) || (s'.phase.Done? && s'.seen == |s'.accepted|))
  {
    var top := Step(s, StopLoop(call), interval).value;
    StepKeepsInv(s, StopLoop(call), interval);
    if !top.phase.Done? {
      var looked := Step(top, StopReceive, interval).value;
      StepKeepsInv(top, StopReceive, interval);
      if looked.phase.LastFlush? { StepKeepsInv(looked, FinalFlush(call), interval); }
    }
  }

  lemma TurnStores(s: State, call: Call, interval: nat)
    requires Inv(s) && s.phase.Stopping?
    ensures var s' := Turn(s, call, interval);
            && s.stored <= s'.stored
            && (call.fails ==> s'.stored == s.stored)
            && (s'.phase.Done? && !call.fails ==> s'.pending == [] == s'.queue)
  {
  }

  /** The loop, whose k-th turn calls the store as call(k). */
  function Closed(s: State, call: nat -> Call, k: nat, interval: nat): State
    requires Inv(s) && s.phase.Stopping?
    decreases |s.queue|
  {
    TurnKeepsInv(s, call(k), interval);
    var s' := Turn(s, call(k), interval);
    if s'.phase.Stopping? then Closed(s', call, k + 1, interval) else s'
  }

  /**
    The loop ends, and what it reports as failed is exactly what it leaves unstored: nothing when
    every call succeeds, and everything that was not stored before when every call fails.
   */
  lemma {:induction false} ClosingIsExact(s: State, call: nat -> Call, k: nat, interval: nat)
    requires Inv(s) && s.phase.Stopping?
    ensures var s' := Closed(s, call, k, interval);
            && Inv(s') && s'.phase.Done? && s'.accepted == s.accepted && s.stored <= s'.stored
            && s'.counts.failed == |s'.accepted| - |s'.stored|
            && ((forall j :: j >= k ==> !call(j).fails) ==> s'.stored == s'.accepted)
            && ((forall j :: j >= k ==> call(j).fails) ==> s'.stored == s.stored)
    decreases |s.queue|
  {
    var s' := Turn(s, call(k), interval);
    TurnKeepsInv(s, call(k), interval);
    TurnStores(s, call(k), interval);
    if s'.phase.Stopping? { ClosingIsExact(s', call, k + 1, interval); }
  }

  // ---------- the recorder ----------

  class APIUsageRecorder {
    const capacity: nat
    const interval: nat
    var queue: seq<Event>
    var pending: seq<Event>
    var phase: Phase
    var retryAfter: int
    var counts: Counts
    ghost var accepted: seq<Event>
    ghost var stored: seq<Event>
    ghost var seen: nat

    ghost function Contents(): State
      reads this
    {
      State(capacity, queue, pending, phase, retryAfter, counts, accepted, stored, seen)
    }

    constructor (queueCapacity: int, flushInterval: int)
      ensures Contents() == Initial(queueCapacity) && Inv(Contents())
      ensures capacity == (if queueCapacity < 1 then 1 else queueCapacity) && queue == pending == [] && retryAfter == 0
      ensures interval == if flushInterval <= 0 then 1000 else flushInterval
    {
      capacity := if queueCapacity < 1 then 1 else queueCapacity;
      interval := if flushInterval <= 0 then 1000 else flushInterval;
      queue, pending, phase, retryAfter := [], [], Selecting, 0;
      counts := Counts(0, 0, 0, 0, 0, 0, 0);
      accepted, stored, seen := [], [], 0;
    }

    /** The middleware's send, which never waits. */
    method Enqueue(e: Event) returns (fallback: bool)
      requires Inv(Contents())
      modifies this
      ensures Inv(Contents()) && Some(Contents()) == Step(old(Contents()), Offer(e), interval)
      ensures fallback == (|old(queue)| == capacity && e.countsUsage)
      ensures pending == old(pending) && stored == old(stored) && phase == old(phase)
      ensures if |old(queue)| < capacity
              then && queue == old(queue) + [e] && accepted == old(accepted) + [e]
                   && counts == old(counts).(enqueued := old(counts).enqueued + 1)
              else && queue == old(queue) && accepted == old(accepted)
                   && counts == old(counts).(dropped := old(counts).dropped + 1, fallbacks := counts.fallbacks)
                   && counts.fallbacks == old(counts).fallbacks + (if e.countsUsage then 1 else 0)
    {
      StepKeepsInv(Contents(), Offer(e), interval);
      fallback := false;
      if |queue| < capacity {
        queue, accepted := queue + [e], accepted + [e];
        counts := counts.(enqueued := counts.enqueued + 1);
      } else {
        counts := counts.(dropped := counts.dropped + 1);
        if e.countsUsage {
          fallback := true;
          counts := counts.(fallbacks := counts.fallbacks + 1);
        }
      }
    }

    /** True when the batch is empty afterwards. */
    method Flush(force: bool, call: Call) returns (empty: bool)
      modifies this
      ensures Contents() == Flushed(old(Contents()), force, call, interval)
      ensures FlushesRight(old(Contents()), Contents(), force, call, interval)
      ensures empty == (pending == [])
    {
      if pending == [] { return true; }
      if !force && call.now < retryAfter { return false; }
      if call.fails {
        counts := counts.(flushErrors := counts.flushErrors + 1);
        retryAfter := call.later + interval;
      } else {
        counts := counts.(flushed := counts.flushed + |pending|);
        stored, pending := stored + pending, [];
        retryAfter := 0;
      }
      counts := counts.(flushes := counts.flushes + 1);
      empty := pending == [];
    }

    /** The goroutine's receive case, with the flush of a batch that it fills. */
    method OnEvent(call: Call)
      requires Inv(Contents()) && phase.Selecting? && |pending| < BATCH && queue != []
      modifies this
      ensures Inv(Contents()) && phase.Selecting?
      ensures var mid := Step(old(Contents()), Receive, interval).value;
              Some(Contents()) == if mid.phase.Full? then Step(mid, FlushFull(call), interval) else Some(mid)
      ensures queue == old(queue)[1..] && stored + pending == old(stored) + old(pending) + [old(queue)[0]]
      ensures stored != old(stored) ==> |old(pending)| == 255 && pending == [] && call.now >= old(retryAfter) && !call.fails
      ensures |old(pending)| == 255 && call.now >= old(retryAfter) && !call.fails ==> pending == []
    {
      StepKeepsInv(Contents(), Receive, interval);
      pending, queue := pending + [queue[0]], queue[1..];
      if |pending| >= BATCH {
        phase := Full;
        StepKeepsInv(Contents(), FlushFull(call), interval);
        var _ := Flush(false, call);
        phase := Selecting;
      }
    }

    /** What follows the stop signal when no handler offers events any more. */
    method Close(call: nat -> Call)
      requires Inv(Contents()) && phase.Selecting?
      modifies this
      ensures Inv(Contents()) && phase.Done? && accepted == old(accepted) && old(stored) <= stored <= accepted
      ensures Contents() == Closed(old(Contents()).(phase := Stopping), call, 0, interval)
      ensures counts.failed == |accepted| - |stored|
      ensures (forall k :: !call(k).fails) ==> stored == accepted
      ensures (forall k :: call(k).fails) ==> stored == old(stored)
    {
      phase := Stopping;
      var k := 0;
      ClosingIsExact(Contents(), call, 0, interval);
      ghost var result := Closed(Contents(), call, 0, interval);
      while phase.Stopping?
        invariant Inv(Contents()) && (phase.Stopping? || phase.Done?)
        invariant result == if phase.Stopping? then Closed(Contents(), call, k, interval) else Contents()
        decreases phase.Stopping?, |queue|
      {
        TurnKeepsInv(Contents(), call(k), interval);
        TakeTurn(call(k));
        k := k + 1;
      }
    }

    /** The body of that loop. */
    method TakeTurn(call: Call)
      requires phase.Stopping?
      modifies this
      ensures Contents() == Turn(old(Contents()), call, interval)
    {
      if |pending| >= BATCH {
        var empty := Flush(true, call);
        if !empty {
          counts := counts.(failed := counts.failed + |pending| + |queue|);
          phase, seen := Done, |accepted|;
          return;
        }
      }
      if queue != [] {
        pending, queue := pending + [queue[0]], queue[1..];
      } else {
        seen := |accepted|;
        var empty := Flush(true, call);
        if !empty { counts := counts.(failed := counts.failed + |pending|); }
        phase := Done;
      }
    }
  }
}
