/**
 The clock of `ConsumeWithDelay`: a consumer that sleeps on the head of a first-in-first-out partition until its
 retry-after time, and only then looks at the next record.
 */
module RetryTiming {
  import opened Domain
  import opened Backoff
  import opened Protocol
  import opened Safety
  import opened Pipeline

  /**
   A record of the retry topic as its consumer meets it: when it can be fetched, by how much the timer overshoots
   if the consumer has to sleep, and how long its handling and its commit take.
   */
  datatype Delivery = Delivery(entry: Entry, available: int, lag: nat, handling: nat)

  /** The earliest time at which the record itself allows its handling. */
  function Ready(d: Delivery): int {
    if d.entry.retryAfter.Some? && d.available < d.entry.retryAfter.value then d.entry.retryAfter.value else d.available
  }

  /** Timer overshoot for records i up to n, and handling time for records i up to n - 1. */
  function BusyTime(queue: seq<Delivery>, i: nat, n: nat): nat
    requires i <= n < |queue|
  {
    if i == n then queue[n].lag else BusyTime(queue, i, n - 1) + queue[n - 1].handling + queue[n].lag
  }

  /** The consumer handles record n without having dawdled: from the time record i was ready it has been busy. */
  predicate NoIdling(queue: seq<Delivery>, i: nat, n: nat, start: int, at: int) {
    i <= n < |queue| && at <= Later(start, Ready(queue[i])) + BusyTime(queue, i, n)
  }

  ghost predicate Explained(queue: seq<Delivery>, n: nat, start: int, at: int) { exists i :: NoIdling(queue, i, n, start, at) }

  function Later(a: int, b: int): int { if a < b then b else a }

  /**
   The loop of `ConsumeWithDelay`, with a clock. Each record is handled no earlier than any retry-after up to it, and
   no later than some record up to it was ready, apart from the time the consumer was busy since.
   */
  method ConsumeWithDelay(queue: seq<Delivery>, start: int) returns (handledAt: seq<int>)
    ensures |handledAt| == |queue|
    ensures forall i, n :: 0 <= i <= n < |queue| ==> Ready(queue[i]) <= handledAt[n]
    ensures forall n :: 0 <= n < |queue| ==> Explained(queue, n, start, handledAt[n])
  {
    handledAt := [];
    var now := start;
    var next := 0;
    while next < |queue|
      invariant 0 <= next == |handledAt| <= |queue|
      invariant forall n :: 0 <= n < next ==> handledAt[n] <= now
      invariant forall i, n :: 0 <= i <= n < next ==> Ready(queue[i]) <= handledAt[n]
      invariant forall n :: 0 <= n < next ==> Explained(queue, n, start, handledAt[n])
      invariant now == if next == 0 then start else handledAt[next - 1] + queue[next - 1].handling
    {
      var d := queue[next];
      ghost var free := now;
      if now < d.available { now := d.available; }
      if d.entry.retryAfter.Some? && now < d.entry.retryAfter.value { now := d.entry.retryAfter.value + d.lag; }
      ExplainNext(queue, next, start, handledAt, free, now);
      handledAt := handledAt + [now];
      now := now + d.handling;
      next := next + 1;
    }
  }

  /** Whatever kept the consumer from the record is an earlier reason or the record itself. */
  lemma ExplainNext(queue: seq<Delivery>, n: nat, start: int, handledAt: seq<int>, free: int, at: int)
    requires n == |handledAt| < |queue|
    requires free == if n == 0 then start else handledAt[n - 1] + queue[n - 1].handling
    requires n > 0 ==> Explained(queue, n - 1, start, handledAt[n - 1])
    requires at <= Later(free, Ready(queue[n])) + queue[n].lag
    ensures Explained(queue, n, start, at)
  {
    if n == 0 || free <= Ready(queue[n]) {
      assert NoIdling(queue, n, n, start, at);
    } else {
      var i :| NoIdling(queue, i, n - 1, start, handledAt[n - 1]);
      assert NoIdling(queue, i, n, start, at);
    }
  }

  // ----- sleeping on the head of the queue

  /** Records come in the order of their publication, and none asks for more than a given delay. */
  predicate Orderly(queue: seq<Delivery>, start: int, delay: nat) {
    && (forall i :: 0 <= i < |queue| ==> start <= queue[i].available && WaitedFor(queue[i].entry, queue[i].entry.publishedAt + delay))
    && (forall i, n :: 0 <= i <= n < |queue| ==>
          queue[i].available <= queue[n].available && queue[i].entry.publishedAt <= queue[n].entry.publishedAt)
  }

  lemma {:induction false} MoreToDo(queue: seq<Delivery>, i: nat, n: nat)
    requires i <= n < |queue|
    ensures BusyTime(queue, i, n) <= BusyTime(queue, 0, n)
  {
    if i < n { MoreToDo(queue, i, n - 1); }
  }

  /**
   Although the consumer sleeps on whatever record is first, no record is handled later than the later of its arrival
   and its own publication plus the greatest delay, but for the consumer's busy time.
   */
  lemma {:induction false} HeadOfLineCostsNothing(queue: seq<Delivery>, start: int, delay: nat, n: nat, at: int)
    requires Orderly(queue, start, delay) && n < |queue|
    requires Explained(queue, n, start, at)
    ensures at <= Later(queue[n].available, queue[n].entry.publishedAt + delay) + BusyTime(queue, 0, n)
  {
    var i :| NoIdling(queue, i, n, start, at);
    MoreToDo(queue, i, n);
  }

  predicate Instant(queue: seq<Delivery>) { forall i :: 0 <= i < |queue| ==> queue[i].lag == 0 && queue[i].handling == 0 }

  lemma {:induction false} InstantIsNotBusy(queue: seq<Delivery>, i: nat, n: nat)
    requires Instant(queue) && i <= n < |queue|
    ensures BusyTime(queue, i, n) == 0
  {
    if i < n { InstantIsNotBusy(queue, i, n - 1); }
  }

  /** With exact timers and handling that takes no time, the head of the line costs nothing at all. */
  method ConsumeInstantly(queue: seq<Delivery>, start: int, delay: nat) returns (handledAt: seq<int>)
    requires Orderly(queue, start, delay) && Instant(queue)
    ensures |handledAt| == |queue|
    ensures forall i, n :: 0 <= i <= n < |queue| ==> WaitedFor(queue[i].entry, handledAt[n])
    ensures forall n :: 0 <= n < |queue| ==>
      queue[n].available <= handledAt[n] <= Later(queue[n].available, queue[n].entry.publishedAt + delay)
  {
    handledAt := ConsumeWithDelay(queue, start);
    forall n | 0 <= n < |queue|
      ensures handledAt[n] <= Later(queue[n].available, queue[n].entry.publishedAt + delay)
    {
      HeadOfLineCostsNothing(queue, start, delay, n, handledAt[n]);
      InstantIsNotBusy(queue, 0, n);
    }
    assert forall i, n :: 0 <= i <= n < |queue| ==> Ready(queue[i]) <= handledAt[n];
  }

  // ----- the delays the workers ask for

  /** The greatest delay any worker asks for, and one more base delay for the jitter. */
  function GreatestDelay(cfg: Config): nat {
    if cfg.maxRetries < 2 then 0 else MinDelay(cfg.baseDelay, cfg.maxRetries - 1) + cfg.baseDelay
  }

  /** In every reachable state, each record of the retry topic asks for at most that. */
  lemma DelaysAreCapped(cfg: Config, s: State, o: nat)
    requires Reachable(cfg, s) && o < |Log(s.st, Retry)|
    ensures WaitedFor(Log(s.st, Retry)[o], Log(s.st, Retry)[o].publishedAt + GreatestDelay(cfg))
  {
    ReachableInv(cfg, s);
    var e := Log(s.st, Retry)[o];
    assert EntrySound(cfg, s.st, Retry, e);
    hide Inv, MinDelay, Reachable;
    if e.msg.Some? { AttemptCapped(cfg, e.msg.value.retryCount); }
  }

  lemma AttemptCapped(cfg: Config, attempt: nat)
    requires 1 <= attempt < cfg.maxRetries
    ensures MinDelay(cfg.baseDelay, attempt) + cfg.baseDelay <= GreatestDelay(cfg)
  {
    Monotone(attempt - 1, cfg.maxRetries - 2);
    Scale(cfg.baseDelay, Pow2(attempt - 1), Pow2(cfg.maxRetries - 2));
  }

  // ----- the retry topic is in order

  lemma HandlerAppendsNow(cfg: Config, st: Store, t: Topic, h: Activity, ok: bool, jitter: real)
    requires h.Busy? && h.pc != CommitOffset && h.pc != NilLimiter && IsJitter(jitter)
    ensures AppendsNow(st, HandlerStep(cfg, st, t, h, ok, jitter).0)
  {
    hide RetryAt, LimiterChannel, WithStatus;
  }

  /** What was appended from one store to the other was published at the time of the first. */
  ghost predicate AppendsNow(a: Store, b: Store) {
    forall t, o :: |Log(a, t)| <= o < |Log(b, t)| ==> Log(b, t)[o].publishedAt == a.now
  }

  lemma SameLogsAppendNothing(a: Store, b: Store)
    requires a.logs == b.logs
    ensures AppendsNow(a, b)
  {
    assert forall t :: Log(b, t) == Log(a, t);
  }

  lemma PublishAppendsNow(st: Store, m: Msg)
    ensures AppendsNow(st, Publish(st, m))
  {
    var e := Entry(Some(m), |st.copies|, st.now, None);
    assert forall t :: Log(Publish(st, m), t) == if t == WorkTopic(m.n) then Log(st, t) + [e] else Log(st, t);
  }

  lemma JunkAppendsNow(st: Store, t: Topic)
    ensures AppendsNow(st, Append(st, t, Entry(None, 0, st.now, None)))
  {
    var e := Entry(None, 0, st.now, None);
    assert forall u :: Log(Append(st, t, e), u) == if u == t then Log(st, u) + [e] else Log(st, u);
  }

  lemma StepAppendsNow(cfg: Config, s: State, a: Action)
    requires Inv(cfg, s) && Enabled(s, a)
    ensures AppendsNow(s.st, Step(cfg, s, a).st)
  {
    var s' := Step(cfg, s, a);
    if a.Junk? {
      JunkAppendsNow(s.st, a.t);
    } else if a.Proceed? && s.consumers[a.t].act.Busy? && s.consumers[a.t].act.pc != CommitOffset {
      HandlerAppendsNow(cfg, s.st, a.t, s.consumers[a.t].act, a.ok, a.jitter);
      hide HandlerStep;
    } else if ConsumerAction(a) {
      SameLogsAppendNothing(s.st, s'.st);
    } else {
      OtherStepLogs(cfg, s, a);
      hide Step, Publish;
      if Publishes(s, a).Some? { PublishAppendsNow(s.st, Publishes(s, a).value); } else { SameLogsAppendNothing(s.st, s'.st); }
    }
    hide Inv, AppendsNow;
  }

  /** On every topic records stand in the order of their publication. */
  ghost predicate LogsInOrder(st: Store) {
    forall t, i, j :: 0 <= i <= j < |Log(st, t)| ==> Log(st, t)[i].publishedAt <= Log(st, t)[j].publishedAt
  }

  lemma InOrderStep(cfg: Config, a: Store, b: Store)
    requires LogsSound(cfg, a) && LogsInOrder(a) && LogsExtend(a, b) && AppendsNow(a, b)
    ensures LogsInOrder(b)
  {
    forall t, i, j | 0 <= i <= j < |Log(b, t)|
      ensures Log(b, t)[i].publishedAt <= Log(b, t)[j].publishedAt
    {
      assert Log(a, t) <= Log(b, t);
      if i < |Log(a, t)| { assert EntrySound(cfg, a, t, Log(a, t)[i]); }
    }
  }

  lemma {:induction false} InOrderRun(cfg: Config, acts: seq<Action>)
    requires Legal(cfg, Init(), acts)
    ensures LogsInOrder(Run(cfg, Init(), acts).st)
    decreases |acts|
  {
    if acts != [] {
      var front, last := acts[..|acts| - 1], acts[|acts| - 1];
      var s := Run(cfg, Init(), front);
      InOrderRun(cfg, front);
      InvInit(cfg);
      InvRun(cfg, Init(), front);
      hide Step, Enabled, LogsInOrder, AppendsNow, TraceSound, CopiesSound, OutcomesSound, CallsInv, PassesInv, ConsumersInv;
      InvStep(cfg, s, last);
      StepAppendsNow(cfg, s, last);
      InOrderStep(cfg, s.st, Step(cfg, s, last).st);
    }
  }

  /** The consumer's queue: the records of the retry topic, available in their order from some time on. */
  ghost predicate QueueOf(queue: seq<Delivery>, st: Store, start: int) {
    && |queue| <= |Log(st, Retry)|
    && (forall i :: 0 <= i < |queue| ==> queue[i].entry == Log(st, Retry)[i] && start <= queue[i].available)
    && (forall i, n :: 0 <= i <= n < |queue| ==> queue[i].available <= queue[n].available)
  }

  /** In every reachable state the retry topic is what `HeadOfLineCostsNothing` asks for. */
  lemma {:induction false} RetryTopicIsOrderly(cfg: Config, s: State, queue: seq<Delivery>, start: int)
    requires Reachable(cfg, s) && QueueOf(queue, s.st, start)
    ensures Orderly(queue, start, GreatestDelay(cfg))
  {
    var acts :| Legal(cfg, Init(), acts) && Run(cfg, Init(), acts) == s;
    InOrderRun(cfg, acts);
    hide Reachable, GreatestDelay;
    forall i | 0 <= i < |queue|
      ensures WaitedFor(queue[i].entry, queue[i].entry.publishedAt + GreatestDelay(cfg))
    {
      DelaysAreCapped(cfg, s, i);
    }
  }

  /**
   On the retry topic of any reachable state, each record is handled by the later of its arrival and its publication plus the
   greatest delay a worker asks for, but for the consumer's busy time.
   */
  lemma {:induction false} RetriesComeInTime(cfg: Config, s: State, queue: seq<Delivery>, start: int, n: nat, at: int)
    requires Reachable(cfg, s) && QueueOf(queue, s.st, start) && n < |queue| && Explained(queue, n, start, at)
    ensures at <= Later(queue[n].available, queue[n].entry.publishedAt + GreatestDelay(cfg)) + BusyTime(queue, 0, n)
  {
    RetryTopicIsOrderly(cfg, s, queue, start);
    HeadOfLineCostsNothing(queue, start, GreatestDelay(cfg), n, at);
  }
}
