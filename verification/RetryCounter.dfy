/**
 The row's retry counter against the failed Sends of its notification: the two are written by different steps,
 and a crash may come between them.
 */
module RetryCounter {
  import opened Domain
  import opened Backoff
  import opened Protocol
  import opened Safety
  import opened Pipeline
  import opened Ledger

  function RowRetries(st: Store, id: nat): nat { if id in st.rows then st.rows[id].retryCount else 0 }

  predicate CountingFor(c: Consumer, id: nat) { HandlerCountsFor(c.act, id) }

  /** The consumers that have seen a Send fail for this notification and have not yet counted it. */
  function Midway(s: State, id: nat): set<Topic> { set t | t in s.consumers && CountingFor(s.consumers[t], id) }

  ghost predicate CounterInv(s: State) { forall id: nat :: CounterInvFor(s, id) }

  predicate HandlerCountsFor(h: Activity, id: nat) { h.Busy? && h.pc == CountFailure && h.msg.n.id == id }

  lemma HandlerRows(cfg: Config, st: Store, t: Topic, h: Activity, ok: bool, jitter: real, id: nat)
    requires h.Busy? && h.pc != CommitOffset && h.pc != NilLimiter && IsJitter(jitter) && h.msg.n.id in st.rows
    ensures var (st', h') := HandlerStep(cfg, st, t, h, ok, jitter);
      && st.disturbed <= st'.disturbed
      && (RowRetries(st', id) == RowRetries(st, id) + Indicator(HandlerCountsFor(h, id) && ok))
      && (HandlerCountsFor(h, id) && !ok ==> id in st'.disturbed)
      && (HandlerCountsFor(h', id) <==> h.pc == Deliver && !ok && h.msg.n.id == id)
  {
    hide RetryAt, LimiterChannel;
  }

  /** What one handler call adds to the two sides. */
  lemma HandlerCounts(cfg: Config, st: Store, t: Topic, h: Activity, ok: bool, jitter: real, id: nat)
    requires h.Busy? && h.pc != CommitOffset && h.pc != NilLimiter && IsJitter(jitter) && h.msg.n.id in st.rows
    ensures var (st', h') := HandlerStep(cfg, st, t, h, ok, jitter);
      var left := RowRetries(st', id) + Indicator(HandlerCountsFor(h', id)) + Count(st.trace, FailedFor(id));
      var right := RowRetries(st, id) + Indicator(HandlerCountsFor(h, id)) + Count(st'.trace, FailedFor(id));
      left <= right && (id !in st'.disturbed ==> left == right) && st.disturbed <= st'.disturbed
  {
    HandlerRows(cfg, st, t, h, ok, jitter, id);
    HandlerTrace(cfg, st, t, h, ok, jitter, FailedFor(id));
    hide HandlerStep, Count, RowRetries;
  }

  lemma SizeWithout(a: set<Topic>, t: Topic)
    ensures |a| == |a - {t}| + Indicator(t in a)
  {
    if t in a { assert a == (a - {t}) + {t}; } else { assert a == a - {t}; }
  }

  /** One consumer moves: the set of consumers midway changes by that consumer alone. */
  lemma MidwayMoves(s: State, s': State, t: Topic, id: nat)
    requires t in s.consumers && t in s'.consumers && s'.consumers == s.consumers[t := s'.consumers[t]]
    ensures |Midway(s', id)| + Indicator(CountingFor(s.consumers[t], id)) == |Midway(s, id)| + Indicator(CountingFor(s'.consumers[t], id))
  {
    var a, b := Midway(s, id), Midway(s', id);
    assert t in a <==> CountingFor(s.consumers[t], id);
    assert t in b <==> CountingFor(s'.consumers[t], id);
    hide CountingFor;
    assert a - {t} == b - {t};
    SizeWithout(a, t);
    SizeWithout(b, t);
  }

  ghost predicate CounterInvFor(s: State, id: nat) {
    && RowRetries(s.st, id) + |Midway(s, id)| <= Count(s.st.trace, FailedFor(id))
    && (id !in s.st.disturbed ==> RowRetries(s.st, id) + |Midway(s, id)| == Count(s.st.trace, FailedFor(id)))
  }

  lemma WorkCounts(cfg: Config, s: State, t: Topic, ok: bool, jitter: real, id: nat)
    requires Inv(cfg, s) && Enabled(s, Proceed(t, ok, jitter)) && CounterInvFor(s, id)
    ensures CounterInvFor(Step(cfg, s, Proceed(t, ok, jitter)), id)
  {
    var s' := Step(cfg, s, Proceed(t, ok, jitter));
    var c := s.consumers[t];
    MidwayMoves(s, s', t, id);
    assert ConsumerInv(cfg, s.st, t, c);
    if c.act.Busy? && c.act.pc != CommitOffset {
      HandlersEntry(cfg, s.st, t, c.act);
      HandlerCounts(cfg, s.st, t, c.act, ok, jitter, id);
    }
    hide HandlerStep, StoreInv, Count, Midway, RowRetries;
  }

  lemma FetchCounts(cfg: Config, s: State, t: Topic, id: nat)
    requires Enabled(s, Fetch(t)) && CounterInvFor(s, id)
    ensures CounterInvFor(Step(cfg, s, Fetch(t)), id)
  {
    var s' := Step(cfg, s, Fetch(t));
    MidwayMoves(s, s', t, id);
    hide Count, Midway;
  }

  /** A crash between a failed Send and its count loses the count, and disturbs the notification; other crashes lose none. */
  lemma CrashCounts(cfg: Config, s: State, t: Topic, id: nat)
    requires Inv(cfg, s) && t in s.consumers && CounterInvFor(s, id)
    ensures CounterInvFor(Step(cfg, s, Crash(t)), id)
  {
    var s' := Step(cfg, s, Crash(t));
    assert ConsumerInv(cfg, s.st, t, s.consumers[t]);
    MidwayMoves(s, s', t, id);
    hide StoreInv, Count, Midway, Inv;
  }

  /** Steps that neither run a consumer nor touch a counter. */
  ghost predicate CountersUntouched(a: Store, b: Store) {
    b.trace == a.trace && a.disturbed <= b.disturbed && forall id: nat :: RowRetries(b, id) == RowRetries(a, id)
  }

  lemma {:induction false} InsertRowsUntouched(st: Store, ns: seq<Notice>)
    requires BatchInsertable(st, ns)
    ensures CountersUntouched(st, InsertRows(st, ns))
  {
    if ns != [] { InsertRowsUntouched(st, ns[..|ns| - 1]); }
  }

  lemma CreateUntouched(st: Store, pc: CreatePc, n: Notice, ok: bool)
    ensures CountersUntouched(st, CreateStep(st, pc, n, ok).0)
  {}

  lemma BatchUntouched(st: Store, pc: BatchPc, ns: seq<Notice>, i: nat, ok: bool)
    requires pc != InsertAll ==> i < |ns|
    ensures CountersUntouched(st, BatchStep(st, pc, ns, i, ok).0)
  {
    if pc == InsertAll && BatchInsertable(st, ns) {
      InsertRowsUntouched(st, ns);
      hide InsertRows, RowRetries;
    }
  }

  lemma OthersUntouched(s: State, cfg: Config, a: Action)
    requires Enabled(s, a) && !a.Proceed? && !a.Fetch? && !a.Crash?
    ensures var s' := Step(cfg, s, a);
      CountersUntouched(s.st, s'.st) && s'.consumers == s.consumers && s'.redelivered == s.redelivered
  {
    if a.StepCall? {
      var c := s.calls[a.call];
      if c.Create? { CreateUntouched(s.st, c.cpc, c.n, a.ok); }
      if c.Batch? { BatchUntouched(s.st, c.bpc, c.ns, c.next, a.ok); }
      hide CreateStep, BatchStep;
    }
  }

  lemma CounterStep(cfg: Config, s: State, a: Action)
    requires Inv(cfg, s) && Enabled(s, a) && CounterInv(s)
    ensures CounterInv(Step(cfg, s, a))
  {
    var s' := Step(cfg, s, a);
    forall id: nat
      ensures CounterInvFor(s', id)
    {
      assert CounterInvFor(s, id);
      if a.Proceed? {
        WorkCounts(cfg, s, a.t, a.ok, a.jitter, id);
      } else if a.Fetch? {
        FetchCounts(cfg, s, a.t, id);
      } else if a.Crash? {
        CrashCounts(cfg, s, a.t, id);
      } else {
        OthersUntouched(s, cfg, a);
        hide Step, Enabled, RowRetries, Inv;
        assert Midway(s', id) == Midway(s, id);
      }
    }
  }

  lemma {:induction false} CounterRun(cfg: Config, acts: seq<Action>)
    requires Legal(cfg, Init(), acts)
    ensures CounterInv(Run(cfg, Init(), acts))
    decreases |acts|
  {
    if acts == [] {
      forall id: nat
        ensures CounterInvFor(Init(), id)
      {
        assert Midway(Init(), id) == {};
      }
    } else {
      var front := acts[..|acts| - 1];
      CounterRun(cfg, front);
      InvInit(cfg);
      InvRun(cfg, Init(), front);
      hide Inv, CounterInv, Step, Enabled;
      CounterStep(cfg, Run(cfg, Init(), front), acts[|acts| - 1]);
    }
  }

  /**
   The row's counter never exceeds the failed Sends of its notification, with any crashes; and it equals them, with any
   crashes, when no database write of the notification failed, none of its handlers crashed between a failed Send and its
   count, and none is there now.
   */
  lemma RowCountsFailedSends(cfg: Config, s: State, id: nat)
    requires Reachable(cfg, s) && id in s.st.rows
    ensures s.st.rows[id].retryCount <= Count(s.st.trace, FailedFor(id))
    ensures id !in s.st.disturbed && Midway(s, id) == {} ==>
      s.st.rows[id].retryCount == Count(s.st.trace, FailedFor(id))
  {
    var acts :| Legal(cfg, Init(), acts) && Run(cfg, Init(), acts) == s;
    CounterRun(cfg, acts);
    assert CounterInvFor(s, id);
  }
}
