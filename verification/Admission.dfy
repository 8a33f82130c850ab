/**
 How limiter admissions bound the Sends of one process: the three priority consumers of a channel share a limiter and
 wait on it once per record, the retry consumer has limiters of its own and waits on one twice per record.
 */
module Admission {
  import opened Domain
  import opened Backoff
  import opened Protocol
  import opened Safety
  import opened Pipeline
  import opened Ledger

  function WaitsPerSend(t: Topic): nat { if t == Retry then 2 else 1 }

  /** The admissions a consumer holds for the record at hand and has not yet spent on a Send. */
  function Tokens(t: Topic, h: Activity, ch: Channel): nat {
    if h.Busy? && LimiterChannel(t, h.msg) == ch then
      (match h.pc
       case Limiter => WaitsPerSend(t) - 1
       case MarkProcessing | Deliver => WaitsPerSend(t)
       case _ => 0)
    else 0
  }

  /** Sends paid for: in a stretch of events, each one but a first takes its admissions from the same stretch. */
  predicate Paid(events: seq<Event>, t: Topic, ch: Channel, held: nat) {
    WaitsPerSend(t) * Count(events, SentBy(t, ch)) + held <= Count(events, AdmittedBy(t, ch)) + WaitsPerSend(t)
  }

  /** Every stretch of the history is paid for, and every one that reaches the present even with the tokens still held. */
  ghost predicate AllPaid(trace: seq<Event>, t: Topic, ch: Channel, held: nat) {
    && (forall i :: 0 <= i <= |trace| ==> Paid(trace[i..], t, ch, held))
    && (forall i, j :: 0 <= i <= j <= |trace| ==> Paid(trace[i..j], t, ch, 0))
  }

  lemma FewerHeld(trace: seq<Event>, t: Topic, ch: Channel, held: nat, left: nat)
    requires AllPaid(trace, t, ch, held) && left <= held
    ensures AllPaid(trace, t, ch, left)
  {
    forall i | 0 <= i <= |trace|
      ensures Paid(trace[i..], t, ch, left)
    {
      assert Paid(trace[i..], t, ch, held);
    }
  }

  /** One more event: an admission may be kept, a Send spends all that was held, and anything else changes nothing. */
  predicate Spends(e: Event, t: Topic, ch: Channel, held: nat, left: nat) {
    if Matches(AdmittedBy(t, ch), e) then left <= held + 1
    else if Matches(SentBy(t, ch), e) then held == WaitsPerSend(t) && left == 0
    else left <= held
  }

  lemma PaidOneMore(events: seq<Event>, e: Event, t: Topic, ch: Channel, held: nat, left: nat)
    requires Paid(events, t, ch, held) && Spends(e, t, ch, held, left)
    ensures Paid(events + [e], t, ch, left)
  {
    CountAppend(events, e, SentBy(t, ch));
    CountAppend(events, e, AdmittedBy(t, ch));
  }

  lemma AllPaidOneMore(trace: seq<Event>, e: Event, t: Topic, ch: Channel, held: nat, left: nat)
    requires AllPaid(trace, t, ch, held) && Spends(e, t, ch, held, left) && left <= WaitsPerSend(t)
    ensures AllPaid(trace + [e], t, ch, left)
  {
    var longer := trace + [e];
    forall i | 0 <= i <= |longer|
      ensures Paid(longer[i..], t, ch, left)
    {
      if i <= |trace| {
        assert longer[i..] == trace[i..] + [e];
        PaidOneMore(trace[i..], e, t, ch, held, left);
      } else {
        assert longer[i..] == [];
      }
    }
    forall i, j | 0 <= i <= j <= |longer|
      ensures Paid(longer[i..j], t, ch, 0)
    {
      if j <= |trace| {
        assert longer[i..j] == trace[i..j];
      } else {
        assert longer[i..j] == longer[i..];
        assert Paid(longer[i..], t, ch, left);
      }
    }
  }

  // ----- every step

  function Held(s: State, t: Topic, ch: Channel): nat {
    if t in s.consumers then Tokens(t, s.consumers[t].act, ch) else 0
  }

  ghost predicate PaidFor(s: State, t: Topic, ch: Channel) { AllPaid(s.st.trace, t, ch, Held(s, t, ch)) }

  /** From one history to the next: one event more, which the tokens allow, or none. */
  predicate Pays(a: seq<Event>, b: seq<Event>, t: Topic, ch: Channel, held: nat, left: nat) {
    if b == a then left <= held
    else |b| > 0 && b == a + [b[|b| - 1]] && Spends(b[|b| - 1], t, ch, held, left)
  }

  lemma HandlerPays(cfg: Config, st: Store, t: Topic, h: Activity, ok: bool, jitter: real, ch: Channel)
    requires h.Busy? && h.pc != CommitOffset && h.pc != NilLimiter && IsJitter(jitter)
    requires h.pc == AwaitTime || h.pc == RetryLimiter ==> t == Retry
    ensures var (b, h') := HandlerStep(cfg, st, t, h, ok, jitter);
      Pays(st.trace, b.trace, t, ch, Tokens(t, h, ch), Tokens(t, h', ch))
  {
    HandlerTrace(cfg, st, t, h, ok, jitter, SentBy(t, ch));
    hide Count, RetryAt, UpdateStatus, IncrementRetry, PublishDeadLetter, PublishRetry, Settle, Move;
  }

  /** The events of one consumer are not those of another. */
  lemma HandlerElsewhere(cfg: Config, st: Store, u: Topic, h: Activity, ok: bool, jitter: real, t: Topic, ch: Channel, held: nat)
    requires h.Busy? && h.pc != CommitOffset && h.pc != NilLimiter && IsJitter(jitter) && u != t
    ensures Pays(st.trace, HandlerStep(cfg, st, u, h, ok, jitter).0.trace, t, ch, held, held)
  {
    HandlerTrace(cfg, st, u, h, ok, jitter, SentBy(t, ch));
    hide Count, RetryAt, UpdateStatus, IncrementRetry, PublishDeadLetter, PublishRetry, Settle, Move;
  }

  lemma CommitPays(trace: seq<Event>, t: Topic, c: Consumer, ok: bool, ch: Channel)
    requires c.act.Skipping? || (c.act.Busy? && c.act.pc == CommitOffset)
    ensures Pays(trace, trace, t, ch, Tokens(t, c.act, ch), Tokens(t, CommitStep(c, ok).act, ch))
  {}

  lemma ConsumerPays(cfg: Config, st: Store, t: Topic, c: Consumer, ok: bool, jitter: real, ch: Channel)
    requires ConsumerReady(st, t, c) && IsJitter(jitter) && ConsumerInv(cfg, st, t, c)
    ensures var (b, c') := ConsumerStep(cfg, st, t, c, ok, jitter);
      Pays(st.trace, b.trace, t, ch, Tokens(t, c.act, ch), Tokens(t, c'.act, ch))
  {
    hide Pays, Tokens, HandlerStep, CommitStep, Waited;
    if c.act.Busy? && c.act.pc != CommitOffset { HandlerPays(cfg, st, t, c.act, ok, jitter, ch); }
    else { CommitPays(st.trace, t, c, ok, ch); }
  }

  lemma ConsumerElsewhere(cfg: Config, st: Store, u: Topic, c: Consumer, ok: bool, jitter: real, t: Topic, ch: Channel, held: nat)
    requires ConsumerReady(st, u, c) && IsJitter(jitter) && u != t
    ensures Pays(st.trace, ConsumerStep(cfg, st, u, c, ok, jitter).0.trace, t, ch, held, held)
  {
    hide Pays, HandlerStep, CommitStep, TimeReached;
    if c.act.Busy? && c.act.pc != CommitOffset { HandlerElsewhere(cfg, st, u, c.act, ok, jitter, t, ch, held); }
    else { KeepsHolding(st.trace, t, ch, held); }
  }

  lemma WorkPays(cfg: Config, s: State, u: Topic, ok: bool, jitter: real, t: Topic, ch: Channel)
    requires Inv(cfg, s) && Enabled(s, Proceed(u, ok, jitter))
    ensures var s' := Step(cfg, s, Proceed(u, ok, jitter)); Pays(s.st.trace, s'.st.trace, t, ch, Held(s, t, ch), Held(s', t, ch))
  {
    assert ConsumerInv(cfg, s.st, u, s.consumers[u]);
    hide Inv, Pays, Tokens, ConsumerStep, ConsumerInv, ConsumerReady;
    if u == t { ConsumerPays(cfg, s.st, u, s.consumers[u], ok, jitter, ch); }
    else { ConsumerElsewhere(cfg, s.st, u, s.consumers[u], ok, jitter, t, ch, Held(s, t, ch)); }
  }

  lemma KeepsHolding(trace: seq<Event>, t: Topic, ch: Channel, held: nat)
    ensures Pays(trace, trace, t, ch, held, held)
  {}

  lemma RestartPays(cfg: Config, s: State, a: Action, t: Topic, ch: Channel)
    requires Enabled(s, a) && (a.Fetch? || a.Crash?)
    ensures var s' := Step(cfg, s, a); Pays(s.st.trace, s'.st.trace, t, ch, Held(s, t, ch), Held(s', t, ch))
  {
    hide Spends;
  }

  lemma StepPays(cfg: Config, s: State, a: Action, t: Topic, ch: Channel)
    requires Inv(cfg, s) && Enabled(s, a)
    ensures var s' := Step(cfg, s, a); Pays(s.st.trace, s'.st.trace, t, ch, Held(s, t, ch), Held(s', t, ch))
  {
    if a.Proceed? {
      WorkPays(cfg, s, a.t, a.ok, a.jitter, t, ch);
    } else if a.Fetch? || a.Crash? {
      RestartPays(cfg, s, a, t, ch);
    } else if a.Junk? {
      hide Inv, Tokens, Spends;
    } else {
      OtherStepLogs(cfg, s, a);
      hide Inv, Step, Enabled, Tokens, Spends;
    }
  }

  lemma HeldInRange(s: State, t: Topic, ch: Channel)
    ensures 0 <= Held(s, t, ch) <= WaitsPerSend(t)
  {}

  lemma {:induction false} PaidRun(cfg: Config, acts: seq<Action>, t: Topic, ch: Channel)
    requires Legal(cfg, Init(), acts)
    ensures PaidFor(Run(cfg, Init(), acts), t, ch)
    decreases |acts|
  {
    if acts != [] {
      var front := acts[..|acts| - 1];
      var s := Run(cfg, Init(), front);
      var s' := Run(cfg, Init(), acts);
      PaidRun(cfg, front, t, ch);
      InvInit(cfg);
      InvRun(cfg, Init(), front);
      StepPays(cfg, s, acts[|acts| - 1], t, ch);
      HeldInRange(s', t, ch);
      var a, b := s.st.trace, s'.st.trace;
      hide Inv, Step, Enabled, Run, AllPaid, Spends, Held;
      if b == a { FewerHeld(a, t, ch, Held(s, t, ch), Held(s', t, ch)); }
      else { AllPaidOneMore(a, b[|b| - 1], t, ch, Held(s, t, ch), Held(s', t, ch)); }
    }
  }

  // ----- windows of time

  /** The events from one time up to, and including, another. */
  function During(trace: seq<Event>, from: int, to: int): seq<Event> {
    if trace == [] then []
    else
      var last := trace[|trace| - 1];
      During(trace[..|trace| - 1], from, to) + if from <= last.at <= to then [last] else []
  }

  predicate InOrder(trace: seq<Event>) { forall j, k :: 0 <= j < k < |trace| ==> trace[j].at <= trace[k].at }

  /** How many events came before a time. */
  function Before(trace: seq<Event>, time: int): (n: nat)
    ensures n <= |trace|
  {
    if trace == [] || trace[|trace| - 1].at < time then |trace| else Before(trace[..|trace| - 1], time)
  }

  /** Since the clock never goes back, a window of time is a stretch of the history. */
  lemma {:induction false} DuringIsStretch(trace: seq<Event>, from: int, to: int)
    requires InOrder(trace) && from <= to + 1
    ensures Before(trace, from) <= Before(trace, to + 1)
    ensures During(trace, from, to) == trace[Before(trace, from)..Before(trace, to + 1)]
  {
    if trace != [] {
      var n := |trace| - 1;
      var front := trace[..n];
      DuringIsStretch(front, from, to);
      var i, j := Before(front, from), Before(front, to + 1);
      assert front[i..j] == trace[i..j];
      assert n > 0 ==> front[n - 1].at <= trace[n].at;
      if from <= trace[n].at <= to { assert trace[i..n + 1] == trace[i..n] + [trace[n]]; }
    }
  }

  function InWindow(trace: seq<Event>, from: int, width: nat, q: Query): nat { Count(During(trace, from, from + width), q) }

  /** At most `bound` events of a kind in any window of the given width. */
  ghost predicate AtMost(trace: seq<Event>, width: nat, q: Query, bound: nat) {
    forall from :: InWindow(trace, from, width, q) <= bound
  }

  /** The three topics of a channel, added up. */
  lemma {:induction false} ThreeTopics(events: seq<Event>, ch: Channel)
    requires forall k :: 0 <= k < |events| && Matches(SentOnWork(ch), events[k]) ==>
      events[k].topic in {Work(ch, High), Work(ch, Normal), Work(ch, Low)}
    ensures Count(events, SentOnWork(ch)) ==
      Count(events, SentBy(Work(ch, High), ch)) + Count(events, SentBy(Work(ch, Normal), ch)) + Count(events, SentBy(Work(ch, Low), ch))
    ensures Count(events, AdmittedOnWork(ch)) >=
      Count(events, AdmittedBy(Work(ch, High), ch)) + Count(events, AdmittedBy(Work(ch, Normal), ch)) + Count(events, AdmittedBy(Work(ch, Low), ch))
  {
    if events != [] { ThreeTopics(events[..|events| - 1], ch); }
  }

  /** Every Send from a work topic was made by one of its channel's three consumers. */
  lemma WorkSendsInPlace(cfg: Config, st: Store, ch: Channel)
    requires StoreInv(cfg, st)
    ensures forall k :: 0 <= k < |st.trace| && Matches(SentOnWork(ch), st.trace[k]) ==>
      st.trace[k].topic in {Work(ch, High), Work(ch, Normal), Work(ch, Low)}
  {
    forall k | 0 <= k < |st.trace| && Matches(SentOnWork(ch), st.trace[k])
      ensures st.trace[k].topic in {Work(ch, High), Work(ch, Normal), Work(ch, Low)}
    {
      var e := st.trace[k];
      assert EventSound(st, e);
      assert EntrySound(cfg, st, e.topic, Log(st, e.topic)[e.offset]);
    }
  }

  lemma StretchPaid(trace: seq<Event>, t: Topic, ch: Channel, held: nat, from: int, width: nat)
    requires InOrder(trace) && AllPaid(trace, t, ch, held)
    ensures Paid(During(trace, from, from + width), t, ch, 0)
  {
    hide InOrder, Paid;
    DuringIsStretch(trace, from, from + width);
  }

  /** In every window, what a consumer sent is covered by what it was admitted. */
  lemma WindowPaid(cfg: Config, s: State, t: Topic, ch: Channel, from: int, width: nat)
    requires Reachable(cfg, s)
    ensures WaitsPerSend(t) * InWindow(s.st.trace, from, width, SentBy(t, ch))
      <= InWindow(s.st.trace, from, width, AdmittedBy(t, ch)) + WaitsPerSend(t)
  {
    var acts :| Legal(cfg, Init(), acts) && Run(cfg, Init(), acts) == s;
    PaidRun(cfg, acts, t, ch);
    ReachableInv(cfg, s);
    assert InOrder(s.st.trace);
    hide During, InOrder, Count, Inv, Legal, Run, AllPaid, Held;
    StretchPaid(s.st.trace, t, ch, Held(s, t, ch), from, width);
  }

  lemma WindowTopics(cfg: Config, s: State, ch: Channel, from: int, width: nat)
    requires Reachable(cfg, s)
    ensures var trace := s.st.trace;
      InWindow(trace, from, width, SentOnWork(ch)) == InWindow(trace, from, width, SentBy(Work(ch, High), ch))
        + InWindow(trace, from, width, SentBy(Work(ch, Normal), ch)) + InWindow(trace, from, width, SentBy(Work(ch, Low), ch))
    ensures var trace := s.st.trace;
      InWindow(trace, from, width, AdmittedOnWork(ch)) >= InWindow(trace, from, width, AdmittedBy(Work(ch, High), ch))
        + InWindow(trace, from, width, AdmittedBy(Work(ch, Normal), ch)) + InWindow(trace, from, width, AdmittedBy(Work(ch, Low), ch))
  {
    ReachableInv(cfg, s);
    assert InOrder(s.st.trace);
    DuringIsStretch(s.st.trace, from, from + width);
    WorkSendsInPlace(cfg, s.st, ch);
    hide During, InOrder, Count, Inv, Before, Reachable, Matches;
    ThreeTopics(During(s.st.trace, from, from + width), ch);
  }

  /**
   If a channel's shared limiter admits at most `bound` callers in any window, its three priority consumers send
   at most three more than that in any such window, whatever crashes.
   */
  lemma WorkSendsBounded(cfg: Config, s: State, ch: Channel, width: nat, bound: nat)
    requires Reachable(cfg, s) && AtMost(s.st.trace, width, AdmittedOnWork(ch), bound)
    ensures AtMost(s.st.trace, width, SentOnWork(ch), bound + 3)
  {
    hide Reachable, InWindow;
    forall from
      ensures InWindow(s.st.trace, from, width, SentOnWork(ch)) <= bound + 3
    {
      WindowTopics(cfg, s, ch, from, width);
      WindowPaid(cfg, s, Work(ch, High), ch, from, width);
      WindowPaid(cfg, s, Work(ch, Normal), ch, from, width);
      WindowPaid(cfg, s, Work(ch, Low), ch, from, width);
    }
  }

  /** The retry consumer, which waits twice for each record, sends at most half of what its limiter admits, and one. */
  lemma RetrySendsBounded(cfg: Config, s: State, ch: Channel, width: nat, bound: nat)
    requires Reachable(cfg, s) && AtMost(s.st.trace, width, AdmittedBy(Retry, ch), bound)
    ensures AtMost(s.st.trace, width, SentBy(Retry, ch), bound / 2 + 1)
  {
    hide Reachable, InWindow;
    forall from
      ensures InWindow(s.st.trace, from, width, SentBy(Retry, ch)) <= bound / 2 + 1
    {
      WindowPaid(cfg, s, Retry, ch, from, width);
    }
  }
}
