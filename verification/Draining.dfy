/** Runs without redelivery: handling drains the pipeline, and never gets stuck. */
module Draining {
  import opened Domain
  import opened Backoff
  import opened Protocol
  import opened Safety
  import opened Pipeline
  import opened Ledger
  import opened Copies

  /** The handler runs a copy can still cause: what is left of its attempts, while it is in the pipeline. */
  function Weight(cfg: Config, p: Place): nat {
    match p
    case Unread(_, _, rc) => AttemptLimit(cfg, rc)
    case Held(_, rc) => AttemptLimit(cfg, rc)
    case _ => 0
  }

  function Remaining(cfg: Config, copies: seq<CopyRecord>): nat {
    if copies == [] then 0 else Remaining(cfg, copies[..|copies| - 1]) + Weight(cfg, copies[|copies| - 1].place)
  }

  lemma {:induction false} RemainingUpdate(cfg: Config, a: seq<CopyRecord>, b: seq<CopyRecord>, k: nat)
    requires |a| == |b| && k < |a| && forall j :: 0 <= j < |a| && j != k ==> b[j] == a[j]
    ensures Remaining(cfg, b) + Weight(cfg, a[k].place) == Remaining(cfg, a) + Weight(cfg, b[k].place)
  {
    var n := |a| - 1;
    if k < n {
      RemainingUpdate(cfg, a[..n], b[..n], k);
    } else {
      assert a[..n] == b[..n];
    }
  }

  lemma WeightDrops(cfg: Config, a: Store, b: Store, t: Topic, h: Activity, h': Activity, ok: bool, rc: nat, sent: nat, accepted: nat)
    requires Holding(h) && h.pc != NilLimiter && h.copy < |a.copies| && OwnKnown(cfg, a, t, h, rc, sent, accepted) && MovesTo(a, b, h, h', ok)
    requires Holding(h') ==> b.copies[h.copy].place == a.copies[h.copy].place
    requires !Holding(h') ==> !b.copies[h.copy].place.Held?
    ensures Weight(cfg, b.copies[h.copy].place) + Indicator(!Holding(h')) <= Weight(cfg, a.copies[h.copy].place)
  {}

  lemma HoldingKeepsPlace(cfg: Config, st: Store, t: Topic, h: Activity, ok: bool, jitter: real)
    requires Holding(h) && h.pc != NilLimiter && IsJitter(jitter) && h.copy < |st.copies|
    ensures var r := HandlerStep(cfg, st, t, h, ok, jitter);
      && h.copy < |r.0.copies|
      && (if Holding(r.1) then r.0.copies[h.copy].place == st.copies[h.copy].place else !r.0.copies[h.copy].place.Held?)
  {
    hide RetryAt, LimiterChannel, WithStatus;
  }

  /** A handler run that returns takes at least one from what remains. */
  lemma HandlerDrains(cfg: Config, s: State, t: Topic, ok: bool, jitter: real)
    requires Inv(cfg, s) && Located(cfg, s.st, s.consumers) && Enabled(s, Proceed(t, ok, jitter)) && Holding(s.consumers[t].act)
    ensures var s' := Step(cfg, s, Proceed(t, ok, jitter));
      s'.st.runs + Remaining(cfg, s'.st.copies) <= s.st.runs + Remaining(cfg, s.st.copies)
  {
    var h := s.consumers[t].act;
    assert ConsumerInv(cfg, s.st, t, s.consumers[t]);
    OwnCopy(cfg, s.st, s.consumers, t);
    hide Inv, Located;
    var r := HandlerStep(cfg, s.st, t, h, ok, jitter);
    OwnPlaceAfter(cfg, s.st, t, h, ok, jitter);
    HandlerCopies(cfg, s.st, t, h, ok, jitter);
    HandlerRuns(cfg, s.st, t, h, ok, jitter);
    HoldingKeepsPlace(cfg, s.st, t, h, ok, jitter);
    hide HandlerStep, Remaining, Count, OwnKnown, MovesTo, Weight;
    WeightDrops(cfg, s.st, r.0, t, h, r.1, ok, Log(s.st, t)[h.offset].msg.value.retryCount,
                Count(s.st.trace, SendsOf(h.copy)), Count(s.st.trace, AcceptedOf(h.copy)));
    RemainingUpdate(cfg, s.st.copies, r.0.copies, h.copy);
  }

  lemma HandlerRuns(cfg: Config, st: Store, t: Topic, h: Activity, ok: bool, jitter: real)
    requires Holding(h) && h.pc != NilLimiter && IsJitter(jitter)
    ensures var r := HandlerStep(cfg, st, t, h, ok, jitter); r.0.runs == st.runs + Indicator(!Holding(r.1))
  {
    hide RetryAt;
  }

  lemma FetchDrains(cfg: Config, s: State, t: Topic)
    requires Inv(cfg, s) && Located(cfg, s.st, s.consumers) && Enabled(s, Fetch(t))
    ensures var s' := Step(cfg, s, Fetch(t));
      s'.st.runs + Remaining(cfg, s'.st.copies) == s.st.runs + Remaining(cfg, s.st.copies)
  {
    var c := s.consumers[t];
    if HasBody(s.st, t, c.pos) {
      var k := Log(s.st, t)[c.pos].copy;
      RemainingUpdate(cfg, s.st.copies, FetchStep(s.st, t, c).0.copies, k);
    }
    hide Remaining, StoreInv, AllAttemptsOk;
  }

  lemma DrainStep(cfg: Config, s: State, a: Action)
    requires Inv(cfg, s) && LocatedInv(cfg, s) && Enabled(s, a)
    requires !Step(cfg, s, a).redelivered && Publishes(s, a).None?
    ensures var s' := Step(cfg, s, a);
      s'.st.runs + Remaining(cfg, s'.st.copies) <= s.st.runs + Remaining(cfg, s.st.copies)
  {
    hide Remaining, Located;
    if a.Fetch? {
      FetchDrains(cfg, s, a.t);
    } else if a.Proceed? && Holding(s.consumers[a.t].act) {
      HandlerDrains(cfg, s, a.t, a.ok, a.jitter);
    } else if !ConsumerAction(a) && !a.Junk? {
      OtherStepLogs(cfg, s, a);
    }
    hide Inv;
  }

  /** A stretch of a run in which nothing is published anew. */
  ghost predicate NoPublish(cfg: Config, s: State, acts: seq<Action>)
    requires Legal(cfg, s, acts)
    decreases |acts|
  {
    acts != [] ==>
      var n := |acts| - 1;
      NoPublish(cfg, s, acts[..n]) && Publishes(Run(cfg, s, acts[..n]), acts[n]).None?
  }

  lemma RedeliveredStays(cfg: Config, s: State, a: Action)
    requires Enabled(s, a) && s.redelivered
    ensures Step(cfg, s, a).redelivered
  {}

  lemma {:induction false} DrainRun(cfg: Config, s: State, acts: seq<Action>)
    requires Inv(cfg, s) && LocatedInv(cfg, s) && Legal(cfg, s, acts) && NoPublish(cfg, s, acts) && !Run(cfg, s, acts).redelivered
    ensures var s' := Run(cfg, s, acts);
      Inv(cfg, s') && LocatedInv(cfg, s') && s'.st.runs + Remaining(cfg, s'.st.copies) <= s.st.runs + Remaining(cfg, s.st.copies)
    decreases |acts|
  {
    hide Inv, LocatedInv, Step, Enabled, Remaining, Publishes;
    if acts != [] {
      var front, last := acts[..|acts| - 1], acts[|acts| - 1];
      var mid := Run(cfg, s, front);
      if mid.redelivered { RedeliveredStays(cfg, mid, last); }
      DrainRun(cfg, s, front);
      DrainStep(cfg, mid, last);
      InvStep(cfg, mid, last);
      LocatedStep(cfg, mid, last);
    }
  }

  /**
   Draining: from any reachable state, as long as nothing is published anew and nothing is redelivered, at most
   `Remaining` handler calls return, whatever fails; and once that many have returned the pipeline is empty.
   */
  lemma PipelineDrains(cfg: Config, s: State, acts: seq<Action>)
    requires Reachable(cfg, s) && Legal(cfg, s, acts) && NoPublish(cfg, s, acts) && !Run(cfg, s, acts).redelivered
    ensures var s' := Run(cfg, s, acts);
      && s.st.runs <= s'.st.runs <= s.st.runs + Remaining(cfg, s.st.copies)
      && (s'.st.runs == s.st.runs + Remaining(cfg, s.st.copies) ==>
            forall x, c :: Occupies(s', x, c) ==> x.InDlq?)
  {
    var pre :| Legal(cfg, Init(), pre) && Run(cfg, Init(), pre) == s;
    ReachableInv(cfg, s);
    LocatedRun(cfg, pre);
    DrainRun(cfg, s, acts);
    RunsGrow(cfg, s, acts);
    var s' := Run(cfg, s, acts);
    hide Inv, Step, Enabled, Remaining, Publishes;
    if Remaining(cfg, s'.st.copies) == 0 {
      forall x, c | Occupies(s', x, c)
        ensures x.InDlq?
      {
        NothingRemains(cfg, s', x, c);
      }
    }
  }

  /** While a copy is inside the pipeline, some consumer can take it up or go on with its work, at the latest once time has passed. */
  lemma NeverStuck(cfg: Config, s: State)
    requires Reachable(cfg, s) && !s.redelivered && Remaining(cfg, s.st.copies) > 0
    ensures exists t :: t in s.consumers && CanGoOn(cfg, s, t)
  {
    ReachableLocated(cfg, s);
    var c := SomeWeight(cfg, s.st.copies);
    assert PlaceReal(s.st, s.consumers, c);
    hide Located, Remaining;
    var t := s.st.copies[c].place.topic;
    if !s.consumers[t].act.Idle? { ReadyInTime(cfg, s, t); }
    assert CanGoOn(cfg, s, t);
  }

  ghost predicate CanGoOn(cfg: Config, s: State, t: Topic) {
    Enabled(s, Fetch(t)) || exists d :: Enabled(Step(cfg, s, Tick(d)), Proceed(t, true, 0.0))
  }

  lemma ReadyInTime(cfg: Config, s: State, t: Topic)
    requires Inv(cfg, s) && t in s.consumers && !s.consumers[t].act.Idle?
    ensures exists d :: Enabled(Step(cfg, s, Tick(d)), Proceed(t, true, 0.0))
  {
    var c := s.consumers[t];
    assert ConsumerInv(cfg, s.st, t, c);
    var e := Log(s.st, t)[c.act.offset];
    var d := if e.retryAfter.Some? && e.retryAfter.value > s.st.now then e.retryAfter.value - s.st.now else 0;
    hide Inv;
    ReadyAfter(cfg, s, t, d);
  }

  lemma ReadyAfter(cfg: Config, s: State, t: Topic, d: nat)
    requires t in s.consumers && !s.consumers[t].act.Idle?
    requires s.consumers[t].act.Busy? ==>
      && s.consumers[t].act.pc != NilLimiter && s.consumers[t].act.offset < |Log(s.st, t)|
      && WaitedFor(Log(s.st, t)[s.consumers[t].act.offset], s.st.now + d)
    ensures Enabled(Step(cfg, s, Tick(d)), Proceed(t, true, 0.0))
  {}

  lemma {:induction false} SomeWeight(cfg: Config, copies: seq<CopyRecord>) returns (c: nat)
    requires Remaining(cfg, copies) > 0
    ensures c < |copies| && Weight(cfg, copies[c].place) > 0
  {
    var n := |copies| - 1;
    if Weight(cfg, copies[n].place) > 0 { c := n; } else { c := SomeWeight(cfg, copies[..n]); }
  }

  lemma NothingRemains(cfg: Config, s: State, x: Slot, c: nat)
    requires Located(cfg, s.st, s.consumers) && Remaining(cfg, s.st.copies) == 0 && Occupies(s, x, c)
    ensures x.InDlq?
  {
    if !x.InDlq? { NoWeight(cfg, s.st.copies, c); }
    hide Remaining, AllAttemptsOk;
  }

  lemma {:induction false} NoWeight(cfg: Config, copies: seq<CopyRecord>, c: nat)
    requires Remaining(cfg, copies) == 0
    ensures c < |copies| ==> Weight(cfg, copies[c].place) == 0
  {
    if c < |copies| - 1 { NoWeight(cfg, copies[..|copies| - 1], c); }
  }

  lemma RunsGrowStep(cfg: Config, s: State, a: Action)
    requires Inv(cfg, s) && Enabled(s, a)
    ensures s.st.runs <= Step(cfg, s, a).st.runs
  {
    if !ConsumerAction(a) && !a.Junk? {
      OtherStepLogs(cfg, s, a);
      hide Step;
    } else if a.Proceed? && Holding(s.consumers[a.t].act) {
      HandlerRuns(cfg, s.st, a.t, s.consumers[a.t].act, a.ok, a.jitter);
      hide HandlerStep;
    }
    hide Inv;
  }

  lemma {:induction false} RunsGrow(cfg: Config, s: State, acts: seq<Action>)
    requires Inv(cfg, s) && Legal(cfg, s, acts)
    ensures s.st.runs <= Run(cfg, s, acts).st.runs
    decreases |acts|
  {
    hide Inv, Step, Enabled;
    if acts != [] {
      var front := acts[..|acts| - 1];
      RunsGrow(cfg, s, front);
      InvRun(cfg, s, front);
      RunsGrowStep(cfg, Run(cfg, s, front), acts[|acts| - 1]);
    }
  }
}
