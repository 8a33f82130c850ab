/** From any reachable state without redelivery, the consumers can empty the pipeline by themselves. */
module Emptying {
  import opened Domain
  import opened Protocol
  import opened Safety
  import opened Pipeline
  import opened Copies
  import opened Draining
  import opened Drive
  import Backoff
  import Guarantees

  /** A handler's call that returns is counted once. */
  lemma {:induction false} HandleReturns(cfg: Config, env: Env, st: Store, t: Topic, h: Activity, k: nat)
    requires Holding(h) && h.pc != NilLimiter && Fair(env)
    ensures var (b, end, _) := Handle(cfg, env, st, t, h, k); end.pc != NilLimiter ==> b.runs == st.runs + 1
    decreases HandlerRank(h.pc)
  {
    var (b, h') := HandlerStep(cfg, st, t, h, env.ok(k), env.jitter(k));
    HandlerRuns(cfg, st, t, h, env.ok(k), env.jitter(k));
    LaterRank(cfg, st, t, h, env.ok(k), env.jitter(k));
    hide HandlerStep;
    if Holding(h') && h'.pc != NilLimiter { HandleReturns(cfg, env, b, t, h', k + 1); }
  }

  lemma LaterRank(cfg: Config, st: Store, t: Topic, h: Activity, ok: bool, jitter: real)
    requires Holding(h) && h.pc != NilLimiter && Backoff.IsJitter(jitter)
    ensures var h' := HandlerStep(cfg, st, t, h, ok, jitter).1; h'.Busy? && HandlerRank(h'.pc) < HandlerRank(h.pc)
  {
    hide PublishRetry, PublishDeadLetter, UpdateStatus, IncrementRetry;
  }

  /** A run by consumers alone publishes no new copy and redelivers nothing. */
  lemma {:induction false} ConsumingIsQuiet(cfg: Config, s: State, acts: seq<Action>)
    requires Legal(cfg, s, acts) && AllConsuming(acts)
    ensures NoPublish(cfg, s, acts) && Run(cfg, s, acts).redelivered == s.redelivered
    decreases |acts|
  {
    if acts != [] {
      var front, last := acts[..|acts| - 1], acts[|acts| - 1];
      assert last in acts && forall a :: a in front ==> a in acts;
      ConsumingIsQuiet(cfg, s, front);
      hide HandlerStep, FetchStep, Enabled;
    }
  }

  /** The time comes for whatever record a consumer waits for. */
  lemma Ready(cfg: Config, s: State, t: Topic) returns (s': State)
    requires Reachable(cfg, s) && t in s.consumers && s.consumers[t].act.Busy?
    ensures ConsumesTo(cfg, s, s') && t in s'.consumers && s'.st.runs == s.st.runs
    ensures var a, b := s.consumers[t], s'.consumers[t];
      b == a.(act := b.act) && b.act.Busy? && b.act.pc != AwaitTime && (Holding(a.act) <==> Holding(b.act))
  {
    var c := s.consumers[t];
    if c.act.pc == AwaitTime {
      ReachableInv(cfg, s);
      assert ConsumerInv(cfg, s.st, t, c);
      var e := Log(s.st, t)[c.act.offset];
      var now := WakeUp(s.st.now, e, 0);
      var s1 := s.(st := s.st.(now := now));
      TickReaches(cfg, s, now);
      hide Inv, ConsumesTo, Reachable;
      Awaited(cfg, s1, t);
      s' := SetConsumer(s1, t, (s1.st, c.(act := c.act.(pc := RetryLimiter))));
      ConsumesOn(cfg, s, s1, s');
    } else {
      s' := s;
      ConsumesToItself(cfg, s);
    }
  }

  /** A consumer that is at work finishes its turn. */
  lemma Finishes(cfg: Config, s: State, t: Topic) returns (s': State)
    requires Reachable(cfg, s) && t in s.consumers && !s.consumers[t].act.Idle?
    ensures ConsumesTo(cfg, s, s') && t in s'.consumers && s'.consumers[t].act.Idle? && s'.consumers[t].pos == s.consumers[t].pos
    ensures s'.st.runs == s.st.runs + if Holding(s.consumers[t].act) then 1 else 0
  {
    AllGoodIsFair();
    hide ConsumesTo, Reachable, Reaches, AllGood;
    if s.consumers[t].act.Skipping? {
      CommitReaches(cfg, s, t, true);
      return SetConsumer(s, t, (s.st, CommitStep(s.consumers[t], true)));
    }
    var s1 := Ready(cfg, s, t);
    var c := s1.consumers[t];
    if c.act.pc == CommitOffset {
      CommitReaches(cfg, s1, t, true);
      s' := SetConsumer(s1, t, (s1.st, CommitStep(c, true)));
    } else {
      NoPanicFrom(cfg, s, s1, t);
      var (b, h, k) := Handle(cfg, AllGood(), s1.st, t, c.act, 0);
      FinishReaches(cfg, AllGood(), s1, t, 0);
      s' := SetConsumer(s1, t, (b, if h.pc == NilLimiter then c.(act := h) else CommitStep(c.(act := h), AllGood().ok(k))));
      ConsumesOn(cfg, s, s1, s');
      NoPanicFrom(cfg, s, s', t);
      HandleReturns(cfg, AllGood(), s1.st, t, c.act, 0);
      hide Handle;
      return;
    }
    ConsumesOn(cfg, s, s1, s');
  }

  lemma NoPanicFrom(cfg: Config, s: State, s': State, t: Topic)
    requires Reachable(cfg, s) && ConsumesTo(cfg, s, s') && t in s'.consumers
    ensures Reachable(cfg, s') && (s'.consumers[t].act.Busy? ==> s'.consumers[t].act.pc != NilLimiter)
  {
    ConsumesReaches(cfg, s, s');
    StaysReachable(cfg, s, s');
    hide Reachable, Reaches, ConsumesTo;
    if s'.consumers[t].act.Busy? { Guarantees.NoNilLimiter(cfg, s', t); }
  }

  /** Turns up to a record. */
  lemma TurnsUpTo(cfg: Config, s: State, t: Topic, o: nat) returns (s': State)
    requires Reachable(cfg, s) && t in s.consumers && s.consumers[t].act.Idle? && s.consumers[t].pos <= o && HasBody(s.st, t, o)
    ensures ConsumesTo(cfg, s, s') && Reachable(cfg, s') && s'.st.runs >= s.st.runs
    ensures t in s'.consumers && s'.consumers[t].act.Idle? && s'.consumers[t].pos == o && HasBody(s'.st, t, o) && Extends(s.st, s'.st)
  {
    var n := o - s.consumers[t].pos;
    assert s.consumers[t].pos + n <= |Log(s.st, t)|;
    hide ConsumesTo, Reachable, Turns, Inv, Extends, AllGood, HasBody;
    AllGoodIsFair();
    TurnsAdvance(cfg, s, t, n);
    TurnsReach(cfg, AllGood(), s, t, n);
    var (b, c, _) := Turns(cfg, AllGood(), 0, s.st, t, s.consumers[t], 0, n);
    s' := SetConsumer(s, t, (b, c));
    BodyStays(s.st, b, t, o);
    ReachableInv(cfg, s);
    RunsGrowTo(cfg, s, s');
  }

  /** And the turn for the record itself, which returns one handler's call. */
  lemma TurnsTo(cfg: Config, s: State, t: Topic, o: nat) returns (s': State)
    requires Reachable(cfg, s) && t in s.consumers && s.consumers[t].act.Idle? && s.consumers[t].pos <= o && HasBody(s.st, t, o)
    ensures ConsumesTo(cfg, s, s') && s'.st.runs > s.st.runs
  {
    hide ConsumesTo, Reachable, AllGood, Extends, Turn;
    var s1 := TurnsUpTo(cfg, s, t, o);
    AllGoodIsFair();
    TurnReaches(cfg, AllGood(), 0, s1, t, 0);
    var (b, c, _) := Turn(cfg, AllGood(), 0, s1.st, t, s1.consumers[t], 0);
    s' := SetConsumer(s1, t, (b, c));
    ConsumesOn(cfg, s, s1, s');
    NoPanicFrom(cfg, s, s', t);
    TurnCounts(cfg, AllGood(), s1.st, t, s1.consumers[t], 0);
  }

  lemma BodyStays(a: Store, b: Store, t: Topic, o: nat)
    requires Extends(a, b) && HasBody(a, t, o)
    ensures HasBody(b, t, o)
  {
    assert Log(a, t) <= Log(b, t);
  }

  lemma RunsGrowTo(cfg: Config, s: State, s': State)
    requires Inv(cfg, s) && ConsumesTo(cfg, s, s')
    ensures s.st.runs <= s'.st.runs
  {
    var acts :| Legal(cfg, s, acts) && Run(cfg, s, acts) == s' && AllConsuming(acts);
    RunsGrow(cfg, s, acts);
  }

  lemma TurnCounts(cfg: Config, env: Env, st: Store, t: Topic, c: Consumer, k: nat)
    requires c.act.Idle? && HasBody(st, t, c.pos) && Fair(env)
    ensures var (b, c', _) := Turn(cfg, env, 0, st, t, c, k); c'.act.Idle? ==> b.runs == st.runs + 1
    ensures var c' := Turn(cfg, env, 0, st, t, c, k).1; c'.act.Idle? || (c'.act.Busy? && c'.act.pc == NilLimiter)
  {
    var e := Log(st, t)[c.pos];
    var held := Move(AwaitIfRetry(st, t, e, 0), e.copy, Held(t, e.msg.value.retryCount));
    TurnByFields(cfg, env, 0, st, t, c, k);
    HandleReturns(cfg, env, held, t, Busy(if t == Retry then RetryLimiter else Limiter, c.pos, e.msg.value, e.copy), k);
    hide Turn, Handle;
  }

  /** Any copy that is in the pipeline is handled once more, by its own consumer. */
  lemma TakesUp(cfg: Config, s: State, c: nat) returns (s': State)
    requires Reachable(cfg, s) && !s.redelivered && c < |s.st.copies| && Weight(cfg, s.st.copies[c].place) > 0
    ensures ConsumesTo(cfg, s, s') && s'.st.runs > s.st.runs
  {
    ReachableLocated(cfg, s);
    assert PlaceReal(s.st, s.consumers, c);
    hide Located, Inv, Reachable, ConsumesTo;
    var p := s.st.copies[c].place;
    if p.Held? || !s.consumers[p.topic].act.Idle? {
      var s1 := Finishes(cfg, s, p.topic);
      if Holding(s.consumers[p.topic].act) { return s1; }
      ReachableKept(cfg, s, s1);
      BodyStays(s.st, s1.st, p.topic, p.offset);
      s' := TurnsTo(cfg, s1, p.topic, p.offset);
      ConsumesOn(cfg, s, s1, s');
    } else {
      s' := TurnsTo(cfg, s, p.topic, p.offset);
    }
  }

  lemma ReachableKept(cfg: Config, s: State, s': State)
    requires Reachable(cfg, s) && ConsumesTo(cfg, s, s')
    ensures Reachable(cfg, s') && Extends(s.st, s'.st)
  {
    ReachableInv(cfg, s);
    ConsumesReaches(cfg, s, s');
    StaysReachable(cfg, s, s');
    ReachesKeeps(cfg, s, s');
  }

  /** More handler calls returned, so less remains. */
  lemma LessRemains(cfg: Config, s: State, s': State)
    requires Reachable(cfg, s) && !s.redelivered && ConsumesTo(cfg, s, s') && s'.st.runs > s.st.runs
    ensures !s'.redelivered && Reachable(cfg, s') && Remaining(cfg, s'.st.copies) < Remaining(cfg, s.st.copies)
  {
    ReachableLocated(cfg, s);
    ReachableKept(cfg, s, s');
    var acts :| Legal(cfg, s, acts) && Run(cfg, s, acts) == s' && AllConsuming(acts);
    ConsumingIsQuiet(cfg, s, acts);
    hide Inv, Located, Remaining, Reachable;
    DrainRun(cfg, s, acts);
  }

  lemma {:induction false} Empties(cfg: Config, s: State) returns (s': State)
    requires Reachable(cfg, s) && !s.redelivered
    ensures ConsumesTo(cfg, s, s') && Reachable(cfg, s') && !s'.redelivered && Remaining(cfg, s'.st.copies) == 0
    decreases Remaining(cfg, s.st.copies)
  {
    if Remaining(cfg, s.st.copies) == 0 {
      ConsumesToItself(cfg, s);
      return s;
    }
    hide ConsumesTo, Reachable, Remaining;
    var c := SomeWeight(cfg, s.st.copies);
    var s1 := TakesUp(cfg, s, c);
    LessRemains(cfg, s, s1);
    s' := Empties(cfg, s1);
    ConsumesOn(cfg, s, s1, s');
  }

  /**
   From every reachable state without redelivery there is a run by the consumers alone, without new copies or crashes,
   at whose end no copy is left on a topic or with a handler.
   */
  lemma PipelineCanEmpty(cfg: Config, s: State)
    requires Reachable(cfg, s) && !s.redelivered
    ensures exists s' :: ConsumesTo(cfg, s, s') && forall x, c :: Occupies(s', x, c) ==> x.InDlq?
  {
    var s' := Empties(cfg, s);
    ReachableLocated(cfg, s');
    hide Inv, Located, Remaining, Reachable, ConsumesTo;
    forall x, c | Occupies(s', x, c)
      ensures x.InDlq?
    {
      NothingRemains(cfg, s', x, c);
    }
  }
}
