/**
 Whole operations as compositions of machine steps: what one call of a handler, of the API, of a scheduler pass or of
 a consumer's loop comes to when nothing else moves. Each is a run of the machine.
 */
module Drive {
  import opened Domain
  import opened Backoff
  import opened Protocol
  import opened Safety
  import opened Pipeline
  import Guarantees

  /** How the environment answers: whether call number k succeeds, and the jitter drawn for it. */
  datatype Env = Env(ok: nat -> bool, jitter: nat -> real)

  ghost predicate Fair(env: Env) { forall k: nat :: IsJitter(env.jitter(k)) }

  /** Every call succeeds, and there is no jitter. */
  function AllGood(): (env: Env)
    ensures Fair(env) && forall k: nat :: env.ok(k)
  {
    Env(k => true, k => 0.0)
  }

  // ----- a handler

  function HandlerRank(pc: Pc): nat {
    match pc
    case CommitOffset | NilLimiter => 0
    case ToRetry | ToDeadLetter => 1
    case MarkFailed | MarkDelivered => 2
    case CountFailure => 3
    case Deliver => 4
    case MarkProcessing => 5
    case Limiter => 6
    case RetryLimiter => 7
    case AwaitTime => 8
  }

  predicate Returned(h: Activity) { h.Busy? && (h.pc == CommitOffset || h.pc == NilLimiter) }

  /** From some point of a handler's call to its return, or to the panic of a nil limiter. */
  ghost function Handle(cfg: Config, env: Env, st: Store, t: Topic, h: Activity, k: nat): (r: (Store, Activity, nat))
    requires h.Busy? && Fair(env)
    ensures Returned(r.1) && r.1.offset == h.offset
    decreases HandlerRank(h.pc)
  {
    if Returned(h) then (st, h, k)
    else
      var (st', h') := HandlerStep(cfg, st, t, h, env.ok(k), env.jitter(k));
      Handle(cfg, env, st', t, h', if h'.pc == NilLimiter then k else k + 1)
  }

  // ----- a handler's call, one call of another component at a time

  lemma AfterLimiter(cfg: Config, env: Env, st: Store, t: Topic, h: Activity, k: nat)
    requires h.Busy? && h.pc == Limiter && Fair(env)
    ensures
      Handle(cfg, env, st, t, h, k) ==
        if env.ok(k) then Handle(cfg, env, Record(st, Admitted(t, LimiterChannel(t, h.msg), st.now)), t, h.(pc := MarkProcessing), k + 1)
        else (GiveUp(st, t, h).0, h.(pc := CommitOffset), k + 1)
  {}

  lemma AfterRetryLimiter(cfg: Config, env: Env, st: Store, t: Topic, h: Activity, k: nat)
    requires h.Busy? && h.pc == RetryLimiter && Fair(env)
    ensures
      Handle(cfg, env, st, t, h, k) ==
        if !KnownChannel(h.msg.n.channel) then (st, h.(pc := NilLimiter), k)
        else if env.ok(k) then Handle(cfg, env, Record(st, Admitted(t, LimiterChannel(t, h.msg), st.now)), t, h.(pc := Limiter), k + 1)
        else (GiveUp(st, t, h).0, h.(pc := CommitOffset), k + 1)
  {}

  lemma AfterMark(cfg: Config, env: Env, st: Store, t: Topic, h: Activity, k: nat)
    requires h.Busy? && h.pc == MarkProcessing && Fair(env)
    ensures
      Handle(cfg, env, st, t, h, k) ==
        Handle(cfg, env, MarkStarted(UpdateStatus(st, h.msg.n.id, Processing, env.ok(k)), h.msg.n.id, env.ok(k)), t, h.(pc := Deliver), k + 1)
  {}

  lemma AfterSend(cfg: Config, env: Env, st: Store, t: Topic, h: Activity, k: nat)
    requires h.Busy? && h.pc == Deliver && Fair(env)
    ensures
      var sent := Record(st, Sent(t, LimiterChannel(t, h.msg), h.offset, h.copy, h.msg, env.ok(k), st.now));
      Handle(cfg, env, st, t, h, k) ==
        if env.ok(k) then Handle(cfg, env, Settle(sent, t, h.offset, Accepted(|st.trace|)), t, h.(pc := MarkDelivered), k + 1)
        else Handle(cfg, env, sent, t, h.(pc := CountFailure), k + 1)
  {}

  lemma AfterDelivery(cfg: Config, env: Env, st: Store, t: Topic, h: Activity, k: nat)
    requires h.Busy? && h.pc == MarkDelivered && Fair(env)
    ensures
      var b := UpdateStatus(st, h.msg.n.id, Delivered, env.ok(k));
      Handle(cfg, env, st, t, h, k) == (Move(b, h.copy, Arrived).(runs := b.runs + 1), h.(pc := CommitOffset), k + 1)
  {}

  lemma AfterCount(cfg: Config, env: Env, st: Store, t: Topic, h: Activity, k: nat)
    requires h.Busy? && h.pc == CountFailure && Fair(env)
    ensures
      var m := h.msg.(retryCount := h.msg.retryCount + 1);
      Handle(cfg, env, st, t, h, k) ==
        Handle(cfg, env, IncrementRetry(st, h.msg.n.id, env.ok(k)), t,
               h.(pc := if m.retryCount >= cfg.maxRetries then MarkFailed else ToRetry, msg := m), k + 1)
  {}

  lemma AfterMarkFailed(cfg: Config, env: Env, st: Store, t: Topic, h: Activity, k: nat)
    requires h.Busy? && h.pc == MarkFailed && Fair(env)
    ensures
      Handle(cfg, env, st, t, h, k) == Handle(cfg, env, UpdateStatus(st, h.msg.n.id, Failed, env.ok(k)), t, h.(pc := ToDeadLetter), k + 1)
  {}

  lemma AfterDeadLetter(cfg: Config, env: Env, st: Store, t: Topic, h: Activity, k: nat)
    requires h.Busy? && h.pc == ToDeadLetter && Fair(env)
    ensures
      Handle(cfg, env, st, t, h, k) ==
        (if env.ok(k) then PublishDeadLetter(st, t, h) else GiveUp(st, t, h).0, h.(pc := CommitOffset), k + 1)
  {}

  lemma AfterRetry(cfg: Config, env: Env, st: Store, t: Topic, h: Activity, k: nat)
    requires h.Busy? && h.pc == ToRetry && Fair(env)
    ensures
      Handle(cfg, env, st, t, h, k) ==
        (if env.ok(k) then PublishRetry(cfg, st, t, h, env.jitter(k)) else GiveUp(st, t, h).0, h.(pc := CommitOffset), k + 1)
  {}

  /** A step of a run, put in front of the rest. */
  lemma RunFirst(cfg: Config, s: State, a: Action, end: State)
    requires Enabled(s, a) && Reaches(cfg, Step(cfg, s, a), end)
    ensures Reaches(cfg, s, end)
  {
    var rest :| Legal(cfg, Step(cfg, s, a), rest) && Run(cfg, Step(cfg, s, a), rest) == end;
    hide Step, Enabled;
    OneStep(cfg, s, a);
    RunAfterRun(cfg, s, [a], rest);
  }

  lemma OneStep(cfg: Config, s: State, a: Action)
    requires Enabled(s, a)
    ensures Legal(cfg, s, [a]) && Run(cfg, s, [a]) == Step(cfg, s, a)
  {
    assert [a][..0] == [];
    assert Legal(cfg, s, []) && Run(cfg, s, []) == s;
    hide Step, Enabled;
  }

  lemma ReachesItself(cfg: Config, s: State)
    ensures Reaches(cfg, s, s)
  {
    assert Legal(cfg, s, []) && Run(cfg, s, []) == s;
  }

  lemma ReachesOn(cfg: Config, a: State, b: State, c: State)
    requires Reaches(cfg, a, b) && Reaches(cfg, b, c)
    ensures Reaches(cfg, a, c)
  {
    var front :| Legal(cfg, a, front) && Run(cfg, a, front) == b;
    var rest :| Legal(cfg, b, rest) && Run(cfg, b, rest) == c;
    RunAfterRun(cfg, a, front, rest);
  }

  lemma StepReaches(cfg: Config, s: State, a: Action)
    requires Enabled(s, a)
    ensures Reaches(cfg, s, Step(cfg, s, a))
  {
    OneStep(cfg, s, a);
    hide Step, Enabled;
  }

  // ----- runs in which consumers alone move, and the clock

  predicate Consuming(a: Action) { a.Tick? || a.Fetch? || a.Proceed? }

  predicate AllConsuming(acts: seq<Action>) { forall a :: a in acts ==> Consuming(a) }

  /** A run without calls, passes, crashes and junk leads from one state to the other. */
  ghost predicate ConsumesTo(cfg: Config, s: State, s': State) {
    exists acts :: Legal(cfg, s, acts) && Run(cfg, s, acts) == s' && AllConsuming(acts)
  }

  lemma ConsumesReaches(cfg: Config, s: State, s': State)
    requires ConsumesTo(cfg, s, s')
    ensures Reaches(cfg, s, s')
  {}

  lemma ConsumesToItself(cfg: Config, s: State)
    ensures ConsumesTo(cfg, s, s)
  {
    assert Legal(cfg, s, []) && Run(cfg, s, []) == s && AllConsuming([]);
  }

  lemma ConsumesOn(cfg: Config, a: State, b: State, c: State)
    requires ConsumesTo(cfg, a, b) && ConsumesTo(cfg, b, c)
    ensures ConsumesTo(cfg, a, c)
  {
    var front :| Legal(cfg, a, front) && Run(cfg, a, front) == b && AllConsuming(front);
    var rest :| Legal(cfg, b, rest) && Run(cfg, b, rest) == c && AllConsuming(rest);
    RunAfterRun(cfg, a, front, rest);
    assert AllConsuming(front + rest);
  }

  lemma StepConsumes(cfg: Config, s: State, a: Action)
    requires Enabled(s, a) && Consuming(a)
    ensures ConsumesTo(cfg, s, Step(cfg, s, a))
  {
    OneStep(cfg, s, a);
    hide Step, Enabled;
    assert AllConsuming([a]);
  }

  lemma ConsumesFirst(cfg: Config, s: State, a: Action, end: State)
    requires Enabled(s, a) && Consuming(a) && ConsumesTo(cfg, Step(cfg, s, a), end)
    ensures ConsumesTo(cfg, s, end)
  {
    StepConsumes(cfg, s, a);
    ConsumesOn(cfg, s, Step(cfg, s, a), end);
  }

  /** A handler's call, from any point on, is a run. */
  lemma {:induction false} HandleIsRun(cfg: Config, env: Env, s: State, t: Topic, k: nat)
    requires t in s.consumers && s.consumers[t].act.Busy? && s.consumers[t].act.pc != AwaitTime && Fair(env)
    ensures var c := s.consumers[t];
      var (st, h, _) := Handle(cfg, env, s.st, t, c.act, k);
      ConsumesTo(cfg, s, SetConsumer(s, t, (st, c.(act := h))))
    decreases HandlerRank(s.consumers[t].act.pc)
  {
    var c := s.consumers[t];
    if Returned(c.act) {
      assert SetConsumer(s, t, (s.st, c)) == s;
      ConsumesToItself(cfg, s);
    } else {
      var a := Proceed(t, env.ok(k), env.jitter(k));
      var (st', h') := HandlerStep(cfg, s.st, t, c.act, env.ok(k), env.jitter(k));
      var s' := SetConsumer(s, t, (st', c.(act := h')));
      LaterPc(cfg, s.st, t, c.act, env.ok(k), env.jitter(k));
      WorkIsHandlerStep(cfg, s, t, env.ok(k), env.jitter(k));
      hide ConsumesTo, HandlerStep, Step, Enabled;
      HandleIsRun(cfg, env, s', t, if h'.pc == NilLimiter then k else k + 1);
      var (st, h, _) := Handle(cfg, env, s.st, t, c.act, k);
      SetTwice(s, t, (st', c.(act := h')), (st, c.(act := h)));
      ConsumesFirst(cfg, s, a, SetConsumer(s, t, (st, c.(act := h))));
    }
  }

  lemma SetTwice(s: State, t: Topic, a: (Store, Consumer), b: (Store, Consumer))
    ensures SetConsumer(SetConsumer(s, t, a), t, b) == SetConsumer(s, t, b)
  {}

  lemma WorkIsHandlerStep(cfg: Config, s: State, t: Topic, ok: bool, jitter: real)
    requires t in s.consumers && s.consumers[t].act.Busy? && !Returned(s.consumers[t].act) && s.consumers[t].act.pc != AwaitTime
    requires IsJitter(jitter)
    ensures Enabled(s, Proceed(t, ok, jitter))
    ensures var (b, h) := HandlerStep(cfg, s.st, t, s.consumers[t].act, ok, jitter);
      Step(cfg, s, Proceed(t, ok, jitter)) == SetConsumer(s, t, (b, s.consumers[t].(act := h)))
  {
    hide HandlerStep;
  }

  lemma LaterPc(cfg: Config, st: Store, t: Topic, h: Activity, ok: bool, jitter: real)
    requires h.Busy? && !Returned(h) && IsJitter(jitter)
    ensures var h' := HandlerStep(cfg, st, t, h, ok, jitter).1; h'.Busy? && HandlerRank(h'.pc) < HandlerRank(h.pc) && h'.pc != AwaitTime
  {
    hide PublishRetry, PublishDeadLetter, UpdateStatus, IncrementRetry;
  }

  // ----- rounds of a consumer's loop

  /** Sleep until the record's time, if it has one that is still to come; the timer may overshoot. */
  function WakeUp(now: int, e: Entry, lag: nat): int {
    if e.retryAfter.Some? && now < e.retryAfter.value then e.retryAfter.value + lag else now
  }

  function AwaitIfRetry(st: Store, t: Topic, e: Entry, lag: nat): Store {
    if t == Retry then st.(now := WakeUp(st.now, e, lag)) else st
  }

  /** One turn of the loop: fetch, wait, handle, commit. A nil limiter's panic ends it before the commit. */
  ghost function Turn(cfg: Config, env: Env, lag: nat, st: Store, t: Topic, c: Consumer, k: nat): (Store, Consumer, nat)
    requires c.act.Idle? && c.pos < |Log(st, t)| && Fair(env)
  {
    var (fetched, c1) := FetchStep(AwaitIfRetry(st, t, Log(st, t)[c.pos], lag), t, c);
    if c1.act.Skipping? then (fetched, CommitStep(c1, env.ok(k)), k + 1)
    else
      var (handled, h, k1) := Handle(cfg, env, fetched, t, c1.act.(pc := if t == Retry then RetryLimiter else Limiter), k);
      if h.pc == NilLimiter then (handled, c1.(act := h), k1)
      else (handled, CommitStep(c1.(act := h), env.ok(k1)), k1 + 1)
  }

  /** A turn, by the fields it sets. */
  lemma TurnByFields(cfg: Config, env: Env, lag: nat, st: Store, t: Topic, c: Consumer, k: nat)
    requires c.act.Idle? && c.pos < |Log(st, t)| && Fair(env)
    ensures var e := Log(st, t)[c.pos];
      var awake := AwaitIfRetry(st, t, e, lag);
      var turn := Turn(cfg, env, lag, st, t, c, k);
      if e.msg.None? then
        turn == (Settle(awake, t, c.pos, Unparsable), Consumer(c.pos + 1, if env.ok(k) then c.pos + 1 else c.committed, Idle), k + 1)
      else
        var m := e.msg.value;
        var h := Busy(if t == Retry then RetryLimiter else Limiter, c.pos, m, e.copy);
        var (b, end, k1) := Handle(cfg, env, Move(awake, e.copy, Held(t, m.retryCount)), t, h, k);
        turn == if end.pc == NilLimiter then (b, Consumer(c.pos + 1, c.committed, end), k1)
                else (b, Consumer(c.pos + 1, if env.ok(k1) then c.pos + 1 else c.committed, Idle), k1 + 1)
  {
    hide Handle, Settle, Move;
  }

  ghost function Turns(cfg: Config, env: Env, lag: nat, st: Store, t: Topic, c: Consumer, k: nat, n: nat): (r: (Store, Consumer, nat))
    requires Fair(env)
    decreases n
  {
    if n == 0 then (st, c, k)
    else
      var (st', c', k') := Turns(cfg, env, lag, st, t, c, k, n - 1);
      if c'.act.Idle? && c'.pos < |Log(st', t)| then Turn(cfg, env, lag, st', t, c', k') else (st', c', k')
  }

  lemma TickReaches(cfg: Config, s: State, now: int)
    requires s.st.now <= now
    ensures ConsumesTo(cfg, s, s.(st := s.st.(now := now)))
  {
    StepConsumes(cfg, s, Tick(now - s.st.now));
  }

  /** Waiting and fetching. */
  lemma FetchReaches(cfg: Config, s: State, t: Topic, lag: nat)
    requires t in s.consumers && s.consumers[t].act.Idle? && s.consumers[t].pos < |Log(s.st, t)|
    ensures var c := s.consumers[t];
      ConsumesTo(cfg, s, SetConsumer(s, t, FetchStep(AwaitIfRetry(s.st, t, Log(s.st, t)[c.pos], lag), t, c)))
  {
    var c := s.consumers[t];
    var st1 := AwaitIfRetry(s.st, t, Log(s.st, t)[c.pos], lag);
    var s1 := s.(st := st1);
    TickReaches(cfg, s, st1.now);
    hide FetchStep, Reaches;
    StepConsumes(cfg, s1, Fetch(t));
    ConsumesOn(cfg, s, s1, Step(cfg, s1, Fetch(t)));
  }

  /** The time a record of the retry topic was waited for has come. */
  lemma Awaited(cfg: Config, s: State, t: Topic)
    requires t in s.consumers && s.consumers[t].act.Busy? && s.consumers[t].act.pc == AwaitTime
    requires TimeReached(s.st, t, s.consumers[t].act.offset)
    ensures var c := s.consumers[t]; ConsumesTo(cfg, s, SetConsumer(s, t, (s.st, c.(act := c.act.(pc := RetryLimiter)))))
  {
    StepConsumes(cfg, s, Proceed(t, true, 0.0));
  }

  lemma CommitReaches(cfg: Config, s: State, t: Topic, ok: bool)
    requires t in s.consumers && (s.consumers[t].act.Skipping? || (s.consumers[t].act.Busy? && s.consumers[t].act.pc == CommitOffset))
    ensures ConsumesTo(cfg, s, SetConsumer(s, t, (s.st, CommitStep(s.consumers[t], ok))))
  {
    StepConsumes(cfg, s, Proceed(t, ok, 0.0));
  }

  /** What the handler starts from. */
  function Started(t: Topic, c: Consumer): Consumer
    requires c.act.Busy?
  {
    c.(act := c.act.(pc := if t == Retry then RetryLimiter else Limiter))
  }

  lemma FetchedReady(st: Store, t: Topic, c: Consumer, lag: nat)
    requires c.act.Idle? && c.pos < |Log(st, t)|
    ensures var (b, c1) := FetchStep(AwaitIfRetry(st, t, Log(st, t)[c.pos], lag), t, c);
      && (c1.act.Skipping? || c1.act.Busy?)
      && (c1.act.Busy? && t == Retry ==> c1.act.pc == AwaitTime && TimeReached(b, t, c1.act.offset))
      && (c1.act.Busy? && t != Retry ==> Started(t, c1) == c1)
  {}

  /** From a fetched record to the start of its handler. */
  lemma StartReaches(cfg: Config, s: State, t: Topic)
    requires t in s.consumers && s.consumers[t].act.Busy?
    requires if t == Retry then s.consumers[t].act.pc == AwaitTime && TimeReached(s.st, t, s.consumers[t].act.offset)
             else Started(t, s.consumers[t]) == s.consumers[t]
    ensures ConsumesTo(cfg, s, SetConsumer(s, t, (s.st, Started(t, s.consumers[t]))))
  {
    hide ConsumesTo;
    if t == Retry {
      Awaited(cfg, s, t);
    } else {
      assert SetConsumer(s, t, (s.st, s.consumers[t])) == s;
      ConsumesToItself(cfg, s);
    }
  }

  /** From the start of a handler to the end of the turn. */
  lemma FinishReaches(cfg: Config, env: Env, s: State, t: Topic, k: nat)
    requires t in s.consumers && s.consumers[t].act.Busy? && s.consumers[t].act.pc != AwaitTime && Fair(env)
    ensures var c := s.consumers[t];
      var (b, h, k1) := Handle(cfg, env, s.st, t, c.act, k);
      ConsumesTo(cfg, s, SetConsumer(s, t, (b, if h.pc == NilLimiter then c.(act := h) else CommitStep(c.(act := h), env.ok(k1)))))
  {
    var c := s.consumers[t];
    var (b, h, k1) := Handle(cfg, env, s.st, t, c.act, k);
    HandleIsRun(cfg, env, s, t, k);
    hide ConsumesTo, Handle, CommitStep;
    if h.pc != NilLimiter {
      var s1 := SetConsumer(s, t, (b, c.(act := h)));
      CommitReaches(cfg, s1, t, env.ok(k1));
      SetTwice(s, t, (b, c.(act := h)), (b, CommitStep(c.(act := h), env.ok(k1))));
      ConsumesOn(cfg, s, s1, SetConsumer(s, t, (b, CommitStep(c.(act := h), env.ok(k1)))));
    }
  }

  lemma TurnReaches(cfg: Config, env: Env, lag: nat, s: State, t: Topic, k: nat)
    requires t in s.consumers && s.consumers[t].act.Idle? && s.consumers[t].pos < |Log(s.st, t)| && Fair(env)
    ensures var (b, c, _) := Turn(cfg, env, lag, s.st, t, s.consumers[t], k); ConsumesTo(cfg, s, SetConsumer(s, t, (b, c)))
  {
    var c0 := s.consumers[t];
    var (fetched, c1) := FetchStep(AwaitIfRetry(s.st, t, Log(s.st, t)[c0.pos], lag), t, c0);
    var (b, c, _) := Turn(cfg, env, lag, s.st, t, c0, k);
    FetchReaches(cfg, s, t, lag);
    FetchedReady(s.st, t, c0, lag);
    hide ConsumesTo, FetchStep, Handle, CommitStep, AwaitIfRetry, TimeReached;
    var s1 := SetConsumer(s, t, (fetched, c1));
    if c1.act.Skipping? {
      CommitReaches(cfg, s1, t, env.ok(k));
      SetTwice(s, t, (fetched, c1), (b, c));
      ConsumesOn(cfg, s, s1, SetConsumer(s, t, (b, c)));
    } else {
      var s2 := SetConsumer(s, t, (fetched, Started(t, c1)));
      StartReaches(cfg, s1, t);
      SetTwice(s, t, (fetched, c1), (fetched, Started(t, c1)));
      FinishReaches(cfg, env, s2, t, k);
      SetTwice(s, t, (fetched, Started(t, c1)), (b, c));
      ConsumesOn(cfg, s, s1, s2);
      ConsumesOn(cfg, s, s2, SetConsumer(s, t, (b, c)));
    }
  }

  lemma NoTurns(cfg: Config, env: Env, lag: nat, st: Store, t: Topic, c: Consumer, k: nat)
    requires Fair(env)
    ensures Turns(cfg, env, lag, st, t, c, k, 0) == (st, c, k)
  {}

  lemma TurnsNext(cfg: Config, env: Env, lag: nat, st: Store, t: Topic, c: Consumer, k: nat, n: nat)
    requires n > 0 && Fair(env)
    ensures var (b, c1, k1) := Turns(cfg, env, lag, st, t, c, k, n - 1);
      Turns(cfg, env, lag, st, t, c, k, n) == if c1.act.Idle? && c1.pos < |Log(b, t)| then Turn(cfg, env, lag, b, t, c1, k1) else (b, c1, k1)
  {
    hide Turn;
  }

  /** Any number of turns of a consumer's loop is a run of the machine. */
  lemma {:induction false} TurnsAreRuns(cfg: Config, env: Env, lag: nat, s: State, t: Topic, k: nat, n: nat)
    requires t in s.consumers && Fair(env)
    ensures var (b, c, _) := Turns(cfg, env, lag, s.st, t, s.consumers[t], k, n); ConsumesTo(cfg, s, SetConsumer(s, t, (b, c)))
    decreases n
  {
    var c0 := s.consumers[t];
    hide ConsumesTo, Turn, Turns, Fair;
    if n == 0 {
      NoTurns(cfg, env, lag, s.st, t, c0, k);
      assert SetConsumer(s, t, (s.st, c0)) == s;
      ConsumesToItself(cfg, s);
    } else {
      TurnsAreRuns(cfg, env, lag, s, t, k, n - 1);
      TurnsNext(cfg, env, lag, s.st, t, c0, k, n);
      var (b, c, k1) := Turns(cfg, env, lag, s.st, t, c0, k, n - 1);
      if c.act.Idle? && c.pos < |Log(b, t)| { OneMoreTurn(cfg, env, lag, s, t, b, c, k1); }
    }
  }

  lemma OneMoreTurn(cfg: Config, env: Env, lag: nat, s: State, t: Topic, b: Store, c: Consumer, k: nat)
    requires ConsumesTo(cfg, s, SetConsumer(s, t, (b, c))) && c.act.Idle? && c.pos < |Log(b, t)| && Fair(env)
    ensures var (b2, c2, _) := Turn(cfg, env, lag, b, t, c, k); ConsumesTo(cfg, s, SetConsumer(s, t, (b2, c2)))
  {
    hide ConsumesTo, Turn, Fair;
    var s1 := SetConsumer(s, t, (b, c));
    TurnReaches(cfg, env, lag, s1, t, k);
    var (b2, c2, _) := Turn(cfg, env, lag, b, t, c, k);
    SetTwice(s, t, (b, c), (b2, c2));
    ConsumesOn(cfg, s, s1, SetConsumer(s, t, (b2, c2)));
  }

  // ----- API calls

  function CallRank(c: Call): nat
    requires c.Finished? || CallReady(c)
  {
    match c
    case Create(pc, _) =>
      (match pc case Insert => 5 case CheckSchedule => 4 case MarkQueued => 3 case Enqueue => 2 case RollBack => 1)
    case Batch(pc, ns, i) =>
      (match pc case InsertAll => 2 * |ns| + 2 case EnqueueNext => 2 * (|ns| - i) + 1 case MarkNext => 2 * (|ns| - i))
    case Cancel(_, checked) => if checked then 1 else 2
    case Finished(_) => 0
  }

  /** Comparing the schedule with the clock is the one step of a call that asks nobody anything. */
  predicate Asks(c: Call) { !(c.Create? && c.cpc == CheckSchedule) }

  lemma LowerRank(st: Store, c: Call, ok: bool)
    requires CallReady(c)
    ensures var c' := CallStep(st, c, ok).1; (c'.Finished? || CallReady(c')) && CallRank(c') < CallRank(c)
  {
    hide InsertRows, BatchInsertable, Publish, UpdateStatus;
  }

  /** A call from some point to its end. */
  function Serve(env: Env, st: Store, c: Call, k: nat): (r: (Store, Call, nat))
    requires c.Finished? || CallReady(c)
    ensures r.1.Finished?
    decreases CallRank(c)
  {
    if c.Finished? then (st, c, k)
    else
      LowerRank(st, c, env.ok(k));
      var (st', c') := CallStep(st, c, env.ok(k));
      Serve(env, st', c', if Asks(c) then k + 1 else k)
  }

  lemma ServeNext(env: Env, st: Store, c: Call, k: nat)
    requires CallReady(c)
    ensures var (st', c') := CallStep(st, c, env.ok(k));
      var k' := if Asks(c) then k + 1 else k;
      if c'.Finished? then Serve(env, st, c, k) == (st', c', k')
      else CallReady(c') && Serve(env, st, c, k) == Serve(env, st', c', k')
  {
    LowerRank(st, c, env.ok(k));
    hide CallStep;
  }

  function SetCall(s: State, id: nat, r: (Store, Call)): State { s.(st := r.0, calls := s.calls[id := r.1]) }

  /** Serving a call is a run of the machine. */
  lemma {:induction false} ServeIsRun(cfg: Config, env: Env, s: State, id: nat, k: nat)
    requires id in s.calls && (s.calls[id].Finished? || CallReady(s.calls[id]))
    ensures var (b, c, _) := Serve(env, s.st, s.calls[id], k); Reaches(cfg, s, SetCall(s, id, (b, c)))
    decreases CallRank(s.calls[id])
  {
    var c := s.calls[id];
    var (b, end, _) := Serve(env, s.st, c, k);
    if c.Finished? {
      assert SetCall(s, id, (s.st, c)) == s;
      ReachesItself(cfg, s);
    } else {
      var (st', c') := CallStep(s.st, c, env.ok(k));
      var s' := SetCall(s, id, (st', c'));
      ServeNext(env, s.st, c, k);
      LowerRank(s.st, c, env.ok(k));
      assert Enabled(s, StepCall(id, env.ok(k))) && Step(cfg, s, StepCall(id, env.ok(k))) == s';
      hide Reaches, CallStep, Step, Enabled, Serve;
      ServeIsRun(cfg, env, s', id, if Asks(c) then k + 1 else k);
      assert SetCall(s', id, (b, end)) == SetCall(s, id, (b, end));
      RunFirst(cfg, s, StepCall(id, env.ok(k)), SetCall(s, id, (b, end)));
    }
  }

  // ----- scheduler passes

  function PassRank(p: Pass): nat
    requires p.next <= |p.items|
  {
    2 * (|p.items| - p.next) + if p.marking then 0 else 1
  }

  /** A pass from some point to its end. */
  function Sweep(env: Env, st: Store, p: Pass, k: nat): (r: (Store, Pass, nat))
    requires p.next <= |p.items|
    decreases PassRank(p)
  {
    if p.next == |p.items| then (st, p, k)
    else
      var (st', p') := PassStep(st, p, env.ok(k));
      Sweep(env, st', p', k + 1)
  }

  lemma SweepNext(env: Env, st: Store, p: Pass, k: nat)
    requires p.next < |p.items|
    ensures var (st', p') := PassStep(st, p, env.ok(k)); Sweep(env, st, p, k) == Sweep(env, st', p', k + 1)
  {}

  function SetPass(s: State, id: nat, r: (Store, Pass)): State { s.(st := r.0, passes := s.passes[id := r.1]) }

  /** A scheduler pass is a run of the machine. */
  lemma {:induction false} SweepIsRun(cfg: Config, env: Env, s: State, id: nat, k: nat)
    requires id in s.passes && s.passes[id].next <= |s.passes[id].items|
    ensures var (b, p, _) := Sweep(env, s.st, s.passes[id], k); Reaches(cfg, s, SetPass(s, id, (b, p)))
    decreases PassRank(s.passes[id])
  {
    var p := s.passes[id];
    var (b, end, _) := Sweep(env, s.st, p, k);
    if p.next == |p.items| {
      assert SetPass(s, id, (s.st, p)) == s;
      ReachesItself(cfg, s);
    } else {
      var (st', p') := PassStep(s.st, p, env.ok(k));
      var s' := SetPass(s, id, (st', p'));
      assert Enabled(s, StepPass(id, env.ok(k))) && Step(cfg, s, StepPass(id, env.ok(k))) == s';
      hide Reaches, Step, Enabled, Publish, UpdateStatus;
      SweepIsRun(cfg, env, s', id, k + 1);
      assert SetPass(s', id, (b, end)) == SetPass(s, id, (b, end));
      RunFirst(cfg, s, StepPass(id, env.ok(k)), SetPass(s, id, (b, end)));
    }
  }

  // ----- what all of them inherit

  lemma StaysReachable(cfg: Config, s: State, s': State)
    requires Reachable(cfg, s) && Reaches(cfg, s, s')
    ensures Reachable(cfg, s')
  {
    ReachesOn(cfg, Init(), s, s');
  }

  /** A consumer's loop never ends in a nil limiter's panic, from any reachable state on. */
  lemma LoopNeverPanics(cfg: Config, env: Env, lag: nat, s: State, t: Topic, k: nat, n: nat)
    requires Reachable(cfg, s) && t in s.consumers && s.consumers[t].act.Idle? && Fair(env)
    ensures Turns(cfg, env, lag, s.st, t, s.consumers[t], k, n).1.act.Idle?
  {
    var (b, c, _) := Turns(cfg, env, lag, s.st, t, s.consumers[t], k, n);
    TurnsAreRuns(cfg, env, lag, s, t, k, n);
    ConsumesReaches(cfg, s, SetConsumer(s, t, (b, c)));
    TurnsEndIdle(cfg, env, lag, s.st, t, s.consumers[t], k, n);
    var s' := SetConsumer(s, t, (b, c));
    hide Reachable, Reaches, ConsumesTo, Turns;
    StaysReachable(cfg, s, s');
    if c.act.Busy? { Guarantees.NoNilLimiter(cfg, s', t); }
  }

  lemma {:induction false} TurnsEndIdle(cfg: Config, env: Env, lag: nat, st: Store, t: Topic, c: Consumer, k: nat, n: nat)
    requires c.act.Idle? && Fair(env)
    ensures var end := Turns(cfg, env, lag, st, t, c, k, n).1.act; end.Idle? || (end.Busy? && end.pc == NilLimiter)
    decreases n
  {
    if n > 0 {
      TurnsEndIdle(cfg, env, lag, st, t, c, k, n - 1);
      var (b, c1, k1) := Turns(cfg, env, lag, st, t, c, k, n - 1);
      if c1.act.Idle? && c1.pos < |Log(b, t)| {
        TurnByFields(cfg, env, lag, b, t, c1, k1);
        hide Turn;
      }
    }
  }

  lemma ReachesKeeps(cfg: Config, s: State, s': State)
    requires Inv(cfg, s) && Reaches(cfg, s, s')
    ensures Inv(cfg, s') && Extends(s.st, s'.st)
  {
    var acts :| Legal(cfg, s, acts) && Run(cfg, s, acts) == s';
    InvRun(cfg, s, acts);
  }

  lemma TurnsReach(cfg: Config, env: Env, s: State, t: Topic, n: nat)
    requires Reachable(cfg, s) && t in s.consumers && Fair(env)
    ensures var (b, c, _) := Turns(cfg, env, 0, s.st, t, s.consumers[t], 0, n);
      var s' := SetConsumer(s, t, (b, c));
      ConsumesTo(cfg, s, s') && Reachable(cfg, s') && Inv(cfg, s') && Extends(s.st, b)
  {
    var (b, c, _) := Turns(cfg, env, 0, s.st, t, s.consumers[t], 0, n);
    var s' := SetConsumer(s, t, (b, c));
    TurnsAreRuns(cfg, env, 0, s, t, 0, n);
    ConsumesReaches(cfg, s, s');
    StaysReachable(cfg, s, s');
    ReachableInv(cfg, s);
    ReachesKeeps(cfg, s, s');
    hide *;
  }

  lemma GoodTurn(cfg: Config, st: Store, t: Topic, c: Consumer, k: nat)
    requires c.act.Idle? && c.pos < |Log(st, t)|
    ensures var end := Turn(cfg, AllGood(), 0, st, t, c, k).1; end.act.Idle? ==> end == Consumer(c.pos + 1, c.pos + 1, Idle)
  {
    TurnByFields(cfg, AllGood(), 0, st, t, c, k);
    hide Turn, Handle;
  }

  lemma AllGoodIsFair()
    ensures Fair(AllGood())
  {}

  /** When every call succeeds, each turn goes one record further and commits it. */
  lemma {:induction false} TurnsAdvance(cfg: Config, s: State, t: Topic, n: nat)
    requires Reachable(cfg, s) && t in s.consumers && s.consumers[t].act.Idle? && s.consumers[t].pos + n <= |Log(s.st, t)|
    ensures Turns(cfg, AllGood(), 0, s.st, t, s.consumers[t], 0, n).1
      == Consumer(s.consumers[t].pos + n, if n == 0 then s.consumers[t].committed else s.consumers[t].pos + n, Idle)
    decreases n
  {
    hide *;
    AllGoodIsFair();
    if n == 0 {
      NoTurns(cfg, AllGood(), 0, s.st, t, s.consumers[t], 0);
    } else {
      var (b, c, k) := Turns(cfg, AllGood(), 0, s.st, t, s.consumers[t], 0, n - 1);
      TurnsAdvance(cfg, s, t, n - 1);
      TurnsReach(cfg, AllGood(), s, t, n - 1);
      LoopNeverPanics(cfg, AllGood(), 0, s, t, 0, n);
      TurnsNext(cfg, AllGood(), 0, s.st, t, s.consumers[t], 0, n);
      LongerLog(s.st, b, t);
      GoodTurn(cfg, b, t, c, k);
    }
  }

  lemma LongerLog(a: Store, b: Store, t: Topic)
    requires Extends(a, b)
    ensures |Log(a, t)| <= |Log(b, t)|
  {
    assert Log(a, t) <= Log(b, t);
  }
}
