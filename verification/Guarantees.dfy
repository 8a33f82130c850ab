/**
 Consequences for every reachable state, crashes and redelivery included.
 */
module Guarantees {
  import opened Domain
  import opened Backoff
  import opened Protocol
  import opened Safety
  import opened Pipeline

  // ----- commit safety

  /** Below a committed offset every record has a true outcome. */
  lemma CommittedIsSettled(cfg: Config, s: State, t: Topic, o: nat)
    requires Reachable(cfg, s) && t in s.consumers && o < s.consumers[t].committed
    ensures (t, o) in s.st.outcomes && OutcomeSound(s.st, t, o, s.st.outcomes[(t, o)])
  {
    ReachableInv(cfg, s);
    assert ConsumerInv(cfg, s.st, t, s.consumers[t]);
    assert o < SettledBelow(s.consumers[t]);
  }

  /** A copy is accounted for: a record of it is still to be committed, a Send of it succeeded, or it is dead-lettered. */
  ghost predicate StillToCommit(s: State, copy: nat, t: Topic, o: nat) {
    && t in s.consumers && s.consumers[t].committed <= o < |Log(s.st, t)|
    && Log(s.st, t)[o].msg.Some? && Log(s.st, t)[o].copy == copy
  }

  ghost predicate WasAccepted(st: Store, copy: nat) {
    exists k :: 0 <= k < |st.trace| && st.trace[k].Sent? && st.trace[k].ok && st.trace[k].copy == copy
  }

  ghost predicate WasDeadLettered(st: Store, copy: nat) {
    exists o :: 0 <= o < |Log(st, DeadLetter)| && Log(st, DeadLetter)[o].msg.Some? && Log(st, DeadLetter)[o].copy == copy
  }

  ghost predicate Survives(s: State, copy: nat) {
    (exists t, o :: StillToCommit(s, copy, t, o)) || WasAccepted(s.st, copy) || WasDeadLettered(s.st, copy)
  }

  /** A handler returned an error for a record of the copy, and its offset was committed all the same. */
  ghost predicate Dropped(s: State, copy: nat, t: Topic, o: nat) {
    && t in s.consumers && o < s.consumers[t].committed && o < |Log(s.st, t)| && Log(s.st, t)[o].copy == copy
    && (t, o) in s.st.outcomes && s.st.outcomes[(t, o)] == HandlerError
  }

  /** Follow a record to its child on the retry topic, and on, until it is accounted for or was dropped. */
  lemma {:induction false} FollowRecord(cfg: Config, s: State, t: Topic, o: nat)
    requires Inv(cfg, s) && t in s.consumers && o < |Log(s.st, t)| && Log(s.st, t)[o].msg.Some?
    ensures var copy := Log(s.st, t)[o].copy; Survives(s, copy) || exists u, p :: Dropped(s, copy, u, p)
    decreases if t == Retry then 0 else 1, cfg.maxRetries - Log(s.st, t)[o].msg.value.retryCount
  {
    var e := Log(s.st, t)[o];
    var c := s.consumers[t];
    assert ConsumerInv(cfg, s.st, t, c);
    assert EntrySound(cfg, s.st, t, e);
    if c.committed <= o {
      assert StillToCommit(s, e.copy, t, o);
    } else {
      assert o < SettledBelow(c);
      var out := s.st.outcomes[(t, o)];
      assert OutcomeSound(s.st, t, o, out);
      match out
      case Accepted(k) => assert EventSound(s.st, s.st.trace[k]);
      case DeadLettered(j) =>
      case HandlerError => assert Dropped(s, e.copy, t, o);
      case Forwarded(j) =>
        ConsumedTopics(Retry);
        assert EntrySound(cfg, s.st, Retry, Log(s.st, Retry)[j]);
        FollowRecord(cfg, s, Retry, j);
    }
  }

  /**
   At-least-once delivery: a published copy is never lost, under any interleaving and any crashes,
   unless a handler returned an error for it.
   */
  lemma NothingIsLost(cfg: Config, s: State, copy: nat)
    requires Reachable(cfg, s) && copy < |s.st.copies|
    ensures Survives(s, copy) || exists t, o :: Dropped(s, copy, t, o)
  {
    ReachableInv(cfg, s);
    var r := s.st.copies[copy];
    assert CopySound(s.st, copy);
    assert EntrySound(cfg, s.st, r.topic, Log(s.st, r.topic)[r.offset]);
    ConsumedTopics(r.topic);
    FollowRecord(cfg, s, r.topic, r.offset);
  }

  // ----- counters, routing, limiters

  /** What can stand on each topic, and that no retry ever looks up a limiter that is not there. */
  lemma RoutingAndCounters(cfg: Config, s: State, t: Topic, o: nat)
    requires Reachable(cfg, s) && o < |Log(s.st, t)| && Log(s.st, t)[o].msg.Some?
    ensures var m := Log(s.st, t)[o].msg.value;
      && m.n.id in s.st.rows && s.st.rows[m.n.id].n == m.n && Known(m.n)
      && (t == Retry ==> 1 <= m.retryCount < cfg.maxRetries)
      && (t == DeadLetter ==> m.retryCount >= cfg.maxRetries)
      && (t.Work? ==> t == Work(m.n.channel, m.n.priority) && Consumed(t))
  {
    ReachableInv(cfg, s);
    assert EntrySound(cfg, s.st, t, Log(s.st, t)[o]);
  }

  lemma NoNilLimiter(cfg: Config, s: State, t: Topic)
    requires Reachable(cfg, s) && t in s.consumers && s.consumers[t].act.Busy?
    ensures s.consumers[t].act.pc != NilLimiter
  {
    ReachableInv(cfg, s);
    assert ConsumerInv(cfg, s.st, t, s.consumers[t]);
  }

  /** A non-empty idempotency key names at most one row. */
  lemma OneRowPerKey(cfg: Config, s: State, i: nat, j: nat)
    requires Reachable(cfg, s) && i in s.st.rows && j in s.st.rows
    requires s.st.rows[i].n.key == s.st.rows[j].n.key != ""
    ensures i == j
  {
    ReachableInv(cfg, s);
  }

  // ----- schedules and backoff

  /** No record of a scheduled notification is appended to any topic, and none is sent, before its time. */
  lemma NotBeforeSchedule(cfg: Config, s: State)
    requires Reachable(cfg, s)
    ensures forall t, o :: 0 <= o < |Log(s.st, t)| && Log(s.st, t)[o].msg.Some? ==>
      DueBy(Log(s.st, t)[o].msg.value.n, Log(s.st, t)[o].publishedAt)
    ensures forall k :: 0 <= k < |s.st.trace| && s.st.trace[k].Sent? ==> DueBy(s.st.trace[k].msg.n, s.st.trace[k].at)
  {
    ReachableInv(cfg, s);
    forall t, o | 0 <= o < |Log(s.st, t)| && Log(s.st, t)[o].msg.Some?
      ensures DueBy(Log(s.st, t)[o].msg.value.n, Log(s.st, t)[o].publishedAt)
    {
      assert EntrySound(cfg, s.st, t, Log(s.st, t)[o]);
    }
    forall k | 0 <= k < |s.st.trace| && s.st.trace[k].Sent?
      ensures DueBy(s.st.trace[k].msg.n, s.st.trace[k].at)
    {
      var e := s.st.trace[k];
      assert EventSound(s.st, e);
      assert EntrySound(cfg, s.st, e.topic, Log(s.st, e.topic)[e.offset]);
    }
  }

  /**
   A retry is sent no earlier than the times of all records up to it on the retry topic, so at most one second
   short of the exponential delay after each of those was published.
   */
  lemma RetryHonoursBackoff(cfg: Config, s: State, k: nat, o: nat)
    requires Reachable(cfg, s) && k < |s.st.trace| && s.st.trace[k].Sent? && s.st.trace[k].topic == Retry
    requires o <= s.st.trace[k].offset
    ensures o < |Log(s.st, Retry)| && WaitedFor(Log(s.st, Retry)[o], s.st.trace[k].at)
    ensures var e := Log(s.st, Retry)[o];
      e.msg.Some? ==>
        (e.msg.value.retryCount >= 1 && s.st.trace[k].at > e.publishedAt + MinDelay(cfg.baseDelay, e.msg.value.retryCount) - SECOND)
  {
    ReachableInv(cfg, s);
    assert EventSound(s.st, s.st.trace[k]);
    assert EntrySound(cfg, s.st, Retry, Log(s.st, Retry)[o]);
  }
}
