/** Runs without redelivery: a copy is lost exactly when a handler returned an error for it. */
module Losses {
  import opened Domain
  import opened Backoff
  import opened Protocol
  import opened Safety
  import opened Pipeline
  import opened Ledger
  import opened Copies

  ghost predicate ErrorsAreLosses(st: Store) {
    forall k :: k in st.outcomes && st.outcomes[k] == HandlerError ==>
      HasBody(st, k.0, k.1) && Log(st, k.0)[k.1].copy < |st.copies| && st.copies[Log(st, k.0)[k.1].copy].place == Lost(k.0, k.1)
  }

  ghost predicate LossesAreErrors(st: Store) {
    forall c :: 0 <= c < |st.copies| && st.copies[c].place.Lost? ==>
      var p := st.copies[c].place;
      && HasBody(st, p.topic, p.offset) && Log(st, p.topic)[p.offset].copy == c
      && (p.topic, p.offset) in st.outcomes && st.outcomes[(p.topic, p.offset)] == HandlerError
  }

  /** Nothing is settled before its time: each record is handled once. */
  ghost predicate UnsettledAbove(st: Store, cons: Consumers) {
    forall t, o: nat :: t in cons && SettledBelow(cons[t]) <= o ==> (t, o) !in st.outcomes
  }

  ghost predicate LossInv(st: Store, cons: Consumers) { ErrorsAreLosses(st) && LossesAreErrors(st) && UnsettledAbove(st, cons) }

  predicate Returned(h: Activity) { h.Busy? && (h.pc == MarkDelivered || h.pc == CommitOffset) }

  /** One handler call: the new outcome, if any, is for this record, and an error comes with the loss of its copy. */
  predicate Settles(a: Store, b: Store, t: Topic, h: Activity, h': Activity)
    requires h.Busy? && h.copy < |a.copies|
  {
    var k := (t, h.offset);
    && OthersStay(a, b, h.copy) && h'.Busy? && h'.offset == h.offset
    && (Returned(h) ==> Returned(h'))
    && if b.copies[h.copy].place.Lost? then
         b.outcomes == a.outcomes[k := HandlerError] && b.copies[h.copy].place == Lost(t, h.offset) && Returned(h')
       else
         b.outcomes == a.outcomes
         || (k in b.outcomes && b.outcomes == a.outcomes[k := b.outcomes[k]] && b.outcomes[k] != HandlerError && Returned(h'))
  }

  lemma HandlerSettles(cfg: Config, st: Store, t: Topic, h: Activity, ok: bool, jitter: real)
    requires Holding(h) && h.pc != NilLimiter && IsJitter(jitter) && h.copy < |st.copies| && !st.copies[h.copy].place.Lost?
    ensures var r := HandlerStep(cfg, st, t, h, ok, jitter); Settles(st, r.0, t, h, r.1)
  {
    HandlerCopies(cfg, st, t, h, ok, jitter);
    GiveUpSettles(st, t, h);
    hide RetryAt, LimiterChannel, WithStatus, OthersStay, PublishRetryAt, PublishDeadLetter, GiveUp;
    if ok && h.pc == ToRetry { RetrySettles(st, t, h, RetryAt(cfg, st.now, h.msg.retryCount, jitter)); }
    if ok && h.pc == ToDeadLetter { DeadLetterSettles(st, t, h); }
  }

  lemma GiveUpSettles(st: Store, t: Topic, h: Activity)
    requires Holding(h) && h.copy < |st.copies|
    ensures var (b, h') := GiveUp(st, t, h);
      && h.copy < |b.copies| && b.copies[h.copy].place == Lost(t, h.offset)
      && b.outcomes == st.outcomes[(t, h.offset) := HandlerError] && h' == h.(pc := CommitOffset)
  {}

  lemma RetrySettles(st: Store, t: Topic, h: Activity, at: int)
    requires Holding(h) && h.copy < |st.copies|
    ensures var b := PublishRetryAt(st, t, h, at);
      && h.copy < |b.copies| && !b.copies[h.copy].place.Lost?
      && b.outcomes == st.outcomes[(t, h.offset) := Forwarded(|Log(st, Retry)|)]
  {}

  lemma DeadLetterSettles(st: Store, t: Topic, h: Activity)
    requires Holding(h) && h.copy < |st.copies|
    ensures var b := PublishDeadLetter(st, t, h);
      && h.copy < |b.copies| && !b.copies[h.copy].place.Lost?
      && b.outcomes == st.outcomes[(t, h.offset) := DeadLettered(|Log(st, DeadLetter)|)]
  {}

  /** A handler that is about to be asked for its next call, with its copy in its hands. */
  predicate InHand(a: Store, cons: Consumers, t: Topic) {
    && t in cons && Holding(cons[t].act) && cons[t].act.copy < |a.copies|
    && a.copies[cons[t].act.copy].place.Held?
    && HasBody(a, t, cons[t].act.offset) && Log(a, t)[cons[t].act.offset].copy == cons[t].act.copy
    && cons[t].act.offset + 1 == cons[t].pos
  }

  lemma MoveLosses(a: Store, b: Store, cons: Consumers, t: Topic, h': Activity)
    requires LossInv(a, cons) && InHand(a, cons, t) && LogsExtend(a, b) && Settles(a, b, t, cons[t].act, h')
    ensures LossInv(b, cons[t := cons[t].(act := h')])
  {
    MoveErrors(a, b, cons, t, h');
    MoveLost(a, b, cons, t, h');
    MoveUnsettled(a, b, cons, t, h');
  }

  lemma MoveErrors(a: Store, b: Store, cons: Consumers, t: Topic, h': Activity)
    requires ErrorsAreLosses(a) && InHand(a, cons, t) && LogsExtend(a, b) && Settles(a, b, t, cons[t].act, h')
    ensures ErrorsAreLosses(b)
  {
    forall k | k in b.outcomes && b.outcomes[k] == HandlerError
      ensures HasBody(b, k.0, k.1) && Log(b, k.0)[k.1].copy < |b.copies| && b.copies[Log(b, k.0)[k.1].copy].place == Lost(k.0, k.1)
    {
      assert Log(a, k.0) <= Log(b, k.0);
      assert k != (t, cons[t].act.offset) ==> k in a.outcomes && a.outcomes[k] == HandlerError;
    }
  }

  lemma MoveLost(a: Store, b: Store, cons: Consumers, t: Topic, h': Activity)
    requires ErrorsAreLosses(a) && LossesAreErrors(a) && InHand(a, cons, t) && LogsExtend(a, b) && Settles(a, b, t, cons[t].act, h')
    ensures LossesAreErrors(b)
  {
    var h := cons[t].act;
    assert Log(a, t) <= Log(b, t);
    forall c | 0 <= c < |b.copies| && b.copies[c].place.Lost?
      ensures var p := b.copies[c].place;
        && HasBody(b, p.topic, p.offset) && Log(b, p.topic)[p.offset].copy == c
        && (p.topic, p.offset) in b.outcomes && b.outcomes[(p.topic, p.offset)] == HandlerError
    {
      if c != h.copy {
        var p := a.copies[c].place;
        assert b.copies[c] == a.copies[c];
        assert Log(a, p.topic) <= Log(b, p.topic);
        assert (p.topic, p.offset) != (t, h.offset);
      }
    }
  }

  lemma MoveUnsettled(a: Store, b: Store, cons: Consumers, t: Topic, h': Activity)
    requires UnsettledAbove(a, cons) && InHand(a, cons, t) && Settles(a, b, t, cons[t].act, h')
    ensures UnsettledAbove(b, cons[t := cons[t].(act := h')])
  {
    var cons' := cons[t := cons[t].(act := h')];
    forall u, o: nat | u in cons' && SettledBelow(cons'[u]) <= o
      ensures (u, o) !in b.outcomes
    {
      assert SettledBelow(cons[u]) <= o;
    }
  }

  // ----- the machine

  lemma WorkLosses(cfg: Config, s: State, t: Topic, ok: bool, jitter: real)
    requires Inv(cfg, s) && Located(cfg, s.st, s.consumers) && LossInv(s.st, s.consumers) && Enabled(s, Proceed(t, ok, jitter))
    ensures var s' := Step(cfg, s, Proceed(t, ok, jitter)); LossInv(s'.st, s'.consumers)
  {
    var c := s.consumers[t];
    assert ConsumerInv(cfg, s.st, t, c);
    if Holding(c.act) {
      OwnCopy(cfg, s.st, s.consumers, t);
      WorkKeeps(cfg, s, t, ok, jitter);
      hide Inv, Located, LossInv;
      HandlerSettles(cfg, s.st, t, c.act, ok, jitter);
      hide HandlerStep, Settles;
      MoveLosses(s.st, Step(cfg, s, Proceed(t, ok, jitter)).st, s.consumers, t, HandlerStep(cfg, s.st, t, c.act, ok, jitter).1);
    } else {
      EndLosses(s.st, s.consumers, t, ok);
    }
  }

  /** Ending a round settles nothing. */
  lemma EndLosses(st: Store, cons: Consumers, t: Topic, ok: bool)
    requires LossInv(st, cons) && t in cons && !Holding(cons[t].act) && !cons[t].act.Idle?
    ensures LossInv(st, cons[t := CommitStep(cons[t], ok)])
  {}

  /** Taking a copy up changes neither what is settled nor what is lost. */
  lemma TakeLosses(a: Store, b: Store, cons: Consumers, t: Topic, c': Consumer, k: nat)
    requires LossInv(a, cons) && t in cons && cons[t].act.Idle?
    requires b.logs == a.logs && b.outcomes == a.outcomes && OthersStay(a, b, k) && k < |a.copies|
    requires !a.copies[k].place.Lost? && !b.copies[k].place.Lost?
    requires c'.act.Busy? && !Returned(c'.act) && c'.act.offset == cons[t].pos
    ensures LossInv(b, cons[t := c'])
  {
    assert forall u :: Log(b, u) == Log(a, u);
    forall c | 0 <= c < |b.copies| && b.copies[c].place.Lost?
      ensures b.copies[c] == a.copies[c]
    {}
  }

  lemma SkipLosses(a: Store, b: Store, cons: Consumers, t: Topic, c': Consumer)
    requires LossInv(a, cons) && t in cons && cons[t].act.Idle? && !HasBody(a, t, cons[t].pos)
    requires b.logs == a.logs && b.copies == a.copies && b.outcomes == a.outcomes[(t, cons[t].pos) := Unparsable]
    requires c'.act.Skipping? && c'.pos == cons[t].pos + 1
    ensures LossInv(b, cons[t := c'])
  {
    assert forall u :: Log(b, u) == Log(a, u);
  }

  lemma FetchLosses(cfg: Config, s: State, t: Topic)
    requires Inv(cfg, s) && Located(cfg, s.st, s.consumers) && LossInv(s.st, s.consumers) && Enabled(s, Fetch(t))
    ensures var s' := Step(cfg, s, Fetch(t)); LossInv(s'.st, s'.consumers)
  {
    var c := s.consumers[t];
    var r := FetchStep(s.st, t, c);
    if HasBody(s.st, t, c.pos) {
      var k := Log(s.st, t)[c.pos].copy;
      assert s.st.copies[k].place.Unread?;
      hide Inv, Located, LossInv;
      TakeLosses(s.st, r.0, s.consumers, t, r.1, k);
    } else {
      hide Inv, Located, LossInv;
      SkipLosses(s.st, r.0, s.consumers, t, r.1);
    }
  }

  /** Stores that only grow, without new outcomes. */
  lemma GrowLosses(a: Store, b: Store, cons: Consumers)
    requires LossInv(a, cons) && LogsExtend(a, b) && b.outcomes == a.outcomes && a.copies <= b.copies
    requires forall c :: |a.copies| <= c < |b.copies| ==> !b.copies[c].place.Lost?
    ensures LossInv(b, cons)
  {
    forall t
      ensures Log(a, t) <= Log(b, t)
    {}
  }

  lemma OtherLosses(cfg: Config, s: State, a: Action)
    requires Inv(cfg, s) && LossInv(s.st, s.consumers) && Enabled(s, a) && !ConsumerAction(a)
    ensures var s' := Step(cfg, s, a); LossInv(s'.st, s'.consumers)
  {
    var s' := Step(cfg, s, a);
    InvStep(cfg, s, a);
    if !a.Junk? { OtherStepLogs(cfg, s, a); }
    hide Inv, LossInv, LogsExtend;
    GrowLosses(s.st, s'.st, s.consumers);
  }

  ghost predicate LossesKnown(cfg: Config, s: State) { !s.redelivered ==> LossInv(s.st, s.consumers) }

  lemma LossStep(cfg: Config, s: State, a: Action)
    requires Inv(cfg, s) && LocatedInv(cfg, s) && LossesKnown(cfg, s) && Enabled(s, a)
    ensures LossesKnown(cfg, Step(cfg, s, a))
  {
    if a.Crash? {
      var c := s.consumers[a.t];
      assert ConsumerInv(cfg, s.st, a.t, c);
      hide Inv, Located, LossInv;
      if c.committed == c.pos { assert s.consumers[a.t := Consumer(c.committed, c.committed, Idle)] == s.consumers; }
    } else if !s.redelivered {
      hide Inv, Located, LossInv;
      if a.Proceed? { WorkLosses(cfg, s, a.t, a.ok, a.jitter); }
      else if a.Fetch? { FetchLosses(cfg, s, a.t); }
      else { OtherLosses(cfg, s, a); }
    }
  }

  lemma {:induction false} LossRun(cfg: Config, acts: seq<Action>)
    requires Legal(cfg, Init(), acts)
    ensures LossesKnown(cfg, Run(cfg, Init(), acts))
    decreases |acts|
  {
    InvInit(cfg);
    if acts != [] {
      var front := acts[..|acts| - 1];
      LossRun(cfg, front);
      LocatedRun(cfg, front);
      InvRun(cfg, Init(), front);
      hide Inv, LocatedInv, LossesKnown, Step, Enabled;
      LossStep(cfg, Run(cfg, Init(), front), acts[|acts| - 1]);
    }
  }

  ghost predicate HandlerErredFor(st: Store, copy: nat, t: Topic, o: nat) {
    HasBody(st, t, o) && Log(st, t)[o].copy == copy && (t, o) in st.outcomes && st.outcomes[(t, o)] == HandlerError
  }

  /**
   Without redelivery, a published copy has dropped out of the pipeline undelivered and unrecorded if and only if a handler
   returned an error for one of its records: a failed limiter wait, or a failed publish to the retry or dead-letter topic.
   */
  lemma LostExactlyOnHandlerError(cfg: Config, s: State, copy: nat)
    requires Reachable(cfg, s) && !s.redelivered && copy < |s.st.copies|
    ensures ((forall x :: !Occupies(s, x, copy)) && Count(s.st.trace, AcceptedOf(copy)) == 0)
        <==> exists t, o :: HandlerErredFor(s.st, copy, t, o)
  {
    var acts :| Legal(cfg, Init(), acts) && Run(cfg, Init(), acts) == s;
    LossRun(cfg, acts);
    CopiesAreConserved(cfg, s, copy);
    ReachableLocated(cfg, s);
    hide Occupies, Count, Inv, Located;
    var p := s.st.copies[copy].place;
    if p.Lost? {
      assert HandlerErredFor(s.st, copy, p.topic, p.offset);
    } else if p != Arrived {
      assert Occupies(s, SlotOf(p).value, copy);
    }
  }
}
