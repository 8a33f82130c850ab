/** When cancelling holds: the conditions of `QuietCancel` are not only enough, each of them is needed. */
module CancelHolds {
  import opened Domain
  import opened Protocol
  import opened Safety
  import opened Pipeline
  import opened QuietCancel
  import opened Drive
  import Emptying
  import PublishOnce

  predicate StillCancelled(st: Store, id: nat) { id in st.rows && st.rows[id].status == Cancelled }

  /** In this continuation the row is still cancelled, and nothing was appended, published or sent for it. */
  ghost predicate Kept(s: State, s': State, id: nat) { StillCancelled(s'.st, id) && NothingFor(s.st, s'.st, id) }

  /** Cancelling holds: so it is in every continuation, crashes included. */
  ghost predicate CancelHolds(cfg: Config, s: State, id: nat) { forall s' :: Reaches(cfg, s, s') ==> Kept(s, s', id) }

  /** Some continuation breaks it. */
  ghost predicate Breaks(cfg: Config, s: State, id: nat) { exists s' :: Reaches(cfg, s, s') && !Kept(s, s', id) }

  lemma BreaksLater(cfg: Config, s: State, s1: State, id: nat)
    requires Reaches(cfg, s, s1) && Extends(s.st, s1.st) && Breaks(cfg, s1, id)
    ensures Breaks(cfg, s, id)
  {
    var s' :| Reaches(cfg, s1, s') && !Kept(s1, s', id);
    ReachesOn(cfg, s, s1, s');
    hide Reaches;
    if Kept(s, s', id) { NothingLater(s.st, s1.st, s'.st, id); }
  }

  lemma NothingLater(a: Store, b: Store, c: Store, id: nat)
    requires NothingFor(a, c, id) && Extends(a, b)
    ensures NothingFor(b, c, id)
  {
    forall t, o | |Log(b, t)| <= o < |Log(c, t)|
      ensures !IsFor(Log(c, t)[o], id)
    {
      assert Log(a, t) <= Log(b, t);
    }
  }

  /** One step breaks it when the row is written, or a copy is published. */
  lemma StepBreaks(cfg: Config, s: State, a: Action, id: nat)
    requires Enabled(s, a)
    requires var b := Step(cfg, s, a).st; !StillCancelled(b, id) || (|s.st.copies| < |b.copies| && b.copies[|s.st.copies|].first.n.id == id)
    ensures Breaks(cfg, s, id)
  {
    StepReaches(cfg, s, a);
    hide Step, Enabled, Reaches;
    assert !Kept(s, Step(cfg, s, a), id);
  }

  /** A first step, after which something breaks it. */
  lemma StepThenBreaks(cfg: Config, s: State, a: Action, id: nat)
    requires Inv(cfg, s) && Enabled(s, a) && Breaks(cfg, Step(cfg, s, a), id)
    ensures Breaks(cfg, s, id)
  {
    InvStep(cfg, s, a);
    StepReaches(cfg, s, a);
    hide Inv, Step, Enabled, Reaches, Breaks, Extends;
    BreaksLater(cfg, s, Step(cfg, s, a), id);
  }

  // ----- scheduler passes

  lemma {:induction false} PassBreaks(cfg: Config, s: State, p: nat, j: nat, id: nat)
    requires Inv(cfg, s) && p in s.passes && s.passes[p].next <= j < |s.passes[p].items| && s.passes[p].items[j].n.id == id
    ensures Breaks(cfg, s, id)
    decreases j - s.passes[p].next, if s.passes[p].marking then 0 else 1
  {
    var a := StepPass(p, true);
    var q := s.passes[p];
    PassStepEffect(cfg, s, p, id);
    hide Step, Breaks, PassStep;
    if q.next == j {
      StepBreaks(cfg, s, a, id);
    } else {
      InvStep(cfg, s, a);
      hide Inv, Extends;
      PassBreaks(cfg, Step(cfg, s, a), p, j, id);
      StepThenBreaks(cfg, s, a, id);
    }
  }

  /** A pass whose calls succeed goes on, and writes queued for, or publishes, what it is at. */
  lemma PassStepEffect(cfg: Config, s: State, p: nat, id: nat)
    requires Inv(cfg, s) && p in s.passes && s.passes[p].next < |s.passes[p].items|
    ensures var a, q := StepPass(p, true), s.passes[p];
      var b := Step(cfg, s, a).st;
      && p in Step(cfg, s, a).passes
      && Step(cfg, s, a).passes[p] == (if q.marking then Pass(q.items, q.next + 1, false) else q.(marking := true))
      && (q.items[q.next].n.id == id ==>
            !StillCancelled(b, id) || (|s.st.copies| < |b.copies| && b.copies[|s.st.copies|].first.n.id == id))
  {
    assert PassInv(s.st, s.passes[p]);
    hide StoreInv, ConsumersInv, CallsInv, PassesInv;
  }

  // ----- API calls

  lemma CreateBreaks(cfg: Config, s: State, c: nat, id: nat)
    requires Inv(cfg, s) && c in s.calls && s.calls[c].Create? && s.calls[c].cpc != Insert && s.calls[c].n.id == id
    ensures Breaks(cfg, s, id)
  {
    if s.calls[c].cpc == CheckSchedule {
      var n := s.calls[c].n;
      var d := if n.scheduledAt.Some? && n.scheduledAt.value > s.st.now then n.scheduledAt.value - s.st.now else 0;
      var s1 := Step(cfg, s, Tick(d));
      var s2 := Step(cfg, s1, StepCall(c, true));
      assert s2.calls[c] == Create(MarkQueued, n);
      InvStep(cfg, s, Tick(d));
      InvStep(cfg, s1, StepCall(c, true));
      hide Inv, Extends, Breaks;
      CreateWrites(cfg, s2, c, id);
      StepThenBreaks(cfg, s1, StepCall(c, true), id);
      StepThenBreaks(cfg, s, Tick(d), id);
    } else {
      CreateWrites(cfg, s, c, id);
    }
  }

  lemma CreateWrites(cfg: Config, s: State, c: nat, id: nat)
    requires Inv(cfg, s) && c in s.calls && s.calls[c].Create? && s.calls[c].n.id == id
    requires s.calls[c].cpc == MarkQueued || s.calls[c].cpc == Enqueue || s.calls[c].cpc == RollBack
    ensures Breaks(cfg, s, id)
  {
    assert CallInv(s.st, s.calls[c]);
    hide Inv, Breaks;
    StepBreaks(cfg, s, StepCall(c, true), id);
  }

  lemma {:induction false} BatchBreaks(cfg: Config, s: State, c: nat, j: nat, id: nat)
    requires Inv(cfg, s) && c in s.calls && s.calls[c].Batch? && s.calls[c].bpc != InsertAll
    requires s.calls[c].next <= j < |s.calls[c].ns| && s.calls[c].ns[j].id == id
    ensures Breaks(cfg, s, id)
    decreases j - s.calls[c].next, if s.calls[c].bpc == MarkNext then 0 else 1
  {
    var a := StepCall(c, true);
    BatchStepEffect(cfg, s, c, id);
    hide Step, Breaks, CallStep;
    if s.calls[c].next == j {
      StepBreaks(cfg, s, a, id);
    } else {
      InvStep(cfg, s, a);
      hide Inv, Extends;
      BatchBreaks(cfg, Step(cfg, s, a), c, j, id);
      StepThenBreaks(cfg, s, a, id);
    }
  }

  /** A batch whose calls succeed goes on, and publishes, or writes queued for, what it is at. */
  lemma BatchStepEffect(cfg: Config, s: State, c: nat, id: nat)
    requires Inv(cfg, s) && c in s.calls && s.calls[c].Batch? && s.calls[c].bpc != InsertAll
    ensures s.calls[c].next < |s.calls[c].ns| && Enabled(s, StepCall(c, true))
    ensures var a, q := StepCall(c, true), s.calls[c];
      var b := Step(cfg, s, a).st;
      && c in Step(cfg, s, a).calls
      && Step(cfg, s, a).calls[c] == (if q.bpc == MarkNext then NextInBatch(q.ns, q.next + 1) else Batch(MarkNext, q.ns, q.next))
      && (q.ns[q.next].id == id ==>
            !StillCancelled(b, id) || (|s.st.copies| < |b.copies| && b.copies[|s.st.copies|].first.n.id == id))
  {
    assert CallInv(s.st, s.calls[c]);
    hide StoreInv, ConsumersInv, CallsInv, PassesInv;
  }

  /** A call that has still a step for the notification takes it. */
  lemma CallBreaks(cfg: Config, s: State, c: nat, id: nat)
    requires Reachable(cfg, s) && StillCancelled(s.st, id) && c in s.calls && StepsFor(s.calls[c], id)
    ensures Breaks(cfg, s, id)
  {
    PublishOnce.ReachablePublish(cfg, s);
    ReachableInv(cfg, s);
    hide Inv, Breaks, Reachable;
    var q := s.calls[c];
    if q.Create? {
      assert id in CallIds(q);
      CreateBreaks(cfg, s, c, id);
    } else {
      var j :| 0 <= j < |q.ns| && (q.bpc == InsertAll || q.next <= j) && q.ns[j].id == id;
      assert id in CallIds(q);
      BatchBreaks(cfg, s, c, j, id);
    }
  }

  // ----- records

  /** A handler whose calls succeed sends its message. */
  lemma HandleSends(cfg: Config, st: Store, t: Topic, h: Activity, k: nat)
    requires h.Busy? && h.pc == Limiter
    ensures Sends(st, Handle(cfg, AllGood(), st, t, h, k).0, h.msg.n.id)
  {
    var env := AllGood();
    var st1 := Record(st, Admitted(t, LimiterChannel(t, h.msg), st.now));
    var st2 := MarkStarted(UpdateStatus(st1, h.msg.n.id, Processing, true), h.msg.n.id, true);
    var event := Sent(t, LimiterChannel(t, h.msg), h.offset, h.copy, h.msg, true, st2.now);
    var st3 := Settle(Record(st2, event), t, h.offset, Accepted(|st2.trace|));
    AfterLimiter(cfg, env, st, t, h, k);
    AfterMark(cfg, env, st1, t, h.(pc := MarkProcessing), k + 1);
    AfterSend(cfg, env, st2, t, h.(pc := Deliver), k + 2);
    AfterDelivery(cfg, env, st3, t, h.(pc := MarkDelivered), k + 3);
    hide Handle, LimiterChannel;
    var b := Handle(cfg, env, st, t, h, k).0;
    assert b.trace == st.trace + [st1.trace[|st.trace|], event];
    SentLast(st, b, st1.trace[|st.trace|], event);
  }

  lemma SentLast(a: Store, b: Store, admitted: Event, sent: Event)
    requires sent.Sent? && b.trace == a.trace + [admitted, sent]
    ensures Sends(a, b, sent.msg.n.id)
  {
    assert b.trace[|a.trace| + 1] == sent;
  }

  /** From one store to the other, a Send for the notification was added. */
  ghost predicate Sends(a: Store, b: Store, id: nat) {
    |a.trace| < |b.trace| && exists k :: |a.trace| <= k < |b.trace| && b.trace[k].Sent? && b.trace[k].msg.n.id == id
  }

  lemma RetrySends(cfg: Config, st: Store, t: Topic, h: Activity, k: nat)
    requires h.Busy? && h.pc == RetryLimiter && KnownChannel(h.msg.n.channel)
    ensures Sends(st, Handle(cfg, AllGood(), st, t, h, k).0, h.msg.n.id)
  {
    var st1 := Record(st, Admitted(t, LimiterChannel(t, h.msg), st.now));
    AfterRetryLimiter(cfg, AllGood(), st, t, h, k);
    HandleSends(cfg, st1, t, h.(pc := Limiter), k + 1);
    hide Handle, LimiterChannel;
  }

  lemma TurnSends(cfg: Config, s: State, t: Topic, id: nat)
    requires Inv(cfg, s) && t in s.consumers && s.consumers[t].act.Idle?
    requires s.consumers[t].pos < |Log(s.st, t)| && IsFor(Log(s.st, t)[s.consumers[t].pos], id)
    ensures Sends(s.st, Turn(cfg, AllGood(), 0, s.st, t, s.consumers[t], 0).0, id)
  {
    var c := s.consumers[t];
    var e := Log(s.st, t)[c.pos];
    assert EntrySound(cfg, s.st, t, e);
    assert StoreInv(cfg, s.st) && Known(e.msg.value.n);
    var held := Move(AwaitIfRetry(s.st, t, e, 0), e.copy, Held(t, e.msg.value.retryCount));
    var h := Busy(if t == Retry then RetryLimiter else Limiter, c.pos, e.msg.value, e.copy);
    TurnByFields(cfg, AllGood(), 0, s.st, t, c, 0);
    hide Handle, Turn, Sends, Inv;
    if t == Retry { RetrySends(cfg, held, t, h, 0); } else { HandleSends(cfg, held, t, h, 0); }
    SameTrace(s.st, held, Handle(cfg, AllGood(), held, t, h, 0).0, id);
  }

  lemma SameTrace(a: Store, b: Store, c: Store, id: nat)
    requires Sends(b, c, id) && a.trace == b.trace
    ensures Sends(a, c, id)
  {}

  lemma SendBreaks(cfg: Config, s: State, s': State, id: nat)
    requires Reaches(cfg, s, s') && Sends(s.st, s'.st, id)
    ensures Breaks(cfg, s, id)
  {
    hide Reaches;
    assert !NothingFor(s.st, s'.st, id);
    assert !Kept(s, s', id);
  }

  /** The record a consumer is to read next is sent. */
  lemma TurnBreaks(cfg: Config, s: State, t: Topic, id: nat)
    requires Inv(cfg, s) && t in s.consumers && s.consumers[t].act.Idle?
    requires s.consumers[t].pos < |Log(s.st, t)| && IsFor(Log(s.st, t)[s.consumers[t].pos], id)
    ensures Breaks(cfg, s, id)
  {
    TurnSends(cfg, s, t, id);
    AllGoodIsFair();
    TurnReaches(cfg, AllGood(), 0, s, t, 0);
    var (b, c, _) := Turn(cfg, AllGood(), 0, s.st, t, s.consumers[t], 0);
    hide Inv, Breaks, Reaches, ConsumesTo, Turn, AllGood, Sends;
    ConsumesReaches(cfg, s, SetConsumer(s, t, (b, c)));
    SendBreaks(cfg, s, SetConsumer(s, t, (b, c)), id);
  }

  /** A record that was not committed is read again after a crash, and sent. */
  lemma RecordBreaks(cfg: Config, s: State, t: Topic, o: nat, id: nat)
    requires Reachable(cfg, s) && t in s.consumers && s.consumers[t].committed <= o < |Log(s.st, t)| && IsFor(Log(s.st, t)[o], id)
    ensures Breaks(cfg, s, id)
  {
    var s1 := Step(cfg, s, Crash(t));
    ReachableInv(cfg, s);
    InvStep(cfg, s, Crash(t));
    StepReaches(cfg, s, Crash(t));
    assert Log(s1.st, t) == Log(s.st, t);
    hide Inv, Breaks, Reachable, Reaches, Extends, ConsumesTo, Turn, AllGood;
    StaysReachable(cfg, s, s1);
    var s2 := Emptying.TurnsUpTo(cfg, s1, t, o);
    SameRecord(s1.st, s2.st, t, o, id);
    ReachableInv(cfg, s2);
    TurnBreaks(cfg, s2, t, id);
    ConsumesReaches(cfg, s1, s2);
    BreaksLater(cfg, s1, s2, id);
    BreaksLater(cfg, s, s1, id);
  }

  lemma SameRecord(a: Store, b: Store, t: Topic, o: nat, id: nat)
    requires Extends(a, b) && o < |Log(a, t)| && IsFor(Log(a, t)[o], id)
    ensures o < |Log(b, t)| && IsFor(Log(b, t)[o], id)
  {
    assert Log(a, t) <= Log(b, t);
  }

  // ----- the exact condition

  /**
   A cancelled row stays cancelled in every continuation, with nothing appended, published or sent for it, if and only if
   no record of it is left to read or commit, no scheduler pass has it still on its list, and no running Create or
   CreateBatch call has still a step to take for it.
   */
  lemma CancelHoldsExactly(cfg: Config, s: State, id: nat)
    requires Reachable(cfg, s) && id in s.st.rows && s.st.rows[id].status == Cancelled
    ensures CancelHolds(cfg, s, id) <==> NoRecord(s, id) && NoPass(s, id) && NoCall(s, id)
  {
    if NoRecord(s, id) && NoPass(s, id) && NoCall(s, id) {
      forall s' | Reaches(cfg, s, s')
        ensures Kept(s, s', id)
      {
        var acts :| Legal(cfg, s, acts) && Run(cfg, s, acts) == s';
        QuietlyCancelledStaysCancelled(cfg, s, acts, id);
      }
    } else {
      ReachableInv(cfg, s);
      hide Inv, Reachable, Reaches, StepsFor, IsFor;
      if !NoRecord(s, id) {
        var t, o :| t in s.consumers && s.consumers[t].committed <= o < |Log(s.st, t)| && IsFor(Log(s.st, t)[o], id);
        RecordBreaks(cfg, s, t, o, id);
      } else if !NoPass(s, id) {
        var p, j :| p in s.passes && s.passes[p].next <= j < |s.passes[p].items| && s.passes[p].items[j].n.id == id;
        PassBreaks(cfg, s, p, j, id);
      } else {
        var c :| c in s.calls && StepsFor(s.calls[c], id);
        CallBreaks(cfg, s, c, id);
      }
    }
  }
}
