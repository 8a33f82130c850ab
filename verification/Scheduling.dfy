/** When a scheduled notification is published at most once: if the passes that list it take turns and finish their marks. */
module Scheduling {
  import opened Domain
  import opened Protocol
  import opened Safety
  import opened Pipeline
  import opened PublishOnce
  import opened RowWrites
  import opened Ledger
  import Fate
  import Idempotency
  import Overwriting
  import Backoff

  /** The pass has still a step to take for the notification. */
  ghost predicate Lists(p: Pass, id: nat) { exists j :: p.next <= j < |p.items| && p.items[j].n.id == id }

  /** The pass has published the notification and is about to mark it queued. */
  predicate Marking(p: Pass, id: nat) { p.marking && p.next < |p.items| && p.items[p.next].n.id == id }

  predicate DistinctItems(p: Pass) { forall i, j :: 0 <= i < j < |p.items| ==> p.items[i].n.id != p.items[j].n.id }

  /**
   What the scheduler has to see to for this notification: that no pass fetches it while another has it on its list, and
   that the mark after its publication neither fails nor is cut off.
   */
  ghost predicate TakesTurns(s: State, a: Action, id: nat) {
    match a
    case StartPass(_, ids) => id in ids ==> forall p :: p in s.passes ==> !Lists(s.passes[p], id)
    case StepPass(p, ok) => p in s.passes && Marking(s.passes[p], id) ==> ok
    case KillPass(p) => p in s.passes ==> !Marking(s.passes[p], id)
    case _ => true
  }

  ghost predicate TakesTurnsAll(cfg: Config, s: State, acts: seq<Action>, id: nat)
    requires Legal(cfg, s, acts)
    decreases |acts|
  {
    acts != [] ==>
      var n := |acts| - 1;
      TakesTurnsAll(cfg, s, acts[..n], id) && TakesTurns(Run(cfg, s, acts[..n]), acts[n], id)
  }

  ghost predicate Copied(copies: seq<CopyRecord>, id: nat) { exists c :: 0 <= c < |copies| && copies[c].first.n.id == id }

  ghost predicate AtMostOnce(copies: seq<CopyRecord>, id: nat) {
    forall c, d :: 0 <= c < d < |copies| ==> copies[c].first.n.id != id || copies[d].first.n.id != id
  }

  ghost predicate OneLister(passes: map<nat, Pass>, id: nat) {
    forall p, q :: p in passes && q in passes && Lists(passes[p], id) && Lists(passes[q], id) ==> p == q
  }

  /** Once it is published, only the mark is left to do, and until that is done the row may still be pending. */
  ghost predicate OnlyMarkLeft(passes: map<nat, Pass>, status: Status, id: nat) {
    && (forall p :: p in passes && Lists(passes[p], id) ==> Marking(passes[p], id))
    && (status == Pending ==> exists p :: p in passes && Marking(passes[p], id))
  }

  ghost predicate OnceFor(st: Store, passes: map<nat, Pass>, id: nat)
    requires id in st.rows
  {
    && AtMostOnce(st.copies, id) && OneLister(passes, id)
    && (Copied(st.copies, id) ==> OnlyMarkLeft(passes, st.rows[id].status, id))
  }

  ghost predicate ScheduleInv(s: State, id: nat) {
    && (forall p :: p in s.passes ==> DistinctItems(s.passes[p]))
    && (id in s.st.deferred ==> id in s.st.rows && OnceFor(s.st, s.passes, id))
  }

  // ----- steps outside the passes

  /** The passes stay, the row does not become pending, and new copies are of other notifications. */
  lemma FrameOnce(a: Store, b: Store, passes: map<nat, Pass>, id: nat)
    requires id in a.rows && id in b.rows && OnceFor(a, passes, id) && !PendingAfter(a, b, id)
    requires |a.copies| <= |b.copies| && forall c :: 0 <= c < |a.copies| ==> b.copies[c].first == a.copies[c].first
    requires forall c :: |a.copies| <= c < |b.copies| ==> b.copies[c].first.n.id != id
    ensures OnceFor(b, passes, id)
  {
    assert Copied(b.copies, id) ==> Copied(a.copies, id);
  }

  lemma HandlerPending(cfg: Config, st: Store, t: Topic, h: Activity, ok: bool, jitter: real, id: nat)
    requires h.Busy? && h.pc != CommitOffset && h.pc != NilLimiter && Backoff.IsJitter(jitter)
    ensures !PendingAfter(st, HandlerStep(cfg, st, t, h, ok, jitter).0, id)
  {
    hide RetryAt, LimiterChannel;
  }

  lemma ConsumerPending(cfg: Config, s: State, a: Action, id: nat)
    requires Enabled(s, a) && ConsumerAction(a)
    ensures !PendingAfter(s.st, Step(cfg, s, a).st, id)
  {
    if a.Proceed? && s.consumers[a.t].act.Busy? && s.consumers[a.t].act.pc != CommitOffset {
      HandlerPending(cfg, s.st, a.t, s.consumers[a.t].act, a.ok, a.jitter, id);
    }
    hide HandlerStep;
  }

  lemma ConsumerOnce(cfg: Config, s: State, a: Action, id: nat)
    requires Inv(cfg, s) && ScheduleInv(s, id) && Enabled(s, a) && ConsumerAction(a)
    ensures ScheduleInv(Step(cfg, s, a), id)
  {
    var s' := Step(cfg, s, a);
    ConsumerFirsts(cfg, s, a);
    ConsumerPending(cfg, s, a, id);
    StepDeferred(cfg, s, a, id);
    ConsumerPasses(cfg, s, a);
    hide Inv, Step, Enabled, OnceFor, PendingAfter;
    if id in s.st.deferred { FrameOnce(s.st, s'.st, s.passes, id); }
  }

  lemma ConsumerPasses(cfg: Config, s: State, a: Action)
    requires Enabled(s, a) && ConsumerAction(a)
    ensures Step(cfg, s, a).passes == s.passes
  {}

  /** A step of a call, of the clock or of the environment, for a notification that was left to the scheduler before. */
  lemma OtherOnce(cfg: Config, s: State, a: Action, id: nat)
    requires Inv(cfg, s) && DeferredInv(s) && ScheduleInv(s, id) && Enabled(s, a) && id in s.st.deferred
    requires !ConsumerAction(a) && !a.StartPass? && !a.StepPass? && !a.KillPass?
    ensures ScheduleInv(Step(cfg, s, a), id)
  {
    var s' := Step(cfg, s, a);
    InvStep(cfg, s, a);
    CopiesPrefix(s.st, s'.st);
    PassesStay(cfg, s, a);
    StepDeferred(cfg, s, a, id);
    OtherQuiet(cfg, s, a, id);
    hide Extends, Inv, DeferredInv, Step, Enabled, OnceFor, RowEffect, PendingAfter, LogsExtend;
    FrameOnce(s.st, s'.st, s.passes, id);
  }

  /** Such a step neither publishes it nor makes its row pending. */
  lemma OtherQuiet(cfg: Config, s: State, a: Action, id: nat)
    requires Inv(cfg, s) && DeferredInv(s) && Enabled(s, a) && id in s.st.deferred
    requires !ConsumerAction(a) && !a.StartPass? && !a.StepPass? && !a.KillPass?
    ensures var b := Step(cfg, s, a).st;
      !PendingAfter(s.st, b, id) && forall c :: |s.st.copies| <= c < |b.copies| ==> b.copies[c].first.n.id != id
  {
    StepEffect(cfg, s, a, id);
    if a.Junk? { PassesStay(cfg, s, a); } else { OtherStepLogs(cfg, s, a); }
    NotItsCall(s, a, id);
    hide Inv, DeferredInv, Step, Enabled, RowEffect, PendingAfter, MsgSound;
  }

  lemma CopiesPrefix(a: Store, b: Store)
    requires Extends(a, b)
    ensures |a.copies| <= |b.copies| && forall c :: 0 <= c < |a.copies| ==> b.copies[c].first == a.copies[c].first
    ensures forall id :: id in a.rows ==> id in b.rows
  {}

  lemma PassesStay(cfg: Config, s: State, a: Action)
    requires Enabled(s, a) && !a.StartPass? && !a.StepPass? && !a.KillPass?
    ensures Step(cfg, s, a).passes == s.passes
    ensures a.Junk? ==> Step(cfg, s, a).st.copies == s.st.copies
  {
    hide ConsumerStep, FetchStep, CallStep, Accept;
  }

  /** No call is about it, so none publishes it or takes it back to pending. */
  lemma NotItsCall(s: State, a: Action, id: nat)
    requires DeferredInv(s) && id in s.st.deferred && Enabled(s, a)
    ensures a.StepCall? ==> !(s.calls[a.call].Create? && s.calls[a.call].n.id == id)
    ensures a.StepCall? && Publishes(s, a).Some? ==> Publishes(s, a).value.n.id != id
  {
    assert LeftToScheduler(s, id);
    if a.StepCall? {
      var c := s.calls[a.call];
      assert id !in CallIds(c);
      if c.Batch? && c.next < |c.ns| { assert c.ns[c.next].id in CallIds(c); }
    }
  }

  /** At the step that leaves it to the scheduler it is not due, so it has no copy, and no pass lists it. */
  lemma DeferralOnce(cfg: Config, s: State, a: Action, id: nat)
    requires Inv(cfg, s) && ScheduleInv(s, id) && Enabled(s, a) && Defers(s, a, id)
    ensures ScheduleInv(Step(cfg, s, a), id)
  {
    var s' := Step(cfg, s, a);
    assert CallInv(s.st, s.calls[a.call]);
    Overwriting.NoCopyBeforeTime(cfg, s.st, id);
    NotListedBeforeTime(cfg, s, id);
    assert s'.st.rows == s.st.rows && s'.st.copies == s.st.copies && s'.passes == s.passes;
    hide Inv, Step, Enabled, Lists;
    assert !Copied(s'.st.copies, id);
  }

  lemma NotListedBeforeTime(cfg: Config, s: State, id: nat)
    requires Inv(cfg, s) && id in s.st.rows && !DueBy(s.st.rows[id].n, s.st.now)
    ensures forall p :: p in s.passes ==> !Lists(s.passes[p], id)
  {
    forall p | p in s.passes
      ensures !Lists(s.passes[p], id)
    {
      assert PassInv(s.st, s.passes[p]);
      forall j | s.passes[p].next <= j < |s.passes[p].items|
        ensures s.passes[p].items[j].n.id != id
      {
        assert MsgSound(s.st, s.passes[p].items[j]);
      }
    }
  }

  /** A notification that is not left to the scheduler, and is not now: nothing is claimed of it. */
  lemma NotDeferredOnce(cfg: Config, s: State, a: Action, id: nat)
    requires ScheduleInv(s, id) && Enabled(s, a) && id !in s.st.deferred && !Defers(s, a, id)
    requires !a.StartPass? && !a.StepPass? && !a.KillPass? && !ConsumerAction(a)
    ensures ScheduleInv(Step(cfg, s, a), id)
  {
    StepDeferred(cfg, s, a, id);
    PassesStay(cfg, s, a);
    hide Step, Enabled;
  }

  // ----- passes

  lemma FetchedDistinct(cfg: Config, st: Store, ids: seq<nat>)
    requires StoreInv(cfg, st) && IsDueList(st, ids)
    ensures DistinctItems(Pass(DueMessages(st, ids), 0, false))
    ensures forall id :: Lists(Pass(DueMessages(st, ids), 0, false), id) <==> id in ids
    ensures forall id :: id in ids ==> IsDue(st, id)
  {
    var p := Pass(DueMessages(st, ids), 0, false);
    assert forall i :: 0 <= i < |ids| ==> ids[i] in ids && p.items[i].n.id == ids[i];
    forall id | id in ids
      ensures Lists(p, id)
    {
      var i :| 0 <= i < |ids| && ids[i] == id;
      assert p.items[i].n.id == id;
    }
  }

  /** A pass that starts in turn lists it only if it has no copy. */
  lemma StartOnce(cfg: Config, s: State, p: nat, ids: seq<nat>, id: nat)
    requires Inv(cfg, s) && ScheduleInv(s, id) && Enabled(s, StartPass(p, ids)) && TakesTurns(s, StartPass(p, ids), id)
    ensures ScheduleInv(Step(cfg, s, StartPass(p, ids)), id)
  {
    var s' := Step(cfg, s, StartPass(p, ids));
    FetchedDistinct(cfg, s.st, ids);
    hide Inv, IsDueList, Lists, DistinctItems;
    if id in s.st.deferred {
      StartKeepsOnce(s.st, s.passes, p, s'.passes[p], id);
    }
  }

  lemma StartKeepsOnce(st: Store, passes: map<nat, Pass>, p: nat, started: Pass, id: nat)
    requires id in st.rows && OnceFor(st, passes, id) && p !in passes && !started.marking
    requires Lists(started, id) ==> st.rows[id].status == Pending && forall q :: q in passes ==> !Lists(passes[q], id)
    ensures OnceFor(st, passes[p := started], id)
  {
    if Copied(st.copies, id) && st.rows[id].status == Pending {
      var q :| q in passes && Marking(passes[q], id);
      assert passes[q].items[passes[q].next].n.id == id && Lists(passes[q], id);
      assert passes[p := started][q] == passes[q];
    }
    hide Lists, Copied, Marking, AtMostOnce;
  }

  /** One step of a pass, and how it changes what the pass has still to do. */
  lemma PassMoves(st: Store, q: Pass, ok: bool, id: nat)
    requires q.next < |q.items| && DistinctItems(q)
    ensures var (b, q') := PassStep(st, q, ok);
      var own := q.items[q.next].n.id == id;
      && q'.items == q.items
      && (own && q.marking ==> !Lists(q', id))
      && (own && !q.marking ==> if ok then Marking(q', id) else !Lists(q', id))
      && (!own ==> !Marking(q, id) && !Marking(q', id) && (Lists(q', id) <==> Lists(q, id)))
      && (own ==> Lists(q, id) && (Marking(q, id) <==> q.marking))
  {
    var (b, q') := PassStep(st, q, ok);
    if q.items[q.next].n.id != id {
      forall j | q.next <= j < |q.items| && q.items[j].n.id == id
        ensures q'.next <= j
      {}
    }
    hide Publish, UpdateStatus;
  }

  /** What it does to the stores. */
  lemma PassWrites(st: Store, q: Pass, ok: bool, id: nat)
    requires q.next < |q.items| && id in st.rows
    ensures var b := PassStep(st, q, ok).0;
      var m := q.items[q.next];
      && id in b.rows && !PendingAfter(st, b, id) && st.copies <= b.copies
      && (if !q.marking && ok then |b.copies| == |st.copies| + 1 && b.copies[|st.copies|].first == m else b.copies == st.copies)
      && (q.marking && ok && m.n.id == id ==> b.rows[id].status == Queued)
  {}

  lemma PassOnce(st: Store, passes: map<nat, Pass>, p: nat, ok: bool, id: nat)
    requires p in passes && passes[p].next < |passes[p].items| && DistinctItems(passes[p])
    requires id in st.rows && OnceFor(st, passes, id) && (Marking(passes[p], id) ==> ok)
    ensures var (b, q') := PassStep(st, passes[p], ok); id in b.rows && OnceFor(b, passes[p := q'], id)
  {
    var q := passes[p];
    var (b, q') := PassStep(st, q, ok);
    var passes' := passes[p := q'];
    PassMoves(st, q, ok, id);
    PassWrites(st, q, ok, id);
    hide PassStep, Lists, Marking;
    forall r | r in passes' && Lists(passes'[r], id)
      ensures r in passes && Lists(passes[r], id)
    {}
    CopiesAfter(st.copies, b.copies, q.items[q.next], !q.marking && ok, id);
    if Copied(b.copies, id) {
      if b.rows[id].status == Pending {
        if q.items[q.next].n.id == id { assert Marking(passes'[p], id); }
        else {
          var r :| r in passes && Marking(passes[r], id);
          assert r != p && passes'[r] == passes[r];
        }
      }
      assert OnlyMarkLeft(passes', b.rows[id].status, id);
    }
  }

  /** The copies, with one more or without. */
  lemma CopiesAfter(a: seq<CopyRecord>, b: seq<CopyRecord>, m: Msg, published: bool, id: nat)
    requires a <= b && if published then |b| == |a| + 1 && b[|a|].first == m else b == a
    ensures Copied(b, id) <==> Copied(a, id) || (published && m.n.id == id)
    ensures AtMostOnce(a, id) && !(Copied(a, id) && published && m.n.id == id) ==> AtMostOnce(b, id)
  {
    if published && m.n.id == id { assert b[|a|].first.n.id == id; }
    if Copied(a, id) {
      var c :| 0 <= c < |a| && a[c].first.n.id == id;
      assert b[c] == a[c];
    }
    assert forall c :: 0 <= c < |a| ==> b[c] == a[c];
  }

  lemma StepPassOnce(cfg: Config, s: State, p: nat, ok: bool, id: nat)
    requires ScheduleInv(s, id) && Enabled(s, StepPass(p, ok)) && TakesTurns(s, StepPass(p, ok), id)
    ensures ScheduleInv(Step(cfg, s, StepPass(p, ok)), id)
  {
    PassMoves(s.st, s.passes[p], ok, id);
    StepDeferred(cfg, s, StepPass(p, ok), id);
    hide OnceFor, PassStep;
    if id in s.st.deferred { PassOnce(s.st, s.passes, p, ok, id); }
  }

  lemma KillPassOnce(cfg: Config, s: State, p: nat, id: nat)
    requires ScheduleInv(s, id) && Enabled(s, KillPass(p)) && TakesTurns(s, KillPass(p), id)
    ensures ScheduleInv(Step(cfg, s, KillPass(p)), id)
  {
    if id in s.st.deferred { FewerPasses(s.st, s.passes, p, id); }
  }

  lemma FewerPasses(st: Store, passes: map<nat, Pass>, p: nat, id: nat)
    requires id in st.rows && OnceFor(st, passes, id) && p in passes && !Marking(passes[p], id)
    ensures OnceFor(st, passes - {p}, id)
  {
    hide Lists, Copied, AtMostOnce;
    if Copied(st.copies, id) && st.rows[id].status == Pending {
      var q :| q in passes && Marking(passes[q], id);
      assert q in passes - {p} && (passes - {p})[q] == passes[q];
    }
  }

  // ----- the machine

  lemma ScheduleStep(cfg: Config, s: State, a: Action, id: nat)
    requires Inv(cfg, s) && DeferredInv(s) && ScheduleInv(s, id) && Enabled(s, a) && TakesTurns(s, a, id)
    ensures ScheduleInv(Step(cfg, s, a), id)
  {
    hide Inv, DeferredInv, ScheduleInv, Step, Defers, TakesTurns;
    if ConsumerAction(a) { ConsumerOnce(cfg, s, a, id); }
    else if a.StartPass? { StartOnce(cfg, s, a.pass, a.ids, id); }
    else if a.StepPass? { StepPassOnce(cfg, s, a.pass, a.ok, id); }
    else if a.KillPass? { KillPassOnce(cfg, s, a.pass, id); }
    else if Defers(s, a, id) { DeferralOnce(cfg, s, a, id); }
    else if id in s.st.deferred { OtherOnce(cfg, s, a, id); }
    else { NotDeferredOnce(cfg, s, a, id); }
  }

  lemma {:induction false} ScheduleRun(cfg: Config, acts: seq<Action>, id: nat)
    requires Legal(cfg, Init(), acts) && TakesTurnsAll(cfg, Init(), acts, id)
    ensures ScheduleInv(Run(cfg, Init(), acts), id)
    decreases |acts|
  {
    if acts != [] {
      var front := acts[..|acts| - 1];
      ScheduleRun(cfg, front, id);
      DeferredRun(cfg, front);
      InvInit(cfg);
      InvRun(cfg, Init(), front);
      hide Inv, DeferredInv, ScheduleInv, TakesTurns, Step, Enabled;
      ScheduleStep(cfg, Run(cfg, Init(), front), acts[|acts| - 1], id);
    }
  }

  /**
   A notification that `Create` left to the scheduler has at most one copy at the end of every run, with any crashes and
   failures elsewhere, in which the passes take turns for it and finish their marks.
   */
  lemma PublishedOnceInTurn(cfg: Config, acts: seq<Action>, id: nat)
    requires Legal(cfg, Init(), acts) && TakesTurnsAll(cfg, Init(), acts, id) && id in Run(cfg, Init(), acts).st.deferred
    ensures AtMostOnce(Run(cfg, Init(), acts).st.copies, id)
  {
    ScheduleRun(cfg, acts, id);
  }

  // ----- one scheduler, one pass after another

  /** No pass starts before the others are through, and none is killed. */
  ghost predicate Serial(s: State, a: Action) {
    match a
    case StartPass(_, _) => forall p :: p in s.passes ==> s.passes[p].next >= |s.passes[p].items|
    case KillPass(_) => false
    case _ => true
  }

  ghost predicate SerialAll(cfg: Config, s: State, acts: seq<Action>)
    requires Legal(cfg, s, acts)
    decreases |acts|
  {
    acts != [] ==>
      var n := |acts| - 1;
      SerialAll(cfg, s, acts[..n]) && Serial(Run(cfg, s, acts[..n]), acts[n])
  }

  lemma SerialTakesTurns(cfg: Config, s: State, a: Action, id: nat)
    requires Inv(cfg, s) && Enabled(s, a) && Serial(s, a) && id !in Step(cfg, s, a).st.disturbed
    ensures TakesTurns(s, a, id)
  {
    hide Inv, Publish;
  }

  lemma {:induction false} SerialRun(cfg: Config, acts: seq<Action>, id: nat)
    requires Legal(cfg, Init(), acts) && SerialAll(cfg, Init(), acts) && id !in Run(cfg, Init(), acts).st.disturbed
    ensures TakesTurnsAll(cfg, Init(), acts, id)
    decreases |acts|
  {
    if acts != [] {
      var front, last := acts[..|acts| - 1], acts[|acts| - 1];
      var s := Run(cfg, Init(), front);
      InvInit(cfg);
      InvRun(cfg, Init(), front);
      hide Inv, Serial, TakesTurns, Step, Enabled;
      Fate.DisturbedGrows(cfg, s, last);
      SerialTakesTurns(cfg, s, last, id);
      SerialRun(cfg, front, id);
    }
  }

  /**
   When passes run one after another and none is killed, a scheduled notification has at most one copy, in every run: if its
   Create call returned before its time, and none of its writes failed.
   */
  lemma SerialSchedulerPublishesOnce(cfg: Config, acts: seq<Action>, id: nat)
    requires Legal(cfg, Init(), acts) && SerialAll(cfg, Init(), acts)
    requires id in Run(cfg, Init(), acts).st.deferred && id !in Run(cfg, Init(), acts).st.disturbed
    ensures AtMostOnce(Run(cfg, Init(), acts).st.copies, id)
  {
    SerialRun(cfg, acts, id);
    PublishedOnceInTurn(cfg, acts, id);
  }

  /** And without redelivery it is accepted at most once, and sent at most max(1, maxRetries) times. */
  lemma SerialSchedulerSendsOnce(cfg: Config, acts: seq<Action>, id: nat)
    requires Legal(cfg, Init(), acts) && SerialAll(cfg, Init(), acts)
    requires var s := Run(cfg, Init(), acts); id in s.st.deferred && id !in s.st.disturbed && !s.redelivered
    ensures var s := Run(cfg, Init(), acts);
      && Count(s.st.trace, AcceptedFor(id)) <= 1
      && Count(s.st.trace, SendsFor(id)) <= if cfg.maxRetries > 1 then cfg.maxRetries else 1
  {
    SerialSchedulerPublishesOnce(cfg, acts, id);
    assert Reachable(cfg, Run(cfg, Init(), acts));
    hide Reachable, Legal, Run, Count;
    Idempotency.OneCopyIsSentOnce(cfg, Run(cfg, Init(), acts), id);
  }
}
