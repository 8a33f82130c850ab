/** What API calls and scheduler passes do to one row, and the rows that `Create` leaves to the scheduler. */
module RowWrites {
  import opened Domain
  import opened Protocol
  import opened Safety
  import opened Pipeline
  import opened PublishOnce
  import Backoff

  predicate Final(status: Status) { status == Delivered || status == Failed }

  // ----- the four things that can happen to a row outside the consumers

  predicate SameRow(a: Store, b: Store, id: nat) {
    && (id in b.rows <==> id in a.rows) && (id in b.rows ==> b.rows[id] == a.rows[id])
    && (id in b.overwritten <==> id in a.overwritten)
  }

  predicate Inserted(a: Store, b: Store, id: nat) {
    id !in a.rows && id in b.rows && b.rows[id].status == Pending && (id in b.overwritten <==> id in a.overwritten)
  }

  /** Written queued, or taken back to pending, whatever it was. */
  predicate Requeued(a: Store, b: Store, id: nat) {
    && id in a.rows && id in b.rows && IsCancellable(b.rows[id].status) && b.rows[id] == WithStatus(a.rows[id], b.rows[id].status)
    && (id in b.overwritten <==> id in a.overwritten || Final(a.rows[id].status))
  }

  predicate CancelledNow(a: Store, b: Store, id: nat) {
    && id in a.rows && id in b.rows && IsCancellable(a.rows[id].status) && b.rows[id] == WithStatus(a.rows[id], Cancelled)
    && (id in b.overwritten <==> id in a.overwritten)
  }

  predicate RowEffect(a: Store, b: Store, id: nat) {
    SameRow(a, b, id) || Inserted(a, b, id) || Requeued(a, b, id) || CancelledNow(a, b, id)
  }

  /** The row of an existing notification became pending, or stays so. */
  predicate PendingAfter(a: Store, b: Store, id: nat) { id in a.rows && id in b.rows && b.rows[id].status == Pending && a.rows[id].status != Pending }

  lemma UpdateEffect(st: Store, n: nat, status: Status, ok: bool, id: nat)
    requires IsCancellable(status)
    ensures var b := UpdateStatus(st, n, status, ok);
      RowEffect(st, b, id) && (n != id ==> SameRow(st, b, id)) && (status == Queued ==> !PendingAfter(st, b, id))
  {}

  lemma {:induction false} InsertRowsEffect(st: Store, ns: seq<Notice>, id: nat)
    requires BatchInsertable(st, ns)
    ensures var b := InsertRows(st, ns); SameRow(st, b, id) || Inserted(st, b, id)
  {
    if ns != [] { InsertRowsEffect(st, ns[..|ns| - 1], id); }
  }

  lemma CreateEffect(st: Store, pc: CreatePc, n: Notice, ok: bool, id: nat)
    ensures var b := CreateStep(st, pc, n, ok).0; RowEffect(st, b, id) && (PendingAfter(st, b, id) ==> n.id == id)
  {
    UpdateEffect(st, n.id, Queued, ok, id);
    UpdateEffect(st, n.id, Pending, ok, id);
    hide UpdateStatus;
  }

  lemma BatchEffect(st: Store, pc: BatchPc, ns: seq<Notice>, i: nat, ok: bool, id: nat)
    requires pc != InsertAll ==> i < |ns|
    ensures var b := BatchStep(st, pc, ns, i, ok).0; RowEffect(st, b, id) && !PendingAfter(st, b, id)
  {
    if pc == InsertAll {
      if BatchInsertable(st, ns) { InsertRowsEffect(st, ns, id); }
    } else {
      UpdateEffect(st, ns[i].id, Queued, ok, id);
    }
    hide InsertRows, BatchInsertable, UpdateStatus;
  }

  /** A call inserts, requeues or cancels; only a Create call about the notification takes it back to pending. */
  lemma CallEffect(st: Store, c: Call, ok: bool, id: nat)
    requires CallReady(c)
    ensures var b := CallStep(st, c, ok).0; RowEffect(st, b, id) && (PendingAfter(st, b, id) ==> c.Create? && c.n.id == id)
  {
    match c
    case Create(pc, n) => CreateEffect(st, pc, n, ok, id);
    case Batch(pc, ns, i) => BatchEffect(st, pc, ns, i, ok, id);
    case Cancel(_, _) =>
  }

  lemma PassEffect(st: Store, p: Pass, ok: bool, id: nat)
    requires p.next < |p.items|
    ensures var b := PassStep(st, p, ok).0; RowEffect(st, b, id) && !PendingAfter(st, b, id)
  {
    UpdateEffect(st, p.items[p.next].n.id, Queued, ok, id);
    hide UpdateStatus;
  }

  lemma StepEffect(cfg: Config, s: State, a: Action, id: nat)
    requires Enabled(s, a) && !ConsumerAction(a)
    ensures var b := Step(cfg, s, a).st;
      && RowEffect(s.st, b, id)
      && (PendingAfter(s.st, b, id) ==> a.StepCall? && s.calls[a.call].Create? && s.calls[a.call].n.id == id)
  {
    if a.StepCall? { CallEffect(s.st, s.calls[a.call], a.ok, id); hide CallStep, RowEffect; }
    else if a.StepPass? { PassEffect(s.st, s.passes[a.pass], a.ok, id); hide PassStep, RowEffect; }
    hide Accept, IsDueList;
  }

  // ----- rows left to the scheduler

  /** The step at which `Create` leaves a notification to the scheduler. */
  predicate Defers(s: State, a: Action, id: nat) {
    && a.StepCall? && a.call in s.calls && s.calls[a.call].Create? && s.calls[a.call].cpc == CheckSchedule
    && s.calls[a.call].n.id == id && !DueBy(s.calls[a.call].n, s.st.now)
  }

  lemma HandlerDeferred(cfg: Config, st: Store, t: Topic, h: Activity, ok: bool, jitter: real)
    requires h.Busy? && h.pc != CommitOffset && h.pc != NilLimiter && Backoff.IsJitter(jitter)
    ensures HandlerStep(cfg, st, t, h, ok, jitter).0.deferred == st.deferred
  {
    hide RetryAt, LimiterChannel, WithStatus;
  }

  lemma {:induction false} InsertRowsDeferred(st: Store, ns: seq<Notice>)
    ensures InsertRows(st, ns).deferred == st.deferred
  {
    if ns != [] { InsertRowsDeferred(st, ns[..|ns| - 1]); }
  }

  lemma CallDeferred(st: Store, c: Call, ok: bool, id: nat)
    requires CallReady(c)
    ensures id in CallStep(st, c, ok).0.deferred <==>
      id in st.deferred || (c.Create? && c.cpc == CheckSchedule && c.n.id == id && !DueBy(c.n, st.now))
  {
    if c.Batch? { InsertRowsDeferred(st, c.ns); }
    hide InsertRows, BatchInsertable, Insertable, WithStatus;
  }

  lemma StepDeferred(cfg: Config, s: State, a: Action, id: nat)
    requires Enabled(s, a)
    ensures id in Step(cfg, s, a).st.deferred <==> id in s.st.deferred || Defers(s, a, id)
  {
    if a.Proceed? && s.consumers[a.t].act.Busy? && s.consumers[a.t].act.pc != CommitOffset {
      HandlerDeferred(cfg, s.st, a.t, s.consumers[a.t].act, a.ok, a.jitter);
    }
    if a.StepCall? { CallDeferred(s.st, s.calls[a.call], a.ok, id); }
    hide HandlerStep, CallStep, Accept, IsDueList, WithStatus;
  }

  ghost predicate LeftToScheduler(s: State, id: nat) {
    && id in s.st.rows && s.st.rows[id].n.scheduledAt.Some? && s.st.rows[id].n.batchId.None?
    && forall c :: c in s.calls ==> id !in CallIds(s.calls[c])
  }

  /** No call is about a notification any more once it was left to the scheduler. */
  ghost predicate DeferredInv(s: State) { forall id :: id in s.st.deferred ==> LeftToScheduler(s, id) }

  lemma FewerIds(st: Store, c: Call, ok: bool)
    requires CallReady(c)
    ensures CallIds(CallStep(st, c, ok).1) <= CallIds(c)
  {
    hide InsertRows, BatchInsertable, Insertable, UpdateStatus, Publish;
  }

  /** New calls are about new notifications. */
  lemma NoNewOwner(cfg: Config, s: State, a: Action, id: nat)
    requires Enabled(s, a) && id < s.nextId && forall c :: c in s.calls ==> id !in CallIds(s.calls[c])
    ensures forall c :: c in Step(cfg, s, a).calls ==> id !in CallIds(Step(cfg, s, a).calls[c])
  {
    var s' := Step(cfg, s, a);
    if a.StepCall? { FewerIds(s.st, s.calls[a.call], a.ok); }
    hide HandlerStep, FetchStep, CallStep, PassStep, ConsumerStep, Accept, IsDueList;
    forall c | c in s'.calls
      ensures id !in CallIds(s'.calls[c])
    {
      if c in s.calls { assert id !in CallIds(s.calls[c]); }
    }
  }

  lemma StaysLeft(cfg: Config, s: State, a: Action, id: nat)
    requires Inv(cfg, s) && PublishInv(s) && Enabled(s, a) && LeftToScheduler(s, id)
    ensures LeftToScheduler(Step(cfg, s, a), id)
  {
    assert id < s.nextId;
    InvStep(cfg, s, a);
    NoNewOwner(cfg, s, a, id);
    hide Inv, PublishInv, Step, Enabled, CopiesExtend, LogsExtend;
  }

  lemma BecomesLeft(cfg: Config, s: State, a: Action, id: nat)
    requires Inv(cfg, s) && PublishInv(s) && Enabled(s, a) && Defers(s, a, id)
    ensures LeftToScheduler(Step(cfg, s, a), id)
  {
    var s' := Step(cfg, s, a);
    assert CallInv(s.st, s.calls[a.call]);
    forall c | c in s'.calls
      ensures id !in CallIds(s'.calls[c])
    {
      assert id in CallIds(s.calls[a.call]);
    }
  }

  lemma DeferredStep(cfg: Config, s: State, a: Action)
    requires Inv(cfg, s) && PublishInv(s) && DeferredInv(s) && Enabled(s, a)
    ensures DeferredInv(Step(cfg, s, a))
  {
    var s' := Step(cfg, s, a);
    hide Inv, PublishInv, LeftToScheduler, Step, Enabled, Defers;
    forall id | id in s'.st.deferred
      ensures LeftToScheduler(s', id)
    {
      StepDeferred(cfg, s, a, id);
      if Defers(s, a, id) { BecomesLeft(cfg, s, a, id); } else { StaysLeft(cfg, s, a, id); }
    }
  }

  lemma {:induction false} DeferredRun(cfg: Config, acts: seq<Action>)
    requires Legal(cfg, Init(), acts)
    ensures DeferredInv(Run(cfg, Init(), acts))
    decreases |acts|
  {
    if acts != [] {
      var front := acts[..|acts| - 1];
      DeferredRun(cfg, front);
      PublishRun(cfg, front);
      InvInit(cfg);
      InvRun(cfg, Init(), front);
      hide Inv, PublishInv, DeferredInv, Step, Enabled;
      DeferredStep(cfg, Run(cfg, Init(), front), acts[|acts| - 1]);
    }
  }
}
