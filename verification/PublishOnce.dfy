/**
 A notification without a schedule is published at most once, in every run: by the one call that created it.
 */
module PublishOnce {
  import opened Domain
  import opened Backoff
  import opened Protocol
  import opened Safety
  import opened Pipeline

  type Calls = map<nat, Call>
  type Rows = map<nat, Row>
  type Copies = seq<CopyRecord>

  /** The call created this notification, which has no schedule, and has not published it. */
  ghost predicate Owes(c: Call, id: nat) {
    match c
    case Create(pc, n) => n.id == id && n.scheduledAt.None?
    case Batch(pc, ns, i) =>
      exists j :: 0 <= j < |ns| && ns[j].id == id && (pc == InsertAll || j > i || (pc == EnqueueNext && j == i))
    case _ => false
  }

  /** The call has not inserted its rows yet. */
  predicate BeforeInsert(c: Call) { (c.Create? && c.cpc == Insert) || (c.Batch? && c.bpc == InsertAll) }

  predicate DistinctIds(ns: seq<Notice>) { forall i, j :: 0 <= i < j < |ns| ==> ns[i].id != ns[j].id }

  ghost predicate IdsBounded(calls: Calls, rows: Rows, nextId: nat) {
    && (forall id :: id in rows ==> id < nextId)
    && (forall c, id :: c in calls && id in CallIds(calls[c]) ==> id < nextId)
  }

  ghost predicate OwnersDistinct(calls: Calls) {
    && (forall c, d :: c in calls && d in calls && c != d ==> CallIds(calls[c]) !! CallIds(calls[d]))
    && (forall c :: c in calls && calls[c].Batch? ==> DistinctIds(calls[c].ns))
  }

  ghost predicate NotYetInserted(calls: Calls, rows: Rows) {
    forall c, id :: c in calls && BeforeInsert(calls[c]) && id in CallIds(calls[c]) ==> id !in rows
  }

  ghost predicate OwedUnpublished(calls: Calls, copies: Copies) {
    forall c, k :: c in calls && 0 <= k < |copies| ==> !Owes(calls[c], copies[k].first.n.id)
  }

  ghost predicate OneCopyEach(copies: Copies) {
    && (forall j, k :: 0 <= j < k < |copies| && copies[j].first.n.scheduledAt.None? ==> copies[j].first.n.id != copies[k].first.n.id)
    && (forall k :: 0 <= k < |copies| && copies[k].first.n.scheduledAt.None? ==> copies[k].first.retryCount == 0)
  }

  ghost predicate PublishInv(s: State) {
    && IdsBounded(s.calls, s.st.rows, s.nextId) && OwnersDistinct(s.calls) && NotYetInserted(s.calls, s.st.rows)
    && OwedUnpublished(s.calls, s.st.copies) && OneCopyEach(s.st.copies)
  }

  predicate SameFirsts(a: Copies, b: Copies) { |a| == |b| && forall k :: 0 <= k < |a| ==> b[k].first == a[k].first }

  // ----- steps that create no row and no copy

  lemma UnpublishedFrame(s: State, s': State)
    requires PublishInv(s) && s'.calls == s.calls && s'.nextId == s.nextId
    requires s'.st.rows.Keys == s.st.rows.Keys && SameFirsts(s.st.copies, s'.st.copies)
    ensures PublishInv(s')
  {}

  lemma ConsumerFirsts(cfg: Config, s: State, a: Action)
    requires Inv(cfg, s) && Enabled(s, a) && ConsumerAction(a)
    ensures var s' := Step(cfg, s, a);
      s'.calls == s.calls && s'.nextId == s.nextId && s'.st.rows.Keys == s.st.rows.Keys && SameFirsts(s.st.copies, s'.st.copies)
  {
    if a.Proceed? && s.consumers[a.t].act.Busy? && s.consumers[a.t].act.pc != CommitOffset {
      HandlerFirsts(cfg, s.st, a.t, s.consumers[a.t].act, a.ok, a.jitter);
      hide HandlerStep;
    }
    hide Inv;
  }

  lemma HandlerFirsts(cfg: Config, st: Store, t: Topic, h: Activity, ok: bool, jitter: real)
    requires h.Busy? && h.pc != CommitOffset && h.pc != NilLimiter && IsJitter(jitter)
    ensures var b := HandlerStep(cfg, st, t, h, ok, jitter).0; b.rows.Keys == st.rows.Keys && SameFirsts(st.copies, b.copies)
  {
    hide RetryAt, LimiterChannel, WithStatus, Overwrites, Log;
  }

  // ----- calls

  /** A new call owns new ids, which no row and so no copy has. */
  lemma StartPublish(s: State, c: nat, call: Call, n: nat)
    requires PublishInv(s) && c !in s.calls
    requires forall k :: 0 <= k < |s.st.copies| ==> s.st.copies[k].first.n.id in s.st.rows
    requires forall id :: id in CallIds(call) ==> s.nextId <= id < s.nextId + n
    requires forall id :: Owes(call, id) ==> id in CallIds(call)
    requires call.Batch? ==> DistinctIds(call.ns)
    ensures PublishInv(s.(calls := s.calls[c := call], nextId := s.nextId + n))
  {
    var s' := s.(calls := s.calls[c := call], nextId := s.nextId + n);
    forall d, e | d in s'.calls && e in s'.calls && d != e
      ensures CallIds(s'.calls[d]) !! CallIds(s'.calls[e])
    {
      assert d in s.calls || e in s.calls;
    }
  }

  lemma CopiesHaveRows(cfg: Config, st: Store)
    requires StoreInv(cfg, st)
    ensures forall k :: 0 <= k < |st.copies| ==> NoticeStored(st, st.copies[k].first.n)
  {
    forall k | 0 <= k < |st.copies|
      ensures NoticeStored(st, st.copies[k].first.n)
    {
      var r := st.copies[k];
      assert CopySound(st, k);
      assert EntrySound(cfg, st, r.topic, Log(st, r.topic)[r.offset]);
    }
  }

  /** A call goes on, or is dropped: it owns and owes no more than before. */
  lemma CallShrinks(s: State, s': State, c: nat)
    requires PublishInv(s) && c in s.calls && s'.nextId == s.nextId
    requires s'.calls == s.calls - {c} || (c in s'.calls && s'.calls == s.calls[c := s'.calls[c]])
    requires c in s'.calls ==>
      && CallIds(s'.calls[c]) <= CallIds(s.calls[c]) && (s'.calls[c].Batch? ==> DistinctIds(s'.calls[c].ns))
      && (BeforeInsert(s'.calls[c]) ==> BeforeInsert(s.calls[c]) && s'.st.rows == s.st.rows)
      && (forall id :: Owes(s'.calls[c], id) ==> Owes(s.calls[c], id))
    requires s.st.rows.Keys <= s'.st.rows.Keys <= s.st.rows.Keys + CallIds(s.calls[c])
    requires SameFirsts(s.st.copies, s'.st.copies)
    ensures PublishInv(s')
  {
    forall d, id | d in s'.calls && BeforeInsert(s'.calls[d]) && id in CallIds(s'.calls[d])
      ensures id !in s'.st.rows
    {
      assert d != c ==> CallIds(s.calls[d]) !! CallIds(s.calls[c]);
    }
  }

  /** A call publishes what it owes, and owes it no longer. */
  lemma CallPublishes(s: State, s': State, c: nat, m: Msg)
    requires PublishInv(s) && c in s.calls && s'.nextId == s.nextId && s'.st == Publish(s.st, m)
    requires c in s'.calls && s'.calls == s.calls[c := s'.calls[c]]
    requires m.n.id in CallIds(s.calls[c]) && (m.n.scheduledAt.None? ==> Owes(s.calls[c], m.n.id) && m.retryCount == 0)
    requires CallIds(s'.calls[c]) <= CallIds(s.calls[c]) && (s'.calls[c].Batch? ==> DistinctIds(s'.calls[c].ns)) && !BeforeInsert(s'.calls[c])
    requires forall id :: Owes(s'.calls[c], id) ==> Owes(s.calls[c], id) && id != m.n.id
    requires m.n.scheduledAt.Some? ==> forall k :: 0 <= k < |s.st.copies| && s.st.copies[k].first.n.id == m.n.id ==> s.st.copies[k].first.n.scheduledAt.Some?
    ensures PublishInv(s')
  {
    var copies, copies' := s.st.copies, s'.st.copies;
    assert copies' == copies + [copies'[|copies|]] && copies'[|copies|].first == m;
    hide Publish;
    forall d, k | d in s'.calls && 0 <= k < |copies'|
      ensures !Owes(s'.calls[d], copies'[k].first.n.id)
    {
      if d != c && k == |copies| {
        assert CallIds(s.calls[d]) !! CallIds(s.calls[c]);
        OwesOwnIds(s.calls[d], m.n.id);
      }
    }
  }

  lemma OwesOwnIds(c: Call, id: nat)
    ensures Owes(c, id) ==> id in CallIds(c)
  {}

  lemma CreateMoves(st: Store, n: Notice, pc: CreatePc, ok: bool)
    requires !(pc == Enqueue && ok)
    ensures var r := CreateStep(st, pc, n, ok);
      && CallIds(r.1) <= {n.id} && !BeforeInsert(r.1) && !r.1.Batch?
      && (forall id :: Owes(r.1, id) ==> Owes(Create(pc, n), id))
      && st.rows.Keys <= r.0.rows.Keys <= st.rows.Keys + {n.id} && r.0.copies == st.copies
  {}

  lemma {:induction false} InsertRowsKeys(st: Store, ns: seq<Notice>)
    ensures InsertRows(st, ns).rows.Keys == st.rows.Keys + CallIds(Batch(InsertAll, ns, 0))
  {
    if ns != [] {
      var front := ns[..|ns| - 1];
      InsertRowsKeys(st, front);
      assert forall i :: 0 <= i < |ns| ==> ns[i] == if i < |front| then front[i] else ns[|ns| - 1];
      assert CallIds(Batch(InsertAll, ns, 0)) == CallIds(Batch(InsertAll, front, 0)) + {ns[|ns| - 1].id};
    } else {
      assert CallIds(Batch(InsertAll, ns, 0)) == {};
    }
  }

  lemma BatchMoves(st: Store, ns: seq<Notice>, pc: BatchPc, i: nat, ok: bool)
    requires (pc != InsertAll ==> i < |ns|) && !(pc == EnqueueNext && ok)
    ensures var r := BatchStep(st, pc, ns, i, ok);
      && CallIds(r.1) <= CallIds(Batch(pc, ns, i)) && !BeforeInsert(r.1) && (r.1.Batch? ==> r.1.ns == ns)
      && (forall id :: Owes(r.1, id) ==> Owes(Batch(pc, ns, i), id))
      && st.rows.Keys <= r.0.rows.Keys <= st.rows.Keys + CallIds(Batch(pc, ns, i)) && r.0.copies == st.copies
  {
    InsertRowsKeys(st, ns);
    InsertRowsLogs(st, ns);
    hide InsertRows, BatchInsertable;
  }

  /** Publishing the i-th row of a batch leaves the later ones owed, and not this one again. */
  lemma BatchOwesRest(ns: seq<Notice>, i: nat)
    requires i < |ns| && DistinctIds(ns)
    ensures Owes(Batch(EnqueueNext, ns, i), ns[i].id) && ns[i].id in CallIds(Batch(EnqueueNext, ns, i))
    ensures forall id :: Owes(Batch(MarkNext, ns, i), id) ==> Owes(Batch(EnqueueNext, ns, i), id) && id != ns[i].id
  {}

  lemma StepCallPublish(cfg: Config, s: State, c: nat, ok: bool)
    requires Inv(cfg, s) && PublishInv(s) && Enabled(s, StepCall(c, ok))
    ensures PublishInv(Step(cfg, s, StepCall(c, ok)))
  {
    var s' := Step(cfg, s, StepCall(c, ok));
    var call := s.calls[c];
    assert CallInv(s.st, call);
    CopiesHaveRows(cfg, s.st);
    hide Inv, PublishInv, Publish;
    match call
    case Create(_, _) => CreateCallPublish(cfg, s, c, ok);
    case Batch(pc, ns, i) => BatchCallPublish(cfg, s, c, ok);
    case Cancel(id, checked) => CallShrinks(s, s', c);
  }

  lemma CreateCallPublish(cfg: Config, s: State, c: nat, ok: bool)
    requires Inv(cfg, s) && PublishInv(s) && Enabled(s, StepCall(c, ok)) && s.calls[c].Create?
    ensures PublishInv(Step(cfg, s, StepCall(c, ok)))
  {
    var s' := Step(cfg, s, StepCall(c, ok));
    var call := s.calls[c];
    assert CallInv(s.st, call);
    CopiesHaveRows(cfg, s.st);
    hide Inv, PublishInv, Publish;
    if call.cpc == Enqueue && ok {
      CallPublishes(s, s', c, Msg(call.n, 0));
    } else {
      CreateMoves(s.st, call.n, call.cpc, ok);
      hide CreateStep;
      CallShrinks(s, s', c);
    }
  }

  lemma BatchCallPublish(cfg: Config, s: State, c: nat, ok: bool)
    requires Inv(cfg, s) && PublishInv(s) && Enabled(s, StepCall(c, ok)) && s.calls[c].Batch?
    ensures PublishInv(Step(cfg, s, StepCall(c, ok)))
  {
    var s' := Step(cfg, s, StepCall(c, ok));
    var call := s.calls[c];
    assert CallInv(s.st, call);
    BatchDistinct(s, c);
    hide Inv, PublishInv, Publish;
    if call.bpc == EnqueueNext && ok {
      BatchOwesRest(call.ns, call.next);
      hide Owes, CallIds;
      CallPublishes(s, s', c, Msg(call.ns[call.next], 0));
    } else {
      BatchMoves(s.st, call.ns, call.bpc, call.next, ok);
      hide BatchStep, Owes, CallIds;
      CallShrinks(s, s', c);
    }
  }

  lemma BatchDistinct(s: State, c: nat)
    requires PublishInv(s) && c in s.calls && s.calls[c].Batch?
    ensures DistinctIds(s.calls[c].ns)
  {}

  // ----- scheduler passes

  /** A pass only publishes rows with a schedule. */
  lemma PassPublishes(cfg: Config, s: State, s': State, m: Msg)
    requires Inv(cfg, s) && PublishInv(s) && s'.st == Publish(s.st, m) && s'.calls == s.calls && s'.nextId == s.nextId
    requires MsgSound(s.st, m) && m.n.scheduledAt.Some?
    ensures PublishInv(s')
  {
    CopiesHaveRows(cfg, s.st);
    var copies, copies' := s.st.copies, s'.st.copies;
    assert copies' == copies + [copies'[|copies|]] && copies'[|copies|].first == m && s'.st.rows == s.st.rows;
    forall d | d in s.calls
      ensures !Owes(s.calls[d], m.n.id)
    {
      assert CallInv(s.st, s.calls[d]);
      OwesOwnIds(s.calls[d], m.n.id);
      hide StoreInv, ConsumersInv, PassesInv;
    }
    hide Inv, Publish;
  }

  lemma StepPassPublish(cfg: Config, s: State, p: nat, ok: bool)
    requires Inv(cfg, s) && PublishInv(s) && Enabled(s, StepPass(p, ok))
    ensures PublishInv(Step(cfg, s, StepPass(p, ok)))
  {
    var s' := Step(cfg, s, StepPass(p, ok));
    var pass := s.passes[p];
    assert PassInv(s.st, pass);
    hide Inv, PublishInv, Publish;
    if ok && !pass.marking {
      PassPublishes(cfg, s, s', pass.items[pass.next]);
    } else {
      UnpublishedFrame(s, s');
    }
  }

  // ----- the machine

  lemma StartBatchPublish(cfg: Config, s: State, c: nat, reqs: seq<Request>, batchId: nat)
    requires Inv(cfg, s) && PublishInv(s) && Enabled(s, StartBatch(c, reqs, batchId))
    ensures PublishInv(Step(cfg, s, StartBatch(c, reqs, batchId)))
  {
    CopiesHaveRows(cfg, s.st);
    hide Inv, PublishInv;
    var call := Batch(InsertAll, NoticesOf(reqs, s.nextId, batchId), 0);
    assert forall i :: 0 <= i < |call.ns| ==> call.ns[i].id == s.nextId + i;
    hide Accept;
    StartPublish(s, c, call, |reqs|);
  }

  lemma StartCreatePublish(cfg: Config, s: State, c: nat, req: Request, content: string)
    requires Inv(cfg, s) && PublishInv(s) && Enabled(s, StartCreate(c, req, content))
    ensures PublishInv(Step(cfg, s, StartCreate(c, req, content)))
  {
    CopiesHaveRows(cfg, s.st);
    hide Inv, PublishInv, Accept;
    StartPublish(s, c, Create(Insert, NoticeOf(req, s.nextId, None, content)), 1);
  }

  lemma StartCancelPublish(cfg: Config, s: State, c: nat, id: nat)
    requires Inv(cfg, s) && PublishInv(s) && Enabled(s, StartCancel(c, id))
    ensures PublishInv(Step(cfg, s, StartCancel(c, id)))
  {
    CopiesHaveRows(cfg, s.st);
    hide Inv, PublishInv;
    StartPublish(s, c, Cancel(id, false), 0);
  }

  lemma PublishStep(cfg: Config, s: State, a: Action)
    requires Inv(cfg, s) && PublishInv(s) && Enabled(s, a)
    ensures PublishInv(Step(cfg, s, a))
  {
    var s' := Step(cfg, s, a);
    hide Inv, PublishInv;
    if ConsumerAction(a) {
      ConsumerFirsts(cfg, s, a);
      UnpublishedFrame(s, s');
    } else {
      match a {
        case StepCall(c, ok) => StepCallPublish(cfg, s, c, ok);
        case StepPass(p, ok) => StepPassPublish(cfg, s, p, ok);
        case StartCreate(c, req, content) => StartCreatePublish(cfg, s, c, req, content);
        case StartBatch(c, reqs, batchId) => StartBatchPublish(cfg, s, c, reqs, batchId);
        case StartCancel(c, id) => StartCancelPublish(cfg, s, c, id);
        case KillCall(c) => CallShrinks(s, s', c);
        case _ => UnpublishedFrame(s, s');
      }
    }
  }

  lemma {:induction false} PublishRun(cfg: Config, acts: seq<Action>)
    requires Legal(cfg, Init(), acts)
    ensures PublishInv(Run(cfg, Init(), acts))
    decreases |acts|
  {
    InvInit(cfg);
    if acts != [] {
      var front := acts[..|acts| - 1];
      PublishRun(cfg, front);
      InvRun(cfg, Init(), front);
      hide Inv, PublishInv, Step, Enabled;
      PublishStep(cfg, Run(cfg, Init(), front), acts[|acts| - 1]);
    }
  }

  lemma ReachablePublish(cfg: Config, s: State)
    requires Reachable(cfg, s)
    ensures Inv(cfg, s) && PublishInv(s)
  {
    var acts :| Legal(cfg, Init(), acts) && Run(cfg, Init(), acts) == s;
    ReachableInv(cfg, s);
    PublishRun(cfg, acts);
  }
}
