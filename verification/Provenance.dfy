/** Every stored row was asked for by one request, and carries it; so what is proved of a row's key holds of the request's. */
module Provenance {
  import opened Domain
  import opened Protocol
  import opened Safety
  import opened Pipeline
  import opened Ledger
  import opened Outcomes
  import Guarantees
  import Idempotency
  import PublishOnce
  import Template

  /** The step takes in a request for this notice: its own fields, the resolved content of a single one, and the next free ids. */
  ghost predicate AsksFor(s: State, a: Action, n: Notice) {
    match a
    case StartCreate(_, req, content) =>
      n.id == s.nextId && NothingWrong(req) && Template.ResolvesTo(req.content, req.vars, content)
      && Carries(n, req, content, req.scheduledAt, None)
    case StartBatch(_, reqs, batchId) =>
      s.nextId <= n.id < s.nextId + |reqs| && NothingWrong(reqs[n.id - s.nextId])
      && Carries(n, reqs[n.id - s.nextId], reqs[n.id - s.nextId].content, None, Some(batchId))
    case _ => false
  }

  ghost predicate AskedFor(cfg: Config, acts: seq<Action>, n: Notice)
    requires Legal(cfg, Init(), acts)
  {
    exists k: nat :: k < |acts| && AskedAt(cfg, acts, k, n)
  }

  ghost predicate AskedAt(cfg: Config, acts: seq<Action>, k: nat, n: Notice)
    requires k < |acts|
  {
    Legal(cfg, Init(), acts[..k]) && AsksFor(Run(cfg, Init(), acts[..k]), acts[k], n)
  }

  function Notices(c: Call): set<Notice> {
    match c
    case Create(_, n) => {n}
    case Batch(_, ns, _) => set n | n in ns
    case _ => {}
  }

  ghost predicate AllAsked(cfg: Config, acts: seq<Action>)
    requires Legal(cfg, Init(), acts)
  {
    var s := Run(cfg, Init(), acts);
    && (forall id :: id in s.st.rows ==> AskedFor(cfg, acts, s.st.rows[id].n))
    && forall c, n :: c in s.calls && n in Notices(s.calls[c]) ==> AskedFor(cfg, acts, n)
  }

  // ----- one step

  lemma {:induction false} InsertedNotices(st: Store, ns: seq<Notice>, id: nat)
    requires id in InsertRows(st, ns).rows
    ensures InsertRows(st, ns).rows[id].n in ns || (id in st.rows && InsertRows(st, ns).rows[id].n == st.rows[id].n)
  {
    if ns != [] && id in InsertRows(st, ns[..|ns| - 1]).rows { InsertedNotices(st, ns[..|ns| - 1], id); }
  }

  /** A call's step stores its own notices, and keeps to them. */
  lemma CallsNotices(st: Store, c: Call, ok: bool, id: nat)
    requires CallReady(c)
    ensures var (b, c') := CallStep(st, c, ok);
      Notices(c') <= Notices(c) && (id in b.rows ==> b.rows[id].n in Notices(c) || (id in st.rows && b.rows[id].n == st.rows[id].n))
  {
    if c.Batch? && id in InsertRows(st, c.ns).rows { InsertedNotices(st, c.ns, id); }
    hide InsertRows, BatchInsertable, Insertable;
  }

  /** Which notices a step brings in. */
  lemma StepsNotices(cfg: Config, s: State, a: Action, id: nat)
    requires Inv(cfg, s) && Enabled(s, a) && id in Step(cfg, s, a).st.rows
    ensures var n := Step(cfg, s, a).st.rows[id].n;
      (id in s.st.rows && n == s.st.rows[id].n) || (a.StepCall? && n in Notices(s.calls[a.call]))
  {
    if a.StepCall? {
      CallsNotices(s.st, s.calls[a.call], a.ok, id);
      hide CallStep;
    } else {
      InvStep(cfg, s, a);
      NoNewRows(cfg, s, a, id);
      hide Step, Enabled, CopiesExtend, LogsExtend;
    }
    hide Inv;
  }

  lemma NoNewRows(cfg: Config, s: State, a: Action, id: nat)
    requires Enabled(s, a) && !a.StepCall? && id in Step(cfg, s, a).st.rows
    ensures id in s.st.rows
  {
    if a.Proceed? && s.consumers[a.t].act.Busy? && s.consumers[a.t].act.pc != CommitOffset {
      PublishOnce.HandlerFirsts(cfg, s.st, a.t, s.consumers[a.t].act, a.ok, a.jitter);
    }
    hide HandlerStep, Accept, IsDueList;
  }

  lemma CreateAsked(s: State, call: nat, req: Request, content: string)
    requires Enabled(s, StartCreate(call, req, content))
    ensures AsksFor(s, StartCreate(call, req, content), NoticeOf(req, s.nextId, None, content))
  {
    NoticeCarries(req, s.nextId, None, content);
    AcceptedExactly(req);
    hide Accept, NothingWrong, Carries;
  }

  lemma BatchAsked(s: State, call: nat, reqs: seq<Request>, batchId: nat, n: Notice)
    requires Enabled(s, StartBatch(call, reqs, batchId)) && n in NoticesOf(reqs, s.nextId, batchId)
    ensures AsksFor(s, StartBatch(call, reqs, batchId), n)
  {
    hide Accept, NothingWrong, Carries, NoticeOf;
    var i := PlaceInBatch(reqs, s.nextId, batchId, n);
    hide NoticesOf, Enabled;
    NoticeCarries(reqs[i], s.nextId + i, Some(batchId), reqs[i].content);
    AcceptedExactly(reqs[i]);
  }

  lemma PlaceInBatch(reqs: seq<Request>, id: nat, batchId: nat, n: Notice) returns (i: nat)
    requires (forall r :: r in reqs ==> Accept(r).Ok?) && n in NoticesOf(reqs, id, batchId)
    ensures i < |reqs| && Accept(reqs[i]).Ok? && n == NoticeOf(reqs[i], id + i, Some(batchId), reqs[i].content)
  {
    hide Accept, NoticeOf;
    i :| i < |reqs| && NoticesOf(reqs, id, batchId)[i] == n;
    assert reqs[i] in reqs;
  }

  /** New calls are about what they were asked for. */
  lemma CallsAsked(cfg: Config, s: State, a: Action, c: nat, n: Notice)
    requires Enabled(s, a) && c in Step(cfg, s, a).calls && n in Notices(Step(cfg, s, a).calls[c])
    ensures (c in s.calls && n in Notices(s.calls[c])) || AsksFor(s, a, n)
  {
    if a.StartCreate? {
      CreateAsked(s, a.call, a.req, a.content);
      hide Accept, AsksFor;
    } else if a.StartBatch? {
      if c == a.call { BatchAsked(s, a.call, a.reqs, a.batchId, n); }
      hide Accept, AsksFor;
    } else {
      if a.StepCall? { CallsNotices(s.st, s.calls[a.call], a.ok, 0); }
      hide CallStep, HandlerStep, ConsumerStep, FetchStep, PassStep, AsksFor, IsDueList;
    }
  }

  // ----- runs

  lemma StaysAsked(cfg: Config, acts: seq<Action>, n: Notice)
    requires Legal(cfg, Init(), acts) && acts != [] && AskedFor(cfg, acts[..|acts| - 1], n)
    ensures AskedFor(cfg, acts, n)
  {
    var front := acts[..|acts| - 1];
    var k :| 0 <= k < |front| && AskedAt(cfg, front, k, n);
    assert acts[..k] == front[..k];
    hide Legal, Run, AsksFor;
    assert AskedAt(cfg, acts, k, n);
  }

  lemma NowAsked(cfg: Config, acts: seq<Action>, n: Notice)
    requires Legal(cfg, Init(), acts) && acts != [] && AsksFor(Run(cfg, Init(), acts[..|acts| - 1]), acts[|acts| - 1], n)
    ensures AskedFor(cfg, acts, n)
  {
    hide AsksFor, Step, Enabled;
    assert AskedAt(cfg, acts, |acts| - 1, n);
  }

  lemma {:induction false} AskedRun(cfg: Config, acts: seq<Action>)
    requires Legal(cfg, Init(), acts)
    ensures AllAsked(cfg, acts)
    decreases |acts|
  {
    if acts != [] {
      var front, last := acts[..|acts| - 1], acts[|acts| - 1];
      var s, s' := Run(cfg, Init(), front), Run(cfg, Init(), acts);
      AskedRun(cfg, front);
      InvInit(cfg);
      InvRun(cfg, Init(), front);
      hide Inv, Step, Enabled, AskedFor, AsksFor, Init, Notices;
      forall id | id in s'.st.rows
        ensures AskedFor(cfg, acts, s'.st.rows[id].n)
      {
        StepsNotices(cfg, s, last, id);
        StaysAsked(cfg, acts, s'.st.rows[id].n);
      }
      forall c, n | c in s'.calls && n in Notices(s'.calls[c])
        ensures AskedFor(cfg, acts, n)
      {
        CallsAsked(cfg, s, last, c, n);
        if AsksFor(s, last, n) { NowAsked(cfg, acts, n); } else { StaysAsked(cfg, acts, n); }
      }
    }
  }

  /** Each row carries the request that asked for its id: recipient, key, content, schedule, channel and priority. */
  lemma RowsWereAskedFor(cfg: Config, acts: seq<Action>, id: nat)
    requires Legal(cfg, Init(), acts) && id in Run(cfg, Init(), acts).st.rows
    ensures Run(cfg, Init(), acts).st.rows[id].n.id == id
    ensures exists k: nat :: k < |acts| && AskedAt(cfg, acts, k, Run(cfg, Init(), acts).st.rows[id].n)
  {
    AskedRun(cfg, acts);
    InvInit(cfg);
    InvRun(cfg, Init(), acts);
    hide Legal, Run, AskedAt;
    assert AskedFor(cfg, acts, Run(cfg, Init(), acts).st.rows[id].n);
  }

  // ----- keys of requests

  /** The step takes in a request with this key for this id. */
  ghost predicate AsksWithKey(s: State, a: Action, id: nat, key: string) {
    match a
    case StartCreate(_, req, _) => id == s.nextId && req.key == key
    case StartBatch(_, reqs, _) => s.nextId <= id < s.nextId + |reqs| && reqs[id - s.nextId].key == key
    case _ => false
  }

  ghost predicate RequestedWithKey(cfg: Config, acts: seq<Action>, k: nat, id: nat, key: string) {
    k < |acts| && Legal(cfg, Init(), acts[..k]) && AsksWithKey(Run(cfg, Init(), acts[..k]), acts[k], id, key)
  }

  /** Ids are given out once: the next free one never goes back, and passes those that were asked for. */
  lemma {:induction false} NextIdGrows(cfg: Config, acts: seq<Action>, k: nat)
    requires Legal(cfg, Init(), acts) && k <= |acts|
    ensures Legal(cfg, Init(), acts[..k]) && Run(cfg, Init(), acts[..k]).nextId <= Run(cfg, Init(), acts).nextId
    decreases |acts|
  {
    if k < |acts| {
      var front := acts[..|acts| - 1];
      assert acts[..k] == front[..k];
      NextIdGrows(cfg, front, k);
      IdsGrow(cfg, Run(cfg, Init(), front), acts[|acts| - 1]);
      hide Step, Enabled;
    } else {
      assert acts[..k] == acts;
    }
  }

  lemma IdsGrow(cfg: Config, s: State, a: Action)
    requires Enabled(s, a)
    ensures s.nextId <= Step(cfg, s, a).nextId
    ensures forall id: nat, key :: AsksWithKey(s, a, id, key) ==> s.nextId <= id < Step(cfg, s, a).nextId
  {
    hide ConsumerStep, FetchStep, CallStep, PassStep, Accept, IsDueList;
  }

  /** Two requests for one id are one. */
  lemma OneRequestEach(cfg: Config, acts: seq<Action>, j: nat, k: nat, id: nat, a: string, b: string)
    requires Legal(cfg, Init(), acts) && RequestedWithKey(cfg, acts, j, id, a) && RequestedWithKey(cfg, acts, k, id, b)
    ensures j == k && a == b
  {
    if j < k { EarlierIds(cfg, acts, j, k, id, a); }
    if k < j { EarlierIds(cfg, acts, k, j, id, b); }
  }

  lemma EarlierIds(cfg: Config, acts: seq<Action>, j: nat, k: nat, id: nat, key: string)
    requires Legal(cfg, Init(), acts) && j < k < |acts| && RequestedWithKey(cfg, acts, j, id, key)
    ensures Legal(cfg, Init(), acts[..k]) && id < Run(cfg, Init(), acts[..k]).nextId
  {
    hide Step, Enabled, AsksWithKey, Init;
    NextIdGrows(cfg, acts, k);
    var before := acts[..k];
    assert before[..j + 1] == acts[..j + 1];
    NextIdGrows(cfg, before, j + 1);
    SameRequest(cfg, acts, j, id, key);
    AskedIsBelow(cfg, acts[..j + 1], id, key);
  }

  lemma SameRequest(cfg: Config, acts: seq<Action>, j: nat, id: nat, key: string)
    requires RequestedWithKey(cfg, acts, j, id, key)
    ensures RequestedWithKey(cfg, acts[..j + 1], j, id, key)
  {
    assert acts[..j + 1][..j] == acts[..j];
    hide AsksWithKey, Legal, Run;
  }

  lemma AskedIsBelow(cfg: Config, acts: seq<Action>, id: nat, key: string)
    requires acts != [] && Legal(cfg, Init(), acts) && RequestedWithKey(cfg, acts, |acts| - 1, id, key)
    ensures id < Run(cfg, Init(), acts).nextId
  {
    IdsGrow(cfg, Run(cfg, Init(), acts[..|acts| - 1]), acts[|acts| - 1]);
    hide Step, Enabled, AsksWithKey;
  }

  /** A row has the key of the request for its id. */
  lemma RowHasItsKey(cfg: Config, acts: seq<Action>, k: nat, id: nat, key: string)
    requires Legal(cfg, Init(), acts) && RequestedWithKey(cfg, acts, k, id, key) && id in Run(cfg, Init(), acts).st.rows
    ensures Run(cfg, Init(), acts).st.rows[id].n.key == key
  {
    var n := Run(cfg, Init(), acts).st.rows[id].n;
    RowsWereAskedFor(cfg, acts, id);
    var j: nat :| j < |acts| && AskedAt(cfg, acts, j, n);
    AskedWithItsKey(Run(cfg, Init(), acts[..j]), acts[j], n);
    hide Legal, Run, AsksFor, AsksWithKey;
    OneRequestEach(cfg, acts, j, k, id, n.key, key);
  }

  lemma AskedWithItsKey(s: State, a: Action, n: Notice)
    requires AsksFor(s, a, n)
    ensures AsksWithKey(s, a, n.id, n.key)
  {}

  /**
   Idempotency of requests: of all requests with one non-empty key, taken in by any calls at any time, at most one has its row;
   and if that row has no schedule, then without redelivery it is accepted at most once and sent at most max(1, maxRetries) times.
   */
  lemma RequestsWithOneKey(cfg: Config, acts: seq<Action>, j: nat, k: nat, id: nat, other: nat, key: string)
    requires Legal(cfg, Init(), acts) && key != ""
    requires RequestedWithKey(cfg, acts, j, id, key) && RequestedWithKey(cfg, acts, k, other, key)
    requires id in Run(cfg, Init(), acts).st.rows
    ensures other in Run(cfg, Init(), acts).st.rows ==> other == id && j == k
    ensures var s := Run(cfg, Init(), acts);
      !s.redelivered && s.st.rows[id].n.scheduledAt.None? ==>
        (Count(s.st.trace, AcceptedFor(id)) <= 1 && Count(s.st.trace, SendsFor(id)) <= if cfg.maxRetries > 1 then cfg.maxRetries else 1)
  {
    var s := Run(cfg, Init(), acts);
    assert Reachable(cfg, s);
    RowHasItsKey(cfg, acts, j, id, key);
    if other in s.st.rows {
      RowHasItsKey(cfg, acts, k, other, key);
      Guarantees.OneRowPerKey(cfg, s, id, other);
      OneRequestEach(cfg, acts, j, k, id, key, key);
    }
    hide Reachable, Legal, Run, RequestedWithKey, Count;
    if !s.redelivered && s.st.rows[id].n.scheduledAt.None? { Idempotency.SentAtMostOnce(cfg, s, id); }
  }
}
