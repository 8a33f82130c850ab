/**
 The notification service and the scheduler pass, written as they are in the program: calls of the repository and of
 the queue, one after the other. Each is proved to do what its composed machine steps do.
 */
module Service {
  import opened Domain
  import opened Protocol
  import opened Drive
  import opened Runtime
  import opened Outcomes
  import Template

  // ----- the API

  function ParseProblem(req: Request): Option<Error> {
    match ParseChannel(req.channel)
    case Err(e) => Some(e)
    case Ok(_) => match ParsePriority(req.priority) case Err(e) => Some(e) case Ok(_) => None
  }

  function ContentProblem(req: Request): Option<Error> {
    match ParseChannel(req.channel)
    case Err(e) => Some(e)
    case Ok(c) => Validate(req.recipient, c, req.content)
  }

  /** The requests are parsed one by one, then counted, then validated one by one; the first problem is the answer. */
  ghost predicate RefusedWith(reqs: seq<Request>, e: Error) {
    || (exists i :: 0 <= i < |reqs| && ParseProblem(reqs[i]) == Some(e) && forall j :: 0 <= j < i ==> ParseProblem(reqs[j]).None?)
    || ((forall j :: 0 <= j < |reqs| ==> ParseProblem(reqs[j]).None?)
        && if |reqs| > MAX_BATCH_SIZE then e == BatchTooLarge
           else exists i :: 0 <= i < |reqs| && ContentProblem(reqs[i]) == Some(e) && forall j :: 0 <= j < i ==> ContentProblem(reqs[j]).None?)
  }

  predicate Acceptable(reqs: seq<Request>) { |reqs| <= MAX_BATCH_SIZE && forall r :: r in reqs ==> Accept(r).Ok? }

  /** The problems that are looked for are those of the request. */
  lemma ProblemsAreWrong(req: Request)
    ensures ParseProblem(req).Some? ==> WrongWith(req, ParseProblem(req).value)
    ensures ParseProblem(req).None? && ContentProblem(req).Some? ==> WrongWith(req, ContentProblem(req).value)
  {}

  /** A batch is refused for its size or for a request with which something is wrong. */
  lemma RefusedRightly(reqs: seq<Request>, e: Error)
    requires RefusedWith(reqs, e)
    ensures (|reqs| > 1000 && e == BatchTooLarge) || exists i :: 0 <= i < |reqs| && WrongWith(reqs[i], e)
  {
    if i :| 0 <= i < |reqs| && ParseProblem(reqs[i]) == Some(e) {
      ProblemsAreWrong(reqs[i]);
    } else if |reqs| <= MAX_BATCH_SIZE {
      var i :| 0 <= i < |reqs| && ContentProblem(reqs[i]) == Some(e);
      ProblemsAreWrong(reqs[i]);
    }
  }

  lemma AcceptableExactly(reqs: seq<Request>)
    ensures Acceptable(reqs) <==> |reqs| <= 1000 && forall i :: 0 <= i < |reqs| ==> NothingWrong(reqs[i])
  {
    forall r | r in reqs
      ensures Accept(r).Ok? <==> NothingWrong(r)
    {
      AcceptedExactly(r);
    }
    hide Accept, NothingWrong;
    assert forall i :: 0 <= i < |reqs| ==> reqs[i] in reqs;
  }

  lemma AllAccepted(reqs: seq<Request>)
    requires Acceptable(reqs)
    ensures forall r :: r in reqs ==> Accept(r).Ok?
  {}

  /** The notices of a batch carry their requests, without schedules, and with consecutive ids. */
  ghost predicate BatchOf(ns: seq<Notice>, reqs: seq<Request>, id: nat, batchId: nat) {
    && |ns| == |reqs|
    && forall i :: 0 <= i < |ns| ==> ns[i].id == id + i && Carries(ns[i], reqs[i], reqs[i].content, None, Some(batchId))
  }

  lemma NoticesAreBatch(reqs: seq<Request>, id: nat, batchId: nat)
    requires Acceptable(reqs)
    ensures BatchOf(NoticesOf(reqs, id, batchId), reqs, id, batchId)
  {
    forall i | 0 <= i < |reqs|
      ensures var n := NoticesOf(reqs, id, batchId)[i]; n.id == id + i && Carries(n, reqs[i], reqs[i].content, None, Some(batchId))
    {
      NoticeCarries(reqs[i], id + i, Some(batchId), reqs[i].content);
    }
  }

  class NotificationService {
    const backend: Backend
    var nextId: nat

    constructor (backend: Backend)
      ensures this.backend == backend && nextId == 0
    {
      this.backend := backend;
      nextId := 0;
    }

    /** What the machine makes of a call that starts here. */
    ghost function Outcome(c: Call): (Store, Call, nat)
      requires CallReady(c)
      reads this, backend
    {
      Serve(backend.env, backend.View(), c, backend.calls)
    }

    method Create(req: Request) returns (r: Result<nat>, ghost content: string)
      modifies this, backend
      ensures Accept(req).Err? ==>
        r == Err(Accept(req).error) && backend.View() == old(backend.View()) && backend.calls == old(backend.calls) && nextId == old(nextId)
      ensures Accept(req).Ok? ==>
        && Template.ResolvesTo(req.content, req.vars, content) && nextId == old(nextId) + 1
        && (r.Ok? ==> r.value == old(nextId))
        && old(Outcome(Call.Create(Insert, NoticeOf(req, nextId, None, content))))
          == (backend.View(), Finished(if r.Ok? then None else Some(r.error)), backend.calls)
      ensures !NothingWrong(req) ==>
        r.Err? && WrongWith(req, r.error) && backend.rows == old(backend.rows) && backend.logs == old(backend.logs) && nextId == old(nextId)
      ensures NothingWrong(req) ==>
        && Template.ResolvesTo(req.content, req.vars, content) && nextId == old(nextId) + 1
        && exists n: Notice :: n.id == old(nextId) && Carries(n, req, content, req.scheduledAt, None)
             && CreateCame(backend.env, old(backend.calls), old(backend.View()), backend.View(), n, if r.Ok? then None else Some(r.error))
      ensures r.Ok? ==>
        && r.value == old(nextId) && r.value !in old(backend.rows) && r.value in backend.rows
        && var row := backend.rows[r.value];
           backend.rows == old(backend.rows)[r.value := row] && row.retryCount == 0
           && Carries(row.n, req, content, req.scheduledAt, None)
           && if req.scheduledAt.Some? && req.scheduledAt.value > old(backend.now)
              then row.status == Pending && backend.logs == old(backend.logs)
              else row.status == Queued && Recorded(old(backend.View()), backend.View(), Msg(row.n, 0))
    {
      hide Serve, CreateCame, Recorded, Carries, NothingWrong, Template.ResolvesTo, Accept;
      AcceptedExactly(req);
      content := "";
      var accepted := Accept(req);
      if accepted.Err? { return Err(accepted.error), content; }
      var text := Template.ResolveTemplate(req.content, req.vars);
      content := text;
      var id := nextId;
      nextId := nextId + 1;
      var n := NoticeOf(req, id, None, text);
      ghost var before, k := backend.View(), backend.calls;
      NoticeCarries(req, id, None, text);
      CreateOutcome(backend.env, before, n, k);
      var error := StoreAndEnqueue(n);
      assert CreateCame(backend.env, k, before, backend.View(), n, error);
      if error.Some? { return Err(error.value), content; }
      CreatedRow(backend.env, k, before, backend.View(), n);
      r := Ok(id);
    }

    /** The second half of `Create`: the calls of the repository and of the queue, for a notice that was accepted. */
    method StoreAndEnqueue(n: Notice) returns (error: Option<Error>)
      modifies backend
      ensures old(Outcome(Call.Create(Insert, n))) == (backend.View(), Finished(error), backend.calls)
    {
      hide Serve, Insertable, InsertRow, UpdateStatus, Publish;
      ServeNext(backend.env, backend.View(), Call.Create(Insert, n), backend.calls);
      error := backend.Insert(n);
      if error.Some? { return; }
      ServeNext(backend.env, backend.View(), Call.Create(CheckSchedule, n), backend.calls);
      if n.scheduledAt.Some? && n.scheduledAt.value > backend.now {
        backend.NoteDeferred(n.id);
        return None;
      }
      ServeNext(backend.env, backend.View(), Call.Create(MarkQueued, n), backend.calls);
      var failed := backend.UpdateStatus(n.id, Queued);
      if failed { return Some(StoreFailure); }
      ServeNext(backend.env, backend.View(), Call.Create(Enqueue, n), backend.calls);
      failed := backend.Publish(Msg(n, 0));
      if failed {
        ServeNext(backend.env, backend.View(), Call.Create(RollBack, n), backend.calls);
        failed := backend.UpdateStatus(n.id, Pending);
        return Some(QueueFailure);
      }
      error := None;
    }

    /** Parsing, counting and validating the requests of a batch. */
    method Check(reqs: seq<Request>) returns (problem: Option<Error>)
      ensures problem.None? <==> Acceptable(reqs)
      ensures problem.Some? ==> RefusedWith(reqs, problem.value)
    {
      var i := 0;
      while i < |reqs|
        invariant 0 <= i <= |reqs| && forall j :: 0 <= j < i ==> ParseProblem(reqs[j]).None?
      {
        problem := ParseProblem(reqs[i]);
        if problem.Some? {
          assert Accept(reqs[i]).Err? && reqs[i] in reqs;
          return;
        }
        i := i + 1;
      }
      if |reqs| > MAX_BATCH_SIZE { return Some(BatchTooLarge); }
      i := 0;
      while i < |reqs|
        invariant 0 <= i <= |reqs| && forall j :: 0 <= j < i ==> ContentProblem(reqs[j]).None?
      {
        problem := ContentProblem(reqs[i]);
        if problem.Some? {
          assert Accept(reqs[i]).Err? && reqs[i] in reqs;
          return;
        }
        i := i + 1;
      }
      problem := None;
    }

    method CreateBatch(reqs: seq<Request>, batchId: nat) returns (error: Option<Error>)
      modifies this, backend
      ensures !Acceptable(reqs) ==>
        && error.Some? && RefusedWith(reqs, error.value)
        && backend.View() == old(backend.View()) && backend.calls == old(backend.calls) && nextId == old(nextId)
      ensures Acceptable(reqs) ==>
        && nextId == old(nextId) + |reqs|
        && old(Outcome(Batch(BatchPc.InsertAll, NoticesOf(reqs, nextId, batchId), 0))) == (backend.View(), Finished(error), backend.calls)
      ensures |reqs| > 1000 || (exists i :: 0 <= i < |reqs| && !NothingWrong(reqs[i])) ==>
        && error.Some? && backend.rows == old(backend.rows) && backend.logs == old(backend.logs)
        && ((|reqs| > 1000 && error.value == BatchTooLarge) || exists i :: 0 <= i < |reqs| && WrongWith(reqs[i], error.value))
      ensures |reqs| <= 1000 && (forall i :: 0 <= i < |reqs| ==> NothingWrong(reqs[i])) ==>
        exists ns :: BatchOf(ns, reqs, old(nextId), batchId)
          && BatchCame(backend.env, old(backend.calls), old(backend.View()), backend.View(), ns, error, backend.calls)
    {
      hide Serve, Accept, RefusedWith, NothingWrong, WrongWith, BatchOf, BatchCame, Acceptable;
      AcceptableExactly(reqs);
      error := Check(reqs);
      if error.Some? {
        RefusedRightly(reqs, error.value);
        return;
      }
      AllAccepted(reqs);
      var ns := NoticesOf(reqs, nextId, batchId);
      NoticesAreBatch(reqs, nextId, batchId);
      nextId := nextId + |reqs|;
      BatchOutcome(backend.env, backend.View(), ns, backend.calls);
      error := StoreAndPublish(ns);
    }

    method StoreAndPublish(ns: seq<Notice>) returns (error: Option<Error>)
      modifies backend
      ensures old(Outcome(Batch(BatchPc.InsertAll, ns, 0))) == (backend.View(), Finished(error), backend.calls)
    {
      hide Serve, InsertRows, BatchInsertable;
      ServeNext(backend.env, backend.View(), Batch(BatchPc.InsertAll, ns, 0), backend.calls);
      error := backend.InsertAll(ns);
      if error.Some? { return; }
      PublishAll(ns);
    }

    /** The second half of `CreateBatch`: publish each and mark it queued; a failed publish is logged. */
    method PublishAll(ns: seq<Notice>)
      modifies backend
      ensures var c := NextInBatch(ns, 0);
        if c.Finished? then backend.View() == old(backend.View()) && backend.calls == old(backend.calls)
        else old(Outcome(NextInBatch(ns, 0))) == (backend.View(), Finished(None), backend.calls)
    {
      var i := 0;
      while i < |ns|
        invariant 0 <= i <= |ns|
        invariant Serve(backend.env, backend.View(), NextInBatch(ns, i), backend.calls)
          == old(Serve(backend.env, backend.View(), NextInBatch(ns, 0), backend.calls))
      {
        hide Serve;
        ServeNext(backend.env, backend.View(), Batch(EnqueueNext, ns, i), backend.calls);
        var failed := backend.Publish(Msg(ns[i], 0));
        if !failed {
          ServeNext(backend.env, backend.View(), Batch(MarkNext, ns, i), backend.calls);
          var unmarked := backend.UpdateStatus(ns[i].id, Queued);
        }
        i := i + 1;
      }
    }

    /** Read, check, and then the guarded update. */
    method CancelById(id: nat) returns (error: Option<Error>)
      modifies backend
      ensures old(Outcome(Cancel(id, false))) == (backend.View(), Finished(error), backend.calls)
      ensures CancelCame(backend.env, old(backend.calls), old(backend.View()), backend.View(), id, error)
      ensures backend.env.ok(old(backend.calls)) && backend.env.ok(old(backend.calls) + 1) ==>
        (error.None? <==> id in old(backend.rows) && (old(backend.rows)[id].status == Pending || old(backend.rows)[id].status == Queued))
    {
      hide Serve;
      CancelOutcome(backend.env, backend.View(), id, backend.calls);
      ServeNext(backend.env, backend.View(), Cancel(id, false), backend.calls);
      var status := backend.Lookup(id);
      if status.Err? { return Some(status.error); }
      if !IsCancellable(status.value) { return Some(NotCancellable); }
      ServeNext(backend.env, backend.View(), Cancel(id, true), backend.calls);
      error := backend.CancelRow(id);
    }
  }

  lemma DueDiffer(st: Store, ids: seq<nat>)
    requires IsDueList(st, ids) && forall id :: id in st.rows ==> st.rows[id].n.id == id
    ensures DifferentRows(st.rows, DueMessages(st, ids))
  {
    assert forall i :: 0 <= i < |ids| ==> ids[i] in ids;
  }

  class Scheduler {
    const backend: Backend

    constructor (backend: Backend)
      ensures this.backend == backend
    {
      this.backend := backend;
    }

    /** One pass: fetch what is due, and publish and mark it row by row. */
    method ProcessDueNotifications() returns (ghost ids: seq<nat>)
      modifies backend
      ensures !backend.env.ok(old(backend.calls)) ==> backend.View() == old(backend.View()) && backend.calls == old(backend.calls) + 1
      ensures backend.env.ok(old(backend.calls)) ==>
        && IsDueList(old(backend.View()), ids)
        && Sweep(backend.env, old(backend.View()), Pass(DueMessages(old(backend.View()), ids), 0, false), old(backend.calls) + 1)
          == (backend.View(), Pass(DueMessages(old(backend.View()), ids), |ids|, false), backend.calls)
      ensures backend.env.ok(old(backend.calls)) ==> forall id :: id in ids <==>
        && id in old(backend.rows) && old(backend.rows)[id].status == Pending
        && old(backend.rows)[id].n.scheduledAt.Some? && old(backend.rows)[id].n.scheduledAt.value <= old(backend.now)
      ensures backend.env.ok(old(backend.calls)) && (forall id :: id in old(backend.rows) ==> old(backend.rows)[id].n.id == id) ==>
        && backend.calls == PublishCall(backend.env, old(backend.calls) + 1, |ids|)
        && AllTried(backend.env, old(backend.calls) + 1, DueMessages(old(backend.View()), ids), 0, old(backend.View()), backend.View())
    {
      hide Sweep, AllTried, PublishCall;
      var failed, due := backend.GetDueScheduled();
      ids := due;
      if failed { return; }
      var items := DueMessages(backend.View(), due);
      ghost var ownIds := forall id :: id in backend.rows ==> backend.rows[id].n.id == id;
      if ownIds {
        DueDiffer(backend.View(), due);
        SweepOutcome(backend.env, backend.View(), items, 0, backend.calls);
      }
      PublishDue(items);
    }

    /** Publish each and mark it queued; failures are logged. */
    method PublishDue(items: seq<Msg>)
      modifies backend
      ensures old(Sweep(backend.env, backend.View(), Pass(items, 0, false), backend.calls))
        == (backend.View(), Pass(items, |items|, false), backend.calls)
    {
      var i := 0;
      while i < |items|
        invariant 0 <= i <= |items|
        invariant Sweep(backend.env, backend.View(), Pass(items, i, false), backend.calls)
          == old(Sweep(backend.env, backend.View(), Pass(items, 0, false), backend.calls))
      {
        hide Sweep;
        var n := items[i];
        SweepNext(backend.env, backend.View(), Pass(items, i, false), backend.calls);
        var rejected := backend.Publish(n);
        if !rejected {
          SweepNext(backend.env, backend.View(), Pass(items, i, true), backend.calls);
          var unmarked := backend.UpdateStatus(n.n.id, Queued);
        }
        i := i + 1;
      }
    }
  }
}
