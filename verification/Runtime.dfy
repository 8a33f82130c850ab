/**
 The service, the worker, the scheduler pass and the consumer loop in the form they are written in: methods that call a
 repository, a queue, a limiter and a notifier one after the other, and set fields as they go. Each is proved to do
 what the composed machine steps do, so everything that is proved of runs holds of it.
 */
module Runtime {
  import opened Domain
  import opened Backoff
  import opened Protocol
  import opened Drive
  import opened Outcomes

  /**
   What the processes share: `rows`, `logs` and `now` are the table, the topics and the clock. `past` holds the
   machine's history, which no process reads. `calls` counts the calls answered so far by `env`.
   */
  class Backend {
    const env: Env
    var calls: nat
    var rows: map<nat, Row>
    var logs: map<Topic, seq<Entry>>
    var now: int
    var past: Store

    constructor (env: Env)
      ensures this.env == env && calls == 0 && View() == Init().st
    {
      this.env := env;
      calls, rows, logs, now := 0, map[], map[], 0;
      past := Init().st;
    }

    /** The machine's view of the stores. */
    function View(): Store
      reads this
    {
      past.(rows := rows, logs := logs, now := now)
    }

    /** The last handling of a record ended with an error. */
    predicate Failed(t: Topic, offset: nat)
      reads this
    {
      (t, offset) in past.outcomes && past.outcomes[(t, offset)] == HandlerError
    }

    method Ask() returns (ok: bool)
      modifies this`calls
      ensures ok == env.ok(old(calls)) && calls == old(calls) + 1
    {
      ok := env.ok(calls);
      calls := calls + 1;
    }

    // ----- the repository

    method UpdateStatus(id: nat, status: Status) returns (failed: bool)
      modifies this
      ensures calls == old(calls) + 1 && View() == Protocol.UpdateStatus(old(View()), id, status, env.ok(old(calls)))
      ensures failed <==> !(env.ok(old(calls)) && id in old(rows))
      ensures past.outcomes == old(past.outcomes)
    {
      var ok := Ask();
      failed := !ok || id !in rows;
      if failed {
        past := past.(disturbed := past.disturbed + {id});
      } else {
        if Overwrites(rows[id].status, status) { past := past.(overwritten := past.overwritten + {id}); }
        rows := rows[id := rows[id].(status := status)];
      }
    }

    method IncrementRetry(id: nat)
      modifies this
      ensures calls == old(calls) + 1 && View() == Protocol.IncrementRetry(old(View()), id, env.ok(old(calls)))
    {
      var ok := Ask();
      if ok && id in rows {
        rows := rows[id := rows[id].(retryCount := rows[id].retryCount + 1)];
      } else {
        past := past.(disturbed := past.disturbed + {id});
      }
    }

    /** The insert that the two unique indexes guard. */
    method Insert(n: Notice) returns (error: Option<Error>)
      modifies this
      ensures calls == old(calls) + 1
      ensures error == if !env.ok(old(calls)) then Some(StoreFailure) else if Insertable(old(View()), n) then None else Some(DuplicateKey)
      ensures View() == if error.None? then InsertRow(old(View()), n) else old(View())
      ensures error.None? <==> env.ok(old(calls)) && Free(old(rows), n.id, n.key)
      ensures rows == (if error.None? then old(rows)[n.id := Row(n, Pending, 0)] else old(rows)) && logs == old(logs) && now == old(now)
    {
      InsertableIsFree(View(), n);
      var ok := Ask();
      if !ok { return Some(StoreFailure); }
      if n.id in rows || (n.key != "" && exists id :: id in rows && rows[id].n.key == n.key) { return Some(DuplicateKey); }
      rows := rows[n.id := Row(n, Pending, 0)];
      error := None;
    }

    /** One insert per notification, and none of them stays if one is refused. */
    method InsertAll(ns: seq<Notice>) returns (error: Option<Error>)
      modifies this
      ensures calls == old(calls) + 1
      ensures error == if !env.ok(old(calls)) && ns != [] then Some(StoreFailure)
                       else if BatchInsertable(old(View()), ns) then None else Some(DuplicateKey)
      ensures View() == if error.None? then InsertRows(old(View()), ns) else old(View())
      ensures error.None? <==> (env.ok(old(calls)) || ns == []) && AllFree(old(rows), ns)
      ensures if error.None? then RowsAdded(old(rows), rows, ns) else rows == old(rows)
      ensures logs == old(logs) && now == old(now)
    {
      BatchInsertableIsFree(View(), ns);
      hide AllFree, RowsAdded;
      var ok := Ask();
      if !ok && ns != [] { return Some(StoreFailure); }
      var before := rows;
      ghost var st := View();
      var i := 0;
      while i < |ns|
        invariant 0 <= i <= |ns| && calls == old(calls) + 1 && before == old(rows)
        invariant View() == InsertRows(st, ns[..i]) && BatchInsertable(st, ns[..i]) && logs == old(logs) && now == old(now)
      {
        hide InsertRows, BatchInsertable;
        InsertNext(st, ns, i);
        var n := ns[i];
        if n.id in rows || (n.key != "" && exists id :: id in rows && rows[id].n.key == n.key) {
          NotInsertableLater(st, ns, i + 1, |ns|);
          assert ns[..|ns|] == ns;
          rows := before;
          InsertRowsOnlyRows(st, ns[..i]);
          return Some(DuplicateKey);
        }
        rows := rows[n.id := Row(n, Pending, 0)];
        i := i + 1;
      }
      assert ns[..|ns|] == ns;
      error := None;
    }

    method Lookup(id: nat) returns (r: Result<Status>)
      modifies this
      ensures calls == old(calls) + 1 && View() == old(View())
      ensures r == if !env.ok(old(calls)) then Err(StoreFailure) else if id in rows then Ok(rows[id].status) else Err(NotFound)
    {
      var ok := Ask();
      if !ok { return Err(StoreFailure); }
      if id !in rows { return Err(NotFound); }
      r := Ok(rows[id].status);
    }

    /** The update that the status guards. */
    method CancelRow(id: nat) returns (error: Option<Error>)
      modifies this
      ensures calls == old(calls) + 1
      ensures error == if !env.ok(old(calls)) then Some(StoreFailure)
                       else if id in old(rows) && IsCancellable(old(rows)[id].status) then None else Some(NotCancellable)
      ensures View() == if error.None? then GuardedCancel(old(View()), id) else old(View())
    {
      var ok := Ask();
      if !ok { return Some(StoreFailure); }
      if id !in rows || !IsCancellable(rows[id].status) { return Some(NotCancellable); }
      rows := rows[id := rows[id].(status := Cancelled)];
      error := None;
    }

    /** All rows that are due, the earliest schedule first; rows of one time come in any order. */
    method GetDueScheduled() returns (failed: bool, ids: seq<nat>)
      modifies this`calls
      ensures calls == old(calls) + 1 && failed == !env.ok(old(calls))
      ensures !failed ==> IsDueList(View(), ids)
      ensures !failed ==> forall id :: id in ids <==>
        id in rows && rows[id].status == Pending && rows[id].n.scheduledAt.Some? && rows[id].n.scheduledAt.value <= now
      ensures !failed ==> forall i, j :: 0 <= i < j < |ids| ==>
        ids[i] != ids[j] && ids[i] in rows && ids[j] in rows && rows[ids[i]].n.scheduledAt.Some? && rows[ids[j]].n.scheduledAt.Some?
        && rows[ids[i]].n.scheduledAt.value <= rows[ids[j]].n.scheduledAt.value
    {
      var ok := Ask();
      ids := [];
      if !ok { return true, []; }
      var due := set id | id in rows && IsDue(View(), id);
      var rest := due;
      assert BySchedule(rows, ids, rest);
      hide BySchedule, NotLater, IsDue, IsDueList;
      while rest != {}
        invariant rest <= due && forall id :: id in due <==> id in rest || id in ids
        invariant BySchedule(rows, ids, rest) && calls == old(calls) + 1
        decreases rest
      {
        ghost var least := Earliest(rows, rest);
        var id :| id in rest && NotLater(rows, id, rest);
        OneMoreDue(rows, ids, rest, id);
        ids := ids + [id];
        rest := rest - {id};
      }
      AllDue(View(), ids, due);
      failed := false;
    }

    // ----- the queue

    method AppendTo(t: Topic, e: Entry)
      modifies this`logs
      ensures View() == Append(old(View()), t, e)
    {
      logs := logs[t := (if t in logs then logs[t] else []) + [e]];
    }

    method Publish(m: Msg) returns (failed: bool)
      modifies this
      ensures calls == old(calls) + 1 && failed == !env.ok(old(calls))
      ensures View() == if failed then old(View()) else Protocol.Publish(old(View()), m)
      ensures failed || Recorded(old(View()), View(), m)
    {
      PublishRecords(View(), m);
      var ok := Ask();
      failed := !ok;
      if ok {
        var t := Work(m.n.channel, m.n.priority);
        var offset := |if t in logs then logs[t] else []|;
        AppendTo(t, Entry(Some(m), |past.copies|, now, None));
        past := past.(copies := past.copies + [CopyRecord(m, t, offset, Unread(t, offset, m.retryCount))]);
      }
    }

    /** For the record at hand, `h`, of topic `t`: a copy goes to the retry topic, to be read after the delay. */
    method PublishRetry(m: Msg, delay: int, t: Topic, h: Activity) returns (failed: bool)
      requires h.Busy? && h.msg == m
      modifies this
      ensures calls == old(calls) + 1 && failed == !env.ok(old(calls))
      ensures View() == if failed then old(View()) else PublishRetryAt(old(View()), t, h, WholeSeconds(old(now) + delay))
      ensures failed || !Failed(t, h.offset)
    {
      var ok := Ask();
      failed := !ok;
      if ok {
        var offset := |if Retry in logs then logs[Retry] else []|;
        AppendTo(Retry, Entry(Some(m), h.copy, now, Some(WholeSeconds(now + delay))));
        Note(t, h, Forwarded(offset), Unread(Retry, offset, m.retryCount));
      }
    }

    method PublishDLQ(m: Msg, t: Topic, h: Activity) returns (failed: bool)
      requires h.Busy? && h.msg == m
      modifies this
      ensures calls == old(calls) + 1 && failed == !env.ok(old(calls))
      ensures View() == if failed then old(View()) else PublishDeadLetter(old(View()), t, h)
      ensures failed || !Failed(t, h.offset)
    {
      var ok := Ask();
      failed := !ok;
      if ok {
        var offset := |if DeadLetter in logs then logs[DeadLetter] else []|;
        AppendTo(DeadLetter, Entry(Some(m), h.copy, now, None));
        Note(t, h, DeadLettered(offset), InDeadLetter(offset));
      }
    }

    // ----- the clock, the limiters and the notifier

    method SleepUntil(e: Entry, lag: nat)
      modifies this`now
      ensures View() == old(View()).(now := WakeUp(old(now), e, lag))
      ensures now == if e.retryAfter.Some? && old(now) < e.retryAfter.value then e.retryAfter.value + lag else old(now)
    {
      if e.retryAfter.Some? && now < e.retryAfter.value { now := e.retryAfter.value + lag; }
    }

    method Wait(limiter: Channel, t: Topic) returns (failed: bool)
      modifies this
      ensures calls == old(calls) + 1 && failed == !env.ok(old(calls))
      ensures View() == if failed then old(View()) else Record(old(View()), Admitted(t, limiter, old(now)))
    {
      var ok := Ask();
      failed := !ok;
      if ok { past := past.(trace := past.trace + [Admitted(t, limiter, now)]); }
    }

    method Send(m: Msg, channel: Channel, t: Topic, h: Activity) returns (failed: bool)
      requires h.Busy?
      modifies this
      ensures calls == old(calls) + 1 && failed == !env.ok(old(calls))
      ensures var sent := Record(old(View()), Sent(t, channel, h.offset, h.copy, m, !failed, old(now)));
        View() == if failed then sent else Settle(sent, t, h.offset, Accepted(|old(View()).trace|))
      ensures failed || !Failed(t, h.offset)
    {
      var ok := Ask();
      failed := !ok;
      if ok { past := Settle(past, t, h.offset, Accepted(|past.trace|)); }
      past := past.(trace := past.trace + [Sent(t, channel, h.offset, h.copy, m, ok, now)]);
    }

    // ----- history

    /** The handler returned, with this outcome for its record and this place for its copy. */
    method Note(t: Topic, h: Activity, o: Outcome, p: Place)
      requires h.Busy?
      modifies this`past
      ensures View() == Move(Settle(old(View()), t, h.offset, o), h.copy, p).(runs := old(View()).runs + 1)
      ensures Failed(t, h.offset) <==> o == HandlerError
    {
      past := Move(Settle(past, t, h.offset, o), h.copy, p).(runs := past.runs + 1);
    }

    /** The handler returned an error. */
    method NoteError(t: Topic, h: Activity)
      requires h.Busy?
      modifies this`past
      ensures View() == GiveUp(old(View()), t, h).0 && Failed(t, h.offset)
    {
      Note(t, h, HandlerError, Lost(t, h.offset));
    }

    /** The handler returned after a Send that succeeded. */
    method NoteArrival(h: Activity)
      requires h.Busy?
      modifies this`past
      ensures View() == Move(old(View()), h.copy, Arrived).(runs := old(View()).runs + 1)
      ensures past.outcomes == old(past.outcomes)
    {
      past := Move(past, h.copy, Arrived).(runs := past.runs + 1);
    }

    method NoteFetched(copy: nat, p: Place)
      modifies this`past
      ensures View() == Move(old(View()), copy, p)
    {
      past := Move(past, copy, p);
    }

    method NoteUnparsable(t: Topic, offset: nat)
      modifies this`past
      ensures View() == Settle(old(View()), t, offset, Unparsable)
    {
      past := Settle(past, t, offset, Unparsable);
    }

    /** A call left the notification to the scheduler. */
    method NoteDeferred(id: nat)
      modifies this`past
      ensures View() == Defer(old(View()), id)
    {
      past := past.(deferred := past.deferred + {id});
    }

    method NoteStarted(id: nat)
      modifies this`past
      ensures View() == old(View()).(started := old(View()).started + {id})
    {
      past := past.(started := past.started + {id});
    }
  }

  function Schedule(rows: map<nat, Row>, id: nat): int {
    if id in rows && rows[id].n.scheduledAt.Some? then rows[id].n.scheduledAt.value else 0
  }

  /** No row of a set has an earlier schedule. */
  predicate NotLater(rows: map<nat, Row>, id: nat, ids: set<nat>) { forall j :: j in ids ==> Schedule(rows, id) <= Schedule(rows, j) }

  lemma {:induction false} Earliest(rows: map<nat, Row>, ids: set<nat>) returns (id: nat)
    requires ids != {}
    ensures id in ids && NotLater(rows, id, ids)
    decreases ids
  {
    id :| id in ids;
    if ids != {id} {
      var rest := ids - {id};
      assert ids == {id} + rest;
      hide Schedule;
      var e := Earliest(rows, rest);
      if Schedule(rows, e) < Schedule(rows, id) { id := e; }
    }
  }

  /** A list of different rows by schedule, and the rest, which has none of them and is not earlier. */
  predicate BySchedule(rows: map<nat, Row>, ids: seq<nat>, rest: set<nat>) {
    && (forall i, j :: 0 <= i < j < |ids| ==> ids[i] != ids[j] && Schedule(rows, ids[i]) <= Schedule(rows, ids[j]))
    && forall i :: 0 <= i < |ids| ==> ids[i] !in rest && NotLater(rows, ids[i], rest)
  }

  lemma OneMoreDue(rows: map<nat, Row>, ids: seq<nat>, rest: set<nat>, id: nat)
    requires BySchedule(rows, ids, rest) && id in rest && NotLater(rows, id, rest)
    ensures BySchedule(rows, ids + [id], rest - {id})
  {
    hide Schedule;
  }

  lemma AllDue(st: Store, ids: seq<nat>, due: set<nat>)
    requires BySchedule(st.rows, ids, {}) && forall id :: id in due <==> id in st.rows && IsDue(st, id)
    requires forall id :: id in ids <==> id in due
    ensures IsDueList(st, ids)
    ensures forall id :: id in ids <==>
      id in st.rows && st.rows[id].status == Pending && st.rows[id].n.scheduledAt.Some? && st.rows[id].n.scheduledAt.value <= st.now
    ensures forall i, j :: 0 <= i < j < |ids| ==>
      ids[i] != ids[j] && ids[i] in st.rows && ids[j] in st.rows
      && st.rows[ids[i]].n.scheduledAt.Some? && st.rows[ids[j]].n.scheduledAt.Some?
      && st.rows[ids[i]].n.scheduledAt.value <= st.rows[ids[j]].n.scheduledAt.value
  {
    assert forall i :: 0 <= i < |ids| ==> ids[i] in ids && IsDue(st, ids[i]);
  }

  lemma InsertNext(st: Store, ns: seq<Notice>, i: nat)
    requires i < |ns|
    ensures InsertRows(st, ns[..i + 1]) == InsertRow(InsertRows(st, ns[..i]), ns[i])
    ensures BatchInsertable(st, ns[..i + 1]) <==> BatchInsertable(st, ns[..i]) && Insertable(InsertRows(st, ns[..i]), ns[i])
  {
    assert ns[..i + 1][..i] == ns[..i];
    hide Insertable, InsertRow;
  }

  lemma {:induction false} NotInsertableLater(st: Store, ns: seq<Notice>, j: nat, n: nat)
    requires j <= n <= |ns| && !BatchInsertable(st, ns[..j])
    ensures !BatchInsertable(st, ns[..n])
  {
    if j < n {
      NotInsertableLater(st, ns, j, n - 1);
      assert ns[..n][..n - 1] == ns[..n - 1];
    }
  }

  lemma {:induction false} InsertRowsOnlyRows(st: Store, ns: seq<Notice>)
    ensures InsertRows(st, ns) == st.(rows := InsertRows(st, ns).rows)
  {
    if ns != [] { InsertRowsOnlyRows(st, ns[..|ns| - 1]); }
  }

  /** `t` and `h` name the record at hand, for the history; `h.pc` says how far its handling has come. */
  class Worker {
    const cfg: Config
    const backend: Backend

    constructor (cfg: Config, backend: Backend)
      ensures this.cfg == cfg && this.backend == backend
    {
      this.cfg, this.backend := cfg, backend;
    }

    /** What is left of a handler's call, by the machine. */
    ghost function Rest(t: Topic, h: Activity): (Store, Activity, nat)
      requires h.Busy? && Fair(backend.env)
      reads backend
    {
      Handle(cfg, backend.env, backend.View(), t, h, backend.calls)
    }

    /** A failed write is logged, and the handler goes on. */
    method MarkAsProcessing(id: nat)
      modifies backend
      ensures backend.calls == old(backend.calls) + 1
      ensures var ok := backend.env.ok(old(backend.calls));
        backend.View() == MarkStarted(UpdateStatus(old(backend.View()), id, Processing, ok), id, ok)
    {
      var unmarked := backend.UpdateStatus(id, Processing);
      if !unmarked { backend.NoteStarted(id); }
    }

    method ProcessNotification(n: Msg, limiter: Channel, t: Topic, h: Activity) returns (failed: bool, end: Activity)
      requires h.Busy? && h.pc == Limiter && h.msg == n && limiter == LimiterChannel(t, n) && Fair(backend.env)
      modifies backend
      ensures old(Rest(t, h)) == (backend.View(), end, backend.calls) && end.Busy? && end.pc == CommitOffset
      ensures failed <==> backend.Failed(t, h.offset)
      ensures HandlerCame(cfg, backend.env, old(backend.calls), old(backend.View()), backend.View(), n, backend.calls)
    {
      hide HandlerCame, Handle, HandlerStep, UpdateStatus, MarkStarted, GiveUp, Record, Settle, Move;
      HandlerOutcome(cfg, backend.env, backend.View(), t, h, backend.calls);
      AfterLimiter(cfg, backend.env, backend.View(), t, h, backend.calls);
      var refused := backend.Wait(limiter, t);
      if refused {
        backend.NoteError(t, h);
        return true, h.(pc := CommitOffset);
      }
      AfterMark(cfg, backend.env, backend.View(), t, h.(pc := MarkProcessing), backend.calls);
      MarkAsProcessing(n.n.id);
      failed, end := Attempt(n, limiter, t, h.(pc := Deliver));
    }

    /** The second half of `ProcessNotification`: the Send, and what its result calls for. */
    method Attempt(n: Msg, limiter: Channel, t: Topic, h: Activity) returns (failed: bool, end: Activity)
      requires h.Busy? && h.pc == Deliver && h.msg == n && limiter == LimiterChannel(t, n) && Fair(backend.env)
      modifies backend
      ensures old(Rest(t, h)) == (backend.View(), end, backend.calls) && end.Busy? && end.pc == CommitOffset
      ensures failed <==> backend.Failed(t, h.offset)
    {
      hide Handle, HandlerStep, UpdateStatus, IncrementRetry, MarkStarted, GiveUp, Record, Settle, Move, PublishDeadLetter, PublishRetryAt;
      AfterSend(cfg, backend.env, backend.View(), t, h, backend.calls);
      var rejected := backend.Send(n, limiter, t, h);
      if rejected {
        failed, end := HandleFailure(n, t, h.(pc := CountFailure));
        return;
      }
      AfterDelivery(cfg, backend.env, backend.View(), t, h.(pc := MarkDelivered), backend.calls);
      var unmarked := backend.UpdateStatus(n.n.id, Delivered);
      backend.NoteArrival(h);
      failed, end := false, h.(pc := CommitOffset);
    }

    method HandleFailure(n0: Msg, t: Topic, h: Activity) returns (failed: bool, end: Activity)
      requires h.Busy? && h.pc == CountFailure && h.msg == n0 && Fair(backend.env)
      modifies backend
      ensures old(Rest(t, h)) == (backend.View(), end, backend.calls) && end.Busy? && end.pc == CommitOffset
      ensures failed <==> backend.Failed(t, h.offset)
      ensures FailureCame(cfg, backend.env, old(backend.calls), old(backend.View()), backend.View(), n0, backend.calls)
    {
      hide Handle, HandlerStep, IncrementRetry, FailureCame;
      FailureOutcome(cfg, backend.env, backend.View(), t, h, backend.calls);
      AfterCount(cfg, backend.env, backend.View(), t, h, backend.calls);
      backend.IncrementRetry(n0.n.id);
      var n := n0.(retryCount := n0.retryCount + 1);
      if n.retryCount >= cfg.maxRetries { failed, end := Abandon(n, t, h.(msg := n, pc := MarkFailed)); }
      else { failed, end := RetryLater(n, t, h.(msg := n, pc := ToRetry)); }
    }

    /** The branch of `handleFailure` that routes to the dead-letter topic. */
    method Abandon(n: Msg, t: Topic, h: Activity) returns (failed: bool, end: Activity)
      requires h.Busy? && h.pc == MarkFailed && h.msg == n && Fair(backend.env)
      modifies backend
      ensures old(Rest(t, h)) == (backend.View(), end, backend.calls) && end.Busy? && end.pc == CommitOffset
      ensures failed <==> backend.Failed(t, h.offset)
    {
      hide Handle, UpdateStatus, GiveUp, PublishDeadLetter;
      AfterMarkFailed(cfg, backend.env, backend.View(), t, h, backend.calls);
      var unmarked := backend.UpdateStatus(n.n.id, Failed);
      var g := h.(pc := ToDeadLetter);
      AfterDeadLetter(cfg, backend.env, backend.View(), t, g, backend.calls);
      failed := backend.PublishDLQ(n, t, g);
      if failed { backend.NoteError(t, g); }
      end := g.(pc := CommitOffset);
    }

    /** The branch that schedules a retry. */
    method RetryLater(n: Msg, t: Topic, h: Activity) returns (failed: bool, end: Activity)
      requires h.Busy? && h.pc == ToRetry && h.msg == n && n.retryCount > 0 && Fair(backend.env)
      modifies backend
      ensures old(Rest(t, h)) == (backend.View(), end, backend.calls) && end.Busy? && end.pc == CommitOffset
      ensures failed <==> backend.Failed(t, h.offset)
    {
      hide Handle, GiveUp, PublishRetryAt;
      AfterRetry(cfg, backend.env, backend.View(), t, h, backend.calls);
      var delay := RetryDelay(cfg.baseDelay, n.retryCount, backend.env.jitter(backend.calls));
      failed := backend.PublishRetry(n, delay, t, h);
      if failed { backend.NoteError(t, h); }
      end := h.(pc := CommitOffset);
    }

    /** The retry consumer's handler: it finds a limiter by channel and waits on it, and the handler waits once more. */
    method ProcessRetry(n: Msg, t: Topic, h: Activity) returns (failed: bool, panicked: bool, end: Activity)
      requires t == Retry && h.Busy? && h.pc == RetryLimiter && h.msg == n && Fair(backend.env)
      modifies backend
      ensures old(Rest(t, h)) == (backend.View(), end, backend.calls)
      ensures end.Busy? && end.pc == if panicked then NilLimiter else CommitOffset
      ensures panicked || (failed <==> backend.Failed(t, h.offset))
      ensures panicked <==> !KnownChannel(n.n.channel)
      ensures var k := old(backend.calls);
        if panicked || !backend.env.ok(k) then backend.rows == old(backend.rows) && backend.logs == old(backend.logs)
        else HandlerCame(cfg, backend.env, k + 1, old(backend.View()), backend.View(), n, backend.calls)
    {
      hide HandlerCame;
      hide Handle, HandlerStep, GiveUp;
      AfterRetryLimiter(cfg, backend.env, backend.View(), t, h, backend.calls);
      panicked := false;
      if n.n.channel !in {SMS, Email, Push} { return false, true, h.(pc := NilLimiter); }
      var limiter := n.n.channel;
      var refused := backend.Wait(limiter, t);
      if refused {
        backend.NoteError(t, h);
        return true, false, h.(pc := CommitOffset);
      }
      ghost var admitted := backend.View();
      failed, end := ProcessNotification(n, limiter, t, h.(pc := Limiter));
      SameHandler(cfg, backend.env, old(backend.calls) + 1, admitted, old(backend.View()), backend.View(), n, backend.calls);
    }
  }

  /** A reader of one topic. `act` is where the machine sees the consumer: idle, unless a panic ended its loop. */
  class TopicConsumer {
    const topic: Topic
    const worker: Worker
    var pos: nat
    var committed: nat
    var act: Activity

    constructor (topic: Topic, worker: Worker)
      ensures this.topic == topic && this.worker == worker && View() == Protocol.Consumer(0, 0, Idle)
    {
      this.topic, this.worker := topic, worker;
      pos, committed, act := 0, 0, Idle;
    }

    ghost function View(): Consumer
      reads this
    {
      Protocol.Consumer(pos, committed, act)
    }

    method Commit(offset: nat)
      modifies this, worker.backend
      ensures pos == old(pos) && act == Idle && worker.backend.View() == old(worker.backend.View())
      ensures worker.backend.calls == old(worker.backend.calls) + 1
      ensures committed == if worker.backend.env.ok(old(worker.backend.calls)) then offset + 1 else old(committed)
    {
      var ok := worker.backend.Ask();
      if ok { committed := offset + 1; }
      act := Idle;
    }
  
    /** One turn of the loop, for the record at `pos`. */
    method OneTurn(lag: nat)
      requires act == Idle && pos < |Log(worker.backend.View(), topic)| && Fair(worker.backend.env)
      modifies this, worker.backend
      ensures (worker.backend.View(), View(), worker.backend.calls)
        == Turn(worker.cfg, worker.backend.env, lag, old(worker.backend.View()), topic, old(View()), old(worker.backend.calls))
      ensures act.Idle? || (act.Busy? && act.pc == NilLimiter)
      ensures var e := Log(old(worker.backend.View()), topic)[old(pos)];
        worker.backend.now == if topic == Retry && e.retryAfter.Some? && old(worker.backend.now) < e.retryAfter.value
                              then e.retryAfter.value + lag else old(worker.backend.now)
      ensures TurnCame(worker.cfg, worker.backend.env, lag, old(worker.backend.calls), old(worker.backend.View()), worker.backend.View(),
                       topic, old(View()), View(), worker.backend.calls)
    {
      var backend := worker.backend;
      TurnByFields(worker.cfg, backend.env, lag, backend.View(), topic, View(), backend.calls);
      TurnClock(worker.cfg, backend.env, lag, backend.View(), topic, View(), backend.calls);
      TurnOutcome(worker.cfg, backend.env, lag, backend.View(), topic, View(), backend.calls);
      hide TurnCame;
      hide Handle, HandlerStep, Settle, Move, Turn;
      var e := backend.logs[topic][pos];
      if topic == Retry { backend.SleepUntil(e, lag); }
      assert backend.View() == AwaitIfRetry(old(backend.View()), topic, e, lag);
      hide AwaitIfRetry, WakeUp;
      var offset := pos;
      pos := pos + 1;
      if e.msg.None? {
        backend.NoteUnparsable(topic, offset);
        Commit(offset);
      } else {
        backend.NoteFetched(e.copy, Held(topic, e.msg.value.retryCount));
        HandleRecord(Busy(if topic == Retry then RetryLimiter else Limiter, offset, e.msg.value, e.copy));
      }
    }

    /** The handler's call for a record, and the commit, which a panic prevents. */
    method HandleRecord(h: Activity)
      requires h.Busy? && h.pc == (if topic == Retry then RetryLimiter else Limiter) && Fair(worker.backend.env)
      modifies this, worker.backend
      ensures var (b, end, k) := old(worker.Rest(topic, h));
        var backend := worker.backend;
        && backend.View() == b && backend.calls == (if end.pc == NilLimiter then k else k + 1)
        && View() == if end.pc == NilLimiter then Protocol.Consumer(old(pos), old(committed), end)
                     else Protocol.Consumer(old(pos), if backend.env.ok(k) then h.offset + 1 else old(committed), Idle)
      ensures act.Idle? || (act.Busy? && act.pc == NilLimiter)
    {
      hide Handle, HandlerStep;
      var failed, panicked := false, false;
      if topic == Retry { failed, panicked, act := worker.ProcessRetry(h.msg, topic, h); }
      else { failed, act := worker.ProcessNotification(h.msg, LimiterChannel(topic, h.msg), topic, h); }
      if !panicked { Commit(h.offset); }
    }

    /** `Consume`, and on the retry topic `ConsumeWithDelay`: turn after turn while there are records to fetch. */
    method Consume(turns: nat, lag: nat)
      requires act == Idle && Fair(worker.backend.env)
      modifies this, worker.backend
      ensures (worker.backend.View(), View(), worker.backend.calls)
        == Turns(worker.cfg, worker.backend.env, lag, old(worker.backend.View()), topic, old(View()), old(worker.backend.calls), turns)
    {
      hide Turn;
      var backend := worker.backend;
      var i := 0;
      while i < turns
        invariant 0 <= i <= turns
        invariant (backend.View(), View(), backend.calls)
          == Turns(worker.cfg, backend.env, lag, old(backend.View()), topic, old(View()), old(backend.calls), i)
      {
        if act.Idle? && topic in backend.logs && pos < |backend.logs[topic]| { OneTurn(lag); }
        i := i + 1;
      }
    }
  }
}
