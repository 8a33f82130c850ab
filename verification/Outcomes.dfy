/**
 What whole operations come to, said of rows, records and the environment's answers alone: what is stored, published,
 refused and written, and what stays as it was.
 */
module Outcomes {
  import opened Domain
  import opened Backoff
  import opened Protocol
  import opened Drive
  import Pipeline

  // ----- requests

  predicate ChannelNamed(s: string, c: Channel) { (s == "sms" && c == SMS) || (s == "email" && c == Email) || (s == "push" && c == Push) }

  predicate PriorityNamed(s: string, p: Priority) {
    (s == "high" && p == High) || ((s == "normal" || s == "") && p == Normal) || (s == "low" && p == Low)
  }

  /** The notice has the request's fields, and this content, schedule and batch. */
  predicate Carries(n: Notice, req: Request, content: string, scheduledAt: Option<int>, batchId: Option<nat>) {
    && n.recipient == req.recipient && n.key == req.key && n.content == content && n.scheduledAt == scheduledAt && n.batchId == batchId
    && ChannelNamed(req.channel, n.channel) && PriorityNamed(req.priority, n.priority)
  }

  /** What is wrong with a request, in the order in which it is looked for. */
  predicate WrongWith(req: Request, e: Error) {
    if req.channel != "sms" && req.channel != "email" && req.channel != "push" then e == InvalidChannel
    else if req.priority != "" && req.priority != "high" && req.priority != "normal" && req.priority != "low" then e == InvalidPriority
    else if req.recipient == "" then e == EmptyRecipient
    else if req.content == "" then e == EmptyContent
    else |req.content| > (if req.channel == "sms" then 160 else if req.channel == "email" then 100_000 else 4096) && e == ContentTooLong
  }

  ghost predicate NothingWrong(req: Request) { forall e :: !WrongWith(req, e) }

  /** A request is accepted exactly when nothing is wrong with it, and refused with the first thing that is. */
  lemma AcceptedExactly(req: Request)
    ensures Accept(req).Err? ==> WrongWith(req, Accept(req).error)
    ensures Accept(req).Ok? <==> NothingWrong(req)
    ensures Accept(req).Ok? ==> ChannelNamed(req.channel, Accept(req).value.0) && PriorityNamed(req.priority, Accept(req).value.1)
  {
    if Accept(req).Err? { assert WrongWith(req, Accept(req).error); }
  }

  /** A stored notice carries its request: `Create` its schedule and the resolved content, a batch neither. */
  lemma NoticeCarries(req: Request, id: nat, batchId: Option<nat>, content: string)
    requires Accept(req).Ok?
    ensures var n := NoticeOf(req, id, batchId, content);
      n.id == id && Carries(n, req, content, if batchId.Some? then None else req.scheduledAt, batchId)
  {
    AcceptedExactly(req);
  }

  // ----- inserts

  /** Neither unique index is in the way of a row: its id is new, and its key, if it has one, is not in use. */
  predicate Free(rows: map<nat, Row>, id: nat, key: string) {
    id !in rows && (key != "" ==> forall j :: j in rows ==> rows[j].n.key != key)
  }

  predicate AllFree(rows: map<nat, Row>, ns: seq<Notice>) {
    && (forall i :: 0 <= i < |ns| ==> Free(rows, ns[i].id, ns[i].key))
    && forall i, j :: 0 <= i < j < |ns| ==> ns[i].id != ns[j].id && (ns[i].key != "" ==> ns[i].key != ns[j].key)
  }

  /** The rows of before, and one pending row for each notice. */
  ghost predicate RowsAdded(a: map<nat, Row>, b: map<nat, Row>, ns: seq<Notice>) {
    && (forall id :: id in b <==> id in a || exists i :: 0 <= i < |ns| && ns[i].id == id)
    && (forall id :: id in a ==> id in b && b[id] == a[id])
    && forall i :: 0 <= i < |ns| ==> ns[i].id in b && b[ns[i].id] == Row(ns[i], Pending, 0)
  }

  lemma InsertableIsFree(st: Store, n: Notice)
    ensures Insertable(st, n) <==> Free(st.rows, n.id, n.key)
  {}

  /** The batch insert succeeds exactly when all ids and all keys that are not empty are new and different. */
  lemma {:induction false} BatchInsertableIsFree(st: Store, ns: seq<Notice>)
    ensures BatchInsertable(st, ns) <==> AllFree(st.rows, ns)
    ensures AllFree(st.rows, ns) ==> RowsAdded(st.rows, InsertRows(st, ns).rows, ns)
  {
    if ns != [] {
      var front, last := ns[..|ns| - 1], ns[|ns| - 1];
      BatchInsertableIsFree(st, front);
      InsertableIsFree(InsertRows(st, front), last);
      hide InsertRows, BatchInsertable, Insertable;
      FreeOneMore(st.rows, InsertRows(st, front).rows, front, last);
      assert front + [last] == ns;
      InsertRowsLast(st, ns);
    }
  }

  lemma InsertRowsLast(st: Store, ns: seq<Notice>)
    requires ns != []
    ensures var front, last := ns[..|ns| - 1], ns[|ns| - 1];
      && InsertRows(st, ns).rows == InsertRows(st, front).rows[last.id := Row(last, Pending, 0)]
      && (BatchInsertable(st, ns) <==> BatchInsertable(st, front) && Insertable(InsertRows(st, front), last))
  {}

  lemma FreeOneMore(a: map<nat, Row>, mid: map<nat, Row>, front: seq<Notice>, last: Notice)
    requires AllFree(a, front) ==> RowsAdded(a, mid, front)
    ensures AllFree(a, front + [last]) <==> AllFree(a, front) && Free(mid, last.id, last.key)
    ensures AllFree(a, front + [last]) ==> RowsAdded(a, mid[last.id := Row(last, Pending, 0)], front + [last])
  {
    var ns := front + [last];
    if AllFree(a, front) { FreeAmongAdded(a, mid, front, last); }
    assert forall i :: 0 <= i < |front| ==> ns[i] == front[i];
    assert ns[|front|] == last;
    hide Free;
  }

  /** The last row meets no index exactly when the rows of before and those just added do not hold its id or its key. */
  lemma FreeAmongAdded(a: map<nat, Row>, mid: map<nat, Row>, front: seq<Notice>, last: Notice)
    requires RowsAdded(a, mid, front)
    ensures Free(mid, last.id, last.key) <==>
      Free(a, last.id, last.key) && forall i :: 0 <= i < |front| ==> front[i].id != last.id && (front[i].key != "" ==> front[i].key != last.key)
  {
    if Free(mid, last.id, last.key) {
      forall i | 0 <= i < |front|
        ensures front[i].id != last.id && (front[i].key != "" ==> front[i].key != last.key)
      {
        assert mid[front[i].id] == Row(front[i], Pending, 0);
      }
    }
  }

  // ----- one notification created

  predicate Later(n: Notice, now: int) { n.scheduledAt.Some? && n.scheduledAt.value > now }

  function Stored(rows: map<nat, Row>, n: Notice, status: Status): map<nat, Row> { rows[n.id := Row(n, status, 0)] }

  /** One record more, on the topic of the message's channel and priority; all other topics are as they were. */
  ghost predicate Recorded(a: Store, b: Store, m: Msg) {
    var t := Work(m.n.channel, m.n.priority);
    && |Log(b, t)| == |Log(a, t)| + 1 && Log(a, t) <= Log(b, t)
    && Log(b, t)[|Log(a, t)|].msg == Some(m) && Log(b, t)[|Log(a, t)|].publishedAt == a.now && Log(b, t)[|Log(a, t)|].retryAfter.None?
    && forall u :: u != t ==> Log(b, u) == Log(a, u)
  }

  lemma PublishRecords(st: Store, m: Msg)
    ensures Recorded(st, Publish(st, m), m) && Publish(st, m).rows == st.rows
  {}

  /**
   What a Create call answers, stores and publishes: the calls are, in this order, the insert, the mark, the publish and the
   write that takes the mark back.
   */
  ghost predicate CreateCame(env: Env, k: nat, a: Store, b: Store, n: Notice, error: Option<Error>) {
    var free, later := Free(a.rows, n.id, n.key), Later(n, a.now);
    && error == (if !env.ok(k) then Some(StoreFailure) else if !free then Some(DuplicateKey) else if later then None
                 else if !env.ok(k + 1) then Some(StoreFailure) else if !env.ok(k + 2) then Some(QueueFailure) else None)
    && b.rows == (if !env.ok(k) || !free then a.rows
                  else if later || !env.ok(k + 1) || (!env.ok(k + 2) && env.ok(k + 3)) then Stored(a.rows, n, Pending)
                  else Stored(a.rows, n, Queued))
    && if error.None? && !later then Recorded(a, b, Msg(n, 0)) else b.logs == a.logs
  }

  lemma CreateOutcome(env: Env, st: Store, n: Notice, k: nat)
    ensures var (b, end, _) := Serve(env, st, Create(Insert, n), k);
      end.Finished? && CreateCame(env, k, st, b, n, end.error)
  {
    var st1 := InsertRow(st, n);
    InsertableIsFree(st, n);
    ServeNext(env, st, Create(Insert, n), k);
    ServeNext(env, st1, Create(CheckSchedule, n), k + 1);
    if env.ok(k) && Free(st.rows, n.id, n.key) && !Later(n, st.now) { MarkedOutcome(env, st, n, k); }
    hide Serve, Insertable, Recorded, Free;
  }

  /** From the mark on. */
  lemma MarkedOutcome(env: Env, st: Store, n: Notice, k: nat)
    requires env.ok(k) && Free(st.rows, n.id, n.key) && !Later(n, st.now)
    ensures var (b, end, _) := Serve(env, InsertRow(st, n), Create(MarkQueued, n), k + 1);
      end.Finished? && CreateCame(env, k, st, b, n, end.error)
  {
    var st1 := InsertRow(st, n);
    ServeNext(env, st1, Create(MarkQueued, n), k + 1);
    if env.ok(k + 1) { QueuedOutcome(env, st, n, k, UpdateStatus(st1, n.id, Queued, true)); }
    hide Serve, Free, Recorded;
  }

  /** From the publish on. */
  lemma QueuedOutcome(env: Env, st: Store, n: Notice, k: nat, queued: Store)
    requires env.ok(k) && env.ok(k + 1) && Free(st.rows, n.id, n.key) && !Later(n, st.now)
    requires queued.rows == Stored(st.rows, n, Queued) && queued.logs == st.logs && queued.now == st.now
    ensures var (b, end, _) := Serve(env, queued, Create(Enqueue, n), k + 2);
      end.Finished? && CreateCame(env, k, st, b, n, end.error)
  {
    ServeNext(env, queued, Create(Enqueue, n), k + 2);
    if env.ok(k + 2) {
      PublishRecords(queued, Msg(n, 0));
      SameRecorded(st, queued, Publish(queued, Msg(n, 0)), Msg(n, 0));
      hide Recorded;
    } else {
      ServeNext(env, queued, Create(RollBack, n), k + 3);
      assert UpdateStatus(queued, n.id, Pending, true).rows == Stored(st.rows, n, Pending);
    }
    hide Serve, Free, Publish;
  }

  /** A call that succeeds has added one row, which is pending until its time, or queued with its record published. */
  lemma CreatedRow(env: Env, k: nat, a: Store, b: Store, n: Notice)
    requires CreateCame(env, k, a, b, n, None)
    ensures n.id !in a.rows && n.id in b.rows && b.rows == a.rows[n.id := b.rows[n.id]] && b.rows[n.id].n == n && b.rows[n.id].retryCount == 0
    ensures if n.scheduledAt.Some? && n.scheduledAt.value > a.now then b.rows[n.id].status == Pending && b.logs == a.logs
            else b.rows[n.id].status == Queued && Recorded(a, b, Msg(n, 0))
  {
    hide Recorded;
  }

  lemma SameRecorded(a: Store, a': Store, b: Store, m: Msg)
    requires Recorded(a', b, m) && a.logs == a'.logs && a.now == a'.now
    ensures Recorded(a, b, m)
  {
    assert forall t :: Log(a, t) == Log(a', t);
  }

  // ----- one notification cancelled

  predicate Cancellable(rows: map<nat, Row>, id: nat) { id in rows && (rows[id].status == Pending || rows[id].status == Queued) }

  /** What a Cancel call answers and writes: the calls are the read and the guarded update. */
  ghost predicate CancelCame(env: Env, k: nat, a: Store, b: Store, id: nat, error: Option<Error>) {
    && error == (if !env.ok(k) then Some(StoreFailure) else if id !in a.rows then Some(NotFound)
                 else if !Cancellable(a.rows, id) then Some(NotCancellable) else if !env.ok(k + 1) then Some(StoreFailure) else None)
    && b == if error.None? then a.(rows := a.rows[id := a.rows[id].(status := Cancelled)]) else a
  }

  lemma CancelOutcome(env: Env, st: Store, id: nat, k: nat)
    ensures var (b, end, _) := Serve(env, st, Cancel(id, false), k); end.Finished? && CancelCame(env, k, st, b, id, end.error)
  {
    ServeNext(env, st, Cancel(id, false), k);
    ServeNext(env, st, Cancel(id, true), k + 1);
    hide Serve;
  }

  // ----- publishing and marking one notification after another

  /** The number of the call that publishes message i: each one before took one call, and another for its mark if it succeeded. */
  function PublishCall(env: Env, k: nat, i: nat): nat
    decreases i
  {
    if i == 0 then k else PublishCall(env, k + if env.ok(k) then 2 else 1, i - 1)
  }

  ghost predicate NewRecord(a: Store, b: Store, t: Topic, o: int) { |Log(a, t)| <= o < |Log(b, t)| }

  predicate IsOf(e: Entry, id: nat) { e.msg.Some? && e.msg.value.n.id == id }

  ghost predicate NoRecordOf(a: Store, b: Store, id: nat) { forall t, o :: NewRecord(a, b, t, o) ==> !IsOf(Log(b, t)[o], id) }

  /** Exactly one new record is of the notification; it is the message, on its work topic. */
  ghost predicate OneRecordOf(a: Store, b: Store, m: Msg) {
    exists o :: NewRecord(a, b, Work(m.n.channel, m.n.priority), o) && Log(b, Work(m.n.channel, m.n.priority))[o].msg == Some(m)
      && forall u, p :: NewRecord(a, b, u, p) && IsOf(Log(b, u)[p], m.n.id) ==> u == Work(m.n.channel, m.n.priority) && p == o
  }

  /** What came of one message, whose publish is call c: one record and a mark, or nothing. */
  ghost predicate Tried(env: Env, c: nat, m: Msg, a: Store, b: Store) {
    && m.n.id in a.rows && m.n.id in b.rows
    && if env.ok(c)
       then OneRecordOf(a, b, m) && b.rows[m.n.id] == (if env.ok(c + 1) then a.rows[m.n.id].(status := Queued) else a.rows[m.n.id])
       else NoRecordOf(a, b, m.n.id) && b.rows[m.n.id] == a.rows[m.n.id]
  }

  predicate DifferentRows(rows: map<nat, Row>, ms: seq<Msg>) {
    && (forall i :: 0 <= i < |ms| ==> ms[i].n.id in rows)
    && forall i, j :: 0 <= i < j < |ms| ==> ms[i].n.id != ms[j].n.id
  }

  ghost predicate LogsGrow(a: Store, b: Store) { forall t :: Log(a, t) <= Log(b, t) }

  predicate Among(ms: seq<Msg>, i: nat, id: nat) { exists j :: i <= j < |ms| && ms[j].n.id == id }

  /** Every message from i on was tried, and nothing else happened to rows and topics. */
  ghost predicate AllTried(env: Env, k: nat, ms: seq<Msg>, i: nat, a: Store, b: Store) {
    && LogsGrow(a, b) && b.rows.Keys == a.rows.Keys
    && (forall j :: i <= j < |ms| ==> Tried(env, PublishCall(env, k, j - i), ms[j], a, b))
    && (forall id :: id in a.rows && !Among(ms, i, id) ==> b.rows[id] == a.rows[id] && NoRecordOf(a, b, id))
    && (forall t, o :: NewRecord(a, b, t, o) ==> Log(b, t)[o].msg.Some?)
  }

  /** The first message is tried, and then the others. */
  lemma TriedFirst(env: Env, k: nat, ms: seq<Msg>, i: nat, a: Store, mid: Store, b: Store)
    requires i < |ms| && DifferentRows(a.rows, ms) && mid.rows.Keys == a.rows.Keys
    requires LogsGrow(a, mid) && Tried(env, k, ms[i], a, mid)
    requires forall id :: id in a.rows && id != ms[i].n.id ==> mid.rows[id] == a.rows[id] && NoRecordOf(a, mid, id)
    requires forall t, o :: NewRecord(a, mid, t, o) ==> Log(mid, t)[o].msg.Some?
    requires AllTried(env, k + if env.ok(k) then 2 else 1, ms, i + 1, mid, b)
    ensures AllTried(env, k, ms, i, a, b)
  {
    GrowOn(a, mid, b);
    var k' := k + if env.ok(k) then 2 else 1;
    assert !Among(ms, i + 1, ms[i].n.id);
    forall j | i <= j < |ms|
      ensures Tried(env, PublishCall(env, k, j - i), ms[j], a, b)
    {
      hide NoRecordOf, OneRecordOf, LogsGrow;
      if j == i {
        TriedThenOthers(env, k, ms[i], a, mid, b);
      } else {
        assert PublishCall(env, k, j - i) == PublishCall(env, k', j - (i + 1));
        OthersThenTried(env, PublishCall(env, k', j - (i + 1)), ms[j], a, mid, b);
      }
    }
    forall id | id in a.rows && !Among(ms, i, id)
      ensures b.rows[id] == a.rows[id] && NoRecordOf(a, b, id)
    {
      hide LogsGrow;
      assert Among(ms, i + 1, id) ==> Among(ms, i, id);
      assert id != ms[i].n.id;
      NoneThenNone(a, mid, b, id);
    }
    hide NoRecordOf, Tried;
  }

  /** A new record was new in the first stretch or in the second. */
  lemma GrowOn(a: Store, mid: Store, b: Store)
    requires LogsGrow(a, mid) && LogsGrow(mid, b)
    ensures LogsGrow(a, b)
    ensures forall t, o :: NewRecord(a, b, t, o) <==>
      (NewRecord(a, mid, t, o) && Log(b, t)[o] == Log(mid, t)[o]) || NewRecord(mid, b, t, o)
    ensures forall t, o :: NewRecord(a, mid, t, o) ==> NewRecord(a, b, t, o) && !NewRecord(mid, b, t, o) && Log(b, t)[o] == Log(mid, t)[o]
  {
    forall t
      ensures Log(a, t) <= Log(mid, t) <= Log(b, t)
    {}
  }

  lemma NoneThenNone(a: Store, mid: Store, b: Store, id: nat)
    requires LogsGrow(a, mid) && LogsGrow(mid, b) && NoRecordOf(a, mid, id) && NoRecordOf(mid, b, id)
    ensures NoRecordOf(a, b, id)
  {
    GrowOn(a, mid, b);
    hide LogsGrow;
  }

  lemma TriedThenOthers(env: Env, c: nat, m: Msg, a: Store, mid: Store, b: Store)
    requires LogsGrow(a, mid) && LogsGrow(mid, b) && Tried(env, c, m, a, mid) && m.n.id in b.rows
    requires b.rows[m.n.id] == mid.rows[m.n.id] && NoRecordOf(mid, b, m.n.id)
    ensures Tried(env, c, m, a, b)
  {
    GrowOn(a, mid, b);
    hide LogsGrow;
    if env.ok(c) { OneThenNone(a, mid, b, m); } else { NoneThenNone(a, mid, b, m.n.id); }
    hide NoRecordOf, OneRecordOf;
  }

  lemma OneThenNone(a: Store, mid: Store, b: Store, m: Msg)
    requires LogsGrow(a, mid) && LogsGrow(mid, b) && OneRecordOf(a, mid, m) && NoRecordOf(mid, b, m.n.id)
    ensures OneRecordOf(a, b, m)
  {
    GrowOn(a, mid, b);
    hide LogsGrow;
    var t := Work(m.n.channel, m.n.priority);
    var o :| NewRecord(a, mid, t, o) && Log(mid, t)[o].msg == Some(m)
      && forall u, p :: NewRecord(a, mid, u, p) && IsOf(Log(mid, u)[p], m.n.id) ==> u == t && p == o;
    assert NewRecord(a, b, t, o);
  }

  lemma NoneThenOne(a: Store, mid: Store, b: Store, m: Msg)
    requires LogsGrow(a, mid) && LogsGrow(mid, b) && NoRecordOf(a, mid, m.n.id) && OneRecordOf(mid, b, m)
    ensures OneRecordOf(a, b, m)
  {
    GrowOn(a, mid, b);
    hide LogsGrow;
    var t := Work(m.n.channel, m.n.priority);
    var o :| NewRecord(mid, b, t, o) && Log(b, t)[o].msg == Some(m)
      && forall u, p :: NewRecord(mid, b, u, p) && IsOf(Log(b, u)[p], m.n.id) ==> u == t && p == o;
    assert NewRecord(a, b, t, o);
  }

  lemma OthersThenTried(env: Env, c: nat, m: Msg, a: Store, mid: Store, b: Store)
    requires LogsGrow(a, mid) && LogsGrow(mid, b) && Tried(env, c, m, mid, b) && m.n.id in a.rows
    requires mid.rows[m.n.id] == a.rows[m.n.id] && NoRecordOf(a, mid, m.n.id)
    ensures Tried(env, c, m, a, b)
  {
    hide LogsGrow;
    if env.ok(c) { NoneThenOne(a, mid, b, m); } else { NoneThenNone(a, mid, b, m.n.id); }
    hide NoRecordOf, OneRecordOf;
  }

  /** A publish, and the mark after it. */
  function AfterTry(env: Env, c: nat, st: Store, m: Msg): Store {
    if env.ok(c) then UpdateStatus(Publish(st, m), m.n.id, Queued, env.ok(c + 1)) else st
  }

  lemma TryComes(env: Env, c: nat, st: Store, m: Msg)
    requires m.n.id in st.rows
    ensures var b := AfterTry(env, c, st, m);
      && LogsGrow(st, b) && Tried(env, c, m, st, b) && b.rows.Keys == st.rows.Keys
      && (forall id :: id in st.rows && id != m.n.id ==> b.rows[id] == st.rows[id] && NoRecordOf(st, b, id))
      && (forall t, o :: NewRecord(st, b, t, o) ==> Log(b, t)[o].msg.Some?)
  {
    var b := AfterTry(env, c, st, m);
    if env.ok(c) {
      PublishRecords(st, m);
      assert b.logs == Publish(st, m).logs;
      OneIsRecorded(st, Publish(st, m), b, m);
      hide Publish, LogsGrow, NoRecordOf, OneRecordOf, NewRecord, Recorded;
    }
  }

  lemma OneIsRecorded(a: Store, published: Store, b: Store, m: Msg)
    requires Recorded(a, published, m) && b.logs == published.logs
    ensures LogsGrow(a, b) && OneRecordOf(a, b, m) && forall id :: id != m.n.id ==> NoRecordOf(a, b, id)
    ensures forall t, o :: NewRecord(a, b, t, o) ==> Log(b, t)[o].msg.Some?
  {
    var t := Work(m.n.channel, m.n.priority);
    assert forall u :: Log(b, u) == Log(published, u);
    assert NewRecord(a, b, t, |Log(a, t)|);
    assert forall u, p :: NewRecord(a, b, u, p) ==> u == t && p == |Log(a, t)|;
  }

  lemma NothingTried(env: Env, k: nat, ms: seq<Msg>, a: Store)
    ensures AllTried(env, k, ms, |ms|, a, a)
  {}

  // ----- a batch

  function Messages(ns: seq<Notice>): (ms: seq<Msg>)
    ensures |ms| == |ns| && forall i :: 0 <= i < |ns| ==> ms[i] == Msg(ns[i], 0)
  {
    seq(|ns|, i requires 0 <= i < |ns| => Msg(ns[i], 0))
  }

  /** One turn of the batch call's loop. */
  lemma BatchTurn(env: Env, st: Store, ns: seq<Notice>, i: nat, k: nat)
    requires i < |ns|
    ensures Serve(env, st, Batch(EnqueueNext, ns, i), k)
      == Serve(env, AfterTry(env, k, st, Msg(ns[i], 0)), NextInBatch(ns, i + 1), k + if env.ok(k) then 2 else 1)
  {
    ServeNext(env, st, Batch(EnqueueNext, ns, i), k);
    if env.ok(k) { ServeNext(env, Publish(st, Msg(ns[i], 0)), Batch(MarkNext, ns, i), k + 1); }
    FinishedServe(env, AfterTry(env, k, st, Msg(ns[i], 0)), NextInBatch(ns, i + 1), k + if env.ok(k) then 2 else 1);
    hide Serve, Publish, UpdateStatus;
  }

  lemma FinishedServe(env: Env, st: Store, c: Call, k: nat)
    ensures c.Finished? ==> Serve(env, st, c, k) == (st, c, k)
  {}

  lemma {:induction false} EnqueueOutcome(env: Env, st: Store, ns: seq<Notice>, i: nat, k: nat)
    requires i <= |ns| && DifferentRows(st.rows, Messages(ns))
    ensures var (b, end, k') := Serve(env, st, NextInBatch(ns, i), k);
      end == Finished(None) && k' == PublishCall(env, k, |ns| - i) && AllTried(env, k, Messages(ns), i, st, b)
    decreases |ns| - i
  {
    hide Serve, AllTried, DifferentRows, AfterTry, PublishCall;
    if i == |ns| {
      NothingEnqueued(env, st, ns, k);
    } else {
      var ms := Messages(ns);
      var mid := AfterTry(env, k, st, ms[i]);
      BatchTurn(env, st, ns, i, k);
      StillDifferent(env, k, st, ms, i);
      NextCall(env, k, |ns| - i);
      EnqueueOutcome(env, mid, ns, i + 1, k + if env.ok(k) then 2 else 1);
      TriedNext(env, k, st, ms, i, Serve(env, mid, NextInBatch(ns, i + 1), k + if env.ok(k) then 2 else 1).0);
    }
  }

  lemma NothingEnqueued(env: Env, st: Store, ns: seq<Notice>, k: nat)
    ensures Serve(env, st, NextInBatch(ns, |ns|), k) == (st, Finished(None), k) && PublishCall(env, k, 0) == k
    ensures AllTried(env, k, Messages(ns), |ns|, st, st)
  {
    FinishedServe(env, st, NextInBatch(ns, |ns|), k);
    NothingTried(env, k, Messages(ns), st);
    hide AllTried, Serve;
  }

  lemma StillDifferent(env: Env, k: nat, st: Store, ms: seq<Msg>, i: nat)
    requires i < |ms| && DifferentRows(st.rows, ms)
    ensures DifferentRows(AfterTry(env, k, st, ms[i]).rows, ms)
  {
    TryComes(env, k, st, ms[i]);
    SameRowsDiffer(st.rows, AfterTry(env, k, st, ms[i]).rows, ms);
  }

  lemma TriedNext(env: Env, k: nat, st: Store, ms: seq<Msg>, i: nat, b: Store)
    requires i < |ms| && DifferentRows(st.rows, ms)
    requires AllTried(env, k + if env.ok(k) then 2 else 1, ms, i + 1, AfterTry(env, k, st, ms[i]), b)
    ensures AllTried(env, k, ms, i, st, b)
  {
    TryComes(env, k, st, ms[i]);
    hide AllTried, AfterTry, Tried, NoRecordOf, NewRecord, LogsGrow;
    TriedFirst(env, k, ms, i, st, AfterTry(env, k, st, ms[i]), b);
  }

  lemma NextCall(env: Env, k: nat, i: nat)
    requires i > 0
    ensures PublishCall(env, k, i) == PublishCall(env, k + if env.ok(k) then 2 else 1, i - 1)
  {}

  lemma SameRowsDiffer(a: map<nat, Row>, b: map<nat, Row>, ms: seq<Msg>)
    requires DifferentRows(a, ms) && b.Keys == a.Keys
    ensures DifferentRows(b, ms)
  {}

  /** What a batch call answers, stores and publishes: after its insert, each row is tried. */
  ghost predicate BatchCame(env: Env, k: nat, a: Store, b: Store, ns: seq<Notice>, error: Option<Error>, calls: nat) {
    && error == (if !env.ok(k) && ns != [] then Some(StoreFailure) else if !AllFree(a.rows, ns) then Some(DuplicateKey) else None)
    && if error.Some? then b.rows == a.rows && b.logs == a.logs && calls == k + 1
       else calls == PublishCall(env, k + 1, |ns|)
            && exists stored: Store :: stored.logs == a.logs && RowsAdded(a.rows, stored.rows, ns) && AllTried(env, k + 1, Messages(ns), 0, stored, b)
  }

  lemma BatchOutcome(env: Env, st: Store, ns: seq<Notice>, k: nat)
    ensures var (b, end, k') := Serve(env, st, Batch(InsertAll, ns, 0), k); end.Finished? && BatchCame(env, k, st, b, ns, end.error, k')
  {
    ServeNext(env, st, Batch(InsertAll, ns, 0), k);
    BatchInsertableIsFree(st, ns);
    if (env.ok(k) || ns == []) && AllFree(st.rows, ns) {
      StoredOutcome(env, st, ns, k);
      FinishedServe(env, InsertRows(st, ns), NextInBatch(ns, 0), k + 1);
    }
    hide Serve, InsertRows, BatchInsertable, AllTried, RowsAdded, AllFree, PublishCall, Messages;
  }

  /** After the insert. */
  lemma StoredOutcome(env: Env, st: Store, ns: seq<Notice>, k: nat)
    requires (env.ok(k) || ns == []) && AllFree(st.rows, ns)
    ensures var (b, end, k') := Serve(env, InsertRows(st, ns), NextInBatch(ns, 0), k + 1);
      end == Finished(None) && BatchCame(env, k, st, b, ns, None, k')
  {
    var stored := InsertRows(st, ns);
    BatchInsertableIsFree(st, ns);
    Pipeline.InsertRowsLogs(st, ns);
    AddedAreDifferent(st.rows, stored.rows, ns);
    EnqueueOutcome(env, stored, ns, 0, k + 1);
    hide *;
    var (b, _, k') := Serve(env, stored, NextInBatch(ns, 0), k + 1);
    CameFrom(env, k, st, stored, b, ns, k');
  }

  lemma CameFrom(env: Env, k: nat, a: Store, stored: Store, b: Store, ns: seq<Notice>, calls: nat)
    requires (env.ok(k) || ns == []) && AllFree(a.rows, ns) && Pipeline.SameLogs(a, stored) && RowsAdded(a.rows, stored.rows, ns)
    requires calls == PublishCall(env, k + 1, |ns|) && AllTried(env, k + 1, Messages(ns), 0, stored, b)
    ensures BatchCame(env, k, a, b, ns, None, calls)
  {
    hide AllTried, RowsAdded, AllFree, PublishCall, Messages;
  }

  lemma AddedAreDifferent(a: map<nat, Row>, b: map<nat, Row>, ns: seq<Notice>)
    requires RowsAdded(a, b, ns) && AllFree(a, ns)
    ensures DifferentRows(b, Messages(ns))
  {}

  // ----- a scheduler pass

  /** One turn of the pass's loop. */
  lemma PassTurn(env: Env, st: Store, ms: seq<Msg>, i: nat, k: nat)
    requires i < |ms|
    ensures Sweep(env, st, Pass(ms, i, false), k) == Sweep(env, AfterTry(env, k, st, ms[i]), Pass(ms, i + 1, false), k + if env.ok(k) then 2 else 1)
  {
    SweepNext(env, st, Pass(ms, i, false), k);
    if env.ok(k) { SweepNext(env, Publish(st, ms[i]), Pass(ms, i, true), k + 1); }
    hide Sweep, Publish, UpdateStatus;
  }

  /** A pass tries every message it fetched. */
  lemma {:induction false} SweepOutcome(env: Env, st: Store, ms: seq<Msg>, i: nat, k: nat)
    requires i <= |ms| && DifferentRows(st.rows, ms)
    ensures var (b, end, k') := Sweep(env, st, Pass(ms, i, false), k);
      k' == PublishCall(env, k, |ms| - i) && AllTried(env, k, ms, i, st, b)
    decreases |ms| - i
  {
    if i == |ms| {
      NothingTried(env, k, ms, st);
      hide AllTried;
    } else {
      hide *;
      var mid := AfterTry(env, k, st, ms[i]);
      PassTurn(env, st, ms, i, k);
      StillDifferent(env, k, st, ms, i);
      NextCall(env, k, |ms| - i);
      SweepOutcome(env, mid, ms, i + 1, k + if env.ok(k) then 2 else 1);
      TriedNext(env, k, st, ms, i, Sweep(env, mid, Pass(ms, i + 1, false), k + if env.ok(k) then 2 else 1).0);
    }
  }

  // ----- a handler's call

  /** The rows after a write to one of them, if it is there. */
  function Written(rows: map<nat, Row>, id: nat, status: Status, ok: bool): map<nat, Row> {
    if ok && id in rows then rows[id := rows[id].(status := status)] else rows
  }

  function Counted(rows: map<nat, Row>, id: nat, ok: bool): map<nat, Row> {
    if ok && id in rows then rows[id := rows[id].(retryCount := rows[id].retryCount + 1)] else rows
  }

  /** One record more on the topic, which is this one. */
  predicate Added(a: Store, b: Store, t: Topic, m: Msg, retryAfter: Option<int>) {
    && |Log(b, t)| == |Log(a, t)| + 1
    && Log(b, t)[|Log(a, t)|].msg == Some(m) && Log(b, t)[|Log(a, t)|].publishedAt == a.now && Log(b, t)[|Log(a, t)|].retryAfter == retryAfter
  }

  ghost predicate OnlyAdded(a: Store, b: Store, t: Topic) { Log(a, t) <= Log(b, t) && forall u :: u != t ==> Log(b, u) == Log(a, u) }

  /**
   What comes after a Send that failed: the count, and then either the write of failed and the dead letter, or the retry after
   the delay of the attempt. In this order they are the calls from k on.
   */
  ghost predicate FailureCame(cfg: Config, env: Env, k: nat, a: Store, b: Store, m: Msg, calls: nat)
    requires Fair(env)
  {
    var id, next := m.n.id, Msg(m.n, m.retryCount + 1);
    var counted := Counted(a.rows, id, env.ok(k));
    if m.retryCount + 1 >= cfg.maxRetries then
      && b.rows == Written(counted, id, Failed, env.ok(k + 1)) && calls == k + 3
      && if env.ok(k + 2) then Added(a, b, DeadLetter, next, None) && OnlyAdded(a, b, DeadLetter) else b.logs == a.logs
    else
      var at := WholeSeconds(a.now + RetryDelay(cfg.baseDelay, m.retryCount + 1, env.jitter(k + 1)));
      && b.rows == counted && calls == k + 2
      && if env.ok(k + 1) then Added(a, b, Retry, next, Some(at)) && OnlyAdded(a, b, Retry) else b.logs == a.logs
  }

  /** What a handler's call does: its calls from k on are the limiter wait, the write of processing, the Send, and what follows. */
  ghost predicate HandlerCame(cfg: Config, env: Env, k: nat, a: Store, b: Store, m: Msg, calls: nat)
    requires Fair(env)
  {
    var begun := Written(a.rows, m.n.id, Processing, env.ok(k + 1));
    if !env.ok(k) then b.rows == a.rows && b.logs == a.logs && calls == k + 1
    else if env.ok(k + 2) then b.rows == Written(begun, m.n.id, Delivered, env.ok(k + 3)) && b.logs == a.logs && calls == k + 4
    else FailureCame(cfg, env, k + 3, a.(rows := begun), b, m, calls)
  }

  // What single effects do to rows, records and the clock.

  predicate SameBut(a: Store, b: Store, rows: map<nat, Row>) { b.rows == rows && b.logs == a.logs && b.now == a.now }

  lemma WriteEffect(st: Store, id: nat, status: Status, ok: bool)
    ensures SameBut(st, UpdateStatus(st, id, status, ok), Written(st.rows, id, status, ok))
  {}

  lemma CountEffect(st: Store, id: nat, ok: bool)
    ensures SameBut(st, IncrementRetry(st, id, ok), Counted(st.rows, id, ok))
  {}

  lemma GiveUpEffect(st: Store, t: Topic, h: Activity)
    requires h.Busy?
    ensures SameBut(st, GiveUp(st, t, h).0, st.rows)
  {}

  lemma HistoryEffect(st: Store, e: Event, id: nat, t: Topic, offset: nat, o: Outcome, copy: nat, p: Place, ok: bool, runs: nat)
    ensures SameBut(st, Record(st, e), st.rows) && SameBut(st, MarkStarted(st, id, ok), st.rows) && SameBut(st, Settle(st, t, offset, o), st.rows)
    ensures SameBut(st, Move(st, copy, p).(runs := runs), st.rows)
  {}

  lemma FailureOutcome(cfg: Config, env: Env, st: Store, t: Topic, h: Activity, k: nat)
    requires h.Busy? && h.pc == CountFailure && Fair(env)
    ensures var (b, _, k') := Handle(cfg, env, st, t, h, k); FailureCame(cfg, env, k, st, b, h.msg, k')
  {
    var st1 := IncrementRetry(st, h.msg.n.id, env.ok(k));
    var m := h.msg.(retryCount := h.msg.retryCount + 1);
    AfterCount(cfg, env, st, t, h, k);
    CountEffect(st, h.msg.n.id, env.ok(k));
    hide Handle, IncrementRetry, Counted, FailureCame;
    if m.retryCount >= cfg.maxRetries { DeadOutcome(cfg, env, st, st1, t, h.(pc := MarkFailed, msg := m), h.msg, k); }
    else { RetriedOutcome(cfg, env, st, st1, t, h.(pc := ToRetry, msg := m), h.msg, k); }
  }

  lemma DeadOutcome(cfg: Config, env: Env, st: Store, counted: Store, t: Topic, h: Activity, m: Msg, k: nat)
    requires h.Busy? && h.pc == MarkFailed && h.msg == Msg(m.n, m.retryCount + 1) && Fair(env) && m.retryCount + 1 >= cfg.maxRetries
    requires SameBut(st, counted, Counted(st.rows, m.n.id, env.ok(k)))
    ensures var (b, _, k') := Handle(cfg, env, counted, t, h, k + 1); FailureCame(cfg, env, k, st, b, m, k')
  {
    var failed := UpdateStatus(counted, m.n.id, Failed, env.ok(k + 1));
    var g := h.(pc := ToDeadLetter);
    hide Handle, UpdateStatus, PublishDeadLetter, GiveUp, Written, Counted, Added, OnlyAdded, WholeSeconds, RetryDelay, Log;
    AfterMarkFailed(cfg, env, counted, t, h, k + 1);
    AfterDeadLetter(cfg, env, failed, t, g, k + 2);
    WriteEffect(counted, m.n.id, Failed, env.ok(k + 1));
    if env.ok(k + 2) { DeadLetterAdds(st, failed, t, g); } else { GiveUpEffect(failed, t, g); }
  }

  lemma RetriedOutcome(cfg: Config, env: Env, st: Store, counted: Store, t: Topic, h: Activity, m: Msg, k: nat)
    requires h.Busy? && h.pc == ToRetry && h.msg == Msg(m.n, m.retryCount + 1) && Fair(env) && m.retryCount + 1 < cfg.maxRetries
    requires SameBut(st, counted, Counted(st.rows, m.n.id, env.ok(k)))
    ensures var (b, _, k') := Handle(cfg, env, counted, t, h, k + 1); FailureCame(cfg, env, k, st, b, m, k')
  {
    hide Handle, PublishRetryAt, GiveUp, Counted, Added, OnlyAdded, WholeSeconds, RetryDelay, Log;
    AfterRetry(cfg, env, counted, t, h, k + 1);
    RetryAdds(st, counted, t, h, RetryAt(cfg, counted.now, m.retryCount + 1, env.jitter(k + 1)));
    GiveUpEffect(counted, t, h);
  }

  lemma DeadLetterAdds(a: Store, st: Store, t: Topic, h: Activity)
    requires h.Busy? && st.logs == a.logs && st.now == a.now
    ensures var b := PublishDeadLetter(st, t, h); b.rows == st.rows && Added(a, b, DeadLetter, h.msg, None) && OnlyAdded(a, b, DeadLetter)
  {}

  lemma RetryAdds(a: Store, st: Store, t: Topic, h: Activity, at: int)
    requires h.Busy? && st.logs == a.logs && st.now == a.now
    ensures var b := PublishRetryAt(st, t, h, at); b.rows == st.rows && Added(a, b, Retry, h.msg, Some(at)) && OnlyAdded(a, b, Retry)
  {}

  lemma HandlerOutcome(cfg: Config, env: Env, st: Store, t: Topic, h: Activity, k: nat)
    requires h.Busy? && h.pc == Limiter && Fair(env)
    ensures var (b, _, k') := Handle(cfg, env, st, t, h, k); HandlerCame(cfg, env, k, st, b, h.msg, k')
  {
    var admitted := Admitted(t, LimiterChannel(t, h.msg), st.now);
    var st1 := Record(st, admitted);
    var st2 := UpdateStatus(st1, h.msg.n.id, Processing, env.ok(k + 1));
    var st3 := MarkStarted(st2, h.msg.n.id, env.ok(k + 1));
    AfterLimiter(cfg, env, st, t, h, k);
    AfterMark(cfg, env, st1, t, h.(pc := MarkProcessing), k + 1);
    HistoryEffect(st, admitted, 0, t, 0, HandlerError, 0, Arrived, true, 0);
    WriteEffect(st1, h.msg.n.id, Processing, env.ok(k + 1));
    HistoryEffect(st2, admitted, h.msg.n.id, t, 0, HandlerError, 0, Arrived, env.ok(k + 1), 0);
    GiveUpEffect(st, t, h);
    hide Handle, Record, MarkStarted, UpdateStatus, GiveUp, Written, FailureCame, Fair, LimiterChannel;
    if env.ok(k) { SendOutcome(cfg, env, st, st3, t, h.(pc := Deliver), k); }
  }

  lemma SendOutcome(cfg: Config, env: Env, a: Store, st: Store, t: Topic, h: Activity, k: nat)
    requires h.Busy? && h.pc == Deliver && Fair(env) && env.ok(k)
    requires SameBut(a, st, Written(a.rows, h.msg.n.id, Processing, env.ok(k + 1)))
    ensures var (b, _, k') := Handle(cfg, env, st, t, h, k + 2); HandlerCame(cfg, env, k, a, b, h.msg, k')
  {
    var event := Sent(t, LimiterChannel(t, h.msg), h.offset, h.copy, h.msg, env.ok(k + 2), st.now);
    var sent := Record(st, event);
    var settled := Settle(sent, t, h.offset, Accepted(|st.trace|));
    AfterSend(cfg, env, st, t, h, k + 2);
    HistoryEffect(st, event, 0, t, 0, HandlerError, 0, Arrived, true, 0);
    hide Handle, Record, Settle, Written, FailureCame, Fair, LimiterChannel;
    if env.ok(k + 2) {
      HistoryEffect(sent, event, 0, t, h.offset, Accepted(|st.trace|), 0, Arrived, true, 0);
      DeliveredOutcome(cfg, env, settled, t, h.(pc := MarkDelivered), k + 3);
    } else {
      var (b, _, k') := Handle(cfg, env, sent, t, h.(pc := CountFailure), k + 3);
      FailureOutcome(cfg, env, sent, t, h.(pc := CountFailure), k + 3);
      SameFailure(cfg, env, k + 3, sent, a.(rows := Written(a.rows, h.msg.n.id, Processing, env.ok(k + 1))), b, h.msg, k');
    }
  }

  lemma DeliveredOutcome(cfg: Config, env: Env, st: Store, t: Topic, h: Activity, k: nat)
    requires h.Busy? && h.pc == MarkDelivered && Fair(env)
    ensures var (b, _, k') := Handle(cfg, env, st, t, h, k);
      SameBut(st, b, Written(st.rows, h.msg.n.id, Delivered, env.ok(k))) && k' == k + 1
  {
    var done := UpdateStatus(st, h.msg.n.id, Delivered, env.ok(k));
    AfterDelivery(cfg, env, st, t, h, k);
    WriteEffect(st, h.msg.n.id, Delivered, env.ok(k));
    HistoryEffect(done, Admitted(t, SMS, 0), 0, t, 0, HandlerError, h.copy, Arrived, true, done.runs + 1);
    hide Handle, UpdateStatus, Move, Written;
  }

  // ----- the clock of a consumer's loop

  lemma {:induction false} HandleKeepsClock(cfg: Config, env: Env, st: Store, t: Topic, h: Activity, k: nat)
    requires h.Busy? && Fair(env)
    ensures Handle(cfg, env, st, t, h, k).0.now == st.now
    decreases HandlerRank(h.pc)
  {
    if !Returned(h) {
      var (b, h') := HandlerStep(cfg, st, t, h, env.ok(k), env.jitter(k));
      LaterPc(cfg, st, t, h, env.ok(k), env.jitter(k));
      StepKeepsClock(cfg, st, t, h, env.ok(k), env.jitter(k));
      hide HandlerStep;
      HandleKeepsClock(cfg, env, b, t, h', if h'.pc == NilLimiter then k else k + 1);
    }
  }

  lemma StepKeepsClock(cfg: Config, st: Store, t: Topic, h: Activity, ok: bool, jitter: real)
    requires h.Busy? && !Returned(h) && IsJitter(jitter)
    ensures HandlerStep(cfg, st, t, h, ok, jitter).0.now == st.now
  {
    hide RetryAt, LimiterChannel, WithStatus;
  }

  /** A turn waits for a retry record that is not due yet, until its time; otherwise it leaves the clock alone. */
  lemma TurnClock(cfg: Config, env: Env, lag: nat, st: Store, t: Topic, c: Consumer, k: nat)
    requires c.act.Idle? && c.pos < |Log(st, t)| && Fair(env)
    ensures var e := Log(st, t)[c.pos];
      Turn(cfg, env, lag, st, t, c, k).0.now
        == if t == Retry && e.retryAfter.Some? && st.now < e.retryAfter.value then e.retryAfter.value + lag else st.now
  {
    var e := Log(st, t)[c.pos];
    TurnByFields(cfg, env, lag, st, t, c, k);
    if e.msg.Some? {
      var held := Move(AwaitIfRetry(st, t, e, lag), e.copy, Held(t, e.msg.value.retryCount));
      HandleKeepsClock(cfg, env, held, t, Busy(if t == Retry then RetryLimiter else Limiter, c.pos, e.msg.value, e.copy), k);
    }
    hide Turn, Handle;
  }

  // ----- a turn of a consumer's loop

  lemma {:induction false} EndsCommitting(cfg: Config, env: Env, st: Store, t: Topic, h: Activity, k: nat)
    requires h.Busy? && h.pc != AwaitTime && h.pc != RetryLimiter && h.pc != NilLimiter && Fair(env)
    ensures Handle(cfg, env, st, t, h, k).1.pc == CommitOffset
    decreases HandlerRank(h.pc)
  {
    if h.pc != CommitOffset {
      var (b, h') := HandlerStep(cfg, st, t, h, env.ok(k), env.jitter(k));
      LaterPc(cfg, st, t, h, env.ok(k), env.jitter(k));
      NoLimiterLookup(cfg, st, t, h, env.ok(k), env.jitter(k));
      hide HandlerStep;
      EndsCommitting(cfg, env, b, t, h', k + 1);
    }
  }

  lemma NoLimiterLookup(cfg: Config, st: Store, t: Topic, h: Activity, ok: bool, jitter: real)
    requires h.Busy? && !Returned(h) && h.pc != AwaitTime && h.pc != RetryLimiter && IsJitter(jitter)
    ensures var h' := HandlerStep(cfg, st, t, h, ok, jitter).1; h'.pc != RetryLimiter && h'.pc != NilLimiter
  {
    hide PublishRetry, PublishDeadLetter, UpdateStatus, IncrementRetry;
  }

  /**
   What a turn comes to: it goes one record further. A body that does not parse is skipped; on the retry topic the limiter
   of the channel is waited on once more; then comes the handler, and, whatever it came to, the commit is the last call.
   */
  ghost predicate TurnCame(cfg: Config, env: Env, lag: nat, k: nat, a: Store, b: Store, t: Topic, c: Consumer, c': Consumer, calls: nat)
    requires Fair(env) && c.pos < |Log(a, t)|
  {
    var e := Log(a, t)[c.pos];
    var awake := a.(now := if t == Retry && e.retryAfter.Some? && a.now < e.retryAfter.value then e.retryAfter.value + lag else a.now);
    && c'.pos == c.pos + 1
    && if e.msg.Some? && t == Retry && e.msg.value.n.channel.OtherChannel? then
         b.rows == a.rows && b.logs == a.logs && calls == k && c'.committed == c.committed && c'.act.Busy? && c'.act.pc == NilLimiter
       else
         && calls > k && c'.act == Idle && c'.committed == (if env.ok(calls - 1) then c.pos + 1 else c.committed)
         && if e.msg.None? then b.rows == a.rows && b.logs == a.logs && calls == k + 1
            else if t == Retry && !env.ok(k) then b.rows == a.rows && b.logs == a.logs && calls == k + 2
            else HandlerCame(cfg, env, if t == Retry then k + 1 else k, awake, b, e.msg.value, calls - 1)
  }

  lemma TurnOutcome(cfg: Config, env: Env, lag: nat, st: Store, t: Topic, c: Consumer, k: nat)
    requires c.act.Idle? && c.pos < |Log(st, t)| && Fair(env)
    ensures var (b, c', k') := Turn(cfg, env, lag, st, t, c, k); TurnCame(cfg, env, lag, k, st, b, t, c, c', k')
  {
    hide TurnCame, Turn;
    if Log(st, t)[c.pos].msg.None? { SkippedTurn(cfg, env, lag, st, t, c, k); }
    else if t == Retry { RetryTurn(cfg, env, lag, st, c, k); }
    else { WorkTurn(cfg, env, lag, st, t, c, k); }
  }

  lemma SkippedTurn(cfg: Config, env: Env, lag: nat, st: Store, t: Topic, c: Consumer, k: nat)
    requires c.act.Idle? && c.pos < |Log(st, t)| && Log(st, t)[c.pos].msg.None? && Fair(env)
    ensures var (b, c', k') := Turn(cfg, env, lag, st, t, c, k); TurnCame(cfg, env, lag, k, st, b, t, c, c', k')
  {
    var awake := AwaitIfRetry(st, t, Log(st, t)[c.pos], lag);
    TurnByFields(cfg, env, lag, st, t, c, k);
    HistoryEffect(awake, Admitted(t, SMS, 0), 0, t, c.pos, Unparsable, 0, Arrived, true, 0);
    hide Turn, Settle, HandlerCame;
  }

  lemma WorkTurn(cfg: Config, env: Env, lag: nat, st: Store, t: Topic, c: Consumer, k: nat)
    requires c.act.Idle? && c.pos < |Log(st, t)| && Log(st, t)[c.pos].msg.Some? && t != Retry && Fair(env)
    ensures var (b, c', k') := Turn(cfg, env, lag, st, t, c, k); TurnCame(cfg, env, lag, k, st, b, t, c, c', k')
  {
    var e := Log(st, t)[c.pos];
    var held := Move(st, e.copy, Held(t, e.msg.value.retryCount));
    TurnByFields(cfg, env, lag, st, t, c, k);
    MoveEffect(st, e.copy, Held(t, e.msg.value.retryCount));
    HandledRecord(cfg, env, st, held, t, Busy(Limiter, c.pos, e.msg.value, e.copy), k);
    hide Turn, Handle, HandlerCame, Move;
  }

  /** What comes of a retry record once it was waited for. */
  ghost predicate RetryCame(cfg: Config, env: Env, k: nat, awake: Store, b: Store, m: Msg, c: Consumer, c': Consumer, calls: nat)
    requires Fair(env)
  {
    if m.n.channel.OtherChannel? then
      b.rows == awake.rows && b.logs == awake.logs && calls == k && c'.committed == c.committed && c'.act.Busy? && c'.act.pc == NilLimiter
    else
      && calls > k + 1 && c'.act == Idle && c'.committed == (if env.ok(calls - 1) then c.pos + 1 else c.committed)
      && if env.ok(k) then HandlerCame(cfg, env, k + 1, awake, b, m, calls - 1)
         else b.rows == awake.rows && b.logs == awake.logs && calls == k + 2
  }

  lemma RetryTurn(cfg: Config, env: Env, lag: nat, st: Store, c: Consumer, k: nat)
    requires c.act.Idle? && c.pos < |Log(st, Retry)| && Log(st, Retry)[c.pos].msg.Some? && Fair(env)
    ensures var (b, c', k') := Turn(cfg, env, lag, st, Retry, c, k); TurnCame(cfg, env, lag, k, st, b, Retry, c, c', k')
  {
    RetryTurnComes(cfg, env, lag, st, c, k);
    hide Turn, Handle, HandlerCame, Fair;
  }

  lemma RetryTurnComes(cfg: Config, env: Env, lag: nat, st: Store, c: Consumer, k: nat)
    requires c.act.Idle? && c.pos < |Log(st, Retry)| && Log(st, Retry)[c.pos].msg.Some? && Fair(env)
    ensures var e := Log(st, Retry)[c.pos];
      var (b, c', k') := Turn(cfg, env, lag, st, Retry, c, k);
      c'.pos == c.pos + 1 && RetryCame(cfg, env, k, AwaitIfRetry(st, Retry, e, lag), b, e.msg.value, c, c', k')
  {
    var e := Log(st, Retry)[c.pos];
    var awake := AwaitIfRetry(st, Retry, e, lag);
    var held := Move(awake, e.copy, Held(Retry, e.msg.value.retryCount));
    hide Turn, Handle, HandlerCame, Move, Fair, AwaitIfRetry;
    TurnByFields(cfg, env, lag, st, Retry, c, k);
    MoveEffect(awake, e.copy, Held(Retry, e.msg.value.retryCount));
    RetriedRecord(cfg, env, awake, held, Retry, Busy(RetryLimiter, c.pos, e.msg.value, e.copy), k);
  }

  lemma MoveEffect(st: Store, copy: nat, p: Place)
    ensures SameBut(st, Move(st, copy, p), st.rows)
  {}

  lemma HandledRecord(cfg: Config, env: Env, a: Store, st: Store, t: Topic, h: Activity, k: nat)
    requires h.Busy? && h.pc == Limiter && Fair(env) && SameBut(a, st, a.rows)
    ensures var (b, end, k') := Handle(cfg, env, st, t, h, k); end.pc == CommitOffset && HandlerCame(cfg, env, k, a, b, h.msg, k') && k' > k
  {
    var (b, _, k') := Handle(cfg, env, st, t, h, k);
    EndsCommitting(cfg, env, st, t, h, k);
    HandlerOutcome(cfg, env, st, t, h, k);
    SameHandler(cfg, env, k, st, a, b, h.msg, k');
    hide Handle, Written, Counted, Added, OnlyAdded;
  }

  lemma RetriedRecord(cfg: Config, env: Env, a: Store, st: Store, t: Topic, h: Activity, k: nat)
    requires h.Busy? && h.pc == RetryLimiter && Fair(env) && SameBut(a, st, a.rows)
    ensures var (b, end, k') := Handle(cfg, env, st, t, h, k);
      if h.msg.n.channel.OtherChannel? then end.pc == NilLimiter && b.rows == a.rows && b.logs == a.logs && k' == k
      else end.pc == CommitOffset && k' > k
           && if env.ok(k) then HandlerCame(cfg, env, k + 1, a, b, h.msg, k') else b.rows == a.rows && b.logs == a.logs && k' == k + 1
  {
    var event := Admitted(t, LimiterChannel(t, h.msg), st.now);
    AfterRetryLimiter(cfg, env, st, t, h, k);
    GiveUpEffect(st, t, h);
    HistoryEffect(st, event, 0, t, 0, Unparsable, 0, Arrived, true, 0);
    hide Handle, GiveUp, Record, HandlerCame, LimiterChannel;
    if !h.msg.n.channel.OtherChannel? && env.ok(k) { HandledRecord(cfg, env, a, Record(st, event), t, h.(pc := Limiter), k + 1); }
  }

  /** It is a matter of rows, records and the clock. */
  lemma SameHandler(cfg: Config, env: Env, k: nat, a: Store, a': Store, b: Store, m: Msg, calls: nat)
    requires Fair(env) && HandlerCame(cfg, env, k, a, b, m, calls) && a.rows == a'.rows && a.logs == a'.logs && a.now == a'.now
    ensures HandlerCame(cfg, env, k, a', b, m, calls)
  {
    assert forall t :: Log(a, t) == Log(a', t);
  }

  lemma SameFailure(cfg: Config, env: Env, k: nat, a: Store, a': Store, b: Store, m: Msg, calls: nat)
    requires Fair(env) && FailureCame(cfg, env, k, a, b, m, calls) && a.rows == a'.rows && a.logs == a'.logs && a.now == a'.now
    ensures FailureCame(cfg, env, k, a', b, m, calls)
  {
    assert forall t :: Log(a, t) == Log(a', t);
  }
}
