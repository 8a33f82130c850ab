/**
 Runs that show that the conditions of the main theorems are needed: what the pipeline does not promise.
 */
module Exceptions {
  import opened Domain
  import opened Protocol
  import Drive
  import Guarantees
  import Template

  const REQUEST := Request("someone", "sms", "hello", "normal", "", None, map[])
  const NOTICE := Notice(0, None, "", "someone", SMS, "hello", Normal, None)
  const TOPIC := Work(SMS, Normal)
  const FIRST := Entry(Some(Msg(NOTICE, 0)), 0, 0, None)

  lemma Then(cfg: Config, s: State, a: Action, s': State)
    requires Reachable(cfg, s) && Enabled(s, a) && Step(cfg, s, a) == s'
    ensures Reachable(cfg, s')
  {
    Drive.StepReaches(cfg, s, a);
    hide Reachable, Reaches, Enabled, Step;
    Drive.StaysReachable(cfg, s, s');
  }

  lemma InitReachable(cfg: Config)
    ensures Reachable(cfg, Init())
  {
    Drive.ReachesItself(cfg, Init());
  }

  // ----- a notification, created and published

  function Base(rows: map<nat, Row>, calls: map<nat, Call>): State {
    Init().(st := Init().st.(rows := rows), calls := calls, nextId := 1)
  }

  function Published(call: Call): State {
    var st := Init().st.(
      rows := map[0 := Row(NOTICE, Queued, 0)], logs := map[TOPIC := [FIRST]],
      copies := [CopyRecord(Msg(NOTICE, 0), TOPIC, 0, Unread(TOPIC, 0, 0))]);
    Init().(st := st, calls := map[0 := call], nextId := 1)
  }

  lemma StepIt(cfg: Config, row: Row, pc: CreatePc, row': Row, pc': CreatePc)
    requires (pc == CheckSchedule && pc' == MarkQueued && row' == row) || (pc == MarkQueued && pc' == Enqueue && row' == WithStatus(row, Queued))
    requires row.n == NOTICE && row.status == Pending
    ensures var s, a := Base(map[0 := row], map[0 := Create(pc, NOTICE)]), StepCall(0, true);
      Enabled(s, a) && Step(cfg, s, a) == Base(map[0 := row'], map[0 := Create(pc', NOTICE)])
  {
    assert map[0 := row][0 := row'] == map[0 := row'];
    assert Base(map[0 := row], map[]).st.overwritten + {} == {};
  }

  lemma InsertIt(cfg: Config)
    ensures var s, a := Base(map[], map[0 := Create(Insert, NOTICE)]), StepCall(0, true);
      Enabled(s, a) && Step(cfg, s, a) == Base(map[0 := Row(NOTICE, Pending, 0)], map[0 := Create(CheckSchedule, NOTICE)])
  {}

  lemma PublishIt(cfg: Config)
    ensures var s, a := Base(map[0 := Row(NOTICE, Queued, 0)], map[0 := Create(Enqueue, NOTICE)]), StepCall(0, true);
      Enabled(s, a) && Step(cfg, s, a) == Published(Finished(None))
  {
    var st := Base(map[0 := Row(NOTICE, Queued, 0)], map[]).st;
    assert Log(st, TOPIC) == [] && [] + [FIRST] == [FIRST];
  }

  lemma CreateReaches(cfg: Config)
    ensures Reachable(cfg, Published(Finished(None)))
  {
    var s0 := Init();
    var s1 := Base(map[], map[0 := Create(Insert, NOTICE)]);
    var s2 := Base(map[0 := Row(NOTICE, Pending, 0)], map[0 := Create(CheckSchedule, NOTICE)]);
    var s3 := Base(map[0 := Row(NOTICE, Pending, 0)], map[0 := Create(MarkQueued, NOTICE)]);
    var s4 := Base(map[0 := Row(NOTICE, Queued, 0)], map[0 := Create(Enqueue, NOTICE)]);
    InitReachable(cfg);
    StartIt(cfg);
    InsertIt(cfg);
    StepIt(cfg, Row(NOTICE, Pending, 0), CheckSchedule, Row(NOTICE, Pending, 0), MarkQueued);
    StepIt(cfg, Row(NOTICE, Pending, 0), MarkQueued, Row(NOTICE, Queued, 0), Enqueue);
    PublishIt(cfg);
    hide *;
    Then(cfg, s0, StartCreate(0, REQUEST, "hello"), s1);
    Then(cfg, s1, StepCall(0, true), s2);
    Then(cfg, s2, StepCall(0, true), s3);
    Then(cfg, s3, StepCall(0, true), s4);
    Then(cfg, s4, StepCall(0, true), Published(Finished(None)));
  }

  lemma StartIt(cfg: Config)
    ensures var a := StartCreate(0, REQUEST, "hello");
      Enabled(Init(), a) && Step(cfg, Init(), a) == Base(map[], map[0 := Create(Insert, NOTICE)])
  {
    assert Accept(REQUEST) == Ok((SMS, Normal));
    assert Template.IsOrder(map[], []) && Template.ResolveInOrder("hello", map[], []) == "hello";
  }

  // ----- a copy is lost when its handler returns an error

  /** The limiter fails, and the commit does not. */
  function NoAdmission(): Drive.Env { Drive.Env(k => k != 0, k => 0.0) }

  lemma TurnIt(cfg: Config, env: Drive.Env, s: State, b: Store, c: Consumer)
    requires Reachable(cfg, s) && TOPIC in s.consumers && s.consumers[TOPIC].act.Idle? && s.consumers[TOPIC].pos < |Log(s.st, TOPIC)|
    requires Drive.Fair(env)
    requires var (b', c', _) := Drive.Turn(cfg, env, 0, s.st, TOPIC, s.consumers[TOPIC], 0); b' == b && c' == c
    ensures Reachable(cfg, SetConsumer(s, TOPIC, (b, c))) && Reaches(cfg, s, SetConsumer(s, TOPIC, (b, c)))
  {
    Drive.TurnReaches(cfg, env, 0, s, TOPIC, 0);
    Drive.ConsumesReaches(cfg, s, SetConsumer(s, TOPIC, (b, c)));
    hide Reachable, Reaches, Drive.Turn;
    Drive.StaysReachable(cfg, s, SetConsumer(s, TOPIC, (b, c)));
  }

  function Dropped(st: Store): Store {
    st.(copies := [CopyRecord(Msg(NOTICE, 0), TOPIC, 0, Lost(TOPIC, 0))], outcomes := map[(TOPIC, 0) := HandlerError], runs := 1)
  }

  lemma DropTurn(cfg: Config)
    ensures var st := Published(Finished(None)).st;
      var (b, c, _) := Drive.Turn(cfg, NoAdmission(), 0, st, TOPIC, Consumer(0, 0, Idle), 0);
      Drive.Fair(NoAdmission()) && b == Dropped(st) && c == Consumer(1, 1, Idle)
  {
    var st := Published(Finished(None)).st;
    var h := Busy(Limiter, 0, Msg(NOTICE, 0), 0);
    var held := Move(st, 0, Held(TOPIC, 0));
    assert Log(st, TOPIC)[0] == FIRST;
    Drive.TurnByFields(cfg, NoAdmission(), 0, st, TOPIC, Consumer(0, 0, Idle), 0);
    Drive.AfterLimiter(cfg, NoAdmission(), held, TOPIC, h, 0);
    hide Drive.Handle, Drive.Turn;
    assert GiveUp(held, TOPIC, h).0 == Dropped(st);
  }

  /** A published copy that no record, no accepted Send and no dead letter accounts for. */
  lemma CopiesCanBeLost(cfg: Config)
    ensures exists s :: Reachable(cfg, s) && 0 < |s.st.copies| && !Guarantees.Survives(s, 0)
  {
    var s := Published(Finished(None));
    var s' := SetConsumer(s, TOPIC, (Dropped(s.st), Consumer(1, 1, Idle)));
    CreateReaches(cfg);
    DropTurn(cfg);
    hide Reachable, Reaches, Drive.Turn, Guarantees.Survives;
    TurnIt(cfg, NoAdmission(), s, Dropped(s.st), Consumer(1, 1, Idle));
    NothingSurvives(s');
  }

  lemma NothingSurvives(s: State)
    requires s == SetConsumer(Published(Finished(None)), TOPIC, (Dropped(Published(Finished(None)).st), Consumer(1, 1, Idle)))
    ensures !Guarantees.Survives(s, 0)
  {
    assert forall t :: Log(s.st, t) == if t == TOPIC then [FIRST] else [];
  }

  // ----- a cancelled notification is delivered when its copy was already published

  /** What a turn in which all goes well makes of the stores, call by call. */
  function Fetched(st: Store): Store { Move(st, 0, Held(TOPIC, 0)) }

  function Admit(st: Store): Store { Record(Fetched(st), Admitted(TOPIC, SMS, Fetched(st).now)) }

  function Begun(st: Store): Store { MarkStarted(UpdateStatus(Admit(st), 0, Processing, true), 0, true) }

  function SentOff(st: Store, m: Msg): Store {
    Settle(Record(Begun(st), Sent(TOPIC, SMS, 0, 0, m, true, Begun(st).now)), TOPIC, 0, Accepted(|Begun(st).trace|))
  }

  function Done(st: Store, m: Msg): Store {
    var b := UpdateStatus(SentOff(st, m), 0, Delivered, true);
    Move(b, 0, Arrived).(runs := b.runs + 1)
  }

  lemma DoneRows(st: Store, m: Msg)
    requires 0 in st.rows
    ensures Done(st, m).rows == st.rows[0 := WithStatus(st.rows[0], Delivered)] && Done(st, m).logs == st.logs
  {
    assert Begun(st).rows == st.rows[0 := WithStatus(st.rows[0], Processing)];
  }

  lemma DeliverTurn(cfg: Config, st: Store, n: Notice)
    requires |Log(st, TOPIC)| == 1 && Log(st, TOPIC)[0].msg == Some(Msg(n, 0)) && Log(st, TOPIC)[0].copy == 0
    requires 0 in st.rows && n.id == 0
    ensures var (b, c, _) := Drive.Turn(cfg, Drive.AllGood(), 0, st, TOPIC, Consumer(0, 0, Idle), 0);
      && Drive.Fair(Drive.AllGood()) && c == Consumer(1, 1, Idle)
      && b.rows == st.rows[0 := WithStatus(st.rows[0], Delivered)] && b.logs == st.logs
  {
    hide Drive.Handle, Drive.Turn, Record, MarkStarted, UpdateStatus, Settle, WithStatus, Move;
    var env := Drive.AllGood();
    var h := Busy(Limiter, 0, Msg(n, 0), 0);
    DoneRows(st, h.msg);
    Drive.TurnByFields(cfg, env, 0, st, TOPIC, Consumer(0, 0, Idle), 0);
    Drive.AfterLimiter(cfg, env, Fetched(st), TOPIC, h, 0);
    Drive.AfterMark(cfg, env, Admit(st), TOPIC, h.(pc := MarkProcessing), 1);
    Drive.AfterSend(cfg, env, Begun(st), TOPIC, h.(pc := Deliver), 2);
    Drive.AfterDelivery(cfg, env, SentOff(st, h.msg), TOPIC, h.(pc := MarkDelivered), 3);
  }

  /** From a state in which one copy waits on its topic, and its row is there, to one in which it is delivered. */
  lemma Delivers(cfg: Config, s: State, n: Notice) returns (s': State)
    requires Reachable(cfg, s) && TOPIC in s.consumers && s.consumers[TOPIC] == Consumer(0, 0, Idle)
    requires |Log(s.st, TOPIC)| == 1 && Log(s.st, TOPIC)[0].msg == Some(Msg(n, 0)) && Log(s.st, TOPIC)[0].copy == 0
    requires n.id == 0 && 0 in s.st.rows && s.st.rows == map[0 := s.st.rows[0]]
    ensures Reachable(cfg, s') && Reaches(cfg, s, s') && s'.st.rows == map[0 := WithStatus(s.st.rows[0], Delivered)]
    ensures s'.st.logs == s.st.logs && s'.calls == s.calls && s'.passes == s.passes
    ensures TOPIC in s'.consumers && s'.consumers[TOPIC] == Consumer(1, 1, Idle)
  {
    DeliverTurn(cfg, s.st, n);
    var (b, c, _) := Drive.Turn(cfg, Drive.AllGood(), 0, s.st, TOPIC, Consumer(0, 0, Idle), 0);
    hide Reachable, Reaches, Drive.Turn, WithStatus, Log;
    s' := SetConsumer(s, TOPIC, (b, c));
    TurnIt(cfg, Drive.AllGood(), s, b, c);
  }

  function Cancelling(checked: bool): State {
    var s := Published(Finished(None));
    s.(calls := s.calls[1 := Cancel(0, checked)])
  }

  function CancelDone(): State {
    var s := Published(Finished(None));
    s.(st := s.st.(rows := map[0 := Row(NOTICE, Cancelled, 0)]), calls := s.calls[1 := Finished(None)])
  }

  lemma CancelIt(cfg: Config)
    ensures var s, a := Published(Finished(None)), StartCancel(1, 0); Enabled(s, a) && Step(cfg, s, a) == Cancelling(false)
    ensures var s, a := Cancelling(false), StepCall(1, true); Enabled(s, a) && Step(cfg, s, a) == Cancelling(true)
  {
    var s := Published(Finished(None));
    assert s.calls[1 := Cancel(0, false)][1 := Cancel(0, true)] == s.calls[1 := Cancel(0, true)];
  }

  lemma CancelItNow(cfg: Config)
    ensures var s, a := Cancelling(true), StepCall(1, true); Enabled(s, a) && Step(cfg, s, a) == CancelDone()
  {
    var s := Published(Finished(None));
    assert s.calls[1 := Cancel(0, true)][1 := Finished(None)] == s.calls[1 := Finished(None)];
    assert s.st.rows[0 := Row(NOTICE, Cancelled, 0)] == map[0 := Row(NOTICE, Cancelled, 0)];
  }

  lemma CancelReaches(cfg: Config)
    ensures Reachable(cfg, CancelDone())
  {
    CreateReaches(cfg);
    CancelIt(cfg);
    CancelItNow(cfg);
    hide *;
    Then(cfg, Published(Finished(None)), StartCancel(1, 0), Cancelling(false));
    Then(cfg, Cancelling(false), StepCall(1, true), Cancelling(true));
    Then(cfg, Cancelling(true), StepCall(1, true), CancelDone());
  }

  /** From a state in which `Cancel` has succeeded, a run to one in which the notification is delivered. */
  lemma CancelledMayBeDelivered(cfg: Config)
    ensures exists s, s' ::
      && Reachable(cfg, s) && s.st.rows == map[0 := Row(NOTICE, Cancelled, 0)] && 1 in s.calls && s.calls[1] == Finished(None)
      && Reaches(cfg, s, s') && s'.st.rows == map[0 := Row(NOTICE, Delivered, 0)]
  {
    CancelReaches(cfg);
    var s := Delivers(cfg, CancelDone(), NOTICE);
    hide Reachable, Reaches;
  }

  // ----- a row of a batch is marked queued after its delivery

  const BATCH_NOTICE := NOTICE.(batchId := Some(7))

  function BatchBase(rows: map<nat, Row>, pc: BatchPc): State { Base(rows, map[0 := Batch(pc, [BATCH_NOTICE], 0)]) }

  function BatchPublished(call: Call): State {
    var s := Base(map[0 := Row(BATCH_NOTICE, Pending, 0)], map[0 := call]);
    s.(st := Publish(s.st, Msg(BATCH_NOTICE, 0)))
  }

  lemma BatchStarts(cfg: Config)
    ensures var a := StartBatch(0, [REQUEST], 7); Enabled(Init(), a) && Step(cfg, Init(), a) == BatchBase(map[], InsertAll)
  {
    assert Accept(REQUEST) == Ok((SMS, Normal));
    assert NoticesOf([REQUEST], 0, 7) == [BATCH_NOTICE];
  }

  lemma BatchInserts(cfg: Config)
    ensures var s, a := BatchBase(map[], InsertAll), StepCall(0, true);
      Enabled(s, a) && Step(cfg, s, a) == BatchBase(map[0 := Row(BATCH_NOTICE, Pending, 0)], EnqueueNext)
  {
    var st := BatchBase(map[], InsertAll).st;
    assert [BATCH_NOTICE][..0] == [];
    assert InsertRows(st, []) == st && BatchInsertable(st, []);
    assert InsertRows(st, [BATCH_NOTICE]) == InsertRow(st, BATCH_NOTICE);
    assert BatchInsertable(st, [BATCH_NOTICE]);
  }

  lemma BatchEnqueues(cfg: Config)
    ensures var s, a := BatchBase(map[0 := Row(BATCH_NOTICE, Pending, 0)], EnqueueNext), StepCall(0, true);
      Enabled(s, a) && Step(cfg, s, a) == BatchPublished(Batch(MarkNext, [BATCH_NOTICE], 0))
  {
    hide Publish;
  }

  lemma BatchReaches(cfg: Config)
    ensures Reachable(cfg, BatchPublished(Batch(MarkNext, [BATCH_NOTICE], 0)))
  {
    InitReachable(cfg);
    BatchStarts(cfg);
    BatchInserts(cfg);
    BatchEnqueues(cfg);
    hide *;
    Then(cfg, Init(), StartBatch(0, [REQUEST], 7), BatchBase(map[], InsertAll));
    Then(cfg, BatchBase(map[], InsertAll), StepCall(0, true), BatchBase(map[0 := Row(BATCH_NOTICE, Pending, 0)], EnqueueNext));
    Then(cfg, BatchBase(map[0 := Row(BATCH_NOTICE, Pending, 0)], EnqueueNext), StepCall(0, true), BatchPublished(Batch(MarkNext, [BATCH_NOTICE], 0)));
  }

  /** The last step of the batch call, after the delivery. */
  lemma BatchMarks(cfg: Config, s: State)
    requires s.calls == map[0 := Batch(MarkNext, [BATCH_NOTICE], 0)] && s.st.rows == map[0 := Row(BATCH_NOTICE, Delivered, 0)]
    ensures var a := StepCall(0, true);
      && Enabled(s, a) && Step(cfg, s, a).st.rows == map[0 := Row(BATCH_NOTICE, Queued, 0)]
      && Step(cfg, s, a).calls == map[0 := Finished(None)] && Step(cfg, s, a).consumers == s.consumers && Step(cfg, s, a).st.logs == s.st.logs
  {
    assert map[0 := Row(BATCH_NOTICE, Delivered, 0)][0 := Row(BATCH_NOTICE, Queued, 0)] == map[0 := Row(BATCH_NOTICE, Queued, 0)];
    assert map[0 := Batch(MarkNext, [BATCH_NOTICE], 0)][0 := Finished(None)] == map[0 := Finished(None)];
  }

  lemma BatchState()
    ensures var s := BatchPublished(Batch(MarkNext, [BATCH_NOTICE], 0));
      && Log(s.st, TOPIC) == [Entry(Some(Msg(BATCH_NOTICE, 0)), 0, 0, None)] && s.st.rows == map[0 := Row(BATCH_NOTICE, Pending, 0)]
      && TOPIC in s.consumers && s.consumers[TOPIC] == Consumer(0, 0, Idle) && s.calls == map[0 := Batch(MarkNext, [BATCH_NOTICE], 0)]
  {}

  lemma BatchDelivered(cfg: Config) returns (s: State)
    ensures Reachable(cfg, s) && s.calls == map[0 := Batch(MarkNext, [BATCH_NOTICE], 0)]
    ensures s.st.rows == map[0 := Row(BATCH_NOTICE, Delivered, 0)]
    ensures TOPIC in s.consumers && s.consumers[TOPIC] == Consumer(1, 1, Idle) && |Log(s.st, TOPIC)| == 1
  {
    BatchReaches(cfg);
    BatchState();
    hide Publish, Reachable, Init, BatchPublished;
    s := Delivers(cfg, BatchPublished(Batch(MarkNext, [BATCH_NOTICE], 0)), BATCH_NOTICE);
  }

  /** The worker may be done with a row of a batch before the batch call marks it: it stays queued, with nothing left to do. */
  lemma DeliveredMayEndQueued(cfg: Config)
    ensures exists s, s' ::
      && Reachable(cfg, s) && s.st.rows == map[0 := Row(BATCH_NOTICE, Delivered, 0)]
      && Reaches(cfg, s, s') && s'.st.rows == map[0 := Row(BATCH_NOTICE, Queued, 0)] && s'.calls == map[0 := Finished(None)]
      && TOPIC in s'.consumers && s'.consumers[TOPIC] == Consumer(1, 1, Idle) && |Log(s'.st, TOPIC)| == 1
  {
    var s := BatchDelivered(cfg);
    BatchMarks(cfg, s);
    Drive.StepReaches(cfg, s, StepCall(0, true));
    hide Reachable, Reaches, Step, Enabled;
  }
}
