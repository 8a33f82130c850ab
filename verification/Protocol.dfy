/**
 The delivery pipeline as a step machine: API calls, scheduler passes and topic consumers over two
 shared stores, the row table and the append-only topic logs. Every repository, queue, limiter or notifier call
 is one step with a chosen success or failure; any two steps may be interleaved, and any process may stop at any point.
 */
module Protocol {
  import opened Domain
  import opened Backoff
  import Template

  datatype Config = Config(maxRetries: int, baseDelay: nat)

  datatype Row = Row(n: Notice, status: Status, retryCount: nat)

  /** A message body; `retryCount` is the counter that travels with the copy, not the one in the row. */
  datatype Msg = Msg(n: Notice, retryCount: nat)

  /**
   One record of a topic. `msg` is None for a body that does not parse. `copy` numbers the Publish call this
   record descends from: it is bookkeeping of the model and no step reads it to decide anything.
   */
  datatype Entry = Entry(msg: Option<Msg>, copy: nat, publishedAt: int, retryAfter: Option<int>)

  datatype Event =
    | Admitted(topic: Topic, channel: Channel, at: int)
    | Sent(topic: Topic, channel: Channel, offset: nat, copy: nat, msg: Msg, ok: bool, at: int)

  /** What the last complete handling of a record came to. */
  datatype Outcome = Accepted(event: nat) | Forwarded(offset: nat) | DeadLettered(offset: nat) | Unparsable | HandlerError

  /** Where a published copy is: unread, with a handler, or out of the pipeline in one of three ways. */
  datatype Place =
    | Unread(topic: Topic, offset: nat, retryCount: nat)
    | Held(topic: Topic, retryCount: nat)
    | Arrived
    | InDeadLetter(offset: nat)
    | Lost(topic: Topic, offset: nat)

  datatype CopyRecord = CopyRecord(first: Msg, topic: Topic, offset: nat, place: Place)

  /**
   The shared stores. `rows`, `logs` and `now` are what the processes see; the other fields are history.
   `started` holds the ids whose row was set to processing; `disturbed` those for which a database write failed, whose
   API call died, or whose handler crashed between a failed Send and its count; `deferred` those that `Create` left to
   the scheduler; `overwritten` those for which queued or pending was written over delivered or failed. `runs` counts
   handler calls that returned.
   */
  datatype Store = Store(
    rows: map<nat, Row>, logs: map<Topic, seq<Entry>>, now: int,
    copies: seq<CopyRecord>, trace: seq<Event>, outcomes: map<(Topic, nat), Outcome>,
    started: set<nat>, disturbed: set<nat>, deferred: set<nat>, overwritten: set<nat>, runs: nat)

  function Log(st: Store, t: Topic): seq<Entry> { if t in st.logs then st.logs[t] else [] }

  // ----- single atomic effects on the stores

  function WithStatus(row: Row, status: Status): Row { row.(status := status) }

  function Disturb(st: Store, id: nat): Store { st.(disturbed := st.disturbed + {id}) }

  function Defer(st: Store, id: nat): Store { st.(deferred := st.deferred + {id}) }

  /** Writing queued or pending over a status that says what became of the notification. */
  predicate Overwrites(was: Status, status: Status) { (was == Delivered || was == Failed) && IsCancellable(status) }

  /** `UPDATE ... SET status`: unguarded, and an error when there is no such row. */
  function UpdateStatus(st: Store, id: nat, status: Status, ok: bool): Store {
    if ok && id in st.rows then
      st.(rows := st.rows[id := WithStatus(st.rows[id], status)],
          overwritten := st.overwritten + if Overwrites(st.rows[id].status, status) then {id} else {})
    else Disturb(st, id)
  }

  function IncrementRetry(st: Store, id: nat, ok: bool): Store {
    if ok && id in st.rows
    then st.(rows := st.rows[id := st.rows[id].(retryCount := st.rows[id].retryCount + 1)])
    else Disturb(st, id)
  }

  predicate KeyTaken(st: Store, key: string) { key != "" && exists id :: id in st.rows && st.rows[id].n.key == key }

  /** The primary key on the id and the unique index on non-empty idempotency keys both reject an insert. */
  predicate Insertable(st: Store, n: Notice) { n.id !in st.rows && !KeyTaken(st, n.key) }

  function InsertRow(st: Store, n: Notice): Store { st.(rows := st.rows[n.id := Row(n, Pending, 0)]) }

  function InsertRows(st: Store, ns: seq<Notice>): Store
  {
    if ns == [] then st else InsertRow(InsertRows(st, ns[..|ns| - 1]), ns[|ns| - 1])
  }

  predicate BatchInsertable(st: Store, ns: seq<Notice>)
  {
    ns != [] ==> BatchInsertable(st, ns[..|ns| - 1]) && Insertable(InsertRows(st, ns[..|ns| - 1]), ns[|ns| - 1])
  }

  function Append(st: Store, t: Topic, e: Entry): Store { st.(logs := st.logs[t := Log(st, t) + [e]]) }

  function Record(st: Store, e: Event): Store { st.(trace := st.trace + [e]) }

  function Settle(st: Store, t: Topic, offset: nat, o: Outcome): Store { st.(outcomes := st.outcomes[(t, offset) := o]) }

  function Move(st: Store, copy: nat, p: Place): Store {
    if copy < |st.copies| then st.(copies := st.copies[copy := st.copies[copy].(place := p)]) else st
  }

  function WorkTopic(n: Notice): Topic { Work(n.channel, n.priority) }

  /** `Producer.Publish`: a new copy of the message on its channel and priority topic. */
  function Publish(st: Store, m: Msg): Store {
    var t := WorkTopic(m.n);
    var offset := |Log(st, t)|;
    Append(st, t, Entry(Some(m), |st.copies|, st.now, None))
      .(copies := st.copies + [CopyRecord(m, t, offset, Unread(t, offset, m.retryCount))])
  }

  // ----- topic consumers

  /**
   Where a consumer stands inside one round of its loop. `AwaitTime` and `RetryLimiter` occur on the retry topic
   only; the handler proper starts at `Limiter` and has returned at `CommitOffset`. `NilLimiter` is the dereference
   of a limiter that the retry consumer's table does not hold.
   */
  datatype Pc =
    | AwaitTime | RetryLimiter | Limiter | MarkProcessing | Deliver | MarkDelivered
    | CountFailure | MarkFailed | ToDeadLetter | ToRetry | CommitOffset | NilLimiter

  datatype Activity =
    | Idle
    | Busy(pc: Pc, offset: nat, msg: Msg, copy: nat)
    | Skipping(offset: nat)

  /** `pos` is the reader's volatile position, `committed` the stored offset it restarts from. */
  datatype Consumer = Consumer(pos: nat, committed: nat, act: Activity)

  function LimiterChannel(t: Topic, m: Msg): Channel { if t.Work? then t.channel else m.n.channel }

  /** The handler returns an error: the copy is gone, since the offset is committed all the same. */
  function GiveUp(st: Store, t: Topic, h: Activity): (Store, Activity)
    requires h.Busy?
  {
    (Move(Settle(st, t, h.offset, HandlerError), h.copy, Lost(t, h.offset)).(runs := st.runs + 1), h.(pc := CommitOffset))
  }

  /** One call of `processNotification`, `handleFailure` or the retry consumer's closure. */
  function HandlerStep(cfg: Config, st: Store, t: Topic, h: Activity, ok: bool, jitter: real): (Store, Activity)
    requires h.Busy? && h.pc != CommitOffset && h.pc != NilLimiter
    requires IsJitter(jitter)
  {
    match h.pc
    case AwaitTime => (st, h.(pc := RetryLimiter))
    case RetryLimiter =>
      if !KnownChannel(h.msg.n.channel) then (st, h.(pc := NilLimiter))
      else if !ok then GiveUp(st, t, h)
      else (Record(st, Admitted(t, LimiterChannel(t, h.msg), st.now)), h.(pc := Limiter))
    case Limiter =>
      if !ok then GiveUp(st, t, h)
      else (Record(st, Admitted(t, LimiterChannel(t, h.msg), st.now)), h.(pc := MarkProcessing))
    case MarkProcessing => (MarkStarted(UpdateStatus(st, h.msg.n.id, Processing, ok), h.msg.n.id, ok), h.(pc := Deliver))
    case Deliver =>
      var sent := Record(st, Sent(t, LimiterChannel(t, h.msg), h.offset, h.copy, h.msg, ok, st.now));
      if ok then (Settle(sent, t, h.offset, Accepted(|st.trace|)), h.(pc := MarkDelivered))
      else (sent, h.(pc := CountFailure))
    case MarkDelivered =>
      (Move(UpdateStatus(st, h.msg.n.id, Delivered, ok), h.copy, Arrived).(runs := st.runs + 1), h.(pc := CommitOffset))
    case CountFailure =>
      var next := if h.msg.retryCount + 1 >= cfg.maxRetries then MarkFailed else ToRetry;
      (IncrementRetry(st, h.msg.n.id, ok), h.(pc := next, msg := h.msg.(retryCount := h.msg.retryCount + 1)))
    case MarkFailed => (UpdateStatus(st, h.msg.n.id, Failed, ok), h.(pc := ToDeadLetter))
    case ToDeadLetter => if !ok then GiveUp(st, t, h) else (PublishDeadLetter(st, t, h), h.(pc := CommitOffset))
    case ToRetry => if !ok then GiveUp(st, t, h) else (PublishRetry(cfg, st, t, h, jitter), h.(pc := CommitOffset))
  }

  function MarkStarted(st: Store, id: nat, ok: bool): Store {
    if ok && id in st.rows then st.(started := st.started + {id}) else st
  }

  function PublishDeadLetter(st: Store, t: Topic, h: Activity): Store
    requires h.Busy?
  {
    var offset := |Log(st, DeadLetter)|;
    var appended := Append(st, DeadLetter, Entry(Some(h.msg), h.copy, st.now, None));
    Move(Settle(appended, t, h.offset, DeadLettered(offset)), h.copy, InDeadLetter(offset)).(runs := st.runs + 1)
  }

  function RetryAt(cfg: Config, now: int, attempt: nat, jitter: real): int
    requires IsJitter(jitter)
  {
    if attempt == 0 then now else WholeSeconds(now + RetryDelay(cfg.baseDelay, attempt, jitter))
  }

  function PublishRetryAt(st: Store, t: Topic, h: Activity, at: int): Store
    requires h.Busy?
  {
    var offset := |Log(st, Retry)|;
    var appended := Append(st, Retry, Entry(Some(h.msg), h.copy, st.now, Some(at)));
    Move(Settle(appended, t, h.offset, Forwarded(offset)), h.copy, Unread(Retry, offset, h.msg.retryCount)).(runs := st.runs + 1)
  }

  function PublishRetry(cfg: Config, st: Store, t: Topic, h: Activity, jitter: real): Store
    requires h.Busy? && IsJitter(jitter)
  {
    PublishRetryAt(st, t, h, RetryAt(cfg, st.now, h.msg.retryCount, jitter))
  }

  /** FetchMessage: hand the next record to the handler, or skip it when its body does not parse. */
  function FetchStep(st: Store, t: Topic, c: Consumer): (Store, Consumer)
    requires c.act.Idle? && c.pos < |Log(st, t)|
  {
    var e := Log(st, t)[c.pos];
    if e.msg.None? then
      (Settle(st, t, c.pos, Unparsable), c.(pos := c.pos + 1, act := Skipping(c.pos)))
    else
      var pc := if t == Retry then AwaitTime else Limiter;
      (Move(st, e.copy, Held(t, e.msg.value.retryCount)),
       c.(pos := c.pos + 1, act := Busy(pc, c.pos, e.msg.value, e.copy)))
  }

  /** A crash. A Send that failed and was not yet counted will never be. */
  function Interrupt(st: Store, act: Activity): Store {
    if act.Busy? && act.pc == CountFailure then Disturb(st, act.msg.n.id) else st
  }

  /** CommitMessages: a failure is logged and the loop goes on. */
  function CommitStep(c: Consumer, ok: bool): Consumer
    requires c.act.Skipping? || c.act.Busy?
  {
    c.(committed := if ok then c.act.offset + 1 else c.committed, act := Idle)
  }

  predicate WaitedFor(e: Entry, at: int) { e.retryAfter.Some? ==> e.retryAfter.value <= at }

  predicate TimeReached(st: Store, t: Topic, offset: nat) { offset < |Log(st, t)| && WaitedFor(Log(st, t)[offset], st.now) }

  predicate ConsumerReady(st: Store, t: Topic, c: Consumer) {
    c.act.Skipping? || (c.act.Busy? && c.act.pc != NilLimiter && (c.act.pc == AwaitTime ==> TimeReached(st, t, c.act.offset)))
  }

  function ConsumerStep(cfg: Config, st: Store, t: Topic, c: Consumer, ok: bool, jitter: real): (Store, Consumer)
    requires ConsumerReady(st, t, c) && IsJitter(jitter)
  {
    if c.act.Skipping? || c.act.pc == CommitOffset then (st, CommitStep(c, ok))
    else
      var (st', h) := HandlerStep(cfg, st, t, c.act, ok, jitter);
      (st', c.(act := h))
  }

  // ----- API calls

  datatype CreatePc = Insert | CheckSchedule | MarkQueued | Enqueue | RollBack

  datatype BatchPc = InsertAll | EnqueueNext | MarkNext

  datatype Call =
    | Create(cpc: CreatePc, n: Notice)
    | Batch(bpc: BatchPc, ns: seq<Notice>, next: nat)
    | Cancel(id: nat, checked: bool)
    | Finished(error: Option<Error>)

  /** `Create` of the service, one repository or queue call at a time. */
  function CreateStep(st: Store, pc: CreatePc, n: Notice, ok: bool): (Store, Call) {
    match pc
    case Insert =>
      if !ok then (st, Finished(Some(StoreFailure)))
      else if !Insertable(st, n) then (st, Finished(Some(DuplicateKey)))
      else (InsertRow(st, n), Create(CheckSchedule, n))
    case CheckSchedule =>
      if !DueBy(n, st.now) then (Defer(st, n.id), Finished(None)) else (st, Create(MarkQueued, n))
    case MarkQueued =>
      (UpdateStatus(st, n.id, Queued, ok), if ok && n.id in st.rows then Create(Enqueue, n) else Finished(Some(StoreFailure)))
    case Enqueue => if ok then (Publish(st, Msg(n, 0)), Finished(None)) else (st, Create(RollBack, n))
    case RollBack => (UpdateStatus(st, n.id, Pending, ok), Finished(Some(QueueFailure)))
  }

  function NextInBatch(ns: seq<Notice>, i: nat): Call { if i < |ns| then Batch(EnqueueNext, ns, i) else Finished(None) }

  /** `CreateBatch`: one all-or-nothing insert, then publish and mark queued, row by row. */
  function BatchStep(st: Store, pc: BatchPc, ns: seq<Notice>, i: nat, ok: bool): (Store, Call)
    requires pc != InsertAll ==> i < |ns|
  {
    match pc
    case InsertAll =>
      if !ok && ns != [] then (st, Finished(Some(StoreFailure)))
      else if !BatchInsertable(st, ns) then (st, Finished(Some(DuplicateKey)))
      else (InsertRows(st, ns), NextInBatch(ns, 0))
    case EnqueueNext =>
      if ok then (Publish(st, Msg(ns[i], 0)), Batch(MarkNext, ns, i)) else (st, NextInBatch(ns, i + 1))
    case MarkNext => (UpdateStatus(st, ns[i].id, Queued, ok), NextInBatch(ns, i + 1))
  }

  /** `UPDATE ... SET status = cancelled ... AND status IN (pending, queued)`. */
  function GuardedCancel(st: Store, id: nat): Store {
    if id in st.rows && IsCancellable(st.rows[id].status)
    then st.(rows := st.rows[id := WithStatus(st.rows[id], Cancelled)]) else st
  }

  /** `Cancel`: read the status, and then try the guarded update. */
  function CancelStep(st: Store, id: nat, checked: bool, ok: bool): (Store, Call) {
    if !ok then (st, Finished(Some(StoreFailure)))
    else if !checked then
      if id !in st.rows then (st, Finished(Some(NotFound)))
      else if !IsCancellable(st.rows[id].status) then (st, Finished(Some(NotCancellable)))
      else (st, Cancel(id, true))
    else if id in st.rows && IsCancellable(st.rows[id].status) then (GuardedCancel(st, id), Finished(None))
    else (st, Finished(Some(NotCancellable)))
  }

  predicate CallReady(c: Call) { !c.Finished? && (c.Batch? && c.bpc != InsertAll ==> c.next < |c.ns|) }

  function CallStep(st: Store, c: Call, ok: bool): (Store, Call)
    requires CallReady(c)
  {
    match c
    case Create(pc, n) => CreateStep(st, pc, n, ok)
    case Batch(pc, ns, i) => BatchStep(st, pc, ns, i, ok)
    case Cancel(id, checked) => CancelStep(st, id, checked, ok)
  }

  /** The ids a call created rows for, or is about to. */
  function CallIds(c: Call): set<nat> {
    match c
    case Create(_, n) => {n.id}
    case Batch(_, ns, _) => set i | 0 <= i < |ns| :: ns[i].id
    case _ => {}
  }

  /** What the request handler and the service check before they store anything. */
  function Accept(req: Request): Result<(Channel, Priority)> {
    match ParseChannel(req.channel)
    case Err(e) => Err(e)
    case Ok(c) =>
      match ParsePriority(req.priority)
      case Err(e) => Err(e)
      case Ok(p) =>
        match Validate(req.recipient, c, req.content)
        case Some(e) => Err(e)
        case None => Ok((c, p))
  }

  function NoticeOf(req: Request, id: nat, batchId: Option<nat>, content: string): Notice
    requires Accept(req).Ok?
  {
    var (c, p) := Accept(req).value;
    Notice(id, batchId, req.key, req.recipient, c, content, p, if batchId.Some? then None else req.scheduledAt)
  }

  function NoticesOf(reqs: seq<Request>, id: nat, batchId: nat): (ns: seq<Notice>)
    requires forall r :: r in reqs ==> Accept(r).Ok?
    ensures |ns| == |reqs|
    ensures forall i :: 0 <= i < |ns| ==> ns[i] == NoticeOf(reqs[i], id + i, Some(batchId), reqs[i].content)
  {
    seq(|reqs|, i requires 0 <= i < |reqs| => NoticeOf(reqs[i], id + i, Some(batchId), reqs[i].content))
  }

  // ----- scheduler passes

  /** The rows one pass fetched, and how far it has come with them. */
  datatype Pass = Pass(items: seq<Msg>, next: nat, marking: bool)

  predicate IsDue(st: Store, id: nat) {
    id in st.rows && st.rows[id].status == Pending && st.rows[id].n.scheduledAt.Some? && DueBy(st.rows[id].n, st.now)
  }

  /** `GetDueScheduled` returns every due row once, oldest schedule first. */
  predicate IsDueList(st: Store, ids: seq<nat>) {
    && (forall id :: id in ids ==> IsDue(st, id))
    && (forall id :: id in st.rows && IsDue(st, id) ==> id in ids)
    && (forall i, j :: 0 <= i < j < |ids| ==> ids[i] != ids[j])
    && (forall i, j :: 0 <= i < j < |ids| && IsDue(st, ids[i]) && IsDue(st, ids[j]) ==>
          st.rows[ids[i]].n.scheduledAt.value <= st.rows[ids[j]].n.scheduledAt.value)
  }

  function DueMessages(st: Store, ids: seq<nat>): (ms: seq<Msg>)
    requires forall id :: id in ids ==> id in st.rows
    ensures |ms| == |ids|
    ensures forall i :: 0 <= i < |ids| ==> ms[i] == Msg(st.rows[ids[i]].n, st.rows[ids[i]].retryCount)
  {
    seq(|ids|, i requires 0 <= i < |ids| => Msg(st.rows[ids[i]].n, st.rows[ids[i]].retryCount))
  }

  function PassStep(st: Store, p: Pass, ok: bool): (Store, Pass)
    requires p.next < |p.items|
  {
    var m := p.items[p.next];
    if p.marking then (UpdateStatus(st, m.n.id, Queued, ok), Pass(p.items, p.next + 1, false))
    else if ok then (Publish(st, m), p.(marking := true))
    else (st, p.(next := p.next + 1))
  }

  // ----- the machine

  datatype State = State(
    st: Store, consumers: map<Topic, Consumer>, calls: map<nat, Call>, passes: map<nat, Pass>,
    nextId: nat, redelivered: bool)

  datatype Action =
    | Fetch(t: Topic)
    | Proceed(t: Topic, ok: bool, jitter: real)
    | Crash(t: Topic)
    | Junk(t: Topic)
    | Tick(d: nat)
    | StartCreate(call: nat, req: Request, content: string)
    | StartBatch(call: nat, reqs: seq<Request>, batchId: nat)
    | StartCancel(call: nat, id: nat)
    | StepCall(call: nat, ok: bool)
    | KillCall(call: nat)
    | StartPass(pass: nat, ids: seq<nat>)
    | StepPass(pass: nat, ok: bool)
    | KillPass(pass: nat)

  /** The nine work topics and the retry topic, each read by one consumer. */
  const CONSUMED_TOPICS: set<Topic> :=
    (set c, p | c in {SMS, Email, Push} && p in {High, Normal, Low} :: Work(c, p)) + {Retry}

  function Init(): State {
    State(Store(map[], map[], 0, [], [], map[], {}, {}, {}, {}, 0),
          map t | t in CONSUMED_TOPICS :: Consumer(0, 0, Idle), map[], map[], 0, false)
  }

  ghost predicate Enabled(s: State, a: Action) {
    match a
    case Fetch(t) => t in s.consumers && s.consumers[t].act.Idle? && s.consumers[t].pos < |Log(s.st, t)|
    case Proceed(t, _, j) => t in s.consumers && ConsumerReady(s.st, t, s.consumers[t]) && IsJitter(j)
    case Crash(t) => t in s.consumers
    case Junk(t) => t in s.consumers
    case Tick(_) => true
    case StartCreate(c, req, content) =>
      c !in s.calls && Accept(req).Ok? && Template.ResolvesTo(req.content, req.vars, content)
    case StartBatch(c, reqs, _) => c !in s.calls && |reqs| <= MAX_BATCH_SIZE && forall r :: r in reqs ==> Accept(r).Ok?
    case StartCancel(c, _) => c !in s.calls
    case StepCall(c, _) => c in s.calls && CallReady(s.calls[c])
    case KillCall(c) => c in s.calls
    case StartPass(p, ids) => p !in s.passes && IsDueList(s.st, ids)
    case StepPass(p, _) => p in s.passes && s.passes[p].next < |s.passes[p].items|
    case KillPass(p) => p in s.passes
  }

  function SetConsumer(s: State, t: Topic, r: (Store, Consumer)): State {
    s.(st := r.0, consumers := s.consumers[t := r.1])
  }

  ghost function Step(cfg: Config, s: State, a: Action): State
    requires Enabled(s, a)
  {
    match a
    case Fetch(t) => SetConsumer(s, t, FetchStep(s.st, t, s.consumers[t]))
    case Proceed(t, ok, j) => SetConsumer(s, t, ConsumerStep(cfg, s.st, t, s.consumers[t], ok, j))
    case Crash(t) =>
      var c := s.consumers[t];
      s.(st := Interrupt(s.st, c.act), consumers := s.consumers[t := Consumer(c.committed, c.committed, Idle)],
         redelivered := s.redelivered || c.committed < c.pos)
    case Junk(t) => s.(st := Append(s.st, t, Entry(None, 0, s.st.now, None)))
    case Tick(d) => s.(st := s.st.(now := s.st.now + d))
    case StartCreate(c, req, content) =>
      s.(calls := s.calls[c := Create(Insert, NoticeOf(req, s.nextId, None, content))], nextId := s.nextId + 1)
    case StartBatch(c, reqs, batchId) =>
      s.(calls := s.calls[c := Batch(InsertAll, NoticesOf(reqs, s.nextId, batchId), 0)], nextId := s.nextId + |reqs|)
    case StartCancel(c, id) => s.(calls := s.calls[c := Cancel(id, false)])
    case StepCall(c, ok) =>
      var (st', call') := CallStep(s.st, s.calls[c], ok);
      s.(st := st', calls := s.calls[c := call'])
    case KillCall(c) =>
      s.(st := s.st.(disturbed := s.st.disturbed + CallIds(s.calls[c])), calls := s.calls - {c})
    case StartPass(p, ids) => s.(passes := s.passes[p := Pass(DueMessages(s.st, ids), 0, false)])
    case StepPass(p, ok) =>
      var (st', p') := PassStep(s.st, s.passes[p], ok);
      s.(st := st', passes := s.passes[p := p'])
    case KillPass(p) => s.(passes := s.passes - {p})
  }

  ghost predicate Legal(cfg: Config, s: State, acts: seq<Action>)
    decreases |acts|, 0
  {
    acts != [] ==>
      var n := |acts| - 1;
      Legal(cfg, s, acts[..n]) && Enabled(Run(cfg, s, acts[..n]), acts[n])
  }

  ghost function Run(cfg: Config, s: State, acts: seq<Action>): State
    requires Legal(cfg, s, acts)
    decreases |acts|, 1
  {
    if acts == [] then s else Step(cfg, Run(cfg, s, acts[..|acts| - 1]), acts[|acts| - 1])
  }

  ghost predicate Reaches(cfg: Config, s: State, s': State) {
    exists acts :: Legal(cfg, s, acts) && Run(cfg, s, acts) == s'
  }

  ghost predicate Reachable(cfg: Config, s: State) { Reaches(cfg, Init(), s) }
}
