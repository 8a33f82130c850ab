/**
 The whole machine keeps its invariant in every run, and what that gives for every reachable state.
 */
module Pipeline {
  import opened Domain
  import opened Protocol
  import opened Safety

  // ----- API calls and scheduler passes

  predicate NoticeStored(st: Store, n: Notice) { n.id in st.rows && st.rows[n.id].n == n }

  ghost predicate CallInv(st: Store, c: Call) {
    match c
    case Create(pc, n) =>
      && Known(n) && n.batchId.None? && (pc != Insert ==> NoticeStored(st, n))
      && (pc == MarkQueued || pc == Enqueue || pc == RollBack ==> DueBy(n, st.now))
    case Batch(pc, ns, i) =>
      && (forall j :: 0 <= j < |ns| ==> Known(ns[j]) && ns[j].scheduledAt.None? && ns[j].batchId.Some?)
      && (pc != InsertAll ==> i < |ns| && forall j :: 0 <= j < |ns| ==> NoticeStored(st, ns[j]))
    case _ => true
  }

  /** A pass holds messages of rows whose schedule had been reached when it fetched them. */
  ghost predicate PassInv(st: Store, p: Pass) {
    && p.next <= |p.items| && (p.marking ==> p.next < |p.items|)
    && forall j :: 0 <= j < |p.items| ==>
         MsgSound(st, p.items[j]) && p.items[j].n.scheduledAt.Some? && DueBy(p.items[j].n, st.now)
  }

  lemma CallStays(a: Store, b: Store, c: Call)
    requires CallInv(a, c) && Extends(a, b)
    ensures CallInv(b, c)
  {}

  lemma PassStays(a: Store, b: Store, p: Pass)
    requires PassInv(a, p) && Extends(a, b)
    ensures PassInv(b, p)
  {}

  lemma {:induction false} InsertRowsKeeps(cfg: Config, st: Store, ns: seq<Notice>)
    requires StoreInv(cfg, st) && BatchInsertable(st, ns) && forall j :: 0 <= j < |ns| ==> Known(ns[j])
    ensures StoreInv(cfg, InsertRows(st, ns)) && Extends(st, InsertRows(st, ns))
    ensures forall j :: 0 <= j < |ns| ==> NoticeStored(InsertRows(st, ns), ns[j])
  {
    if ns != [] {
      var front, last := ns[..|ns| - 1], ns[|ns| - 1];
      InsertRowsKeeps(cfg, st, front);
      var mid := InsertRows(st, front);
      InsertKeeps(cfg, mid, last);
      ExtendsTransitive(st, mid, InsertRow(mid, last));
      forall j | 0 <= j < |ns|
        ensures NoticeStored(InsertRows(st, ns), ns[j])
      {
        if j < |front| { assert front[j] == ns[j] && NoticeStored(mid, ns[j]); }
      }
    }
  }

  /** A change of history sets alone. */
  lemma HistoryKeeps(cfg: Config, a: Store, b: Store)
    requires StoreInv(cfg, a) && b == a.(disturbed := b.disturbed, deferred := b.deferred)
    ensures StoreInv(cfg, b) && Extends(a, b)
  {
    RowsOf(cfg, a);
    hide StoreInv, Extends;
    QuietChange(cfg, a, b);
  }

  lemma CreateKeeps(cfg: Config, st: Store, pc: CreatePc, n: Notice, ok: bool)
    requires StoreInv(cfg, st) && CallInv(st, Create(pc, n))
    ensures var r := CreateStep(st, pc, n, ok); StoreInv(cfg, r.0) && Extends(st, r.0) && CallInv(r.0, r.1)
  {
    ExtendsItself(st);
    match pc {
      case Insert => if ok && Insertable(st, n) { InsertKeeps(cfg, st, n); }
      case CheckSchedule => HistoryKeeps(cfg, st, Defer(st, n.id));
      case MarkQueued => UpdateStatusKeeps(cfg, st, n.id, Queued, ok);
      case Enqueue => if ok { PublishKeeps(cfg, st, Msg(n, 0)); }
      case RollBack => UpdateStatusKeeps(cfg, st, n.id, Pending, ok);
    }
  }

  lemma BatchKeeps(cfg: Config, st: Store, pc: BatchPc, ns: seq<Notice>, i: nat, ok: bool)
    requires StoreInv(cfg, st) && CallInv(st, Batch(pc, ns, i))
    ensures var r := BatchStep(st, pc, ns, i, ok); StoreInv(cfg, r.0) && Extends(st, r.0) && CallInv(r.0, r.1)
  {
    ExtendsItself(st);
    match pc {
      case InsertAll => if ok && BatchInsertable(st, ns) { InsertRowsKeeps(cfg, st, ns); }
      case EnqueueNext =>
        assert NoticeStored(st, ns[i]);
        if ok { PublishKeeps(cfg, st, Msg(ns[i], 0)); }
      case MarkNext => UpdateStatusKeeps(cfg, st, ns[i].id, Queued, ok);
    }
  }

  lemma CancelKeeps(cfg: Config, st: Store, id: nat, checked: bool, ok: bool)
    requires StoreInv(cfg, st)
    ensures var r := CancelStep(st, id, checked, ok); StoreInv(cfg, r.0) && Extends(st, r.0) && CallInv(r.0, r.1)
  {
    ExtendsItself(st);
    hide StoreInv, Extends;
    GuardedCancelKeeps(cfg, st, id);
  }

  lemma CallKeeps(cfg: Config, st: Store, c: Call, ok: bool)
    requires StoreInv(cfg, st) && CallInv(st, c) && CallReady(c)
    ensures var r := CallStep(st, c, ok); StoreInv(cfg, r.0) && Extends(st, r.0) && CallInv(r.0, r.1)
  {
    match c
    case Create(pc, n) => CreateKeeps(cfg, st, pc, n, ok);
    case Batch(pc, ns, i) => BatchKeeps(cfg, st, pc, ns, i, ok);
    case Cancel(id, checked) => CancelKeeps(cfg, st, id, checked, ok);
  }

  lemma PassKeeps(cfg: Config, st: Store, p: Pass, ok: bool)
    requires StoreInv(cfg, st) && PassInv(st, p) && p.next < |p.items|
    ensures var r := PassStep(st, p, ok); StoreInv(cfg, r.0) && Extends(st, r.0) && PassInv(r.0, r.1)
  {
    ExtendsItself(st);
    var m := p.items[p.next];
    assert MsgSound(st, m);
    if p.marking { UpdateStatusKeeps(cfg, st, m.n.id, Queued, ok); } else if ok { PublishKeeps(cfg, st, m); }
  }

  // ----- the machine

  ghost predicate ConsumersInv(cfg: Config, s: State) {
    s.consumers.Keys == CONSUMED_TOPICS && forall t :: t in s.consumers ==> ConsumerInv(cfg, s.st, t, s.consumers[t])
  }

  ghost predicate CallsInv(s: State) { forall c :: c in s.calls ==> CallInv(s.st, s.calls[c]) }

  ghost predicate PassesInv(s: State) { forall p :: p in s.passes ==> PassInv(s.st, s.passes[p]) }

  ghost predicate Inv(cfg: Config, s: State) {
    StoreInv(cfg, s.st) && ConsumersInv(cfg, s) && CallsInv(s) && PassesInv(s)
  }

  lemma ConsumedTopics(t: Topic)
    ensures t in CONSUMED_TOPICS <==> Consumed(t)
  {}

  lemma InvInit(cfg: Config)
    ensures Inv(cfg, Init())
  {
    forall t
      ensures t in CONSUMED_TOPICS <==> Consumed(t)
    {
      ConsumedTopics(t);
    }
  }

  /** Stores that grew soundly keep every process that did not move. */
  lemma OthersKeep(cfg: Config, s: State, st: Store)
    requires Inv(cfg, s) && StoreInv(cfg, st) && Extends(s.st, st)
    ensures Inv(cfg, s.(st := st))
  {
    forall t | t in s.consumers
      ensures ConsumerInv(cfg, st, t, s.consumers[t])
    {
      ConsumerStays(cfg, s.st, st, t, s.consumers[t]);
    }
    forall c | c in s.calls
      ensures CallInv(st, s.calls[c])
    {
      CallStays(s.st, st, s.calls[c]);
    }
    forall p | p in s.passes
      ensures PassInv(st, s.passes[p])
    {
      PassStays(s.st, st, s.passes[p]);
    }
  }

  lemma ConsumerMoves(cfg: Config, s: State, t: Topic, r: (Store, Consumer))
    requires Inv(cfg, s) && t in s.consumers && StoreInv(cfg, r.0) && Extends(s.st, r.0) && ConsumerInv(cfg, r.0, t, r.1)
    ensures Inv(cfg, SetConsumer(s, t, r))
  {
    OthersKeep(cfg, s, r.0);
  }

  lemma WorkKeeps(cfg: Config, s: State, t: Topic, ok: bool, jitter: real)
    requires Inv(cfg, s) && Enabled(s, Proceed(t, ok, jitter))
    ensures Inv(cfg, Step(cfg, s, Proceed(t, ok, jitter))) && Extends(s.st, Step(cfg, s, Proceed(t, ok, jitter)).st)
  {
    var c := s.consumers[t];
    var r := ConsumerStep(cfg, s.st, t, c, ok, jitter);
    ExtendsItself(s.st);
    hide StoreInv, Extends, ConsumerInv, CallInv, PassInv, HandlerStep;
    if c.act.Busy? && c.act.pc != CommitOffset { HandlerKeeps(cfg, s.st, t, c, ok, jitter); } else { CommitKeeps(cfg, s.st, t, c, ok); }
    ConsumerMoves(cfg, s, t, r);
  }

  lemma EnvironmentKeeps(cfg: Config, s: State, a: Action)
    requires Inv(cfg, s) && Enabled(s, a) && (a.Junk? || a.Tick? || a.KillCall? || a.KillPass?)
    ensures Inv(cfg, Step(cfg, s, a)) && Extends(s.st, Step(cfg, s, a).st)
  {
    hide LogsSound, TraceSound, CopiesSound, OutcomesSound, ConsumerInv, CallInv, PassInv;
    var s' := Step(cfg, s, a);
    ExtendsItself(s.st);
    if a.Junk? { AppendKeeps(cfg, s.st, a.t, Entry(None, 0, s.st.now, None)); } else { QuietChange(cfg, s.st, s'.st); }
    OthersKeep(cfg, s, s'.st);
  }

  lemma StartKeeps(cfg: Config, s: State, a: Action)
    requires Inv(cfg, s) && Enabled(s, a) && (a.StartCreate? || a.StartBatch? || a.StartCancel? || a.StartPass?)
    ensures Inv(cfg, Step(cfg, s, a)) && Extends(s.st, Step(cfg, s, a).st)
  {
    hide StoreInv, ConsumerInv;
    ExtendsItself(s.st);
    if a.StartPass? { FetchedAreDue(cfg, s.st, a.ids); }
  }

  lemma FetchedAreDue(cfg: Config, st: Store, ids: seq<nat>)
    requires StoreInv(cfg, st) && IsDueList(st, ids)
    ensures PassInv(st, Pass(DueMessages(st, ids), 0, false))
  {
    forall j | 0 <= j < |ids|
      ensures IsDue(st, ids[j]) && DueMessages(st, ids)[j].n == st.rows[ids[j]].n
    {
      assert ids[j] in ids;
    }
  }

  lemma RestartKeeps(cfg: Config, st: Store, t: Topic, c: Consumer)
    requires ConsumerInv(cfg, st, t, c)
    ensures ConsumerInv(cfg, st, t, Consumer(c.committed, c.committed, Idle))
  {}

  lemma CrashKeeps(cfg: Config, s: State, t: Topic)
    requires Inv(cfg, s) && t in s.consumers
    ensures Inv(cfg, Step(cfg, s, Crash(t))) && Extends(s.st, Step(cfg, s, Crash(t)).st)
  {
    var c := s.consumers[t];
    var st := Interrupt(s.st, c.act);
    assert ConsumerInv(cfg, s.st, t, c);
    HistoryKeeps(cfg, s.st, st);
    ConsumerStays(cfg, s.st, st, t, c);
    RestartKeeps(cfg, st, t, c);
    hide StoreInv, Extends, ConsumerInv, CallInv, PassInv;
    ConsumerMoves(cfg, s, t, (st, Consumer(c.committed, c.committed, Idle)));
  }

  lemma ProcessKeeps(cfg: Config, s: State, a: Action)
    requires Inv(cfg, s) && Enabled(s, a) && (a.StepCall? || a.StepPass? || a.Fetch?)
    ensures Inv(cfg, Step(cfg, s, a)) && Extends(s.st, Step(cfg, s, a).st)
  {
    hide StoreInv, Extends, ConsumerInv, CallInv, PassInv, FetchStep, CallStep, PassStep;
    var st' := Step(cfg, s, a).st;
    match a {
      case StepCall(c, ok) => CallKeeps(cfg, s.st, s.calls[c], ok);
      case StepPass(p, ok) => PassKeeps(cfg, s.st, s.passes[p], ok);
      case Fetch(t) =>
        FetchKeeps(cfg, s.st, t, s.consumers[t]);
        ConsumerMoves(cfg, s, t, FetchStep(s.st, t, s.consumers[t]));
    }
    OthersKeep(cfg, s, st');
  }

  lemma InvStep(cfg: Config, s: State, a: Action)
    requires Inv(cfg, s) && Enabled(s, a)
    ensures Inv(cfg, Step(cfg, s, a)) && Extends(s.st, Step(cfg, s, a).st)
  {
    hide Inv, Extends, Step;
    match a {
      case Proceed(t, ok, j) => WorkKeeps(cfg, s, t, ok, j);
      case Crash(t) => CrashKeeps(cfg, s, t);
      case StartCreate(_, _, _) | StartBatch(_, _, _) | StartCancel(_, _) | StartPass(_, _) => StartKeeps(cfg, s, a);
      case Fetch(_) | StepCall(_, _) | StepPass(_, _) => ProcessKeeps(cfg, s, a);
      case Junk(_) | Tick(_) | KillCall(_) | KillPass(_) => EnvironmentKeeps(cfg, s, a);
    }
  }

  lemma {:induction false} InvRun(cfg: Config, s: State, acts: seq<Action>)
    requires Inv(cfg, s) && Legal(cfg, s, acts)
    ensures Inv(cfg, Run(cfg, s, acts)) && Extends(s.st, Run(cfg, s, acts).st)
    decreases |acts|
  {
    ExtendsItself(s.st);
    hide Inv, Extends, Step, Enabled;
    if acts != [] {
      var front, last := acts[..|acts| - 1], acts[|acts| - 1];
      InvRun(cfg, s, front);
      var mid := Run(cfg, s, front);
      InvStep(cfg, mid, last);
      ExtendsTransitive(s.st, mid.st, Step(cfg, mid, last).st);
    }
  }

  /** A run after a run is a run. */
  lemma {:induction false} RunAfterRun(cfg: Config, s: State, a: seq<Action>, b: seq<Action>)
    requires Legal(cfg, s, a) && Legal(cfg, Run(cfg, s, a), b)
    ensures Legal(cfg, s, a + b) && Run(cfg, s, a + b) == Run(cfg, Run(cfg, s, a), b)
    decreases |b|
  {
    hide Step, Enabled;
    if b == [] {
      assert a + b == a;
    } else {
      RunAfterRun(cfg, s, a, b[..|b| - 1]);
      assert (a + b)[..|a + b| - 1] == a + b[..|b| - 1];
    }
  }

  lemma ReachableAfter(cfg: Config, s: State, acts: seq<Action>)
    requires Reachable(cfg, s) && Legal(cfg, s, acts)
    ensures Reachable(cfg, Run(cfg, s, acts))
  {
    var pre :| Legal(cfg, Init(), pre) && Run(cfg, Init(), pre) == s;
    RunAfterRun(cfg, Init(), pre, acts);
  }

  lemma ReachableInv(cfg: Config, s: State)
    requires Reachable(cfg, s)
    ensures Inv(cfg, s)
  {
    var acts :| Legal(cfg, Init(), acts) && Run(cfg, Init(), acts) == s;
    InvInit(cfg);
    InvRun(cfg, Init(), acts);
  }

  // ----- what the steps outside the consumers do to the logs

  /** The message a step publishes as a new copy, if it does. */
  function Publishes(s: State, a: Action): Option<Msg> {
    match a
    case StepCall(c, ok) =>
      if !ok || c !in s.calls then None
      else (match s.calls[c]
            case Create(pc, n) => if pc == Enqueue then Some(Msg(n, 0)) else None
            case Batch(pc, ns, i) => if pc == EnqueueNext && i < |ns| then Some(Msg(ns[i], 0)) else None
            case _ => None)
    case StepPass(p, ok) =>
      if ok && p in s.passes && !s.passes[p].marking && s.passes[p].next < |s.passes[p].items|
      then Some(s.passes[p].items[s.passes[p].next]) else None
    case _ => None
  }

  predicate ConsumerAction(a: Action) { a.Fetch? || a.Proceed? || a.Crash? }

  predicate SameLogs(a: Store, b: Store) {
    b.logs == a.logs && b.copies == a.copies && b.trace == a.trace && b.outcomes == a.outcomes && b.runs == a.runs && b.started == a.started
  }

  lemma {:induction false} InsertRowsLogs(st: Store, ns: seq<Notice>)
    ensures SameLogs(st, InsertRows(st, ns))
  {
    if ns != [] { InsertRowsLogs(st, ns[..|ns| - 1]); }
  }

  lemma CallLogs(st: Store, c: Call, ok: bool)
    requires CallReady(c) && !(c.Create? && c.cpc == Enqueue && ok) && !(c.Batch? && c.bpc == EnqueueNext && ok)
    ensures SameLogs(st, CallStep(st, c, ok).0)
  {
    if c.Batch? { InsertRowsLogs(st, c.ns); }
    hide InsertRows;
  }

  /** A call or a pass publishes one message, which is sound and due, or leaves the logs alone. */
  predicate PublishesOrNothing(a: Store, b: Store, m: Option<Msg>) {
    match m
    case None => SameLogs(a, b)
    case Some(m) => b == Publish(a, m) && MsgSound(a, m) && Known(m.n) && DueBy(m.n, a.now)
  }

  lemma CallStepLogs(cfg: Config, s: State, c: nat, ok: bool)
    requires Inv(cfg, s) && Enabled(s, StepCall(c, ok))
    ensures PublishesOrNothing(s.st, Step(cfg, s, StepCall(c, ok)).st, Publishes(s, StepCall(c, ok)))
  {
    assert CallInv(s.st, s.calls[c]);
    if Publishes(s, StepCall(c, ok)).None? { CallLogs(s.st, s.calls[c], ok); hide CallStep; }
    hide StoreInv, ConsumersInv;
  }

  lemma PassStepLogs(cfg: Config, s: State, p: nat, ok: bool)
    requires Inv(cfg, s) && Enabled(s, StepPass(p, ok))
    ensures PublishesOrNothing(s.st, Step(cfg, s, StepPass(p, ok)).st, Publishes(s, StepPass(p, ok)))
  {
    assert PassInv(s.st, s.passes[p]);
    hide StoreInv, ConsumersInv, Publish;
  }

  /** Outside the consumers, a step publishes one message, appends junk, or leaves the logs alone. */
  lemma OtherStepLogs(cfg: Config, s: State, a: Action)
    requires Inv(cfg, s) && Enabled(s, a) && !ConsumerAction(a) && !a.Junk?
    ensures var s' := Step(cfg, s, a);
      && s'.consumers == s.consumers && s'.redelivered == s.redelivered
      && PublishesOrNothing(s.st, s'.st, Publishes(s, a))
  {
    if a.StepCall? { CallStepLogs(cfg, s, a.call, a.ok); }
    if a.StepPass? { PassStepLogs(cfg, s, a.pass, a.ok); }
    hide Inv, CallStep, PassStep, Publish, MsgSound, DueBy;
  }
}
