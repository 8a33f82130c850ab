/**
 Cancelling holds, in every continuation, exactly when nothing in the system still has a step to take for the
 notification: no record that a consumer will read, no list of a scheduler pass, no Create or CreateBatch call.
 */
module QuietCancel {
  import opened Domain
  import opened Backoff
  import opened Protocol
  import opened Safety
  import opened Pipeline
  import Fate
  import PublishOnce

  predicate IsFor(e: Entry, id: nat) { e.msg.Some? && e.msg.value.n.id == id }

  /** No consumer holds or will read again a record of the notification. */
  ghost predicate NoRecord(s: State, id: nat) {
    forall t, o :: t in s.consumers && s.consumers[t].committed <= o < |Log(s.st, t)| ==> !IsFor(Log(s.st, t)[o], id)
  }

  ghost predicate NoPass(s: State, id: nat) {
    forall p, j :: p in s.passes && s.passes[p].next <= j < |s.passes[p].items| ==> s.passes[p].items[j].n.id != id
  }

  /** A call that has still a step to take for the notification: a batch has passed the rows before its next one. */
  predicate StepsFor(c: Call, id: nat) {
    match c
    case Create(_, n) => n.id == id
    case Batch(pc, ns, i) => exists j :: 0 <= j < |ns| && (pc == InsertAll || i <= j) && ns[j].id == id
    case _ => false
  }

  /** No running Create or CreateBatch call has a step for it. Cancel calls may have. */
  ghost predicate NoCall(s: State, id: nat) { forall c :: c in s.calls ==> !StepsFor(s.calls[c], id) }

  /** No call and no pass has a step for the notification, and its status is none they would change. */
  ghost predicate Unasked(s: State, id: nat) { id in s.st.rows && !IsCancellable(s.st.rows[id].status) && NoPass(s, id) && NoCall(s, id) }

  ghost predicate Quiet(s: State, id: nat) {
    && id in s.st.rows && s.st.rows[id].status == Cancelled && id < s.nextId
    && NoRecord(s, id) && NoPass(s, id) && NoCall(s, id)
  }

  /** Between two stores nothing was appended, published or sent for the notification. */
  ghost predicate NothingFor(a: Store, b: Store, id: nat) {
    && (forall t, o :: |Log(a, t)| <= o < |Log(b, t)| ==> !IsFor(Log(b, t)[o], id))
    && (forall c :: |a.copies| <= c < |b.copies| ==> b.copies[c].first.n.id != id)
    && (forall k :: |a.trace| <= k < |b.trace| && b.trace[k].Sent? ==> b.trace[k].msg.n.id != id)
  }

  lemma NothingTransitive(a: Store, b: Store, c: Store, id: nat)
    requires Extends(a, b) && Extends(b, c) && NothingFor(a, b, id) && NothingFor(b, c, id)
    ensures NothingFor(a, c, id)
  {
    forall t, o | |Log(a, t)| <= o < |Log(c, t)|
      ensures !IsFor(Log(c, t)[o], id)
    {
      assert Log(b, t) <= Log(c, t);
    }
  }

  // ----- consumers

  /** A handler's call for another notification appends, sends and writes for that one. */
  lemma HandlerNothing(cfg: Config, st: Store, t: Topic, h: Activity, ok: bool, jitter: real, id: nat)
    requires h.Busy? && h.pc != CommitOffset && h.pc != NilLimiter && IsJitter(jitter) && h.msg.n.id != id
    ensures NothingFor(st, HandlerStep(cfg, st, t, h, ok, jitter).0, id)
  {
    var b := HandlerStep(cfg, st, t, h, ok, jitter).0;
    HandlerAppends(cfg, st, t, h, ok, jitter);
    HandlerEvents(cfg, st, t, h, ok, jitter);
    PublishOnce.HandlerFirsts(cfg, st, t, h, ok, jitter);
    hide HandlerStep;
    forall u, o | |Log(st, u)| <= o < |Log(b, u)|
      ensures !IsFor(Log(b, u)[o], id)
    {}
  }

  /** All that a handler's call appends is its own message. */
  lemma HandlerAppends(cfg: Config, st: Store, t: Topic, h: Activity, ok: bool, jitter: real)
    requires h.Busy? && h.pc != CommitOffset && h.pc != NilLimiter && IsJitter(jitter)
    ensures var b := HandlerStep(cfg, st, t, h, ok, jitter).0;
      forall u, o :: |Log(st, u)| <= o < |Log(b, u)| ==> Log(b, u)[o].msg == Some(h.msg)
  {
    hide RetryAt, LimiterChannel, WithStatus;
  }

  lemma HandlerEvents(cfg: Config, st: Store, t: Topic, h: Activity, ok: bool, jitter: real)
    requires h.Busy? && h.pc != CommitOffset && h.pc != NilLimiter && IsJitter(jitter)
    ensures var b := HandlerStep(cfg, st, t, h, ok, jitter).0;
      forall k :: |st.trace| <= k < |b.trace| && b.trace[k].Sent? ==> b.trace[k].msg == h.msg
  {
    hide RetryAt, LimiterChannel, WithStatus;
  }

  /** The row and everything about the notification outside the logs is as it was. */
  predicate Untouched(s: State, s': State, id: nat) {
    && id in s.st.rows && id in s'.st.rows && s'.st.rows[id] == s.st.rows[id]
    && s'.passes == s.passes && s'.calls == s.calls && s'.nextId == s.nextId
  }

  lemma StaysQuiet(s: State, s': State, id: nat)
    requires Quiet(s, id) && Untouched(s, s', id) && NoRecord(s', id)
    ensures Quiet(s', id)
  {}

  /** No handler is at work on the notification. */
  lemma HandlersAreOthers(cfg: Config, s: State, t: Topic, id: nat)
    requires Inv(cfg, s) && NoRecord(s, id) && t in s.consumers && s.consumers[t].act.Busy?
    ensures s.consumers[t].act.msg.n.id != id && s.consumers[t].act.msg.n.id in s.st.rows
  {
    var h := s.consumers[t].act;
    assert ConsumerInv(cfg, s.st, t, s.consumers[t]);
    HandlersEntry(cfg, s.st, t, h);
    assert !IsFor(Log(s.st, t)[h.offset], id);
    hide Inv, NoRecord;
  }

  lemma HandlerQuiet(cfg: Config, s: State, t: Topic, ok: bool, jitter: real, id: nat)
    requires Inv(cfg, s) && Quiet(s, id) && Enabled(s, Proceed(t, ok, jitter)) && s.consumers[t].act.Busy? && s.consumers[t].act.pc != CommitOffset
    ensures var s' := Step(cfg, s, Proceed(t, ok, jitter)); Untouched(s, s', id) && NothingFor(s.st, s'.st, id)
  {
    hide Inv, NoRecord, NoPass, NoCall, NothingFor, HandlerStep;
    HandlersAreOthers(cfg, s, t, id);
    Fate.HandlerStatus(cfg, s.st, t, s.consumers[t].act, ok, jitter);
    HandlerNothing(cfg, s.st, t, s.consumers[t].act, ok, jitter, id);
    assert Fate.SameFor(s.st, Step(cfg, s, Proceed(t, ok, jitter)).st, id);
  }

  lemma WorkQuiet(cfg: Config, s: State, t: Topic, ok: bool, jitter: real, id: nat)
    requires Inv(cfg, s) && Quiet(s, id) && Enabled(s, Proceed(t, ok, jitter))
    ensures var s' := Step(cfg, s, Proceed(t, ok, jitter)); Quiet(s', id) && NothingFor(s.st, s'.st, id)
  {
    var c := s.consumers[t];
    var s' := Step(cfg, s, Proceed(t, ok, jitter));
    InvStep(cfg, s, Proceed(t, ok, jitter));
    ConsumersForward(cfg, s, Proceed(t, ok, jitter));
    QuietParts(s, id);
    hide Inv, Quiet, Extends, NothingFor, Forward, NoRecord, NoPass, NoCall, HandlerStep;
    if c.act.Busy? && c.act.pc != CommitOffset {
      HandlerQuiet(cfg, s, t, ok, jitter, id);
    } else {
      SameLogsNothing(s.st, s'.st, id);
    }
    RecordsStayAway(s, s', id);
    StaysQuiet(s, s', id);
  }

  lemma QuietParts(s: State, id: nat)
    requires Quiet(s, id)
    ensures NoRecord(s, id) && NoPass(s, id) && NoCall(s, id) && id in s.st.rows
  {}

  /** Committed offsets never go back. */
  ghost predicate Forward(a: map<Topic, Consumer>, b: map<Topic, Consumer>) {
    forall t :: t in b ==> t in a && a[t].committed <= b[t].committed
  }

  lemma ConsumersForward(cfg: Config, s: State, a: Action)
    requires ConsumersInv(cfg, s) && Enabled(s, a)
    ensures Forward(s.consumers, Step(cfg, s, a).consumers)
  {
    if ConsumerAction(a) { assert ConsumerInv(cfg, s.st, a.t, s.consumers[a.t]); }
    hide HandlerStep, CallStep, PassStep, HandlerSound, Waited;
  }

  /** Consumers only move forward, and nothing is appended for the notification. */
  lemma RecordsStayAway(s: State, s': State, id: nat)
    requires NoRecord(s, id) && NothingFor(s.st, s'.st, id) && Extends(s.st, s'.st) && Forward(s.consumers, s'.consumers)
    ensures NoRecord(s', id)
  {
    forall t, o | t in s'.consumers && s'.consumers[t].committed <= o < |Log(s'.st, t)|
      ensures !IsFor(Log(s'.st, t)[o], id)
    {
      assert Log(s.st, t) <= Log(s'.st, t);
      if o < |Log(s.st, t)| { assert !IsFor(Log(s.st, t)[o], id); }
    }
  }

  /** Fetching and restarting move positions and places only. */
  lemma RestartEffect(cfg: Config, s: State, a: Action)
    requires Enabled(s, a) && (a.Fetch? || a.Crash?)
    ensures var s' := Step(cfg, s, a);
      && s'.st.rows == s.st.rows && s'.st.logs == s.st.logs && s'.st.trace == s.st.trace
      && |s'.st.copies| == |s.st.copies| && s'.passes == s.passes && s'.calls == s.calls && s'.nextId == s.nextId
  {}

  lemma RestartQuiet(cfg: Config, s: State, a: Action, id: nat)
    requires Inv(cfg, s) && Quiet(s, id) && Enabled(s, a) && (a.Fetch? || a.Crash?)
    ensures var s' := Step(cfg, s, a); Quiet(s', id) && NothingFor(s.st, s'.st, id)
  {
    var s' := Step(cfg, s, a);
    InvStep(cfg, s, a);
    ConsumersForward(cfg, s, a);
    RestartEffect(cfg, s, a);
    QuietParts(s, id);
    hide Inv, Quiet, Extends, NothingFor, Forward, NoRecord, NoPass, NoCall, Step, Enabled;
    NoLogChange(s.st, s'.st, id);
    RecordsStayAway(s, s', id);
    StaysQuiet(s, s', id);
  }

  lemma NoLogChange(a: Store, b: Store, id: nat)
    requires a.logs == b.logs && a.trace == b.trace && |a.copies| == |b.copies|
    ensures NothingFor(a, b, id)
  {
    assert forall t :: Log(b, t) == Log(a, t);
  }

  // ----- the other steps

  lemma PublishNothing(st: Store, m: Msg, id: nat)
    requires m.n.id != id
    ensures NothingFor(st, Publish(st, m), id)
  {
    var b := Publish(st, m);
    assert b.copies == st.copies + [b.copies[|st.copies|]];
    assert forall t :: Log(b, t) == if t == WorkTopic(m.n) then Log(st, t) + [Entry(Some(m), |st.copies|, st.now, None)] else Log(st, t);
  }

  lemma SameLogsNothing(a: Store, b: Store, id: nat)
    requires SameLogs(a, b)
    ensures NothingFor(a, b, id)
  {
    NoLogChange(a, b, id);
  }

  /** Calls and passes that are about other notifications, or cancel this one again. */
  lemma ProcessQuiet(cfg: Config, s: State, a: Action, id: nat)
    requires Inv(cfg, s) && Quiet(s, id) && Enabled(s, a) && (a.StepCall? || a.StepPass?)
    ensures var s' := Step(cfg, s, a); Quiet(s', id) && NothingFor(s.st, s'.st, id)
  {
    var s' := Step(cfg, s, a);
    InvStep(cfg, s, a);
    OtherStepLogs(cfg, s, a);
    RowUntouched(s, cfg, a, id);
    hide Inv, Publish, Step, Enabled, NothingFor, Extends, Publishes, NoRecord, NoCall, NoPass;
    if Publishes(s, a).Some? {
      PublishesOther(s, a, id);
      PublishNothing(s.st, Publishes(s, a).value, id);
    } else {
      SameLogsNothing(s.st, s'.st, id);
    }
    RecordsStayAway(s, s', id);
  }

  lemma PublishesOther(s: State, a: Action, id: nat)
    requires NoPass(s, id) && NoCall(s, id) && (a.StepCall? || a.StepPass?) && Publishes(s, a).Some?
    ensures Publishes(s, a).value.n.id != id
  {
    if a.StepCall? {
      var c := s.calls[a.call];
      assert !StepsFor(c, id);
    }
  }

  lemma RowUntouched(s: State, cfg: Config, a: Action, id: nat)
    requires Unasked(s, id) && Enabled(s, a) && (a.StepCall? || a.StepPass?)
    ensures var s' := Step(cfg, s, a);
      id in s'.st.rows && s'.st.rows[id] == s.st.rows[id] && NoPass(s', id) && NoCall(s', id) && s'.nextId == s.nextId
  {
    if a.StepCall? { CallElsewhere(s.st, s.calls[a.call], a.ok, id); }
    hide CallStep, NoRecord, Publish;
  }

  /** A call with no step for the notification, or one that cancels it again. */
  lemma CallElsewhere(st: Store, c: Call, ok: bool, id: nat)
    requires CallReady(c) && !StepsFor(c, id) && id in st.rows && !IsCancellable(st.rows[id].status)
    ensures var (b, c') := CallStep(st, c, ok); id in b.rows && b.rows[id] == st.rows[id] && !StepsFor(c', id)
  {
    if c.Create? { Fate.CreateElsewhere(st, c.cpc, c.n, ok, id); }
    if c.Batch? { BatchPasses(st, c.bpc, c.ns, c.next, ok, id); }
    hide CreateStep, BatchStep;
  }

  lemma BatchPasses(st: Store, pc: BatchPc, ns: seq<Notice>, i: nat, ok: bool, id: nat)
    requires (pc != InsertAll ==> i < |ns|) && !StepsFor(Batch(pc, ns, i), id) && id in st.rows
    ensures var (b, c') := BatchStep(st, pc, ns, i, ok); id in b.rows && b.rows[id] == st.rows[id] && !StepsFor(c', id)
  {
    if pc == InsertAll {
      Fate.BatchElsewhere(st, pc, ns, i, ok, id);
      assert Fate.SameFor(st, BatchStep(st, pc, ns, i, ok).0, id);
      hide InsertRows;
    }
    hide Publish;
  }

  lemma StartQuiet(cfg: Config, s: State, a: Action, id: nat)
    requires Inv(cfg, s) && Quiet(s, id) && Enabled(s, a) && !ConsumerAction(a) && !a.StepCall? && !a.StepPass?
    ensures var s' := Step(cfg, s, a); Quiet(s', id) && NothingFor(s.st, s'.st, id)
  {
    var s' := Step(cfg, s, a);
    InvStep(cfg, s, a);
    if a.StartPass? { NotDue(cfg, s.st, a.ids, id); }
    NewProcesses(cfg, s, a, id);
    StartNothing(cfg, s, a, id);
    hide Inv, Step, Enabled, Extends, NothingFor, NoRecord, NoPass, NoCall;
    RecordsStayAway(s, s', id);
  }

  lemma StartNothing(cfg: Config, s: State, a: Action, id: nat)
    requires Enabled(s, a) && !ConsumerAction(a) && !a.StepCall? && !a.StepPass?
    ensures var s' := Step(cfg, s, a); NothingFor(s.st, s'.st, id) && s'.consumers == s.consumers
  {
    hide Accept, IsDueList, NothingFor;
    if a.Junk? { JunkNothing(s.st, a.t, id); } else { NoLogChange(s.st, Step(cfg, s, a).st, id); }
  }

  lemma JunkNothing(st: Store, t: Topic, id: nat)
    ensures NothingFor(st, Append(st, t, Entry(None, 0, st.now, None)), id)
  {
    assert forall u :: Log(Append(st, t, Entry(None, 0, st.now, None)), u) == if u == t then Log(st, t) + [Entry(None, 0, st.now, None)] else Log(st, u);
  }

  /** New calls are about new ids, and a new pass does not list the notification. */
  lemma NewProcesses(cfg: Config, s: State, a: Action, id: nat)
    requires Unasked(s, id) && id < s.nextId && Enabled(s, a) && !ConsumerAction(a) && !a.StepCall? && !a.StepPass?
    requires a.StartPass? ==> forall j :: 0 <= j < |a.ids| ==> DueMessages(s.st, a.ids)[j].n.id != id
    ensures var s' := Step(cfg, s, a);
      NoPass(s', id) && NoCall(s', id) && id in s'.st.rows && s'.st.rows[id] == s.st.rows[id] && id < s'.nextId
  {
    hide NoRecord, Accept, IsDueList;
  }

  /** A row that is not pending is not due. */
  lemma NotDue(cfg: Config, st: Store, ids: seq<nat>, id: nat)
    requires StoreInv(cfg, st) && IsDueList(st, ids) && id in st.rows && !IsCancellable(st.rows[id].status)
    ensures forall j :: 0 <= j < |ids| ==> DueMessages(st, ids)[j].n.id != id
  {
    forall j | 0 <= j < |ids|
      ensures DueMessages(st, ids)[j].n.id != id
    {
      assert ids[j] in ids;
    }
  }

  lemma QuietStep(cfg: Config, s: State, a: Action, id: nat)
    requires Inv(cfg, s) && Quiet(s, id) && Enabled(s, a)
    ensures var s' := Step(cfg, s, a); Quiet(s', id) && NothingFor(s.st, s'.st, id)
  {
    hide Inv, Quiet, Step;
    if a.Proceed? { WorkQuiet(cfg, s, a.t, a.ok, a.jitter, id); }
    else if a.Fetch? || a.Crash? { RestartQuiet(cfg, s, a, id); }
    else if a.StepCall? || a.StepPass? { ProcessQuiet(cfg, s, a, id); }
    else { StartQuiet(cfg, s, a, id); }
  }

  lemma {:induction false} QuietRun(cfg: Config, s: State, acts: seq<Action>, id: nat)
    requires Inv(cfg, s) && Quiet(s, id) && Legal(cfg, s, acts)
    ensures var s' := Run(cfg, s, acts); Quiet(s', id) && NothingFor(s.st, s'.st, id)
    decreases |acts|
  {
    if acts != [] {
      var front, last := acts[..|acts| - 1], acts[|acts| - 1];
      var mid := Run(cfg, s, front);
      hide Inv, Quiet, NothingFor, Extends, Step, Enabled;
      QuietRun(cfg, s, front, id);
      InvRun(cfg, s, front);
      InvStep(cfg, mid, last);
      QuietStep(cfg, mid, last, id);
      NothingTransitive(s.st, mid.st, Step(cfg, mid, last).st, id);
    }
  }

  /**
   If a row is cancelled while no unread or uncommitted record, no scheduler list and no running Create or CreateBatch
   call holds it, then in every continuation, crashes included, it stays cancelled, and nothing is appended to any topic,
   published or sent for it.
   */
  lemma QuietlyCancelledStaysCancelled(cfg: Config, s: State, acts: seq<Action>, id: nat)
    requires Reachable(cfg, s) && Legal(cfg, s, acts)
    requires id in s.st.rows && s.st.rows[id].status == Cancelled && NoRecord(s, id) && NoPass(s, id) && NoCall(s, id)
    ensures var s' := Run(cfg, s, acts);
      id in s'.st.rows && s'.st.rows[id].status == Cancelled && NothingFor(s.st, s'.st, id)
  {
    PublishOnce.ReachablePublish(cfg, s);
    QuietRun(cfg, s, acts, id);
  }
}
