/**
 The status of a notification made by Create without a schedule, as its copy moves, with any interleaved Cancel calls:
 in runs without redelivery, for notifications none of whose database writes failed and whose Create call did not die.
 */
module Fate {
  import opened Domain
  import opened Backoff
  import opened Protocol
  import opened Safety
  import opened Pipeline
  import opened Ledger
  import opened Copies
  import PublishOnce
  import Losses
  import Draining

  predicate Tracked(s: State, id: nat) {
    && id in s.st.rows && id !in s.st.disturbed
    && s.st.rows[id].n.scheduledAt.None? && s.st.rows[id].n.batchId.None?
  }

  ghost predicate Unpublished(s: State, id: nat) { forall c :: 0 <= c < |s.st.copies| ==> s.st.copies[c].first.n.id != id }

  /** Its Create call is about to publish it, or to take the status back because that failed. */
  ghost predicate AboutToPublish(s: State, id: nat) {
    exists c :: c in s.calls && s.calls[c].Create? && s.calls[c].n.id == id && (s.calls[c].cpc == Enqueue || s.calls[c].cpc == RollBack)
  }

  /** The row as the handler at this point of its work has left it. */
  predicate HeldStatus(t: Topic, pc: Pc, status: Status, started: bool) {
    match pc
    case Deliver => status == Processing && started
    case CountFailure => status == Processing && started
    case MarkFailed => status == Processing && started
    case ToRetry => status == Processing && started
    case MarkDelivered => status == Processing && started
    case ToDeadLetter => status == Failed && started
    case _ => if t == Retry then status == Processing && started else (status == Queued || status == Cancelled) && !started
  }

  predicate StatusFits(p: Place, cons: Consumers, status: Status, started: bool) {
    match p
    case Unread(t, _, _) => if t == Retry then status == Processing && started else (status == Queued || status == Cancelled) && !started
    case Held(t, _) => t in cons && cons[t].act.Busy? && HeldStatus(t, cons[t].act.pc, status, started)
    case Arrived => status == Delivered && started
    case InDeadLetter(_) => status == Failed && started
    case Lost(_, _) => if started then status == Processing || status == Failed else status == Queued || status == Cancelled
  }

  ghost predicate FateFor(s: State, id: nat) {
    && (id in s.st.started ==> id in s.st.rows)
    && (Tracked(s, id) ==> TrackedFate(s, id))
  }

  ghost predicate TrackedFate(s: State, id: nat)
    requires id in s.st.rows
  {
    var status, started := s.st.rows[id].status, id in s.st.started;
    && (forall c :: 0 <= c < |s.st.copies| && s.st.copies[c].first.n.id == id ==> StatusFits(s.st.copies[c].place, s.consumers, status, started))
    && (Unpublished(s, id) ==>
          && !started && (status == Pending || status == Queued || status == Cancelled)
          && (status == Queued ==> AboutToPublish(s, id))
          && (AboutToPublish(s, id) ==> status != Pending))
  }

  // ----- a handler's calls

  function StatusAfter(pc: Pc, was: Status): Status {
    match pc
    case MarkProcessing => Processing
    case MarkDelivered => Delivered
    case MarkFailed => Failed
    case _ => was
  }

  /** Nothing that is recorded for this notification changed. */
  predicate SameFor(a: Store, b: Store, j: nat) {
    && (j in b.rows <==> j in a.rows) && (j in b.rows ==> b.rows[j] == a.rows[j])
    && (j in b.started <==> j in a.started) && (j in b.disturbed <==> j in a.disturbed)
  }

  /** What a call does to the row of the handler's notification. */
  lemma HandlerStatus(cfg: Config, st: Store, t: Topic, h: Activity, ok: bool, jitter: real)
    requires Holding(h) && h.pc != NilLimiter && IsJitter(jitter) && h.msg.n.id in st.rows
    ensures var b := HandlerStep(cfg, st, t, h, ok, jitter).0;
      var id := h.msg.n.id;
      && id in b.rows && b.rows[id].n == st.rows[id].n && st.disturbed <= b.disturbed
      && (id !in b.disturbed ==>
            b.rows[id].status == StatusAfter(h.pc, st.rows[id].status) && (id in b.started <==> id in st.started || h.pc == MarkProcessing))
      && (forall j: nat :: j != id ==> SameFor(st, b, j))
  {
    hide RetryAt, LimiterChannel;
  }

  /** The handler's own notification goes on fitting. */
  lemma OwnFate(cfg: Config, st: Store, t: Topic, h: Activity, ok: bool, jitter: real)
    requires Holding(h) && h.pc != NilLimiter && IsJitter(jitter) && h.msg.n.id in st.rows && h.copy < |st.copies|
    requires (h.pc == AwaitTime || h.pc == RetryLimiter ==> t == Retry)
    requires HeldStatus(t, h.pc, st.rows[h.msg.n.id].status, h.msg.n.id in st.started)
    requires st.copies[h.copy].place.Held? && st.copies[h.copy].place.topic == t
    ensures var r := HandlerStep(cfg, st, t, h, ok, jitter);
      && h.msg.n.id in r.0.rows && h.copy < |r.0.copies|
      && (h.msg.n.id !in r.0.disturbed ==>
            StatusFits(r.0.copies[h.copy].place, map[t := Consumer(0, 0, r.1)], r.0.rows[h.msg.n.id].status, h.msg.n.id in r.0.started))
  {
    HandlerStatus(cfg, st, t, h, ok, jitter);
    OwnPlaceAfter(cfg, st, t, h, ok, jitter);
    HandlerPc(cfg, st, t, h, ok, jitter);
    hide HandlerStep, MovesTo;
  }

  /** The next point of the handler's work, and where the copy goes with it. */
  lemma HandlerPc(cfg: Config, st: Store, t: Topic, h: Activity, ok: bool, jitter: real)
    requires Holding(h) && h.pc != NilLimiter && IsJitter(jitter) && h.copy < |st.copies|
    ensures var r := HandlerStep(cfg, st, t, h, ok, jitter);
      && r.1.Busy? && h.copy < |r.0.copies|
      && var place, pc := r.0.copies[h.copy].place, r.1.pc;
      match h.pc
      case AwaitTime => place == st.copies[h.copy].place && pc == RetryLimiter
      case RetryLimiter => (place == st.copies[h.copy].place && (pc == Limiter || pc == NilLimiter)) || place.Lost?
      case Limiter => (place == st.copies[h.copy].place && pc == MarkProcessing) || place.Lost?
      case MarkProcessing => place == st.copies[h.copy].place && pc == Deliver
      case Deliver => place == st.copies[h.copy].place && (pc == MarkDelivered || pc == CountFailure)
      case MarkDelivered => place == Arrived
      case CountFailure => place == st.copies[h.copy].place && (pc == MarkFailed || pc == ToRetry)
      case MarkFailed => place == st.copies[h.copy].place && pc == ToDeadLetter
      case ToDeadLetter => place.InDeadLetter? || place.Lost?
      case ToRetry => place.Lost? || (place.Unread? && place.topic == Retry)
      case _ => true
  {
    hide RetryAt, LimiterChannel, WithStatus;
  }

  // ----- consumers

  /** The consumer that moves does not have this notification's copy. */
  lemma ElsewhereFate(s: State, s': State, t: Topic, id: nat)
    requires PlacesReal(s.st, s.consumers) && FateFor(s, id) && t in s.consumers && t in s'.consumers
    requires s'.consumers == s.consumers[t := s'.consumers[t]] && s'.calls == s.calls && SameFor(s.st, s'.st, id)
    requires |s'.st.copies| == |s.st.copies|
    requires forall c :: 0 <= c < |s.st.copies| ==> s'.st.copies[c].first == s.st.copies[c].first
    requires forall c :: 0 <= c < |s.st.copies| && s.st.copies[c].first.n.id == id ==>
      s'.st.copies[c].place == s.st.copies[c].place && !(Holding(s.consumers[t].act) && s.consumers[t].act.copy == c)
    ensures FateFor(s', id)
  {
    if Tracked(s', id) {
      assert Unpublished(s', id) <==> Unpublished(s, id);
      assert AboutToPublish(s', id) <==> AboutToPublish(s, id);
      forall c | 0 <= c < |s'.st.copies| && s'.st.copies[c].first.n.id == id
        ensures StatusFits(s'.st.copies[c].place, s'.consumers, s'.st.rows[id].status, id in s'.st.started)
      {
        assert PlaceReal(s.st, s.consumers, c);
      }
    }
  }

  /** The consumer that moves has the one copy of this notification. */
  lemma OwnCopyFate(s: State, s': State, id: nat, k: nat, status: Status)
    requires k < |s'.st.copies| && s'.st.copies[k].first.n.id == id
    requires forall c :: 0 <= c < |s'.st.copies| && c != k ==> s'.st.copies[c].first.n.id != id
    requires id in s'.st.rows && s'.st.rows[id].status == status
    requires id !in s'.st.disturbed ==> StatusFits(s'.st.copies[k].place, s'.consumers, status, id in s'.st.started)
    ensures FateFor(s', id)
  {}

  lemma OnlyCopy(cfg: Config, s: State, id: nat, k: nat)
    requires Inv(cfg, s) && PublishOnce.PublishInv(s) && Tracked(s, id) && k < |s.st.copies| && s.st.copies[k].first.n.id == id
    ensures forall c :: 0 <= c < |s.st.copies| && c != k ==> s.st.copies[c].first.n.id != id
  {
    PublishOnce.CopiesHaveRows(cfg, s.st);
    hide Inv;
  }

  /** One call of the handler that has the one copy of a tracked notification. */
  lemma TrackedHandlerFate(cfg: Config, s: State, t: Topic, ok: bool, jitter: real)
    requires Enabled(s, Proceed(t, ok, jitter)) && Holding(s.consumers[t].act) && s.consumers[t].act.msg.n.id in s.st.rows
    requires var h := s.consumers[t].act;
      && (h.pc == AwaitTime || h.pc == RetryLimiter ==> t == Retry) && h.copy < |s.st.copies|
      && s.st.copies[h.copy].place.Held? && s.st.copies[h.copy].place.topic == t && s.st.copies[h.copy].first.n.id == h.msg.n.id
      && HeldStatus(t, h.pc, s.st.rows[h.msg.n.id].status, h.msg.n.id in s.st.started)
      && forall c :: 0 <= c < |s.st.copies| && c != h.copy ==> s.st.copies[c].first.n.id != h.msg.n.id
    ensures FateFor(Step(cfg, s, Proceed(t, ok, jitter)), s.consumers[t].act.msg.n.id)
  {
    var h := s.consumers[t].act;
    var s' := Step(cfg, s, Proceed(t, ok, jitter));
    PublishOnce.HandlerFirsts(cfg, s.st, t, h, ok, jitter);
    OwnFate(cfg, s.st, t, h, ok, jitter);
    hide HandlerStep, HeldStatus, FateFor;
    OwnCopyFate(s, s', h.msg.n.id, h.copy, s'.st.rows[h.msg.n.id].status);
  }

  /** A handler does not make its notification a tracked one. */
  lemma UntrackedHandlerFate(cfg: Config, s: State, t: Topic, ok: bool, jitter: real)
    requires Enabled(s, Proceed(t, ok, jitter)) && Holding(s.consumers[t].act) && s.consumers[t].act.msg.n.id in s.st.rows
    requires !Tracked(s, s.consumers[t].act.msg.n.id)
    ensures FateFor(Step(cfg, s, Proceed(t, ok, jitter)), s.consumers[t].act.msg.n.id)
  {
    HandlerStatus(cfg, s.st, t, s.consumers[t].act, ok, jitter);
    hide HandlerStep, TrackedFate;
  }

  lemma OwnHandlerFate(cfg: Config, s: State, t: Topic, ok: bool, jitter: real)
    requires Inv(cfg, s) && Located(cfg, s.st, s.consumers) && PublishOnce.PublishInv(s)
    requires Enabled(s, Proceed(t, ok, jitter)) && Holding(s.consumers[t].act) && FateFor(s, s.consumers[t].act.msg.n.id)
    ensures FateFor(Step(cfg, s, Proceed(t, ok, jitter)), s.consumers[t].act.msg.n.id)
  {
    var h := s.consumers[t].act;
    assert ConsumerInv(cfg, s.st, t, s.consumers[t]);
    HandlersEntry(cfg, s.st, t, h);
    assert s.st.copies[h.copy].place.Held? && s.st.copies[h.copy].place.topic == t;
    hide Inv, Located, PublishOnce.PublishInv, FateFor, Step;
    if Tracked(s, h.msg.n.id) {
      OnlyCopy(cfg, s, h.msg.n.id, h.copy);
      HeldFits(s, t, h.msg.n.id, h.copy);
      TrackedHandlerFate(cfg, s, t, ok, jitter);
    } else {
      UntrackedHandlerFate(cfg, s, t, ok, jitter);
    }
  }

  lemma HeldFits(s: State, t: Topic, id: nat, k: nat)
    requires FateFor(s, id) && Tracked(s, id) && k < |s.st.copies| && s.st.copies[k].first.n.id == id
    requires s.st.copies[k].place.Held? && s.st.copies[k].place.topic == t && t in s.consumers && s.consumers[t].act.Busy?
    ensures HeldStatus(t, s.consumers[t].act.pc, s.st.rows[id].status, id in s.st.started)
  {}

  lemma OtherHandlerFate(cfg: Config, s: State, t: Topic, ok: bool, jitter: real, id: nat)
    requires Inv(cfg, s) && Located(cfg, s.st, s.consumers) && FateFor(s, id)
    requires Enabled(s, Proceed(t, ok, jitter)) && Holding(s.consumers[t].act) && s.consumers[t].act.msg.n.id != id
    ensures FateFor(Step(cfg, s, Proceed(t, ok, jitter)), id)
  {
    var h := s.consumers[t].act;
    var s' := Step(cfg, s, Proceed(t, ok, jitter));
    assert ConsumerInv(cfg, s.st, t, s.consumers[t]);
    HandlersEntry(cfg, s.st, t, h);
    hide Inv, FateFor;
    HandlerStatus(cfg, s.st, t, h, ok, jitter);
    PublishOnce.HandlerFirsts(cfg, s.st, t, h, ok, jitter);
    HandlerCopies(cfg, s.st, t, h, ok, jitter);
    hide HandlerStep, UnreadPlaced, HeldPlaced, DeadPlaced, AllAttemptsOk;
    ElsewhereFate(s, s', t, id);
  }

  lemma WorkFate(cfg: Config, s: State, t: Topic, ok: bool, jitter: real, id: nat)
    requires Inv(cfg, s) && Located(cfg, s.st, s.consumers) && PublishOnce.PublishInv(s) && FateFor(s, id)
    requires Enabled(s, Proceed(t, ok, jitter))
    ensures FateFor(Step(cfg, s, Proceed(t, ok, jitter)), id)
  {
    if Holding(s.consumers[t].act) {
      hide Inv, Located, PublishOnce.PublishInv, FateFor, Step;
      if s.consumers[t].act.msg.n.id == id { OwnHandlerFate(cfg, s, t, ok, jitter); } else { OtherHandlerFate(cfg, s, t, ok, jitter, id); }
    } else {
      hide Inv, PublishOnce.PublishInv, FateFor;
      ElsewhereFate(s, Step(cfg, s, Proceed(t, ok, jitter)), t, id);
    }
  }

  lemma FetchFate(cfg: Config, s: State, t: Topic, id: nat)
    requires Inv(cfg, s) && Located(cfg, s.st, s.consumers) && PublishOnce.PublishInv(s) && FateFor(s, id) && Enabled(s, Fetch(t))
    ensures FateFor(Step(cfg, s, Fetch(t)), id)
  {
    var c := s.consumers[t];
    var s' := Step(cfg, s, Fetch(t));
    PublishOnce.ConsumerFirsts(cfg, s, Fetch(t));
    if HasBody(s.st, t, c.pos) && s.st.copies[Log(s.st, t)[c.pos].copy].first.n.id == id {
      var k := Log(s.st, t)[c.pos].copy;
      assert s.st.copies[k].place == Unread(t, c.pos, Log(s.st, t)[c.pos].msg.value.retryCount);
      if Tracked(s, id) {
        OnlyCopy(cfg, s, id, k);
        hide Inv, Located, PublishOnce.PublishInv;
        OwnCopyFate(s, s', id, k, s'.st.rows[id].status);
      }
    } else {
      hide Inv, PublishOnce.PublishInv, FateFor;
      ElsewhereFate(s, s', t, id);
    }
  }

  // ----- everything else

  /** The stores changed for other notifications only. */
  ghost predicate Elsewhere(a: Store, b: Store, id: nat) {
    SameFor(a, b, id) && a.copies <= b.copies && forall c :: |a.copies| <= c < |b.copies| ==> b.copies[c].first.n.id != id
  }

  /** Steps that concern other notifications. */
  lemma FrameFate(s: State, s': State, id: nat)
    requires FateFor(s, id) && s'.consumers == s.consumers && Elsewhere(s.st, s'.st, id)
    requires id in s'.st.rows ==> (AboutToPublish(s', id) <==> AboutToPublish(s, id))
    ensures FateFor(s', id)
  {
    assert Unpublished(s', id) <==> Unpublished(s, id);
  }

  /** The only call that may be about to publish a notification is the one that owns it. */
  lemma OnlyOwner(s: State, c: nat, d: nat, id: nat)
    requires PublishOnce.PublishInv(s) && c in s.calls && d in s.calls && id in CallIds(s.calls[c]) && id in CallIds(s.calls[d])
    ensures c == d
  {}

  lemma CreateFate(cfg: Config, s: State, c: nat, ok: bool, id: nat)
    requires Inv(cfg, s) && PublishOnce.PublishInv(s) && FateFor(s, id) && Enabled(s, StepCall(c, ok))
    requires s.calls[c].Create? && s.calls[c].n.id == id
    ensures FateFor(Step(cfg, s, StepCall(c, ok)), id)
  {
    var n, pc := s.calls[c].n, s.calls[c].cpc;
    if pc == Insert { OwnIdFresh(s, c); }
    if n.scheduledAt.None? {
      CreateUnpublished(s, c);
      OthersNotAbout(s, c, id);
      hide Inv, PublishOnce.PublishInv, FateFor, Step, Unpublished;
      match pc {
        case Insert => InsertFate(cfg, s, c, ok);
        case Enqueue => EnqueueFate(cfg, s, c, ok);
        case _ => LiveCallFate(cfg, s, c, ok);
      }
    } else {
      assert CallInv(s.st, s.calls[c]);
      hide Inv, PublishOnce.PublishInv;
      ScheduledFate(cfg, s, c, ok);
    }
  }

  lemma ScheduledFate(cfg: Config, s: State, c: nat, ok: bool)
    requires Enabled(s, StepCall(c, ok)) && s.calls[c].Create? && s.calls[c].n.scheduledAt.Some?
    requires FateFor(s, s.calls[c].n.id) && CallInv(s.st, s.calls[c]) && (s.calls[c].cpc == Insert ==> s.calls[c].n.id !in s.st.rows)
    ensures FateFor(Step(cfg, s, StepCall(c, ok)), s.calls[c].n.id)
  {
    hide TrackedFate;
  }

  lemma OwnIdFresh(s: State, c: nat)
    requires PublishOnce.PublishInv(s) && c in s.calls && s.calls[c].Create? && s.calls[c].cpc == Insert
    ensures s.calls[c].n.id !in s.st.rows
  {
    assert s.calls[c].n.id in CallIds(s.calls[c]);
  }

  lemma CreateUnpublished(s: State, c: nat)
    requires PublishOnce.PublishInv(s) && c in s.calls && s.calls[c].Create? && s.calls[c].n.scheduledAt.None?
    ensures Unpublished(s, s.calls[c].n.id)
  {
    forall k | 0 <= k < |s.st.copies|
      ensures s.st.copies[k].first.n.id != s.calls[c].n.id
    {
      assert !PublishOnce.Owes(s.calls[c], s.st.copies[k].first.n.id);
    }
  }

  /** No other call owns the id. */
  ghost predicate NoOtherOwner(s: State, c: nat, id: nat) { forall d :: d in s.calls && d != c ==> id !in CallIds(s.calls[d]) }

  lemma OthersNotAbout(s: State, c: nat, id: nat)
    requires PublishOnce.PublishInv(s) && c in s.calls && id in CallIds(s.calls[c])
    ensures NoOtherOwner(s, c, id)
  {
    forall d | d in s.calls && d != c
      ensures id !in CallIds(s.calls[d])
    {
      if id in CallIds(s.calls[d]) { OnlyOwner(s, c, d, id); }
    }
  }

  /** With one owner, the owner decides whether the notification is about to be published. */
  lemma OwnerDecides(s: State, s': State, c: nat, id: nat)
    requires NoOtherOwner(s, c, id) && c in s.calls && c in s'.calls && s'.calls == s.calls[c := s'.calls[c]]
    ensures AboutToPublish(s', id) <==>
      s'.calls[c].Create? && s'.calls[c].n.id == id && (s'.calls[c].cpc == Enqueue || s'.calls[c].cpc == RollBack)
  {
    forall d | d in s'.calls && s'.calls[d].Create? && s'.calls[d].n.id == id
      ensures d == c
    {
      assert d != c ==> id in CallIds(s.calls[d]);
    }
  }

  lemma InsertFate(cfg: Config, s: State, c: nat, ok: bool)
    requires Enabled(s, StepCall(c, ok)) && s.calls[c].Create? && s.calls[c].cpc == Insert
    requires FateFor(s, s.calls[c].n.id) && Unpublished(s, s.calls[c].n.id) && NoOtherOwner(s, c, s.calls[c].n.id) && s.calls[c].n.id !in s.st.rows
    ensures FateFor(Step(cfg, s, StepCall(c, ok)), s.calls[c].n.id)
  {
    OwnerDecides(s, Step(cfg, s, StepCall(c, ok)), c, s.calls[c].n.id);
    hide AboutToPublish, NoOtherOwner;
  }

  lemma LiveCallFate(cfg: Config, s: State, c: nat, ok: bool)
    requires Enabled(s, StepCall(c, ok)) && s.calls[c].Create? && s.calls[c].n.scheduledAt.None?
    requires s.calls[c].cpc == CheckSchedule || s.calls[c].cpc == MarkQueued || s.calls[c].cpc == RollBack
    requires FateFor(s, s.calls[c].n.id) && Unpublished(s, s.calls[c].n.id) && NoOtherOwner(s, c, s.calls[c].n.id)
    ensures FateFor(Step(cfg, s, StepCall(c, ok)), s.calls[c].n.id)
  {
    var s', id := Step(cfg, s, StepCall(c, ok)), s.calls[c].n.id;
    OwnerDecides(s, s', c, id);
    OwnerDecides(s, s, c, id);
    hide AboutToPublish, NoOtherOwner;
  }

  lemma EnqueueFate(cfg: Config, s: State, c: nat, ok: bool)
    requires Enabled(s, StepCall(c, ok)) && s.calls[c].Create? && s.calls[c].cpc == Enqueue
    requires FateFor(s, s.calls[c].n.id) && Unpublished(s, s.calls[c].n.id) && NoOtherOwner(s, c, s.calls[c].n.id)
    ensures FateFor(Step(cfg, s, StepCall(c, ok)), s.calls[c].n.id)
  {
    var s', id := Step(cfg, s, StepCall(c, ok)), s.calls[c].n.id;
    OwnerDecides(s, s', c, id);
    OwnerDecides(s, s, c, id);
    hide AboutToPublish, NoOtherOwner;
    if ok {
      var k := |s.st.copies|;
      assert s'.st.copies == s.st.copies + [s'.st.copies[k]] && s'.st.copies[k].first.n.id == id;
      hide Publish;
    }
  }

  lemma {:induction false} InsertRowsSame(st: Store, ns: seq<Notice>, id: nat)
    requires BatchInsertable(st, ns)
    ensures id !in CallIds(Batch(InsertAll, ns, 0)) ==> SameFor(st, InsertRows(st, ns), id)
  {
    if ns != [] {
      var front := ns[..|ns| - 1];
      InsertRowsSame(st, front, id);
      assert forall i :: 0 <= i < |front| ==> front[i] == ns[i];
      assert CallIds(Batch(InsertAll, front, 0)) <= CallIds(Batch(InsertAll, ns, 0));
      assert ns[|ns| - 1].id in CallIds(Batch(InsertAll, ns, 0));
    }
  }

  lemma CreateElsewhere(st: Store, pc: CreatePc, n: Notice, ok: bool, id: nat)
    requires n.id != id
    ensures Elsewhere(st, CreateStep(st, pc, n, ok).0, id) && CallIds(CreateStep(st, pc, n, ok).1) <= {n.id}
  {}

  lemma BatchElsewhere(st: Store, pc: BatchPc, ns: seq<Notice>, i: nat, ok: bool, id: nat)
    requires (pc != InsertAll ==> i < |ns|) && id !in CallIds(Batch(pc, ns, i))
    ensures Elsewhere(st, BatchStep(st, pc, ns, i, ok).0, id) && CallIds(BatchStep(st, pc, ns, i, ok).1) <= CallIds(Batch(pc, ns, i))
    ensures !BatchStep(st, pc, ns, i, ok).1.Create?
  {
    InsertRowsLogs(st, ns);
    if BatchInsertable(st, ns) { InsertRowsSame(st, ns, id); }
    hide InsertRows, BatchInsertable;
    assert pc != InsertAll ==> ns[i].id in CallIds(Batch(pc, ns, i));
  }

  /** A create or batch call concerns its own notifications. */
  lemma OtherCallFate(cfg: Config, s: State, c: nat, ok: bool, id: nat)
    requires FateFor(s, id) && Enabled(s, StepCall(c, ok)) && (s.calls[c].Create? || s.calls[c].Batch?) && id !in CallIds(s.calls[c])
    ensures FateFor(Step(cfg, s, StepCall(c, ok)), id)
  {
    var s' := Step(cfg, s, StepCall(c, ok));
    var call := s.calls[c];
    if call.Create? { CreateElsewhere(s.st, call.cpc, call.n, ok, id); } else { BatchElsewhere(s.st, call.bpc, call.ns, call.next, ok, id); }
    hide FateFor, CreateStep, BatchStep, AboutToPublish, Elsewhere;
    OtherCallAbout(s, s', c, id);
    FrameFate(s, s', id);
  }

  lemma OtherCallAbout(s: State, s': State, c: nat, id: nat)
    requires c in s.calls && c in s'.calls && s'.calls == s.calls[c := s'.calls[c]]
    requires s.calls[c].Create? ==> s.calls[c].n.id != id
    requires s'.calls[c].Create? ==> s'.calls[c].n.id != id
    ensures AboutToPublish(s', id) <==> AboutToPublish(s, id)
  {
    if AboutToPublish(s, id) {
      var d :| d in s.calls && s.calls[d].Create? && s.calls[d].n.id == id && (s.calls[d].cpc == Enqueue || s.calls[d].cpc == RollBack);
      assert d in s'.calls && s'.calls[d] == s.calls[d];
    }
    if AboutToPublish(s', id) {
      var d :| d in s'.calls && s'.calls[d].Create? && s'.calls[d].n.id == id && (s'.calls[d].cpc == Enqueue || s'.calls[d].cpc == RollBack);
      assert d in s.calls && s.calls[d] == s'.calls[d];
    }
  }

  /** The rows of a batch carry a batch id, before and after any call for it. */
  lemma BatchRows(cfg: Config, st: Store, pc: BatchPc, ns: seq<Notice>, i: nat, ok: bool, j: nat)
    requires StoreInv(cfg, st) && CallInv(st, Batch(pc, ns, i)) && j < |ns| && (pc == InsertAll ==> ns[j].id !in st.rows)
    ensures var b := BatchStep(st, pc, ns, i, ok).0; ns[j].id in b.rows ==> NoticeStored(b, ns[j])
    ensures st.started == BatchStep(st, pc, ns, i, ok).0.started && st.rows.Keys <= BatchStep(st, pc, ns, i, ok).0.rows.Keys
  {
    InsertRowsLogs(st, ns);
    PublishOnce.InsertRowsKeys(st, ns);
    if BatchInsertable(st, ns) { InsertRowsKeeps(cfg, st, ns); }
    hide InsertRows, BatchInsertable, StoreInv;
  }

  lemma OwnBatchFate(cfg: Config, s: State, c: nat, ok: bool, id: nat)
    requires Inv(cfg, s) && PublishOnce.PublishInv(s) && FateFor(s, id) && Enabled(s, StepCall(c, ok)) && s.calls[c].Batch? && id in CallIds(s.calls[c])
    ensures FateFor(Step(cfg, s, StepCall(c, ok)), id)
  {
    var call := s.calls[c];
    assert CallInv(s.st, call);
    var j :| 0 <= j < |call.ns| && call.ns[j].id == id;
    BatchIdFresh(s, c, id);
    BatchRows(cfg, s.st, call.bpc, call.ns, call.next, ok, j);
    hide Inv, PublishOnce.PublishInv, BatchStep, TrackedFate;
  }

  lemma BatchIdFresh(s: State, c: nat, id: nat)
    requires PublishOnce.PublishInv(s) && c in s.calls && s.calls[c].Batch? && id in CallIds(s.calls[c])
    ensures s.calls[c].bpc == InsertAll ==> id !in s.st.rows
  {}

  /** A cancel finds the row pending or queued, or changes nothing. */
  lemma CancelFate(cfg: Config, s: State, c: nat, ok: bool, id: nat)
    requires FateFor(s, id) && Enabled(s, StepCall(c, ok)) && s.calls[c].Cancel?
    ensures FateFor(Step(cfg, s, StepCall(c, ok)), id)
  {
    var s' := Step(cfg, s, StepCall(c, ok));
    OtherCallAbout(s, s', c, id);
    assert s'.st == s.st || s'.st == GuardedCancel(s.st, s.calls[c].id);
    hide AboutToPublish, Step, CancelStep;
    if s'.st == GuardedCancel(s.st, id) { CancelledFate(s, s', id); }
    else {
      hide FateFor;
      FrameFate(s, s', id);
    }
  }

  lemma CancelledFate(s: State, s': State, id: nat)
    requires FateFor(s, id) && s'.consumers == s.consumers && s'.st == GuardedCancel(s.st, id)
    requires AboutToPublish(s', id) <==> AboutToPublish(s, id)
    ensures FateFor(s', id)
  {
    hide AboutToPublish;
    assert Unpublished(s', id) <==> Unpublished(s, id);
  }

  lemma PassFate(cfg: Config, s: State, p: nat, ok: bool, id: nat)
    requires Inv(cfg, s) && FateFor(s, id) && Enabled(s, StepPass(p, ok))
    ensures FateFor(Step(cfg, s, StepPass(p, ok)), id)
  {
    var s' := Step(cfg, s, StepPass(p, ok));
    var m := s.passes[p].items[s.passes[p].next];
    assert PassInv(s.st, s.passes[p]) && MsgSound(s.st, m) && m.n.scheduledAt.Some?;
    assert AboutToPublish(s', id) <==> AboutToPublish(s, id);
    hide Inv, AboutToPublish;
    if m.n.id != id {
      hide FateFor;
      FrameFate(s, s', id);
    } else {
      assert !Tracked(s', id);
    }
  }

  lemma CallFate(cfg: Config, s: State, c: nat, ok: bool, id: nat)
    requires Inv(cfg, s) && PublishOnce.PublishInv(s) && FateFor(s, id) && Enabled(s, StepCall(c, ok))
    ensures FateFor(Step(cfg, s, StepCall(c, ok)), id)
  {
    hide Inv, PublishOnce.PublishInv, FateFor, Step;
    var call := s.calls[c];
    if call.Cancel? { CancelFate(cfg, s, c, ok, id); }
    else if id !in CallIds(call) { OtherCallFate(cfg, s, c, ok, id); }
    else if call.Batch? { OwnBatchFate(cfg, s, c, ok, id); }
    else { CreateFate(cfg, s, c, ok, id); }
  }

  /** A new call, a dead one, a pass that starts or stops, time, junk. */
  lemma RestFate(cfg: Config, s: State, a: Action, id: nat)
    requires Inv(cfg, s) && FateFor(s, id) && Enabled(s, a) && !ConsumerAction(a) && !a.StepCall? && !a.StepPass?
    ensures FateFor(Step(cfg, s, a), id)
  {
    var s' := Step(cfg, s, a);
    hide Inv;
    if a.KillCall? && id in CallIds(s.calls[a.call]) {
      assert !Tracked(s', id);
    } else {
      AboutSame(cfg, s, a, id);
      hide AboutToPublish, FateFor;
      FrameFate(s, s', id);
    }
  }

  lemma AboutSame(cfg: Config, s: State, a: Action, id: nat)
    requires Enabled(s, a) && !ConsumerAction(a) && !a.StepCall? && !a.StepPass?
    requires a.KillCall? ==> id !in CallIds(s.calls[a.call])
    ensures AboutToPublish(Step(cfg, s, a), id) <==> AboutToPublish(s, id)
  {
    var s' := Step(cfg, s, a);
    if AboutToPublish(s, id) {
      var d :| d in s.calls && s.calls[d].Create? && s.calls[d].n.id == id && (s.calls[d].cpc == Enqueue || s.calls[d].cpc == RollBack);
      assert d in s'.calls && s'.calls[d] == s.calls[d];
    }
  }

  ghost predicate FateInv(s: State) { !s.redelivered ==> forall id: nat :: FateFor(s, id) }

  /** A crash that redelivers nothing changes nothing. */
  lemma HarmlessCrash(cfg: Config, s: State, t: Topic)
    requires Inv(cfg, s) && t in s.consumers && !Step(cfg, s, Crash(t)).redelivered
    ensures Step(cfg, s, Crash(t)) == s
  {
    assert ConsumerInv(cfg, s.st, t, s.consumers[t]);
    hide StoreInv, CallsInv, PassesInv;
    assert Step(cfg, s, Crash(t)).consumers == s.consumers;
  }

  lemma FateStep(cfg: Config, s: State, a: Action)
    requires Inv(cfg, s) && LocatedInv(cfg, s) && PublishOnce.PublishInv(s) && FateInv(s) && Enabled(s, a)
    ensures FateInv(Step(cfg, s, a))
  {
    var s' := Step(cfg, s, a);
    if !s'.redelivered {
      forall id: nat
        ensures FateFor(s', id)
      {
        if a.Crash? {
          HarmlessCrash(cfg, s, a.t);
        } else {
          hide Inv, Located, PublishOnce.PublishInv, FateFor, Step, Enabled;
          assert FateFor(s, id);
          if a.Proceed? { WorkFate(cfg, s, a.t, a.ok, a.jitter, id); }
          else if a.Fetch? { FetchFate(cfg, s, a.t, id); }
          else if a.StepCall? { CallFate(cfg, s, a.call, a.ok, id); }
          else if a.StepPass? { PassFate(cfg, s, a.pass, a.ok, id); }
          else { RestFate(cfg, s, a, id); }
        }
      }
    }
  }

  lemma {:induction false} FateRun(cfg: Config, acts: seq<Action>)
    requires Legal(cfg, Init(), acts)
    ensures FateInv(Run(cfg, Init(), acts))
    decreases |acts|
  {
    InvInit(cfg);
    if acts != [] {
      var front := acts[..|acts| - 1];
      FateRun(cfg, front);
      LocatedRun(cfg, front);
      PublishOnce.PublishRun(cfg, front);
      InvRun(cfg, Init(), front);
      hide Inv, LocatedInv, PublishOnce.PublishInv, FateInv, Step, Enabled;
      FateStep(cfg, Run(cfg, Init(), front), acts[|acts| - 1]);
    }
  }

  // ----- what it comes to

  lemma ReachableFate(cfg: Config, s: State, id: nat)
    requires Reachable(cfg, s) && !s.redelivered
    ensures FateFor(s, id)
  {
    var acts :| Legal(cfg, Init(), acts) && Run(cfg, Init(), acts) == s;
    FateRun(cfg, acts);
  }

  /** The copy has left the pipeline and no handler erred for it. */
  ghost predicate Done(s: State, c: nat) {
    (forall x :: Occupies(s, x, c) ==> x.InDlq?) && !(exists t, o :: Losses.HandlerErredFor(s.st, c, t, o))
  }

  ghost predicate Dead(s: State, c: nat) { exists o :: Occupies(s, InDlq(o), c) }

  /** Where a copy that is done has gone. */
  lemma DonePlace(cfg: Config, s: State, c: nat)
    requires Reachable(cfg, s) && !s.redelivered && c < |s.st.copies| && Done(s, c)
    ensures s.st.copies[c].place == Arrived || s.st.copies[c].place.InDeadLetter?
    ensures Dead(s, c) <==> s.st.copies[c].place.InDeadLetter?
    ensures Count(s.st.trace, AcceptedOf(c)) == if s.st.copies[c].place == Arrived then 1 else 0
  {
    CopiesAreConserved(cfg, s, c);
    Losses.LostExactlyOnHandlerError(cfg, s, c);
    AttemptsBeforeDeadLetter(cfg, s, c);
    hide Occupies, Count;
    var p := s.st.copies[c].place;
    if SlotOf(p).Some? { assert Occupies(s, SlotOf(p).value, c); }
    if p.InDeadLetter? { assert Occupies(s, InDlq(p.offset), c); }
  }

  /**
   Fate agreement: once the copy of a notification has left the pipeline and no handler erred for it, the row says
   delivered exactly when a Send succeeded, and failed exactly when the copy is on the dead-letter topic.
   */
  lemma FateAgreement(cfg: Config, s: State, id: nat, c: nat)
    requires Reachable(cfg, s) && !s.redelivered && Tracked(s, id)
    requires c < |s.st.copies| && s.st.copies[c].first.n.id == id && Done(s, c)
    ensures var status := s.st.rows[id].status;
      && (status == Delivered || status == Failed)
      && (status == Delivered <==> Count(s.st.trace, AcceptedOf(c)) == 1)
      && (status == Failed <==> Dead(s, c))
  {
    ReachableFate(cfg, s, id);
    DonePlace(cfg, s, c);
    hide Done, Dead, Count;
  }

  /** Conversely, the row never says delivered before a Send succeeded. */
  lemma DeliveredMeansAccepted(cfg: Config, s: State, id: nat, c: nat)
    requires Reachable(cfg, s) && !s.redelivered && Tracked(s, id) && s.st.rows[id].status == Delivered
    requires c < |s.st.copies| && s.st.copies[c].first.n.id == id
    ensures Count(s.st.trace, AcceptedOf(c)) == 1 && forall x :: !Occupies(s, x, c)
  {
    ReachableFate(cfg, s, id);
    CopiesAreConserved(cfg, s, c);
    hide Occupies, Count;
  }

  /** Cancel can only succeed before the first write of processing; afterwards it is refused and changes nothing. */
  lemma CancelTooLate(cfg: Config, s: State, id: nat, call: nat)
    requires Reachable(cfg, s) && !s.redelivered && Tracked(s, id) && id in s.st.started
    requires call in s.calls && s.calls[call].Cancel? && s.calls[call].id == id
    ensures Step(cfg, s, StepCall(call, true)).st == s.st
    ensures Step(cfg, s, StepCall(call, true)).calls[call] == Finished(Some(NotCancellable))
  {
    StartedIsPast(cfg, s, id);
  }

  lemma StartedIsPast(cfg: Config, s: State, id: nat)
    requires Reachable(cfg, s) && !s.redelivered && Tracked(s, id) && id in s.st.started
    ensures !IsCancellable(s.st.rows[id].status)
  {
    ReachableFate(cfg, s, id);
    if !Unpublished(s, id) {
      var c :| 0 <= c < |s.st.copies| && s.st.copies[c].first.n.id == id;
      hide Reachable;
      assert StatusFits(s.st.copies[c].place, s.consumers, s.st.rows[id].status, true);
    }
  }

  /** A failed publish takes the status back: a notification that was not published does not stay queued. */
  lemma NeverQueuedForNothing(cfg: Config, s: State, id: nat)
    requires Reachable(cfg, s) && !s.redelivered && Tracked(s, id) && Unpublished(s, id) && !AboutToPublish(s, id)
    ensures s.st.rows[id].status == Pending || s.st.rows[id].status == Cancelled
  {
    ReachableFate(cfg, s, id);
  }

  // ----- fates are final

  predicate Settled(p: Place) { p == Arrived || p.InDeadLetter? }

  lemma SettledStays(cfg: Config, s: State, a: Action, c: nat)
    requires Inv(cfg, s) && LocatedInv(cfg, s) && Enabled(s, a) && !Step(cfg, s, a).redelivered
    requires c < |s.st.copies| && Settled(s.st.copies[c].place)
    ensures var s' := Step(cfg, s, a); c < |s'.st.copies| && s'.st.copies[c] == s.st.copies[c]
  {
    if a.Proceed? && Holding(s.consumers[a.t].act) {
      var h := s.consumers[a.t].act;
      assert ConsumerInv(cfg, s.st, a.t, s.consumers[a.t]);
      HandlersEntry(cfg, s.st, a.t, h);
      assert s.st.copies[h.copy].place.Held?;
      HandlerCopies(cfg, s.st, a.t, h, a.ok, a.jitter);
      hide HandlerStep;
    } else if a.Fetch? {
      if HasBody(s.st, a.t, s.consumers[a.t].pos) {
        assert s.st.copies[Log(s.st, a.t)[s.consumers[a.t].pos].copy].place.Unread?;
      }
    } else if !ConsumerAction(a) && !a.Junk? {
      OtherStepLogs(cfg, s, a);
      hide Step;
    }
    hide Inv, Located;
  }

  lemma {:induction false} SettledForever(cfg: Config, s: State, acts: seq<Action>, c: nat)
    requires Inv(cfg, s) && LocatedInv(cfg, s) && Legal(cfg, s, acts) && !Run(cfg, s, acts).redelivered
    requires c < |s.st.copies| && Settled(s.st.copies[c].place)
    ensures var s' := Run(cfg, s, acts); Inv(cfg, s') && LocatedInv(cfg, s') && c < |s'.st.copies| && s'.st.copies[c] == s.st.copies[c]
    ensures s.st.disturbed <= Run(cfg, s, acts).st.disturbed
    decreases |acts|
  {
    if acts != [] {
      var front, last := acts[..|acts| - 1], acts[|acts| - 1];
      var mid := Run(cfg, s, front);
      hide Inv, LocatedInv, Step, Enabled;
      if mid.redelivered { Draining.RedeliveredStays(cfg, mid, last); }
      SettledForever(cfg, s, front, c);
      SettledStays(cfg, mid, last, c);
      InvStep(cfg, mid, last);
      LocatedStep(cfg, mid, last);
      DisturbedGrows(cfg, mid, last);
    }
  }

  lemma HandlerDisturbed(cfg: Config, st: Store, t: Topic, h: Activity, ok: bool, jitter: real)
    requires Holding(h) && h.pc != NilLimiter && IsJitter(jitter)
    ensures st.disturbed <= HandlerStep(cfg, st, t, h, ok, jitter).0.disturbed
  {
    hide RetryAt, LimiterChannel, WithStatus;
  }

  lemma CallDisturbed(st: Store, c: Call, ok: bool)
    requires CallReady(c)
    ensures st.disturbed <= CallStep(st, c, ok).0.disturbed
  {
    if c.Batch? { DisturbedOfRows(st, c.ns); }
    hide InsertRows, BatchInsertable, Insertable, WithStatus;
  }

  lemma DisturbedGrows(cfg: Config, s: State, a: Action)
    requires Inv(cfg, s) && Enabled(s, a)
    ensures s.st.disturbed <= Step(cfg, s, a).st.disturbed
  {
    hide Inv;
    if a.StepCall? { CallDisturbed(s.st, s.calls[a.call], a.ok); }
    if a.Proceed? && Holding(s.consumers[a.t].act) { HandlerDisturbed(cfg, s.st, a.t, s.consumers[a.t].act, a.ok, a.jitter); }
    hide CallStep, HandlerStep, WithStatus, IsDueList;
  }

  lemma {:induction false} DisturbedOfRows(st: Store, ns: seq<Notice>)
    ensures InsertRows(st, ns).disturbed == st.disturbed
  {
    if ns != [] { DisturbedOfRows(st, ns[..|ns| - 1]); }
  }

  /** The status of a settled copy's notification is decided by where the copy settled. */
  lemma SettledStatus(cfg: Config, s: State, id: nat, c: nat)
    requires Reachable(cfg, s) && !s.redelivered && Tracked(s, id)
    requires c < |s.st.copies| && s.st.copies[c].first.n.id == id && Settled(s.st.copies[c].place)
    ensures s.st.rows[id].status == if s.st.copies[c].place == Arrived then Delivered else Failed
  {
    ReachableFate(cfg, s, id);
    hide Reachable;
  }

  /** Once the copy is done, the status of its notification never changes again. */
  lemma FateIsFinal(cfg: Config, s: State, acts: seq<Action>, id: nat, c: nat)
    requires Reachable(cfg, s) && Legal(cfg, s, acts) && !s.redelivered && !Run(cfg, s, acts).redelivered
    requires Tracked(Run(cfg, s, acts), id)
    requires c < |s.st.copies| && s.st.copies[c].first.n.id == id && Done(s, c)
    ensures id in s.st.rows && Run(cfg, s, acts).st.rows[id].status == s.st.rows[id].status
  {
    var s' := Run(cfg, s, acts);
    ReachableLocated(cfg, s);
    ReachableAfter(cfg, s, acts);
    DonePlace(cfg, s, c);
    PublishOnce.CopiesHaveRows(cfg, s.st);
    InvRun(cfg, s, acts);
    hide Inv, Located, Done, Dead, Reachable, Legal, Run;
    SettledForever(cfg, s, acts, c);
    SettledStatus(cfg, s, id, c);
    SettledStatus(cfg, s', id, c);
  }
}
