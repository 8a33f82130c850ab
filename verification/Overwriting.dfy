/**
 Status and fate of any row with one copy, rows of batches and scheduled rows among them: they agree exactly when no
 write of queued came after the delivery or the failure.
 */
module Overwriting {
  import opened Domain
  import opened Protocol
  import opened Safety
  import opened Pipeline
  import opened Ledger
  import opened Copies
  import opened RowWrites
  import Draining
  import opened QuietCancel
  import Backoff
  import Fate
  import PublishOnce

  ghost predicate NoCopy(copies: seq<CopyRecord>, id: nat) { forall c :: 0 <= c < |copies| ==> copies[c].first.n.id != id }

  ghost predicate OnlyCopy(copies: seq<CopyRecord>, c: nat, id: nat) {
    && c < |copies| && copies[c].first.n.id == id
    && forall d :: 0 <= d < |copies| && d != c ==> copies[d].first.n.id != id
  }

  /** Only a Create call that did not leave the notification to the scheduler takes a row back to pending. */
  predicate MayBePending(st: Store, id: nat) { id in st.rows && st.rows[id].n.batchId.None? && id !in st.deferred }

  /** The status is the fate, unless it was overwritten: then it is queued, or what came of that. */
  predicate Agrees(fate: Status, status: Status, over: bool, pend: bool) {
    if over then status == Queued || status == Cancelled || (pend && status == Pending) else status == fate
  }

  predicate HeldFits(pc: Pc, status: Status, over: bool, pend: bool) {
    if pc == ToDeadLetter then Agrees(Failed, status, over, pend) else !over && !Final(status)
  }

  predicate PlaceFits(p: Place, cons: Consumers, status: Status, over: bool, pend: bool) {
    match p
    case Unread(_, _, _) => !over && !Final(status)
    case Held(t, _) => t in cons && cons[t].act.Busy? && HeldFits(cons[t].act.pc, status, over, pend)
    case Arrived => Agrees(Delivered, status, over, pend)
    case InDeadLetter(_) => Agrees(Failed, status, over, pend)
    case Lost(_, _) => true
  }

  ghost predicate RowFits(st: Store, cons: Consumers, id: nat)
    requires id in st.rows
  {
    var status, over := st.rows[id].status, id in st.overwritten;
    && (NoCopy(st.copies, id) ==> !over && !Final(status))
    && forall c: nat :: OnlyCopy(st.copies, c, id) ==> PlaceFits(st.copies[c].place, cons, status, over, MayBePending(st, id))
  }

  ghost predicate OverFor(st: Store, cons: Consumers, id: nat) {
    && (id in st.overwritten ==> id in st.rows)
    && (id in st.rows && id !in st.disturbed ==> RowFits(st, cons, id))
  }

  // ----- steps outside the consumers

  /** Whatever such a step does to a row, it goes on fitting the place of its copy. */
  lemma EffectFits(p: Place, cons: Consumers, a: Store, b: Store, id: nat, pendA: bool, pendB: bool)
    requires RowEffect(a, b, id) && id in a.rows && (pendA ==> pendB) && (PendingAfter(a, b, id) ==> pendB)
    requires PlaceFits(p, cons, a.rows[id].status, id in a.overwritten, pendA)
    ensures PlaceFits(p, cons, b.rows[id].status, id in b.overwritten, pendB)
  {}

  /** The copies stay, and the row is written in one of the four ways. */
  lemma WriteFits(a: Store, b: Store, cons: Consumers, id: nat)
    requires OverFor(a, cons, id) && RowEffect(a, b, id) && b.copies == a.copies && a.disturbed <= b.disturbed
    requires id !in a.rows ==> NoCopy(a.copies, id)
    requires PendingAfter(a, b, id) ==> MayBePending(b, id)
    requires MayBePending(a, id) && !MayBePending(b, id) ==> NoCopy(a.copies, id)
    ensures OverFor(b, cons, id)
  {
    if id in b.rows && id !in b.disturbed {
      if id in a.rows {
        forall c: nat | OnlyCopy(b.copies, c, id)
          ensures PlaceFits(b.copies[c].place, cons, b.rows[id].status, id in b.overwritten, MayBePending(b, id))
        {
          hide RowEffect, PlaceFits;
          EffectFits(b.copies[c].place, cons, a, b, id, MayBePending(a, id), MayBePending(b, id));
        }
      }
    }
  }

  /** A new copy of a notification that had none is unread; one that had some has more than one now. */
  lemma PublishFits(st: Store, cons: Consumers, m: Msg, id: nat)
    requires OverFor(st, cons, id)
    ensures OverFor(Publish(st, m), cons, id)
  {
    var b := Publish(st, m);
    assert forall c :: 0 <= c < |st.copies| ==> b.copies[c] == st.copies[c];
    if id in b.rows && id !in b.disturbed {
      forall c: nat | OnlyCopy(b.copies, c, id)
        ensures PlaceFits(b.copies[c].place, cons, b.rows[id].status, id in b.overwritten, MayBePending(b, id))
      {
        if c < |st.copies| { assert OnlyCopy(st.copies, c, id); }
      }
    }
  }

  /** A notification that is not due has no copy. */
  lemma NoCopyBeforeTime(cfg: Config, st: Store, id: nat)
    requires StoreInv(cfg, st) && id in st.rows && !DueBy(st.rows[id].n, st.now)
    ensures NoCopy(st.copies, id)
  {
    forall c | 0 <= c < |st.copies|
      ensures st.copies[c].first.n.id != id
    {
      var r := st.copies[c];
      assert CopySound(st, c);
      assert EntrySound(cfg, st, r.topic, Log(st, r.topic)[r.offset]);
    }
  }

  lemma PendingIsCreates(cfg: Config, s: State, a: Action, id: nat)
    requires Inv(cfg, s) && DeferredInv(s) && Enabled(s, a) && !ConsumerAction(a)
    ensures PendingAfter(s.st, Step(cfg, s, a).st, id) ==> MayBePending(Step(cfg, s, a).st, id)
  {
    var s' := Step(cfg, s, a);
    StepEffect(cfg, s, a, id);
    StepDeferred(cfg, s, a, id);
    InvStep(cfg, s, a);
    hide Step, RowEffect, Defers;
    if PendingAfter(s.st, s'.st, id) {
      var c := s.calls[a.call];
      assert CallInv(s.st, c) && id in CallIds(c);
    }
  }

  /** The one step that rules pending out comes before the notification is due. */
  lemma DeferralIsEarly(cfg: Config, s: State, a: Action, id: nat)
    requires Inv(cfg, s) && Enabled(s, a)
    requires MayBePending(s.st, id) && !MayBePending(Step(cfg, s, a).st, id)
    ensures NoCopy(s.st.copies, id)
  {
    InvStep(cfg, s, a);
    StepDeferred(cfg, s, a, id);
    if Defers(s, a, id) {
      assert CallInv(s.st, s.calls[a.call]);
      NoCopyBeforeTime(cfg, s.st, id);
    }
    hide Step;
  }

  lemma OtherOver(cfg: Config, s: State, a: Action, id: nat)
    requires Inv(cfg, s) && DeferredInv(s) && OverFor(s.st, s.consumers, id) && Enabled(s, a) && !ConsumerAction(a)
    ensures var s' := Step(cfg, s, a); OverFor(s'.st, s'.consumers, id)
  {
    var s' := Step(cfg, s, a);
    PublishOnce.CopiesHaveRows(cfg, s.st);
    StepEffect(cfg, s, a, id);
    PendingIsCreates(cfg, s, a, id);
    Fate.DisturbedGrows(cfg, s, a);
    if !a.Junk? { OtherStepLogs(cfg, s, a); }
    if MayBePending(s.st, id) && !MayBePending(s'.st, id) { DeferralIsEarly(cfg, s, a, id); }
    JunkLeaves(cfg, s, a);
    hide Inv, DeferredInv, OverFor, RowEffect, Step, Enabled, MayBePending, PendingAfter, Publish;
    if Publishes(s, a).Some? { PublishFits(s.st, s.consumers, Publishes(s, a).value, id); }
    else { WriteFits(s.st, s'.st, s.consumers, id); }
  }

  lemma JunkLeaves(cfg: Config, s: State, a: Action)
    requires Enabled(s, a)
    ensures a.Junk? ==> (Step(cfg, s, a).st.copies == s.st.copies && Step(cfg, s, a).consumers == s.consumers && Publishes(s, a).None?)
  {
    if a.Junk? { hide Enabled; }
  }

  // ----- consumers

  /** A step that leaves the rows alone, and the places of this notification's copies. */
  lemma FrameFits(s: State, s': State, t: Topic, id: nat)
    requires PlacesReal(s.st, s.consumers) && OverFor(s.st, s.consumers, id) && t in s.consumers && t in s'.consumers
    requires s'.consumers == s.consumers[t := s'.consumers[t]] && SameRow(s.st, s'.st, id) && s'.st.deferred == s.st.deferred
    requires id in s'.st.disturbed || id !in s.st.disturbed
    requires |s'.st.copies| == |s.st.copies|
    requires forall c :: 0 <= c < |s.st.copies| ==> s'.st.copies[c].first == s.st.copies[c].first
    requires forall c :: 0 <= c < |s.st.copies| && s.st.copies[c].first.n.id == id ==>
      s'.st.copies[c].place == s.st.copies[c].place && !(Holding(s.consumers[t].act) && s.consumers[t].act.copy == c)
    ensures OverFor(s'.st, s'.consumers, id)
  {
    if id in s'.st.rows && id !in s'.st.disturbed {
      assert NoCopy(s'.st.copies, id) ==> NoCopy(s.st.copies, id);
      forall c: nat | OnlyCopy(s'.st.copies, c, id)
        ensures PlaceFits(s'.st.copies[c].place, s'.consumers, s'.st.rows[id].status, id in s'.st.overwritten, MayBePending(s'.st, id))
      {
        assert OnlyCopy(s.st.copies, c, id);
        assert PlaceReal(s.st, s.consumers, c);
      }
    }
  }

  /** The consumer that moves has a copy of the notification: only that copy's place and row are to be looked at. */
  lemma OwnFits(s: State, s': State, id: nat, k: nat)
    requires k < |s.st.copies| && |s'.st.copies| == |s.st.copies| && s.st.copies[k].first.n.id == id && id in s'.st.rows
    requires forall c :: 0 <= c < |s.st.copies| ==> s'.st.copies[c].first == s.st.copies[c].first
    requires id !in s'.st.disturbed && OnlyCopy(s.st.copies, k, id) ==>
      PlaceFits(s'.st.copies[k].place, s'.consumers, s'.st.rows[id].status, id in s'.st.overwritten, MayBePending(s'.st, id))
    ensures OverFor(s'.st, s'.consumers, id)
  {
    assert s'.st.copies[k].first.n.id == id;
    forall c: nat | OnlyCopy(s'.st.copies, c, id)
      ensures c == k && OnlyCopy(s.st.copies, k, id)
    {}
  }

  /** What a handler's call does to its row and to its copy. */
  lemma HandlerFits(cfg: Config, st: Store, t: Topic, h: Activity, ok: bool, jitter: real, pend: bool)
    requires Holding(h) && h.pc != NilLimiter && Backoff.IsJitter(jitter) && h.msg.n.id in st.rows && h.copy < |st.copies|
    requires st.copies[h.copy].place.Held? && st.copies[h.copy].place.topic == t
    requires HeldFits(h.pc, st.rows[h.msg.n.id].status, h.msg.n.id in st.overwritten, pend)
    ensures var r := HandlerStep(cfg, st, t, h, ok, jitter);
      var id := h.msg.n.id;
      && id in r.0.rows && h.copy < |r.0.copies|
      && (id !in r.0.disturbed ==>
            PlaceFits(r.0.copies[h.copy].place, map[t := Consumer(0, 0, r.1)], r.0.rows[id].status, id in r.0.overwritten, pend))
  {
    Fate.HandlerPc(cfg, st, t, h, ok, jitter);
    Fate.HandlerStatus(cfg, st, t, h, ok, jitter);
    HandlerOverwrites(cfg, st, t, h, ok, jitter);
    hide HandlerStep;
  }

  /** Handlers write neither queued nor pending. */
  lemma HandlerOverwrites(cfg: Config, st: Store, t: Topic, h: Activity, ok: bool, jitter: real)
    requires Holding(h) && h.pc != NilLimiter && Backoff.IsJitter(jitter)
    ensures var b := HandlerStep(cfg, st, t, h, ok, jitter).0; b.overwritten == st.overwritten && b.deferred == st.deferred
  {
    hide RetryAt, LimiterChannel, WithStatus;
  }

  lemma OwnHandlerOver(cfg: Config, s: State, t: Topic, ok: bool, jitter: real)
    requires Inv(cfg, s) && Located(cfg, s.st, s.consumers) && Enabled(s, Proceed(t, ok, jitter)) && Holding(s.consumers[t].act)
    requires OverFor(s.st, s.consumers, s.consumers[t].act.msg.n.id)
    ensures var s' := Step(cfg, s, Proceed(t, ok, jitter)); OverFor(s'.st, s'.consumers, s.consumers[t].act.msg.n.id)
  {
    var h := s.consumers[t].act;
    var id := h.msg.n.id;
    var s' := Step(cfg, s, Proceed(t, ok, jitter));
    assert ConsumerInv(cfg, s.st, t, s.consumers[t]);
    HandlersEntry(cfg, s.st, t, h);
    assert s.st.copies[h.copy].place.Held? && s.st.copies[h.copy].place.topic == t;
    hide Inv, Located;
    PublishOnce.HandlerFirsts(cfg, s.st, t, h, ok, jitter);
    Fate.HandlerStatus(cfg, s.st, t, h, ok, jitter);
    hide HandlerStep, RowFits;
    if id !in s'.st.disturbed && OnlyCopy(s.st.copies, h.copy, id) {
      HeldFitsNow(s, t, h.copy, id);
      HandlerFits(cfg, s.st, t, h, ok, jitter, MayBePending(s.st, id));
      HandlerOverwrites(cfg, s.st, t, h, ok, jitter);
    }
    OwnFits(s, s', id, h.copy);
  }

  lemma HeldFitsNow(s: State, t: Topic, k: nat, id: nat)
    requires id in s.st.rows && id !in s.st.disturbed && OverFor(s.st, s.consumers, id) && OnlyCopy(s.st.copies, k, id)
    requires s.st.copies[k].place.Held? && s.st.copies[k].place.topic == t && t in s.consumers && s.consumers[t].act.Busy?
    ensures HeldFits(s.consumers[t].act.pc, s.st.rows[id].status, id in s.st.overwritten, MayBePending(s.st, id))
  {}

  lemma OtherHandlerOver(cfg: Config, s: State, t: Topic, ok: bool, jitter: real, id: nat)
    requires Inv(cfg, s) && Located(cfg, s.st, s.consumers) && OverFor(s.st, s.consumers, id)
    requires Enabled(s, Proceed(t, ok, jitter)) && Holding(s.consumers[t].act) && s.consumers[t].act.msg.n.id != id
    ensures var s' := Step(cfg, s, Proceed(t, ok, jitter)); OverFor(s'.st, s'.consumers, id)
  {
    var h := s.consumers[t].act;
    var s' := Step(cfg, s, Proceed(t, ok, jitter));
    assert ConsumerInv(cfg, s.st, t, s.consumers[t]);
    HandlersEntry(cfg, s.st, t, h);
    hide Inv, OverFor;
    Fate.HandlerStatus(cfg, s.st, t, h, ok, jitter);
    assert Fate.SameFor(s.st, s'.st, id);
    PublishOnce.HandlerFirsts(cfg, s.st, t, h, ok, jitter);
    HandlerCopies(cfg, s.st, t, h, ok, jitter);
    HandlerOverwrites(cfg, s.st, t, h, ok, jitter);
    hide HandlerStep, UnreadPlaced, HeldPlaced, DeadPlaced, AllAttemptsOk;
    FrameFits(s, s', t, id);
  }

  lemma WorkOver(cfg: Config, s: State, t: Topic, ok: bool, jitter: real, id: nat)
    requires Inv(cfg, s) && Located(cfg, s.st, s.consumers) && OverFor(s.st, s.consumers, id) && Enabled(s, Proceed(t, ok, jitter))
    ensures var s' := Step(cfg, s, Proceed(t, ok, jitter)); OverFor(s'.st, s'.consumers, id)
  {
    if Holding(s.consumers[t].act) {
      hide Inv, Located, OverFor, Step;
      if s.consumers[t].act.msg.n.id == id { OwnHandlerOver(cfg, s, t, ok, jitter); } else { OtherHandlerOver(cfg, s, t, ok, jitter, id); }
    } else {
      hide Inv, OverFor;
      FrameFits(s, Step(cfg, s, Proceed(t, ok, jitter)), t, id);
    }
  }

  lemma FetchOver(cfg: Config, s: State, t: Topic, id: nat)
    requires Inv(cfg, s) && Located(cfg, s.st, s.consumers) && OverFor(s.st, s.consumers, id) && Enabled(s, Fetch(t))
    ensures var s' := Step(cfg, s, Fetch(t)); OverFor(s'.st, s'.consumers, id)
  {
    var c := s.consumers[t];
    var s' := Step(cfg, s, Fetch(t));
    PublishOnce.ConsumerFirsts(cfg, s, Fetch(t));
    if HasBody(s.st, t, c.pos) && s.st.copies[Log(s.st, t)[c.pos].copy].first.n.id == id {
      var k := Log(s.st, t)[c.pos].copy;
      assert s.st.copies[k].place == Unread(t, c.pos, Log(s.st, t)[c.pos].msg.value.retryCount);
      PublishOnce.CopiesHaveRows(cfg, s.st);
      hide Inv, Located;
      OwnFits(s, s', id, k);
    } else {
      hide Inv, OverFor;
      FrameFits(s, s', t, id);
    }
  }

  // ----- the machine

  ghost predicate OverInv(s: State) { !s.redelivered ==> forall id: nat :: OverFor(s.st, s.consumers, id) }

  lemma OverStep(cfg: Config, s: State, a: Action)
    requires Inv(cfg, s) && LocatedInv(cfg, s) && DeferredInv(s) && OverInv(s) && Enabled(s, a)
    ensures OverInv(Step(cfg, s, a))
  {
    var s' := Step(cfg, s, a);
    if !s'.redelivered {
      if a.Crash? { Fate.HarmlessCrash(cfg, s, a.t); }
      else if !ConsumerAction(a) && !a.Junk? { OtherStepLogs(cfg, s, a); }
      hide Inv, Located, DeferredInv, OverFor;
      forall id: nat
        ensures OverFor(s'.st, s'.consumers, id)
      {
        assert !s.redelivered;
        assert OverFor(s.st, s.consumers, id);
        hide Step, Enabled;
        if a.Proceed? { WorkOver(cfg, s, a.t, a.ok, a.jitter, id); }
        else if a.Fetch? { FetchOver(cfg, s, a.t, id); }
        else if !a.Crash? { OtherOver(cfg, s, a, id); }
      }
    }
  }

  lemma {:induction false} OverRun(cfg: Config, acts: seq<Action>)
    requires Legal(cfg, Init(), acts)
    ensures OverInv(Run(cfg, Init(), acts))
    decreases |acts|
  {
    if acts != [] {
      var front := acts[..|acts| - 1];
      OverRun(cfg, front);
      LocatedRun(cfg, front);
      DeferredRun(cfg, front);
      InvInit(cfg);
      InvRun(cfg, Init(), front);
      hide Inv, LocatedInv, DeferredInv, OverInv, Step, Enabled;
      OverStep(cfg, Run(cfg, Init(), front), acts[|acts| - 1]);
    }
  }

  /** What became of a copy that has left the pipeline without an error. */
  function FateOf(s: State, c: nat): Status { if Count(s.st.trace, AcceptedOf(c)) == 1 then Delivered else Failed }

  /**
   For any row with one copy, of a batch, scheduled or neither, and none of whose writes failed: once the copy has left the
   pipeline and no handler erred for it, the row says what became of the copy if and only if queued or pending was never
   written over that. Otherwise it is queued, or cancelled since; pending only if a Create call took it back that did not
   leave it to the scheduler.
   */
  lemma FateUnlessOverwritten(cfg: Config, s: State, id: nat, c: nat)
    requires Reachable(cfg, s) && !s.redelivered && id in s.st.rows && id !in s.st.disturbed
    requires OnlyCopy(s.st.copies, c, id) && Fate.Done(s, c)
    ensures s.st.rows[id].status == FateOf(s, c) <==> id !in s.st.overwritten
    ensures FateOf(s, c) == Failed <==> Fate.Dead(s, c)
    ensures id in s.st.overwritten ==>
      var status := s.st.rows[id].status; status == Queued || status == Cancelled || (status == Pending && MayBePending(s.st, id))
  {
    var acts :| Legal(cfg, Init(), acts) && Run(cfg, Init(), acts) == s;
    OverRun(cfg, acts);
    Fate.DonePlace(cfg, s, c);
    assert OverFor(s.st, s.consumers, id);
    hide Fate.Done, Fate.Dead, Count, Legal, Run;
  }

  // ----- when nothing is left that could overwrite it

  /** The row says what became of its one copy, and no call or pass has still a step to take for it. */
  ghost predicate Marked(s: State, id: nat, c: nat) {
    Unasked(s, id) && Final(s.st.rows[id].status) && OnlyCopy(s.st.copies, c, id) && Fate.Settled(s.st.copies[c].place)
  }

  lemma MarkedRow(cfg: Config, s: State, a: Action, id: nat, c: nat)
    requires Inv(cfg, s) && Located(cfg, s.st, s.consumers) && PublishOnce.PublishInv(s) && Marked(s, id, c) && Enabled(s, a)
    ensures var s' := Step(cfg, s, a);
      id in s'.st.rows && s'.st.rows[id].status == s.st.rows[id].status && NoPass(s', id) && NoCall(s', id)
  {
    assert id < s.nextId;
    if a.Proceed? && Holding(s.consumers[a.t].act) {
      MarkedWork(cfg, s, a.t, a.ok, a.jitter, id, c);
    } else if ConsumerAction(a) {
      ConsumerAlone(cfg, s, a);
      hide Inv, Located, PublishOnce.PublishInv, Step, Enabled;
    } else if a.StepCall? || a.StepPass? {
      hide Inv, Located, PublishOnce.PublishInv, Step;
      RowUntouched(s, cfg, a, id);
    } else {
      if a.StartPass? { NotDue(cfg, s.st, a.ids, id); }
      hide Inv, Located, PublishOnce.PublishInv, Step, IsDueList;
      NewProcesses(cfg, s, a, id);
    }
  }

  lemma ConsumerAlone(cfg: Config, s: State, a: Action)
    requires Enabled(s, a) && ConsumerAction(a) && !(a.Proceed? && Holding(s.consumers[a.t].act))
    ensures var s' := Step(cfg, s, a); s'.st.rows == s.st.rows && s'.passes == s.passes && s'.calls == s.calls
  {}

  /** Handlers are at work for other notifications. */
  lemma MarkedWork(cfg: Config, s: State, t: Topic, ok: bool, jitter: real, id: nat, c: nat)
    requires Inv(cfg, s) && Located(cfg, s.st, s.consumers) && Marked(s, id, c)
    requires Enabled(s, Proceed(t, ok, jitter)) && Holding(s.consumers[t].act)
    ensures var s' := Step(cfg, s, Proceed(t, ok, jitter));
      && id in s'.st.rows && s'.st.rows[id].status == s.st.rows[id].status && s'.passes == s.passes && s'.calls == s.calls
  {
    var h := s.consumers[t].act;
    assert ConsumerInv(cfg, s.st, t, s.consumers[t]);
    HandlersEntry(cfg, s.st, t, h);
    assert s.st.copies[h.copy].place.Held?;
    hide Inv, Located;
    Fate.HandlerStatus(cfg, s.st, t, h, ok, jitter);
    hide HandlerStep;
    assert Fate.SameFor(s.st, Step(cfg, s, Proceed(t, ok, jitter)).st, id);
  }

  lemma OnlyCopyStays(cfg: Config, s: State, a: Action, id: nat, c: nat)
    requires Inv(cfg, s) && Marked(s, id, c) && Enabled(s, a)
    ensures OnlyCopy(Step(cfg, s, a).st.copies, c, id)
  {
    if ConsumerAction(a) {
      PublishOnce.ConsumerFirsts(cfg, s, a);
    } else if !a.Junk? {
      OtherStepLogs(cfg, s, a);
      hide Inv, Step, Enabled;
      if Publishes(s, a).Some? { PublishesOther(s, a, id); }
    }
    hide Inv, Step, Enabled;
  }

  lemma MarkedStep(cfg: Config, s: State, a: Action, id: nat, c: nat)
    requires Inv(cfg, s) && LocatedInv(cfg, s) && PublishOnce.PublishInv(s) && Marked(s, id, c) && Enabled(s, a)
    requires !Step(cfg, s, a).redelivered && !s.redelivered
    ensures Marked(Step(cfg, s, a), id, c) && Step(cfg, s, a).st.rows[id].status == s.st.rows[id].status
  {
    MarkedRow(cfg, s, a, id, c);
    OnlyCopyStays(cfg, s, a, id, c);
    Fate.SettledStays(cfg, s, a, c);
    hide Inv, Located, PublishOnce.PublishInv, Step, Enabled, NoPass, NoCall;
  }

  lemma {:induction false} MarkedForGood(cfg: Config, s: State, acts: seq<Action>, id: nat, c: nat)
    requires Inv(cfg, s) && LocatedInv(cfg, s) && PublishOnce.PublishInv(s) && Marked(s, id, c)
    requires Legal(cfg, s, acts) && !Run(cfg, s, acts).redelivered
    ensures var s' := Run(cfg, s, acts);
      && Inv(cfg, s') && LocatedInv(cfg, s') && PublishOnce.PublishInv(s') && Marked(s', id, c)
      && s'.st.rows[id].status == s.st.rows[id].status
    decreases |acts|
  {
    if acts != [] {
      var front, last := acts[..|acts| - 1], acts[|acts| - 1];
      var mid := Run(cfg, s, front);
      hide Inv, LocatedInv, PublishOnce.PublishInv, Step, Enabled, Unasked, OnlyCopy;
      if mid.redelivered { Draining.RedeliveredStays(cfg, mid, last); }
      MarkedForGood(cfg, s, front, id, c);
      MarkedStep(cfg, mid, last, id, c);
      InvStep(cfg, mid, last);
      LocatedStep(cfg, mid, last);
      PublishOnce.PublishStep(cfg, mid, last);
    }
  }

  lemma OnlyCopyExists(copies: seq<CopyRecord>, c: nat, id: nat)
    requires OnlyCopy(copies, c, id)
    ensures c < |copies|
  {}

  /**
   Once a row with one copy says what became of it, and no call or pass has still a step to take for the row, no run without
   redelivery changes the status again.
   */
  lemma AgreementIsFinal(cfg: Config, s: State, acts: seq<Action>, id: nat, c: nat)
    requires Reachable(cfg, s) && Legal(cfg, s, acts) && !s.redelivered && !Run(cfg, s, acts).redelivered
    requires id in s.st.rows && OnlyCopy(s.st.copies, c, id) && Fate.Done(s, c) && s.st.rows[id].status == FateOf(s, c)
    requires NoPass(s, id) && NoCall(s, id)
    ensures var s' := Run(cfg, s, acts); id in s'.st.rows && s'.st.rows[id].status == s.st.rows[id].status && OnlyCopy(s'.st.copies, c, id)
  {
    hide Inv, Located, PublishOnce.PublishInv, Reachable, Legal, Run, NoPass, NoCall, Fate.Done, Fate.Dead, Count, OnlyCopy;
    ReachableLocated(cfg, s);
    PublishOnce.ReachablePublish(cfg, s);
    assert c < |s.st.copies| by { OnlyCopyExists(s.st.copies, c, id); }
    Fate.DonePlace(cfg, s, c);
    MarkedForGood(cfg, s, acts, id, c);
  }
}
