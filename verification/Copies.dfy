/**
 Runs without redelivery: every published copy is in exactly one place, what was attempted for it is known exactly,
 and handling drains the pipeline.
 */
module Copies {
  import opened Domain
  import opened Backoff
  import opened Protocol
  import opened Safety
  import opened Pipeline
  import opened Ledger

  type Consumers = map<Topic, Consumer>

  /** A handler that has not returned yet holds its copy. */
  predicate Holding(a: Activity) { a.Busy? && a.pc != CommitOffset }

  predicate HasBody(st: Store, t: Topic, o: nat) { o < |Log(st, t)| && Log(st, t)[o].msg.Some? }

  // ----- where copies are

  ghost predicate UnreadPlaced(st: Store, cons: Consumers) {
    forall t, o: nat :: t in cons && cons[t].pos <= o && HasBody(st, t, o) ==>
      var e := Log(st, t)[o];
      e.copy < |st.copies| && st.copies[e.copy].place == Unread(t, o, e.msg.value.retryCount)
  }

  ghost predicate HeldPlaced(st: Store, cons: Consumers) {
    forall t :: t in cons && Holding(cons[t].act) ==>
      var a := cons[t].act;
      && HasBody(st, t, a.offset) && a.copy < |st.copies|
      && st.copies[a.copy].place == Held(t, Log(st, t)[a.offset].msg.value.retryCount)
  }

  ghost predicate DeadPlaced(st: Store) {
    forall o: nat :: HasBody(st, DeadLetter, o) ==>
      Log(st, DeadLetter)[o].copy < |st.copies| && st.copies[Log(st, DeadLetter)[o].copy].place == InDeadLetter(o)
  }

  predicate PlaceReal(st: Store, cons: Consumers, c: nat)
    requires c < |st.copies|
  {
    match st.copies[c].place
    case Unread(t, o, rc) =>
      && t in cons && cons[t].pos <= o && HasBody(st, t, o)
      && Log(st, t)[o].copy == c && Log(st, t)[o].msg.value.retryCount == rc
    case Held(t, rc) =>
      && t in cons && Holding(cons[t].act) && cons[t].act.copy == c
      && HasBody(st, t, cons[t].act.offset) && Log(st, t)[cons[t].act.offset].msg.value.retryCount == rc
    case InDeadLetter(o) => HasBody(st, DeadLetter, o) && Log(st, DeadLetter)[o].copy == c
    case Arrived => true
    case Lost(_, _) => true
  }

  ghost predicate PlacesReal(st: Store, cons: Consumers) { forall c :: 0 <= c < |st.copies| ==> PlaceReal(st, cons, c) }

  /** The slots of the pipeline and the copies inside it match one to one. */
  ghost predicate Placed(st: Store, cons: Consumers) {
    UnreadPlaced(st, cons) && HeldPlaced(st, cons) && DeadPlaced(st) && PlacesReal(st, cons)
  }

  // ----- what was attempted

  /** How often a copy that starts with this counter is sent before it is dead-lettered. */
  function AttemptLimit(cfg: Config, first: nat): nat { if cfg.maxRetries - first > 1 then cfg.maxRetries - first else 1 }

  predicate SendFailed(pc: Pc) { pc == CountFailure || pc == MarkFailed || pc == ToDeadLetter || pc == ToRetry }

  predicate AttemptsOk(cfg: Config, st: Store, cons: Consumers, c: nat)
    requires c < |st.copies|
  {
    var sent, accepted, first := Count(st.trace, SendsOf(c)), Count(st.trace, AcceptedOf(c)), st.copies[c].first.retryCount;
    match st.copies[c].place
    case Unread(t, _, rc) => accepted == 0 && first + sent == rc && (t != Retry ==> sent == 0)
    case Held(t, rc) =>
      && t in cons && cons[t].act.Busy?
      && first + sent == rc + Indicator(SendFailed(cons[t].act.pc) || cons[t].act.pc == MarkDelivered)
      && first <= rc && (t != Retry ==> first == rc)
      && accepted == Indicator(cons[t].act.pc == MarkDelivered)
    case Arrived => accepted == 1 && 1 <= sent <= AttemptLimit(cfg, first)
    case InDeadLetter(o) =>
      accepted == 0 && sent == AttemptLimit(cfg, first) && HasBody(st, DeadLetter, o) && Log(st, DeadLetter)[o].msg.value.retryCount == first + sent
    case Lost(_, _) => accepted == 0 && sent <= AttemptLimit(cfg, first)
  }

  ghost predicate AllAttemptsOk(cfg: Config, st: Store, cons: Consumers) {
    forall c :: 0 <= c < |st.copies| ==> AttemptsOk(cfg, st, cons, c)
  }

  ghost predicate Located(cfg: Config, st: Store, cons: Consumers) { Placed(st, cons) && AllAttemptsOk(cfg, st, cons) }

  // ----- frames

  lemma SameStoresPlaced(cfg: Config, a: Store, b: Store, cons: Consumers)
    requires Located(cfg, a, cons) && a.logs == b.logs && a.copies == b.copies && a.trace == b.trace
    ensures Located(cfg, b, cons)
  {
    assert forall t :: Log(b, t) == Log(a, t);
    forall c | 0 <= c < |b.copies|
      ensures PlaceReal(b, cons, c) && AttemptsOk(cfg, b, cons, c)
    {
      assert PlaceReal(a, cons, c) && AttemptsOk(cfg, a, cons, c);
    }
  }

  ghost predicate Appended(a: Store, b: Store, u: Topic, e: Entry) {
    forall t :: Log(b, t) == if t == u then Log(a, t) + [e] else Log(a, t)
  }

  /** A record without a parsable body is nobody's copy. */
  lemma JunkPlaced(cfg: Config, a: Store, b: Store, cons: Consumers, u: Topic, e: Entry)
    requires Located(cfg, a, cons) && Appended(a, b, u, e) && e.msg.None? && a.copies == b.copies && a.trace == b.trace
    ensures Located(cfg, b, cons)
  {
    forall c | 0 <= c < |b.copies|
      ensures PlaceReal(b, cons, c) && AttemptsOk(cfg, b, cons, c)
    {
      assert PlaceReal(a, cons, c) && AttemptsOk(cfg, a, cons, c);
    }
    forall t, o: nat | t in cons && cons[t].pos <= o && HasBody(b, t, o)
      ensures HasBody(a, t, o) && Log(b, t)[o] == Log(a, t)[o]
    {}
  }

  /** Publish puts a new copy at the end of its work topic. */
  lemma PublishPlaced(st: Store, cons: Consumers, m: Msg)
    requires Placed(st, cons) && WorkTopic(m.n) in cons
    requires cons[WorkTopic(m.n)].pos <= |Log(st, WorkTopic(m.n))|
    ensures Placed(Publish(st, m), cons)
  {
    var b := Publish(st, m);
    var u, n := WorkTopic(m.n), |st.copies|;
    assert Appended(st, b, u, Entry(Some(m), n, st.now, None));
    hide Publish;
    forall c | 0 <= c < |b.copies|
      ensures PlaceReal(b, cons, c)
    {
      if c < n { assert PlaceReal(st, cons, c); }
    }
  }

  lemma PublishAttempts(cfg: Config, st: Store, cons: Consumers, m: Msg)
    requires AllAttemptsOk(cfg, st, cons)
    requires forall k :: 0 <= k < |st.trace| && st.trace[k].Sent? ==> st.trace[k].copy < |st.copies|
    ensures AllAttemptsOk(cfg, Publish(st, m), cons)
  {
    var b := Publish(st, m);
    var n := |st.copies|;
    CountNone(st.trace, SendsOf(n));
    CountNone(st.trace, AcceptedOf(n));
    hide Count;
    assert forall t, o: nat :: HasBody(st, t, o) ==> HasBody(b, t, o) && Log(b, t)[o] == Log(st, t)[o];
    forall c | 0 <= c < |b.copies|
      ensures AttemptsOk(cfg, b, cons, c)
    {
      if c < n { assert AttemptsOk(cfg, st, cons, c); }
    }
  }

  // ----- a consumer moves

  /** Only the copy with the moving consumer changes its record. */
  predicate OthersStay(a: Store, b: Store, k: nat) {
    |b.copies| == |a.copies| && forall j :: 0 <= j < |a.copies| && j != k ==> b.copies[j] == a.copies[j]
  }

  /** The handler goes on holding its copy. */
  lemma HoldPlaced(a: Store, b: Store, cons: Consumers, t: Topic, h: Activity)
    requires Placed(a, cons) && t in cons && Holding(cons[t].act)
    requires a.logs == b.logs && a.copies == b.copies
    requires Holding(h) && h.copy == cons[t].act.copy && h.offset == cons[t].act.offset
    ensures Placed(b, cons[t := cons[t].(act := h)])
  {
    var cons' := cons[t := cons[t].(act := h)];
    assert forall u :: Log(b, u) == Log(a, u);
    forall c | 0 <= c < |b.copies|
      ensures PlaceReal(b, cons', c)
    {
      assert PlaceReal(a, cons, c);
    }
  }

  /** The handler returns and the copy has left the pipeline. */
  lemma LeavePlaced(a: Store, b: Store, cons: Consumers, t: Topic, h: Activity, k: nat)
    requires Placed(a, cons) && t in cons && Holding(cons[t].act) && k == cons[t].act.copy
    requires a.logs == b.logs && OthersStay(a, b, k) && (b.copies[k].place == Arrived || b.copies[k].place.Lost?)
    requires !Holding(h)
    ensures Placed(b, cons[t := cons[t].(act := h)])
  {
    var cons' := cons[t := cons[t].(act := h)];
    assert forall u :: Log(b, u) == Log(a, u);
    forall c | 0 <= c < |b.copies|
      ensures PlaceReal(b, cons', c)
    {
      assert PlaceReal(a, cons, c);
    }
  }

  ghost predicate ForwardedTo(a: Store, b: Store, u: Topic, e: Entry, k: nat) {
    && Appended(a, b, u, e) && e.msg.Some? && e.copy == k && OthersStay(a, b, k) && k < |b.copies|
    && ((u == Retry && b.copies[k].place == Unread(Retry, |Log(a, Retry)|, e.msg.value.retryCount))
        || (u == DeadLetter && b.copies[k].place == InDeadLetter(|Log(a, DeadLetter)|)))
  }

  /** The handler returns after appending the copy to the retry or the dead-letter topic. */
  lemma ForwardPlaced(a: Store, b: Store, cons: Consumers, t: Topic, h: Activity, k: nat, u: Topic, e: Entry)
    requires Placed(a, cons) && t in cons && Holding(cons[t].act) && k == cons[t].act.copy
    requires Retry in cons && DeadLetter !in cons && cons[Retry].pos <= |Log(a, Retry)|
    requires ForwardedTo(a, b, u, e, k) && !Holding(h)
    ensures Placed(b, cons[t := cons[t].(act := h)])
  {
    ForwardUnread(a, b, cons, t, h, k, u, e);
    ForwardDead(a, b, cons, t, k, u, e);
    ForwardReal(a, b, cons, t, h, k, u, e);
    hide UnreadPlaced, DeadPlaced, PlacesReal, Appended;
  }

  lemma ForwardReal(a: Store, b: Store, cons: Consumers, t: Topic, h: Activity, k: nat, u: Topic, e: Entry)
    requires Placed(a, cons) && t in cons && Holding(cons[t].act) && k == cons[t].act.copy
    requires Retry in cons && cons[Retry].pos <= |Log(a, Retry)|
    requires ForwardedTo(a, b, u, e, k)
    ensures PlacesReal(b, cons[t := cons[t].(act := h)])
  {
    var cons' := cons[t := cons[t].(act := h)];
    hide UnreadPlaced, DeadPlaced, HeldPlaced;
    forall c | 0 <= c < |b.copies|
      ensures PlaceReal(b, cons', c)
    {
      assert PlaceReal(a, cons, c);
    }
  }

  lemma ForwardUnread(a: Store, b: Store, cons: Consumers, t: Topic, h: Activity, k: nat, u: Topic, e: Entry)
    requires Placed(a, cons) && t in cons && Holding(cons[t].act) && k == cons[t].act.copy
    requires DeadLetter !in cons && ForwardedTo(a, b, u, e, k)
    ensures UnreadPlaced(b, cons[t := cons[t].(act := h)])
  {
    var cons' := cons[t := cons[t].(act := h)];
    forall v, o: nat | v in cons' && cons'[v].pos <= o && HasBody(b, v, o)
      ensures var x := Log(b, v)[o]; x.copy < |b.copies| && b.copies[x.copy].place == Unread(v, o, x.msg.value.retryCount)
    {
      if o < |Log(a, v)| { assert HasBody(a, v, o); }
    }
  }

  lemma ForwardDead(a: Store, b: Store, cons: Consumers, t: Topic, k: nat, u: Topic, e: Entry)
    requires Placed(a, cons) && t in cons && Holding(cons[t].act) && k == cons[t].act.copy
    requires ForwardedTo(a, b, u, e, k)
    ensures DeadPlaced(b)
  {
    forall o: nat | HasBody(b, DeadLetter, o)
      ensures Log(b, DeadLetter)[o].copy < |b.copies| && b.copies[Log(b, DeadLetter)[o].copy].place == InDeadLetter(o)
    {
      if o < |Log(a, DeadLetter)| { assert HasBody(a, DeadLetter, o); }
    }
  }

  /** Fetching takes the copy from the topic into the handler's hands. */
  lemma TakePlaced(a: Store, b: Store, cons: Consumers, t: Topic, c': Consumer, k: nat)
    requires Placed(a, cons) && t in cons && cons[t].act.Idle? && HasBody(a, t, cons[t].pos) && k == Log(a, t)[cons[t].pos].copy
    requires a.logs == b.logs && OthersStay(a, b, k) && k < |b.copies|
    requires b.copies[k].place == Held(t, Log(a, t)[cons[t].pos].msg.value.retryCount)
    requires c'.pos == cons[t].pos + 1 && Holding(c'.act) && c'.act.offset == cons[t].pos && c'.act.copy == k
    ensures Placed(b, cons[t := c'])
  {
    var cons' := cons[t := c'];
    assert forall u :: Log(b, u) == Log(a, u);
    forall c | 0 <= c < |b.copies|
      ensures PlaceReal(b, cons', c)
    {
      assert PlaceReal(a, cons, c);
    }
    forall v, o: nat | v in cons' && cons'[v].pos <= o && HasBody(b, v, o)
      ensures var x := Log(b, v)[o]; x.copy < |b.copies| && b.copies[x.copy].place == Unread(v, o, x.msg.value.retryCount)
    {
      assert HasBody(a, v, o) && cons[v].pos <= o;
    }
  }

  /** The consumer passes over a junk record, or ends its round: no copy is concerned. */
  lemma IdlePlaced(cfg: Config, a: Store, b: Store, cons: Consumers, t: Topic, c': Consumer)
    requires Located(cfg, a, cons) && t in cons && !Holding(cons[t].act) && !Holding(c'.act)
    requires a.logs == b.logs && a.copies == b.copies && a.trace == b.trace
    requires c'.pos == cons[t].pos || (c'.pos == cons[t].pos + 1 && !HasBody(a, t, cons[t].pos))
    ensures Located(cfg, b, cons[t := c'])
  {
    var cons' := cons[t := c'];
    assert forall u :: Log(b, u) == Log(a, u);
    forall c | 0 <= c < |b.copies|
      ensures PlaceReal(b, cons', c) && AttemptsOk(cfg, b, cons', c)
    {
      assert PlaceReal(a, cons, c) && AttemptsOk(cfg, a, cons, c);
    }
  }

  // ----- attempts of a moving consumer

  /** The copy another process has, or none has, is not affected. */
  lemma OtherAttempts(cfg: Config, a: Store, b: Store, cons: Consumers, t: Topic, c': Consumer, j: nat)
    requires j < |a.copies| && t in cons && AttemptsOk(cfg, a, cons, j) && PlaceReal(a, cons, j)
    requires a.copies[j].place.Held? && a.copies[j].place.topic == t ==> false
    requires j < |b.copies| && b.copies[j] == a.copies[j]
    requires Count(b.trace, SendsOf(j)) == Count(a.trace, SendsOf(j)) && Count(b.trace, AcceptedOf(j)) == Count(a.trace, AcceptedOf(j))
    requires Log(a, DeadLetter) <= Log(b, DeadLetter)
    ensures AttemptsOk(cfg, b, cons[t := c'], j)
  {
    hide Count;
  }

  /** What a handler knows about its own copy. */
  predicate OwnKnown(cfg: Config, st: Store, t: Topic, h: Activity, rc: nat, sent: nat, accepted: nat)
    requires Holding(h) && h.copy < |st.copies|
  {
    var first := st.copies[h.copy].first.retryCount;
    && st.copies[h.copy].place == Held(t, rc)
    && h.msg.retryCount == rc + Indicator(Counted(h.pc))
    && first <= rc && (t != Retry ==> first == rc) && (t == Retry ==> rc < cfg.maxRetries)
    && first + sent == rc + Indicator(SendFailed(h.pc) || h.pc == MarkDelivered)
    && accepted == Indicator(h.pc == MarkDelivered)
    && (HandsOff(h.pc) ==> (h.msg.retryCount >= cfg.maxRetries <==> h.pc == ToDeadLetter))
  }

  predicate HandsOff(pc: Pc) { pc == ToDeadLetter || pc == ToRetry }

  lemma OwnCopy(cfg: Config, st: Store, cons: Consumers, t: Topic)
    requires StoreInv(cfg, st) && Located(cfg, st, cons) && t in cons && Holding(cons[t].act) && HandlerSound(cfg, st, t, cons[t].act)
    ensures var h := cons[t].act;
      && h.copy < |st.copies| && h.offset < |Log(st, t)| && Log(st, t)[h.offset].msg.Some?
      && OwnKnown(cfg, st, t, h, Log(st, t)[h.offset].msg.value.retryCount, Count(st.trace, SendsOf(h.copy)), Count(st.trace, AcceptedOf(h.copy)))
  {
    var h := cons[t].act;
    HandlersEntry(cfg, st, t, h);
    assert AttemptsOk(cfg, st, cons, h.copy);
    hide Count, StoreInv;
  }

  /** Where one call leaves the handler and its copy. */
  predicate MovesTo(st: Store, st': Store, h: Activity, h': Activity, ok: bool)
    requires Holding(h) && h.copy < |st.copies|
  {
    && h.copy < |st'.copies| && h'.Busy? && h'.copy == h.copy && st'.copies[h.copy].first == st.copies[h.copy].first
    && var was, after := st.copies[h.copy].place, st'.copies[h.copy].place;
    match h.pc
    case ToDeadLetter =>
      if ok then after == InDeadLetter(|Log(st, DeadLetter)|) && HasBody(st', DeadLetter, |Log(st, DeadLetter)|)
              && Log(st', DeadLetter)[|Log(st, DeadLetter)|].msg.value == h.msg
      else after.Lost?
    case ToRetry => if ok then after == Unread(Retry, |Log(st, Retry)|, h.msg.retryCount) else after.Lost?
    case MarkProcessing => after == was && h'.pc == Deliver
    case Deliver => after == was && h'.pc == if ok then MarkDelivered else CountFailure
    case MarkDelivered => after == Arrived
    case CountFailure => after == was && SendFailed(h'.pc)
    case MarkFailed => after == was && SendFailed(h'.pc)
    case _ => if Holding(h') then after == was && NotYetSent(h') else after.Lost?
  }

  predicate NotYetSent(a: Activity) { a.Busy? && !SendFailed(a.pc) && a.pc != MarkDelivered }

  lemma OwnPlaceAfter(cfg: Config, st: Store, t: Topic, h: Activity, ok: bool, jitter: real)
    requires Holding(h) && h.pc != NilLimiter && IsJitter(jitter) && h.copy < |st.copies|
    ensures var r := HandlerStep(cfg, st, t, h, ok, jitter); MovesTo(st, r.0, h, r.1, ok)
  {
    hide RetryAt, LimiterChannel, WithStatus;
  }

  /** The bookkeeping of attempts: a Send counts one, and the counter of the copy keeps up with it. */
  lemma AttemptsMove(cfg: Config, a: Store, b: Store, cons: Consumers, t: Topic, h': Activity, ok: bool, rc: nat, sent: nat, accepted: nat)
    requires t in cons && Holding(cons[t].act) && cons[t].act.pc != NilLimiter && cons[t].act.copy < |a.copies|
    requires OwnKnown(cfg, a, t, cons[t].act, rc, sent, accepted) && MovesTo(a, b, cons[t].act, h', ok)
    requires Count(b.trace, SendsOf(cons[t].act.copy)) == sent + Indicator(cons[t].act.pc == Deliver)
    requires Count(b.trace, AcceptedOf(cons[t].act.copy)) == accepted + Indicator(cons[t].act.pc == Deliver && ok)
    ensures AttemptsOk(cfg, b, cons[t := cons[t].(act := h')], cons[t].act.copy)
  {
    hide Count;
  }

  lemma OwnAttempts(cfg: Config, st: Store, cons: Consumers, t: Topic, ok: bool, jitter: real)
    requires StoreInv(cfg, st) && Located(cfg, st, cons) && t in cons && Holding(cons[t].act) && HandlerSound(cfg, st, t, cons[t].act)
    requires IsJitter(jitter)
    ensures var r := HandlerStep(cfg, st, t, cons[t].act, ok, jitter);
      cons[t].act.copy < |r.0.copies| && AttemptsOk(cfg, r.0, cons[t := cons[t].(act := r.1)], cons[t].act.copy)
  {
    var h := cons[t].act;
    var r := HandlerStep(cfg, st, t, h, ok, jitter);
    OwnCopy(cfg, st, cons, t);
    OwnPlaceAfter(cfg, st, t, h, ok, jitter);
    HandlerTrace(cfg, st, t, h, ok, jitter, SendsOf(h.copy));
    HandlerTrace(cfg, st, t, h, ok, jitter, AcceptedOf(h.copy));
    hide Count, StoreInv, Located, HandlerStep, OwnKnown, AttemptsOk;
    AttemptsMove(cfg, st, r.0, cons, t, r.1, ok, Log(st, t)[h.offset].msg.value.retryCount,
                 Count(st.trace, SendsOf(h.copy)), Count(st.trace, AcceptedOf(h.copy)));
  }

  /** A handler's call concerns the records of its own copy alone. */
  lemma HandlerCopies(cfg: Config, st: Store, t: Topic, h: Activity, ok: bool, jitter: real)
    requires Holding(h) && h.pc != NilLimiter && IsJitter(jitter) && h.copy < |st.copies|
    ensures var r := HandlerStep(cfg, st, t, h, ok, jitter);
      && OthersStay(st, r.0, h.copy) && Log(st, DeadLetter) <= Log(r.0, DeadLetter)
      && r.0.copies[h.copy].first == st.copies[h.copy].first
      && r.1.Busy? && r.1.offset == h.offset && r.1.copy == h.copy
  {
    hide RetryAt, LimiterChannel;
  }

  lemma HandlerAttempts(cfg: Config, st: Store, cons: Consumers, t: Topic, ok: bool, jitter: real)
    requires StoreInv(cfg, st) && Located(cfg, st, cons) && t in cons && Holding(cons[t].act) && HandlerSound(cfg, st, t, cons[t].act)
    requires IsJitter(jitter)
    ensures var r := HandlerStep(cfg, st, t, cons[t].act, ok, jitter);
      AllAttemptsOk(cfg, r.0, cons[t := cons[t].(act := r.1)])
  {
    var h := cons[t].act;
    var r := HandlerStep(cfg, st, t, h, ok, jitter);
    var cons' := cons[t := cons[t].(act := r.1)];
    OwnCopy(cfg, st, cons, t);
    HandlerCopies(cfg, st, t, h, ok, jitter);
    forall j | 0 <= j < |r.0.copies|
      ensures AttemptsOk(cfg, r.0, cons', j)
    {
      if j == h.copy {
        hide AttemptsOk, HandlerStep, Located, StoreInv, HandlerSound;
        OwnAttempts(cfg, st, cons, t, ok, jitter);
      } else {
        assert AttemptsOk(cfg, st, cons, j) && PlaceReal(st, cons, j);
        HandlerTrace(cfg, st, t, h, ok, jitter, SendsOf(j));
        HandlerTrace(cfg, st, t, h, ok, jitter, AcceptedOf(j));
        hide Count, StoreInv, Located, AttemptsOk, HandlerStep;
        OtherAttempts(cfg, st, r.0, cons, t, cons[t].(act := r.1), j);
      }
    }
  }

  lemma ToRetryPlaced(cfg: Config, st: Store, cons: Consumers, t: Topic, at: int)
    requires Placed(st, cons) && t in cons && Holding(cons[t].act) && cons[t].act.copy < |st.copies|
    requires Retry in cons && DeadLetter !in cons && cons[Retry].pos <= |Log(st, Retry)|
    ensures var h := cons[t].act; Placed(PublishRetryAt(st, t, h, at), cons[t := cons[t].(act := h.(pc := CommitOffset))])
  {
    var h := cons[t].act;
    var b := PublishRetryAt(st, t, h, at);
    var e := Entry(Some(h.msg), h.copy, st.now, Some(at));
    assert ForwardedTo(st, b, Retry, e, h.copy);
    hide Placed, ForwardedTo, PublishRetryAt;
    ForwardPlaced(st, b, cons, t, h.(pc := CommitOffset), h.copy, Retry, e);
  }

  lemma ToDeadLetterPlaced(cfg: Config, st: Store, cons: Consumers, t: Topic)
    requires Placed(st, cons) && t in cons && Holding(cons[t].act) && cons[t].act.copy < |st.copies|
    requires Retry in cons && DeadLetter !in cons && cons[Retry].pos <= |Log(st, Retry)|
    ensures var h := cons[t].act; Placed(PublishDeadLetter(st, t, h), cons[t := cons[t].(act := h.(pc := CommitOffset))])
  {
    var h := cons[t].act;
    var b := PublishDeadLetter(st, t, h);
    var e := Entry(Some(h.msg), h.copy, st.now, None);
    assert ForwardedTo(st, b, DeadLetter, e, h.copy);
    hide Placed, ForwardedTo, PublishDeadLetter;
    ForwardPlaced(st, b, cons, t, h.(pc := CommitOffset), h.copy, DeadLetter, e);
  }

  lemma HandlerPlaced(cfg: Config, st: Store, cons: Consumers, t: Topic, ok: bool, jitter: real)
    requires Placed(st, cons) && t in cons && Holding(cons[t].act) && cons[t].act.pc != NilLimiter && IsJitter(jitter)
    requires cons[t].act.copy < |st.copies|
    requires Retry in cons && DeadLetter !in cons && cons[Retry].pos <= |Log(st, Retry)|
    ensures var r := HandlerStep(cfg, st, t, cons[t].act, ok, jitter);
      Placed(r.0, cons[t := cons[t].(act := r.1)])
  {
    var h := cons[t].act;
    var r := HandlerStep(cfg, st, t, h, ok, jitter);
    hide Placed, RetryAt, PublishRetryAt, PublishDeadLetter;
    if h.pc == ToRetry && ok {
      ToRetryPlaced(cfg, st, cons, t, RetryAt(cfg, st.now, h.msg.retryCount, jitter));
    } else if h.pc == ToDeadLetter && ok {
      ToDeadLetterPlaced(cfg, st, cons, t);
    } else if Holding(r.1) {
      HoldPlaced(st, r.0, cons, t, r.1);
    } else {
      LeavePlaced(st, r.0, cons, t, r.1, h.copy);
    }
  }

  lemma TakeAttempts(cfg: Config, st: Store, cons: Consumers, t: Topic)
    requires StoreInv(cfg, st) && Located(cfg, st, cons) && t in cons && cons[t].act.Idle? && HasBody(st, t, cons[t].pos)
    ensures var r := FetchStep(st, t, cons[t]); AllAttemptsOk(cfg, r.0, cons[t := r.1])
  {
    var r := FetchStep(st, t, cons[t]);
    var e := Log(st, t)[cons[t].pos];
    var cons' := cons[t := r.1];
    assert st.copies[e.copy].place == Unread(t, cons[t].pos, e.msg.value.retryCount);
    forall j | 0 <= j < |r.0.copies|
      ensures AttemptsOk(cfg, r.0, cons', j)
    {
      assert AttemptsOk(cfg, st, cons, j) && PlaceReal(st, cons, j);
      hide Count, StoreInv, Located;
      if j != e.copy { OtherAttempts(cfg, st, r.0, cons, t, r.1, j); }
    }
  }

  // ----- the machine

  /** As long as no consumer restarted behind its position, every copy is where the machine says it is. */
  ghost predicate LocatedInv(cfg: Config, s: State) { !s.redelivered ==> Located(cfg, s.st, s.consumers) }

  lemma WorkLocated(cfg: Config, s: State, t: Topic, ok: bool, jitter: real)
    requires Inv(cfg, s) && Located(cfg, s.st, s.consumers) && Enabled(s, Proceed(t, ok, jitter))
    ensures var s' := Step(cfg, s, Proceed(t, ok, jitter)); Located(cfg, s'.st, s'.consumers)
  {
    var c := s.consumers[t];
    assert ConsumerInv(cfg, s.st, t, c);
    ConsumedTopics(Retry);
    ConsumedTopics(DeadLetter);
    assert ConsumerInv(cfg, s.st, Retry, s.consumers[Retry]);
    if Holding(c.act) {
      OwnCopy(cfg, s.st, s.consumers, t);
      HandlerPlaced(cfg, s.st, s.consumers, t, ok, jitter);
      HandlerAttempts(cfg, s.st, s.consumers, t, ok, jitter);
    } else {
      IdlePlaced(cfg, s.st, s.st, s.consumers, t, CommitStep(c, ok));
    }
    hide HandlerStep, StoreInv, Placed, AllAttemptsOk, ConsumersInv;
  }

  lemma FetchLocated(cfg: Config, s: State, t: Topic)
    requires Inv(cfg, s) && Located(cfg, s.st, s.consumers) && Enabled(s, Fetch(t))
    ensures var s' := Step(cfg, s, Fetch(t)); Located(cfg, s'.st, s'.consumers)
  {
    var c := s.consumers[t];
    var r := FetchStep(s.st, t, c);
    if HasBody(s.st, t, c.pos) {
      TakeAttempts(cfg, s.st, s.consumers, t);
      hide AllAttemptsOk, Inv;
      TakePlaced(s.st, r.0, s.consumers, t, r.1, Log(s.st, t)[c.pos].copy);
    } else {
      hide Located;
      IdlePlaced(cfg, s.st, r.0, s.consumers, t, r.1);
    }
  }

  lemma OtherLocated(cfg: Config, s: State, a: Action)
    requires Inv(cfg, s) && Located(cfg, s.st, s.consumers) && Enabled(s, a) && !ConsumerAction(a)
    ensures var s' := Step(cfg, s, a); Located(cfg, s'.st, s'.consumers)
  {
    var s' := Step(cfg, s, a);
    if a.Junk? {
      JunkPlaced(cfg, s.st, s'.st, s.consumers, a.t, Entry(None, 0, s.st.now, None));
    } else {
      OtherStepLogs(cfg, s, a);
      match Publishes(s, a)
      case None =>
        hide Located;
        SameStoresPlaced(cfg, s.st, s'.st, s.consumers);
      case Some(m) =>
        ConsumedTopics(WorkTopic(m.n));
        assert ConsumerInv(cfg, s.st, WorkTopic(m.n), s.consumers[WorkTopic(m.n)]);
        SentCopiesExist(cfg, s.st);
        hide Placed, AllAttemptsOk, StoreInv, Publish;
        PublishPlaced(s.st, s.consumers, m);
        PublishAttempts(cfg, s.st, s.consumers, m);
    }
  }

  lemma SentCopiesExist(cfg: Config, st: Store)
    requires StoreInv(cfg, st)
    ensures forall k :: 0 <= k < |st.trace| && st.trace[k].Sent? ==> st.trace[k].copy < |st.copies|
  {
    forall k | 0 <= k < |st.trace| && st.trace[k].Sent?
      ensures st.trace[k].copy < |st.copies|
    {
      var e := st.trace[k];
      assert EventSound(st, e);
      assert EntrySound(cfg, st, e.topic, Log(st, e.topic)[e.offset]);
    }
  }

  lemma CrashLocated(cfg: Config, s: State, t: Topic)
    requires Inv(cfg, s) && LocatedInv(cfg, s) && t in s.consumers
    ensures LocatedInv(cfg, Step(cfg, s, Crash(t)))
  {
    var c := s.consumers[t];
    assert ConsumerInv(cfg, s.st, t, c);
    if c.committed == c.pos {
      assert s.consumers[t := Consumer(c.committed, c.committed, Idle)] == s.consumers;
    }
  }

  lemma LocatedStep(cfg: Config, s: State, a: Action)
    requires Inv(cfg, s) && LocatedInv(cfg, s) && Enabled(s, a)
    ensures LocatedInv(cfg, Step(cfg, s, a))
  {
    hide Inv, Located;
    if a.Crash? {
      CrashLocated(cfg, s, a.t);
    } else if !s.redelivered {
      if a.Proceed? { WorkLocated(cfg, s, a.t, a.ok, a.jitter); }
      else if a.Fetch? { FetchLocated(cfg, s, a.t); }
      else { OtherLocated(cfg, s, a); }
    }
  }

  lemma {:induction false} LocatedRun(cfg: Config, acts: seq<Action>)
    requires Legal(cfg, Init(), acts)
    ensures LocatedInv(cfg, Run(cfg, Init(), acts))
    decreases |acts|
  {
    InvInit(cfg);
    if acts != [] {
      var front := acts[..|acts| - 1];
      LocatedRun(cfg, front);
      InvRun(cfg, Init(), front);
      hide Inv, LocatedInv, Step, Enabled;
      LocatedStep(cfg, Run(cfg, Init(), front), acts[|acts| - 1]);
    }
  }

  lemma ReachableLocated(cfg: Config, s: State)
    requires Reachable(cfg, s) && !s.redelivered
    ensures Inv(cfg, s) && Located(cfg, s.st, s.consumers)
  {
    var acts :| Legal(cfg, Init(), acts) && Run(cfg, Init(), acts) == s;
    ReachableInv(cfg, s);
    LocatedRun(cfg, acts);
  }

  // ----- conservation

  /** The slots of the pipeline that can hold a copy. */
  datatype Slot = OnTopic(topic: Topic, offset: nat) | WithHandler(topic: Topic) | InDlq(offset: nat)

  predicate Occupies(s: State, x: Slot, copy: nat) {
    match x
    case OnTopic(t, o) => t in s.consumers && s.consumers[t].pos <= o && HasBody(s.st, t, o) && Log(s.st, t)[o].copy == copy
    case WithHandler(t) => t in s.consumers && Holding(s.consumers[t].act) && s.consumers[t].act.copy == copy
    case InDlq(o) => HasBody(s.st, DeadLetter, o) && Log(s.st, DeadLetter)[o].copy == copy
  }

  function SlotOf(p: Place): Option<Slot> {
    match p
    case Unread(t, o, _) => Some(OnTopic(t, o))
    case Held(t, _) => Some(WithHandler(t))
    case InDeadLetter(o) => Some(InDlq(o))
    case _ => None
  }

  /**
   Conservation: without redelivery, every slot holds a published copy, and every published copy is in exactly one slot,
   or was delivered with exactly one successful Send, or was lost with none.
   */
  lemma CopiesAreConserved(cfg: Config, s: State, copy: nat)
    requires Reachable(cfg, s) && !s.redelivered
    ensures (exists x :: Occupies(s, x, copy)) ==> copy < |s.st.copies|
    ensures copy < |s.st.copies| ==> forall x :: Occupies(s, x, copy) <==> SlotOf(s.st.copies[copy].place) == Some(x)
    ensures copy < |s.st.copies| && s.st.copies[copy].place == Arrived ==> Count(s.st.trace, AcceptedOf(copy)) == 1
    ensures copy < |s.st.copies| && s.st.copies[copy].place.Lost? ==> Count(s.st.trace, AcceptedOf(copy)) == 0
  {
    ReachableLocated(cfg, s);
    hide Inv, Count, Occupies;
    if copy < |s.st.copies| {
      assert PlaceReal(s.st, s.consumers, copy) && AttemptsOk(cfg, s.st, s.consumers, copy);
      PlaceIsOccupied(s, copy);
    }
    forall x | Occupies(s, x, copy)
      ensures copy < |s.st.copies| && SlotOf(s.st.copies[copy].place) == Some(x)
    {
      OccupiedIsPlace(s, x, copy);
    }
  }

  lemma OccupiedIsPlace(s: State, x: Slot, copy: nat)
    requires Placed(s.st, s.consumers) && Occupies(s, x, copy)
    ensures copy < |s.st.copies| && SlotOf(s.st.copies[copy].place) == Some(x)
  {}

  lemma PlaceIsOccupied(s: State, copy: nat)
    requires copy < |s.st.copies| && PlaceReal(s.st, s.consumers, copy)
    ensures SlotOf(s.st.copies[copy].place).Some? ==> Occupies(s, SlotOf(s.st.copies[copy].place).value, copy)
  {}

  /**
   A copy reaches the dead-letter topic after exactly max(1, maxRetries - first counter) Sends, all of them failed;
   and no copy is ever sent more often than that, or more often than once successfully.
   */
  lemma AttemptsBeforeDeadLetter(cfg: Config, s: State, copy: nat)
    requires Reachable(cfg, s) && !s.redelivered && copy < |s.st.copies|
    ensures var limit := AttemptLimit(cfg, s.st.copies[copy].first.retryCount);
      && Count(s.st.trace, SendsOf(copy)) <= limit && Count(s.st.trace, AcceptedOf(copy)) <= 1
      && ((exists o :: Occupies(s, InDlq(o), copy)) ==> Count(s.st.trace, SendsOf(copy)) == limit && Count(s.st.trace, AcceptedOf(copy)) == 0)
  {
    ReachableLocated(cfg, s);
    assert PlaceReal(s.st, s.consumers, copy) && AttemptsOk(cfg, s.st, s.consumers, copy);
    match s.st.copies[copy].place
    case Unread(t, o, rc) =>
      assert EntrySound(cfg, s.st, t, Log(s.st, t)[o]);
    case Held(t, rc) =>
      assert ConsumerInv(cfg, s.st, t, s.consumers[t]);
      HandlersEntry(cfg, s.st, t, s.consumers[t].act);
    case _ =>
  }
}
