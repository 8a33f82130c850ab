/**
 What every step keeps, under any interleaving, with crashes and redelivery: routing, the two retry counters'
 ranges, schedules and backoff, unique keys, and a recorded outcome for everything below a committed offset.
 */
module Safety {
  import opened Domain
  import opened Backoff
  import opened Protocol

  // ----- the invariant of the shared stores

  predicate Known(n: Notice) { KnownChannel(n.channel) && KnownPriority(n.priority) }

  ghost predicate RowsSound(rows: map<nat, Row>) {
    forall id :: id in rows ==> rows[id].n.id == id && Known(rows[id].n)
  }

  ghost predicate KeysUnique(rows: map<nat, Row>) {
    forall i, j :: i in rows && j in rows && i != j && rows[i].n.key != "" ==> rows[i].n.key != rows[j].n.key
  }

  predicate MsgSound(st: Store, m: Msg) { m.n.id in st.rows && st.rows[m.n.id].n == m.n }

  /** What may stand on a topic: the message's own work topic, or a retry or dead-letter copy with its counter in range. */
  predicate RouteSound(cfg: Config, t: Topic, e: Entry, m: Msg) {
    match t
    case Work(_, _) => t == WorkTopic(m.n) && e.retryAfter.None?
    case Retry =>
      && 1 <= m.retryCount < cfg.maxRetries
      && e.retryAfter.Some?
      && e.publishedAt + MinDelay(cfg.baseDelay, m.retryCount) - SECOND < e.retryAfter.value
      && e.retryAfter.value <= e.publishedAt + MinDelay(cfg.baseDelay, m.retryCount) + cfg.baseDelay
    case DeadLetter => m.retryCount >= 1 && m.retryCount >= cfg.maxRetries
  }

  predicate BodySound(cfg: Config, st: Store, t: Topic, e: Entry, m: Msg) {
    && MsgSound(st, m)
    && e.copy < |st.copies| && st.copies[e.copy].first.n == m.n
    && DueBy(m.n, e.publishedAt)
    && RouteSound(cfg, t, e, m)
  }

  predicate EntrySound(cfg: Config, st: Store, t: Topic, e: Entry) {
    e.publishedAt <= st.now && if e.msg.Some? then BodySound(cfg, st, t, e, e.msg.value) else e.retryAfter.None?
  }

  ghost predicate LogsSound(cfg: Config, st: Store) {
    forall t, o :: 0 <= o < |Log(st, t)| ==> EntrySound(cfg, st, t, Log(st, t)[o])
  }

  /** On the retry topic a Send comes after the times of all records up to its own, since the consumer waits for each. */
  ghost predicate WaitedUpTo(st: Store, e: Event)
    requires e.Sent?
  {
    e.topic == Retry ==> forall o :: 0 <= o <= e.offset && o < |Log(st, Retry)| ==> WaitedFor(Log(st, Retry)[o], e.at)
  }

  /** A Send was made for a record that a consumer read, no earlier than its publication and its retry-after. */
  ghost predicate SendSound(st: Store, e: Event)
    requires e.Sent?
  {
    && Consumed(e.topic) && e.offset < |Log(st, e.topic)|
    && var entry := Log(st, e.topic)[e.offset];
    && entry.msg == Some(e.msg) && entry.copy == e.copy
    && entry.publishedAt <= e.at && WaitedUpTo(st, e)
    && e.channel == e.msg.n.channel
  }

  ghost predicate EventSound(st: Store, e: Event) { e.at <= st.now && (e.Sent? ==> SendSound(st, e)) }

  ghost predicate TraceSound(st: Store) {
    && (forall k :: 0 <= k < |st.trace| ==> EventSound(st, st.trace[k]))
    && (forall j, k :: 0 <= j < k < |st.trace| ==> st.trace[j].at <= st.trace[k].at)
  }

  predicate CopySound(st: Store, c: nat)
    requires c < |st.copies|
  {
    var r := st.copies[c];
    && r.topic == WorkTopic(r.first.n) && r.offset < |Log(st, r.topic)|
    && Log(st, r.topic)[r.offset].msg == Some(r.first) && Log(st, r.topic)[r.offset].copy == c
  }

  ghost predicate CopiesSound(st: Store) { forall c :: 0 <= c < |st.copies| ==> CopySound(st, c) }

  /** A later record of the same copy, with the body's counter one higher. */
  predicate IsChild(st: Store, parent: Entry, t: Topic, o: nat) {
    && o < |Log(st, t)| && parent.msg.Some? && Log(st, t)[o].msg.Some?
    && Log(st, t)[o].copy == parent.copy
    && Log(st, t)[o].msg.value == Msg(parent.msg.value.n, parent.msg.value.retryCount + 1)
  }

  predicate OutcomeSound(st: Store, t: Topic, o: nat, out: Outcome) {
    && o < |Log(st, t)|
    && match out
       case Accepted(k) =>
         k < |st.trace| && st.trace[k].Sent? && st.trace[k].ok && st.trace[k].topic == t && st.trace[k].offset == o
       case Forwarded(j) => IsChild(st, Log(st, t)[o], Retry, j)
       case DeadLettered(j) => IsChild(st, Log(st, t)[o], DeadLetter, j)
       case Unparsable => Log(st, t)[o].msg.None?
       case HandlerError => Log(st, t)[o].msg.Some?
  }

  ghost predicate OutcomesSound(st: Store) {
    forall k :: k in st.outcomes ==> OutcomeSound(st, k.0, k.1, st.outcomes[k])
  }

  ghost predicate StoreInv(cfg: Config, st: Store) {
    && RowsSound(st.rows) && KeysUnique(st.rows) && LogsSound(cfg, st) && TraceSound(st) && CopiesSound(st) && OutcomesSound(st)
  }

  // ----- what never shrinks

  ghost predicate RowsExtend(a: map<nat, Row>, b: map<nat, Row>) {
    forall id :: id in a ==> id in b && b[id].n == a[id].n
  }

  ghost predicate CopiesExtend(a: seq<CopyRecord>, b: seq<CopyRecord>) {
    && |a| <= |b|
    && forall c :: 0 <= c < |a| ==> b[c] == a[c].(place := b[c].place)
  }

  ghost predicate LogsExtend(a: Store, b: Store) { forall t :: Log(a, t) <= Log(b, t) }

  ghost predicate Extends(a: Store, b: Store) {
    && RowsExtend(a.rows, b.rows) && CopiesExtend(a.copies, b.copies) && LogsExtend(a, b)
    && a.trace <= b.trace && a.now <= b.now
    && forall k :: k in a.outcomes ==> k in b.outcomes
  }

  lemma ExtendsTransitive(a: Store, b: Store, c: Store)
    requires Extends(a, b) && Extends(b, c)
    ensures Extends(a, c)
  {
    forall t
      ensures Log(a, t) <= Log(c, t)
    {
      assert Log(a, t) <= Log(b, t) <= Log(c, t);
    }
  }

  /** Facts about records already there survive any extension. */
  lemma EntriesStay(cfg: Config, a: Store, b: Store)
    requires LogsSound(cfg, a) && Extends(a, b)
    ensures forall t, o :: 0 <= o < |Log(a, t)| ==> Log(b, t)[o] == Log(a, t)[o] && EntrySound(cfg, b, t, Log(a, t)[o])
  {
    forall t, o | 0 <= o < |Log(a, t)|
      ensures Log(b, t)[o] == Log(a, t)[o] && EntrySound(cfg, b, t, Log(a, t)[o])
    {
      assert Log(a, t) <= Log(b, t);
      assert EntrySound(cfg, a, t, Log(a, t)[o]);
    }
  }

  lemma TraceStays(a: Store, b: Store)
    requires TraceSound(a) && Extends(a, b)
    ensures forall k :: 0 <= k < |a.trace| ==> b.trace[k] == a.trace[k] && EventSound(b, a.trace[k])
  {
    forall k | 0 <= k < |a.trace|
      ensures b.trace[k] == a.trace[k] && EventSound(b, a.trace[k])
    {
      var e := a.trace[k];
      assert EventSound(a, e);
      if e.Sent? { assert Log(a, e.topic) <= Log(b, e.topic); assert Log(a, Retry) <= Log(b, Retry); }
    }
  }

  lemma CopiesStay(a: Store, b: Store)
    requires CopiesSound(a) && Extends(a, b)
    ensures forall c :: 0 <= c < |a.copies| ==> CopySound(b, c)
  {
    forall c | 0 <= c < |a.copies|
      ensures CopySound(b, c)
    {
      assert CopySound(a, c);
      assert Log(a, a.copies[c].topic) <= Log(b, a.copies[c].topic);
    }
  }

  lemma OutcomeStays(a: Store, b: Store, t: Topic, o: nat, out: Outcome)
    requires OutcomeSound(a, t, o, out) && Extends(a, b)
    ensures OutcomeSound(b, t, o, out)
  {
    assert Log(a, t) <= Log(b, t) && Log(a, Retry) <= Log(b, Retry) && Log(a, DeadLetter) <= Log(b, DeadLetter);
  }

  lemma OutcomesStay(a: Store, b: Store)
    requires OutcomesSound(a) && Extends(a, b)
    ensures forall k :: k in a.outcomes ==> OutcomeSound(b, k.0, k.1, a.outcomes[k])
  {
    forall k | k in a.outcomes
      ensures OutcomeSound(b, k.0, k.1, a.outcomes[k])
    {
      OutcomeStays(a, b, k.0, k.1, a.outcomes[k]);
    }
  }

  lemma AllStay(cfg: Config, a: Store, b: Store)
    requires StoreInv(cfg, a) && Extends(a, b)
    ensures forall t, o :: 0 <= o < |Log(a, t)| ==> Log(b, t)[o] == Log(a, t)[o] && EntrySound(cfg, b, t, Log(a, t)[o])
    ensures forall k :: 0 <= k < |a.trace| ==> b.trace[k] == a.trace[k] && EventSound(b, a.trace[k])
    ensures forall c :: 0 <= c < |a.copies| ==> CopySound(b, c)
    ensures forall k :: k in a.outcomes ==> OutcomeSound(b, k.0, k.1, a.outcomes[k])
  {
    EntriesStay(cfg, a, b);
    TraceStays(a, b);
    CopiesStay(a, b);
    OutcomesStay(a, b);
  }

  // ----- each atomic effect keeps the invariant

  /** A change of rows, history sets, counters or places alone. */
  lemma QuietChange(cfg: Config, a: Store, b: Store)
    requires StoreInv(cfg, a) && RowsSound(b.rows) && KeysUnique(b.rows)
    requires RowsExtend(a.rows, b.rows) && CopiesExtend(a.copies, b.copies)
    requires b.logs == a.logs && b.trace == a.trace && b.outcomes == a.outcomes && a.now <= b.now && |b.copies| == |a.copies|
    ensures StoreInv(cfg, b) && Extends(a, b)
  {
    assert forall t :: Log(b, t) == Log(a, t);
    AllStay(cfg, a, b);
  }

  lemma RowsOf(cfg: Config, st: Store)
    requires StoreInv(cfg, st)
    ensures RowsSound(st.rows) && KeysUnique(st.rows)
    ensures RowsExtend(st.rows, st.rows) && CopiesExtend(st.copies, st.copies)
  {}

  lemma UpdateStatusKeeps(cfg: Config, st: Store, id: nat, status: Status, ok: bool)
    requires StoreInv(cfg, st)
    ensures StoreInv(cfg, UpdateStatus(st, id, status, ok)) && Extends(st, UpdateStatus(st, id, status, ok))
  {
    RowsOf(cfg, st);
    hide StoreInv, Extends;
    QuietChange(cfg, st, UpdateStatus(st, id, status, ok));
  }

  lemma IncrementKeeps(cfg: Config, st: Store, id: nat, ok: bool)
    requires StoreInv(cfg, st)
    ensures StoreInv(cfg, IncrementRetry(st, id, ok)) && Extends(st, IncrementRetry(st, id, ok))
  {
    RowsOf(cfg, st);
    hide StoreInv, Extends;
    QuietChange(cfg, st, IncrementRetry(st, id, ok));
  }

  lemma MoveKeeps(cfg: Config, st: Store, copy: nat, p: Place, runs: nat)
    requires StoreInv(cfg, st)
    ensures StoreInv(cfg, Move(st, copy, p).(runs := runs)) && Extends(st, Move(st, copy, p).(runs := runs))
  {
    RowsOf(cfg, st);
    hide StoreInv, Extends, RowsSound, KeysUnique, RowsExtend;
    QuietChange(cfg, st, Move(st, copy, p).(runs := runs));
  }

  lemma InsertKeeps(cfg: Config, st: Store, n: Notice)
    requires StoreInv(cfg, st) && Insertable(st, n) && Known(n)
    ensures StoreInv(cfg, InsertRow(st, n)) && Extends(st, InsertRow(st, n))
  {
    RowsOf(cfg, st);
    hide StoreInv, Extends;
    QuietChange(cfg, st, InsertRow(st, n));
  }

  lemma GuardedCancelKeeps(cfg: Config, st: Store, id: nat)
    requires StoreInv(cfg, st)
    ensures StoreInv(cfg, GuardedCancel(st, id)) && Extends(st, GuardedCancel(st, id))
  {
    RowsOf(cfg, st);
    hide StoreInv, Extends;
    QuietChange(cfg, st, GuardedCancel(st, id));
  }

  lemma ExtendsItself(st: Store)
    ensures Extends(st, st)
  {}

  lemma RecordKeeps(cfg: Config, st: Store, e: Event)
    requires StoreInv(cfg, st) && e.at == st.now && (e.Sent? ==> SendSound(st, e))
    ensures StoreInv(cfg, Record(st, e)) && Extends(st, Record(st, e))
  {
    var b := Record(st, e);
    assert forall t :: Log(b, t) == Log(st, t);
    AllStay(cfg, st, b);
    assert EventSound(b, e);
  }

  lemma SettleKeeps(cfg: Config, st: Store, t: Topic, o: nat, out: Outcome)
    requires StoreInv(cfg, st) && OutcomeSound(st, t, o, out)
    ensures StoreInv(cfg, Settle(st, t, o, out)) && Extends(st, Settle(st, t, o, out))
    ensures (t, o) in Settle(st, t, o, out).outcomes
  {
    var b := Settle(st, t, o, out);
    assert forall u :: Log(b, u) == Log(st, u);
    assert Extends(st, b);
    AllStay(cfg, st, b);
    OutcomeStays(st, b, t, o, out);
  }

  lemma AppendKeeps(cfg: Config, st: Store, t: Topic, e: Entry)
    requires StoreInv(cfg, st) && EntrySound(cfg, st, t, e)
    ensures StoreInv(cfg, Append(st, t, e)) && Extends(st, Append(st, t, e))
    ensures Log(Append(st, t, e), t) == Log(st, t) + [e]
  {
    var b := Append(st, t, e);
    assert forall u :: Log(b, u) == if u == t then Log(st, t) + [e] else Log(st, u);
    AllStay(cfg, st, b);
    forall u, o | 0 <= o < |Log(b, u)|
      ensures EntrySound(cfg, b, u, Log(b, u)[o])
    {
      if o < |Log(st, u)| { assert Log(b, u)[o] == Log(st, u)[o]; } else { assert EntrySound(cfg, b, t, e); }
    }
  }

  lemma PublishKeeps(cfg: Config, st: Store, m: Msg)
    requires StoreInv(cfg, st) && MsgSound(st, m) && DueBy(m.n, st.now)
    ensures StoreInv(cfg, Publish(st, m)) && Extends(st, Publish(st, m))
  {
    var t := WorkTopic(m.n);
    var e := Entry(Some(m), |st.copies|, st.now, None);
    var b := Publish(st, m);
    assert forall u :: Log(b, u) == if u == t then Log(st, t) + [e] else Log(st, u);
    AllStay(cfg, st, b);
    forall u, o | 0 <= o < |Log(b, u)|
      ensures EntrySound(cfg, b, u, Log(b, u)[o])
    {
      if o < |Log(st, u)| { assert Log(b, u)[o] == Log(st, u)[o]; } else { assert EntrySound(cfg, b, t, e); }
    }
    assert CopySound(b, |st.copies|);
  }

  // ----- consumers

  /** Handled as far as the outcome goes: every record below this offset has a recorded outcome. */
  function SettledBelow(c: Consumer): nat {
    if c.act.Busy? && c.act.pc != MarkDelivered && c.act.pc != CommitOffset then c.act.offset else c.pos
  }

  /** Waited for: on the retry topic, the time of every record below this offset has been reached. */
  function WaitedBelow(c: Consumer): nat {
    if c.act.Busy? && c.act.pc == AwaitTime then c.act.offset else c.pos
  }

  predicate Counted(pc: Pc) { pc == MarkFailed || pc == ToDeadLetter || pc == ToRetry }

  predicate HandlerSound(cfg: Config, st: Store, t: Topic, h: Activity)
    requires h.Busy?
  {
    && h.offset < |Log(st, t)|
    && var e := Log(st, t)[h.offset];
    && e.msg.Some? && e.copy == h.copy && e.msg.value.n == h.msg.n
    && h.pc != NilLimiter
    && (h.pc == AwaitTime || h.pc == RetryLimiter ==> t == Retry)
    && (h.pc != CommitOffset ==> h.msg.retryCount == e.msg.value.retryCount + if Counted(h.pc) then 1 else 0)
    && (h.pc == ToRetry ==> h.msg.retryCount < cfg.maxRetries)
    && (h.pc == MarkFailed || h.pc == ToDeadLetter ==> h.msg.retryCount >= cfg.maxRetries)
  }

  ghost predicate Waited(st: Store, bound: nat) {
    forall o :: 0 <= o < bound && o < |Log(st, Retry)| ==> TimeReached(st, Retry, o)
  }

  ghost predicate ConsumerInv(cfg: Config, st: Store, t: Topic, c: Consumer) {
    && Consumed(t)
    && c.committed <= c.pos <= |Log(st, t)|
    && (forall o: nat :: o < SettledBelow(c) ==> (t, o) in st.outcomes)
    && (t == Retry ==> Waited(st, WaitedBelow(c)))
    && (!c.act.Idle? ==> c.act.offset + 1 == c.pos && c.committed <= c.act.offset)
    && (c.act.Busy? ==> HandlerSound(cfg, st, t, c.act))
  }

  lemma ConsumerStays(cfg: Config, a: Store, b: Store, t: Topic, c: Consumer)
    requires ConsumerInv(cfg, a, t, c) && Extends(a, b)
    ensures ConsumerInv(cfg, b, t, c)
  {
    assert Log(a, t) <= Log(b, t);
    if t == Retry {
      forall o | 0 <= o < WaitedBelow(c) && o < |Log(b, Retry)|
        ensures TimeReached(b, Retry, o)
      {
        assert TimeReached(a, Retry, o);
      }
    }
  }

  /** The record a handler works on is sound, and known to be routable. */
  lemma HandlersEntry(cfg: Config, st: Store, t: Topic, h: Activity)
    requires StoreInv(cfg, st) && h.Busy? && HandlerSound(cfg, st, t, h)
    ensures BodySound(cfg, st, t, Log(st, t)[h.offset], Log(st, t)[h.offset].msg.value)
    ensures MsgSound(st, h.msg) && Known(h.msg.n) && DueBy(h.msg.n, st.now)
    ensures h.copy < |st.copies| && st.copies[h.copy].first.n == h.msg.n
  {
    assert EntrySound(cfg, st, t, Log(st, t)[h.offset]);
  }

  lemma GiveUpKeeps(cfg: Config, st: Store, t: Topic, h: Activity)
    requires StoreInv(cfg, st) && h.Busy? && HandlerSound(cfg, st, t, h)
    ensures StoreInv(cfg, GiveUp(st, t, h).0) && Extends(st, GiveUp(st, t, h).0)
    ensures (t, h.offset) in GiveUp(st, t, h).0.outcomes
  {
    hide StoreInv, Extends;
    var s1 := Settle(st, t, h.offset, HandlerError);
    SettleKeeps(cfg, st, t, h.offset, HandlerError);
    MoveKeeps(cfg, s1, h.copy, Lost(t, h.offset), st.runs + 1);
    ExtendsTransitive(st, s1, GiveUp(st, t, h).0);
  }

  lemma DeliverKeeps(cfg: Config, st: Store, t: Topic, h: Activity, ok: bool, jitter: real)
    requires StoreInv(cfg, st) && h.Busy? && HandlerSound(cfg, st, t, h) && h.pc == Deliver && IsJitter(jitter)
    requires Consumed(t) && (t == Retry ==> Waited(st, h.offset + 1))
    ensures var r := HandlerStep(cfg, st, t, h, ok, jitter);
      StoreInv(cfg, r.0) && Extends(st, r.0) && (ok ==> (t, h.offset) in r.0.outcomes)
  {
    HandlersEntry(cfg, st, t, h);
    var e := Sent(t, LimiterChannel(t, h.msg), h.offset, h.copy, h.msg, ok, st.now);
    assert EntrySound(cfg, st, t, Log(st, t)[h.offset]);
    if t == Retry {
      forall o | 0 <= o <= h.offset && o < |Log(st, Retry)|
        ensures WaitedFor(Log(st, Retry)[o], st.now)
      {
        assert TimeReached(st, Retry, o);
      }
    }
    RecordKeeps(cfg, st, e);
    var s1 := Record(st, e);
    if ok {
      assert s1.trace[|st.trace|] == e;
      SettleKeeps(cfg, s1, t, h.offset, Accepted(|st.trace|));
      ExtendsTransitive(st, s1, Settle(s1, t, h.offset, Accepted(|st.trace|)));
    }
  }

  /** Appending the next copy of a failed message and recording it as this record's outcome. */
  lemma ForwardKeeps(cfg: Config, st: Store, t: Topic, h: Activity, to: Topic, e: Entry, out: Outcome, p: Place)
    requires StoreInv(cfg, st) && h.Busy? && HandlerSound(cfg, st, t, h) && Counted(h.pc)
    requires EntrySound(cfg, st, to, e) && e.msg == Some(h.msg) && e.copy == h.copy
    requires (to == Retry && out == Forwarded(|Log(st, to)|)) || (to == DeadLetter && out == DeadLettered(|Log(st, to)|))
    ensures var r := Move(Settle(Append(st, to, e), t, h.offset, out), h.copy, p).(runs := st.runs + 1);
      StoreInv(cfg, r) && Extends(st, r) && (t, h.offset) in r.outcomes
  {
    var s1 := Append(st, to, e);
    AppendKeeps(cfg, st, to, e);
    assert Log(st, t) <= Log(s1, t);
    assert IsChild(s1, Log(s1, t)[h.offset], to, |Log(st, to)|);
    var s2 := Settle(s1, t, h.offset, out);
    SettleKeeps(cfg, s1, t, h.offset, out);
    ExtendsTransitive(st, s1, s2);
    MoveKeeps(cfg, s2, h.copy, p, st.runs + 1);
    ExtendsTransitive(st, s2, Move(s2, h.copy, p).(runs := st.runs + 1));
  }

  lemma RetryAtKeepsBackoff(cfg: Config, now: int, attempt: nat, jitter: real)
    requires attempt >= 1 && IsJitter(jitter)
    ensures RetryAt(cfg, now, attempt, jitter) > now + MinDelay(cfg.baseDelay, attempt) - SECOND
    ensures RetryAt(cfg, now, attempt, jitter) <= now + MinDelay(cfg.baseDelay, attempt) + cfg.baseDelay
  {
    HeaderKeepsBackoff(now, cfg.baseDelay, attempt, jitter);
  }

  lemma RetryEntrySound(cfg: Config, st: Store, t: Topic, h: Activity, jitter: real)
    requires StoreInv(cfg, st) && h.Busy? && HandlerSound(cfg, st, t, h) && h.pc == ToRetry && IsJitter(jitter)
    ensures EntrySound(cfg, st, Retry, Entry(Some(h.msg), h.copy, st.now, Some(RetryAt(cfg, st.now, h.msg.retryCount, jitter))))
  {
    HandlersEntry(cfg, st, t, h);
    RetryAtKeepsBackoff(cfg, st.now, h.msg.retryCount, jitter);
  }

  lemma ToRetryAtKeeps(cfg: Config, st: Store, t: Topic, h: Activity, at: int)
    requires StoreInv(cfg, st) && h.Busy? && HandlerSound(cfg, st, t, h) && h.pc == ToRetry
    requires EntrySound(cfg, st, Retry, Entry(Some(h.msg), h.copy, st.now, Some(at)))
    ensures var r := PublishRetryAt(st, t, h, at); StoreInv(cfg, r) && Extends(st, r) && (t, h.offset) in r.outcomes
  {
    hide StoreInv, Extends;
    var offset := |Log(st, Retry)|;
    var e := Entry(Some(h.msg), h.copy, st.now, Some(at));
    ForwardKeeps(cfg, st, t, h, Retry, e, Forwarded(offset), Unread(Retry, offset, h.msg.retryCount));
  }

  lemma ToRetryKeeps(cfg: Config, st: Store, t: Topic, h: Activity, jitter: real)
    requires StoreInv(cfg, st) && h.Busy? && HandlerSound(cfg, st, t, h) && h.pc == ToRetry && IsJitter(jitter)
    ensures var r := PublishRetry(cfg, st, t, h, jitter); StoreInv(cfg, r) && Extends(st, r) && (t, h.offset) in r.outcomes
  {
    hide StoreInv, Extends, EntrySound;
    RetryEntrySound(cfg, st, t, h, jitter);
    ToRetryAtKeeps(cfg, st, t, h, RetryAt(cfg, st.now, h.msg.retryCount, jitter));
  }

  lemma ToDeadLetterKeeps(cfg: Config, st: Store, t: Topic, h: Activity)
    requires StoreInv(cfg, st) && h.Busy? && HandlerSound(cfg, st, t, h) && h.pc == ToDeadLetter
    ensures var r := PublishDeadLetter(st, t, h); StoreInv(cfg, r) && Extends(st, r) && (t, h.offset) in r.outcomes
  {
    hide StoreInv, Extends;
    HandlersEntry(cfg, st, t, h);
    var offset := |Log(st, DeadLetter)|;
    ForwardKeeps(cfg, st, t, h, DeadLetter, Entry(Some(h.msg), h.copy, st.now, None), DeadLettered(offset), InDeadLetter(offset));
  }

  lemma StartedKeeps(cfg: Config, st: Store, id: nat, ok: bool)
    requires StoreInv(cfg, st)
    ensures StoreInv(cfg, MarkStarted(st, id, ok)) && Extends(st, MarkStarted(st, id, ok))
  {
    RowsOf(cfg, st);
    hide StoreInv, Extends, RowsSound, KeysUnique, RowsExtend, CopiesExtend;
    QuietChange(cfg, st, MarkStarted(st, id, ok));
  }

  lemma LimiterKeeps(cfg: Config, st: Store, t: Topic, h: Activity, ok: bool, jitter: real)
    requires StoreInv(cfg, st) && h.Busy? && HandlerSound(cfg, st, t, h) && IsJitter(jitter)
    requires h.pc == AwaitTime || h.pc == RetryLimiter || h.pc == Limiter
    ensures var r := HandlerStep(cfg, st, t, h, ok, jitter);
      StoreInv(cfg, r.0) && Extends(st, r.0) && (r.1.pc == CommitOffset ==> (t, h.offset) in r.0.outcomes) && r.1.pc != MarkDelivered
  {
    HandlersEntry(cfg, st, t, h);
    ExtendsItself(st);
    hide StoreInv, Extends;
    if h.pc != AwaitTime {
      if ok { RecordKeeps(cfg, st, Admitted(t, LimiterChannel(t, h.msg), st.now)); } else { GiveUpKeeps(cfg, st, t, h); }
    }
  }

  lemma MarkKeeps(cfg: Config, st: Store, t: Topic, h: Activity, ok: bool, jitter: real)
    requires StoreInv(cfg, st) && h.Busy? && IsJitter(jitter)
    requires h.pc == MarkProcessing || h.pc == MarkDelivered || h.pc == MarkFailed || h.pc == CountFailure
    ensures var r := HandlerStep(cfg, st, t, h, ok, jitter);
      StoreInv(cfg, r.0) && Extends(st, r.0)
  {
    hide StoreInv, Extends;
    var id := h.msg.n.id;
    match h.pc
    case MarkProcessing =>
      var s1 := UpdateStatus(st, id, Processing, ok);
      UpdateStatusKeeps(cfg, st, id, Processing, ok);
      StartedKeeps(cfg, s1, id, ok);
      ExtendsTransitive(st, s1, MarkStarted(s1, id, ok));
    case MarkDelivered =>
      var s1 := UpdateStatus(st, id, Delivered, ok);
      UpdateStatusKeeps(cfg, st, id, Delivered, ok);
      MoveKeeps(cfg, s1, h.copy, Arrived, st.runs + 1);
      ExtendsTransitive(st, s1, Move(s1, h.copy, Arrived).(runs := st.runs + 1));
    case CountFailure => IncrementKeeps(cfg, st, id, ok);
    case MarkFailed => UpdateStatusKeeps(cfg, st, id, Failed, ok);
  }

  lemma HandOffKeeps(cfg: Config, st: Store, t: Topic, h: Activity, ok: bool, jitter: real)
    requires StoreInv(cfg, st) && h.Busy? && HandlerSound(cfg, st, t, h) && IsJitter(jitter)
    requires h.pc == ToDeadLetter || h.pc == ToRetry
    ensures var r := HandlerStep(cfg, st, t, h, ok, jitter);
      StoreInv(cfg, r.0) && Extends(st, r.0) && (t, h.offset) in r.0.outcomes
  {
    hide StoreInv, Extends;
    if !ok { GiveUpKeeps(cfg, st, t, h); }
    else if h.pc == ToRetry { ToRetryKeeps(cfg, st, t, h, jitter); }
    else { ToDeadLetterKeeps(cfg, st, t, h); }
  }

  /** Every call a handler makes keeps the stores sound, and settles the record before it returns. */
  lemma HandlerStoreKeeps(cfg: Config, st: Store, t: Topic, c: Consumer, ok: bool, jitter: real)
    requires StoreInv(cfg, st) && ConsumerInv(cfg, st, t, c) && c.act.Busy? && c.act.pc != CommitOffset && IsJitter(jitter)
    ensures var r := HandlerStep(cfg, st, t, c.act, ok, jitter);
      && StoreInv(cfg, r.0) && Extends(st, r.0)
      && (r.1.pc == CommitOffset || r.1.pc == MarkDelivered ==> (t, c.act.offset) in r.0.outcomes)
  {
    assert c.act.pc == MarkDelivered ==> c.act.offset < SettledBelow(c);
    match c.act.pc {
      case AwaitTime | RetryLimiter | Limiter => LimiterKeeps(cfg, st, t, c.act, ok, jitter);
      case Deliver =>
        DeliverKeeps(cfg, st, t, c.act, ok, jitter);
      case ToDeadLetter | ToRetry => HandOffKeeps(cfg, st, t, c.act, ok, jitter);
      case _ => MarkKeeps(cfg, st, t, c.act, ok, jitter);
    }
  }

  /** What a handler knows of its record is unaffected by its own next call. */
  lemma HandlerLocalKeeps(cfg: Config, st: Store, t: Topic, h: Activity, ok: bool, jitter: real)
    requires StoreInv(cfg, st) && h.Busy? && HandlerSound(cfg, st, t, h) && h.pc != CommitOffset && IsJitter(jitter)
    ensures var r := HandlerStep(cfg, st, t, h, ok, jitter).1;
      && r.Busy? && r.offset == h.offset && r.pc != AwaitTime && HandlerSound(cfg, st, t, r)
      && (r.pc == MarkDelivered || r.pc == CommitOffset || SettledBelow(Consumer(h.offset + 1, 0, r)) == h.offset)
  {
    HandlersEntry(cfg, st, t, h);
  }

  /** A consumer whose handler moved on to `h`, over stores that only grew. */
  lemma ConsumerAdvances(cfg: Config, a: Store, b: Store, t: Topic, c: Consumer, h: Activity)
    requires ConsumerInv(cfg, a, t, c) && c.act.Busy? && ConsumerReady(a, t, c) && Extends(a, b)
    requires h.Busy? && h.offset == c.act.offset && h.pc != AwaitTime && HandlerSound(cfg, b, t, h)
    requires h.pc == CommitOffset || h.pc == MarkDelivered ==> (t, h.offset) in b.outcomes
    ensures ConsumerInv(cfg, b, t, c.(act := h))
  {
    ConsumerStays(cfg, a, b, t, c);
    var c' := c.(act := h);
    forall o: nat | o < SettledBelow(c')
      ensures (t, o) in b.outcomes
    {
      assert o < SettledBelow(c) || o == h.offset;
    }
    if t == Retry {
      assert Log(a, t) <= Log(b, t);
      forall o | 0 <= o < WaitedBelow(c') && o < |Log(b, Retry)|
        ensures TimeReached(b, Retry, o)
      {
        assert o < WaitedBelow(c) || o == c.act.offset;
      }
    }
  }

  lemma HandlerSoundStays(cfg: Config, a: Store, b: Store, t: Topic, h: Activity)
    requires h.Busy? && HandlerSound(cfg, a, t, h) && Extends(a, b)
    ensures HandlerSound(cfg, b, t, h)
  {
    assert Log(a, t) <= Log(b, t);
  }

  lemma HandlerKeeps(cfg: Config, st: Store, t: Topic, c: Consumer, ok: bool, jitter: real)
    requires StoreInv(cfg, st) && ConsumerInv(cfg, st, t, c) && c.act.Busy? && c.act.pc != CommitOffset && IsJitter(jitter)
    requires ConsumerReady(st, t, c)
    ensures var r := HandlerStep(cfg, st, t, c.act, ok, jitter);
      StoreInv(cfg, r.0) && Extends(st, r.0) && ConsumerInv(cfg, r.0, t, c.(act := r.1))
  {
    hide StoreInv, Extends, HandlerStep;
    var r := HandlerStep(cfg, st, t, c.act, ok, jitter);
    HandlerStoreKeeps(cfg, st, t, c, ok, jitter);
    HandlerLocalKeeps(cfg, st, t, c.act, ok, jitter);
    HandlerSoundStays(cfg, st, r.0, t, r.1);
    ConsumerAdvances(cfg, st, r.0, t, c, r.1);
  }

  /** A consumer that took up the next record, over stores that only grew. */
  lemma ConsumerFetches(cfg: Config, a: Store, b: Store, t: Topic, c: Consumer, act: Activity)
    requires ConsumerInv(cfg, a, t, c) && c.act.Idle? && c.pos < |Log(a, t)| && Extends(a, b)
    requires !act.Idle? && act.offset == c.pos
    requires act.Busy? ==> HandlerSound(cfg, b, t, act) && act.pc == if t == Retry then AwaitTime else Limiter
    requires act.Skipping? ==> (t, c.pos) in b.outcomes && TimeReached(b, t, c.pos)
    ensures ConsumerInv(cfg, b, t, c.(pos := c.pos + 1, act := act))
  {
    ConsumerStays(cfg, a, b, t, c);
    assert Log(a, t) <= Log(b, t);
    var c' := c.(pos := c.pos + 1, act := act);
    forall o: nat | o < SettledBelow(c')
      ensures (t, o) in b.outcomes
    {
      assert o < SettledBelow(c) || o == c.pos;
    }
    if t == Retry {
      forall o | 0 <= o < WaitedBelow(c') && o < |Log(b, Retry)|
        ensures TimeReached(b, Retry, o)
      {
        assert o < WaitedBelow(c) || o == c.pos;
      }
    }
  }

  lemma FetchKeeps(cfg: Config, st: Store, t: Topic, c: Consumer)
    requires StoreInv(cfg, st) && ConsumerInv(cfg, st, t, c) && c.act.Idle? && c.pos < |Log(st, t)|
    ensures var r := FetchStep(st, t, c);
      StoreInv(cfg, r.0) && Extends(st, r.0) && ConsumerInv(cfg, r.0, t, r.1)
  {
    var e := Log(st, t)[c.pos];
    var r := FetchStep(st, t, c);
    assert EntrySound(cfg, st, t, e);
    hide StoreInv, Extends;
    if e.msg.None? {
      SettleKeeps(cfg, st, t, c.pos, Unparsable);
    } else {
      MoveKeeps(cfg, st, e.copy, Held(t, e.msg.value.retryCount), st.runs);
    }
    assert Log(r.0, t) == Log(st, t);
    ConsumerFetches(cfg, st, r.0, t, c, r.1.act);
  }

  /** Committing an offset, or failing to, ends the round. */
  lemma CommitKeeps(cfg: Config, st: Store, t: Topic, c: Consumer, ok: bool)
    requires ConsumerInv(cfg, st, t, c) && (c.act.Skipping? || (c.act.Busy? && c.act.pc == CommitOffset))
    ensures ConsumerInv(cfg, st, t, CommitStep(c, ok))
  {}
}
