/** Counting in the history of limiter admissions and Sends. */
module Ledger {
  import opened Domain
  import opened Backoff
  import opened Protocol

  /** What is counted: Sends by notification, by copy, or by consumer; admissions by consumer. */
  datatype Query =
    | SendsFor(id: nat)
    | FailedFor(id: nat)
    | AcceptedFor(id: nat)
    | SendsOf(copy: nat)
    | AcceptedOf(copy: nat)
    | SentBy(topic: Topic, channel: Channel)
    | AdmittedBy(topic: Topic, channel: Channel)
    | SentOnWork(channel: Channel)
    | AdmittedOnWork(channel: Channel)

  predicate Matches(q: Query, e: Event) {
    match q
    case SendsFor(id) => e.Sent? && e.msg.n.id == id
    case FailedFor(id) => e.Sent? && e.msg.n.id == id && !e.ok
    case AcceptedFor(id) => e.Sent? && e.msg.n.id == id && e.ok
    case SendsOf(c) => e.Sent? && e.copy == c
    case AcceptedOf(c) => e.Sent? && e.copy == c && e.ok
    case SentBy(t, ch) => e.Sent? && e.topic == t && e.channel == ch
    case AdmittedBy(t, ch) => e.Admitted? && e.topic == t && e.channel == ch
    case SentOnWork(ch) => e.Sent? && e.topic.Work? && e.channel == ch
    case AdmittedOnWork(ch) => e.Admitted? && e.topic.Work? && e.channel == ch
  }

  function Count(trace: seq<Event>, q: Query): nat {
    if trace == [] then 0
    else Count(trace[..|trace| - 1], q) + if Matches(q, trace[|trace| - 1]) then 1 else 0
  }

  lemma CountAppend(trace: seq<Event>, e: Event, q: Query)
    ensures Count(trace + [e], q) == Count(trace, q) + if Matches(q, e) then 1 else 0
  {
    assert (trace + [e])[..|trace|] == trace;
  }

  lemma {:induction false} CountNone(trace: seq<Event>, q: Query)
    requires forall k :: 0 <= k < |trace| ==> !Matches(q, trace[k])
    ensures Count(trace, q) == 0
  {
    if trace != [] { CountNone(trace[..|trace| - 1], q); }
  }

  lemma {:induction false} CountSome(trace: seq<Event>, q: Query, k: nat)
    requires k < |trace| && Matches(q, trace[k])
    ensures Count(trace, q) >= 1
  {
    if k < |trace| - 1 { CountSome(trace[..|trace| - 1], q, k); }
  }

  lemma {:induction false} CountWithin(trace: seq<Event>, q: Query, r: Query)
    requires forall k :: 0 <= k < |trace| && Matches(q, trace[k]) ==> Matches(r, trace[k])
    ensures Count(trace, q) <= Count(trace, r)
  {
    if trace != [] { CountWithin(trace[..|trace| - 1], q, r); }
  }

  function Indicator(b: bool): nat { if b then 1 else 0 }

  /** What a handler's call adds to the events: an admission, a Send, or nothing. */
  lemma HandlerTrace(cfg: Config, st: Store, t: Topic, h: Activity, ok: bool, jitter: real, q: Query)
    requires h.Busy? && h.pc != CommitOffset && h.pc != NilLimiter && IsJitter(jitter)
    ensures var st' := HandlerStep(cfg, st, t, h, ok, jitter).0;
      var e := if h.pc == Deliver then Sent(t, LimiterChannel(t, h.msg), h.offset, h.copy, h.msg, ok, st.now)
               else Admitted(t, LimiterChannel(t, h.msg), st.now);
      if h.pc == Deliver || (ok && (h.pc == Limiter || (h.pc == RetryLimiter && KnownChannel(h.msg.n.channel))))
      then st'.trace == st.trace + [e] && Count(st'.trace, q) == Count(st.trace, q) + Indicator(Matches(q, e))
      else st'.trace == st.trace
  {
    var st' := HandlerStep(cfg, st, t, h, ok, jitter).0;
    hide Count, Matches;
    if st'.trace != st.trace {
      if h.pc == Deliver { CountAppend(st.trace, Sent(t, LimiterChannel(t, h.msg), h.offset, h.copy, h.msg, ok, st.now), q); }
      else { CountAppend(st.trace, Admitted(t, LimiterChannel(t, h.msg), st.now), q); }
    }
  }
}
