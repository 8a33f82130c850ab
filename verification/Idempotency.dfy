/** One idempotency key, end to end: one row, one copy, one delivery. */
module Idempotency {
  import opened Protocol
  import opened Safety
  import opened Pipeline
  import opened Ledger
  import Copies
  import PublishOnce

  /** Copies of a notification without a schedule are one copy. */
  lemma OneCopy(cfg: Config, s: State, c: nat, d: nat)
    requires Reachable(cfg, s) && c < |s.st.copies| && d < |s.st.copies|
    requires s.st.copies[c].first.n.id == s.st.copies[d].first.n.id && s.st.copies[c].first.n.scheduledAt.None?
    ensures c == d && s.st.copies[c].first.retryCount == 0
  {
    PublishOnce.ReachablePublish(cfg, s);
    PublishOnce.CopiesHaveRows(cfg, s.st);
    hide Inv;
  }

  /** A Send of a notification is a Send of one of its copies. */
  lemma SendsHaveCopies(cfg: Config, st: Store, id: nat)
    requires StoreInv(cfg, st)
    ensures forall k :: 0 <= k < |st.trace| && Matches(SendsFor(id), st.trace[k]) ==>
      st.trace[k].copy < |st.copies| && st.copies[st.trace[k].copy].first.n.id == id
  {
    forall k | 0 <= k < |st.trace| && Matches(SendsFor(id), st.trace[k])
      ensures st.trace[k].copy < |st.copies| && st.copies[st.trace[k].copy].first.n.id == id
    {
      var e := st.trace[k];
      assert EventSound(st, e);
      assert EntrySound(cfg, st, e.topic, Log(st, e.topic)[e.offset]);
    }
  }

  /** With one copy, all Sends of the notification are Sends of that copy. */
  lemma SendsOfTheCopy(cfg: Config, s: State, id: nat, c: nat)
    requires Reachable(cfg, s) && c < |s.st.copies| && s.st.copies[c].first.n.id == id
    requires forall d :: 0 <= d < |s.st.copies| && s.st.copies[d].first.n.id == id ==> d == c
    ensures Count(s.st.trace, AcceptedFor(id)) <= Count(s.st.trace, AcceptedOf(c))
    ensures Count(s.st.trace, SendsFor(id)) <= Count(s.st.trace, SendsOf(c))
  {
    ReachableInv(cfg, s);
    SendsHaveCopies(cfg, s.st, id);
    hide Inv, Reachable, Count;
    forall k | 0 <= k < |s.st.trace| && Matches(SendsFor(id), s.st.trace[k])
      ensures s.st.trace[k].copy == c
    {
      assert s.st.copies[s.st.trace[k].copy].first.n.id == id;
    }
    CountWithin(s.st.trace, SendsFor(id), SendsOf(c));
    CountWithin(s.st.trace, AcceptedFor(id), AcceptedOf(c));
  }

  lemma NeverPublishedNeverSent(cfg: Config, s: State, id: nat)
    requires Reachable(cfg, s) && forall c :: 0 <= c < |s.st.copies| ==> s.st.copies[c].first.n.id != id
    ensures Count(s.st.trace, AcceptedFor(id)) == 0 && Count(s.st.trace, SendsFor(id)) == 0
  {
    ReachableInv(cfg, s);
    SendsHaveCopies(cfg, s.st, id);
    hide Inv, Count;
    CountNone(s.st.trace, SendsFor(id));
    CountNone(s.st.trace, AcceptedFor(id));
  }

  /** Without redelivery, a notification with at most one copy is sent at most max(1, maxRetries) times, and successfully at most once. */
  lemma OneCopyIsSentOnce(cfg: Config, s: State, id: nat)
    requires Reachable(cfg, s) && !s.redelivered
    requires forall c, d :: 0 <= c < d < |s.st.copies| ==> s.st.copies[c].first.n.id != id || s.st.copies[d].first.n.id != id
    ensures Count(s.st.trace, AcceptedFor(id)) <= 1
    ensures Count(s.st.trace, SendsFor(id)) <= if cfg.maxRetries > 1 then cfg.maxRetries else 1
  {
    if c: nat :| c < |s.st.copies| && s.st.copies[c].first.n.id == id {
      hide Reachable, Count;
      SendsOfTheCopy(cfg, s, id, c);
      Copies.AttemptsBeforeDeadLetter(cfg, s, c);
    } else {
      NeverPublishedNeverSent(cfg, s, id);
    }
  }

  /** So is every notification without a schedule. */
  lemma SentAtMostOnce(cfg: Config, s: State, id: nat)
    requires Reachable(cfg, s) && !s.redelivered && id in s.st.rows && s.st.rows[id].n.scheduledAt.None?
    ensures Count(s.st.trace, AcceptedFor(id)) <= 1
    ensures Count(s.st.trace, SendsFor(id)) <= if cfg.maxRetries > 1 then cfg.maxRetries else 1
  {
    ReachableInv(cfg, s);
    PublishOnce.CopiesHaveRows(cfg, s.st);
    hide Inv, Reachable, Count;
    forall c, d | 0 <= c < d < |s.st.copies|
      ensures s.st.copies[c].first.n.id != id || s.st.copies[d].first.n.id != id
    {
      if s.st.copies[c].first.n.id == s.st.copies[d].first.n.id && s.st.copies[c].first.n.scheduledAt.None? { OneCopy(cfg, s, c, d); }
    }
    OneCopyIsSentOnce(cfg, s, id);
  }

  /** A copy of some notification with this key is in the slot. */
  ghost predicate KeyOccupies(s: State, x: Copies.Slot, key: string) {
    exists c: nat :: c < |s.st.copies| && s.st.copies[c].first.n.key == key && Copies.Occupies(s, x, c)
  }

  lemma KeyInOneSlot(cfg: Config, s: State, id: nat, x: Copies.Slot, y: Copies.Slot)
    requires Reachable(cfg, s) && id in s.st.rows && s.st.rows[id].n.key != "" && s.st.rows[id].n.scheduledAt.None? && !s.redelivered
    requires KeyOccupies(s, x, s.st.rows[id].n.key) && KeyOccupies(s, y, s.st.rows[id].n.key)
    ensures x == y
  {
    var key := s.st.rows[id].n.key;
    ReachableInv(cfg, s);
    PublishOnce.CopiesHaveRows(cfg, s.st);
    var c: nat :| c < |s.st.copies| && s.st.copies[c].first.n.key == key && Copies.Occupies(s, x, c);
    var d: nat :| d < |s.st.copies| && s.st.copies[d].first.n.key == key && Copies.Occupies(s, y, d);
    assert s.st.copies[c].first.n.id == id && s.st.copies[d].first.n.id == id;
    hide StoreInv, ConsumersInv, CallsInv, PassesInv, Copies.Occupies;
    OneCopy(cfg, s, c, d);
    Copies.CopiesAreConserved(cfg, s, c);
  }

  /**
   All calls that carry one non-empty idempotency key and no schedule make at most one row; without redelivery that row
   has at most one copy in the whole pipeline at any time, at most one successful Send, and at most max(1, maxRetries) Sends.
   */
  lemma KeyDeliversOnce(cfg: Config, s: State, id: nat)
    requires Reachable(cfg, s) && id in s.st.rows && s.st.rows[id].n.key != "" && s.st.rows[id].n.scheduledAt.None?
    ensures forall j :: j in s.st.rows && s.st.rows[j].n.key == s.st.rows[id].n.key ==> j == id
    ensures !s.redelivered ==>
      forall x, y :: KeyOccupies(s, x, s.st.rows[id].n.key) && KeyOccupies(s, y, s.st.rows[id].n.key) ==> x == y
    ensures !s.redelivered ==>
      (Count(s.st.trace, AcceptedFor(id)) <= 1 && Count(s.st.trace, SendsFor(id)) <= if cfg.maxRetries > 1 then cfg.maxRetries else 1)
  {
    ReachableInv(cfg, s);
    if !s.redelivered {
      SentAtMostOnce(cfg, s, id);
      forall x, y | KeyOccupies(s, x, s.st.rows[id].n.key) && KeyOccupies(s, y, s.st.rows[id].n.key)
        ensures x == y
      {
        hide KeyOccupies;
        KeyInOneSlot(cfg, s, id, x, y);
      }
    }
  }
}
