/**
 The WebSocket hub: a map from notification ids to shared inner sets of connections. `Broadcast` takes an inner set under
 one lock and walks it under another; between the two, connections come and go, and the set may be dropped from the map.
 */
module Hub {

  import opened Domain

  // ----- the table by its value

  type Table = map<string, set<nat>>

  datatype Op = Join(id: string, conn: nat) | Leave(id: string, conn: nat)

  function Conns(table: Table, id: string): set<nat> { if id in table then table[id] else {} }

  function Apply(table: Table, op: Op): Table {
    match op
    case Join(id, conn) => table[id := Conns(table, id) + {conn}]
    case Leave(id, conn) =>
      if id !in table then table
      else if table[id] - {conn} == {} then table - {id}
      else table[id := table[id] - {conn}]
  }

  function ApplyAll(table: Table, ops: seq<Op>): Table {
    if ops == [] then table else Apply(ApplyAll(table, ops[..|ops| - 1]), ops[|ops| - 1])
  }

  /** Subscriptions whose reader has not yet unsubscribed. */
  function Open(pending: set<(string, nat)>, op: Op): set<(string, nat)> {
    match op
    case Join(id, conn) => pending + {(id, conn)}
    case Leave(id, conn) => pending - {(id, conn)}
  }

  function OpenAll(pending: set<(string, nat)>, ops: seq<Op>): set<(string, nat)> {
    if ops == [] then pending else Open(OpenAll(pending, ops[..|ops| - 1]), ops[|ops| - 1])
  }

  /** The id's key, and so its inner set, is there throughout. */
  predicate Kept(table: Table, id: string, ops: seq<Op>) { forall k :: 0 <= k <= |ops| ==> id in ApplyAll(table, ops[..k]) }

  /** Whom a broadcast with these operations in its lock gap writes to. */
  function Reached(table: Table, id: string, gap: seq<Op>): set<nat> {
    if Kept(table, id, gap) then Conns(ApplyAll(table, gap), id) else {}
  }

  /** The table after it: the connections whose write failed are dropped, though a set that they leave empty stays. */
  function AfterBroadcast(table: Table, id: string, gap: seq<Op>, broken: set<nat>): Table {
    var after := ApplyAll(table, gap);
    if Kept(table, id, gap) && id in after then after[id := after[id] - broken] else after
  }

  /** What the listener hears: a payload that parses to an update of an id or does not parse, and what happens around it. */
  datatype Heard = Heard(before: seq<Op>, update: Option<string>, gap: seq<Op>, broken: set<nat>)

  function AfterHearing(table: Table, e: Heard): Table {
    var t := ApplyAll(table, e.before);
    if e.update.None? then ApplyAll(t, e.gap) else AfterBroadcast(t, e.update.value, e.gap, e.broken)
  }

  function AfterAll(table: Table, events: seq<Heard>): Table {
    if events == [] then table else AfterHearing(AfterAll(table, events[..|events| - 1]), events[|events| - 1])
  }

  function OpenAfterAll(pending: set<(string, nat)>, events: seq<Heard>): set<(string, nat)> {
    if events == [] then pending
    else
      var e := events[|events| - 1];
      OpenAll(OpenAll(OpenAfterAll(pending, events[..|events| - 1]), e.before), e.gap)
  }

  /** For an update, each connection that its broadcast reaches is written to once; for a payload that does not parse, none is. */
  predicate WrittenFor(table: Table, events: seq<Heard>, i: nat, written: seq<nat>)
    requires i < |events|
  {
    var e := events[i];
    var t := ApplyAll(AfterAll(table, events[..i]), e.before);
    && (forall j, k :: 0 <= j < k < |written| ==> written[j] != written[k])
    && if e.update.None? then written == []
       else (forall c :: c in written ==> c in Reached(t, e.update.value, e.gap))
            && forall c :: c in Reached(t, e.update.value, e.gap) ==> c in written
  }

  // ----- the inner maps and the hub

  class ConnSet {
    var conns: set<nat>

    constructor ()
      ensures conns == {}
    {
      conns := {};
    }
  }

  class WSHub {
    var subscribers: map<string, ConnSet>

    /** Every inner set ever made, with those that are no longer in the map. */
    ghost var sets: set<ConnSet>

    /** Who has subscribed to what and not yet unsubscribed. */
    ghost var pending: set<(string, nat)>

    /** Each key has an inner set of its own, holds open subscriptions only, and is there because of some open one. */
    ghost predicate Valid()
      reads this, sets
    {
      && (forall id :: id in subscribers ==> subscribers[id] in sets)
      && (forall i, j :: i in subscribers && j in subscribers && i != j ==> subscribers[i] != subscribers[j])
      && (forall id :: id in subscribers ==>
            (exists c :: (id, c) in pending) && forall c :: c in subscribers[id].conns ==> (id, c) in pending)
    }

    ghost function View(): Table
      requires Valid()
      reads this, sets
    {
      map id | id in subscribers :: subscribers[id].conns
    }

    constructor ()
      ensures Valid() && View() == map[] && pending == {} && sets == {}
    {
      subscribers, sets, pending := map[], {}, {};
    }

    /** Inner sets that are out of the map stay out, untouched, and one that is in the map leaves it only when empty. */
    twostate predicate Stable()
      reads this, sets
    {
      && old(sets) <= sets && fresh(sets - old(sets))
      && (forall s :: s in old(sets) && s !in old(subscribers.Values) ==> s !in subscribers.Values && s.conns == old(s.conns))
      && (forall id :: id in old(subscribers) && old(subscribers[id]) in old(sets) ==>
            if id in subscribers then subscribers[id] == old(subscribers[id])
            else old(subscribers[id]) !in subscribers.Values && old(subscribers[id]).conns == {})
    }

    method Subscribe(id: string, conn: nat)
      requires Valid()
      modifies this, sets
      ensures Valid() && Stable()
      ensures View() == Apply(old(View()), Join(id, conn)) && pending == Open(old(pending), Join(id, conn))
    {
      hide View;
      if id !in subscribers { MakeInner(id, conn); }
      AddConn(subscribers[id], id, conn);
    }

    /** The connection enters the inner set of its id. */
    method AddConn(inner: ConnSet, id: string, conn: nat)
      requires Valid() && id in subscribers && subscribers[id] == inner
      modifies this`pending, inner
      ensures Valid() && View() == old(View())[id := Conns(old(View()), id) + {conn}] && pending == old(pending) + {(id, conn)}
    {
      pending := pending + {(id, conn)};
      inner.conns := inner.conns + {conn};
    }

    /** A key, for an id that had none. */
    method MakeInner(id: string, ghost conn: nat)
      requires Valid() && id !in subscribers
      modifies this
      ensures Valid() && pending == old(pending) + {(id, conn)} && fresh(sets - old(sets)) && old(sets) <= sets
      ensures id in subscribers && fresh(subscribers[id]) && subscribers == old(subscribers)[id := subscribers[id]]
      ensures View() == old(View())[id := {}] && id !in old(View())
    {
      pending := pending + {(id, conn)};
      var inner := new ConnSet();
      subscribers := subscribers[id := inner];
      sets := sets + {inner};
    }

    method Unsubscribe(id: string, conn: nat)
      requires Valid()
      modifies this, sets
      ensures Valid() && Stable()
      ensures View() == Apply(old(View()), Leave(id, conn)) && pending == Open(old(pending), Leave(id, conn))
    {
      pending := pending - {(id, conn)};
      if id in subscribers {
        var inner := subscribers[id];
        inner.conns := inner.conns - {conn};
        if inner.conns == {} { subscribers := subscribers - {id}; }
      }
    }

    /** The alias a broadcast holds of an inner set: still the map's own, or out of the map and empty. */
    ghost predicate Alias(inner: ConnSet, id: string, kept: bool)
      reads this, inner
    {
      && inner in sets
      && if kept then id in subscribers && subscribers[id] == inner else inner !in subscribers.Values && inner.conns == {}
    }

    /** Another request's operation, while a broadcast may hold an alias. */
    method Perform(op: Op, ghost inner: ConnSet?, ghost id: string, ghost kept: bool)
      requires Valid() && (inner != null ==> Alias(inner, id, kept))
      modifies this, sets
      ensures Valid() && old(sets) <= sets && fresh(sets - old(sets))
      ensures View() == Apply(old(View()), op) && pending == Open(old(pending), op)
      ensures inner != null ==> Alias(inner, id, kept && id in subscribers)
    {
      if op.Join? { Subscribe(op.id, op.conn); } else { Unsubscribe(op.id, op.conn); }
    }

    /** What other requests do while a broadcast is between its two locks. */
    method Interleave(ops: seq<Op>, ghost id: string)
      requires Valid()
      modifies this, sets
      ensures Valid() && old(sets) <= sets && fresh(sets - old(sets))
      ensures View() == ApplyAll(old(View()), ops) && pending == OpenAll(old(pending), ops)
      ensures id in old(subscribers) ==> Alias(old(subscribers[id]), id, Kept(old(View()), id, ops))
    {
      var i := 0;
      ghost var table := View();
      assert id in table ==> Kept(table, id, ops[..0]);
      while i < |ops|
        invariant 0 <= i <= |ops| && Valid() && old(sets) <= sets && fresh(sets - old(sets))
        invariant View() == ApplyAll(table, ops[..i]) && pending == OpenAll(old(pending), ops[..i])
        invariant id in old(subscribers) ==> Alias(old(subscribers[id]), id, Kept(table, id, ops[..i]))
      {
        assert ops[..i + 1][..i] == ops[..i];
        KeptNext(table, id, ops, i);
        Perform(ops[i], if id in old(subscribers) then old(subscribers[id]) else null, id, Kept(table, id, ops[..i]));
        i := i + 1;
      }
      assert ops[..|ops|] == ops;
    }

    /** The walk under the second lock: each connection is written to once, and dropped when that fails. */
    method WriteAll(inner: ConnSet, broken: set<nat>) returns (written: seq<nat>)
      modifies inner
      ensures forall i, j :: 0 <= i < j < |written| ==> written[i] != written[j]
      ensures forall c :: c in written <==> c in old(inner.conns)
      ensures inner.conns == old(inner.conns) - broken
    {
      written := [];
      var rest := inner.conns;
      while rest != {}
        invariant rest <= old(inner.conns)
        invariant forall i, j :: 0 <= i < j < |written| ==> written[i] != written[j]
        invariant forall c :: c in written <==> c in old(inner.conns) - rest
        invariant inner.conns == old(inner.conns) - (broken - rest)
        decreases rest
      {
        var conn :| conn in rest;
        assert conn !in written;
        written := written + [conn];
        if conn in broken { inner.conns := inner.conns - {conn}; }
        rest := rest - {conn};
      }
    }

    /** One update: `gap` is what happens between the two locks, `broken` the connections that fail. */
    method Broadcast(id: string, gap: seq<Op>, broken: set<nat>) returns (written: seq<nat>)
      requires Valid()
      modifies this, sets
      ensures Valid() && old(sets) <= sets && fresh(sets - old(sets)) && pending == OpenAll(old(pending), gap)
      ensures forall i, j :: 0 <= i < j < |written| ==> written[i] != written[j]
      ensures forall c :: c in written <==> c in Reached(old(View()), id, gap)
      ensures forall c :: c in written ==> HeldAfter(old(View()), id, c, gap)
      ensures forall c :: HeldThroughout(old(View()), id, c, gap) ==> c in written
      ensures (exists h :: HeldThroughout(old(View()), id, h, gap)) ==> forall c :: c in written <==> HeldAfter(old(View()), id, c, gap)
      ensures View() == AfterBroadcast(old(View()), id, gap, broken)
    {
      ReachedExactly(View(), id, gap);
      hide HeldAfter, HeldThroughout;
      if id !in subscribers {
        assert gap[..0] == [];
        assert id !in ApplyAll(View(), gap[..0]);
        Interleave(gap, id);
        return [];
      }
      var conns := subscribers[id];
      ghost var kept := Kept(View(), id, gap);
      Interleave(gap, id);
      ghost var between := View();
      written := WriteAll(conns, broken);
    }

    /** The listener's loop, with what the readers do meanwhile. */
    method ListenPostgres(events: seq<Heard>) returns (written: seq<seq<nat>>)
      requires Valid()
      modifies this, sets
      ensures Valid() && old(sets) <= sets && fresh(sets - old(sets))
      ensures View() == AfterAll(old(View()), events) && pending == OpenAfterAll(old(pending), events)
      ensures |written| == |events| && forall i :: 0 <= i < |events| ==> WrittenFor(old(View()), events, i, written[i])
    {
      written := [];
      var i := 0;
      while i < |events|
        invariant 0 <= i <= |events| && Valid() && old(sets) <= sets && fresh(sets - old(sets))
        invariant View() == AfterAll(old(View()), events[..i]) && pending == OpenAfterAll(old(pending), events[..i])
        invariant |written| == i && forall j :: 0 <= j < i ==> WrittenFor(old(View()), events, j, written[j])
      {
        assert events[..i + 1][..i] == events[..i];
        var e := events[i];
        Interleave(e.before, "");
        var to: seq<nat> := [];
        if e.update.None? {
          Interleave(e.gap, "");
        } else {
          to := Broadcast(e.update.value, e.gap, e.broken);
        }
        written := written + [to];
        i := i + 1;
      }
      assert events[..|events|] == events;
    }
  }

  lemma KeptNext(table: Table, id: string, ops: seq<Op>, i: nat)
    requires i < |ops|
    ensures Kept(table, id, ops[..i + 1]) <==> Kept(table, id, ops[..i]) && id in ApplyAll(table, ops[..i + 1])
  {
    var longer, shorter := ops[..i + 1], ops[..i];
    assert forall k :: 0 <= k <= i ==> longer[..k] == shorter[..k];
    assert longer[..i + 1] == longer;
    if Kept(table, id, longer) {
      forall k | 0 <= k <= |shorter|
        ensures id in ApplyAll(table, shorter[..k])
      {
        assert longer[..k] == shorter[..k];
      }
    }
  }

  // ----- the relation that the table stands for

  predicate Registered(table: Table, id: string, conn: nat) { conn in Conns(table, id) }

  /** The inner sets, keys and all, are a relation of ids and connections: an operation adds or removes one pair. */
  lemma OperationsAreRelational(table: Table, op: Op, id: string, conn: nat)
    ensures Registered(Apply(table, op), id, conn) <==> op == Join(id, conn) || (Registered(table, id, conn) && op != Leave(id, conn))
  {}

  /** A broadcast removes the pairs whose write it saw fail, and no other. */
  lemma BroadcastIsRelational(table: Table, id: string, gap: seq<Op>, broken: set<nat>, i: string, conn: nat)
    ensures Registered(AfterBroadcast(table, id, gap, broken), i, conn) <==>
      Registered(ApplyAll(table, gap), i, conn) && !(i == id && conn in Reached(table, id, gap) && conn in broken)
  {
    if Kept(table, id, gap) { assert gap[..|gap|] == gap; }
  }

  /** What is heard leaves the pairs of its operations, without those that an update was written to in vain. */
  lemma HearingIsRelational(table: Table, e: Heard, i: string, conn: nat)
    ensures var t := ApplyAll(table, e.before);
      Registered(AfterHearing(table, e), i, conn) <==>
        Registered(ApplyAll(t, e.gap), i, conn) && !(e.update == Some(i) && conn in Reached(t, i, e.gap) && conn in e.broken)
  {
    var t := ApplyAll(table, e.before);
    if e.update.Some? { BroadcastIsRelational(t, e.update.value, e.gap, e.broken, i, conn); }
    hide Registered, Reached, AfterBroadcast, ApplyAll;
  }

  lemma {:induction false} StaysRegistered(table: Table, id: string, conn: nat, ops: seq<Op>)
    requires Registered(table, id, conn) && Leave(id, conn) !in ops
    ensures Registered(ApplyAll(table, ops), id, conn)
  {
    if ops != [] {
      var front, last := ops[..|ops| - 1], ops[|ops| - 1];
      assert last in ops;
      StaysRegistered(table, id, conn, front);
      OperationsAreRelational(ApplyAll(table, front), last, id, conn);
    }
  }

  /** Whoever is held for the id from before the first lock to the end is written to, whatever the gap brings. */
  lemma HeldThroughoutIsReached(table: Table, id: string, conn: nat, gap: seq<Op>)
    requires Registered(table, id, conn) && Leave(id, conn) !in gap
    ensures Kept(table, id, gap) && conn in Reached(table, id, gap)
  {
    forall k | 0 <= k <= |gap|
      ensures id in ApplyAll(table, gap[..k])
    {
      StaysRegistered(table, id, conn, gap[..k]);
    }
    StaysRegistered(table, id, conn, gap);
  }

  lemma {:induction false} RegisteredBefore(table: Table, id: string, conn: nat, ops: seq<Op>)
    requires Registered(ApplyAll(table, ops), id, conn)
    ensures Registered(table, id, conn) || Join(id, conn) in ops
  {
    if ops != [] {
      var front, last := ops[..|ops| - 1], ops[|ops| - 1];
      OperationsAreRelational(ApplyAll(table, front), last, id, conn);
      assert last in ops;
      if last != Join(id, conn) { RegisteredBefore(table, id, conn, front); }
    }
  }

  /** Whoever never was registered for the id is not written to. */
  lemma OthersAreNotReached(table: Table, id: string, conn: nat, gap: seq<Op>)
    requires !Registered(table, id, conn) && Join(id, conn) !in gap
    ensures conn !in Reached(table, id, gap)
  {
    if conn in Reached(table, id, gap) { RegisteredBefore(table, id, conn, gap); }
  }

  /** The other half of it: one that comes after the inner set was dropped is in the table, and yet misses the update. */
  lemma LateJoinerIsMissed(id: string, first: nat, late: nat)
    requires first != late
    ensures var table, gap := map[id := {first}], [Leave(id, first), Join(id, late)];
      Registered(ApplyAll(table, gap), id, late) && late !in Reached(table, id, gap)
  {
    var table: Table, gap := map[id := {first}], [Leave(id, first), Join(id, late)];
    assert gap[..1] == [Leave(id, first)] && gap[..1][..0] == [] && gap[..1][0] == Leave(id, first);
    assert ApplyAll(table, gap[..1]) == table - {id};
    assert id !in ApplyAll(table, gap[..1]);
  }

  // ----- who is written to

  /** The last operation on the pair, if there was one, was to join; if there was none, it was held before. */
  predicate HeldAfter(table: Table, id: string, conn: nat, ops: seq<Op>) {
    if exists k :: 0 <= k < |ops| && (ops[k] == Join(id, conn) || ops[k] == Leave(id, conn))
    then exists k :: 0 <= k < |ops| && ops[k] == Join(id, conn) && forall j :: k < j < |ops| ==> ops[j] != Leave(id, conn)
    else id in table && conn in table[id]
  }

  /** Held before, and never left. */
  predicate HeldThroughout(table: Table, id: string, conn: nat, ops: seq<Op>) {
    id in table && conn in table[id] && forall k :: 0 <= k < |ops| ==> ops[k] != Leave(id, conn)
  }

  /** The table holds a pair after some operations exactly when the last one on it says so. */
  lemma {:induction false} RegisteredIsHeld(table: Table, id: string, conn: nat, ops: seq<Op>)
    ensures Registered(ApplyAll(table, ops), id, conn) <==> HeldAfter(table, id, conn, ops)
  {
    if ops != [] {
      var front, last := ops[..|ops| - 1], ops[|ops| - 1];
      RegisteredIsHeld(table, id, conn, front);
      OperationsAreRelational(ApplyAll(table, front), last, id, conn);
      hide Registered, Apply;
      HeldAfterOneMore(table, id, conn, front, last);
      assert front + [last] == ops;
    }
  }

  lemma HeldAfterOneMore(table: Table, id: string, conn: nat, front: seq<Op>, last: Op)
    ensures HeldAfter(table, id, conn, front + [last]) <==> last == Join(id, conn) || (HeldAfter(table, id, conn, front) && last != Leave(id, conn))
  {
    var ops := front + [last];
    assert forall k :: 0 <= k < |front| ==> ops[k] == front[k];
    assert ops[|front|] == last;
  }

  /**
   Only those are written to that hold the id at the second lock: not one that has left in the gap, whatever it held before.
   Given one that holds it throughout, all of them are, those too that came in the gap.
   */
  lemma ReachedExactly(table: Table, id: string, gap: seq<Op>)
    ensures forall c :: c in Reached(table, id, gap) ==> HeldAfter(table, id, c, gap)
    ensures forall c :: HeldThroughout(table, id, c, gap) ==> c in Reached(table, id, gap)
    ensures (exists h :: HeldThroughout(table, id, h, gap)) ==> forall c :: c in Reached(table, id, gap) <==> HeldAfter(table, id, c, gap)
  {
    forall c
      ensures Registered(ApplyAll(table, gap), id, c) <==> HeldAfter(table, id, c, gap)
    {
      RegisteredIsHeld(table, id, c, gap);
    }
    forall c | HeldThroughout(table, id, c, gap)
      ensures Kept(table, id, gap) && c in Reached(table, id, gap)
    {
      HeldThroughoutIsReached(table, id, c, gap);
    }
    hide HeldAfter, HeldThroughout, ApplyAll, Kept;
  }

  // ----- leaks

  /** Every key is there because of an open subscription, and every inner set holds open subscriptions only. */
  ghost predicate NoLeak(table: Table, pending: set<(string, nat)>) {
    forall id :: id in table ==> (exists c :: (id, c) in pending) && forall c :: c in table[id] ==> (id, c) in pending
  }

  lemma ApplyLeaksNothing(table: Table, pending: set<(string, nat)>, op: Op)
    requires NoLeak(table, pending)
    ensures NoLeak(Apply(table, op), Open(pending, op))
  {
    var t, p := Apply(table, op), Open(pending, op);
    forall id | id in t
      ensures (exists c :: (id, c) in p) && forall c :: c in t[id] ==> (id, c) in p
    {
      match op
      case Join(to, conn) =>
        if id == to {
          assert (id, conn) in p;
        } else {
          var c :| (id, c) in pending;
          assert (id, c) in p;
        }
      case Leave(from, conn) =>
        if id == from {
          var c :| c in t[id];
          assert (id, c) in p;
        } else {
          var c :| (id, c) in pending;
          assert (id, c) in p;
        }
    }
  }

  lemma {:induction false} OperationsLeakNothing(table: Table, pending: set<(string, nat)>, ops: seq<Op>)
    requires NoLeak(table, pending)
    ensures NoLeak(ApplyAll(table, ops), OpenAll(pending, ops))
  {
    if ops != [] {
      var front, last := ops[..|ops| - 1], ops[|ops| - 1];
      hide NoLeak, Apply, Open;
      OperationsLeakNothing(table, pending, front);
      ApplyLeaksNothing(ApplyAll(table, front), OpenAll(pending, front), last);
    }
  }

  lemma {:induction false} HubLeaksNothing(events: seq<Heard>)
    ensures NoLeak(AfterAll(map[], events), OpenAfterAll({}, events))
  {
    if events != [] {
      var front, e := events[..|events| - 1], events[|events| - 1];
      var t, p := AfterAll(map[], front), OpenAfterAll({}, front);
      HubLeaksNothing(front);
      OperationsLeakNothing(t, p, e.before);
      OperationsLeakNothing(ApplyAll(t, e.before), OpenAll(p, e.before), e.gap);
    }
  }

  /** Once every reader has unsubscribed, nothing is left in the hub, not even an empty inner set. */
  lemma EmptyAfterAllLeave(events: seq<Heard>)
    requires OpenAfterAll({}, events) == {}
    ensures AfterAll(map[], events) == map[]
  {
    HubLeaksNothing(events);
  }
}
