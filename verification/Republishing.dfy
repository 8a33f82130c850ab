/** Exactly when a notification that was left to the scheduler cannot be published any more, whatever the passes do. */
module Republishing {
  import opened Domain
  import opened Protocol
  import opened Safety
  import opened Pipeline
  import opened RowWrites
  import opened Scheduling
  import opened Drive
  import Runtime
  import PublishOnce

  /** The pass has still to publish it: it lists it, and not only to mark it. */
  ghost predicate ToPublish(p: Pass, id: nat) {
    exists j :: p.next <= j < |p.items| && p.items[j].n.id == id && !(p.marking && j == p.next)
  }

  /** Something may still publish it: a pass that has it on its list, or the next one, if it is pending. */
  ghost predicate MayBePublished(s: State, id: nat)
    requires id in s.st.rows
  {
    s.st.rows[id].status == Pending || exists p :: p in s.passes && ToPublish(s.passes[p], id)
  }

  ghost predicate NoNewCopy(a: Store, b: Store, id: nat) {
    |a.copies| <= |b.copies| && forall c :: |a.copies| <= c < |b.copies| ==> b.copies[c].first.n.id != id
  }

  /** No continuation publishes it, crashes, failures and overlapping passes included. */
  ghost predicate NeverPublishedAgain(cfg: Config, s: State, id: nat) { forall s' :: Reaches(cfg, s, s') ==> NoNewCopy(s.st, s'.st, id) }

  // ----- what no longer may be published is not

  ghost predicate Through(s: State, id: nat) { id in s.st.deferred && id in s.st.rows && !MayBePublished(s, id) }

  /** A step of a pass leaves it nothing new to publish. */
  lemma PassGoesOn(st: Store, q: Pass, ok: bool, id: nat)
    requires q.next < |q.items| && !ToPublish(q, id)
    ensures var (b, q') := PassStep(st, q, ok); !ToPublish(q', id) && NoNewCopy(st, b, id)
  {
    StillToPublish(st, q, ok, id);
  }

  lemma StillToPublish(st: Store, q: Pass, ok: bool, id: nat)
    requires q.next < |q.items|
    ensures ToPublish(PassStep(st, q, ok).1, id) ==> ToPublish(q, id)
  {
    var q' := PassStep(st, q, ok).1;
    hide Publish, UpdateStatus;
    if ToPublish(q', id) {
      var j :| q'.next <= j < |q'.items| && q'.items[j].n.id == id && !(q'.marking && j == q'.next);
      assert q.next <= j < |q.items| && q.items[j].n.id == id && !(q.marking && j == q.next);
    }
  }

  lemma PassThrough(cfg: Config, s: State, a: Action, id: nat)
    requires Inv(cfg, s) && Through(s, id) && Enabled(s, a) && (a.StartPass? || a.StepPass? || a.KillPass?)
    ensures var s' := Step(cfg, s, a);
      NoNewCopy(s.st, s'.st, id) && forall p :: p in s'.passes ==> !ToPublish(s'.passes[p], id)
  {
    if a.StepPass? {
      PassGoesOn(s.st, s.passes[a.pass], a.ok, id);
      hide PassStep, ToPublish;
    } else if a.StartPass? {
      FetchedDistinct(cfg, s.st, a.ids);
      NotListed(Pass(DueMessages(s.st, a.ids), 0, false), id);
      hide Inv, ToPublish, IsDueList, Lists, DistinctItems;
    }
    hide Inv, ToPublish;
  }

  lemma NotListed(p: Pass, id: nat)
    requires !Lists(p, id)
    ensures !ToPublish(p, id)
  {}

  lemma ThroughStep(cfg: Config, s: State, a: Action, id: nat)
    requires Inv(cfg, s) && DeferredInv(s) && Through(s, id) && Enabled(s, a)
    ensures var s' := Step(cfg, s, a); Through(s', id) && NoNewCopy(s.st, s'.st, id)
  {
    var s' := Step(cfg, s, a);
    InvStep(cfg, s, a);
    StepDeferred(cfg, s, a, id);
    CopiesPrefix(s.st, s'.st);
    if a.StartPass? || a.StepPass? || a.KillPass? {
      PassThrough(cfg, s, a, id);
      StepEffect(cfg, s, a, id);
    } else if ConsumerAction(a) {
      ConsumerPending(cfg, s, a, id);
      ConsumerPasses(cfg, s, a);
      PublishOnce.ConsumerFirsts(cfg, s, a);
    } else {
      OtherQuiet(cfg, s, a, id);
      PassesStay(cfg, s, a);
    }
    hide Inv, DeferredInv, Step, Enabled, Extends, ToPublish, RowEffect, Defers;
  }

  lemma {:induction false} ThroughRun(cfg: Config, s: State, acts: seq<Action>, id: nat)
    requires Inv(cfg, s) && PublishOnce.PublishInv(s) && DeferredInv(s) && Through(s, id) && Legal(cfg, s, acts)
    ensures var s' := Run(cfg, s, acts);
      && Inv(cfg, s') && PublishOnce.PublishInv(s') && DeferredInv(s') && Through(s', id) && NoNewCopy(s.st, s'.st, id)
      && Extends(s.st, s'.st)
    decreases |acts|
  {
    ExtendsItself(s.st);
    hide Inv, PublishOnce.PublishInv, DeferredInv, Through, Extends, Step, Enabled, NoNewCopy;
    if acts == [] {
      NothingNew(s.st, id);
    } else {
      var front, last := acts[..|acts| - 1], acts[|acts| - 1];
      var mid := Run(cfg, s, front);
      ThroughRun(cfg, s, front, id);
      ThroughStep(cfg, mid, last, id);
      InvStep(cfg, mid, last);
      PublishOnce.PublishStep(cfg, mid, last);
      DeferredStep(cfg, mid, last);
      ExtendsTransitive(s.st, mid.st, Step(cfg, mid, last).st);
      NewCopiesOn(s.st, mid.st, Step(cfg, mid, last).st, id);
    }
  }

  lemma NothingNew(st: Store, id: nat)
    ensures NoNewCopy(st, st, id)
  {}

  lemma NewCopiesOn(a: Store, b: Store, c: Store, id: nat)
    requires NoNewCopy(a, b, id) && NoNewCopy(b, c, id) && Extends(b, c)
    ensures NoNewCopy(a, c, id)
  {}

  // ----- what still may be, is in some continuation

  ghost predicate SomeNewCopy(cfg: Config, s: State, id: nat) { exists s' :: Reaches(cfg, s, s') && !NoNewCopy(s.st, s'.st, id) }

  lemma StepThenNew(cfg: Config, s: State, a: Action, id: nat)
    requires Inv(cfg, s) && Enabled(s, a) && SomeNewCopy(cfg, Step(cfg, s, a), id)
    ensures SomeNewCopy(cfg, s, id)
  {
    var s1 := Step(cfg, s, a);
    InvStep(cfg, s, a);
    var s' :| Reaches(cfg, s1, s') && !NoNewCopy(s1.st, s'.st, id);
    StepReaches(cfg, s, a);
    hide Reaches, Step, Enabled, Inv;
    ReachesOn(cfg, s, s1, s');
    assert |s.st.copies| <= |s1.st.copies|;
    assert NoNewCopy(s.st, s'.st, id) ==> |s1.st.copies| <= |s'.st.copies| ==> NoNewCopy(s1.st, s'.st, id);
    if |s'.st.copies| < |s1.st.copies| { Shrinks(cfg, s, a, s1, s'); }
  }

  /** Copies are never taken away. */
  lemma Shrinks(cfg: Config, s: State, a: Action, s1: State, s': State)
    requires Inv(cfg, s) && Enabled(s, a) && s1 == Step(cfg, s, a) && Reaches(cfg, s1, s')
    ensures |s1.st.copies| <= |s'.st.copies|
  {
    InvStep(cfg, s, a);
    ReachesKeeps(cfg, s1, s');
  }

  lemma PublishIsNew(cfg: Config, s: State, p: nat, id: nat)
    requires p in s.passes && s.passes[p].next < |s.passes[p].items| && !s.passes[p].marking
    requires s.passes[p].items[s.passes[p].next].n.id == id
    ensures SomeNewCopy(cfg, s, id)
  {
    var a := StepPass(p, true);
    var s' := Step(cfg, s, a);
    StepReaches(cfg, s, a);
    assert s'.st.copies[|s.st.copies|].first.n.id == id && |s'.st.copies| == |s.st.copies| + 1;
    assert !NoNewCopy(s.st, s'.st, id);
    hide Reaches;
  }

  /** A pass whose calls succeed comes to whatever it has still to publish. */
  lemma {:induction false} PassWillPublish(cfg: Config, s: State, p: nat, j: nat, id: nat)
    requires Inv(cfg, s) && p in s.passes && s.passes[p].next <= j < |s.passes[p].items| && s.passes[p].items[j].n.id == id
    requires !(s.passes[p].marking && j == s.passes[p].next)
    ensures SomeNewCopy(cfg, s, id)
    decreases j - s.passes[p].next, if s.passes[p].marking then 0 else 1
  {
    if s.passes[p].next == j {
      PublishIsNew(cfg, s, p, id);
    } else {
      var a := StepPass(p, true);
      InvStep(cfg, s, a);
      NextOfPass(cfg, s, p);
      hide Inv, Extends, Step, SomeNewCopy;
      PassWillPublish(cfg, Step(cfg, s, a), p, j, id);
      StepThenNew(cfg, s, a, id);
    }
  }

  lemma NextOfPass(cfg: Config, s: State, p: nat)
    requires p in s.passes && s.passes[p].next < |s.passes[p].items|
    ensures var q, s' := s.passes[p], Step(cfg, s, StepPass(p, true));
      p in s'.passes && s'.passes[p] == if q.marking then Pass(q.items, q.next + 1, false) else q.(marking := true)
  {
    hide Publish, UpdateStatus;
  }

  // ----- a pending row is fetched by some pass

  lemma {:induction false} ListRest(rows: map<nat, Row>, ids: seq<nat>, rest: set<nat>) returns (all: seq<nat>)
    requires Runtime.BySchedule(rows, ids, rest)
    ensures Runtime.BySchedule(rows, all, {}) && forall id :: id in all <==> id in ids || id in rest
    decreases rest
  {
    if rest == {} { return ids; }
    hide Runtime.BySchedule;
    var id := Runtime.Earliest(rows, rest);
    Runtime.OneMoreDue(rows, ids, rest, id);
    all := ListRest(rows, ids + [id], rest - {id});
  }

  lemma SomeDueList(st: Store) returns (ids: seq<nat>)
    ensures IsDueList(st, ids)
  {
    var due := set id | id in st.rows && IsDue(st, id);
    ids := ListRest(st.rows, [], due);
    hide Runtime.BySchedule;
    Runtime.AllDue(st, ids, due);
  }

  lemma {:induction false} FreshId(keys: set<nat>) returns (p: nat)
    ensures forall k :: k in keys ==> k < p
    decreases keys
  {
    if keys == {} { return 0; }
    var k :| k in keys;
    var rest := keys - {k};
    p := FreshId(rest);
    assert forall j :: j in keys ==> j == k || j in rest;
    if p <= k { p := k + 1; }
  }

  /** A pending row is published by a pass that starts once it is due. */
  lemma PendingWillBePublished(cfg: Config, s: State, id: nat)
    requires Inv(cfg, s) && id in s.st.rows && s.st.rows[id].status == Pending && s.st.rows[id].n.scheduledAt.Some?
    ensures SomeNewCopy(cfg, s, id)
  {
    var at := s.st.rows[id].n.scheduledAt.value;
    var d := if at > s.st.now then at - s.st.now else 0;
    var s1 := Step(cfg, s, Tick(d));
    InvStep(cfg, s, Tick(d));
    assert Enabled(s, Tick(d)) && IsDue(s1.st, id);
    var ids := SomeDueList(s1.st);
    var p := FreshId(s1.passes.Keys);
    assert id in ids && p !in s1.passes;
    hide Extends, SomeNewCopy, IsDue;
    DueWillBePublished(cfg, s1, p, ids, id);
    hide Inv;
    StepThenNew(cfg, s, Tick(d), id);
  }

  lemma DueWillBePublished(cfg: Config, s: State, p: nat, ids: seq<nat>, id: nat)
    requires Inv(cfg, s) && p !in s.passes && IsDueList(s.st, ids) && id in ids
    ensures SomeNewCopy(cfg, s, id)
  {
    var a := StartPass(p, ids);
    InvStep(cfg, s, a);
    FetchedDistinct(cfg, s.st, ids);
    var q := Pass(DueMessages(s.st, ids), 0, false);
    assert Lists(q, id);
    var j :| q.next <= j < |q.items| && q.items[j].n.id == id;
    assert Step(cfg, s, a).passes[p] == q;
    hide Inv, Extends, SomeNewCopy, IsDueList;
    PassWillPublish(cfg, Step(cfg, s, a), p, j, id);
    StepThenNew(cfg, s, a, id);
  }

  // ----- the exact condition

  /**
   A notification that `Create` left to the scheduler is not published in any continuation, with any number of passes,
   failures and crashes, if and only if its row is not pending and no pass has it still to publish.
   */
  lemma PublishedForGood(cfg: Config, s: State, id: nat)
    requires Reachable(cfg, s) && id in s.st.deferred
    ensures id in s.st.rows && (NeverPublishedAgain(cfg, s, id) <==> !MayBePublished(s, id))
  {
    var acts :| Legal(cfg, Init(), acts) && Run(cfg, Init(), acts) == s;
    DeferredRun(cfg, acts);
    ReachableInv(cfg, s);
    PublishOnce.ReachablePublish(cfg, s);
    assert LeftToScheduler(s, id);
    hide Inv, DeferredInv, PublishOnce.PublishInv, Legal, Run, Reachable, ToPublish, NoNewCopy;
    if s.st.rows[id].status == Pending {
      PendingWillBePublished(cfg, s, id);
    } else if p :| p in s.passes && ToPublish(s.passes[p], id) {
      ToPublishWillBe(cfg, s, p, id);
    } else {
      forall s' | Reaches(cfg, s, s')
        ensures NoNewCopy(s.st, s'.st, id)
      {
        ThroughStays(cfg, s, s', id);
      }
    }
  }

  lemma ToPublishWillBe(cfg: Config, s: State, p: nat, id: nat)
    requires Inv(cfg, s) && p in s.passes && ToPublish(s.passes[p], id)
    ensures SomeNewCopy(cfg, s, id)
  {
    var q := s.passes[p];
    var j :| q.next <= j < |q.items| && q.items[j].n.id == id && !(q.marking && j == q.next);
    assert PassInv(s.st, q);
    hide Inv, SomeNewCopy;
    PassWillPublish(cfg, s, p, j, id);
  }

  lemma ThroughStays(cfg: Config, s: State, s': State, id: nat)
    requires Inv(cfg, s) && PublishOnce.PublishInv(s) && DeferredInv(s) && Through(s, id) && Reaches(cfg, s, s')
    ensures NoNewCopy(s.st, s'.st, id)
  {
    var acts :| Legal(cfg, s, acts) && Run(cfg, s, acts) == s';
    hide Inv, DeferredInv, PublishOnce.PublishInv, Through;
    ThroughRun(cfg, s, acts, id);
  }
}
