/** Runs that show that each condition on the scheduler is needed for a scheduled notification to be published once. */
module ScheduleExceptions {
  import opened Domain
  import opened Protocol
  import opened Scheduling
  import opened Exceptions
  import Drive
  import Template

  const LATER_REQUEST := REQUEST.(scheduledAt := Some(5))
  const LATER_NOTICE := NOTICE.(scheduledAt := Some(5))
  const LATER_ROWS: map<nat, Row> := map[0 := Row(LATER_NOTICE, Pending, 0)]

  function Scheduled(now: int, call: Call, passes: map<nat, Pass>): State {
    var s := Base(LATER_ROWS, map[0 := call]);
    s.(st := s.st.(now := now, deferred := if call.Finished? then {0} else {}), passes := passes)
  }

  /** A pass that has fetched the row, and what becomes of it. */
  const FULL_PASS := Pass([Msg(LATER_NOTICE, 0)], 0, false)
  const MARKING := Pass([Msg(LATER_NOTICE, 0)], 0, true)
  const THROUGH := Pass([Msg(LATER_NOTICE, 0)], 1, false)

  const CREATED: seq<Action> := [StartCreate(0, LATER_REQUEST, "hello"), StepCall(0, true)]
  const LEFT: seq<Action> := [StartCreate(0, LATER_REQUEST, "hello"), StepCall(0, true), StepCall(0, true), Tick(5)]

  ghost predicate RunsTo(cfg: Config, acts: seq<Action>, s: State) {
    Legal(cfg, Init(), acts) && Run(cfg, Init(), acts) == s
  }

  /** The passes of the run take their turns, and none is killed. */
  ghost predicate InSeries(cfg: Config, acts: seq<Action>) { Legal(cfg, Init(), acts) && SerialAll(cfg, Init(), acts) }

  lemma RunOn(cfg: Config, acts: seq<Action>, s: State, a: Action, s': State)
    requires RunsTo(cfg, acts, s) && Enabled(s, a) && Step(cfg, s, a) == s'
    ensures RunsTo(cfg, acts + [a], s')
    ensures InSeries(cfg, acts) && Serial(s, a) ==> InSeries(cfg, acts + [a])
  {
    OneMore(cfg, acts, a);
    hide *;
  }

  lemma OneMore(cfg: Config, acts: seq<Action>, a: Action)
    requires Legal(cfg, Init(), acts) && Enabled(Run(cfg, Init(), acts), a)
    ensures RunsTo(cfg, acts + [a], Step(cfg, Run(cfg, Init(), acts), a))
    ensures InSeries(cfg, acts) && Serial(Run(cfg, Init(), acts), a) ==> InSeries(cfg, acts + [a])
  {
    hide Step, Enabled, Serial, Init;
    var longer := acts + [a];
    assert longer[..|longer| - 1] == acts && longer[|longer| - 1] == a;
  }

  lemma ScheduleStarts(cfg: Config)
    ensures var a := StartCreate(0, LATER_REQUEST, "hello");
      Enabled(Init(), a) && Step(cfg, Init(), a) == Base(map[], map[0 := Create(Insert, LATER_NOTICE)])
    ensures var s, a := Base(map[], map[0 := Create(Insert, LATER_NOTICE)]), StepCall(0, true);
      Enabled(s, a) && Step(cfg, s, a) == Scheduled(0, Create(CheckSchedule, LATER_NOTICE), map[])
  {
    assert Accept(LATER_REQUEST) == Ok((SMS, Normal));
    assert Template.IsOrder(map[], []) && Template.ResolveInOrder("hello", map[], []) == "hello";
  }

  lemma ScheduleWaits(cfg: Config)
    ensures var s, a := Scheduled(0, Create(CheckSchedule, LATER_NOTICE), map[]), StepCall(0, true);
      Enabled(s, a) && Step(cfg, s, a) == Scheduled(0, Finished(None), map[])
    ensures var s, a := Scheduled(0, Finished(None), map[]), Tick(5); Enabled(s, a) && Step(cfg, s, a) == Scheduled(5, Finished(None), map[])
  {}

  lemma StartOfRun(cfg: Config)
    ensures RunsTo(cfg, [], Init()) && InSeries(cfg, [])
  {}

  lemma StartIsSerial()
    ensures forall s, call, req, content :: Serial(s, StartCreate(call, req, content))
    ensures forall s, call, ok :: Serial(s, StepCall(call, ok))
  {}

  lemma CreatedRun(cfg: Config)
    ensures RunsTo(cfg, CREATED, Scheduled(0, Create(CheckSchedule, LATER_NOTICE), map[])) && InSeries(cfg, CREATED)
  {
    var s1 := Base(map[], map[0 := Create(Insert, LATER_NOTICE)]);
    var a1: seq<Action> := [StartCreate(0, LATER_REQUEST, "hello")];
    hide RunsTo, InSeries, Step, Enabled, Init;
    StartOfRun(cfg);
    ScheduleStarts(cfg);
    StartIsSerial();
    hide Base, Scheduled, Serial;
    RunOn(cfg, [], Init(), a1[0], s1);
    RunOn(cfg, a1, s1, StepCall(0, true), Scheduled(0, Create(CheckSchedule, LATER_NOTICE), map[]));
    assert [] + [a1[0]] == a1 && a1 + [StepCall(0, true)] == CREATED;
  }

  /** The notification is due, and its Create call has left it to the scheduler. */
  lemma LeftRun(cfg: Config)
    ensures RunsTo(cfg, LEFT, Scheduled(5, Finished(None), map[])) && InSeries(cfg, LEFT)
  {
    var waiting := CREATED + [StepCall(0, true)];
    CreatedRun(cfg);
    ScheduleWaits(cfg);
    hide RunsTo, InSeries, Step, Enabled;
    RunOn(cfg, CREATED, Scheduled(0, Create(CheckSchedule, LATER_NOTICE), map[]), StepCall(0, true), Scheduled(0, Finished(None), map[]));
    RunOn(cfg, waiting, Scheduled(0, Finished(None), map[]), Tick(5), Scheduled(5, Finished(None), map[]));
    assert waiting + [Tick(5)] == LEFT;
  }

  // ----- the steps of its passes

  lemma Fetches(cfg: Config, s: State, p: nat)
    requires s.st.rows == LATER_ROWS && s.st.now == 5 && p !in s.passes
    ensures var a := StartPass(p, [0]); Enabled(s, a) && Step(cfg, s, a) == s.(passes := s.passes[p := FULL_PASS])
  {
    assert IsDue(s.st, 0) && forall id :: id in s.st.rows ==> id == 0;
    assert IsDueList(s.st, [0]) && DueMessages(s.st, [0]) == [Msg(LATER_NOTICE, 0)];
  }

  function AfterPublish(s: State, p: nat): State {
    s.(st := Publish(s.st, Msg(LATER_NOTICE, 0)), passes := s.passes[p := MARKING])
  }

  /** A pass publishes the row it fetched, whatever has been done with it meanwhile. */
  lemma Publishes(cfg: Config, s: State, p: nat)
    requires p in s.passes && s.passes[p] == FULL_PASS
    ensures Enabled(s, StepPass(p, true)) && Step(cfg, s, StepPass(p, true)) == AfterPublish(s, p)
  {
    hide Publish;
  }

  function AfterFailedMark(s: State, p: nat): State { s.(st := Disturb(s.st, 0), passes := s.passes[p := THROUGH]) }

  lemma FailsToMark(cfg: Config, s: State, p: nat)
    requires p in s.passes && s.passes[p] == MARKING
    ensures Enabled(s, StepPass(p, false)) && Step(cfg, s, StepPass(p, false)) == AfterFailedMark(s, p)
  {}

  lemma Marks(cfg: Config, s: State, p: nat)
    requires p in s.passes && s.passes[p] == MARKING && s.st.rows == map[0 := Row(LATER_NOTICE, Delivered, 0)]
    ensures var a := StepPass(p, true);
      && Enabled(s, a) && Step(cfg, s, a).st.rows == map[0 := Row(LATER_NOTICE, Queued, 0)] && Step(cfg, s, a).passes == s.passes[p := THROUGH]
  {
    assert map[0 := Row(LATER_NOTICE, Delivered, 0)][0 := Row(LATER_NOTICE, Queued, 0)] == map[0 := Row(LATER_NOTICE, Queued, 0)];
  }

  // ----- what may come of it

  predicate TwoCopies(st: Store) {
    |st.copies| == 2 && st.copies[0].first == st.copies[1].first == Msg(LATER_NOTICE, 0)
  }

  lemma PublishRows(st: Store)
    ensures var b := Publish(st, Msg(LATER_NOTICE, 0));
      && b.rows == st.rows && b.now == st.now && b.disturbed == st.disturbed && b.deferred == st.deferred
      && |b.copies| == |st.copies| + 1 && b.copies[|st.copies|].first == Msg(LATER_NOTICE, 0)
      && forall c :: 0 <= c < |st.copies| ==> b.copies[c] == st.copies[c]
  {}

  const TWO_AT_ONCE: seq<Action> := LEFT + [StartPass(0, [0])] + [StartPass(1, [0])] + [StepPass(0, true)] + [StepPass(1, true)]

  /** Two passes that overlap publish one row twice. */
  lemma OverlapMayGoTwice(cfg: Config)
    ensures Legal(cfg, Init(), TWO_AT_ONCE)
    ensures var st := Run(cfg, Init(), TWO_AT_ONCE).st; TwoCopies(st) && 0 in st.deferred && 0 !in st.disturbed
  {
    var s0 := Scheduled(5, Finished(None), map[]);
    var s1, s2 := s0.(passes := map[0 := FULL_PASS]), s0.(passes := map[0 := FULL_PASS][1 := FULL_PASS]);
    LeftRun(cfg);
    Fetches(cfg, s0, 0);
    Fetches(cfg, s1, 1);
    Publishes(cfg, s2, 0);
    Publishes(cfg, AfterPublish(s2, 0), 1);
    PublishRows(s2.st);
    PublishRows(AfterPublish(s2, 0).st);
    hide Step, Enabled, Publish, InSeries, Legal, Run;
    RunOn(cfg, LEFT, s0, StartPass(0, [0]), s1);
    RunOn(cfg, LEFT + [StartPass(0, [0])], s1, StartPass(1, [0]), s2);
    RunOn(cfg, LEFT + [StartPass(0, [0])] + [StartPass(1, [0])], s2, StepPass(0, true), AfterPublish(s2, 0));
    RunOn(cfg, LEFT + [StartPass(0, [0])] + [StartPass(1, [0])] + [StepPass(0, true)], AfterPublish(s2, 0), StepPass(1, true),
          AfterPublish(AfterPublish(s2, 0), 1));
  }

  const PUBLISHED_ONCE: seq<Action> := LEFT + [StartPass(0, [0])] + [StepPass(0, true)]

  function PublishedOnce(): State { AfterPublish(Scheduled(5, Finished(None), map[0 := FULL_PASS]), 0) }

  lemma PublishedRun(cfg: Config)
    ensures RunsTo(cfg, PUBLISHED_ONCE, PublishedOnce()) && InSeries(cfg, PUBLISHED_ONCE)
  {
    var s0, s1 := Scheduled(5, Finished(None), map[]), Scheduled(5, Finished(None), map[0 := FULL_PASS]);
    LeftRun(cfg);
    Fetches(cfg, s0, 0);
    Publishes(cfg, s1, 0);
    hide Step, Enabled, Publish, InSeries, RunsTo;
    RunOn(cfg, LEFT, s0, StartPass(0, [0]), s1);
    RunOn(cfg, LEFT + [StartPass(0, [0])], s1, StepPass(0, true), PublishedOnce());
  }

  const AFTER_FAILURE: seq<Action> := PUBLISHED_ONCE + [StepPass(0, false)] + [StartPass(1, [0])] + [StepPass(1, true)]

  /** Passes in series, but the first one's mark fails: the next pass publishes the row again. */
  lemma FailedMarkMayGoTwice(cfg: Config)
    ensures InSeries(cfg, AFTER_FAILURE)
    ensures var st := Run(cfg, Init(), AFTER_FAILURE).st; TwoCopies(st) && 0 in st.deferred
  {
    var s0 := PublishedOnce();
    var s1 := AfterFailedMark(s0, 0);
    var s2 := s1.(passes := s1.passes[1 := FULL_PASS]);
    PublishedRun(cfg);
    PublishRows(Scheduled(5, Finished(None), map[]).st);
    PublishRows(s2.st);
    FailsToMark(cfg, s0, 0);
    Fetches(cfg, s1, 1);
    Publishes(cfg, s2, 1);
    hide Step, Enabled, Publish, Legal, Run;
    RunOn(cfg, PUBLISHED_ONCE, s0, StepPass(0, false), s1);
    RunOn(cfg, PUBLISHED_ONCE + [StepPass(0, false)], s1, StartPass(1, [0]), s2);
    RunOn(cfg, PUBLISHED_ONCE + [StepPass(0, false)] + [StartPass(1, [0])], s2, StepPass(1, true), AfterPublish(s2, 1));
  }

  const AFTER_KILL: seq<Action> := PUBLISHED_ONCE + [KillPass(0)] + [StartPass(1, [0])] + [StepPass(1, true)]

  /** One pass at a time, but the first one is killed before its mark: the next pass publishes the row again. */
  lemma KilledMarkMayGoTwice(cfg: Config)
    ensures Legal(cfg, Init(), AFTER_KILL)
    ensures var st := Run(cfg, Init(), AFTER_KILL).st; TwoCopies(st) && 0 in st.deferred && 0 !in st.disturbed
  {
    var s0 := PublishedOnce();
    var s1 := s0.(passes := map[]);
    var s2 := s0.(passes := map[1 := FULL_PASS]);
    PublishedRun(cfg);
    PublishRows(Scheduled(5, Finished(None), map[]).st);
    PublishRows(s2.st);
    assert Enabled(s0, KillPass(0)) && Step(cfg, s0, KillPass(0)) == s1;
    Fetches(cfg, s1, 1);
    Publishes(cfg, s2, 1);
    hide Step, Enabled, Publish, InSeries, Legal, Run;
    RunOn(cfg, PUBLISHED_ONCE, s0, KillPass(0), s1);
    RunOn(cfg, PUBLISHED_ONCE + [KillPass(0)], s1, StartPass(1, [0]), s2);
    RunOn(cfg, PUBLISHED_ONCE + [KillPass(0)] + [StartPass(1, [0])], s2, StepPass(1, true), AfterPublish(s2, 1));
  }

  const LATE_CHECK: seq<Action> :=
    CREATED + [Tick(5)] + [StartPass(0, [0])] + [StepCall(0, true)] + [StepCall(0, true)] + [StepCall(0, true)] + [StepPass(0, true)]

  /** A pass has fetched the row, and the Create call, which finds it due, goes on with it. */
  function Overtaken(pc: CreatePc): State {
    var s := Scheduled(5, Create(pc, LATER_NOTICE), map[0 := FULL_PASS]);
    if pc == Enqueue then s.(st := s.st.(rows := map[0 := Row(LATER_NOTICE, Queued, 0)])) else s
  }

  lemma Overtakes(cfg: Config)
    ensures var s, a := Scheduled(0, Create(CheckSchedule, LATER_NOTICE), map[]), Tick(5);
      Enabled(s, a) && Step(cfg, s, a) == Scheduled(5, Create(CheckSchedule, LATER_NOTICE), map[])
    ensures var s, a := Overtaken(CheckSchedule), StepCall(0, true); Enabled(s, a) && Step(cfg, s, a) == Overtaken(MarkQueued)
  {}

  lemma MarksFirst(cfg: Config)
    ensures var s, a := Overtaken(MarkQueued), StepCall(0, true); Enabled(s, a) && Step(cfg, s, a) == Overtaken(Enqueue)
  {
    assert LATER_ROWS[0 := Row(LATER_NOTICE, Queued, 0)] == map[0 := Row(LATER_NOTICE, Queued, 0)];
    assert Overtaken(MarkQueued).st.overwritten + {} == {};
  }

  lemma BothPublish(cfg: Config)
    ensures var s, a := Overtaken(Enqueue), StepCall(0, true);
      && Enabled(s, a) && Step(cfg, s, a).st == Publish(s.st, Msg(LATER_NOTICE, 0)) && Step(cfg, s, a).passes == s.passes
  {
    hide Publish;
  }

  /** Passes in series, nothing fails; but `Create` looks at the clock after a pass has fetched its row, and publishes it too. */
  lemma LateCheckMayGoTwice(cfg: Config)
    ensures InSeries(cfg, LATE_CHECK)
    ensures var st := Run(cfg, Init(), LATE_CHECK).st; TwoCopies(st) && 0 !in st.disturbed
  {
    var s0, s1 := Scheduled(0, Create(CheckSchedule, LATER_NOTICE), map[]), Scheduled(5, Create(CheckSchedule, LATER_NOTICE), map[]);
    var s2 := Step(cfg, Overtaken(Enqueue), StepCall(0, true));
    CreatedRun(cfg);
    Overtakes(cfg);
    MarksFirst(cfg);
    BothPublish(cfg);
    Fetches(cfg, s1, 0);
    Publishes(cfg, s2, 0);
    PublishRows(Overtaken(Enqueue).st);
    PublishRows(s2.st);
    LateCheckRun(cfg, s2);
    hide Step, Enabled, Publish, Legal, Run;
  }

  lemma LateCheckRun(cfg: Config, s: State)
    requires RunsTo(cfg, CREATED, Scheduled(0, Create(CheckSchedule, LATER_NOTICE), map[])) && InSeries(cfg, CREATED)
    requires var s0, s1 := Scheduled(0, Create(CheckSchedule, LATER_NOTICE), map[]), Scheduled(5, Create(CheckSchedule, LATER_NOTICE), map[]);
      && Enabled(s0, Tick(5)) && Step(cfg, s0, Tick(5)) == s1
      && Enabled(s1, StartPass(0, [0])) && Step(cfg, s1, StartPass(0, [0])) == Overtaken(CheckSchedule)
    requires Enabled(Overtaken(CheckSchedule), StepCall(0, true)) && Step(cfg, Overtaken(CheckSchedule), StepCall(0, true)) == Overtaken(MarkQueued)
    requires Enabled(Overtaken(MarkQueued), StepCall(0, true)) && Step(cfg, Overtaken(MarkQueued), StepCall(0, true)) == Overtaken(Enqueue)
    requires Enabled(Overtaken(Enqueue), StepCall(0, true)) && Step(cfg, Overtaken(Enqueue), StepCall(0, true)) == s
    requires Enabled(s, StepPass(0, true)) && Step(cfg, s, StepPass(0, true)) == AfterPublish(s, 0)
    ensures RunsTo(cfg, LATE_CHECK, AfterPublish(s, 0)) && InSeries(cfg, LATE_CHECK)
  {
    var s0, s1 := Scheduled(0, Create(CheckSchedule, LATER_NOTICE), map[]), Scheduled(5, Create(CheckSchedule, LATER_NOTICE), map[]);
    var a1 := CREATED + [Tick(5)];
    var a2 := a1 + [StartPass(0, [0])];
    var a3 := a2 + [StepCall(0, true)];
    var a4 := a3 + [StepCall(0, true)];
    var a5 := a4 + [StepCall(0, true)];
    hide Step, Enabled, InSeries, RunsTo, AfterPublish, Overtaken;
    RunOn(cfg, CREATED, s0, Tick(5), s1);
    RunOn(cfg, a1, s1, StartPass(0, [0]), Overtaken(CheckSchedule));
    RunOn(cfg, a2, Overtaken(CheckSchedule), StepCall(0, true), Overtaken(MarkQueued));
    RunOn(cfg, a3, Overtaken(MarkQueued), StepCall(0, true), Overtaken(Enqueue));
    RunOn(cfg, a4, Overtaken(Enqueue), StepCall(0, true), s);
    RunOn(cfg, a5, s, StepPass(0, true), AfterPublish(s, 0));
  }

  // ----- a scheduled row, too, may end queued

  lemma PublishedFacts()
    ensures var s := PublishedOnce();
      && |Log(s.st, TOPIC)| == 1 && Log(s.st, TOPIC)[0].msg == Some(Msg(LATER_NOTICE, 0)) && Log(s.st, TOPIC)[0].copy == 0
      && s.st.rows == LATER_ROWS && TOPIC in s.consumers && s.consumers[TOPIC] == Consumer(0, 0, Idle) && s.passes == map[0 := MARKING]
  {
    assert map[0 := FULL_PASS][0 := MARKING] == map[0 := MARKING];
  }

  /** Between the publication and the mark, the worker delivers. */
  lemma ScheduledDelivered(cfg: Config) returns (s: State)
    ensures Reachable(cfg, s) && s.st.rows == map[0 := Row(LATER_NOTICE, Delivered, 0)] && s.passes == map[0 := MARKING]
  {
    PublishedRun(cfg);
    PublishedFacts();
    assert Reachable(cfg, PublishedOnce());
    hide Reachable, PublishedOnce, RunsTo, InSeries;
    s := Delivers(cfg, PublishedOnce(), LATER_NOTICE);
  }

  /** A scheduled row that is delivered before the pass marks it stays queued, with the pass through and nothing left to do. */
  lemma ScheduledMayEndQueued(cfg: Config)
    ensures exists s, s' ::
      && Reachable(cfg, s) && s.st.rows == map[0 := Row(LATER_NOTICE, Delivered, 0)]
      && Reaches(cfg, s, s') && s'.st.rows == map[0 := Row(LATER_NOTICE, Queued, 0)] && s'.passes == map[0 := THROUGH]
  {
    var s := ScheduledDelivered(cfg);
    Marks(cfg, s, 0);
    Drive.StepReaches(cfg, s, StepPass(0, true));
    hide Reachable, Reaches, Step, Enabled;
    assert map[0 := MARKING][0 := THROUGH] == map[0 := THROUGH];
  }
}
