/** Three short histories in which a worker or a resume comes late, and what they leave behind. */
module Latecomers {
  import opened Values
  import opened Jobs
  import opened Runs
  import opened Plans
  import opened Invariant
  import opened Handlers
  import opened Preservation
  import opened Steps
  import opened ForeachRuns
  import opened Unfolding
  import opened Checks
  import opened Redelivery
  import opened Steadiness

  const SLOW := Claim(0, "slow")
  const QUICK := Claim(0, "quick")

  // ----- a failure

  const SOLO_JOB := BareJob("a", Plain("set"), [], [])

  const SOLO := Plan(map["a" := SOLO_JOB], map["a" := {}], map["a" := SOLO_JOB], map["a" := 0])

  /** A run of one node, just started. */
  const SOLO_RUN := Run(Running, 1, map[], map[], map[], map[0 := SOLO_JOB], map[0 := FRESH_ROW], map[], 1, None, [], 0)

  lemma SoloOk()
    ensures RunInv(SOLO, SOLO_RUN)
  {
    assert TemplateOk(SOLO, "a") && DepsOk(SOLO, "a") && EdgesOk(SOLO, "a");
    assert WfPlan(SOLO);
    assert DoneSet([]) == {};
    hide WfPlan;
    assert SOLO_RUN.queue[0].nodeId == "a";
  }

  const SOLO_DONE := Completing(SOLO_JOB, None, map[], JNum(1))

  /** Two workers, one node: the first's claim lapses, the second completes the run, and the first gives up late. */
  const LATE_MOVES: seq<Move> := [Grab(SLOW), Lapse(0), Grab(QUICK), Submit(QUICK, SOLO_JOB, SOLO_DONE), Check(0),
                                  Fault(SLOW, SOLO_JOB, map[], 1, SecretMissing)]

  /** The states of the run along those moves. */
  function LateRuns(): (runs: seq<Run>)
    ensures |runs| == 7
  {
    var taken := SOLO_RUN.(rows := map[0 := Row(Live, 1, Some("slow"))]);
    var lapsed := SOLO_RUN.(rows := map[0 := Row(Live, 1, None)]);
    var again := SOLO_RUN.(rows := map[0 := Row(Live, 2, Some("quick"))]);
    var done := SOLO_RUN.(pending := 0, queue := map[], rows := map[], results := map["a" := JNum(1)], history := [SOLO_DONE]);
    var completed := done.(status := Completed, fired := 1);
    var failed := completed.(status := Failed, results := map["a" := FailureResult(SecretMissing)], saved := Some(SOLO_JOB));
    [SOLO_RUN, taken, lapsed, again, done, completed, failed]
  }

  lemma LateRunsAre(lim: Limits, i: nat)
    requires i < |LATE_MOVES|
    ensures Possible(LateRuns()[i], LATE_MOVES[i]) && LateRuns()[i + 1] == After(lim, LateRuns()[i], LATE_MOVES[i])
  {
    if i < 3 {
      assert i == 0 || i == 1 || i == 2;
    } else {
      LateEnd(lim, i);
    }
  }

  lemma LateEnd(lim: Limits, i: nat)
    requires 3 <= i < |LATE_MOVES|
    ensures Possible(LateRuns()[i], LATE_MOVES[i]) && LateRuns()[i + 1] == After(lim, LateRuns()[i], LATE_MOVES[i])
  {
    hide CommitAtom;
    SoloSubmits();
    assert i == 3 || i == 4 || i == 5;
  }

  lemma SoloSubmits()
    ensures Committed(LateRuns()[3], AtomOf(SOLO_JOB, QUICK, SOLO_DONE, None)) == LateRuns()[4]
  {
    var run := LateRuns()[3];
    assert NextJobs(SOLO_DONE, []) == [];
    assert Decrement(run.remaining, []) == Some((run.remaining, {}));
    assert ReadyJobs([], {}, []) == [];
    assert run.queue - {0} == map[] && run.rows - {0} == map[];
    assert run.results["a" := JNum(1)] == map["a" := JNum(1)];
  }

  /**
   A worker that comes back late with a failure replaces the result of a completed node and marks the completed
   run failed, with nothing dead-lettered.
   */
  lemma LateFailure(lim: Limits)
    ensures RunInv(SOLO, LateRuns()[0]) && IsFine(lim, LateRuns(), LATE_MOVES)
    ensures var before, after := LateRuns()[5], LateRuns()[6];
            && before.status == Completed && ResultsOk(before.history, before.results) && FailedRightly(before)
            && after.status == Failed && !ResultsOk(after.history, after.results) && !FailedRightly(after)
  {
    hide RunInv, After, Possible, Honest, LateRuns, ResultsOk, FailedRightly;
    SoloOk();
    LateStart();
    LateOutcome();
    forall i: nat | i < |LATE_MOVES|
      ensures Possible(LateRuns()[i], LATE_MOVES[i]) && Honest(LateRuns(), LATE_MOVES, i)
      ensures LateRuns()[i + 1] == After(lim, LateRuns()[i], LATE_MOVES[i])
    {
      LateRunsAre(lim, i);
      LateHonest(i);
    }
  }

  lemma LateStart()
    ensures LateRuns()[0] == SOLO_RUN && IdsOk(SOLO_RUN)
  {
  }

  lemma LateHonest(i: nat)
    requires i < |LATE_MOVES|
    ensures Honest(LateRuns(), LATE_MOVES, i)
  {
    assert i == 0 || i == 1 || i == 2 || i == 3 || i == 4 || i == 5;
    if i == 3 {
      assert ReadAt(LateRuns(), LATE_MOVES, 2, QUICK, SOLO_JOB, 2);
    } else if i == 5 {
      assert ReadAt(LateRuns(), LATE_MOVES, 0, SLOW, SOLO_JOB, 1);
    }
  }

  lemma LateOutcome()
    ensures var before, after := LateRuns()[5], LateRuns()[6];
            && before.status == Completed && ResultsOk(before.history, before.results) && FailedRightly(before)
            && after.status == Failed && !ResultsOk(after.history, after.results) && !FailedRightly(after)
  {
    var after := LateRuns()[6];
    assert after.history[0] == SOLO_DONE;
    assert after.results["a"] != JNum(1);
  }

  // ----- a fan-out

  const JOIN := BareJob("r", Plain("set"), [], []).(collect := Some(Collect("b", "x", 0, "f")))
  const EACH := BareJob("b", Plain("set"), ["r"], [JOIN])
  const LOOP := Loop(EACH, "x", ["r"])
  const SPREAD := BareJob("f", Foreach, [], [JOIN]).(loop := Some(LOOP))

  /** A scheduler, its body and one rejoin. */
  const FAN := Plan(map["f" := SPREAD, "b" := EACH, "r" := JOIN], map["f" := {}, "b" := {"f"}, "r" := {"b"}],
                    map["f" := SPREAD], map["f" := 0, "b" := 1, "r" := 2])

  const FAN_RUN := Run(Running, 1, map["b" := 1, "r" := 1], map[], map[], map[0 := SPREAD], map[0 := FRESH_ROW], map[], 1, None, [], 0)

  const TWO := [JNum(1), JNum(2)]

  /** Iteration `i`'s job. */
  function Iteration(i: nat): NodeJob
    requires i < 2
  {
    BodyJobs(SPREAD, LOOP, TWO)[i]
  }

  function IterationDone(i: nat): Completion
    requires i < 2
  {
    Completing(Iteration(i), None, Iteration(i).input, JNum(0))
  }

  lemma IterationIs(i: nat)
    requires i < 2
    ensures var it := Iteration(i);
            && it.nodeId == IterId("b", i) && it.def == EACH.def && !it.skip && it.collect == None
            && it.dependents == ["r"] && |it.downstream| == 1
  {
    assert Named([JOIN], ["r"]);
    IterationRejoins([JOIN], ["r"], LOOP, 2);
    assert BodyJobs(SPREAD, LOOP, TWO)[i] == BodyJob(SPREAD, LOOP, MarkRejoins([JOIN], ["r"], LOOP, 2), TWO, i);
  }

  /**
   Two workers, one scheduler of two items: the first's claim lapses, the second fans out, an iteration completes,
   the first sets the rejoin's counter back to two and fails to commit, and the other iteration completes.
   */
  function FanMoves(): (moves: seq<Move>)
    ensures |moves| == 12
  {
    [Grab(SLOW), Lapse(0), Grab(QUICK), Recount(QUICK, SPREAD, "r", 2), Scatter(QUICK, SPREAD, TWO),
     Grab(Claim(1, "quick")), Submit(Claim(1, "quick"), Iteration(0), IterationDone(0)),
     Recount(SLOW, SPREAD, "r", 2), Scatter(SLOW, SPREAD, TWO),
     Grab(Claim(2, "quick")), Submit(Claim(2, "quick"), Iteration(1), IterationDone(1)), Check(0)]
  }

  function TakenSlow(): Run {
    FAN_RUN.(rows := map[0 := Row(Live, 1, Some("slow"))])
  }

  function Lapsed(): Run {
    FAN_RUN.(rows := map[0 := Row(Live, 1, None)])
  }

  function TakenQuick(): Run {
    FAN_RUN.(rows := map[0 := Row(Live, 2, Some("quick"))])
  }

  function Counting(): Run {
    TakenQuick().(remaining := map["b" := 1, "r" := 2])
  }

  function JustFanned(): Run {
    FAN_RUN.(pending := 2, remaining := map["b" := 1, "r" := 2], results := map["f" := ItemsResult(TWO)],
             queue := map[1 := Iteration(0), 2 := Iteration(1)], rows := map[1 := FRESH_ROW, 2 := FRESH_ROW],
             nextId := 3, history := [Spreads(SPREAD, TWO)])
  }

  function TakenFirst(): Run {
    JustFanned().(rows := map[1 := Row(Live, 1, Some("quick")), 2 := FRESH_ROW])
  }

  function OneLeft(): Run {
    JustFanned().(pending := 1, remaining := map["b" := 1, "r" := 1],
                  results := map["f" := ItemsResult(TWO), IterId("b", 0) := JNum(0)],
                  queue := map[2 := Iteration(1)], rows := map[2 := FRESH_ROW],
                  history := [Spreads(SPREAD, TWO), IterationDone(0)])
  }

  function Reset(): Run {
    OneLeft().(remaining := map["b" := 1, "r" := 2])
  }

  function TakenSecond(): Run {
    Reset().(rows := map[2 := Row(Live, 1, Some("quick"))])
  }

  function NoneLeft(): Run {
    OneLeft().(pending := 0, remaining := map["b" := 1, "r" := 1],
               results := map["f" := ItemsResult(TWO), IterId("b", 0) := JNum(0), IterId("b", 1) := JNum(0)],
               queue := map[], rows := map[],
               history := [Spreads(SPREAD, TWO), IterationDone(0), IterationDone(1)])
  }

  function Finished(): Run {
    NoneLeft().(status := Completed, fired := 1)
  }

  /** The states of the run along those moves. */
  function FanRuns(): (runs: seq<Run>)
    ensures |runs| == 13
  {
    [FAN_RUN, TakenSlow(), Lapsed(), TakenQuick(), Counting(), JustFanned(), TakenFirst(),
     OneLeft(), Reset(), Reset(), TakenSecond(), NoneLeft(), Finished()]
  }

  lemma FanNames()
    ensures "f" != "b" && "b" != "r" && "f" != "r"
    ensures forall n :: n in FAN.jobs <==> n == "f" || n == "b" || n == "r"
  {
    assert "f"[0] != "b"[0] && "b"[0] != "r"[0] && "f"[0] != "r"[0];
  }

  lemma FanWf()
    ensures WfPlan(FAN)
  {
    FanNames();
    assert TemplateOk(FAN, "f") && TemplateOk(FAN, "b") && TemplateOk(FAN, "r");
    assert DepsOk(FAN, "f") && DepsOk(FAN, "b") && DepsOk(FAN, "r");
    assert EdgesOk(FAN, "f") && EdgesOk(FAN, "b") && EdgesOk(FAN, "r");
    hide TemplateOk, DepsOk, EdgesOk;
  }

  lemma FanShape()
    ensures ForeachShape(FAN, "f", "b")
  {
    FanNames();
    forall i: nat
      ensures IterId("b", i) !in FAN.jobs
    {
      IterationNew(i);
    }
    hide IterId;
  }

  lemma FanUnfolds()
    ensures Unfolds(FAN, FAN, []) && Looped(FAN)
  {
    FanNames();
    FanShape();
    hide ForeachShape;
    assert ForeachsOk(FAN, []);
    Unfolded(FAN);
    hide ForeachsOk;
  }

  lemma IterationNew(i: nat)
    ensures IterId("b", i) != "f" && IterId("b", i) != "b" && IterId("b", i) != "r"
  {
    assert |IterId("b", i)| >= 2;
  }

  lemma FanRunCore()
    ensures Core(FAN, [], FAN_RUN.remaining, FAN_RUN.queue, map[]) && Covered(FAN, [], FAN_RUN.queue, map[], {})
  {
    FanNames();
    FanWf();
    hide WfPlan;
    assert DoneSet([]) == {};
    assert {"f"} - {} == {"f"} && {"b"} - {} == {"b"};
    assert FAN_RUN.queue[0] == SPREAD && JobFor(FAN, [], "f") == SPREAD;
  }

  lemma FanRunOk()
    ensures RunInv(FAN, FAN_RUN)
  {
    FanRunCore();
    hide Core, Covered;
    assert 0 in FAN_RUN.queue && FAN_RUN.history == [];
  }

  lemma FanScatters()
    ensures Committed(Counting(), FanAtom(SPREAD, QUICK, TWO)) == JustFanned()
  {
    hide BodyJobs, CommitAtom, Enqueue, IterId;
    var run := Counting();
    var c := Spreads(SPREAD, TWO);
    var bodies := BodyJobs(SPREAD, LOOP, TWO);
    assert bodies == [Iteration(0), Iteration(1)];
    hide Iteration, ItemsResult, FanAtom, JustFanned, Counting, IdsOk;
    CountingOk();
    var fanned := ScatterCommits(run, QUICK, c, bodies);
    TwoEnqueued(Written(run, c), Iteration(0), Iteration(1));
    FannedIs();
    FanAtomIs(QUICK);
  }

  lemma CountingOk()
    ensures IdsOk(Counting()) && ClaimValid(Counting(), QUICK)
  {
  }

  lemma FanAtomIs(claim: Claim)
    ensures FanAtom(SPREAD, claim, TWO) == ScatterAtom(claim, Spreads(SPREAD, TWO), BodyJobs(SPREAD, LOOP, TWO))
  {
    hide BodyJobs, ItemsResult;
  }

  lemma FannedIs()
    ensures var fanned := EnqueueOne(EnqueueOne(Written(Counting(), Spreads(SPREAD, TWO)), Iteration(0)), Iteration(1));
            Remove(fanned, 0).(pending := fanned.pending + 1) == JustFanned()
  {
    hide Iteration, ItemsResult;
    var run := Counting();
    var c := Spreads(SPREAD, TWO);
    var fanned := EnqueueOne(EnqueueOne(Written(run, c), Iteration(0)), Iteration(1));
    assert fanned.queue - {0} == JustFanned().queue;
    assert fanned.rows - {0} == JustFanned().rows;
    assert run.results["f" := c.result] == JustFanned().results;
  }

  lemma TwoEnqueued(run: Run, a: NodeJob, b: NodeJob)
    ensures Enqueue(run, [a, b]) == EnqueueOne(EnqueueOne(run, a), b)
  {
    EnqueueUnfolds(run, [a, b]);
    assert [a, b][..1] == [a];
    EnqueueUnfolds(run, [a]);
    assert [a][..0] == [];
    EnqueueUnfolds(run, []);
    hide Enqueue;
  }

  /** An iteration's success while the rejoin still waits for another. */
  lemma IterationCommits(run: Run, claim: Claim, i: nat)
    requires i < 2 && ClaimValid(run, claim) && run.queue[claim.id] == Iteration(i) && IdsOk(run)
    requires "r" in run.remaining && run.remaining["r"] == 2
    ensures var c := IterationDone(i);
            Committed(run, AtomOf(Iteration(i), claim, c, None)) ==
            run.(pending := run.pending - 1, remaining := run.remaining["r" := 1], queue := run.queue - {claim.id},
                 rows := run.rows - {claim.id}, results := run.results[IterId("b", i) := JNum(0)], history := run.history + [c])
  {
    hide IterId, BodyJobs, IdsOk;
    IterationIs(i);
    var c := IterationDone(i);
    var m := run.remaining["r" := 1];
    assert ["r"][..0] == [] && Decrement(run.remaining, ["r"]) == Some((m, {}));
    var jobs := NextJobs(c, Iteration(i).downstream);
    assert jobs[..0] == [];
    assert ReadyJobs(["r"], {}, jobs) == [];
  }

  lemma FirstSubmits()
    ensures Committed(TakenFirst(), AtomOf(Iteration(0), Claim(1, "quick"), IterationDone(0), None)) == OneLeft()
  {
    hide IterId, Iteration, IterationDone, CommitAtom, AtomOf, ItemsResult;
    var run := TakenFirst();
    IterationCommits(run, Claim(1, "quick"), 0);
    assert run.queue - {1} == OneLeft().queue && run.rows - {1} == OneLeft().rows;
    assert run.remaining["r" := 1] == map["b" := 1, "r" := 1];
    assert run.results[IterId("b", 0) := JNum(0)] == OneLeft().results;
  }

  lemma SecondSubmits()
    ensures Committed(TakenSecond(), AtomOf(Iteration(1), Claim(2, "quick"), IterationDone(1), None)) == NoneLeft()
  {
    hide IterId, Iteration, IterationDone, CommitAtom, AtomOf, ItemsResult;
    var run := TakenSecond();
    IterationCommits(run, Claim(2, "quick"), 1);
    assert run.queue - {2} == NoneLeft().queue && run.rows - {2} == NoneLeft().rows;
    assert run.remaining["r" := 1] == map["b" := 1, "r" := 1];
    assert run.results[IterId("b", 1) := JNum(0)] == NoneLeft().results;
  }

  lemma Claims(lim: Limits)
    ensures Possible(FAN_RUN, Grab(SLOW)) && After(lim, FAN_RUN, Grab(SLOW)) == TakenSlow()
    ensures Possible(TakenSlow(), Lapse(0)) && After(lim, TakenSlow(), Lapse(0)) == Lapsed()
    ensures Possible(Lapsed(), Grab(QUICK)) && After(lim, Lapsed(), Grab(QUICK)) == TakenQuick()
  {
  }

  lemma LaterClaims(lim: Limits)
    ensures Possible(JustFanned(), Grab(Claim(1, "quick"))) && After(lim, JustFanned(), Grab(Claim(1, "quick"))) == TakenFirst()
    ensures Possible(Reset(), Grab(Claim(2, "quick"))) && After(lim, Reset(), Grab(Claim(2, "quick"))) == TakenSecond()
  {
    hide IterId, Iteration, IterationDone, ItemsResult;
    assert JustFanned().rows[1 := Row(Live, 1, Some("quick"))] == TakenFirst().rows;
  }

  lemma Recounts(lim: Limits)
    ensures After(lim, TakenQuick(), Recount(QUICK, SPREAD, "r", 2)) == Counting()
    ensures After(lim, OneLeft(), Recount(SLOW, SPREAD, "r", 2)) == Reset()
  {
    hide IterId, Iteration, IterationDone, ItemsResult, SetRemaining;
    SetOne(TakenQuick().remaining, "r", 2);
    SetOne(OneLeft().remaining, "r", 2);
    assert TakenQuick().remaining["r" := 2] == Counting().remaining;
    assert OneLeft().remaining["r" := 2] == Counting().remaining;
  }

  lemma LateScatter()
    ensures Committed(Reset(), FanAtom(SPREAD, SLOW, TWO)) == Reset()
  {
    hide IterId, Iteration, IterationDone, ItemsResult, CommitAtom, FanAtom;
    AtomAcks(SPREAD, SLOW, Spreads(SPREAD, TWO), TWO);
    StaleAtomIsNothing(Reset(), FanAtom(SPREAD, SLOW, TWO));
  }

  lemma Finishes(lim: Limits)
    ensures After(lim, NoneLeft(), Check(0)) == Finished()
  {
    hide IterId, Iteration, IterationDone, ItemsResult;
  }

  lemma MovesAre()
    ensures FanMoves()[0] == Grab(SLOW) && FanMoves()[1] == Lapse(0) && FanMoves()[2] == Grab(QUICK)
    ensures FanMoves()[3] == Recount(QUICK, SPREAD, "r", 2) && FanMoves()[4] == Scatter(QUICK, SPREAD, TWO)
    ensures FanMoves()[5] == Grab(Claim(1, "quick"))
    ensures FanMoves()[6] == Submit(Claim(1, "quick"), Iteration(0), IterationDone(0))
    ensures FanMoves()[7] == Recount(SLOW, SPREAD, "r", 2) && FanMoves()[8] == Scatter(SLOW, SPREAD, TWO)
    ensures FanMoves()[9] == Grab(Claim(2, "quick"))
    ensures FanMoves()[10] == Submit(Claim(2, "quick"), Iteration(1), IterationDone(1)) && FanMoves()[11] == Check(0)
  {
    hide Iteration, IterationDone;
  }

  lemma EarlyStates()
    ensures FanRuns()[0] == FAN_RUN && FanRuns()[1] == TakenSlow() && FanRuns()[2] == Lapsed() && FanRuns()[3] == TakenQuick()
    ensures FanRuns()[4] == Counting() && FanRuns()[5] == JustFanned() && FanRuns()[6] == TakenFirst()
  {
    hide TakenSlow, Lapsed, TakenQuick, Counting, JustFanned, TakenFirst, OneLeft, Reset, TakenSecond, NoneLeft, Finished;
  }

  lemma LaterStates()
    ensures FanRuns()[7] == OneLeft() && FanRuns()[8] == Reset() && FanRuns()[9] == Reset()
    ensures FanRuns()[10] == TakenSecond() && FanRuns()[11] == NoneLeft() && FanRuns()[12] == Finished()
  {
    hide TakenSlow, Lapsed, TakenQuick, Counting, JustFanned, TakenFirst, OneLeft, Reset, TakenSecond, NoneLeft, Finished;
  }

  lemma Commits(lim: Limits)
    ensures After(lim, Counting(), Scatter(QUICK, SPREAD, TWO)) == JustFanned()
    ensures After(lim, TakenFirst(), Submit(Claim(1, "quick"), Iteration(0), IterationDone(0))) == OneLeft()
    ensures After(lim, Reset(), Scatter(SLOW, SPREAD, TWO)) == Reset()
    ensures After(lim, TakenSecond(), Submit(Claim(2, "quick"), Iteration(1), IterationDone(1))) == NoneLeft()
  {
    hide Iteration, IterationDone, FanAtom, AtomOf, Committed;
    hide Counting, JustFanned, TakenFirst, OneLeft, Reset, TakenSecond, NoneLeft;
    FanScatters();
    FirstSubmits();
    SecondSubmits();
    LateScatter();
  }

  lemma EarlyMoves(lim: Limits, i: nat)
    requires i < 6
    ensures Possible(FanRuns()[i], FanMoves()[i]) && FanRuns()[i + 1] == After(lim, FanRuns()[i], FanMoves()[i])
  {
    hide Iteration, IterationDone, After, FanRuns, FanMoves;
    hide TakenSlow, Lapsed, TakenQuick, Counting, JustFanned, TakenFirst, OneLeft, Reset, TakenSecond, NoneLeft, Finished;
    MovesAre();
    EarlyStates();
    Claims(lim);
    LaterClaims(lim);
    Recounts(lim);
    Commits(lim);
    assert i == 0 || i == 1 || i == 2 || i == 3 || i == 4 || i == 5;
  }

  lemma LaterMoves(lim: Limits, i: nat)
    requires 6 <= i < 12
    ensures Possible(FanRuns()[i], FanMoves()[i]) && FanRuns()[i + 1] == After(lim, FanRuns()[i], FanMoves()[i])
  {
    hide Iteration, IterationDone, After, FanRuns, FanMoves;
    hide TakenSlow, Lapsed, TakenQuick, Counting, JustFanned, TakenFirst, OneLeft, Reset, TakenSecond, NoneLeft, Finished;
    MovesAre();
    EarlyStates();
    LaterStates();
    LaterClaims(lim);
    Recounts(lim);
    Commits(lim);
    Finishes(lim);
    assert i == 6 || i == 7 || i == 8 || i == 9 || i == 10 || i == 11;
  }

  lemma FanReads()
    ensures ReadAt(FanRuns(), FanMoves(), 0, SLOW, SPREAD, 1) && ReadAt(FanRuns(), FanMoves(), 2, QUICK, SPREAD, 2)
    ensures ReadAt(FanRuns(), FanMoves(), 5, Claim(1, "quick"), Iteration(0), 1)
    ensures ReadAt(FanRuns(), FanMoves(), 9, Claim(2, "quick"), Iteration(1), 1)
  {
    hide Iteration, IterationDone, FanRuns, FanMoves;
    hide TakenSlow, Lapsed, TakenQuick, Counting, JustFanned, TakenFirst, OneLeft, Reset, TakenSecond, NoneLeft, Finished;
    MovesAre();
    EarlyStates();
    LaterStates();
    ReadJobs();
  }

  lemma ReadJobs()
    ensures 0 in FAN_RUN.queue && FAN_RUN.queue[0] == SPREAD && 0 in Lapsed().queue && Lapsed().queue[0] == SPREAD
    ensures 0 in TakenSlow().rows && TakenSlow().rows[0].attempts == 1 && 0 in TakenQuick().rows && TakenQuick().rows[0].attempts == 2
    ensures 1 in JustFanned().queue && JustFanned().queue[1] == Iteration(0) && 2 in Reset().queue && Reset().queue[2] == Iteration(1)
    ensures 1 in TakenFirst().rows && TakenFirst().rows[1].attempts == 1
    ensures 2 in TakenSecond().rows && TakenSecond().rows[2].attempts == 1
  {
    hide Iteration, IterationDone, IterId, ItemsResult;
  }

  lemma FanFits(i: nat)
    requires i < |FanMoves()|
    ensures Fitting(FanMoves()[i])
  {
    hide BodyJobs, IterId, Iteration, FanMoves;
    MovesAre();
    IterationIs(0);
    IterationIs(1);
    assert i == 0 || i == 1 || i == 2 || i == 3 || i == 4 || i == 5 || i == 6 || i == 7 || i == 8 || i == 9 || i == 10 || i == 11;
  }

  lemma FanHonest(i: nat)
    requires i < |FanMoves()|
    ensures Honest(FanRuns(), FanMoves(), i)
  {
    hide Iteration, IterationDone, IterId, FanRuns, FanMoves, ReadAt, Fitting;
    MovesAre();
    FanReads();
    FanFits(i);
    assert i == 0 || i == 1 || i == 2 || i == 3 || i == 4 || i == 5 || i == 6 || i == 7 || i == 8 || i == 9 || i == 10 || i == 11;
  }

  /** What is left in the end. */
  lemma FanOutcome()
    ensures var last := FanRuns()[12];
            last.status == Completed && last.queue == map[] && last.parked == map[] && "r" !in DoneSet(last.history)
  {
    FanNames();
    IterationIs(0);
    IterationIs(1);
    IterationNew(0);
    IterationNew(1);
    hide Iteration, IterId;
  }

  /**
   A worker that comes back late with a fan-out of the very same two items, after one iteration completed: its
   transaction changes nothing, but the rejoin now waits for two more where one is left. The run is marked
   completed with nothing queued and nothing parked, and its rejoin never ran. That write is the first harmful move.
   */
  lemma LateFanOut(lim: Limits)
    ensures RunInv(FAN, FanRuns()[0]) && Unfolds(FAN, FAN, []) && IsFine(lim, FanRuns(), FanMoves())
    ensures HarmlessUpTo(FanRuns(), FanMoves(), 7) && !Harmless(FanRuns()[7], FanMoves()[7])
    ensures var last := FanRuns()[12];
            && last.status == Completed && last.queue == map[] && last.parked == map[]
            && "r" in FAN.jobs && "r" !in DoneSet(last.history)
  {
    hide RunInv, Unfolds, After, Possible, Honest, FanMoves, FanRuns, Harmless;
    hide TakenSlow, Lapsed, TakenQuick, Counting, JustFanned, TakenFirst, OneLeft, Reset, TakenSecond, NoneLeft, Finished;
    FanRunOk();
    FanUnfolds();
    FanNames();
    FanOutcome();
    FanHarm();
    EarlyStates();
    LaterStates();
    assert IdsOk(FAN_RUN);
    forall i: nat | i < |FanMoves()|
      ensures Possible(FanRuns()[i], FanMoves()[i]) && Honest(FanRuns(), FanMoves(), i)
      ensures FanRuns()[i + 1] == After(lim, FanRuns()[i], FanMoves()[i])
    {
      if i < 6 {
        EarlyMoves(lim, i);
      } else {
        LaterMoves(lim, i);
      }
      FanHonest(i);
    }
  }

  lemma FanHarm()
    ensures HarmlessUpTo(FanRuns(), FanMoves(), 7) && !Harmless(FanRuns()[7], FanMoves()[7])
  {
    hide FanRuns, FanMoves, Harmless;
    forall j: nat | j < 7
      ensures Harmless(FanRuns()[j], FanMoves()[j])
    {
      HarmlessMove(j);
    }
    HarmfulMove();
  }

  lemma HarmlessMove(j: nat)
    requires j < 7
    ensures Harmless(FanRuns()[j], FanMoves()[j])
  {
    hide Iteration, IterationDone, ClaimValid, Counted, FanRuns, FanMoves;
    hide TakenSlow, Lapsed, TakenQuick, Counting, JustFanned, TakenFirst;
    MovesAre();
    EarlyStates();
    HarmAt();
    IterationIs(0);
    assert j == 0 || j == 1 || j == 2 || j == 3 || j == 4 || j == 5 || j == 6;
  }

  lemma HarmfulMove()
    ensures !Harmless(FanRuns()[7], FanMoves()[7])
  {
    hide Iteration, IterationDone, FanRuns, FanMoves, OneLeft;
    MovesAre();
    LaterStates();
    HarmAt();
  }

  lemma HarmAt()
    ensures 0 in TakenQuick().queue && Counted(Counting().remaining, ["r"], 2)
    ensures 0 !in OneLeft().queue && "r" in OneLeft().remaining && OneLeft().remaining["r"] != 2
  {
    hide Iteration, IterationDone, IterId, ItemsResult;
  }

  // ----- a resume

  const GO: Move := Revive("w", ContinuationOf(PAUSE, "go", 0), "signal", JNum(1))
  const RING: Move := Revive("w", ContinuationOf(PAUSE, "go", 0), "timer", JNull)

  /** After the signal's resume: the node after the wait is queued with what the signal brought. */
  function Signalled(): Run {
    PARKED_RUN.(status := Running, pending := 1, remaining := map["m" := 0], results := map["w" := GoDone().result], parked := map[],
                queue := map[1 := NextJob(GoDone(), LEAF)], rows := map[1 := FRESH_ROW], nextId := 2, history := [GoDone()])
  }

  function GoDone(): Completion {
    Waking(ContinuationOf(PAUSE, "go", 0), "signal", JNum(1))
  }

  function RingDone(): Completion {
    Waking(ContinuationOf(PAUSE, "go", 0), "timer", JNull)
  }

  /** A signal and a timer read the same parked wait, and both resume it. */
  function ResumeRuns(): (runs: seq<Run>)
    ensures |runs| == 3
  {
    [PARKED_RUN, Signalled(),
     Signalled().(remaining := map["m" := -1], results := map["w" := RingDone().result], history := [GoDone(), RingDone()])]
  }

  lemma FirstResume()
    ensures Revived(PARKED_RUN, "w", ContinuationOf(PAUSE, "go", 0), "signal", JNum(1)) == Signalled()
  {
    var c := GoDone();
    var jobs := NextJobs(c, [LEAF]);
    var left := PARKED_RUN.remaining;
    var none: set<NodeId> := {};
    assert left["m" := 0] == map["m" := 0] && none + {"m"} == {"m"};
    assert ["m"][..0] == [] && Decrement(left, ["m"]) == Some((left["m" := 0], {"m"}));
    assert jobs[..0] == [] && jobs == [NextJob(c, LEAF)];
    assert ReadyJobs(["m"], {"m"}, jobs) == jobs;
    assert PARKED_RUN.parked - {"w"} == map[];
    hide NextJobs, ReadyJobs, Decrement, WakeResult;
    EnqueueUnfolds(Written(PARKED_RUN, c).(remaining := map["m" := 0]), jobs);
    EnqueueUnfolds(Written(PARKED_RUN, c).(remaining := map["m" := 0]), []);
  }

  lemma SecondResume()
    ensures Revived(Signalled(), "w", ContinuationOf(PAUSE, "go", 0), "timer", JNull) == ResumeRuns()[2]
  {
    var c := RingDone();
    var jobs := NextJobs(c, [LEAF]);
    var left := Signalled().remaining;
    assert left["m" := -1] == map["m" := -1];
    assert ["m"][..0] == [] && Decrement(left, ["m"]) == Some((left["m" := -1], {}));
    assert jobs[..0] == [];
    assert ReadyJobs(["m"], {}, jobs) == [];
    assert Signalled().parked - {"w"} == map[];
    hide NextJobs, ReadyJobs, Decrement;
    assert Signalled().results["w" := c.result] == map["w" := c.result];
  }

  /**
   A signal and a timer that both read the wait as parked both resume it. The second completes the wait again:
   its stored result is no longer the one the next node was queued with, and that node's counter falls below zero.
   */
  lemma LateResume(lim: Limits)
    ensures RunInv(RELAY, ResumeRuns()[0]) && IsFine(lim, ResumeRuns(), [GO, RING])
    ensures Harmless(ResumeRuns()[0], GO) && !Harmless(ResumeRuns()[1], RING)
    ensures var last := ResumeRuns()[2];
            && |last.history| == 2 && last.history[0].node == "w" && last.history[1].node == "w"
            && last.remaining["m"] == -1
            && 1 in last.queue && "w" in StepsOf(last.queue[1].input) && StepsOf(last.queue[1].input)["w"] != last.results["w"]
  {
    hide RunInv, Revived, Unfolds, GoDone, RingDone;
    ParkedRunOk();
    assert IdsOk(PARKED_RUN);
    forall i: nat | i < 2
      ensures Possible(ResumeRuns()[i], [GO, RING][i]) && Honest(ResumeRuns(), [GO, RING], i)
      ensures ResumeRuns()[i + 1] == After(lim, ResumeRuns()[i], [GO, RING][i])
    {
      ResumesAre(lim, i);
    }
    hide Honest, After;
    ThreadedResult();
    ResumeOutcome();
  }

  lemma ResumesAre(lim: Limits, i: nat)
    requires i < 2
    ensures Possible(ResumeRuns()[i], [GO, RING][i]) && Honest(ResumeRuns(), [GO, RING], i)
    ensures ResumeRuns()[i + 1] == After(lim, ResumeRuns()[i], [GO, RING][i])
  {
    hide Revived, GoDone, RingDone, Signalled;
    FirstResume();
    SecondResume();
    assert ReadWait(ResumeRuns(), 0, "w", ContinuationOf(PAUSE, "go", 0));
    assert i == 0 || i == 1;
  }

  lemma ResumeOutcome()
    ensures Harmless(ResumeRuns()[0], GO) && !Harmless(ResumeRuns()[1], RING)
    ensures var last := ResumeRuns()[2];
            && last.history == [GoDone(), RingDone()] && last.history[0].node == "w" && last.history[1].node == "w"
            && last.remaining["m"] == -1
            && 1 in last.queue && last.queue[1] == NextJob(GoDone(), LEAF)
            && "w" in last.results && last.results["w"] == RingDone().result
  {
  }

  lemma ThreadedResult()
    ensures var job := NextJob(GoDone(), LEAF);
            "w" in StepsOf(job.input) && StepsOf(job.input)["w"] == GoDone().result && GoDone().result != RingDone().result
  {
    assert PAUSE.def.nodeName == "w";
    assert "s"[0] != "t"[0];
    assert "signal" != "timer";
    assert GoDone().result.fields["source"] != RingDone().result.fields["source"];
  }
}
