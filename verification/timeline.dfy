/**
 * The sequencer over time: which stage is shown and which cycle is current
 * at every instant after a stage is entered, derived from the single-timer
 * state machine and proved to agree with the schedule of stage start times.
 */
module Timeline {
  import opened Stages
  import opened Sequencer
  import View

  /** Number of Clear stages among the k stages starting at s: each one ends in a cycle bump. */
  function Wraps(s: Stage, k: nat): nat
    decreases k
  {
    if k == 0 then 0 else (if s == Clear then 1 else 0) + Wraps(Next(s), k - 1)
  }

  /** k timer firings in a row, each one landing on a freshly entered stage. */
  function FireN(q: State, k: nat): (r: State)
    requires Entered(q)
    ensures Entered(r)
    ensures r.stage == NextN(q.stage, k)
    ensures r.now == q.now + Elapsed(q.stage, k)
    ensures r.cycle == q.cycle + Wraps(q.stage, k)
    decreases k
  {
    if k == 0 then q else FireN(Fire(q), k - 1)
  }

  /** Seven firings from Initial: back at Initial, 36500 ms later, one cycle on. */
  lemma OnePassOfFirings(q: State)
    requires Entered(q) && q.stage == Initial
    ensures FireN(q, StageCount).stage == Initial
    ensures FireN(q, StageCount).now == q.now + Period
    ensures FireN(q, StageCount).cycle == q.cycle + 1
  {
  }

  /**
   * Between the k-th and the (k+1)-th deadline after a stage was entered,
   * running the clock gives exactly the state after k firings.
   */
  lemma {:induction false} AdvanceWindow(q: State, k: nat, o: nat)
    requires Entered(q)
    requires Elapsed(q.stage, k) <= o < Elapsed(q.stage, k + 1)
    ensures Advance(q, q.now + o) == FireN(q, k).(now := q.now + o)
    decreases k
  {
    if k > 0 {
      AdvanceWindow(Fire(q), k - 1, o - Delay(q.stage));
    }
  }

  /** Running the clock to t1 and then on to t2 is the same as running it to t2. */
  lemma {:induction false} AdvanceSplit(q: State, t1: nat, t2: nat)
    requires Wf(q) && q.now <= t1 <= t2
    ensures Advance(Advance(q, t1), t2) == Advance(q, t2)
    decreases t1 - q.now
  {
    if q.mounted && q.timers[0].deadline <= t1 {
      AdvanceSplit(Fire(q), t1, t2);
    } else if q.mounted && q.timers[0].deadline <= t2 {
      var p := q.(now := t1);
      assert Fire(p) == Fire(q);
    }
  }

  /** The stage schedule: the stage shown o milliseconds into a pass. */
  function ScheduledStage(o: nat): Stage
    requires o < Period
  {
    if o < 5000 then Initial
    else if o < 15000 then SubHeadline
    else if o < 17000 then Listens
    else if o < 19000 then Learns
    else if o < 21000 then Acts
    else if o < 36000 then Tagline
    else Clear
  }

  /** Within one pass from Initial the machine follows the schedule and keeps its cycle. */
  lemma WithinPass(q: State, o: nat)
    requires Entered(q) && q.stage == Initial && o < Period
    ensures Advance(q, q.now + o).stage == ScheduledStage(o)
    ensures Advance(q, q.now + o).cycle == q.cycle
  {
    var k := if o < 5000 then 0
      else if o < 15000 then 1
      else if o < 17000 then 2
      else if o < 19000 then 3
      else if o < 21000 then 4
      else if o < 36000 then 5
      else 6;
    StartTimes();
    AdvanceWindow(q, k, o);
  }

  /** One full period after Initial was entered it is entered again, one cycle on. */
  lemma OnePass(q: State)
    requires Entered(q) && q.stage == Initial
    ensures Entered(Advance(q, q.now + Period))
    ensures Advance(q, q.now + Period).stage == Initial
    ensures Advance(q, q.now + Period).cycle == q.cycle + 1
  {
    PassDuration(Initial);
    ElapsedStep(Initial, StageCount);
    AdvanceWindow(q, StageCount, Period);
  }

  /** Taking one period off an offset keeps its place in the pass and takes one pass off. */
  lemma DropPeriod(o: nat)
    requires o >= Period
    ensures (o - Period) % Period == o % Period
    ensures (o - Period) / Period + 1 == o / Period
  {
  }

  /**
   * At every instant o after Initial was entered, the stage is the scheduled
   * one for o modulo the period and the cycle has grown by the number of
   * whole periods elapsed.
   */
  lemma {:induction false} StageAtOffset(q: State, o: nat)
    requires Entered(q) && q.stage == Initial
    ensures Advance(q, q.now + o).stage == ScheduledStage(o % Period)
    ensures Advance(q, q.now + o).cycle == q.cycle + o / Period
    decreases o
  {
    if o < Period {
      WithinPass(q, o);
    } else {
      var t := q.now + o;
      var p := Advance(q, q.now + Period);
      OnePass(q);
      AdvanceSplit(q, q.now + Period, t);
      assert Advance(q, t) == Advance(p, p.now + (o - Period));
      StageAtOffset(p, o - Period);
      DropPeriod(o);
    }
  }

  /** From mounting at t0, the state at time t is fixed by t - t0 alone. */
  lemma StageSinceMount(t0: nat, t: nat)
    requires t0 <= t
    ensures Advance(Mount(t0), t).stage == ScheduledStage((t - t0) % Period)
    ensures Advance(Mount(t0), t).cycle == (t - t0) / Period
  {
    StageAtOffset(Mount(t0), t - t0);
  }

  /**
   * Elements rendered at two instants after Initial was entered share a key
   * exactly when they are the same element, shown in the same stage of the
   * same pass.
   */
  lemma KeysOverTime(q: State, o1: nat, o2: nat)
    requires Entered(q) && q.stage == Initial
    ensures
      var r1 := Advance(q, q.now + o1);
      var r2 := Advance(q, q.now + o2);
      forall e1 <- View.Render(r1.stage, r1.cycle), e2 <- View.Render(r2.stage, r2.cycle) ::
        e1.key == e2.key <==>
          e1 == e2 && o1 / Period == o2 / Period && ScheduledStage(o1 % Period) == ScheduledStage(o2 % Period)
  {
    StageAtOffset(q, o1);
    StageAtOffset(q, o2);
    var r1 := Advance(q, q.now + o1);
    var r2 := Advance(q, q.now + o2);
    View.KeysIdentify(r1.stage, r1.cycle, r2.stage, r2.cycle);
  }

  /** The same instant of the next pass renders only fresh keys. */
  lemma FreshKeysEachPass(q: State, o: nat)
    requires Entered(q) && q.stage == Initial
    ensures
      var r1 := Advance(q, q.now + o);
      var r2 := Advance(q, q.now + o + Period);
      forall e1 <- View.Render(r1.stage, r1.cycle), e2 <- View.Render(r2.stage, r2.cycle) ::
        e1.key != e2.key
  {
    var r1 := Advance(q, q.now + o);
    var r2 := Advance(q, q.now + o + Period);
    StageAtOffset(q, o);
    StageAtOffset(q, o + Period);
    DropPeriod(o + Period);
    assert r1.cycle != r2.cycle;
    View.KeysIdentify(r1.stage, r1.cycle, r2.stage, r2.cycle);
  }
}
