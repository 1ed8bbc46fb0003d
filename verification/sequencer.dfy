/**
 * The component's state and its single-timer discipline.
 *
 * The component holds a stage and a cycle counter. After every commit that
 * changes the stage, its effect registers exactly one timer with the host
 * for the new stage, and the cleanup returned by the previous effect run
 * clears the timer that run registered. The host clock, the host's live
 * timers and the handle captured by the installed cleanup are all part of
 * the state, so that "at most one pending timer" is something to prove.
 */
module Sequencer {
  import opened Stages
  import opened Wrappers

  /** A live host timer: its handle, the stage whose effect registered it, and when it is due. */
  datatype Timer = Timer(id: nat, owner: Stage, deadline: nat)

  /**
   * `timers` are the host's live timers registered by this component;
   * `cleanup` is the handle captured by the cleanup of the installed effect;
   * `nextId` is the handle the host gives the next timer.
   */
  datatype State = State(
    mounted: bool,
    stage: Stage,
    cycle: nat,
    now: nat,
    timers: seq<Timer>,
    cleanup: Option<nat>,
    nextId: nat)

  /**
   * The sequencer invariant. While mounted exactly one timer is live: the
   * installed cleanup holds its handle, it was registered for the current
   * stage, and it is due in the future but no later than one stage delay
   * from now. Once unmounted no timer is live.
   */
  predicate Wf(q: State)
  {
    if q.mounted then
      && |q.timers| == 1
      && q.cleanup == Some(q.timers[0].id)
      && q.timers[0].owner == q.stage
      && q.now < q.timers[0].deadline <= q.now + Delay(q.stage)
    else
      q.timers == [] && q.cleanup == None
  }

  /** A well-formed state whose stage has just been entered: its timer is due one full delay from now. */
  predicate Entered(q: State)
  {
    Wf(q) && q.mounted && q.timers[0].deadline == q.now + Delay(q.stage)
  }

  /** The host's clearTimeout: the timer with handle h stops being live; clearing a fired handle does nothing. */
  function Cancel(timers: seq<Timer>, h: nat): (r: seq<Timer>)
    ensures forall t <- r :: t in timers && t.id != h
    ensures forall t <- timers :: t.id != h ==> t in r
  {
    if timers == [] then []
    else (if timers[0].id == h then [] else [timers[0]]) + Cancel(timers[1..], h)
  }

  /** Runs the cleanup of the installed effect, if there is one. */
  function CleanUp(q: State): State
  {
    match q.cleanup
    case None => q
    case Some(h) => q.(timers := Cancel(q.timers, h), cleanup := None)
  }

  /** Runs the effect for the current stage: one timer for that stage's delay, whose handle the new cleanup captures. */
  function Schedule(q: State): State
  {
    q.(timers := q.timers + [Timer(q.nextId, q.stage, q.now + Delay(q.stage))],
       cleanup := Some(q.nextId),
       nextId := q.nextId + 1)
  }

  /**
   * Commits a state update. Updates to an unmounted component are ignored;
   * the effect depends on the stage only, so it is cleaned up and re-run
   * exactly when the stage changes.
   */
  function Commit(q: State, s: Stage, c: nat): State
  {
    if !q.mounted then q
    else if s == q.stage then q.(cycle := c)
    else Schedule(CleanUp(q.(stage := s, cycle := c)))
  }

  /** The body of a timer registered for stage `owner`: Clear bumps the cycle and restarts; the others move on. */
  function Callback(q: State, owner: Stage): State
  {
    if owner == Clear then Commit(q, Initial, q.cycle + 1)
    else Commit(q, Next(owner), q.cycle)
  }

  /** Mounting at time t0: stage Initial, cycle 0, and the first effect run. */
  function Mount(t0: nat): (r: State)
    ensures Entered(r) && r.stage == Initial && r.cycle == 0 && r.now == t0
  {
    Schedule(State(true, Initial, 0, t0, [], None, 0))
  }

  /**
   * The host fires the live timer: the clock stands at its deadline, it is
   * no longer live, and its callback runs. Because the only live timer
   * belongs to the current stage, the stage moves to its successor and the
   * cycle grows exactly on the Clear to Initial edge.
   */
  function Fire(q: State): (r: State)
    requires Wf(q) && q.mounted
    ensures Entered(r)
    ensures r.now == q.timers[0].deadline
    ensures r.stage == Next(q.stage)
    ensures r.cycle == if q.stage == Clear then q.cycle + 1 else q.cycle
  {
    var t := q.timers[0];
    Callback(q.(now := t.deadline, timers := q.timers[1..]), t.owner)
  }

  /** The host clock runs forward to t, firing every timer that falls due on the way. */
  function Advance(q: State, t: nat): (r: State)
    requires Wf(q) && q.now <= t
    ensures Wf(r) && r.now == t && r.mounted == q.mounted
    ensures r.cycle >= q.cycle
    ensures !q.mounted ==> r == q.(now := t)
    decreases t - q.now
  {
    if q.mounted && q.timers[0].deadline <= t then Advance(Fire(q), t)
    else q.(now := t)
  }

  /**
   * The stage is set to s by anything other than its own timer. A real
   * change cleans up the old stage's timer and registers one for s;
   * setting the current stage again, or setting it after unmounting,
   * changes nothing.
   */
  function Force(q: State, s: Stage): (r: State)
    requires Wf(q)
    ensures Wf(r) && r.now == q.now && r.cycle == q.cycle && r.mounted == q.mounted
    ensures q.mounted && s != q.stage ==>
      Entered(r) && r.stage == s && forall t <- r.timers :: t.owner != q.stage
    ensures !q.mounted || s == q.stage ==> r == q
  {
    assert q.mounted ==> Cancel(q.timers, q.timers[0].id) == [];
    Commit(q, s, q.cycle)
  }

  /** Unmounting runs the installed cleanup; no timer of the component stays live. */
  function Unmount(q: State): (r: State)
    requires Wf(q)
    ensures Wf(r) && !r.mounted && r.timers == []
    ensures r.stage == q.stage && r.cycle == q.cycle && r.now == q.now
  {
    assert q.mounted ==> q.timers[1..] == [] && Cancel(q.timers, q.timers[0].id) == [];
    CleanUp(q).(mounted := false)
  }

  /** After unmounting, time passing fires nothing: stage and cycle stay as they were. */
  lemma NothingFiresAfterUnmount(q: State, t: nat)
    requires Wf(q) && q.now <= t
    ensures Advance(Unmount(q), t).stage == q.stage
    ensures Advance(Unmount(q), t).cycle == q.cycle
    ensures Advance(Unmount(q), t).timers == []
  {
  }

  /** What can happen to a mounted sequencer: time passes, the stage is set from outside, or it is unmounted. */
  datatype Event = Tick(ms: nat) | SetStage(s: Stage) | Teardown

  function Step(q: State, e: Event): (r: State)
    requires Wf(q)
    ensures Wf(r)
  {
    match e
    case Tick(ms) => Advance(q, q.now + ms)
    case SetStage(s) => Force(q, s)
    case Teardown => Unmount(q)
  }

  /**
   * Whatever happens after mounting, at most one timer is live, it belongs
   * to the stage being shown and it is not overdue; the cycle never
   * decreases and the clock never goes back.
   */
  function Replay(q: State, es: seq<Event>): (r: State)
    requires Wf(q)
    ensures Wf(r)
    ensures |r.timers| <= 1
    ensures forall t <- r.timers :: t.owner == r.stage && r.now < t.deadline
    ensures r.cycle >= q.cycle && r.now >= q.now
    decreases |es|
  {
    if es == [] then q else Replay(Step(q, es[0]), es[1..])
  }
}
