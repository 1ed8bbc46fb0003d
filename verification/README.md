# Text-stage sequencer

A model of the animated headline of the hero section
(`animations/sequential-animation.tsx`). The `SequentialAnimation` component
has a `stage` and a `cycle` counter. An effect keyed on `stage` registers one
`setTimeout` per stage and returns a cleanup that clears it. The stages run
Initial → SubHeadline → Listens → Learns → Acts → Tagline → Clear → Initial,
and the Clear timer also bumps `cycle`. The markup shows one guarded branch
per stage. Each keyed element's key is `"<name>-" + cycle`, so a stage seen
again in a later cycle mounts a fresh element.

The project is organised as follows:

- `stages.dfy` (`Stages`): the enum, the successor table and the per-stage
  delays. It also covers iterated successors (`NextN`) and accumulated delays
  (`Elapsed`).
- `sequencer.dfy` (`Sequencer`): the component's state together with the
  host clock, the host's live timers and the handle held by the installed
  effect cleanup.
  - The React rules are modelled: a commit re-runs the effect only when
    `stage` changes, and updates to an unmounted component are ignored.
    `Mount`, `Fire`, `Advance`, `Force`, `Unmount` and `Replay` build on them.
  - The invariant `Wf` says that while mounted exactly one timer is live. That
    timer belongs to the current stage and is due within that stage's delay.
    After unmounting, no timer is live.
- `timeline.dfy` (`Timeline`): the machine over time.
  - It follows the schedule of stage start times and has a 36500 ms period.
  - At time t after mounting at t0, the stage and cycle are fixed by t − t0, taking effects to run at the instant of their commit.
  - Keys are fresh on every pass.
- `view.dfy` (`View`): the stage guards and the key scheme.
- `decimal.dfy` (`Decimal`): how a template literal prints the cycle.
- `wrappers.dfy` (`Wrappers`): `Option`.

Facts about the code that the model reflects:

- The source comment at `sequential-animation.tsx:119` calls Initial an
  "empty stage". It nevertheless renders a keyed placeholder that animates to
  opacity 0, so the model treats Initial as rendered but not visible
  (`View.VisibleContent`).
- The Tagline stage's wrapper `div` has no key. Its two keyed children,
  `tagline-title-<cycle>` and `tagline-subtitle-<cycle>`, are the keyed
  elements.
- `cycle` is internal state. The component uses it only inside keys and
  never passes it to anything else.
- The component offers no way to set the stage from outside. `Force` models
  any stage change not made by the stage's own timer, which the effect's
  `[stage]` dependency handles the same way.

`View.Render` and `View.VisibleContent` describe each stage's keyed elements,
not what is on screen at a given instant. For every stage except Tagline, the
keyed element is the direct child of `<AnimatePresence mode="wait">` (line 118).
For Tagline, the two keyed elements sit inside an unkeyed wrapper `div`
(line 225), and that wrapper is the child the presence wrapper tracks. The
presence wrapper keeps an exiting child mounted until its exit animation ends,
and only then mounts the next one.

## Model

| member | source | states |
|---|---|---|
| Stages.Index | animations/sequential-animation.tsx:10-18 | every stage carries one of the enum values 0..6 |
| Stages.FromIndex | animations/sequential-animation.tsx:10-18 | every enum value 0..6 names a stage, and that stage carries it back |
| Stages.IndexRoundTrip | animations/sequential-animation.tsx:10-18 | enum values and stages correspond one to one |
| Stages.Next | animations/sequential-animation.tsx:32-62 | the successor of the stage with value i has value (i + 1) mod 7, so it is total and stays in the enum (Clear wraps round to Initial) |
| Stages.Delay | animations/sequential-animation.tsx:31-62 | every stage waits between 500 and 15000 ms before its timer fires |
| Stages.NextNIndex | animations/sequential-animation.tsx:32-62 | k firings move the enum value k places forward modulo 7 |
| Stages.CycleLength | animations/sequential-animation.tsx:32-62 | a stage comes back to itself after exactly seven firings and never before (k firings return iff 7 divides k) |
| Stages.PassDuration | animations/sequential-animation.tsx:31-66 | whichever stage a pass starts at, its seven delays add up to 36500 ms |
| Stages.ElapsedStep | animations/sequential-animation.tsx:31-66 | adding one stage to a run adds that stage's delay |
| Stages.StartTimes | animations/sequential-animation.tsx:31-62 | counting from entering Initial, SubHeadline, Listens, Learns, Acts, Tagline and Clear start at 5000, 15000, 17000, 19000, 21000 and 36000 ms, and Initial comes back at 36500 ms |
| Decimal.Show | animations/sequential-animation.tsx:122 | the cycle is written as a non-empty string of digits whose first digit is 0 only for the number 0 (no leading zeros) |
| Decimal.ReadShow | animations/sequential-animation.tsx:122 | reading the written cycle back gives the cycle |
| Decimal.ShowInjective | animations/sequential-animation.tsx:122 | different cycles are written differently |
| View.Key | animations/sequential-animation.tsx:120-240 | a key is the element's name, then a dash, then a digit string with no leading zero that reads back as the cycle |
| View.RenderGuards | animations/sequential-animation.tsx:118-285 | every element a list of guards renders belongs to the stage being shown and carries that element's key for the current cycle; nothing is rendered when no guard matches or the stage is Clear |
| View.Render | animations/sequential-animation.tsx:118-285 | every rendered element belongs to the current stage and carries its key for the current cycle; nothing is rendered exactly in the Clear stage |
| View.ExactlyOneBranch | animations/sequential-animation.tsx:120-224 | the six guards exclude each other: exactly one holds for each stage other than Clear, and none holds for Clear |
| View.RenderGuardsSingle | animations/sequential-animation.tsx:118-285 | when at most one guard holds, the output is that guard's branch, or nothing |
| View.RenderIsBranch | animations/sequential-animation.tsx:118-285 | a stage renders exactly its own branch's elements |
| View.VisibleContent | animations/sequential-animation.tsx:120-127 | among the rendered children, visible text is present exactly in SubHeadline, Listens, Learns, Acts and Tagline; Initial has only the transparent placeholder and Clear has no children |
| View.SplitAtLastDash | animations/sequential-animation.tsx:122-240 | a name-dash-digits key splits uniquely into its name and its digits |
| View.NameInjective | animations/sequential-animation.tsx:122-240 | the seven key names are pairwise distinct |
| View.KeyInjective | animations/sequential-animation.tsx:122-240 | two keys are equal iff they are for the same element in the same cycle |
| View.KeysIdentify | animations/sequential-animation.tsx:122-240 | two rendered elements share a key iff they are the same element, in the same stage and the same cycle |
| View.KeysDistinctInRender | animations/sequential-animation.tsx:224-240 | the keys rendered together, including Tagline's title and subtitle, are pairwise distinct |
| Sequencer.Cancel | animations/sequential-animation.tsx:37-65 | clearing a handle removes that timer and keeps every other live timer; nothing new appears |
| Sequencer.Mount | animations/sequential-animation.tsx:26-37 | a mounted component starts in Initial, cycle 0, with one live timer due 5000 ms later |
| Sequencer.Fire | animations/sequential-animation.tsx:34-61 | the live timer belongs to the current stage, so firing it moves to the next stage at its deadline. The cycle grows by one on the Clear → Initial edge and nowhere else, and exactly one fresh timer for the new stage is live |
| Sequencer.Advance | animations/sequential-animation.tsx:31-66 | running the clock keeps the single-timer invariant and never lowers the cycle; after unmounting it changes nothing but the clock |
| Sequencer.Force | animations/sequential-animation.tsx:31-66 | a stage change cancels the old stage's timer and leaves exactly one timer, for the new stage, due one full delay later. Setting the current stage again, or any update after unmounting, changes nothing |
| Sequencer.Unmount | animations/sequential-animation.tsx:64-66 | unmounting clears the live timer and keeps the stage and cycle |
| Sequencer.NothingFiresAfterUnmount | animations/sequential-animation.tsx:64-66 | after unmounting, no callback runs whatever time passes |
| Sequencer.Step | animations/sequential-animation.tsx:31-66 | each event (time passing, a stage change, teardown) keeps the single-timer invariant |
| Sequencer.Replay | animations/sequential-animation.tsx:31-66 | after any sequence of events from a well-formed state, at most one timer is live, it belongs to the shown stage and is not overdue, and neither cycle nor clock has gone back |
| Timeline.FireN | animations/sequential-animation.tsx:31-66 | k firings reach the k-th successor stage, after the sum of those stages' delays, with the cycle raised by the number of Clear stages passed |
| Timeline.OnePassOfFirings | animations/sequential-animation.tsx:31-66 | seven firings from Initial return to Initial 36500 ms later with the cycle raised by exactly one |
| Timeline.AdvanceWindow | animations/sequential-animation.tsx:31-66 | between the k-th and (k+1)-th deadlines, running the clock yields exactly the state after k firings |
| Timeline.AdvanceSplit | animations/sequential-animation.tsx:31-66 | running the clock to t1 and then to t2 is the same as running it straight to t2 |
| Timeline.WithinPass | animations/sequential-animation.tsx:31-66 | within the first 36500 ms after Initial is entered, the stage at every instant matches the schedule table and the cycle is unchanged |
| Timeline.OnePass | animations/sequential-animation.tsx:31-66 | 36500 ms after Initial is entered, Initial has just been entered again with the cycle raised by one |
| Timeline.StageAtOffset | animations/sequential-animation.tsx:31-66 | o ms after Initial is entered, the stage is the scheduled one for o mod 36500, and the cycle has grown by o div 36500 |
| Timeline.StageSinceMount | animations/sequential-animation.tsx:24-66 | for a component mounted at t0, the stage at time t is the scheduled one for (t − t0) mod 36500 and the cycle is (t − t0) div 36500 |
| Timeline.KeysOverTime | animations/sequential-animation.tsx:31-240 | elements rendered at two instants share a key iff they are the same element, in the same stage of the same pass |
| Timeline.FreshKeysEachPass | animations/sequential-animation.tsx:31-240 | the elements rendered at the same point of consecutive passes never share a key |

## Left out

- Framer-motion variants, transitions, opacity, blur and easing curves: these are presentation only. Only whether a rendered child is visible at all is modelled.
- View.Render: lists each stage's keyed elements, not the children `AnimatePresence` tracks or what is on screen. For Tagline, the tracked child is the unkeyed wrapper `div` at line 225 that holds the two keyed elements. With `mode="wait"` an exiting child stays mounted until its exit animation ends, and only then does the next child mount. For example, the Tagline title's 0.8 s exit outlasts Clear's 500 ms. This deferred unmount is not modelled.
- Timeline.StageSinceMount: treats effects as running at the instant of the commit that triggers them. In the code, the next `setTimeout` is registered only when React runs the effect after the `setStage` commit, so each stage adds a small render-to-effect delay. Over many passes the real schedule drifts later than (t − t0) mod 36500. The same holds for Timeline.StageAtOffset, Timeline.WithinPass and Timeline.OnePass.
- Sequencer.Force, Sequencer.Replay: take the cleanup of the stage just left to run at the instant of the stage change. In React, cleanups run when effects are flushed after the commit. If the old stage's timer fell due in that gap, it could still fire. The model does not promise anything about that window.
- `features/three-scene.tsx`, `features/hero-section.tsx`, `app/page.tsx`, `ui/header.tsx`, `ui/footer.tsx`, `features/section-one.tsx`, `features/section-two.tsx`, `lib/utils.ts`, and the configuration and type-shim files are not part of this model. They are Three.js, DOM and random-number calls, page composition, static markup and build glue, with no sequencing logic.
- `cycle` is an unbounded natural number. A JavaScript number stays exact up to 2^53, which at one pass per 36.5 s is not reached in any realistic lifetime.
- The host fires a timer exactly at its deadline. Browser lateness, timer clamping and throttling of background tabs are not modelled, so times are scheduled times.
- Timer handles are modelled as consecutive numbers starting at 0. Timers registered by other components are not modelled.
- React's development-only double run of effects (Strict Mode) is not modelled.
