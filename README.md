# FortunaApp interaction core in Dafny

FortunaApp is a small mobile app with three mini-games behind a menu: the
Quiz of Mithras (seven stages of multiple-choice questions), Starry Sky
Mystery (tap the sky to find constellations, then answer their question) and
the Fortune Wheel (spin, then read a fortune). An inactivity hook arms a
warning and a timeout over the menu. This project models the five stateful
parts of the app and proves what they promise:

- `inactivity_timer.dfy` (module `Inactivity`): the inactivity hook, with its
  two handle slots and the runtime's pending timers on a logical clock.
- `app.dfy` (module `AppShell`): the navigation shell, `currentGame` and
  `showWarning`, and the timer callbacks.
- `quiz.dfy` (module `Quiz`): the stages, the answer handler with its deferred
  step, and what the screen shows for a stage index.
- `starry_sky.dfy` (module `StarrySky`): the constellations, the hit test, the
  tap and answer handlers and their timers.
- `fortune_wheel.dfy` (module `Fortune`): the wheel's angle arithmetic on exact
  reals and the spin/settle transitions.
- `timers.dfy` (module `Timers`) and `wrappers.dfy` (module `Wrappers`): a
  pending-timer queue with `clearTimeout`, and `Option`.

Each component whose state the source updates in place is a class. Its
methods say what the new state is and keep an invariant `Valid()`. The pure
parts are functions with lemmas: the hit test, the wheel angles and the quiz
view.

How timers are modelled. A timer is a pending event, and an explicit method
fires it.

- Inactivity hook: the pending timers form a queue of `(handle, due, callback)`
  entries. The logical clock `now` moves only through `Advance` and `Fire`.
  `Fire(k)` requires that entry `k` is the one the event loop runs next: the
  earliest due, and the oldest among timers due at the same instant.
- Quiz: every deferred step has the same 2000 ms delay and is queued at a
  later or equal instant than the one before. So the steps fire in queue
  order, and a FIFO sequence of verdicts models them.
- Starry sky: two kinds of timer. The 600 ms timers clear `wrongClick`; the
  1000 ms timer sets `completed`. They write different fields, and repeats of
  one kind write the same value. So only how many of each are pending
  matters, and each kind fires by its own method.

Client methods show what the contracts give a caller. They are verified like
everything else:

- `Inactivity.IdleScenario`: with the default delays the warning fires once,
  then the timeout, then nothing is left.
- `Inactivity.ActivityScenario`: a touch just before the warning is due moves
  the warning 240000 ms past the touch.
- `AppShell.IdleInGameScenario`: idle inside a game, both timers fire while
  the game stays on screen.
- `Quiz.DoubleTapScenario`: two right answers on the last stage take the index
  to 8.
- `Quiz.SkipStageScenario`: three right answers on the first stage take the
  index to 3.
- `StarrySky.PlayThroughScenario`: a whole game.
- `Fortune.SpinTwiceScenario`: a second spin to index 3 reveals fortune 3.

Where the code and the comments or the obvious reading differ, the model
follows the code:

- `onTimeout` only hides the warning (src/App.tsx:58-61). Despite the comment
  there, it does not go back to the menu.
- The tolerance test is strict. A tap exactly 10 units from a centre misses.
- Right answers given before a step has run each queue an advance of one,
  on any stage. Two overlapping right answers skip the next stage's question
  (`Quiz.SkipStageScenario`), three skip two questions, and on the last stage
  two of them take `stageIndex` one past the last stage
  (`Quiz.DoubleTapScenario`).
- The wheel adds the target angle to wherever it stopped last. From the
  second spin on, the wedge under the pointer is in general not the wedge of
  the fortune revealed. `Fortune.ThirdSpinToFirstWedge` shows a case. The
  wheel image is not part of this model, so the model says nothing about
  whether its wedges are meant to match the fortune list.

## Model

| member | source | states |
|---|---|---|
| `Timers.Cancel` | src/useInactivityTimer.ts:25-26 | `clearTimeout(id)` drops exactly the pending timers with that handle and keeps the others; it changes nothing when no timer has the handle |
| `Timers.Clear` | src/useInactivityTimer.ts:25-26 | `if (ref)` is a truthiness test: a slot holding `null`, or the handle 0, cancels nothing; a slot holding any other handle cancels that handle's timers and only those |
| `Timers.ClearBoth` | src/useInactivityTimer.ts:24-26 | when every pending timer is named by one of the two slots and no pending handle is 0, clearing both slots leaves nothing pending |
| `Inactivity.InactivityTimer.constructor` | src/useInactivityTimer.ts:15-22 | the hook starts with both refs `null`, nothing pending and the delays it was given |
| `Inactivity.InactivityTimer.AtMostOneOfEach` | src/useInactivityTimer.ts:21-29 | in every valid state, at most one warning timer and at most one timeout timer are pending |
| `Inactivity.InactivityTimer.ResetTimers` | src/useInactivityTimer.ts:24-29 | a reset cancels everything pending and arms exactly one warning at now + `warnDelay` and one timeout at now + `timeoutDelay`, under fresh handles that the refs then hold; a warning armed earlier can never fire |
| `Inactivity.InactivityTimer.Mount` | src/useInactivityTimer.ts:31-33 | mounting performs the same reset, so both timers are armed |
| `Inactivity.InactivityTimer.Unmount` | src/useInactivityTimer.ts:34-37 | the cleanup leaves nothing pending; the refs keep their (now stale) handles |
| `Inactivity.InactivityTimer.OnTouchStart` | src/useInactivityTimer.ts:42 | touch-start performs the reset |
| `Inactivity.InactivityTimer.OnTouchMove` | src/useInactivityTimer.ts:43 | touch-move performs the same reset as touch-start |
| `Inactivity.InactivityTimer.Advance` | src/useInactivityTimer.ts:27-28 | the clock moves forward to an instant no pending timer is due before; nothing else changes |
| `Inactivity.InactivityTimer.Fire` | src/useInactivityTimer.ts:27-28 | the next timer runs once: the clock moves to its deadline, it leaves the queue, its callback is reported; nothing pending is ever overdue |
| `AppShell.ScreenFor` | src/App.tsx:65-81 | the screen is a function of `currentGame` alone: `null` gives the menu, each game its own screen |
| `AppShell.ScreenForInjective` | src/App.tsx:65-81 | different values of `currentGame` render different screens |
| `AppShell.App.constructor` | src/App.tsx:52-62 | the app starts on the menu without a warning, with the hook mounted on the default delays: warning at +240000 ms, timeout at +300000 ms |
| `AppShell.App.Choose` | src/App.tsx:89-106 | a menu button sets `currentGame` to its game and leaves the warning flag alone |
| `AppShell.App.OnBack` | src/App.tsx:65-79 | `onBack` sets `currentGame` to `null` from any screen; a second call leaves it `null` |
| `AppShell.App.Touch` | src/App.tsx:82 | a touch resets the inactivity timers only on the menu, where the handlers are attached: the clock stays, the refs take the two fresh handles and the new deadlines are the touch instant plus the default delays; inside a game the timers are unchanged; a touch never hides the warning |
| `AppShell.App.Wait` | src/App.tsx:56-62 | time passes without reaching a deadline; the app's state is unchanged |
| `AppShell.App.FireTimer` | src/App.tsx:56-62 | `onWarn` sets `showWarning`; `onTimeout` clears it; neither changes `currentGame`; the clock moves to the fired timer's deadline and the refs and the next handle stay |
| `Quiz.AnswersAreOptions` | src/components/QuizOfMithras.tsx:21-29 | there are seven stages, each with three options, and each stage's answer is one of its options |
| `Quiz.View` | src/components/QuizOfMithras.tsx:61-105 | a question is shown iff `stageIndex < stages.length`, and it is that stage's; step `i` is active iff `i <= stageIndex`, connector `i` iff `i < stageIndex`; otherwise the final screen |
| `Quiz.StepperProgress` | src/components/QuizOfMithras.tsx:63-79 | while a question is shown, exactly `stageIndex + 1` steps and `stageIndex` connectors are lit |
| `Quiz.QuizOfMithras.constructor` | src/components/QuizOfMithras.tsx:32-34 | the quiz starts at stage 0 with no verdict and nothing queued |
| `Quiz.QuizOfMithras.HandleAnswer` | src/components/QuizOfMithras.tsx:36-43 | the verdict is `option == stages[stageIndex].answer`, shown at once; a step carrying it is queued; the stage does not change yet; with nothing queued before, the queued advances cannot pass the last stage |
| `Quiz.QuizOfMithras.Step` | src/components/QuizOfMithras.tsx:43-48 | the oldest step hides the verdict and adds exactly 1 to `stageIndex` if its answer was right, 0 otherwise; the index never decreases; with the steps run one at a time it stays at most `stages.length` |
| `StarrySky.FindFrom` | src/components/StarrySkyMystery.tsx:77-82 | the search from position `i`: the first selectable target at or after `i`, or none |
| `StarrySky.FindTarget` | src/components/StarrySkyMystery.tsx:77-82 | the hit test returns the first constellation in list order with both offsets strictly below 10 whose name is not in `found`; it returns none iff there is no such constellation |
| `StarrySky.FindTargetIsFirst` | src/components/StarrySkyMystery.tsx:77-82 | conversely, the first selectable constellation is the one returned (first-in-list tie-break) |
| `StarrySky.CentreTapHits` | src/components/StarrySkyMystery.tsx:77-82 | a tap exactly on an unfound constellation's centre opens a quiz, that one's or an earlier one's |
| `StarrySky.BorderTapMisses` | src/components/StarrySkyMystery.tsx:79-80 | a tap 10 units from the centre along either axis is outside the square |
| `StarrySky.ShippedSquaresDisjoint` | src/components/StarrySkyMystery.tsx:25-43 | no point is inside the squares of both shipped constellations |
| `StarrySky.ShippedCentreTap` | src/components/StarrySkyMystery.tsx:25-82 | a tap on a shipped constellation's centre opens that constellation's quiz while it is unfound |
| `StarrySky.ShippedNamesDistinct` | src/components/StarrySkyMystery.tsx:25-43 | the shipped constellations have different names |
| `StarrySky.FoundBound` | src/components/StarrySkyMystery.tsx:81-102 | a record with distinct shipped names has at most `constellations.length` entries |
| `StarrySky.StarrySkyMystery.AtMostAllFound` | src/components/StarrySkyMystery.tsx:81-102 | in every valid state `found` is no longer than the constellation list |
| `StarrySky.StarrySkyMystery.constructor` | src/components/StarrySkyMystery.tsx:60-68 | the game starts with nothing found, no active constellation, the quiz closed, not completed, no flash |
| `StarrySky.StarrySkyMystery.HandlePress` | src/components/StarrySkyMystery.tsx:71-90 | a tap changes nothing while the quiz is open or the game is completed; a hit makes the first selectable constellation active with the tap point and opens the quiz, `found` unchanged; a miss only sets `wrongClick` and queues its 600 ms reset |
| `StarrySky.StarrySkyMystery.HandleAnswer` | src/components/StarrySkyMystery.tsx:92-111 | no active constellation or a wrong option changes nothing (a wrong option raises the hint); the right one appends exactly `{name, clickX, clickY}`, closes the quiz, clears the active target, and queues completion exactly when `found` reaches the list's length; names stay distinct |
| `StarrySky.StarrySkyMystery.EndFlash` | src/components/StarrySkyMystery.tsx:88 | a 600 ms timer clears `wrongClick` and touches nothing else |
| `StarrySky.StarrySkyMystery.Complete` | src/components/StarrySkyMystery.tsx:105-106 | the completion timer sets `completed`, which happens only with every constellation found |
| `Fortune.JsRem360` | src/components/FortuneWheel.tsx:49-50 | JavaScript's `%` by 360: the result differs from the dividend by a whole multiple of 360, has the dividend's sign (non-negative for a non-negative dividend, non-positive for a non-positive one), lies strictly between -360 and 360, and is the dividend itself for a dividend in `[0, 360)`; these determine the result |
| `Fortune.TargetAngle` | src/components/FortuneWheel.tsx:47-50 | for every index `i < n` the target angle lies strictly between 0 and 360 and equals `360 - i·a - a/2`: the `% 360` changes nothing |
| `Fortune.TargetAngleDecreasing` | src/components/FortuneWheel.tsx:47-50 | a later index gets a strictly smaller target angle |
| `Fortune.TargetAngleInjective` | src/components/FortuneWheel.tsx:47-50 | distinct indices give distinct target angles |
| `Fortune.NextRotation` | src/components/FortuneWheel.tsx:48-52 | the new rotation is more than 1800 degrees and less than 2160 degrees beyond the previous one, so the wheel only turns forward |
| `Fortune.FirstWedgeOfEight` | src/components/FortuneWheel.tsx:47-52 | with eight fortunes, index 0 targets 337.5 degrees and a first spin to it ends at 2137.5 |
| `Fortune.WedgeUnderPointer` | src/components/FortuneWheel.tsx:47-50 | a reference definition of which wedge the pointer is over after a rotation; it names one of the `n` wedges |
| `Fortune.PointerOnChosenWedge` | src/components/FortuneWheel.tsx:47-52 | from a whole number of turns (the first spin starts at 0) the wheel stops with the chosen wedge under the pointer |
| `Fortune.ThirdSpinToFirstWedge` | src/components/FortuneWheel.tsx:36-52 | three spins to index 0 from rest end at 6412.5 degrees, where the pointer is over wedge 1 |
| `Fortune.ControlsFor` | src/components/FortuneWheel.tsx:84-106 | the spin button is rendered only when neither spinning nor showing a fortune, the fortune overlay while a fortune is shown, and the back button only while spinning |
| `Fortune.ExactlyOneControl` | src/components/FortuneWheel.tsx:84-106 | in every reachable state exactly one of the three controls is on screen, so no spin can be requested while spinning |
| `Fortune.FortuneWheel.constructor` | src/components/FortuneWheel.tsx:32-41 | the wheel starts at rotation 0, not spinning, with no fortune shown |
| `Fortune.FortuneWheel.SpinWheel` | src/components/FortuneWheel.tsx:43-61 | a no-op while spinning; otherwise sets `isSpinning`, clears `showFortune`, and runs towards the next rotation for the index given in place of the random pick |
| `Fortune.FortuneWheel.Settle` | src/components/FortuneWheel.tsx:62-66 | completion reveals `fortunes[index]` for the index chosen at the start, sets `showFortune`, clears `isSpinning`, and the rotation ref holds the end value, more than 1800 degrees past the start |

## Left out

- src/styles/common.ts and src/components/TwinklingStar.tsx are not part of this model: styling constants, and random star positions with a looping animation.
- JSX rendering, styles and images are presentation. So are the Starry Sky completed screen, its back button and the pixel placement of markers. The Quiz's "Correct!/Incorrect..." text follows `isCorrect` and `showResult`, which are modelled.
- The hint `alert` in Starry Sky is the `hint` result of `HandleAnswer`.
- Screen-orientation locking is a foreign asynchronous call with no state.
- Pixel-to-percent conversion of a tap uses floating point and the window size. Taps are taken directly in percent units, as exact reals.
- `Math.random` is used for sparkles, particles and the wheel's index. The sparkles and particles are dropped. The wheel's index is a parameter of `SpinWheel` with `index < fortunes.length`, which `Math.floor(Math.random() * fortunes.length)` guarantees.
- Animation easing, duration and interpolation are a library curve. Only the start of a spin and its completion are modelled. The rotation ref takes the animation's end value at completion; its intermediate values are not modelled, because the spin guard means nothing reads them.
- Wall-clock `setTimeout` is replaced by pending events that explicit steps fire, as described above. Only the inactivity hook tracks instants.
- Mounting and unmounting of the game screens are not modelled as such. Each game object is one visit: its constructor is the mount, and `App.OnBack` ends the visit. Timers a game leaves pending when it is left would update a component that is gone, which React ignores; they are not modelled.
- React's batching of updates and stale closures within one render are not modelled. Each handler sees the state the previous event left. A menu button press also reaches the menu's touch handlers; a caller models it as `Touch` followed by `Choose`.
- `Fortune.JsRem360`: models JavaScript's `%` only for the divisor 360, the only one the source uses.

