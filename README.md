# Counter widget: a verified model of its state machine

`React-counter/src/components/Counter.jsx` is a React component with a
count, a step size, a history of the values the count has held, and a save
indicator. Under its JSX it is an event-driven state machine. The events are
clicks on increment, decrement and reset, ArrowUp and ArrowDown keys, edits
of the step field, the expiry of a 500 ms save timer, and mount and unmount.
Two effects depend on `count`:

- one appends the value to `history`;
- the other cancels the armed timer, shows "Saving..." and arms a new timer.
  When that timer expires, it writes the value to `localStorage["count"]`
  and shows "Changes saved.".

This project models that machine in Dafny and proves what it promises.

- `counter_state.dfy`, module `CounterState`: the state as a value (`State`).
  Its fields are `phase`, `count`, `history`, `step`, `status`, `stored` and
  `pending`. `stored` is the storage slot. `pending` is the armed timer
  together with the count it captured. There is one transition function per
  event (`AfterMount`, `AfterIncrement`, …). React's rule that effects run
  only when `count` really changes value is written out in `WithCount`.
- `counter_traces.dfy`, module `CounterTraces`: events, runs of events, the
  invariant `Inv` of every reachable state, and lemmas about whole runs.
  These cover the debounce, the append-only history, the net effect of the
  buttons and keys, and the reset race.
- `counter.dfy`, module `CounterWidget`: class `Counter`. It has one mutable
  field per piece of state and one method per event. Each event method's
  `ensures` equates the new state with the transition function applied to
  the old state, and keeps `Valid()` (that is, `Inv`). Two helpers,
  `OnCountChanged` and `SetCount`, are proved against `CountEffects` and
  `WithCount` only. A client method drives a
  whole session through the object.

Behaviour that follows from the code rather than from a first reading of it:

- Right after mount, `history` is `[0, 0]`, not `[0]`. The initial state is
  `[0]`, and the effect's mount run appends the initial count.
- Reset from a non-zero count leaves `history == [0]`, not `[]`. The count
  change re-runs the effect, which appends 0.
- Reset removes the storage key, but the save armed by that same count change
  writes 0 back when it fires (`ResetRestoredByTimer`).
- Reset at count 0 runs no effect. `history` becomes `[]`, and a save armed
  earlier still fires and writes 0 (`ResetAtZeroKeepsArmedSave`).
- After a completed save, reset at count 0 leaves "Changes saved." on screen
  while the key is absent (`ResetAtZeroAfterSave`). `Inv` allows exactly this
  one exception to "Changes saved. means the count is stored".

Lifecycle: events other than `Mount` change nothing unless the widget is
mounted. Before mount no effect has run and no listener is installed. After
unmount the setters are ignored, and both cleanups have run, so the timer is
cancelled and the listener removed. `TimerFire` changes nothing when no save
is armed. Because `pending` is an `Option`, there is never more than one armed
save.

## Model

| member | source | states |
|---|---|---|
| CounterState.Init | React-counter/src/components/Counter.jsx:5-8 | the useState initial values before any effect has run: count 0, history holding just that count [0], step 1, status "", nothing armed, storage as it already was |
| CounterState.CountEffects | React-counter/src/components/Counter.jsx:13-33 | the two count effects in declaration order: history grows by exactly one entry, the count, keeping the old entries as a prefix; the previous save is replaced by one armed save of the count; status shows "Saving..."; step, storage and phase are untouched |
| CounterState.WithCount | React-counter/src/components/Counter.jsx:13-33 | after a setCount to `c` the count is `c`; if `c` equals the old count the state is unchanged, otherwise `c` is appended to history, status is Saving and the armed save is exactly `Some(c)` |
| CounterState.AfterMount | React-counter/src/components/Counter.jsx:5-33 | mounting a fresh widget makes it Mounted, appends the initial count to the initial history, shows Saving and arms a save of the count; mounting twice changes nothing |
| CounterState.AfterIncrement | React-counter/src/components/Counter.jsx:59-61 | count becomes count + step and step is unchanged; step 0 changes nothing at all; otherwise history gains the new count and a save of it is armed; storage is untouched |
| CounterState.AfterDecrement | React-counter/src/components/Counter.jsx:63-65 | count becomes count - step, step unchanged; step 0 changes nothing; otherwise history gains the new count and a save of it is armed |
| CounterState.AfterKeyDown | React-counter/src/components/Counter.jsx:38-46 | ArrowUp behaves exactly as the increment button and ArrowDown as the decrement button, with the current step; any other key changes nothing |
| CounterState.AfterSetStep | React-counter/src/components/Counter.jsx:93 | only step changes, to the given value; count, history, status, storage and the armed save are untouched |
| CounterState.AfterReset | React-counter/src/components/Counter.jsx:67-71 | count is 0 and the key is absent; from a non-zero count history is [0], status Saving and a save of 0 is armed; at count 0 history is [] and status and the armed save are unchanged |
| CounterState.AfterTimerFire | React-counter/src/components/Counter.jsx:24-27 | an armed save writes its captured value to storage, shows Changes saved. and disarms; with nothing armed nothing changes; count, history and step never change |
| CounterState.AfterUnmount | React-counter/src/components/Counter.jsx:29-53 | unmounting a mounted widget cancels the armed save and ends the lifecycle, leaving every other field as it was |
| CounterTraces.InitInv | React-counter/src/components/Counter.jsx:5-8 | the initial state satisfies the invariant |
| CounterTraces.StepInv | React-counter/src/components/Counter.jsx:13-71 | every event preserves the invariant |
| CounterTraces.RunInv | React-counter/src/components/Counter.jsx:13-71 | every sequence of events preserves the invariant |
| CounterTraces.ReachableInv | React-counter/src/components/Counter.jsx:5-71 | every state reachable from the first render satisfies the invariant: an armed save holds the current count, Saving is shown exactly while one is armed, the last history entry is the count |
| CounterTraces.FiredSaveStoresCount | React-counter/src/components/Counter.jsx:21-33 | in a reachable state the save that fires writes the count currently shown, and afterwards nothing is armed |
| CounterTraces.CountChangeRearms | React-counter/src/components/Counter.jsx:21-33 | any event that changes the count discards the previous save and arms exactly one save of the new count, showing Saving |
| CounterTraces.SameCountNoEffect | React-counter/src/components/Counter.jsx:13-33 | a button, key or step event that leaves the count unchanged changes nothing except possibly the step |
| CounterTraces.StepHistory | React-counter/src/components/Counter.jsx:13-15 | after mount, an event other than reset appends the new count to history exactly when it changes the count and otherwise leaves history alone |
| CounterTraces.HistoryAppendOnly | React-counter/src/components/Counter.jsx:13-15 | without a reset, the old history is a prefix of the new one, and its length grows by the number of count changes |
| CounterTraces.CountIsNetDelta | React-counter/src/components/Counter.jsx:38-65 | on a mounted widget, buttons and keys with a fixed step move the count by the signed sum of their steps, and the step is kept |
| CounterTraces.SetStepThenMoves | React-counter/src/components/Counter.jsx:38-93 | after the step is set to v, every later button press and arrow key moves the count by v |
| CounterTraces.StoredOnlyByTimerOrReset | React-counter/src/components/Counter.jsx:21-71 | without a timer firing, storage keeps its value or is emptied by a reset; without a reset either, it is unchanged |
| CounterTraces.ArmedSaveHoldsFinalCount | React-counter/src/components/Counter.jsx:21-33 | in a run with no unmount and no timer firing, after one or more count changes (resets included), or with a save already armed, exactly one save is armed and it holds the final count |
| CounterTraces.Debounce | React-counter/src/components/Counter.jsx:21-33 | however many count changes happen before the timer fires, no intermediate value reaches storage (it keeps its value, or a reset empties it); after at least one change, in a run with no unmount, a save of the final count is armed, and when it fires it stores that count and shows Changes saved. |
| CounterTraces.ResetRestoredByTimer | React-counter/src/components/Counter.jsx:13-71 | reset from a non-zero count removes the key and leaves history [0], but the save it arms writes 0 back when it fires |
| CounterTraces.ResetAtZeroKeepsArmedSave | React-counter/src/components/Counter.jsx:67-71 | reset at count 0 empties history and removes the key, yet a save armed earlier still writes 0 |
| CounterTraces.ResetAtZeroAfterSave | React-counter/src/components/Counter.jsx:67-71 | reset at count 0 after a completed save leaves Changes saved. shown with the key absent, nothing armed and history empty |
| CounterTraces.Session | React-counter/src/components/Counter.jsx:5-71 | mount gives history [0, 0]; two increments give [0, 0, 1, 2]; step 5 and ArrowDown give count -3; reset gives count 0, history [0], key absent, save of 0 armed; the timer then stores 0 |
| CounterWidget.Counter.constructor | React-counter/src/components/Counter.jsx:5-8 | the object starts in the initial state (count 0, history [0], step 1, status "", nothing armed) and is valid |
| CounterWidget.Counter.OnCountChanged | React-counter/src/components/Counter.jsx:13-33 | the count effects: history gains the count, the old save is cancelled, Saving is shown and a save of the count is armed |
| CounterWidget.Counter.SetCount | React-counter/src/components/Counter.jsx:13-33 | the object's new state is WithCount of its old state |
| CounterWidget.Counter.Mount | React-counter/src/components/Counter.jsx:13-54 | the object's new state is AfterMount of the old, and it stays valid |
| CounterWidget.Counter.Increment | React-counter/src/components/Counter.jsx:59-61 | new state is AfterIncrement of the old; when mounted, count is old count + step and step is unchanged; stays valid |
| CounterWidget.Counter.Decrement | React-counter/src/components/Counter.jsx:63-65 | new state is AfterDecrement of the old; when mounted, count is old count - step and step is unchanged; stays valid |
| CounterWidget.Counter.KeyDown | React-counter/src/components/Counter.jsx:38-46 | new state is AfterKeyDown of the old for the given key; stays valid |
| CounterWidget.Counter.SetStep | React-counter/src/components/Counter.jsx:93 | new state is AfterSetStep of the old; stays valid |
| CounterWidget.Counter.Reset | React-counter/src/components/Counter.jsx:67-71 | new state is AfterReset of the old; stays valid |
| CounterWidget.Counter.TimerFire | React-counter/src/components/Counter.jsx:24-27 | new state is AfterTimerFire of the old; if a save was armed, storage now holds the current count, status is Changes saved. and nothing is armed |
| CounterWidget.Counter.Unmount | React-counter/src/components/Counter.jsx:29-53 | new state is AfterUnmount of the old; stays valid |

## Left out

- Rendering and styling (lines 73-112): pure presentation with no logic. The status string is `Status.Text()`.
- `addEventListener`/`removeEventListener` (lines 48, 52): there are no listener objects. The modelled key handler always reads the current step, and it exists only while the widget is mounted. The instant between a step change and the listener's re-installation is not modelled.
- Real time and the 500 ms delay (line 27): `setTimeout`/`clearTimeout` become the `pending` field and the `TimerFire` event.
- `localStorage` and `JSON.stringify` (lines 25, 70): this is I/O. The slot is modelled as `stored: Option<int>`. Its content before the first render is a constructor parameter, since the component never reads it.
- `Number(e.target.value)` (line 93): a non-numeric entry gives `NaN` in JavaScript. The modelled step is an `int`, so `NaN` and fractional steps are not modelled, and counts are unbounded integers rather than doubles.
- React batching across separate events, the moment between a click and the effects running, and StrictMode's double invocation of effects: these are framework internals. Each event here is one atomic batch followed by its effects, in declaration order.
