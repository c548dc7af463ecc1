/** The state of one Counter widget and what each event does to it.

    Every user-visible piece of state in Counter.jsx is a field of State,
    together with the two pieces the component keeps outside React: the
    localStorage slot under key "count" and the one armed save timer.
    Time is abstracted away: the timer's expiry is its own event. */
module CounterState {

  datatype Option<T> = None | Some(value: T)

  /** Lifecycle of one widget instance: rendered with its initial state,
      effects run (mounted), then torn down. */
  datatype Phase = Created | Mounted | Unmounted

  /** The save indicator. The widget shows Text(). */
  datatype Status = Idle | Saving | Saved {
    function Text(): string {
      match this
      case Idle => ""
      case Saving => "Saving..."
      case Saved => "Changes saved."
    }
  }

  datatype State = State(
    phase: Phase,
    count: int,
    history: seq<int>,
    step: int,
    status: Status,
    stored: Option<int>,   // localStorage["count"], absent when None
    pending: Option<int>)  // the armed save timer and the count it captured

  const ARROW_UP: string := "ArrowUp"
  const ARROW_DOWN: string := "ArrowDown"

  /** The state right after the first render, before any effect has run;
      `stored` is whatever the shared storage already holds. */
  function Init(stored: Option<int>): (s: State)
    ensures s.phase == Created && s.count == 0 && s.step == 1
    ensures s.history == [s.count] && s.status.Text() == ""
    ensures s.pending == None && s.stored == stored
  {
    State(Created, 0, [0], 1, Idle, stored, None)
  }

  /** The two effects that depend on count, in declaration order: the
      history effect appends count; the save effect first runs the previous
      run's cleanup (which cancels the armed timer), then shows "Saving..."
      and arms a new timer capturing count. */
  function CountEffects(s: State): (t: State)
    ensures s.history <= t.history && |t.history| == |s.history| + 1
    ensures t.history[|t.history| - 1] == t.count == s.count
    ensures t.pending == Some(t.count) && t.status.Text() == "Saving..."
    ensures t.step == s.step && t.stored == s.stored && t.phase == s.phase
  {
    s.(history := s.history + [s.count], status := Saving, pending := Some(s.count))
  }

  /** A batch of state updates that leaves count at `c`. React re-runs the
      count effects only when the value actually changed. */
  function WithCount(s: State, c: int): (t: State)
    ensures c == s.count ==> t == s
    ensures t.count == c && t.step == s.step && t.stored == s.stored && t.phase == s.phase
    ensures c != s.count ==> t.history == s.history + [c]
    ensures c != s.count ==> t.status == Saving && t.pending == Some(c)
  {
    if c == s.count then s else CountEffects(s.(count := c))
  }

  /** Mount: the initial render's effects run once. The history effect
      appends the initial count to the initial history [0]. */
  function AfterMount(s: State): (t: State)
    ensures s.phase != Created ==> t == s
    ensures s.phase == Created ==> t.phase == Mounted && t.count == s.count && t.step == s.step
    ensures s.phase == Created ==> t.history == s.history + [s.count]
    ensures s.phase == Created ==> t.status == Saving && t.pending == Some(s.count) && t.stored == s.stored
  {
    if s.phase != Created then s else CountEffects(s.(phase := Mounted))
  }

  /** The increment button: count becomes count + step. */
  function AfterIncrement(s: State): (t: State)
    ensures s.phase != Mounted ==> t == s
    ensures s.phase == Mounted ==> t.count == s.count + s.step
    ensures t.step == s.step && t.phase == s.phase && t.stored == s.stored
    ensures s.step == 0 ==> t == s
    ensures s.phase == Mounted && s.step != 0 ==>
      t.history == s.history + [t.count] && t.status == Saving && t.pending == Some(t.count)
  {
    if s.phase != Mounted then s else WithCount(s, s.count + s.step)
  }

  /** The decrement button: count becomes count - step. */
  function AfterDecrement(s: State): (t: State)
    ensures s.phase != Mounted ==> t == s
    ensures s.phase == Mounted ==> t.count == s.count - s.step
    ensures t.step == s.step && t.phase == s.phase && t.stored == s.stored
    ensures s.step == 0 ==> t == s
    ensures s.phase == Mounted && s.step != 0 ==>
      t.history == s.history + [t.count] && t.status == Saving && t.pending == Some(t.count)
  {
    if s.phase != Mounted then s else WithCount(s, s.count - s.step)
  }

  /** A keydown anywhere in the document, seen by the listener installed
      with the current step: two independent tests on the key. */
  function AfterKeyDown(s: State, key: string): (t: State)
    ensures key == ARROW_UP ==> t == AfterIncrement(s)
    ensures key == ARROW_DOWN ==> t == AfterDecrement(s)
    ensures key != ARROW_UP && key != ARROW_DOWN ==> t == s
  {
    var afterUp := if key == ARROW_UP then AfterIncrement(s) else s;
    if key == ARROW_DOWN then AfterDecrement(afterUp) else afterUp
  }

  /** The step field's change handler: only step changes. Re-installing
      the key listener has no effect on State. */
  function AfterSetStep(s: State, value: int): (t: State)
    ensures s.phase != Mounted ==> t == s
    ensures s.phase == Mounted ==> t.step == value
    ensures t.count == s.count && t.history == s.history && t.status == s.status
    ensures t.stored == s.stored && t.pending == s.pending && t.phase == s.phase
  {
    if s.phase != Mounted then s else s.(step := value)
  }

  /** The reset button: count := 0, history := [], and the storage key is
      removed at once. Then, only if count was not already 0, the count
      effects run on the new state: history becomes [0] and a save of 0 is
      armed, which will write the key back. */
  function AfterReset(s: State): (t: State)
    ensures s.phase != Mounted ==> t == s
    ensures s.phase == Mounted ==> t.count == 0 && t.stored == None
    ensures t.step == s.step && t.phase == s.phase
    ensures s.phase == Mounted && s.count != 0 ==>
      t.history == [0] && t.status == Saving && t.pending == Some(0)
    ensures s.phase == Mounted && s.count == 0 ==>
      t.history == [] && t.status == s.status && t.pending == s.pending
  {
    if s.phase != Mounted then s else WithCount(s.(history := [], stored := None), 0)
  }

  /** The armed save timer expires: it writes the count it captured and
      shows "Changes saved.". With no armed timer nothing can fire. */
  function AfterTimerFire(s: State): (t: State)
    ensures s.pending == None ==> t == s
    ensures s.pending.Some? ==>
      t.stored == s.pending && t.status == Saved && t.pending == None
    ensures t.count == s.count && t.history == s.history && t.step == s.step && t.phase == s.phase
  {
    match s.pending
    case None => s
    case Some(v) => s.(stored := Some(v), status := Saved, pending := None)
  }

  /** Unmount: the save effect's cleanup cancels the armed timer and the
      key effect's cleanup removes the listener. */
  function AfterUnmount(s: State): (t: State)
    ensures s.phase != Mounted ==> t == s
    ensures s.phase == Mounted ==> t.phase == Unmounted && t.pending == None
    ensures t.count == s.count && t.history == s.history && t.step == s.step
    ensures t.status == s.status && t.stored == s.stored
  {
    if s.phase != Mounted then s else s.(phase := Unmounted, pending := None)
  }
}
