/** Sequences of events applied to a Counter, the invariant every reachable
    state satisfies, and the properties of whole runs: the debounced save,
    the append-only history, the net effect of the arrow keys and buttons. */
module CounterTraces {
  import opened CounterState

  /** Everything that can happen to a mounted-or-not widget. */
  datatype Event =
    | Mount
    | Increment
    | Decrement
    | KeyDown(key: string)
    | SetStep(value: int)
    | Reset
    | TimerFire
    | Unmount

  function Step(s: State, e: Event): State {
    match e
    case Mount => AfterMount(s)
    case Increment => AfterIncrement(s)
    case Decrement => AfterDecrement(s)
    case KeyDown(k) => AfterKeyDown(s, k)
    case SetStep(v) => AfterSetStep(s, v)
    case Reset => AfterReset(s)
    case TimerFire => AfterTimerFire(s)
    case Unmount => AfterUnmount(s)
  }

  /** The state after the events `es`, first to last. */
  function Run(s: State, es: seq<Event>): State
    decreases |es|
  {
    if es == [] then s else Run(Step(s, es[0]), es[1..])
  }

  /** What holds in every state a widget can reach (see ReachableInv). */
  predicate Inv(s: State) {
    // before mount nothing has happened yet
    (s.phase == Created ==> s.count == 0 && s.history == [0]) &&
    // the status leaves "" at mount and never returns to it
    (s.status == Idle <==> s.phase == Created) &&
    // an armed save belongs to a mounted widget and captured the current count
    (s.pending.Some? ==> s.phase == Mounted && s.status == Saving && s.pending.value == s.count) &&
    // while mounted, "Saving..." is shown exactly while a save is armed
    (s.phase == Mounted && s.status == Saving ==> s.pending.Some?) &&
    // the newest history entry is the current count
    (s.history != [] ==> s.history[|s.history| - 1] == s.count) &&
    // "Changes saved." means the count is stored, unless a reset at 0 removed it
    (s.status == Saved ==> s.stored == Some(s.count) || (s.count == 0 && s.stored == None))
  }

  lemma InitInv(stored: Option<int>)
    ensures Inv(Init(stored))
  {
  }

  lemma StepInv(s: State, e: Event)
    requires Inv(s)
    ensures Inv(Step(s, e))
  {
  }

  lemma {:induction false} RunInv(s: State, es: seq<Event>)
    requires Inv(s)
    ensures Inv(Run(s, es))
    decreases |es|
  {
    if es != [] {
      StepInv(s, es[0]);
      RunInv(Step(s, es[0]), es[1..]);
    }
  }

  /** Every state reachable from a freshly rendered widget satisfies Inv. */
  lemma ReachableInv(stored: Option<int>, es: seq<Event>)
    ensures Inv(Run(Init(stored), es))
  {
    InitInv(stored);
    RunInv(Init(stored), es);
  }

  /** When the armed save fires in a reachable state, it writes the count
      the widget currently shows, and nothing else is armed afterwards. */
  lemma FiredSaveStoresCount(s: State)
    requires Inv(s) && s.pending.Some?
    ensures s.pending == Some(s.count)
    ensures AfterTimerFire(s).stored == Some(s.count)
    ensures AfterTimerFire(s).status == Saved && AfterTimerFire(s).pending == None
  {
  }

  /** A count change discards the save armed for the previous value: only
      the newest value is ever armed. */
  lemma CountChangeRearms(s: State, e: Event)
    requires Step(s, e).count != s.count
    ensures Step(s, e).pending == Some(Step(s, e).count)
    ensures Step(s, e).status == Saving
  {
  }

  /** An event other than Mount, Reset and TimerFire that leaves the count
      where it was changes nothing but (possibly) the step: no effect runs. */
  lemma SameCountNoEffect(s: State, e: Event)
    requires !e.Mount? && !e.Reset? && !e.TimerFire? && !e.Unmount?
    requires Step(s, e).count == s.count
    ensures Step(s, e) == s.(step := Step(s, e).step)
  {
  }

  // ---------------------------------------------------------------------
  // The append-only history

  /** The number of events of `es` that change the count, starting in `s`. */
  function Changes(s: State, es: seq<Event>): nat
    decreases |es|
  {
    if es == [] then 0
    else (if Step(s, es[0]).count != s.count then 1 else 0) + Changes(Step(s, es[0]), es[1..])
  }

  predicate NoReset(es: seq<Event>) {
    forall i :: 0 <= i < |es| ==> !es[i].Reset?
  }

  /** One event after mount: history grows by the new count exactly when the
      count changed, and otherwise stays as it was. */
  lemma StepHistory(s: State, e: Event)
    requires s.phase != Created && !e.Reset?
    ensures Step(s, e).phase != Created
    ensures Step(s, e).history ==
      s.history + (if Step(s, e).count != s.count then [Step(s, e).count] else [])
  {
  }

  /** Without a reset, the run only appends to history: the old history is a
      prefix of the new one and one entry is added per count change. */
  lemma {:induction false} HistoryAppendOnly(s: State, es: seq<Event>)
    requires s.phase != Created && NoReset(es)
    ensures s.history <= Run(s, es).history
    ensures |Run(s, es).history| == |s.history| + Changes(s, es)
    decreases |es|
  {
    if es != [] {
      StepHistory(s, es[0]);
      assert NoReset(es[1..]) by {
        forall i | 0 <= i < |es[1..]| ensures !es[1..][i].Reset? {
          assert es[1..][i] == es[i + 1];
        }
      }
      HistoryAppendOnly(Step(s, es[0]), es[1..]);
    }
  }

  // ---------------------------------------------------------------------
  // Count arithmetic and the step

  /** What one event adds to the count when the step is `step`. */
  function Delta(e: Event, step: int): int {
    match e
    case Increment => step
    case Decrement => -step
    case KeyDown(k) => if k == ARROW_UP then step else if k == ARROW_DOWN then -step else 0
    case _ => 0
  }

  function NetDelta(es: seq<Event>, step: int): int
    decreases |es|
  {
    if es == [] then 0 else Delta(es[0], step) + NetDelta(es[1..], step)
  }

  /** Events that keep the widget mounted with the same step. */
  predicate KeepsStep(es: seq<Event>) {
    forall i :: 0 <= i < |es| ==> !es[i].SetStep? && !es[i].Reset? && !es[i].Unmount?
  }

  lemma KeepsStepTail(es: seq<Event>)
    requires es != [] && KeepsStep(es)
    ensures KeepsStep(es[1..])
  {
    forall i | 0 <= i < |es[1..]|
      ensures !es[1..][i].SetStep? && !es[1..][i].Reset? && !es[1..][i].Unmount?
    {
      assert es[1..][i] == es[i + 1];
    }
  }

  /** On a mounted widget, buttons and arrow keys with a fixed step move the
      count by the signed sum of their steps; the step stays the same. */
  lemma {:induction false} CountIsNetDelta(s: State, es: seq<Event>)
    requires s.phase == Mounted && KeepsStep(es)
    ensures Run(s, es).count == s.count + NetDelta(es, s.step)
    ensures Run(s, es).step == s.step && Run(s, es).phase == Mounted
    decreases |es|
  {
    if es != [] {
      KeepsStepTail(es);
      CountIsNetDelta(Step(s, es[0]), es[1..]);
    }
  }

  /** After SetStep(v), every later button press or arrow key uses v. */
  lemma SetStepThenMoves(s: State, v: int, es: seq<Event>)
    requires s.phase == Mounted && KeepsStep(es)
    ensures Run(s, [SetStep(v)] + es).count == s.count + NetDelta(es, v)
  {
    assert ([SetStep(v)] + es)[0] == SetStep(v);
    assert ([SetStep(v)] + es)[1..] == es;
    CountIsNetDelta(AfterSetStep(s, v), es);
  }

  // ---------------------------------------------------------------------
  // The debounced save

  predicate NoFire(es: seq<Event>) {
    forall i :: 0 <= i < |es| ==> !es[i].TimerFire?
  }

  /** Only the timer writes the storage key, and only a reset removes it:
      events without either leave the stored value alone. */
  lemma {:induction false} StoredOnlyByTimerOrReset(s: State, es: seq<Event>)
    requires NoFire(es)
    ensures Run(s, es).stored == s.stored || Run(s, es).stored == None
    ensures NoReset(es) ==> Run(s, es).stored == s.stored
    decreases |es|
  {
    if es != [] {
      assert NoFire(es[1..]) && (NoReset(es) ==> NoReset(es[1..])) by {
        forall i | 0 <= i < |es[1..]| ensures es[1..][i] == es[i + 1] { }
      }
      StoredOnlyByTimerOrReset(Step(s, es[0]), es[1..]);
    }
  }

  predicate NoUnmount(es: seq<Event>) {
    forall i :: 0 <= i < |es| ==> !es[i].Unmount?
  }

  /** While the widget stays mounted and no timer fires, a save stays armed
      once there is one, and it is always the save of the newest count:
      after one or more count changes (resets included) exactly one save is
      armed, and it holds the final count. */
  lemma {:induction false} ArmedSaveHoldsFinalCount(s: State, es: seq<Event>)
    requires Inv(s) && NoFire(es) && NoUnmount(es)
    requires Changes(s, es) > 0 || s.pending.Some?
    ensures Run(s, es).pending == Some(Run(s, es).count)
    decreases |es|
  {
    if es != [] {
      var s1 := Step(s, es[0]);
      StepInv(s, es[0]);
      if s1.count != s.count {
        CountChangeRearms(s, es[0]);
      }
      assert NoFire(es[1..]) && NoUnmount(es[1..]) by {
        forall i | 0 <= i < |es[1..]| ensures es[1..][i] == es[i + 1] { }
      }
      ArmedSaveHoldsFinalCount(s1, es[1..]);
    }
  }

  /** The debounce: however many times the count changes, no intermediate
      value reaches storage; a save of the final count is then armed, and
      when it fires it stores that count and shows "Changes saved.". */
  lemma Debounce(s: State, es: seq<Event>)
    requires Inv(s) && NoFire(es)
    ensures NoReset(es) ==> Run(s, es).stored == s.stored
    ensures Run(s, es).stored == s.stored || Run(s, es).stored == None
    ensures NoUnmount(es) && (Changes(s, es) > 0 || s.pending.Some?) ==>
      Run(s, es).pending == Some(Run(s, es).count) &&
      AfterTimerFire(Run(s, es)).stored == Some(Run(s, es).count) &&
      AfterTimerFire(Run(s, es)).status == Saved
  {
    StoredOnlyByTimerOrReset(s, es);
    RunInv(s, es);
    if NoUnmount(es) && (Changes(s, es) > 0 || s.pending.Some?) {
      ArmedSaveHoldsFinalCount(s, es);
    }
  }

  // ---------------------------------------------------------------------
  // Reset and the save that outlives it

  /** Reset from a non-zero count removes the key, but the count change to 0
      arms a save that writes 0 back when it fires. */
  lemma ResetRestoredByTimer(s: State)
    requires Inv(s) && s.phase == Mounted && s.count != 0
    ensures AfterReset(s).stored == None && AfterReset(s).history == [0]
    ensures AfterTimerFire(AfterReset(s)).stored == Some(0)
  {
  }

  /** Reset at count 0 runs no effect: history becomes [] and the key is
      removed, but a save armed earlier (for 0) still fires and writes 0. */
  lemma ResetAtZeroKeepsArmedSave(s: State)
    requires Inv(s) && s.phase == Mounted && s.count == 0 && s.pending.Some?
    ensures AfterReset(s).history == [] && AfterReset(s).stored == None
    ensures AfterTimerFire(AfterReset(s)).stored == Some(0)
  {
  }

  /** Reset at count 0 after a completed save: the key is gone while the
      widget still shows "Changes saved.". */
  lemma ResetAtZeroAfterSave(s: State)
    requires Inv(s) && s.phase == Mounted && s.count == 0 && s.status == Saved
    ensures AfterReset(s).status == Saved && AfterReset(s).stored == None
    ensures AfterReset(s).pending == None && AfterReset(s).history == []
  {
  }

  /** Running `es` and then `e` is running `es + [e]`. */
  lemma {:induction false} RunSnoc(s: State, es: seq<Event>, e: Event)
    ensures Run(s, es + [e]) == Step(Run(s, es), e)
    decreases |es|
  {
    if es == [] {
      assert [] + [e] == [e];
      assert [e][1..] == [];
    } else {
      assert (es + [e])[0] == es[0];
      assert (es + [e])[1..] == es[1..] + [e];
      RunSnoc(Step(s, es[0]), es[1..], e);
    }
  }

  /** A whole session: mount, two increments, step 5, ArrowDown, reset, and
      the save timer firing. History after mount is [0, 0]: the mount run of
      the history effect appends the initial 0 to the initial [0]. */
  lemma Session()
    ensures Run(Init(None), [Mount]).history == [0, 0]
    ensures Run(Init(None), [Mount, Increment, Increment]).history == [0, 0, 1, 2]
    ensures Run(Init(None), [Mount, Increment, Increment, SetStep(5), KeyDown(ARROW_DOWN)])
      == State(Mounted, -3, [0, 0, 1, 2, -3], 5, Saving, None, Some(-3))
    ensures Run(Init(None), [Mount, Increment, Increment, SetStep(5), KeyDown(ARROW_DOWN), Reset])
      == State(Mounted, 0, [0], 5, Saving, None, Some(0))
    ensures Run(Init(None), [Mount, Increment, Increment, SetStep(5), KeyDown(ARROW_DOWN), Reset,
      TimerFire]) == State(Mounted, 0, [0], 5, Saved, Some(0), None)
  {
    var s0 := Init(None);
    var p1 := [Mount];
    var p3 := [Mount, Increment, Increment];
    var p5 := [Mount, Increment, Increment, SetStep(5), KeyDown(ARROW_DOWN)];
    var p6 := p5 + [Reset];
    var p7 := p6 + [TimerFire];
    RunSnoc(s0, [], Mount);
    assert [] + [Mount] == p1;
    var s1 := Step(s0, Mount);
    assert s1 == State(Mounted, 0, [0, 0], 1, Saving, None, Some(0));
    var s2 := Step(s1, Increment);
    assert s2 == State(Mounted, 1, [0, 0, 1], 1, Saving, None, Some(1));
    var s3 := Step(s2, Increment);
    assert s3 == State(Mounted, 2, [0, 0, 1, 2], 1, Saving, None, Some(2));
    RunSnoc(s0, p1, Increment);
    RunSnoc(s0, p1 + [Increment], Increment);
    assert p1 + [Increment] + [Increment] == p3;
    var s4 := Step(s3, SetStep(5));
    var s5 := Step(s4, KeyDown(ARROW_DOWN));
    assert s5 == State(Mounted, -3, [0, 0, 1, 2, -3], 5, Saving, None, Some(-3));
    RunSnoc(s0, p3, SetStep(5));
    RunSnoc(s0, p3 + [SetStep(5)], KeyDown(ARROW_DOWN));
    assert p3 + [SetStep(5)] + [KeyDown(ARROW_DOWN)] == p5;
    var s6 := Step(s5, Reset);
    assert s6 == State(Mounted, 0, [0], 5, Saving, None, Some(0));
    RunSnoc(s0, p5, Reset);
    RunSnoc(s0, p6, TimerFire);
    assert p6 == [Mount, Increment, Increment, SetStep(5), KeyDown(ARROW_DOWN), Reset];
    assert p7 == [Mount, Increment, Increment, SetStep(5), KeyDown(ARROW_DOWN), Reset, TimerFire];
  }
}
