/** The Counter component as an object: one field per piece of state and one
    method per event. Every method is proved against the transition function
    of CounterState for its event, and keeps the invariant Inv of
    CounterTraces, so the properties proved there hold of every object. */
module CounterWidget {
  import opened CounterState
  import CounterTraces

  class Counter {
    var phase: Phase
    var count: int
    var history: seq<int>
    var step: int
    var status: Status
    var stored: Option<int>   // localStorage["count"]
    var pending: Option<int>  // the armed save timer and the count it captured

    /** The object's state as a value. */
    function Model(): State
      reads this
    {
      State(phase, count, history, step, status, stored, pending)
    }

    ghost predicate Valid()
      reads this
    {
      CounterTraces.Inv(Model())
    }

    /** The first render: the useState initial values; storage holds
        whatever an earlier session left there. */
    constructor (initialStored: Option<int>)
      ensures Model() == Init(initialStored) && Valid()
    {
      phase := Created;
      count := 0;
      history := [0];
      step := 1;
      status := Idle;
      stored := initialStored;
      pending := None;
    }

    /** The effects that depend on count, run after a render in which count
        changed: append to history, cancel the armed save, show "Saving..."
        and arm a save of the current count. */
    method OnCountChanged()
      modifies this
      ensures Model() == CountEffects(old(Model()))
    {
      history := history + [count];
      status := Saving;
      // the previous run's cleanup cancels the armed timer; the new timer,
      // which captures count, takes its place
      pending := Some(count);
    }

    /** setCount(c) followed by the re-render; effects run only when the
        value changed. */
    method SetCount(c: int)
      modifies this
      ensures Model() == WithCount(old(Model()), c)
    {
      var changed := c != count;
      count := c;
      if changed {
        OnCountChanged();
      }
    }

    method Mount()
      requires Valid()
      modifies this
      ensures Valid()
      ensures Model() == AfterMount(old(Model()))
    {
      ghost var before := Model();
      if phase == Created {
        phase := Mounted;
        OnCountChanged();
      }
      CounterTraces.StepInv(before, CounterTraces.Event.Mount);
    }

    method Increment()
      requires Valid()
      modifies this
      ensures Valid()
      ensures Model() == AfterIncrement(old(Model()))
      ensures old(phase) == Mounted ==> count == old(count) + old(step) && step == old(step)
    {
      ghost var before := Model();
      if phase == Mounted {
        SetCount(count + step);
      }
      CounterTraces.StepInv(before, CounterTraces.Event.Increment);
    }

    method Decrement()
      requires Valid()
      modifies this
      ensures Valid()
      ensures Model() == AfterDecrement(old(Model()))
      ensures old(phase) == Mounted ==> count == old(count) - old(step) && step == old(step)
    {
      ghost var before := Model();
      if phase == Mounted {
        SetCount(count - step);
      }
      CounterTraces.StepInv(before, CounterTraces.Event.Decrement);
    }

    /** The document's keydown listener, which always sees the current step. */
    method KeyDown(key: string)
      requires Valid()
      modifies this
      ensures Valid()
      ensures Model() == AfterKeyDown(old(Model()), key)
    {
      ghost var before := Model();
      if phase == Mounted {
        if key == ARROW_UP {
          SetCount(count + step);
        }
        if key == ARROW_DOWN {
          SetCount(count - step);
        }
      }
      CounterTraces.StepInv(before, CounterTraces.Event.KeyDown(key));
    }

    /** The step field's onChange. */
    method SetStep(value: int)
      requires Valid()
      modifies this
      ensures Valid()
      ensures Model() == AfterSetStep(old(Model()), value)
    {
      ghost var before := Model();
      if phase == Mounted {
        step := value;
      }
      CounterTraces.StepInv(before, CounterTraces.Event.SetStep(value));
    }

    /** The handler's batch (count := 0, history := [], key removed), then
        the re-render, whose count effects run only if count was not 0. */
    method Reset()
      requires Valid()
      modifies this
      ensures Valid()
      ensures Model() == AfterReset(old(Model()))
    {
      ghost var before := Model();
      if phase == Mounted {
        var changed := count != 0;
        count := 0;
        history := [];
        stored := None;
        if changed {
          OnCountChanged();
        }
      }
      CounterTraces.StepInv(before, CounterTraces.Event.Reset);
    }

    /** The armed save timer expires. */
    method TimerFire()
      requires Valid()
      modifies this
      ensures Valid()
      ensures Model() == AfterTimerFire(old(Model()))
      ensures old(pending).Some? ==> stored == Some(count) && status == Saved && pending == None
    {
      ghost var before := Model();
      match pending {
        case Some(v) =>
          stored := Some(v);
          status := Saved;
          pending := None;
        case None =>
      }
      CounterTraces.StepInv(before, CounterTraces.Event.TimerFire);
    }

    /** Both cleanups: the timer is cancelled and the listener removed. */
    method Unmount()
      requires Valid()
      modifies this
      ensures Valid()
      ensures Model() == AfterUnmount(old(Model()))
    {
      ghost var before := Model();
      if phase == Mounted {
        pending := None;
        phase := Unmounted;
      }
      CounterTraces.StepInv(before, CounterTraces.Event.Unmount);
    }
  }

  /** A session driven through the object, using only the methods' contracts. */
  method ClientSession() {
    var c := new Counter(None);
    c.Mount();
    assert c.history == [0, 0];
    c.Increment();
    c.Increment();
    assert c.history == [0, 0, 1, 2];
    c.SetStep(5);
    c.KeyDown(ARROW_DOWN);
    assert c.count == -3 && c.history == [0, 0, 1, 2, -3];
    c.Reset();
    assert c.count == 0 && c.history == [0] && c.stored == None;
    c.TimerFire();
    assert c.stored == Some(0) && c.status.Text() == "Changes saved.";
    c.Reset();
    assert c.history == [] && c.stored == None && c.status == Saved;
    c.Unmount();
    c.Increment();
    assert c.count == 0 && c.pending == None;
  }
}
