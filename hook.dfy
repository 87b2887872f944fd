/**
 One hook instance as an object whose fields are the source's mutable slots:
 `timer` stands for `refTimer.current`, `current` and `status` for the promise
 held in `refData.current`, `calls` records the actions run and `now` is the
 host clock. `useTimedActionV1` fixes the action, delay and skip flag at
 creation (`bound`); `useTimedActionV2` takes them on every `enqueue`.
 */
module Hook {
  import opened Wrappers
  import opened TimedAction

  /** The action, delay and skip flag a `useTimedActionV1` instance is created with. */
  datatype Config = Config(action: Action, delay: int, skip: bool)

  class Coordinator {
    const bound: Option<Config>
    var timer: Option<Timer>
    var current: nat
    var status: map<nat, Settlement>
    var calls: seq<Action>
    var now: int

    /** The state-machine value of the instance's fields. */
    function View(): (s: State)
      reads this
    {
      State(timer, current, status, calls, now)
    }

    ghost predicate Valid()
      reads this
    {
      TimedAction.Valid(View())
    }

    /** `useTimedActionV1(fnAction, delay, skipIfEnqueued)` at host time `start`. */
    constructor V1(action: Action, delay: int, skip: bool, start: int)
      ensures Valid()
      ensures View() == Init(start)
      ensures bound == Some(Config(action, delay, skip))
    {
      bound := Some(Config(action, delay, skip));
      timer := None;
      current, status := 0, map[0 := Pending];
      calls, now := [], start;
    }

    /** `useTimedActionV2()` at host time `start`. */
    constructor V2(start: int)
      ensures Valid()
      ensures View() == Init(start)
      ensures bound == None
    {
      bound := None;
      timer := None;
      current, status := 0, map[0 := Pending];
      calls, now := [], start;
    }

    /** `isEnqueued()`: a pure read of the timer slot. */
    method IsEnqueued() returns (enqueued: bool)
      ensures enqueued <==> timer.Some?
    {
      enqueued := timer.Some?;
    }

    /** The `enqueue(fnAction, delay, skipIfEnqueued)` of `useTimedActionV2`. */
    method Enqueue(action: Action, delay: int, skip: bool) returns (promise: nat)
      requires Valid()
      modifies this
      ensures Valid()
      ensures View() == TimedAction.Enqueue(old(View()), action, delay, skip)
      ensures promise == old(current) && promise == current
    {
      if timer.Some? {
        if skip {
          return current;
        }
        timer := None;
      }
      timer := Some(Timer(action, now + HostDelay(delay)));
      promise := current;
    }

    /** The argument-less `enqueue()` of `useTimedActionV1`, using the bound configuration. */
    method EnqueueBound() returns (promise: nat)
      requires Valid()
      requires bound.Some?
      modifies this
      ensures Valid()
      ensures View() == TimedAction.Enqueue(old(View()), bound.value.action, bound.value.delay, bound.value.skip)
      ensures promise == old(current) && promise == current
    {
      promise := Enqueue(bound.value.action, bound.value.delay, bound.value.skip);
    }

    /** `cancel()`. */
    method Cancel() returns (cancelled: bool)
      requires Valid()
      modifies this
      ensures Valid()
      ensures (View(), cancelled) == TimedAction.Cancel(old(View()))
    {
      if timer.None? {
        return false;
      }
      status := status[current := Rejected];
      timer := None;
      current := current + 1;
      status := status[current := Pending];
      cancelled := true;
    }

    /** The timer callback, which the host runs once the timer is due. */
    method Fire()
      requires Valid()
      requires timer.Some? && now >= timer.value.deadline
      modifies this
      ensures Valid()
      ensures View() == TimedAction.Fire(old(View()))
    {
      calls := calls + [timer.value.action];
      timer := None;
      status := status[current := Resolved];
      current := current + 1;
      status := status[current := Pending];
    }

    /** The host clock moves on by `dt`. */
    method Advance(dt: nat)
      requires Valid()
      modifies this
      ensures Valid()
      ensures View() == TimedAction.Advance(old(View()), dt)
    {
      now := now + dt;
    }
  }
}
