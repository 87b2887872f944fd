# use-timed-action: a verified model of the deferred-action coordinator

The repository provides a React hook that runs an action once, after a delay.
Repeated requests made while one is pending are coalesced. A hook instance owns
two mutable slots: the outstanding timer, if any, and a promise made by
`promisify`. That promise settles when the action runs or is cancelled.
`useTimedActionV1` fixes the action, delay and skip flag when the hook is
created. `useTimedActionV2` takes them on every `enqueue` call. Both are the
same state machine with these operations:

- `enqueue` arms a timer when idle. When a timer is pending it either does
  nothing (skip set) or restarts the timer with the new action and delay
  (skip clear). It always returns the current promise.
- `cancel` clears the timer, rejects the promise, installs a fresh one and
  returns true. With no timer it returns false.
- The timer callback runs the action, empties the slot, resolves the promise
  and installs a fresh one.
- `isEnqueued` reports whether the timer slot is occupied.

The model has four parts:

- `wrappers.dfy`: an `Option` type.
- `timed_action.dfy` (module `TimedAction`): the state machine on values.
  - The state holds the timer (action and deadline), a generation counter
    naming the current promise, the settlement status of every promise created
    so far, the log of actions run, and the host clock.
  - Each operation is a function whose contract states its one-step
    behaviour. `Valid` is the invariant every instance keeps.
- `traces.dfy` (module `Traces`): arbitrary interleavings of operations, and
  the properties that hold across them. These cover coalescing, last call
  wins, cancellation, fire-once, no double settlement and fresh promises.
- `hook.dfy` (module `Hook`): class `Coordinator`, one object per hook
  instance.
  - Its fields are the source's slots, and its methods update them step by
    step as `index.ts` does.
  - Each method's contract ties the new fields to the state-machine function
    of the old ones.
  - `scenarios.dfy` replays test cases of `__tests__/useTimedAction.test.ts`
    against those contracts: initialization (lines 19-27), cancel (lines
    42-57), skip-mode repeated enqueue (lines 214-237) and restart-mode
    repeated enqueue with timing (lines 320-347).

Host behaviour is made explicit:

- `setTimeout` becomes a deadline `now + HostDelay(delay)`. `HostDelay`
  follows Node's rule: a delay below 1 or above 2^31 - 1 ms becomes 1 ms.
- The host runs a timer callback only when its deadline has passed, so
  `Fire` requires `now >= deadline`.
- The callback may run late, so other calls can come in while a timer is due
  but has not fired yet. In a trace, a `FireOp` when no timer is due does
  nothing.
- Every `promisify` call makes a promise that has not existed before. The
  model names it `current + 1`, which `Valid` guarantees is unused.
- "At most one timer" is the type of the slot, `Option<Timer>`. The restart
  branch clears the slot before arming, as the source does.

Two more facts about `index.ts` shape the model:

- `enqueue` hands `delay` to `setTimeout` unchanged. The host coerces it
  (`HostDelay`).
- An undefined action is not defaulted. `fnAction()` at lines 52 and 93 is
  called as it is.
- The two `Advance` members (`TimedAction.Advance`, `Hook.Coordinator.Advance`)
  stand for the host clock moving on. They are not operations of the hook, so
  they have no row below.

## Model

| member | source | states |
|---|---|---|
| `TimedAction.Init` | src/hooks/useTimedAction/index.ts:36-38 | a new instance has no timer, has run nothing and satisfies the invariant; its first promise is pending |
| `TimedAction.Settle` | src/hooks/useTimedAction/index.ts:23-32 | settling the current promise gives it the outcome and installs a promise that never existed before, which is pending; other promises keep their status and the invariant is preserved |
| `TimedAction.HostDelay` | src/hooks/useTimedAction/index.ts:50-56 | the host waits between 1 and 2^31-1 ms: exactly the requested delay when it lies in that range, otherwise 1 ms |
| `TimedAction.Enqueue` | src/hooks/useTimedAction/index.ts:40-58 | afterwards a timer is outstanding; the promise is neither settled nor replaced and no action runs; when pending with skip set nothing changes; otherwise the single timer carries the new action and is due HostDelay(delay) after now; the invariant is preserved |
| `TimedAction.Cancel` | src/hooks/useTimedAction/index.ts:61-69 | returns true exactly when a timer was outstanding; if not, the state is unchanged; if so, no timer remains, no action runs, the old promise is rejected, a new pending promise is installed and every other promise keeps its status; the invariant is preserved |
| `TimedAction.Fire` | src/hooks/useTimedAction/index.ts:50-56 | the timer's action is appended to the call log once, the slot is emptied, the promise enqueue returned is resolved, a new pending promise is installed and every other promise keeps its status; the invariant is preserved |
| `Traces.RunValid` | src/hooks/useTimedAction/index.ts:47-55 | every interleaving of enqueue, cancel, timer callbacks and time passing preserves the invariant: the current promise is pending and every earlier promise is settled |
| `Traces.ReachableValid` | src/hooks/useTimedAction/index.ts:36-37 | every state reachable from a fresh instance satisfies the invariant |
| `Traces.SettledStaysSettled` | src/hooks/useTimedAction/index.ts:54-55 | a promise that has settled keeps its outcome through any later events, so no promise is settled twice |
| `Traces.SettledNeverReturned` | src/hooks/useTimedAction/index.ts:65-67 | once a promise has settled, the current promise of every later state differs from it, so no later enqueue hands it out again |
| `Traces.QuietKeepsPromise` | src/hooks/useTimedAction/index.ts:41-58 | across any run of enqueue calls and time passing with no cancel or callback, the current promise and all statuses stay the same, so every call returns one identical promise; no action runs |
| `Traces.SkipKeepsTimer` | src/hooks/useTimedAction/index.ts:41-45 | with a timer outstanding, skip-mode enqueue calls and time passing leave its action and deadline, the promise and the call log untouched |
| `Traces.SkipCoalesces` | src/hooks/useTimedAction/index.ts:82-86 | from idle, a first enqueue followed by skip-mode calls leaves the first call's action and deadline armed with the same promise; when it fires, exactly that action runs once and the promise is resolved |
| `Traces.RestartLastWins` | src/hooks/useTimedAction/index.ts:87-99 | after restart-mode calls, the timer carries the last call's action, due HostDelay(delay) after that call's time; no earlier action ran, the promise is unchanged, and firing runs only the last action |
| `Traces.IdleStaysIdle` | src/hooks/useTimedAction/index.ts:62 | with no timer and no enqueue, cancel, callbacks and time passing run nothing, arm nothing and settle nothing |
| `Traces.CancelPreventsAction` | src/hooks/useTimedAction/index.ts:104-111 | after a successful cancel the old promise is rejected, and without a new enqueue the cancelled action never runs |
| `Traces.FiresOnce` | src/hooks/useTimedAction/index.ts:91-97 | after the callback runs, no later events without a new enqueue run any further action |
| `Hook.Coordinator.V1` | src/hooks/useTimedAction/index.ts:34-38 | a useTimedActionV1 instance starts in the initial state, with its configuration bound |
| `Hook.Coordinator.V2` | src/hooks/useTimedAction/index.ts:74-78 | a useTimedActionV2 instance starts in the initial state, with no bound configuration |
| `Hook.Coordinator.IsEnqueued` | src/hooks/useTimedAction/index.ts:78 | returns true exactly when the timer slot is occupied, reading the fields and changing nothing |
| `Hook.Coordinator.Enqueue` | src/hooks/useTimedAction/index.ts:80-99 | the V2 enqueue updates the fields as TimedAction.Enqueue says and returns the current promise, unchanged |
| `Hook.Coordinator.EnqueueBound` | src/hooks/useTimedAction/index.ts:40-59 | the V1 enqueue does the same with the action, delay and skip flag bound at creation |
| `Hook.Coordinator.Cancel` | src/hooks/useTimedAction/index.ts:104-112 | updates the fields and returns the flag as TimedAction.Cancel says, keeping the invariant |
| `Hook.Coordinator.Fire` | src/hooks/useTimedAction/index.ts:91-97 | runs only when a timer is due, and updates the fields as TimedAction.Fire says, keeping the invariant |

## Left out

- React glue (`useRef`, `useCallback` and their dependency arrays): one `Coordinator` object stands for one hook instance. When a V1 hook re-renders with new arguments, `enqueue` is re-created and the object keeps its slots. That case is not modelled. The model does record that an armed timer keeps the action it was armed with.
- Logging (`DEBUG`, `log`) and the `id` argument are not modelled. They are observability only and do not change behaviour.
- Real timers and promise scheduling are not modelled. `setTimeout` and `clearTimeout` become an integer clock and a deadline. Promise callbacks running as microtasks become a settlement status per promise.
- The action's own effects and exceptions are not modelled. An action is an opaque id recorded in a call log. The source does not catch exceptions (line 52). So a throwing action would leave the timer slot set and the promise pending, and that path is outside this model.
- Re-entrant actions are not modelled: the action is assumed not to call the hook. `fnAction()` runs at lines 52 and 93, before the slot is cleared and the promise settled. On this path the single-timer and resolves-what-enqueue-returned properties fail in the source:
  - An action that calls `enqueue(f, d, false)` has its new timer handle overwritten by `refTimer.current = undefined` (lines 53 and 94). `isEnqueued()` then reports false while that host timer is still armed, so the next `enqueue` arms a second timer.
  - An action that calls `cancel()` rejects its own promise (lines 65 and 108). Lines 54 and 95 then resolve the fresh promise `cancel` has just installed.
- The override-precedence API used by `src/hooks/useTimedAction/__tests__/useTimedAction.test.ts` (`useTimedAction({callback, delay, skipIfAlreadyEnqueued}, id)`) is not modelled. No source file here implements it.
- Teardown on unmount is not modelled. The source has no such code.
- Fractional, NaN and infinite delays are not modelled. Delays are whole milliseconds. Node turns NaN and ±Infinity into 1 ms.
