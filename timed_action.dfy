/**
 The single-slot deferred-action coordinator behind `useTimedActionV1` and
 `useTimedActionV2`, as a pure state machine.

 The two mutable slots of a hook instance are `timer` (the outstanding timer,
 with the action it will run and the clock reading at which it becomes due) and
 the current promise. A promise is named by a number from a generation counter;
 `status` records how every promise created so far has settled. Actions are
 opaque identifiers; running one appends it to the call log `calls`.
 */
module TimedAction {
  import opened Wrappers

  type Action = nat

  /** How a promise made by `promisify` has settled. */
  datatype Settlement = Pending | Resolved | Rejected

  /** An armed timer: the action its callback runs and the time it becomes due. */
  datatype Timer = Timer(action: Action, deadline: int)

  datatype State = State(
    timer: Option<Timer>,
    current: nat,
    status: map<nat, Settlement>,
    calls: seq<Action>,
    now: int)

  /** The largest delay Node's `setTimeout` honours (2^31 - 1 milliseconds). */
  const TIMEOUT_MAX: int := 0x7FFF_FFFF

  /**
   The delay the host timer actually waits: Node's `setTimeout` replaces a
   delay below 1 or above TIMEOUT_MAX by 1.
   */
  function HostDelay(delay: int): (d: nat)
    ensures 1 <= d <= TIMEOUT_MAX
    ensures 1 <= delay <= TIMEOUT_MAX ==> d == delay
    ensures !(1 <= delay <= TIMEOUT_MAX) ==> d == 1
  {
    if 1 <= delay <= TIMEOUT_MAX then delay else 1
  }

  /**
   The invariant every instance keeps: the current promise is unsettled, it is
   the newest promise, every promise up to it has been created, and every
   earlier one has settled.
   */
  ghost predicate Valid(s: State) {
    && s.current in s.status
    && s.status[s.current] == Pending
    && (forall p :: p in s.status ==> p <= s.current)
    && (forall p: nat :: p <= s.current ==> p in s.status)
    && (forall p :: p in s.status && p != s.current ==> s.status[p] != Pending)
  }

  /** `isEnqueued`: whether the timer slot is occupied. */
  predicate IsEnqueued(s: State) {
    s.timer.Some?
  }

  /** A timer is outstanding and the clock has reached its deadline. */
  predicate Due(s: State) {
    s.timer.Some? && s.now >= s.timer.value.deadline
  }

  /** A fresh hook instance: no timer, and the first promise made by `promisify`. */
  function Init(start: int): (s: State)
    ensures Valid(s)
    ensures !IsEnqueued(s)
    ensures s.calls == [] && s.now == start
  {
    State(None, 0, map[0 := Pending], [], start)
  }

  /**
   Settles the current promise with `outcome` (`fnResolve` or `fnReject`) and
   installs a fresh one (`promisify`).
   */
  function Settle(s: State, outcome: Settlement): (r: State)
    requires outcome != Pending
    ensures Valid(s) ==> Valid(r)
    ensures Valid(s) ==> r.current !in s.status && r.current != s.current
    ensures Valid(s) ==> s.current in r.status && r.status[s.current] == outcome
    ensures Valid(s) ==> forall p :: p in s.status && p != s.current ==> p in r.status && r.status[p] == s.status[p]
    ensures r.timer == s.timer && r.calls == s.calls && r.now == s.now
  {
    var next := s.current + 1;
    s.(current := next, status := s.status[s.current := outcome][next := Pending])
  }

  /**
   `enqueue(action, delay, skip)`. While a timer is outstanding and `skip` is
   set, nothing changes. Otherwise any outstanding timer is cleared and a new
   one is armed for `action`, due `HostDelay(delay)` after now. In every case
   the caller gets the current promise back, which this call neither settles
   nor replaces.
   */
  function Enqueue(s: State, action: Action, delay: int, skip: bool): (r: State)
    ensures IsEnqueued(r)
    ensures r.current == s.current && r.status == s.status
    ensures r.calls == s.calls && r.now == s.now
    ensures IsEnqueued(s) && skip ==> r == s
    ensures !(IsEnqueued(s) && skip) ==> r.timer == Some(Timer(action, s.now + HostDelay(delay)))
    ensures Valid(s) ==> Valid(r)
  {
    if s.timer.Some? && skip then s
    else
      var cleared := s.(timer := None);
      cleared.(timer := Some(Timer(action, s.now + HostDelay(delay))))
  }

  /**
   `cancel()`. Without an outstanding timer it reports false and changes
   nothing. Otherwise it clears the timer, rejects the current promise,
   installs a fresh one and reports true; the queued action does not run.
   */
  function Cancel(s: State): (r: (State, bool))
    ensures r.1 <==> IsEnqueued(s)
    ensures !r.1 ==> r.0 == s
    ensures !IsEnqueued(r.0)
    ensures r.0.calls == s.calls && r.0.now == s.now
    ensures r.1 && Valid(s) ==> s.current in r.0.status && r.0.status[s.current] == Rejected
    ensures r.1 && Valid(s) ==> r.0.current !in s.status && r.0.current in r.0.status && r.0.status[r.0.current] == Pending
    ensures r.1 && Valid(s) ==> forall p :: p in s.status && p != s.current ==> p in r.0.status && r.0.status[p] == s.status[p]
    ensures Valid(s) ==> Valid(r.0)
  {
    if s.timer.None? then (s, false)
    else (Settle(s.(timer := None), Rejected), true)
  }

  /**
   The timer callback, run by the host once the timer is due: runs the action,
   empties the timer slot, resolves the current promise and installs a fresh one.
   */
  function Fire(s: State): (r: State)
    requires Due(s)
    ensures r.calls == s.calls + [s.timer.value.action]
    ensures !IsEnqueued(r)
    ensures r.now == s.now
    ensures Valid(s) ==> s.current in r.status && r.status[s.current] == Resolved
    ensures Valid(s) ==> r.current !in s.status && r.current in r.status && r.status[r.current] == Pending
    ensures Valid(s) ==> forall p :: p in s.status && p != s.current ==> p in r.status && r.status[p] == s.status[p]
    ensures Valid(s) ==> Valid(r)
  {
    var ran := s.(calls := s.calls + [s.timer.value.action]);
    Settle(ran.(timer := None), Resolved)
  }

  /** The host clock moves on by `dt`; time passing alone runs nothing. */
  function Advance(s: State, dt: nat): (r: State)
    ensures r.timer == s.timer && r.current == s.current && r.status == s.status && r.calls == s.calls
    ensures r.now == s.now + dt
  {
    s.(now := s.now + dt)
  }
}
