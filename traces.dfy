/**
 Runs of the coordinator: any interleaving of `enqueue`, `cancel`, timer
 callbacks and the passage of time, and the properties that hold across them.
 */
module Traces {
  import opened Wrappers
  import opened TimedAction

  /** One event seen by a hook instance. */
  datatype Op =
    | EnqueueOp(action: Action, delay: int, skip: bool)
    | CancelOp
    | FireOp
    | AdvanceOp(dt: nat)

  /** One event; the host runs a timer callback only when a timer is due. */
  function Step(s: State, op: Op): (t: State) {
    match op
    case EnqueueOp(a, d, k) => Enqueue(s, a, d, k)
    case CancelOp => Cancel(s).0
    case FireOp => if Due(s) then Fire(s) else s
    case AdvanceOp(dt) => Advance(s, dt)
  }

  function Run(s: State, ops: seq<Op>): (t: State)
    decreases |ops|
  {
    if ops == [] then s else Run(Step(s, ops[0]), ops[1..])
  }

  /** No event settles a promise: only calls to `enqueue` and time passing. */
  predicate Quiet(ops: seq<Op>) {
    forall i :: 0 <= i < |ops| ==> ops[i].EnqueueOp? || ops[i].AdvanceOp?
  }

  /** Only calls to `enqueue` with skip set, and time passing. */
  predicate SkipOnly(ops: seq<Op>) {
    forall i :: 0 <= i < |ops| ==> (ops[i].EnqueueOp? && ops[i].skip) || ops[i].AdvanceOp?
  }

  /** No call to `enqueue`. */
  predicate NoEnqueue(ops: seq<Op>) {
    forall i :: 0 <= i < |ops| ==> !ops[i].EnqueueOp?
  }

  lemma {:induction false} RunAppend(s: State, a: seq<Op>, b: seq<Op>)
    ensures Run(s, a + b) == Run(Run(s, a), b)
    decreases |a|
  {
    if a != [] {
      assert (a + b)[1..] == a[1..] + b;
      RunAppend(Step(s, a[0]), a[1..], b);
    } else {
      assert a + b == b;
    }
  }

  /** Every event keeps the invariant, so every reachable state satisfies it. */
  lemma {:induction false} RunValid(s: State, ops: seq<Op>)
    requires Valid(s)
    ensures Valid(Run(s, ops))
    decreases |ops|
  {
    if ops != [] {
      RunValid(Step(s, ops[0]), ops[1..]);
    }
  }

  /** Every state reachable from a fresh instance satisfies the invariant. */
  lemma ReachableValid(start: int, ops: seq<Op>)
    ensures Valid(Run(Init(start), ops))
  {
    RunValid(Init(start), ops);
  }

  /** A settled promise is never settled again: its status never changes. */
  lemma {:induction false} SettledStaysSettled(s: State, ops: seq<Op>, p: nat)
    requires Valid(s)
    requires p in s.status && s.status[p] != Pending
    ensures p in Run(s, ops).status && Run(s, ops).status[p] == s.status[p]
    decreases |ops|
  {
    if ops != [] {
      var t := Step(s, ops[0]);
      assert p in t.status && t.status[p] == s.status[p];
      SettledStaysSettled(t, ops[1..], p);
    }
  }

  /**
   After a promise settles, no later `enqueue` hands it out again: the current
   promise of every later state differs from it.
   */
  lemma SettledNeverReturned(s: State, ops: seq<Op>, p: nat)
    requires Valid(s)
    requires p in s.status && s.status[p] != Pending
    ensures Run(s, ops).current != p
  {
    SettledStaysSettled(s, ops, p);
    RunValid(s, ops);
  }

  /**
   While nothing settles, every `enqueue` hands back the same promise, and no
   action runs.
   */
  lemma {:induction false} QuietKeepsPromise(s: State, ops: seq<Op>)
    requires Quiet(ops)
    ensures Run(s, ops).current == s.current && Run(s, ops).status == s.status
    ensures Run(s, ops).calls == s.calls
    ensures ops != [] && ops[|ops| - 1].EnqueueOp? ==> IsEnqueued(Run(s, ops))
    decreases |ops|
  {
    if ops != [] {
      assert Quiet(ops[1..]) by {
        forall i | 0 <= i < |ops[1..]| ensures ops[1..][i].EnqueueOp? || ops[1..][i].AdvanceOp? {
          assert ops[1..][i] == ops[i + 1];
        }
      }
      assert ops[0].EnqueueOp? || ops[0].AdvanceOp?;
      QuietKeepsPromise(Step(s, ops[0]), ops[1..]);
      if |ops| == 1 {
        assert ops[1..] == [];
      } else {
        assert ops[1..][|ops[1..]| - 1] == ops[|ops| - 1];
      }
    }
  }

  /** With a timer outstanding, skip-mode calls and time passing leave it alone. */
  lemma {:induction false} SkipKeepsTimer(s: State, ops: seq<Op>)
    requires IsEnqueued(s)
    requires SkipOnly(ops)
    ensures var t := Run(s, ops);
      t.timer == s.timer && t.current == s.current && t.status == s.status && t.calls == s.calls
    decreases |ops|
  {
    if ops != [] {
      assert SkipOnly(ops[1..]) by {
        forall i | 0 <= i < |ops[1..]|
          ensures (ops[1..][i].EnqueueOp? && ops[1..][i].skip) || ops[1..][i].AdvanceOp?
        {
          assert ops[1..][i] == ops[i + 1];
        }
      }
      assert (ops[0].EnqueueOp? && ops[0].skip) || ops[0].AdvanceOp?;
      SkipKeepsTimer(Step(s, ops[0]), ops[1..]);
    }
  }

  /**
   Coalescing in skip mode: the first `enqueue` from idle arms the timer, and
   later skip-mode calls keep its action and deadline. Every call returns the
   same promise; when the timer fires, that first action runs exactly once and
   that promise is resolved.
   */
  lemma SkipCoalesces(s: State, action: Action, delay: int, skip: bool, ops: seq<Op>)
    requires Valid(s) && !IsEnqueued(s)
    requires SkipOnly(ops)
    ensures var t := Run(Enqueue(s, action, delay, skip), ops);
      && t.timer == Some(Timer(action, s.now + HostDelay(delay)))
      && t.current == s.current && t.calls == s.calls
      && (Due(t) ==> Fire(t).calls == s.calls + [action]
                     && s.current in Fire(t).status && Fire(t).status[s.current] == Resolved)
  {
    var e := Enqueue(s, action, delay, skip);
    SkipKeepsTimer(e, ops);
    RunValid(e, ops);
  }

  /**
   Restart mode, last call wins: after any settlement-free prefix, a
   restarting `enqueue` of `action`, followed only by skip-mode calls and time
   passing, leaves one timer carrying that action, due `HostDelay(delay)`
   after the time of that call. No earlier action has run, the promise is
   still the one every call returned, and firing runs only `action`.
   */
  lemma RestartLastWins(s: State, pre: seq<Op>, action: Action, delay: int, post: seq<Op>)
    requires Valid(s)
    requires Quiet(pre)
    requires SkipOnly(post)
    ensures var t := Run(s, pre + [EnqueueOp(action, delay, false)] + post);
      && t.timer == Some(Timer(action, Run(s, pre).now + HostDelay(delay)))
      && t.current == s.current && t.calls == s.calls
      && (Due(t) ==> Fire(t).calls == s.calls + [action]
                     && s.current in Fire(t).status && Fire(t).status[s.current] == Resolved)
  {
    var mid := Run(s, pre);
    QuietKeepsPromise(s, pre);
    RunAppend(s, pre, [EnqueueOp(action, delay, false)]);
    RunAppend(s, pre + [EnqueueOp(action, delay, false)], post);
    var e := Enqueue(mid, action, delay, false);
    assert Run(mid, [EnqueueOp(action, delay, false)]) == e;
    SkipKeepsTimer(e, post);
    RunValid(s, pre);
  }

  /** With no timer and no `enqueue`, nothing runs, nothing settles and no timer appears. */
  lemma {:induction false} IdleStaysIdle(s: State, ops: seq<Op>)
    requires !IsEnqueued(s)
    requires NoEnqueue(ops)
    ensures var t := Run(s, ops);
      !IsEnqueued(t) && t.calls == s.calls && t.current == s.current && t.status == s.status
    decreases |ops|
  {
    if ops != [] {
      assert NoEnqueue(ops[1..]) by {
        forall i | 0 <= i < |ops[1..]| ensures !ops[1..][i].EnqueueOp? {
          assert ops[1..][i] == ops[i + 1];
        }
      }
      assert !ops[0].EnqueueOp?;
      IdleStaysIdle(Step(s, ops[0]), ops[1..]);
    }
  }

  /**
   A cancelled action never runs: after `cancel()` with a timer outstanding,
   the promise that was current is rejected, and no sequence of events without
   a new `enqueue` runs anything.
   */
  lemma CancelPreventsAction(s: State, ops: seq<Op>)
    requires Valid(s) && IsEnqueued(s)
    requires NoEnqueue(ops)
    ensures var t := Run(Cancel(s).0, ops);
      && !IsEnqueued(t) && t.calls == s.calls
      && s.current in t.status && t.status[s.current] == Rejected
  {
    IdleStaysIdle(Cancel(s).0, ops);
  }

  /**
   A timer fires at most once: after its callback runs, no sequence of events
   without a new `enqueue` runs anything more.
   */
  lemma FiresOnce(s: State, ops: seq<Op>)
    requires Due(s)
    requires NoEnqueue(ops)
    ensures Run(Fire(s), ops).calls == s.calls + [s.timer.value.action]
    ensures !IsEnqueued(Run(Fire(s), ops))
  {
    IdleStaysIdle(Fire(s), ops);
  }
}
