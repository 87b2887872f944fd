/**
 Clients of `Hook.Coordinator` that replay the scenarios of the repository's
 tests, using only the contracts of the coordinator's methods.
 */
module Scenarios {
  import opened Wrappers
  import opened TimedAction
  import opened Hook

  /** A fresh instance is not enqueued and `cancel()` reports false. */
  method Initialization() {
    var c := new Coordinator.V1(7, 50, true, 0);
    var e := c.IsEnqueued();
    assert !e;
    var k := c.Cancel();
    assert !k && c.calls == [];
  }

  /** Skip mode, three distinct actions: three calls return one promise; only the first action runs, once. */
  method EnqueueRepeatedlySkip(f1: Action, f2: Action, f3: Action) {
    var c := new Coordinator.V2(0);
    var p1 := c.Enqueue(f1, 50, true);
    var p2 := c.Enqueue(f2, 50, true);
    var p3 := c.Enqueue(f3, 50, true);
    assert p1 == p2 == p3;
    var e := c.IsEnqueued();
    assert e && c.calls == [];
    c.Advance(50);
    c.Fire();
    assert c.calls == [f1];
    assert c.status[p1] == Resolved && c.current != p1;
    e := c.IsEnqueued();
    assert !e;
  }

  /**
   Restart mode with timing: four calls 30 ms apart; 30 ms after the last one
   nothing has run and a timer is still outstanding; once it is due only the
   last action runs, at 140 ms.
   */
  method EnqueueRepeatedlyTimingRestart(f1: Action, f2: Action, f3: Action, f4: Action) {
    var c := new Coordinator.V2(0);
    var p1 := c.Enqueue(f1, 50, false);
    c.Advance(30);
    var p2 := c.Enqueue(f2, 50, false);
    c.Advance(30);
    var p3 := c.Enqueue(f3, 50, false);
    c.Advance(30);
    var p4 := c.Enqueue(f4, 50, false);
    c.Advance(30);
    assert p1 == p2 == p3 == p4;
    var e := c.IsEnqueued();
    assert e && c.calls == [];
    assert c.timer == Some(Timer(f4, 140));
    c.Advance(50);
    c.Fire();
    assert c.calls == [f4];
    assert c.status[p1] == Resolved;
    e := c.IsEnqueued();
    assert !e;
  }

  /** Cancelling straight after `enqueue` rejects the promise; the action never runs. */
  method CancelRejects(f: Action) {
    var c := new Coordinator.V1(f, 50, true, 0);
    var p := c.EnqueueBound();
    var e := c.IsEnqueued();
    assert e && c.calls == [];
    var k := c.Cancel();
    assert k && c.status[p] == Rejected && c.calls == [];
    e := c.IsEnqueued();
    assert !e;
  }
}
