/** The event queue as the controller uses it: a FIFO of deferred tasks with a
    fixed number of slots. Posting never blocks and never reports failure: when
    every slot is taken the task is dropped. The worker takes tasks from the
    front, one at a time. */
module Events {

  function Min(a: nat, b: nat): nat {
    if a <= b then a else b
  }

  /** `call(task)`: the queue after posting one task. The tasks already
      queued stay, in order, at the front; at most the posted task is added,
      behind them; it is accepted exactly when a slot is free, so the queue
      never grows past its capacity. */
  function Post<T>(q: seq<T>, capacity: nat, t: T): (r: seq<T>)
    ensures q <= r && |r| <= |q| + 1
    ensures |r| == |q| + 1 ==> r[|q|] == t
    ensures |r| == |q| + 1 <==> |q| < capacity
    ensures |q| <= capacity ==> |r| <= capacity
  {
    if |q| < capacity then q + [t] else q
  }

  /** The queue after posting several tasks one after another */
  function PostAll<T>(q: seq<T>, capacity: nat, ts: seq<T>): seq<T>
    decreases |ts|
  {
    if ts == [] then q else PostAll(Post(q, capacity, ts[0]), capacity, ts[1..])
  }

  /** Posting keeps the tasks already queued, appends the new ones in order,
      and drops exactly those that find no free slot; the queue never grows
      past its capacity. */
  lemma {:induction false} PostAllKeepsOrder<T>(q: seq<T>, capacity: nat, ts: seq<T>)
    requires |q| <= capacity
    ensures PostAll(q, capacity, ts) == q + ts[..Min(|ts|, capacity - |q|)]
    ensures |PostAll(q, capacity, ts)| <= capacity
    decreases |ts|
  {
    if ts != [] {
      var q' := Post(q, capacity, ts[0]);
      PostAllKeepsOrder(q', capacity, ts[1..]);
      if |q| < capacity {
        assert q + ts[..Min(|ts|, capacity - |q|)] == q' + ts[1..][..Min(|ts| - 1, capacity - |q'|)];
      } else {
        assert ts[..Min(|ts|, capacity - |q|)] == [];
        assert ts[1..][..Min(|ts| - 1, capacity - |q'|)] == [];
      }
    }
  }

  /** How many of n tasks posted to a queue of the given length find a free slot */
  function Accepted(length: nat, capacity: nat, n: nat): (k: nat)
    ensures k <= n
  {
    if length >= capacity then 0 else Min(n, capacity - length)
  }

  /** One step of a run: either a producer posts its tasks (in order), or the
      worker takes the task at the front, if there is one */
  datatype Step<T> = Submit(tasks: seq<T>) | Drain

  /** What a run leaves: the tasks still queued, the tasks the worker has taken
      (in the order it took them), and how many tasks were dropped */
  datatype Run<T> = Run(queue: seq<T>, observed: seq<T>, dropped: nat)

  /** All tasks the producers tried to post, in order */
  function Submitted<T>(steps: seq<Step<T>>): seq<T>
    decreases |steps|
  {
    if steps == [] then []
    else (if steps[0].Submit? then steps[0].tasks else []) + Submitted(steps[1..])
  }

  function StepRun<T>(capacity: nat, r: Run<T>, s: Step<T>): Run<T>
  {
    match s
    case Submit(ts) =>
      Run(PostAll(r.queue, capacity, ts), r.observed, r.dropped + (|ts| - Accepted(|r.queue|, capacity, |ts|)))
    case Drain =>
      if r.queue == [] then r else Run(r.queue[1..], r.observed + [r.queue[0]], r.dropped)
  }

  function Simulate<T>(capacity: nat, r: Run<T>, steps: seq<Step<T>>): Run<T>
    decreases |steps|
  {
    if steps == [] then r else Simulate(capacity, StepRun(capacity, r, steps[0]), steps[1..])
  }

  lemma StepRunAccounts<T>(capacity: nat, r: Run<T>, s: Step<T>)
    requires |r.queue| <= capacity
    ensures var r' := StepRun(capacity, r, s);
      |r'.queue| <= capacity && r'.dropped >= r.dropped &&
      (r'.dropped == r.dropped ==>
        r'.observed + r'.queue == r.observed + r.queue + (if s.Submit? then s.tasks else []))
  {
    if s.Submit? {
      PostAllKeepsOrder(r.queue, capacity, s.tasks);
    } else if r.queue != [] {
      assert r.observed + r.queue == r.observed + [r.queue[0]] + r.queue[1..];
    }
  }

  /** Every task a producer submits is either taken by the worker, still
      queued, or counted as dropped; and as long as nothing was dropped, the
      worker sees every submitted task exactly once, in submission order. */
  lemma {:induction false} NoLossNoDuplication<T>(capacity: nat, r: Run<T>, steps: seq<Step<T>>)
    requires |r.queue| <= capacity
    ensures var r' := Simulate(capacity, r, steps);
      |r'.queue| <= capacity &&
      |r'.observed| + |r'.queue| + r'.dropped == |r.observed| + |r.queue| + r.dropped + |Submitted(steps)| &&
      (r'.dropped == r.dropped ==> r'.observed + r'.queue == r.observed + r.queue + Submitted(steps))
    decreases |steps|
  {
    if steps != [] {
      var s := steps[0];
      var mid := StepRun(capacity, r, s);
      StepRunAccounts(capacity, r, s);
      StepCount(capacity, r, s);
      NoLossNoDuplication(capacity, mid, steps[1..]);
      var fin := Simulate(capacity, r, steps);
      var now := if s.Submit? then s.tasks else [];
      assert Submitted(steps) == now + Submitted(steps[1..]);
      if fin.dropped == r.dropped {
        NoLossMonotone(capacity, mid, steps[1..]);
        assert mid.dropped == r.dropped;
      }
    }
  }

  lemma StepCount<T>(capacity: nat, r: Run<T>, s: Step<T>)
    requires |r.queue| <= capacity
    ensures var r' := StepRun(capacity, r, s);
      |r'.observed| + |r'.queue| + r'.dropped == |r.observed| + |r.queue| + r.dropped + (if s.Submit? then |s.tasks| else 0)
  {
    if s.Submit? {
      PostAllKeepsOrder(r.queue, capacity, s.tasks);
    }
  }

  lemma {:induction false} NoLossMonotone<T>(capacity: nat, r: Run<T>, steps: seq<Step<T>>)
    requires |r.queue| <= capacity
    ensures Simulate(capacity, r, steps).dropped >= r.dropped
    decreases |steps|
  {
    if steps != [] {
      StepRunAccounts(capacity, r, steps[0]);
      NoLossMonotone(capacity, StepRun(capacity, r, steps[0]), steps[1..]);
    }
  }
}
