/** The controller's work queue (pkg/controller/controller.go): a FIFO of
    keys with a `waiting` set that deduplicates notifications and an
    `inProgress` set that keeps one key from being worked on twice at once.
    Each critical section of the source is one atomic method here; the
    condition-variable wait on an empty queue is the `Idle` outcome. The
    mutex operations of each pass are modelled separately, as a sequence of
    Lock and Unlock calls. */
module Controllers {
  import opened Types

  predicate NoDuplicates(s: seq<string>)
  {
    forall i, j :: 0 <= i < j < |s| ==> s[i] != s[j]
  }

  /** The keys of `keys` that are not in `seen`, each once, in the order of
      their first notification: what a run of notifications appends to the
      queue when `seen` is the waiting set. */
  function NewKeys(seen: set<string>, keys: seq<string>): (r: seq<string>)
    ensures forall k :: k in r <==> k in keys && k !in seen
    ensures NoDuplicates(r)
  {
    if keys == [] then []
    else
      var init := keys[..|keys| - 1];
      var last := keys[|keys| - 1];
      var r := NewKeys(seen, init);
      assert keys == init + [last];
      if last in seen || last in r then r else r + [last]
  }

  /** Notifying keys that are all already waiting appends nothing. */
  lemma {:induction false} NewKeysOfWaiting(seen: set<string>, keys: seq<string>)
    requires forall k :: k in keys ==> k in seen
    ensures NewKeys(seen, keys) == []
  {
    if keys != [] {
      NewKeysOfWaiting(seen, keys[..|keys| - 1]);
    }
  }

  /** The first notification of a key decides its place: a key notified
      before another (and not yet waiting) is queued before it. */
  lemma {:induction false} NewKeysOrder(seen: set<string>, keys: seq<string>, i: nat, j: nat)
    requires i < j < |keys| && keys[i] !in seen && keys[j] !in seen
    requires keys[j] !in keys[..j]
    ensures exists a, b ::
      && 0 <= a < b < |NewKeys(seen, keys)|
      && NewKeys(seen, keys)[a] == keys[i]
      && NewKeys(seen, keys)[b] == keys[j]
  {
    var init := keys[..|keys| - 1];
    var r := NewKeys(seen, init);
    if j == |keys| - 1 {
      assert keys[i] == init[i] && keys[i] in r;
      var a :| 0 <= a < |r| && r[a] == keys[i];
      assert keys[j] !in init;
      assert NewKeys(seen, keys) == r + [keys[j]];
      assert NewKeys(seen, keys)[a] == keys[i];
    } else {
      assert keys[..j] == init[..j];
      NewKeysOrder(seen, init, i, j);
      var a, b :| 0 <= a < b < |r| && r[a] == keys[i] && r[b] == keys[j];
      assert NewKeys(seen, keys)[..|r|] == r;
    }
  }

  /** What one dequeue step did. `Idle`: the queue was empty and the source
      would wait for a signal. `Requeued`: the front key is still being
      worked on, so it went to the back. `Started`: the front key was taken
      out of the queue and handed on for processing. */
  datatype Step = Idle | Requeued(key: string) | Started(key: string)

  /** The argument the action is invoked with and the line logged: the
      lookup's element is passed on even when the lookup failed, and a
      failure is logged as "ERROR <message>". */
  function Handoff(element: Obj, err: Option<string>): (r: (Obj, Option<string>))
    ensures r.0 == element
    ensures r.1.Some? <==> err.Some?
    ensures err.Some? ==> r.1.value == "ERROR " + err.value
  {
    (element, if err.Some? then Some("ERROR " + err.value) else None)
  }

  class Controller {
    /** The work queue, front first. */
    var queue: seq<string>
    /** Keys notified and not yet taken out of the queue for processing. */
    var waiting: set<string>
    /** Keys whose action is running. */
    var inProgress: set<string>

    ghost predicate Valid()
      reads this
    {
      && NoDuplicates(queue)
      && forall k :: k in queue <==> k in waiting
    }

    /** An empty controller: nothing queued, waiting or in progress. */
    constructor ()
      ensures Valid()
      ensures queue == [] && waiting == {} && inProgress == {}
    {
      queue, waiting, inProgress := [], {}, {};
    }

    /** One notification: a key already waiting is dropped, any other key is
        appended to the queue and marked waiting. */
    method Enqueue(key: string)
      requires Valid()
      modifies this
      ensures Valid()
      ensures key in old(waiting) ==> queue == old(queue) && waiting == old(waiting)
      ensures key !in old(waiting) ==> queue == old(queue) + [key] && waiting == old(waiting) + {key}
      ensures inProgress == old(inProgress)
    {
      if key in waiting {
        return;
      }
      queue := queue + [key];
      waiting := waiting + {key};
    }

    /** The notification loop over a stream of keys. */
    method Watches(keys: seq<string>)
      requires Valid()
      modifies this
      ensures Valid()
      ensures queue == old(queue) + NewKeys(old(waiting), keys)
      ensures waiting == old(waiting) + set k | k in keys
      ensures inProgress == old(inProgress)
    {
      var i := 0;
      while i < |keys|
        invariant 0 <= i <= |keys| && Valid()
        invariant queue == old(queue) + NewKeys(old(waiting), keys[..i])
        invariant waiting == old(waiting) + set k | k in keys[..i]
        invariant inProgress == old(inProgress)
      {
        assert keys[..i + 1][..i] == keys[..i];
        Enqueue(keys[i]);
        i := i + 1;
      }
      assert keys[..i] == keys;
    }

    /** The head of the processing loop: take the front key; rotate it to
        the back when it is still in progress, otherwise mark it in progress
        and no longer waiting, so that a notification arriving while it is
        processed queues it again. */
    method Dequeue() returns (step: Step)
      requires Valid()
      modifies this
      ensures Valid()
      ensures old(queue) == [] ==>
        step == Idle && queue == old(queue) && waiting == old(waiting) && inProgress == old(inProgress)
      ensures old(queue) != [] && old(queue)[0] in old(inProgress) ==>
        && step == Requeued(old(queue)[0])
        && queue == old(queue)[1..] + [old(queue)[0]]
        && waiting == old(waiting) && inProgress == old(inProgress)
      ensures old(queue) != [] && old(queue)[0] !in old(inProgress) ==>
        && step == Started(old(queue)[0])
        && queue == old(queue)[1..]
        && waiting == old(waiting) - {old(queue)[0]}
        && inProgress == old(inProgress) + {old(queue)[0]}
    {
      if queue == [] {
        return Idle;
      }
      var key := queue[0];
      queue := queue[1..];
      if key in inProgress {
        queue := queue + [key];
        return Requeued(key);
      }
      inProgress := inProgress + {key};
      waiting := waiting - {key};
      return Started(key);
    }

    /** The end of the processing loop: the key is no longer in progress. */
    method Finish(key: string)
      requires Valid()
      modifies this
      ensures Valid()
      ensures inProgress == old(inProgress) - {key}
      ensures queue == old(queue) && waiting == old(waiting)
    {
      inProgress := inProgress - {key};
    }

    /** One pass of the processing loop, the action run atomically between
        the two critical sections: `lookup` stands for the object API's Get
        on the key, and the action's argument and the logged line are
        returned. */
    method RunOnce(lookup: string -> (Obj, Option<string>))
      returns (step: Step, argument: Option<Obj>, logged: Option<string>)
      requires Valid()
      modifies this
      ensures Valid()
      ensures step.Idle? <==> old(queue) == []
      ensures step.Idle? ==> queue == old(queue) && waiting == old(waiting)
      ensures step.Requeued? ==>
        && step.key == old(queue)[0] && step.key in old(inProgress)
        && queue == old(queue)[1..] + [step.key] && waiting == old(waiting)
      ensures step.Started? ==>
        && step.key == old(queue)[0] && step.key !in old(inProgress)
        && queue == old(queue)[1..] && waiting == old(waiting) - {step.key}
        && argument == Some(lookup(step.key).0)
        && logged == Handoff(lookup(step.key).0, lookup(step.key).1).1
      ensures !step.Started? ==> argument.None? && logged.None?
      ensures inProgress == old(inProgress)
    {
      step := Dequeue();
      argument, logged := None, None;
      if step.Started? {
        var result := lookup(step.key);
        var handed := Handoff(result.0, result.1);
        argument, logged := Some(handed.0), handed.1;
        Finish(step.key);
      }
    }
  }

  /** A key notified twice before it is dequeued is queued once. */
  method NotifyTwice() returns (queued: seq<string>, first: Step, second: Step)
    ensures queued == ["ns/a"]
    ensures first == Started("ns/a") && second == Idle
  {
    var c := new Controller();
    c.Enqueue("ns/a");
    c.Enqueue("ns/a");
    queued := c.queue;
    first := c.Dequeue();
    second := c.Dequeue();
  }

  /** A key notified while its action runs is queued again, is rotated
      rather than started while the action is still running, and is started
      once the action has finished. */
  method NotifyWhileInFlight() returns (steps: seq<Step>)
    ensures steps == [Started("a"), Requeued("a"), Started("a")]
  {
    var c := new Controller();
    c.Enqueue("a");
    var s1 := c.Dequeue();
    c.Enqueue("a");
    var s2 := c.Dequeue();
    c.Finish("a");
    var s3 := c.Dequeue();
    steps := [s1, s2, s3];
  }

  // ---------------------------------------------------------------------
  // The processing loop as written

  /** A Go map, which may be the nil map: reading a nil map finds nothing,
      writing to it panics. */
  datatype GoMap = NilMap | Made(keys: set<string>)

  function MapWrite(m: GoMap, key: string): (r: Result<GoMap, string>)
    ensures m.NilMap? <==> r.Err?
    ensures m.Made? ==> r == Ok(Made(m.keys + {key}))
  {
    match m
    case NilMap => Err("assignment to entry in nil map")
    case Made(keys) => Ok(Made(keys + {key}))
  }

  /** The `inProgress` map as the empty controller is built: its literal
      initialises `waiting` and the queue only. */
  const InProgressAsWritten: GoMap := NilMap

  /** The dequeue step as written, on the Go map: the popped key is rotated
      when the map holds it, and is otherwise written into the map, which
      panics (`Err`) on the nil map. The result is the step, the new queue
      and the new map. */
  function DequeueAsWritten(queue: seq<string>, inProgress: GoMap): (r: Result<(Step, seq<string>, GoMap), string>)
    ensures queue == [] ==> r == Ok((Idle, queue, inProgress))
  {
    if queue == [] then Ok((Idle, queue, inProgress))
    else
      var key := queue[0];
      if inProgress.Made? && key in inProgress.keys then Ok((Requeued(key), queue[1..] + [key], inProgress))
      else
        match MapWrite(inProgress, key)
        case Err(msg) => Err(msg)
        case Ok(m) => Ok((Started(key), queue[1..], m))
  }

  /** On the nil map the step as written fails exactly when there is a key
      to take. */
  lemma NilMapDequeueFails(queue: seq<string>)
    ensures DequeueAsWritten(queue, NilMap).Err? <==> queue != []
  {
  }

  /** On a made map the step as written is the controller's Dequeue: same
      step, same queue, same set of keys in progress. */
  method DequeueMatchesAsWritten(c: Controller) returns (step: Step)
    requires c.Valid()
    modifies c
    ensures DequeueAsWritten(old(c.queue), Made(old(c.inProgress))) == Ok((step, c.queue, Made(c.inProgress)))
  {
    step := c.Dequeue();
  }

  /** The first key a freshly built controller takes off its queue makes
      the processing loop panic. */
  lemma FirstDequeuePanicsAsWritten(key: string)
    ensures DequeueAsWritten([key], InProgressAsWritten).Err?
  {
  }

  /** With the map created, as the constructor here does, the first key is
      started. */
  lemma FirstDequeueStarts(key: string)
    ensures DequeueAsWritten([key], Made({})) == Ok((Started(key), [], Made({key})))
  {
    assert [key][0] == key && [key][1..] == [] && key !in Made({}).keys;
    assert {} + {key} == {key};
  }

  // ---------------------------------------------------------------------
  // The controller's mutex along the processing loop

  /** An operation of the processing goroutine on the controller's mutex. */
  datatype LockOp = Lock | Unlock

  /** Where a run of lock operations leaves the goroutine: holding the lock
      or not, blocked for good on a lock it already holds (Go's mutex is not
      reentrant), or dead on an unlock of an unlocked mutex. */
  datatype LockOutcome = Ends(held: bool) | Deadlock | UnlockOfUnlocked

  function RunLockOps(held: bool, ops: seq<LockOp>): LockOutcome
    decreases |ops|
  {
    if ops == [] then Ends(held)
    else
      match ops[0]
      case Lock => if held then Deadlock else RunLockOps(true, ops[1..])
      case Unlock => if held then RunLockOps(false, ops[1..]) else UnlockOfUnlocked
  }

  /** Running two runs of operations in turn: the second starts where the
      first ended, and a run that blocked or died stays so. */
  lemma {:induction false} RunLockOpsAppend(held: bool, xs: seq<LockOp>, ys: seq<LockOp>)
    ensures RunLockOps(held, xs).Ends? ==> RunLockOps(held, xs + ys) == RunLockOps(RunLockOps(held, xs).held, ys)
    ensures !RunLockOps(held, xs).Ends? ==> RunLockOps(held, xs + ys) == RunLockOps(held, xs)
    decreases |xs|
  {
    if xs != [] {
      assert (xs + ys)[0] == xs[0] && (xs + ys)[1..] == xs[1..] + ys;
      RunLockOpsAppend(!held, xs[1..], ys);
    } else {
      assert xs + ys == ys;
    }
  }

  /** The mutex operations of one pass of the loop as written: the Lock at
      the loop head; on an empty queue the condition variable's Wait, which
      releases the lock (it is taken again on wake-up, which the next pass's
      Lock stands for); for a rotated key the `continue`, with no Unlock;
      for a started key the Unlock before the action and the Lock and Unlock
      around the in-progress delete. */
  function PassLockOpsAsWritten(step: Step): (ops: seq<LockOp>)
    ensures ops != [] && ops[0] == Lock
  {
    match step
    case Idle => [Lock, Unlock]
    case Requeued(_) => [Lock]
    case Started(_) => [Lock, Unlock, Lock, Unlock]
  }

  /** The same, with the lock released before the `continue`. */
  function PassLockOps(step: Step): (ops: seq<LockOp>)
    ensures ops != [] && ops[0] == Lock
  {
    match step
    case Idle => [Lock, Unlock]
    case Requeued(_) => [Lock, Unlock]
    case Started(_) => [Lock, Unlock, Lock, Unlock]
  }

  /** The operations of successive passes, as written and corrected. */
  function TraceAsWritten(steps: seq<Step>): seq<LockOp>
  {
    if steps == [] then [] else PassLockOpsAsWritten(steps[0]) + TraceAsWritten(steps[1..])
  }

  function Trace(steps: seq<Step>): seq<LockOp>
  {
    if steps == [] then [] else PassLockOps(steps[0]) + Trace(steps[1..])
  }

  /** A pass as written ends holding the lock exactly when it rotated a
      key. */
  lemma HeldAfterPassAsWritten(step: Step)
    ensures RunLockOps(false, PassLockOpsAsWritten(step)) == Ends(step.Requeued?)
  {
    LockThenUnlock();
  }

  /** Lock then Unlock, once or twice, leaves the lock free; Lock alone
      leaves it held. */
  lemma LockThenUnlock()
    ensures RunLockOps(false, [Lock]) == Ends(true)
    ensures RunLockOps(false, [Lock, Unlock]) == Ends(false)
    ensures RunLockOps(false, [Lock, Unlock, Lock, Unlock]) == Ends(false)
  {
    var two: seq<LockOp> := [Lock, Unlock];
    assert [Lock][1..] == [];
    assert two[1..] == [Unlock] && two[1..][1..] == [];
    assert [Lock, Unlock, Lock, Unlock][1..][1..] == two;
  }

  /** As written, passes that rotate no key release the lock, while a
      rotation followed by any further pass blocks that pass for good. */
  lemma {:induction false} RotationDeadlocksAsWritten(steps: seq<Step>)
    ensures (forall i :: 0 <= i < |steps| ==> !steps[i].Requeued?) ==>
      RunLockOps(false, TraceAsWritten(steps)) == Ends(false)
    ensures (exists i :: 0 <= i < |steps| - 1 && steps[i].Requeued?) ==>
      RunLockOps(false, TraceAsWritten(steps)) == Deadlock
  {
    if steps != [] {
      var first, rest := PassLockOpsAsWritten(steps[0]), TraceAsWritten(steps[1..]);
      RunLockOpsAppend(false, first, rest);
      HeldAfterPassAsWritten(steps[0]);
      RotationDeadlocksAsWritten(steps[1..]);
      if steps[0].Requeued? {
        if |steps| > 1 {
          assert rest == PassLockOpsAsWritten(steps[1]) + TraceAsWritten(steps[2..]);
          assert rest[0] == Lock;
        }
      } else {
        if forall i :: 0 <= i < |steps| ==> !steps[i].Requeued? {
          assert forall i :: 0 <= i < |steps| - 1 ==> steps[1..][i] == steps[i + 1];
        }
        if exists i :: 0 <= i < |steps| - 1 && steps[i].Requeued? {
          var i :| 0 <= i < |steps| - 1 && steps[i].Requeued?;
          assert steps[1..][i - 1] == steps[i];
        }
      }
    }
  }

  /** With the lock released before the `continue`, every pass releases it,
      so any run of passes ends with the lock free and never blocks. */
  lemma {:induction false} EveryPassReleasesLock(steps: seq<Step>)
    ensures RunLockOps(false, Trace(steps)) == Ends(false)
  {
    if steps != [] {
      RunLockOpsAppend(false, PassLockOps(steps[0]), Trace(steps[1..]));
      LockThenUnlock();
      EveryPassReleasesLock(steps[1..]);
    }
  }
}
