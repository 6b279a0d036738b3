/**
 * The lease tracker, its event channel and the controller's workqueue as one state machine: no recorded
 * request is left without a wake-up, unless a signal was dropped.
 */
module WakeUp {
  import opened LeaseTracker

  /**
   * The workqueue deduplicates: an added key is dirty until a worker takes it; a key that is added while being
   * processed is queued again when its reconcile finishes. `running` maps a key to whether it has drained.
   */
  datatype State = State(
    pending: Pending, enqueuers: multiset<Key>, events: seq<Key>, capacity: nat,
    queue: seq<Key>, dirty: set<Key>, running: map<Key, bool>, retries: set<Key>, dropped: set<Key>)

  datatype Step =
    | Record(key: Key, lease: PendingLease)  // the map write of Enqueue, by the webhook or a reconcile
    | Signal(key: Key)                       // its non-blocking send
    | Deliver                                // the channel source adds the head event's key to the queue
    | Watch(key: Key)                        // any other event adds a key
    | Start                                  // a worker takes the head of the queue
    | Drain(key: Key)                        // the running reconcile drains the tracker
    | Finish(key: Key, retry: bool)          // it returns; a reconcile that did not drain returns an error
    | Retry(key: Key)                        // the delayed re-add of a failed or requeued key

  function Add(s: State, key: Key): State {
    if key in s.dirty then s
    else s.(dirty := s.dirty + {key}, queue := if key in s.running then s.queue else s.queue + [key])
  }

  predicate Enabled(s: State, step: Step) {
    match step
    case Record(_, _) => true
    case Signal(key) => key in s.enqueuers
    case Deliver => s.events != []
    case Watch(_) => true
    case Start => s.queue != [] && s.queue[0] !in s.running
    case Drain(key) => key in s.running && !s.running[key]
    case Finish(key, retry) => key in s.running && (s.running[key] || retry)
    case Retry(key) => key in s.retries
  }

  function Apply(s: State, step: Step): State
    requires Enabled(s, step)
  {
    match step
    case Record(key, lease) =>
      s.(pending := Enqueued(s.pending, key, lease), enqueuers := s.enqueuers + multiset{key})
    case Signal(key) =>
      var s' := s.(enqueuers := s.enqueuers - multiset{key});
      if |s.events| < s.capacity then s'.(events := s.events + [key]) else s'.(dropped := s.dropped + {key})
    case Deliver => Add(s.(events := s.events[1..]), s.events[0])
    case Watch(key) => Add(s, key)
    case Start =>
      var key := s.queue[0];
      s.(queue := s.queue[1..], dirty := s.dirty - {key}, running := s.running[key := false])
    case Drain(key) =>
      s.(pending := s.pending - {key}, running := s.running[key := true], dropped := s.dropped - {key})
    case Finish(key, retry) =>
      s.(running := s.running - {key},
         queue := if key in s.dirty then s.queue + [key] else s.queue,
         retries := if retry then s.retries + {key} else s.retries)
    case Retry(key) => Add(s.(retries := s.retries - {key}), key)
  }

  /** Something will still make a reconcile of the class drain the tracker. */
  predicate Awake(s: State, key: Key) {
    || key in s.enqueuers
    || key in s.events
    || key in s.dirty
    || key in s.retries
    || (key in s.running && !s.running[key])
  }

  predicate HasRequests(s: State, key: Key) {
    Requests(s.pending, key) != map[]
  }

  /** The queue holds exactly the dirty keys that are not running, once each: the workqueue's own invariant. */
  ghost predicate QueueConsistent(s: State) {
    && (forall key :: key in s.queue <==> key in s.dirty && key !in s.running)
    && (forall i, j | 0 <= i < j < |s.queue| :: s.queue[i] != s.queue[j])
  }

  ghost predicate NoLostWakeUp(s: State) {
    && QueueConsistent(s)
    && forall key | HasRequests(s, key) && key !in s.dropped :: Awake(s, key)
  }

  /** A request is recorded, a signal of its class was dropped since it last drained, and nothing will wake it. */
  predicate Stranded(s: State, key: Key) {
    HasRequests(s, key) && key in s.dropped && !Awake(s, key)
  }

  function Init(capacity: nat): State {
    State(map[], multiset{}, [], capacity, [], {}, map[], {}, {})
  }

  lemma AddKeepsQueue(s: State, key: Key)
    requires QueueConsistent(s)
    ensures QueueConsistent(Add(s, key)) && key in Add(s, key).dirty
  {
  }

  lemma StepKeepsQueue(s: State, step: Step)
    requires QueueConsistent(s) && Enabled(s, step)
    ensures QueueConsistent(Apply(s, step))
  {
    match step
    case Deliver => AddKeepsQueue(s.(events := s.events[1..]), s.events[0]);
    case Watch(key) => AddKeepsQueue(s, key);
    case Retry(key) => AddKeepsQueue(s.(retries := s.retries - {key}), key);
    case Start =>
      assert s.queue == [s.queue[0]] + s.queue[1..];
      assert forall key :: key in s.queue[1..] <==> key in s.queue && key != s.queue[0];
    case _ =>
  }

  lemma {:induction false} StepKeepsNoLostWakeUp(s: State, step: Step)
    requires NoLostWakeUp(s) && Enabled(s, step)
    ensures NoLostWakeUp(Apply(s, step))
  {
    StepKeepsQueue(s, step);
    var s' := Apply(s, step);
    forall key | HasRequests(s', key) && key !in s'.dropped ensures Awake(s', key) {
      if step.Record? && step.key == key {
        assert key in s'.enqueuers;
      } else if HasRequests(s, key) && key !in s.dropped {
        assert Awake(s, key);
        if step.Deliver? {
          assert s.events == [s.events[0]] + s.events[1..];
        }
        if step.Signal? && step.key == key {
          assert key in s'.events;
        }
      }
    }
  }

  /** The states of a run: each is the previous one after an enabled step. */
  ghost predicate Run(states: seq<State>, steps: seq<Step>) {
    && |states| == |steps| + 1
    && (exists capacity :: states[0] == Init(capacity))
    && forall i | 0 <= i < |steps| :: Enabled(states[i], steps[i]) && states[i + 1] == Apply(states[i], steps[i])
  }

  lemma {:induction false} NoWakeUpIsLost(states: seq<State>, steps: seq<Step>, i: nat)
    requires Run(states, steps) && i < |states|
    ensures NoLostWakeUp(states[i])
  {
    if i > 0 {
      NoWakeUpIsLost(states, steps, i - 1);
      StepKeepsNoLostWakeUp(states[i - 1], steps[i - 1]);
    }
  }

  /** Only draining the class removes a request; only a request for another instance replaces it. */
  lemma RequestsSurvive(s: State, step: Step, key: Key, pod: string)
    requires Enabled(s, step) && step != Drain(key)
    requires pod in Requests(s.pending, key)
    ensures var r := Requests(Apply(s, step).pending, key);
      && pod in r
      && (r[pod] == Requests(s.pending, key)[pod]
          || (step.Record? && step.key == key && step.lease.podName == pod
              && step.lease.podUid != Requests(s.pending, key)[pod].podUid && r[pod] == step.lease))
  {
  }

  // ----- Dropped signals -----

  /** The step is the dropped signal of the last thing that would have made a reconcile drain the class's requests. */
  predicate LosesWakeUp(s: State, step: Step, key: Key) {
    && HasRequests(s, key)
    && step == Signal(key) && |s.events| >= s.capacity && s.enqueuers[key] == 1
    && key !in s.events && key !in s.dirty && key !in s.retries
    && (key in s.running ==> s.running[key])
  }

  predicate Wakeful(s: State, key: Key) {
    HasRequests(s, key) ==> Awake(s, key)
  }

  /** Exactly those steps leave recorded requests with nothing to wake their class. */
  lemma WakeUpIsLostExactlyThen(s: State, step: Step, key: Key)
    requires QueueConsistent(s) && Enabled(s, step) && Wakeful(s, key)
    ensures !Wakeful(Apply(s, step), key) <==> LosesWakeUp(s, step, key)
  {
  }

  /** A class with requests is awake in every state of a run exactly if no step of the run loses its wake-up. */
  lemma {:induction false} AwakeExactlyIfNoWakeUpIsLost(states: seq<State>, steps: seq<Step>, key: Key)
    requires Run(states, steps)
    ensures (forall i | 0 <= i < |states| :: Wakeful(states[i], key)) <==>
      (forall i | 0 <= i < |steps| :: !LosesWakeUp(states[i], steps[i], key))
  {
    if forall i | 0 <= i < |states| :: Wakeful(states[i], key) {
      forall i | 0 <= i < |steps|
        ensures !LosesWakeUp(states[i], steps[i], key)
      {
        NoWakeUpIsLost(states, steps, i);
        assert Wakeful(states[i], key) && Wakeful(states[i + 1], key);
        WakeUpIsLostExactlyThen(states[i], steps[i], key);
      }
    }
    if forall i | 0 <= i < |steps| :: !LosesWakeUp(states[i], steps[i], key) {
      forall i | 0 <= i < |states|
        ensures Wakeful(states[i], key)
      {
        StaysWakeful(states, steps, key, i);
      }
    }
  }

  lemma {:induction false} StaysWakeful(states: seq<State>, steps: seq<Step>, key: Key, i: nat)
    requires Run(states, steps) && i < |states|
    requires forall j | 0 <= j < |steps| :: !LosesWakeUp(states[j], steps[j], key)
    ensures Wakeful(states[i], key)
  {
    if i > 0 {
      var j := i - 1;
      StaysWakeful(states, steps, key, j);
      NoWakeUpIsLost(states, steps, j);
      assert !LosesWakeUp(states[j], steps[j], key) && states[j + 1] == Apply(states[j], steps[j]);
      WakeUpIsLostExactlyThen(states[j], steps[j], key);
    }
  }

  lemma FirstRequest(pending: Pending, key: Key, lease: PendingLease)
    requires key !in pending
    ensures Enqueued(pending, key, lease) == pending[key := map[lease.podName := lease]]
  {
  }

  lemma FullChannelLoses(s: State, key: Key, lease: PendingLease)
    requires key !in s.pending && key !in s.enqueuers && |s.events| >= s.capacity && !Awake(s, key)
    ensures var recorded := Apply(s, Record(key, lease));
      && Enabled(recorded, Signal(key)) && LosesWakeUp(recorded, Signal(key), key)
      && Stranded(Apply(recorded, Signal(key)), key)
  {
    FirstRequest(s.pending, key, lease);
    assert lease.podName in Requests(s.pending[key := map[lease.podName := lease]], key);
  }

  lemma RunExtends(states: seq<State>, steps: seq<Step>, step: Step)
    requires Run(states, steps) && Enabled(states[|steps|], step)
    ensures Run(states + [Apply(states[|steps|], step)], steps + [step])
  {
    var longer := states + [Apply(states[|steps|], step)];
    assert longer[0] == states[0];
    forall i | 0 <= i < |steps|
      ensures Enabled(longer[i], (steps + [step])[i]) && longer[i + 1] == Apply(longer[i], (steps + [step])[i])
    {
      assert longer[i] == states[i] && longer[i + 1] == states[i + 1];
    }
  }

  /** One request of another class fills a channel with room for one event. */
  lemma ChannelFills(a: Key, lease: PendingLease) returns (states: seq<State>, steps: seq<Step>)
    ensures Run(states, steps)
    ensures var s := states[|steps|];
      |s.events| == s.capacity && forall b | b != a :: b !in s.pending && b !in s.enqueuers && !Awake(s, b)
  {
    states, steps := [Init(1)], [];
    RunExtends(states, steps, Record(a, lease));
    states, steps := states + [Apply(states[0], Record(a, lease))], steps + [Record(a, lease)];
    RunExtends(states, steps, Signal(a));
    states, steps := states + [Apply(states[1], Signal(a))], steps + [Signal(a)];
  }

  /** Such a step exists: two classes, a channel with room for one event, and one request each. */
  lemma DroppedSignalCanStrand(a: Key, b: Key, lease: PendingLease)
    requires a != b
    ensures exists states, steps :: Run(states, steps) && Stranded(states[|steps|], b)
  {
    var states, steps := ChannelFills(a, lease);
    var s := states[|steps|];
    FullChannelLoses(s, b, lease);
    RunExtends(states, steps, Record(b, lease));
    states, steps := states + [Apply(s, Record(b, lease))], steps + [Record(b, lease)];
    RunExtends(states, steps, Signal(b));
  }
}
