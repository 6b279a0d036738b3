/** Pending lease requests handed from the webhook to the controller (internal/utils/lease_tracker.go). */
module LeaseTracker {
  import opened Wrappers
  import opened Types

  const DEFAULT_BUFFER_SIZE: nat := 1024

  datatype PendingLease = PendingLease(podName: string, podUid: string, subject: Subject)

  /** Namespace and name of a WorkloadClass. */
  datatype Key = Key(namespace: string, name: string)

  /** WorkloadClass key -> Pod name -> request. */
  type Pending = map<Key, map<string, PendingLease>>

  function Requests(p: Pending, key: Key): map<string, PendingLease> {
    if key in p then p[key] else map[]
  }

  /** What the tracker keeps for a Pod name: an earlier request for the same instance wins. */
  function Keep(current: Option<PendingLease>, lease: PendingLease): PendingLease {
    if current.Some? && current.value.podUid == lease.podUid then current.value else lease
  }

  function Enqueued(p: Pending, key: Key, lease: PendingLease): Pending {
    var requests := Requests(p, key);
    p[key := requests[lease.podName := Keep(Lookup(requests, lease.podName), lease)]]
  }

  /** Every request is filed under its own Pod name. */
  predicate Filed(p: Pending) {
    forall k, n | k in p && n in p[k] :: p[k][n].podName == n
  }

  // ----- The order in which drained requests are returned -----

  predicate Less(a: string, b: string) {
    b != [] && (a == [] || a[0] < b[0] || (a[0] == b[0] && Less(a[1..], b[1..])))
  }

  lemma {:induction false} LessIsTotal(a: string, b: string)
    requires a != b
    ensures Less(a, b) || Less(b, a)
  {
    if a != [] && b != [] && a[0] == b[0] {
      assert a == [a[0]] + a[1..] && b == [b[0]] + b[1..];
      LessIsTotal(a[1..], b[1..]);
    }
  }

  lemma {:induction false} LessIsTransitive(a: string, b: string, c: string)
    requires Less(a, b) && Less(b, c)
    ensures Less(a, c)
  {
    if a != [] && a[0] == b[0] && b[0] == c[0] {
      LessIsTransitive(a[1..], b[1..], c[1..]);
    }
  }

  /** Names are compared letter by letter, and a name comes before its extensions. */
  lemma {:induction false} LessIsLexicographic(a: string, b: string, k: nat)
    requires k <= |a| && k <= |b| && a[..k] == b[..k]
    ensures k == |a| ==> (Less(a, b) <==> |a| < |b|)
    ensures k < |a| && k < |b| && a[k] < b[k] ==> Less(a, b) && !Less(b, a)
  {
    if k > 0 {
      assert a[..k][0] == b[..k][0] && a[1..][..k - 1] == a[..k][1..] && b[1..][..k - 1] == b[..k][1..];
      LessIsLexicographic(a[1..], b[1..], k - 1);
    }
  }

  predicate SortedByPod(leases: seq<PendingLease>) {
    forall i, j | 0 <= i < j < |leases| :: Less(leases[i].podName, leases[j].podName)
  }

  lemma SuffixIsGreater(leases: seq<PendingLease>, name: string, i: nat)
    requires SortedByPod(leases) && i <= |leases| && (i < |leases| ==> !Less(leases[i].podName, name))
    requires forall l | l in leases :: l.podName != name
    ensures forall j | i <= j < |leases| :: Less(name, leases[j].podName)
  {
    if i < |leases| {
      assert leases[i] in leases;
      LessIsTotal(leases[i].podName, name);
      forall j | i < j < |leases| ensures Less(name, leases[j].podName) {
        LessIsTransitive(name, leases[i].podName, leases[j].podName);
      }
    }
  }

  method Insert(leases: seq<PendingLease>, lease: PendingLease) returns (r: seq<PendingLease>)
    requires SortedByPod(leases)
    requires forall l | l in leases :: l.podName != lease.podName
    ensures SortedByPod(r) && multiset(r) == multiset(leases) + multiset{lease}
  {
    var i := 0;
    while i < |leases| && Less(leases[i].podName, lease.podName)
      invariant 0 <= i <= |leases|
      invariant forall j | 0 <= j < i :: Less(leases[j].podName, lease.podName)
    {
      i := i + 1;
    }
    SuffixIsGreater(leases, lease.podName, i);
    assert leases == leases[..i] + leases[i..];
    r := leases[..i] + [lease] + leases[i..];
    Spliced(leases, lease, i);
  }

  lemma Spliced(leases: seq<PendingLease>, lease: PendingLease, i: nat)
    requires SortedByPod(leases) && i <= |leases|
    requires forall j | 0 <= j < i :: Less(leases[j].podName, lease.podName)
    requires forall j | i <= j < |leases| :: Less(lease.podName, leases[j].podName)
    ensures SortedByPod(leases[..i] + [lease] + leases[i..])
  {
    var r := leases[..i] + [lease] + leases[i..];
    forall j, k | 0 <= j < k < |r|
      ensures Less(r[j].podName, r[k].podName)
    {
      assert r[j] == if j < i then leases[j] else if j == i then lease else leases[j - 1];
      assert r[k] == if k < i then leases[k] else if k == i then lease else leases[k - 1];
    }
  }

  class PendingLeaseTracker {
    var pending: Pending
    var events: seq<Key>
    const capacity: nat

    ghost predicate Valid()
      reads this
    {
      0 < capacity && |events| <= capacity && Filed(pending)
    }

    constructor (bufferSize: int)
      ensures Valid() && pending == map[] && events == []
      ensures capacity == if bufferSize <= 0 then 1024 else bufferSize
    {
      pending, events := map[], [];
      capacity := if bufferSize <= 0 then DEFAULT_BUFFER_SIZE else bufferSize;
    }

    /** Records the request, then signals: a full channel drops the signal and never the request. */
    method Enqueue(key: Key, podName: string, podUid: string, subject: Subject) returns (signaled: bool)
      requires Valid()
      modifies this
      ensures Valid()
      ensures pending == Enqueued(old(pending), key, PendingLease(podName, podUid, subject))
      ensures signaled <==> |old(events)| < capacity
      ensures events == if signaled then old(events) + [key] else old(events)
    {
      var leases := Requests(pending, key);
      if podName !in leases || leases[podName].podUid != podUid {
        leases := leases[podName := PendingLease(podName, podUid, subject)];
      }
      assert leases == Requests(pending, key)[podName :=
          Keep(Lookup(Requests(pending, key), podName), PendingLease(podName, podUid, subject))];
      pending := pending[key := leases];
      signaled := Signal(key);
    }

    method Signal(key: Key) returns (signaled: bool)
      requires Valid()
      modifies this`events
      ensures Valid()
      ensures signaled <==> |old(events)| < capacity
      ensures events == if signaled then old(events) + [key] else old(events)
    {
      signaled := |events| < capacity;
      if signaled {
        events := events + [key];
      }
    }

    /** Takes every request of the class out of the tracker: each exactly once, in the order of Pod names. */
    method Drain(key: Key) returns (drained: seq<PendingLease>)
      requires Valid()
      modifies this`pending
      ensures Valid() && pending == old(pending) - {key}
      ensures SortedByPod(drained)
      ensures forall l :: l in drained <==> Lookup(Requests(old(pending), key), l.podName) == Some(l)
    {
      var leases := Requests(pending, key);
      pending := pending - {key};
      drained := [];
      var names := leases.Keys;
      while names != {}
        invariant names <= leases.Keys && SortedByPod(drained) && pending == old(pending) - {key}
        invariant forall l :: l in drained <==> l.podName !in names && Lookup(leases, l.podName) == Some(l)
      {
        var n :| n in names;
        ghost var before := drained;
        drained := Insert(drained, leases[n]);
        forall l ensures l in drained <==> l in before || l == leases[n] {
          assert l in drained <==> l in multiset(drained);
        }
        names := names - {n};
      }
    }
  }
}
