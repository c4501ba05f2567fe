/** Queue objects of a staging namespace and the order in which they are served
    (api/v1/queue_types.go). */
module QueueTypes {

  datatype Option<+T> = None | Some(value: T)

  datatype Component = Component(name: string, repository: string, version: string)

  datatype QueueType = Upgrade | Reverify

  /** States an upgrade or reverify queue is saved in. Cancelling is never saved: it is set and left
      within one call of the staging controller. */
  datatype QueueState =
    | Waiting | CleaningBefore | DetectingImageMissing | Creating | Testing
    | Collecting | CleaningAfter | Deleting

  datatype Condition =
    | CleaningBeforeStarted | CleanedBefore | DeployStarted | Deployed
    | TestTriggered | RunnerResult | Tested | CleaningAfterStarted | CleanedAfter

  /** One Queue object. `rv` is the resource version the API server keeps for optimistic concurrency. */
  datatype Queue = Queue(
    name: string,
    bundle: string,
    components: seq<Component>,
    qtype: QueueType,
    noOfRetry: int,
    noOfOrder: int,
    nextProcessAt: Option<int>,
    state: QueueState,
    conditions: map<Condition, bool>,
    noOfProcessed: int,
    startDeployTime: Option<int>,
    startTestingTime: Option<int>,
    hasLogs: bool,
    imageMissing: bool,
    rv: nat)
  {
    predicate IsConditionTrue(c: Condition) { c in conditions && conditions[c] }

    function SetCondition(c: Condition, status: bool): Queue {
      this.(conditions := conditions[c := status])
    }

    predicate ContainSameComponent(dName: string, dComp: Component) {
      dName == name && dComp in components
    }

    /** Deployment and test both succeeded and the queue is not a re-verification. */
    predicate Passed() {
      IsConditionTrue(Deployed) && IsConditionTrue(Tested) && qtype != Reverify
    }
  }

  /** NextProcessAt lies after `now`. */
  predicate Postponed(now: int, q: Queue) {
    q.nextProcessAt.Some? && q.nextProcessAt.value > now
  }

  /** No NextProcessAt, or one that has passed. */
  predicate Due(now: int, q: Queue) {
    q.nextProcessAt.None? || q.nextProcessAt.value < now
  }

  /** QueueByNoOfOrder.Less with its clock reading as a parameter. */
  predicate Less(now: int, a: Queue, b: Queue) {
    if a.noOfOrder == b.noOfOrder then
      if a.nextProcessAt.None? then true
      else if b.nextProcessAt.None? then false
      else a.nextProcessAt.value < b.nextProcessAt.value
    else if Postponed(now, a) && Postponed(now, b) then
      a.nextProcessAt.value < b.nextProcessAt.value
    else if Postponed(now, a) then false
    else if Postponed(now, b) then true
    else a.noOfOrder < b.noOfOrder
  }

  // ----- Less is a strict weak order exactly on lists without twins

  /** Same order number and neither has a NextProcessAt: Less answers true both ways. */
  predicate Twins(a: Queue, b: Queue) {
    a.noOfOrder == b.noOfOrder && a.nextProcessAt.None? && b.nextProcessAt.None?
  }

  ghost predicate TwinFree(s: set<Queue>) {
    forall a, b :: a in s && b in s && a != b ==> !Twins(a, b)
  }

  predicate Incomparable(now: int, a: Queue, b: Queue) {
    !Less(now, a, b) && !Less(now, b, a)
  }

  /** Asymmetry, transitivity and transitivity of incomparability between different entries. */
  ghost predicate StrictWeakOrder(now: int, s: set<Queue>) {
    && (forall a, b :: a in s && b in s && a != b && Less(now, a, b) ==> !Less(now, b, a))
    && (forall a, b, c | a in s && b in s && c in s && a != b && b != c && a != c ::
          Less(now, a, b) && Less(now, b, c) ==> Less(now, a, c))
    && (forall a, b, c | a in s && b in s && c in s && a != b && b != c && a != c ::
          Incomparable(now, a, b) && Incomparable(now, b, c) ==> Incomparable(now, a, c))
  }

  lemma LessIsStrictWeakOrderIffTwinFree(now: int, s: set<Queue>)
    ensures StrictWeakOrder(now, s) <==> TwinFree(s)
  {
    if !TwinFree(s) {
      var a, b :| a in s && b in s && a != b && Twins(a, b);
      assert Less(now, a, b) && Less(now, b, a);
    }
  }

  // ----- Sort keys

  /** What an entry is sorted by: due entries by order (no NextProcessAt first, then by time),
      after them the postponed ones by time. */
  datatype Key = Key(group: int, major: int, minor: int, time: int)

  function KeyOf(now: int, q: Queue): Key {
    if Postponed(now, q) then Key(1, q.nextProcessAt.value, 0, 0)
    else if q.nextProcessAt.None? then Key(0, q.noOfOrder, 0, 0)
    else Key(0, q.noOfOrder, 1, q.nextProcessAt.value)
  }

  predicate KeyLess(k: Key, l: Key) {
    || k.group < l.group
    || (k.group == l.group &&
        (|| k.major < l.major
         || (k.major == l.major && (k.minor < l.minor || (k.minor == l.minor && k.time < l.time)))))
  }

  /** The strict part of Less is the key order; only twins are less than each other. */
  lemma LessByKey(now: int, a: Queue, b: Queue)
    ensures KeyLess(KeyOf(now, a), KeyOf(now, b)) <==> Less(now, a, b) && !Less(now, b, a)
    ensures Less(now, a, b) && Less(now, b, a) <==> Twins(a, b)
  {
  }

  function KeysOf(now: int, s: seq<Queue>): seq<Key> {
    seq(|s|, i requires 0 <= i < |s| => KeyOf(now, s[i]))
  }

  /** No entry stands after one that its key puts behind it; entries with equal keys in any order. */
  ghost predicate KeySorted(now: int, s: seq<Queue>) {
    forall i, j :: 0 <= i < j < |s| ==> !KeyLess(KeyOf(now, s[j]), KeyOf(now, s[i]))
  }

  /** What every sort.Sort result is taken to satisfy. */
  ghost predicate IsSortOf(now: int, s: seq<Queue>, t: seq<Queue>) {
    multiset(s) == multiset(t) && KeySorted(now, t)
  }

  lemma SamePermutationMembers<T>(s: seq<T>, t: seq<T>)
    requires multiset(s) == multiset(t)
    ensures |s| == |t|
    ensures forall x :: x in s <==> x in t
  {
    assert |multiset(s)| == |s| && |multiset(t)| == |t|;
    forall x ensures x in s <==> x in t {
      assert x in s <==> x in multiset(s);
      assert x in t <==> x in multiset(t);
    }
  }

  // ----- Two sorts of one list agree on the key at every position

  lemma MultisetDrop<T>(s: seq<T>, i: nat)
    requires i < |s|
    ensures multiset(s[..i] + s[i + 1..]) == multiset(s) - multiset{s[i]}
  {
    assert s == s[..i] + [s[i]] + s[i + 1..];
  }

  lemma KeysOfDrop(now: int, t: seq<Queue>, i: nat)
    requires i < |t|
    ensures multiset(KeysOf(now, t[..i] + t[i + 1..])) == multiset(KeysOf(now, t)) - multiset{KeyOf(now, t[i])}
  {
    assert KeysOf(now, t[..i] + t[i + 1..]) == KeysOf(now, t)[..i] + KeysOf(now, t)[i + 1..];
    MultisetDrop(KeysOf(now, t), i);
  }

  lemma MultisetRestore<T>(m: multiset<T>, n: multiset<T>, x: T)
    requires x in m && x in n && m - multiset{x} == n - multiset{x}
    ensures m == n
  {
    assert m == m - multiset{x} + multiset{x};
    assert n == n - multiset{x} + multiset{x};
  }

  lemma {:induction false} KeysOfPermutation(now: int, s: seq<Queue>, t: seq<Queue>)
    requires multiset(s) == multiset(t)
    ensures multiset(KeysOf(now, s)) == multiset(KeysOf(now, t))
    decreases |s|
  {
    SamePermutationMembers(s, t);
    if |s| > 0 {
      assert s[0] in t;
      var i :| 0 <= i < |t| && t[i] == s[0];
      var s', t' := s[..0] + s[1..], t[..i] + t[i + 1..];
      assert multiset(s') == multiset(t') by {
        MultisetDrop(t, i);
        MultisetDrop(s, 0);
      }
      KeysOfPermutation(now, s', t');
      KeysOfDrop(now, t, i);
      KeysOfDrop(now, s, 0);
      var k := KeyOf(now, s[0]);
      assert k in KeysOf(now, s) by { assert k == KeysOf(now, s)[0]; }
      assert k in KeysOf(now, t) by { assert k == KeysOf(now, t)[i]; }
      MultisetRestore(multiset(KeysOf(now, s)), multiset(KeysOf(now, t)), k);
    }
  }

  lemma {:induction false} SortedKeysUnique(k: seq<Key>, l: seq<Key>)
    requires multiset(k) == multiset(l)
    requires forall i, j :: 0 <= i < j < |k| ==> !KeyLess(k[j], k[i])
    requires forall i, j :: 0 <= i < j < |l| ==> !KeyLess(l[j], l[i])
    ensures k == l
    decreases |k|
  {
    SamePermutationMembers(k, l);
    if |k| > 0 {
      assert k[0] in l && l[0] in k;
      assert k[0] == l[0];
      assert k == [k[0]] + k[1..] && l == [l[0]] + l[1..];
      assert multiset(k[1..]) == multiset(k) - multiset{k[0]};
      assert multiset(l[1..]) == multiset(l) - multiset{l[0]};
      SortedKeysUnique(k[1..], l[1..]);
    }
  }

  lemma TwoSortsAgreeOnKeys(now: int, s: seq<Queue>, t: seq<Queue>)
    requires multiset(s) == multiset(t) && KeySorted(now, s) && KeySorted(now, t)
    ensures |s| == |t|
    ensures forall i :: 0 <= i < |s| ==> KeyOf(now, s[i]) == KeyOf(now, t[i])
  {
    KeysOfPermutation(now, s, t);
    SortedKeysUnique(KeysOf(now, s), KeysOf(now, t));
    assert |KeysOf(now, s)| == |s| && |KeysOf(now, t)| == |t|;
    forall i | 0 <= i < |s| ensures KeyOf(now, s[i]) == KeyOf(now, t[i]) {
      assert KeysOf(now, s)[i] == KeysOf(now, t)[i];
    }
  }

  // ----- sort.Sort on short slices: insertion from the left, moving an entry while it is Less

  function InsertLast(now: int, s: seq<Queue>, q: Queue): (r: seq<Queue>)
    ensures multiset(r) == multiset(s) + multiset{q}
    ensures |r| == |s| + 1
  {
    if s != [] && Less(now, q, s[|s| - 1]) then
      assert s == s[..|s| - 1] + [s[|s| - 1]];
      InsertLast(now, s[..|s| - 1], q) + [s[|s| - 1]]
    else s + [q]
  }

  lemma {:induction false} InsertLastSorted(now: int, s: seq<Queue>, q: Queue)
    requires KeySorted(now, s)
    ensures KeySorted(now, InsertLast(now, s, q))
  {
    if s != [] {
      LessByKey(now, q, s[|s| - 1]);
      if Less(now, q, s[|s| - 1]) {
        var s' := s[..|s| - 1];
        InsertLastSorted(now, s', q);
        var r := InsertLast(now, s', q);
        SamePermutationMembers(r, s' + [q]);
        forall i | 0 <= i < |r| ensures !KeyLess(KeyOf(now, s[|s| - 1]), KeyOf(now, r[i])) {
          assert r[i] in s' + [q];
          if r[i] != q {
            assert r[i] in s';
          }
        }
      }
    }
  }

  function SortQueues(now: int, s: seq<Queue>): (r: seq<Queue>)
    ensures multiset(r) == multiset(s)
    ensures |r| == |s|
  {
    if s == [] then []
    else
      assert s == s[..|s| - 1] + [s[|s| - 1]];
      InsertLast(now, SortQueues(now, s[..|s| - 1]), s[|s| - 1])
  }

  lemma {:induction false} SortQueuesSorts(now: int, s: seq<Queue>)
    ensures IsSortOf(now, s, SortQueues(now, s))
  {
    if s != [] {
      SortQueuesSorts(now, s[..|s| - 1]);
      InsertLastSorted(now, SortQueues(now, s[..|s| - 1]), s[|s| - 1]);
    }
  }
}
