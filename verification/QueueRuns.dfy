/** Whole runs of the staging queue list: insertions by priority, service in turn, and what goes
    wrong when two queues sort alike. */
module QueueRuns {
  import opened QueueTypes
  import opened QueueList
  import opened QueueOrdering
  import opened QueueRewriting
  import opened QueueController

  // ----- Any sequence of insertions

  /** A new queue is inserted by priority. */
  ghost predicate InsertStep(m: map<string, Queue>, m': map<string, Queue>, name: string, prios: seq<string>) {
    name !in m && Inserted(m, m', name, prios)
  }

  /** `ms` are the queue lists between insertions of the new queues `names`. */
  ghost predicate Insertions(ms: seq<map<string, Queue>>, names: seq<string>, prios: seq<string>) {
    && |ms| == |names| + 1
    && forall i {:trigger names[i]} :: 0 <= i < |names| ==> InsertStep(ms[i], ms[i + 1], names[i], prios)
  }

  lemma InsertKeeps(m: map<string, Queue>, m': map<string, Queue>, name: string, prios: seq<string>,
                    a: string, b: string)
    requires InsertStep(m, m', name, prios) && a in m && b in m
    ensures a in m' && Rank(m'[a], prios) == Rank(m[a], prios)
    ensures Before(m', a, b) <==> Before(m, a, b)
  {
    RankSameButOrder(m[a], m'[a], prios);
  }

  lemma {:induction false} InsertionsGrow(ms: seq<map<string, Queue>>, names: seq<string>, prios: seq<string>,
                                          i: nat, j: nat, a: string)
    requires Insertions(ms, names, prios) && i <= j < |ms| && a in ms[i]
    ensures a in ms[j] && Rank(ms[j][a], prios) == Rank(ms[i][a], prios)
  {
    if i < j {
      InsertionsGrow(ms, names, prios, i, j - 1, a);
      InsertKeeps(ms[j - 1], ms[j], names[j - 1], prios, a, a);
    }
  }

  /** A queue that came earlier is served before every later one of equal or lower priority. */
  lemma {:induction false} EarlierComesFirst(ms: seq<map<string, Queue>>, names: seq<string>,
                                             prios: seq<string>, i: nat, j: nat, a: string, b: string)
    requires Insertions(ms, names, prios) && i <= j < |ms|
    requires a in ms[i] && b !in ms[i] && b in ms[j]
    requires Rank(ms[i][a], prios) <= Rank(ms[j][b], prios)
    ensures Before(ms[j], a, b)
  {
    InsertionsGrow(ms, names, prios, i, j - 1, a);
    NewComesBehind(ms[j - 1], ms[j], names[j - 1], prios, a, b);
    if b in ms[j - 1] {
      InsertKeeps(ms[j - 1], ms[j], names[j - 1], prios, b, b);
      EarlierComesFirst(ms, names, prios, i, j - 1, a, b);
      InsertKeeps(ms[j - 1], ms[j], names[j - 1], prios, a, b);
    }
  }

  lemma NewComesBehind(m: map<string, Queue>, m': map<string, Queue>, name: string, prios: seq<string>,
                       a: string, b: string)
    requires InsertStep(m, m', name, prios) && a in m && b in m'
    requires Rank(m[a], prios) <= Rank(m'[b], prios)
    ensures b in m || Before(m', a, b)
  {
  }

  /** Queues that are there already keep their mutual order. */
  lemma {:induction false} OrderIsKept(ms: seq<map<string, Queue>>, names: seq<string>, prios: seq<string>,
                                       i: nat, j: nat, a: string, b: string)
    requires Insertions(ms, names, prios) && i <= j < |ms| && a in ms[i] && b in ms[i]
    ensures Before(ms[j], a, b) <==> Before(ms[i], a, b)
  {
    if i < j {
      OrderIsKept(ms, names, prios, i, j - 1, a, b);
      InsertionsGrow(ms, names, prios, i, j - 1, a);
      InsertionsGrow(ms, names, prios, i, j - 1, b);
      InsertKeeps(ms[j - 1], ms[j], names[j - 1], prios, a, b);
    }
  }

  /** Insertion keeps the numbers different and in the order of the ranks. */
  lemma InsertionKeepsSorted(now: int, m: map<string, Queue>, m': map<string, Queue>, name: string, prios: seq<string>)
    requires InsertStep(m, m', name, prios) && PrioritySorted(now, m, prios) && !Postponed(now, m'[name])
    ensures PrioritySorted(now, m', prios)
  {
    forall n | n in m' ensures !Postponed(now, m'[n]) {
      assert n != name ==> SameButOrder(m[n], m'[n]);
    }
    forall a, b | a in m' && b in m' && a != b
      ensures m'[a].noOfOrder != m'[b].noOfOrder
      ensures Rank(m'[a], prios) < Rank(m'[b], prios) ==> m'[a].noOfOrder < m'[b].noOfOrder
    {
      PairStaysSorted(now, m, m', name, prios, a, b);
    }
  }

  lemma PairStaysSorted(now: int, m: map<string, Queue>, m': map<string, Queue>, name: string, prios: seq<string>,
                        a: string, b: string)
    requires InsertStep(m, m', name, prios) && PrioritySorted(now, m, prios) && a in m' && b in m' && a != b
    ensures m'[a].noOfOrder != m'[b].noOfOrder
    ensures Rank(m'[a], prios) < Rank(m'[b], prios) ==> m'[a].noOfOrder < m'[b].noOfOrder
  {
    if a in m {
      RankSameButOrder(m[a], m'[a], prios);
    }
    if b in m {
      RankSameButOrder(m[b], m'[b], prios);
    }
    if a in m && b in m {
      assert Before(m', a, b) <==> Before(m, a, b);
      assert Before(m', b, a) <==> Before(m, b, a);
    }
  }

  predicate DueIn(now: int, m: map<string, Queue>, n: string) { n in m && !Postponed(now, m[n]) }

  /** Insertion i happens no earlier than the one before and leaves its queue due. */
  predicate AddedDue(ms: seq<map<string, Queue>>, names: seq<string>, ts: seq<int>, i: nat)
    requires i < |names| && |ts| == |ms| == |names| + 1
  {
    ts[i] <= ts[i + 1] && DueIn(ts[i + 1], ms[i + 1], names[i])
  }

  /** After any sequence of insertions the numbers still differ and follow the ranks. */
  lemma {:induction false} AlwaysPrioritySorted(ms: seq<map<string, Queue>>, names: seq<string>, prios: seq<string>,
                                                ts: seq<int>, k: nat)
    requires Insertions(ms, names, prios) && |ts| == |ms| && k < |ms| && PrioritySorted(ts[0], ms[0], prios)
    requires forall i :: 0 <= i < |names| ==> AddedDue(ms, names, ts, i)
    ensures PrioritySorted(ts[k], ms[k], prios)
  {
    if k > 0 {
      AlwaysPrioritySorted(ms, names, prios, ts, k - 1);
      assert AddedDue(ms, names, ts, k - 1) && InsertStep(ms[k - 1], ms[k], names[k - 1], prios);
      LaterSorted(ts[k - 1], ts[k], ms[k - 1], prios);
      InsertionKeepsSorted(ts[k], ms[k - 1], ms[k], names[k - 1], prios);
    }
  }

  lemma LaterSorted(now: int, later: int, m: map<string, Queue>, prios: seq<string>)
    requires PrioritySorted(now, m, prios) && now <= later
    ensures PrioritySorted(later, m, prios)
  {
  }

  // ----- Service in turn

  /** Every queue waits and is due. */
  ghost predicate AllReady(now: int, m: map<string, Queue>) {
    forall n :: n in m ==> m[n].state == Waiting && Due(now, m[n])
  }

  /** `line` names the queues in the order of their numbers. */
  ghost predicate InLine(m: map<string, Queue>, line: seq<string>) {
    && (forall i :: 0 <= i < |line| ==> line[i] in m)
    && (forall n :: n in m ==> m[n].name == n && n in line)
    && (forall i, j :: 0 <= i < j < |line| ==> m[line[i]].noOfOrder < m[line[j]].noOfOrder)
  }

  /** First hands out queue x at time t, its attempt fails at time t' below the retry limit, and
      SetRetryQueue puts it back. */
  ghost predicate Serves(t: int, t': int, m: map<string, Queue>, m': map<string, Queue>, x: string) {
    exists m1: map<string, Queue> :: HandsOut(t, m, m1, x) && PutsBack(t', m1, m', x)
  }

  ghost predicate HandsOut(t: int, m: map<string, Queue>, m1: map<string, Queue>, x: string) {
    OrdersOnly(m, m1) && RenumberedByFirst(t, m, m1) && x in m1 && m1[x].noOfOrder == 1
  }

  ghost predicate PutsBack(t': int, m1: map<string, Queue>, m': map<string, Queue>, x: string) {
    && x in m' && m' == m1[x := m'[x]] && m'[x].name == x && m'[x].state == Waiting
    && m'[x].nextProcessAt == Some(t') && LastNumber(t', m1, m'[x].noOfOrder)
  }

  /** In such a namespace the numbers of a sorted list increase, so the list is the line. */
  lemma LineIsSortedList(now: int, m: map<string, Queue>, line: seq<string>, list: seq<Queue>)
    requires InLine(m, line) && AllReady(now, m) && IsListing(m, list) && KeySorted(now, list)
    ensures |list| == |line| && forall i :: 0 <= i < |list| ==> list[i] == m[line[i]]
  {
    var other := seq(|line|, i requires 0 <= i < |line| => m[line[i]]);
    OtherIsListing(now, m, line, other);
    SameMultiset(m, list, other);
    SortsCoincide(now, m, line, list, other);
  }

  lemma SortsCoincide(now: int, m: map<string, Queue>, line: seq<string>, list: seq<Queue>, other: seq<Queue>)
    requires InLine(m, line) && AllReady(now, m) && IsListing(m, list) && IsListing(m, other)
    requires multiset(list) == multiset(other) && KeySorted(now, list) && KeySorted(now, other)
    ensures list == other
  {
    TwoSortsAgreeOnKeys(now, list, other);
    forall i | 0 <= i < |list| ensures list[i] == other[i] {
      assert list[i] in list && other[i] in other;
      SameKeySameNumber(now, list[i], other[i]);
      SameNumberSameQueue(m, line, list[i], other[i]);
    }
  }

  lemma SameKeySameNumber(now: int, a: Queue, b: Queue)
    requires Due(now, a) && Due(now, b) && KeyOf(now, a) == KeyOf(now, b)
    ensures a.noOfOrder == b.noOfOrder
  {
  }

  lemma SameNumberSameQueue(m: map<string, Queue>, line: seq<string>, a: Queue, b: Queue)
    requires InLine(m, line) && a.name in m && b.name in m && m[a.name] == a && m[b.name] == b
    requires a.noOfOrder == b.noOfOrder
    ensures a == b
  {
    var i :| 0 <= i < |line| && line[i] == a.name;
    var j :| 0 <= j < |line| && line[j] == b.name;
    assert i < j || j < i || i == j;
  }

  lemma OtherIsListing(now: int, m: map<string, Queue>, line: seq<string>, other: seq<Queue>)
    requires InLine(m, line) && AllReady(now, m)
    requires |other| == |line| && forall i :: 0 <= i < |line| ==> other[i] == m[line[i]]
    ensures IsListing(m, other) && KeySorted(now, other)
  {
    forall n | n in m ensures m[n] in other {
      var i :| 0 <= i < |line| && line[i] == n;
      assert other[i] == m[n];
    }
    DifferentPlaces(other);
  }

  lemma {:induction false} DifferentPlaces(s: seq<Queue>)
    requires forall i, j :: 0 <= i < j < |s| ==> s[i].noOfOrder < s[j].noOfOrder
    ensures forall q :: multiset(s)[q] <= 1
  {
    if s != [] {
      var k := |s| - 1;
      DifferentPlaces(s[..k]);
      assert s == s[..k] + [s[k]];
      assert s[k] !in s[..k];
    }
  }

  lemma SameMultiset(m: map<string, Queue>, s: seq<Queue>, t: seq<Queue>)
    requires IsListing(m, s) && IsListing(m, t)
    ensures multiset(s) == multiset(t)
  {
    forall q ensures q in s <==> q in t {
      assert q in s ==> m[q.name] in t;
      assert q in t ==> m[q.name] in s;
    }
    forall q ensures multiset(s)[q] == multiset(t)[q] {
      assert q in s <==> q in multiset(s);
      assert q in t <==> q in multiset(t);
    }
  }

  /** Serving takes the head of the line and puts it at the end. */
  lemma ServeRotates(t: int, t': int, m: map<string, Queue>, m': map<string, Queue>, x: string, line: seq<string>)
    requires InLine(m, line) && AllReady(t, m) && m != map[] && t <= t' && Serves(t, t', m, m', x)
    ensures line != [] && x == line[0] && InLine(m', line[1..] + [line[0]])
    ensures forall t'' :: t'' > t' ==> AllReady(t'', m')
  {
    var m1: map<string, Queue> :| HandsOut(t, m, m1, x) && PutsBack(t', m1, m', x);
    PickIsHead(t, m, m1, x, line);
    LastIsLength(t, t', m, m1, m'[x].noOfOrder, line);
    LineMoves(m, m1, m', x, line);
    ReadyAgain(t, t', m, m1, m', x);
  }

  lemma ReadyAgain(t: int, t': int, m: map<string, Queue>, m1: map<string, Queue>, m': map<string, Queue>, x: string)
    requires AllReady(t, m) && t <= t' && OrdersOnly(m, m1) && PutsBack(t', m1, m', x)
    ensures forall t'' :: t'' > t' ==> AllReady(t'', m')
  {
    forall t'', n | t'' > t' && n in m' ensures m'[n].state == Waiting && Due(t'', m'[n]) {
      if n != x {
        assert SameButOrder(m[n], m1[n]);
      }
    }
  }

  lemma LineMoves(m: map<string, Queue>, m1: map<string, Queue>, m': map<string, Queue>, x: string, line: seq<string>)
    requires InLine(m, line) && line != [] && x == line[0] && OrdersOnly(m, m1)
    requires forall i :: 0 <= i < |line| ==> line[i] in m1 && m1[line[i]].noOfOrder == i + 1
    requires x in m' && m' == m1[x := m'[x]] && m'[x].name == x && m'[x].noOfOrder == |line| + 1
    ensures InLine(m', line[1..] + [line[0]])
  {
    var next := line[1..] + [line[0]];
    forall i | 0 < i < |line| ensures line[i] != x {
      assert m[line[0]].noOfOrder < m[line[i]].noOfOrder;
    }
    forall i | 0 <= i < |next| ensures next[i] in m' && m'[next[i]].noOfOrder == i + 2 {
      if i < |line| - 1 {
        assert next[i] == line[i + 1];
      }
    }
    forall n | n in m' ensures m'[n].name == n && n in next {
      assert SameButOrder(m[n], m1[n]);
      var i :| 0 <= i < |line| && line[i] == n;
      assert next[if i == 0 then |line| - 1 else i - 1] == n;
    }
  }

  /** First picks the head of the line and numbers the line 1, 2, ... */
  lemma PickIsHead(t: int, m: map<string, Queue>, m1: map<string, Queue>, x: string, line: seq<string>)
    requires InLine(m, line) && AllReady(t, m) && m != map[] && RenumberedByFirst(t, m, m1) && x in m1 && m1.Keys == m.Keys
    requires m1[x].noOfOrder == 1
    ensures line != [] && x == line[0] && forall i :: 0 <= i < |line| ==> line[i] in m1 && m1[line[i]].noOfOrder == i + 1
  {
    var sorted: seq<Queue>, list: seq<Queue>, k: nat :| FirstNumbers(t, m, m1, sorted, list, k);
    LineIsSortedList(t, m, line, sorted);
    LineIsSortedList(t, m, line, list);
    assert sorted[0] in sorted;
    assert k == 0;
    forall i | 0 <= i < |line| ensures line[i] in m1 && m1[line[i]].noOfOrder == i + 1 {
      assert list[i].name == line[i];
    }
    assert x in line;
  }

  lemma LastIsLength(t: int, t': int, m: map<string, Queue>, m1: map<string, Queue>, order: int, line: seq<string>)
    requires AllReady(t, m) && t <= t' && OrdersOnly(m, m1) && LastNumber(t', m1, order) && InLine(m, line) && line != []
    requires forall i :: 0 <= i < |line| ==> line[i] in m1 && m1[line[i]].noOfOrder == i + 1
    ensures order == |line| + 1
  {
    var n :| n in m1 && order == m1[n].noOfOrder + 1 && forall o :: o in m1 ==> !KeyLess(KeyOf(t', m1[n]), KeyOf(t', m1[o]));
    var i :| 0 <= i < |line| && line[i] == n;
    var last := line[|line| - 1];
    assert SameButOrder(m[n], m1[n]) && SameButOrder(m[last], m1[last]);
    assert !KeyLess(KeyOf(t', m1[n]), KeyOf(t', m1[last]));
  }

  /** A run in which every served queue fails below the retry limit and nothing is added. */
  ghost predicate ServiceRun(ms: seq<map<string, Queue>>, xs: seq<string>, start: seq<int>, end: seq<int>) {
    && |ms| == |xs| + 1 && |start| == |end| == |xs|
    && (forall i {:trigger xs[i]} :: 0 <= i < |xs| ==>
          start[i] <= end[i] && Serves(start[i], end[i], ms[i], ms[i + 1], xs[i]) && (i > 0 ==> end[i - 1] < start[i]))
  }

  function Turn(i: nat, n: nat): (r: nat)
    requires n > 0
    ensures r < n
  {
    if i < n then i else Turn(i - n, n)
  }

  /** `r` is the line after i services. */
  ghost predicate Turned(line: seq<string>, r: seq<string>, i: nat) {
    |r| == |line| > 0 && forall j :: 0 <= j < |line| ==> r[j] == line[Turn(i + j, |line|)]
  }

  lemma TurnedStep(line: seq<string>, r: seq<string>, i: nat)
    requires Turned(line, r, i)
    ensures Turned(line, r[1..] + [r[0]], i + 1)
  {
    var n, r' := |line|, r[1..] + [r[0]];
    forall j | 0 <= j < n ensures r'[j] == line[Turn(i + 1 + j, n)] {
      if j < n - 1 {
        assert r'[j] == r[j + 1] && i + 1 + j == i + (j + 1);
      } else {
        assert Turn(i + n, n) == Turn(i, n) && r'[j] == r[0] && r[0] == line[Turn(i + 0, n)];
      }
    }
  }

  ghost predicate LineAt(t: int, m: map<string, Queue>, line: seq<string>, r: seq<string>, i: nat) {
    Turned(line, r, i) && InLine(m, r) && AllReady(t, m)
  }

  lemma OneService(ms: seq<map<string, Queue>>, xs: seq<string>, start: seq<int>, end: seq<int>, i: nat)
    requires ServiceRun(ms, xs, start, end) && 0 < i < |xs|
    ensures start[i - 1] <= end[i - 1] < start[i] && Serves(start[i - 1], end[i - 1], ms[i - 1], ms[i], xs[i - 1])
  {
    var x, y := xs[i - 1], xs[i];
  }

  lemma {:induction false} LineAfter(ms: seq<map<string, Queue>>, xs: seq<string>, start: seq<int>, end: seq<int>,
                                     line: seq<string>, i: nat)
    returns (r: seq<string>)
    requires ServiceRun(ms, xs, start, end) && i < |xs|
    requires LineAt(start[0], ms[0], line, line, 0)
    ensures LineAt(start[i], ms[i], line, r, i)
  {
    hide LineAt, Serves;
    if i == 0 {
      r := line;
    } else {
      var r0 := LineAfter(ms, xs, start, end, line, i - 1);
      OneService(ms, xs, start, end, i);
      r := OneMore(start[i - 1], end[i - 1], start[i], ms[i - 1], ms[i], xs[i - 1], line, r0, i - 1);
    }
  }

  lemma OneMore(t: int, t': int, t'': int, m: map<string, Queue>, m': map<string, Queue>, x: string,
                line: seq<string>, r: seq<string>, i: nat)
    returns (r': seq<string>)
    requires LineAt(t, m, line, r, i) && t <= t' < t'' && Serves(t, t', m, m', x)
    ensures LineAt(t'', m', line, r', i + 1)
  {
    assert r[0] in m;
    ServeRotates(t, t', m, m', x, r);
    TurnedStep(line, r, i);
    r' := r[1..] + [r[0]];
  }

  /** Strict round robin: the first services go along the line, and every later one to the queue that
      was served one round before. */
  lemma RoundRobin(ms: seq<map<string, Queue>>, xs: seq<string>, start: seq<int>, end: seq<int>, line: seq<string>, i: nat)
    requires ServiceRun(ms, xs, start, end) && i < |xs|
    requires line != [] && InLine(ms[0], line) && AllReady(start[0], ms[0])
    ensures xs[i] == if i < |line| then line[i] else xs[i - |line|]
  {
    ServedAt(ms, xs, start, end, line, i);
    if i >= |line| {
      ServedAt(ms, xs, start, end, line, i - |line|);
    }
  }

  lemma ServedAt(ms: seq<map<string, Queue>>, xs: seq<string>, start: seq<int>, end: seq<int>, line: seq<string>, i: nat)
    requires ServiceRun(ms, xs, start, end) && i < |xs|
    requires line != [] && InLine(ms[0], line) && AllReady(start[0], ms[0])
    ensures xs[i] == line[Turn(i, |line|)]
  {
    assert Turned(line, line, 0);
    var r := LineAfter(ms, xs, start, end, line, i);
    TurnedHead(start[i], end[i], ms[i], ms[i + 1], xs[i], line, r, i);
  }

  lemma TurnedHead(t: int, t': int, m: map<string, Queue>, m': map<string, Queue>, x: string, line: seq<string>,
                   r: seq<string>, i: nat)
    requires LineAt(t, m, line, r, i) && Serves(t, t', m, m', x)
    ensures line != [] && x == line[Turn(i, |line|)]
  {
    assert r[0] in m && r[0] == line[Turn(i + 0, |line|)];
    ServesHead(t, t', m, m', x, r);
  }

  lemma ServesHead(t: int, t': int, m: map<string, Queue>, m': map<string, Queue>, x: string, line: seq<string>)
    requires InLine(m, line) && AllReady(t, m) && m != map[] && Serves(t, t', m, m', x)
    ensures line != [] && x == line[0]
  {
    var m1: map<string, Queue> :| HandsOut(t, m, m1, x) && PutsBack(t', m1, m', x);
    PickIsHead(t, m, m1, x, line);
  }

  // ----- Queues that sort alike

  /** The entry that First hands out is settled by the sort only if nobody else sorts like it. */
  lemma OwnKeyOrTakenOver(now: int, m: map<string, Queue>, sorted: seq<Queue>, k: nat)
    requires IsListing(m, sorted) && KeySorted(now, sorted) && k < |sorted|
    ensures sorted[k].name in m
    ensures OwnKey(now, m, sorted[k].name) <==>
            forall list: seq<Queue> :: IsSortOf(now, sorted, list) ==> k < |list| && list[k] == sorted[k]
  {
    assert sorted[k] in sorted;
    if OwnKey(now, m, sorted[k].name) {
      forall list: seq<Queue> | IsSortOf(now, sorted, list) ensures k < |list| && list[k] == sorted[k] {
        PickedAgain(now, m, sorted, list, k);
      }
    } else {
      var list := AnotherSort(now, m, sorted, k);
    }
  }

  lemma AnotherSort(now: int, m: map<string, Queue>, sorted: seq<Queue>, k: nat) returns (list: seq<Queue>)
    requires IsListing(m, sorted) && KeySorted(now, sorted) && k < |sorted|
    requires sorted[k].name in m && !OwnKey(now, m, sorted[k].name)
    ensures IsSortOf(now, sorted, list) && |list| == |sorted| && list[k] != sorted[k]
  {
    assert sorted[k] in sorted;
    var y :| y in m && y != sorted[k].name && KeyOf(now, m[y]) == KeyOf(now, sorted[k]);
    assert m[y] in sorted;
    var j :| 0 <= j < |sorted| && sorted[j] == m[y];
    list := sorted[k := sorted[j]][j := sorted[k]];
    SwappedSort(now, sorted, k, j);
  }

  lemma SwappedSort(now: int, sorted: seq<Queue>, k: nat, j: nat)
    requires KeySorted(now, sorted) && k < |sorted| && j < |sorted| && KeyOf(now, sorted[j]) == KeyOf(now, sorted[k])
    ensures IsSortOf(now, sorted, sorted[k := sorted[j]][j := sorted[k]])
  {
    var list := sorted[k := sorted[j]][j := sorted[k]];
    assert multiset(list) == multiset(sorted);
    assert forall i :: 0 <= i < |list| ==> KeyOf(now, list[i]) == KeyOf(now, sorted[i]);
  }

  /** Somewhere a stands before b. */
  ghost predicate Ahead(s: seq<Queue>, a: Queue, b: Queue) {
    exists i, j :: 0 <= i < j < |s| && s[i] == a && s[j] == b
  }

  lemma AheadOfLast(s: seq<Queue>, a: Queue, last: Queue)
    requires a in s
    ensures Ahead(s + [last], a, last)
  {
    var i :| 0 <= i < |s| && s[i] == a;
    assert (s + [last])[i] == a && (s + [last])[|s|] == last;
  }

  lemma AheadKept(s: seq<Queue>, a: Queue, b: Queue, last: Queue)
    requires Ahead(s, a, b)
    ensures Ahead(s + [last], a, b)
  {
    var i, j :| 0 <= i < j < |s| && s[i] == a && s[j] == b;
    assert (s + [last])[i] == a && (s + [last])[j] == b;
  }

  lemma {:induction false} InsertKeepsAhead(now: int, s: seq<Queue>, q: Queue, a: Queue, b: Queue)
    requires Ahead(s, a, b)
    ensures Ahead(InsertLast(now, s, q), a, b)
  {
    var init, last := s[..|s| - 1], s[|s| - 1];
    if Less(now, q, last) {
      var i, j :| 0 <= i < j < |s| && s[i] == a && s[j] == b;
      assert init[i] == a;
      if j < |s| - 1 {
        assert init[j] == b;
        InsertKeepsAhead(now, init, q, a, b);
        AheadKept(InsertLast(now, init, q), a, b, last);
      } else {
        assert a in multiset(InsertLast(now, init, q));
        AheadOfLast(InsertLast(now, init, q), a, b);
      }
    } else {
      AheadKept(s, a, b, q);
    }
  }

  /** An entry is inserted before its twin. */
  lemma {:induction false} InsertedBeforeTwin(now: int, s: seq<Queue>, q: Queue, a: Queue)
    requires KeySorted(now, s) && a in s && Twins(a, q)
    ensures Ahead(InsertLast(now, s, q), q, a)
  {
    var init, last := s[..|s| - 1], s[|s| - 1];
    var i :| 0 <= i < |s| && s[i] == a;
    assert i < |s| - 1 ==> !KeyLess(KeyOf(now, last), KeyOf(now, a));
    assert Less(now, q, last);
    assert q in multiset(InsertLast(now, init, q));
    if i == |s| - 1 {
      AheadOfLast(InsertLast(now, init, q), q, a);
    } else {
      assert init[i] == a;
      InsertedBeforeTwin(now, init, q, a);
      AheadKept(InsertLast(now, init, q), q, a, last);
    }
  }

  /** Every sort turns two twins round. */
  lemma {:induction false} SortTurnsTwins(now: int, s: seq<Queue>, a: Queue, b: Queue)
    requires Ahead(s, a, b) && Twins(a, b)
    ensures Ahead(SortQueues(now, s), b, a)
  {
    var init, last := s[..|s| - 1], s[|s| - 1];
    var i, j :| 0 <= i < j < |s| && s[i] == a && s[j] == b;
    assert init[i] == a;
    if j == |s| - 1 {
      SortQueuesSorts(now, init);
      assert a in multiset(SortQueues(now, init));
      InsertedBeforeTwin(now, SortQueues(now, init), b, a);
    } else {
      assert init[j] == b;
      SortTurnsTwins(now, init, a, b);
      InsertKeepsAhead(now, SortQueues(now, init), last, b, a);
    }
  }

  /** First on a list in which the running queue has exactly one twin: wherever the first sort put the
      running queue, after the second sort its twin stands there and is handed out in its place. */
  lemma TwinTakesOver(now: int, list: seq<Queue>, running: Queue, twin: Queue, k: nat)
    requires running in list && twin in list && running != twin && Twins(running, twin)
    requires forall q :: multiset(list)[q] <= 1
    requires forall q :: q in list && KeyOf(now, q) == KeyOf(now, running) ==> q == running || q == twin
    requires k < |list| && SortQueues(now, list)[k] == running
    ensures SortQueues(now, SortQueues(now, list))[k] == twin
  {
    assert KeyOf(now, twin) == KeyOf(now, running);
    hide KeyOf, KeySorted, SortQueues;
    var sorted := SortQueues(now, list);
    SortQueuesSorts(now, list);
    SamePermutationMembers(list, sorted);
    var j :| 0 <= j < |sorted| && sorted[j] == twin;
    assert forall i :: 0 <= i < |sorted| && KeyOf(now, sorted[i]) == KeyOf(now, running) ==> i == k || i == j by {
      forall i | 0 <= i < |sorted| && KeyOf(now, sorted[i]) == KeyOf(now, running) ensures i == k || i == j {
        assert sorted[i] in list;
        SamePlace(sorted, i, if sorted[i] == running then k else j);
      }
    }
    if k < j {
      TwinsSwap(now, sorted, running, twin, k, j);
    } else {
      TwinsSwap(now, sorted, twin, running, j, k);
    }
  }

  lemma SamePlace(s: seq<Queue>, i: nat, j: nat)
    requires i < |s| && j < |s| && s[i] == s[j] && forall q :: multiset(s)[q] <= 1
    ensures i == j
  {
    if i < j {
      OnePlace(s, i, j);
    } else if j < i {
      OnePlace(s, j, i);
    }
  }

  /** Sorting a sorted list again exchanges the only two entries of a key. */
  lemma TwinsSwap(now: int, sorted: seq<Queue>, a: Queue, b: Queue, lo: nat, hi: nat)
    requires KeySorted(now, sorted) && lo < hi < |sorted| && sorted[lo] == a && sorted[hi] == b && Twins(a, b)
    requires forall i :: 0 <= i < |sorted| && KeyOf(now, sorted[i]) == KeyOf(now, a) ==> i == lo || i == hi
    ensures var again := SortQueues(now, sorted); again[lo] == b && again[hi] == a
  {
    var again := SortQueues(now, sorted);
    SortTurnsTwins(now, sorted, a, b);
    var i, i' :| 0 <= i < i' < |again| && again[i] == b && again[i'] == a;
    assert KeyOf(now, sorted[i]) == KeyOf(now, b) && KeyOf(now, sorted[i']) == KeyOf(now, a) by {
      SortQueuesSorts(now, sorted);
      TwoSortsAgreeOnKeys(now, sorted, again);
    }
  }
}
