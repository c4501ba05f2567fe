/** The component worklist of a team configuration (internal/config/controller.go, internal/util/config/config.go). */
module ConfigComponents {

  datatype Dependency = Dependency(parent: string, name: string, chart: string, image: string, values: string,
                                   source: string, schedules: seq<string>)

  datatype Component = Component(parent: string, name: string, chart: string, image: string, values: string,
                                 source: string, schedules: seq<string>, dependencies: seq<Dependency>)

  const NO_CHART := ""
  const NO_VALUES := ""

  /** A dependency as a component of its own: chart and values are dropped, and it has no dependencies. */
  function Convert(d: Dependency, parent: Component): Component {
    Component(parent.name, d.name, NO_CHART, d.image, NO_VALUES, d.source, d.schedules, [])
  }

  // ----- assignParent

  function WithParent(c: Component): (r: Component)
    ensures r == c.(dependencies := r.dependencies) && |r.dependencies| == |c.dependencies|
    ensures forall j :: 0 <= j < |c.dependencies| ==> r.dependencies[j] == c.dependencies[j].(parent := c.name)
  {
    c.(dependencies := seq(|c.dependencies|, j requires 0 <= j < |c.dependencies| =>
      c.dependencies[j].(parent := c.name)))
  }

  function WithParents(used: seq<Component>): (r: seq<Component>)
    ensures |r| == |used| && forall i :: 0 <= i < |used| ==> r[i] == WithParent(used[i])
  {
    seq(|used|, i requires 0 <= i < |used| => WithParent(used[i]))
  }

  method AssignParent(used: seq<Component>) returns (r: seq<Component>)
    ensures r == WithParents(used)
  {
    r := used;
    for i := 0 to |used|
      invariant |r| == |used|
      invariant forall k :: 0 <= k < i ==> r[k] == WithParent(used[k])
      invariant forall k :: i <= k < |used| ==> r[k] == used[k]
    {
      var ds := used[i].dependencies;
      for j := 0 to |ds|
        invariant |ds| == |used[i].dependencies|
        invariant forall k :: 0 <= k < j ==> ds[k] == used[i].dependencies[k].(parent := used[i].name)
        invariant forall k :: j <= k < |ds| ==> ds[k] == used[i].dependencies[k]
      {
        ds := ds[j := ds[j].(parent := used[i].name)];
      }
      assert ds == WithParent(used[i]).dependencies;
      r := r[i := used[i].(dependencies := ds)];
    }
  }

  // ----- What the worklist visits

  function DependenciesOf(c: Component): (r: seq<Component>)
    ensures |r| == |c.dependencies|
    ensures forall i :: 0 <= i < |r| ==> r[i] == Convert(c.dependencies[i], c)
  {
    seq(|c.dependencies|, i requires 0 <= i < |c.dependencies| => Convert(c.dependencies[i], c))
  }

  function AllDependencies(cs: seq<Component>): seq<Component> {
    if cs == [] then [] else DependenciesOf(cs[0]) + AllDependencies(cs[1..])
  }

  /** The top-level components, then every dependency. */
  function Expanded(used: seq<Component>): seq<Component> { used + AllDependencies(used) }

  /** The measure: the pending items plus their unexpanded dependencies. */
  function Pending(cs: seq<Component>): nat {
    if cs == [] then 0 else 1 + |cs[0].dependencies| + Pending(cs[1..])
  }

  lemma {:induction false} PendingAppends(a: seq<Component>, b: seq<Component>)
    ensures Pending(a + b) == Pending(a) + Pending(b)
  {
    if a == [] {
      assert a + b == b;
    } else {
      assert (a + b)[1..] == a[1..] + b;
      PendingAppends(a[1..], b);
    }
  }

  lemma {:induction false} LeavesPendOnce(cs: seq<Component>)
    requires forall c :: c in cs ==> c.dependencies == []
    ensures Pending(cs) == |cs|
  {
    if cs != [] {
      assert cs[0] in cs;
      LeavesPendOnce(cs[1..]);
    }
  }

  lemma {:induction false} DependenciesAppend(a: seq<Component>, b: seq<Component>)
    ensures AllDependencies(a + b) == AllDependencies(a) + AllDependencies(b)
  {
    if a == [] {
      assert a + b == b;
    } else {
      assert (a + b)[1..] == a[1..] + b;
      DependenciesAppend(a[1..], b);
    }
  }

  lemma {:induction false} LeavesHaveNone(cs: seq<Component>)
    requires forall c :: c in cs ==> c.dependencies == []
    ensures AllDependencies(cs) == []
  {
    if cs != [] {
      assert cs[0] in cs;
      LeavesHaveNone(cs[1..]);
    }
  }

  /** Taking the head off and appending its dependencies keeps what is still to be visited after it,
      and lowers the measure. */
  lemma OneRound(cs: seq<Component>)
    requires cs != []
    ensures Expanded(cs) == [cs[0]] + Expanded(cs[1..] + DependenciesOf(cs[0]))
    ensures Pending(cs[1..] + DependenciesOf(cs[0])) < Pending(cs)
  {
    var ds := DependenciesOf(cs[0]);
    LeavesPendOnce(ds);
    PendingAppends(cs[1..], ds);
    RoundKeepsOrder(cs);
  }

  lemma RoundKeepsOrder(cs: seq<Component>)
    requires cs != []
    ensures Expanded(cs) == [cs[0]] + Expanded(cs[1..] + DependenciesOf(cs[0]))
  {
    var ds := DependenciesOf(cs[0]);
    LeavesHaveNone(ds);
    DependenciesAppend(cs[1..], ds);
    Reassociate(cs[0], cs[1..], ds, AllDependencies(cs[1..]));
    assert cs == [cs[0]] + cs[1..];
    assert AllDependencies(cs[1..] + ds) == AllDependencies(cs[1..]);
  }

  lemma Reassociate<T>(h: T, t: seq<T>, d: seq<T>, r: seq<T>)
    ensures ([h] + t) + (d + r) == [h] + ((t + d) + r)
  {
  }

  // ----- GetComponents

  /** Component i is the first of its name. */
  ghost predicate IsFirst(cs: seq<Component>, i: int) {
    0 <= i < |cs| && forall j :: 0 <= j < i ==> cs[j].name != cs[i].name
  }

  /** The map holds exactly the names that occur, each with the first component of that name. */
  ghost predicate FirstWins(cs: seq<Component>, m: map<string, Component>) {
    && (forall c :: c in cs ==> c.name in m)
    && (forall i {:trigger cs[i]} :: IsFirst(cs, i) ==> cs[i].name in m && m[cs[i].name] == cs[i])
    && (forall n :: n in m ==> m[n] in cs && m[n].name == n)
  }

  lemma FirstWinsExtends(cs: seq<Component>, m: map<string, Component>, c: Component)
    requires FirstWins(cs, m)
    ensures FirstWins(cs + [c], if c.name in m then m else m[c.name := c])
  {
    var cs', m' := cs + [c], if c.name in m then m else m[c.name := c];
    forall i {:trigger cs'[i]} | IsFirst(cs', i) ensures cs'[i].name in m' && m'[cs'[i].name] == cs'[i] {
      if i < |cs| {
        assert cs'[i] == cs[i];
        assert IsFirst(cs, i) by {
          forall j | 0 <= j < i ensures cs[j].name != cs[i].name {
            assert cs'[j] == cs[j];
          }
        }
        assert cs[i] in cs;
      } else {
        assert c.name !in m by {
          forall k | 0 <= k < |cs| ensures cs[k].name != c.name {
            assert cs'[k] == cs[k];
          }
        }
      }
    }
  }

  method AppendDependencies(comps: seq<Component>, comp: Component) returns (r: seq<Component>)
    ensures r == comps + DependenciesOf(comp)
  {
    r := comps;
    for j := 0 to |comp.dependencies|
      invariant r == comps + DependenciesOf(comp)[..j]
    {
      r := r + [Convert(comp.dependencies[j], comp)];
    }
  }

  method GetComponents(config: seq<Component>) returns (filtered: map<string, Component>)
    ensures FirstWins(Expanded(WithParents(config)), filtered)
  {
    var used := AssignParent(config);
    filtered := map[];
    var comps := used;
    ghost var done := [];
    assert [] + Expanded(comps) == Expanded(used);
    while |comps| > 0
      invariant done + Expanded(comps) == Expanded(used)
      invariant FirstWins(done, filtered)
      decreases Pending(comps)
    {
      OneRound(comps);
      ghost var visited := comps;
      var comp := comps[0];
      comps := comps[1..];
      comps := AppendDependencies(comps, comp);
      FirstWinsExtends(done, filtered, comp);
      assert done + Expanded(visited) == done + [comp] + Expanded(comps);
      done := done + [comp];
      if comp.name !in filtered {
        filtered := filtered[comp.name := comp];
      }
    }
    assert done == Expanded(used) by { assert comps == [] && Expanded(comps) == []; }
  }

  // ----- What the map says about the configuration

  ghost predicate IsTop(config: seq<Component>, n: string) { exists i :: 0 <= i < |config| && config[i].name == n }

  ghost predicate IsDependency(config: seq<Component>, n: string) {
    exists i, j :: 0 <= i < |config| && 0 <= j < |config[i].dependencies| && config[i].dependencies[j].name == n
  }

  /** Dependency j of component i is the first one called n, in the order of the configuration. */
  ghost predicate FirstDependency(config: seq<Component>, i: int, j: int, n: string) {
    && 0 <= i < |config| && 0 <= j < |config[i].dependencies| && config[i].dependencies[j].name == n
    && (forall l :: 0 <= l < j ==> config[i].dependencies[l].name != n)
    && (forall k, l :: 0 <= k < i && 0 <= l < |config[k].dependencies| ==> config[k].dependencies[l].name != n)
  }

  lemma {:induction false} DependencyIsVisited(cs: seq<Component>, i: nat, j: nat)
    requires i < |cs| && j < |cs[i].dependencies|
    ensures Convert(cs[i].dependencies[j], cs[i]) in AllDependencies(cs)
  {
    if i == 0 {
      assert DependenciesOf(cs[0])[j] in DependenciesOf(cs[0]);
    } else {
      DependencyIsVisited(cs[1..], i - 1, j);
    }
  }

  lemma {:induction false} VisitedIsDependency(cs: seq<Component>, c: Component) returns (i: nat, j: nat)
    requires c in AllDependencies(cs)
    ensures i < |cs| && j < |cs[i].dependencies| && c == Convert(cs[i].dependencies[j], cs[i])
  {
    if c in DependenciesOf(cs[0]) {
      i := 0;
      j :| 0 <= j < |DependenciesOf(cs[0])| && DependenciesOf(cs[0])[j] == c;
    } else {
      i, j := VisitedIsDependency(cs[1..], c);
      i := i + 1;
    }
  }

  /** Parents assigned to dependencies are not what the worklist passes on. */
  lemma {:induction false} ParentsDoNotMatter(cs: seq<Component>)
    ensures AllDependencies(WithParents(cs)) == AllDependencies(cs)
  {
    if cs != [] {
      assert DependenciesOf(WithParent(cs[0])) == DependenciesOf(cs[0]);
      assert WithParents(cs)[1..] == WithParents(cs[1..]);
      ParentsDoNotMatter(cs[1..]);
    }
  }

  lemma {:induction false} FirstDependencyIsFirst(cs: seq<Component>, i: nat, j: nat, n: string) returns (k: nat)
    requires FirstDependency(cs, i, j, n)
    ensures k < |AllDependencies(cs)| && AllDependencies(cs)[k] == Convert(cs[i].dependencies[j], cs[i])
    ensures IsFirst(AllDependencies(cs), k)
  {
    var ds := DependenciesOf(cs[0]);
    if i == 0 {
      k := j;
    } else {
      forall l | 0 <= l < |ds| ensures ds[l].name != n {
        assert cs[0].dependencies[l].name != n;
      }
      assert FirstDependency(cs[1..], i - 1, j, n) by {
        forall k, l | 0 <= k < i - 1 && 0 <= l < |cs[1..][k].dependencies|
          ensures cs[1..][k].dependencies[l].name != n
        {
          assert cs[1..][k] == cs[k + 1];
        }
      }
      var k0 := FirstDependencyIsFirst(cs[1..], i - 1, j, n);
      k := |ds| + k0;
      assert AllDependencies(cs) == ds + AllDependencies(cs[1..]);
    }
  }

  lemma NamesAreTopOrDependency(config: seq<Component>, m: map<string, Component>, n: string)
    requires FirstWins(Expanded(WithParents(config)), m)
    ensures n in m <==> IsTop(config, n) || IsDependency(config, n)
  {
    var used := WithParents(config);
    ParentsDoNotMatter(config);
    if n in m && m[n] !in used {
      assert m[n] in AllDependencies(config);
      var i, j := VisitedIsDependency(config, m[n]);
    }
    if IsTop(config, n) {
      var i :| 0 <= i < |config| && config[i].name == n;
      assert used[i] in Expanded(used);
    }
    if IsDependency(config, n) {
      var i, j :| 0 <= i < |config| && 0 <= j < |config[i].dependencies| && config[i].dependencies[j].name == n;
      DependencyIsVisited(config, i, j);
      assert Convert(config[i].dependencies[j], config[i]) in Expanded(used);
    }
  }

  /** A top-level component beats every dependency of its name and every later component. */
  lemma TopLevelWins(config: seq<Component>, m: map<string, Component>, i: nat)
    requires FirstWins(Expanded(WithParents(config)), m) && IsFirst(config, i)
    ensures config[i].name in m && m[config[i].name] == WithParent(config[i])
  {
    var used := WithParents(config);
    var all := Expanded(used);
    assert all[i] == WithParent(config[i]);
    assert IsFirst(all, i) by {
      forall j | 0 <= j < i ensures all[j].name != all[i].name {
        assert all[j] == WithParent(config[j]);
      }
    }
  }

  /** Otherwise the first dependency of the name wins, and the component that lists it is its parent. */
  lemma FirstDependencyWins(config: seq<Component>, m: map<string, Component>, i: nat, j: nat, n: string)
    requires FirstWins(Expanded(WithParents(config)), m)
    requires FirstDependency(config, i, j, n) && !IsTop(config, n)
    ensures n in m && m[n].name == n && m[n].parent == config[i].name
    ensures m[n].chart == "" && m[n].values == "" && m[n].dependencies == []
    ensures var d := config[i].dependencies[j];
            m[n].image == d.image && m[n].source == d.source && m[n].schedules == d.schedules
  {
    var used := WithParents(config);
    var deps := AllDependencies(config);
    ParentsDoNotMatter(config);
    var k := FirstDependencyIsFirst(config, i, j, n);
    forall l | 0 <= l < |used| ensures used[l].name != n {
      assert config[l].name != n;
    }
    FirstBehind(used, deps, k);
    assert FirstWins(used + deps, m);
    assert (used + deps)[|used| + k] == deps[k];
  }

  lemma FirstBehind(front: seq<Component>, cs: seq<Component>, k: nat)
    requires IsFirst(cs, k) && forall l :: 0 <= l < |front| ==> front[l].name != cs[k].name
    ensures IsFirst(front + cs, |front| + k)
  {
    var all := front + cs;
    forall l | 0 <= l < |front| + k ensures all[l].name != cs[k].name {
      if l < |front| {
        assert all[l] == front[l];
      } else {
        assert all[l] == cs[l - |front|];
      }
    }
  }

  // ----- GetParentComponents

  function WithoutParent(m: map<string, Component>): map<string, Component> {
    map n | n in m && m[n].parent == "" :: m[n]
  }

  method GetParentComponents(config: seq<Component>)
    returns (filtered: map<string, Component>)
    ensures forall all: map<string, Component> :: FirstWins(Expanded(WithParents(config)), all) ==> filtered == WithoutParent(all)
  {
    filtered := GetComponents(config);
    ghost var all := filtered;
    var names := filtered.Keys;
    while names != {}
      invariant names <= filtered.Keys <= all.Keys
      invariant forall n :: n in filtered ==> filtered[n] == all[n]
      invariant forall n :: n in all && n !in filtered ==> all[n].parent != ""
      invariant forall n :: n in filtered && n !in names ==> filtered[n].parent == ""
      decreases |names|
    {
      var name :| name in names;
      names := names - {name};
      if filtered[name].parent != "" {
        filtered := filtered - {name};
      }
    }
    assert filtered == WithoutParent(all);
    forall m: map<string, Component> | FirstWins(Expanded(WithParents(config)), m) ensures m == all {
      FirstWinsOnce(Expanded(WithParents(config)), m, all);
    }
  }

  lemma {:induction false} SomeFirst(cs: seq<Component>, i: nat) returns (k: nat)
    requires i < |cs|
    ensures k <= i && cs[k].name == cs[i].name && IsFirst(cs, k)
  {
    if IsFirst(cs, i) {
      k := i;
    } else {
      var j :| 0 <= j < i && cs[j].name == cs[i].name;
      k := SomeFirst(cs, j);
    }
  }

  lemma FirstWinsOnce(cs: seq<Component>, m: map<string, Component>, m': map<string, Component>)
    requires FirstWins(cs, m) && FirstWins(cs, m')
    ensures m == m'
  {
    forall n | n in m ensures n in m' && m'[n] == m[n] {
      var i :| 0 <= i < |cs| && cs[i] == m[n];
      var k := SomeFirst(cs, i);
      assert cs[k].name in m;
    }
    assert m.Keys == m'.Keys by {
      forall n | n in m' ensures n in m {
        assert m'[n] in cs;
      }
    }
  }

  /** The first component of every top-level name has no parent of its own. */
  ghost predicate TopHasNoParent(config: seq<Component>) {
    forall i {:trigger config[i]} :: IsFirst(config, i) ==> config[i].parent == ""
  }

  /** A dependency that wins its name is listed by a component that has a name. */
  ghost predicate ListedByNamed(config: seq<Component>) {
    forall i, j, n :: FirstDependency(config, i, j, n) && !IsTop(config, n) ==> config[i].name != ""
  }

  ghost predicate ExactlyTop(config: seq<Component>, m: map<string, Component>) {
    forall n :: n in WithoutParent(m) <==> IsTop(config, n)
  }

  lemma {:induction false} SomeFirstDependency(config: seq<Component>, i: nat, j: nat) returns (k: nat, l: nat)
    requires i < |config| && j < |config[i].dependencies|
    ensures FirstDependency(config, k, l, config[i].dependencies[j].name)
    decreases i, j
  {
    var n := config[i].dependencies[j].name;
    if FirstDependency(config, i, j, n) {
      k, l := i, j;
    } else if l0 :| 0 <= l0 < j && config[i].dependencies[l0].name == n {
      k, l := SomeFirstDependency(config, i, l0);
    } else {
      var k0, l0 :| 0 <= k0 < i && 0 <= l0 < |config[k0].dependencies| && config[k0].dependencies[l0].name == n;
      k, l := SomeFirstDependency(config, k0, l0);
    }
  }

  /** The parent components are exactly the top-level names if and only if no top-level component has
      a parent and no dependency that wins its name is listed by a nameless component. */
  lemma ParentsAreTopLevel(config: seq<Component>, m: map<string, Component>)
    requires FirstWins(Expanded(WithParents(config)), m)
    ensures ExactlyTop(config, m) <==> TopHasNoParent(config) && ListedByNamed(config)
  {
    if TopHasNoParent(config) && ListedByNamed(config) {
      forall n ensures n in WithoutParent(m) <==> IsTop(config, n) {
        ParentIffTop(config, m, n);
      }
    }
    if ExactlyTop(config, m) {
      forall i {:trigger config[i]} | IsFirst(config, i) ensures config[i].parent == "" {
        TopLevelWins(config, m, i);
        assert config[i].name in WithoutParent(m) by { assert IsTop(config, config[i].name); }
      }
      forall i, j, n | FirstDependency(config, i, j, n) && !IsTop(config, n) ensures config[i].name != "" {
        FirstDependencyWins(config, m, i, j, n);
        assert n !in WithoutParent(m);
      }
    }
  }

  lemma ParentIffTop(config: seq<Component>, m: map<string, Component>, n: string)
    requires FirstWins(Expanded(WithParents(config)), m)
    requires TopHasNoParent(config) && ListedByNamed(config)
    ensures n in WithoutParent(m) <==> IsTop(config, n)
  {
    NamesAreTopOrDependency(config, m, n);
    if IsTop(config, n) {
      var i :| 0 <= i < |config| && config[i].name == n;
      var k := SomeFirst(config, i);
      TopLevelWins(config, m, k);
    } else if IsDependency(config, n) {
      var i, j :| 0 <= i < |config| && 0 <= j < |config[i].dependencies| && config[i].dependencies[j].name == n;
      var k, l := SomeFirstDependency(config, i, j);
      FirstDependencyWins(config, m, k, l, n);
    }
  }
}
