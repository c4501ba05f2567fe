/** The cache of stable components in the Team status (internal/stablecomponent/controller.go,
    api/v1/team_types.go). Other clients may act between any two calls of a reconcile, and every write
    may fail or never be reached, as after a crash. */
module StableCache {

  datatype Spec = Spec(name: string, repository: string, version: string, updatedBy: string)

  /** A StableComponent of the staging namespace; version is its resource version. */
  datatype StableObject = StableObject(spec: Spec, finalizer: bool, deleting: bool, version: nat)

  type Objects = map<string, StableObject>

  type Cache = map<string, Spec>

  datatype World = World(objects: Objects, cache: Cache)

  /** Every cached name has an object that still carries the finalizer. */
  ghost predicate Backed(w: World) {
    forall n :: n in w.cache ==> n in w.objects && w.objects[n].finalizer
  }

  datatype Outcome =
    | NotFound
    | Ignored
    | Failed
    | Removed
    | Unchanged(read: StableObject)
    | Written(copy: StableObject)

  // ----- Team status

  /** TeamStatus.SetStableComponents */
  method SetStableComponents(cache: Cache, name: string, spec: Spec, isDeleted: bool) returns (r: Cache, changed: bool)
    ensures r == if isDeleted then cache - {name} else cache[name := spec]
    ensures !changed ==> r == cache
  {
    r, changed := cache, false;
    if name !in cache && !isDeleted {
      return cache[name := spec], true;
    }
    if name in cache {
      if isDeleted {
        return cache - {name}, true;
      }
      if cache[name] != spec {
        return cache[name := spec], true;
      }
    }
  }

  predicate SpecChanged(cache: Cache, name: string, spec: Spec) {
    !(name in cache && cache[name].name != "" && cache[name] == spec)
  }

  // ----- What other clients may do to the objects between two calls

  /** Versions below bound name the same object as before, and finalizers stay where they were. */
  ghost predicate OthersDid(a: Objects, b: Objects, bound: nat) {
    && (forall n :: n in b && b[n].version < bound ==> n in a && b[n] == a[n])
    && (forall n :: n in a && a[n].finalizer ==> n in b && b[n].finalizer)
  }

  lemma OthersDidTransitive(a: Objects, b: Objects, c: Objects, bound: nat, later: nat)
    requires OthersDid(a, b, bound) && OthersDid(b, c, later) && bound <= later
    ensures OthersDid(a, c, bound)
  {
  }

  class Controller {
    var objects: Objects
    var cache: Cache
    var teamVersion: nat
    var nextVersion: nat
    /** Whether other clients act at all. */
    var busy: bool
    /** Which of the calls to come fail, without effect; those behind the end succeed. */
    var fails: seq<bool>
    /** Every state of the cluster so far. */
    ghost var trace: seq<World>

    ghost predicate Valid()
      reads this
    {
      && (forall n :: n in objects ==> objects[n].version < nextVersion) && teamVersion < nextVersion
      && |trace| > 0 && trace[|trace| - 1] == World(objects, cache)
      && (forall i :: 0 <= i < |trace| ==> Backed(trace[i]))
    }

    /** Nobody else acts and no call fails. */
    ghost predicate Calm()
      reads this`busy, this`fails
    {
      !busy && forall i :: 0 <= i < |fails| ==> !fails[i]
    }

    method Fails() returns (f: bool)
      modifies this`fails
      ensures old(Calm()) ==> Calm() && !f
    {
      f := |fails| > 0 && fails[0];
      fails := if |fails| > 0 then fails[1..] else [];
    }

    constructor ()
      ensures Valid() && objects == map[] && cache == map[]
    {
      objects, cache, teamVersion, nextVersion := map[], map[], 0, 1;
      trace := [World(map[], map[])];
    }

    // Other clients

    method UserDeletes(name: string)
      requires Valid()
      modifies this
      ensures Valid() && old(trace) <= trace && nextVersion >= old(nextVersion)
      ensures cache == old(cache) && teamVersion == old(teamVersion)
      ensures OthersDid(old(objects), objects, old(nextVersion))
    {
      if name in objects {
        if objects[name].finalizer {
          objects := objects[name := objects[name].(deleting := true, version := nextVersion)];
          nextVersion := nextVersion + 1;
        } else {
          objects := objects - {name};
        }
        trace := trace + [World(objects, cache)];
      }
    }

    /** setStableComponent of the staging controller, or a user: creates the object without a finalizer
        or changes its spec. */
    method Put(name: string, spec: Spec)
      requires Valid()
      modifies this
      ensures Valid() && old(trace) <= trace && nextVersion >= old(nextVersion)
      ensures cache == old(cache) && teamVersion == old(teamVersion)
      ensures OthersDid(old(objects), objects, old(nextVersion))
    {
      if name in objects {
        objects := objects[name := objects[name].(spec := spec, version := nextVersion)];
      } else {
        objects := objects[name := StableObject(spec, false, false, nextVersion)];
      }
      nextVersion := nextVersion + 1;
      trace := trace + [World(objects, cache)];
    }

    /** Any number of actions of other clients; they change other fields of the team, not its cache. */
    method Interfere()
      requires Valid()
      modifies this
      ensures Valid() && old(trace) <= trace && nextVersion >= old(nextVersion)
      ensures cache == old(cache)
      ensures OthersDid(old(objects), objects, old(nextVersion))
      ensures old(Calm()) ==> Calm() && objects == old(objects) && teamVersion == old(teamVersion) && nextVersion == old(nextVersion)
    {
      var k: nat := *;
      if !busy {
        return;
      }
      while k > 0
        invariant Valid() && old(trace) <= trace && nextVersion >= old(nextVersion)
        invariant cache == old(cache)
        invariant OthersDid(old(objects), objects, old(nextVersion))
      {
        var name: string, spec: Spec, which: int := *, *, *;
        ghost var before, bound := objects, nextVersion;
        if which == 0 {
          UserDeletes(name);
        } else if which == 1 {
          Put(name, spec);
        } else {
          teamVersion := nextVersion;
          nextVersion := nextVersion + 1;
        }
        OthersDidTransitive(old(objects), before, objects, old(nextVersion), bound);
        k := k - 1;
      }
    }

    // The writes of the reconciler: refused when the copy is no longer the newest

    method UpdateObject(name: string, o: StableObject) returns (ok: bool, version: nat)
      requires Valid() && (name in cache ==> o.finalizer)
      modifies this
      ensures Valid() && old(trace) <= trace && nextVersion >= old(nextVersion)
      ensures cache == old(cache)
      ensures !ok ==> objects == old(objects)
      ensures ok ==> name in old(objects) && old(objects)[name].version == o.version && old(nextVersion) <= version < nextVersion
      ensures ok ==> objects == if o.deleting && !o.finalizer then old(objects) - {name}
                                else old(objects)[name := o.(version := version)]
      ensures teamVersion == old(teamVersion)
      ensures old(Calm()) ==> Calm() && (ok <==> name in old(objects) && old(objects)[name].version == o.version)
    {
      var f := Fails();
      if f || name !in objects || objects[name].version != o.version {
        return false, 0;
      }
      version := nextVersion;
      nextVersion := nextVersion + 1;
      if o.deleting && !o.finalizer {
        objects := objects - {name};
      } else {
        objects := objects[name := o.(version := version)];
      }
      trace := trace + [World(objects, cache)];
      ok := true;
    }

    method UpdateTeam(c: Cache, version: nat) returns (ok: bool)
      requires Valid() && Backed(World(objects, c))
      modifies this
      ensures Valid() && old(trace) <= trace && nextVersion >= old(nextVersion)
      ensures objects == old(objects)
      ensures cache == if ok then c else old(cache)
      ensures old(Calm()) ==> Calm() && (ok <==> old(teamVersion) == version)
    {
      var f := Fails();
      if f || teamVersion != version {
        return false;
      }
      cache := c;
      teamVersion := nextVersion;
      nextVersion := nextVersion + 1;
      trace := trace + [World(objects, cache)];
      ok := true;
    }

    method DeleteFinalizer(name: string, comp: StableObject, team: Cache, version: nat) returns (outcome: Outcome)
      requires Valid() && comp.deleting && team == cache && Backed(World(objects, cache))
      requires comp.version < nextVersion && (!comp.finalizer ==> name !in cache)
      modifies this
      ensures Valid() && old(trace) <= trace
      ensures outcome == Failed || outcome == Removed
      ensures outcome == Removed ==> name !in cache && (comp.finalizer ==> name !in objects)
      ensures old(Calm()) && version == old(teamVersion) && name in old(objects) && old(objects)[name] == comp ==> outcome == Removed
    {
      if comp.finalizer {
        var team', changed := SetStableComponents(team, name, comp.spec, true);
        if changed {
          var ok := UpdateTeam(team', version);
          if !ok {
            return Failed;
          }
        }
        Interfere();
        var ok, _ := UpdateObject(name, comp.(finalizer := false));
        if !ok {
          return Failed;
        }
      }
      return Removed;
    }

    /** foreign: the object is not in the staging namespace of the team. */
    method Reconcile(name: string, foreign: bool) returns (outcome: Outcome)
      requires Valid()
      modifies this
      ensures Valid() && old(trace) <= trace
      ensures outcome.Removed? ==> name !in cache
      ensures outcome.Written? ==> name in objects && objects[name] == outcome.copy && name in cache
                                   && cache[name] == objects[name].spec && objects[name].finalizer && !objects[name].deleting
      ensures outcome.Unchanged? ==> name in cache && cache[name] == outcome.read.spec && outcome.read.version < nextVersion
                                     && name in objects && objects[name].finalizer
                                     && (objects[name].version == outcome.read.version ==> objects[name] == outcome.read)
      ensures old(Calm()) ==>
                if name !in old(objects) then outcome == NotFound
                else if foreign then outcome == Ignored
                else if old(objects)[name].deleting then outcome == Removed
                else if SpecChanged(old(cache), name, old(objects)[name].spec) then outcome.Written?
                else outcome.Unchanged?
      ensures old(Calm()) && name in old(objects) && !foreign && !old(objects)[name].deleting ==>
                name in cache && cache[name] == old(objects)[name].spec
    {
      Interfere();
      if name !in objects {
        return NotFound;
      }
      var comp := objects[name];
      Interfere();
      var f := Fails();
      if f {
        return Failed;
      }
      if foreign {
        return Ignored;
      }
      var team, version := cache, teamVersion;
      Interfere();
      if comp.deleting {
        outcome := DeleteFinalizer(name, comp, team, version);
        return;
      }
      if !comp.finalizer {
        comp := comp.(finalizer := true);
        var ok, v := UpdateObject(name, comp);
        if !ok {
          return Failed;
        }
        comp := comp.(version := v);
      }
      outcome := Synchronize(name, comp, team, version);
    }

    /** The part of the reconcile behind addFinalizer. */
    method Synchronize(name: string, comp: StableObject, team: Cache, version: nat) returns (outcome: Outcome)
      requires Valid() && !comp.deleting && comp.finalizer && team == cache && comp.version < nextVersion
      requires name in objects && objects[name].finalizer
      requires objects[name].version == comp.version ==> objects[name] == comp
      modifies this
      ensures Valid() && old(trace) <= trace && !outcome.Removed?
      ensures outcome.Written? ==> name in objects && objects[name] == outcome.copy && name in cache
                                   && cache[name] == objects[name].spec && objects[name].finalizer && !objects[name].deleting
      ensures outcome.Unchanged? ==> name in cache && cache[name] == outcome.read.spec && outcome.read.version < nextVersion
                                     && name in objects && objects[name].finalizer
                                     && (objects[name].version == outcome.read.version ==> objects[name] == outcome.read)
      ensures old(Calm()) && version == old(teamVersion) && old(objects)[name] == comp ==>
                && name in cache && cache[name] == comp.spec
                && if SpecChanged(old(cache), name, comp.spec) then outcome.Written? else outcome.Unchanged?
    {
      Interfere();
      if !SpecChanged(team, name, comp.spec) {
        return Unchanged(comp);
      }
      var team', changed := SetStableComponents(team, name, comp.spec, false);
      if changed {
        var ok := UpdateTeam(team', version);
        if !ok {
          return Failed;
        }
      }
      Interfere();
      var ok, v := UpdateObject(name, comp);
      if !ok {
        return Failed;
      }
      return Written(comp.(version := v));
    }
  }
}
