/**
 Registering the admission hooks with the API server: grouping them by group and version, and the
 loop that turns each group into a list of versions and a table of resources.
 */
module Hooks {

  datatype GroupVersion = GroupVersion(group: string, version: string)

  /** A webhook; `id` tells apart hooks for the same resource. */
  datatype Hook = Hook(id: nat, gv: GroupVersion, resource: string)

  type Buckets = map<string, map<string, seq<Hook>>>

  /** The hooks of a group and version, in the order given. */
  function Bucket(hooks: seq<Hook>, gv: GroupVersion): seq<Hook> {
    if hooks == [] then []
    else
      var before, last := Bucket(hooks[..|hooks| - 1], gv), hooks[|hooks| - 1];
      if last.gv == gv then before + [last] else before
  }

  lemma {:induction false} BucketNonEmpty(hooks: seq<Hook>, gv: GroupVersion)
    ensures Bucket(hooks, gv) != [] <==> exists h :: h in hooks && h.gv == gv
  {
    if hooks == [] {
    } else {
      var before := hooks[..|hooks| - 1];
      BucketNonEmpty(before, gv);
      assert hooks == before + [hooks[|hooks| - 1]];
    }
  }

  /** The buckets partition the hooks: each is in its own as often as it was given, and in no other. */
  lemma {:induction false} BucketsPartition(hooks: seq<Hook>, gv: GroupVersion, h: Hook)
    ensures multiset(Bucket(hooks, gv))[h] == if h.gv == gv then multiset(hooks)[h] else 0
  {
    if hooks == [] {
    } else {
      var before, last := hooks[..|hooks| - 1], hooks[|hooks| - 1];
      BucketsPartition(before, gv, h);
      assert hooks == before + [last];
    }
  }

  /** The positions at which the hooks of a bucket were given. */
  function Positions(hooks: seq<Hook>, gv: GroupVersion): seq<nat> {
    if hooks == [] then []
    else
      var before := Positions(hooks[..|hooks| - 1], gv);
      if hooks[|hooks| - 1].gv == gv then before + [|hooks| - 1] else before
  }

  /** A bucket keeps the order the hooks were given in. */
  lemma {:induction false} BucketInOrder(hooks: seq<Hook>, gv: GroupVersion, k: nat)
    requires k < |Positions(hooks, gv)|
    ensures |Positions(hooks, gv)| == |Bucket(hooks, gv)| && Positions(hooks, gv)[k] < |hooks|
    ensures hooks[Positions(hooks, gv)[k]] == Bucket(hooks, gv)[k]
    ensures k + 1 < |Positions(hooks, gv)| ==> Positions(hooks, gv)[k] < Positions(hooks, gv)[k + 1]
  {
    var before := hooks[..|hooks| - 1];
    PositionsOfBucket(before, gv);
    if k < |Positions(before, gv)| {
      BucketInOrder(before, gv, k);
      assert before[Positions(before, gv)[k]] == hooks[Positions(before, gv)[k]];
    }
  }

  lemma {:induction false} PositionsOfBucket(hooks: seq<Hook>, gv: GroupVersion)
    ensures |Positions(hooks, gv)| == |Bucket(hooks, gv)|
  {
    if hooks == [] {
    } else {
      PositionsOfBucket(hooks[..|hooks| - 1], gv);
    }
  }

  ghost predicate Groups(ret: Buckets, hooks: seq<Hook>) {
    && (forall g :: g in ret ==> exists v :: v in ret[g])
    && (forall g, v :: g in ret && v in ret[g] ==> Bucket(hooks, GroupVersion(g, v)) != [] && ret[g][v] == Bucket(hooks, GroupVersion(g, v)))
    && (forall gv :: Bucket(hooks, gv) != [] ==> gv.group in ret && gv.version in ret[gv.group])
  }

  method AdmissionHooksByGroupThenVersion(hooks: seq<Hook>) returns (ret: Buckets)
    ensures Groups(ret, hooks)
  {
    ret := map[];
    for i := 0 to |hooks|
      invariant Groups(ret, hooks[..i])
    {
      var hook := hooks[i];
      var group := if hook.gv.group in ret then ret[hook.gv.group] else map[];
      var bucket := if hook.gv.version in group then group[hook.gv.version] else [];
      GroupsNext(ret, hooks, i);
      assert Added(ret, hook) == ret[hook.gv.group := group[hook.gv.version := bucket + [hook]]];
      ret := ret[hook.gv.group := group[hook.gv.version := bucket + [hook]]];
      hide Groups;
    }
    assert hooks[..|hooks|] == hooks;
  }

  lemma BucketNext(hooks: seq<Hook>, i: nat, gv: GroupVersion)
    requires i < |hooks|
    ensures Bucket(hooks[..i + 1], gv) == if hooks[i].gv == gv then Bucket(hooks[..i], gv) + [hooks[i]] else Bucket(hooks[..i], gv)
  {
    assert hooks[..i + 1][..i] == hooks[..i];
  }

  function Added(was: Buckets, hook: Hook): Buckets {
    var group := if hook.gv.group in was then was[hook.gv.group] else map[];
    var bucket := if hook.gv.version in group then group[hook.gv.version] else [];
    was[hook.gv.group := group[hook.gv.version := bucket + [hook]]]
  }

  lemma AddedAt(was: Buckets, hook: Hook, gv: GroupVersion)
    ensures var ret := Added(was, hook);
      var before := if gv.group in was && gv.version in was[gv.group] then was[gv.group][gv.version] else [];
      if gv == hook.gv then gv.group in ret && gv.version in ret[gv.group] && ret[gv.group][gv.version] == before + [hook]
      else
        && (gv.group in ret && gv.version in ret[gv.group] <==> gv.group in was && gv.version in was[gv.group])
        && (gv.group in ret && gv.version in ret[gv.group] ==> ret[gv.group][gv.version] == before)
  {
  }

  lemma GroupsAt(ret: Buckets, hooks: seq<Hook>, gv: GroupVersion)
    requires Groups(ret, hooks)
    ensures gv.group in ret && gv.version in ret[gv.group] <==> Bucket(hooks, gv) != []
    ensures (if gv.group in ret && gv.version in ret[gv.group] then ret[gv.group][gv.version] else []) == Bucket(hooks, gv)
  {
    assert GroupVersion(gv.group, gv.version) == gv;
  }

  lemma NextAt(was: Buckets, hooks: seq<Hook>, i: nat, gv: GroupVersion)
    requires i < |hooks| && Groups(was, hooks[..i])
    ensures var ret := Added(was, hooks[i]);
      && (gv.group in ret && gv.version in ret[gv.group] <==> Bucket(hooks[..i + 1], gv) != [])
      && (gv.group in ret && gv.version in ret[gv.group] ==> ret[gv.group][gv.version] == Bucket(hooks[..i + 1], gv))
  {
    AddedAt(was, hooks[i], gv);
    BucketNext(hooks, i, gv);
    GroupsAt(was, hooks[..i], gv);
    hide Added, Bucket, Groups;
  }

  lemma GroupsNext(was: Buckets, hooks: seq<Hook>, i: nat)
    requires i < |hooks| && Groups(was, hooks[..i])
    ensures Groups(Added(was, hooks[i]), hooks[..i + 1])
  {
    var hook := hooks[i];
    var ret := Added(was, hook);
    forall g | g in ret ensures exists v :: v in ret[g] {
      if g == hook.gv.group { assert hook.gv.version in ret[g]; }
    }
    hide Added, Bucket;
    forall gv: GroupVersion ensures
      && (gv.group in ret && gv.version in ret[gv.group] <==> Bucket(hooks[..i + 1], gv) != [])
      && (gv.group in ret && gv.version in ret[gv.group] ==> ret[gv.group][gv.version] == Bucket(hooks[..i + 1], gv))
    {
      NextAt(was, hooks, i, gv);
    }
  }

  ghost predicate Distinct<T>(xs: seq<T>) { forall i, j :: 0 <= i < j < |xs| ==> xs[i] != xs[j] }

  /** The source goes through a Go map, so the order of the result is not determined. */
  method AppendUniqueGroupVersion(slice: seq<GroupVersion>, elems: seq<GroupVersion>) returns (out: seq<GroupVersion>)
    ensures Distinct(out)
    ensures forall gv :: gv in out <==> gv in slice || gv in elems
  {
    var m: set<GroupVersion> := {};
    for i := 0 to |slice|
      invariant forall gv :: gv in m <==> gv in slice[..i]
    {
      m := m + {slice[i]};
    }
    for i := 0 to |elems|
      invariant forall gv :: gv in m <==> gv in slice || gv in elems[..i]
    {
      m := m + {elems[i]};
    }
    out := [];
    var rest := m;
    while rest != {}
      invariant rest <= m && Distinct(out)
      invariant forall gv :: gv in out <==> gv in m && gv !in rest
      decreases |rest|
    {
      var gv :| gv in rest;
      out := out + [gv];
      rest := rest - {gv};
    }
  }

  type Storage = map<string, map<string, Hook>>

  /** The last hook given for a resource. */
  function LastFor(hooks: seq<Hook>, resource: string): seq<Hook> {
    if hooks == [] then []
    else if hooks[|hooks| - 1].resource == resource then [hooks[|hooks| - 1]]
    else LastFor(hooks[..|hooks| - 1], resource)
  }

  predicate Holds(storage: Storage, version: string, resource: string, hooks: seq<Hook>) {
    if LastFor(hooks, resource) == [] then version !in storage || resource !in storage[version]
    else version in storage && resource in storage[version] && [storage[version][resource]] == LastFor(hooks, resource)
  }

  ghost predicate Installs(versions: seq<GroupVersion>, storage: Storage, group: string, done: map<string, seq<Hook>>) {
    && Distinct(versions)
    && (forall gv :: gv in versions <==> gv.group == group && gv.version in done)
    && storage.Keys == done.Keys
    && (forall v, r :: v in done ==> Holds(storage, v, r, done[v]))
  }

  ghost predicate WellGrouped(group: string, versionMap: map<string, seq<Hook>>) {
    forall v :: v in versionMap ==> versionMap[v] != [] && forall h :: h in versionMap[v] ==> h.gv == GroupVersion(group, v)
  }

  /** The loop that fills in one group. */
  method InstallGroup(group: string, versionMap: map<string, seq<Hook>>) returns (versions: seq<GroupVersion>, storage: Storage)
    requires WellGrouped(group, versionMap)
    ensures Installs(versions, storage, group, versionMap)
  {
    versions, storage := [], map[];
    var rest := versionMap.Keys;
    ghost var done: map<string, seq<Hook>> := map[];
    while rest != {}
      invariant rest <= versionMap.Keys && done.Keys == versionMap.Keys - rest
      invariant forall v :: v in done ==> done[v] == versionMap[v]
      invariant Installs(versions, storage, group, done)
      decreases |rest|
    {
      var v :| v in rest;
      versions, storage := InstallVersion(versions, storage, group, v, versionMap[v], done);
      done := done[v := versionMap[v]];
      rest := rest - {v};
    }
    assert done == versionMap;
  }

  method InstallVersion(vs: seq<GroupVersion>, st: Storage, group: string, v: string, hooks: seq<Hook>, ghost done: map<string, seq<Hook>>)
    returns (versions: seq<GroupVersion>, storage: Storage)
    requires Installs(vs, st, group, done) && v !in done && hooks != []
    requires forall h :: h in hooks ==> h.gv == GroupVersion(group, v)
    ensures Installs(versions, storage, group, done[v := hooks])
  {
    versions, storage := vs, st;
    for i := 0 to |hooks|
      invariant Installs(versions, storage, group, if i == 0 then done else done[v := hooks[..i]])
    {
      var hook := hooks[i];
      ghost var was, storageWas := versions, storage;
      versions := AppendUniqueGroupVersion(versions, [hook.gv]);
      var table := if hook.gv.version in storage then storage[hook.gv.version] else map[];
      storage := storage[hook.gv.version := table[hook.resource := hook]];
      InstallsNext(was, storageWas, versions, storage, group, v, hooks, i, done);
    }
    assert hooks[..|hooks|] == hooks;
  }

  lemma InstallsNext(was: seq<GroupVersion>, storageWas: Storage, versions: seq<GroupVersion>, storage: Storage,
                     group: string, v: string, hooks: seq<Hook>, i: nat, done: map<string, seq<Hook>>)
    requires i < |hooks| && v !in done && hooks[i].gv == GroupVersion(group, v)
    requires Installs(was, storageWas, group, if i == 0 then done else done[v := hooks[..i]])
    requires Distinct(versions) && forall gv :: gv in versions <==> gv in was || gv in [hooks[i].gv]
    requires storage == storageWas[v := (if v in storageWas then storageWas[v] else map[])[hooks[i].resource := hooks[i]]]
    ensures Installs(versions, storage, group, done[v := hooks[..i + 1]])
  {
    var done' := done[v := hooks[..i + 1]];
    assert hooks[..i + 1][..i] == hooks[..i];
    forall u, r | u in done' ensures Holds(storage, u, r, done'[u]) {
      if u != v {
        assert Holds(storageWas, u, r, done[u]);
      } else if i > 0 {
        assert Holds(storageWas, v, r, hooks[..i]);
      } else {
        assert hooks[..1][..0] == [];
      }
    }
  }

  /** Every resource of every hook is in its group's table, under its version, held by the last hook given for it. */
  ghost predicate AllServed(hooks: seq<Hook>, tables: map<string, Storage>) {
    forall h :: h in hooks ==>
      && h.gv.group in tables && h.gv.version in tables[h.gv.group] && h.resource in tables[h.gv.group][h.gv.version]
      && [tables[h.gv.group][h.gv.version][h.resource]] == LastFor(Bucket(hooks, h.gv), h.resource)
  }

  /** Each version list is without duplicates and has just the versions of that group's hooks. */
  ghost predicate VersionsExact(hooks: seq<Hook>, versions: map<string, seq<GroupVersion>>) {
    forall g :: g in versions ==>
      && Distinct(versions[g])
      && forall gv :: gv in versions[g] <==> gv.group == g && exists h :: h in hooks && h.gv == gv
  }

  /** The registration of all groups. */
  method Register(hooks: seq<Hook>) returns (versions: map<string, seq<GroupVersion>>, tables: map<string, Storage>)
    ensures versions.Keys == tables.Keys
    ensures AllServed(hooks, tables) && VersionsExact(hooks, versions)
  {
    hide Groups, Installs, WellGrouped, AllServed, VersionsExact;
    var buckets := AdmissionHooksByGroupThenVersion(hooks);
    versions, tables := map[], map[];
    var rest := buckets.Keys;
    while rest != {}
      invariant rest <= buckets.Keys && versions.Keys == buckets.Keys - rest == tables.Keys
      invariant forall g :: g in versions ==> Installs(versions[g], tables[g], g, buckets[g])
      decreases |rest|
    {
      var g :| g in rest;
      BucketsWellGrouped(buckets, hooks, g);
      var vs, storage := InstallGroup(g, buckets[g]);
      versions, tables := versions[g := vs], tables[g := storage];
      rest := rest - {g};
    }
    Registered(buckets, hooks, versions, tables);
  }

  lemma BucketsWellGrouped(buckets: Buckets, hooks: seq<Hook>, g: string)
    requires Groups(buckets, hooks) && g in buckets
    ensures WellGrouped(g, buckets[g])
  {
    forall v, h | v in buckets[g] && h in buckets[g][v] ensures h.gv == GroupVersion(g, v) {
      BucketsPartition(hooks, GroupVersion(g, v), h);
      assert multiset(buckets[g][v])[h] > 0;
    }
  }

  lemma Registered(buckets: Buckets, hooks: seq<Hook>, versions: map<string, seq<GroupVersion>>, tables: map<string, Storage>)
    requires Groups(buckets, hooks) && versions.Keys == buckets.Keys == tables.Keys
    requires forall g :: g in versions ==> Installs(versions[g], tables[g], g, buckets[g])
    ensures AllServed(hooks, tables) && VersionsExact(hooks, versions)
  {
    forall h | h in hooks
      ensures h.gv.group in tables && h.gv.version in tables[h.gv.group]
      ensures h.resource in tables[h.gv.group][h.gv.version]
      ensures [tables[h.gv.group][h.gv.version][h.resource]] == LastFor(Bucket(hooks, h.gv), h.resource)
    {
      Served(buckets, hooks, tables, versions, h);
    }
    forall g, gv | g in versions ensures gv in versions[g] <==> gv.group == g && exists h :: h in hooks && h.gv == gv {
      BucketNonEmpty(hooks, gv);
      assert GroupVersion(gv.group, gv.version) == gv;
    }
  }

  lemma Served(buckets: Buckets, hooks: seq<Hook>, tables: map<string, Storage>, versions: map<string, seq<GroupVersion>>, h: Hook)
    requires Groups(buckets, hooks) && versions.Keys == buckets.Keys == tables.Keys && h in hooks
    requires forall g :: g in versions ==> Installs(versions[g], tables[g], g, buckets[g])
    ensures h.gv.group in tables && h.gv.version in tables[h.gv.group] && h.resource in tables[h.gv.group][h.gv.version]
    ensures [tables[h.gv.group][h.gv.version][h.resource]] == LastFor(Bucket(hooks, h.gv), h.resource)
  {
    var g, v := h.gv.group, h.gv.version;
    BucketNonEmpty(hooks, h.gv);
    BucketsPartition(hooks, h.gv, h);
    assert multiset(hooks)[h] > 0;
    assert GroupVersion(g, v) == h.gv;
    LastForPresent(buckets[g][v], h);
    assert Holds(tables[g], v, h.resource, buckets[g][v]);
  }

  lemma {:induction false} LastForPresent(hooks: seq<Hook>, h: Hook)
    requires h in hooks
    ensures LastFor(hooks, h.resource) != []
  {
    if hooks[|hooks| - 1].resource != h.resource {
      assert hooks == hooks[..|hooks| - 1] + [hooks[|hooks| - 1]];
      LastForPresent(hooks[..|hooks| - 1], h);
    }
  }
}
