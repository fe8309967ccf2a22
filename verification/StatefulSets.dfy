/**
 The StatefulSet a create pass writes: several upserts in place over what is stored, so that what is
 stored already has a say in the result.
 */
module StatefulSets {
  import opened Options
  import opened Upserts
  import Admission

  const DbContainer: string := "perconaxtradb"
  const Exporter: string := "exporter"
  const RootPassword: string := "MYSQL_ROOT_PASSWORD"
  const RootUsername: string := "MYSQL_ROOT_USERNAME"
  const ClusterName: string := "CLUSTER_NAME"
  const Data: string := "data"

  datatype EnvValue = Literal(value: string) | SecretKey(secretName: string, key: string)

  type EnvVar = Entry<EnvValue>

  type Mount = Entry<string>

  datatype VolumeSource = EmptyDir(sizeLimit: Option<int>) | Source(id: nat)

  type Volume = Entry<VolumeSource>

  type Claim = Entry<Admission.Storage>

  /** Probes and lifecycle hooks are only copied, so a number stands for each. */
  datatype Body = Body(
    image: string,
    command: seq<string>,
    args: seq<string>,
    ports: seq<nat>,
    env: seq<EnvVar>,
    mounts: seq<Mount>,
    resources: map<string, nat>,
    lifecycle: Option<nat>,
    livenessProbe: Option<nat>,
    readinessProbe: Option<nat>)

  type Container = Entry<Body>

  function NonEmpty<T>(was: seq<T>, given: seq<T>): seq<T> { if given == [] then was else given }

  function IfSome<T>(was: Option<T>, given: Option<T>): Option<T> { if given == None then was else given }

  /** Merging a container into a stored one: fields left empty keep the stored value. */
  function Merged(was: Body, given: Body): Body {
    Body(NonEmpty(was.image, given.image), NonEmpty(was.command, given.command), NonEmpty(was.args, given.args),
         NonEmpty(was.ports, given.ports), NonEmpty(was.env, given.env), NonEmpty(was.mounts, given.mounts),
         was.resources + given.resources, IfSome(was.lifecycle, given.lifecycle),
         IfSome(was.livenessProbe, given.livenessProbe), IfSome(was.readinessProbe, given.readinessProbe))
  }

  lemma MergedIsBand()
    ensures Band(Merged)
  {
    forall a, b, c ensures Merged(Merged(a, b), c) == Merged(a, Merged(b, c)) {
      assert (a.resources + b.resources) + c.resources == a.resources + (b.resources + c.resources);
    }
    forall a ensures Merged(a, a) == a {
      assert a.resources + a.resources == a.resources;
    }
  }

  datatype StatefulSetValue = StatefulSetValue(
    owners: set<nat>,
    replicas: Option<int>,
    serviceName: string,
    initContainers: seq<Container>,
    containers: seq<Container>,
    volumes: seq<Volume>,
    claims: seq<Claim>,
    nodeSelector: map<string, string>,
    schedulerName: string,
    serviceAccountName: string)

  /** What the transform takes from the database, its catalog version and the controller, beside the spec. */
  datatype Workload = Workload(
    name: string,
    uid: nat,
    governingService: string,
    dbImage: string,
    initImage: string,
    exporterImage: string,
    env: seq<EnvVar>,
    initContainers: seq<Container>,
    args: string,
    resources: map<string, nat>,
    lifecycle: Option<nat>,
    livenessProbe: Option<nat>,
    readinessProbe: Option<nat>,
    schedulerName: string,
    script: Option<VolumeSource>,
    config: Option<VolumeSource>,
    exporterCommand: seq<string>,
    exporterEnv: seq<EnvVar>)

  /** The database secret is bound, and durable storage has a claim spec: the passes run after both. */
  predicate Ready(s: Admission.Spec) {
    s.databaseSecret.Some? && (s.storageType != Admission.Ephemeral ==> s.storage.Some?)
  }

  predicate Monitored(s: Admission.Spec) {
    s.monitor.Some? && Admission.Vendor(s.monitor.value.agent) == Admission.VendorPrometheus
  }

  /* ---- the parts that are upserted ---- */

  function OperatorEnv(wl: Workload, s: Admission.Spec): seq<EnvVar> {
    if Admission.IsCluster(s) then [Entry(ClusterName, Literal(wl.name))] else []
  }

  function DbEnv(wl: Workload, s: Admission.Spec): seq<EnvVar> {
    UpsertedAll(OperatorEnv(wl, s), wl.env, Replaced)
  }

  predicate HasScript(wl: Workload, s: Admission.Spec) { !Admission.IsCluster(s) && wl.script.Some? }

  function ScriptVolumes(wl: Workload, s: Admission.Spec): seq<Volume> {
    if HasScript(wl, s) then [Entry("initial-script", wl.script.value)] else []
  }

  function ScriptMounts(wl: Workload, s: Admission.Spec): seq<Mount> {
    if HasScript(wl, s) then [Entry("initial-script", "/docker-entrypoint-initdb.d")] else []
  }

  function DbBody(wl: Workload, s: Admission.Spec): Body {
    var cluster := Admission.IsCluster(s);
    Body(wl.dbImage,
         if cluster then ["peer-finder"] else [],
         if cluster then ["-service=" + wl.governingService, "-on-start=/on-start.sh " + wl.args] else [],
         [3306] + (if cluster then [4567, 4568] else []),
         DbEnv(wl, s), ScriptMounts(wl, s), wl.resources, wl.lifecycle, wl.livenessProbe, wl.readinessProbe)
  }

  function ExporterBody(wl: Workload, s: Admission.Spec): Body
    requires Monitored(s)
  {
    Body(wl.exporterImage, ["/bin/sh"], wl.exporterCommand,
         if s.monitor.value.port.Some? && s.monitor.value.port.value > 0 then [s.monitor.value.port.value] else [],
         wl.exporterEnv, [], map[], None, None, None)
  }

  function LostFound(wl: Workload): Container {
    Entry("remove-lost-found",
          Body(wl.initImage, ["rm", "-rf", "/var/lib/mysql/lost+found"], [], [], [],
               [Entry(Data, "/var/lib/mysql")], wl.resources, None, None, None))
  }

  function RootEnv(secret: string): seq<EnvVar> {
    [Entry(RootPassword, SecretKey(secret, "password")), Entry(RootUsername, SecretKey(secret, "username"))]
  }

  function DataMount(): Mount { Entry(Data, "/var/lib/mysql") }

  function ConfigMount(s: Admission.Spec): Mount {
    Entry("custom-config",
          if Admission.IsCluster(s) then "/etc/percona-xtradb-cluster.conf.d/" else "/etc/percona-server.conf.d/")
  }

  function AccessDefaulted(storage: Admission.Storage): Admission.Storage {
    if storage.accessModes == [] then storage.(accessModes := ["ReadWriteOnce"]) else storage
  }

  function DataVolumes(s: Admission.Spec): seq<Volume> {
    if s.storageType == Admission.Ephemeral then
      [Entry(Data, EmptyDir(if s.storage.Some? then s.storage.value.request else None))]
    else []
  }

  function ConfigVolumes(wl: Workload): seq<Volume> {
    if wl.config.Some? then [Entry("custom-config", wl.config.value)] else []
  }

  function Volumes(wl: Workload, s: Admission.Spec): seq<Volume> {
    ScriptVolumes(wl, s) + DataVolumes(s) + ConfigVolumes(wl)
  }

  function Mounts(wl: Workload, s: Admission.Spec): seq<Mount> {
    [DataMount()] + (if wl.config.Some? then [ConfigMount(s)] else [])
  }

  function Claims(s: Admission.Spec): seq<Claim>
    requires Ready(s)
  {
    if s.storageType == Admission.Ephemeral then [] else [Entry(Data, AccessDefaulted(s.storage.value))]
  }

  /* ---- rewriting the containers in place ---- */

  predicate TakesRootEnv(name: string) { name == DbContainer || name == Exporter }

  function WithEnv(c: Container, env: seq<EnvVar>): Container {
    if TakesRootEnv(c.name) then Entry(c.name, c.value.(env := UpsertedAll(c.value.env, env, Replaced))) else c
  }

  function EnvUpserted(xs: seq<Container>, env: seq<EnvVar>): seq<Container> {
    if xs == [] then [] else [WithEnv(xs[0], env)] + EnvUpserted(xs[1..], env)
  }

  function WithMount(c: Container, m: Mount): Container {
    Entry(c.name, c.value.(mounts := Upserted(c.value.mounts, m, Replaced)))
  }

  /** Only the first container of the name is looked at. */
  function MountUpserted(xs: seq<Container>, m: Mount): seq<Container> {
    if xs == [] then []
    else if xs[0].name == DbContainer then [WithMount(xs[0], m)] + xs[1..]
    else [xs[0]] + MountUpserted(xs[1..], m)
  }

  function ContainersUpserted(xs: seq<Container>, wl: Workload, s: Admission.Spec): seq<Container> {
    var db := Upserted(xs, Entry(DbContainer, DbBody(wl, s)), Merged);
    if Monitored(s) then Upserted(db, Entry(Exporter, ExporterBody(wl, s)), Merged) else db
  }

  function Containers(xs: seq<Container>, wl: Workload, s: Admission.Spec): seq<Container>
    requires Ready(s)
  {
    var data := MountUpserted(EnvUpserted(ContainersUpserted(xs, wl, s), RootEnv(s.databaseSecret.value)), DataMount());
    if wl.config.Some? then MountUpserted(data, ConfigMount(s)) else data
  }

  function Transformed(v: StatefulSetValue, wl: Workload, s: Admission.Spec): StatefulSetValue
    requires Ready(s)
  {
    StatefulSetValue(
      v.owners + {wl.uid}, s.replicas, wl.governingService,
      UpsertedAll(v.initContainers, wl.initContainers + [LostFound(wl)], Merged),
      Containers(v.containers, wl, s),
      UpsertedAll(v.volumes, Volumes(wl, s), Replaced),
      UpsertedAll(v.claims, Claims(s), Replaced),
      s.nodeSelector,
      if wl.schedulerName == "" then v.schedulerName else wl.schedulerName,
      wl.name)
  }

  const NewStatefulSet: StatefulSetValue :=
    StatefulSetValue({}, None, "", [], [], [], [], map[], "", "")

  /* ---- the closure that rewrites the object ---- */

  class StatefulSet {
    var owners: set<nat>
    var replicas: Option<int>
    var serviceName: string
    var initContainers: seq<Container>
    var containers: seq<Container>
    var volumes: seq<Volume>
    var claims: seq<Claim>
    var nodeSelector: map<string, string>
    var schedulerName: string
    var serviceAccountName: string

    function Value(): StatefulSetValue
      reads this
    {
      StatefulSetValue(owners, replicas, serviceName, initContainers, containers, volumes, claims,
                       nodeSelector, schedulerName, serviceAccountName)
    }

    constructor ()
      ensures Value() == NewStatefulSet
    {
      owners, replicas, serviceName := {}, None, "";
      initContainers, containers, volumes, claims := [], [], [], [];
      nodeSelector, schedulerName, serviceAccountName := map[], "", "";
    }

    method UpsertEnv(px: Admission.PerconaXtraDB)
      requires px.spec.databaseSecret.Some?
      modifies this
      ensures Value() == old(Value()).(containers := EnvUpserted(old(containers), RootEnv(px.spec.databaseSecret.value)))
    {
      ghost var was := containers;
      for i := 0 to |containers|
        invariant |containers| == |was|
        invariant forall j :: 0 <= j < i ==> containers[j] == WithEnv(was[j], RootEnv(px.spec.databaseSecret.value))
        invariant forall j :: i <= j < |was| ==> containers[j] == was[j]
        invariant Value() == old(Value()).(containers := containers)
      {
        var container := containers[i];
        if container.name == DbContainer || container.name == Exporter {
          var env := UpsertEntries(container.value.env, RootEnv(px.spec.databaseSecret.value), Replaced);
          containers := containers[i := Entry(container.name, container.value.(env := env))];
        }
      }
      EnvUpsertedAt(was, RootEnv(px.spec.databaseSecret.value));
    }

    /** The loop over the containers stops at the database container; its body is `UpsertMount`. */
    method UpsertMount(m: Mount) returns (found: bool)
      modifies this
      ensures Value() == old(Value()).(containers := MountUpserted(old(containers), m))
      ensures found <==> exists c :: c in old(containers) && c.name == DbContainer
    {
      for i := 0 to |containers|
        invariant Value() == old(Value())
        invariant forall j :: 0 <= j < i ==> containers[j].name != DbContainer
      {
        var container := containers[i];
        if container.name == DbContainer {
          MountUpsertedAt(containers, m, i);
          var mounts := UpsertEntry(container.value.mounts, m, Replaced);
          containers := containers[i := Entry(container.name, container.value.(mounts := mounts))];
          return true;
        }
      }
      MountUpsertedAt(containers, m, |containers|);
      return false;
    }

    method UpsertDataVolume(px: Admission.PerconaXtraDB)
      requires Ready(px.spec) && exists c :: c in containers && c.name == DbContainer
      modifies this, px
      ensures Value() == old(Value()).(
        containers := MountUpserted(old(containers), DataMount()),
        volumes := UpsertedAll(old(volumes), DataVolumes(old(px.spec)), Replaced),
        claims := UpsertedAll(old(claims), Claims(old(px.spec)), Replaced))
      ensures px.spec == StorageDefaulted(old(px.spec))
    {
      var found := UpsertMount(DataMount());
      var s := px.spec;
      if s.storageType == Admission.Ephemeral {
        volumes := UpsertEntries(volumes, DataVolumes(s), Replaced);
      } else {
        if s.storage.value.accessModes == [] {
          px.spec := s.(storage := Some(s.storage.value.(accessModes := ["ReadWriteOnce"])));
        }
        claims := UpsertEntries(claims, [Entry(Data, px.spec.storage.value)], Replaced);
      }
    }

    method UpsertCustomConfig(config: VolumeSource, s: Admission.Spec)
      requires exists c :: c in containers && c.name == DbContainer
      modifies this
      ensures Value() == old(Value()).(
        containers := MountUpserted(old(containers), ConfigMount(s)),
        volumes := UpsertedAll(old(volumes), [Entry("custom-config", config)], Replaced))
    {
      var found := UpsertMount(ConfigMount(s));
      volumes := UpsertEntries(volumes, [Entry("custom-config", config)], Replaced);
    }

    /** Containers, init containers and the script volume. */
    method UpsertContainers(s: Admission.Spec, wl: Workload)
      modifies this
      ensures Value() == old(Value()).(
        initContainers := UpsertedAll(old(initContainers), wl.initContainers + [LostFound(wl)], Merged),
        containers := ContainersUpserted(old(containers), wl, s),
        volumes := UpsertedAll(old(volumes), ScriptVolumes(wl, s), Replaced))
    {
      hide DbBody, ExporterBody, LostFound, ScriptVolumes, Upserted, UpsertedAll;
      ghost var init := initContainers;
      initContainers := UpsertEntries(initContainers, wl.initContainers, Merged);
      containers := UpsertEntry(containers, Entry(DbContainer, DbBody(wl, s)), Merged);
      initContainers := UpsertEntries(initContainers, [LostFound(wl)], Merged);
      UpsertedAllConcat(init, wl.initContainers, [LostFound(wl)], Merged);
      if Monitored(s) {
        containers := UpsertEntry(containers, Entry(Exporter, ExporterBody(wl, s)), Merged);
      }
      volumes := UpsertEntries(volumes, ScriptVolumes(wl, s), Replaced);
    }

    /** The secret's variables, the data volume and the custom configuration. */
    method UpsertTemplate(px: Admission.PerconaXtraDB, wl: Workload)
      requires Ready(px.spec) && exists c :: c in containers && c.name == DbContainer
      modifies this, px
      ensures var data := MountUpserted(EnvUpserted(old(containers), RootEnv(old(px.spec).databaseSecret.value)), DataMount());
        Value() == old(Value()).(
          containers := if wl.config.Some? then MountUpserted(data, ConfigMount(old(px.spec))) else data,
          volumes := UpsertedAll(UpsertedAll(old(volumes), DataVolumes(old(px.spec)), Replaced), ConfigVolumes(wl), Replaced),
          claims := UpsertedAll(old(claims), Claims(old(px.spec)), Replaced))
      ensures px.spec == StorageDefaulted(old(px.spec))
    {
      hide RootEnv, DataMount, ConfigMount, DataVolumes, Claims, Upserted, UpsertedAll, StorageDefaulted, EnvUpserted, MountUpserted;
      ghost var s := px.spec;
      UpsertEnv(px);
      StillThere(old(containers), RootEnv(s.databaseSecret.value), DataMount());
      UpsertDataVolume(px);
      if wl.config.Some? {
        SameReplicas(s);
        UpsertCustomConfig(wl.config.value, px.spec);
      } else {
        NothingToUpsert(volumes);
      }
    }

    /** The whole transform; it also fills in the access modes of the database's own storage. */
    method Transform(px: Admission.PerconaXtraDB, wl: Workload)
      requires Ready(px.spec)
      modifies this, px
      ensures Value() == Transformed(old(Value()), wl, old(px.spec))
      ensures owners == old(owners) + {wl.uid} && replicas == old(px.spec).replicas && serviceName == wl.governingService
      ensures nodeSelector == old(px.spec).nodeSelector && serviceAccountName == wl.name
      ensures schedulerName == if wl.schedulerName != "" then wl.schedulerName else old(schedulerName)
      ensures px.spec == StorageDefaulted(old(px.spec))
    {
      hide RootEnv, DataMount, ConfigMount, ScriptVolumes, DataVolumes, ConfigVolumes, Claims, LostFound, Upserted, UpsertedAll;
      hide ContainersUpserted, StorageDefaulted, EnvUpserted, MountUpserted;
      var s := px.spec;
      ghost var vols, cs := volumes, containers;
      owners := owners + {wl.uid};
      replicas := px.spec.replicas;
      serviceName := wl.governingService;
      UpsertContainers(px.spec, wl);
      DbContainerThere(cs, wl, s);
      UpsertTemplate(px, wl);
      UpsertedAllConcat(vols, ScriptVolumes(wl, s), DataVolumes(s), Replaced);
      UpsertedAllConcat(vols, ScriptVolumes(wl, s) + DataVolumes(s), ConfigVolumes(wl), Replaced);
      nodeSelector := s.nodeSelector;
      if wl.schedulerName != "" {
        schedulerName := wl.schedulerName;
      }
      serviceAccountName := wl.name;
    }
  }

  lemma NothingToUpsert<T>(xs: seq<Entry<T>>)
    ensures UpsertedAll(xs, [], Replaced) == xs
  {
  }

  lemma SameReplicas(s: Admission.Spec)
    requires Ready(s)
    ensures ConfigMount(StorageDefaulted(s)) == ConfigMount(s)
  {
  }

  function StorageDefaulted(s: Admission.Spec): Admission.Spec
    requires Ready(s)
  {
    if s.storageType == Admission.Ephemeral then s
    else s.(storage := Some(AccessDefaulted(s.storage.value)))
  }

  lemma {:induction false} EnvUpsertedAt(xs: seq<Container>, env: seq<EnvVar>)
    ensures |EnvUpserted(xs, env)| == |xs| && forall i :: 0 <= i < |xs| ==> EnvUpserted(xs, env)[i] == WithEnv(xs[i], env)
  {
    if xs == [] {
    } else {
      EnvUpsertedAt(xs[1..], env);
    }
  }

  lemma {:induction false} MountUpsertedAt(xs: seq<Container>, m: Mount, i: nat)
    requires i <= |xs| && (forall j :: 0 <= j < i ==> xs[j].name != DbContainer) && (i < |xs| ==> xs[i].name == DbContainer)
    ensures MountUpserted(xs, m) == if i < |xs| then xs[i := WithMount(xs[i], m)] else xs
  {
    if xs == [] {
    } else if i == 0 {
      assert xs == [xs[0]] + xs[1..];
    } else {
      MountUpsertedAt(xs[1..], m, i - 1);
      assert xs == [xs[0]] + xs[1..];
    }
  }

  lemma DbContainerThere(xs: seq<Container>, wl: Workload, s: Admission.Spec)
    ensures exists c :: c in ContainersUpserted(xs, wl, s) && c.name == DbContainer
  {
    hide DbBody, ExporterBody;
    NamesUpserted(xs, Entry(DbContainer, DbBody(wl, s)), Merged);
    if Monitored(s) {
      NamesUpserted(Upserted(xs, Entry(DbContainer, DbBody(wl, s)), Merged), Entry(Exporter, ExporterBody(wl, s)), Merged);
    }
    NameThere(ContainersUpserted(xs, wl, s), DbContainer);
  }

  lemma StillThere(xs: seq<Container>, env: seq<EnvVar>, m: Mount)
    requires exists c :: c in xs && c.name == DbContainer
    ensures var ys := EnvUpserted(xs, env);
      && (exists c :: c in ys && c.name == DbContainer)
      && (exists c :: c in MountUpserted(ys, m) && c.name == DbContainer)
  {
    var ys := EnvUpserted(xs, env);
    var i :| 0 <= i < |xs| && xs[i].name == DbContainer;
    assert Names(xs)[i] == DbContainer;
    EnvNames(xs, env);
    MountNames(ys, m);
    NameThere(ys, DbContainer);
    NameThere(MountUpserted(ys, m), DbContainer);
  }

  lemma NameThere(xs: seq<Container>, name: string)
    requires name in Names(xs)
    ensures exists c :: c in xs && c.name == name
  {
    var i :| 0 <= i < |xs| && Names(xs)[i] == name;
    assert xs[i] in xs && xs[i].name == name;
  }

  lemma {:induction false} EnvNames(xs: seq<Container>, env: seq<EnvVar>)
    ensures Names(EnvUpserted(xs, env)) == Names(xs)
  {
    if xs == [] {
    } else {
      EnvNames(xs[1..], env);
      assert EnvUpserted(xs, env)[1..] == EnvUpserted(xs[1..], env);
    }
  }

  lemma {:induction false} MountNames(xs: seq<Container>, m: Mount)
    ensures Names(MountUpserted(xs, m)) == Names(xs)
  {
    if xs == [] || xs[0].name == DbContainer {
    } else {
      MountNames(xs[1..], m);
      assert MountUpserted(xs, m)[1..] == MountUpserted(xs[1..], m);
    }
  }

  /* ---- the transform, name by name ---- */

  lemma {:induction false} FindEnvUpserted(xs: seq<Container>, env: seq<EnvVar>, name: string)
    ensures Find(EnvUpserted(xs, env), name) ==
      if Find(xs, name).Some? then Some(WithEnv(Entry(name, Find(xs, name).value), env).value) else None
  {
    if xs == [] {
    } else {
      FindEnvUpserted(xs[1..], env, name);
      assert EnvUpserted(xs, env)[1..] == EnvUpserted(xs[1..], env);
    }
  }

  lemma {:induction false} FindMountUpserted(xs: seq<Container>, m: Mount, name: string)
    ensures Find(MountUpserted(xs, m), name) ==
      if name == DbContainer && Find(xs, name).Some? then Some(WithMount(Entry(name, Find(xs, name).value), m).value)
      else Find(xs, name)
  {
    if xs == [] || xs[0].name == DbContainer {
    } else {
      FindMountUpserted(xs[1..], m, name);
      assert MountUpserted(xs, m)[1..] == MountUpserted(xs[1..], m);
    }
  }

  /** The database container that comes of what is stored under its name, if anything. */
  function DbAfter(was: Option<Body>, wl: Workload, s: Admission.Spec): Body
    requires Ready(s)
  {
    var merged := if was.Some? then Merged(was.value, DbBody(wl, s)) else DbBody(wl, s);
    merged.(env := UpsertedAll(merged.env, RootEnv(s.databaseSecret.value), Replaced),
            mounts := UpsertedAll(merged.mounts, Mounts(wl, s), Replaced))
  }

  function ExporterAfter(was: Option<Body>, wl: Workload, s: Admission.Spec): Option<Body>
    requires Ready(s)
  {
    var merged :=
      if !Monitored(s) then was
      else Some(if was.Some? then Merged(was.value, ExporterBody(wl, s)) else ExporterBody(wl, s));
    if merged.None? then None
    else Some(merged.value.(env := UpsertedAll(merged.value.env, RootEnv(s.databaseSecret.value), Replaced)))
  }

  lemma ContainersByName(xs: seq<Container>, wl: Workload, s: Admission.Spec, name: string)
    requires Ready(s)
    ensures Find(Containers(xs, wl, s), name) ==
      if name == DbContainer then Some(DbAfter(Find(xs, name), wl, s))
      else if name == Exporter then ExporterAfter(Find(xs, name), wl, s)
      else Find(xs, name)
  {
    var env := RootEnv(s.databaseSecret.value);
    var db := Upserted(xs, Entry(DbContainer, DbBody(wl, s)), Merged);
    var cs := ContainersUpserted(xs, wl, s);
    var data := MountUpserted(EnvUpserted(cs, env), DataMount());
    FindUpserted(xs, Entry(DbContainer, DbBody(wl, s)), Merged, name);
    if Monitored(s) { FindUpserted(db, Entry(Exporter, ExporterBody(wl, s)), Merged, name); }
    FindEnvUpserted(cs, env, name);
    FindMountUpserted(EnvUpserted(cs, env), DataMount(), name);
    if wl.config.Some? { FindMountUpserted(data, ConfigMount(s), name); }
    hide DbBody, ExporterBody, RootEnv, EnvUpserted, MountUpserted, Find, Merged;
    TwoMounts(DbMerged(Find(xs, DbContainer), wl, s).mounts, wl, s);
  }

  function DbMerged(was: Option<Body>, wl: Workload, s: Admission.Spec): Body {
    if was.Some? then Merged(was.value, DbBody(wl, s)) else DbBody(wl, s)
  }

  lemma TwoMounts(mounts: seq<Mount>, wl: Workload, s: Admission.Spec)
    ensures UpsertedAll(mounts, Mounts(wl, s), Replaced) ==
      var data := Upserted(mounts, DataMount(), Replaced);
      if wl.config.Some? then Upserted(data, ConfigMount(s), Replaced) else data
  {
    assert [DataMount()][..0] == [];
    UpsertedAllAppend(mounts, [DataMount()], ConfigMount(s), Replaced);
    assert [DataMount()] + [] == [DataMount()];
  }

  lemma ContainerNames(xs: seq<Container>, wl: Workload, s: Admission.Spec)
    requires Ready(s)
    ensures Names(Containers(xs, wl, s)) == Names(ContainersUpserted(xs, wl, s))
  {
    var env := RootEnv(s.databaseSecret.value);
    var cs := ContainersUpserted(xs, wl, s);
    EnvNames(cs, env);
    MountNames(EnvUpserted(cs, env), DataMount());
    MountNames(MountUpserted(EnvUpserted(cs, env), DataMount()), ConfigMount(s));
  }

  lemma NamesDecideUnique<T, U>(xs: seq<Entry<T>>, ys: seq<Entry<U>>)
    requires Unique(xs) && Names(xs) == Names(ys)
    ensures Unique(ys)
  {
    forall i, j | 0 <= i < j < |ys| ensures ys[i].name != ys[j].name {
      assert Names(xs)[i] == xs[i].name && Names(xs)[j] == xs[j].name;
      assert Names(ys)[i] == ys[i].name && Names(ys)[j] == ys[j].name;
    }
  }

  lemma ContainersUnique(xs: seq<Container>, wl: Workload, s: Admission.Spec)
    requires Ready(s) && Unique(xs)
    ensures Unique(Containers(xs, wl, s))
  {
    hide DbBody, ExporterBody, Containers;
    UpsertedUnique(xs, Entry(DbContainer, DbBody(wl, s)), Merged);
    if Monitored(s) {
      UpsertedUnique(Upserted(xs, Entry(DbContainer, DbBody(wl, s)), Merged), Entry(Exporter, ExporterBody(wl, s)), Merged);
    }
    ContainerNames(xs, wl, s);
    NamesDecideUnique(ContainersUpserted(xs, wl, s), Containers(xs, wl, s));
  }

  /* ---- idempotence ---- */

  lemma ResourcesTwice(was: map<string, nat>, given: map<string, nat>)
    ensures (was + given) + given == was + given
  {
  }

  lemma RootEnvUnique(secret: string)
    ensures Unique(RootEnv(secret))
  {
  }

  lemma MountsUnique(wl: Workload, s: Admission.Spec)
    ensures Unique(Mounts(wl, s))
  {
  }

  lemma UpsertAfterMerge<T>(was: seq<Entry<T>>, given: seq<Entry<T>>, ys: seq<Entry<T>>)
    requires Unique(ys)
    ensures var once := UpsertedAll(NonEmpty(was, given), ys, Replaced);
            UpsertedAll(NonEmpty(once, given), ys, Replaced) == once
  {
    if given == [] { ReplacingIdempotent(was, ys); }
  }

  lemma DbTwice(was: Option<Body>, wl: Workload, s: Admission.Spec)
    requires Ready(s)
    ensures DbAfter(Some(DbAfter(was, wl, s)), wl, s) == DbAfter(was, wl, s)
  {
    var b := DbBody(wl, s);
    var d := if was.Some? then was.value else b;
    hide DbBody, RootEnv, Mounts, UpsertedAll;
    assert Merged(b, b) == b by { MergedIsBand(); }
    RootEnvUnique(s.databaseSecret.value);
    MountsUnique(wl, s);
    UpsertAfterMerge(d.env, b.env, RootEnv(s.databaseSecret.value));
    UpsertAfterMerge(d.mounts, b.mounts, Mounts(wl, s));
    ResourcesTwice(d.resources, b.resources);
  }

  lemma ExporterTwice(was: Option<Body>, wl: Workload, s: Admission.Spec)
    requires Ready(s)
    ensures ExporterAfter(ExporterAfter(was, wl, s), wl, s) == ExporterAfter(was, wl, s)
  {
    hide RootEnv, UpsertedAll, ExporterBody;
    RootEnvUnique(s.databaseSecret.value);
    if Monitored(s) {
      var b := ExporterBody(wl, s);
      var d := if was.Some? then was.value else b;
      assert Merged(b, b) == b by { MergedIsBand(); }
      UpsertAfterMerge(d.env, b.env, RootEnv(s.databaseSecret.value));
      ResourcesTwice(d.resources, b.resources);
    } else if was.Some? {
      ReplacingIdempotent(was.value.env, RootEnv(s.databaseSecret.value));
    }
  }

  lemma NamesStay(xs: seq<Container>, wl: Workload, s: Admission.Spec)
    requires Ready(s)
    ensures var ys := Containers(xs, wl, s);
            Names(Containers(ys, wl, s)) == Names(ys)
  {
    hide DbBody, ExporterBody, Containers;
    var ys := Containers(xs, wl, s);
    var db := Entry(DbContainer, DbBody(wl, s));
    ContainerNames(xs, wl, s);
    ContainerNames(ys, wl, s);
    NamesUpserted(xs, db, Merged);
    NamesUpserted(ys, db, Merged);
    if Monitored(s) {
      var exporter := Entry(Exporter, ExporterBody(wl, s));
      NamesUpserted(Upserted(xs, db, Merged), exporter, Merged);
      NamesUpserted(Upserted(ys, db, Merged), exporter, Merged);
    }
  }

  lemma ContainersTwice(xs: seq<Container>, wl: Workload, s: Admission.Spec)
    requires Ready(s) && Unique(xs)
    ensures var ys := Containers(xs, wl, s);
            Containers(ys, wl, s) == ys
  {
    var ys := Containers(xs, wl, s);
    var zs := Containers(ys, wl, s);
    hide Containers, DbAfter, ExporterAfter;
    ContainersUnique(xs, wl, s);
    ContainersUnique(ys, wl, s);
    NamesStay(xs, wl, s);
    forall name | name in Names(zs) ensures Find(zs, name) == Find(ys, name) {
      ContainersByName(xs, wl, s, name);
      ContainersByName(ys, wl, s, name);
      DbTwice(Find(xs, name), wl, s);
      ExporterTwice(Find(xs, name), wl, s);
    }
    SameEntries(zs, ys);
  }

  ghost predicate UniqueNames(v: StatefulSetValue) {
    Unique(v.initContainers) && Unique(v.containers) && Unique(v.volumes) && Unique(v.claims)
  }

  lemma VolumesUnique(wl: Workload, s: Admission.Spec)
    ensures Unique(Volumes(wl, s)) && (Ready(s) ==> Unique(Claims(s)))
  {
  }

  /**
   Transforming again changes nothing, for every stored StatefulSet whose lists have unique names,
   every workload and every spec, also with the access modes that the first transform filled in.
   */
  lemma TransformIdempotent(v: StatefulSetValue, wl: Workload, s: Admission.Spec)
    requires Ready(s) && UniqueNames(v)
    ensures var once := Transformed(v, wl, s);
            Transformed(once, wl, s) == once && Ready(StorageDefaulted(s)) && Transformed(once, wl, StorageDefaulted(s)) == once
  {
    var once := Transformed(v, wl, s);
    ContainersTwice(v.containers, wl, s);
    MergedIsBand();
    VolumesUnique(wl, s);
    MergingIdempotent(v.initContainers, wl.initContainers + [LostFound(wl)], Merged);
    ReplacingIdempotent(v.volumes, Volumes(wl, s));
    ReplacingIdempotent(v.claims, Claims(s));
    DefaultedSame(once, wl, s);
    hide Containers, UpsertedAll, Claims, LostFound, Volumes, StorageDefaulted;
  }

  lemma DefaultedSame(v: StatefulSetValue, wl: Workload, s: Admission.Spec)
    requires Ready(s)
    ensures Ready(StorageDefaulted(s)) && Transformed(v, wl, StorageDefaulted(s)) == Transformed(v, wl, s)
  {
    var s' := StorageDefaulted(s);
    assert DbBody(wl, s') == DbBody(wl, s);
    assert Monitored(s) ==> ExporterBody(wl, s') == ExporterBody(wl, s);
    assert Claims(s') == Claims(s) && Volumes(wl, s') == Volumes(wl, s) && ConfigMount(s') == ConfigMount(s);
    hide DbBody, ExporterBody, Claims, Volumes, ConfigMount;
  }

  /* ---- unique names ---- */

  ghost predicate UniqueInside(o: Option<Body>) { o.Some? ==> Unique(o.value.env) && Unique(o.value.mounts) }

  /**
   Names stay unique: of containers, init containers, volumes and claims, and of the environment and
   the mounts of the two containers the operator writes. The exporter's variables are the user's
   list as it is, so they are unique if that list is.
   */
  lemma TransformKeepsUnique(v: StatefulSetValue, wl: Workload, s: Admission.Spec)
    requires Ready(s) && UniqueNames(v)
    requires UniqueInside(Find(v.containers, DbContainer)) && UniqueInside(Find(v.containers, Exporter))
    requires Unique(wl.exporterEnv)
    ensures var after := Transformed(v, wl, s);
      && UniqueNames(after)
      && UniqueInside(Find(after.containers, DbContainer)) && UniqueInside(Find(after.containers, Exporter))
  {
    var after := Transformed(v, wl, s);
    ContainersUnique(v.containers, wl, s);
    UpsertedAllUnique(v.initContainers, wl.initContainers + [LostFound(wl)], Merged);
    UpsertedAllUnique(v.volumes, Volumes(wl, s), Replaced);
    UpsertedAllUnique(v.claims, Claims(s), Replaced);
    ContainersByName(v.containers, wl, s, DbContainer);
    ContainersByName(v.containers, wl, s, Exporter);
    hide Containers, UpsertedAll, Volumes, Claims, LostFound;
    DbUnique(Find(v.containers, DbContainer), wl, s);
    ExporterUnique(Find(v.containers, Exporter), wl, s);
  }

  lemma DbUnique(was: Option<Body>, wl: Workload, s: Admission.Spec)
    requires Ready(s) && UniqueInside(was)
    ensures UniqueInside(Some(DbAfter(was, wl, s)))
  {
    UpsertedAllUnique(OperatorEnv(wl, s), wl.env, Replaced);
    var merged := DbMerged(was, wl, s);
    UpsertedAllUnique(merged.env, RootEnv(s.databaseSecret.value), Replaced);
    UpsertedAllUnique(merged.mounts, Mounts(wl, s), Replaced);
    hide UpsertedAll, RootEnv, Mounts, DbBody;
  }

  lemma ExporterUnique(was: Option<Body>, wl: Workload, s: Admission.Spec)
    requires Ready(s) && UniqueInside(was) && Unique(wl.exporterEnv)
    ensures UniqueInside(ExporterAfter(was, wl, s))
  {
    if was.Some? { UpsertedAllUnique(was.value.env, RootEnv(s.databaseSecret.value), Replaced); }
    UpsertedAllUnique(wl.exporterEnv, RootEnv(s.databaseSecret.value), Replaced);
    hide UpsertedAll, RootEnv;
  }

  /* ---- precedence in the environment of the database container ---- */

  function DbEnvAfter(v: StatefulSetValue, wl: Workload, s: Admission.Spec): seq<EnvVar>
    requires Ready(s)
  {
    var db := Find(Transformed(v, wl, s).containers, DbContainer);
    if db.Some? then db.value.env else []
  }

  /** What each name ought to resolve to, for the spec alone. */
  function Resolved(wl: Workload, s: Admission.Spec, name: string): Option<EnvValue>
    requires Ready(s)
  {
    if name == RootPassword then Some(SecretKey(s.databaseSecret.value, "password"))
    else if name == RootUsername then Some(SecretKey(s.databaseSecret.value, "username"))
    else if Last(wl.env, name).Some? then Last(wl.env, name)
    else if name == ClusterName && Admission.IsCluster(s) then Some(Literal(wl.name))
    else None
  }

  lemma FindRootEnv(env: seq<EnvVar>, secret: string, name: string)
    ensures Find(UpsertedAll(env, RootEnv(secret), Replaced), name) ==
      if name == RootPassword then Some(SecretKey(secret, "password"))
      else if name == RootUsername then Some(SecretKey(secret, "username"))
      else Find(env, name)
  {
    var ys := RootEnv(secret);
    LastWins(env, ys, name);
    RootEnvUnique(secret);
    LastOfUnique(ys, 0);
    LastOfUnique(ys, 1);
    LastNamed(ys, name);
  }

  lemma FindDbEnv(wl: Workload, s: Admission.Spec, name: string)
    ensures Find(DbEnv(wl, s), name) ==
      if Last(wl.env, name).Some? then Last(wl.env, name)
      else if name == ClusterName && Admission.IsCluster(s) then Some(Literal(wl.name))
      else None
  {
    LastWins(OperatorEnv(wl, s), wl.env, name);
  }

  lemma DbEnvEmpty(wl: Workload, s: Admission.Spec)
    ensures DbEnv(wl, s) == [] <==> !Admission.IsCluster(s) && wl.env == []
  {
    NamesUpsertedAll(OperatorEnv(wl, s), wl.env, Replaced);
    if wl.env != [] { assert wl.env[0].name in Names(UpsertedAll(OperatorEnv(wl, s), wl.env, Replaced)); }
  }

  /** A standalone database without variables of its own keeps whatever the stored container had. */
  predicate Inherits(v: StatefulSetValue, wl: Workload, s: Admission.Spec) {
    !Admission.IsCluster(s) && wl.env == [] && Find(v.containers, DbContainer).Some?
  }

  lemma EnvResult(v: StatefulSetValue, wl: Workload, s: Admission.Spec, name: string)
    requires Ready(s)
    ensures Find(DbEnvAfter(v, wl, s), name) ==
      if Inherits(v, wl, s) && name != RootPassword && name != RootUsername
      then Find(Find(v.containers, DbContainer).value.env, name)
      else Resolved(wl, s, name)
  {
    var was := Find(v.containers, DbContainer);
    ContainersByName(v.containers, wl, s, DbContainer);
    DbEnvEmpty(wl, s);
    FindDbEnv(wl, s, name);
    FindRootEnv(DbMerged(was, wl, s).env, s.databaseSecret.value, name);
    hide Containers, DbEnv, RootEnv, UpsertedAll;
  }

  /** The stored variables that would be inherited although the spec no longer gives them. */
  ghost predicate Stale(v: StatefulSetValue, wl: Workload, s: Admission.Spec) {
    Inherits(v, wl, s) &&
    exists name :: name != RootPassword && name != RootUsername && Find(Find(v.containers, DbContainer).value.env, name).Some?
  }

  /**
   Precedence: every name resolves as the spec alone says, exactly unless a standalone database
   whose spec gives no variables has a stored container that does.
   */
  lemma EnvPrecedenceExactly(v: StatefulSetValue, wl: Workload, s: Admission.Spec)
    requires Ready(s)
    ensures (forall name :: Find(DbEnvAfter(v, wl, s), name) == Resolved(wl, s, name)) <==> !Stale(v, wl, s)
  {
    hide DbEnvAfter, Resolved;
    if Stale(v, wl, s) {
      var name :| name != RootPassword && name != RootUsername && Find(Find(v.containers, DbContainer).value.env, name).Some?;
      EnvResult(v, wl, s, name);
      ResolvedNothing(wl, s, name);
    } else {
      forall name ensures Find(DbEnvAfter(v, wl, s), name) == Resolved(wl, s, name) {
        EnvResult(v, wl, s, name);
        if Inherits(v, wl, s) && name != RootPassword && name != RootUsername { ResolvedNothing(wl, s, name); }
      }
    }
  }

  lemma ResolvedNothing(wl: Workload, s: Admission.Spec, name: string)
    requires Ready(s) && !Admission.IsCluster(s) && wl.env == [] && name != RootPassword && name != RootUsername
    ensures Resolved(wl, s, name) == None
  {
  }

  /** A variable set and then taken out of the spec of a standalone database stays. */
  lemma StaleVariableStays(v: StatefulSetValue, wl: Workload, s: Admission.Spec, name: string, value: EnvValue)
    requires Ready(s) && !Admission.IsCluster(s) && name != RootPassword && name != RootUsername
    requires wl.env == [Entry(name, value)]
    ensures var once := Transformed(v, wl, s);
      && Find(DbEnvAfter(once, wl.(env := []), s), name) == Some(value)
      && Resolved(wl.(env := []), s, name) == None
  {
    var once := Transformed(v, wl, s);
    EnvResult(v, wl, s, name);
    assert Last(wl.env, name) == Some(value);
    assert Resolved(wl, s, name) == Some(value);
    ContainersByName(v.containers, wl, s, DbContainer);
    EnvResult(once, wl.(env := []), s, name);
    hide Transformed, Resolved;
    ResolvedNothing(wl.(env := []), s, name);
  }

  /* ---- the data volume over the life of a database ---- */

  /** Either an emptyDir volume or a claim template carries the data, as the storage type says. */
  predicate OneDataVolume(v: StatefulSetValue, storageType: string) {
    if storageType == Admission.Ephemeral then
      Find(v.claims, Data).None? && Find(v.volumes, Data).Some? && Find(v.volumes, Data).value.EmptyDir?
    else
      Find(v.volumes, Data).None? && Find(v.claims, Data).Some?
  }

  predicate NoOtherData(v: StatefulSetValue, storageType: string) {
    if storageType == Admission.Ephemeral then Find(v.claims, Data).None? else Find(v.volumes, Data).None?
  }

  lemma VolumesData(wl: Workload, s: Admission.Spec)
    ensures Last(Volumes(wl, s), Data) ==
      if s.storageType == Admission.Ephemeral then Some(EmptyDir(if s.storage.Some? then s.storage.value.request else None)) else None
  {
    var vs := Volumes(wl, s);
    if Last(vs, Data).Some? { LastNamed(vs, Data); }
    if s.storageType == Admission.Ephemeral {
      var i := |ScriptVolumes(wl, s)|;
      assert vs[i] == DataVolumes(s)[0];
      VolumesUnique(wl, s);
      LastOfUnique(vs, i);
    }
  }

  lemma TransformedData(v: StatefulSetValue, wl: Workload, s: Admission.Spec)
    requires Ready(s) && NoOtherData(v, s.storageType)
    ensures OneDataVolume(Transformed(v, wl, s), s.storageType)
  {
    LastWins(v.volumes, Volumes(wl, s), Data);
    VolumesData(wl, s);
    LastWins(v.claims, Claims(s), Data);
    hide Containers, Volumes, UpsertedAll;
  }

  /**
   What happens to the StatefulSet: a create pass writes it under some stored version of the
   database, with the secret that the pass has bound the database to, or it is removed.
   */
  datatype Deed = Write(version: nat, secret: string, wl: Workload) | Remove

  function Bound(x: Admission.Object, secret: string): Admission.Spec {
    x.spec.(databaseSecret := Some(secret))
  }

  predicate Doable(xs: seq<Admission.Object>, d: Deed) {
    d.Write? ==> d.version < |xs| && Ready(Bound(xs[d.version], d.secret))
  }

  function AfterDeeds(xs: seq<Admission.Object>, ds: seq<Deed>): StatefulSetValue
    requires forall i :: 0 <= i < |ds| ==> Doable(xs, ds[i])
  {
    if ds == [] then NewStatefulSet
    else
      var before, d := AfterDeeds(xs, ds[..|ds| - 1]), ds[|ds| - 1];
      assert Doable(xs, d);
      match d
      case Write(version, secret, wl) => Transformed(before, wl, Bound(xs[version], secret))
      case Remove => NewStatefulSet
  }

  lemma VersionsDoable(xs: seq<Admission.Object>, ds: seq<Deed>)
    requires Admission.Chain(xs) && forall i :: 0 <= i < |ds| && ds[i].Write? ==> ds[i].version < |xs|
    ensures forall i :: 0 <= i < |ds| ==> Doable(xs, ds[i])
  {
    forall i | 0 <= i < |ds| ensures Doable(xs, ds[i]) {
      if ds[i].Write? { Admission.ChainKeeps(xs, 0, ds[i].version); }
    }
  }

  /**
   Whatever versions of an admitted database its passes write the StatefulSet under, in whatever
   order and however often, with the object removed in between or not: it never has both an emptyDir
   volume and a claim template for the data, and after a write it has the one that goes with the
   storage type.
   */
  lemma {:induction false} OneDataVolumeAlways(xs: seq<Admission.Object>, ds: seq<Deed>)
    requires Admission.Chain(xs) && xs != [] && forall i :: 0 <= i < |ds| && ds[i].Write? ==> ds[i].version < |xs|
    ensures forall i :: 0 <= i < |ds| ==> Doable(xs, ds[i])
    ensures NoOtherData(AfterDeeds(xs, ds), xs[0].spec.storageType)
    ensures ds != [] && ds[|ds| - 1].Write? ==> OneDataVolume(AfterDeeds(xs, ds), xs[0].spec.storageType)
  {
    VersionsDoable(xs, ds);
    hide Transformed, Admission.Chain;
    if ds != [] {
      var d := ds[|ds| - 1];
      OneDataVolumeAlways(xs, ds[..|ds| - 1]);
      if d.Write? {
        Admission.ChainKeeps(xs, 0, d.version);
        TransformedData(AfterDeeds(xs, ds[..|ds| - 1]), d.wl, Bound(xs[d.version], d.secret));
      }
    }
  }
}
