/**
 What the StatefulSet says after a create pass has written it, field by field and container by
 container: which fields are the database's whatever was stored, and which the stored ones can keep.
 */
module Workloads {
  import opened Options
  import opened Upserts
  import opened StatefulSets
  import Admission

  /** Two stored values that agree on everything that is upserted into. */
  predicate SameLists(v: StatefulSetValue, u: StatefulSetValue) {
    v.initContainers == u.initContainers && v.containers == u.containers && v.volumes == u.volumes && v.claims == u.claims
  }

  /**
   The plain fields converge: whatever the stored StatefulSet has in them, the written one has the
   spec's replicas and node selector, the governing service and the service account of the database,
   and its scheduler if it names one; the database is an owner beside those there were.
   */
  lemma FieldsConverge(v: StatefulSetValue, u: StatefulSetValue, wl: Workload, s: Admission.Spec)
    requires Ready(s) && SameLists(v, u) && (wl.schedulerName == "" ==> u.schedulerName == v.schedulerName)
    ensures var after := Transformed(v, wl, s);
      && Transformed(u, wl, s) == after.(owners := Transformed(u, wl, s).owners)
      && after.replicas == s.replicas && after.serviceName == wl.governingService
      && after.nodeSelector == s.nodeSelector && after.serviceAccountName == wl.name
      && after.schedulerName == (if wl.schedulerName != "" then wl.schedulerName else v.schedulerName)
      && after.owners == v.owners + {wl.uid}
  {
    hide UpsertedAll, Containers, Volumes, Claims, LostFound;
  }

  /** A given value that is not empty wins; else the stored container's stays, if there is one. */
  function Given<T>(given: seq<T>, was: Option<Body>, stored: Body -> seq<T>): seq<T> {
    if given != [] then given else if was.Some? then stored(was.value) else []
  }

  function GivenOption<T>(given: Option<T>, was: Option<Body>, stored: Body -> Option<T>): Option<T> {
    if given.Some? then given else if was.Some? then stored(was.value) else None
  }

  /**
   The database container, given the stored one if any: the image of the version; for a cluster the
   peer finder with the governing service and the user's arguments, and the two replication ports; for
   a standalone database the command and arguments that are stored.
   */
  predicate DbRuns(was: Option<Body>, b: Body, wl: Workload, s: Admission.Spec) {
    var cluster := s.replicas.Some? && s.replicas.value > 1;
    && b.image == Given(wl.dbImage, was, (b: Body) => b.image)
    && b.command == Given(if cluster then ["peer-finder"] else [], was, (b: Body) => b.command)
    && b.args == Given(if cluster then ["-service=" + wl.governingService, "-on-start=/on-start.sh " + wl.args] else [],
                       was, (b: Body) => b.args)
    && b.ports == (if cluster then [3306, 4567, 4568] else [3306])
    && b.lifecycle == GivenOption(wl.lifecycle, was, (b: Body) => b.lifecycle)
    && b.livenessProbe == GivenOption(wl.livenessProbe, was, (b: Body) => b.livenessProbe)
    && b.readinessProbe == GivenOption(wl.readinessProbe, was, (b: Body) => b.readinessProbe)
    && b.resources == (if was.Some? then was.value.resources + wl.resources else wl.resources)
  }

  lemma DbAfterRuns(was: Option<Body>, wl: Workload, s: Admission.Spec)
    requires Ready(s)
    ensures DbRuns(was, DbAfter(was, wl, s), wl, s)
  {
    hide UpsertedAll, RootEnv, Mounts, DbEnv, ScriptMounts;
  }

  lemma DbContainerRuns(v: StatefulSetValue, wl: Workload, s: Admission.Spec)
    requires Ready(s)
    ensures var after := Find(Transformed(v, wl, s).containers, "perconaxtradb");
      after.Some? && DbRuns(Find(v.containers, "perconaxtradb"), after.value, wl, s)
  {
    ContainersByName(v.containers, wl, s, DbContainer);
    DbAfterRuns(Find(v.containers, DbContainer), wl, s);
    hide DbRuns, DbAfter, Containers, UpsertedAll, Volumes, Claims, LostFound;
  }

  /** It mounts the data, the custom configuration if there is one, and a standalone database's script. */
  lemma DbContainerMounts(v: StatefulSetValue, wl: Workload, s: Admission.Spec)
    requires Ready(s)
    ensures var after := Find(Transformed(v, wl, s).containers, "perconaxtradb");
      var cluster := s.replicas.Some? && s.replicas.value > 1;
      && after.Some?
      && Find(after.value.mounts, "data") == Some("/var/lib/mysql")
      && (wl.config.Some? ==>
            Find(after.value.mounts, "custom-config") ==
              Some(if cluster then "/etc/percona-xtradb-cluster.conf.d/" else "/etc/percona-server.conf.d/"))
      && (!cluster && wl.script.Some? ==> Find(after.value.mounts, "initial-script") == Some("/docker-entrypoint-initdb.d"))
  {
    var was := Find(v.containers, DbContainer);
    ContainersByName(v.containers, wl, s, DbContainer);
    var mounts := DbMerged(was, wl, s).mounts;
    MountsFound(mounts, wl, s, "data");
    MountsFound(mounts, wl, s, "custom-config");
    MountsFound(mounts, wl, s, "initial-script");
    hide Containers, UpsertedAll, RootEnv, DbEnv, Mounts;
  }

  lemma MountsFound(mounts: seq<Mount>, wl: Workload, s: Admission.Spec, name: string)
    ensures Find(UpsertedAll(mounts, Mounts(wl, s), Replaced), name) ==
      if name == "data" then Some("/var/lib/mysql")
      else if name == "custom-config" && wl.config.Some? then
        Some(if s.replicas.Some? && s.replicas.value > 1 then "/etc/percona-xtradb-cluster.conf.d/" else "/etc/percona-server.conf.d/")
      else Find(mounts, name)
  {
    TwoMounts(mounts, wl, s);
    FindUpserted(mounts, DataMount(), Replaced, name);
    FindUpserted(Upserted(mounts, DataMount(), Replaced), ConfigMount(s), Replaced, name);
    hide UpsertedAll, Mounts;
  }

  /** The exporter, when the agent is a Prometheus one: its image, shell, command and port. */
  lemma ExporterRuns(v: StatefulSetValue, wl: Workload, s: Admission.Spec)
    requires Ready(s) && Monitored(s)
    ensures var was, after := Find(v.containers, "exporter"), Find(Transformed(v, wl, s).containers, "exporter");
      var port := s.monitor.value.port;
      && after.Some?
      && after.value.image == Given(wl.exporterImage, was, (b: Body) => b.image)
      && after.value.command == ["/bin/sh"]
      && after.value.args == Given(wl.exporterCommand, was, (b: Body) => b.args)
      && after.value.ports == Given(if port.Some? && port.value > 0 then [port.value] else [], was, (b: Body) => b.ports)
  {
    ContainersByName(v.containers, wl, s, Exporter);
    hide Containers, UpsertedAll, RootEnv;
  }

  /** Both find the root user's password and name in the database's secret. */
  lemma RootCredentials(v: StatefulSetValue, wl: Workload, s: Admission.Spec, name: string)
    requires Ready(s) && (name == "perconaxtradb" || (name == "exporter" && Monitored(s)))
    ensures var after := Find(Transformed(v, wl, s).containers, name);
      && after.Some?
      && Find(after.value.env, "MYSQL_ROOT_PASSWORD") == Some(SecretKey(s.databaseSecret.value, "password"))
      && Find(after.value.env, "MYSQL_ROOT_USERNAME") == Some(SecretKey(s.databaseSecret.value, "username"))
  {
    ContainersByName(v.containers, wl, s, name);
    var was, secret := Find(v.containers, name), s.databaseSecret.value;
    var env :=
      if name == DbContainer then DbMerged(was, wl, s).env
      else if was.Some? then Merged(was.value, ExporterBody(wl, s)).env
      else ExporterBody(wl, s).env;
    FindRootEnv(env, secret, RootPassword);
    FindRootEnv(env, secret, RootUsername);
    hide Containers, UpsertedAll, RootEnv, DbBody, Merged, Mounts;
  }

  /** The init container that clears the data directory runs last, merged over a stored or given one of its name. */
  lemma LostFoundRuns(v: StatefulSetValue, wl: Workload, s: Admission.Spec)
    requires Ready(s)
    ensures var after := Find(Transformed(v, wl, s).initContainers, "remove-lost-found");
      && after.Some?
      && after.value.command == ["rm", "-rf", "/var/lib/mysql/lost+found"]
      && Find(after.value.mounts, "data") == Some("/var/lib/mysql")
      && (wl.initImage != "" ==> after.value.image == wl.initImage)
  {
    var before := UpsertedAll(v.initContainers, wl.initContainers, Merged);
    UpsertedAllAppend(v.initContainers, wl.initContainers, LostFound(wl), Merged);
    FindUpserted(before, LostFound(wl), Merged, "remove-lost-found");
    hide UpsertedAll, Containers, Volumes, Claims;
  }

  /** The volumes behind the mounts. */
  lemma VolumesThere(v: StatefulSetValue, wl: Workload, s: Admission.Spec)
    requires Ready(s)
    ensures var after := Transformed(v, wl, s);
      && (wl.config.Some? ==> Find(after.volumes, "custom-config") == wl.config)
      && (wl.script.Some? && !(s.replicas.Some? && s.replicas.value > 1) ==> Find(after.volumes, "initial-script") == wl.script)
      && (s.storageType == "Ephemeral" ==>
            Find(after.volumes, "data") == Some(EmptyDir(if s.storage.Some? then s.storage.value.request else None)))
      && (s.storageType != "Ephemeral" ==>
            Find(after.claims, "data") ==
              Some(if s.storage.value.accessModes == [] then s.storage.value.(accessModes := ["ReadWriteOnce"]) else s.storage.value))
  {
    LastWins(v.volumes, Volumes(wl, s), "custom-config");
    LastWins(v.volumes, Volumes(wl, s), "initial-script");
    LastWins(v.volumes, Volumes(wl, s), "data");
    if wl.config.Some? { ConfigVolume(wl, s); }
    if HasScript(wl, s) { ScriptVolume(wl, s); }
    VolumesData(wl, s);
    if s.storageType != Admission.Ephemeral { DataClaim(v.claims, s); }
    hide Containers, UpsertedAll, Volumes, Claims;
  }

  lemma ConfigVolume(wl: Workload, s: Admission.Spec)
    requires wl.config.Some?
    ensures Last(Volumes(wl, s), "custom-config") == wl.config
  {
    var vs := Volumes(wl, s);
    assert vs[|vs| - 1] == Entry("custom-config", wl.config.value);
  }

  lemma ScriptVolume(wl: Workload, s: Admission.Spec)
    requires HasScript(wl, s)
    ensures Last(Volumes(wl, s), "initial-script") == wl.script
  {
    var vs := Volumes(wl, s);
    VolumesUnique(wl, s);
    assert vs[0] == Entry("initial-script", wl.script.value);
    hide Volumes;
    LastOfUnique(vs, 0);
  }

  lemma DataClaim(claims: seq<Claim>, s: Admission.Spec)
    requires Ready(s) && s.storageType != "Ephemeral"
    ensures Find(UpsertedAll(claims, Claims(s), Replaced), "data") ==
      Some(if s.storage.value.accessModes == [] then s.storage.value.(accessModes := ["ReadWriteOnce"]) else s.storage.value)
  {
    LastWins(claims, Claims(s), "data");
  }
}
