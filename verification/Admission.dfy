/**
 The mutating and the validating webhook. The validator's set of frozen fields is a package-level
 variable that requests change as they are handled, so what it accepts depends on its history.
 */
module Admission {
  import opened Options

  const Durable: string := "Durable"
  const Ephemeral: string := "Ephemeral"
  const PolicyHalt: string := "Halt"
  const PolicyDelete: string := "Delete"
  const PolicyDoNotTerminate: string := "DoNotTerminate"
  const VendorPrometheus: string := "prometheus.io"
  const ExporterPort: int := 56790
  const ClusterVersion: string := "5.7"
  const MaxClusterNameLength: nat := 32
  const DefaultClusterSize: int := 3

  /** `port` is None when there is no Prometheus section, and 0 when the section leaves it out. */
  datatype Monitor = Monitor(agent: string, port: Option<int>)

  datatype Init = Init(script: bool, waitForInitialRestore: bool)

  datatype Storage = Storage(storageClass: Option<string>, request: Option<int>, accessModes: seq<string>)

  datatype Probe = ClusterCheck | PingCheck | Given(id: nat)

  /** `rest` stands for the fields that neither webhook looks at. */
  datatype Spec = Spec(
    version: string,
    replicas: Option<int>,
    storageType: string,
    storage: Option<Storage>,
    databaseSecret: Option<string>,
    init: Option<Init>,
    monitor: Option<Monitor>,
    env: seq<string>,
    nodeSelector: map<string, string>,
    readinessProbe: Option<Probe>,
    halted: bool,
    terminationPolicy: string,
    rest: nat)

  datatype Object = Object(
    apiVersion: string, kind: string, namespace: string, name: string, spec: Spec, provisioned: Option<bool>)

  datatype Result<+T, +E> = Ok(value: T) | Err(error: E)

  /* ---- defaulting ---- */

  predicate IsCluster(s: Spec) { s.replicas.Some? && s.replicas.value > 1 }

  function BeforeSlash(a: string): string {
    if a == "" || a[0] == '/' then "" else [a[0]] + BeforeSlash(a[1..])
  }

  /** The vendor of an agent type; one without a slash has none. */
  function Vendor(agent: string): string {
    if '/' in agent then BeforeSlash(agent) else ""
  }

  function DefaultedMonitor(m: Monitor): Monitor {
    if Vendor(m.agent) != VendorPrometheus then m
    else m.(port := Some(if m.port.None? || m.port.value == 0 then ExporterPort else m.port.value))
  }

  function Defaulted(s: Spec): Spec {
    s.(replicas := if s.replicas.None? then Some(1) else s.replicas,
       storageType := if s.storageType == "" then Durable else s.storageType,
       terminationPolicy := if s.terminationPolicy == "" then PolicyDelete else s.terminationPolicy,
       readinessProbe :=
         if s.readinessProbe.Some? then s.readinessProbe
         else Some(if IsCluster(s) then ClusterCheck else PingCheck),
       monitor := if s.monitor.None? then None else Some(DefaultedMonitor(s.monitor.value)))
  }

  datatype MutationError = VersionMissing | HaltForbidden

  function Mutated(s: Spec): Result<Spec, MutationError> {
    if s.version == "" then Err(VersionMissing)
    else if s.halted && s.terminationPolicy == PolicyDoNotTerminate then Err(HaltForbidden)
    else Ok(Defaulted(if s.halted then s.(terminationPolicy := PolicyHalt) else s))
  }

  /** The object under review, which the mutating webhook changes in place. */
  class PerconaXtraDB {
    var spec: Spec

    constructor (s: Spec)
      ensures spec == s
    {
      spec := s;
    }

    method SetDefaultProbes()
      modifies this
      ensures spec == old(spec).(readinessProbe :=
        if old(spec).readinessProbe.Some? then old(spec).readinessProbe
        else Some(if IsCluster(old(spec)) then ClusterCheck else PingCheck))
    {
      var check := if IsCluster(spec) then ClusterCheck else PingCheck;
      if spec.readinessProbe.None? {
        spec := spec.(readinessProbe := Some(check));
      }
    }

    method SetMonitorDefaults()
      modifies this
      ensures spec == old(spec).(monitor :=
        if old(spec).monitor.None? then None else Some(DefaultedMonitor(old(spec).monitor.value)))
    {
      if spec.monitor.Some? && Vendor(spec.monitor.value.agent) == VendorPrometheus {
        if spec.monitor.value.port.None? {
          spec := spec.(monitor := Some(spec.monitor.value.(port := Some(0))));
        }
        if spec.monitor.value.port == Some(0) {
          spec := spec.(monitor := Some(spec.monitor.value.(port := Some(ExporterPort))));
        }
      }
    }

    method SetDefaults()
      modifies this
      ensures spec == Defaulted(old(spec))
    {
      if spec.replicas.None? {
        spec := spec.(replicas := Some(1));
      }
      if spec.storageType == "" {
        spec := spec.(storageType := Durable);
      }
      if spec.terminationPolicy == "" {
        spec := spec.(terminationPolicy := PolicyDelete);
      }
      SetDefaultProbes();
      SetMonitorDefaults();
    }
  }

  method SetDefaultValues(px: PerconaXtraDB) returns (error: Option<MutationError>)
    modifies px
    ensures match Mutated(old(px.spec))
            case Ok(s) => error == None && px.spec == s
            case Err(e) => error == Some(e) && px.spec == old(px.spec)
  {
    if px.spec.version == "" {
      return Some(VersionMissing);
    }
    if px.spec.halted {
      if px.spec.terminationPolicy == PolicyDoNotTerminate {
        return Some(HaltForbidden);
      }
      px.spec := px.spec.(terminationPolicy := PolicyHalt);
    }
    px.SetDefaults();
    return None;
  }

  /** Defaulting again changes nothing, and fields that were set stay as they were. */
  lemma DefaultsFillOnly(s: Spec)
    ensures Defaulted(Defaulted(s)) == Defaulted(s)
    ensures var d := Defaulted(s);
      && (s.replicas.Some? ==> d.replicas == s.replicas)
      && (s.storageType != "" ==> d.storageType == s.storageType)
      && (s.terminationPolicy != "" ==> d.terminationPolicy == s.terminationPolicy)
      && (s.readinessProbe.Some? ==> d.readinessProbe == s.readinessProbe)
      && (s.monitor.Some? ==> d.monitor.Some? && d.monitor.value.agent == s.monitor.value.agent)
      && d.storage == s.storage && d.databaseSecret == s.databaseSecret && d.init == s.init && d.nodeSelector == s.nodeSelector
  {
  }

  lemma MutationIdempotent(s: Spec)
    requires Mutated(s).Ok?
    ensures Mutated(Mutated(s).value) == Mutated(s)
  {
    DefaultsFillOnly(s);
  }

  /* ---- validation ---- */

  datatype CatalogVersion = CatalogVersion(version: string, deprecated: bool, complete: bool)

  /**
   What the validator reads from the API server. Versions, storage classes and secrets that cannot be
   read are left out; `stored` has the termination policy of each database there is, and `down` says
   that reading one of those fails.
   */
  datatype Environment = Environment(
    versions: map<string, CatalogVersion>, storageClasses: set<string>, secrets: set<(string, string)>,
    stored: map<(string, string), string>, down: bool)

  datatype Error =
    | NoVersion | UnknownVersion | UnsupportedClusterVersion | ClusterTooSmall | ClusterNameTooLong | ScriptInCluster
    | ForbiddenEnv | NoStorageType | BadStorageType | BadStorage | NoSecret | DeprecatedVersion | IncompleteVersion
    | NoPolicy | HaltOnEphemeral | BadMonitor

  /** Building the error for missing replicas dereferences them, so the handler crashes. */
  datatype Verdict = Valid | Invalid(error: Error) | Crash

  const ForbiddenEnvVars: seq<string> :=
    ["MYSQL_ROOT_PASSWORD", "MYSQL_ALLOW_EMPTY_PASSWORD", "MYSQL_RANDOM_ROOT_PASSWORD", "MYSQL_ONETIME_PASSWORD"]

  function ValidateCluster(name: string, s: Spec): Option<Error> {
    if IsCluster(s) && |name| > MaxClusterNameLength then Some(ClusterNameTooLong)
    else if IsCluster(s) && s.init.Some? && s.init.value.script then Some(ScriptInCluster)
    else None
  }

  predicate StorageOk(env: Environment, s: Spec) {
    s.storageType == Ephemeral ||
    (s.storage.Some? &&
     (s.storage.value.storageClass.Some? ==> s.storage.value.storageClass.value in env.storageClasses) &&
     s.storage.value.request.Some? && s.storage.value.request.value > 0)
  }

  predicate MonitorOk(m: Monitor) {
    m.agent != "" && Vendor(m.agent) == VendorPrometheus && m.port.Some? && 1024 <= m.port.value <= 65535
  }

  /** The checks before the strict ones. */
  function ValidateBasics(env: Environment, name: string, s: Spec): Verdict {
    if s.version == "" then Invalid(NoVersion)
    else if s.replicas.None? then Crash
    else if s.version !in env.versions then Invalid(UnknownVersion)
    else if IsCluster(s) && env.versions[s.version].version != ClusterVersion then Invalid(UnsupportedClusterVersion)
    else if IsCluster(s) && s.replicas.value < DefaultClusterSize then Invalid(ClusterTooSmall)
    else if ValidateCluster(name, s).Some? then Invalid(ValidateCluster(name, s).value)
    else if exists e :: e in s.env && e in ForbiddenEnvVars then Invalid(ForbiddenEnv)
    else if s.storageType == "" then Invalid(NoStorageType)
    else if s.storageType != Durable && s.storageType != Ephemeral then Invalid(BadStorageType)
    else if !StorageOk(env, s) then Invalid(BadStorage)
    else Valid
  }

  function ValidateStrictly(env: Environment, namespace: string, s: Spec): Verdict
    requires s.version in env.versions
  {
    if s.databaseSecret.Some? && (namespace, s.databaseSecret.value) !in env.secrets then Invalid(NoSecret)
    else if env.versions[s.version].deprecated then Invalid(DeprecatedVersion)
    else if !env.versions[s.version].complete then Invalid(IncompleteVersion)
    else Valid
  }

  function Validate(env: Environment, namespace: string, name: string, s: Spec, strict: bool): Verdict {
    var basics := ValidateBasics(env, name, s);
    if basics != Valid then basics
    else if strict && ValidateStrictly(env, namespace, s) != Valid then ValidateStrictly(env, namespace, s)
    else if s.terminationPolicy == "" then Invalid(NoPolicy)
    else if s.storageType == Ephemeral && s.terminationPolicy == PolicyHalt then Invalid(HaltOnEphemeral)
    else if s.monitor.Some? && !MonitorOk(s.monitor.value) then Invalid(BadMonitor)
    else Valid
  }

  /* ---- preconditions on updates ---- */

  datatype Precondition = KeyUnchanged(key: string) | MetadataUnchanged(key: string) | ChainUnchanged(path: string)

  const IdentityKeys: seq<Precondition> :=
    [KeyUnchanged("apiVersion"), KeyUnchanged("kind"), MetadataUnchanged("name"), MetadataUnchanged("namespace")]

  const BaseFields: set<string> :=
    {"spec.storageType", "spec.storage", "spec.databaseSecret", "spec.podTemplate.spec.nodeSelector"}

  const InitField: string := "spec.init"

  /** A patch from `old` to `new` leaves the key out. */
  predicate Holds(p: Precondition, before: Object, after: Object) {
    match p
    case KeyUnchanged(key) =>
      if key == "apiVersion" then before.apiVersion == after.apiVersion
      else if key == "kind" then before.kind == after.kind
      else true
    case MetadataUnchanged(key) =>
      if key == "name" then before.name == after.name
      else if key == "namespace" then before.namespace == after.namespace
      else true
    case ChainUnchanged(path) =>
      if path == "spec.storageType" then before.spec.storageType == after.spec.storageType
      else if path == "spec.storage" then before.spec.storage == after.spec.storage
      else if path == "spec.databaseSecret" then before.spec.databaseSecret == after.spec.databaseSecret
      else if path == "spec.podTemplate.spec.nodeSelector" then before.spec.nodeSelector == after.spec.nodeSelector
      else if path == InitField then before.spec.init == after.spec.init
      else true
  }

  function WithInit(fields: set<string>, provisioned: Option<bool>): set<string> {
    if provisioned == Some(true) then fields + {InitField} else fields
  }

  predicate SameIdentity(before: Object, after: Object) {
    before.apiVersion == after.apiVersion && before.kind == after.kind && before.name == after.name && before.namespace == after.namespace
  }

  /** The update keeps the identity keys and every frozen field. */
  predicate Keeps(fields: set<string>, before: Object, after: Object) {
    SameIdentity(before, after) && forall f :: f in fields ==> Holds(ChainUnchanged(f), before, after)
  }

  /** The stored object as the validator compares it with the new one. */
  function Compared(before: Object, after: Object): Object {
    var d := Defaulted(before.spec);
    before.(spec := if d.databaseSecret.None? then d.(databaseSecret := after.spec.databaseSecret) else d)
  }

  datatype Operation = Create | Update | Delete | Connect

  /** Objects that do not decode are None. */
  datatype Request = Request(
    operation: Operation, subResource: bool, ours: bool, namespace: string, name: string,
    newPx: Option<Object>, oldPx: Option<Object>)

  datatype Response = Allowed | Uninitialized | BadRequest | ServerError | Forbidden(error: Error) | Crashed

  predicate Reviewed(r: Request) { r.operation != Connect && !r.subResource && r.ours }

  /** The request reaches the comparison with the stored object. */
  predicate Compares(r: Request) {
    Reviewed(r) && r.operation == Update && r.newPx.Some? && r.oldPx.Some?
  }

  function FrozenBy(fields: set<string>, r: Request): set<string> {
    if Compares(r) then WithInit(fields, r.newPx.value.provisioned) else fields
  }

  function Verdicts(v: Verdict): Response {
    match v
    case Valid => Allowed
    case Invalid(e) => Forbidden(e)
    case Crash => Crashed
  }

  function Responded(fields: set<string>, r: Request, env: Environment): Response {
    if !Reviewed(r) then Allowed
    else if r.operation == Delete then
      if r.name == "" then Allowed
      else if env.down then ServerError
      else if (r.namespace, r.name) in env.stored && env.stored[(r.namespace, r.name)] == PolicyDoNotTerminate then BadRequest
      else Allowed
    else if r.newPx.None? || (r.operation == Update && r.oldPx.None?) then BadRequest
    else if r.operation == Update &&
            !Keeps(FrozenBy(fields, r), Compared(r.oldPx.value, r.newPx.value), r.newPx.value) then BadRequest
    else Verdicts(Validate(env, r.newPx.value.namespace, r.newPx.value.name, r.newPx.value.spec, false))
  }

  /** The package-level set of frozen fields. */
  class FrozenFields {
    var fields: set<string>

    constructor ()
      ensures fields == BaseFields
    {
      fields := BaseFields;
    }

    method GetPreconditionFunc(provisioned: Option<bool>) returns (preconditions: seq<Precondition>)
      modifies this
      ensures fields == WithInit(old(fields), provisioned)
      ensures forall p :: p in preconditions <==> p in IdentityKeys || (p.ChainUnchanged? && p.path in fields)
      ensures |preconditions| == |IdentityKeys| + |fields|
    {
      preconditions := IdentityKeys;
      if provisioned == Some(true) {
        fields := fields + {InitField};
      }
      var rest := fields;
      while rest != {}
        invariant rest <= fields
        invariant forall p :: p in preconditions <==> p in IdentityKeys || (p.ChainUnchanged? && p.path in fields - rest)
        invariant |preconditions| == |IdentityKeys| + |fields| - |rest|
        decreases |rest|
      {
        var field :| field in rest;
        preconditions := preconditions + [ChainUnchanged(field)];
        rest := rest - {field};
      }
    }

    method ValidateUpdate(after: Object, before: Object, provisioned: Option<bool>) returns (ok: bool)
      modifies this
      ensures fields == WithInit(old(fields), provisioned)
      ensures ok <==> Keeps(fields, before, after)
    {
      var preconditions := GetPreconditionFunc(provisioned);
      ok := true;
      for i := 0 to |preconditions|
        invariant ok <==> forall j :: 0 <= j < i ==> Holds(preconditions[j], before, after)
      {
        ok := ok && Holds(preconditions[i], before, after);
      }
      PreconditionsKeep(preconditions, fields, before, after);
    }
  }

  lemma PreconditionsKeep(preconditions: seq<Precondition>, fields: set<string>, before: Object, after: Object)
    requires forall p :: p in preconditions <==> p in IdentityKeys || (p.ChainUnchanged? && p.path in fields)
    ensures (forall j :: 0 <= j < |preconditions| ==> Holds(preconditions[j], before, after)) <==> Keeps(fields, before, after)
  {
    if forall j :: 0 <= j < |preconditions| ==> Holds(preconditions[j], before, after) {
      forall p | p in preconditions ensures Holds(p, before, after) { }
      assert IdentityKeys[0] in preconditions && IdentityKeys[1] in preconditions;
      assert IdentityKeys[2] in preconditions && IdentityKeys[3] in preconditions;
      forall f | f in fields ensures Holds(ChainUnchanged(f), before, after) {
        assert ChainUnchanged(f) in preconditions;
      }
    } else {
      var j :| 0 <= j < |preconditions| && !Holds(preconditions[j], before, after);
      assert preconditions[j] in preconditions;
    }
  }

  class Validator {
    const frozen: FrozenFields
    var initialized: bool

    constructor (f: FrozenFields)
      ensures frozen == f && !initialized
    {
      frozen := f;
      initialized := false;
    }

    method Initialize()
      modifies this
      ensures initialized
    {
      initialized := true;
    }

    method Admit(r: Request, env: Environment) returns (response: Response)
      modifies frozen
      ensures frozen.fields == (if initialized then FrozenBy(old(frozen.fields), r) else old(frozen.fields))
      ensures response == (if initialized || !Reviewed(r) then Responded(old(frozen.fields), r, env) else Uninitialized)
      ensures initialized && r.operation == Delete && !r.subResource && r.ours ==>
        var key := (r.namespace, r.name);
        && (response == BadRequest <==> r.name != "" && !env.down && key in env.stored && env.stored[key] == "DoNotTerminate")
        && (response == ServerError <==> r.name != "" && env.down)
        && response in {BadRequest, ServerError, Allowed}
    {
      if (r.operation != Create && r.operation != Update && r.operation != Delete) || r.subResource || !r.ours {
        return Allowed;
      }
      if !initialized {
        return Uninitialized;
      }
      if r.operation == Delete {
        if r.name != "" {
          if env.down {
            return ServerError;
          }
          if (r.namespace, r.name) in env.stored && env.stored[(r.namespace, r.name)] == PolicyDoNotTerminate {
            return BadRequest;
          }
        }
        return Allowed;
      }
      if r.newPx.None? {
        return BadRequest;
      }
      if r.operation == Update {
        if r.oldPx.None? {
          return BadRequest;
        }
        var after := r.newPx.value;
        var compared := new PerconaXtraDB(r.oldPx.value.spec);
        compared.SetDefaults();
        if compared.spec.databaseSecret.None? {
          compared.spec := compared.spec.(databaseSecret := after.spec.databaseSecret);
        }
        var ok := frozen.ValidateUpdate(after, r.oldPx.value.(spec := compared.spec), after.provisioned);
        if !ok {
          return BadRequest;
        }
      }
      var x := r.newPx.value;
      return Verdicts(Validate(env, x.namespace, x.name, x.spec, false));
    }
  }

  /* ---- the frozen set over a history of requests ---- */

  function FrozenAfter(rs: seq<Request>): set<string> {
    if rs == [] then BaseFields else FrozenBy(FrozenAfter(rs[..|rs| - 1]), rs[|rs| - 1])
  }

  /** An update, for whatever database, that reached the comparison and carried Provisioned. */
  predicate Freezes(r: Request) { Compares(r) && r.newPx.value.provisioned == Some(true) }

  ghost predicate InitFrozen(rs: seq<Request>) { exists i :: 0 <= i < |rs| && Freezes(rs[i]) }

  lemma {:induction false} FrozenExactly(rs: seq<Request>)
    ensures FrozenAfter(rs) == if InitFrozen(rs) then BaseFields + {InitField} else BaseFields
  {
    if rs == [] {
    } else {
      var before, r := rs[..|rs| - 1], rs[|rs| - 1];
      FrozenExactly(before);
      assert forall i :: 0 <= i < |before| ==> before[i] == rs[i];
      if InitFrozen(before) {
        var i :| 0 <= i < |before| && Freezes(before[i]);
        assert Freezes(rs[i]);
      }
    }
  }

  lemma {:induction false} FrozenGrows(rs: seq<Request>, more: seq<Request>)
    ensures FrozenAfter(rs) <= FrozenAfter(rs + more)
  {
    FrozenExactly(rs);
    FrozenExactly(rs + more);
    if InitFrozen(rs) {
      var i :| 0 <= i < |rs| && Freezes(rs[i]);
      assert (rs + more)[i] == rs[i];
    }
  }

  /** No accepted update that carries Provisioned changes `spec.init`. */
  lemma ProvisionedKeepsInit(rs: seq<Request>, r: Request, env: Environment)
    requires Freezes(r) && Responded(FrozenAfter(rs), r, env) == Allowed
    ensures r.newPx.value.spec.init == r.oldPx.value.spec.init
  {
    assert InitField in FrozenBy(FrozenAfter(rs), r);
    assert Holds(ChainUnchanged(InitField), Compared(r.oldPx.value, r.newPx.value), r.newPx.value);
  }

  /** The update changes `spec.init` and nothing else that is frozen, before Provisioned is set. */
  predicate OnlyInitChanged(r: Request) {
    && Compares(r) && !Freezes(r)
    && Keeps(BaseFields, Compared(r.oldPx.value, r.newPx.value), r.newPx.value)
    && r.newPx.value.spec.init != r.oldPx.value.spec.init
  }

  /**
   How far the answer to a request depends on earlier requests, which may have been about other
   databases: it differs exactly for such an update after some update that carried Provisioned.
   */
  lemma HistoryMattersExactly(rs: seq<Request>, r: Request, env: Environment)
    ensures Responded(FrozenAfter(rs), r, env) != Responded(FrozenAfter([]), r, env) <==>
            InitFrozen(rs) && OnlyInitChanged(r)
    ensures InitFrozen(rs) && OnlyInitChanged(r) ==> Responded(FrozenAfter(rs), r, env) == BadRequest
  {
    FrozenExactly(rs);
    if Compares(r) {
      KeepsMore(BaseFields, Compared(r.oldPx.value, r.newPx.value), r.newPx.value);
    }
    hide Validate;
  }

  lemma KeepsMore(fields: set<string>, before: Object, after: Object)
    ensures Keeps(fields + {InitField}, before, after) <==> Keeps(fields, before, after) && before.spec.init == after.spec.init
  {
    if Keeps(fields + {InitField}, before, after) {
      assert Holds(ChainUnchanged(InitField), before, after);
    }
  }

  /* ---- what holds of every stored object ---- */

  /** `after` is what the API server stores for a submitted object that both webhooks let through. */
  ghost predicate StoresCreated(after: Object, env: Environment) {
    exists submitted: Spec ::
      && Mutated(submitted) == Ok(after.spec)
      && Validate(env, after.namespace, after.name, after.spec, false) == Valid
  }

  ghost predicate StoresUpdated(before: Object, after: Object, fields: set<string>, env: Environment) {
    exists submitted: Spec ::
      && Mutated(submitted) == Ok(after.spec)
      && Responded(fields, Request(Update, false, true, after.namespace, after.name, Some(after), Some(before)), env) == Allowed
  }

  /** One write after another: an update through both webhooks, or a write of the status alone. */
  ghost predicate Follows(before: Object, after: Object) {
    || after == before.(provisioned := after.provisioned)
    || exists fields: set<string>, env: Environment :: BaseFields <= fields && StoresUpdated(before, after, fields, env)
  }

  /** The versions of one object, from its creation on. */
  ghost predicate Chain(xs: seq<Object>) {
    && (|xs| > 0 ==> exists env: Environment :: StoresCreated(xs[0], env))
    && forall i :: 0 < i < |xs| ==> Follows(xs[i - 1], xs[i])
  }

  predicate WellDefaulted(x: Object) {
    && x.spec.storageType in {Durable, Ephemeral} && Defaulted(x.spec) == x.spec
    && (x.spec.storageType == Durable ==> x.spec.storage.Some?)
  }

  /** Halted databases have policy Halt and durable storage. */
  predicate Haltable(x: Object) {
    x.spec.halted ==> x.spec.terminationPolicy == PolicyHalt && x.spec.storageType == Durable
  }

  predicate SameFixed(x: Object, y: Object) {
    && SameIdentity(x, y)
    && y.spec.storageType == x.spec.storageType && y.spec.storage == x.spec.storage && y.spec.nodeSelector == x.spec.nodeSelector
    && (x.spec.databaseSecret.Some? ==> y.spec.databaseSecret == x.spec.databaseSecret)
  }

  lemma AcceptedHaltable(submitted: Spec, x: Object, env: Environment)
    requires Mutated(submitted) == Ok(x.spec) && Validate(env, x.namespace, x.name, x.spec, false) == Valid
    ensures Haltable(x) && WellDefaulted(x)
  {
    DefaultsFillOnly(submitted);
    DefaultsFillOnly(submitted.(terminationPolicy := PolicyHalt));
  }

  lemma UpdateKeepsFixed(before: Object, after: Object, fields: set<string>, env: Environment)
    requires BaseFields <= fields && WellDefaulted(before) && StoresUpdated(before, after, fields, env)
    ensures SameFixed(before, after) && Haltable(after) && WellDefaulted(after)
  {
    var submitted: Spec :| Mutated(submitted) == Ok(after.spec) &&
      Responded(fields, Request(Update, false, true, after.namespace, after.name, Some(after), Some(before)), env) == Allowed;
    AcceptedHaltable(submitted, after, env);
    var r := Request(Update, false, true, after.namespace, after.name, Some(after), Some(before));
    var compared := Compared(before, after);
    assert Keeps(FrozenBy(fields, r), compared, after);
    forall f | f in BaseFields ensures Holds(ChainUnchanged(f), compared, after) { }
    assert Holds(ChainUnchanged("spec.storageType"), compared, after);
    assert Holds(ChainUnchanged("spec.storage"), compared, after);
    assert Holds(ChainUnchanged("spec.databaseSecret"), compared, after);
    assert Holds(ChainUnchanged("spec.podTemplate.spec.nodeSelector"), compared, after);
  }

  lemma CreatedKeeps(x: Object, env: Environment)
    requires StoresCreated(x, env)
    ensures Haltable(x) && WellDefaulted(x)
  {
    var submitted: Spec :| Mutated(submitted) == Ok(x.spec) && Validate(env, x.namespace, x.name, x.spec, false) == Valid;
    AcceptedHaltable(submitted, x, env);
  }

  lemma FollowsKeeps(x: Object, y: Object)
    requires Follows(x, y) && WellDefaulted(x) && Haltable(x)
    ensures SameFixed(x, y) && WellDefaulted(y) && Haltable(y)
  {
    hide StoresUpdated, Defaulted;
    if y != x.(provisioned := y.provisioned) {
      var fields: set<string>, env: Environment :| BaseFields <= fields && StoresUpdated(x, y, fields, env);
      UpdateKeepsFixed(x, y, fields, env);
    }
  }

  /**
   Along all versions of an object: halted only with policy Halt and durable storage, so the guard
   of the halt pass never fires; and identity, storage and node selector never change, nor does the
   database secret once it is set.
   */
  lemma {:induction false} ChainKeeps(xs: seq<Object>, i: nat, j: nat)
    requires Chain(xs) && i <= j < |xs|
    ensures Haltable(xs[j]) && WellDefaulted(xs[j]) && SameFixed(xs[i], xs[j])
    decreases j
  {
    hide StoresCreated, Follows, WellDefaulted, Haltable;
    if j == 0 {
      var env: Environment :| StoresCreated(xs[0], env);
      CreatedKeeps(xs[0], env);
    } else {
      ChainKeeps(xs, if i < j then i else j - 1, j - 1);
      FollowsKeeps(xs[j - 1], xs[j]);
    }
  }

  /** What a cluster must have, beside its size. */
  predicate ClusterOk(env: Environment, name: string, s: Spec) {
    && |name| <= MaxClusterNameLength
    && (s.init.Some? ==> !s.init.value.script)
    && s.version in env.versions && env.versions[s.version].version == ClusterVersion
  }

  /**
   The replica counts that validation lets through, for a spec that is accepted with some count:
   those below two, and those above two if the rest of the spec fits a cluster.
   */
  lemma AcceptedReplicas(env: Environment, namespace: string, name: string, s: Spec, strict: bool, r: int)
    requires Validate(env, namespace, name, s, strict) == Valid
    ensures Validate(env, namespace, name, s.(replicas := Some(r)), strict) == Valid <==>
            r < 2 || (r > 2 && ClusterOk(env, name, s))
  {
    assert StorageOk(env, s.(replicas := Some(r))) == StorageOk(env, s);
  }
}
