/**
 The validator in front of the API server, over sequences of requests: what an allowed deletion can
 take away, and that the machine's user steps are those that the validator lets through.
 */
module Requests {
  import opened Options
  import opened Admission
  import Cluster
  import Passes

  /** The answer to a deletion: refused exactly for a named database stored with DoNotTerminate. */
  lemma DeleteAnswered(fields: set<string>, r: Request, env: Environment)
    requires r.operation == Delete && !r.subResource && r.ours
    ensures var key, answer := (r.namespace, r.name), Responded(fields, r, env);
      && (answer == BadRequest <==> r.name != "" && !env.down && key in env.stored && env.stored[key] == "DoNotTerminate")
      && (answer == ServerError <==> r.name != "" && env.down)
      && (answer == Allowed <==>
            r.name == "" || (!env.down && !(key in env.stored && env.stored[key] == "DoNotTerminate")))
  {
  }

  /**
   The answer to an update: allowed exactly if the identity, the storage and the node selector are
   kept, the database secret too unless there was none, and `spec.init` once it is frozen, and if the
   new spec is valid.
   */
  lemma UpdateAnswered(fields: set<string>, r: Request, env: Environment)
    requires fields == BaseFields || fields == BaseFields + {"spec.init"}
    requires r.operation == Update && !r.subResource && r.ours && r.newPx.Some? && r.oldPx.Some?
    ensures var x, y := r.oldPx.value, r.newPx.value;
      Responded(fields, r, env) == Allowed <==>
        && x.apiVersion == y.apiVersion && x.kind == y.kind && x.name == y.name && x.namespace == y.namespace
        && y.spec.storageType == (if x.spec.storageType == "" then "Durable" else x.spec.storageType)
        && y.spec.storage == x.spec.storage && y.spec.nodeSelector == x.spec.nodeSelector
        && (x.spec.databaseSecret.Some? ==> y.spec.databaseSecret == x.spec.databaseSecret)
        && ("spec.init" in fields || y.provisioned == Some(true) ==> y.spec.init == x.spec.init)
        && Validate(env, y.namespace, y.name, y.spec, false) == Valid
  {
    var x, y := r.oldPx.value, r.newPx.value;
    FieldsKept(Compared(x, y), y);
    KeepsMore(BaseFields, Compared(x, y), y);
    assert BaseFields + {"spec.init"} + {"spec.init"} == BaseFields + {"spec.init"};
    hide Keeps, Validate;
  }

  lemma FieldsKept(x: Object, y: Object)
    ensures Keeps(BaseFields, x, y) <==>
      && x.apiVersion == y.apiVersion && x.kind == y.kind && x.name == y.name && x.namespace == y.namespace
      && x.spec.storageType == y.spec.storageType && x.spec.storage == y.spec.storage
      && x.spec.databaseSecret == y.spec.databaseSecret && x.spec.nodeSelector == y.spec.nodeSelector
  {
    if Keeps(BaseFields, x, y) {
      assert Holds(ChainUnchanged("spec.storageType"), x, y) && Holds(ChainUnchanged("spec.storage"), x, y);
      assert Holds(ChainUnchanged("spec.databaseSecret"), x, y);
      assert Holds(ChainUnchanged("spec.podTemplate.spec.nodeSelector"), x, y);
    }
  }

  /** The answer to a creation, and to anything that is not about a database's own object. */
  lemma CreateAnswered(fields: set<string>, r: Request, env: Environment)
    ensures r.operation == Connect || r.subResource || !r.ours ==> Responded(fields, r, env) == Allowed
    ensures r.operation == Create && !r.subResource && r.ours ==>
      (Responded(fields, r, env) == Allowed <==>
        r.newPx.Some? && Validate(env, r.newPx.value.namespace, r.newPx.value.name, r.newPx.value.spec, false) == Valid)
  {
    hide Validate;
  }

  /**
   One request with what else the validator reads when it handles it. A deletion that names no
   database is one of a whole collection, and takes away whatever the collection has.
   */
  datatype Exchange = Exchange(request: Request, env: Environment, collection: set<(string, string)>)

  /** The frozen fields, and the policies of the databases stored. */
  datatype Server = Server(fields: set<string>, stored: map<(string, string), string>)

  function Answer(server: Server, x: Exchange): Response {
    Responded(server.fields, x.request, x.env.(stored := server.stored))
  }

  function KeyOf(o: Object): (string, string) { (o.namespace, o.name) }

  /** What the API server stores after a request that was let through. */
  function Applied(stored: map<(string, string), string>, x: Exchange): map<(string, string), string> {
    var r := x.request;
    if !Reviewed(r) then stored
    else
      match r.operation
      case Create =>
        if r.newPx.Some? && KeyOf(r.newPx.value) !in stored then
          stored[KeyOf(r.newPx.value) := r.newPx.value.spec.terminationPolicy]
        else stored
      case Update =>
        if r.newPx.Some? && KeyOf(r.newPx.value) in stored then
          stored[KeyOf(r.newPx.value) := r.newPx.value.spec.terminationPolicy]
        else stored
      case Delete => if r.name != "" then stored - {(r.namespace, r.name)} else stored - x.collection
      case Connect => stored
  }

  function Handled(server: Server, x: Exchange): Server {
    Server(FrozenBy(server.fields, x.request), if Answer(server, x) == Allowed then Applied(server.stored, x) else server.stored)
  }

  function HandledAll(server: Server, xs: seq<Exchange>): Server {
    if xs == [] then server else Handled(HandledAll(server, xs[..|xs| - 1]), xs[|xs| - 1])
  }

  /** A deletion of a collection the database is in: its review names no database, so no policy is looked at. */
  predicate Sweeps(x: Exchange, key: (string, string)) {
    x.request.operation == Delete && !x.request.subResource && x.request.ours && x.request.name == "" && key in x.collection
  }

  /** A request takes a stored database away exactly if it is named with another policy and can be read, or swept. */
  lemma TakenExactly(server: Server, x: Exchange, key: (string, string))
    requires key in server.stored
    ensures var r := x.request;
      key !in Handled(server, x).stored <==>
        || Sweeps(x, key)
        || (r.operation == Delete && !r.subResource && r.ours && r.name != "" && (r.namespace, r.name) == key &&
            !x.env.down && server.stored[key] != "DoNotTerminate")
  {
    if x.request.operation == Delete && Reviewed(x.request) {
      DeleteAnswered(server.fields, x.request, x.env.(stored := server.stored));
      hide Responded;
    }
  }

  /** An update that gives the database another policy. */
  predicate Unprotects(x: Exchange, key: (string, string)) {
    && x.request.operation == Update && Reviewed(x.request) && x.request.newPx.Some?
    && KeyOf(x.request.newPx.value) == key && x.request.newPx.value.spec.terminationPolicy != "DoNotTerminate"
  }

  lemma PolicyStays(server: Server, x: Exchange, key: (string, string))
    requires key in server.stored && server.stored[key] == "DoNotTerminate" && !Sweeps(x, key) && !Unprotects(x, key)
    ensures key in Handled(server, x).stored && Handled(server, x).stored[key] == "DoNotTerminate"
  {
    TakenExactly(server, x, key);
    hide Answer, Responded;
  }

  /**
   Over any sequence of requests: a database stored with DoNotTerminate is never taken away by an
   allowed deletion, unless an update has given it another policy or its whole collection is deleted.
   */
  lemma {:induction false} ProtectedStays(server: Server, xs: seq<Exchange>, key: (string, string))
    requires key in server.stored && server.stored[key] == "DoNotTerminate"
    requires forall i :: 0 <= i < |xs| ==> !Sweeps(xs[i], key) && !Unprotects(xs[i], key)
    ensures key in HandledAll(server, xs).stored && HandledAll(server, xs).stored[key] == "DoNotTerminate"
  {
    hide Handled, Sweeps, Unprotects;
    if xs != [] {
      ProtectedStays(server, xs[..|xs| - 1], key);
      PolicyStays(HandledAll(server, xs[..|xs| - 1]), xs[|xs| - 1], key);
    }
  }

  /* ---- what is stored after both webhooks ---- */

  /**
   The mutating webhook: refused without a version or when a database not to be terminated is halted;
   else every field left empty has its default, and a halted database the policy Halt.
   */
  lemma MutatesExactly(s: Spec)
    ensures Mutated(s).Ok? <==> s.version != "" && !(s.halted && s.terminationPolicy == "DoNotTerminate")
    ensures Mutated(s).Ok? ==>
      var d := Mutated(s).value;
      && d.replicas == (if s.replicas.Some? then s.replicas else Some(1))
      && d.storageType == (if s.storageType != "" then s.storageType else "Durable")
      && d.terminationPolicy == (if s.halted then "Halt" else if s.terminationPolicy != "" then s.terminationPolicy else "Delete")
      && (s.readinessProbe.None? ==> d.readinessProbe == Some(if s.replicas.Some? && s.replicas.value > 1 then ClusterCheck else PingCheck))
      && (s.monitor.Some? && Vendor(s.monitor.value.agent) == "prometheus.io" && s.monitor.value.port in {None, Some(0)} ==>
            d.monitor == Some(s.monitor.value.(port := Some(56790))))
      && d.halted == s.halted && d.version == s.version
  {
  }

  /** The validating webhook lets a spec through exactly if all of this holds. */
  lemma ValidatesExactly(env: Environment, namespace: string, name: string, s: Spec, strict: bool)
    ensures Validate(env, namespace, name, s, strict) == Valid <==>
      && s.version != "" && s.version in env.versions && s.replicas.Some?
      && (s.replicas.value > 1 ==>
            && env.versions[s.version].version == "5.7" && s.replicas.value >= 3 && |name| <= 32
            && (s.init.Some? ==> !s.init.value.script))
      && (forall e :: e in s.env ==>
            e !in {"MYSQL_ROOT_PASSWORD", "MYSQL_ALLOW_EMPTY_PASSWORD", "MYSQL_RANDOM_ROOT_PASSWORD", "MYSQL_ONETIME_PASSWORD"})
      && s.storageType in {"Durable", "Ephemeral"}
      && (s.storageType == "Durable" ==>
            && s.storage.Some? && (s.storage.value.storageClass.Some? ==> s.storage.value.storageClass.value in env.storageClasses)
            && s.storage.value.request.Some? && s.storage.value.request.value > 0)
      && s.terminationPolicy != "" && !(s.storageType == "Ephemeral" && s.terminationPolicy == "Halt")
      && (s.monitor.Some? ==>
            && Vendor(s.monitor.value.agent) == "prometheus.io"
            && s.monitor.value.port.Some? && 1024 <= s.monitor.value.port.value <= 65535)
      && (strict ==>
            && (s.databaseSecret.Some? ==> (namespace, s.databaseSecret.value) in env.secrets)
            && !env.versions[s.version].deprecated && env.versions[s.version].complete)
  {
    NoVendor();
    ForbiddenNames(s);
  }

  lemma NoVendor()
    ensures Vendor("") == ""
  {
  }

  lemma ForbiddenNames(s: Spec)
    ensures (exists e :: e in s.env && e in ForbiddenEnvVars) <==>
      !forall e :: e in s.env ==>
        e !in {"MYSQL_ROOT_PASSWORD", "MYSQL_ALLOW_EMPTY_PASSWORD", "MYSQL_RANDOM_ROOT_PASSWORD", "MYSQL_ONETIME_PASSWORD"}
  {
    assert forall e :: e in ForbiddenEnvVars <==>
      e in {"MYSQL_ROOT_PASSWORD", "MYSQL_ALLOW_EMPTY_PASSWORD", "MYSQL_RANDOM_ROOT_PASSWORD", "MYSQL_ONETIME_PASSWORD"};
  }

  /* ---- the machine's users are subject to the validator ---- */

  /** How a termination policy is written. */
  function PolicyName(p: Cluster.Policy): string {
    match p
    case Unset => ""
    case DoNotTerminate => "DoNotTerminate"
    case Halt => "Halt"
    case Delete => "Delete"
    case WipeOut => "WipeOut"
  }

  /** In the machine a user's deletion takes effect exactly when the validator, reading the same policy, allows it. */
  lemma DeleteAsMachine(w: Passes.State, n: Cluster.Name, ns: string, fields: set<string>, env: Environment)
    requires Cluster.Current(w, n).Some? && n != "" && !env.down
    requires (ns, n) in env.stored && env.stored[(ns, n)] == PolicyName(Cluster.Current(w, n).value.spec.policy)
    ensures Passes.Step(w, Passes.UserDelete(n)) != w <==>
      Responded(fields, Request(Delete, false, true, ns, n, None, None), env) == Allowed
  {
    var x := Cluster.Current(w, n).value.(deleting := true);
    DeleteAnswered(fields, Request(Delete, false, true, ns, n, None, None), env);
    Passes.UserIs(w, Passes.UserDelete(n));
    assert |Cluster.History(Cluster.Store(w, n, x), n)| == |Cluster.History(w, n)| + 1;
    hide Passes.Step, Responded;
  }

  /** And an update the validator allows is one the machine allows: a secret that is set stays. */
  lemma UpdateAsMachine(fields: set<string>, r: Request, env: Environment, before: Cluster.Spec, after: Cluster.Spec)
    requires BaseFields <= fields && Compares(r) && Responded(fields, r, env) == Allowed
    requires before.secret == r.oldPx.value.spec.databaseSecret && after.secret == r.newPx.value.spec.databaseSecret
    ensures Cluster.SecretFrozen(before, after)
  {
    var compared := Compared(r.oldPx.value, r.newPx.value);
    assert "spec.databaseSecret" in FrozenBy(fields, r);
    assert Holds(ChainUnchanged("spec.databaseSecret"), compared, r.newPx.value);
  }
}
