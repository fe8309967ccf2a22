/**
 The namespace the operator works in: what the API server stores, what the operator's
 informer has seen of it, and the operator's own mutable state.

 A database name keeps its whole version history, because the informer may lag behind by any
 number of versions and can only move forward through them.
 */
module Cluster {
  import opened Options

  type Name = string

  datatype Policy = Unset | DoNotTerminate | Halt | Delete | WipeOut

  datatype Phase = NoPhase | Provisioning | Ready | Halted | NotReady

  /** The status conditions the operator reads; None when the condition is absent. */
  datatype Conditions = Conditions(provisioned: Option<bool>, restored: Option<bool>, paused: Option<bool>)

  /** Whether a monitoring agent is asked for, and whether the monitoring library implements its type. */
  datatype Monitoring = Unmonitored | Monitored | AgentMissing

  /** The spec fields that the reconcile passes branch on. */
  datatype Spec = Spec(
    replicas: nat,
    secret: Option<Name>,
    waitForInitialRestore: bool,
    halted: bool,
    policy: Policy,
    monitoring: Monitoring)
  {
    predicate IsCluster() { replicas > 1 }

    predicate Watched() { monitoring != Unmonitored }
  }

  datatype Database = Database(
    uid: nat,
    spec: Spec,
    phase: Phase,
    conditions: Conditions,
    finalizer: bool,
    deleting: bool)

  /** `labelled` is the database-name label, if the object carries the operator's labels. */
  datatype Secret = Secret(
    id: nat,
    labelled: Option<Name>,
    owners: set<nat>,
    password: Option<nat>,
    username: bool,
    legacyUser: bool)

  datatype Pvc = Pvc(id: nat, labelled: Option<Name>, owners: set<nat>)

  datatype Kind =
    | AppBinding
    | PodDisruptionBudget
    | StatefulSet
    | Deployment
    | RoleBinding
    | Role
    | ServiceAccount
    | Service
    | Pod

  datatype Key = Key(kind: Kind, name: Name)

  datatype Payload =
    | Plain
    | Workload(serviceName: Name, secretName: Name, replicas: nat)
    | Binding(secretName: Name)

  /** `held` objects carry somebody else's finalizer, so a delete only marks them `dying`. */
  datatype Offshoot = Offshoot(labelled: Option<Name>, owners: set<nat>, payload: Payload, held: bool, dying: bool)

  /** What has happened so far in a run, by name and uid. No step reads it. */
  datatype Audit = Audit(
    names: map<nat, Name>,            // the name each uid was created under
    finalized: set<(Name, nat)>,      // held the operator's finalizer at some time
    terminating: set<(Name, nat)>,    // some reconcile has entered `terminate` for it
    released: set<(Name, nat)>,       // `terminate` finished its ownership step without error
    left: set<(Name, nat)>)           // left the store

  datatype World<P> = World(
    hist: map<Name, seq<Option<Database>>>,
    seen: map<Name, nat>,
    nextId: nat,
    secrets: map<Name, Secret>,
    pvcs: map<Name, Pvc>,
    objs: map<Key, Offshoot>,
    passes: map<Name, P>,
    governing: Name,
    audit: Audit)

  /* ---- the API server's view ---- */

  function History<P>(w: World<P>, n: Name): seq<Option<Database>> {
    if n in w.hist then w.hist[n] else []
  }

  /** The object currently stored under a name. */
  function Current<P>(w: World<P>, n: Name): Option<Database> {
    var h := History(w, n);
    if h == [] then None else h[|h| - 1]
  }

  function Seen<P>(w: World<P>, n: Name): nat {
    if n in w.seen then w.seen[n] else 0
  }

  /** What the lister returns for a name: the last version the informer was told about. */
  function Cached<P>(w: World<P>, n: Name): Option<Database> {
    var h := History(w, n);
    if 0 < Seen(w, n) <= |h| then h[Seen(w, n) - 1] else None
  }

  function LiveUids<P>(w: World<P>): set<nat> {
    set n | n in w.hist && Current(w, n).Some? :: Current(w, n).value.uid
  }

  /** Storing an object without finalizers that is being deleted removes it. */
  function Stored(x: Database): Option<Database> {
    if x.deleting && !x.finalizer then None else Some(x)
  }

  predicate Named<P>(w: World<P>, uid: nat, n: Name) {
    uid in w.audit.names && w.audit.names[uid] == n
  }

  function Store<P>(w: World<P>, n: Name, x: Database): World<P> {
    w.(hist := w.hist[n := History(w, n) + [Stored(x)]],
       audit := w.audit.(
         finalized := if x.finalizer then w.audit.finalized + {(n, x.uid)} else w.audit.finalized,
         left := if Stored(x).None? then w.audit.left + {(n, x.uid)} else w.audit.left))
  }

  /** Everything that currently carries the operator's labels for a database. */
  function LabelledPvcs<P>(w: World<P>, n: Name): map<Name, Pvc> {
    map p | p in w.pvcs && w.pvcs[p].labelled == Some(n) :: w.pvcs[p]
  }

  function LabelledKeys<P>(w: World<P>, kind: Kind, n: Name): set<Key> {
    set k | k in w.objs && k.kind == kind && w.objs[k].labelled == Some(n)
  }

  /** Deleting an offshoot removes it, or marks it when something else still holds it. */
  function Deleted(objs: map<Key, Offshoot>, ks: set<Key>): map<Key, Offshoot> {
    map k | k in objs && (k !in ks || objs[k].held) ::
      if k in ks then objs[k].(dying := true) else objs[k]
  }

  /* ---- names and labels ---- */

  function GoverningService(n: Name): Name { n + "-gvr" }

  function StatsService(n: Name): Name { n + "-stats" }

  function AuthSecret(n: Name): Name { n + "-auth" }

  /** The initial restore is over once Provisioned exists or DataRestored is true. */
  predicate RestoreOver(c: Conditions) {
    c.provisioned.Some? || c.restored == Some(true)
  }

  /** Admission refuses an update that changes a database secret which is already set. */
  predicate SecretFrozen(before: Spec, after: Spec) {
    before.secret.Some? ==> after.secret == before.secret
  }

  lemma GoverningServiceInjective(a: Name, b: Name)
    ensures GoverningService(a) == GoverningService(b) ==> a == b
  {
    if GoverningService(a) == GoverningService(b) {
      assert a == GoverningService(a)[..|a|];
      assert b == GoverningService(b)[..|b|];
    }
  }
}
