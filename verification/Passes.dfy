/**
 The reconcile passes as a state machine. One step of a pass is one API call (or one read of the
 informer), so that any other pass, user, controller or the garbage collector may act between two
 calls, any call may fail, and the reply of a call that took effect may be lost.
 */
module Passes {
  import opened Options
  import opened Cluster

  /** Where a pass is in the operator's code; each constructor stands before one API call. */
  datatype PC =
    | Start
    | CValidate | CProvision | CGovern | CRbac(k: nat) | CService
    | CSecretGet | CSecretCreate | CSecretSpec | CUpgrade
    | CVersion | CWorkload(serviceName: Name) | CPods | CBinding | CReady | CStats
    | HDelete(k: nat) | HListServices | HDeleteService(services: set<Key>) | HWait(k: nat) | HWrite
    | FailGet | FailPut
    | TPeers | TSecretGet | TSecretPatch(snapshot: set<nat>)
    | TPvcList | TPvcPatch(todo: map<Name, Pvc>, failed: bool) | TFinalizer
  {
    predicate Creates() {
      CValidate? || CProvision? || CGovern? || CRbac? || CService? || CSecretGet? || CSecretCreate? ||
      CSecretSpec? || CUpgrade? || CVersion? || CWorkload? || CPods? || CBinding? || CReady? || CStats?
    }

    predicate Halts() { HDelete? || HListServices? || HDeleteService? || HWait? || HWrite? }

    predicate Terminates() {
      TPeers? || TSecretGet? || TSecretPatch? || TPvcList? || TPvcPatch? || TFinalizer?
    }
  }

  /**
   A reconcile in progress: its private copy of the database, the PVCs its `List` returned (by the
   id of each), and the id of the secret its `Get` returned.
   */
  datatype Pass = Pass(px: Database, pc: PC, listed: map<Name, nat>, got: Option<nat>)

  type State = World<Pass>

  datatype Outcome = Ok | Failed | Lost {
    predicate Applied() { this != Failed }
  }

  /**
   The values an API call does not determine: its outcome, the list item taken, a new password,
   whether a wait loop times out, and what a failing collection deletion has deleted all the same.
   */
  datatype Choice = Choice(outcome: Outcome, item: Name, password: nat, giveUp: bool, partly: set<Name>)

  datatype Effect =
    | Quiet
    | PutDatabase(database: Database)
    | PutSecret(secretName: Name, secret: Secret)
    | PutPvc(pvcName: Name, pvc: Pvc)
    | SetObjects(objs: map<Key, Offshoot>)

  datatype Next = Stop | Panic | Go(pass: Pass)

  datatype Move = Move(effect: Effect, next: Next)

  function At(p: Pass, pc: PC): Next { Go(p.(pc := pc)) }

  /* ---- pkg/controller/workqueue.go ---- */

  /** The choice between paused, halt and create, once the finalizer is in place. */
  function Dispatch(p: Pass): Next {
    if p.px.conditions.paused == Some(true) then Stop
    else if p.px.spec.halted then
      if p.px.spec.policy != Policy.Halt then At(p, FailGet) else At(p, HDelete(0))
    else At(p, CValidate)
  }

  function StartMove(w: State, n: Name, p: Pass, o: Outcome): Move {
    if p.px.finalizer then Move(Quiet, Dispatch(p))
    else
      match Current(w, n)
      case None => Move(Quiet, Stop)
      case Some(x) =>
        var y := x.(finalizer := true);
        if o == Failed then Move(Quiet, Stop)
        else Move(PutDatabase(y), if o == Ok then Dispatch(p.(px := y)) else Stop)
  }

  /* ---- pkg/controller/percona_xtradb.go: create ---- */

  predicate WaitsBeforeWorkload(px: Database) {
    px.spec.waitForInitialRestore && px.spec.IsCluster() && !RestoreOver(px.conditions)
  }

  predicate WaitsAfterWorkload(px: Database) {
    px.spec.waitForInitialRestore && !px.spec.IsCluster() && !RestoreOver(px.conditions)
  }

  function AfterProvisioning(p: Pass): Next {
    if WaitsBeforeWorkload(p.px) then Stop else At(p, CGovern)
  }

  function RbacKind(k: nat): Kind {
    if k == 0 then ServiceAccount else if k == 1 then Role else RoleBinding
  }

  function OwnersOf(w: State, k: Key): set<nat> {
    if k in w.objs then w.objs[k].owners else {}
  }

  predicate Held(w: State, k: Key) { k in w.objs && w.objs[k].held }

  predicate Dying(w: State, k: Key) { k in w.objs && w.objs[k].dying }

  /** Another database's object (or nobody's) already has this name. */
  predicate Foreign(w: State, k: Key, n: Name) { k in w.objs && w.objs[k].labelled != Some(n) }

  function Upserted(w: State, k: Key, n: Name, uid: nat, payload: Payload): Offshoot {
    Offshoot(Some(n), OwnersOf(w, k) + {uid}, payload, Held(w, k), Dying(w, k))
  }

  function Upsert(w: State, k: Key, n: Name, uid: nat, payload: Payload): Effect {
    SetObjects(w.objs[k := Upserted(w, k, n, uid, payload)])
  }

  function SecretName(px: Database): Name {
    if px.spec.secret.Some? then px.spec.secret.value else ""
  }

  function WorkloadOf(px: Database, serviceName: Name): Payload {
    Workload(serviceName, SecretName(px), px.spec.replicas)
  }

  /** An agent type without an implementation is a nil agent, whose first use takes the operator down. */
  function Unless(px: Database, next: Next): Next {
    if px.spec.monitoring.AgentMissing? then Panic else next
  }

  /** A call whose failure makes `create` or `halt` return an error. */
  function Call(o: Outcome, p: Pass, effect: Effect, next: Next): Move {
    Move(if o.Applied() then effect else Quiet, if o == Ok then next else At(p, FailGet))
  }

  function WithStatus(px: Database, phase: Phase, c: Conditions): Database {
    px.(phase := phase, conditions := c)
  }

  function FreshSecret(w: State, n: Name, password: nat): Secret {
    Secret(w.nextId, Some(n), {}, Some(password), true, false)
  }

  function UpgradedSecret(w: State, s: Name): Secret {
    if s in w.secrets then
      w.secrets[s].(username := w.secrets[s].username || w.secrets[s].legacyUser)
    else Secret(w.nextId, None, {}, None, false, false)
  }

  function AfterBinding(p: Pass): Next {
    if WaitsAfterWorkload(p.px) then Stop else At(p, CReady)
  }

  function CreateMove(w: State, n: Name, p: Pass, o: Outcome, password: nat): Move {
    var px := p.px;
    var fail := Move(Quiet, At(p, FailGet));
    match p.pc
    case CValidate =>
      if o != Ok || (px.spec.secret.Some? && px.spec.secret.value !in w.secrets) then Move(Quiet, Stop)
      else if px.phase == NoPhase then Move(Quiet, At(p, CProvision))
      else Move(Quiet, AfterProvisioning(p))
    case CProvision =>
      (match Current(w, n)
       case None => fail
       case Some(x) =>
         Call(o, p, PutDatabase(x.(phase := Provisioning)),
              AfterProvisioning(p.(px := WithStatus(px, Provisioning, x.conditions)))))
    case CGovern =>
      var k := Key(Service, GoverningService(n));
      Call(o, p, if k in w.objs then Quiet else Upsert(w, k, n, px.uid, Plain), At(p, CRbac(0)))
    case CRbac(i) =>
      Call(o, p, Upsert(w, Key(RbacKind(i), n), n, px.uid, Plain), At(p, if i < 2 then CRbac(i + 1) else CService))
    case CService =>
      var k := Key(Service, n);
      if Foreign(w, k, n) then fail
      else Call(o, p, Upsert(w, k, n, px.uid, Plain), At(p, if px.spec.secret.None? then CSecretGet else CUpgrade))
    case CSecretGet =>
      var s := AuthSecret(n);
      if s in w.secrets && w.secrets[s].labelled != Some(n) then fail
      else Call(o, p, Quiet, At(p, if s in w.secrets then CSecretSpec else CSecretCreate))
    case CSecretCreate =>
      var s := AuthSecret(n);
      if s in w.secrets then fail
      else Call(o, p, PutSecret(s, FreshSecret(w, n, password)), At(p, CSecretSpec))
    case CSecretSpec =>
      (match Current(w, n)
       case None => fail
       case Some(x) =>
         var spec := x.spec.(secret := Some(AuthSecret(n)));
         if !SecretFrozen(x.spec, spec) then fail
         else Call(o, p, PutDatabase(x.(spec := spec)),
                   At(p.(px := px.(spec := px.spec.(secret := Some(AuthSecret(n))))), CVersion)))
    case CUpgrade =>
      Call(o, p, PutSecret(SecretName(px), UpgradedSecret(w, SecretName(px))), At(p, CVersion))
    case CVersion =>
      Call(o, p, Quiet, At(p, CWorkload(w.governing)))
    case CWorkload(serviceName) =>
      var k := Key(StatefulSet, n);
      if Foreign(w, k, n) then fail
      else
        var changed := k !in w.objs || Upserted(w, k, n, px.uid, WorkloadOf(px, serviceName)) != w.objs[k];
        Call(o, p, Upsert(w, k, n, px.uid, WorkloadOf(px, serviceName)), At(p, if changed then CPods else CBinding))
    case CPods =>
      Call(o, p, Quiet, At(p, CBinding))
    case CBinding =>
      Call(o, p, Upsert(w, Key(AppBinding, n), n, px.uid, Binding(SecretName(px))), AfterBinding(p))
    case CReady =>
      (match Current(w, n)
       case None => fail
       case Some(x) =>
         Call(o, p, PutDatabase(x.(phase := Ready)), At(p.(px := WithStatus(px, Ready, x.conditions)), CStats)))
    case CStats =>
      var k := Key(Service, StatsService(n));
      if !px.spec.Watched() || Foreign(w, k, n) || o == Failed then Move(Quiet, Stop)
      else Move(Upsert(w, k, n, px.uid, Plain), if o == Ok then Unless(px, Stop) else Stop)
    case _ => Move(Quiet, Stop)
  }

  /* ---- pkg/controller/dormant.go and halt ---- */

  function HaltKind(k: nat): Kind {
    if k == 0 then AppBinding
    else if k == 1 then PodDisruptionBudget
    else if k == 2 then StatefulSet
    else if k == 3 then Deployment
    else if k == 4 then RoleBinding
    else if k == 5 then Role
    else ServiceAccount
  }

  /** What each wait loop looks for: pods, services, the service account, StatefulSets, deployments. */
  function AwaitedKeys(w: State, k: nat, n: Name): set<Key> {
    if k == 0 then LabelledKeys(w, Pod, n)
    else if k == 1 then LabelledKeys(w, Service, n)
    else if k == 2 then {Key(ServiceAccount, n)} * w.objs.Keys
    else if k == 3 then LabelledKeys(w, StatefulSet, n)
    else LabelledKeys(w, Deployment, n)
  }

  /** The last two loops take the empty list that comes with an error for "deleted". */
  predicate WaitOver(w: State, k: nat, n: Name, o: Outcome) {
    if o == Ok then AwaitedKeys(w, k, n) == {} else k >= 3
  }

  /** A collection deletion that fails may have deleted some of the objects. */
  function CollectionDeleted(w: State, ks: set<Key>, c: Choice): map<Key, Offshoot> {
    Deleted(w.objs, if c.outcome.Applied() then ks else set k | k in ks && k.name in c.partly)
  }

  function HaltMove(w: State, n: Name, p: Pass, c: Choice): Move {
    var fail := Move(Quiet, At(p, FailGet));
    var o := c.outcome;
    match p.pc
    case HDelete(k) =>
      Move(SetObjects(CollectionDeleted(w, LabelledKeys(w, HaltKind(k), n), c)),
           if o == Ok then At(p, if k < 6 then HDelete(k + 1) else HListServices) else At(p, FailGet))
    case HListServices =>
      var services := LabelledKeys(w, Service, n);
      Call(o, p, Quiet, if services == {} then Unless(p.px, At(p, HWait(0))) else At(p, HDeleteService(services)))
    case HDeleteService(services) =>
      var k := Key(Service, c.item);
      if k !in services then Move(Quiet, Go(p))
      else if k !in w.objs then fail
      else
        Call(o, p, SetObjects(Deleted(w.objs, {k})),
             if services == {k} then Unless(p.px, At(p, HWait(0))) else At(p, HDeleteService(services - {k})))
    case HWait(k) =>
      if WaitOver(w, k, n, o) then Move(Quiet, At(p, if k < 4 then HWait(k + 1) else HWrite))
      else if c.giveUp then fail
      else Move(Quiet, Go(p))
    case HWrite =>
      (match Current(w, n)
       case None => fail
       case Some(x) => Call(o, p, PutDatabase(x.(phase := Halted)), Stop))
    case _ => Move(Quiet, Stop)
  }

  /* ---- pkg/controller/controller.go: pushFailureEvent ---- */

  /** When the status `Get` fails the nil result is dereferenced, which takes the operator down. */
  function FailMove(w: State, n: Name, p: Pass, o: Outcome): Move {
    match p.pc
    case FailGet =>
      if o != Ok || Current(w, n).None? then Move(Quiet, Panic) else Move(Quiet, At(p, FailPut))
    case FailPut =>
      if o.Applied() && Current(w, n).Some? then
        Move(PutDatabase(Current(w, n).value.(phase := NotReady)), Stop)
      else Move(Quiet, Stop)
    case _ => Move(Quiet, Stop)
  }

  /* ---- terminate ---- */

  /** WipeOut adds the reference to the database's own secret; every other policy removes it. */
  predicate MarksSecret(px: Database) { px.spec.policy == WipeOut }

  /** Halt removes the reference from PVCs; every other policy adds it. */
  predicate MarksPvcs(px: Database) { px.spec.policy != Policy.Halt }

  function Patched(snapshot: set<nat>, mark: bool, uid: nat): set<nat> {
    if mark then snapshot + {uid} else snapshot - {uid}
  }

  /** Where `terminate` starts, and where it goes on after the secret and after the PVCs. */
  function EntryAt(px: Database): PC {
    if px.spec.policy == Policy.Halt then TPvcList
    else if px.spec.policy == WipeOut then TPeers
    else if px.spec.secret.None? then TPvcList
    else TSecretGet
  }

  function AfterSecretAt(px: Database): PC { if px.spec.policy == Policy.Halt then TFinalizer else TPvcList }

  function AfterPvcsAt(px: Database): (pc: PC)
    ensures pc.TSecretGet? || pc.TFinalizer?
  {
    if px.spec.policy == Policy.Halt && px.spec.secret.Some? then TSecretGet else TFinalizer
  }

  function TerminateEntry(p: Pass): Pass { p.(pc := EntryAt(p.px)) }

  function AfterSecret(p: Pass): Next { At(p, AfterSecretAt(p.px)) }

  function AfterPvcs(p: Pass): Next { At(p, AfterPvcsAt(p.px)) }

  /** The names the lister reports as using a secret, other than `n` itself. */
  predicate UsedByPeers(w: State, n: Name, s: Name) {
    exists m :: m in w.hist && m != n && Cached(w, m).Some? && Cached(w, m).value.spec.secret == Some(s)
  }

  function TerminateMove(w: State, n: Name, p: Pass, o: Outcome, item: Name): Move {
    var px := p.px;
    match p.pc
    case TPeers =>
      if o != Ok then Move(Quiet, Stop)
      else Move(Quiet, At(p, if px.spec.secret.None? || UsedByPeers(w, n, SecretName(px)) then TPvcList else TSecretGet))
    case TSecretGet =>
      var s := SecretName(px);
      if o != Ok then Move(Quiet, Stop)
      else if s !in w.secrets then Move(Quiet, AfterSecret(p))
      else
        var q := p.(got := Some(w.secrets[s].id));
        if (px.uid in w.secrets[s].owners) == MarksSecret(px) then Move(Quiet, AfterSecret(q))
        else Move(Quiet, At(q, TSecretPatch(w.secrets[s].owners)))
    case TSecretPatch(snapshot) =>
      var s := SecretName(px);
      if o == Failed then Move(Quiet, Stop)
      else if s !in w.secrets then Move(Quiet, if o == Ok then AfterSecret(p) else Stop)
      else
        Move(PutSecret(s, w.secrets[s].(owners := Patched(snapshot, MarksSecret(px), px.uid))),
             if o == Ok then AfterSecret(p) else Stop)
    case TPvcList =>
      var todo := LabelledPvcs(w, n);
      var q := p.(listed := map v | v in todo :: todo[v].id);
      if o != Ok then Move(Quiet, Stop)
      else Move(Quiet, if todo == map[] then AfterPvcs(q) else At(q, TPvcPatch(todo, false)))
    case TPvcPatch(todo, failed) =>
      if item !in todo then Move(Quiet, Go(p))
      else
        var call := (px.uid in todo[item].owners) != MarksPvcs(px);
        var wrong := failed || (call && o != Ok);
        var effect :=
          if call && o.Applied() && item in w.pvcs then
            PutPvc(item, w.pvcs[item].(owners := Patched(todo[item].owners, MarksPvcs(px), px.uid)))
          else Quiet;
        Move(effect,
             if todo.Keys != {item} then At(p, TPvcPatch(todo - {item}, wrong))
             else if wrong then Stop
             else AfterPvcs(p))
    case TFinalizer =>
      if px.spec.monitoring.AgentMissing? then Move(Quiet, Panic)
      else (match Current(w, n)
       case None => Move(Quiet, Stop)
       case Some(x) => Move(if o.Applied() then PutDatabase(x.(finalizer := false)) else Quiet, Stop))
    case _ => Move(Quiet, Stop)
  }

  /* ---- one step ---- */

  function MoveOf(w: State, n: Name, p: Pass, c: Choice): Move {
    if p.pc.Start? then StartMove(w, n, p, c.outcome)
    else if p.pc.Creates() then CreateMove(w, n, p, c.outcome, c.password)
    else if p.pc.Halts() then HaltMove(w, n, p, c)
    else if p.pc.Terminates() then TerminateMove(w, n, p, c.outcome, c.item)
    else FailMove(w, n, p, c.outcome)
  }

  function Commit(w: State, n: Name, e: Effect): State {
    match e
    case Quiet => w
    case PutDatabase(x) => Store(w, n, x)
    case PutSecret(s, secret) => w.(secrets := w.secrets[s := secret], nextId := w.nextId + 1)
    case PutPvc(v, pvc) => w.(pvcs := w.pvcs[v := pvc])
    case SetObjects(objs) => w.(objs := objs)
  }

  /** A restarted operator lists everything afresh and has no pass in progress. */
  function Restarted(w: State): State {
    w.(passes := map[], seen := map n | n in w.hist :: |w.hist[n]|, governing := "kubedb")
  }

  function Settle(w: State, n: Name, p: Pass, next: Next): State {
    match next
    case Stop => w.(passes := w.passes - {n})
    case Panic => Restarted(w)
    case Go(q) =>
      w.(passes := w.passes[n := q],
         governing := if p.pc.CGovern? && q.pc.CRbac? then GoverningService(n) else w.governing,
         audit := w.audit.(released := if q.pc.TFinalizer? then w.audit.released + {(n, q.px.uid)} else w.audit.released))
  }

  function StepPass(w: State, n: Name, c: Choice): State {
    if n !in w.passes then w
    else
      var p := w.passes[n];
      var m := MoveOf(w, n, p, c);
      Settle(Commit(w, n, m.effect), n, p, m.next)
  }

  /** A worker takes a key from the queue, which never hands out a key that is being processed. */
  function Begin(w: State, n: Name): State {
    if n in w.passes || Cached(w, n).None? then w
    else
      var px := Cached(w, n).value;
      if !px.deleting then w.(passes := w.passes[n := Pass(px, Start, map[], None)])
      else if !px.finalizer then w
      else
        w.(passes := w.passes[n := TerminateEntry(Pass(px, Start, map[], None))],
           audit := w.audit.(terminating := w.audit.terminating + {(n, px.uid)}))
  }

  datatype Event =
    | UserCreate(n: Name, spec: Spec)
    | UserUpdate(n: Name, spec: Spec)
    | UserDelete(n: Name)
    | Observe(n: Name, conditions: Conditions)          // the StatefulSet watcher and Stash
    | SecretCreate(s: Name, labelled: Option<Name>, password: nat, username: bool, legacyUser: bool)
    | SecretDelete(s: Name)
    | PvcCreate(v: Name, labelled: Option<Name>)
    | PvcDelete(v: Name)
    | ObjectCreate(k: Key, labelled: Option<Name>, held: bool)
    | ObjectGone(k: Key)
    | CollectSecret(s: Name)
    | CollectPvc(v: Name)
    | CollectObject(k: Key)
    | Sync(n: Name)
    | Take(n: Name)
    | Do(n: Name, choice: Choice)
    | Crash

  /** Garbage collection takes an object that has owners once none of them is left. */
  predicate Collectable(w: State, owners: set<nat>) {
    owners != {} && owners !! LiveUids(w)
  }

  function UserStep(w: State, e: Event): State {
    match e
    case UserCreate(n, spec) =>
      if Current(w, n).Some? then w
      else
        Store(w.(nextId := w.nextId + 1, audit := w.audit.(names := w.audit.names[w.nextId := n])),
              n, Database(w.nextId, spec, NoPhase, Conditions(None, None, None), false, false))
    case UserUpdate(n, spec) =>
      if Current(w, n).None? || !SecretFrozen(Current(w, n).value.spec, spec) then w
      else Store(w, n, Current(w, n).value.(spec := spec))
    case UserDelete(n) =>
      if Current(w, n).None? || Current(w, n).value.spec.policy == DoNotTerminate then w
      else Store(w, n, Current(w, n).value.(deleting := true))
    case Observe(n, c) =>
      if Current(w, n).None? then w else Store(w, n, Current(w, n).value.(conditions := c))
    case _ => w
  }

  function ObjectStep(w: State, e: Event): State {
    match e
    case SecretCreate(s, labelled, password, username, legacyUser) =>
      if s in w.secrets then w
      else
        w.(secrets := w.secrets[s := Secret(w.nextId, labelled, {}, Some(password), username, legacyUser)],
           nextId := w.nextId + 1)
    case SecretDelete(s) => w.(secrets := w.secrets - {s})
    case PvcCreate(v, labelled) =>
      if v in w.pvcs then w else w.(pvcs := w.pvcs[v := Pvc(w.nextId, labelled, {})], nextId := w.nextId + 1)
    case PvcDelete(v) => w.(pvcs := w.pvcs - {v})
    case ObjectCreate(k, labelled, held) =>
      if k in w.objs then w else w.(objs := w.objs[k := Offshoot(labelled, {}, Plain, held, false)])
    case ObjectGone(k) => w.(objs := w.objs - {k})
    case CollectSecret(s) =>
      if s in w.secrets && Collectable(w, w.secrets[s].owners) then w.(secrets := w.secrets - {s}) else w
    case CollectPvc(v) =>
      if v in w.pvcs && Collectable(w, w.pvcs[v].owners) then w.(pvcs := w.pvcs - {v}) else w
    case CollectObject(k) =>
      if k in w.objs && Collectable(w, w.objs[k].owners) then w.(objs := w.objs - {k}) else w
    case _ => w
  }

  function Step(w: State, e: Event): State {
    match e
    case UserCreate(_, _) => UserStep(w, e)
    case UserUpdate(_, _) => UserStep(w, e)
    case UserDelete(_) => UserStep(w, e)
    case Observe(_, _) => UserStep(w, e)
    case Sync(n) =>
      if Seen(w, n) < |History(w, n)| then w.(seen := w.seen[n := Seen(w, n) + 1]) else w
    case Take(n) => Begin(w, n)
    case Do(n, c) => StepPass(w, n, c)
    case Crash => Restarted(w)
    case _ => ObjectStep(w, e)
  }

  const Initial: State :=
    World(map[], map[], 0, map[], map[], map[], map[], "kubedb", Audit(map[], {}, {}, {}, {}))

  /** One transition of a run. */
  ghost predicate Goes(ws: seq<State>, es: seq<Event>, i: nat)
    requires |ws| == |es| + 1 && i < |es|
  {
    ws[i + 1] == Step(ws[i], es[i])
  }

  /** A run: states from the initial one on, each reached from the one before by an event. */
  ghost predicate IsRun(ws: seq<State>, es: seq<Event>) {
    |ws| == |es| + 1 && ws[0] == Initial && forall i: nat :: i < |es| ==> Goes(ws, es, i)
  }

  ghost predicate Reachable(w: State) {
    exists ws, es :: IsRun(ws, es) && ws[|es|] == w
  }

  lemma Reach(w: State, e: Event)
    requires Reachable(w)
    ensures Reachable(Step(w, e))
  {
    hide Step;
    var ws, es :| IsRun(ws, es) && ws[|es|] == w;
    var ws', es' := ws + [Step(w, e)], es + [e];
    forall i: nat | i < |es'| ensures Goes(ws', es', i) {
      if i < |es| { assert Goes(ws, es, i); }
    }
    assert IsRun(ws', es');
  }

  /** Every event of a run happened in a state that allows it. */
  ghost predicate Along(ws: seq<State>, es: seq<Event>, allowed: (State, Event) -> bool) {
    |ws| == |es| + 1 && forall i: nat :: i < |es| ==> allowed(ws[i], es[i])
  }

  /** Writes to a database by anyone but the operator. */
  predicate IsUser(e: Event) { e.UserCreate? || e.UserUpdate? || e.UserDelete? || e.Observe? }

  /** The pass has set the operator's shared field and has not yet read it back. */
  predicate InWindow(pc: PC) {
    pc.CRbac? || pc.CService? || pc.CSecretGet? || pc.CSecretCreate? || pc.CSecretSpec? || pc.CUpgrade? || pc.CVersion?
  }

  lemma PvcListMove(m: State, n: Name, p: Pass, c: Choice)
    requires p.pc == TPvcList
    ensures var todo := LabelledPvcs(m, n);
      var mv := MoveOf(m, n, p, c);
      && mv.effect == Quiet
      && (if c.outcome != Ok then mv.next == Stop
          else mv.next.Go? && mv.next.pass.px == p.px &&
               mv.next.pass.pc == if todo == map[] then AfterPvcsAt(p.px) else TPvcPatch(todo, false))
  {
  }

  /** The patch of one listed PVC, made from the copy that was listed. */
  lemma PvcPatchMove(m: State, n: Name, p: Pass, c: Choice, px: Database, todo: map<Name, Pvc>, failed: bool, rest: map<Name, Pvc>)
    requires p.pc == TPvcPatch(todo, failed) && p.px == px && c.item in todo && rest == todo - {c.item}
    ensures var call := (px.uid in todo[c.item].owners) != MarksPvcs(px);
      var wrong := failed || (call && c.outcome != Ok);
      var mv := MoveOf(m, n, p, c);
      && mv.effect ==
           (if call && c.outcome.Applied() && c.item in m.pvcs then
              Effect.PutPvc(c.item, m.pvcs[c.item].(owners := Patched(todo[c.item].owners, MarksPvcs(px), px.uid)))
            else Quiet)
      && mv.next ==
           (if rest != map[] then At(p, TPvcPatch(rest, wrong))
            else if wrong then Stop
            else At(p, AfterPvcsAt(px)))
  {
    assert todo.Keys == {c.item} <==> todo - {c.item} == map[] by {
      if todo - {c.item} == map[] { assert forall v :: v in todo ==> v == c.item || v in todo - {c.item}; }
    }
  }

  /* ---- what the two halves of a step leave alone ---- */

  lemma SettleStores(w: State, n: Name, p: Pass, next: Next)
    ensures var w' := Settle(w, n, p, next);
            w'.pvcs == w.pvcs && w'.secrets == w.secrets && w'.objs == w.objs && w'.hist == w.hist && w'.nextId == w.nextId
  {
  }

  lemma SettlePasses(w: State, n: Name, p: Pass, next: Next, k: Name)
    requires k in Settle(w, n, p, next).passes
    ensures if k == n then next.Go? && Settle(w, n, p, next).passes[k] == next.pass
            else k in w.passes && Settle(w, n, p, next).passes[k] == w.passes[k]
  {
  }

  lemma CommitPasses(w: State, n: Name, e: Effect)
    ensures Commit(w, n, e).passes == w.passes && w.nextId <= Commit(w, n, e).nextId
    ensures Commit(w, n, e).governing == w.governing
  {
  }

  lemma CommitHistory(w: State, n: Name, e: Effect, m: Name)
    requires m != n || !e.PutDatabase?
    ensures History(Commit(w, n, e), m) == History(w, m)
  {
  }

  /** The events of a run from step `i` up to step `j` happened in states that allow them. */
  ghost predicate Between(ws: seq<State>, es: seq<Event>, i: nat, j: nat, allowed: (State, Event) -> bool) {
    |ws| == |es| + 1 && i <= j <= |es| && forall k: nat :: i <= k < j ==> allowed(ws[k], es[k])
  }

  /** The state after a list of events. */
  function After(w: State, es: seq<Event>): State
    decreases |es|
  {
    if es == [] then w else After(Step(w, es[0]), es[1..])
  }

  lemma {:induction false} AfterAppend(w: State, es: seq<Event>, e: Event)
    ensures After(w, es + [e]) == Step(After(w, es), e)
    decreases |es|
  {
    hide Step;
    if es == [] {
      assert [e][1..] == [];
      assert After(w, [e]) == After(Step(w, e), []);
    } else {
      assert (es + [e])[1..] == es[1..] + [e];
      AfterAppend(Step(w, es[0]), es[1..], e);
    }
  }

  lemma {:induction false} AfterReachable(w: State, es: seq<Event>)
    requires Reachable(w)
    ensures Reachable(After(w, es))
    decreases |es|
  {
    hide Step, Reachable;
    if es == [] {
    } else {
      Reach(w, es[0]);
      AfterReachable(Step(w, es[0]), es[1..]);
    }
  }

  /* ---- which part of a step an event is ---- */

  lemma TakeIs(w: State, n: Name)
    ensures Step(w, Take(n)) == Begin(w, n)
  {
    hide Begin, UserStep, ObjectStep, StepPass, Restarted;
  }

  lemma DoIs(w: State, n: Name, c: Choice)
    requires n in w.passes
    ensures var m := MoveOf(w, n, w.passes[n], c);
            Step(w, Do(n, c)) == Settle(Commit(w, n, m.effect), n, w.passes[n], m.next)
  {
    hide Begin, UserStep, ObjectStep, Restarted, MoveOf, Commit, Settle;
  }

  lemma NothingToDo(w: State, e: Event)
    requires e.Do? && e.n !in w.passes
    ensures Step(w, e) == w
  {
  }

  lemma UserIs(w: State, e: Event)
    requires IsUser(e)
    ensures Step(w, e) == UserStep(w, e)
  {
    hide Begin, UserStep, ObjectStep, StepPass, Restarted;
  }

  predicate IsObject(e: Event) { !IsUser(e) && !e.Sync? && !e.Take? && !e.Do? && !e.Crash? }

  lemma ObjectIs(w: State, e: Event)
    requires IsObject(e)
    ensures Step(w, e) == ObjectStep(w, e)
  {
    hide Begin, UserStep, ObjectStep, StepPass, Restarted;
  }

  lemma UserPasses(w: State, e: Event)
    ensures UserStep(w, e).passes == w.passes
  {
  }

  lemma ObjectPasses(w: State, e: Event)
    ensures ObjectStep(w, e).passes == w.passes
  {
  }

  /** A step that is not a pass's own leaves the passes as they are, or starts one, or ends them all. */
  lemma EventPasses(w: State, e: Event, k: Name)
    requires !e.Do? && k in Step(w, e).passes
    ensures (k in w.passes && Step(w, e).passes[k] == w.passes[k]) || (k !in w.passes && e == Take(k))
  {
    if IsUser(e) {
      UserIs(w, e);
      UserPasses(w, e);
    } else if IsObject(e) {
      ObjectIs(w, e);
      ObjectPasses(w, e);
    } else if e.Take? {
      TakeIs(w, e.n);
    }
    hide UserStep, ObjectStep;
  }

  /** What a step of a pass does, given its move. */
  ghost predicate Moved(m: State, m': State, n: Name, p: Pass, move: Move) {
    && m'.hist == (if move.effect.PutDatabase? then m.hist[n := History(m, n) + [Stored(move.effect.database)]] else m.hist)
    && m'.secrets == (if move.effect.PutSecret? then m.secrets[move.effect.secretName := move.effect.secret] else m.secrets)
    && m'.nextId == (if move.effect.PutSecret? then m.nextId + 1 else m.nextId)
    && m'.pvcs == (if move.effect.PutPvc? then m.pvcs[move.effect.pvcName := move.effect.pvc] else m.pvcs)
    && m'.objs == (if move.effect.SetObjects? then move.effect.objs else m.objs)
    && (move.next.Go? ==> n in m'.passes && m'.passes[n] == move.next.pass)
    && (!move.next.Go? ==> n !in m'.passes)
    && (!move.next.Panic? ==> m'.seen == m.seen)
    && (!move.next.Panic? ==>
          m'.governing == if move.next.Go? && p.pc.CGovern? && move.next.pass.pc.CRbac? then GoverningService(n) else m.governing)
  }

  lemma Committed(m: State, n: Name, e: Effect)
    ensures var m1 := Commit(m, n, e);
      && m1.hist == (if e.PutDatabase? then m.hist[n := History(m, n) + [Stored(e.database)]] else m.hist)
      && m1.secrets == (if e.PutSecret? then m.secrets[e.secretName := e.secret] else m.secrets)
      && m1.nextId == (if e.PutSecret? then m.nextId + 1 else m.nextId)
      && m1.pvcs == (if e.PutPvc? then m.pvcs[e.pvcName := e.pvc] else m.pvcs)
      && m1.objs == (if e.SetObjects? then e.objs else m.objs)
      && m1.passes == m.passes && m1.seen == m.seen && m1.governing == m.governing
  {
  }

  lemma Settled(m: State, n: Name, p: Pass, next: Next)
    ensures var m1 := Settle(m, n, p, next);
      && (next.Go? ==> n in m1.passes && m1.passes[n] == next.pass)
      && (!next.Go? ==> n !in m1.passes)
      && (!next.Panic? ==> m1.seen == m.seen)
      && (!next.Panic? ==> m1.governing == if next.Go? && p.pc.CGovern? && next.pass.pc.CRbac? then GoverningService(n) else m.governing)
  {
  }

  lemma CommitThenSettle(m: State, n: Name, p: Pass, move: Move)
    ensures Moved(m, Settle(Commit(m, n, move.effect), n, p, move.next), n, p, move)
  {
    var m1 := Commit(m, n, move.effect);
    Committed(m, n, move.effect);
    Settled(m1, n, p, move.next);
    SettleStores(m1, n, p, move.next);
    hide Settle, Commit;
  }

  lemma StepMoves(m: State, n: Name, c: Choice)
    requires n in m.passes
    ensures Moved(m, Step(m, Do(n, c)), n, m.passes[n], MoveOf(m, n, m.passes[n], c))
  {
    hide Step, MoveOf, Moved, Commit, Settle;
    var p := m.passes[n];
    DoIs(m, n, c);
    CommitThenSettle(m, n, p, MoveOf(m, n, p, c));
  }
}
