/**
 Restartability of the create pass. Every offshoot, the database secret and the spec have a value
 that an uninterrupted pass will give them; every single call of every pass, whatever becomes of it,
 keeps that value, so a pass after any number of cut-off ones ends where an uninterrupted one does.
 */
module Restart {
  import opened Options
  import opened Cluster
  import opened Passes

  /* ---- what a finished pass leaves ---- */

  function SecretOf(n: Name, x: Database): Name {
    if x.spec.secret.Some? then x.spec.secret.value else AuthSecret(n)
  }

  predicate IsGoverning(n: Name, k: Key) { k == Key(Service, GoverningService(n)) }

  /** The objects a pass writes, with the payload it gives each. */
  function Wanted(w: State, n: Name, x: Database): map<Key, Payload> {
    map[Key(Service, GoverningService(n)) := Plain,
        Key(ServiceAccount, n) := Plain,
        Key(Role, n) := Plain,
        Key(RoleBinding, n) := Plain,
        Key(Service, n) := Plain,
        Key(StatefulSet, n) := Workload(GoverningService(n), SecretOf(n, x), x.spec.replicas),
        Key(AppBinding, n) := Binding(SecretOf(n, x))]
    + (if x.spec.Watched() && !Foreign(w, Key(Service, StatsService(n)), n)
       then map[Key(Service, StatsService(n)) := Plain] else map[])
  }

  function GoalObjects(w: State, n: Name, x: Database): map<Key, Offshoot> {
    var wanted := Wanted(w, n, x);
    map k | k in w.objs.Keys + wanted.Keys ::
      if k in wanted && !(IsGoverning(n, k) && k in w.objs) then Upserted(w, k, n, x.uid, wanted[k]) else w.objs[k]
  }

  function GoalSecrets(w: State, n: Name, x: Database, password: nat): map<Name, Secret> {
    if x.spec.secret.Some? then w.secrets[x.spec.secret.value := UpgradedSecret(w, x.spec.secret.value)]
    else if AuthSecret(n) in w.secrets then w.secrets
    else w.secrets[AuthSecret(n) := FreshSecret(w, n, password)]
  }

  datatype Goal = Goal(objs: map<Key, Offshoot>, secrets: map<Name, Secret>, uid: nat, spec: Spec, conditions: Conditions)

  function GoalOf(w: State, n: Name, password: nat): Goal
    requires Current(w, n).Some?
  {
    var x := Current(w, n).value;
    Goal(GoalObjects(w, n, x), GoalSecrets(w, n, x, password), x.uid,
         x.spec.(secret := Some(SecretOf(n, x))), x.conditions)
  }

  /** The goal is met. */
  predicate Reached(w: State, n: Name, g: Goal) {
    && Current(w, n).Some? && Current(w, n).value.phase == Ready
    && Current(w, n).value.uid == g.uid && Current(w, n).value.spec == g.spec
    && w.objs == g.objs && w.secrets == g.secrets
  }

  /* ---- a database whose create pass can succeed ---- */

  /** A secret from before 0.9.0 that still lacks the user name key. */
  predicate NeedsUpgrade(s: Secret) { s.legacyUser && !s.username }

  /** The secret a pass will use can be found or created. */
  predicate SecretUsable(w: State, n: Name, x: Database) {
    if x.spec.secret.Some? then x.spec.secret.value in w.secrets
    else AuthSecret(n) in w.secrets ==> w.secrets[AuthSecret(n)].labelled == Some(n)
  }

  /** Not bound yet, and the secret it will be bound to still needs the upgrade. */
  predicate LegacyUnbound(w: State, n: Name, x: Database) {
    x.spec.secret.None? && AuthSecret(n) in w.secrets && NeedsUpgrade(w.secrets[AuthSecret(n)])
  }

  predicate SecretReady(w: State, n: Name, x: Database) {
    SecretUsable(w, n, x) && !LegacyUnbound(w, n, x)
  }

  predicate CanCreate(w: State, n: Name, x: Database) {
    && !x.deleting && !x.spec.halted && x.conditions.paused != Some(true)
    && (x.spec.waitForInitialRestore ==> RestoreOver(x.conditions))
    && !Foreign(w, Key(Service, n), n) && !Foreign(w, Key(StatefulSet, n), n)
  }

  predicate Calm(w: State, n: Name) {
    && Current(w, n).Some?
    && CanCreate(w, n, Current(w, n).value) && SecretReady(w, n, Current(w, n).value)
  }

  /** A copy of the database, perhaps from before its secret was bound. */
  predicate CopyOf(w: State, n: Name, px: Database, x: Database) {
    && px.uid == x.uid && !px.deleting && px.conditions == x.conditions
    && px.spec.(secret := None) == x.spec.(secret := None)
    && (if px.spec.secret.Some? then x.spec.secret == px.spec.secret
        else
          && (x.spec.secret.Some? ==> x.spec.secret == Some(AuthSecret(n)))
          && (AuthSecret(n) in w.secrets ==>
                w.secrets[AuthSecret(n)].labelled == Some(n) && !NeedsUpgrade(w.secrets[AuthSecret(n)])))
  }

  /** Everything the informer has yet to pass on, or has passed on last, is such a copy. */
  ghost predicate CopiesAhead(w: State, n: Name, x: Database) {
    0 < Seen(w, n) <= |History(w, n)| &&
    forall i :: Seen(w, n) <= i + 1 && 0 <= i < |History(w, n)| ==>
      History(w, n)[i].Some? && CopyOf(w, n, History(w, n)[i].value, x)
  }

  /* ---- how far a pass has come ---- */

  function Rank(pc: PC): nat {
    match pc
    case Start => 0
    case CValidate => 1
    case CProvision => 2
    case CGovern => 3
    case CRbac(k) => if k == 0 then 4 else if k == 1 then 5 else 6
    case CService => 7
    case CSecretGet => 8
    case CSecretCreate => 9
    case CSecretSpec => 10
    case CUpgrade => 10
    case CVersion => 11
    case CWorkload(_) => 12
    case CPods => 13
    case CBinding => 14
    case CReady => 15
    case CStats => 16
    case _ => 17
  }

  /** The rank of the call that writes an object. */
  function KeyRank(n: Name, k: Key): nat {
    if IsGoverning(n, k) then 3
    else if k.kind == ServiceAccount then 4
    else if k.kind == Role then 5
    else if k.kind == RoleBinding then 6
    else if k == Key(Service, n) then 7
    else if k.kind == StatefulSet then 12
    else if k.kind == AppBinding then 14
    else 16
  }

  ghost predicate Done(w: State, n: Name, x: Database, rank: nat) {
    forall k :: k in Wanted(w, n, x) && KeyRank(n, k) < rank ==>
      k in w.objs && (IsGoverning(n, k) || w.objs[k] == Upserted(w, k, n, x.uid, Wanted(w, n, x)[k]))
  }

  /** What holds where a create pass is, apart from what it has written. */
  predicate Placed(w: State, n: Name, p: Pass, x: Database) {
    && (InWindow(p.pc) ==> w.governing == GoverningService(n))
    && (p.pc.CRbac? ==> p.pc.k <= 2)
    && (p.pc.CWorkload? ==> p.pc.serviceName == GoverningService(n))
    && (p.pc.CSecretGet? || p.pc.CSecretCreate? || p.pc.CSecretSpec? ==> p.px.spec.secret.None?)
    && (p.pc.CSecretCreate? ==> AuthSecret(n) !in w.secrets)
    && (p.pc.CSecretSpec? ==> AuthSecret(n) in w.secrets)
    && (p.pc.CUpgrade? || 11 <= Rank(p.pc) ==> p.px.spec.secret.Some?)
    && (11 <= Rank(p.pc) ==> w.secrets == GoalSecrets(w, n, x, 0))
    && (p.pc.CStats? ==> x.phase == Ready)
  }

  ghost predicate Advanced(w: State, n: Name, p: Pass, x: Database) {
    p.pc.Start? || p.pc.Creates() ==> CopyOf(w, n, p.px, x) && Placed(w, n, p, x) && Done(w, n, x, Rank(p.pc))
  }

  ghost predicate Underway(w: State, n: Name) {
    && Calm(w, n) && CopiesAhead(w, n, Current(w, n).value)
    && (n in w.passes ==>
          && (w.passes[n].pc.Start? || w.passes[n].pc.Creates() || w.passes[n].pc.FailGet? || w.passes[n].pc.FailPut?)
          && Advanced(w, n, w.passes[n], Current(w, n).value))
  }

  /* ---- one call ---- */

  /** An upsert of a wanted object, at its turn. */
  ghost predicate WritesWanted(w: State, n: Name, x: Database, rank: nat, objs: map<Key, Offshoot>) {
    exists k ::
      && k in Wanted(w, n, x) && KeyRank(n, k) == rank && (IsGoverning(n, k) ==> k !in w.objs)
      && objs == w.objs[k := Upserted(w, k, n, x.uid, Wanted(w, n, x)[k])]
  }

  /** What one call of a create pass may change. */
  ghost predicate Advances(w: State, n: Name, p: Pass, x: Database, e: Effect, password: nat) {
    match e
    case Quiet => true
    case SetObjects(objs) => WritesWanted(w, n, x, Rank(p.pc), objs)
    case PutSecret(s, secret) =>
      && p.px.spec.secret.Some? == p.pc.CUpgrade?
      && w.secrets[s := secret] == GoalSecrets(w, n, x, password)
      && (p.pc.CUpgrade? || (p.pc.CSecretCreate? && s == AuthSecret(n) && secret == FreshSecret(w, n, password)))
    case PutDatabase(y) =>
      || y == x.(finalizer := true)
      || (exists phase :: y == x.(phase := phase))
      || (p.pc.CSecretSpec? && x.spec.secret in {None, Some(AuthSecret(n))} && AuthSecret(n) in w.secrets &&
          y == x.(spec := x.spec.(secret := Some(AuthSecret(n)))))
    case PutPvc(_, _) => false
  }

  lemma WantedKeys(w: State, n: Name, x: Database)
    ensures var m := Wanted(w, n, x);
      && Key(Service, GoverningService(n)) in m && m[Key(Service, GoverningService(n))] == Plain
      && Key(ServiceAccount, n) in m && m[Key(ServiceAccount, n)] == Plain
      && Key(Role, n) in m && m[Key(Role, n)] == Plain
      && Key(RoleBinding, n) in m && m[Key(RoleBinding, n)] == Plain
      && Key(Service, n) in m && m[Key(Service, n)] == Plain
      && Key(StatefulSet, n) in m && m[Key(StatefulSet, n)] == Workload(GoverningService(n), SecretOf(n, x), x.spec.replicas)
      && Key(AppBinding, n) in m && m[Key(AppBinding, n)] == Binding(SecretOf(n, x))
      && (Key(Service, StatsService(n)) in m <==> x.spec.Watched() && !Foreign(w, Key(Service, StatsService(n)), n))
      && (Key(Service, StatsService(n)) in m ==> m[Key(Service, StatsService(n))] == Plain)
      && !IsGoverning(n, Key(Service, n)) && !IsGoverning(n, Key(Service, StatsService(n))) && StatsService(n) != n
  {
    assert |GoverningService(n)| == |n| + 4 && |StatsService(n)| == |n| + 6;
  }

  function WrittenKey(n: Name, pc: PC): Key {
    match pc
    case CGovern => Key(Service, GoverningService(n))
    case CRbac(k) => Key(RbacKind(k), n)
    case CService => Key(Service, n)
    case CWorkload(_) => Key(StatefulSet, n)
    case CBinding => Key(AppBinding, n)
    case _ => Key(Service, StatsService(n))
  }

  function WrittenPayload(px: Database, pc: PC): Payload {
    match pc
    case CWorkload(serviceName) => WorkloadOf(px, serviceName)
    case CBinding => Binding(SecretName(px))
    case _ => Plain
  }

  lemma UpsertForm(w: State, n: Name, p: Pass, c: Choice)
    requires CreateMove(w, n, p, c.outcome, c.password).effect.SetObjects?
    ensures var k := WrittenKey(n, p.pc);
      && CreateMove(w, n, p, c.outcome, c.password).effect.objs ==
           w.objs[k := Upserted(w, k, n, p.px.uid, WrittenPayload(p.px, p.pc))]
      && (p.pc.CGovern? || p.pc.CRbac? || p.pc.CService? || p.pc.CWorkload? || p.pc.CBinding? || p.pc.CStats?)
      && (p.pc.CGovern? ==> k !in w.objs)
      && (p.pc.CStats? ==> p.px.spec.Watched() && !Foreign(w, k, n))
  {
  }

  lemma WritesItsKey(w: State, n: Name, p: Pass, x: Database)
    requires CopyOf(w, n, p.px, x) && Placed(w, n, p, x)
    requires p.pc.CGovern? || p.pc.CRbac? || p.pc.CService? || p.pc.CWorkload? || p.pc.CBinding? || p.pc.CStats?
    requires p.pc.CStats? ==> p.px.spec.Watched() && !Foreign(w, WrittenKey(n, p.pc), n)
    ensures var k := WrittenKey(n, p.pc);
      && k in Wanted(w, n, x) && Wanted(w, n, x)[k] == WrittenPayload(p.px, p.pc)
      && KeyRank(n, k) == Rank(p.pc) && (IsGoverning(n, k) ==> p.pc.CGovern?)
  {
    WantedKeys(w, n, x);
    hide Wanted, GoverningService, StatsService, Foreign, GoalSecrets;
  }

  lemma UpsertAdvances(w: State, n: Name, p: Pass, c: Choice)
    requires Underway(w, n) && n in w.passes && w.passes[n] == p && p.pc.Creates()
    requires CreateMove(w, n, p, c.outcome, c.password).effect.SetObjects?
    ensures WritesWanted(w, n, Current(w, n).value, Rank(p.pc), CreateMove(w, n, p, c.outcome, c.password).effect.objs)
  {
    UpsertForm(w, n, p, c);
    var x := Current(w, n).value;
    assert CopyOf(w, n, p.px, x) && Placed(w, n, p, x);
    WritesItsKey(w, n, p, x);
    hide CreateMove, Wanted, WrittenKey, WrittenPayload, Upserted, Underway, Placed, Done, Calm, CopiesAhead, KeyRank, Rank;
    assert WrittenKey(n, p.pc) in Wanted(w, n, x);
  }

  lemma SecretAdvances(w: State, n: Name, p: Pass, c: Choice)
    requires Underway(w, n) && n in w.passes && w.passes[n] == p && p.pc.Creates()
    requires CreateMove(w, n, p, c.outcome, c.password).effect.PutSecret?
    ensures Advances(w, n, p, Current(w, n).value, CreateMove(w, n, p, c.outcome, c.password).effect, c.password)
  {
    hide Wanted, Done;
  }

  lemma DatabaseAdvances(w: State, n: Name, p: Pass, c: Choice)
    requires Underway(w, n) && n in w.passes && w.passes[n] == p
    requires MoveOf(w, n, p, c).effect.PutDatabase?
    ensures Advances(w, n, p, Current(w, n).value, MoveOf(w, n, p, c).effect, c.password)
  {
    hide Wanted, Done;
  }

  lemma MoveAdvances(w: State, n: Name, p: Pass, c: Choice)
    requires Underway(w, n) && n in w.passes && w.passes[n] == p
    ensures Advances(w, n, p, Current(w, n).value, MoveOf(w, n, p, c).effect, c.password)
  {
    var e := MoveOf(w, n, p, c).effect;
    if e.PutDatabase? { DatabaseAdvances(w, n, p, c); }
    else if p.pc.Creates() {
      if e.SetObjects? { UpsertAdvances(w, n, p, c); }
      if e.PutSecret? { SecretAdvances(w, n, p, c); }
      CreatesNoPvc(w, n, p, c);
    }
  }

  lemma CreatesNoPvc(w: State, n: Name, p: Pass, c: Choice)
    requires p.pc.Creates()
    ensures !MoveOf(w, n, p, c).effect.PutPvc?
  {
  }

  /* ---- a call keeps the goal ---- */

  /** Still calm, aiming at the same goal, with all earlier copies still copies. */
  ghost predicate SameGoal(w: State, w1: State, n: Name, password: nat) {
    && Current(w, n).Some? && Calm(w1, n) && CopiesAhead(w1, n, Current(w1, n).value)
    && GoalOf(w1, n, password) == GoalOf(w, n, password)
    && (forall px :: CopyOf(w, n, px, Current(w, n).value) ==> CopyOf(w1, n, px, Current(w1, n).value))
  }

  lemma WantedStable(w: State, w1: State, n: Name, x: Database, k: Key)
    requires k in Wanted(w, n, x)
    requires w1.objs == w.objs[k := Upserted(w, k, n, x.uid, Wanted(w, n, x)[k])]
    ensures Wanted(w1, n, x) == Wanted(w, n, x)
    ensures Upserted(w1, k, n, x.uid, Wanted(w, n, x)[k]) == w1.objs[k]
  {
    var s := Key(Service, StatsService(n));
    if k == s { WantedKeys(w, n, x); }
    assert Foreign(w1, s, n) == (Foreign(w, s, n) && k != s);
  }

  lemma ObjectsKeepGoal(w: State, w1: State, n: Name, x: Database, rank: nat)
    requires WritesWanted(w, n, x, rank, w1.objs)
    ensures GoalObjects(w1, n, x) == GoalObjects(w, n, x)
    ensures Wanted(w1, n, x) == Wanted(w, n, x)
  {
    var k :| k in Wanted(w, n, x) && KeyRank(n, k) == rank && (IsGoverning(n, k) ==> k !in w.objs)
      && w1.objs == w.objs[k := Upserted(w, k, n, x.uid, Wanted(w, n, x)[k])];
    WantedStable(w, w1, n, x, k);
    hide Wanted, KeyRank, WritesWanted, IsGoverning;
    var g, g1 := GoalObjects(w, n, x), GoalObjects(w1, n, x);
    assert g1.Keys == g.Keys;
    forall l | l in g1 ensures g1[l] == g[l] {
      assert l != k ==> (l in w1.objs <==> l in w.objs);
    }
  }

  lemma ObjectsStay(w: State, w1: State, n: Name, x: Database, rank: nat, r: nat)
    requires WritesWanted(w, n, x, rank, w1.objs) && Done(w, n, x, r)
    ensures Done(w1, n, x, r) && (forall k :: k in Wanted(w1, n, x) && KeyRank(n, k) == rank ==>
              k in w1.objs && (IsGoverning(n, k) || w1.objs[k] == Upserted(w1, k, n, x.uid, Wanted(w1, n, x)[k])))
  {
    var k :| k in Wanted(w, n, x) && KeyRank(n, k) == rank && (IsGoverning(n, k) ==> k !in w.objs)
      && w1.objs == w.objs[k := Upserted(w, k, n, x.uid, Wanted(w, n, x)[k])];
    WantedStable(w, w1, n, x, k);
    RanksDiffer(w, n, x);
    hide Wanted, KeyRank;
  }

  lemma RanksDiffer(w: State, n: Name, x: Database)
    ensures forall k, l :: k in Wanted(w, n, x) && l in Wanted(w, n, x) && KeyRank(n, k) == KeyRank(n, l) ==> k == l
    ensures forall k :: k in Wanted(w, n, x) ==> KeyRank(n, k) in {3, 4, 5, 6, 7, 12, 14, 16}
  {
    assert |GoverningService(n)| == |n| + 4 && |StatsService(n)| == |n| + 6;
  }

  lemma SetObjectsKeeps(w: State, n: Name, objs: map<Key, Offshoot>, rank: nat, password: nat)
    requires Calm(w, n) && CopiesAhead(w, n, Current(w, n).value)
    requires WritesWanted(w, n, Current(w, n).value, rank, objs)
    ensures SameGoal(w, w.(objs := objs), n, password)
  {
    var w1 := w.(objs := objs);
    var x := Current(w, n).value;
    assert History(w1, n) == History(w, n);
    ObjectsKeepGoal(w, w1, n, x, rank);
    NotForeign(w, w1, n, x, rank);
    hide Wanted, WritesWanted, GoalObjects;
  }

  lemma NotForeign(w: State, w1: State, n: Name, x: Database, rank: nat)
    requires WritesWanted(w, n, x, rank, w1.objs)
    ensures forall k: Key :: Foreign(w1, k, n) ==> Foreign(w, k, n)
  {
    hide Wanted, KeyRank;
  }

  lemma PutSecretKeeps(w: State, n: Name, p: Pass, e: Effect, password: nat)
    requires Calm(w, n) && CopiesAhead(w, n, Current(w, n).value) && CopyOf(w, n, p.px, Current(w, n).value)
    requires e.PutSecret? && Advances(w, n, p, Current(w, n).value, e, password)
    ensures SameGoal(w, Commit(w, n, e), n, password)
  {
    var w1 := Commit(w, n, e);
    var x := Current(w, n).value;
    assert History(w1, n) == History(w, n) && w1.objs == w.objs;
    hide Wanted, GoalObjects, GoalSecrets, Commit, Advances;
    SecretsKeepGoal(w, n, p, e, password);
    GoalObjectsUnmoved(w, w1, n, x);
  }

  lemma GoalObjectsUnmoved(w: State, w1: State, n: Name, x: Database)
    requires w1.objs == w.objs
    ensures GoalObjects(w1, n, x) == GoalObjects(w, n, x)
  {
    assert Wanted(w1, n, x) == Wanted(w, n, x);
  }

  lemma SecretsKeepGoal(w: State, n: Name, p: Pass, e: Effect, password: nat)
    requires Calm(w, n) && CopyOf(w, n, p.px, Current(w, n).value)
    requires e.PutSecret? && Advances(w, n, p, Current(w, n).value, e, password)
    ensures var w1 := Commit(w, n, e); var x := Current(w, n).value;
      && GoalSecrets(w1, n, x, password) == GoalSecrets(w, n, x, password)
      && SecretReady(w1, n, x)
      && (forall px :: CopyOf(w, n, px, x) ==> CopyOf(w1, n, px, x))
  {
    hide Wanted, GoalObjects;
  }

  lemma PutDatabaseKeeps(w: State, n: Name, p: Pass, e: Effect, password: nat)
    requires Calm(w, n) && CopiesAhead(w, n, Current(w, n).value)
    requires e.PutDatabase? && Advances(w, n, p, Current(w, n).value, e, password)
    ensures SameGoal(w, Commit(w, n, e), n, password) && Current(Commit(w, n, e), n) == Some(e.database)
    ensures Wanted(Commit(w, n, e), n, e.database) == Wanted(w, n, Current(w, n).value)
    ensures e.database.uid == Current(w, n).value.uid
  {
    var w1 := Commit(w, n, e);
    var x, y := Current(w, n).value, e.database;
    assert !y.deleting;
    assert History(w1, n) == History(w, n) + [Some(y)];
    DatabaseGoal(w, w1, n, x, y, password);
    forall i | Seen(w1, n) <= i + 1 && 0 <= i < |History(w1, n)|
      ensures History(w1, n)[i].Some? && CopyOf(w1, n, History(w1, n)[i].value, y)
    {
      if i < |History(w, n)| { assert CopyOf(w, n, History(w, n)[i].value, x); }
    }
  }

  /** What the operator writes about a database does not move the goal. */
  lemma DatabaseGoal(w: State, w1: State, n: Name, x: Database, y: Database, password: nat)
    requires w1.objs == w.objs && w1.secrets == w.secrets && w1.nextId == w.nextId
    requires SecretReady(w, n, x) && !x.deleting
    requires
      || y == x.(finalizer := true)
      || (exists phase :: y == x.(phase := phase))
      || (x.spec.secret in {None, Some(AuthSecret(n))} && AuthSecret(n) in w.secrets &&
          y == x.(spec := x.spec.(secret := Some(AuthSecret(n)))) )
    ensures GoalObjects(w1, n, y) == GoalObjects(w, n, x)
    ensures GoalSecrets(w1, n, y, password) == GoalSecrets(w, n, x, password)
    ensures SecretReady(w1, n, y) && CopyOf(w1, n, y, y) && Wanted(w1, n, y) == Wanted(w, n, x) && y.uid == x.uid
    ensures forall px :: CopyOf(w, n, px, x) ==> CopyOf(w1, n, px, y)
  {
    assert forall k :: Upserted(w1, k, n, x.uid, Plain) == Upserted(w, k, n, x.uid, Plain);
    assert Wanted(w1, n, y) == Wanted(w, n, x);
    hide Wanted;
    GoalObjectsSame(w, w1, n, x, y);
  }

  lemma GoalObjectsSame(w: State, w1: State, n: Name, x: Database, y: Database)
    requires w1.objs == w.objs && Wanted(w1, n, y) == Wanted(w, n, x) && y.uid == x.uid
    ensures GoalObjects(w1, n, y) == GoalObjects(w, n, x)
  {
  }

  /** Whatever becomes of a call, the goal stays where it is. */
  lemma CallKeepsGoal(w: State, n: Name, c: Choice)
    requires Underway(w, n) && n in w.passes
    ensures SameGoal(w, Commit(w, n, MoveOf(w, n, w.passes[n], c).effect), n, c.password)
  {
    var p := w.passes[n];
    var e := MoveOf(w, n, p, c).effect;
    MoveAdvances(w, n, p, c);
    if e.PutSecret? { SecretsOnlyFromCreate(w, n, p, c); }
    hide MoveOf;
    match e
    case Quiet =>
    case SetObjects(objs) => SetObjectsKeeps(w, n, objs, Rank(p.pc), c.password);
    case PutSecret(_, _) => PutSecretKeeps(w, n, p, e, c.password);
    case PutDatabase(_) => PutDatabaseKeeps(w, n, p, e, c.password);
  }

  lemma SecretsOnlyFromCreate(w: State, n: Name, p: Pass, c: Choice)
    requires Underway(w, n) && n in w.passes && w.passes[n] == p && MoveOf(w, n, p, c).effect.PutSecret?
    ensures CopyOf(w, n, p.px, Current(w, n).value)
  {
  }

  /* ---- where a call takes the pass ---- */

  predicate Resumable(pc: PC) { pc.Start? || pc.Creates() || pc.FailGet? || pc.FailPut? }

  /** The ranks at which objects are written. */
  const WriteRanks: set<nat> := {3, 4, 5, 6, 7, 12, 14, 16}

  lemma NextPlace(w: State, n: Name, p: Pass, c: Choice)
    requires Underway(w, n) && n in w.passes && w.passes[n] == p && !p.pc.Creates()
    requires MoveOf(w, n, p, c).next.Go?
    ensures var q := MoveOf(w, n, p, c).next.pass;
      q.pc.FailPut? || (p.pc.Start? && q.pc.CValidate? && q.px.spec.halted == false)
  {
    hide Wanted, Done, CopiesAhead, CreateMove, HaltMove, TerminateMove, GoalSecrets;
  }

  lemma NextCreateRank(w: State, n: Name, p: Pass, c: Choice)
    requires p.pc.Creates() && (p.pc.CRbac? ==> p.pc.k <= 2) && CreateMove(w, n, p, c.outcome, c.password).next.Go?
    ensures var q := CreateMove(w, n, p, c.outcome, c.password).next.pass;
      q.pc.FailGet? || (q.pc.Creates() && c.outcome == Ok && Rank(p.pc) < Rank(q.pc))
  {
  }

  lemma SkipsNoWrite(w: State, n: Name, p: Pass, c: Choice, r: nat)
    requires p.pc.Creates() && (p.pc.CRbac? ==> p.pc.k <= 2) && CreateMove(w, n, p, c.outcome, c.password).next.Go?
    requires var q := CreateMove(w, n, p, c.outcome, c.password).next.pass;
      q.pc.Creates() && r in WriteRanks && r < Rank(q.pc)
    ensures r <= Rank(p.pc)
  {
  }

  lemma WritesAtRank(w: State, n: Name, p: Pass, c: Choice)
    requires p.pc.Creates() && Rank(p.pc) in WriteRanks && CreateMove(w, n, p, c.outcome, c.password).next.Go?
    requires CreateMove(w, n, p, c.outcome, c.password).next.pass.pc.Creates()
    ensures var e := CreateMove(w, n, p, c.outcome, c.password).effect;
            e.SetObjects? || (e.Quiet? && p.pc.CGovern? && Key(Service, GoverningService(n)) in w.objs)
  {
  }

  lemma NextRank(w: State, n: Name, p: Pass, c: Choice)
    requires Underway(w, n) && n in w.passes && w.passes[n] == p
    requires MoveOf(w, n, p, c).next.Go?
    ensures var q := MoveOf(w, n, p, c).next.pass;
      && Resumable(q.pc) && !q.pc.Start?
      && (q.pc.Creates() ==>
            && (p.pc.Start? || p.pc.Creates()) && Rank(p.pc) < Rank(q.pc)
            && (forall r: nat :: r in WriteRanks && r < Rank(q.pc) ==> r <= Rank(p.pc))
            && (Rank(p.pc) in WriteRanks ==>
                  var e := MoveOf(w, n, p, c).effect;
                  e.SetObjects? || (e.Quiet? && p.pc.CGovern? && Key(Service, GoverningService(n)) in w.objs)))
  {
    if p.pc.Creates() {
      assert MoveOf(w, n, p, c) == CreateMove(w, n, p, c.outcome, c.password);
      hide MoveOf, CreateMove;
      NextCreateRank(w, n, p, c);
      var q := MoveOf(w, n, p, c).next.pass;
      if q.pc.Creates() {
        forall r: nat | r in WriteRanks && r < Rank(q.pc) ensures r <= Rank(p.pc) { SkipsNoWrite(w, n, p, c, r); }
        if Rank(p.pc) in WriteRanks { WritesAtRank(w, n, p, c); }
      }
    } else {
      NextPlace(w, n, p, c);
    }
  }

  lemma DoneAfterCall(w: State, n: Name, p: Pass, c: Choice)
    requires Underway(w, n) && n in w.passes && w.passes[n] == p
    requires MoveOf(w, n, p, c).next.Go? && MoveOf(w, n, p, c).next.pass.pc.Creates()
    ensures var w1 := Commit(w, n, MoveOf(w, n, p, c).effect);
            Current(w1, n).Some? && Done(w1, n, Current(w1, n).value, Rank(MoveOf(w, n, p, c).next.pass.pc))
  {
    var m := MoveOf(w, n, p, c);
    NextRank(w, n, p, c);
    MoveAdvances(w, n, p, c);
    var x, e, r := Current(w, n).value, m.effect, Rank(m.next.pass.pc);
    assert e.SetObjects? ==> WritesWanted(w, n, x, Rank(p.pc), e.objs);
    hide MoveOf, WritesWanted, Wanted, KeyRank, Placed, CopyOf, Done, Commit, GoalSecrets, CopiesAhead, Calm;
    if e.PutDatabase? { DoneAfterDatabase(w, n, p, e, Rank(p.pc), r, c.password); }
    else { DoneAfterOther(w, n, x, e, Rank(p.pc), r); }
  }

  lemma DoneAfterWrite(w: State, n: Name, x: Database, rank: nat, objs: map<Key, Offshoot>, r: nat)
    requires Done(w, n, x, rank) && WritesWanted(w, n, x, rank, objs)
    requires forall i: nat :: i in WriteRanks && i < r ==> i <= rank
    ensures Done(w.(objs := objs), n, x, r)
  {
    var w1 := w.(objs := objs);
    ObjectsStay(w, w1, n, x, rank, rank);
    hide Wanted, KeyRank, Done, WritesWanted;
    DoneSkips(w1, n, x, rank, r);
  }

  lemma DoneAfterPut(w: State, n: Name, p: Pass, e: Effect, rank: nat, r: nat, password: nat)
    requires Calm(w, n) && CopiesAhead(w, n, Current(w, n).value) && Done(w, n, Current(w, n).value, rank)
    requires e.PutDatabase? && Advances(w, n, p, Current(w, n).value, e, password)
    requires rank !in WriteRanks && forall i: nat :: i in WriteRanks && i < r ==> i <= rank
    ensures Done(Commit(w, n, e), n, e.database, r)
  {
    PutDatabaseKeeps(w, n, p, e, password);
    var x, w1 := Current(w, n).value, Commit(w, n, e);
    assert w1.objs == w.objs;
    hide Wanted, Advances, CopiesAhead, SameGoal, Calm, Done, Commit, KeyRank, GoalOf;
    DoneElsewhere(w, w1, n, x, e.database, rank);
    DoneSkips(w1, n, e.database, rank, r);
  }

  lemma DoneWithoutWrite(w: State, w1: State, n: Name, x: Database, rank: nat, r: nat)
    requires Done(w, n, x, rank) && w1.objs == w.objs
    requires forall i: nat :: i in WriteRanks && i < r ==> i <= rank
    requires rank in WriteRanks ==> rank == 3 && Key(Service, GoverningService(n)) in w.objs
    ensures Done(w1, n, x, r)
  {
    if rank in WriteRanks { GovernedAlready(w1, n, x); }
    DoneElsewhere(w, w1, n, x, x, rank);
    hide Wanted, Done, KeyRank;
    DoneSkips(w1, n, x, rank, r);
  }

  lemma DoneAfterDatabase(w: State, n: Name, p: Pass, e: Effect, rank: nat, r: nat, password: nat)
    requires Calm(w, n) && CopiesAhead(w, n, Current(w, n).value) && Done(w, n, Current(w, n).value, rank)
    requires e.PutDatabase? && Advances(w, n, p, Current(w, n).value, e, password)
    requires rank !in WriteRanks && forall i: nat :: i in WriteRanks && i < r ==> i <= rank
    ensures var w1 := Commit(w, n, e);
            Current(w1, n).Some? && Done(w1, n, Current(w1, n).value, r)
  {
    PutDatabaseKeeps(w, n, p, e, password);
    DoneAfterPut(w, n, p, e, rank, r, password);
    hide *;
  }

  lemma DoneAfterOther(w: State, n: Name, x: Database, e: Effect, rank: nat, r: nat)
    requires Current(w, n) == Some(x) && Done(w, n, x, rank) && !e.PutDatabase?
    requires if e.SetObjects? then WritesWanted(w, n, x, rank, e.objs)
             else rank in WriteRanks ==> rank == 3 && Key(Service, GoverningService(n)) in w.objs
    requires forall i: nat :: i in WriteRanks && i < r ==> i <= rank
    ensures var w1 := Commit(w, n, e);
            Current(w1, n) == Some(x) && Done(w1, n, x, r)
  {
    hide Done, Wanted, WritesWanted, GoverningService, IsGoverning, KeyRank;
    var w1 := Commit(w, n, e);
    CommitHistory(w, n, e, n);
    if e.SetObjects? { DoneAfterWrite(w, n, x, rank, e.objs, r); }
    else { DoneWithoutWrite(w, w1, n, x, rank, r); }
  }

  lemma GovernedAlready(w: State, n: Name, x: Database)
    requires Key(Service, GoverningService(n)) in w.objs
    ensures forall k :: k in Wanted(w, n, x) && KeyRank(n, k) == 3 ==> k in w.objs && IsGoverning(n, k)
  {
  }

  lemma DoneElsewhere(w: State, w1: State, n: Name, x: Database, y: Database, rank: nat)
    requires w1.objs == w.objs && Done(w, n, x, rank) && y.uid == x.uid
    requires x == y || Wanted(w1, n, y) == Wanted(w, n, x)
    ensures Done(w1, n, y, rank)
  {
    assert Foreign(w1, Key(Service, StatsService(n)), n) == Foreign(w, Key(Service, StatsService(n)), n);
    assert Wanted(w1, n, y) == Wanted(w, n, x);
    hide Wanted;
  }

  /** From the rank just handled to the next one at which something is written. */
  lemma DoneSkips(w: State, n: Name, x: Database, r: nat, r': nat)
    requires Done(w, n, x, r) && forall i: nat :: i in WriteRanks && i < r' ==> i <= r
    requires r in WriteRanks ==>
      forall k :: k in Wanted(w, n, x) && KeyRank(n, k) == r ==>
        k in w.objs && (IsGoverning(n, k) || w.objs[k] == Upserted(w, k, n, x.uid, Wanted(w, n, x)[k]))
    ensures Done(w, n, x, r')
  {
    RanksDiffer(w, n, x);
    hide Wanted, KeyRank;
  }

  /** After a call, the pass's copy is a copy of what is stored, and it is where it should be. */
  lemma StartPlaces(w: State, n: Name, c: Choice)
    requires Underway(w, n) && n in w.passes && w.passes[n].pc.Start?
    requires MoveOf(w, n, w.passes[n], c).next.Go? && MoveOf(w, n, w.passes[n], c).next.pass.pc.Creates()
    ensures var m := MoveOf(w, n, w.passes[n], c);
      var w1 := Commit(w, n, m.effect);
      && Current(w1, n).Some? && CopyOf(w1, n, m.next.pass.px, Current(w1, n).value)
      && Placed(w1, n, m.next.pass, Current(w1, n).value)
  {
    var p := w.passes[n];
    var m := MoveOf(w, n, p, c);
    var x := Current(w, n).value;
    assert CopyOf(w, n, p.px, x) && Calm(w, n) && CopiesAhead(w, n, x);
    hide MoveOf, Wanted, Done, GoalSecrets, GoalOf, Commit, Advanced, Advances, Calm, CopiesAhead, Underway, CopyOf, SameGoal;
    hide Placed, Rank;
    NextPlace(w, n, p, c);
    ValidatePlaced(Commit(w, n, m.effect), n, m.next.pass, if m.effect.PutDatabase? then m.effect.database else x);
    StartMoves(w, n, p, c);
    MoveAdvances(w, n, p, c);
    if m.effect.PutDatabase? {
      PutDatabaseKeeps(w, n, p, m.effect, c.password);
      SelfCopy(w, n, p, m.effect, c.password);
    } else {
      QuietCommits(w, n, m.effect);
    }
  }

  lemma ValidatePlaced(w: State, n: Name, p: Pass, x: Database)
    requires p.pc.CValidate?
    ensures Placed(w, n, p, x)
  {
  }

  lemma QuietCommits(w: State, n: Name, e: Effect)
    requires e.Quiet?
    ensures Commit(w, n, e) == w
  {
  }

  lemma StartMoves(w: State, n: Name, p: Pass, c: Choice)
    requires p.pc.Start? && MoveOf(w, n, p, c).next.Go?
    ensures var m := MoveOf(w, n, p, c);
            if m.effect.PutDatabase? then m.next.pass.px == m.effect.database else m.effect.Quiet? && m.next.pass.px == p.px
  {
  }

  lemma SelfCopy(w: State, n: Name, p: Pass, e: Effect, password: nat)
    requires Calm(w, n) && CopiesAhead(w, n, Current(w, n).value)
    requires e.PutDatabase? && Advances(w, n, p, Current(w, n).value, e, password)
    ensures CopyOf(Commit(w, n, e), n, e.database, e.database)
  {
    PutDatabaseKeeps(w, n, p, e, password);
    var w1 := Commit(w, n, e);
    assert History(w1, n)[|History(w1, n)| - 1] == Some(e.database);
    hide Advances, Calm, GoalOf, Commit;
  }

  lemma CreatePlaces(w: State, n: Name, c: Choice)
    requires Underway(w, n) && n in w.passes && w.passes[n].pc.Creates()
    requires MoveOf(w, n, w.passes[n], c).next.Go? && MoveOf(w, n, w.passes[n], c).next.pass.pc.Creates()
    ensures var m := MoveOf(w, n, w.passes[n], c);
      var w1 := Commit(w, n, m.effect);
      && Current(w1, n).Some? && CopyOf(w1, n, m.next.pass.px, Current(w1, n).value)
  {
    CallKeepsGoal(w, n, c);
    hide Wanted, Done, CopiesAhead, GoalOf, Placed;
    CopyGoesOn(w, n, w.passes[n], c);
  }

  /** The copy a pass goes on with: unchanged, with the stored status, or with the bound secret. */
  lemma CopyGoesOn(w: State, n: Name, p: Pass, c: Choice)
    requires p.pc.Creates() && Current(w, n).Some? && p.px.conditions == Current(w, n).value.conditions
    requires MoveOf(w, n, p, c).next.Go? && MoveOf(w, n, p, c).next.pass.pc.Creates()
    ensures var q := MoveOf(w, n, p, c).next.pass;
      && q.px.uid == p.px.uid && q.px.deleting == p.px.deleting && q.px.conditions == p.px.conditions
      && (if p.pc.CSecretSpec? then
            q.px.spec == p.px.spec.(secret := Some(AuthSecret(n))) && MoveOf(w, n, p, c).effect.PutDatabase? &&
            MoveOf(w, n, p, c).effect.database == Current(w, n).value.(spec := Current(w, n).value.spec.(secret := Some(AuthSecret(n))))
          else q.px.spec == p.px.spec)
  {
  }

  lemma PlaceFollows(w: State, n: Name, p: Pass, c: Choice)
    requires p.pc.Creates() && (p.pc.CRbac? ==> p.pc.k <= 2)
    requires CreateMove(w, n, p, c.outcome, c.password).next.Go?
    requires CreateMove(w, n, p, c.outcome, c.password).next.pass.pc.Creates()
    ensures var q := CreateMove(w, n, p, c.outcome, c.password).next.pass;
      && (q.pc.CRbac? ==> q.pc.k <= 2 && (p.pc.CGovern? || p.pc.CRbac?))
      && (InWindow(q.pc) ==> InWindow(p.pc) || (p.pc.CGovern? && q.pc.CRbac?))
      && (q.pc.CWorkload? ==> p.pc.CVersion? && q.pc.serviceName == w.governing)
      && (q.pc.CStats? ==> p.pc.CReady?)
  {
  }

  lemma SecretPlaceFollows(w: State, n: Name, p: Pass, c: Choice)
    requires p.pc.Creates() && (p.pc.CRbac? ==> p.pc.k <= 2)
    requires CreateMove(w, n, p, c.outcome, c.password).next.Go?
    requires CreateMove(w, n, p, c.outcome, c.password).next.pass.pc.Creates()
    ensures var m := CreateMove(w, n, p, c.outcome, c.password);
      var q := m.next.pass;
      && (q.pc.CSecretGet? ==> p.pc.CService? && p.px.spec.secret.None? && q.px == p.px)
      && (q.pc.CUpgrade? ==> p.pc.CService? && p.px.spec.secret.Some? && q.px == p.px)
      && (q.pc.CSecretCreate? ==> p.pc.CSecretGet? && q.px == p.px && m.effect.Quiet? && AuthSecret(n) !in w.secrets)
      && (q.pc.CSecretSpec? ==>
            && q.px == p.px
            && (|| (p.pc.CSecretGet? && m.effect.Quiet? && AuthSecret(n) in w.secrets)
                || (p.pc.CSecretCreate? && m.effect.PutSecret? && m.effect.secretName == AuthSecret(n))))
      && (11 <= Rank(q.pc) ==> p.pc.CSecretSpec? || p.pc.CUpgrade? || 11 <= Rank(p.pc))
      && (11 <= Rank(p.pc) ==> !m.effect.PutSecret?)
      && (p.pc.CUpgrade? ==> m.effect.PutSecret?)
      && (p.pc.CReady? ==> m.effect.PutDatabase? && m.effect.database.phase == Ready)
  {
  }

  lemma BoundSecrets(w: State, w1: State, n: Name, x: Database, px: Database)
    requires CopyOf(w, n, px, x) && px.spec.secret.None? && AuthSecret(n) in w.secrets && w1.secrets == w.secrets
    ensures w1.secrets == GoalSecrets(w1, n, x.(spec := x.spec.(secret := Some(AuthSecret(n)))), 0)
  {
  }

  lemma UpgradedSecrets(w: State, n: Name, x: Database, e: Effect, password: nat)
    requires x.spec.secret.Some? && x.spec.secret.value in w.secrets
    requires e.PutSecret? && w.secrets[e.secretName := e.secret] == GoalSecrets(w, n, x, password)
    ensures var w1 := Commit(w, n, e);
            w1.secrets == GoalSecrets(w1, n, x, 0)
  {
  }

  lemma SettledSecrets(w: State, w1: State, n: Name, x: Database, x1: Database)
    requires w.secrets == GoalSecrets(w, n, x, 0) && x.spec.secret.Some? && x.spec.secret.value in w.secrets
    requires w1.secrets == w.secrets && x1.spec.secret == x.spec.secret
    ensures w1.secrets == GoalSecrets(w1, n, x1, 0)
  {
  }

  lemma SettledAfterBinding(w: State, n: Name, p: Pass, e: Effect, x: Database)
    requires CopyOf(w, n, p.px, x) && Placed(w, n, p, x) && p.pc.CSecretSpec? && Current(w, n) == Some(x) && !x.deleting
    requires e == PutDatabase(x.(spec := x.spec.(secret := Some(AuthSecret(n)))))
    ensures var w1 := Commit(w, n, e);
            Current(w1, n) == Some(e.database) && w1.secrets == GoalSecrets(w1, n, e.database, 0)
  {
    assert History(Commit(w, n, e), n) == History(w, n) + [Some(e.database)];
    BoundSecrets(w, Commit(w, n, e), n, x, p.px);
  }

  /** The secret is as the goal has it once it has been bound or upgraded. */
  lemma SettledLater(w: State, n: Name, p: Pass, e: Effect, x: Database)
    requires CopyOf(w, n, p.px, x) && Placed(w, n, p, x) && 11 <= Rank(p.pc) && Current(w, n) == Some(x) && !x.deleting
    requires SecretReady(w, n, x)
    requires !e.PutSecret? && (e.PutDatabase? ==> !e.database.deleting && e.database.spec == x.spec)
    ensures var w1 := Commit(w, n, e);
            Current(w1, n).Some? && w1.secrets == GoalSecrets(w1, n, Current(w1, n).value, 0)
  {
    var w1 := Commit(w, n, e);
    if e.PutDatabase? { assert History(w1, n) == History(w, n) + [Some(e.database)]; }
    else { assert History(w1, n) == History(w, n); }
    SettledSecrets(w, w1, n, x, Current(w1, n).value);
  }

  lemma LaterSpec(w: State, n: Name, p: Pass, x: Database, e: Effect, password: nat)
    requires e.PutDatabase? && Advances(w, n, p, x, e, password) && !p.pc.CSecretSpec?
    ensures e.database.spec == x.spec && e.database.deleting == x.deleting
  {
  }

  lemma SecretsSettled(w: State, n: Name, c: Choice)
    requires Underway(w, n) && n in w.passes && w.passes[n].pc.Creates()
    requires MoveOf(w, n, w.passes[n], c).next.Go? && MoveOf(w, n, w.passes[n], c).next.pass.pc.Creates()
    requires 11 <= Rank(MoveOf(w, n, w.passes[n], c).next.pass.pc)
    ensures var m := MoveOf(w, n, w.passes[n], c);
      var w1 := Commit(w, n, m.effect);
      && Current(w1, n).Some? && w1.secrets == GoalSecrets(w1, n, Current(w1, n).value, 0)
      && m.next.pass.px.spec.secret.Some?
  {
    var p := w.passes[n];
    var m := MoveOf(w, n, p, c);
    var x := Current(w, n).value;
    assert m == CreateMove(w, n, p, c.outcome, c.password);
    MoveAdvances(w, n, p, c);
    SecretPlaceFollows(w, n, p, c);
    CopyGoesOn(w, n, p, c);
    assert CopyOf(w, n, p.px, x) && Placed(w, n, p, x);
    hide MoveOf, CreateMove, Wanted, Done, WritesWanted, CopiesAhead, GoalObjects, GoalSecrets;
    if p.pc.CSecretSpec? {
      SettledAfterBinding(w, n, p, m.effect, x);
    } else if p.pc.CUpgrade? {
      assert History(Commit(w, n, m.effect), n) == History(w, n);
      UpgradedSecrets(w, n, x, m.effect, c.password);
    } else {
      if m.effect.PutDatabase? { LaterSpec(w, n, p, x, m.effect, c.password); }
      SettledLater(w, n, p, m.effect, x);
    }
  }

  lemma PlacedInWindow(w: State, n: Name, p: Pass, c: Choice, x: Database)
    requires Placed(w, n, p, x) && p.pc.Creates()
    requires CreateMove(w, n, p, c.outcome, c.password).next.Go?
    requires CreateMove(w, n, p, c.outcome, c.password).next.pass.pc.Creates()
    ensures var m := CreateMove(w, n, p, c.outcome, c.password);
      var w' := Settle(Commit(w, n, m.effect), n, p, m.next);
      var q := m.next.pass;
      && (InWindow(q.pc) ==> w'.governing == GoverningService(n))
      && (q.pc.CRbac? ==> q.pc.k <= 2)
      && (q.pc.CWorkload? ==> q.pc.serviceName == GoverningService(n))
  {
    hide CreateMove, Commit, GoalSecrets, GoverningService;
    var m := CreateMove(w, n, p, c.outcome, c.password);
    PlaceFollows(w, n, p, c);
    CommitPasses(w, n, m.effect);
  }

  lemma PlacedAtSecret(w: State, n: Name, p: Pass, c: Choice, x: Database)
    requires Placed(w, n, p, x) && p.pc.Creates()
    requires CreateMove(w, n, p, c.outcome, c.password).next.Go?
    requires CreateMove(w, n, p, c.outcome, c.password).next.pass.pc.Creates()
    ensures var m := CreateMove(w, n, p, c.outcome, c.password);
      var w1 := Commit(w, n, m.effect);
      var q := m.next.pass;
      && (q.pc.CSecretGet? || q.pc.CSecretCreate? || q.pc.CSecretSpec? ==> q.px.spec.secret.None?)
      && (q.pc.CSecretCreate? ==> AuthSecret(n) !in w1.secrets)
      && (q.pc.CSecretSpec? ==> AuthSecret(n) in w1.secrets)
      && (q.pc.CUpgrade? ==> q.px.spec.secret.Some?)
  {
    SecretPlaceFollows(w, n, p, c);
    hide CreateMove, GoalSecrets;
  }

  lemma PlacedAtStats(w: State, n: Name, p: Pass, c: Choice)
    requires Underway(w, n) && n in w.passes && w.passes[n] == p && p.pc.CReady?
    requires CreateMove(w, n, p, c.outcome, c.password).next.Go?
    requires CreateMove(w, n, p, c.outcome, c.password).next.pass.pc.CStats?
    ensures var w1 := Commit(w, n, CreateMove(w, n, p, c.outcome, c.password).effect);
            Current(w1, n).Some? && Current(w1, n).value.phase == Ready
  {
    var e := CreateMove(w, n, p, c.outcome, c.password).effect;
    assert e == PutDatabase(Current(w, n).value.(phase := Ready));
    hide CreateMove;
    StoredNow(w, n, e);
  }

  lemma CreatePlaced(w: State, n: Name, c: Choice)
    requires Underway(w, n) && n in w.passes && w.passes[n].pc.Creates()
    requires MoveOf(w, n, w.passes[n], c).next.Go? && MoveOf(w, n, w.passes[n], c).next.pass.pc.Creates()
    ensures var m := MoveOf(w, n, w.passes[n], c);
      var w1 := Commit(w, n, m.effect);
      Current(w1, n).Some? && Placed(Settle(w1, n, w.passes[n], m.next), n, m.next.pass, Current(w1, n).value)
  {
    var p := w.passes[n];
    var m := MoveOf(w, n, p, c);
    var x := Current(w, n).value;
    var w1 := Commit(w, n, m.effect);
    assert m == CreateMove(w, n, p, c.outcome, c.password);
    assert Placed(w, n, p, x);
    PlacedInWindow(w, n, p, c, x);
    PlacedAtSecret(w, n, p, c, x);
    PlaceFollows(w, n, p, c);
    if 11 <= Rank(m.next.pass.pc) { SecretsSettled(w, n, c); }
    if m.next.pass.pc.CStats? { PlacedAtStats(w, n, p, c); }
    CallKeepsGoal(w, n, c);
    SettleStores(w1, n, p, m.next);
    PlacedCombines(w1, Settle(w1, n, p, m.next), n, m.next.pass, Current(w1, n).value);
  }

  lemma PlacedCombines(w1: State, w': State, n: Name, q: Pass, x: Database)
    requires w'.secrets == w1.secrets && w'.nextId == w1.nextId
    requires InWindow(q.pc) ==> w'.governing == GoverningService(n)
    requires q.pc.CRbac? ==> q.pc.k <= 2
    requires q.pc.CWorkload? ==> q.pc.serviceName == GoverningService(n)
    requires q.pc.CSecretGet? || q.pc.CSecretCreate? || q.pc.CSecretSpec? ==> q.px.spec.secret.None?
    requires q.pc.CSecretCreate? ==> AuthSecret(n) !in w1.secrets
    requires q.pc.CSecretSpec? ==> AuthSecret(n) in w1.secrets
    requires q.pc.CUpgrade? || 11 <= Rank(q.pc) ==> q.px.spec.secret.Some?
    requires 11 <= Rank(q.pc) ==> w1.secrets == GoalSecrets(w1, n, x, 0)
    requires q.pc.CStats? ==> x.phase == Ready
    ensures Placed(w', n, q, x)
  {
  }

  lemma StoredNow(w: State, n: Name, e: Effect)
    requires e.PutDatabase?
    ensures Current(Commit(w, n, e), n) == Stored(e.database)
  {
    assert History(Commit(w, n, e), n) == History(w, n) + [Stored(e.database)];
  }

  lemma NextAdvanced(w: State, n: Name, c: Choice)
    requires Underway(w, n) && n in w.passes
    requires MoveOf(w, n, w.passes[n], c).next.Go? && MoveOf(w, n, w.passes[n], c).next.pass.pc.Creates()
    ensures var m := MoveOf(w, n, w.passes[n], c);
      var w1 := Commit(w, n, m.effect);
      && Current(w1, n).Some?
      && CopyOf(w1, n, m.next.pass.px, Current(w1, n).value) && Done(w1, n, Current(w1, n).value, Rank(m.next.pass.pc))
      && Placed(Settle(w1, n, w.passes[n], m.next), n, m.next.pass, Current(w1, n).value)
  {
    var p := w.passes[n];
    DoneAfterCall(w, n, p, c);
    if p.pc.Start? {
      StartPlaces(w, n, c);
      NextPlace(w, n, p, c);
    } else {
      NextRank(w, n, p, c);
      hide MoveOf, Commit, Settle, Calm, Done, CopyOf, Placed, CopiesAhead, Rank, Advanced, Wanted;
      CreatePlaces(w, n, c);
      CreatePlaced(w, n, c);
    }
  }

  lemma SameGoalGives(w: State, w1: State, n: Name, password: nat)
    requires SameGoal(w, w1, n, password)
    ensures Current(w, n).Some? && Calm(w1, n) && CopiesAhead(w1, n, Current(w1, n).value)
    ensures GoalOf(w1, n, password) == GoalOf(w, n, password)
  {
  }

  lemma NextResumes(w: State, n: Name, c: Choice)
    requires Underway(w, n) && n in w.passes && MoveOf(w, n, w.passes[n], c).next.Go?
    ensures Resumable(MoveOf(w, n, w.passes[n], c).next.pass.pc) && !MoveOf(w, n, w.passes[n], c).next.pass.pc.Start?
  {
    hide MoveOf, Underway;
    NextRank(w, n, w.passes[n], c);
  }

  /** Whatever becomes of a call, the pass stays on its way to the goal, or ends. */
  lemma CallKeepsUnderway(w: State, n: Name, c: Choice)
    requires Underway(w, n) && n in w.passes
    ensures Underway(Step(w, Do(n, c)), n) && GoalOf(Step(w, Do(n, c)), n, c.password) == GoalOf(w, n, c.password)
  {
    hide *;
    var p := w.passes[n];
    var m := MoveOf(w, n, p, c);
    var w1 := Commit(w, n, m.effect);
    CallKeepsGoal(w, n, c);
    SameGoalGives(w, w1, n, c.password);
    if m.next.Go? {
      NextResumes(w, n, c);
      if m.next.pass.pc.Creates() { NextAdvanced(w, n, c); }
    }
    SettleKeepsUnderway(w1, n, p, m.next, c.password);
    DoIs(w, n, c);
  }

  lemma SettleKeepsUnderway(w: State, n: Name, p: Pass, next: Next, password: nat)
    requires Calm(w, n) && CopiesAhead(w, n, Current(w, n).value)
    requires next.Go? ==> Resumable(next.pass.pc) && !next.pass.pc.Start?
    requires next.Go? && next.pass.pc.Creates() ==>
      && CopyOf(w, n, next.pass.px, Current(w, n).value) && Done(w, n, Current(w, n).value, Rank(next.pass.pc))
      && Placed(Settle(w, n, p, next), n, next.pass, Current(w, n).value)
    ensures Underway(Settle(w, n, p, next), n) && GoalOf(Settle(w, n, p, next), n, password) == GoalOf(w, n, password)
  {
    var w' := Settle(w, n, p, next);
    var x := Current(w, n).value;
    SettleStores(w, n, p, next);
    assert History(w', n) == History(w, n);
    if next.Go? {
      SettlePasses(w, n, p, next, n);
      DoneSame(w, w', n, x, Rank(next.pass.pc));
    }
    SameGoalElsewhere(w, w', n, x, password);
    hide Wanted, Done, GoalObjects, GoalSecrets, Placed;
  }

  lemma DoneSame(w: State, w1: State, n: Name, x: Database, rank: nat)
    requires w1.objs == w.objs
    ensures Done(w1, n, x, rank) == Done(w, n, x, rank)
  {
    assert Wanted(w1, n, x) == Wanted(w, n, x);
  }

  lemma SameGoalElsewhere(w: State, w1: State, n: Name, x: Database, password: nat)
    requires w1.objs == w.objs && w1.secrets == w.secrets && w1.nextId == w.nextId
    ensures GoalObjects(w1, n, x) == GoalObjects(w, n, x)
    ensures GoalSecrets(w1, n, x, password) == GoalSecrets(w, n, x, password)
    ensures SecretReady(w1, n, x) == SecretReady(w, n, x)
    ensures forall px :: CopyOf(w1, n, px, x) == CopyOf(w, n, px, x)
  {
    assert Wanted(w1, n, x) == Wanted(w, n, x);
  }

  /** Events that leave everything to the passes of one database. */
  predicate Own(e: Event, n: Name) { e == Sync(n) || e == Take(n) || e == Crash || (e.Do? && e.n == n) }

  lemma StoresUntouched(w: State, e: Event, n: Name)
    requires e == Sync(n) || e == Take(n) || e == Crash
    ensures var w' := Step(w, e);
            w'.hist == w.hist && w'.objs == w.objs && w'.secrets == w.secrets && w'.nextId == w.nextId
  {
  }

  /**
   Every own event keeps the goal, up to the password: whichever password a later pass draws, what it
   will leave is what a pass from here would have left, with some password.
   */
  lemma OwnKeepsUnderway(w: State, e: Event, n: Name, password: nat) returns (drawn: nat)
    requires Underway(w, n) && Own(e, n)
    ensures Underway(Step(w, e), n) && GoalOf(Step(w, e), n, password) == GoalOf(w, n, drawn)
  {
    hide Step, Underway, GoalOf;
    drawn := password;
    if !e.Do? {
      RestKeepsUnderway(w, e, n, password);
    } else if n in w.passes {
      drawn := CallKeepsSomeGoal(w, n, e.choice, password);
    } else {
      NothingToDo(w, e);
    }
  }

  lemma RestKeepsUnderway(w: State, e: Event, n: Name, password: nat)
    requires Underway(w, n) && Own(e, n) && !e.Do?
    ensures Underway(Step(w, e), n) && GoalOf(Step(w, e), n, password) == GoalOf(w, n, password)
  {
    var w' := Step(w, e);
    StoresUntouched(w, e, n);
    OtherEvents(w, e, n);
    hide Step, CopiesAhead, Advanced, GoalSecrets, GoalObjects, SecretReady, Wanted, CopyOf;
    OtherKeepUnderway(w, w', n);
    assert History(w', n) == History(w, n);
    SameGoalElsewhere(w, w', n, Current(w, n).value, password);
  }

  /** Only the creation of the secret depends on the password drawn. */
  lemma DrawnOnlyOnce(w: State, n: Name, p: Pass, c: Choice, password: nat)
    requires !(p.pc.CSecretCreate? && c.outcome.Applied() && AuthSecret(n) !in w.secrets)
    ensures MoveOf(w, n, p, c.(password := password)) == MoveOf(w, n, p, c)
  {
  }

  lemma CallKeepsSomeGoal(w: State, n: Name, c: Choice, password: nat) returns (drawn: nat)
    requires Underway(w, n) && n in w.passes
    ensures Underway(Step(w, Do(n, c)), n) && GoalOf(Step(w, Do(n, c)), n, password) == GoalOf(w, n, drawn)
  {
    hide Step, MoveOf, Underway, GoalOf, AuthSecret;
    var p := w.passes[n];
    if p.pc.CSecretCreate? && c.outcome.Applied() && AuthSecret(n) !in w.secrets {
      drawn := c.password;
      CallKeepsUnderway(w, n, c);
      CreatesSecret(w, n, c);
      UnderwayCurrent(Step(w, Do(n, c)), n);
      BornGoal(Step(w, Do(n, c)), n, password, drawn);
    } else {
      drawn := password;
      var c' := c.(password := password);
      DrawnOnlyOnce(w, n, p, c, password);
      CallKeepsUnderway(w, n, c');
      DoIs(w, n, c);
      DoIs(w, n, c');
    }
  }

  lemma CreatesSecret(w: State, n: Name, c: Choice)
    requires n in w.passes && w.passes[n].pc.CSecretCreate? && c.outcome.Applied() && AuthSecret(n) !in w.secrets
    ensures AuthSecret(n) in Step(w, Do(n, c)).secrets
  {
    assert MoveOf(w, n, w.passes[n], c).effect == PutSecret(AuthSecret(n), FreshSecret(w, n, c.password));
    hide Step, MoveOf;
    StepMoves(w, n, c);
  }

  /** Once the secret is there, no password will be drawn. */
  lemma BornGoal(w: State, n: Name, p: nat, q: nat)
    requires Current(w, n).Some? && AuthSecret(n) in w.secrets
    ensures GoalOf(w, n, p) == GoalOf(w, n, q)
  {
    hide GoalObjects;
  }

  lemma CopiesStay(w: State, w': State, n: Name, x: Database)
    requires CopiesAhead(w, n, x) && Seen(w, n) <= Seen(w', n) <= |History(w, n)|
    requires History(w', n) == History(w, n) && w'.secrets == w.secrets
    ensures CopiesAhead(w', n, x)
  {
    forall i | Seen(w', n) <= i + 1 && 0 <= i < |History(w', n)|
      ensures History(w', n)[i].Some? && CopyOf(w', n, History(w', n)[i].value, x)
    {
      assert CopyOf(w, n, History(w, n)[i].value, x);
    }
  }

  lemma CalmStays(w: State, w': State, n: Name)
    requires Calm(w, n) && History(w', n) == History(w, n) && w'.objs == w.objs && w'.secrets == w.secrets
    ensures Calm(w', n) && Current(w', n) == Current(w, n)
  {
  }

  lemma CachedCopy(w: State, n: Name, x: Database)
    requires CopiesAhead(w, n, x)
    ensures Cached(w, n).Some? && CopyOf(w, n, Cached(w, n).value, x)
  {
    assert History(w, n)[Seen(w, n) - 1] == Cached(w, n);
  }

  lemma SamePassStays(w: State, w': State, n: Name, p: Pass, x: Database)
    requires Advanced(w, n, p, x)
    requires w'.objs == w.objs && w'.secrets == w.secrets && w'.nextId == w.nextId && w'.governing == w.governing
    ensures Advanced(w', n, p, x)
  {
    SameGoalElsewhere(w, w', n, x, 0);
    DoneSame(w, w', n, x, Rank(p.pc));
    hide Wanted, GoalObjects, Done;
  }

  lemma StartedAdvanced(w: State, n: Name, p: Pass, x: Database)
    requires p.pc.Start? && CopyOf(w, n, p.px, x)
    ensures Advanced(w, n, p, x)
  {
  }

  lemma OtherKeepUnderway(w: State, w': State, n: Name)
    requires Underway(w, n) && Seen(w, n) <= Seen(w', n) <= |History(w, n)|
    requires w'.hist == w.hist && w'.objs == w.objs && w'.secrets == w.secrets && w'.nextId == w.nextId
    requires n in w'.passes ==>
      || (n in w.passes && w'.passes[n] == w.passes[n] && w'.governing == w.governing)
      || (w'.passes[n].pc.Start? && Cached(w, n) == Some(w'.passes[n].px))
    ensures Underway(w', n)
  {
    assert History(w', n) == History(w, n);
    hide Calm, CopiesAhead, Advanced, CopyOf, Current, Cached, Seen, History;
    CalmStays(w, w', n);
    UnderwayCurrent(w, n);
    var x := Current(w, n).value;
    CopiesStay(w, w', n, x);
    if n in w'.passes {
      if n in w.passes && w'.passes[n] == w.passes[n] && w'.governing == w.governing {
        SamePassStays(w, w', n, w.passes[n], x);
      } else {
        CachedCopy(w, n, x);
        SameGoalElsewhere(w, w', n, x, 0);
        StartedAdvanced(w', n, w'.passes[n], x);
      }
    }
  }

  lemma OtherEvents(w: State, e: Event, n: Name)
    requires Underway(w, n) && (e == Sync(n) || e == Take(n) || e == Crash)
    ensures var w' := Step(w, e);
      && Seen(w, n) <= Seen(w', n) <= |History(w, n)|
      && (e != Crash ==> w'.governing == w.governing)
      && (n in w'.passes ==>
            && e != Crash
            && (|| (n in w.passes && w'.passes[n] == w.passes[n])
                || (w'.passes[n].pc.Start? && Cached(w, n) == Some(w'.passes[n].px))))
  {
  }

  /* ---- a call that succeeds goes on ---- */

  function Succeeds(password: nat): Choice { Choice(Ok, "", password, false, {}) }

  predicate OnItsWay(w: State, n: Name) {
    n in w.passes && (w.passes[n].pc.Start? || w.passes[n].pc.Creates())
  }

  lemma StartGoesOn(w: State, n: Name, password: nat)
    requires Underway(w, n) && n in w.passes && w.passes[n].pc.Start?
    ensures var m := MoveOf(w, n, w.passes[n], Succeeds(password));
            m.next.Go? && m.next.pass.pc.CValidate?
  {
    hide Wanted, Done, CopiesAhead, CreateMove, HaltMove, TerminateMove, GoalSecrets;
  }

  lemma CreateGoesOn(w: State, n: Name, p: Pass, x: Database, password: nat)
    requires Calm(w, n) && Current(w, n) == Some(x) && p.pc.Creates() && !p.pc.CStats?
    requires CopyOf(w, n, p.px, x) && Placed(w, n, p, x)
    ensures var m := CreateMove(w, n, p, Ok, password);
            m.next.Go? && m.next.pass.pc.Creates()
  {
    hide GoalSecrets;
  }

  lemma GoesOn(w: State, n: Name, password: nat)
    requires Underway(w, n) && OnItsWay(w, n) && !w.passes[n].pc.CStats?
    ensures var w' := Step(w, Do(n, Succeeds(password)));
            OnItsWay(w', n) && Rank(w.passes[n].pc) < Rank(w'.passes[n].pc)
  {
    var p := w.passes[n];
    var m := MoveOf(w, n, p, Succeeds(password));
    if p.pc.Start? { StartGoesOn(w, n, password); }
    else {
      CreateGoesOn(w, n, p, Current(w, n).value, password);
      assert m == CreateMove(w, n, p, Ok, password);
    }
    NextRank(w, n, p, Succeeds(password));
    hide MoveOf, CreateMove, Commit, Rank;
  }

  lemma LastMove(w: State, n: Name, p: Pass, password: nat)
    requires p.pc.CStats?
    ensures var m := CreateMove(w, n, p, Ok, password);
      && !m.next.Go? && (m.effect.Quiet? || m.effect.SetObjects?)
      && (p.px.spec.Watched() && !Foreign(w, Key(Service, StatsService(n)), n) ==> m.effect.SetObjects?)
  {
  }

  lemma AllDoneIsGoal(w: State, n: Name, x: Database)
    requires Done(w, n, x, 17)
    ensures w.objs == GoalObjects(w, n, x)
  {
    RanksDiffer(w, n, x);
    hide Wanted, KeyRank;
  }

  lemma LastCall(w: State, n: Name, p: Pass, x: Database, e: Effect)
    requires Current(w, n) == Some(x) && Done(w, n, x, 16)
    requires e.Quiet? || (e.SetObjects? && WritesWanted(w, n, x, 16, e.objs))
    requires e.Quiet? ==> Key(Service, StatsService(n)) !in Wanted(w, n, x)
    ensures var w1 := Commit(w, n, e);
            w1.objs == GoalObjects(w1, n, x)
  {
    var w1 := Commit(w, n, e);
    if e.SetObjects? {
      DoneAfterWrite(w, n, x, 16, e.objs, 17);
    } else {
      RanksDiffer(w, n, x);
      OnlyStatsLast(w, n, x);
    }
    AllDoneIsGoal(w1, n, x);
  }

  lemma OnlyStatsLast(w: State, n: Name, x: Database)
    ensures forall k :: k in Wanted(w, n, x) && KeyRank(n, k) >= 16 ==> k == Key(Service, StatsService(n))
  {
    assert |GoverningService(n)| == |n| + 4 && |StatsService(n)| == |n| + 6;
  }

  lemma AtStats(w: State, n: Name, p: Pass, x: Database)
    requires Underway(w, n) && n in w.passes && w.passes[n] == p && p.pc.CStats? && Current(w, n) == Some(x)
    ensures x.phase == Ready && x.spec.secret.Some? && w.secrets == GoalSecrets(w, n, x, 0)
    ensures p.px.spec.Watched() == x.spec.Watched() && Done(w, n, x, 16)
  {
    hide Wanted, Done, GoalSecrets, Calm, CopiesAhead;
  }

  lemma FinishObjects(w: State, n: Name, p: Pass, x: Database, password: nat)
    requires Current(w, n) == Some(x) && p.pc.CStats? && Done(w, n, x, 16) && p.px.spec.Watched() == x.spec.Watched()
    requires var e := MoveOf(w, n, p, Succeeds(password)).effect;
             e.SetObjects? ==> WritesWanted(w, n, x, 16, e.objs)
    ensures var m := MoveOf(w, n, p, Succeeds(password));
      && !m.next.Go? && (m.effect.Quiet? || m.effect.SetObjects?)
      && Commit(w, n, m.effect).objs == GoalObjects(Commit(w, n, m.effect), n, x)
  {
    var m := MoveOf(w, n, p, Succeeds(password));
    assert m == CreateMove(w, n, p, Ok, password);
    LastMove(w, n, p, password);
    WantedKeys(w, n, x);
    hide MoveOf, CreateMove, Wanted, WritesWanted, Done, GoalObjects, Commit;
    LastCall(w, n, p, x, m.effect);
  }

  lemma FinishMeets(w: State, w': State, n: Name, x: Database, password: nat)
    requires w'.hist == w.hist && w'.secrets == w.secrets && w'.nextId == w.nextId
    requires Current(w, n) == Some(x) && x.phase == Ready && x.spec.secret.Some?
    requires w.secrets == GoalSecrets(w, n, x, 0) && w'.objs == GoalObjects(w', n, x)
    requires GoalObjects(w', n, x) == GoalObjects(w, n, x)
    ensures Reached(w', n, GoalOf(w, n, password))
  {
    assert Current(w', n) == Current(w, n);
    hide GoalObjects, Wanted;
  }

  lemma StatsSettles(w: State, n: Name, p: Pass, m: Move, c: Choice)
    requires n in w.passes && w.passes[n] == p && m == MoveOf(w, n, p, c)
    requires !m.next.Go? && (m.effect.Quiet? || m.effect.SetObjects?)
    ensures var w' := Step(w, Do(n, c));
      && w'.hist == w.hist && w'.secrets == w.secrets && w'.nextId == w.nextId && n !in w'.passes
      && w'.objs == Commit(w, n, m.effect).objs
  {
    hide MoveOf, Step;
    StepMoves(w, n, c);
  }

  lemma StatsKeepsGoal(w: State, w1: State, n: Name, x: Database, e: Effect)
    requires w1 == Commit(w, n, e) && (e.Quiet? || (e.SetObjects? && WritesWanted(w, n, x, 16, e.objs)))
    ensures GoalObjects(w1, n, x) == GoalObjects(w, n, x)
  {
    if e.SetObjects? { ObjectsKeepGoal(w, w1, n, x, 16); }
  }

  /** A pass whose last call succeeds leaves the goal behind. */
  lemma FinishReaches(w: State, n: Name, password: nat)
    requires Underway(w, n) && n in w.passes && w.passes[n].pc.CStats?
    ensures var w' := Step(w, Do(n, Succeeds(password)));
            n !in w'.passes && Reached(w', n, GoalOf(w, n, password))
  {
    UnderwayCurrent(w, n);
    var p, x, c := w.passes[n], Current(w, n).value, Succeeds(password);
    var m := MoveOf(w, n, p, c);
    hide MoveOf, CreateMove, Done, GoalObjects, GoalSecrets, Wanted, WritesWanted, Underway, Commit, Step, Reached, GoalOf, Current;
    StatsWrites(w, n, p, x, password);
    AtStats(w, n, p, x);
    FinishObjects(w, n, p, x, password);
    StatsSettles(w, n, p, m, c);
    StatsKeepsGoal(w, Commit(w, n, m.effect), n, x, m.effect);
    var w' := Step(w, Do(n, c));
    SameGoalElsewhere(Commit(w, n, m.effect), w', n, x, password) by { StatsStores(w, n, m.effect); }
    FinishMeets(w, w', n, x, password);
  }

  lemma UnderwayCurrent(w: State, n: Name)
    requires Underway(w, n)
    ensures Current(w, n).Some?
  {
  }

  lemma StatsWrites(w: State, n: Name, p: Pass, x: Database, password: nat)
    requires Underway(w, n) && n in w.passes && w.passes[n] == p && p.pc.CStats? && Current(w, n) == Some(x)
    ensures var e := MoveOf(w, n, p, Succeeds(password)).effect;
            e.SetObjects? ==> WritesWanted(w, n, x, 16, e.objs)
  {
    hide MoveOf, Underway, WritesWanted, GoalSecrets;
    MoveAdvances(w, n, p, Succeeds(password));
  }

  lemma StatsStores(w: State, n: Name, e: Effect)
    requires e.Quiet? || e.SetObjects?
    ensures Commit(w, n, e).secrets == w.secrets && Commit(w, n, e).nextId == w.nextId
  {
  }

  /* ---- the theorems ---- */

  /** The pass of `n` run without interruption or failure, for at most `k` calls. */
  function Uninterrupted(w: State, n: Name, password: nat, k: nat): State
    decreases k
  {
    if k == 0 || n !in w.passes then w
    else Uninterrupted(Step(w, Do(n, Succeeds(password))), n, password, k - 1)
  }

  /** No pass has more calls than this. */
  const MaxCalls: nat := 17

  lemma UninterruptedGoes(w: State, n: Name, password: nat, k: nat)
    requires n in w.passes && k > 0
    ensures var w1 := Step(w, Do(n, Succeeds(password)));
      && Uninterrupted(w, n, password, k) == Uninterrupted(w1, n, password, k - 1)
      && (n !in w1.passes ==> Uninterrupted(w, n, password, k) == w1)
  {
    hide Step;
  }

  lemma {:induction false} Completes(w: State, n: Name, password: nat, k: nat)
    requires Underway(w, n) && OnItsWay(w, n) && Rank(w.passes[n].pc) + k >= MaxCalls
    ensures var w' := Uninterrupted(w, n, password, k);
            n !in w'.passes && Reached(w', n, GoalOf(w, n, password))
    decreases k
  {
    hide Step, Underway, GoalOf, Reached, Rank, Uninterrupted;
    var w1 := Step(w, Do(n, Succeeds(password)));
    RankBound(w.passes[n].pc);
    UninterruptedGoes(w, n, password, k);
    if w.passes[n].pc.CStats? {
      FinishReaches(w, n, password);
    } else {
      GoesOn(w, n, password);
      CallKeepsUnderway(w, n, Succeeds(password));
      RankBound(w1.passes[n].pc);
      Completes(w1, n, password, k - 1);
    }
  }

  lemma RankBound(pc: PC)
    ensures pc.Start? || pc.Creates() ==> Rank(pc) <= 16
  {
  }

  ghost predicate AllOwn(es: seq<Event>, n: Name) { forall i :: 0 <= i < |es| ==> Own(es[i], n) }

  lemma {:induction false} AfterKeepsUnderway(w: State, es: seq<Event>, n: Name, password: nat) returns (drawn: nat)
    requires Underway(w, n) && AllOwn(es, n)
    ensures Underway(After(w, es), n) && GoalOf(After(w, es), n, password) == GoalOf(w, n, drawn)
    decreases |es|
  {
    hide Step, Underway, GoalOf, Own;
    if es == [] {
      drawn := password;
    } else {
      assert Own(es[0], n);
      var keep := OwnKeepsUnderway(w, es[0], n, password);
      assert forall i :: 0 <= i < |es[1..]| ==> es[1..][i] == es[i + 1];
      var next := AfterKeepsUnderway(Step(w, es[0]), es[1..], n, password);
      drawn := OwnKeepsUnderway(w, es[0], n, next);
    }
  }

  lemma TakeStarts(w: State, n: Name)
    requires Underway(w, n) && n !in w.passes
    ensures OnItsWay(Begin(w, n), n) && Rank(Begin(w, n).passes[n].pc) == 0
  {
    assert History(w, n)[Seen(w, n) - 1] == Cached(w, n);
  }

  /** What one pass that is taken up and run without interruption leaves. */
  function OnePass(w: State, n: Name, password: nat): State {
    Uninterrupted(Step(w, Take(n)), n, password, MaxCalls)
  }

  /** One pass from a state without one reaches the goal. */
  lemma OnePassReaches(w: State, n: Name, password: nat)
    requires Underway(w, n) && n !in w.passes
    ensures var w' := OnePass(w, n, password);
            n !in w'.passes && Reached(w', n, GoalOf(w, n, password))
  {
    TakeStarts(w, n);
    RestKeepsUnderway(w, Take(n), n, password);
    assert Step(w, Take(n)) == Begin(w, n);
    hide Step, Underway, GoalOf, Reached, Begin, Uninterrupted, Rank;
    Completes(Step(w, Take(n)), n, password, MaxCalls);
  }

  /** The same offshoots and spec, and Ready. */
  predicate SameOutcome(direct: State, retried: State, n: Name) {
    && direct.objs == retried.objs
    && Current(direct, n).Some? && Current(retried, n).Some?
    && Current(direct, n).value.spec == Current(retried, n).value.spec
    && Current(direct, n).value.phase == Ready == Current(retried, n).value.phase
  }

  /**
   Restartability. From a state in which a create pass can succeed, let passes of the database run
   and be cut off any number of times, by failed calls, lost replies and crashes, each attempt
   drawing its own passwords, with the informer moving on in between. Then one more uninterrupted
   pass ends with the same offshoots and spec as an uninterrupted pass from the start would have, in
   phase Ready, and with the same secrets as such a pass with some password.
   */
  lemma Restartable(w: State, es: seq<Event>, n: Name, password: nat)
    requires Underway(w, n) && n !in w.passes
    requires AllOwn(es, n) && n !in After(w, es).passes
    ensures var retried := OnePass(After(w, es), n, password);
      && (forall p: nat :: SameOutcome(OnePass(w, n, p), retried, n))
      && (exists p: nat :: OnePass(w, n, p).secrets == retried.secrets)
  {
    hide Step, Underway, GoalOf, OnePass, Own;
    UnderwayCurrent(w, n);
    var drawn := AfterKeepsUnderway(w, es, n, password);
    var retried := OnePass(After(w, es), n, password);
    OnePassReaches(After(w, es), n, password);
    forall p: nat ensures SameOutcome(OnePass(w, n, p), retried, n) {
      OnePassReaches(w, n, p);
      OnlySecretsDrawn(w, n, p, drawn);
    }
    OnePassReaches(w, n, drawn);
    assert OnePass(w, n, drawn).secrets == retried.secrets;
  }

  /** Only the secrets of the goal depend on the password. */
  lemma OnlySecretsDrawn(w: State, n: Name, p: nat, q: nat)
    requires Current(w, n).Some?
    ensures GoalOf(w, n, p) == GoalOf(w, n, q).(secrets := GoalOf(w, n, p).secrets)
  {
    hide GoalObjects, GoalSecrets;
  }

  /** When the informer has seen everything, a calm database is all that is asked for. */
  lemma CurrentInformerSuffices(w: State, n: Name)
    requires Calm(w, n) && Seen(w, n) == |History(w, n)| && n !in w.passes
    ensures Underway(w, n)
  {
  }
}
