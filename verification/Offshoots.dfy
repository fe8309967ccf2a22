/**
 The objects a create pass writes, spelled out: at which call, with which owners, label and payload,
 what an uninterrupted pass leaves, and when garbage collection takes it.
 */
module Offshoots {
  import opened Options
  import opened Cluster
  import opened Passes
  import opened Finalizers
  import opened Credentials
  import opened Restart
  import Ownership

  /* ---- one call ---- */

  /** The object that a call of a create pass is about. */
  function WrittenAt(n: Name, pc: PC): Option<Key> {
    match pc
    case CGovern => Some(Key(Service, n + "-gvr"))
    case CRbac(k) => Some(Key(if k == 0 then ServiceAccount else if k == 1 then Role else RoleBinding, n))
    case CService => Some(Key(Service, n))
    case CWorkload(_) => Some(Key(StatefulSet, n))
    case CBinding => Some(Key(AppBinding, n))
    case CStats => Some(Key(Service, n + "-stats"))
    case _ => None
  }

  /**
   The call writes it: the governing service only if it is not there, services and the StatefulSet
   unless the name is another's, and the stats service only for monitoring.
   */
  predicate Writes(w: State, n: Name, p: Pass, k: Key) {
    && WrittenAt(n, p.pc) == Some(k)
    && (p.pc.CGovern? ==> k !in w.objs)
    && (p.pc.CService? || p.pc.CWorkload? || p.pc.CStats? ==> (k in w.objs ==> w.objs[k].labelled == Some(n)))
    && (p.pc.CStats? ==> p.px.spec.monitoring != Unmonitored)
  }

  /** Labelled with the name, owned by the uid beside whoever owned it, and held or dying as it was. */
  predicate MadeOwn(was: map<Key, Offshoot>, objs: map<Key, Offshoot>, k: Key, n: Name, uid: nat) {
    && k in objs && objs[k].labelled == Some(n)
    && objs[k].owners == (if k in was then was[k].owners else {}) + {uid}
    && objs[k].held == (k in was && was[k].held) && objs[k].dying == (k in was && was[k].dying)
  }

  predicate Untouched(was: map<Key, Offshoot>, objs: map<Key, Offshoot>, k: Key) {
    (k in objs <==> k in was) && (k in was ==> objs[k] == was[k])
  }

  lemma CreateWrites(w: State, n: Name, p: Pass, c: Choice, k: Key)
    requires p.pc.Creates()
    ensures var e := CreateMove(w, n, p, c.outcome, c.password).effect;
      var objs := if e.SetObjects? then e.objs else w.objs;
      if c.outcome != Failed && Writes(w, n, p, k) then MadeOwn(w.objs, objs, k, n, p.px.uid) else Untouched(w.objs, objs, k)
  {
  }

  /**
   A call of a create pass adds the database to the owners of the one object it is about, keeps the
   owners that were there, and labels it; it leaves every other object alone, and this one, too, if
   the call fails or the name is taken.
   */
  lemma WritesExactly(w: State, n: Name, c: Choice, k: Key)
    requires n in w.passes && w.passes[n].pc.Creates()
    ensures var p, objs := w.passes[n], Step(w, Do(n, c)).objs;
      if c.outcome != Failed && Writes(w, n, p, k) then MadeOwn(w.objs, objs, k, n, p.px.uid) else Untouched(w.objs, objs, k)
  {
    hide Step, CreateMove, Writes, MadeOwn;
    var p := w.passes[n];
    CreateWrites(w, n, p, c, k);
    StepMoves(w, n, c);
    assert MoveOf(w, n, p, c) == CreateMove(w, n, p, c.outcome, c.password);
    hide MoveOf;
  }

  lemma WorkloadCall(w: State, n: Name, p: Pass, c: Choice)
    requires p.pc.CWorkload? && c.outcome == Ok
    requires Key(StatefulSet, n) in w.objs ==> w.objs[Key(StatefulSet, n)].labelled == Some(n)
    ensures var m := MoveOf(w, n, p, c);
      && m.effect.SetObjects? && m.next.Go?
      && m.next.pass.pc == (if m.effect.objs != w.objs then CPods else CBinding)
  {
  }

  /** The pods are waited for exactly when the call has changed something. */
  lemma PodsAwaitedExactly(w: State, n: Name, c: Choice)
    requires n in w.passes && w.passes[n].pc.CWorkload? && c.outcome == Ok
    requires Key(StatefulSet, n) in w.objs ==> w.objs[Key(StatefulSet, n)].labelled == Some(n)
    ensures var w' := Step(w, Do(n, c));
      n in w'.passes && w'.passes[n].pc == if w'.objs != w.objs then CPods else CBinding
  {
    hide Step;
    WorkloadCall(w, n, w.passes[n], c);
    StepMoves(w, n, c);
    hide MoveOf;
  }

  lemma GovernCall(w: State, n: Name, p: Pass, c: Choice)
    requires p.pc.CGovern?
    ensures var m := MoveOf(w, n, p, c);
      m.next.Go? && (m.next.pass.pc.CRbac? <==> c.outcome == Ok)
  {
  }

  /** The shared field is set to the database's own governing service when the call succeeds, and only then. */
  lemma FieldSetExactly(w: State, n: Name, c: Choice)
    requires n in w.passes && w.passes[n].pc.CGovern?
    ensures Step(w, Do(n, c)).governing == if c.outcome == Ok then n + "-gvr" else w.governing
  {
    hide Step;
    GovernCall(w, n, w.passes[n], c);
    StepMoves(w, n, c);
    hide MoveOf;
  }

  /* ---- owners stay ---- */

  lemma OtherPassOwners(w: State, n: Name, c: Choice, k: Key)
    requires n in w.passes && !w.passes[n].pc.Creates() && k in w.objs && k in Step(w, Do(n, c)).objs
    ensures Step(w, Do(n, c)).objs[k].owners == w.objs[k].owners
  {
    hide Step;
    StepMoves(w, n, c);
    var p := w.passes[n];
    var e := MoveOf(w, n, p, c).effect;
    if e.SetObjects? {
      HaltOwners(w, n, p, c, k);
    }
    hide MoveOf;
  }

  lemma HaltOwners(w: State, n: Name, p: Pass, c: Choice, k: Key)
    requires !p.pc.Creates() && MoveOf(w, n, p, c).effect.SetObjects? && k in w.objs && k in MoveOf(w, n, p, c).effect.objs
    ensures MoveOf(w, n, p, c).effect.objs[k].owners == w.objs[k].owners
  {
  }

  lemma EventOwnersOf(w: State, e: Event, k: Key)
    requires !e.Do? && k in w.objs && k in Step(w, e).objs
    ensures Step(w, e).objs[k] == w.objs[k]
  {
    if IsUser(e) {
      UserIs(w, e);
      UserObjects(w, e);
      hide Step, UserStep;
    } else if IsObject(e) {
      ObjectIs(w, e);
      hide Step;
    }
  }

  lemma UserObjects(w: State, e: Event)
    ensures UserStep(w, e).objs == w.objs
  {
  }

  /** No step takes an owner off an object that stays. */
  lemma OwnersStay(w: State, e: Event, k: Key)
    requires k in w.objs && k in Step(w, e).objs
    ensures w.objs[k].owners <= Step(w, e).objs[k].owners
  {
    hide Step, Writes;
    if !e.Do? {
      EventOwnersOf(w, e, k);
    } else if e.n !in w.passes {
      NothingToDo(w, e);
    } else if w.passes[e.n].pc.Creates() {
      WritesExactly(w, e.n, e.choice, k);
    } else {
      OtherPassOwners(w, e.n, e.choice, k);
    }
  }

  lemma {:induction false} OwnersStayAlong(ws: seq<State>, es: seq<Event>, i: nat, j: nat, k: Key)
    requires IsRun(ws, es) && i <= j < |ws| && forall t :: i <= t <= j ==> k in ws[t].objs
    ensures ws[i].objs[k].owners <= ws[j].objs[k].owners
  {
    hide Step;
    if i < j {
      OwnersStayAlong(ws, es, i, j - 1, k);
      assert Goes(ws, es, j - 1);
      OwnersStay(ws[j - 1], es[j - 1], k);
    }
  }

  /* ---- when it is collected ---- */

  /** A database with this uid is stored. */
  predicate StoredAs(w: State, n: Name, uid: nat) { Current(w, n).Some? && Current(w, n).value.uid == uid }

  lemma LiveUnder(w: State, n: Name, uid: nat)
    requires (forall m: Name :: NameOk(w, m)) && Named(w, uid, n)
    ensures uid in LiveUids(w) <==> StoredAs(w, n, uid)
  {
    hide NameOk;
    if uid in LiveUids(w) {
      var m :| m in w.hist && Current(w, m).Some? && Current(w, m).value.uid == uid;
      assert NameOk(w, m);
      NamedHere(w, m);
      assert m == n;
    }
  }

  lemma NamedHere(w: State, n: Name)
    requires NameOk(w, n) && Current(w, n).Some?
    ensures Named(w, Current(w, n).value.uid, n)
  {
  }

  lemma PassNamed(ws: seq<State>, es: seq<Event>, i: nat, j: nat, n: Name)
    requires IsRun(ws, es) && i <= j < |ws| && n in ws[i].passes
    ensures Named(ws[j], ws[i].passes[n].px.uid, n)
  {
    ProtocolHolds(ws, es, i, n);
    ProtocolHolds(ws, es, j, n);
    HistoryPrefix(ws, es, i, j, n);
    KnownNamed(ws[i], ws[j], n, ws[i].passes[n].px);
  }

  lemma KnownNamed(w: State, w': State, n: Name, px: Database)
    requires Known(History(w, n), |History(w, n)|, px) || Known(History(w, n), Seen(w, n), px)
    requires HistoryOk(w', n) && History(w, n) <= History(w', n)
    ensures Named(w', px.uid, n)
  {
    var h := History(w, n);
    var i :| 0 <= i < |h| && h[i].Some? && h[i].value.uid == px.uid;
    assert History(w', n)[i] == h[i];
  }

  /** Garbage collection takes an object that has owners once none of them is stored. */
  lemma CollectsUnowned(w: State, k: Key)
    requires k in w.objs && w.objs[k].owners != {}
    ensures k !in Step(w, CollectObject(k)).objs <==> w.objs[k].owners !! LiveUids(w)
  {
    ObjectIs(w, CollectObject(k));
    hide Step, LiveUids;
  }

  /**
   What a pass wrote at step `i` and what is still there at `j` is taken by garbage collection
   exactly when the database the pass was for, that very one, and all other owners are gone.
   */
  lemma ObjectCollectedExactly(ws: seq<State>, es: seq<Event>, i: nat, j: nat, n: Name, c: Choice, k: Key)
    requires IsRun(ws, es) && i < j < |ws| && es[i] == Do(n, c) && c.outcome != Failed
    requires n in ws[i].passes && Writes(ws[i], n, ws[i].passes[n], k)
    requires forall t :: i < t <= j ==> k in ws[t].objs
    ensures var uid, owners := ws[i].passes[n].px.uid, ws[j].objs[k].owners;
      && uid in owners
      && (k !in Step(ws[j], CollectObject(k)).objs <==> !StoredAs(ws[j], n, uid) && owners - {uid} !! LiveUids(ws[j]))
  {
    hide Step, LiveUids, NameOk;
    var uid := ws[i].passes[n].px.uid;
    WritersCreate(ws[i], n, ws[i].passes[n], k);
    WritesExactly(ws[i], n, c, k);
    assert Goes(ws, es, i);
    OwnersStayAlong(ws, es, i + 1, j, k);
    PassNamed(ws, es, i, j, n);
    forall m: Name ensures NameOk(ws[j], m) { ProtocolHolds(ws, es, j, m); }
    LiveUnder(ws[j], n, uid);
    CollectsUnowned(ws[j], k);
    hide IsRun;
    WithoutOne(ws[j].objs[k].owners, uid, LiveUids(ws[j]));
  }

  lemma WithoutOne(owners: set<nat>, uid: nat, live: set<nat>)
    requires uid in owners
    ensures owners !! live <==> uid !in live && owners - {uid} !! live
  {
    assert forall u :: u in owners ==> u == uid || u in owners - {uid};
  }

  lemma WritersCreate(w: State, n: Name, p: Pass, k: Key)
    requires Writes(w, n, p, k)
    ensures p.pc.Creates()
  {
  }

  /* ---- what an uninterrupted pass leaves ---- */

  /** The name of the database's secret, given or its own. */
  function OwnSecret(n: Name, x: Database): Name {
    if x.spec.secret.Some? then x.spec.secret.value else n + "-auth"
  }

  /**
   A database that can be created: neither halted nor paused nor being deleted, its initial restore
   over if it waits for one, and no name taken by somebody else's service, StatefulSet or secret.
   */
  predicate Creatable(w: State, n: Name) {
    && Current(w, n).Some?
    && var x := Current(w, n).value;
       && !x.deleting && !x.spec.halted && x.conditions.paused != Some(true)
       && (x.spec.waitForInitialRestore ==> x.conditions.provisioned.Some? || x.conditions.restored == Some(true))
       && (Key(Service, n) in w.objs ==> w.objs[Key(Service, n)].labelled == Some(n))
       && (Key(StatefulSet, n) in w.objs ==> w.objs[Key(StatefulSet, n)].labelled == Some(n))
       && (x.spec.secret.Some? ==> x.spec.secret.value in w.secrets)
       && (x.spec.secret.None? && n + "-auth" in w.secrets ==>
             var s := w.secrets[n + "-auth"];
             s.labelled == Some(n) && (s.username || !s.legacyUser))
  }

  lemma CreatableIsCalm(w: State, n: Name)
    requires Creatable(w, n) && Seen(w, n) == |History(w, n)| && n !in w.passes
    ensures Underway(w, n)
  {
    assert Calm(w, n);
    CurrentInformerSuffices(w, n);
    hide Underway;
  }

  /** Created or patched for the database, with this payload. */
  predicate Left(was: map<Key, Offshoot>, objs: map<Key, Offshoot>, k: Key, n: Name, uid: nat, payload: Payload) {
    MadeOwn(was, objs, k, n, uid) && objs[k].payload == payload
  }

  /** The stats service is written. */
  predicate WantsStats(w: State, n: Name, x: Database) {
    && x.spec.monitoring != Unmonitored
    && (Key(Service, n + "-stats") in w.objs ==> w.objs[Key(Service, n + "-stats")].labelled == Some(n))
  }

  /** The objects of a database whose create pass has gone through. */
  predicate AllLeft(w: State, objs: map<Key, Offshoot>, n: Name, x: Database) {
    var s := OwnSecret(n, x);
    && Left(w.objs, objs, Key(ServiceAccount, n), n, x.uid, Plain)
    && Left(w.objs, objs, Key(Role, n), n, x.uid, Plain)
    && Left(w.objs, objs, Key(RoleBinding, n), n, x.uid, Plain)
    && Left(w.objs, objs, Key(Service, n), n, x.uid, Plain)
    && Left(w.objs, objs, Key(StatefulSet, n), n, x.uid, Workload(n + "-gvr", s, x.spec.replicas))
    && Left(w.objs, objs, Key(AppBinding, n), n, x.uid, Payload.Binding(s))
    && (if Key(Service, n + "-gvr") in w.objs then Untouched(w.objs, objs, Key(Service, n + "-gvr"))
        else Left(w.objs, objs, Key(Service, n + "-gvr"), n, x.uid, Plain))
    && (WantsStats(w, n, x) ==> Left(w.objs, objs, Key(Service, n + "-stats"), n, x.uid, Plain))
  }

  predicate IsOffshoot(w: State, n: Name, x: Database, k: Key) {
    || (k.name == n && k.kind in {ServiceAccount, Role, RoleBinding, Service, StatefulSet, AppBinding})
    || k == Key(Service, n + "-gvr")
    || (k == Key(Service, n + "-stats") && WantsStats(w, n, x))
  }

  lemma GoalLeft(w: State, n: Name, x: Database)
    ensures AllLeft(w, GoalObjects(w, n, x), n, x)
  {
    WantedKeys(w, n, x);
    assert |n + "-gvr"| == |n| + 4 && |n + "-stats"| == |n| + 6;
    hide Wanted;
  }

  lemma GoalTouchesNoMore(w: State, n: Name, x: Database, k: Key)
    requires !IsOffshoot(w, n, x, k)
    ensures Untouched(w.objs, GoalObjects(w, n, x), k)
  {
  }

  /** The secrets of a database whose create pass has gone through, having drawn this password if any. */
  predicate SecretLeft(w: State, secrets: map<Name, Secret>, n: Name, x: Database, password: nat) {
    var s := OwnSecret(n, x);
    && s in secrets && secrets.Keys == w.secrets.Keys + {s}
    && (forall t :: t in w.secrets && t != s ==> secrets[t] == w.secrets[t])
    && (if x.spec.secret.Some? && s in w.secrets then
          secrets[s] == w.secrets[s].(username := w.secrets[s].username || w.secrets[s].legacyUser)
        else if s in w.secrets then secrets[s] == w.secrets[s]
        else
          && secrets[s].labelled == Some(n) && secrets[s].owners == {} && secrets[s].password == Some(password)
          && secrets[s].username && !secrets[s].legacyUser && secrets[s].id == w.nextId)
  }

  lemma GoalSecretLeft(w: State, n: Name, x: Database, password: nat)
    requires x.spec.secret.Some? ==> x.spec.secret.value in w.secrets
    ensures SecretLeft(w, GoalSecrets(w, n, x, password), n, x, password)
  {
  }

  /**
   What one uninterrupted create pass leaves: every offshoot labelled, owned by the database and with
   its payload; nothing else touched; the secret there with a password and the user name; the
   database bound to it, and Ready.
   */
  lemma CreateLeaves(w: State, n: Name, password: nat)
    requires Creatable(w, n) && Seen(w, n) == |History(w, n)| && n !in w.passes
    ensures var w', x := OnePass(w, n, password), Current(w, n).value;
      && AllLeft(w, w'.objs, n, x)
      && (forall k :: !IsOffshoot(w, n, x, k) ==> Untouched(w.objs, w'.objs, k))
      && SecretLeft(w, w'.secrets, n, x, password)
      && Current(w', n).Some? && Current(w', n).value.uid == x.uid && Current(w', n).value.phase == Ready
      && Current(w', n).value.spec == x.spec.(secret := Some(OwnSecret(n, x)))
      && n !in w'.passes
  {
    var x := Current(w, n).value;
    CreatableIsCalm(w, n);
    OnePassReaches(w, n, password);
    GoalLeft(w, n, x);
    forall k | !IsOffshoot(w, n, x, k) ensures Untouched(w.objs, GoalObjects(w, n, x), k) { GoalTouchesNoMore(w, n, x, k); }
    GoalSecretLeft(w, n, x, password);
    hide OnePass, Underway, GoalObjects, GoalSecrets, AllLeft, SecretLeft, Untouched, IsOffshoot;
  }

  /** So every object it leaves has the database among its owners, but for a governing service that was there before. */
  lemma CreateOwns(w: State, n: Name, password: nat, k: Key)
    requires Creatable(w, n) && Seen(w, n) == |History(w, n)| && n !in w.passes
    requires IsOffshoot(w, n, Current(w, n).value, k) && !(k == Key(Service, n + "-gvr") && k in w.objs)
    ensures var objs := OnePass(w, n, password).objs;
      k in objs && Current(w, n).value.uid in objs[k].owners && (k in w.objs ==> w.objs[k].owners <= objs[k].owners)
  {
    CreateLeaves(w, n, password);
    hide OnePass, Creatable;
  }
}
