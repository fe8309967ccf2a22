/**
 Runs showing that the provisos of the main results are needed: without them the operator's code
 does reach the state that the result rules out.
 */
module Hazards {
  import opened Options
  import opened Cluster
  import opened Passes
  import opened SharedSecrets

  const Fine: Choice := Choice(Ok, "", 0, false, {})
  const Refused: Choice := Choice(Failed, "", 0, false, {})
  const NoConditions: Conditions := Conditions(None, None, None)

  function SpecOf(secret: Option<Name>, policy: Policy): Spec {
    Spec(1, secret, false, false, policy, Unmonitored)
  }

  function Version(uid: nat, spec: Spec, finalizer: bool, deleting: bool): Database {
    Database(uid, spec, NoPhase, NoConditions, finalizer, deleting)
  }

  /** Database "a" has the finalizer, is being deleted, and the informer knows it. */
  function DoomedHistory(uid: nat, spec: Spec): seq<Option<Database>> {
    [Some(Version(uid, spec, false, false)), Some(Version(uid, spec, true, false)), Some(Version(uid, spec, true, true))]
  }

  /** Only the databases and passes of `w` are spelled out; the stores are those of `w0`. */
  ghost predicate SameStores(w0: State, w: State) {
    w.secrets == w0.secrets && w.pvcs == w0.pvcs && w.objs == w0.objs
  }

  ghost predicate Doomed(w: State, uid: nat, spec: Spec) {
    && Reachable(w)
    && w.hist == map["a" := DoomedHistory(uid, spec)] && w.seen == map["a" := 3]
    && w.passes == map[] && uid < w.nextId && Named(w, uid, "a")
  }

  lemma Created(w0: State, spec: Spec) returns (w: State)
    requires Reachable(w0) && w0.hist == map[] && w0.seen == map[] && w0.passes == map[]
    ensures Reachable(w) && SameStores(w0, w) && w.nextId == w0.nextId + 1
    ensures w.hist == map["a" := DoomedHistory(w0.nextId, spec)[..1]] && w.seen == map["a" := 1]
    ensures Named(w, w0.nextId, "a")
    ensures w.passes == map["a" := Pass(Version(w0.nextId, spec, false, false), Start, map[], None)]
  {
    var w1 := Step(w0, UserCreate("a", spec));
    Reach(w0, UserCreate("a", spec));
    assert w1.hist["a"] == DoomedHistory(w0.nextId, spec)[..1];
    var w2 := Step(w1, Sync("a"));
    Reach(w1, Sync("a"));
    w := Step(w2, Take("a"));
    Reach(w2, Take("a"));
  }

  lemma Finalized(w0: State, uid: nat, spec: Spec) returns (w: State)
    requires Reachable(w0) && uid < w0.nextId && !spec.halted && Named(w0, uid, "a")
    requires w0.hist == map["a" := DoomedHistory(uid, spec)[..1]] && w0.seen == map["a" := 1]
    requires w0.passes == map["a" := Pass(Version(uid, spec, false, false), Start, map[], None)]
    ensures Reachable(w) && SameStores(w0, w) && w.nextId == w0.nextId
    ensures w.hist == map["a" := DoomedHistory(uid, spec)[..2]] && w.seen == map["a" := 1] && w.passes == map[]
    ensures Named(w, uid, "a")
  {
    var w1 := Step(w0, Do("a", Fine));
    Reach(w0, Do("a", Fine));
    assert w1.hist["a"] == DoomedHistory(uid, spec)[..2];
    assert w1.passes["a"].pc == CValidate;
    w := Step(w1, Do("a", Refused));
    Reach(w1, Do("a", Refused));
  }

  lemma Doom(w0: State, spec: Spec) returns (w: State)
    requires Reachable(w0) && w0.hist == map[] && w0.seen == map[] && w0.passes == map[]
    requires spec.policy != DoNotTerminate && !spec.halted
    ensures Doomed(w, w0.nextId, spec) && SameStores(w0, w) && w.nextId == w0.nextId + 1
  {
    hide Step, Reachable, DoomedHistory;
    var w1 := Created(w0, spec);
    var w2 := Finalized(w1, w0.nextId, spec);
    var w3 := UserDeletes(w2, w0.nextId, spec);
    var w4 := InformerMoves(w3, w0.nextId, spec, 1);
    w := InformerMoves(w4, w0.nextId, spec, 2);
  }

  lemma UserDeletes(w0: State, uid: nat, spec: Spec) returns (w: State)
    requires Reachable(w0) && spec.policy != DoNotTerminate && Named(w0, uid, "a")
    requires w0.hist == map["a" := DoomedHistory(uid, spec)[..2]]
    ensures Reachable(w) && SameStores(w0, w) && w.nextId == w0.nextId && Named(w, uid, "a")
    ensures w.hist == map["a" := DoomedHistory(uid, spec)] && w.seen == w0.seen && w.passes == w0.passes
  {
    w := Step(w0, UserDelete("a"));
    Reach(w0, UserDelete("a"));
    hide Reachable;
    assert w.hist["a"] == DoomedHistory(uid, spec);
  }

  lemma InformerMoves(w0: State, uid: nat, spec: Spec, i: nat) returns (w: State)
    requires Reachable(w0) && Named(w0, uid, "a") && 0 < i < 3
    requires w0.hist == map["a" := DoomedHistory(uid, spec)] && w0.seen == map["a" := i]
    ensures Reachable(w) && SameStores(w0, w) && w.nextId == w0.nextId && Named(w, uid, "a")
    ensures w.hist == w0.hist && w.seen == map["a" := i + 1] && w.passes == w0.passes
  {
    w := Step(w0, Sync("a"));
    Reach(w0, Sync("a"));
    hide Reachable;
    assert |History(w0, "a")| == 3;
  }

  /* ---- a stale lister ---- */

  ghost predicate PassAt(w: State, pc: PC, px: Database) {
    "a" in w.passes && w.passes["a"].pc == pc && w.passes["a"].px == px
  }

  /** "b" refers to the secret but the informer has not been told. */
  lemma Decide(w0: State, uid: nat, spec: Spec) returns (w: State)
    requires Reachable(w0) && spec == SpecOf(Some("s"), WipeOut)
    requires w0.hist.Keys == {"a", "b"} && History(w0, "a") == DoomedHistory(uid, spec)
    requires w0.seen == map["a" := 3] && w0.passes == map[]
    ensures Reachable(w) && w.hist == w0.hist && SameStores(w0, w)
    ensures PassAt(w, TSecretGet, Version(uid, spec, true, true))
  {
    hide Step, Reachable;
    var w1 := TakesWipeOut(w0, uid, spec);
    w := AsksLister(w1, Version(uid, spec, true, true));
  }

  lemma TakesWipeOut(w0: State, uid: nat, spec: Spec) returns (w: State)
    requires Reachable(w0) && spec == SpecOf(Some("s"), WipeOut)
    requires History(w0, "a") == DoomedHistory(uid, spec) && w0.seen == map["a" := 3] && w0.passes == map[]
    ensures Reachable(w) && w.hist == w0.hist && w.seen == w0.seen && SameStores(w0, w)
    ensures PassAt(w, TPeers, Version(uid, spec, true, true))
  {
    w := Step(w0, Take("a"));
    Reach(w0, Take("a"));
    TakeIs(w0, "a");
    hide Step, Reachable;
  }

  lemma AsksLister(w0: State, px: Database) returns (w: State)
    requires Reachable(w0) && px.spec == SpecOf(Some("s"), WipeOut) && PassAt(w0, TPeers, px)
    requires w0.hist.Keys == {"a", "b"} && w0.seen == map["a" := 3]
    ensures Reachable(w) && w.hist == w0.hist && SameStores(w0, w) && PassAt(w, TSecretGet, px)
  {
    assert Cached(w0, "b") == None;
    assert !UsedByPeers(w0, "a", "s");
    assert MoveOf(w0, "a", w0.passes["a"], Fine) == Move(Quiet, At(w0.passes["a"], TSecretGet));
    hide Step, MoveOf, Reachable, UsedByPeers;
    w := Step(w0, Do("a", Fine));
    Reach(w0, Do("a", Fine));
    StepMoves(w0, "a", Fine);
  }

  lemma Mark(w0: State, px: Database) returns (w: State)
    requires Reachable(w0) && px.spec == SpecOf(Some("s"), WipeOut) && PassAt(w0, TSecretGet, px)
    requires "s" in w0.secrets && w0.secrets["s"].owners == {}
    ensures Reachable(w) && w.hist == w0.hist && w.pvcs == w0.pvcs && PassAt(w, TPvcList, px)
    ensures "s" in w.secrets && w.secrets["s"].owners == {px.uid}
  {
    hide Step, Reachable;
    var w1 := ReadSecret(w0, px);
    w := PatchSecret(w1, px);
  }

  lemma ReadSecret(w0: State, px: Database) returns (w: State)
    requires Reachable(w0) && px.spec == SpecOf(Some("s"), WipeOut) && PassAt(w0, TSecretGet, px)
    requires "s" in w0.secrets && w0.secrets["s"].owners == {}
    ensures Reachable(w) && w.hist == w0.hist && w.pvcs == w0.pvcs && w.secrets == w0.secrets
    ensures PassAt(w, TSecretPatch({}), px)
  {
    w := Step(w0, Do("a", Fine));
    Reach(w0, Do("a", Fine));
    hide Reachable;
  }

  lemma PatchSecret(w0: State, px: Database) returns (w: State)
    requires Reachable(w0) && px.spec == SpecOf(Some("s"), WipeOut) && PassAt(w0, TSecretPatch({}), px)
    requires "s" in w0.secrets && w0.secrets["s"].owners == {}
    ensures Reachable(w) && w.hist == w0.hist && w.pvcs == w0.pvcs && PassAt(w, TPvcList, px)
    ensures "s" in w.secrets && w.secrets["s"].owners == {px.uid}
  {
    w := Step(w0, Do("a", Fine));
    Reach(w0, Do("a", Fine));
    hide Reachable;
  }

  lemma ListNone(w0: State, px: Database) returns (w: State)
    requires Reachable(w0) && px.spec.policy != Policy.Halt && w0.pvcs == map[] && PassAt(w0, TPvcList, px)
    ensures Reachable(w) && w.secrets == w0.secrets && w.hist == w0.hist && PassAt(w, TFinalizer, px)
  {
    assert LabelledPvcs(w0, "a") == map[];
    w := Step(w0, Do("a", Fine));
    Reach(w0, Do("a", Fine));
  }

  lemma Leave(w0: State, uid: nat, spec: Spec) returns (w: State)
    requires Reachable(w0) && History(w0, "a") == DoomedHistory(uid, spec)
    requires PassAt(w0, TFinalizer, Version(uid, spec, true, true)) && spec.monitoring == Unmonitored
    ensures Reachable(w) && w.secrets == w0.secrets && w.hist == w0.hist["a" := DoomedHistory(uid, spec) + [None]]
  {
    w := Step(w0, Do("a", Fine));
    Reach(w0, Do("a", Fine));
    hide Reachable;
    DoIs(w0, "a", Fine);
    assert MoveOf(w0, "a", w0.passes["a"], Fine) == Move(PutDatabase(Version(uid, spec, false, true)), Stop);
    hide Step, MoveOf;
    assert Stored(Version(uid, spec, false, true)) == None;
  }

  /** "a" is being deleted, "b" has just been created, and both refer to "s". */
  lemma Share(spec: Spec, peer: Spec) returns (w: State, uid: nat)
    requires spec == SpecOf(Some("s"), WipeOut)
    ensures Reachable(w) && w.hist.Keys == {"a", "b"} && History(w, "a") == DoomedHistory(uid, spec)
    ensures w.hist["b"] == [Some(Version(uid + 1, peer, false, false))]
    ensures w.seen == map["a" := 3] && w.passes == map[] && w.pvcs == map[]
    ensures "s" in w.secrets && w.secrets["s"].owners == {}
  {
    InitialReachable();
    var w0 := Step(Initial, SecretCreate("s", None, 7, true, false));
    Reach(Initial, SecretCreate("s", None, 7, true, false));
    uid := w0.nextId;
    var w1 := Doom(w0, spec);
    w := Step(w1, UserCreate("b", peer));
    Reach(w1, UserCreate("b", peer));
    assert History(w1, "b") == [];
  }

  lemma Collects(w: State, uid: nat, b: Database)
    requires w.hist.Keys == {"a", "b"} && Current(w, "a") == None && Current(w, "b") == Some(b)
    requires b.uid != uid && "s" in w.secrets && w.secrets["s"].owners == {uid}
    ensures "s" !in Step(w, CollectSecret("s")).secrets
  {
    assert LiveUids(w) == {b.uid};
  }

  lemma MarkAndGo(spec: Spec, peer: Spec) returns (w: State, uid: nat)
    requires spec == SpecOf(Some("s"), WipeOut)
    ensures Reachable(w)
    ensures w.hist == map["a" := DoomedHistory(uid, spec) + [None], "b" := [Some(Version(uid + 1, peer, false, false))]]
    ensures "s" in w.secrets && w.secrets["s"].owners == {uid}
  {
    hide Step, UsedByPeers, LiveUids;
    var w2;
    w2, uid := Share(spec, peer);
    var px := Version(uid, spec, true, true);
    var w3 := Decide(w2, uid, spec);
    var w4 := Mark(w3, px);
    var w5 := ListNone(w4, px);
    w := Leave(w5, uid, spec);
  }

  /** Without a current lister a live database loses its secret to garbage collection. */
  lemma StaleListerLosesSecret()
    ensures exists w: State :: Reachable(w) && Uses(w, "b", "s") && "s" in w.secrets &&
              "s" !in Step(w, CollectSecret("s")).secrets
  {
    hide Step, Reachable;
    var peer := SpecOf(Some("s"), Delete);
    var w, uid := MarkAndGo(SpecOf(Some("s"), WipeOut), peer);
    Collects(w, uid, Version(uid + 1, peer, false, false));
    assert Uses(w, "b", "s");
  }

  lemma InitialReachable()
    ensures Reachable(Initial)
  {
    assert IsRun([Initial], []);
  }

  /* ---- a patch from a stale copy ---- */

  /** A listed PVC is replaced by another database's before the patch, which then marks that one. */
  lemma StalePatchMarksForeign()
    ensures exists w: State :: Reachable(w) && "v" in w.pvcs && w.pvcs["v"].labelled == Some("b") &&
              exists u :: u in w.pvcs["v"].owners && Named(w, u, "a")
  {
    InitialReachable();
    var w0 := Step(Initial, PvcCreate("v", Some("a")));
    Reach(Initial, PvcCreate("v", Some("a")));
    var spec := SpecOf(None, Delete);
    var w1 := Doom(w0, spec);
    var w2 := ListOne(w1, w0.nextId, spec);
    ReplaceAndPatch(w2, w0.nextId, spec, LabelledPvcs(w1, "a"));
  }

  lemma ListOne(w0: State, uid: nat, spec: Spec) returns (w: State)
    requires Doomed(w0, uid, spec) && spec == SpecOf(None, Delete) && LabelledPvcs(w0, "a") != map[]
    ensures Reachable(w) && Named(w, uid, "a")
    ensures PassAt(w, TPvcPatch(LabelledPvcs(w0, "a"), false), Version(uid, spec, true, true))
  {
    hide Step, Reachable;
    var w1 := TakesDoomed(w0, uid, spec);
    w := ListsSome(w1, Version(uid, spec, true, true));
  }

  lemma TakesDoomed(w0: State, uid: nat, spec: Spec) returns (w: State)
    requires Doomed(w0, uid, spec) && spec == SpecOf(None, Delete)
    ensures Reachable(w) && Named(w, uid, "a") && w.pvcs == w0.pvcs
    ensures PassAt(w, TPvcList, Version(uid, spec, true, true))
  {
    w := Step(w0, Take("a"));
    Reach(w0, Take("a"));
    TakeIs(w0, "a");
    hide Step, Reachable;
  }

  lemma ListsSome(w0: State, px: Database) returns (w: State)
    requires Reachable(w0) && PassAt(w0, TPvcList, px) && LabelledPvcs(w0, "a") != map[]
    ensures Reachable(w) && w.audit.names == w0.audit.names && PassAt(w, TPvcPatch(LabelledPvcs(w0, "a"), false), px)
  {
    hide Step, Reachable, MoveOf, LabelledPvcs;
    w := Step(w0, Do("a", Fine));
    Reach(w0, Do("a", Fine));
    PvcListMove(w0, "a", w0.passes["a"], Fine);
    StepMoves(w0, "a", Fine);
    QuietNames(w0, "a", Fine);
  }

  lemma QuietNames(w: State, n: Name, c: Choice)
    requires n in w.passes
    ensures Step(w, Do(n, c)).audit.names == w.audit.names
  {
    hide MoveOf, Step, Commit, Settle;
    var m := MoveOf(w, n, w.passes[n], c);
    DoIs(w, n, c);
    CommitNames(w, n, m.effect);
    SettleNames(Commit(w, n, m.effect), n, w.passes[n], m.next);
  }

  lemma CommitNames(w: State, n: Name, e: Effect)
    ensures Commit(w, n, e).audit.names == w.audit.names
  {
  }

  lemma SettleNames(w: State, n: Name, p: Pass, next: Next)
    ensures Settle(w, n, p, next).audit.names == w.audit.names
  {
  }

  lemma ReplaceAndPatch(w0: State, uid: nat, spec: Spec, todo: map<Name, Pvc>)
    requires Reachable(w0) && spec.policy == Delete && Named(w0, uid, "a")
    requires "a" in w0.passes && w0.passes["a"].pc == TPvcPatch(todo, false) && w0.passes["a"].px.uid == uid
    requires w0.passes["a"].px.spec == spec && todo.Keys == {"v"} && todo["v"].owners == {}
    ensures exists w: State :: Reachable(w) && "v" in w.pvcs && w.pvcs["v"].labelled == Some("b") &&
              exists u :: u in w.pvcs["v"].owners && Named(w, u, "a")
  {
    hide Step, Reachable;
    var w1 := Replace(w0);
    var w := PatchStale(w1, uid, todo);
    assert uid in w.pvcs["v"].owners && Named(w, uid, "a");
  }

  /** The PVC is deleted and another database's takes its name. */
  lemma Replace(w0: State) returns (w: State)
    requires Reachable(w0)
    ensures Reachable(w) && w.passes == w0.passes && w.audit == w0.audit && "v" in w.pvcs
    ensures w.pvcs["v"].labelled == Some("b")
  {
    var w1 := Step(w0, PvcDelete("v"));
    Reach(w0, PvcDelete("v"));
    w := Step(w1, PvcCreate("v", Some("b")));
    Reach(w1, PvcCreate("v", Some("b")));
    hide Reachable;
  }

  lemma PatchStale(w0: State, uid: nat, todo: map<Name, Pvc>) returns (w: State)
    requires Reachable(w0) && "a" in w0.passes && w0.passes["a"].pc == TPvcPatch(todo, false)
    requires w0.passes["a"].px.uid == uid
    requires MarksPvcs(w0.passes["a"].px) && todo.Keys == {"v"} && todo["v"].owners == {}
    requires "v" in w0.pvcs && w0.pvcs["v"].labelled == Some("b")
    ensures Reachable(w) && "v" in w.pvcs && w.pvcs["v"].labelled == Some("b") && uid in w.pvcs["v"].owners
    ensures w.audit.names == w0.audit.names
  {
    var patch := Choice(Ok, "v", 0, false, {});
    w := Step(w0, Do("a", patch));
    Reach(w0, Do("a", patch));
    hide Reachable;
  }

  /* ---- two passes sharing one field ---- */

  /** A pass for a standalone database bound to the existing secret "s". */
  ghost predicate Passing(w: State, n: Name, pc: PC) {
    && n in w.passes && w.passes[n].pc == pc && w.passes[n].px.spec == SpecOf(Some("s"), Delete)
    && w.passes[n].px.conditions == NoConditions
  }

  /** Only the pass of `n` has moved, and the shared field is as it was. */
  ghost predicate OnlyMoved(w0: State, w: State, n: Name) {
    && Reachable(w) && n in w.passes && w.passes == w0.passes[n := w.passes[n]]
    && w.secrets.Keys == w0.secrets.Keys && w.governing == w0.governing && w.seen.Keys <= w0.seen.Keys + {n}
    && (forall m :: m in w.hist ==> m in w0.hist || m == n)
    && (forall k: Key :: k.name != n && k.name != GoverningService(n) && k !in w0.objs ==> k !in w.objs)
  }

  lemma Registered(w0: State, n: Name) returns (w: State)
    requires Reachable(w0) && n !in w0.hist && n !in w0.seen && n !in w0.passes
    ensures OnlyMoved(w0, w, n) && w.objs == w0.objs && Passing(w, n, Start) && n in w.hist && n in w.seen
    ensures Current(w, n) == Some(w.passes[n].px) && !w.passes[n].px.finalizer && w.passes[n].px.phase == NoPhase
  {
    hide Step, Reachable;
    var w1 := UserCreates(w0, n);
    var w2 := InformerSees(w1, n);
    w := WorkerTakes(w2, n);
  }

  lemma UserCreates(w0: State, n: Name) returns (w: State)
    requires Reachable(w0) && n !in w0.hist
    ensures Reachable(w) && w == Step(w0, UserCreate(n, SpecOf(Some("s"), Delete)))
    ensures w.hist.Keys == w0.hist.Keys + {n}
    ensures w.hist[n] == [Some(Version(w0.nextId, SpecOf(Some("s"), Delete), false, false))]
    ensures w.seen == w0.seen && w.passes == w0.passes && w.objs == w0.objs && w.secrets == w0.secrets
    ensures w.governing == w0.governing
  {
    w := Step(w0, UserCreate(n, SpecOf(Some("s"), Delete)));
    Reach(w0, UserCreate(n, SpecOf(Some("s"), Delete)));
  }

  lemma InformerSees(w0: State, n: Name) returns (w: State)
    requires Reachable(w0) && n in w0.hist && |w0.hist[n]| == 1 && n !in w0.seen
    ensures Reachable(w) && w == w0.(seen := w0.seen[n := 1])
  {
    w := Step(w0, Sync(n));
    Reach(w0, Sync(n));
  }

  lemma WorkerTakes(w0: State, n: Name) returns (w: State)
    requires Reachable(w0) && n in w0.hist && |w0.hist[n]| == 1 && n in w0.seen && w0.seen[n] == 1 && n !in w0.passes
    requires w0.hist[n][0].Some? && !w0.hist[n][0].value.deleting
    ensures Reachable(w) && w == w0.(passes := w0.passes[n := Pass(w0.hist[n][0].value, Start, map[], None)])
  {
    w := Step(w0, Take(n));
    Reach(w0, Take(n));
  }

  lemma UntilGoverning(w0: State, n: Name) returns (w: State)
    requires Reachable(w0) && "s" in w0.secrets && Passing(w0, n, Start) && n in w0.passes
    requires Current(w0, n) == Some(w0.passes[n].px) && !w0.passes[n].px.finalizer && w0.passes[n].px.phase == NoPhase
    requires n in w0.hist && n in w0.seen
    ensures OnlyMoved(w0, w, n) && w.objs == w0.objs && Passing(w, n, CGovern)
  {
    hide Step, Reachable, OnlyMoved, Passing, Current;
    var w1 := FirstCall(w0, n);
    var w2 := SecondCall(w1, n);
    w := ThirdCall(w2, n);
    OnlyMovedTwice(w0, w1, w2, n);
    OnlyMovedTwice(w0, w2, w, n);
  }

  lemma OnlyMovedTwice(w0: State, w1: State, w2: State, n: Name)
    requires OnlyMoved(w0, w1, n) && OnlyMoved(w1, w2, n) && n in w0.seen
    ensures OnlyMoved(w0, w2, n)
  {
    hide Reachable;
  }

  lemma FirstCall(w0: State, n: Name) returns (w: State)
    requires Reachable(w0) && Passing(w0, n, Start) && n in w0.hist && n in w0.seen && n in w0.passes
    requires Current(w0, n) == Some(w0.passes[n].px) && !w0.passes[n].px.finalizer && w0.passes[n].px.phase == NoPhase
    ensures Reachable(w) && OnlyMoved(w0, w, n) && w.objs == w0.objs && Passing(w, n, CValidate) && n in w.passes
    ensures w.passes[n].px.phase == NoPhase
    ensures w.secrets == w0.secrets && w.seen == w0.seen && n in w.hist && Current(w, n).Some?
    ensures Current(w, n).value.conditions == NoConditions
  {
    w := Step(w0, Do(n, Fine));
    Reach(w0, Do(n, Fine));
    hide Reachable;
  }

  lemma SecondCall(w0: State, n: Name) returns (w: State)
    requires Reachable(w0) && Passing(w0, n, CValidate) && "s" in w0.secrets && n in w0.passes
    requires w0.passes[n].px.phase == NoPhase
    requires n in w0.hist && n in w0.seen && Current(w0, n).Some? && Current(w0, n).value.conditions == NoConditions
    ensures Reachable(w) && OnlyMoved(w0, w, n) && w.objs == w0.objs && Passing(w, n, CProvision) && w.hist == w0.hist
    ensures w.seen == w0.seen && Current(w, n) == Current(w0, n)
  {
    w := Step(w0, Do(n, Fine));
    Reach(w0, Do(n, Fine));
    hide Reachable;
  }

  lemma ThirdCall(w0: State, n: Name) returns (w: State)
    requires Reachable(w0) && Passing(w0, n, CProvision) && n in w0.hist && n in w0.seen
    requires Current(w0, n).Some? && Current(w0, n).value.conditions == NoConditions
    ensures OnlyMoved(w0, w, n) && w.objs == w0.objs && Passing(w, n, CGovern)
  {
    w := Step(w0, Do(n, Fine));
    Reach(w0, Do(n, Fine));
    hide Reachable;
  }

  lemma Governs(w0: State, n: Name) returns (w: State)
    requires Reachable(w0) && Passing(w0, n, CGovern)
    ensures Reachable(w) && w.governing == GoverningService(n) && Passing(w, n, CRbac(0))
    ensures w.passes == w0.passes[n := w.passes[n]] && w.secrets == w0.secrets && w.hist == w0.hist && w.seen == w0.seen
    ensures forall k: Key :: k.name != GoverningService(n) && k !in w0.objs ==> k !in w.objs
  {
    w := Step(w0, Do(n, Fine));
    Reach(w0, Do(n, Fine));
  }

  lemma OneCall(w0: State, n: Name, pc: PC, next: PC) returns (w: State)
    requires Reachable(w0) && Passing(w0, n, pc) && "s" in w0.secrets
    requires Key(Service, n) !in w0.objs || pc != CService
    requires || (pc.CRbac? && next == (if pc.k < 2 then CRbac(pc.k + 1) else CService))
             || (pc == CService && next == CUpgrade) || (pc == CUpgrade && next == CVersion)
             || (pc == CVersion && next == CWorkload(w0.governing))
    ensures OnlyMoved(w0, w, n) && Passing(w, n, next)
    ensures Key(Service, n) !in w0.objs && pc.CRbac? ==> Key(Service, n) !in w.objs
    ensures Key(StatefulSet, n) !in w0.objs ==> Key(StatefulSet, n) !in w.objs
  {
    w := Step(w0, Do(n, Fine));
    Reach(w0, Do(n, Fine));
  }

  lemma UntilWorkload(w0: State, n: Name) returns (w: State)
    requires Reachable(w0) && Passing(w0, n, CRbac(0)) && "s" in w0.secrets
    requires Key(Service, n) !in w0.objs && Key(StatefulSet, n) !in w0.objs
    ensures Reachable(w) && Passing(w, n, CWorkload(w0.governing)) && Key(StatefulSet, n) !in w.objs
  {
    var w1 := OneCall(w0, n, CRbac(0), CRbac(1));
    var w2 := OneCall(w1, n, CRbac(1), CRbac(2));
    var w3 := OneCall(w2, n, CRbac(2), CService);
    var w4 := OneCall(w3, n, CService, CUpgrade);
    var w5 := OneCall(w4, n, CUpgrade, CVersion);
    w := OneCall(w5, n, CVersion, CWorkload(w0.governing));
  }

  lemma OneSecret() returns (w: State)
    ensures Reachable(w) && w.hist == map[] && w.seen == map[] && w.passes == map[] && w.objs == map[]
    ensures w.secrets.Keys == {"s"}
  {
    InitialReachable();
    w := Step(Initial, SecretCreate("s", None, 7, true, false));
    Reach(Initial, SecretCreate("s", None, 7, true, false));
    hide Reachable;
  }

  lemma FirstPass() returns (w: State)
    ensures Reachable(w) && Passing(w, "a", CRbac(0)) && "s" in w.secrets
    ensures w.passes.Keys == {"a"} && "b" !in w.hist && "b" !in w.seen
    ensures Key(Service, "a") !in w.objs && Key(StatefulSet, "a") !in w.objs
  {
    hide Step, Reachable;
    var w0 := OneSecret();
    var w1 := Registered(w0, "a");
    var w2 := UntilGoverning(w1, "a");
    w := Governs(w2, "a");
    assert |GoverningService("a")| == 5;
  }

  /** While "a" is between setting the shared field and reading it, "b" sets it. */
  lemma SecondPass(w0: State) returns (w: State)
    requires Reachable(w0) && Passing(w0, "a", CRbac(0)) && "s" in w0.secrets
    requires w0.passes.Keys == {"a"} && "b" !in w0.hist && "b" !in w0.seen
    requires Key(Service, "a") !in w0.objs && Key(StatefulSet, "a") !in w0.objs
    ensures Reachable(w) && Passing(w, "a", CRbac(0)) && w.governing == GoverningService("b") && "s" in w.secrets
    ensures Key(Service, "a") !in w.objs && Key(StatefulSet, "a") !in w.objs
  {
    hide Step, Reachable;
    var w1 := Registered(w0, "b");
    assert Passing(w1, "a", CRbac(0));
    var w2 := UntilGoverning(w1, "b");
    assert Passing(w2, "a", CRbac(0));
    w := Governs(w2, "b");
    assert |GoverningService("b")| == 5;
  }

  lemma WritesWorkload(w0: State, n: Name, serviceName: Name) returns (w: State)
    requires Reachable(w0) && Passing(w0, n, CWorkload(serviceName)) && Key(StatefulSet, n) !in w0.objs
    ensures Reachable(w) && Key(StatefulSet, n) in w.objs
    ensures w.objs[Key(StatefulSet, n)].payload == WorkloadOf(w0.passes[n].px, serviceName)
  {
    w := Step(w0, Do(n, Fine));
    Reach(w0, Do(n, Fine));
    hide Reachable;
  }

  /** Two workers suffice for a StatefulSet that carries another database's governing service. */
  lemma SharedFieldMixesServices()
    ensures exists w: State :: Reachable(w) && Key(StatefulSet, "a") in w.objs &&
              w.objs[Key(StatefulSet, "a")].payload.Workload? &&
              w.objs[Key(StatefulSet, "a")].payload.serviceName == GoverningService("b")
  {
    var first := FirstPass();
    var w0 := SecondPass(first);
    var w1 := UntilWorkload(w0, "a");
    hide Reachable;
    var w := WritesWorkload(w1, "a", GoverningService("b"));
    assert w.objs[Key(StatefulSet, "a")].payload.serviceName == GoverningService("b");
  }
}
