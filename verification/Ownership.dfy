/**
 Owner references at the moment the finalizer is removed, whatever earlier passes did under other
 policies. Owner references are patched from a copy read earlier and without a version check; which
 patches do harm when the object has changed since it was read is characterised exactly.
 */
module Ownership {
  import opened Options
  import opened Cluster
  import opened Passes
  import opened Finalizers

  /** A patch of owner references is applied to the object as it was read. */
  ghost predicate Fresh(w: State, e: Event) {
    e.Do? && e.n in w.passes ==>
      var p := w.passes[e.n];
      && (p.pc.TSecretPatch? && SecretName(p.px) in w.secrets ==>
            w.secrets[SecretName(p.px)].owners == p.pc.snapshot && p.got == Some(w.secrets[SecretName(p.px)].id))
      && (p.pc.TPvcPatch? && e.choice.item in p.pc.todo && e.choice.item in w.pvcs ==>
            w.pvcs[e.choice.item] == p.pc.todo[e.choice.item])
  }

  ghost predicate IdsOk(w: State) {
    && (forall v :: v in w.pvcs ==> w.pvcs[v].id < w.nextId)
    && (forall s :: s in w.secrets ==> w.secrets[s].id < w.nextId)
  }

  /** A PVC is only ever marked by a terminating database whose name it is labelled with. */
  ghost predicate MarkedByLabel(w: State) {
    forall v, u: nat :: v in w.pvcs && u in w.pvcs[v].owners ==>
      w.pvcs[v].labelled.Some? && (w.pvcs[v].labelled.value, u) in w.audit.terminating
  }

  /* ---- PVCs ---- */

  predicate PvcsListed(p: Pass) {
    p.pc.TPvcPatch? || p.pc.TFinalizer? || (!MarksPvcs(p.px) && (p.pc.TSecretGet? || p.pc.TSecretPatch?))
  }

  function Todo(p: Pass): map<Name, Pvc> { if p.pc.TPvcPatch? then p.pc.todo else map[] }

  predicate SomeFailed(p: Pass) { p.pc.TPvcPatch? && p.pc.failed }

  /** The PVC the pass listed under this name is still there. */
  predicate StillListed(w: State, p: Pass, v: Name) {
    v in p.listed && v in w.pvcs && w.pvcs[v].id == p.listed[v]
  }

  ghost predicate PvcOk(w: State, n: Name, p: Pass) {
    PvcsListed(p) ==>
      && (forall v :: v in p.listed ==> p.listed[v] < w.nextId)
      && (forall v :: StillListed(w, p, v) ==> w.pvcs[v].labelled == Some(n))
      && (forall v :: v in Todo(p) ==> v in p.listed && Todo(p)[v].id == p.listed[v] && Todo(p)[v].labelled == Some(n))
      && (forall v :: v in Todo(p) && StillListed(w, p, v) ==> w.pvcs[v] == Todo(p)[v])
      && (forall v :: v in w.pvcs && w.pvcs[v].labelled == Some(n) && p.px.uid in w.pvcs[v].owners ==> StillListed(w, p, v))
      && (!SomeFailed(p) ==>
            forall v :: StillListed(w, p, v) && v !in Todo(p) ==> (p.px.uid in w.pvcs[v].owners <==> MarksPvcs(p.px)))
  }

  /* ---- the database's own secret ---- */

  predicate SecretDone(p: Pass) {
    p.px.spec.secret.Some? &&
    (p.pc.TFinalizer? || (MarksPvcs(p.px) && (p.pc.TPvcList? || p.pc.TPvcPatch?)))
  }

  ghost predicate SecretOk(w: State, p: Pass) {
    && (p.got.Some? ==> p.got.value < w.nextId)
    && (p.pc.TPeers? ==> MarksSecret(p.px) && p.got == None)
    && (SecretDone(p) && SecretName(p.px) in w.secrets ==>
          var x := w.secrets[SecretName(p.px)];
          if MarksSecret(p.px) then p.got == Some(x.id) ==> p.px.uid in x.owners else p.px.uid !in x.owners)
  }

  ghost predicate OwnershipOk(w: State, n: Name) {
    n in w.passes && w.passes[n].pc.Terminates() ==> PvcOk(w, n, w.passes[n]) && SecretOk(w, w.passes[n])
  }

  /** The owners in the copies a pass has yet to patch are terminating databases of its name. */
  ghost predicate SnapshotsOk(w: State, n: Name) {
    n in w.passes ==>
      forall v, u: nat :: v in Todo(w.passes[n]) && u in Todo(w.passes[n])[v].owners ==> (n, u) in w.audit.terminating
  }

  ghost predicate StoresOk(w: State) { IdsOk(w) && MarkedByLabel(w) }

  /** All of it, for every name. */
  ghost predicate Kept(w: State) {
    StoresOk(w) && forall n: Name :: OwnershipOk(w, n) && SnapshotsOk(w, n)
  }

  /* ---- which patches do no harm ---- */

  /** The pass relies on the owners the PVC has: it has yet to patch the copy it listed, or is done with it. */
  predicate ReliesOn(w: State, p: Pass, v: Name) {
    && p.pc.Terminates() && PvcsListed(p) && StillListed(w, p, v) && w.pvcs[v].owners != {}
    && (v in Todo(p) || (!SomeFailed(p) && p.px.uid in w.pvcs[v].owners))
  }

  /** The listed copy asks for a patch. */
  predicate AsksPatch(p: Pass, v: Name)
    requires p.pc.TPvcPatch? && v in p.pc.todo
  {
    (p.px.uid in p.pc.todo[v].owners) != MarksPvcs(p.px)
  }

  /** The patch lands on a PVC that has taken the name of the one that was listed. */
  predicate HitsReplacement(w: State, e: Event) {
    e.Do? && e.n in w.passes && w.passes[e.n].pc.TPvcPatch? && e.choice.item in w.passes[e.n].pc.todo &&
    var p, v := w.passes[e.n], e.choice.item;
    AsksPatch(p, v) && e.choice.outcome.Applied() && v in w.pvcs && w.pvcs[v].id != p.pc.todo[v].id
  }

  /** Items are left, or none has failed. */
  predicate LoopGoesOn(p: Pass, c: Choice)
    requires p.pc.TPvcPatch?
  {
    p.pc.todo.Keys != {c.item} || !(p.pc.failed || c.outcome != Ok)
  }

  /**
   A patch of a replacement does no harm if it takes a mark off, and off a replacement with another
   label only if that leaves no owner and nobody relies on those there; or if it marks a replacement
   with the same label and the pass fails anyway.
   */
  ghost predicate PvcHarmless(w: State, e: Event) {
    HitsReplacement(w, e) ==>
      var p, v := w.passes[e.n], e.choice.item;
      if w.pvcs[v].labelled == Some(e.n) then !MarksPvcs(p.px) || !LoopGoesOn(p, e.choice)
      else
        && !MarksPvcs(p.px) && p.pc.todo[v].owners == {p.px.uid}
        && forall m :: m in w.passes ==> !ReliesOn(w, w.passes[m], v)
  }

  /** The pass is done with the secret and relies on whether it is an owner. */
  predicate Needs(w: State, p: Pass, s: Name) {
    && p.pc.Terminates() && SecretDone(p) && s == SecretName(p.px) && s in w.secrets
    && (MarksSecret(p.px) ==> p.got == Some(w.secrets[s].id))
  }

  /** A patch of a shared secret does no harm if the copy agrees about every other pass that is done with it. */
  ghost predicate SecretHarmless(w: State, e: Event) {
    e.Do? && e.n in w.passes && w.passes[e.n].pc.TSecretPatch? && e.choice.outcome.Applied() &&
    SecretName(w.passes[e.n].px) in w.secrets ==>
      var s := SecretName(w.passes[e.n].px);
      forall m :: m in w.passes && m != e.n && Needs(w, w.passes[m], s) ==>
        (w.passes[m].px.uid in w.passes[e.n].pc.snapshot <==> w.passes[m].px.uid in w.secrets[s].owners)
  }

  ghost predicate Harmless(w: State, e: Event) { PvcHarmless(w, e) && SecretHarmless(w, e) }

  /* ---- what one step can do to PVCs and secrets ---- */

  ghost predicate PvcsSameFor(w: State, w': State, n: Name, p: Pass) {
    && w.nextId <= w'.nextId
    && forall v :: v in w'.pvcs ==>
         || (v in w.pvcs && w'.pvcs[v] == w.pvcs[v])
         || (w'.pvcs[v].owners == {} && w.nextId <= w'.pvcs[v].id)
         || (v in w.pvcs && w'.pvcs[v].id == w.pvcs[v].id && w'.pvcs[v].labelled == w.pvcs[v].labelled != Some(n))
         || (v in w.pvcs && w'.pvcs[v] == w.pvcs[v].(owners := {}) && !ReliesOn(w, p, v))
  }

  ghost predicate SecretsSameFor(w: State, w': State, p: Pass) {
    && w.nextId <= w'.nextId
    && forall s :: s in w'.secrets ==>
         || (s in w.secrets && w'.secrets[s].id == w.secrets[s].id &&
             (!Needs(w, p, s) || (p.px.uid in w'.secrets[s].owners <==> p.px.uid in w.secrets[s].owners)))
         || (w'.secrets[s].owners == {} && w.nextId <= w'.secrets[s].id)
  }

  lemma PvcFrame(w: State, w': State, n: Name, p: Pass)
    requires PvcOk(w, n, p) && PvcsSameFor(w, w', n, p) && p.pc.Terminates()
    ensures PvcOk(w', n, p)
  {
    if PvcsListed(p) {
      forall v | StillListed(w', p, v)
        ensures StillListed(w, p, v)
        ensures w'.pvcs[v] == w.pvcs[v] || (w'.pvcs[v] == w.pvcs[v].(owners := {}) && !ReliesOn(w, p, v))
      {
        assert v in w'.pvcs;
      }
    }
  }

  lemma SecretFrame(w: State, w': State, p: Pass)
    requires SecretOk(w, p) && SecretsSameFor(w, w', p) && p.pc.Terminates()
    ensures SecretOk(w', p)
  {
  }

  /** The only writes to a PVC are patches of its owner references. */
  lemma PvcWrites(w: State, n: Name, p: Pass, c: Choice)
    requires MoveOf(w, n, p, c).effect.PutPvc?
    ensures p.pc.TPvcPatch? && c.item in p.pc.todo && c.item in w.pvcs && c.outcome.Applied()
    ensures MoveOf(w, n, p, c).effect ==
      PutPvc(c.item, w.pvcs[c.item].(owners := Patched(p.pc.todo[c.item].owners, MarksPvcs(p.px), p.px.uid)))
  {
  }

  predicate PatchesSecret(w: State, p: Pass, e: Effect) {
    && p.pc.TSecretPatch? && e.PutSecret? && e.secretName == SecretName(p.px) && e.secretName in w.secrets
    && e.secret == w.secrets[e.secretName].(owners := Patched(p.pc.snapshot, MarksSecret(p.px), p.px.uid))
  }

  /** Writes to a secret create it unowned, keep its owners, or patch them in `terminate`. */
  lemma SecretWrites(w: State, n: Name, p: Pass, c: Choice)
    requires MoveOf(w, n, p, c).effect.PutSecret?
    ensures var e := MoveOf(w, n, p, c).effect;
      || (e.secretName !in w.secrets && e.secret.owners == {} && e.secret.id == w.nextId)
      || (e.secretName in w.secrets && e.secret.id == w.secrets[e.secretName].id && e.secret.owners == w.secrets[e.secretName].owners)
      || PatchesSecret(w, p, e)
  {
    if p.pc.Creates() { hide TerminateMove, HaltMove, PatchesSecret; }
    else { hide CreateMove; }
  }

  /* ---- steps of other passes ---- */

  /** Two terminating passes are never about the same uid. */
  lemma DistinctUids(w: State, n: Name, m: Name)
    requires NameOk(w, n) && NameOk(w, m) && n != m && n in w.passes && m in w.passes
    requires w.passes[n].pc.Terminates() && w.passes[m].pc.Terminates()
    ensures w.passes[n].px.uid != w.passes[m].px.uid
  {
  }

  lemma CommitPvcsElsewhere(w: State, m: Name, c: Choice, n: Name)
    requires m in w.passes && n in w.passes && m != n && OwnershipOk(w, m) && PvcHarmless(w, Do(m, c))
    ensures PvcsSameFor(w, Commit(w, m, MoveOf(w, m, w.passes[m], c).effect), n, w.passes[n])
  {
    var p := w.passes[m];
    if MoveOf(w, m, p, c).effect.PutPvc? {
      PvcWrites(w, m, p, c);
      WritesAsked(w, m, p, c);
    }
    hide MoveOf, ReliesOn;
  }

  /** A PVC is written only if its listed copy asks for it. */
  lemma WritesAsked(w: State, n: Name, p: Pass, c: Choice)
    requires p.pc.TPvcPatch? && c.item in p.pc.todo && MoveOf(w, n, p, c).effect.PutPvc?
    ensures AsksPatch(p, c.item)
  {
  }

  lemma CommitSecretsElsewhere(w: State, m: Name, c: Choice, n: Name)
    requires m in w.passes && n in w.passes && m != n && SecretHarmless(w, Do(m, c))
    requires w.passes[m].pc.TSecretPatch? ==> w.passes[m].px.uid != w.passes[n].px.uid
    ensures SecretsSameFor(w, Commit(w, m, MoveOf(w, m, w.passes[m], c).effect), w.passes[n])
  {
    var p := w.passes[m];
    if MoveOf(w, m, p, c).effect.PutSecret? {
      SecretWrites(w, m, p, c);
      if p.pc.TSecretPatch? { PatchApplied(w, m, p, c); }
    }
    hide MoveOf, Needs;
  }

  lemma PatchApplied(w: State, n: Name, p: Pass, c: Choice)
    requires p.pc.TSecretPatch? && MoveOf(w, n, p, c).effect.PutSecret?
    ensures c.outcome.Applied() && MoveOf(w, n, p, c).effect.secretName == SecretName(p.px) && SecretName(p.px) in w.secrets
  {
  }

  lemma FrameOwnership(w: State, w1: State, m: Name, q: Pass, next: Next, n: Name)
    requires m != n && OwnershipOk(w, n) && w1.passes == w.passes
    requires n in w.passes && w.passes[n].pc.Terminates() ==>
      PvcsSameFor(w, w1, n, w.passes[n]) && SecretsSameFor(w, w1, w.passes[n])
    ensures OwnershipOk(Settle(w1, m, q, next), n)
  {
    var w' := Settle(w1, m, q, next);
    if n in w'.passes && w.passes[n].pc.Terminates() {
      SettleStores(w1, m, q, next);
      PvcFrame(w, w', n, w.passes[n]);
      SecretFrame(w, w', w.passes[n]);
    }
  }

  lemma DoElsewhereOwnership(w: State, m: Name, c: Choice, n: Name)
    requires NameOk(w, n) && NameOk(w, m) && OwnershipOk(w, n) && OwnershipOk(w, m) && Harmless(w, Do(m, c)) && m != n
    ensures OwnershipOk(StepPass(w, m, c), n)
  {
    hide MoveOf, Commit, Settle, PvcOk, SecretOk, NameOk, PvcHarmless, SecretHarmless;
    if m in w.passes {
      var move := MoveOf(w, m, w.passes[m], c);
      CommitPasses(w, m, move.effect);
      if n in w.passes && w.passes[n].pc.Terminates() {
        CommitPvcsElsewhere(w, m, c, n);
        if w.passes[m].pc.TSecretPatch? { DistinctUids(w, n, m); }
        CommitSecretsElsewhere(w, m, c, n);
      }
      FrameOwnership(w, Commit(w, m, move.effect), m, w.passes[m], move.next, n);
    }
  }

  lemma ObjectStepsAreSame(w: State, e: Event, n: Name, p: Pass)
    ensures PvcsSameFor(w, ObjectStep(w, e), n, p) && SecretsSameFor(w, ObjectStep(w, e), p)
  {
    hide ReliesOn, Needs;
  }

  lemma UserStepsAreSame(w: State, e: Event)
    ensures var w' := UserStep(w, e);
            w'.pvcs == w.pvcs && w'.secrets == w.secrets && w'.passes == w.passes && w.nextId <= w'.nextId
  {
  }

  /** Users, controllers and garbage collection only add unowned objects and remove objects. */
  lemma ObjectsElsewhere(w: State, e: Event, n: Name, p: Pass)
    requires !e.Do?
    ensures PvcsSameFor(w, Step(w, e), n, p) && SecretsSameFor(w, Step(w, e), p)
  {
    hide Step, UserStep, ObjectStep, PvcsSameFor, SecretsSameFor;
    if IsUser(e) {
      UserIs(w, e);
      UserStepsAreSame(w, e);
      SameStoresSame(w, Step(w, e), n, p);
    } else if IsObject(e) {
      ObjectIs(w, e);
      ObjectStepsAreSame(w, e, n, p);
    } else {
      QuietStores(w, e);
      SameStoresSame(w, Step(w, e), n, p);
    }
  }

  lemma SameStoresSame(w: State, w': State, n: Name, p: Pass)
    requires w'.pvcs == w.pvcs && w'.secrets == w.secrets && w.nextId <= w'.nextId
    ensures PvcsSameFor(w, w', n, p) && SecretsSameFor(w, w', p)
  {
    hide ReliesOn, Needs;
  }

  /** The informer, the queue and a restart do not touch the stores. */
  lemma QuietStores(w: State, e: Event)
    requires e.Sync? || e.Take? || e.Crash?
    ensures var w' := Step(w, e);
            w'.pvcs == w.pvcs && w'.secrets == w.secrets && w'.nextId == w.nextId
  {
    if e.Take? { TakeIs(w, e.n); }
  }

  lemma EventOwnership(w: State, e: Event, n: Name)
    requires !e.Do? && OwnershipOk(w, n)
    requires n in Step(w, e).passes ==> (n in w.passes && Step(w, e).passes[n] == w.passes[n]) || e == Take(n)
    ensures OwnershipOk(Step(w, e), n)
  {
    if e == Take(n) { TakeOwnership(w, n); }
    else {
      hide Step, PvcOk, SecretOk;
      var w' := Step(w, e);
      if n in w'.passes && w'.passes[n].pc.Terminates() {
        var p := w.passes[n];
        ObjectsElsewhere(w, e, n, p);
        PvcFrame(w, w', n, p);
        SecretFrame(w, w', p);
      }
    }
  }

  lemma TakeOwnership(w: State, n: Name)
    requires OwnershipOk(w, n)
    ensures OwnershipOk(Begin(w, n), n)
  {
    hide PvcOk, SecretOk;
    var w' := Begin(w, n);
    if n in w.passes {
    } else if n in w'.passes && w'.passes[n].pc.Terminates() {
      EntryOk(w', n, Pass(Cached(w, n).value, Start, map[], None));
    }
  }

  lemma EntryOk(w: State, n: Name, p: Pass)
    requires p.got == None
    ensures PvcOk(w, n, TerminateEntry(p)) && SecretOk(w, TerminateEntry(p))
  {
    assert !PvcsListed(TerminateEntry(p));
  }

  /* ---- steps of the pass itself ---- */

  ghost predicate StepsTo(w: State, n: Name, w1: State, next: Next) {
    next.Go? && next.pass.pc.Terminates() ==> PvcOk(w1, n, next.pass) && SecretOk(w1, next.pass)
  }

  lemma OwnList(w: State, n: Name, p: Pass, c: Choice)
    requires IdsOk(w) && PvcOk(w, n, p) && SecretOk(w, p) && p.pc.TPvcList?
    ensures StepsTo(w, n, w, TerminateMove(w, n, p, c.outcome, c.item).next)
  {
  }

  lemma OwnSecretGet(w: State, n: Name, p: Pass, c: Choice)
    requires IdsOk(w) && PvcOk(w, n, p) && SecretOk(w, p) && (p.pc.TPeers? || p.pc.TSecretGet?)
    requires p.pc.TPeers? ==> MarksPvcs(p.px)
    ensures StepsTo(w, n, w, TerminateMove(w, n, p, c.outcome, c.item).next)
  {
  }

  lemma SecretPatchNext(w: State, n: Name, p: Pass, c: Choice)
    requires p.pc.TSecretPatch?
    ensures var m := TerminateMove(w, n, p, c.outcome, c.item);
      && m.effect == (if c.outcome == Failed || SecretName(p.px) !in w.secrets then Quiet
                      else Effect.PutSecret(SecretName(p.px), w.secrets[SecretName(p.px)].(
                        owners := Patched(p.pc.snapshot, MarksSecret(p.px), p.px.uid))))
      && m.next == (if c.outcome == Ok then At(p, AfterSecretAt(p.px)) else Stop)
  {
  }

  lemma OwnSecretPatch(w: State, n: Name, p: Pass, c: Choice)
    requires PvcOk(w, n, p) && SecretOk(w, p) && p.pc.TSecretPatch?
    ensures var m := TerminateMove(w, n, p, c.outcome, c.item);
            StepsTo(w, n, Commit(w, n, m.effect), m.next)
  {
    hide TerminateMove;
    SecretPatchNext(w, n, p, c);
    var m := TerminateMove(w, n, p, c.outcome, c.item);
    if m.next.Go? {
      var w1 := Commit(w, n, m.effect);
      assert w1.pvcs == w.pvcs && w.nextId <= w1.nextId;
      PatchedSecretOk(w, w1, p, m.next.pass);
      SamePvcsOk(w, w1, n, p, m.next.pass);
      hide PvcOk, SecretOk;
    }
  }

  lemma PatchedSecretOk(w: State, w1: State, p: Pass, q: Pass)
    requires SecretOk(w, p) && w.nextId <= w1.nextId && q == p.(pc := AfterSecretAt(p.px)) && p.pc.TSecretPatch?
    requires SecretName(p.px) in w1.secrets ==>
      (p.px.uid in w1.secrets[SecretName(p.px)].owners <==> MarksSecret(p.px))
    ensures SecretOk(w1, q)
  {
  }

  lemma SamePvcsOk(w: State, w1: State, n: Name, p: Pass, q: Pass)
    requires PvcOk(w, n, p) && w1.pvcs == w.pvcs && w.nextId <= w1.nextId
    requires q == p.(pc := AfterSecretAt(p.px)) && p.pc.TSecretPatch?
    ensures PvcOk(w1, n, q)
  {
  }

  /** `w1` differs from `w` in at most one PVC, whose owners now are as the policy wants them. */
  ghost predicate ItemPatched(w: State, w1: State, p: Pass, v: Name, failed: bool) {
    && w1.nextId == w.nextId && w1.pvcs.Keys == w.pvcs.Keys
    && (forall u :: u in w.pvcs && u != v ==> w1.pvcs[u] == w.pvcs[u])
    && (v in w.pvcs ==>
          && w1.pvcs[v].id == w.pvcs[v].id && w1.pvcs[v].labelled == w.pvcs[v].labelled
          && (!failed ==> (p.px.uid in w1.pvcs[v].owners <==> MarksPvcs(p.px))))
  }

  lemma PatchEffect(w: State, n: Name, p: Pass, c: Choice)
    requires p.pc.TPvcPatch? && c.item in p.pc.todo
    requires c.item in w.pvcs ==> w.pvcs[c.item] == p.pc.todo[c.item]
    ensures var call := (p.px.uid in p.pc.todo[c.item].owners) != MarksPvcs(p.px);
            var w1 := Commit(w, n, TerminateMove(w, n, p, c.outcome, c.item).effect);
            ItemPatched(w, w1, p, c.item, call && c.outcome != Ok) && w1.secrets == w.secrets
  {
    PvcPatchMove(w, n, p, c, p.px, p.pc.todo, p.pc.failed, p.pc.todo - {c.item});
    assert MoveOf(w, n, p, c) == TerminateMove(w, n, p, c.outcome, c.item);
    hide MoveOf, TerminateMove;
  }

  /** After the patch of one item, that item is done and every other one is as it was. */
  lemma OwnPvcItem(w: State, w1: State, n: Name, p: Pass, v: Name, q: Pass)
    requires PvcOk(w, n, p) && p.pc.TPvcPatch? && v in p.pc.todo
    requires v in w.pvcs ==> w.pvcs[v] == p.pc.todo[v]
    requires q.px == p.px && q.listed == p.listed && PvcsListed(q) && Todo(q) == p.pc.todo - {v}
    requires SomeFailed(p) ==> SomeFailed(q)
    requires ItemPatched(w, w1, p, v, SomeFailed(q))
    ensures PvcOk(w1, n, q)
  {
    forall u | StillListed(w1, q, u) ensures StillListed(w, p, u) { }
    forall u | u in w1.pvcs && w1.pvcs[u].labelled == Some(n) && p.px.uid in w1.pvcs[u].owners ensures StillListed(w1, q, u) {
      if u != v { assert StillListed(w, p, u); }
    }
  }

  lemma OwnFreshPatch(w: State, n: Name, p: Pass, c: Choice)
    requires PvcOk(w, n, p) && SecretOk(w, p) && p.pc.TPvcPatch?
    requires c.item in p.pc.todo && c.item in w.pvcs ==> w.pvcs[c.item] == p.pc.todo[c.item]
    ensures var m := TerminateMove(w, n, p, c.outcome, c.item);
            StepsTo(w, n, Commit(w, n, m.effect), m.next)
  {
    var m := TerminateMove(w, n, p, c.outcome, c.item);
    if c.item in p.pc.todo && m.next.Go? {
      PvcPatchMove(w, n, p, c, p.px, p.pc.todo, p.pc.failed, p.pc.todo - {c.item});
      assert MoveOf(w, n, p, c) == m;
      PatchEffect(w, n, p, c);
      hide MoveOf, TerminateMove, Commit;
      OwnPvcItem(w, Commit(w, n, m.effect), n, p, c.item, m.next.pass);
    }
  }

  /** A replacement of the listed PVC is not the listed one, whatever becomes of its owners. */
  lemma OwnReplaced(w: State, w1: State, n: Name, p: Pass, v: Name, q: Pass)
    requires PvcOk(w, n, p) && p.pc.TPvcPatch? && v in p.pc.todo && v in w.pvcs && w.pvcs[v].id != p.pc.todo[v].id
    requires q.px == p.px && q.listed == p.listed && PvcsListed(q) && Todo(q) == p.pc.todo - {v}
    requires SomeFailed(p) ==> SomeFailed(q)
    requires w1.nextId == w.nextId && w1.pvcs.Keys == w.pvcs.Keys
    requires forall u :: u in w.pvcs && u != v ==> w1.pvcs[u] == w.pvcs[u]
    requires w1.pvcs[v].id == w.pvcs[v].id && w1.pvcs[v].labelled == w.pvcs[v].labelled
    requires w1.pvcs[v].labelled == Some(n) ==> w1.pvcs[v] == w.pvcs[v] || p.px.uid !in w1.pvcs[v].owners
    ensures PvcOk(w1, n, q)
  {
    assert !StillListed(w, p, v);
    forall u | StillListed(w1, q, u) ensures StillListed(w, p, u) && u != v { }
    forall u | u in w1.pvcs && w1.pvcs[u].labelled == Some(n) && p.px.uid in w1.pvcs[u].owners ensures StillListed(w1, q, u) {
      assert w1.pvcs[u] == w.pvcs[u];
      assert StillListed(w, p, u);
    }
  }

  lemma OwnStalePatch(w: State, n: Name, p: Pass, c: Choice)
    requires n in w.passes && w.passes[n] == p && PvcHarmless(w, Do(n, c))
    requires PvcOk(w, n, p) && SecretOk(w, p) && p.pc.TPvcPatch?
    requires c.item in p.pc.todo && c.item in w.pvcs && w.pvcs[c.item].id != p.pc.todo[c.item].id
    ensures var m := TerminateMove(w, n, p, c.outcome, c.item);
            StepsTo(w, n, Commit(w, n, m.effect), m.next)
  {
    hide MoveOf, TerminateMove, ReliesOn, PvcOk, SecretOk;
    var m := TerminateMove(w, n, p, c.outcome, c.item);
    TerminatesByMove(w, n, p, c);
    if m.next.Go? {
      PvcPatchMove(w, n, p, c, p.px, p.pc.todo, p.pc.failed, p.pc.todo - {c.item});
      KeepsListed(w, n, p, c);
      OwnReplaced(w, Commit(w, n, m.effect), n, p, c.item, m.next.pass);
      SecretPast(w, Commit(w, n, m.effect), p, m.next.pass);
    }
  }

  lemma SecretPast(w: State, w1: State, p: Pass, q: Pass)
    requires SecretOk(w, p) && p.pc.TPvcPatch? && w1.secrets == w.secrets && w1.nextId == w.nextId
    requires q.px == p.px && q.got == p.got && (q.pc.TPvcPatch? || q.pc == AfterPvcsAt(p.px))
    ensures SecretOk(w1, q)
  {
  }

  lemma KeepsListed(w: State, n: Name, p: Pass, c: Choice)
    requires p.pc.TPvcPatch? && MoveOf(w, n, p, c).next.Go?
    ensures var q := MoveOf(w, n, p, c).next.pass;
            q.px == p.px && q.listed == p.listed && q.got == p.got
  {
  }

  lemma OwnPvcPatch(w: State, n: Name, p: Pass, c: Choice)
    requires n in w.passes && w.passes[n] == p && PvcHarmless(w, Do(n, c))
    requires PvcOk(w, n, p) && SecretOk(w, p) && p.pc.TPvcPatch?
    ensures var m := TerminateMove(w, n, p, c.outcome, c.item);
            StepsTo(w, n, Commit(w, n, m.effect), m.next)
  {
    if c.item in p.pc.todo && c.item in w.pvcs && w.pvcs[c.item].id != p.pc.todo[c.item].id {
      OwnStalePatch(w, n, p, c);
    } else {
      if c.item in p.pc.todo && c.item in w.pvcs { assert StillListed(w, p, c.item); }
      hide TerminateMove, Commit;
      OwnFreshPatch(w, n, p, c);
    }
  }

  lemma OwnKeeps(w: State, n: Name, c: Choice)
    requires IdsOk(w) && OwnershipOk(w, n) && PvcHarmless(w, Do(n, c))
    ensures OwnershipOk(StepPass(w, n, c), n)
  {
    if n in w.passes {
      var p := w.passes[n];
      var m := MoveOf(w, n, p, c);
      PassContinues(w, n, p, c);
      hide PvcHarmless, MoveOf;
      if p.pc.Terminates() { OwnTerminates(w, n, p, c); }
      OwnSettles(w, n, p, m);
    }
  }

  lemma OwnTerminates(w: State, n: Name, p: Pass, c: Choice)
    requires IdsOk(w) && n in w.passes && w.passes[n] == p && p.pc.Terminates()
    requires OwnershipOk(w, n) && PvcHarmless(w, Do(n, c))
    ensures var m := MoveOf(w, n, p, c);
            StepsTo(w, n, Commit(w, n, m.effect), m.next)
  {
    hide PvcOk, SecretOk, PvcHarmless;
    match p.pc
    case TPvcList => OwnList(w, n, p, c);
    case TPeers => PeersMark(w, p); OwnSecretGet(w, n, p, c);
    case TSecretGet => OwnSecretGet(w, n, p, c);
    case TSecretPatch(_) => OwnSecretPatch(w, n, p, c);
    case TPvcPatch(_, _) => OwnPvcPatch(w, n, p, c);
    case TFinalizer =>
  }

  lemma PeersMark(w: State, p: Pass)
    requires SecretOk(w, p) && p.pc.TPeers?
    ensures MarksPvcs(p.px)
  {
  }

  lemma OwnSettles(w: State, n: Name, p: Pass, m: Move)
    requires n in w.passes && w.passes[n] == p && Continues(p, m)
    requires p.pc.Terminates() ==> StepsTo(w, n, Commit(w, n, m.effect), m.next)
    ensures OwnershipOk(Settle(Commit(w, n, m.effect), n, p, m.next), n)
  {
    var w1 := Commit(w, n, m.effect);
    hide Commit;
    var w' := Settle(w1, n, p, m.next);
    if m.next.Go? && m.next.pass.pc.Terminates() {
      PvcFrame(w1, w', n, m.next.pass);
      SecretFrame(w1, w', m.next.pass);
    }
  }

  /* ---- the invariants that are not about one name ---- */

  lemma PvcPatchStores(w: State, n: Name, c: Choice)
    requires StoresOk(w) && NameOk(w, n) && OwnershipOk(w, n) && SnapshotsOk(w, n) && PvcHarmless(w, Do(n, c)) && n in w.passes
    requires MoveOf(w, n, w.passes[n], c).effect.PutPvc?
    ensures StoresOk(Commit(w, n, MoveOf(w, n, w.passes[n], c).effect))
  {
    PvcWrites(w, n, w.passes[n], c);
    WritesAsked(w, n, w.passes[n], c);
    hide MoveOf, HistoryOk, AuditOk, ReliesOn;
    var p := w.passes[n];
    assert (n, p.px.uid) in w.audit.terminating;
    if w.pvcs[c.item].id == p.pc.todo[c.item].id { assert StillListed(w, p, c.item); }
  }

  lemma SecretWriteStores(w: State, n: Name, c: Choice)
    requires StoresOk(w) && n in w.passes
    requires MoveOf(w, n, w.passes[n], c).effect.PutSecret?
    ensures StoresOk(Commit(w, n, MoveOf(w, n, w.passes[n], c).effect))
  {
    SecretWrites(w, n, w.passes[n], c);
    hide MoveOf;
  }

  lemma OtherEffectStores(w: State, n: Name, e: Effect)
    requires StoresOk(w) && !e.PutPvc? && !e.PutSecret?
    ensures StoresOk(Commit(w, n, e))
  {
  }

  lemma CommitStores(w: State, n: Name, c: Choice)
    requires StoresOk(w) && NameOk(w, n) && OwnershipOk(w, n) && SnapshotsOk(w, n) && PvcHarmless(w, Do(n, c)) && n in w.passes
    ensures StoresOk(Commit(w, n, MoveOf(w, n, w.passes[n], c).effect))
  {
    hide MoveOf, Commit, StoresOk, NameOk, OwnershipOk, SnapshotsOk, PvcHarmless;
    var e := MoveOf(w, n, w.passes[n], c).effect;
    if e.PutPvc? { PvcPatchStores(w, n, c); }
    else if e.PutSecret? { SecretWriteStores(w, n, c); }
    else { OtherEffectStores(w, n, e); }
  }

  lemma StoresFrame(w: State, w': State)
    requires StoresOk(w) && w'.pvcs == w.pvcs && w'.secrets == w.secrets
    requires w.nextId <= w'.nextId && w.audit.terminating <= w'.audit.terminating
    ensures StoresOk(w')
  {
  }

  lemma ObjectStores(w: State, e: Event)
    requires StoresOk(w)
    ensures StoresOk(ObjectStep(w, e))
  {
  }

  lemma StoresKeep(w: State, e: Event)
    requires StoresOk(w) && PvcHarmless(w, e)
    requires e.Do? ==> NameOk(w, e.n) && OwnershipOk(w, e.n) && SnapshotsOk(w, e.n)
    ensures StoresOk(Step(w, e))
  {
    hide Step, StoresOk, PvcHarmless, NameOk, OwnershipOk, SnapshotsOk, MoveOf, Commit, Settle, UserStep, ObjectStep;
    AuditGrows(w, e);
    if e.Do? {
      if e.n in w.passes {
        var m := MoveOf(w, e.n, w.passes[e.n], e.choice);
        DoIs(w, e.n, e.choice);
        CommitStores(w, e.n, e.choice);
        SettleGrows(Commit(w, e.n, m.effect), e.n, w.passes[e.n], m.next);
        SettleStores(Commit(w, e.n, m.effect), e.n, w.passes[e.n], m.next);
        StoresFrame(Commit(w, e.n, m.effect), Step(w, e));
      } else {
        NothingToDo(w, e);
      }
    } else if IsUser(e) {
      UserIs(w, e);
      UserStepsAreSame(w, e);
      StoresFrame(w, Step(w, e));
    } else if e.Sync? || e.Take? || e.Crash? {
      QuietStores(w, e);
      StoresFrame(w, Step(w, e));
    } else {
      ObjectIs(w, e);
      ObjectStores(w, e);
    }
  }

  lemma OwnershipKeeps(w: State, e: Event, n: Name)
    requires NameOk(w, n) && StoresOk(w) && OwnershipOk(w, n) && Harmless(w, e)
    requires e.Do? ==> NameOk(w, e.n) && OwnershipOk(w, e.n)
    ensures OwnershipOk(Step(w, e), n)
  {
    hide NameOk, OwnershipOk, PvcHarmless, SecretHarmless;
    if e.Do? {
      if e.n == n { OwnKeeps(w, n, e.choice); } else { DoElsewhereOwnership(w, e.n, e.choice, n); }
    } else {
      if n in Step(w, e).passes && e != Take(n) { EventPasses(w, e, n); }
      EventOwnership(w, e, n);
    }
  }

  lemma ListSnapshots(w: State, n: Name, p: Pass, c: Choice, v: Name)
    requires MoveOf(w, n, p, c).next.Go? && v in Todo(MoveOf(w, n, p, c).next.pass)
    ensures var q := MoveOf(w, n, p, c).next.pass;
      || (p.pc.TPvcPatch? && v in p.pc.todo && Todo(q)[v] == p.pc.todo[v])
      || (v in w.pvcs && w.pvcs[v].labelled == Some(n) && Todo(q)[v] == w.pvcs[v])
  {
    if p.pc.Creates() { CreateContinues(w, n, p, c); } else if p.pc.Halts() { HaltContinues(w, n, p, c); }
  }

  lemma OwnSnapshots(w: State, n: Name, c: Choice)
    requires MarkedByLabel(w) && SnapshotsOk(w, n) && n in w.passes
    ensures SnapshotsOk(Step(w, Do(n, c)), n)
  {
    hide MoveOf, Commit, Settle;
    var p := w.passes[n];
    var m := MoveOf(w, n, p, c);
    var w' := Step(w, Do(n, c));
    AuditGrows(w, Do(n, c));
    DoIs(w, n, c);
    hide Step;
    if n in w'.passes {
      SettlePasses(Commit(w, n, m.effect), n, p, m.next, n);
      forall v, u: nat | v in Todo(w'.passes[n]) && u in Todo(w'.passes[n])[v].owners ensures (n, u) in w'.audit.terminating {
        ListSnapshots(w, n, p, c, v);
        assert p.pc.TPvcPatch? && v in p.pc.todo ==> v in Todo(w.passes[n]) && Todo(w.passes[n])[v] == p.pc.todo[v];
      }
    }
  }

  lemma OtherSnapshots(w: State, e: Event, n: Name)
    requires SnapshotsOk(w, n) && !(e.Do? && e.n == n)
    ensures SnapshotsOk(Step(w, e), n)
  {
    AuditGrows(w, e);
    var w' := Step(w, e);
    hide Step;
    if n in w'.passes {
      if e.Do? {
        if e.n in w.passes { OtherPassStays(w, e.n, e.choice, n); } else { NothingToDo(w, e); }
      } else {
        EventPasses(w, e, n);
        if n !in w.passes { TakeIs(w, n); }
      }
    }
  }

  lemma OtherPassStays(w: State, m: Name, c: Choice, n: Name)
    requires m in w.passes && m != n && n in Step(w, Do(m, c)).passes
    ensures n in w.passes && Step(w, Do(m, c)).passes[n] == w.passes[n]
  {
    hide MoveOf, Commit, Settle;
    var move := MoveOf(w, m, w.passes[m], c);
    DoIs(w, m, c);
    CommitPasses(w, m, move.effect);
    SettlePasses(Commit(w, m, move.effect), m, w.passes[m], move.next, n);
  }

  lemma SnapshotsKeep(w: State, e: Event, n: Name)
    requires MarkedByLabel(w) && SnapshotsOk(w, n)
    ensures SnapshotsOk(Step(w, e), n)
  {
    hide Step, SnapshotsOk, MarkedByLabel;
    if e.Do? && e.n == n {
      if n in w.passes { OwnSnapshots(w, n, e.choice); } else { NothingToDo(w, e); }
    } else {
      OtherSnapshots(w, e, n);
    }
  }

  lemma HarmlessKeeps(w: State, e: Event)
    requires (forall n: Name :: NameOk(w, n)) && Kept(w) && Harmless(w, e)
    ensures Kept(Step(w, e))
  {
    hide NameOk, StoresOk, OwnershipOk, SnapshotsOk, Step, PvcHarmless, SecretHarmless;
    if e.Do? { assert NameOk(w, e.n) && OwnershipOk(w, e.n) && SnapshotsOk(w, e.n); }
    StoresKeep(w, e);
    forall n: Name ensures OwnershipOk(Step(w, e), n) && SnapshotsOk(Step(w, e), n) {
      assert NameOk(w, n) && OwnershipOk(w, n) && SnapshotsOk(w, n);
      OwnershipKeeps(w, e, n);
      StoresMarked(w);
      SnapshotsKeep(w, e, n);
    }
  }

  lemma StoresMarked(w: State)
    requires StoresOk(w)
    ensures MarkedByLabel(w)
  {
  }

  lemma KeptInitially()
    ensures Kept(Initial)
  {
  }

  lemma {:induction false} OwnershipHolds(ws: seq<State>, es: seq<Event>, i: nat, k: nat)
    requires IsRun(ws, es) && Between(ws, es, i, k, Harmless) && Kept(ws[i])
    ensures Kept(ws[k])
  {
    hide NameOk, Kept, Step, Harmless;
    if i < k {
      OwnershipHolds(ws, es, i, k - 1);
      var w := ws[k - 1];
      forall n: Name ensures NameOk(w, n) { ProtocolHolds(ws, es, k - 1, n); }
      assert Goes(ws, es, k - 1);
      KeptExactly(w, es[k - 1]);
    }
  }

  /** No patch has done harm since references were in order, as they are in the beginning (`KeptInitially`). */
  ghost predicate NoHarm(ws: seq<State>, es: seq<Event>, i: nat, k: nat) {
    IsRun(ws, es) && Between(ws, es, i, k, Harmless) && Kept(ws[i])
  }

  lemma HoldsForName(ws: seq<State>, es: seq<Event>, i: nat, k: nat, n: Name)
    requires NoHarm(ws, es, i, k)
    ensures StoresOk(ws[k]) && OwnershipOk(ws[k], n)
  {
    OwnershipHolds(ws, es, i, k);
    hide StoresOk, OwnershipOk, SnapshotsOk;
  }

  /** A patch applied to the object as it was read does no harm. */
  lemma FreshIsHarmless(w: State, e: Event)
    requires Kept(w) && Fresh(w, e)
    ensures Harmless(w, e)
  {
    hide ReliesOn, Needs, OwnershipOk, SnapshotsOk, StoresOk;
  }

  /* ---- every other patch does harm ---- */

  lemma AuditSame(w: State, n: Name, c: Choice)
    requires n in w.passes
    ensures Step(w, Do(n, c)).audit.terminating == w.audit.terminating
  {
    hide MoveOf, Commit, Settle, Step;
    var m := MoveOf(w, n, w.passes[n], c);
    DoIs(w, n, c);
    CommitAudit(w, n, m.effect);
    SettleAudit(Commit(w, n, m.effect), n, w.passes[n], m.next);
  }

  lemma CommitAudit(w: State, n: Name, e: Effect)
    ensures Commit(w, n, e).audit.terminating == w.audit.terminating
  {
  }

  lemma SettleAudit(w: State, n: Name, p: Pass, next: Next)
    ensures Settle(w, n, p, next).audit.terminating == w.audit.terminating
  {
  }

  lemma OthersStay(w: State, n: Name, c: Choice, m: Name)
    requires n in w.passes && m in w.passes && m != n && !MoveOf(w, n, w.passes[n], c).next.Panic?
    ensures m in Step(w, Do(n, c)).passes && Step(w, Do(n, c)).passes[m] == w.passes[m]
  {
    hide MoveOf, Commit;
    DoIs(w, n, c);
    CommitPasses(w, n, MoveOf(w, n, w.passes[n], c).effect);
    hide Step;
  }

  /** What a patch of a replacement leaves. */
  lemma ReplacementPatched(w: State, n: Name, c: Choice)
    requires HitsReplacement(w, Do(n, c))
    ensures var p, w' := w.passes[n], Step(w, Do(n, c));
      && c.item in w'.pvcs
      && w'.pvcs[c.item] == w.pvcs[c.item].(owners := Patched(p.pc.todo[c.item].owners, MarksPvcs(p.px), p.px.uid))
      && !MoveOf(w, n, p, c).next.Panic?
      && (LoopGoesOn(p, c) ==>
            && n in w'.passes && w'.passes[n].px == p.px && w'.passes[n].listed == p.listed
            && w'.passes[n].pc.Terminates() && (MarksPvcs(p.px) ==> PvcsListed(w'.passes[n])))
  {
    hide MoveOf, Step;
    var p := w.passes[n];
    PvcPatchMove(w, n, p, c, p.px, p.pc.todo, p.pc.failed, p.pc.todo - {c.item});
    StepMoves(w, n, c);
    RestEmpty(p.pc.todo, c.item);
    if MoveOf(w, n, p, c).next.Go? { KeepsListed(w, n, p, c); }
  }

  lemma RestEmpty(todo: map<Name, Pvc>, v: Name)
    requires v in todo
    ensures todo.Keys == {v} <==> todo - {v} == map[]
  {
    if todo - {v} == map[] { assert forall u :: u in todo ==> u == v || u in todo - {v}; }
  }

  /** Marking a same-named replacement of its own leaves a mark the pass has not listed. */
  lemma MarkingOwnBreaks(w: State, n: Name, c: Choice)
    requires OwnershipOk(w, n) && HitsReplacement(w, Do(n, c)) && w.pvcs[c.item].labelled == Some(n)
    requires MarksPvcs(w.passes[n].px) && LoopGoesOn(w.passes[n], c)
    ensures !OwnershipOk(Step(w, Do(n, c)), n)
  {
    hide Step, LoopGoesOn;
    var p, w' := w.passes[n], Step(w, Do(n, c));
    ReplacementPatched(w, n, c);
    assert p.px.uid in w'.pvcs[c.item].owners && !StillListed(w', w'.passes[n], c.item);
    assert !PvcOk(w', n, w'.passes[n]);
    hide PvcOk;
  }

  /** An owner left on a PVC with another label does not belong there. */
  lemma ForeignOwnerBreaks(w: State, n: Name, c: Choice, u: nat)
    requires (forall m: Name :: NameOk(w, m)) && SnapshotsOk(w, n) && HitsReplacement(w, Do(n, c))
    requires w.pvcs[c.item].labelled != Some(n)
    requires u in Patched(w.passes[n].pc.todo[c.item].owners, MarksPvcs(w.passes[n].px), w.passes[n].px.uid)
    ensures !MarkedByLabel(Step(w, Do(n, c)))
  {
    hide Step, NameOk, MarkedByLabel;
    var p, w' := w.passes[n], Step(w, Do(n, c));
    ReplacementPatched(w, n, c);
    AuditSame(w, n, c);
    assert NameOk(w, n);
    PatchedOwner(w, n, c, u);
    if MarkedByLabel(w') {
      LabelOf(w', c.item, u);
      var m := w'.pvcs[c.item].labelled.value;
      assert NameOk(w, m);
      OneName(w, n, m, u);
      assert false;
    }
  }

  lemma LabelOf(w: State, v: Name, u: nat)
    requires MarkedByLabel(w) && v in w.pvcs && u in w.pvcs[v].owners
    ensures w.pvcs[v].labelled.Some? && (w.pvcs[v].labelled.value, u) in w.audit.terminating
  {
  }

  lemma PatchedOwner(w: State, n: Name, c: Choice, u: nat)
    requires NameOk(w, n) && SnapshotsOk(w, n) && HitsReplacement(w, Do(n, c))
    requires u in Patched(w.passes[n].pc.todo[c.item].owners, MarksPvcs(w.passes[n].px), w.passes[n].px.uid)
    ensures (n, u) in w.audit.terminating
  {
    hide HistoryOk, AuditOk;
    assert Todo(w.passes[n])[c.item] == w.passes[n].pc.todo[c.item];
  }

  lemma OneName(w: State, n: Name, m: Name, u: nat)
    requires NameOk(w, n) && NameOk(w, m) && (n, u) in w.audit.terminating && (m, u) in w.audit.terminating
    ensures n == m
  {
  }

  lemma RelyingIsAnother(w: State, n: Name, c: Choice, m: Name)
    requires OwnershipOk(w, n) && HitsReplacement(w, Do(n, c)) && m in w.passes && ReliesOn(w, w.passes[m], c.item)
    ensures m != n
  {
    assert PvcOk(w, n, w.passes[n]);
    assert Todo(w.passes[n])[c.item].id == w.passes[n].listed[c.item];
  }

  /** Taking away what another pass relies on. */
  lemma StrippingBreaks(w: State, n: Name, c: Choice, m: Name)
    requires OwnershipOk(w, n) && OwnershipOk(w, m) && HitsReplacement(w, Do(n, c)) && m in w.passes && ReliesOn(w, w.passes[m], c.item)
    requires Patched(w.passes[n].pc.todo[c.item].owners, MarksPvcs(w.passes[n].px), w.passes[n].px.uid) == {}
    ensures !OwnershipOk(Step(w, Do(n, c)), m)
  {
    hide Step;
    var p, w' := w.passes[m], Step(w, Do(n, c));
    ReplacementPatched(w, n, c);
    RelyingIsAnother(w, n, c, m);
    OthersStay(w, n, c, m);
    assert w'.pvcs[c.item].owners == {} && StillListed(w', p, c.item);
    assert !PvcOk(w', m, p);
    hide PvcOk;
  }

  lemma HarmfulPvcBreaks(w: State, e: Event)
    requires (forall n: Name :: NameOk(w, n)) && Kept(w) && !PvcHarmless(w, e)
    ensures !Kept(Step(w, e))
  {
    hide NameOk, OwnershipOk, SnapshotsOk, StoresOk, Step, LoopGoesOn;
    var n, c := e.n, e.choice;
    var p, v := w.passes[n], c.item;
    assert OwnershipOk(w, n) && SnapshotsOk(w, n);
    if w.pvcs[v].labelled == Some(n) {
      MarkingOwnBreaks(w, n, c);
    } else {
      var owners := Patched(p.pc.todo[v].owners, MarksPvcs(p.px), p.px.uid);
      if owners != {} {
        var u :| u in owners;
        ForeignOwnerBreaks(w, n, c, u);
        if StoresOk(Step(w, e)) {
          StoresMarked(Step(w, e));
          assert false;
        }
      } else {
        OnlyOwn(p, v);
        var m :| m in w.passes && ReliesOn(w, w.passes[m], v);
        assert OwnershipOk(w, m);
        StrippingBreaks(w, n, c, m);
      }
    }
  }

  lemma OnlyOwn(p: Pass, v: Name)
    requires p.pc.TPvcPatch? && v in p.pc.todo && AsksPatch(p, v)
    requires Patched(p.pc.todo[v].owners, MarksPvcs(p.px), p.px.uid) == {}
    ensures !MarksPvcs(p.px) && p.pc.todo[v].owners == {p.px.uid}
  {
    var before := p.pc.todo[v].owners;
    assert p.px.uid in before + {p.px.uid};
    if !MarksPvcs(p.px) {
      assert forall u :: u in before ==> u == p.px.uid || u in before - {p.px.uid};
    }
  }

  lemma SecretStepped(w: State, n: Name, c: Choice)
    requires n in w.passes && w.passes[n].pc.TSecretPatch? && c.outcome.Applied() && SecretName(w.passes[n].px) in w.secrets
    ensures var p, w', s := w.passes[n], Step(w, Do(n, c)), SecretName(w.passes[n].px);
      && s in w'.secrets
      && w'.secrets[s] == w.secrets[s].(owners := Patched(p.pc.snapshot, MarksSecret(p.px), p.px.uid))
      && !MoveOf(w, n, p, c).next.Panic?
  {
    hide MoveOf, Step, TerminateMove;
    var p := w.passes[n];
    SecretPatchNext(w, n, p, c);
    TerminatesByMove(w, n, p, c);
    StepMoves(w, n, c);
  }

  lemma TerminatesByMove(w: State, n: Name, p: Pass, c: Choice)
    requires p.pc.Terminates()
    ensures MoveOf(w, n, p, c) == TerminateMove(w, n, p, c.outcome, c.item)
  {
  }

  lemma HarmfulSecretBreaks(w: State, e: Event)
    requires (forall n: Name :: NameOk(w, n)) && Kept(w) && !SecretHarmless(w, e)
    ensures !Kept(Step(w, e))
  {
    hide NameOk, OwnershipOk, SnapshotsOk, StoresOk, Step;
    var n, c := e.n, e.choice;
    var s := SecretName(w.passes[n].px);
    var m :| m in w.passes && m != n && Needs(w, w.passes[m], s) &&
      !(w.passes[m].px.uid in w.passes[n].pc.snapshot <==> w.passes[m].px.uid in w.secrets[s].owners);
    assert NameOk(w, n) && NameOk(w, m) && OwnershipOk(w, m);
    DistinctUids(w, n, m);
    SecretStepped(w, n, c);
    OthersStay(w, n, c, m);
    NeedyBreaks(w, Step(w, e), m, s);
  }

  lemma NeedyBreaks(w: State, w': State, m: Name, s: Name)
    requires m in w.passes && m in w'.passes && w'.passes[m] == w.passes[m] && OwnershipOk(w, m) && Needs(w, w.passes[m], s)
    requires s in w'.secrets && w'.secrets[s].id == w.secrets[s].id
    requires !(w.passes[m].px.uid in w'.secrets[s].owners <==> w.passes[m].px.uid in w.secrets[s].owners)
    ensures !OwnershipOk(w', m)
  {
    hide PvcOk;
  }

  /**
   From a state in which owner references are in order, a step keeps them so if and only if the patch
   it makes, if any, is harmless.
   */
  lemma KeptExactly(w: State, e: Event)
    requires (forall n: Name :: NameOk(w, n)) && Kept(w)
    ensures Kept(Step(w, e)) <==> Harmless(w, e)
  {
    hide NameOk, Kept, Step, PvcHarmless, SecretHarmless;
    if Harmless(w, e) { HarmlessKeeps(w, e); }
    else if PvcHarmless(w, e) { HarmfulSecretBreaks(w, e); }
    else { HarmfulPvcBreaks(w, e); }
  }

  /* ---- the theorems ---- */

  /**
   When a pass is about to remove the finalizer, owner references are as the policy it read wants,
   however many earlier passes stopped midway under other policies: with Halt nothing refers to the
   database; otherwise exactly the PVCs it selected and that are still there do. Its own secret is
   referred to under WipeOut if the pass went on to read it, and never under another policy.
   */
  lemma ReferencesMatchPolicy(ws: seq<State>, es: seq<Event>, i: nat, k: nat, n: Name)
    requires NoHarm(ws, es, i, k)
    requires n in ws[k].passes && ws[k].passes[n].pc.TFinalizer?
    ensures var w, p := ws[k], ws[k].passes[n];
            && (forall v :: v in w.pvcs ==>
                  (p.px.uid in w.pvcs[v].owners <==> p.px.spec.policy != Policy.Halt && StillListed(w, p, v)))
            && (p.px.spec.secret.Some? && p.px.spec.secret.value in w.secrets ==>
                  var x := w.secrets[p.px.spec.secret.value];
                  if p.px.spec.policy == WipeOut then p.got == Some(x.id) ==> p.px.uid in x.owners
                  else p.px.uid !in x.owners)
  {
    var w, p := ws[k], ws[k].passes[n];
    HoldsForName(ws, es, i, k, n);
    ProtocolHolds(ws, es, k, n);
    forall v | v in w.pvcs && p.px.uid in w.pvcs[v].owners ensures StillListed(w, p, v) {
      var m := w.pvcs[v].labelled.value;
      ProtocolHolds(ws, es, k, m);
      assert m == n;
    }
  }

  lemma PeersNext(w: State, n: Name, p: Pass, c: Choice)
    requires p.pc == TPeers && c.outcome == Ok
    ensures MoveOf(w, n, p, c) ==
      Move(Quiet, At(p, if p.px.spec.secret.None? || UsedByPeers(w, n, SecretName(p.px)) then TPvcList else TSecretGet))
  {
  }

  lemma ReadNext(w: State, n: Name, p: Pass, c: Choice)
    requires p.pc == TSecretGet && c.outcome == Ok && SecretName(p.px) in w.secrets
    ensures var m := MoveOf(w, n, p, c);
            m.next.Go? && m.next.pass.got == Some(w.secrets[SecretName(p.px)].id) && m.next.pass.px == p.px
  {
  }

  /** The lister has a database of another name that refers to the secret. */
  ghost predicate PeerListed(w: State, n: Name, s: Name) {
    exists m: Name :: m != n && Cached(w, m).Some? && Cached(w, m).value.spec.secret == Some(s)
  }

  lemma PeersAreListed(w: State, n: Name, s: Name)
    ensures UsedByPeers(w, n, s) <==> PeerListed(w, n, s)
  {
  }

  /** Under WipeOut the pass goes on to read its secret if and only if the lister shows no peer using it. */
  lemma WipeOutReadsExactly(w: State, n: Name, c: Choice)
    requires n in w.passes && w.passes[n].pc == TPeers && w.passes[n].got == None && c.outcome == Ok
    requires w.passes[n].px.spec.secret.Some? && SecretName(w.passes[n].px) in w.secrets
    ensures var s, w1 := SecretName(w.passes[n].px), Step(w, Do(n, c));
      && n in w1.passes
      && (w1.passes[n].pc == TSecretGet <==> !PeerListed(w, n, s))
      && (PeerListed(w, n, s) ==> w1.passes[n].pc == TPvcList && w1.passes[n].got == None)
      && (!PeerListed(w, n, s) ==>
            n in Step(w1, Do(n, c)).passes && Step(w1, Do(n, c)).passes[n].got == Some(w.secrets[s].id))
  {
    hide MoveOf, Step, UsedByPeers, PeerListed;
    var w1 := Step(w, Do(n, c));
    PeersAreListed(w, n, SecretName(w.passes[n].px));
    PeersNext(w, n, w.passes[n], c);
    StepMoves(w, n, c);
    if w1.passes[n].pc == TSecretGet {
      ReadNext(w1, n, w1.passes[n], c);
      StepMoves(w1, n, c);
    }
  }

  /** The selection: what `List` returned is every PVC labelled with the database's name. */
  lemma SelectsLabelled(w: State, n: Name, p: Pass, c: Choice)
    requires p.pc.TPvcList? && MoveOf(w, n, p, c).next.Go?
    ensures var q := MoveOf(w, n, p, c).next.pass;
            forall v :: StillListed(w, q, v) <==> v in w.pvcs && w.pvcs[v].labelled == Some(n)
  {
  }

  /** Under any policy but Halt, once the database is gone every PVC it selected can be collected. */
  lemma SelectedPvcsCollectable(ws: seq<State>, es: seq<Event>, i: nat, k: nat, n: Name, c: Choice, v: Name)
    requires NoHarm(ws, es, i, k)
    requires n in ws[k].passes && ws[k].passes[n].pc.TFinalizer?
    requires ws[k].passes[n].px.spec.policy != Policy.Halt && StillListed(ws[k], ws[k].passes[n], v)
    requires Current(Step(ws[k], Do(n, c)), n).None?
    ensures var w' := Step(ws[k], Do(n, c));
            v in w'.pvcs && Collectable(w', w'.pvcs[v].owners)
  {
    var w, w' := ws[k], Step(ws[k], Do(n, c));
    ReferencesMatchPolicy(ws, es, i, k, n);
    HoldsForName(ws, es, i, k, n);
    FinalStepStores(w, n, c);
    forall u | u in w.pvcs[v].owners ensures u !in LiveUids(w') {
      var m := w.pvcs[v].labelled.value;
      ProtocolHolds(ws, es, k, m);
      ProtocolHolds(ws, es, k, n);
      assert m == n;
      forall other | other in w'.hist && Current(w', other).Some? ensures Current(w', other).value.uid != u {
        ProtocolHolds(ws, es, k, other);
        assert other != n ==> History(w', other) == History(w, other);
      }
    }
  }

  lemma FinalWrite(w: State, n: Name, p: Pass, c: Choice)
    requires p.pc.TFinalizer?
    ensures var m := MoveOf(w, n, p, c);
      && !m.next.Go?
      && (m.effect.Quiet? || (Current(w, n).Some? && m.effect == PutDatabase(Current(w, n).value.(finalizer := false))))
  {
  }

  lemma FinalStepStores(w: State, n: Name, c: Choice)
    requires n in w.passes && w.passes[n].pc.TFinalizer?
    ensures var w' := Step(w, Do(n, c));
      w'.pvcs == w.pvcs && w'.secrets == w.secrets && forall m: Name :: m != n ==> History(w', m) == History(w, m)
  {
    hide MoveOf, Step;
    FinalWrite(w, n, w.passes[n], c);
    StepMoves(w, n, c);
  }
}
