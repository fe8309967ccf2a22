/**
 The fate of a database's secret: whose owner references a secret can carry, when a WipeOut pass
 leaves its own, and when garbage collection may take the secret once the database is gone.
 */
module WipeOuts {
  import opened Options
  import opened Cluster
  import opened Passes
  import opened Finalizers
  import opened Ownership
  import opened SharedSecrets

  /* ---- only databases being deleted own secrets ---- */

  /** Some reconcile has entered `terminate` for this uid. */
  ghost predicate Doomed(w: State, u: nat) { exists m: Name :: (m, u) in w.audit.terminating }

  /** The owners of every secret, and those in every copy about to be patched, are doomed. */
  ghost predicate OwnersDoomed(w: State) {
    && (forall s, u: nat :: s in w.secrets && u in w.secrets[s].owners ==> Doomed(w, u))
    && (forall n, u: nat :: n in w.passes && w.passes[n].pc.TSecretPatch? && u in w.passes[n].pc.snapshot ==> Doomed(w, u))
  }

  lemma DoomedStays(w: State, e: Event, u: nat)
    requires Doomed(w, u)
    ensures Doomed(Step(w, e), u)
  {
    AuditGrows(w, e);
    hide Step;
    var m: Name :| (m, u) in w.audit.terminating;
    assert (m, u) in Step(w, e).audit.terminating;
  }

  /** A pass gets to patch a secret only from reading it. */
  lemma SnapshotIsRead(w: State, n: Name, p: Pass, c: Choice)
    requires MoveOf(w, n, p, c).next.Go? && MoveOf(w, n, p, c).next.pass.pc.TSecretPatch?
    ensures SecretName(p.px) in w.secrets && MoveOf(w, n, p, c).next.pass.pc.snapshot == w.secrets[SecretName(p.px)].owners
  {
    if p.pc.Creates() { CreateContinues(w, n, p, c); } else if p.pc.Halts() { HaltContinues(w, n, p, c); }
  }

  lemma MoveOwners(w: State, n: Name, c: Choice, s: Name, u: nat)
    requires NameOk(w, n) && OwnersDoomed(w) && n in w.passes
    requires s in Step(w, Do(n, c)).secrets && u in Step(w, Do(n, c)).secrets[s].owners
    ensures Doomed(w, u)
  {
    hide MoveOf, Step, HistoryOk, AuditOk;
    var p := w.passes[n];
    var m := MoveOf(w, n, p, c);
    StepMoves(w, n, c);
    if m.effect.PutSecret? { SecretWrites(w, n, p, c); }
    if m.effect.PutSecret? && PatchesSecret(w, p, m.effect) && u == p.px.uid {
      assert (n, u) in w.audit.terminating;
    }
  }

  lemma MoveSnapshots(w: State, n: Name, c: Choice, k: Name, u: nat)
    requires OwnersDoomed(w) && n in w.passes
    requires var w' := Step(w, Do(n, c)); k in w'.passes && w'.passes[k].pc.TSecretPatch? && u in w'.passes[k].pc.snapshot
    ensures Doomed(w, u)
  {
    hide MoveOf, Step;
    if k == n {
      StepMoves(w, n, c);
      SnapshotIsRead(w, n, w.passes[n], c);
    } else {
      OtherPassStays(w, n, c, k);
    }
  }

  lemma StartsUnread(w: State, n: Name)
    requires n !in w.passes && n in Step(w, Take(n)).passes
    ensures !Step(w, Take(n)).passes[n].pc.TSecretPatch?
  {
    TakeIs(w, n);
    hide Step;
  }

  lemma DoomedKeeps(w: State, e: Event)
    requires OwnersDoomed(w) && (e.Do? ==> NameOk(w, e.n))
    ensures OwnersDoomed(Step(w, e))
  {
    hide Step, NameOk, Doomed;
    var w' := Step(w, e);
    if e.Do? && e.n !in w.passes { NothingToDo(w, e); }
    forall s, u: nat | s in w'.secrets && u in w'.secrets[s].owners ensures Doomed(w', u) {
      if !e.Do? { EventOwners(w, e, s); } else if e.n in w.passes { MoveOwners(w, e.n, e.choice, s, u); }
      DoomedStays(w, e, u);
    }
    forall n, u: nat | n in w'.passes && w'.passes[n].pc.TSecretPatch? && u in w'.passes[n].pc.snapshot ensures Doomed(w', u) {
      if !e.Do? {
        EventPasses(w, e, n);
        if n !in w.passes { StartsUnread(w, n); }
      } else if e.n in w.passes {
        MoveSnapshots(w, e.n, e.choice, n, u);
      }
      DoomedStays(w, e, u);
    }
  }

  lemma {:induction false} DoomedAlong(ws: seq<State>, es: seq<Event>, k: nat)
    requires IsRun(ws, es) && k < |ws|
    ensures OwnersDoomed(ws[k])
  {
    hide Step, OwnersDoomed;
    if k == 0 {
      NobodyOwns();
    } else {
      DoomedAlong(ws, es, k - 1);
      assert Goes(ws, es, k - 1);
      if es[k - 1].Do? { ProtocolHolds(ws, es, k - 1, es[k - 1].n); }
      DoomedKeeps(ws[k - 1], es[k - 1]);
    }
  }

  lemma NobodyOwns()
    ensures OwnersDoomed(Initial)
  {
  }

  /**
   Over all runs, with whatever stale copies patches are made from: a stored database that owns a
   secret, its own or another's, is being deleted.
   */
  lemma OwnersBeingDeleted(ws: seq<State>, es: seq<Event>, k: nat, s: Name, n: Name)
    requires IsRun(ws, es) && k < |ws|
    requires s in ws[k].secrets && Current(ws[k], n).Some? && Current(ws[k], n).value.uid in ws[k].secrets[s].owners
    ensures Current(ws[k], n).value.deleting
  {
    var w, u := ws[k], Current(ws[k], n).value.uid;
    DoomedAlong(ws, es, k);
    assert Doomed(w, u);
    var m: Name :| (m, u) in w.audit.terminating;
    ProtocolHolds(ws, es, k, m);
    ProtocolHolds(ws, es, k, n);
    DoomedIsDeleting(w, n, m, u);
  }

  lemma DoomedIsDeleting(w: State, n: Name, m: Name, u: nat)
    requires NameOk(w, n) && NameOk(w, m) && (m, u) in w.audit.terminating
    requires Current(w, n).Some? && Current(w, n).value.uid == u
    ensures n == m && Current(w, n).value.deleting
  {
    assert Named(w, u, n) && Named(w, u, m);
    assert Beyond(History(w, m), Seen(w, m), u);
  }

  /* ---- a WipeOut pass marks the secret it found unused ---- */

  /** The secret that had this id is gone or replaced. */
  predicate Lost(w: State, s: Name, id: nat) { s in w.secrets ==> w.secrets[s].id != id }

  /** The pass has found the secret unused by peers: it is about to read it, has read it, or it is lost. */
  ghost predicate Heading(w: State, n: Name, px: Database, s: Name, id: nat) {
    && id < w.nextId && px.spec.policy == WipeOut && px.spec.secret == Some(s)
    && n in w.passes && w.passes[n].px == px && w.passes[n].pc.Terminates() && !w.passes[n].pc.TPeers?
    && (w.passes[n].pc.TSecretGet? || w.passes[n].got == Some(id) || Lost(w, s, id))
  }

  /** A secret's id is its own: whatever comes to bear its name has a new one. */
  lemma IdsAreNew(w: State, e: Event, s: Name, id: nat)
    requires id < w.nextId && Lost(w, s, id)
    ensures id < Step(w, e).nextId && Lost(Step(w, e), s, id)
  {
    if e.Do? {
      if e.n in w.passes {
        StepMoves(w, e.n, e.choice);
        if MoveOf(w, e.n, w.passes[e.n], e.choice).effect.PutSecret? { SecretWrites(w, e.n, w.passes[e.n], e.choice); }
        hide Step, MoveOf;
      }
    } else {
      EventIds(w, e);
      hide Step;
    }
  }

  lemma EventIds(w: State, e: Event)
    requires !e.Do?
    ensures w.nextId <= Step(w, e).nextId
    ensures forall s :: s in Step(w, e).secrets ==>
      (s in w.secrets && Step(w, e).secrets[s].id == w.secrets[s].id) || w.nextId <= Step(w, e).secrets[s].id
  {
    hide Step;
    var p: Pass := *;
    ObjectsElsewhere(w, e, "", p);
  }

  lemma NextIdGrows(w: State, e: Event)
    ensures w.nextId <= Step(w, e).nextId
  {
    if e.Do? {
      if e.n in w.passes { StepMoves(w, e.n, e.choice); }
      hide Step, MoveOf;
    } else {
      EventIds(w, e);
    }
  }

  /** A pass past the question for peers stays past it, and reads its secret at most once. */
  lemma HeadsOn(w: State, n: Name, p: Pass, c: Choice)
    requires p.pc.Terminates() && !p.pc.TPeers? && p.px.spec.policy == WipeOut && p.px.spec.secret.Some?
    requires MoveOf(w, n, p, c).next.Go?
    ensures var m := MoveOf(w, n, p, c);
      var s := SecretName(p.px);
      && m.next.pass.px == p.px && m.next.pass.pc.Terminates() && !m.next.pass.pc.TPeers? && !m.next.pass.pc.TSecretGet?
      && (if p.pc.TSecretGet? then m.effect.Quiet? && (s in w.secrets ==> m.next.pass.got == Some(w.secrets[s].id))
          else m.next.pass.got == p.got)
  {
  }

  lemma HeadingKept(w: State, e: Event, n: Name, px: Database, s: Name, id: nat)
    requires Heading(w, n, px, s, id) && n in Step(w, e).passes
    ensures Heading(Step(w, e), n, px, s, id)
  {
    hide Step, MoveOf;
    var w' := Step(w, e);
    NextIdGrows(w, e);
    if Lost(w, s, id) { IdsAreNew(w, e, s, id); }
    if e.Do? && e.n == n {
      StepMoves(w, n, e.choice);
      HeadsOn(w, n, w.passes[n], e.choice);
    } else if e.Do? {
      if e.n in w.passes { OtherPassStays(w, e.n, e.choice, n); } else { NothingToDo(w, e); }
    } else {
      EventPasses(w, e, n);
    }
  }

  lemma {:induction false} HeadingAlong(ws: seq<State>, es: seq<Event>, i: nat, k: nat, n: Name, px: Database, s: Name, id: nat)
    requires IsRun(ws, es) && i <= k < |ws| && Heading(ws[i], n, px, s, id)
    requires forall t :: i <= t <= k ==> n in ws[t].passes
    ensures Heading(ws[k], n, px, s, id)
  {
    hide Step, Heading;
    if i < k {
      HeadingAlong(ws, es, i, k - 1, n, px, s, id);
      assert Goes(ws, es, k - 1);
      HeadingKept(ws[k - 1], es[k - 1], n, px, s, id);
    }
  }

  /** The pass of `n` asks at step `i` for the peers using its secret, and the lister shows none. */
  ghost predicate FindsUnused(w: State, e: Event, n: Name, s: Name) {
    && e.Do? && e.n == n && e.choice.outcome == Ok && n in w.passes && w.passes[n].pc.TPeers?
    && w.passes[n].px.spec.policy == WipeOut && w.passes[n].px.spec.secret == Some(s) && !PeerListed(w, n, s)
  }

  lemma FoundHeads(w: State, e: Event, n: Name, s: Name)
    requires FindsUnused(w, e, n, s) && s in w.secrets && IdsOk(w)
    ensures Heading(Step(w, e), n, w.passes[n].px, s, w.secrets[s].id)
  {
    hide Step, MoveOf, UsedByPeers, PeerListed;
    PeersAreListed(w, n, s);
    PeersNext(w, n, w.passes[n], e.choice);
    StepMoves(w, n, e.choice);
  }

  /**
   WipeOut over a whole pass, with harmless patches since `h`: the lister showed no peer at step `i`, the pass is about to remove the
   finalizer at `k`, and the very secret is still there: then the database is one of its owners,
   whatever anyone else did to it in between.
   */
  lemma UnusedSecretMarked(ws: seq<State>, es: seq<Event>, h: nat, i: nat, k: nat, n: Name, s: Name)
    requires NoHarm(ws, es, h, k) && h <= i < k
    requires FindsUnused(ws[i], es[i], n, s) && s in ws[i].secrets
    requires (forall t :: i < t <= k ==> n in ws[t].passes) && ws[k].passes[n].pc.TFinalizer?
    requires s in ws[k].secrets && ws[k].secrets[s].id == ws[i].secrets[s].id
    ensures ws[k].passes[n].px == ws[i].passes[n].px && ws[k].passes[n].px.uid in ws[k].secrets[s].owners
  {
    var px, id := ws[i].passes[n].px, ws[i].secrets[s].id;
    SecretIdsOk(ws, es, h, i, n);
    FoundHeads(ws[i], es[i], n, s);
    assert Goes(ws, es, i);
    HeadingAlong(ws, es, i + 1, k, n, px, s, id);
    ReferencesMatchPolicy(ws, es, h, k, n);
    hide IsRun, Between, Harmless, Step;
  }

  lemma SecretIdsOk(ws: seq<State>, es: seq<Event>, h: nat, i: nat, n: Name)
    requires NoHarm(ws, es, h, i)
    ensures IdsOk(ws[i])
  {
    HoldsForName(ws, es, h, i, n);
  }

  /* ---- when the secret can be collected ---- */

  /** What the removal of the finalizer takes out of the live databases. */
  lemma LeavesAlone(w: State, n: Name, c: Choice)
    requires (forall m: Name :: NameOk(w, m)) && n in w.passes && w.passes[n].pc.TFinalizer?
    requires Current(Step(w, Do(n, c)), n).None?
    ensures var w' := Step(w, Do(n, c));
            w'.secrets == w.secrets && LiveUids(w') == LiveUids(w) - {w.passes[n].px.uid}
  {
    hide Step, MoveOf, NameOk, LiveUids;
    var w', uid := Step(w, Do(n, c)), w.passes[n].px.uid;
    StepMoves(w, n, c);
    FinalStepStores(w, n, c);
    forall u ensures u in LiveUids(w') <==> u in LiveUids(w) && u != uid {
      LiveIs(w, u);
      LiveIs(w', u);
      if u in LiveUids(w') {
        var m :| m in w'.hist && Current(w', m).Some? && Current(w', m).value.uid == u;
        assert m != n && History(w', m) == History(w, m);
        assert NameOk(w, m) && NameOk(w, n);
        OtherUid(w, n, m);
      }
      if u in LiveUids(w) && u != uid {
        var m :| m in w.hist && Current(w, m).Some? && Current(w, m).value.uid == u;
        assert NameOk(w, n);
        if m == n { LastIsOwn(w, n, c); }
        assert History(w', m) == History(w, m);
        assert m in w'.hist;
      }
    }
  }

  lemma LiveIs(w: State, u: nat)
    ensures u in LiveUids(w) <==> exists m :: m in w.hist && Current(w, m).Some? && Current(w, m).value.uid == u
  {
  }

  lemma OtherUid(w: State, n: Name, m: Name)
    requires NameOk(w, n) && NameOk(w, m) && n in w.passes && w.passes[n].pc.TFinalizer? && m != n && Current(w, m).Some?
    ensures Current(w, m).value.uid != w.passes[n].px.uid
  {
    assert Named(w, Current(w, m).value.uid, m) && Named(w, w.passes[n].px.uid, n);
  }

  /** The object that leaves is the one the pass has terminated. */
  lemma LastIsOwn(w: State, n: Name, c: Choice)
    requires NameOk(w, n) && n in w.passes && w.passes[n].pc.TFinalizer?
    requires Current(w, n).Some? && Current(Step(w, Do(n, c)), n).None?
    ensures Current(w, n).value.uid == w.passes[n].px.uid
  {
    hide Step, MoveOf, AuditOk;
    var x := Current(w, n).value;
    FinalWrite(w, n, w.passes[n], c);
    StepMoves(w, n, c);
    assert x.deleting;
    assert History(w, n)[|History(w, n)| - 1] == Some(x);
  }

  /**
   Once the database is gone: its secret, if marked, can be collected exactly when no other owner is
   left; and under a policy other than WipeOut exactly when it could be collected anyway.
   */
  lemma SecretCollectable(ws: seq<State>, es: seq<Event>, i: nat, k: nat, n: Name, c: Choice, s: Name)
    requires NoHarm(ws, es, i, k)
    requires n in ws[k].passes && ws[k].passes[n].pc.TFinalizer?
    requires ws[k].passes[n].px.spec.secret == Some(s) && s in ws[k].secrets
    requires Current(Step(ws[k], Do(n, c)), n).None?
    ensures var w, w', px := ws[k], Step(ws[k], Do(n, c)), ws[k].passes[n].px;
      && s in w'.secrets && w'.secrets[s] == w.secrets[s]
      && (px.uid in w.secrets[s].owners ==>
            (Collectable(w', w.secrets[s].owners) <==> w.secrets[s].owners - {px.uid} !! LiveUids(w')))
      && (px.spec.policy != WipeOut ==> (Collectable(w', w.secrets[s].owners) <==> Collectable(w, w.secrets[s].owners)))
  {
    hide Step, NameOk, LiveUids;
    forall m: Name ensures NameOk(ws[k], m) { ProtocolHolds(ws, es, k, m); }
    LeavesAlone(ws[k], n, c);
    ReferencesMatchPolicy(ws, es, i, k, n);
  }
}
