/**
 Credentials and data over halts, crashes, deletions and recreations: a generated password is
 generated once, a bound secret stays bound, and an unmarked PVC stays.
 */
module Credentials {
  import opened Options
  import opened Cluster
  import opened Passes
  import opened Finalizers
  import opened Ownership
  import opened SharedSecrets

  /** Nobody deletes the secret, and no WipeOut pass of a database using it asks for its peers. */
  ghost predicate SparesSecret(w: State, e: Event, s: Name) {
    && e != SecretDelete(s)
    && (e.Do? && e.n in w.passes && w.passes[e.n].pc.TPeers? ==> w.passes[e.n].px.spec.secret != Some(s))
  }

  /** From step `i` up to step `j`, the secret is spared. */
  ghost predicate SecretSpared(ws: seq<State>, es: seq<Event>, i: nat, j: nat, s: Name) {
    IsRun(ws, es) && Between(ws, es, i, j, (w, e) => SparesSecret(w, e, s))
  }

  /** Same secret object, with the password it was created with. */
  ghost predicate SameSecret(w: State, w': State, s: Name) {
    && s in w.secrets && s in w'.secrets
    && w'.secrets[s].id == w.secrets[s].id
    && w'.secrets[s].password == w.secrets[s].password
    && w'.secrets[s].labelled == w.secrets[s].labelled
  }

  /** No pass ever writes a password into a secret that exists. */
  lemma WritesKeepPassword(w: State, n: Name, p: Pass, c: Choice)
    requires MoveOf(w, n, p, c).effect.PutSecret?
    ensures var e := MoveOf(w, n, p, c).effect;
      e.secretName in w.secrets ==>
        && e.secret.id == w.secrets[e.secretName].id
        && e.secret.password == w.secrets[e.secretName].password
        && e.secret.labelled == w.secrets[e.secretName].labelled
  {
  }

  lemma PassKeepsSecret(w: State, n: Name, c: Choice, s: Name)
    requires n in w.passes && s in w.secrets
    ensures SameSecret(w, Step(w, Do(n, c)), s)
  {
    var m := MoveOf(w, n, w.passes[n], c);
    if m.effect.PutSecret? { WritesKeepPassword(w, n, w.passes[n], c); }
    assert Step(w, Do(n, c)) == Settle(Commit(w, n, m.effect), n, w.passes[n], m.next);
    hide MoveOf, Settle, Step;
    SettleStores(Commit(w, n, m.effect), n, w.passes[n], m.next);
  }

  lemma ObjectsKeepSecret(w: State, e: Event, s: Name)
    requires e != SecretDelete(s) && s in w.secrets && w.secrets[s].owners == {}
    ensures SameSecret(w, ObjectStep(w, e), s)
  {
  }

  lemma SecretKept(w: State, e: Event, s: Name)
    requires SparesSecret(w, e, s) && !Claimed(w, s) && s in w.secrets
    ensures SameSecret(w, Step(w, e), s)
  {
    if e.Do? {
      if e.n in w.passes { PassKeepsSecret(w, e.n, e.choice, s); }
    } else if IsUser(e) {
      UserStepsAreSame(w, e);
    } else if !e.Sync? && !e.Take? && !e.Crash? {
      ObjectsKeepSecret(w, e, s);
    }
    hide StepPass, UserStep, ObjectStep, Claimed;
  }

  lemma StaysUnclaimed(w: State, e: Event, s: Name)
    requires SparesSecret(w, e, s) && !Claimed(w, s)
    ensures !Claimed(Step(w, e), s)
  {
    hide Step;
    if Claimed(Step(w, e), s) { NewClaims(w, e, s); }
  }

  lemma {:induction false} UnclaimedAlong(ws: seq<State>, es: seq<Event>, i: nat, k: nat, s: Name)
    requires SecretSpared(ws, es, i, k, s) && !Claimed(ws[i], s)
    ensures !Claimed(ws[k], s)
  {
    hide Claimed, SparesSecret, Step;
    if i < k {
      UnclaimedAlong(ws, es, i, k - 1, s);
      assert Goes(ws, es, k - 1);
      StaysUnclaimed(ws[k - 1], es[k - 1], s);
    }
  }

  /**
   From a state in which the secret exists and nobody has marked it or is about to: as long as
   nobody deletes it and no database using it is wiped out, however often the operator crashes and
   databases are halted, resumed, deleted and recreated, it is never replaced and its password never
   changes. So it is generated at most once.
   */
  lemma {:induction false} GeneratedOnce(ws: seq<State>, es: seq<Event>, i: nat, j: nat, s: Name)
    requires SecretSpared(ws, es, i, j, s) && !Claimed(ws[i], s) && s in ws[i].secrets
    ensures SameSecret(ws[i], ws[j], s)
  {
    hide Claimed, SparesSecret, Step;
    if i < j {
      GeneratedOnce(ws, es, i, j - 1, s);
      UnclaimedAlong(ws, es, i, j - 1, s);
      assert Goes(ws, es, j - 1);
      SecretKept(ws[j - 1], es[j - 1], s);
    }
  }

  /* ---- binding ---- */

  /** What a write may put after the stored version, as far as the database secret is concerned. */
  ghost predicate Continued(w: State, n: Name, v: Option<Database>) {
    v.Some? ==>
      match Current(w, n)
      case None => v.value.uid == w.nextId
      case Some(x) => v.value.uid == x.uid && SecretFrozen(x.spec, v.value.spec)
  }

  ghost predicate Extends(w: State, w': State, n: Name) {
    || History(w', n) == History(w, n)
    || (exists v :: Continued(w, n, v) && History(w', n) == History(w, n) + [v])
  }

  lemma WritesContinue(w: State, n: Name, p: Pass, c: Choice)
    requires MoveOf(w, n, p, c).effect.PutDatabase?
    ensures Continued(w, n, Stored(MoveOf(w, n, p, c).effect.database))
  {
    PassWritesCurrent(w, n, p, c);
    WritesKeepSecret(w, n, p, c);
  }

  lemma WritesKeepSecret(w: State, n: Name, p: Pass, c: Choice)
    requires MoveOf(w, n, p, c).effect.PutDatabase? && Current(w, n).Some?
    ensures SecretFrozen(Current(w, n).value.spec, MoveOf(w, n, p, c).effect.database.spec)
  {
  }

  lemma UserContinues(w: State, e: Event, n: Name)
    requires IsUser(e)
    ensures Extends(w, Step(w, e), n)
  {
    var w' := Step(w, e);
    if History(w', n) != History(w, n) {
      var v := History(w', n)[|History(w', n)| - 1];
      assert Continued(w, n, v);
    }
  }

  lemma StepExtends(w: State, e: Event, n: Name)
    ensures Extends(w, Step(w, e), n)
  {
    if IsUser(e) {
      UserContinues(w, e, n);
    } else if e.Do? {
      if e.n in w.passes {
        var p := w.passes[e.n];
        var m := MoveOf(w, e.n, p, e.choice);
        if m.effect.PutDatabase? { WritesContinue(w, e.n, p, e.choice); }
        hide MoveOf;
        SettleStores(Commit(w, e.n, m.effect), e.n, p, m.next);
        if e.n != n || !m.effect.PutDatabase? { CommitHistory(w, e.n, m.effect, n); }
      }
    } else {
      NoHistory(w, e);
    }
  }

  lemma NoHistory(w: State, e: Event)
    requires !IsUser(e) && !e.Do?
    ensures Step(w, e).hist == w.hist
  {
  }

  ghost predicate SecretFixed(h: seq<Option<Database>>) {
    forall i, j :: 0 <= i < j < |h| && h[i].Some? && h[j].Some? && h[i].value.uid == h[j].value.uid ==>
      SecretFrozen(h[i].value.spec, h[j].value.spec)
  }

  lemma {:induction false} SecretFixedAlong(ws: seq<State>, es: seq<Event>, k: nat, n: Name)
    requires IsRun(ws, es) && k < |ws|
    ensures SecretFixed(History(ws[k], n))
  {
    if k == 0 {
    } else {
      SecretFixedAlong(ws, es, k - 1, n);
      ProtocolHolds(ws, es, k - 1, n);
      assert Goes(ws, es, k - 1);
      StepExtends(ws[k - 1], es[k - 1], n);
      FixedExtends(ws[k - 1], ws[k], n);
    }
  }

  lemma FixedExtends(w: State, w': State, n: Name)
    requires HistoryOk(w, n) && SecretFixed(History(w, n)) && Extends(w, w', n)
    ensures SecretFixed(History(w', n))
  {
  }

  lemma {:induction false} HistoryPrefix(ws: seq<State>, es: seq<Event>, i: nat, j: nat, n: Name)
    requires IsRun(ws, es) && i <= j < |ws|
    ensures History(ws[i], n) <= History(ws[j], n)
  {
    if i < j {
      HistoryPrefix(ws, es, i, j - 1, n);
      assert Goes(ws, es, j - 1);
      StepExtends(ws[j - 1], es[j - 1], n);
    }
  }

  /** A database bound to a secret is bound to that secret for as long as it is there. */
  lemma BoundForGood(ws: seq<State>, es: seq<Event>, i: nat, j: nat, n: Name, s: Name)
    requires IsRun(ws, es) && i <= j < |ws|
    requires Current(ws[i], n).Some? && Current(ws[j], n).Some?
    requires Current(ws[i], n).value.uid == Current(ws[j], n).value.uid
    requires Current(ws[i], n).value.spec.secret == Some(s)
    ensures Current(ws[j], n).value.spec.secret == Some(s)
  {
    HistoryPrefix(ws, es, i, j, n);
    SecretFixedAlong(ws, es, j, n);
    var h := History(ws[j], n);
    assert h[|History(ws[i], n)| - 1] == Current(ws[i], n);
  }

  /* ---- the operator binds a database to its own, existing secret ---- */

  ghost predicate ReadyToBind(w: State, n: Name) {
    n in w.passes && w.passes[n].pc.CSecretSpec? ==>
      AuthSecret(n) in w.secrets && w.secrets[AuthSecret(n)].labelled == Some(n)
  }

  lemma BeforeSpecPatch(w: State, n: Name, p: Pass, c: Choice)
    requires MoveOf(w, n, p, c).next.Go? && MoveOf(w, n, p, c).next.pass.pc.CSecretSpec?
    ensures p.pc.CSecretGet? || p.pc.CSecretCreate?
  {
  }

  lemma OwnMoveBinds(w: State, n: Name, p: Pass, c: Choice)
    requires MoveOf(w, n, p, c).next.Go? && MoveOf(w, n, p, c).next.pass.pc.CSecretSpec?
    ensures var w1 := Commit(w, n, MoveOf(w, n, p, c).effect);
            AuthSecret(n) in w1.secrets && w1.secrets[AuthSecret(n)].labelled == Some(n)
  {
    BeforeSpecPatch(w, n, p, c);
    assert MoveOf(w, n, p, c) == CreateMove(w, n, p, c.outcome, c.password);
    hide MoveOf;
  }

  lemma BindingKept(w: State, e: Event, n: Name)
    requires SparesSecret(w, e, AuthSecret(n)) && !Claimed(w, AuthSecret(n)) && ReadyToBind(w, n)
    ensures ReadyToBind(Step(w, e), n)
  {
    var w' := Step(w, e);
    if n in w'.passes && w'.passes[n].pc.CSecretSpec? {
      if e.Do? && e.n == n {
        if n in w.passes {
          var m := MoveOf(w, n, w.passes[n], e.choice);
          SettlePasses(Commit(w, n, m.effect), n, w.passes[n], m.next, n);
          SettleStores(Commit(w, n, m.effect), n, w.passes[n], m.next);
          OwnMoveBinds(w, n, w.passes[n], e.choice);
        }
      } else {
        SamePass(w, e, n);
        SecretKept(w, e, AuthSecret(n));
      }
    }
  }

  lemma SamePass(w: State, e: Event, n: Name)
    requires !(e.Do? && e.n == n) && n in Step(w, e).passes && !Step(w, e).passes[n].pc.Start?
    requires !Step(w, e).passes[n].pc.Terminates()
    ensures n in w.passes && w.passes[n] == Step(w, e).passes[n]
  {
    if e.Do? {
      if e.n in w.passes {
        var m := MoveOf(w, e.n, w.passes[e.n], e.choice);
        hide MoveOf;
        CommitPasses(w, e.n, m.effect);
        SettlePasses(Commit(w, e.n, m.effect), e.n, w.passes[e.n], m.next, n);
      }
    } else {
      EventPasses(w, e, n);
    }
  }

  /** When the operator binds a database, the secret it binds it to exists and is its own. */
  lemma {:induction false} BindsExistingSecret(ws: seq<State>, es: seq<Event>, i: nat, k: nat, n: Name)
    requires SecretSpared(ws, es, i, k, AuthSecret(n)) && !Claimed(ws[i], AuthSecret(n)) && ReadyToBind(ws[i], n)
    ensures ReadyToBind(ws[k], n)
  {
    hide Claimed, SparesSecret, Step, ReadyToBind, AuthSecret;
    if i < k {
      BindsExistingSecret(ws, es, i, k - 1, n);
      UnclaimedAlong(ws, es, i, k - 1, AuthSecret(n));
      assert Goes(ws, es, k - 1);
      BindingKept(ws[k - 1], es[k - 1], n);
    }
  }

  /**
   Whichever incarnation of a name the operator binds, and whenever it does, it binds it to the same
   secret with the same password as any earlier point since the secret was last in nobody's way.
   */
  lemma RecreatedBindsSame(ws: seq<State>, es: seq<Event>, i: nat, k: nat, n: Name)
    requires i <= k < |es| && SecretSpared(ws, es, i, k + 1, AuthSecret(n))
    requires !Claimed(ws[i], AuthSecret(n)) && AuthSecret(n) in ws[i].secrets
    requires es[k].Do? && es[k].n == n && n in ws[k].passes && ws[k].passes[n].pc.CSecretSpec?
    requires Current(ws[k + 1], n) != Current(ws[k], n)
    ensures Current(ws[k + 1], n).Some? && Current(ws[k + 1], n).value.spec.secret == Some(AuthSecret(n))
    ensures SameSecret(ws[i], ws[k + 1], AuthSecret(n))
  {
    GeneratedOnce(ws, es, i, k + 1, AuthSecret(n));
    hide Claimed, SparesSecret, AuthSecret, SameSecret;
    assert Goes(ws, es, k);
    ProtocolHolds(ws, es, k, n);
    SpecPatchBinds(ws[k], n, es[k].choice);
  }

  lemma SpecMove(w: State, n: Name, p: Pass, c: Choice)
    requires p.pc.CSecretSpec?
    ensures var m := MoveOf(w, n, p, c);
      && m.next.Go?
      && (m.effect.Quiet? ||
          (m.effect.PutDatabase? && Current(w, n).Some? && m.effect.database.spec.secret == Some(AuthSecret(n)) &&
           m.effect.database.finalizer == Current(w, n).value.finalizer &&
           m.effect.database.deleting == Current(w, n).value.deleting))
  {
  }

  lemma SpecPatchBinds(w: State, n: Name, c: Choice)
    requires HistoryOk(w, n) && n in w.passes && w.passes[n].pc.CSecretSpec?
    requires Current(Step(w, Do(n, c)), n) != Current(w, n)
    ensures var x := Current(Step(w, Do(n, c)), n);
            x.Some? && x.value.spec.secret == Some(AuthSecret(n))
  {
    var m := MoveOf(w, n, w.passes[n], c);
    SpecMove(w, n, w.passes[n], c);
    hide MoveOf;
    var w1 := Commit(w, n, m.effect);
    SettleStores(w1, n, w.passes[n], m.next);
    if m.effect.PutDatabase? {
      assert Stored(m.effect.database).Some?;
      assert Current(w1, n) == Some(m.effect.database);
    }
  }

  /* ---- data ---- */

  /** A patch of this PVC, if that is what the step is, is applied to the PVC as it was listed. */
  ghost predicate PatchesAsListed(w: State, e: Event, v: Name) {
    e.Do? && e.n in w.passes && w.passes[e.n].pc.TPvcPatch? && e.choice.item == v && v in w.passes[e.n].pc.todo && v in w.pvcs ==>
      w.pvcs[v] == w.passes[e.n].pc.todo[v]
  }

  /** Nobody deletes the PVC, no pass that marks PVCs lists it, and no stale patch lands on it. */
  ghost predicate SparesPvc(w: State, e: Event, v: Name) {
    && e != PvcDelete(v) && PatchesAsListed(w, e, v)
    && (e.Do? && e.n in w.passes && w.passes[e.n].pc.TPvcList? && v in w.pvcs && w.pvcs[v].labelled == Some(e.n) ==>
          !MarksPvcs(w.passes[e.n].px))
  }

  /** The PVC is unmarked and no pass is about to mark it. */
  ghost predicate Unmarked(w: State, v: Name, id: nat) {
    && v in w.pvcs && w.pvcs[v].id == id && w.pvcs[v].owners == {}
    && forall n :: n in w.passes && w.passes[n].pc.TPvcPatch? && v in w.passes[n].pc.todo && w.passes[n].pc.todo[v].id == id ==>
         !MarksPvcs(w.passes[n].px)
  }

  lemma UnmarkedElsewhere(w: State, e: Event, v: Name, id: nat)
    requires !e.Do? && e != PvcDelete(v) && Unmarked(w, v, id)
    ensures Unmarked(Step(w, e), v, id)
  {
    var w' := Step(w, e);
    NoPvcLost(w, e, v);
    hide Step;
    forall n | n in w'.passes && w'.passes[n].pc.TPvcPatch? && v in w'.passes[n].pc.todo && w'.passes[n].pc.todo[v].id == id
      ensures !MarksPvcs(w'.passes[n].px)
    {
      EventPasses(w, e, n);
      if e == Take(n) && n !in w.passes { TakesNoList(w, n); }
    }
  }

  lemma NoPvcLost(w: State, e: Event, v: Name)
    requires !e.Do? && e != PvcDelete(v) && v in w.pvcs && w.pvcs[v].owners == {}
    ensures v in Step(w, e).pvcs && Step(w, e).pvcs[v] == w.pvcs[v]
  {
  }

  lemma TakesNoList(w: State, n: Name)
    requires n !in w.passes && n in Step(w, Take(n)).passes
    ensures !Step(w, Take(n)).passes[n].pc.TPvcPatch?
  {
  }

  /** A pass gets to patch a PVC only from listing it, or from patching another. */
  lemma PatchesFromList(w: State, n: Name, p: Pass, c: Choice, v: Name)
    requires MoveOf(w, n, p, c).next.Go?
    requires MoveOf(w, n, p, c).next.pass.pc.TPvcPatch? && v in MoveOf(w, n, p, c).next.pass.pc.todo
    ensures var q := MoveOf(w, n, p, c).next.pass;
      && q.px == p.px
      && ((p.pc.TPvcPatch? && v in p.pc.todo && p.pc.todo[v] == q.pc.todo[v]) ||
          (p.pc.TPvcList? && v in w.pvcs && w.pvcs[v].labelled == Some(n) && q.pc.todo[v] == w.pvcs[v]))
  {
  }

  lemma UnmarkedCommits(w: State, n: Name, c: Choice, v: Name, id: nat)
    requires n in w.passes && PatchesAsListed(w, Do(n, c), v) && Unmarked(w, v, id)
    ensures var w1 := Commit(w, n, MoveOf(w, n, w.passes[n], c).effect);
            v in w1.pvcs && w1.pvcs[v] == w.pvcs[v] && w1.passes == w.passes
  {
    var p := w.passes[n];
    var e := MoveOf(w, n, p, c).effect;
    if e.PutPvc? { UnmarkedNotPatched(w, n, p, c, v, id); }
    CommitPasses(w, n, e);
    hide MoveOf;
  }

  lemma UnmarkedByPass(w: State, n: Name, c: Choice, v: Name, id: nat)
    requires SparesPvc(w, Do(n, c), v) && Unmarked(w, v, id)
    ensures Unmarked(Step(w, Do(n, c)), v, id)
  {
    if n in w.passes {
      var p := w.passes[n];
      var m := MoveOf(w, n, p, c);
      var w1 := Commit(w, n, m.effect);
      var w' := Settle(w1, n, p, m.next);
      assert Step(w, Do(n, c)) == w';
      hide MoveOf, Commit, Settle, Step, PatchesAsListed;
      UnmarkedCommits(w, n, c, v, id);
      if m.next.Go? && m.next.pass.pc.TPvcPatch? && v in m.next.pass.pc.todo { PatchesFromList(w, n, p, c, v); }
      SettleStores(w1, n, p, m.next);
      forall k | k in w'.passes && w'.passes[k].pc.TPvcPatch? && v in w'.passes[k].pc.todo && w'.passes[k].pc.todo[v].id == id
        ensures !MarksPvcs(w'.passes[k].px)
      {
        SettlePasses(w1, n, p, m.next, k);
      }
    }
  }

  lemma UnmarkedNotPatched(w: State, n: Name, p: Pass, c: Choice, v: Name, id: nat)
    requires n in w.passes && w.passes[n] == p && PatchesAsListed(w, Do(n, c), v) && Unmarked(w, v, id)
    requires MoveOf(w, n, p, c).effect.PutPvc?
    ensures MoveOf(w, n, p, c).effect.pvcName != v
  {
    PvcWrites(w, n, p, c);
  }

  lemma SparedStaysUnmarked(w: State, e: Event, v: Name, id: nat)
    requires SparesPvc(w, e, v) && Unmarked(w, v, id)
    ensures Unmarked(Step(w, e), v, id)
  {
    if e.Do? { UnmarkedByPass(w, e.n, e.choice, v, id); } else { UnmarkedElsewhere(w, e, v, id); }
  }

  /** An unmarked PVC stays, as it is, until a marking pass lists it or a user deletes it. */
  lemma {:induction false} DataSurvives(ws: seq<State>, es: seq<Event>, i: nat, j: nat, v: Name, id: nat)
    requires IsRun(ws, es) && Between(ws, es, i, j, (w, e) => SparesPvc(w, e, v))
    requires Unmarked(ws[i], v, id)
    ensures Unmarked(ws[j], v, id)
  {
    hide SparesPvc, Unmarked, Step;
    if i < j {
      DataSurvives(ws, es, i, j - 1, v, id);
      assert Goes(ws, es, j - 1);
      SparedStaysUnmarked(ws[j - 1], es[j - 1], v, id);
    }
  }
}
