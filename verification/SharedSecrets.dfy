/**
 Secrets shared between databases. A WipeOut pass marks its database's secret when the lister shows
 no other user of it, and garbage collection takes a marked secret once the marking database is
 gone. This is safe for every live database exactly as long as two guards hold at every step.
 */
module SharedSecrets {
  import opened Options
  import opened Cluster
  import opened Passes

  /** A live database refers to the secret. */
  predicate Uses(w: State, n: Name, s: Name) {
    Current(w, n).Some? && !Current(w, n).value.deleting && Current(w, n).value.spec.secret == Some(s)
  }

  /** A pass that has decided to mark the secret, or is about to write back somebody else's mark. */
  predicate Claims(p: Pass, s: Name) {
    && SecretName(p.px) == s
    && ((p.pc.TSecretGet? && MarksSecret(p.px)) ||
        (p.pc.TSecretPatch? && Patched(p.pc.snapshot, MarksSecret(p.px), p.px.uid) != {}))
  }

  ghost predicate Claimed(w: State, s: Name) {
    (s in w.secrets && w.secrets[s].owners != {}) || exists n :: n in w.passes && Claims(w.passes[n], s)
  }

  /** No secret that a live database refers to is marked or about to be marked. */
  ghost predicate Safe(w: State) {
    forall n: Name, s: Name :: Uses(w, n, s) ==> !Claimed(w, s)
  }

  /** The pass has asked the lister and goes on to mark the secret. */
  predicate DecidesToMark(w: State, e: Event, s: Name) {
    && e.Do? && e.n in w.passes && w.passes[e.n].pc.TPeers? && e.choice.outcome == Ok
    && MarksSecret(w.passes[e.n].px) && w.passes[e.n].px.spec.secret == Some(s) && !UsedByPeers(w, e.n, s)
  }

  /** A pass decides to mark a secret only if no live database refers to it. */
  ghost predicate MarksUnused(w: State, e: Event) {
    forall n: Name, s: Name :: DecidesToMark(w, e, s) ==> !Uses(w, n, s)
  }

  /** No live database comes to refer to a secret that is marked or about to be marked. */
  ghost predicate RefersUnclaimed(w: State, e: Event) {
    forall n: Name, s: Name :: Uses(Step(w, e), n, s) && !Uses(w, n, s) ==> !Claimed(w, s)
  }

  ghost predicate Guarded(w: State, e: Event) { MarksUnused(w, e) && RefersUnclaimed(w, e) }

  /** The lister is current about who refers to a secret, the deciding pass's own name included. */
  ghost predicate ListerCurrent(w: State, e: Event) {
    forall n: Name, s: Name :: DecidesToMark(w, e, s) && Uses(w, n, s) ==>
      n in w.hist && n != e.n && Cached(w, n).Some? && Cached(w, n).value.spec.secret == Some(s)
  }

  lemma CurrentListerSuffices(w: State, e: Event)
    requires ListerCurrent(w, e)
    ensures MarksUnused(w, e)
  {
    forall n: Name, s: Name | DecidesToMark(w, e, s) ensures !Uses(w, n, s) {
      if Uses(w, n, s) { assert UsedByPeers(w, e.n, s); }
    }
  }

  /* ---- how claims move ---- */

  ghost predicate ClaimsStay(w: State, n: Name, p: Pass, m: Move) {
    && (m.effect.PutSecret? && m.effect.secret.owners != {} ==>
          && m.effect.secretName in w.secrets
          && (m.effect.secret.owners == w.secrets[m.effect.secretName].owners || Claims(p, m.effect.secretName)))
    && (m.next.Go? ==> forall s: Name :: Claims(m.next.pass, s) ==>
          || Claims(p, s)
          || (s in w.secrets && w.secrets[s].owners != {})
          || (p.pc.TPeers? && MarksSecret(p.px) && p.px.spec.secret == Some(s) && !UsedByPeers(w, n, s)))
  }

  lemma OnlyTerminateClaims(w: State, n: Name, p: Pass, c: Choice)
    requires !p.pc.Terminates()
    ensures ClaimsStay(w, n, p, MoveOf(w, n, p, c))
  {
  }

  lemma TerminateClaims(w: State, n: Name, p: Pass, c: Choice)
    requires p.pc.Terminates()
    ensures ClaimsStay(w, n, p, MoveOf(w, n, p, c))
  {
  }

  lemma PassClaims(w: State, n: Name, c: Choice)
    requires n in w.passes
    ensures ClaimsStay(w, n, w.passes[n], MoveOf(w, n, w.passes[n], c))
  {
    if w.passes[n].pc.Terminates() { TerminateClaims(w, n, w.passes[n], c); }
    else { OnlyTerminateClaims(w, n, w.passes[n], c); }
  }

  /** A new claim comes only from a pass that has just decided to mark. */
  lemma NewClaims(w: State, e: Event, s: Name)
    requires Claimed(Step(w, e), s) && !Claimed(w, s)
    ensures DecidesToMark(w, e, s)
  {
    if e.Do? {
      if e.n in w.passes {
        PassClaims(w, e.n, e.choice);
        MoveClaims(w, e.n, w.passes[e.n], MoveOf(w, e.n, w.passes[e.n], e.choice), s);
        DecidesWhenOk(w, e, s);
      }
    } else {
      EventClaims(w, e, s);
    }
  }

  lemma DecidesWhenOk(w: State, e: Event, s: Name)
    requires e.Do? && e.n in w.passes && w.passes[e.n].pc.TPeers?
    requires MoveOf(w, e.n, w.passes[e.n], e.choice).next.Go?
    requires MarksSecret(w.passes[e.n].px) && w.passes[e.n].px.spec.secret == Some(s) && !UsedByPeers(w, e.n, s)
    ensures DecidesToMark(w, e, s)
  {
  }

  lemma MoveClaims(w: State, n: Name, p: Pass, m: Move, s: Name)
    requires n in w.passes && w.passes[n] == p && ClaimsStay(w, n, p, m)
    requires Claimed(Settle(Commit(w, n, m.effect), n, p, m.next), s) && !Claimed(w, s)
    ensures p.pc.TPeers? && MarksSecret(p.px) && p.px.spec.secret == Some(s) && !UsedByPeers(w, n, s) && m.next.Go?
  {
    var w1 := Commit(w, n, m.effect);
    var w' := Settle(w1, n, p, m.next);
    assert !Claims(p, s);
    SettleStores(w1, n, p, m.next);
    CommitOwners(w, n, p, m, s);
    CommitPasses(w, n, m.effect);
    hide Commit, Settle;
    assert !(s in w'.secrets && w'.secrets[s].owners != {});
    var k :| k in w'.passes && Claims(w'.passes[k], s);
    SettlePasses(w1, n, p, m.next, k);
  }

  lemma CommitOwners(w: State, n: Name, p: Pass, m: Move, s: Name)
    requires ClaimsStay(w, n, p, m) && !Claims(p, s) && !(s in w.secrets && w.secrets[s].owners != {})
    ensures var w1 := Commit(w, n, m.effect);
            !(s in w1.secrets && w1.secrets[s].owners != {})
  {
  }

  lemma EventOwners(w: State, e: Event, s: Name)
    requires !e.Do? && s in Step(w, e).secrets && Step(w, e).secrets[s].owners != {}
    ensures s in w.secrets && w.secrets[s].owners == Step(w, e).secrets[s].owners
  {
    if IsUser(e) {
      UserIs(w, e);
      UserSecrets(w, e);
      hide Step, UserStep;
    } else if IsObject(e) {
      ObjectIs(w, e);
      hide Step;
      ObjectOwners(w, e, s);
      hide ObjectStep;
    } else {
      QuietSecrets(w, e);
      hide Step;
    }
  }

  lemma ObjectOwners(w: State, e: Event, s: Name)
    requires s in ObjectStep(w, e).secrets && ObjectStep(w, e).secrets[s].owners != {}
    ensures s in w.secrets && w.secrets[s].owners == ObjectStep(w, e).secrets[s].owners
  {
  }

  lemma QuietSecrets(w: State, e: Event)
    requires e.Sync? || e.Take? || e.Crash?
    ensures Step(w, e).secrets == w.secrets
  {
  }

  lemma UserSecrets(w: State, e: Event)
    ensures UserStep(w, e).secrets == w.secrets
  {
  }

  lemma EventClaims(w: State, e: Event, s: Name)
    requires !e.Do? && Claimed(Step(w, e), s)
    ensures Claimed(w, s)
  {
    var w' := Step(w, e);
    if s in w'.secrets && w'.secrets[s].owners != {} {
      EventOwners(w, e, s);
    } else {
      var k :| k in w'.passes && Claims(w'.passes[k], s);
      EventPasses(w, e, k);
      if k !in w.passes { TakesNoClaim(w, k, s); }
    }
  }

  /** A reconcile asks the lister before it claims anything. */
  lemma TakesNoClaim(w: State, n: Name, s: Name)
    requires n !in w.passes && n in Begin(w, n).passes
    ensures !Claims(Begin(w, n).passes[n], s)
  {
  }

  /** A claim stays while a database starts to refer to the secret. */
  lemma ClaimsKept(w: State, e: Event, n: Name, s: Name)
    requires Uses(Step(w, e), n, s) && !Uses(w, n, s) && Claimed(w, s)
    ensures Claimed(Step(w, e), s)
  {
    var w' := Step(w, e);
    if e.Do? && e.n in w.passes {
      StartsByPatch(w, e, n, s);
      var m := MoveOf(w, e.n, w.passes[e.n], e.choice);
      hide MoveOf;
      if !(s in w.secrets && w.secrets[s].owners != {}) {
        var k :| k in w.passes && Claims(w.passes[k], s);
        assert k in w'.passes && Claims(w'.passes[k], s);
      }
    } else if IsUser(e) {
      if !(s in w.secrets && w.secrets[s].owners != {}) {
        var k :| k in w.passes && Claims(w.passes[k], s);
        assert k in w'.passes && Claims(w'.passes[k], s);
      }
    } else {
      NoNewUse(w, e, n, s);
    }
  }

  lemma NoNewUse(w: State, e: Event, n: Name, s: Name)
    requires !e.Do? && !IsUser(e)
    ensures Uses(Step(w, e), n, s) ==> Uses(w, n, s)
  {
    if IsObject(e) {
      ObjectIs(w, e);
      ObjectHistory(w, e);
      hide Step, ObjectStep;
    }
  }

  lemma ObjectHistory(w: State, e: Event)
    ensures ObjectStep(w, e).hist == w.hist
  {
  }

  predicate UsesSecret(x: Option<Database>, s: Name) {
    x.Some? && !x.value.deleting && x.value.spec.secret == Some(s)
  }

  /** The only write by which a pass makes a database refer to a secret is the patch of its spec. */
  lemma WritesNoUse(w: State, n: Name, p: Pass, c: Choice, s: Name)
    requires MoveOf(w, n, p, c).effect.PutDatabase? && !p.pc.CSecretSpec?
    requires UsesSecret(Stored(MoveOf(w, n, p, c).effect.database), s)
    ensures UsesSecret(Current(w, n), s)
  {
  }

  lemma SpecPatchGoes(w: State, n: Name, p: Pass, c: Choice)
    requires p.pc.CSecretSpec?
    ensures MoveOf(w, n, p, c).next.Go?
  {
  }

  lemma StartsByPatch(w: State, e: Event, n: Name, s: Name)
    requires e.Do? && e.n in w.passes && Uses(Step(w, e), n, s) && !Uses(w, n, s)
    ensures n == e.n && w.passes[n].pc.CSecretSpec?
    ensures var m := MoveOf(w, n, w.passes[n], e.choice);
            m.effect.PutDatabase? && m.next.Go?
  {
    var p := w.passes[e.n];
    var m := MoveOf(w, e.n, p, e.choice);
    if m.effect.PutDatabase? && !p.pc.CSecretSpec? && UsesSecret(Stored(m.effect.database), s) {
      WritesNoUse(w, e.n, p, e.choice, s);
    }
    if p.pc.CSecretSpec? { SpecPatchGoes(w, e.n, p, e.choice); }
    DoIs(w, e.n, e.choice);
    hide MoveOf, Step, Settle;
    var w1 := Commit(w, e.n, m.effect);
    SettleStores(w1, e.n, p, m.next);
    if n != e.n || !m.effect.PutDatabase? { CommitHistory(w, e.n, m.effect, n); }
  }

  /* ---- the theorems ---- */

  lemma DecidingClaims(w: State, e: Event, n: Name, s: Name)
    requires DecidesToMark(w, e, s) && Uses(w, n, s)
    ensures Uses(Step(w, e), n, s) && Claimed(Step(w, e), s)
  {
    var w' := Step(w, e);
    assert MoveOf(w, e.n, w.passes[e.n], e.choice) == Move(Quiet, At(w.passes[e.n], TSecretGet));
    assert Claims(w'.passes[e.n], s);
    assert History(w', n) == History(w, n);
  }

  /** From a safe state, the two guards are exactly what keeps the next state safe. */
  lemma SafeExactly(w: State, e: Event)
    requires Safe(w)
    ensures Safe(Step(w, e)) <==> Guarded(w, e)
  {
    hide Step, Uses, Claimed, DecidesToMark;
    var w' := Step(w, e);
    if Guarded(w, e) {
      forall n: Name, s: Name | Uses(w', n, s) ensures !Claimed(w', s) {
        if Claimed(w', s) {
          if !Claimed(w, s) { NewClaims(w, e, s); }
          if !Uses(w, n, s) { DecidingStartsNothing(w, e, n, s); }
        }
      }
    } else if Safe(w') {
      if !MarksUnused(w, e) {
        var n: Name, s: Name :| DecidesToMark(w, e, s) && Uses(w, n, s);
        DecidingClaims(w, e, n, s);
      } else {
        var n: Name, s: Name :| Uses(w', n, s) && !Uses(w, n, s) && Claimed(w, s);
        ClaimsKept(w, e, n, s);
      }
    }
  }

  lemma DecidingStartsNothing(w: State, e: Event, n: Name, s: Name)
    requires Uses(Step(w, e), n, s) && !Uses(w, n, s)
    ensures !DecidesToMark(w, e, s)
  {
    if e.Do? && e.n in w.passes { StartsByPatch(w, e, n, s); }
  }

  lemma {:induction false} SafeAlong(ws: seq<State>, es: seq<Event>, i: nat, k: nat)
    requires IsRun(ws, es) && Between(ws, es, i, k, Guarded) && Safe(ws[i])
    ensures Safe(ws[k])
  {
    hide Safe, Guarded, Step;
    if i < k {
      SafeAlong(ws, es, i, k - 1);
      assert Goes(ws, es, k - 1);
      SafeExactly(ws[k - 1], es[k - 1]);
    }
  }

  /**
   As long as every step since a safe state has kept the guards, over any number of databases,
   passes, crashes and failures: garbage collection never takes a secret that a live database refers
   to. The empty namespace is safe.
   */
  lemma UsedSecretsSurvive(ws: seq<State>, es: seq<Event>, i: nat, k: nat, n: Name, s: Name)
    requires IsRun(ws, es) && i <= k < |es| && Between(ws, es, i, k, Guarded) && Safe(ws[i])
    requires es[k] == CollectSecret(s) && Uses(ws[k], n, s) && s in ws[k].secrets
    ensures s in ws[k + 1].secrets && ws[k + 1].secrets[s] == ws[k].secrets[s]
  {
    SafeAlong(ws, es, i, k);
    assert Goes(ws, es, k);
  }

  /** The lister is current when it matters, and nobody comes to refer to a claimed secret. */
  ghost predicate Careful(w: State, e: Event) { ListerCurrent(w, e) && RefersUnclaimed(w, e) }

  /** The same with a lister that is current whenever a pass asks it. */
  lemma CurrentListerProtects(ws: seq<State>, es: seq<Event>, k: nat, n: Name, s: Name)
    requires IsRun(ws, es) && k < |es| && Between(ws, es, 0, k, Careful)
    requires es[k] == CollectSecret(s) && Uses(ws[k], n, s) && s in ws[k].secrets
    ensures s in ws[k + 1].secrets && ws[k + 1].secrets[s] == ws[k].secrets[s]
  {
    forall i: nat | 0 <= i < k ensures Guarded(ws[i], es[i]) {
      assert Careful(ws[i], es[i]);
      CurrentListerSuffices(ws[i], es[i]);
    }
    SafeInitially();
    UsedSecretsSurvive(ws, es, 0, k, n, s);
  }

  lemma SafeInitially()
    ensures Safe(Initial)
  {
  }

  /** A WipeOut pass never takes back a mark an earlier attempt has set, whatever the lister now says. */
  lemma WipeOutNeverStrips(w: State, n: Name, c: Choice, s: Name)
    requires n in w.passes && MarksSecret(w.passes[n].px)
    requires w.passes[n].pc.TSecretPatch? && s == SecretName(w.passes[n].px) && s in w.secrets ==>
      w.passes[n].pc.snapshot == w.secrets[s].owners
    requires s in w.secrets && w.passes[n].px.uid in w.secrets[s].owners
    ensures s in Step(w, Do(n, c)).secrets && w.passes[n].px.uid in Step(w, Do(n, c)).secrets[s].owners
  {
    var p := w.passes[n];
    var m := MoveOf(w, n, p, c);
    if m.effect.PutSecret? && m.effect.secretName == s { MarkStaysInWrite(w, n, p, c); }
    hide MoveOf;
    SettleStores(Commit(w, n, m.effect), n, p, m.next);
  }

  lemma MarkStaysInWrite(w: State, n: Name, p: Pass, c: Choice)
    requires MarksSecret(p.px) && MoveOf(w, n, p, c).effect.PutSecret?
    requires MoveOf(w, n, p, c).effect.secretName in w.secrets
    ensures var e := MoveOf(w, n, p, c).effect;
      e.secret.owners == w.secrets[e.secretName].owners || p.px.uid in e.secret.owners
  {
  }
}
