/**
 Secrets from before 0.9.0, which have the user's name under an old key: the pass that binds a
 database to one does not upgrade it, and a later pass does. That is the only thing about which a
 create pass is not restartable.
 */
module Upgrades {
  import opened Options
  import opened Cluster
  import opened Passes
  import opened Restart

  /** `w` as it would be had the database's own secret no old user key. */
  function Cleared(w: State, n: Name): State
    requires AuthSecret(n) in w.secrets
  {
    w.(secrets := w.secrets[AuthSecret(n) := w.secrets[AuthSecret(n)].(legacyUser := false)])
  }

  /** A pass that is going to bind the database, or has bound it, and touches no secret. */
  predicate Binds(w: State, n: Name, p: Pass) {
    if p.pc.Start? then
      && !p.px.spec.halted && p.px.spec.secret.None?
      && Current(w, n).Some? && !Current(w, n).value.spec.halted && Current(w, n).value.spec.secret.None?
    else if p.pc.Creates() then
      11 <= Rank(p.pc) || (p.px.spec.secret.None? && !p.pc.CUpgrade? && !p.pc.CSecretCreate?)
    else p.pc.FailGet? || p.pc.FailPut?
  }

  predicate BindsOnly(w: State, n: Name) {
    AuthSecret(n) in w.secrets && (n in w.passes ==> Binds(w, n, w.passes[n]))
  }

  lemma CreateBinds(w: State, n: Name, p: Pass, c: Choice)
    requires AuthSecret(n) in w.secrets && Binds(w, n, p) && p.pc.Creates()
    ensures var m := CreateMove(w, n, p, c.outcome, c.password);
      !m.effect.PutSecret? && (m.next.Go? ==> !m.next.pass.pc.Start? && Binds(w, n, m.next.pass))
  {
  }

  lemma MoveBinds(w: State, n: Name, p: Pass, c: Choice)
    requires AuthSecret(n) in w.secrets && Binds(w, n, p)
    ensures var m := MoveOf(w, n, p, c);
      !m.effect.PutSecret? && (m.next.Go? ==> !m.next.pass.pc.Start? && Binds(w, n, m.next.pass))
  {
    if p.pc.Creates() { CreateBinds(w, n, p, c); }
    hide CreateMove, HaltMove, TerminateMove;
  }

  lemma CreateClears(w: State, n: Name, p: Pass, c: Choice)
    requires AuthSecret(n) in w.secrets && Binds(w, n, p) && p.pc.Creates()
    ensures CreateMove(Cleared(w, n), n, p, c.outcome, c.password) == CreateMove(w, n, p, c.outcome, c.password)
  {
    ClearedReads(w, n);
  }

  /** What such a pass reads is the same. */
  lemma ClearedReads(w: State, n: Name)
    requires AuthSecret(n) in w.secrets
    ensures var w' := Cleared(w, n);
      && w'.secrets.Keys == w.secrets.Keys && w'.secrets[AuthSecret(n)].labelled == w.secrets[AuthSecret(n)].labelled
      && w'.objs == w.objs && w'.hist == w.hist && w'.governing == w.governing && History(w', n) == History(w, n)
  {
  }

  lemma MoveClears(w: State, n: Name, p: Pass, c: Choice)
    requires AuthSecret(n) in w.secrets && Binds(w, n, p)
    ensures MoveOf(Cleared(w, n), n, p, c) == MoveOf(w, n, p, c)
  {
    ClearedReads(w, n);
    if p.pc.Creates() { CreateClears(w, n, p, c); }
    hide CreateMove, HaltMove, TerminateMove;
  }

  lemma CommitClears(w: State, n: Name, e: Effect)
    requires AuthSecret(n) in w.secrets && !e.PutSecret?
    ensures Commit(w, n, e).secrets == w.secrets && Commit(Cleared(w, n), n, e) == Cleared(Commit(w, n, e), n)
  {
  }

  lemma SettleClears(w: State, n: Name, p: Pass, next: Next)
    requires AuthSecret(n) in w.secrets
    ensures Settle(w, n, p, next).secrets == w.secrets
    ensures Settle(Cleared(w, n), n, p, next) == Cleared(Settle(w, n, p, next), n)
  {
  }

  /** A call of a pass that binds does the same with and without the old key, and leaves the secrets alone. */
  lemma CallClears(w: State, n: Name, c: Choice)
    requires BindsOnly(w, n)
    ensures var w' := Step(w, Do(n, c));
      BindsOnly(w', n) && w'.secrets == w.secrets && Step(Cleared(w, n), Do(n, c)) == Cleared(w', n)
  {
    hide Step, MoveOf, Commit, Settle, Binds, AuthSecret;
    var e := Do(n, c);
    if n !in w.passes {
      NothingToDo(w, e);
      NothingToDo(Cleared(w, n), e);
    } else {
      var p := w.passes[n];
      var m := MoveOf(w, n, p, c);
      var w1 := Commit(w, n, m.effect);
      MoveBinds(w, n, p, c);
      MoveClears(w, n, p, c);
      CommitClears(w, n, m.effect);
      SettleClears(w1, n, p, m.next);
      DoIs(w, n, c);
      DoIs(Cleared(w, n), n, c);
      if n in Step(w, e).passes {
        SettlePasses(w1, n, p, m.next, n);
        LaterBinds(w, Step(w, e), n, m.next.pass);
      }
    }
  }

  lemma LaterBinds(w: State, w': State, n: Name, p: Pass)
    requires Binds(w, n, p) && !p.pc.Start?
    ensures Binds(w', n, p)
  {
  }

  lemma {:induction false} RunClears(w: State, n: Name, password: nat, k: nat)
    requires BindsOnly(w, n)
    ensures var w' := Uninterrupted(w, n, password, k);
      w'.secrets == w.secrets && Uninterrupted(Cleared(w, n), n, password, k) == Cleared(w', n)
    decreases k
  {
    hide Step, BindsOnly, AuthSecret;
    assert AuthSecret(n) in w.secrets by { BindingHas(w, n); }
    if k > 0 && n in w.passes {
      var w1 := Step(w, Do(n, Succeeds(password)));
      CallClears(w, n, Succeeds(password));
      BindingHas(w1, n);
      RunClears(w1, n, password, k - 1);
    }
  }

  lemma BindingHas(w: State, n: Name)
    requires BindsOnly(w, n)
    ensures AuthSecret(n) in w.secrets
  {
  }

  /** At the call `pc` for a database named "n" whose own secret still needs the upgrade. */
  ghost predicate Legacy(w: State, n: Name, pc: PC) {
    && n in w.passes && w.passes[n].pc == pc && Current(w, n).Some? && !Current(w, n).value.deleting
    && AuthSecret(n) in w.secrets && w.secrets[AuthSecret(n)].labelled == Some(n) && NeedsUpgrade(w.secrets[AuthSecret(n)])
  }

  lemma LegacyFound(w: State, n: Name, password: nat)
    requires Legacy(w, n, CSecretGet)
    ensures var w' := Step(w, Do(n, Succeeds(password)));
            Legacy(w', n, CSecretSpec) && w'.hist == w.hist && w'.secrets == w.secrets
  {
    assert MoveOf(w, n, w.passes[n], Succeeds(password)) == Move(Quiet, At(w.passes[n], CSecretSpec));
    hide MoveOf;
  }

  lemma LegacyBound(w: State, n: Name, password: nat)
    requires Legacy(w, n, CSecretSpec) && Current(w, n).value.spec.secret.None?
    ensures var w' := Step(w, Do(n, Succeeds(password)));
            Legacy(w', n, CVersion) && w'.secrets == w.secrets
  {
    var m := MoveOf(w, n, w.passes[n], Succeeds(password));
    assert m.effect.PutDatabase? && !m.effect.database.deleting && m.next == At(m.next.pass, CVersion);
    hide MoveOf, Step;
    StepMoves(w, n, Succeeds(password));
  }

  lemma LegacyUpgraded(w: State, n: Name, password: nat)
    requires Legacy(w, n, CUpgrade) && w.passes[n].px.spec.secret == Some(AuthSecret(n))
    ensures var w' := Step(w, Do(n, Succeeds(password)));
            AuthSecret(n) in w'.secrets && !NeedsUpgrade(w'.secrets[AuthSecret(n)])
  {
    var m := MoveOf(w, n, w.passes[n], Succeeds(password));
    assert m.effect == PutSecret(AuthSecret(n), UpgradedSecret(w, AuthSecret(n)));
    hide MoveOf;
    SettleStores(Commit(w, n, m.effect), n, w.passes[n], m.next);
  }

  /**
   A database not yet bound whose own secret lacks the user name key: the pass that binds it goes
   past the upgrade and leaves the key missing.
   */
  lemma BindingSkipsUpgrade(w: State, n: Name, password: nat)
    requires Legacy(w, n, CSecretGet) && Current(w, n).value.spec.secret.None?
    ensures var c := Do(n, Succeeds(password));
            Legacy(Step(Step(w, c), c), n, CVersion)
  {
    hide Step;
    LegacyFound(w, n, password);
    LegacyBound(Step(w, Do(n, Succeeds(password))), n, password);
  }

  /* ---- exactly when a retry ends with other secrets ---- */

  /** A create pass can succeed, but for the proviso about the secret. */
  predicate MostlyCalm(w: State, n: Name) {
    && Current(w, n).Some?
    && CanCreate(w, n, Current(w, n).value) && SecretUsable(w, n, Current(w, n).value)
  }

  /** No pass is under way and the informer has seen everything. */
  predicate Idle(w: State, n: Name) { n !in w.passes && Seen(w, n) == |History(w, n)| }

  /**
   Some attempts, cut off or not, after which one more uninterrupted pass ends with secrets that no
   uninterrupted pass from the start would have left, whatever passwords are drawn.
   */
  ghost predicate RetryDiffers(w: State, n: Name) {
    exists es: seq<Event>, password: nat :: AllOwn(es, n) && n !in After(w, es).passes &&
      forall p: nat :: OnePass(w, n, p).secrets != OnePass(After(w, es), n, password).secrets
  }

  lemma TakeClears(w: State, n: Name)
    requires MostlyCalm(w, n) && Idle(w, n) && LegacyUnbound(w, n, Current(w, n).value)
    ensures var w' := Step(w, Take(n));
      BindsOnly(w', n) && w'.secrets == w.secrets && Step(Cleared(w, n), Take(n)) == Cleared(w', n)
  {
    TakeIs(w, n);
    TakeIs(Cleared(w, n), n);
    hide Step;
    assert Cached(w, n) == Current(w, n) && Cached(Cleared(w, n), n) == Current(w, n);
  }

  lemma PassClears(w: State, n: Name, password: nat)
    requires MostlyCalm(w, n) && Idle(w, n) && LegacyUnbound(w, n, Current(w, n).value)
    ensures var w' := OnePass(w, n, password);
      w'.secrets == w.secrets && OnePass(Cleared(w, n), n, password) == Cleared(w', n)
  {
    TakeClears(w, n);
    RunClears(Step(w, Take(n)), n, password, MaxCalls);
    hide *;
  }

  /** The same database without the old key is one whose pass reaches its goal. */
  lemma ClearedIsUnderway(w: State, n: Name)
    requires MostlyCalm(w, n) && Idle(w, n) && LegacyUnbound(w, n, Current(w, n).value)
    ensures Underway(Cleared(w, n), n) && Current(Cleared(w, n), n) == Current(w, n)
  {
    var w' := Cleared(w, n);
    assert History(w', n) == History(w, n);
    assert Calm(w', n);
    CurrentInformerSuffices(w', n);
    hide Underway;
  }

  function Successes(n: Name, password: nat, k: nat): (es: seq<Event>)
    ensures AllOwn(es, n)
  {
    if k == 0 then [] else [Do(n, Succeeds(password))] + Successes(n, password, k - 1)
  }

  lemma {:induction false} NothingIsDone(w: State, n: Name, password: nat, k: nat)
    requires n !in w.passes
    ensures After(w, Successes(n, password, k)) == w
  {
    hide Step;
    if k > 0 {
      NothingToDo(w, Do(n, Succeeds(password)));
      assert Successes(n, password, k)[1..] == Successes(n, password, k - 1);
      NothingIsDone(w, n, password, k - 1);
    }
  }

  lemma {:induction false} RunIsAfter(w: State, n: Name, password: nat, k: nat)
    ensures Uninterrupted(w, n, password, k) == After(w, Successes(n, password, k))
    decreases k
  {
    hide Step;
    if n !in w.passes {
      NothingIsDone(w, n, password, k);
    } else if k > 0 {
      assert Successes(n, password, k)[1..] == Successes(n, password, k - 1);
      RunIsAfter(Step(w, Do(n, Succeeds(password))), n, password, k - 1);
    }
  }

  /** A whole pass, and then a crash, after which the informer lists everything. */
  function PassAndCrash(n: Name): (es: seq<Event>)
    ensures AllOwn(es, n)
  {
    [Take(n)] + Successes(n, 0, MaxCalls) + [Crash]
  }

  lemma PassAndCrashLeaves(w: State, n: Name)
    ensures After(w, PassAndCrash(n)) == Restarted(OnePass(w, n, 0))
  {
    hide Restarted;
    var pass := [Take(n)] + Successes(n, 0, MaxCalls);
    AfterAppend(w, pass, Crash);
    assert Step(After(w, pass), Crash) == Restarted(After(w, pass));
    hide Step;
    assert pass[0] == Take(n) && pass[1..] == Successes(n, 0, MaxCalls);
    RunIsAfter(Step(w, Take(n)), n, 0, MaxCalls);
  }

  /** A state with the same stores, but for the old key, and the database bound: a pass will upgrade. */
  lemma BoundIsCalm(w: State, n: Name)
    requires AuthSecret(n) in w.secrets && Calm(Cleared(w, n), n)
    requires Current(Cleared(w, n), n).Some? && Current(Cleared(w, n), n).value.spec.secret == Some(AuthSecret(n))
    ensures var w' := Restarted(w);
      && Underway(w', n) && n !in w'.passes && w'.secrets == w.secrets
      && Current(w', n).Some? && Current(w', n).value.spec.secret == Some(AuthSecret(n))
  {
    var w' := Restarted(w);
    assert History(w', n) == History(w, n) == History(Cleared(w, n), n);
    assert Seen(w', n) == |History(w', n)|;
    assert Calm(w', n);
    CurrentInformerSuffices(w', n);
    hide Underway;
  }

  lemma FirstPassBinds(w: State, n: Name)
    requires MostlyCalm(w, n) && Idle(w, n) && LegacyUnbound(w, n, Current(w, n).value)
    ensures var w' := After(w, PassAndCrash(n));
      && Underway(w', n) && n !in w'.passes && w'.secrets == w.secrets
      && Current(w', n).Some? && Current(w', n).value.spec.secret == Some(AuthSecret(n))
  {
    var d := OnePass(w, n, 0);
    PassClears(w, n, 0);
    ClearedIsUnderway(w, n);
    OnePassReaches(Cleared(w, n), n, 0);
    OnePassUnderway(Cleared(w, n), n, 0);
    PassAndCrashLeaves(w, n);
    hide OnePass, Underway, Restarted, Step, Cleared, Calm;
    BoundIsCalm(d, n);
  }

  lemma OnePassUnderway(w: State, n: Name, password: nat)
    requires Underway(w, n)
    ensures Calm(OnePass(w, n, password), n)
  {
    hide Step, Underway;
    assert AllOwn([Take(n)] + Successes(n, password, MaxCalls), n);
    var drawn := AfterKeepsUnderway(w, [Take(n)] + Successes(n, password, MaxCalls), n, password);
    assert ([Take(n)] + Successes(n, password, MaxCalls))[1..] == Successes(n, password, MaxCalls);
    RunIsAfter(Step(w, Take(n)), n, password, MaxCalls);
    UnderwayCalm(OnePass(w, n, password), n);
  }

  lemma UnderwayCalm(w: State, n: Name)
    requires Underway(w, n)
    ensures Calm(w, n)
  {
  }

  /** The next pass adds the user name key. */
  lemma NextPassUpgrades(w: State, n: Name)
    requires Underway(w, n) && n !in w.passes && AuthSecret(n) in w.secrets && NeedsUpgrade(w.secrets[AuthSecret(n)])
    requires Current(w, n).Some? && Current(w, n).value.spec.secret == Some(AuthSecret(n))
    ensures OnePass(w, n, 0).secrets != w.secrets
  {
    OnePassReaches(w, n, 0);
    hide OnePass, Underway, GoalObjects;
  }

  /**
   Whatever passes were cut off, and wherever, a retry ends with the secrets of an uninterrupted pass,
   if and only if the database is bound already, or its own secret is not one from before 0.9.0.
   */
  lemma RetryDiffersExactly(w: State, n: Name)
    requires MostlyCalm(w, n) && Idle(w, n)
    ensures RetryDiffers(w, n) <==> LegacyUnbound(w, n, Current(w, n).value)
  {
    if LegacyUnbound(w, n, Current(w, n).value) {
      var es := PassAndCrash(n);
      FirstPassBinds(w, n);
      NextPassUpgrades(After(w, es), n);
      forall p: nat ensures OnePass(w, n, p).secrets != OnePass(After(w, es), n, 0).secrets { PassClears(w, n, p); }
      hide OnePass, After, Underway;
    } else if RetryDiffers(w, n) {
      CurrentInformerSuffices(w, n);
      hide OnePass, After, Underway;
      var es: seq<Event>, password: nat :| AllOwn(es, n) && n !in After(w, es).passes &&
        forall p: nat :: OnePass(w, n, p).secrets != OnePass(After(w, es), n, password).secrets;
      Restartable(w, es, n, password);
    }
  }
}
