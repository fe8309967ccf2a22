/**
 The secret the operator generates: what it has when it is created, what it keeps from then on, and
 that it is what the database is bound to.
 */
module Passwords {
  import opened Options
  import opened Cluster
  import opened Passes
  import opened SharedSecrets
  import opened Credentials
  import WipeOuts

  /** The look-up leads to the creation only if the secret is not there, and to an error if it is another's. */
  lemma LooksUpFirst(w: State, n: Name, c: Choice)
    requires n in w.passes && w.passes[n].pc == CSecretGet
    ensures var w', s := Step(w, Do(n, c)), n + "-auth";
      && w'.secrets == w.secrets && n in w'.passes && w'.passes[n].px == w.passes[n].px
      && (w'.passes[n].pc == CSecretCreate <==> c.outcome == Ok && s !in w.secrets)
      && (w'.passes[n].pc == CSecretSpec <==> c.outcome == Ok && s in w.secrets && w.secrets[s].labelled == Some(n))
  {
    hide Step;
    StepMoves(w, n, c);
    LookUpMove(w, n, w.passes[n], c);
    hide MoveOf;
  }

  lemma LookUpMove(w: State, n: Name, p: Pass, c: Choice)
    requires p.pc == CSecretGet
    ensures var m, s := MoveOf(w, n, p, c), n + "-auth";
      && m.effect.Quiet? && m.next.Go? && m.next.pass.px == p.px
      && (m.next.pass.pc == CSecretCreate <==> c.outcome == Ok && s !in w.secrets)
      && (m.next.pass.pc == CSecretSpec <==> c.outcome == Ok && s in w.secrets && w.secrets[s].labelled == Some(n))
  {
  }

  /** The pass creates the secret of the database's name: it is not there, and the call gets through. */
  predicate Generates(w: State, n: Name, c: Choice) {
    n in w.passes && w.passes[n].pc == CSecretCreate && n + "-auth" !in w.secrets && c.outcome != Failed
  }

  /** A secret of the database, with the user's name under its key and this password. */
  predicate Credential(s: Secret, n: Name, password: nat) {
    s.labelled == Some(n) && s.password == Some(password) && s.username && !s.legacyUser
  }

  lemma CreateCallMove(w: State, n: Name, p: Pass, c: Choice)
    requires p.pc == CSecretCreate
    ensures var e, s := MoveOf(w, n, p, c).effect, n + "-auth";
      if s !in w.secrets && c.outcome != Failed then
        e.PutSecret? && e.secretName == s && e.secret.id == w.nextId && e.secret.owners == {} && Credential(e.secret, n, c.password)
      else e.Quiet?
  {
  }

  /** What is created has the generated password, the user name, the label and no owner; else nothing changes. */
  lemma GeneratesCredential(w: State, n: Name, c: Choice)
    requires n in w.passes && w.passes[n].pc == CSecretCreate
    ensures var secrets, s := Step(w, Do(n, c)).secrets, n + "-auth";
      if Generates(w, n, c) then
        && secrets == w.secrets[s := secrets[s]]
        && secrets[s].id == w.nextId && secrets[s].owners == {} && Credential(secrets[s], n, c.password)
      else secrets == w.secrets
  {
    hide Step;
    StepMoves(w, n, c);
    CreateCallMove(w, n, w.passes[n], c);
    hide MoveOf;
  }

  /* ---- kept over runs ---- */

  /** The secret that had this id is gone, or still has what it was generated with. */
  predicate KeepsCredential(w: State, s: Name, id: nat, n: Name, password: nat) {
    id < w.nextId && (s in w.secrets && w.secrets[s].id == id ==>
      w.secrets[s].labelled == Some(n) && w.secrets[s].password == Some(password) && w.secrets[s].username)
  }

  lemma WritesKeepCredential(w: State, n: Name, p: Pass, c: Choice)
    requires MoveOf(w, n, p, c).effect.PutSecret?
    ensures var e := MoveOf(w, n, p, c).effect;
      e.secretName in w.secrets ==>
        var x := w.secrets[e.secretName];
        && e.secret.id == x.id && e.secret.password == x.password && e.secret.labelled == x.labelled
        && (x.username ==> e.secret.username)
  {
    if p.pc.Creates() { hide TerminateMove, HaltMove; } else { hide CreateMove; }
  }

  lemma EventKeepsCredential(w: State, e: Event, s: Name)
    requires !e.Do? && s in w.secrets && s in Step(w, e).secrets
    ensures Step(w, e).secrets[s] == w.secrets[s]
  {
    if IsUser(e) {
      UserIs(w, e);
      UserSecrets(w, e);
      hide Step, UserStep;
    } else if IsObject(e) {
      ObjectIs(w, e);
      hide Step;
    }
  }

  lemma CredentialKept(w: State, e: Event, s: Name, id: nat, n: Name, password: nat)
    requires KeepsCredential(w, s, id, n, password)
    ensures KeepsCredential(Step(w, e), s, id, n, password)
  {
    hide Step;
    WipeOuts.NextIdGrows(w, e);
    if s !in w.secrets || w.secrets[s].id != id {
      WipeOuts.IdsAreNew(w, e, s, id);
    } else if s in Step(w, e).secrets {
      if !e.Do? {
        EventKeepsCredential(w, e, s);
      } else if e.n !in w.passes {
        NothingToDo(w, e);
      } else {
        StepMoves(w, e.n, e.choice);
        if MoveOf(w, e.n, w.passes[e.n], e.choice).effect.PutSecret? { WritesKeepCredential(w, e.n, w.passes[e.n], e.choice); }
        hide MoveOf;
      }
    }
  }

  lemma {:induction false} CredentialAlong(ws: seq<State>, es: seq<Event>, i: nat, j: nat, s: Name, id: nat, n: Name, password: nat)
    requires IsRun(ws, es) && i <= j < |ws| && KeepsCredential(ws[i], s, id, n, password)
    ensures KeepsCredential(ws[j], s, id, n, password)
  {
    hide Step, KeepsCredential;
    if i < j {
      CredentialAlong(ws, es, i, j - 1, s, id, n, password);
      assert Goes(ws, es, j - 1);
      CredentialKept(ws[j - 1], es[j - 1], s, id, n, password);
    }
  }

  lemma JustGenerated(w: State, n: Name, c: Choice)
    requires Generates(w, n, c)
    ensures KeepsCredential(Step(w, Do(n, c)), n + "-auth", w.nextId, n, c.password)
  {
    hide Step;
    GeneratesCredential(w, n, c);
    StepMoves(w, n, c);
    CreateCallMove(w, n, w.passes[n], c);
    hide MoveOf;
  }

  /**
   Over all runs: a secret the operator has generated has, for as long as that very secret is there,
   the generated password, the user name and the database's label, whatever passes did to it since.
   */
  lemma GeneratedKeeps(ws: seq<State>, es: seq<Event>, i: nat, j: nat, n: Name, c: Choice)
    requires IsRun(ws, es) && i < j < |ws| && es[i] == Do(n, c) && Generates(ws[i], n, c)
    requires n + "-auth" in ws[j].secrets && ws[j].secrets[n + "-auth"].id == ws[i].nextId
    ensures var x := ws[j].secrets[n + "-auth"];
      x.password == Some(c.password) && x.username && x.labelled == Some(n)
  {
    assert Goes(ws, es, i);
    JustGenerated(ws[i], n, c);
    CredentialAlong(ws, es, i + 1, j, n + "-auth", ws[i].nextId, n, c.password);
    hide Step;
  }

  /**
   While nobody deletes or wipes out the generated secret, it is there with its password and user
   name whenever the operator is about to bind the database, and that is what it binds it to.
   */
  lemma BindsGenerated(ws: seq<State>, es: seq<Event>, i: nat, k: nat, n: Name, c: Choice)
    requires i < k < |es| && SecretSpared(ws, es, i, k + 1, n + "-auth") && !Claimed(ws[i], n + "-auth")
    requires es[i] == Do(n, c) && Generates(ws[i], n, c)
    requires es[k].Do? && es[k].n == n && n in ws[k].passes && ws[k].passes[n].pc.CSecretSpec?
    ensures n + "-auth" in ws[k].secrets
    ensures var x := ws[k].secrets[n + "-auth"];
      x.password == Some(c.password) && x.username && x.labelled == Some(n)
    ensures Current(ws[k + 1], n) != Current(ws[k], n) ==>
      Current(ws[k + 1], n).Some? && Current(ws[k + 1], n).value.spec.secret == Some(n + "-auth")
  {
    hide Step, Claimed;
    assert AuthSecret(n) == n + "-auth";
    assert Goes(ws, es, i);
    GeneratesCredential(ws[i], n, c);
    UnclaimedAlong(ws, es, i, i + 1, n + "-auth");
    GeneratedOnce(ws, es, i + 1, k, n + "-auth");
    GeneratedKeeps(ws, es, i, k, n, c);
    if Current(ws[k + 1], n) != Current(ws[k], n) { RecreatedBindsSame(ws, es, i + 1, k, n); }
  }
}
