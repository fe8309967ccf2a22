/**
 A termination from beginning to end: what an uninterrupted `terminate` leaves of owner references
 under each policy, and that the database is gone after it.
 */
module Terminations {
  import opened Options
  import opened Cluster
  import opened Passes
  import Ownership

  /* ---- what is to be left ---- */

  /** Under Halt the database owns none of the PVCs with its label, under any other policy all of them. */
  function PvcGoal(w: State, n: Name, px: Database): map<Name, Pvc> {
    map v | v in w.pvcs ::
      if w.pvcs[v].labelled != Some(n) then w.pvcs[v]
      else if px.spec.policy == Policy.Halt then w.pvcs[v].(owners := w.pvcs[v].owners - {px.uid})
      else w.pvcs[v].(owners := w.pvcs[v].owners + {px.uid})
  }

  /** Under WipeOut it owns its secret, unless the lister shows a peer using it; under any other policy it does not. */
  ghost function SecretGoal(w: State, n: Name, px: Database): map<Name, Secret> {
    if px.spec.secret.None? || px.spec.secret.value !in w.secrets then w.secrets
    else
      var s := px.spec.secret.value;
      var x := w.secrets[s];
      if px.spec.policy != WipeOut then w.secrets[s := x.(owners := x.owners - {px.uid})]
      else if Ownership.PeerListed(w, n, s) then w.secrets
      else w.secrets[s := x.(owners := x.owners + {px.uid})]
  }

  /* ---- the run ---- */

  /** The next call of the pass, which succeeds; the patch loop takes some PVC that is left. */
  ghost function NextCall(p: Pass): Choice {
    var item := if p.pc.TPvcPatch? && p.pc.todo != map[] then (var v :| v in p.pc.todo; v) else "";
    Choice(Ok, item, 0, false, {})
  }

  /** The pass of `n` run alone and without failure, for at most so many calls. */
  ghost function TerminateRun(w: State, n: Name, calls: nat): State
    decreases calls
  {
    if calls == 0 || n !in w.passes then w else TerminateRun(Step(w, Do(n, NextCall(w.passes[n]))), n, calls - 1)
  }

  /* ---- where the pass is ---- */

  predicate AtSecret(pc: PC) { pc.TPeers? || pc.TSecretGet? || pc.TSecretPatch? }

  predicate AtPvcs(pc: PC) { pc.TPvcList? || pc.TPvcPatch? }

  /** Under Halt the PVCs come first, under other policies the secret. */
  predicate SecretPending(px: Database, pc: PC) {
    AtSecret(pc) || (px.spec.policy == Policy.Halt && AtPvcs(pc))
  }

  predicate PvcsPending(px: Database, pc: PC) {
    pc.TPvcList? || (px.spec.policy != Policy.Halt && AtSecret(pc))
  }

  ghost predicate SecretSide(w0: State, w: State, n: Name, px: Database, pc: PC) {
    && w.secrets == (if SecretPending(px, pc) then w0.secrets else SecretGoal(w0, n, px))
    && (pc.TPeers? ==> px.spec.policy == WipeOut)
    && (pc.TSecretGet? || pc.TSecretPatch? ==>
          px.spec.secret.Some? && (px.spec.policy == WipeOut ==> !Ownership.PeerListed(w0, n, px.spec.secret.value)))
    && (pc.TSecretPatch? ==>
          && px.spec.secret.value in w0.secrets && pc.snapshot == w0.secrets[px.spec.secret.value].owners)
  }

  predicate PvcSide(w0: State, w: State, n: Name, px: Database, pc: PC) {
    if pc.TPvcPatch? then
      && !pc.failed && pc.todo != map[] && w.pvcs.Keys == w0.pvcs.Keys
      && (forall v :: v in pc.todo ==> v in w0.pvcs && w0.pvcs[v].labelled == Some(n) && pc.todo[v] == w0.pvcs[v])
      && (forall v :: v in w0.pvcs ==> w.pvcs[v] == if v in pc.todo then w0.pvcs[v] else PvcGoal(w0, n, px)[v])
    else if PvcsPending(px, pc) then w.pvcs == w0.pvcs
    else w.pvcs == PvcGoal(w0, n, px)
  }

  ghost predicate Underway(w0: State, w: State, n: Name, px: Database, p: Pass) {
    && p.px == px && p.pc.Terminates()
    && w.hist == w0.hist && w.seen == w0.seen && w.objs == w0.objs
    && SecretSide(w0, w, n, px, p.pc) && PvcSide(w0, w, n, px, p.pc)
  }

  function Ahead(px: Database, pc: PC): nat {
    var halt := px.spec.policy == Policy.Halt;
    match pc
    case TPeers => 9
    case TSecretGet => if halt then 3 else 8
    case TSecretPatch(_) => if halt then 2 else 7
    case TPvcList => 6
    case TPvcPatch(_, _) => 5
    case TFinalizer => 1
    case _ => 0
  }

  function Left(pc: PC): nat { if pc.TPvcPatch? then |pc.todo| else 0 }

  ghost predicate MovesOn(w0: State, w: State, n: Name, px: Database, p: Pass, m: Move) {
    && m.next.Go? && m.next.pass.px == px && m.next.pass.pc.Terminates()
    && (m.effect.Quiet? || m.effect.PutSecret? || m.effect.PutPvc?)
    && SecretSide(w0, Commit(w, n, m.effect), n, px, m.next.pass.pc)
    && PvcSide(w0, Commit(w, n, m.effect), n, px, m.next.pass.pc)
    && (Ahead(px, m.next.pass.pc) < Ahead(px, p.pc) ||
        (Ahead(px, m.next.pass.pc) == Ahead(px, p.pc) && Left(m.next.pass.pc) < Left(p.pc)))
  }

  lemma PeersMovesOn(w0: State, w: State, n: Name, px: Database, p: Pass)
    requires Underway(w0, w, n, px, p) && p.pc.TPeers?
    ensures MovesOn(w0, w, n, px, p, MoveOf(w, n, p, NextCall(p)))
  {
    Ownership.PeersNext(w, n, p, NextCall(p));
    if px.spec.secret.Some? {
      Ownership.PeersAreListed(w, n, px.spec.secret.value);
      SameListed(w0, w, n, px.spec.secret.value);
    }
    hide MoveOf, UsedByPeers, Ownership.PeerListed, PvcGoal;
  }

  lemma SameListed(w0: State, w: State, n: Name, s: Name)
    requires w.hist == w0.hist && w.seen == w0.seen
    ensures Ownership.PeerListed(w, n, s) <==> Ownership.PeerListed(w0, n, s)
  {
    forall m: Name ensures Cached(w, m) == Cached(w0, m) { }
  }

  lemma GetMovesOn(w0: State, w: State, n: Name, px: Database, p: Pass)
    requires Underway(w0, w, n, px, p) && p.pc.TSecretGet?
    ensures MovesOn(w0, w, n, px, p, MoveOf(w, n, p, NextCall(p)))
  {
    hide PvcGoal, Ownership.PeerListed;
    var s := px.spec.secret.value;
    if s in w0.secrets {
      assert (px.uid in w0.secrets[s].owners) == (px.spec.policy == WipeOut) ==> SecretGoal(w0, n, px) == w0.secrets by {
        Unchanged(w0.secrets, s, px.uid);
      }
    }
  }

  lemma Unchanged(secrets: map<Name, Secret>, s: Name, uid: nat)
    requires s in secrets
    ensures uid in secrets[s].owners ==> secrets[s := secrets[s].(owners := secrets[s].owners + {uid})] == secrets
    ensures uid !in secrets[s].owners ==> secrets[s := secrets[s].(owners := secrets[s].owners - {uid})] == secrets
  {
    if uid in secrets[s].owners { assert secrets[s].owners + {uid} == secrets[s].owners; }
    else { assert secrets[s].owners - {uid} == secrets[s].owners; }
  }

  lemma PatchMovesOn(w0: State, w: State, n: Name, px: Database, p: Pass)
    requires Underway(w0, w, n, px, p) && p.pc.TSecretPatch?
    ensures MovesOn(w0, w, n, px, p, MoveOf(w, n, p, NextCall(p)))
  {
    hide PvcGoal, Ownership.PeerListed, TerminateMove;
    Ownership.SecretPatchNext(w, n, p, NextCall(p));
    Ownership.TerminatesByMove(w, n, p, NextCall(p));
    hide MoveOf;
  }

  /** Once the PVCs are done, the secret follows under Halt and the finalizer otherwise. */
  lemma PvcsDone(w0: State, w: State, n: Name, px: Database)
    requires w.pvcs == PvcGoal(w0, n, px)
    requires w.secrets == if px.spec.policy == Policy.Halt then w0.secrets else SecretGoal(w0, n, px)
    ensures SecretSide(w0, w, n, px, AfterPvcsAt(px)) && PvcSide(w0, w, n, px, AfterPvcsAt(px))
  {
    hide PvcGoal, Ownership.PeerListed;
  }

  lemma ListedTodo(w0: State, w: State, n: Name, px: Database)
    requires w.pvcs == w0.pvcs
    ensures var todo := LabelledPvcs(w, n);
      && (todo != map[] ==> PvcSide(w0, w, n, px, TPvcPatch(todo, false)))
      && (todo == map[] ==> w.pvcs == PvcGoal(w0, n, px))
  {
    var todo := LabelledPvcs(w, n);
    if todo == map[] { assert forall v :: v in w.pvcs ==> v !in todo; }
  }

  lemma ListMovesOn(w0: State, w: State, n: Name, px: Database, p: Pass)
    requires Underway(w0, w, n, px, p) && p.pc.TPvcList?
    ensures MovesOn(w0, w, n, px, p, MoveOf(w, n, p, NextCall(p)))
  {
    hide MoveOf, SecretGoal, PvcGoal, LabelledPvcs, Ownership.PeerListed;
    PvcListMove(w, n, p, NextCall(p));
    ListedTodo(w0, w, n, px);
    if LabelledPvcs(w, n) == map[] { PvcsDone(w0, w, n, px); }
  }

  lemma ItemSide(w0: State, w: State, w1: State, n: Name, px: Database, todo: map<Name, Pvc>, v: Name, rest: map<Name, Pvc>)
    requires PvcSide(w0, w, n, px, TPvcPatch(todo, false)) && v in todo && rest == todo - {v}
    requires w1.pvcs == w.pvcs[v := PvcGoal(w0, n, px)[v]]
    ensures rest != map[] ==> PvcSide(w0, w1, n, px, TPvcPatch(rest, false))
    ensures rest == map[] ==> w1.pvcs == PvcGoal(w0, n, px)
  {
    GoalKeys(w0, n, px);
    hide PvcGoal;
    if rest == map[] { assert forall u :: u in todo ==> u == v || u in rest; }
  }

  lemma ItemChosen(p: Pass)
    requires p.pc.TPvcPatch? && p.pc.todo != map[]
    ensures NextCall(p).outcome == Ok && NextCall(p).item in p.pc.todo
  {
  }

  lemma ItemEffect(w0: State, w: State, n: Name, px: Database, p: Pass, c: Choice)
    requires PvcSide(w0, w, n, px, p.pc) && p.px == px && p.pc.TPvcPatch? && c.item in p.pc.todo && c.outcome == Ok
    ensures var m := MoveOf(w, n, p, c);
      var rest := p.pc.todo - {c.item};
      var w1 := Commit(w, n, m.effect);
      && (m.effect.Quiet? || m.effect.PutPvc?) && w1.secrets == w.secrets
      && c.item in PvcGoal(w0, n, px) && w1.pvcs == w.pvcs[c.item := PvcGoal(w0, n, px)[c.item]]
      && m.next == (if rest != map[] then At(p, TPvcPatch(rest, false)) else At(p, AfterPvcsAt(px)))
  {
    hide MoveOf, PvcGoal, Patched, MarksPvcs, AfterPvcsAt;
    GoalKeys(w0, n, px);
    PvcPatchMove(w, n, p, c, px, p.pc.todo, false, p.pc.todo - {c.item});
    ItemDone(w0, n, px, c.item);
  }

  lemma AfterPvcsAhead(px: Database)
    ensures AfterPvcsAt(px).Terminates() && Ahead(px, AfterPvcsAt(px)) < 5
  {
  }

  lemma ItemMovesOn(w0: State, w: State, n: Name, px: Database, p: Pass)
    requires Underway(w0, w, n, px, p) && p.pc.TPvcPatch?
    ensures MovesOn(w0, w, n, px, p, MoveOf(w, n, p, NextCall(p)))
  {
    hide MoveOf, NextCall, SecretGoal, PvcGoal, Commit, AfterPvcsAt, SecretSide, PvcSide;
    var c := NextCall(p);
    LoopSides(w0, w, n, px, p.pc);
    ItemChosen(p);
    var m := MoveOf(w, n, p, c);
    var rest := p.pc.todo - {c.item};
    ItemEffect(w0, w, n, px, p, c);
    ItemSide(w0, w, Commit(w, n, m.effect), n, px, p.pc.todo, c.item, rest);
    Fewer(p.pc.todo, c.item);
    AfterPvcsAhead(px);
    if rest == map[] { PvcsDone(w0, Commit(w, n, m.effect), n, px); }
    else { LoopSecrets(w0, w, Commit(w, n, m.effect), n, px, p.pc, TPvcPatch(rest, false)); }
  }

  lemma LoopSides(w0: State, w: State, n: Name, px: Database, pc: PC)
    requires SecretSide(w0, w, n, px, pc) && PvcSide(w0, w, n, px, pc) && pc.TPvcPatch?
    ensures pc.todo != map[] && !pc.failed
    ensures w.secrets == if px.spec.policy == Policy.Halt then w0.secrets else SecretGoal(w0, n, px)
  {
    hide SecretGoal, PvcGoal;
  }

  lemma LoopSecrets(w0: State, w: State, w1: State, n: Name, px: Database, pc: PC, next: PC)
    requires SecretSide(w0, w, n, px, pc) && pc.TPvcPatch? && next.TPvcPatch? && w1.secrets == w.secrets
    ensures SecretSide(w0, w1, n, px, next)
  {
    hide SecretGoal;
  }

  lemma GoalKeys(w: State, n: Name, px: Database)
    ensures PvcGoal(w, n, px).Keys == w.pvcs.Keys
  {
  }

  lemma Fewer(todo: map<Name, Pvc>, v: Name)
    requires v in todo
    ensures |todo - {v}| < |todo|
  {
    assert (todo - {v}).Keys == todo.Keys - {v};
    assert |todo.Keys| == |todo| && |(todo - {v}).Keys| == |todo - {v}|;
  }

  /** The patch, or that there is none, gives the PVC the owners it is to have. */
  lemma ItemDone(w: State, n: Name, px: Database, v: Name)
    requires v in w.pvcs && w.pvcs[v].labelled == Some(n)
    ensures PvcGoal(w, n, px)[v] ==
      if (px.uid in w.pvcs[v].owners) != MarksPvcs(px) then
        w.pvcs[v].(owners := Patched(w.pvcs[v].owners, MarksPvcs(px), px.uid))
      else w.pvcs[v]
  {
    var owners := w.pvcs[v].owners;
    if px.uid in owners { assert owners + {px.uid} == owners; } else { assert owners - {px.uid} == owners; }
  }

  lemma CallMovesOn(w0: State, w: State, n: Name, px: Database, p: Pass)
    requires Underway(w0, w, n, px, p) && !p.pc.TFinalizer?
    ensures MovesOn(w0, w, n, px, p, MoveOf(w, n, p, NextCall(p)))
  {
    hide MoveOf, MovesOn, SecretSide, PvcSide;
    if p.pc.TPeers? { PeersMovesOn(w0, w, n, px, p); }
    else if p.pc.TSecretGet? { GetMovesOn(w0, w, n, px, p); }
    else if p.pc.TSecretPatch? { PatchMovesOn(w0, w, n, px, p); }
    else if p.pc.TPvcList? { ListMovesOn(w0, w, n, px, p); }
    else { ItemMovesOn(w0, w, n, px, p); }
  }

  lemma SidesOnly(w0: State, w: State, w': State, n: Name, px: Database, pc: PC)
    requires w'.secrets == w.secrets && w'.pvcs == w.pvcs
    requires SecretSide(w0, w, n, px, pc) && PvcSide(w0, w, n, px, pc)
    ensures SecretSide(w0, w', n, px, pc) && PvcSide(w0, w', n, px, pc)
  {
    hide SecretGoal, PvcGoal;
  }

  lemma StepMovesOn(w0: State, w: State, n: Name, px: Database)
    requires n in w.passes && Underway(w0, w, n, px, w.passes[n]) && !w.passes[n].pc.TFinalizer?
    ensures var p, w' := w.passes[n], Step(w, Do(n, NextCall(w.passes[n])));
      && n in w'.passes && Underway(w0, w', n, px, w'.passes[n])
      && (Ahead(px, w'.passes[n].pc) < Ahead(px, p.pc) ||
          (Ahead(px, w'.passes[n].pc) == Ahead(px, p.pc) && Left(w'.passes[n].pc) < Left(p.pc)))
  {
    hide MoveOf, SecretSide, PvcSide, Ahead, Left, NextCall, Step;
    var p := w.passes[n];
    var c := NextCall(p);
    var m := MoveOf(w, n, p, c);
    CallMovesOn(w0, w, n, px, p);
    StepMoves(w, n, c);
    Committed(w, n, m.effect);
    hide Commit;
    SidesOnly(w0, Commit(w, n, m.effect), Step(w, Do(n, c)), n, px, m.next.pass.pc);
  }

  /** The database has gone, and owner references are as its policy wants them; nothing else has changed. */
  ghost predicate Terminated(w0: State, w: State, n: Name, px: Database) {
    && n !in w.passes && Current(w, n).None?
    && (forall m: Name :: m != n ==> History(w, m) == History(w0, m))
    && w.pvcs == PvcGoal(w0, n, px) && w.secrets == SecretGoal(w0, n, px) && w.objs == w0.objs
  }

  lemma FinalMove(w: State, n: Name, p: Pass, c: Choice)
    requires p.pc.TFinalizer? && c.outcome == Ok && Current(w, n).Some? && !p.px.spec.monitoring.AgentMissing?
    ensures MoveOf(w, n, p, c) == Move(PutDatabase(Current(w, n).value.(finalizer := false)), Stop)
  {
  }

  lemma LastCall(w0: State, w: State, n: Name, px: Database)
    requires n in w.passes && Underway(w0, w, n, px, w.passes[n]) && w.passes[n].pc.TFinalizer?
    requires Current(w, n).Some? && Current(w, n).value.deleting && !px.spec.monitoring.AgentMissing?
    ensures Terminated(w0, Step(w, Do(n, NextCall(w.passes[n]))), n, px)
  {
    hide Step, SecretGoal, PvcGoal;
    var c := NextCall(w.passes[n]);
    FinalMove(w, n, w.passes[n], c);
    StepMoves(w, n, c);
    hide MoveOf;
  }

  lemma {:induction false} Finishes(w0: State, w: State, n: Name, px: Database) returns (calls: nat)
    requires n in w.passes && Underway(w0, w, n, px, w.passes[n])
    requires Current(w0, n).Some? && Current(w0, n).value.deleting && !px.spec.monitoring.AgentMissing?
    ensures Terminated(w0, TerminateRun(w, n, calls), n, px)
    decreases Ahead(px, w.passes[n].pc), Left(w.passes[n].pc)
  {
    hide Step, Terminated, Ahead, Left, NextCall, SecretSide, PvcSide;
    var w1 := Step(w, Do(n, NextCall(w.passes[n])));
    assert History(w, n) == History(w0, n);
    if w.passes[n].pc.TFinalizer? {
      LastCall(w0, w, n, px);
      calls := 1;
      assert TerminateRun(w, n, 1) == TerminateRun(w1, n, 0);
    } else {
      StepMovesOn(w0, w, n, px);
      var rest := Finishes(w0, w1, n, px);
      calls := rest + 1;
    }
  }

  lemma Enters(w: State, n: Name)
    requires n !in w.passes && Cached(w, n).Some? && Cached(w, n).value.deleting && Cached(w, n).value.finalizer
    ensures var w', px := Step(w, Take(n)), Cached(w, n).value;
      && n in w'.passes && Underway(w, w', n, px, w'.passes[n])
  {
    var px := Cached(w, n).value;
    TakeIs(w, n);
    hide Step, Cached;
    var w' := Begin(w, n);
    assert w'.passes[n] == TerminateEntry(Pass(px, Start, map[], None));
    assert w'.hist == w.hist && w'.seen == w.seen && w'.objs == w.objs && w'.secrets == w.secrets && w'.pvcs == w.pvcs;
    hide Begin, PvcGoal;
  }

  /**
   A reconcile of a database that is being deleted, run alone and without failure, ends with the
   database gone and its references as the policy it has read wants them: on its PVCs under any policy
   but Halt, on its secret under WipeOut unless a peer is shown, and on nothing else.
   */
  lemma TerminateCompletes(w: State, n: Name)
    requires n !in w.passes && Cached(w, n).Some? && Cached(w, n).value.deleting && Cached(w, n).value.finalizer
    requires !Cached(w, n).value.spec.monitoring.AgentMissing?
    requires Current(w, n).Some? && Current(w, n).value.deleting
    ensures exists calls: nat :: Terminated(w, TerminateRun(Step(w, Take(n)), n, calls), n, Cached(w, n).value)
  {
    hide Step, Terminated, Underway, TerminateRun;
    Enters(w, n);
    var calls := Finishes(w, Step(w, Take(n)), n, Cached(w, n).value);
  }
}
