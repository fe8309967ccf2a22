/**
 What halting deletes: the collections one after the other, then the listed services. While nobody
 brings objects back, none of a deleted kind is left but those that something else holds, and these
 are on their way out.
 */
module Sweeps {
  import opened Options
  import opened Cluster
  import opened Passes
  import opened Finalizers
  import opened Credentials
  import opened Halting
  import Ownership

  /** No object of the kind with the database's label is left, but for held ones, which are dying. */
  predicate Swept(objs: map<Key, Offshoot>, n: Name, kind: Kind) {
    forall k :: k in objs && k.kind == kind && objs[k].labelled == Some(n) ==> objs[k].held && objs[k].dying
  }

  /** How many of the seven collections have been deleted. */
  function Stage(pc: PC): nat {
    match pc
    case HDelete(k) => k
    case HListServices => 7
    case HDeleteService(_) => 7
    case HWait(_) => 7
    case HWrite => 7
    case _ => 0
  }

  /** The kinds in the order in which their collections are deleted. */
  predicate KindDone(kind: Kind, stage: nat) {
    match kind
    case AppBinding => 1 <= stage
    case PodDisruptionBudget => 2 <= stage
    case StatefulSet => 3 <= stage
    case Deployment => 4 <= stage
    case RoleBinding => 5 <= stage
    case Role => 6 <= stage
    case ServiceAccount => 7 <= stage
    case _ => false
  }

  predicate ServiceDone(k: Key, pc: PC) {
    k.kind == Service && ((pc.HDeleteService? && k !in pc.services) || pc.HWait? || pc.HWrite?)
  }

  /** Where the pass is, this object of the database should be gone, or held and dying. */
  predicate Due(k: Key, pc: PC) { KindDone(k.kind, Stage(pc)) || ServiceDone(k, pc) }

  predicate SweptAt(objs: map<Key, Offshoot>, n: Name, pc: PC) {
    forall k :: k in objs && objs[k].labelled == Some(n) && Due(k, pc) ==> objs[k].held && objs[k].dying
  }

  ghost predicate SweepOk(w: State, n: Name) {
    n in w.passes ==> SweptAt(w.objs, n, w.passes[n].pc)
  }

  /** Somebody creates an object of the database that the pass has already dealt with. */
  predicate BringsBack(w: State, e: Event, n: Name) {
    e.ObjectCreate? && e.k !in w.objs && e.labelled == Some(n) && n in w.passes && Due(e.k, w.passes[n].pc)
  }

  /** Objects of the database only go, or come to be dying. */
  ghost predicate OnlyGo(objs: map<Key, Offshoot>, objs': map<Key, Offshoot>, n: Name) {
    forall k :: k in objs' && objs'[k].labelled == Some(n) ==>
      k in objs && objs[k].labelled == Some(n) && objs'[k].held == objs[k].held && (objs[k].dying ==> objs'[k].dying)
  }

  lemma SweptStays(objs: map<Key, Offshoot>, objs': map<Key, Offshoot>, n: Name, pc: PC)
    requires SweptAt(objs, n, pc) && OnlyGo(objs, objs', n)
    ensures SweptAt(objs', n, pc)
  {
    hide Due;
  }

  /* ---- the pass's own calls ---- */

  lemma DeletionSweeps(w: State, n: Name, p: Pass, c: Choice)
    requires SweptAt(w.objs, n, p.pc) && p.pc.HDelete? && MoveOf(w, n, p, c).next.Go? && c.outcome == Ok
    ensures var m := MoveOf(w, n, p, c);
      m.effect.SetObjects? && SweptAt(m.effect.objs, n, m.next.pass.pc)
  {
    var m := MoveOf(w, n, p, c);
    var ks := LabelledKeys(w, HaltKind(p.pc.k), n);
    assert m.effect == SetObjects(Deleted(w.objs, ks));
    assert m.next.pass.pc == if p.pc.k < 6 then HDelete(p.pc.k + 1) else HListServices;
    forall k | k in m.effect.objs && m.effect.objs[k].labelled == Some(n) && Due(k, m.next.pass.pc)
      ensures m.effect.objs[k].held && m.effect.objs[k].dying
    {
      assert k in w.objs && w.objs[k].labelled == Some(n);
      if !Due(k, p.pc) { assert k in ks; }
    }
  }

  lemma ListSweeps(w: State, n: Name, p: Pass, c: Choice)
    requires SweptAt(w.objs, n, p.pc) && p.pc.HListServices? && MoveOf(w, n, p, c).next.Go?
    ensures var m := MoveOf(w, n, p, c);
      m.effect.Quiet? && SweptAt(w.objs, n, m.next.pass.pc)
  {
    var services := LabelledKeys(w, Service, n);
    forall k | k in w.objs && w.objs[k].labelled == Some(n) && k.kind == Service ensures k in services { }
  }

  lemma ServiceSweeps(w: State, n: Name, p: Pass, c: Choice)
    requires SweptAt(w.objs, n, p.pc) && p.pc.HDeleteService? && MoveOf(w, n, p, c).next.Go?
    ensures var m := MoveOf(w, n, p, c);
      SweptAt(if m.effect.SetObjects? then m.effect.objs else w.objs, n, m.next.pass.pc)
  {
  }

  /** A halting pass's call deals with what is due where it goes on. */
  lemma CallSweeps(w: State, n: Name, p: Pass, c: Choice)
    requires SweptAt(w.objs, n, p.pc) && MoveOf(w, n, p, c).next.Go? && p.pc.Halts()
    ensures var m := MoveOf(w, n, p, c);
      SweptAt(if m.effect.SetObjects? then m.effect.objs else w.objs, n, m.next.pass.pc)
  {
    if p.pc.HDelete? && c.outcome == Ok { DeletionSweeps(w, n, p, c); hide MoveOf; }
    else if p.pc.HListServices? { ListSweeps(w, n, p, c); hide MoveOf; }
    else if p.pc.HDeleteService? { ServiceSweeps(w, n, p, c); hide MoveOf; }
    else { hide Deleted; }
  }

  lemma NotDueBefore(objs: map<Key, Offshoot>, n: Name, pc: PC)
    requires !pc.Halts() || pc == HDelete(0)
    ensures SweptAt(objs, n, pc)
  {
  }

  lemma EntersAtZero(w: State, n: Name, p: Pass, c: Choice)
    requires !p.pc.Halts() && MoveOf(w, n, p, c).next.Go?
    ensures var pc := MoveOf(w, n, p, c).next.pass.pc;
      !pc.Halts() || pc == HDelete(0)
  {
    if p.pc.Creates() { CreateHaltsNot(w, n, p, c); }
    else if p.pc.Terminates() { TerminateHaltsNot(w, n, p, c); }
  }

  lemma OwnSweeps(w: State, n: Name, c: Choice)
    requires SweepOk(w, n) && n in w.passes
    ensures SweepOk(Step(w, Do(n, c)), n)
  {
    hide Step, SweptAt;
    var p := w.passes[n];
    StepMoves(w, n, c);
    if MoveOf(w, n, p, c).next.Go? {
      if p.pc.Halts() {
        CallSweeps(w, n, p, c);
      } else {
        EntersAtZero(w, n, p, c);
        NotDueBefore(Step(w, Do(n, c)).objs, n, MoveOf(w, n, p, c).next.pass.pc);
      }
    }
    hide MoveOf;
  }

  /* ---- everybody else ---- */

  lemma CreateOnlyGoes(w: State, m: Name, p: Pass, c: Choice, n: Name)
    requires p.pc.Creates() && m != n && MoveOf(w, m, p, c).effect.SetObjects?
    ensures OnlyGo(w.objs, MoveOf(w, m, p, c).effect.objs, n)
  {
    hide HaltMove, TerminateMove;
  }

  lemma HaltOnlyGoes(w: State, m: Name, p: Pass, c: Choice, n: Name)
    requires !p.pc.Creates() && MoveOf(w, m, p, c).effect.SetObjects?
    ensures OnlyGo(w.objs, MoveOf(w, m, p, c).effect.objs, n)
  {
    hide CreateMove;
  }

  lemma PassOnlyGoes(w: State, m: Name, c: Choice, n: Name)
    requires m in w.passes && m != n
    ensures OnlyGo(w.objs, Step(w, Do(m, c)).objs, n)
  {
    hide Step;
    var p := w.passes[m];
    StepMoves(w, m, c);
    if MoveOf(w, m, p, c).effect.SetObjects? {
      if p.pc.Creates() { CreateOnlyGoes(w, m, p, c, n); } else { HaltOnlyGoes(w, m, p, c, n); }
    }
    hide MoveOf;
  }

  lemma EventOnlyGoes(w: State, e: Event, n: Name)
    requires !e.Do? && !e.ObjectCreate?
    ensures OnlyGo(w.objs, Step(w, e).objs, n)
  {
    hide OnlyGo;
    if IsUser(e) {
      UserIs(w, e);
      UserKeepsObjects(w, e);
      NothingGoes(w.objs, n);
      hide Step, UserStep;
    } else if IsObject(e) {
      ObjectIs(w, e);
      hide Step;
      ObjectOnlyGoes(w, e, n);
      hide ObjectStep;
    } else {
      NothingGoes(w.objs, n);
    }
  }

  lemma NothingGoes(objs: map<Key, Offshoot>, n: Name)
    ensures OnlyGo(objs, objs, n)
  {
  }

  lemma ObjectOnlyGoes(w: State, e: Event, n: Name)
    requires !e.ObjectCreate?
    ensures OnlyGo(w.objs, ObjectStep(w, e).objs, n)
  {
  }

  lemma OthersSweep(w: State, e: Event, n: Name)
    requires SweepOk(w, n) && !e.ObjectCreate? && !(e.Do? && e.n == n)
    ensures SweepOk(Step(w, e), n)
  {
    hide Step, SweptAt, OnlyGo;
    var w' := Step(w, e);
    if e.Do? && e.n !in w.passes {
      NothingToDo(w, e);
    } else {
      if e.Do? { PassOnlyGoes(w, e.n, e.choice, n); } else { EventOnlyGoes(w, e, n); }
      if n in w'.passes {
        if w'.passes[n].pc.Halts() {
          SamePass(w, e, n);
          SweptStays(w.objs, w'.objs, n, w.passes[n].pc);
        } else {
          NotDueBefore(w'.objs, n, w'.passes[n].pc);
        }
      }
    }
  }

  lemma ArrivalSweeps(w: State, e: Event, n: Name)
    requires SweepOk(w, n) && e.ObjectCreate?
    ensures SweepOk(Step(w, e), n) <==> !BringsBack(w, e, n)
  {
    ObjectIs(w, e);
    hide Step, Due;
  }

  /** A step keeps what the pass has deleted so far gone, if and only if it does not bring any of it back. */
  lemma SweepsExactly(w: State, e: Event, n: Name)
    requires SweepOk(w, n)
    ensures SweepOk(Step(w, e), n) <==> !BringsBack(w, e, n)
  {
    hide Step, SweepOk;
    if e.ObjectCreate? {
      ArrivalSweeps(w, e, n);
    } else if !(e.Do? && e.n == n) {
      OthersSweep(w, e, n);
    } else if n in w.passes {
      OwnSweeps(w, n, e.choice);
    } else {
      NothingToDo(w, e);
    }
  }

  lemma {:induction false} SweepsAlong(ws: seq<State>, es: seq<Event>, i: nat, j: nat, n: Name)
    requires IsRun(ws, es) && Between(ws, es, i, j, (w, e) => !BringsBack(w, e, n)) && SweepOk(ws[i], n)
    ensures SweepOk(ws[j], n)
  {
    hide Step, SweepOk, BringsBack;
    if i < j {
      SweepsAlong(ws, es, i, j - 1, n);
      assert Goes(ws, es, j - 1);
      SweepsExactly(ws[j - 1], es[j - 1], n);
    }
  }

  /**
   From any point at which the pass has yet to delete anything: when its seven collection deletions
   have answered without error, and nobody has brought objects back, no binding, budget, StatefulSet,
   deployment, role binding, role or service account of the database is left, except held ones, and
   those are dying; and when its service loop is over, no service either.
   */
  lemma HaltDeletes(ws: seq<State>, es: seq<Event>, i: nat, j: nat, n: Name)
    requires IsRun(ws, es) && Between(ws, es, i, j, (w, e) => !BringsBack(w, e, n)) && SweepOk(ws[i], n)
    requires n in ws[j].passes
    ensures var objs, pc := ws[j].objs, ws[j].passes[n].pc;
      && (pc.HListServices? || pc.HDeleteService? || pc.HWait? || pc.HWrite? ==>
            && Swept(objs, n, AppBinding) && Swept(objs, n, PodDisruptionBudget)
            && Swept(objs, n, StatefulSet) && Swept(objs, n, Deployment)
            && Swept(objs, n, RoleBinding) && Swept(objs, n, Role) && Swept(objs, n, ServiceAccount))
      && (pc.HWait? || pc.HWrite? ==> Swept(objs, n, Service))
  {
    SweepsAlong(ws, es, i, j, n);
    hide IsRun, Between, BringsBack;
  }

  /** Before the first deletion, and without a halting pass, nothing is due. */
  lemma NothingDueYet(w: State, n: Name)
    requires n in w.passes ==> !w.passes[n].pc.Halts() || w.passes[n].pc == HDelete(0)
    ensures SweepOk(w, n)
  {
    if n in w.passes { NotDueBefore(w.objs, n, w.passes[n].pc); }
    hide SweptAt;
  }

  /* ---- an uninterrupted halt ---- */

  /** The next call of the pass, which succeeds; the deletion loop takes some service that is left. */
  ghost function NextCall(p: Pass): Choice {
    var item := if p.pc.HDeleteService? && p.pc.services != {} then (var k :| k in p.pc.services; k.name) else "";
    Choice(Ok, item, 0, false, {})
  }

  /** The pass of `n` run alone and without failure, for at most so many calls. */
  ghost function HaltRun(w: State, n: Name, calls: nat): State
    decreases calls
  {
    if calls == 0 || n !in w.passes then w else HaltRun(Step(w, Do(n, NextCall(w.passes[n]))), n, calls - 1)
  }

  /** Nothing else holds the database's objects, no pod of it is left, and nobody else has its service account's name. */
  predicate Unheld(objs: map<Key, Offshoot>, n: Name) {
    && (forall k :: k in objs && objs[k].labelled == Some(n) ==> !objs[k].held && k.kind != Pod)
    && (Key(ServiceAccount, n) in objs ==> objs[Key(ServiceAccount, n)].labelled == Some(n))
  }

  /** The services left to delete are there. */
  predicate TodoThere(objs: map<Key, Offshoot>, n: Name, pc: PC) {
    pc.HDeleteService? ==>
      pc.services != {} && forall k :: k in pc.services ==> k.kind == Service && k in objs && objs[k].labelled == Some(n)
  }

  ghost predicate HaltsWell(w: State, n: Name, p: Pass) {
    && Current(w, n).Some? && p.pc.Halts() && !p.px.spec.monitoring.AgentMissing?
    && (p.pc.HWait? ==> p.pc.k <= 4) && (p.pc.HDelete? ==> p.pc.k <= 6)
    && Unheld(w.objs, n) && TodoThere(w.objs, n, p.pc) && SweptAt(w.objs, n, p.pc)
  }

  /** How much of the pass is left, apart from the services in its loop. */
  function Ahead(pc: PC): nat {
    match pc
    case HDelete(k) => if k <= 6 then 20 - k else 0
    case HListServices => 10
    case HDeleteService(_) => 9
    case HWait(k) => if k <= 4 then 8 - k else 0
    case _ => 1
  }

  function Left(pc: PC): nat { if pc.HDeleteService? then |pc.services| else 0 }

  ghost predicate HaltsOn(w: State, n: Name, p: Pass, m: Move) {
    var objs := if m.effect.SetObjects? then m.effect.objs else w.objs;
    && (m.effect.Quiet? || m.effect.SetObjects?) && m.next.Go? && m.next.pass.px == p.px && m.next.pass.pc.Halts()
    && (m.next.pass.pc.HWait? ==> m.next.pass.pc.k <= 4) && (m.next.pass.pc.HDelete? ==> m.next.pass.pc.k <= 6)
    && Unheld(objs, n) && TodoThere(objs, n, m.next.pass.pc)
    && (Ahead(m.next.pass.pc) < Ahead(p.pc) ||
        (Ahead(m.next.pass.pc) == Ahead(p.pc) && Left(m.next.pass.pc) < Left(p.pc)))
  }

  lemma DeletionGoesOn(w: State, n: Name, p: Pass)
    requires HaltsWell(w, n, p) && p.pc.HDelete?
    ensures HaltsOn(w, n, p, MoveOf(w, n, p, NextCall(p)))
  {
    hide SweptAt;
    var m := MoveOf(w, n, p, NextCall(p));
    var ks := LabelledKeys(w, HaltKind(p.pc.k), n);
    assert m == Move(SetObjects(Deleted(w.objs, ks)), At(p, if p.pc.k < 6 then HDelete(p.pc.k + 1) else HListServices));
    hide MoveOf, LabelledKeys;
  }

  lemma ListGoesOn(w: State, n: Name, p: Pass)
    requires HaltsWell(w, n, p) && p.pc.HListServices?
    ensures HaltsOn(w, n, p, MoveOf(w, n, p, NextCall(p)))
  {
    hide SweptAt, Unheld;
  }

  lemma ServiceGoesOn(w: State, n: Name, p: Pass)
    requires HaltsWell(w, n, p) && p.pc.HDeleteService?
    ensures HaltsOn(w, n, p, MoveOf(w, n, p, NextCall(p)))
  {
    hide SweptAt;
    var c := NextCall(p);
    var key := Key(Service, c.item);
    assert key in p.pc.services;
    var m := MoveOf(w, n, p, c);
    assert m == Move(SetObjects(Deleted(w.objs, {key})),
                     if p.pc.services == {key} then At(p, HWait(0)) else At(p, HDeleteService(p.pc.services - {key})));
    hide MoveOf, NextCall;
    assert p.pc.services == {key} <==> p.pc.services - {key} == {};
  }

  /** The loops find nothing to wait for. */
  lemma NothingAwaited(w: State, n: Name, p: Pass)
    requires HaltsWell(w, n, p) && p.pc.HWait?
    ensures AwaitedKeys(w, p.pc.k, n) == {}
  {
    NothingDue(w.objs, n, p.pc);
    hide SweptAt;
  }

  lemma NothingDue(objs: map<Key, Offshoot>, n: Name, pc: PC)
    requires SweptAt(objs, n, pc) && Unheld(objs, n)
    ensures forall k :: k in objs && objs[k].labelled == Some(n) ==> !Due(k, pc)
  {
    hide Due;
  }

  lemma WaitGoesOn(w: State, n: Name, p: Pass)
    requires HaltsWell(w, n, p) && p.pc.HWait?
    ensures HaltsOn(w, n, p, MoveOf(w, n, p, NextCall(p)))
  {
    NothingAwaited(w, n, p);
    hide SweptAt, Unheld, AwaitedKeys;
  }

  lemma CallGoesOn(w: State, n: Name, p: Pass)
    requires HaltsWell(w, n, p) && !p.pc.HWrite?
    ensures HaltsOn(w, n, p, MoveOf(w, n, p, NextCall(p)))
  {
    if p.pc.HDelete? { DeletionGoesOn(w, n, p); }
    else if p.pc.HListServices? { ListGoesOn(w, n, p); }
    else if p.pc.HDeleteService? { ServiceGoesOn(w, n, p); }
    else { WaitGoesOn(w, n, p); }
    hide MoveOf, HaltsOn;
  }

  /** It deletes nothing that is not the database's. */
  lemma CallConserves(w: State, n: Name)
    requires n in w.passes && HaltsWell(w, n, w.passes[n])
    ensures Conserved(w, Step(w, Do(n, NextCall(w.passes[n]))), n)
  {
    hide Step, Conserved, SweptAt, Unheld;
    HaltConservesExactly(w, n, NextCall(w.passes[n]));
  }

  lemma StepGoesOn(w: State, n: Name)
    requires n in w.passes && HaltsWell(w, n, w.passes[n]) && !w.passes[n].pc.HWrite?
    ensures var p, w' := w.passes[n], Step(w, Do(n, NextCall(w.passes[n])));
      && n in w'.passes && HaltsWell(w', n, w'.passes[n]) && w'.passes[n].px == p.px
      && (Ahead(w'.passes[n].pc) < Ahead(p.pc) ||
          (Ahead(w'.passes[n].pc) == Ahead(p.pc) && Left(w'.passes[n].pc) < Left(p.pc)))
  {
    hide Step, Unheld, TodoThere, Ahead, NextCall, SweptAt;
    var p := w.passes[n];
    var c := NextCall(p);
    CallGoesOn(w, n, p);
    CallSweeps(w, n, p, c);
    StepMoves(w, n, c);
    hide MoveOf;
    assert History(Step(w, Do(n, c)), n) == History(w, n);
  }

  lemma WriteMove(w: State, n: Name, p: Pass, c: Choice)
    requires p.pc.HWrite? && Current(w, n).Some? && c.outcome == Ok
    ensures MoveOf(w, n, p, c) == Move(PutDatabase(Current(w, n).value.(phase := Phase.Halted)), Stop)
  {
  }

  lemma WriteEnds(w: State, n: Name)
    requires n in w.passes && HaltsWell(w, n, w.passes[n]) && w.passes[n].pc.HWrite?
    requires Current(w, n).value.deleting ==> Current(w, n).value.finalizer
    ensures var w' := Step(w, Do(n, NextCall(w.passes[n])));
      && n !in w'.passes && w'.objs == w.objs
      && Current(w', n) == Some(Current(w, n).value.(phase := Phase.Halted))
  {
    hide Step, SweptAt, Unheld;
    var c := NextCall(w.passes[n]);
    WriteMove(w, n, w.passes[n], c);
    StepMoves(w, n, c);
    hide MoveOf;
  }

  /** The database has nothing left of what halting deletes. */
  predicate AllGone(objs: map<Key, Offshoot>, n: Name) {
    forall k :: k in objs && objs[k].labelled == Some(n) ==>
      k.kind !in {AppBinding, PodDisruptionBudget, StatefulSet, Deployment, RoleBinding, Role, ServiceAccount, Service}
  }

  lemma SweptUnheldGone(objs: map<Key, Offshoot>, n: Name)
    requires SweptAt(objs, n, HWrite) && Unheld(objs, n)
    ensures AllGone(objs, n)
  {
    NothingDue(objs, n, HWrite);
    hide SweptAt, Unheld;
  }

  lemma {:induction false} HaltFinishes(w: State, n: Name) returns (calls: nat)
    requires n in w.passes && HaltsWell(w, n, w.passes[n])
    requires Current(w, n).value.deleting ==> Current(w, n).value.finalizer
    ensures var w' := HaltRun(w, n, calls);
      && n !in w'.passes && AllGone(w'.objs, n) && Conserved(w, w', n)
      && Current(w', n) == Some(Current(w, n).value.(phase := Phase.Halted))
    decreases Ahead(w.passes[n].pc), Left(w.passes[n].pc)
  {
    hide Step, Ahead, NextCall, Conserved, AllGone, SweptAt, Unheld, TodoThere;
    var p := w.passes[n];
    var w1 := Step(w, Do(n, NextCall(p)));
    CallConserves(w, n);
    if p.pc.HWrite? {
      WriteEnds(w, n);
      SweptUnheldGone(w.objs, n);
      calls := 1;
      assert HaltRun(w, n, 1) == HaltRun(w1, n, 0);
    } else {
      StepGoesOn(w, n);
      SameCurrent(w, n);
      var rest := HaltFinishes(w1, n);
      calls := rest + 1;
      ConservedTwice(w, w1, HaltRun(w1, n, rest), n);
    }
  }

  lemma SameCurrent(w: State, n: Name)
    requires n in w.passes && HaltsWell(w, n, w.passes[n]) && !w.passes[n].pc.HWrite?
    ensures Current(Step(w, Do(n, NextCall(w.passes[n]))), n) == Current(w, n)
  {
    hide Step, SweptAt, Unheld, TodoThere, Ahead, NextCall;
    var c := NextCall(w.passes[n]);
    CallGoesOn(w, n, w.passes[n]);
    StepMoves(w, n, c);
    hide MoveOf;
    assert History(Step(w, Do(n, c)), n) == History(w, n);
  }

  /**
   A halting pass that runs alone and without failure, on a database with no pod left and no object
   that something else holds, comes to an end with the phase Halted, with every binding, budget,
   StatefulSet, deployment, role binding, role, service account and service of the database gone, and
   with nothing else touched.
   */
  lemma HaltCompletes(w: State, n: Name)
    requires n in w.passes && w.passes[n].pc == HDelete(0) && !w.passes[n].px.spec.monitoring.AgentMissing?
    requires Current(w, n).Some? && (Current(w, n).value.deleting ==> Current(w, n).value.finalizer)
    requires Unheld(w.objs, n)
    ensures exists calls: nat :: var w' := HaltRun(w, n, calls);
      && n !in w'.passes && AllGone(w'.objs, n) && Conserved(w, w', n)
      && Current(w', n) == Some(Current(w, n).value.(phase := Phase.Halted))
  {
    NotDueBefore(w.objs, n, HDelete(0));
    hide Unheld, SweptAt, HaltRun;
    var calls := HaltFinishes(w, n);
  }
}
