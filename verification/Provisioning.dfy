/**
 Two properties of the create pass over every run: what the initial-restore gate guards, and whose
 governing service a StatefulSet ends up with although all passes share one field for its name.
 */
module Provisioning {
  import opened Options
  import opened Cluster
  import opened Passes
  import opened Finalizers
  import opened Credentials

  /* ---- the restore gate ---- */

  /** Some stored version of this very database had been provisioned once, or had its data restored. */
  ghost predicate RestoreSeen(h: seq<Option<Database>>, uid: nat) {
    exists i :: 0 <= i < |h| && h[i].Some? && h[i].value.uid == uid &&
      (h[i].value.conditions.provisioned.Some? || h[i].value.conditions.restored == Some(true))
  }

  ghost predicate ConditionsSeen(h: seq<Option<Database>>, uid: nat, c: Conditions) {
    exists i :: 0 <= i < |h| && h[i].Some? && h[i].value.uid == uid && h[i].value.conditions == c
  }

  predicate BeyondFirstGate(pc: PC) {
    pc.Creates() && !pc.CValidate? && !pc.CProvision? && !pc.CStats?
  }

  /** What a pass has checked about its own copy by the time it is where it is. */
  predicate GateChecked(p: Pass) {
    && (BeyondFirstGate(p.pc) ==> !WaitsBeforeWorkload(p.px))
    && (p.pc.CReady? ==> !WaitsAfterWorkload(p.px))
  }

  ghost predicate GateOk(w: State, n: Name) {
    n in w.passes ==>
      GateChecked(w.passes[n]) && ConditionsSeen(History(w, n), w.passes[n].px.uid, w.passes[n].px.conditions)
  }

  /** The conditions of the copy a pass goes on with are its old ones or those just read of its database. */
  ghost predicate CopiesConditions(w: State, n: Name, p: Pass, m: Move) {
    m.next.Go? ==>
      var px := m.next.pass.px;
      || (px.conditions == p.px.conditions && px.uid == p.px.uid)
      || (Current(w, n).Some? && px.conditions == Current(w, n).value.conditions && px.uid == Current(w, n).value.uid)
  }

  /** While a pass creates, what is stored is the database it is creating. */
  lemma CreatesCurrent(w: State, n: Name)
    requires NameOk(w, n) && n in w.passes && w.passes[n].pc.Creates()
    ensures Current(w, n).Some? && Current(w, n).value.uid == w.passes[n].px.uid
  {
  }

  lemma CreateChecksGate(w: State, n: Name, p: Pass, o: Outcome, password: nat)
    requires GateChecked(p) && p.pc.Creates()
    ensures var m := CreateMove(w, n, p, o, password);
            m.next.Go? ==> GateChecked(m.next.pass)
  {
  }

  lemma HaltCreatesNothing(w: State, n: Name, p: Pass, c: Choice)
    requires p.pc.Halts()
    ensures var m := HaltMove(w, n, p, c);
            m.next.Go? ==> !m.next.pass.pc.Creates()
  {
  }

  lemma TerminateCreatesNothing(w: State, n: Name, p: Pass, c: Choice)
    requires p.pc.Terminates()
    ensures var m := TerminateMove(w, n, p, c.outcome, c.item);
            m.next.Go? ==> !m.next.pass.pc.Creates()
  {
  }

  lemma OtherChecksGate(w: State, n: Name, p: Pass, c: Choice)
    requires !p.pc.Creates()
    ensures var m := MoveOf(w, n, p, c);
            m.next.Go? ==> GateChecked(m.next.pass)
  {
    if p.pc.Halts() { HaltCreatesNothing(w, n, p, c); }
    else if p.pc.Terminates() { TerminateCreatesNothing(w, n, p, c); }
  }

  lemma CreateCopies(w: State, n: Name, p: Pass, c: Choice)
    requires p.pc.Creates() && Current(w, n).Some? && Current(w, n).value.uid == p.px.uid
    ensures CopiesConditions(w, n, p, CreateMove(w, n, p, c.outcome, c.password))
  {
  }

  lemma OtherCopies(w: State, n: Name, p: Pass, c: Choice)
    requires !p.pc.Creates()
    ensures CopiesConditions(w, n, p, MoveOf(w, n, p, c))
  {
    hide CreateMove;
  }

  lemma MoveCopiesConditions(w: State, n: Name, c: Choice)
    requires NameOk(w, n) && n in w.passes
    ensures CopiesConditions(w, n, w.passes[n], MoveOf(w, n, w.passes[n], c))
  {
    hide NameOk, CopiesConditions, CreateMove;
    var p := w.passes[n];
    if p.pc.Creates() {
      CreatesCurrent(w, n);
      CreateCopies(w, n, p, c);
    } else {
      OtherCopies(w, n, p, c);
    }
  }

  lemma ConditionsStay(w: State, e: Event, n: Name, uid: nat, c: Conditions)
    requires ConditionsSeen(History(w, n), uid, c)
    ensures ConditionsSeen(History(Step(w, e), n), uid, c)
  {
    StepExtends(w, e, n);
    hide Step;
    var h, h' := History(w, n), History(Step(w, e), n);
    var i :| 0 <= i < |h| && h[i].Some? && h[i].value.uid == uid && h[i].value.conditions == c;
    assert h'[i] == h[i];
  }

  lemma MoveChecksGate(w: State, n: Name, p: Pass, c: Choice)
    requires GateChecked(p) && MoveOf(w, n, p, c).next.Go?
    ensures GateChecked(MoveOf(w, n, p, c).next.pass)
  {
    hide CreateMove, GateChecked;
    if p.pc.Creates() { CreateChecksGate(w, n, p, c.outcome, c.password); } else { OtherChecksGate(w, n, p, c); }
  }

  lemma CurrentSeen(w: State, n: Name)
    requires Current(w, n).Some?
    ensures ConditionsSeen(History(w, n), Current(w, n).value.uid, Current(w, n).value.conditions)
  {
    var h := History(w, n);
    assert h[|h| - 1] == Current(w, n);
  }

  lemma GateKeepsOwn(w: State, n: Name, c: Choice)
    requires GateOk(w, n) && NameOk(w, n) && n in w.passes
    ensures GateOk(Step(w, Do(n, c)), n)
  {
    hide MoveOf, GateChecked, Settle, Commit, Step, NameOk, ConditionsSeen, Current;
    var w' := Step(w, Do(n, c));
    if n in w'.passes {
      var p := w.passes[n];
      var m := MoveOf(w, n, p, c);
      DoIs(w, n, c);
      SettlePasses(Commit(w, n, m.effect), n, p, m.next, n);
      MoveChecksGate(w, n, p, c);
      MoveCopiesConditions(w, n, c);
      var px := m.next.pass.px;
      if px.conditions != p.px.conditions || px.uid != p.px.uid { CurrentSeen(w, n); }
      ConditionsStay(w, Do(n, c), n, px.uid, px.conditions);
    }
  }

  lemma GateKeeps(w: State, e: Event, n: Name)
    requires GateOk(w, n) && NameOk(w, n)
    ensures GateOk(Step(w, e), n)
  {
    hide Step, NameOk;
    if e.Do? && e.n == n {
      if n in w.passes { GateKeepsOwn(w, n, e.choice); } else { NothingToDo(w, e); }
    } else if n in Step(w, e).passes {
      var px := Step(w, e).passes[n].px;
      if n in w.passes && Step(w, e).passes[n] == w.passes[n] {
      } else {
        FreshPass(w, e, n);
      }
      ConditionsStay(w, e, n, px.uid, px.conditions);
    }
  }

  lemma OthersKeepPass(w: State, m: Name, c: Choice, n: Name)
    requires m != n && n in Step(w, Do(m, c)).passes
    ensures n in w.passes && Step(w, Do(m, c)).passes[n] == w.passes[n]
  {
    if m in w.passes {
      var move := MoveOf(w, m, w.passes[m], c);
      hide MoveOf, Commit;
      CommitPasses(w, m, move.effect);
      SettlePasses(Commit(w, m, move.effect), m, w.passes[m], move.next, n);
    }
  }

  lemma TakenCopy(w: State, n: Name)
    requires n !in w.passes && n in Step(w, Take(n)).passes
    ensures Cached(w, n) == Some(Step(w, Take(n)).passes[n].px) && !Step(w, Take(n)).passes[n].pc.Creates()
  {
    TakeIs(w, n);
    hide Step;
  }

  /** A pass that was not there before has just copied the cached object. */
  lemma FreshPass(w: State, e: Event, n: Name)
    requires !(e.Do? && e.n == n) && n in Step(w, e).passes && !(n in w.passes && Step(w, e).passes[n] == w.passes[n])
    ensures var p := Step(w, e).passes[n];
            !p.pc.Creates() && ConditionsSeen(History(w, n), p.px.uid, p.px.conditions)
  {
    hide Step;
    if e.Do? {
      OthersKeepPass(w, e.n, e.choice, n);
    } else {
      EventPasses(w, e, n);
      TakenCopy(w, n);
      assert History(w, n)[Seen(w, n) - 1] == Cached(w, n);
    }
  }

  lemma {:induction false} GateHolds(ws: seq<State>, es: seq<Event>, k: nat, n: Name)
    requires IsRun(ws, es) && k < |ws|
    ensures GateOk(ws[k], n)
  {
    if k == 0 {
    } else {
      GateHolds(ws, es, k - 1, n);
      ProtocolHolds(ws, es, k - 1, n);
      assert Goes(ws, es, k - 1);
      GateKeeps(ws[k - 1], es[k - 1], n);
    }
  }

  /* ---- the writes the gate guards ---- */

  predicate SetsWorkload(w: State, w': State, n: Name) {
    var k := Key(StatefulSet, n);
    k in w'.objs && w'.objs[k].payload.Workload? && (k !in w.objs || w'.objs[k].payload != w.objs[k].payload)
  }

  predicate SetsReady(w: State, w': State, n: Name) {
    Current(w', n).Some? && Current(w', n).value.phase == Ready &&
    (Current(w, n).None? || Current(w, n).value.phase != Ready)
  }

  lemma CreateSetsWorkload(w: State, m: Name, p: Pass, c: Choice, n: Name)
    requires p.pc.Creates() && CreateMove(w, m, p, c.outcome, c.password).effect.SetObjects?
    requires SetsWorkload(w, w.(objs := CreateMove(w, m, p, c.outcome, c.password).effect.objs), n)
    ensures m == n && p.pc.CWorkload?
  {
  }

  lemma HaltSetsNoWorkload(w: State, m: Name, p: Pass, c: Choice, n: Name)
    requires HaltMove(w, m, p, c).effect.SetObjects?
    ensures !SetsWorkload(w, w.(objs := HaltMove(w, m, p, c).effect.objs), n)
  {
  }

  lemma PassSetsWorkload(w: State, m: Name, p: Pass, c: Choice, n: Name)
    requires MoveOf(w, m, p, c).effect.SetObjects?
    requires SetsWorkload(w, Commit(w, m, MoveOf(w, m, p, c).effect), n)
    ensures m == n && p.pc.CWorkload?
  {
    hide CreateMove, HaltMove, SetsWorkload;
    if p.pc.Creates() { CreateSetsWorkload(w, m, p, c, n); }
    else if p.pc.Halts() { HaltSetsNoWorkload(w, m, p, c, n); }
  }

  lemma CreateSetsReady(w: State, m: Name, p: Pass, c: Choice)
    requires p.pc.Creates() && !p.pc.CReady? && Current(w, m).Some? && Current(w, m).value.phase != Ready
    requires CreateMove(w, m, p, c.outcome, c.password).effect.PutDatabase?
    ensures CreateMove(w, m, p, c.outcome, c.password).effect.database.phase != Ready
  {
  }

  lemma OtherSetsNoReady(w: State, m: Name, p: Pass, c: Choice)
    requires !p.pc.Creates() && Current(w, m).Some? && Current(w, m).value.phase != Ready
    requires MoveOf(w, m, p, c).effect.PutDatabase?
    ensures MoveOf(w, m, p, c).effect.database.phase != Ready
  {
    hide CreateMove;
  }

  lemma PassSetsReady(w: State, m: Name, p: Pass, c: Choice)
    requires MoveOf(w, m, p, c).effect.PutDatabase? && MoveOf(w, m, p, c).effect.database.phase == Ready
    requires Current(w, m).Some? && Current(w, m).value.phase != Ready
    ensures p.pc.CReady?
  {
    hide CreateMove, HaltMove, TerminateMove, StartMove, FailMove;
    if !p.pc.Creates() { OtherSetsNoReady(w, m, p, c); }
    else if !p.pc.CReady? { CreateSetsReady(w, m, p, c); }
  }

  lemma UserSetsNothing(w: State, e: Event, n: Name)
    requires IsUser(e)
    ensures !SetsWorkload(w, UserStep(w, e), n) && !SetsReady(w, UserStep(w, e), n)
  {
    UserWritesNoPhase(w, e, n);
    hide UserStep;
  }

  lemma UserWritesNoPhase(w: State, e: Event, n: Name)
    ensures var w' := UserStep(w, e);
      && w'.objs == w.objs
      && (History(w', n) == History(w, n) ||
          (Current(w', n).Some? ==>
            Current(w', n).value.phase == if Current(w, n).Some? then Current(w, n).value.phase else NoPhase))
  {
  }

  lemma ObjectsSetNothing(w: State, e: Event, n: Name)
    ensures !SetsWorkload(w, ObjectStep(w, e), n) && ObjectStep(w, e).hist == w.hist
  {
  }

  lemma EventSetsNothing(w: State, e: Event, n: Name)
    requires !e.Do?
    ensures !SetsWorkload(w, Step(w, e), n) && !SetsReady(w, Step(w, e), n)
  {
    if IsUser(e) { UserSetsNothing(w, e, n); }
    else if !e.Sync? && !e.Take? && !e.Crash? { ObjectsSetNothing(w, e, n); }
    if !IsUser(e) {
      NoHistory(w, e);
      ObjectsUntouched(w, e);
    }
    hide UserStep, ObjectStep;
  }

  lemma ObjectsUntouched(w: State, e: Event)
    ensures e.Sync? || e.Take? || e.Crash? ==> Step(w, e).objs == w.objs
  {
  }

  /** The step that changes a StatefulSet's workload is its own pass's, beyond the first gate. */
  lemma WorkloadWriter(w: State, e: Event, n: Name)
    requires SetsWorkload(w, Step(w, e), n)
    ensures e.Do? && e.n == n && n in w.passes && w.passes[n].pc.CWorkload?
  {
    if e.Do? {
      if e.n in w.passes {
        var m := MoveOf(w, e.n, w.passes[e.n], e.choice);
        SettleStores(Commit(w, e.n, m.effect), e.n, w.passes[e.n], m.next);
        if m.effect.SetObjects? { PassSetsWorkload(w, e.n, w.passes[e.n], e.choice, n); }
      }
    } else {
      EventSetsNothing(w, e, n);
    }
  }

  lemma ReadyWriter(w: State, e: Event, n: Name)
    requires SetsReady(w, Step(w, e), n)
    ensures e.Do? && e.n == n && n in w.passes && w.passes[n].pc.CReady?
  {
    if e.Do? {
      if e.n in w.passes {
        var p := w.passes[e.n];
        var m := MoveOf(w, e.n, p, e.choice);
        if m.effect.PutDatabase? {
          PassWritesCurrent(w, e.n, p, e.choice);
          if m.effect.database.phase == Ready && Current(w, e.n).value.phase != Ready { PassSetsReady(w, e.n, p, e.choice); }
        }
        hide MoveOf;
        SettleStores(Commit(w, e.n, m.effect), e.n, p, m.next);
        if e.n != n || !m.effect.PutDatabase? { CommitHistory(w, e.n, m.effect, n); }
      }
    } else {
      EventSetsNothing(w, e, n);
    }
  }

  /**
   Whenever a step writes the StatefulSet of a database that waits for its initial restore and runs
   as a cluster, some stored version of that database, not of an earlier one of its name, had the
   restore over.
   */
  lemma WorkloadOnlyAfterRestore(ws: seq<State>, es: seq<Event>, k: nat, n: Name)
    requires IsRun(ws, es) && k < |es| && SetsWorkload(ws[k], ws[k + 1], n)
    ensures n in ws[k].passes
    ensures var px := ws[k].passes[n].px;
            px.spec.waitForInitialRestore && px.spec.replicas > 1 ==> RestoreSeen(History(ws[k], n), px.uid)
  {
    assert Goes(ws, es, k);
    WorkloadWriter(ws[k], es[k], n);
    GateHolds(ws, es, k, n);
  }

  /** The same for the Ready phase, whether the database runs as a cluster or standalone. */
  lemma ReadyOnlyAfterRestore(ws: seq<State>, es: seq<Event>, k: nat, n: Name)
    requires IsRun(ws, es) && k < |es| && SetsReady(ws[k], ws[k + 1], n)
    ensures n in ws[k].passes
    ensures var px := ws[k].passes[n].px;
            px.spec.waitForInitialRestore ==> RestoreSeen(History(ws[k], n), px.uid)
  {
    assert Goes(ws, es, k);
    ReadyWriter(ws[k], es[k], n);
    GateHolds(ws, es, k, n);
  }

  /* ---- the governing service ---- */

  /** No pass sets the shared field while another is between setting and reading it. */
  ghost predicate Undisturbed(w: State, e: Event) {
    e.Do? && e.n in w.passes && w.passes[e.n].pc.CGovern? && e.choice.outcome == Ok ==>
      forall m: Name :: m in w.passes && m != e.n ==> !InWindow(w.passes[m].pc)
  }

  predicate GovernedPass(governing: Name, n: Name, pc: PC) {
    && (InWindow(pc) ==> governing == GoverningService(n))
    && (pc.CWorkload? ==> pc.serviceName == GoverningService(n))
  }

  ghost predicate Governed(w: State) {
    && (forall n: Name :: n in w.passes ==> GovernedPass(w.governing, n, w.passes[n].pc))
    && (forall n: Name :: Key(StatefulSet, n) in w.objs && w.objs[Key(StatefulSet, n)].payload.Workload? ==>
          w.objs[Key(StatefulSet, n)].payload.serviceName == GoverningService(n))
  }

  /** Where the next program counter can be, as far as the shared field is concerned. */
  lemma WindowMoves(w: State, n: Name, p: Pass, c: Choice)
    requires p.pc.Creates() && MoveOf(w, n, p, c).next.Go?
    ensures var q := MoveOf(w, n, p, c).next.pass;
      && (InWindow(q.pc) ==> InWindow(p.pc) || (p.pc.CGovern? && q.pc == CRbac(0) && c.outcome == Ok))
      && (q.pc.CWorkload? ==> p.pc.CVersion? && q.pc.serviceName == w.governing)
      && (p.pc.CGovern? && q.pc.CRbac? ==> c.outcome == Ok)
  {
  }

  lemma OutsideWindow(w: State, n: Name, p: Pass, c: Choice)
    requires !p.pc.Creates() && MoveOf(w, n, p, c).next.Go?
    ensures !InWindow(MoveOf(w, n, p, c).next.pass.pc) && !MoveOf(w, n, p, c).next.pass.pc.CWorkload?
  {
    if p.pc.Halts() { HaltCreatesNothing(w, n, p, c); }
    else if p.pc.Terminates() { TerminateCreatesNothing(w, n, p, c); }
  }

  lemma WorkloadServiceName(w: State, n: Name, p: Pass, c: Choice)
    requires p.pc.CWorkload? && MoveOf(w, n, p, c).effect.SetObjects?
    ensures MoveOf(w, n, p, c).effect.objs == w.objs[Key(StatefulSet, n) := Upserted(w, Key(StatefulSet, n), n, p.px.uid, WorkloadOf(p.px, p.pc.serviceName))]
  {
  }

  lemma WorkloadWritten(w: State, n: Name, c: Choice)
    requires n in w.passes && w.passes[n].pc.CWorkload? && SetsWorkload(w, Step(w, Do(n, c)), n)
    ensures Step(w, Do(n, c)).objs[Key(StatefulSet, n)].payload == WorkloadOf(w.passes[n].px, w.passes[n].pc.serviceName)
  {
    var p := w.passes[n];
    var m := MoveOf(w, n, p, c);
    if m.effect.SetObjects? { WorkloadServiceName(w, n, p, c); }
    hide MoveOf;
    SettleStores(Commit(w, n, m.effect), n, p, m.next);
  }

  lemma ObjectsGoverned(w: State, e: Event)
    requires Governed(w)
    ensures forall n: Name :: Key(StatefulSet, n) in Step(w, e).objs && Step(w, e).objs[Key(StatefulSet, n)].payload.Workload? ==>
              Step(w, e).objs[Key(StatefulSet, n)].payload.serviceName == GoverningService(n)
  {
    hide Step, InWindow, GoverningService;
    var w' := Step(w, e);
    forall n: Name | Key(StatefulSet, n) in w'.objs && w'.objs[Key(StatefulSet, n)].payload.Workload?
      ensures w'.objs[Key(StatefulSet, n)].payload.serviceName == GoverningService(n)
    {
      if SetsWorkload(w, w', n) {
        WorkloadWriter(w, e, n);
        WorkloadWritten(w, n, e.choice);
        assert GovernedPass(w.governing, n, w.passes[n].pc);
      }
    }
  }

  /** What a move does to the window, as far as the shared field is concerned. */
  ghost predicate MovesWindow(governing: Name, p: Pass, m: Move) {
    m.next.Go? ==>
      && (InWindow(m.next.pass.pc) ==> InWindow(p.pc) || (p.pc.CGovern? && m.next.pass.pc.CRbac?))
      && (m.next.pass.pc.CWorkload? ==> p.pc.CVersion? && m.next.pass.pc.serviceName == governing)
  }

  lemma MoveMovesWindow(w: State, n: Name, p: Pass, c: Choice)
    ensures MovesWindow(w.governing, p, MoveOf(w, n, p, c))
  {
    if MoveOf(w, n, p, c).next.Go? {
      if p.pc.Creates() { WindowMoves(w, n, p, c); } else { OutsideWindow(w, n, p, c); }
    }
    hide MoveOf;
  }

  lemma GovernsWhenOk(w: State, n: Name, p: Pass, c: Choice)
    requires p.pc.CGovern? && MoveOf(w, n, p, c).next.Go? && MoveOf(w, n, p, c).next.pass.pc.CRbac?
    ensures c.outcome == Ok
  {
  }

  lemma SettleGoverned(w: State, n: Name, p: Pass, m: Move)
    requires n in w.passes && w.passes[n] == p && MovesWindow(w.governing, p, m)
    requires forall k: Name :: k in w.passes ==> GovernedPass(w.governing, k, w.passes[k].pc)
    requires p.pc.CGovern? && m.next.Go? && m.next.pass.pc.CRbac? ==>
      forall k: Name :: k in w.passes && k != n ==> !InWindow(w.passes[k].pc)
    ensures var w' := Settle(w, n, p, m.next);
            forall k: Name :: k in w'.passes ==> GovernedPass(w'.governing, k, w'.passes[k].pc)
  {
    var w' := Settle(w, n, p, m.next);
    forall k: Name | k in w'.passes ensures GovernedPass(w'.governing, k, w'.passes[k].pc) {
      SettlePasses(w, n, p, m.next, k);
      if k != n { assert GovernedPass(w.governing, k, w.passes[k].pc); }
    }
  }

  lemma PassesGoverned(w: State, n: Name, c: Choice)
    requires Governed(w) && Undisturbed(w, Do(n, c)) && n in w.passes
    ensures forall k: Name :: k in Step(w, Do(n, c)).passes ==>
              GovernedPass(Step(w, Do(n, c)).governing, k, Step(w, Do(n, c)).passes[k].pc)
  {
    var p := w.passes[n];
    var m := MoveOf(w, n, p, c);
    var w1 := Commit(w, n, m.effect);
    assert Step(w, Do(n, c)) == Settle(w1, n, p, m.next);
    hide MoveOf, Commit, Settle, Step, InWindow, GovernedPass, MovesWindow, GoverningService;
    MoveMovesWindow(w, n, p, c);
    if p.pc.CGovern? && m.next.Go? && m.next.pass.pc.CRbac? { GovernsWhenOk(w, n, p, c); }
    CommitPasses(w, n, m.effect);
    SettleGoverned(w1, n, p, m);
  }

  lemma GoverningMoves(w: State, e: Event)
    requires !e.Do?
    ensures Step(w, e).governing == w.governing || Step(w, e).passes == map[]
  {
    if IsUser(e) {
      UserIs(w, e);
      hide Step;
    } else if IsObject(e) {
      ObjectIs(w, e);
      hide Step;
    }
  }

  lemma EventsGoverned(w: State, e: Event)
    requires Governed(w) && !e.Do?
    ensures forall k: Name :: k in Step(w, e).passes ==> GovernedPass(Step(w, e).governing, k, Step(w, e).passes[k].pc)
  {
    GoverningMoves(w, e);
    hide Step;
    forall k: Name | k in Step(w, e).passes ensures GovernedPass(Step(w, e).governing, k, Step(w, e).passes[k].pc) {
      EventPasses(w, e, k);
      if k !in w.passes { TakenCopy(w, k); } else { assert GovernedPass(w.governing, k, w.passes[k].pc); }
    }
  }

  lemma UndisturbedKeeps(w: State, e: Event)
    requires Governed(w) && Undisturbed(w, e)
    ensures Governed(Step(w, e))
  {
    ObjectsGoverned(w, e);
    if e.Do? {
      if e.n in w.passes { PassesGoverned(w, e.n, e.choice); }
    } else {
      EventsGoverned(w, e);
    }
  }

  lemma SetsField(w: State, n: Name, c: Choice)
    requires n in w.passes && w.passes[n].pc.CGovern? && c.outcome == Ok
    ensures var w' := Step(w, Do(n, c));
            w'.governing == GoverningService(n) && forall m :: m in w.passes && m != n ==> m in w'.passes && w'.passes[m] == w.passes[m]
  {
  }

  /** From a governed state, not disturbing a window is exactly what keeps the next state governed. */
  lemma GovernedExactly(w: State, e: Event)
    requires Governed(w)
    ensures Governed(Step(w, e)) <==> Undisturbed(w, e)
  {
    hide Step;
    if Undisturbed(w, e) {
      UndisturbedKeeps(w, e);
    } else {
      var m: Name :| m in w.passes && m != e.n && InWindow(w.passes[m].pc);
      SetsField(w, e.n, e.choice);
      GoverningServiceInjective(e.n, m);
      assert !GovernedPass(Step(w, e).governing, m, Step(w, e).passes[m].pc);
    }
  }

  lemma {:induction false} GovernedAlong(ws: seq<State>, es: seq<Event>, i: nat, k: nat)
    requires IsRun(ws, es) && Between(ws, es, i, k, Undisturbed) && Governed(ws[i])
    ensures Governed(ws[k])
  {
    hide Governed, Undisturbed, Step;
    if i < k {
      GovernedAlong(ws, es, i, k - 1);
      assert Goes(ws, es, k - 1);
      GovernedExactly(ws[k - 1], es[k - 1]);
    }
  }

  /** Passes that never overlap do not disturb each other. */
  ghost predicate Serialised(w: State, e: Event) {
    forall n: Name, m: Name :: n in w.passes && m in w.passes ==> n == m
  }

  lemma SerialisedSuffices(w: State, e: Event)
    requires Serialised(w, e)
    ensures Undisturbed(w, e)
  {
  }

  /** When no pass disturbs another's window, every StatefulSet ever stored names its own service. */
  lemma OwnGoverningService(ws: seq<State>, es: seq<Event>, k: nat, n: Name)
    requires IsRun(ws, es) && k < |ws| && Between(ws, es, 0, k, Undisturbed)
    requires Key(StatefulSet, n) in ws[k].objs && ws[k].objs[Key(StatefulSet, n)].payload.Workload?
    ensures ws[k].objs[Key(StatefulSet, n)].payload.serviceName == GoverningService(n)
  {
    GovernedAlong(ws, es, 0, k);
  }
}
