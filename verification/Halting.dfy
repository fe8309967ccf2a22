/**
 Halting a database: what its pass leaves alone whatever happens to its calls, and what is gone
 when it writes the Halted phase.
 */
module Halting {
  import opened Options
  import opened Cluster
  import opened Passes
  import opened Finalizers
  import opened Credentials
  import opened Provisioning

  /* ---- what halting leaves alone ---- */

  /** Data and other databases' objects are as they were, and nothing has been added. */
  ghost predicate Conserved(w: State, w': State, n: Name) {
    && w'.pvcs == w.pvcs && w'.secrets == w.secrets
    && (forall k :: k in w.objs && w.objs[k].labelled != Some(n) ==> k in w'.objs && w'.objs[k] == w.objs[k])
    && (forall k :: k in w'.objs ==> k in w.objs && w'.objs[k].labelled == w.objs[k].labelled)
  }

  /** A listed service has meanwhile become another's, and this call is going to delete that one. */
  predicate DeletesForeign(w: State, n: Name, c: Choice) {
    n in w.passes && w.passes[n].pc.HDeleteService? && c.outcome.Applied() &&
    var k := Key(Service, c.item);
    k in w.passes[n].pc.services && k in w.objs && w.objs[k].labelled != Some(n) && !(w.objs[k].held && w.objs[k].dying)
  }

  lemma HaltEffects(w: State, n: Name, p: Pass, c: Choice)
    requires p.pc.Halts()
    ensures var e := MoveOf(w, n, p, c).effect;
      && (e.Quiet? || e.PutDatabase? || e.SetObjects?)
      && (e.PutDatabase? ==> p.pc.HWrite?)
      && (p.pc.HDelete? ==> e == SetObjects(CollectionDeleted(w, LabelledKeys(w, HaltKind(p.pc.k), n), c)))
      && (e.SetObjects? && !p.pc.HDelete? ==>
            && c.outcome.Applied() && p.pc.HDeleteService?
            && Key(Service, c.item) in p.pc.services && Key(Service, c.item) in w.objs
            && e.objs == Deleted(w.objs, {Key(Service, c.item)}))
      && (p.pc.HDeleteService? && Key(Service, c.item) in p.pc.services && Key(Service, c.item) in w.objs && c.outcome.Applied()
          ==> e.SetObjects?)
  {
  }

  lemma CollectionConserves(w: State, n: Name, kind: Kind, c: Choice)
    ensures Conserved(w, w.(objs := CollectionDeleted(w, LabelledKeys(w, kind, n), c)), n)
  {
    var ks := LabelledKeys(w, kind, n);
    DeletedConserves(w, w.(objs := Deleted(w.objs, ks)), n, ks);
    var some := set k | k in ks && k.name in c.partly;
    DeletedConserves(w, w.(objs := Deleted(w.objs, some)), n, some);
    hide Deleted, Conserved;
  }

  lemma EffectConserves(w: State, n: Name, c: Choice)
    requires n in w.passes && w.passes[n].pc.Halts()
    ensures Conserved(w, Commit(w, n, MoveOf(w, n, w.passes[n], c).effect), n) <==> !DeletesForeign(w, n, c)
  {
    var p := w.passes[n];
    var e := MoveOf(w, n, p, c).effect;
    var w1 := Commit(w, n, e);
    HaltEffects(w, n, p, c);
    hide MoveOf, Conserved, CollectionDeleted;
    if e.SetObjects? {
      if p.pc.HDelete? { CollectionConserves(w, n, HaltKind(p.pc.k), c); }
      else { DeletedConserves(w, w1, n, {Key(Service, c.item)}); }
      hide Deleted;
    } else {
      NothingDeleted(w, w1, n);
    }
  }

  lemma NothingDeleted(w: State, w1: State, n: Name)
    requires w1.objs == w.objs && w1.pvcs == w.pvcs && w1.secrets == w.secrets
    ensures Conserved(w, w1, n)
  {
  }

  /** One call of a halting pass conserves, except exactly when it deletes a service by a stale name. */
  lemma HaltConservesExactly(w: State, n: Name, c: Choice)
    requires n in w.passes && w.passes[n].pc.Halts()
    ensures Conserved(w, Step(w, Do(n, c)), n) <==> !DeletesForeign(w, n, c)
  {
    var m := MoveOf(w, n, w.passes[n], c);
    hide MoveOf, Commit, Settle, DeletesForeign;
    EffectConserves(w, n, c);
    SettleStores(Commit(w, n, m.effect), n, w.passes[n], m.next);
  }

  /** Deleting touches another database's objects unless none is named, or it is already on its way out. */
  lemma DeletedConserves(w: State, w1: State, n: Name, ks: set<Key>)
    requires w1 == w.(objs := Deleted(w.objs, ks))
    ensures Conserved(w, w1, n) <==>
            forall k :: k in ks && k in w.objs && w.objs[k].labelled != Some(n) ==> w.objs[k].held && w.objs[k].dying
  {
  }

  /** Every labelled collection only shrinks. */
  lemma ConservedShrinks(w: State, w': State, n: Name, kind: Kind, m: Name)
    requires Conserved(w, w', n)
    ensures LabelledKeys(w', kind, m) <= LabelledKeys(w, kind, m)
    ensures m != n ==> LabelledKeys(w', kind, m) == LabelledKeys(w, kind, m)
    ensures LabelledPvcs(w', m) == LabelledPvcs(w, m)
  {
    forall k | k in LabelledKeys(w, kind, m) && m != n ensures k in LabelledKeys(w', kind, m) {
      assert w'.objs[k] == w.objs[k];
    }
  }

  /** The listed services that are still there are the database's own. */
  predicate ListOwn(w: State, n: Name) {
    n in w.passes && w.passes[n].pc.HDeleteService? ==>
      forall k :: k in w.passes[n].pc.services && k in w.objs ==> w.objs[k].labelled == Some(n)
  }

  lemma HaltListsOwn(w: State, n: Name, p: Pass, c: Choice)
    requires p.pc.Halts() && MoveOf(w, n, p, c).next.Go? && MoveOf(w, n, p, c).next.pass.pc.HDeleteService?
    requires p.pc.HDeleteService? ==> forall k :: k in p.pc.services && k in w.objs ==> w.objs[k].labelled == Some(n)
    ensures forall k :: k in MoveOf(w, n, p, c).next.pass.pc.services && k in w.objs ==> w.objs[k].labelled == Some(n)
  {
  }

  lemma OwnCallsListOwn(w: State, n: Name, c: Choice)
    requires n in w.passes && w.passes[n].pc.Halts() && ListOwn(w, n)
    ensures ListOwn(Step(w, Do(n, c)), n) && Conserved(w, Step(w, Do(n, c)), n)
  {
    HaltConservesExactly(w, n, c);
    var p := w.passes[n];
    var m := MoveOf(w, n, p, c);
    if m.next.Go? && m.next.pass.pc.HDeleteService? { HaltListsOwn(w, n, p, c); }
    hide MoveOf, Commit;
  }

  /** The state after calls of the pass of `n`. */
  function Calls(w: State, n: Name, cs: seq<Choice>): State
    decreases |cs|
  {
    if cs == [] then w else Calls(Step(w, Do(n, cs[0])), n, cs[1..])
  }

  /** The pass is halting at each of the calls. */
  predicate HaltsThroughout(w: State, n: Name, cs: seq<Choice>)
    decreases |cs|
  {
    cs != [] ==> n in w.passes && w.passes[n].pc.Halts() && HaltsThroughout(Step(w, Do(n, cs[0])), n, cs[1..])
  }

  /**
   After any number of calls of a halting pass, with any outcomes and in any order of the deletion
   loop: no PVC, secret or object of another database has changed, and nothing has been added.
   */
  lemma {:induction false} HaltConserves(w: State, n: Name, cs: seq<Choice>)
    requires HaltsThroughout(w, n, cs) && ListOwn(w, n)
    ensures Conserved(w, Calls(w, n, cs), n)
    decreases |cs|
  {
    if cs == [] {
    } else {
      var w1 := Step(w, Do(n, cs[0]));
      OwnCallsListOwn(w, n, cs[0]);
      hide Step, ListOwn;
      HaltConserves(w1, n, cs[1..]);
      ConservedTwice(w, w1, Calls(w1, n, cs[1..]), n);
    }
  }

  lemma ConservedTwice(w: State, w1: State, w2: State, n: Name)
    requires Conserved(w, w1, n) && Conserved(w1, w2, n)
    ensures Conserved(w, w2, n)
  {
  }

  /* ---- what is gone when Halted is written ---- */

  /** The first `k` wait loops have nothing to wait for. */
  predicate GoneBefore(w: State, n: Name, k: nat) {
    && (0 < k ==> AwaitedKeys(w, 0, n) == {})
    && (1 < k ==> AwaitedKeys(w, 1, n) == {})
    && (2 < k ==> AwaitedKeys(w, 2, n) == {})
    && (3 < k ==> AwaitedKeys(w, 3, n) == {})
    && (4 < k ==> AwaitedKeys(w, 4, n) == {})
  }

  predicate WaitsPassed(pc: PC, k: nat) { (pc.HWait? && k <= pc.k && k <= 4) || (pc.HWrite? && k <= 5) }

  /** Whatever the pass has waited for is gone. */
  ghost predicate HaltOk(w: State, n: Name) {
    n in w.passes ==> forall k: nat :: WaitsPassed(w.passes[n].pc, k) ==> GoneBefore(w, n, k)
  }

  /** The wait loop that looks for such an object; 5 when none does. */
  function LoopOf(k: Key, labelled: Option<Name>, n: Name): nat {
    if k.kind == Pod && labelled == Some(n) then 0
    else if k.kind == Service && labelled == Some(n) then 1
    else if k == Key(ServiceAccount, n) then 2
    else if k.kind == StatefulSet && labelled == Some(n) then 3
    else if k.kind == Deployment && labelled == Some(n) then 4
    else 5
  }

  /** An object is created from outside after the pass is through with waiting for its kind. */
  predicate ArrivesLate(w: State, e: Event, n: Name) {
    e.ObjectCreate? && e.k !in w.objs && n in w.passes && WaitsPassed(w.passes[n].pc, LoopOf(e.k, e.labelled, n) + 1)
  }

  /** A list call that fails in the last two loops happens not to hide anything. */
  predicate ListsHonest(w: State, e: Event, n: Name) {
    e.Do? && e.n == n && n in w.passes && w.passes[n].pc.HWait? && e.choice.outcome != Ok && w.passes[n].pc.k >= 3 ==>
      AwaitedKeys(w, w.passes[n].pc.k, n) == {}
  }

  ghost predicate NothingArrives(w: State, w': State, n: Name) {
    forall k :: k in w'.objs && (w'.objs[k].labelled == Some(n) || k == Key(ServiceAccount, n)) ==>
      k in w.objs && (w'.objs[k].labelled == Some(n) ==> w.objs[k].labelled == Some(n))
  }

  lemma GoneStays(w: State, w': State, n: Name, k: nat)
    requires GoneBefore(w, n, k) && NothingArrives(w, w', n)
    ensures GoneBefore(w', n, k)
  {
    forall i: nat | i < 5 ensures AwaitedKeys(w', i, n) <= AwaitedKeys(w, i, n) {
      forall key | key in AwaitedKeys(w', i, n) ensures key in AwaitedKeys(w, i, n) { }
    }
  }

  lemma CreateArrivals(w: State, m: Name, p: Pass, c: Choice, n: Name)
    requires p.pc.Creates() && m != n && CreateMove(w, m, p, c.outcome, c.password).effect.SetObjects?
    ensures NothingArrives(w, w.(objs := CreateMove(w, m, p, c.outcome, c.password).effect.objs), n)
  {
  }

  lemma HaltArrivals(w: State, m: Name, p: Pass, c: Choice, n: Name)
    requires HaltMove(w, m, p, c).effect.SetObjects?
    ensures NothingArrives(w, w.(objs := HaltMove(w, m, p, c).effect.objs), n)
  {
  }

  lemma CommitArrivals(w: State, m: Name, c: Choice, n: Name)
    requires m in w.passes && (m != n || !w.passes[m].pc.Creates())
    ensures NothingArrives(w, Commit(w, m, MoveOf(w, m, w.passes[m], c).effect), n)
  {
    var p := w.passes[m];
    var e := MoveOf(w, m, p, c).effect;
    if e.SetObjects? {
      hide CreateMove, HaltMove, StartMove, TerminateMove, FailMove, NothingArrives;
      if p.pc.Creates() { CreateArrivals(w, m, p, c, n); }
      else { OnlyTwoSetObjects(w, m, p, c); HaltArrivals(w, m, p, c, n); }
    } else {
      hide MoveOf;
    }
  }

  lemma OnlyTwoSetObjects(w: State, m: Name, p: Pass, c: Choice)
    requires MoveOf(w, m, p, c).effect.SetObjects?
    ensures p.pc.Creates() || p.pc.Halts()
  {
  }

  lemma PassArrivals(w: State, m: Name, c: Choice, n: Name)
    requires m in w.passes && (m != n || !w.passes[m].pc.Creates())
    ensures NothingArrives(w, Step(w, Do(m, c)), n)
  {
    var move := MoveOf(w, m, w.passes[m], c);
    hide MoveOf, Commit, Settle;
    CommitArrivals(w, m, c, n);
    SettleStores(Commit(w, m, move.effect), m, w.passes[m], move.next);
  }

  lemma ObjectArrivals(w: State, e: Event, n: Name)
    requires !e.Do? && !e.ObjectCreate?
    ensures NothingArrives(w, Step(w, e), n)
  {
    if IsUser(e) {
      UserIs(w, e);
      UserKeepsObjects(w, e);
    } else if IsObject(e) {
      ObjectIs(w, e);
    }
    hide UserStep;
  }

  lemma UserKeepsObjects(w: State, e: Event)
    ensures UserStep(w, e).objs == w.objs
  {
  }

  /** A pass passes a wait loop only by way of that loop. */
  lemma HaltMoves(w: State, n: Name, p: Pass, c: Choice, k: nat)
    requires k > 0 && MoveOf(w, n, p, c).next.Go? && WaitsPassed(MoveOf(w, n, p, c).next.pass.pc, k)
    requires p.pc.HWait? ==> p.pc.k <= 4
    ensures p.pc.HWait? && p.pc.k <= 4 && MoveOf(w, n, p, c).effect.Quiet? && !p.pc.Creates()
    ensures WaitsPassed(p.pc, k) || (k == p.pc.k + 1 && WaitOver(w, p.pc.k, n, c.outcome))
  {
    if p.pc.Creates() { CreateHaltsNot(w, n, p, c); }
    else if p.pc.Terminates() { TerminateHaltsNot(w, n, p, c); }
  }

  lemma CreateHaltsNot(w: State, n: Name, p: Pass, c: Choice)
    requires p.pc.Creates()
    ensures var m := CreateMove(w, n, p, c.outcome, c.password);
            m.next.Go? ==> !m.next.pass.pc.Halts()
  {
  }

  lemma TerminateHaltsNot(w: State, n: Name, p: Pass, c: Choice)
    requires p.pc.Terminates()
    ensures var m := TerminateMove(w, n, p, c.outcome, c.item);
            m.next.Go? ==> !m.next.pass.pc.Halts()
  {
  }

  lemma GoneOneMore(w: State, n: Name, k: nat)
    requires GoneBefore(w, n, k) && k <= 4 && AwaitedKeys(w, k, n) == {}
    ensures GoneBefore(w, n, k + 1)
  {
  }

  lemma OwnCallKeepsGone(w: State, n: Name, c: Choice)
    requires HaltOk(w, n) && n in w.passes && ListsHonest(w, Do(n, c), n)
    requires w.passes[n].pc.HWait? ==> w.passes[n].pc.k <= 4
    ensures HaltOk(Step(w, Do(n, c)), n)
  {
    var p := w.passes[n];
    var m := MoveOf(w, n, p, c);
    var w' := Step(w, Do(n, c));
    if n in w'.passes {
      SettlePasses(Commit(w, n, m.effect), n, p, m.next, n);
      forall k: nat | WaitsPassed(w'.passes[n].pc, k) ensures GoneBefore(w', n, k) {
        if k > 0 {
          HaltMoves(w, n, p, c, k);
          PassArrivals(w, n, c, n);
          hide MoveOf, Commit, Step, AwaitedKeys;
          if !WaitsPassed(p.pc, k) { GoneOneMore(w, n, p.pc.k); }
          GoneStays(w, w', n, k);
        }
      }
    }
  }

  lemma OthersKeepGone(w: State, e: Event, n: Name)
    requires HaltOk(w, n) && !e.ObjectCreate? && !(e.Do? && e.n == n)
    ensures HaltOk(Step(w, e), n)
  {
    var w' := Step(w, e);
    if n in w'.passes && w'.passes[n].pc.Halts() {
      SamePass(w, e, n);
      if e.Do? { if e.n in w.passes { PassArrivals(w, e.n, e.choice, n); } }
      else { ObjectArrivals(w, e, n); }
      hide Step, AwaitedKeys;
      forall k: nat | WaitsPassed(w'.passes[n].pc, k) ensures GoneBefore(w', n, k) {
        if w' != w { GoneStays(w, w', n, k); }
      }
    }
  }

  /** A new object is awaited by its own loop and by no other. */
  lemma NewAwaited(w: State, e: Event, n: Name, i: nat)
    requires e.ObjectCreate? && e.k !in w.objs && i < 5
    ensures var w' := Step(w, e);
      && w'.passes == w.passes
      && AwaitedKeys(w', i, n) == AwaitedKeys(w, i, n) + (if LoopOf(e.k, e.labelled, n) == i then {e.k} else {})
  {
    ObjectIs(w, e);
    var w' := Step(w, e);
    assert w' == w.(objs := w.objs[e.k := Offshoot(e.labelled, {}, Plain, e.held, false)]);
    hide Step, ObjectStep;
  }

  lemma ArrivalExactly(w: State, e: Event, n: Name)
    requires HaltOk(w, n) && WaitBounded(w, n) && e.ObjectCreate?
    ensures HaltOk(Step(w, e), n) <==> !ArrivesLate(w, e, n)
  {
    if e.k in w.objs {
      ObjectIs(w, e);
    } else {
      var loop := LoopOf(e.k, e.labelled, n);
      NewAwaited(w, e, n, 0);
      NewAwaited(w, e, n, 1);
      NewAwaited(w, e, n, 2);
      NewAwaited(w, e, n, 3);
      NewAwaited(w, e, n, 4);
      hide Step, AwaitedKeys, LoopOf;
      if ArrivesLate(w, e, n) {
        assert !GoneBefore(Step(w, e), n, loop + 1);
      }
    }
  }

  lemma DishonestListLeaves(w: State, n: Name, c: Choice)
    requires n in w.passes && w.passes[n].pc.HWait? && !ListsHonest(w, Do(n, c), n)
    requires w.passes[n].pc.k <= 4
    ensures !HaltOk(Step(w, Do(n, c)), n)
  {
    var p := w.passes[n];
    var w' := Step(w, Do(n, c));
    assert MoveOf(w, n, p, c) == Move(Quiet, At(p, if p.pc.k < 4 then HWait(p.pc.k + 1) else HWrite));
    assert w'.objs == w.objs && WaitsPassed(w'.passes[n].pc, p.pc.k + 1);
    assert AwaitedKeys(w', p.pc.k, n) == AwaitedKeys(w, p.pc.k, n);
  }

  /** Nothing arrives late and no failed list hides anything. */
  predicate Unhindered(w: State, e: Event, n: Name) { !ArrivesLate(w, e, n) && ListsHonest(w, e, n) }

  /** That is exactly what the wait loops need of a step. */
  lemma HaltOkExactly(w: State, e: Event, n: Name)
    requires HaltOk(w, n) && WaitBounded(w, n)
    ensures HaltOk(Step(w, e), n) <==> Unhindered(w, e, n)
  {
    hide Step, HaltOk;
    if e.ObjectCreate? {
      ArrivalExactly(w, e, n);
    } else if !(e.Do? && e.n == n) {
      OthersKeepGone(w, e, n);
    } else if ListsHonest(w, e, n) {
      if n in w.passes { OwnCallKeepsGone(w, n, e.choice); } else { NothingToDo(w, e); }
    } else {
      DishonestListLeaves(w, n, e.choice);
    }
  }

  /** The wait loops are numbered from 0 to 4. */
  ghost predicate WaitBounded(w: State, n: Name) {
    n in w.passes && w.passes[n].pc.HWait? ==> w.passes[n].pc.k <= 4
  }

  lemma BoundKept(w: State, e: Event, n: Name)
    requires WaitBounded(w, n)
    ensures WaitBounded(Step(w, e), n)
  {
    var w' := Step(w, e);
    if n in w'.passes && w'.passes[n].pc.HWait? {
      if e.Do? && e.n == n {
        if n in w.passes {
          var p := w.passes[n];
          var m := MoveOf(w, n, p, e.choice);
          SettlePasses(Commit(w, n, m.effect), n, p, m.next, n);
          if w'.passes[n].pc.k > 0 { NextWait(w, n, p, e.choice); }
          hide MoveOf;
        }
      } else {
        SamePass(w, e, n);
      }
    }
  }

  lemma NextWait(w: State, n: Name, p: Pass, c: Choice)
    requires MoveOf(w, n, p, c).next.Go? && MoveOf(w, n, p, c).next.pass.pc.HWait?
    ensures var k := MoveOf(w, n, p, c).next.pass.pc.k;
            k == 0 || (p.pc.HWait? && (k == p.pc.k || (k == p.pc.k + 1 && p.pc.k < 4)))
  {
    if p.pc.Creates() { CreateHaltsNot(w, n, p, c); }
    else if p.pc.Terminates() { TerminateHaltsNot(w, n, p, c); }
  }

  lemma {:induction false} Bounded(ws: seq<State>, es: seq<Event>, k: nat, n: Name)
    requires IsRun(ws, es) && k < |ws|
    ensures WaitBounded(ws[k], n)
  {
    if k == 0 {
    } else {
      hide Step, WaitBounded;
      Bounded(ws, es, k - 1, n);
      assert Goes(ws, es, k - 1);
      BoundKept(ws[k - 1], es[k - 1], n);
    }
  }

  lemma {:induction false} HaltOkAlong(ws: seq<State>, es: seq<Event>, i: nat, k: nat, n: Name)
    requires IsRun(ws, es) && i <= k <= |es| && HaltOk(ws[i], n)
    requires Between(ws, es, i, k, (w, e) => Unhindered(w, e, n))
    ensures HaltOk(ws[k], n)
  {
    hide Step, HaltOk, Unhindered;
    if i < k {
      HaltOkAlong(ws, es, i, k - 1, n);
      assert Goes(ws, es, k - 1);
      Bounded(ws, es, k - 1, n);
      HaltOkExactly(ws[k - 1], es[k - 1], n);
    }
  }

  /** A pass that has not come through a wait loop yet has nothing to be wrong about. */
  lemma BeforeWaits(w: State, n: Name)
    requires n in w.passes ==> !WaitsPassed(w.passes[n].pc, 1)
    ensures HaltOk(w, n)
  {
  }

  predicate SetsHalted(w: State, w': State, n: Name) {
    Current(w', n).Some? && Current(w', n).value.phase == Phase.Halted &&
    (Current(w, n).None? || Current(w, n).value.phase != Phase.Halted)
  }

  lemma PassSetsHalted(w: State, m: Name, p: Pass, c: Choice)
    requires MoveOf(w, m, p, c).effect.PutDatabase? && MoveOf(w, m, p, c).effect.database.phase == Phase.Halted
    requires Current(w, m).Some? && Current(w, m).value.phase != Phase.Halted
    ensures p.pc.HWrite?
  {
    if p.pc.Creates() { CreateSetsNoHalted(w, m, p, c); }
  }

  lemma CreateSetsNoHalted(w: State, m: Name, p: Pass, c: Choice)
    requires p.pc.Creates() && CreateMove(w, m, p, c.outcome, c.password).effect.PutDatabase?
    requires Current(w, m).Some? && Current(w, m).value.phase != Phase.Halted
    ensures CreateMove(w, m, p, c.outcome, c.password).effect.database.phase != Phase.Halted
  {
  }

  lemma HaltedWriter(w: State, e: Event, n: Name)
    requires SetsHalted(w, Step(w, e), n)
    ensures e.Do? && e.n == n && n in w.passes && w.passes[n].pc.HWrite?
  {
    if e.Do? {
      if e.n in w.passes {
        var p := w.passes[e.n];
        var m := MoveOf(w, e.n, p, e.choice);
        if m.effect.PutDatabase? {
          PassWritesCurrent(w, e.n, p, e.choice);
          if m.effect.database.phase == Phase.Halted && Current(w, e.n).value.phase != Phase.Halted { PassSetsHalted(w, e.n, p, e.choice); }
        }
        DoIs(w, e.n, e.choice);
        hide MoveOf, Step, Settle;
        SettleStores(Commit(w, e.n, m.effect), e.n, p, m.next);
        if e.n != n || !m.effect.PutDatabase? { CommitHistory(w, e.n, m.effect, n); }
      }
    } else {
      UserSetsNoHalted(w, e, n);
    }
  }

  lemma UserSetsNoHalted(w: State, e: Event, n: Name)
    requires !e.Do?
    ensures !SetsHalted(w, Step(w, e), n)
  {
    if IsUser(e) {
      assert Step(w, e) == UserStep(w, e);
      hide Step;
    } else {
      NoHistory(w, e);
      hide Step;
    }
  }

  /**
   When a step writes the Halted phase, the database has no pod, service, StatefulSet or deployment
   left, and no service account of its name, provided that since some point at which the pass had
   waited for nothing in vain (`BeforeWaits`, say) no such object arrived after its
   loop was over and no failed list call hid one.
   */
  lemma HaltedMeansGone(ws: seq<State>, es: seq<Event>, i: nat, k: nat, n: Name)
    requires IsRun(ws, es) && i <= k < |es| && HaltOk(ws[i], n)
    requires Between(ws, es, i, k, (w, e) => Unhindered(w, e, n))
    requires SetsHalted(ws[k], ws[k + 1], n)
    ensures var w := ws[k + 1];
      && LabelledKeys(w, Pod, n) == {} && LabelledKeys(w, Service, n) == {}
      && LabelledKeys(w, StatefulSet, n) == {} && LabelledKeys(w, Deployment, n) == {}
      && Key(ServiceAccount, n) !in w.objs
  {
    assert Goes(ws, es, k);
    HaltOkAlong(ws, es, i, k, n);
    HaltedStep(ws[k], es[k], n);
  }

  lemma HaltedStep(w: State, e: Event, n: Name)
    requires HaltOk(w, n) && SetsHalted(w, Step(w, e), n)
    ensures var w' := Step(w, e);
      && LabelledKeys(w', Pod, n) == {} && LabelledKeys(w', Service, n) == {}
      && LabelledKeys(w', StatefulSet, n) == {} && LabelledKeys(w', Deployment, n) == {}
      && Key(ServiceAccount, n) !in w'.objs
  {
    HaltedWriter(w, e, n);
    assert WaitsPassed(w.passes[n].pc, 5);
    PassArrivals(w, n, e.choice, n);
    var w' := Step(w, e);
    hide Step, SetsHalted, AwaitedKeys;
    GoneStays(w, w', n, 5);
    AllGone(w', n);
  }

  lemma AllGone(w: State, n: Name)
    requires GoneBefore(w, n, 5)
    ensures LabelledKeys(w, Pod, n) == {} && LabelledKeys(w, Service, n) == {}
    ensures LabelledKeys(w, StatefulSet, n) == {} && LabelledKeys(w, Deployment, n) == {}
    ensures Key(ServiceAccount, n) !in w.objs
  {
    assert Key(ServiceAccount, n) !in AwaitedKeys(w, 2, n);
  }
}
