/**
 Which pass a reconcile becomes, and what its writes of the database's status say, spelled out.
 */
module Dispatching {
  import opened Options
  import opened Cluster
  import opened Passes
  import opened Finalizers
  import Ownership

  /** The database is there, and would still be there if written back as it is. */
  predicate Kept(w: State, n: Name) {
    Current(w, n).Some? && (Current(w, n).value.deleting ==> Current(w, n).value.finalizer)
  }

  /** The copy a reconcile goes on with once the finalizer is in place. */
  function WithFinalizer(w: State, n: Name, px: Database): Database
    requires !px.finalizer ==> Current(w, n).Some?
  {
    if px.finalizer then px else Current(w, n).value.(finalizer := true)
  }

  lemma StartedMove(w: State, n: Name, p: Pass, c: Choice)
    requires p.pc == Start && c.outcome == Ok && (!p.px.finalizer ==> Current(w, n).Some?)
    ensures var m, y := MoveOf(w, n, p, c), WithFinalizer(w, n, p.px);
      && m.effect == (if p.px.finalizer then Quiet else PutDatabase(y))
      && (if y.conditions.paused == Some(true) then m.next == Stop
          else
            && m.next.Go? && m.next.pass.px == y
            && m.next.pass.pc ==
                 (if !y.spec.halted then CValidate
                  else if y.spec.policy == Policy.Halt then HDelete(0)
                  else FailGet))
  {
  }

  /**
   With the finalizer stored first: a paused database is left alone, one that is not halted is
   created, a halted one is halted if its policy is Halt and reported as failed otherwise.
   */
  lemma StartChooses(w: State, n: Name, c: Choice)
    requires n in w.passes && w.passes[n].pc == Start && c.outcome == Ok
    requires !w.passes[n].px.finalizer ==> Current(w, n).Some?
    ensures var w', y := Step(w, Do(n, c)), WithFinalizer(w, n, w.passes[n].px);
      && (!w.passes[n].px.finalizer ==> Current(w', n) == Some(Current(w, n).value.(finalizer := true)))
      && (y.conditions.paused == Some(true) ==> n !in w'.passes)
      && (y.conditions.paused != Some(true) ==>
            && n in w'.passes && w'.passes[n].px == y
            && (w'.passes[n].pc == CValidate <==> !y.spec.halted)
            && (w'.passes[n].pc == HDelete(0) <==> y.spec.halted && y.spec.policy == Policy.Halt)
            && (w'.passes[n].pc == FailGet <==> y.spec.halted && y.spec.policy != Policy.Halt))
  {
    hide Step;
    StartedMove(w, n, w.passes[n], c);
    StepMoves(w, n, c);
    hide MoveOf;
  }

  /* ---- over all runs ---- */

  /** What each kind of pass knows about its copy. */
  predicate ChosenFor(p: Pass) {
    && (p.pc.Creates() ==> !p.px.spec.halted)
    && (p.pc.CValidate? || p.pc.CProvision? ==> p.px.conditions.paused != Some(true))
    && (p.pc.Halts() ==> p.px.spec.halted && p.px.spec.policy == Policy.Halt && p.px.conditions.paused != Some(true))
    && (p.pc.Creates() || p.pc.Halts() || p.pc.Terminates() ==> p.px.finalizer)
    && (p.pc.Terminates() ==> p.px.deleting)
  }

  lemma CreateChosen(w: State, n: Name, p: Pass, c: Choice)
    requires ChosenFor(p) && p.pc.Creates()
    ensures var m := CreateMove(w, n, p, c.outcome, c.password);
            m.next.Go? ==> ChosenFor(m.next.pass)
  {
  }

  lemma HaltChosen(w: State, n: Name, p: Pass, c: Choice)
    requires ChosenFor(p) && p.pc.Halts()
    ensures var m := HaltMove(w, n, p, c);
            m.next.Go? ==> ChosenFor(m.next.pass)
  {
  }

  lemma TerminateChosen(w: State, n: Name, p: Pass, c: Choice)
    requires ChosenFor(p) && p.pc.Terminates()
    ensures var m := TerminateMove(w, n, p, c.outcome, c.item);
            m.next.Go? ==> ChosenFor(m.next.pass)
  {
  }

  lemma MoveChosen(w: State, n: Name, p: Pass, c: Choice)
    requires ChosenFor(p)
    ensures var m := MoveOf(w, n, p, c);
            m.next.Go? ==> ChosenFor(m.next.pass)
  {
    if p.pc.Creates() { CreateChosen(w, n, p, c); }
    else if p.pc.Halts() { HaltChosen(w, n, p, c); }
    else if p.pc.Terminates() { TerminateChosen(w, n, p, c); }
    hide CreateMove, HaltMove, TerminateMove;
  }

  lemma EntryChosen(p: Pass)
    requires p.px.deleting && p.px.finalizer
    ensures ChosenFor(TerminateEntry(p))
  {
  }

  lemma TakenChosen(w: State, n: Name)
    requires n !in w.passes && n in Step(w, Take(n)).passes
    ensures ChosenFor(Step(w, Take(n)).passes[n])
  {
    TakeIs(w, n);
    hide Step, Cached, TerminateEntry;
    if Cached(w, n).Some? && Cached(w, n).value.deleting && Cached(w, n).value.finalizer {
      EntryChosen(Pass(Cached(w, n).value, Start, map[], None));
    }
  }

  lemma {:induction false} PassesChosen(ws: seq<State>, es: seq<Event>, k: nat, n: Name)
    requires IsRun(ws, es) && k < |ws| && n in ws[k].passes
    ensures ChosenFor(ws[k].passes[n])
  {
    hide Step, ChosenFor;
    if k > 0 {
      assert Goes(ws, es, k - 1);
      var w, e := ws[k - 1], es[k - 1];
      if !e.Do? {
        EventPasses(w, e, n);
        if n in w.passes { PassesChosen(ws, es, k - 1, n); } else { TakenChosen(w, n); }
      } else if e.n !in w.passes {
        NothingToDo(w, e);
        PassesChosen(ws, es, k - 1, n);
      } else if e.n == n {
        PassesChosen(ws, es, k - 1, n);
        MoveChosen(w, n, w.passes[n], e.choice);
        StepMoves(w, n, e.choice);
        hide MoveOf;
      } else {
        Ownership.OtherPassStays(w, e.n, e.choice, n);
        PassesChosen(ws, es, k - 1, n);
      }
    }
  }

  /* ---- validation and the status ---- */

  /** A pass whose validation fails, or whose secret is not there, ends without having written anything. */
  lemma InvalidEnds(w: State, n: Name, c: Choice)
    requires n in w.passes && w.passes[n].pc == CValidate
    requires var s := w.passes[n].px.spec.secret; c.outcome != Ok || (s.Some? && s.value !in w.secrets)
    ensures var w' := Step(w, Do(n, c));
      n !in w'.passes && w'.hist == w.hist && w'.secrets == w.secrets && w'.pvcs == w.pvcs && w'.objs == w.objs
  {
    assert MoveOf(w, n, w.passes[n], c) == Move(Quiet, Stop);
    hide Step, MoveOf;
    StepMoves(w, n, c);
  }

  /** The phase that is written at each of the status calls. */
  function PhaseAt(pc: PC): Option<Phase> {
    match pc
    case CProvision => Some(Phase.Provisioning)
    case CReady => Some(Phase.Ready)
    case HWrite => Some(Phase.Halted)
    case FailPut => Some(Phase.NotReady)
    case _ => None
  }

  lemma StatusMove(w: State, n: Name, p: Pass, c: Choice)
    requires PhaseAt(p.pc).Some? && Current(w, n).Some? && c.outcome != Failed
    ensures MoveOf(w, n, p, c).effect == PutDatabase(Current(w, n).value.(phase := PhaseAt(p.pc).value))
  {
  }

  /** A status call that gets through writes its phase, and nothing else of the database. */
  lemma PhasesWritten(w: State, n: Name, c: Choice)
    requires n in w.passes && PhaseAt(w.passes[n].pc).Some? && Kept(w, n) && c.outcome != Failed
    ensures Current(Step(w, Do(n, c)), n) == Some(Current(w, n).value.(phase := PhaseAt(w.passes[n].pc).value))
  {
    hide Step, PhaseAt;
    StatusMove(w, n, w.passes[n], c);
    StepMoves(w, n, c);
    hide MoveOf;
  }

  /* ---- when the process goes down ---- */

  /** The process has been started anew: no pass is left, the informer has listed everything, the shared field is reset. */
  ghost predicate StartedAnew(w: State) {
    && w.passes == map[] && w.governing == "kubedb"
    && forall m: Name :: Seen(w, m) == |History(w, m)|
  }

  lemma PanicStarts(w: State, n: Name, c: Choice)
    requires n in w.passes && MoveOf(w, n, w.passes[n], c).next.Panic?
    ensures StartedAnew(Step(w, Do(n, c)))
  {
    hide MoveOf, Commit, Step;
    DoIs(w, n, c);
  }

  lemma FailureMove(w: State, n: Name, p: Pass, c: Choice)
    requires p.pc == FailGet
    ensures MoveOf(w, n, p, c) ==
      Move(Quiet, if c.outcome == Ok && Current(w, n).Some? then At(p, FailPut) else Panic)
  {
  }

  /** A failure is reported only if the database can be read; else the process goes down with all its passes. */
  lemma FailureReported(w: State, n: Name, c: Choice)
    requires n in w.passes && w.passes[n].pc == FailGet
    ensures var w' := Step(w, Do(n, c));
      && w'.hist == w.hist
      && (if c.outcome == Ok && Current(w, n).Some? then n in w'.passes && w'.passes[n].pc == FailPut else StartedAnew(w'))
  {
    hide Step;
    FailureMove(w, n, w.passes[n], c);
    StepMoves(w, n, c);
    if !(c.outcome == Ok && Current(w, n).Some?) { PanicStarts(w, n, c); }
    hide MoveOf, StartedAnew;
  }

  lemma NilAgentMove(w: State, n: Name, p: Pass, c: Choice)
    requires p.pc == TFinalizer && p.px.spec.monitoring == AgentMissing
    ensures MoveOf(w, n, p, c) == Move(Quiet, Panic)
  {
  }

  /** With an agent nobody implements, every `terminate` goes down before it removes the finalizer. */
  lemma NilAgentKeepsFinalizer(w: State, n: Name, c: Choice)
    requires n in w.passes && w.passes[n].pc == TFinalizer && w.passes[n].px.spec.monitoring == AgentMissing
    ensures Step(w, Do(n, c)).hist == w.hist && StartedAnew(Step(w, Do(n, c)))
  {
    hide Step;
    NilAgentMove(w, n, w.passes[n], c);
    StepMoves(w, n, c);
    PanicStarts(w, n, c);
    hide MoveOf, StartedAnew;
  }
}
