/**
 The reconcile passes as the operator's code has them: one method per function, assigning the stores
 of the API server call by call. Between two calls anybody else may act on the same stores: other
 workers, users, other controllers, the informer, garbage collection, a crash. Each method is proved
 to take exactly the machine's steps among those of the others, so that what is proved of the
 machine's runs holds of this code.
 */
module Controllers {
  import opened Options
  import opened Cluster
  import opened Passes
  import Ownership

  /** How a function of the operator returns; Down when the process goes down inside it. */
  datatype Return = Fine | Error | Down

  /** What happens next: a call of this worker and how it turns out, or a step of somebody else. */
  datatype Turn = Ours(choice: Choice) | Theirs(event: Event)

  /** Only the worker itself makes the calls of its pass. */
  predicate ByOthers(e: Event, n: Name) { !(e.Do? && e.n == n) }

  /** The steps of others among the turns, and among events. */
  function OthersIn(turns: seq<Turn>, n: Name): seq<Event> {
    if turns == [] then []
    else (if turns[0].Theirs? && ByOthers(turns[0].event, n) then [turns[0].event] else []) + OthersIn(turns[1..], n)
  }

  function OthersOf(es: seq<Event>, n: Name): seq<Event> {
    if es == [] then []
    else OthersOf(es[..|es| - 1], n) + (if ByOthers(es[|es| - 1], n) then [es[|es| - 1]] else [])
  }

  lemma OthersAppend(es: seq<Event>, e: Event, n: Name)
    ensures OthersOf(es + [e], n) == OthersOf(es, n) + (if ByOthers(e, n) then [e] else [])
  {
    assert (es + [e])[..|es + [e]| - 1] == es;
  }

  lemma OthersShift(es: seq<Event>, turns: seq<Turn>, n: Name)
    requires turns != [] && turns[0].Theirs?
    ensures var e := turns[0].event;
      OthersOf(es, n) + OthersIn(turns, n) == OthersOf(if ByOthers(e, n) then es + [e] else es, n) + OthersIn(turns[1..], n)
  {
    hide OthersOf, OthersIn;
    var e, b := turns[0].event, OthersIn(turns[1..], n);
    OthersAppend(es, e, n);
    OthersHead(turns, n);
    assert (OthersOf(es, n) + [e]) + b == OthersOf(es, n) + ([e] + b);
    assert [] + b == b;
    assert OthersOf(es, n) + [] == OthersOf(es, n);
  }

  lemma OthersHead(turns: seq<Turn>, n: Name)
    requires turns != [] && turns[0].Theirs?
    ensures OthersIn(turns, n) == (if ByOthers(turns[0].event, n) then [turns[0].event] else []) + OthersIn(turns[1..], n)
  {
  }

  /** Nothing has happened yet. */
  lemma OthersNone(w: State, turns: seq<Turn>, n: Name)
    ensures After(w, []) == w && OthersOf([], n) + OthersIn(turns, n) == OthersIn(turns, n)
  {
  }

  /** A pass in progress is left alone by everybody else, unless the process goes down. */
  lemma OthersLeavePass(w: State, e: Event, n: Name)
    requires n in w.passes && ByOthers(e, n) && n in Step(w, e).passes
    ensures Step(w, e).passes[n] == w.passes[n]
  {
    hide Step;
    if e.Do? {
      if e.n in w.passes { Ownership.OtherPassStays(w, e.n, e.choice, n); } else { NothingToDo(w, e); }
    } else {
      EventPasses(w, e, n);
    }
  }

  /* ---- the machine's moves at one call each ---- */

  lemma GovernMove(m: State, n: Name, p: Pass, c: Choice)
    requires p.pc == CGovern
    ensures MoveOf(m, n, p, c) ==
      Call(c.outcome, p,
           if Key(Service, GoverningService(n)) in m.objs then Quiet else Upsert(m, Key(Service, GoverningService(n)), n, p.px.uid, Plain),
           At(p, CRbac(0)))
  {
  }

  function AfterRbac(k: nat): (pc: PC)
    ensures pc.CRbac? || pc.CService?
  {
    if k < 2 then CRbac(k + 1) else CService
  }

  function AfterDeletion(k: nat): (pc: PC)
    ensures pc.HDelete? || pc.HListServices?
  {
    if k < 6 then HDelete(k + 1) else HListServices
  }

  function AfterWait(k: nat): (pc: PC)
    ensures pc.HWait? || pc.HWrite?
  {
    if k < 4 then HWait(k + 1) else HWrite
  }

  lemma RbacMove(m: State, n: Name, p: Pass, c: Choice)
    requires p.pc.CRbac?
    ensures MoveOf(m, n, p, c) == Call(c.outcome, p, Upsert(m, Key(RbacKind(p.pc.k), n), n, p.px.uid, Plain), At(p, AfterRbac(p.pc.k)))
  {
  }

  lemma StartedMove(m: State, n: Name, p: Pass, c: Choice)
    requires p.pc == Start
    ensures MoveOf(m, n, p, c) == StartMove(m, n, p, c.outcome)
  {
  }

  lemma ValidateMove(m: State, n: Name, p: Pass, c: Choice)
    requires p.pc == CValidate
    ensures MoveOf(m, n, p, c) == Move(Quiet,
      if c.outcome != Ok || (p.px.spec.secret.Some? && p.px.spec.secret.value !in m.secrets) then Stop
      else if p.px.phase == NoPhase then At(p, CProvision)
      else AfterProvisioning(p))
  {
  }

  lemma ProvisionMove(m: State, n: Name, p: Pass, c: Choice)
    requires p.pc == CProvision
    ensures MoveOf(m, n, p, c) ==
      match Current(m, n)
      case None => Move(Quiet, At(p, FailGet))
      case Some(x) =>
        Call(c.outcome, p, PutDatabase(x.(phase := Provisioning)),
             AfterProvisioning(p.(px := WithStatus(p.px, Provisioning, x.conditions))))
  {
  }

  lemma ServiceMove(m: State, n: Name, p: Pass, c: Choice)
    requires p.pc == CService
    ensures MoveOf(m, n, p, c) ==
      if Foreign(m, Key(Service, n), n) then Move(Quiet, At(p, FailGet))
      else Call(c.outcome, p, Upsert(m, Key(Service, n), n, p.px.uid, Plain), At(p, if p.px.spec.secret.None? then CSecretGet else CUpgrade))
  {
  }

  lemma SecretGetMove(m: State, n: Name, p: Pass, c: Choice)
    requires p.pc == CSecretGet
    ensures var s := AuthSecret(n);
      MoveOf(m, n, p, c) ==
        if s in m.secrets && m.secrets[s].labelled != Some(n) then Move(Quiet, At(p, FailGet))
        else Call(c.outcome, p, Quiet, At(p, if s in m.secrets then CSecretSpec else CSecretCreate))
  {
  }

  lemma SecretCreateMove(m: State, n: Name, p: Pass, c: Choice)
    requires p.pc == CSecretCreate
    ensures var s := AuthSecret(n);
      MoveOf(m, n, p, c) ==
        if s in m.secrets then Move(Quiet, At(p, FailGet))
        else Call(c.outcome, p, Effect.PutSecret(s, FreshSecret(m, n, c.password)), At(p, CSecretSpec))
  {
  }

  lemma SecretSpecMove(m: State, n: Name, p: Pass, c: Choice)
    requires p.pc == CSecretSpec
    ensures MoveOf(m, n, p, c) ==
      match Current(m, n)
      case None => Move(Quiet, At(p, FailGet))
      case Some(x) =>
        var spec := x.spec.(secret := Some(AuthSecret(n)));
        if !SecretFrozen(x.spec, spec) then Move(Quiet, At(p, FailGet))
        else Call(c.outcome, p, PutDatabase(x.(spec := spec)),
                  At(p.(px := p.px.(spec := p.px.spec.(secret := Some(AuthSecret(n))))), CVersion))
  {
  }

  lemma UpgradeMove(m: State, n: Name, p: Pass, c: Choice)
    requires p.pc == CUpgrade
    ensures MoveOf(m, n, p, c) ==
      Call(c.outcome, p, Effect.PutSecret(SecretName(p.px), UpgradedSecret(m, SecretName(p.px))), At(p, CVersion))
  {
  }

  lemma VersionMove(m: State, n: Name, p: Pass, c: Choice)
    requires p.pc == CVersion
    ensures MoveOf(m, n, p, c) == Call(c.outcome, p, Quiet, At(p, CWorkload(m.governing)))
  {
  }

  lemma WorkloadMove(m: State, n: Name, p: Pass, c: Choice)
    requires p.pc.CWorkload?
    ensures var k := Key(StatefulSet, n);
      var wanted := Upserted(m, k, n, p.px.uid, WorkloadOf(p.px, p.pc.serviceName));
      MoveOf(m, n, p, c) ==
        if Foreign(m, k, n) then Move(Quiet, At(p, FailGet))
        else Call(c.outcome, p, SetObjects(m.objs[k := wanted]), At(p, if k !in m.objs || wanted != m.objs[k] then CPods else CBinding))
  {
  }

  lemma PodsMove(m: State, n: Name, p: Pass, c: Choice)
    requires p.pc == CPods
    ensures MoveOf(m, n, p, c) == Call(c.outcome, p, Quiet, At(p, CBinding))
  {
  }

  lemma BindingMove(m: State, n: Name, p: Pass, c: Choice)
    requires p.pc == CBinding
    ensures MoveOf(m, n, p, c) ==
      Call(c.outcome, p, Upsert(m, Key(AppBinding, n), n, p.px.uid, Binding(SecretName(p.px))), AfterBinding(p))
  {
  }

  lemma ReadyMove(m: State, n: Name, p: Pass, c: Choice)
    requires p.pc == CReady
    ensures MoveOf(m, n, p, c) ==
      match Current(m, n)
      case None => Move(Quiet, At(p, FailGet))
      case Some(x) =>
        Call(c.outcome, p, PutDatabase(x.(phase := Ready)), At(p.(px := WithStatus(p.px, Ready, x.conditions)), CStats))
  {
  }

  lemma StatsMove(m: State, n: Name, p: Pass, c: Choice)
    requires p.pc == CStats
    ensures var k := Key(Service, StatsService(n));
      MoveOf(m, n, p, c) ==
        if !p.px.spec.Watched() || Foreign(m, k, n) || c.outcome == Failed then Move(Quiet, Stop)
        else Move(Upsert(m, k, n, p.px.uid, Plain), if c.outcome == Ok then Unless(p.px, Stop) else Stop)
  {
  }

  lemma FailingMove(m: State, n: Name, p: Pass, c: Choice)
    requires p.pc == FailGet || p.pc == FailPut
    ensures MoveOf(m, n, p, c) == FailMove(m, n, p, c.outcome)
  {
  }

  lemma ServiceListMove(m: State, n: Name, p: Pass, c: Choice)
    requires p.pc == HListServices
    ensures var services := LabelledKeys(m, Service, n);
      MoveOf(m, n, p, c) == Call(c.outcome, p, Quiet, if services == {} then Unless(p.px, At(p, HWait(0))) else At(p, HDeleteService(services)))
  {
  }

  lemma ServiceDeleteMove(m: State, n: Name, p: Pass, c: Choice, key: Key)
    requires p.pc.HDeleteService? && key == Key(Service, c.item) && key in p.pc.services
    ensures MoveOf(m, n, p, c) ==
      if key !in m.objs then Move(Quiet, At(p, FailGet))
      else
        Call(c.outcome, p, SetObjects(Deleted(m.objs, {key})),
             if p.pc.services - {key} == {} then Unless(p.px, At(p, HWait(0))) else At(p, HDeleteService(p.pc.services - {key})))
  {
    assert p.pc.services == {key} <==> p.pc.services - {key} == {};
  }

  lemma DeletionMove(m: State, n: Name, p: Pass, c: Choice)
    requires p.pc.HDelete?
    ensures MoveOf(m, n, p, c) ==
      Move(SetObjects(CollectionDeleted(m, LabelledKeys(m, HaltKind(p.pc.k), n), c)),
           At(p, if c.outcome == Ok then AfterDeletion(p.pc.k) else FailGet))
  {
  }

  lemma WaitMove(m: State, n: Name, p: Pass, c: Choice)
    requires p.pc.HWait?
    ensures MoveOf(m, n, p, c) == Move(Quiet,
      if WaitOver(m, p.pc.k, n, c.outcome) then At(p, AfterWait(p.pc.k))
      else if c.giveUp then At(p, FailGet)
      else Go(p))
  {
  }

  lemma HaltedMove(m: State, n: Name, p: Pass, c: Choice)
    requires p.pc == HWrite
    ensures MoveOf(m, n, p, c) ==
      match Current(m, n)
      case None => Move(Quiet, At(p, FailGet))
      case Some(x) => Call(c.outcome, p, PutDatabase(x.(phase := Phase.Halted)), Stop)
  {
  }

  lemma PeersMove(m: State, n: Name, p: Pass, c: Choice)
    requires p.pc == TPeers
    ensures MoveOf(m, n, p, c) == Move(Quiet,
      if c.outcome != Ok then Stop
      else At(p, if p.px.spec.secret.None? || UsedByPeers(m, n, SecretName(p.px)) then TPvcList else TSecretGet))
  {
  }

  lemma SecretReadMove(m: State, n: Name, p: Pass, c: Choice)
    requires p.pc == TSecretGet
    ensures var s := SecretName(p.px);
      var mv := MoveOf(m, n, p, c);
      && mv.effect == Quiet
      && (if c.outcome != Ok then mv.next == Stop
          else
            && mv.next.Go? && mv.next.pass.px == p.px
            && mv.next.pass.pc ==
                 if s !in m.secrets || (p.px.uid in m.secrets[s].owners) == MarksSecret(p.px) then AfterSecretAt(p.px)
                 else TSecretPatch(m.secrets[s].owners))
  {
  }

  lemma SecretPatchMove(m: State, n: Name, p: Pass, c: Choice)
    requires p.pc.TSecretPatch?
    ensures var s := SecretName(p.px);
      MoveOf(m, n, p, c) == Move(
        if c.outcome == Failed || s !in m.secrets then Quiet
        else Effect.PutSecret(s, m.secrets[s].(owners := Patched(p.pc.snapshot, MarksSecret(p.px), p.px.uid))),
        if c.outcome == Ok then At(p, AfterSecretAt(p.px)) else Stop)
  {
  }

  lemma FinalizerMove(m: State, n: Name, p: Pass, c: Choice)
    requires p.pc == TFinalizer && !p.px.spec.monitoring.AgentMissing?
    ensures MoveOf(m, n, p, c) ==
      Move(if Current(m, n).Some? && c.outcome.Applied() then PutDatabase(Current(m, n).value.(finalizer := false)) else Quiet, Stop)
  {
  }

  lemma NilAgentMove(m: State, n: Name, p: Pass, c: Choice)
    requires p.pc == TFinalizer && p.px.spec.monitoring.AgentMissing?
    ensures MoveOf(m, n, p, c) == Move(Quiet, Panic)
  {
  }

  /** What a pass that takes the process down leaves of the process. */
  lemma Panicked(m: State, n: Name, c: Choice)
    requires n in m.passes && MoveOf(m, n, m.passes[n], c).next == Panic
    ensures var m' := Step(m, Do(n, c));
      m'.seen == (map k | k in m'.hist :: |m'.hist[k]|) && m'.governing == "kubedb" && n !in m'.passes
  {
    hide MoveOf, Step, Commit;
    DoIs(m, n, c);
  }

  /** Taking a key changes nothing but the passes. */
  lemma TakeStores(m: State, n: Name)
    ensures var m' := Step(m, Take(n));
      m' == m.(passes := m'.passes, audit := m'.audit)
  {
    TakeIs(m, n);
    hide Step, Cached, TerminateEntry;
  }

  lemma TakePass(m: State, n: Name)
    requires n !in m.passes
    ensures var m' := Step(m, Take(n));
      match Cached(m, n)
      case None => n !in m'.passes
      case Some(px) =>
        if px.deleting && !px.finalizer then n !in m'.passes
        else n in m'.passes && m'.passes[n].px == px && m'.passes[n].pc == if px.deleting then EntryAt(px) else Start
  {
    TakeIs(m, n);
    hide Step, Cached;
  }

  /** One worker with the stores it works on. */
  class Controller {
    var databases: map<Name, seq<Option<Database>>>
    var seen: map<Name, nat>
    var nextId: nat
    var secrets: map<Name, Secret>
    var pvcs: map<Name, Pvc>
    var objs: map<Key, Offshoot>
    var governingService: Name

    /** The coming turns; when the list ends, the process goes down. */
    var script: seq<Turn>

    /** How the worker's next call turns out. */
    var coming: Choice

    /** The machine, which also says what everybody else's steps do to the stores. */
    var machine: State

    /** The machine when the key was taken, the steps of others to come then, and the events since. */
    ghost var start: State
    ghost var others: seq<Event>
    ghost var trace: seq<Event>

    ghost predicate Mirrors()
      reads `machine, `databases, `seen, `nextId, `secrets, `pvcs, `objs, `governingService
    {
      && machine.hist == databases && machine.seen == seen && machine.nextId == nextId
      && machine.secrets == secrets && machine.pvcs == pvcs && machine.objs == objs
      && machine.governing == governingService
    }

    /** The machine is where the events lead, among them every step of others so far, in order. */
    ghost predicate Traced(n: Name)
      reads `machine, `start, `others, `trace, `script
    {
      machine == After(start, trace) && OthersOf(trace, n) + OthersIn(script, n) == others
    }

    ghost predicate Valid(n: Name)
      reads this
    {
      Mirrors() && Traced(n)
    }

    /** Nothing more happens, or the process has gone down. */
    ghost predicate Gone(n: Name)
      reads `machine, `script
    {
      script == [] || n !in machine.passes
    }

    /** The same reconcile. */
    twostate predicate Continues()
      reads this
    {
      start == old(start) && others == old(others)
    }

    /** The machine's pass is before the call `pc`. */
    ghost predicate At(n: Name, px: Database, pc: PC)
      reads `machine
    {
      n in machine.passes && machine.passes[n].px == px && machine.passes[n].pc == pc
    }

    ghost predicate Failing(n: Name)
      reads `machine
    {
      n in machine.passes && machine.passes[n].pc == FailGet
    }

    /** A function has returned where the machine's pass is before `pc`, or has failed with it. */
    ghost predicate Returned(r: Return, n: Name, px: Database, pc: PC)
      reads `machine, `script
    {
      match r
      case Fine => At(n, px, pc)
      case Error => Failing(n)
      case Down => Gone(n)
    }

    /** A pass has returned: it is over for the machine, too, or has failed with it. */
    ghost predicate Over(r: Return, n: Name)
      reads `machine, `script
    {
      match r
      case Fine => n !in machine.passes
      case Error => Failing(n)
      case Down => Gone(n)
    }

    /** The stored database of a name. */
    function StoredDatabase(n: Name): Option<Database>
      reads `databases
    {
      if n in databases && databases[n] != [] then databases[n][|databases[n]| - 1] else None
    }

    /** The stores, the informer and the shared field become what the machine then has. */
    method Absorb(w: State)
      modifies `databases, `seen, `nextId, `secrets, `pvcs, `objs, `governingService, `machine
      ensures machine == w && Mirrors()
    {
      machine := w;
      databases, seen, nextId, secrets, pvcs := w.hist, w.seen, w.nextId, w.secrets, w.pvcs;
      objs, governingService := w.objs, w.governing;
    }

    /** Somebody else acts on the stores, the informer or the shared field, or takes the process down. */
    method OthersAct(n: Name)
      requires Valid(n) && n in machine.passes && script != [] && script[0].Theirs?
      modifies this
      ensures Valid(n) && Continues() && script == old(script)[1..]
      ensures n in machine.passes ==> machine.passes[n] == old(machine.passes[n])
    {
      hide Step, After, Mirrors, OthersOf, OthersIn;
      var e := script[0].event;
      OthersShift(trace, script, n);
      script := script[1..];
      if ByOthers(e, n) {
        if n in Step(machine, e).passes { OthersLeavePass(machine, e, n); }
        AfterAppend(start, trace, e);
        Absorb(Step(machine, e));
        trace := trace + [e];
      }
    }

    /** What the worker reads is what the machine has. */
    lemma Reads(n: Name)
      requires Mirrors()
      ensures objs == machine.objs && secrets == machine.secrets && pvcs == machine.pvcs && nextId == machine.nextId
      ensures StoredDatabase(n) == Current(machine, n)
    {
    }

    /** Others have their turns until it is the worker's; Down when it never comes to that. */
    method Await(n: Name) returns (r: Return)
      requires Valid(n) && n in machine.passes
      modifies this
      ensures Valid(n) && Continues() && |script| <= |old(script)|
      ensures match r
              case Fine => n in machine.passes && machine.passes[n] == old(machine.passes[n]) && |script| < |old(script)|
              case Error => false
              case Down => Gone(n)
    {
      hide After, OthersOf;
      while script != [] && script[0].Theirs?
        invariant Valid(n) && Continues() && |script| <= |old(script)|
        invariant n in machine.passes && machine.passes[n] == old(machine.passes[n])
        decreases |script|
      {
        OthersAct(n);
        if n !in machine.passes {
          return Down;
        }
      }
      if script == [] {
        return Down;
      }
      coming, script := script[0].choice, script[1..];
      return Fine;
    }

    /** The stores hold what the machine would have after this effect. */
    ghost predicate Made(e: Effect, n: Name)
      reads `machine, `databases, `nextId, `secrets, `pvcs, `objs
    {
      && databases == (if e.PutDatabase? then machine.hist[n := History(machine, n) + [Stored(e.database)]] else machine.hist)
      && secrets == (if e.PutSecret? then machine.secrets[e.secretName := e.secret] else machine.secrets)
      && nextId == (if e.PutSecret? then machine.nextId + 1 else machine.nextId)
      && pvcs == (if e.PutPvc? then machine.pvcs[e.pvcName := e.pvc] else machine.pvcs)
      && objs == (if e.SetObjects? then e.objs else machine.objs)
    }

    /** The machine takes the step of the call that is being made. */
    method Record(n: Name, c: Choice, ghost move: Move)
      requires Traced(n) && n in machine.passes && move == MoveOf(machine, n, machine.passes[n], c) && Made(move.effect, n)
      modifies `machine, `trace
      ensures Traced(n) && Made(Quiet, n) && Moved(old(machine), machine, n, old(machine.passes[n]), move)
      ensures machine == Step(old(machine), Do(n, c))
    {
      hide Step, MoveOf, After, OthersOf, OthersIn;
      AfterAppend(start, trace, Do(n, c));
      OthersAppend(trace, Do(n, c), n);
      StepMoves(machine, n, c);
      machine := Step(machine, Do(n, c));
      trace := trace + [Do(n, c)];
    }

    /** The pass goes on there, or is over. */
    ghost predicate Continued(n: Name, next: Next)
      reads `machine
    {
      if next.Go? then n in machine.passes && machine.passes[n] == next.pass else n !in machine.passes
    }

    /** The API server does `e`, if the call gets there. */
    method Make(n: Name, c: Choice, e: Effect, ghost move: Move)
      requires Valid(n) && n in machine.passes && move == MoveOf(machine, n, machine.passes[n], c)
      requires e == move.effect && !move.next.Panic?
      modifies `databases, `secrets, `nextId, `pvcs, `objs, `machine, `trace
      ensures Continued(n, move.next)
      ensures Traced(n) && Made(Quiet, n) && seen == machine.seen && (governingService == machine.governing ==> Valid(n))
      ensures machine.governing ==
        if old(machine.passes[n]).pc.CGovern? && move.next.Go? && move.next.pass.pc.CRbac? then GoverningService(n)
        else old(machine.governing)
    {
      hide Traced, MoveOf;
      match e {
        case Quiet =>
        case PutDatabase(x) => databases := databases[n := (if n in databases then databases[n] else []) + [Stored(x)]];
        case PutSecret(s, secret) => secrets, nextId := secrets[s := secret], nextId + 1;
        case PutPvc(v, pvc) => pvcs := pvcs[v := pvc];
        case SetObjects(after) => objs := after;
      }
      Record(n, c, move);
    }

    /** The call, and then others act until the next one; Error when the function returns one. */
    method Serve(n: Name, c: Choice, e: Effect, failed: bool, ghost move: Move) returns (r: Return)
      requires Valid(n) && n in machine.passes && move == MoveOf(machine, n, machine.passes[n], c)
      requires e == move.effect && !move.next.Panic? && !machine.passes[n].pc.CGovern?
      modifies this
      ensures Valid(n) && Continues() && |script| <= |old(script)|
      ensures match r
              case Fine => !failed && Continued(n, move.next)
              case Error => failed && Continued(n, move.next)
              case Down => Gone(n)
      ensures r != Down && move.next.Go? ==> |script| < |old(script)|
    {
      hide Traced, MoveOf, Made;
      Make(n, c, e, move);
      if n in machine.passes {
        r := Await(n);
        if r == Down {
          return;
        }
      }
      return if failed then Error else Fine;
    }

    /** The same where a nil value is used next: the process goes down, and is started again. */
    method GoDown(n: Name, c: Choice, e: Effect, ghost move: Move)
      requires Valid(n) && n in machine.passes && move == MoveOf(machine, n, machine.passes[n], c)
      requires e == move.effect && (e.Quiet? || e.SetObjects?) && move.next.Panic?
      modifies `objs, `machine, `trace, `seen, `governingService
      ensures Valid(n) && n !in machine.passes
    {
      hide Traced, MoveOf, Step;
      Panicked(machine, n, c);
      objs := if e.SetObjects? then e.objs else objs;
      Record(n, c, move);
      Restart();
    }

    /** An object as the database wants it: owner reference, labels and payload. */
    function Desired(k: Key, n: Name, uid: nat, payload: Payload): Offshoot
      reads `objs
    {
      var was := if k in objs then objs[k] else Offshoot(None, {}, Plain, false, false);
      Offshoot(Some(n), was.owners + {uid}, payload, was.held, was.dying)
    }

    /** The request to create or patch it. */
    function CreateOrPatch(k: Key, n: Name, uid: nat, payload: Payload): Effect
      reads `objs
    {
      SetObjects(objs[k := Desired(k, n, uid, payload)])
    }

    lemma DesiredSame(k: Key, n: Name, uid: nat, payload: Payload)
      requires objs == machine.objs
      ensures Desired(k, n, uid, payload) == Upserted(machine, k, n, uid, payload)
      ensures CreateOrPatch(k, n, uid, payload) == Upsert(machine, k, n, uid, payload)
    {
    }

    /* ---- service.go, appbinding.go and rbac.go ---- */

    method CreateGoverningService(n: Name, px: Database) returns (r: Return)
      requires Valid(n) && At(n, px, CGovern)
      modifies this
      ensures Valid(n) && Returned(r, n, px, CRbac(0)) && Continues()
    {
      hide Traced, MoveOf, GoverningService, Upserted, Desired, CreateOrPatch;
      var c := coming;
      Reads(n);
      ghost var move := MoveOf(machine, n, machine.passes[n], c);
      GovernMove(machine, n, machine.passes[n], c);
      var k := Key(Service, GoverningService(n));
      DesiredSame(k, n, px.uid, Plain);
      Make(n, c, if c.outcome.Applied() && k !in objs then CreateOrPatch(k, n, px.uid, Plain) else Quiet, move);
      if c.outcome == Ok {
        governingService := GoverningService(n);
      }
      r := Await(n);
      return if r == Fine && c.outcome != Ok then Error else r;
    }

    method EnsureRbacObject(n: Name, px: Database, k: nat) returns (r: Return)
      requires Valid(n) && At(n, px, CRbac(k)) && k <= 2
      modifies this
      ensures Valid(n) && Returned(r, n, px, AfterRbac(k)) && Continues()
    {
      hide Traced, Made, MoveOf, Upserted, RbacKind, AfterRbac;
      var c := coming;
      Reads(n);
      ghost var move := MoveOf(machine, n, machine.passes[n], c);
      RbacMove(machine, n, machine.passes[n], c);
      DesiredSame(Key(RbacKind(k), n), n, px.uid, Plain);
      r := Serve(n, c,
                 if c.outcome.Applied() then CreateOrPatch(Key(RbacKind(k), n), n, px.uid, Plain) else Quiet,
                 c.outcome != Ok, move);
    }

    /** Service account, role and role binding. */
    method EnsureRbac(n: Name, px: Database) returns (r: Return)
      requires Valid(n) && At(n, px, CRbac(0))
      modifies this
      ensures Valid(n) && Returned(r, n, px, CService) && Continues()
    {
      hide Traced, Mirrors;
      r := EnsureRbacObject(n, px, 0);
      if r != Fine {
        return;
      }
      r := EnsureRbacObject(n, px, 1);
      if r != Fine {
        return;
      }
      r := EnsureRbacObject(n, px, 2);
    }

    /** Another database's object, or nobody's, has the name. */
    predicate Taken(k: Key, n: Name)
      reads `objs
    {
      k in objs && objs[k].labelled != Some(n)
    }

    method EnsureService(n: Name, px: Database) returns (r: Return)
      requires Valid(n) && At(n, px, CService)
      modifies this
      ensures Valid(n) && Returned(r, n, px, if px.spec.secret.None? then CSecretGet else CUpgrade) && Continues()
    {
      hide Traced, Made, MoveOf, Upserted;
      var c := coming;
      Reads(n);
      ghost var move := MoveOf(machine, n, machine.passes[n], c);
      ServiceMove(machine, n, machine.passes[n], c);
      var k := Key(Service, n);
      var taken := Taken(k, n);
      DesiredSame(k, n, px.uid, Plain);
      r := Serve(n, c,
                 if !taken && c.outcome.Applied() then CreateOrPatch(k, n, px.uid, Plain) else Quiet,
                 taken || c.outcome != Ok, move);
    }

    method EnsureStatsService(n: Name, px: Database) returns (r: Return)
      requires Valid(n) && At(n, px, CStats)
      modifies this
      ensures Valid(n) && Over(r, n) && r != Error && Continues()
    {
      hide Traced, Made, MoveOf, Upserted;
      var c := coming;
      Reads(n);
      ghost var move := MoveOf(machine, n, machine.passes[n], c);
      StatsMove(machine, n, machine.passes[n], c);
      var k := Key(Service, StatsService(n));
      DesiredSame(k, n, px.uid, Plain);
      var sent := px.spec.Watched() && !Taken(k, n) && c.outcome.Applied();
      if sent && c.outcome == Ok && px.spec.monitoring.AgentMissing? {
        GoDown(n, c, CreateOrPatch(k, n, px.uid, Plain), move);
        return Down;
      }
      r := Serve(n, c, if sent then CreateOrPatch(k, n, px.uid, Plain) else Quiet, false, move);
    }

    method EnsureAppBinding(n: Name, px: Database) returns (r: Return)
      requires Valid(n) && At(n, px, CBinding)
      modifies this
      ensures Valid(n) && Continues()
      ensures if r == Fine && WaitsAfterWorkload(px) then n !in machine.passes else Returned(r, n, px, CReady)
    {
      hide Traced, Made, MoveOf, Upserted;
      var c := coming;
      Reads(n);
      ghost var move := MoveOf(machine, n, machine.passes[n], c);
      BindingMove(machine, n, machine.passes[n], c);
      DesiredSame(Key(AppBinding, n), n, px.uid, Binding(SecretName(px)));
      r := Serve(n, c,
                 if c.outcome.Applied() then CreateOrPatch(Key(AppBinding, n), n, px.uid, Binding(SecretName(px))) else Quiet,
                 c.outcome != Ok, move);
    }

    /* ---- secret.go ---- */

    /** Looks up the secret of the database's own name; one with foreign labels is an error. */
    method CheckSecret(n: Name, px: Database) returns (r: Return, found: bool)
      requires Valid(n) && At(n, px, CSecretGet)
      modifies this
      ensures Valid(n) && Returned(r, n, px, if found then CSecretSpec else CSecretCreate) && Continues()
    {
      hide Traced, Made, MoveOf;
      found := false;
      var c := coming;
      Reads(n);
      found := AuthSecret(n) in secrets;
      ghost var move := MoveOf(machine, n, machine.passes[n], c);
      SecretGetMove(machine, n, machine.passes[n], c);
      var foreign := found && secrets[AuthSecret(n)].labelled != Some(n);
      r := Serve(n, c, Quiet, foreign || c.outcome != Ok, move);
    }

    method CreateSecret(n: Name, px: Database) returns (r: Return)
      requires Valid(n) && At(n, px, CSecretCreate)
      modifies this
      ensures Valid(n) && Returned(r, n, px, CSecretSpec) && Continues()
    {
      hide Traced, Made, MoveOf;
      var c := coming;
      Reads(n);
      ghost var move := MoveOf(machine, n, machine.passes[n], c);
      SecretCreateMove(machine, n, machine.passes[n], c);
      var there := AuthSecret(n) in secrets;
      var secret := Secret(nextId, Some(n), {}, Some(c.password), true, false);
      r := Serve(n, c, if !there && c.outcome.Applied() then Effect.PutSecret(AuthSecret(n), secret) else Quiet,
                 there || c.outcome != Ok, move);
    }

    /** The secret of the database's own name, looked up or else created with a new password. */
    method CreateDatabaseSecret(n: Name, px: Database) returns (r: Return)
      requires Valid(n) && At(n, px, CSecretGet)
      modifies this
      ensures Valid(n) && Returned(r, n, px, CSecretSpec) && Continues()
    {
      hide Traced, Mirrors, Valid;
      var found;
      r, found := CheckSecret(n, px);
      if r == Fine && !found {
        r := CreateSecret(n, px);
      }
    }

    method UpgradeDatabaseSecret(n: Name, px: Database) returns (r: Return)
      requires Valid(n) && At(n, px, CUpgrade)
      modifies this
      ensures Valid(n) && Returned(r, n, px, CVersion) && Continues()
    {
      hide Traced, Made, MoveOf;
      var c := coming;
      Reads(n);
      ghost var move := MoveOf(machine, n, machine.passes[n], c);
      UpgradeMove(machine, n, machine.passes[n], c);
      var s := SecretName(px);
      var secret := Secret(nextId, None, {}, None, false, false);
      if s in secrets {
        secret := secrets[s];
        if !secret.username && secret.legacyUser {
          secret := secret.(username := true);
        }
      }
      assert secret == UpgradedSecret(machine, s);
      hide UpgradedSecret, SecretName;
      r := Serve(n, c, if c.outcome.Applied() then Effect.PutSecret(s, secret) else Quiet, c.outcome != Ok, move);
    }

    /** Patches the spec; admission refuses to change a secret that is set. */
    method BindSecret(n: Name, px: Database) returns (r: Return, bound: Database)
      requires Valid(n) && At(n, px, CSecretSpec)
      modifies this
      ensures Valid(n) && Returned(r, n, bound, CVersion) && Continues()
    {
      hide Traced, Made, MoveOf, StoredDatabase, Current, History, Stored, AuthSecret;
      bound := px.(spec := px.spec.(secret := Some(AuthSecret(n))));
      var c := coming;
      Reads(n);
      ghost var move := MoveOf(machine, n, machine.passes[n], c);
      SecretSpecMove(machine, n, machine.passes[n], c);
      var stored := StoredDatabase(n);
      var refused := stored.None? || (stored.value.spec.secret.Some? && stored.value.spec.secret != Some(AuthSecret(n)));
      r := Serve(n, c,
                 if !refused && c.outcome.Applied() then
                   Effect.PutDatabase(stored.value.(spec := stored.value.spec.(secret := Some(AuthSecret(n)))))
                 else Quiet,
                 refused || c.outcome != Ok, move);
    }

    /** Binds the database to a secret, in the store and in the pass's own copy. */
    method EnsureDatabaseSecret(n: Name, px: Database) returns (r: Return, bound: Database)
      requires Valid(n) && At(n, px, if px.spec.secret.None? then CSecretGet else CUpgrade)
      modifies this
      ensures Valid(n) && Returned(r, n, bound, CVersion) && Continues()
    {
      hide Traced, Mirrors, Valid;
      bound := px;
      if px.spec.secret.None? {
        r := CreateDatabaseSecret(n, px);
        if r == Fine {
          r, bound := BindSecret(n, px);
        }
      } else {
        r := UpgradeDatabaseSecret(n, px);
      }
    }

    /* ---- statefulset.go ---- */

    /** The governing service is read from the controller's shared field, not from the database. */
    method EnsurePerconaXtraDB(n: Name, px: Database) returns (r: Return)
      requires Valid(n) && At(n, px, CVersion)
      modifies this
      ensures Valid(n) && Returned(r, n, px, CBinding) && Continues()
    {
      hide Traced, Made, MoveOf;
      var c := coming;
      Reads(n);
      ghost var move := MoveOf(machine, n, machine.passes[n], c);
      VersionMove(machine, n, machine.passes[n], c);
      var serviceName := governingService;
      r := Serve(n, c, Quiet, c.outcome != Ok, move);
      if r == Fine {
        r := EnsureStatefulSet(n, px, serviceName);
      }
    }

    /** `changed` is what the upsert reports: created or patched. */
    method CreateOrPatchStatefulSet(n: Name, px: Database, serviceName: Name) returns (r: Return, changed: bool)
      requires Valid(n) && At(n, px, CWorkload(serviceName))
      modifies this
      ensures Valid(n) && Returned(r, n, px, if changed then CPods else CBinding) && Continues()
    {
      hide Traced, Made, MoveOf, Upserted, Desired;
      changed := false;
      var c := coming;
      Reads(n);
      ghost var move := MoveOf(machine, n, machine.passes[n], c);
      WorkloadMove(machine, n, machine.passes[n], c);
      var k := Key(StatefulSet, n);
      var taken := Taken(k, n);
      DesiredSame(k, n, px.uid, WorkloadOf(px, serviceName));
      changed := k !in objs || Desired(k, n, px.uid, WorkloadOf(px, serviceName)) != objs[k];
      r := Serve(n, c,
                 if !taken && c.outcome.Applied() then CreateOrPatch(k, n, px.uid, WorkloadOf(px, serviceName)) else Quiet,
                 taken || c.outcome != Ok, move);
    }

    method CheckStatefulSetPodStatus(n: Name, px: Database) returns (r: Return)
      requires Valid(n) && At(n, px, CPods)
      modifies this
      ensures Valid(n) && Returned(r, n, px, CBinding) && Continues()
    {
      hide Traced, Made, MoveOf;
      var c := coming;
      Reads(n);
      ghost var move := MoveOf(machine, n, machine.passes[n], c);
      PodsMove(machine, n, machine.passes[n], c);
      r := Serve(n, c, Quiet, c.outcome != Ok, move);
    }

    /** Pods are waited for only when this pass has created or patched the StatefulSet. */
    method EnsureStatefulSet(n: Name, px: Database, serviceName: Name) returns (r: Return)
      requires Valid(n) && At(n, px, CWorkload(serviceName))
      modifies this
      ensures Valid(n) && Returned(r, n, px, CBinding) && Continues()
    {
      hide Traced, Mirrors, Valid;
      var changed;
      r, changed := CreateOrPatchStatefulSet(n, px, serviceName);
      if r == Fine && changed {
        r := CheckStatefulSetPodStatus(n, px);
      }
    }

    /* ---- percona_xtradb.go: create ---- */

    /** Writes a phase into the status; the pass goes on with the status it gets back. */
    method ReportProvisioning(n: Name, px: Database) returns (r: Return, after: Database)
      requires Valid(n) && At(n, px, CProvision)
      modifies this
      ensures Valid(n) && Continues()
      ensures r == Fine ==> after.spec == px.spec
      ensures if r == Fine && WaitsBeforeWorkload(after) then n !in machine.passes else Returned(r, n, after, CGovern)
    {
      hide Traced, Made, MoveOf, StoredDatabase, Current, History, Stored, AuthSecret;
      after := px;
      var c := coming;
      Reads(n);
      ghost var move := MoveOf(machine, n, machine.passes[n], c);
      ProvisionMove(machine, n, machine.passes[n], c);
      var stored := StoredDatabase(n);
      r := Serve(n, c,
                 if stored.Some? && c.outcome.Applied() then Effect.PutDatabase(stored.value.(phase := Provisioning)) else Quiet,
                 stored.None? || c.outcome != Ok, move);
      if r == Fine {
        after := WithStatus(px, Provisioning, stored.value.conditions);
      }
    }

    method ReportReady(n: Name, px: Database) returns (r: Return, after: Database)
      requires Valid(n) && At(n, px, CReady)
      modifies this
      ensures Valid(n) && Returned(r, n, after, CStats) && Continues()
    {
      hide Traced, Made, MoveOf, StoredDatabase, Current, History, Stored, AuthSecret;
      after := px;
      var c := coming;
      Reads(n);
      ghost var move := MoveOf(machine, n, machine.passes[n], c);
      ReadyMove(machine, n, machine.passes[n], c);
      var stored := StoredDatabase(n);
      r := Serve(n, c,
                 if stored.Some? && c.outcome.Applied() then Effect.PutDatabase(stored.value.(phase := Ready)) else Quiet,
                 stored.None? || c.outcome != Ok, move);
      if r == Fine {
        after := WithStatus(px, Ready, stored.value.conditions);
      }
    }

    /** Validation and the first status write; `goOn` is false when the pass is over. */
    method BeginCreate(n: Name, px: Database) returns (r: Return, after: Database, goOn: bool)
      requires Valid(n) && At(n, px, CValidate)
      modifies this
      ensures Valid(n) && Continues()
      ensures if r == Fine && !goOn then n !in machine.passes else Returned(r, n, after, CGovern)
    {
      hide Traced, Made, MoveOf;
      after, goOn := px, false;
      var c := coming;
      Reads(n);
      ghost var move := MoveOf(machine, n, machine.passes[n], c);
      ValidateMove(machine, n, machine.passes[n], c);
      var invalid := px.spec.secret.Some? && px.spec.secret.value !in secrets;
      r := Serve(n, c, Quiet, false, move);
      if r == Down || c.outcome != Ok || invalid {
        return;
      }
      if px.phase == NoPhase {
        r, after := ReportProvisioning(n, px);
        if r != Fine {
          return;
        }
      }
      goOn := !(after.spec.waitForInitialRestore && after.spec.IsCluster() && !RestoreOver(after.conditions));
      return Fine, after, goOn;
    }

    method Create(n: Name, px: Database) returns (r: Return)
      requires Valid(n) && At(n, px, CValidate)
      modifies this
      ensures Valid(n) && Over(r, n) && Continues()
    {
      hide Traced, Mirrors, MoveOf, Valid;
      var db, goOn;
      r, db, goOn := BeginCreate(n, px);
      if r != Fine || !goOn {
        return;
      }
      r := CreateGoverningService(n, db);
      if r != Fine {
        return;
      }
      r := EnsureRbac(n, db);
      if r != Fine {
        return;
      }
      r := EnsureService(n, db);
      if r != Fine {
        return;
      }
      r, db := EnsureDatabaseSecret(n, db);
      if r != Fine {
        return;
      }
      r := EnsurePerconaXtraDB(n, db);
      if r != Fine {
        return;
      }
      r := EnsureAppBinding(n, db);
      if r != Fine || (db.spec.waitForInitialRestore && !db.spec.IsCluster() && !RestoreOver(db.conditions)) {
        return;
      }
      r, db := ReportReady(n, db);
      if r != Fine {
        return;
      }
      r := EnsureStatsService(n, db);
    }

    /* ---- controller.go ---- */

    /** A restarted process lists everything afresh and forgets the shared field. */
    method Restart()
      modifies `seen, `governingService
      ensures seen == (map m | m in databases :: |databases[m]|) && governingService == "kubedb"
    {
      seen := map m | m in databases :: |databases[m]|;
      governingService := "kubedb";
    }

    ghost predicate AtFailPut(n: Name)
      reads this
    {
      n in machine.passes && machine.passes[n].pc == FailPut
    }

    /** Reads the database whose status is to be written; without it the nil result is dereferenced. */
    method GetForFailure(n: Name) returns (r: Return)
      requires Valid(n) && Failing(n)
      modifies this
      ensures Valid(n) && Continues()
      ensures if r == Fine then AtFailPut(n) else r == Down && Gone(n)
    {
      hide Traced, Made, MoveOf;
      var c := coming;
      Reads(n);
      ghost var move := MoveOf(machine, n, machine.passes[n], c);
      FailingMove(machine, n, machine.passes[n], c);
      if c.outcome != Ok || StoredDatabase(n).None? {
        GoDown(n, c, Quiet, move);
        return Down;
      }
      r := Serve(n, c, Quiet, false, move);
    }

    method PutFailure(n: Name) returns (r: Return)
      requires Valid(n) && AtFailPut(n)
      modifies this
      ensures Valid(n) && Continues()
      ensures if r == Down then Gone(n) else r == Error && n !in machine.passes
    {
      hide Traced, Made, MoveOf, StoredDatabase, Current, History, Stored, AuthSecret;
      var c := coming;
      Reads(n);
      ghost var move := MoveOf(machine, n, machine.passes[n], c);
      FailingMove(machine, n, machine.passes[n], c);
      var stored := StoredDatabase(n);
      r := Serve(n, c,
                 if stored.Some? && c.outcome.Applied() then Effect.PutDatabase(stored.value.(phase := NotReady)) else Quiet,
                 true, move);
    }

    /** The machine's pass is over, or the process went down in the middle of it. */
    ghost predicate Ended(r: Return, n: Name)
      reads `machine, `script
    {
      n !in machine.passes || (r == Down && script == [])
    }

    method PushFailureEvent(n: Name) returns (r: Return)
      requires Valid(n) && Failing(n)
      modifies this
      ensures Valid(n) && Continues() && r != Fine && Ended(r, n)
    {
      hide Traced, Mirrors, Valid;
      r := GetForFailure(n);
      if r == Fine {
        r := PutFailure(n);
      }
    }

    /* ---- dormant.go and halt ---- */

    /** Delete the objects of these keys, or mark those that something else holds. */
    function DeleteObjects(ks: set<Key>): Effect
      reads `objs
    {
      SetObjects(map k | k in objs && (k !in ks || objs[k].held) :: if k in ks then objs[k].(dying := true) else objs[k])
    }

    lemma DeletedSame(ks: set<Key>)
      requires objs == machine.objs
      ensures DeleteObjects(ks) == SetObjects(Deleted(machine.objs, ks))
    {
    }

    function Labelled(kind: Kind, n: Name): set<Key>
      reads `objs
    {
      set k | k in objs && k.kind == kind && objs[k].labelled == Some(n)
    }

    lemma LabelledSame(kind: Kind, n: Name)
      requires objs == machine.objs
      ensures Labelled(kind, n) == LabelledKeys(machine, kind, n)
    {
    }

    method DeleteCollection(n: Name, px: Database, k: nat) returns (r: Return)
      requires Valid(n) && At(n, px, HDelete(k)) && k <= 6
      modifies this
      ensures Valid(n) && Returned(r, n, px, AfterDeletion(k)) && Continues()
    {
      hide Traced, Made, MoveOf, Deleted, HaltKind, LabelledKeys, Labelled, AfterDeletion;
      var c := coming;
      Reads(n);
      LabelledSame(HaltKind(k), n);
      ghost var move := MoveOf(machine, n, machine.passes[n], c);
      DeletionMove(machine, n, machine.passes[n], c);
      var ks := Labelled(HaltKind(k), n);
      var gone := if c.outcome.Applied() then ks else set key | key in ks && key.name in c.partly;
      DeletedSame(gone);
      r := Serve(n, c, DeleteObjects(gone), c.outcome != Ok, move);
    }

    /** The deletion loop has these services left, or is over. */
    ghost predicate LoopAt(r: Return, n: Name, px: Database, services: set<Key>)
      reads `machine, `script
    {
      && Returned(r, n, px, if services == {} then HWait(0) else HDeleteService(services))
      && forall k :: k in services ==> k.kind == Service
    }

    method ListServices(n: Name, px: Database) returns (r: Return, services: set<Key>)
      requires Valid(n) && At(n, px, HListServices)
      modifies this
      ensures Valid(n) && Continues()
      ensures LoopAt(r, n, px, services)
    {
      hide Traced, Made, MoveOf;
      services := {};
      var c := coming;
      Reads(n);
      services := Labelled(Service, n);
      ghost var move := MoveOf(machine, n, machine.passes[n], c);
      ServiceListMove(machine, n, machine.passes[n], c);
      if c.outcome == Ok && services == {} && px.spec.monitoring.AgentMissing? {
        GoDown(n, c, Quiet, move);
        return Down, services;
      }
      r := Serve(n, c, Quiet, c.outcome != Ok, move);
    }

    /** One turn of the loop over the listed services; a service that is gone meanwhile is an error. */
    method DeleteService(n: Name, px: Database, services: set<Key>) returns (r: Return, key: Key)
      requires Valid(n) && LoopAt(Fine, n, px, services) && services != {}
      modifies this
      ensures Valid(n) && key in services && Continues() && |script| <= |old(script)|
      ensures LoopAt(r, n, px, services - {key})
    {
      hide Traced, Made, MoveOf, Deleted;
      key :| key in services;
      var c := coming;
      Reads(n);
      c := c.(item := key.name);
      ghost var move := MoveOf(machine, n, machine.passes[n], c);
      ServiceDeleteMove(machine, n, machine.passes[n], c, key);
      var there := key in objs;
      DeletedSame({key});
      if there && c.outcome == Ok && services == {key} && px.spec.monitoring.AgentMissing? {
        GoDown(n, c, DeleteObjects({key}), move);
        return Down, key;
      }
      r := Serve(n, c,
                 if there && c.outcome.Applied() then DeleteObjects({key}) else Quiet,
                 !there || c.outcome != Ok, move);
    }

    method DeleteServices(n: Name, px: Database) returns (r: Return)
      requires Valid(n) && At(n, px, HListServices)
      modifies this
      ensures Valid(n) && Returned(r, n, px, HWait(0)) && Continues()
    {
      hide Traced, Mirrors, Valid;
      var services;
      r, services := ListServices(n, px);
      while r == Fine && services != {}
        invariant Valid(n) && Continues() && LoopAt(r, n, px, services)
        decreases r == Fine, |services|
      {
        hide LoopAt;
        var key;
        r, key := DeleteService(n, px, services);
        services := services - {key};
      }
    }

    function Awaited(k: nat, n: Name): set<Key>
      reads `objs
    {
      if k == 0 then Labelled(Pod, n)
      else if k == 1 then Labelled(Service, n)
      else if k == 2 then {Key(ServiceAccount, n)} * objs.Keys
      else if k == 3 then Labelled(StatefulSet, n)
      else Labelled(Deployment, n)
    }

    /** One poll; `over` when the wait is done, Error when it times out. */
    method Poll(n: Name, px: Database, k: nat) returns (r: Return, over: bool)
      requires Valid(n) && At(n, px, HWait(k))
      modifies this
      ensures Valid(n) && Continues() && |script| <= |old(script)| && (r != Down ==> |script| < |old(script)|)
      ensures Returned(r, n, px, if over then AfterWait(k) else HWait(k))
    {
      hide Traced, Made, MoveOf, Awaited, AwaitedKeys, AfterWait;
      over := false;
      var c := coming;
      Reads(n);
      AwaitedSame(k, n);
      ghost var move := MoveOf(machine, n, machine.passes[n], c);
      WaitMove(machine, n, machine.passes[n], c);
      over := if c.outcome == Ok then Awaited(k, n) == {} else k >= 3;
      r := Serve(n, c, Quiet, !over && c.giveUp, move);
    }

    lemma AwaitedSame(k: nat, n: Name)
      requires objs == machine.objs
      ensures Awaited(k, n) == AwaitedKeys(machine, k, n)
    {
    }

    method WaitUntilDeleted(n: Name, px: Database, k: nat) returns (r: Return)
      requires Valid(n) && At(n, px, HWait(k))
      modifies this
      ensures Valid(n) && Returned(r, n, px, AfterWait(k)) && Continues()
    {
      hide Traced, Mirrors, Valid;
      var over;
      r, over := Poll(n, px, k);
      while r == Fine && !over
        invariant Valid(n) && Continues()
        invariant Returned(r, n, px, if over then AfterWait(k) else HWait(k))
        decreases r == Fine, |script|
      {
        r, over := Poll(n, px, k);
      }
    }

    /** Pods, services, the service account, StatefulSets and deployments, one after the other. */
    method WaitUntilPaused(n: Name, px: Database) returns (r: Return)
      requires Valid(n) && At(n, px, HWait(0))
      modifies this
      ensures Valid(n) && Returned(r, n, px, HWrite) && Continues()
    {
      hide Traced, Mirrors, Valid;
      r := WaitUntilDeleted(n, px, 0);
      if r != Fine {
        return;
      }
      r := WaitUntilDeleted(n, px, 1);
      if r != Fine {
        return;
      }
      r := WaitUntilDeleted(n, px, 2);
      if r != Fine {
        return;
      }
      r := WaitUntilDeleted(n, px, 3);
      if r != Fine {
        return;
      }
      r := WaitUntilDeleted(n, px, 4);
    }

    /** Bindings, budgets, StatefulSets, deployments, RBAC objects, then the services one by one. */
    method HaltDatabase(n: Name, px: Database) returns (r: Return)
      requires Valid(n) && At(n, px, HDelete(0))
      modifies this
      ensures Valid(n) && Returned(r, n, px, HWait(0)) && Continues()
    {
      hide Traced, Mirrors, Valid;
      r := DeleteCollection(n, px, 0);
      if r != Fine {
        return;
      }
      r := DeleteCollection(n, px, 1);
      if r != Fine {
        return;
      }
      r := DeleteCollection(n, px, 2);
      if r != Fine {
        return;
      }
      r := DeleteCollection(n, px, 3);
      if r != Fine {
        return;
      }
      r := DeleteCollection(n, px, 4);
      if r != Fine {
        return;
      }
      r := DeleteCollection(n, px, 5);
      if r != Fine {
        return;
      }
      r := DeleteCollection(n, px, 6);
      if r != Fine {
        return;
      }
      r := DeleteServices(n, px);
    }

    method ReportHalted(n: Name, px: Database) returns (r: Return)
      requires Valid(n) && At(n, px, HWrite)
      modifies this
      ensures Valid(n) && Over(r, n) && Continues()
    {
      hide Traced, Made, MoveOf, StoredDatabase, Current, History, Stored, AuthSecret;
      var c := coming;
      Reads(n);
      ghost var move := MoveOf(machine, n, machine.passes[n], c);
      HaltedMove(machine, n, machine.passes[n], c);
      var stored := StoredDatabase(n);
      r := Serve(n, c,
                 if stored.Some? && c.outcome.Applied() then Effect.PutDatabase(stored.value.(phase := Phase.Halted)) else Quiet,
                 stored.None? || c.outcome != Ok, move);
    }

    method HaltPass(n: Name, px: Database) returns (r: Return)
      requires Valid(n) && if px.spec.policy != Policy.Halt then Failing(n) else At(n, px, HDelete(0))
      modifies this
      ensures Valid(n) && Over(r, n) && Continues()
    {
      hide Traced, Mirrors, Valid;
      if px.spec.policy != Policy.Halt {
        return Error;
      }
      r := HaltDatabase(n, px);
      if r != Fine {
        return;
      }
      r := WaitUntilPaused(n, px);
      if r != Fine {
        return;
      }
      r := ReportHalted(n, px);
    }

    /* ---- terminate ---- */

    /** An ownership step has returned; its errors end the pass. */
    ghost predicate Owned(r: Return, n: Name, px: Database, pc: PC)
      reads `machine, `script
    {
      match r
      case Fine => At(n, px, pc)
      case Error => n !in machine.passes
      case Down => Gone(n)
    }

    /** What the lister returns for a name. */
    function Listed(m: Name): Option<Database>
      reads `databases, `seen
    {
      if m in databases && m in seen && 0 < seen[m] <= |databases[m]| then databases[m][seen[m] - 1] else None
    }

    /** The secrets that other databases in the lister refer to. */
    method SecretsUsedByPeers(n: Name) returns (used: set<Name>)
      requires databases == machine.hist && seen == machine.seen
      ensures forall s :: s in used <==>
        exists m :: m in databases && m != n && Listed(m).Some? && Listed(m).value.spec.secret == Some(s)
      ensures forall s :: s in used <==> UsedByPeers(machine, n, s)
    {
      used := {};
      var rest := databases.Keys;
      while rest != {}
        invariant rest <= databases.Keys
        invariant forall s :: s in used <==>
          exists m :: m in databases.Keys - rest && m != n && Listed(m).Some? && Listed(m).value.spec.secret == Some(s)
        decreases |rest|
      {
        var m :| m in rest;
        ghost var before := used;
        var db := Listed(m);
        if m != n && db.Some? && db.value.spec.secret.Some? {
          used := used + {db.value.spec.secret.value};
        }
        forall s ensures s in used <==>
          exists k :: k in databases.Keys - (rest - {m}) && k != n && Listed(k).Some? && Listed(k).value.spec.secret == Some(s)
        {
          if s in used && s !in before {
            assert m in databases.Keys - (rest - {m});
          }
        }
        rest := rest - {m};
      }
      forall s ensures s in used <==> UsedByPeers(machine, n, s) {
        forall m | m in databases ensures Listed(m) == Cached(machine, m) { }
      }
    }

    /** `patch` says that the reference is not as wanted; `snapshot` is what the patch starts from. */
    method GetSecret(n: Name, px: Database, mark: bool) returns (r: Return, patch: bool, snapshot: set<nat>)
      requires Valid(n) && At(n, px, TSecretGet) && mark == MarksSecret(px)
      modifies this
      ensures Valid(n) && Owned(r, n, px, if patch then TSecretPatch(snapshot) else AfterSecretAt(px)) && Continues()
    {
      hide Traced, Made, MoveOf;
      patch, snapshot := false, {};
      var c := coming;
      Reads(n);
      var s := SecretName(px);
      snapshot := if s in secrets then secrets[s].owners else {};
      patch := s in secrets && (px.uid in snapshot) != mark;
      ghost var move := MoveOf(machine, n, machine.passes[n], c);
      SecretReadMove(machine, n, machine.passes[n], c);
      r := Serve(n, c, Quiet, c.outcome != Ok, move);
    }

    method PatchSecret(n: Name, px: Database, mark: bool, snapshot: set<nat>) returns (r: Return)
      requires Valid(n) && At(n, px, TSecretPatch(snapshot)) && mark == MarksSecret(px)
      modifies this
      ensures Valid(n) && Owned(r, n, px, AfterSecretAt(px)) && Continues()
    {
      hide Traced, Made, MoveOf;
      var c := coming;
      Reads(n);
      ghost var move := MoveOf(machine, n, machine.passes[n], c);
      SecretPatchMove(machine, n, machine.passes[n], c);
      var s := SecretName(px);
      r := Serve(n, c,
                 if s in secrets && c.outcome.Applied() then
                   Effect.PutSecret(s, secrets[s].(owners := if mark then snapshot + {px.uid} else snapshot - {px.uid}))
                 else Quiet,
                 c.outcome != Ok, move);
    }

    /**
     Ensure (`mark`) or remove the owner reference on each of the named secrets. An item's error does
     not stop the loop; it is reported at the end. A database has at most one secret of its own.
     */
    method OwnerReferenceForItems(n: Name, px: Database, names: seq<Name>, mark: bool) returns (r: Return)
      requires Valid(n) && mark == MarksSecret(px)
      requires names == [] || names == [SecretName(px)]
      requires At(n, px, if names == [] then AfterSecretAt(px) else TSecretGet)
      modifies this
      ensures Valid(n) && Owned(r, n, px, AfterSecretAt(px)) && Continues()
    {
      hide Traced, Mirrors, Valid;
      r := Fine;
      for i := 0 to |names|
        invariant Valid(n) && Continues() && r != Down
        invariant Owned(r, n, px, if i < |names| then TSecretGet else AfterSecretAt(px))
        invariant i < |names| ==> r == Fine
      {
        var patch, snapshot;
        r, patch, snapshot := GetSecret(n, px, mark);
        if r == Fine && patch {
          r := PatchSecret(n, px, mark, snapshot);
        }
        if r == Down {
          return;
        }
      }
    }

    /** The lister is asked for the peers' secrets; what is left over gets the reference. */
    method WipeOutDatabase(n: Name, px: Database) returns (r: Return)
      requires Valid(n) && At(n, px, TPeers) && px.spec.policy == WipeOut
      modifies this
      ensures Valid(n) && Owned(r, n, px, TPvcList) && Continues()
    {
      hide Traced, Made, MoveOf, UsedByPeers;
      var c := coming;
      Reads(n);
      ghost var move := MoveOf(machine, n, machine.passes[n], c);
      PeersMove(machine, n, machine.passes[n], c);
      var used := SecretsUsedByPeers(n);
      r := Serve(n, c, Quiet, c.outcome != Ok, move);
      if r != Fine {
        return;
      }
      var unused := if px.spec.secret.Some? && SecretName(px) !in used then [SecretName(px)] else [];
      r := OwnerReferenceForItems(n, px, unused, true);
    }

    /* ---- the PVCs selected by label ---- */

    /** The loop over the selected PVCs has these left, some having failed. */
    ghost predicate PvcLoopAt(r: Return, n: Name, px: Database, todo: map<Name, Pvc>, failed: bool)
      reads `machine, `script
    {
      if r == Down then Gone(n)
      else if r == Error then n !in machine.passes
      else if todo != map[] then At(n, px, TPvcPatch(todo, failed))
      else if failed then n !in machine.passes
      else At(n, px, AfterPvcsAt(px))
    }

    function SelectedPvcs(n: Name): map<Name, Pvc>
      reads `pvcs
    {
      map v | v in pvcs && pvcs[v].labelled == Some(n) :: pvcs[v]
    }

    lemma SelectedSame(n: Name)
      requires pvcs == machine.pvcs
      ensures SelectedPvcs(n) == LabelledPvcs(machine, n)
    {
    }

    method ListPvcs(n: Name, px: Database) returns (r: Return, todo: map<Name, Pvc>)
      requires Valid(n) && At(n, px, TPvcList)
      modifies this
      ensures Valid(n) && PvcLoopAt(r, n, px, todo, false) && Continues()
    {
      hide Traced, Made, MoveOf, SelectedPvcs, LabelledPvcs, AfterPvcsAt;
      todo := map[];
      var c := coming;
      Reads(n);
      todo := SelectedPvcs(n);
      SelectedSame(n);
      ghost var move := MoveOf(machine, n, machine.passes[n], c);
      PvcListMove(machine, n, machine.passes[n], c);
      r := Serve(n, c, Quiet, c.outcome != Ok, move);
    }

    /** The item's patch, made from the copy listed. */
    method TouchPvc(n: Name, px: Database, todo: map<Name, Pvc>, failed: bool, mark: bool, item: Name, rest: map<Name, Pvc>)
      returns (r: Return, wrong: bool)
      requires Valid(n) && At(n, px, TPvcPatch(todo, failed)) && mark == MarksPvcs(px) && item in todo
      requires rest == todo - {item} && (px.uid in todo[item].owners) != mark
      modifies this
      ensures Valid(n) && Continues() && r != Error && PvcLoopAt(r, n, px, rest, wrong)
    {
      hide Traced, Made, MoveOf, AfterPvcsAt, Patched;
      var c := coming.(item := item);
      Reads(n);
      wrong := failed || c.outcome != Ok;
      ghost var move := MoveOf(machine, n, machine.passes[n], c);
      PvcPatchMove(machine, n, machine.passes[n], c, px, todo, failed, rest);
      r := Serve(n, c,
                 if c.outcome.Applied() && item in pvcs then
                   Effect.PutPvc(item, pvcs[item].(owners := Patched(todo[item].owners, mark, px.uid)))
                 else Quiet,
                 false, move);
    }

    /** The item has the owners it should have, and nothing is sent. */
    method SkipPvc(n: Name, px: Database, todo: map<Name, Pvc>, failed: bool, item: Name, rest: map<Name, Pvc>)
      requires Valid(n) && At(n, px, TPvcPatch(todo, failed)) && item in todo
      requires rest == todo - {item} && (px.uid in todo[item].owners) == MarksPvcs(px)
      modifies this
      ensures Valid(n) && Continues() && PvcLoopAt(Fine, n, px, rest, failed)
    {
      hide Traced, Made, MoveOf, AfterPvcsAt;
      var c := coming.(item := item);
      ghost var move := MoveOf(machine, n, machine.passes[n], c);
      PvcPatchMove(machine, n, machine.passes[n], c, px, todo, failed, rest);
      Make(n, c, Quiet, move);
    }

    /** One item of the list, in whatever order. */
    method PatchPvc(n: Name, px: Database, todo: map<Name, Pvc>, failed: bool, mark: bool)
      returns (r: Return, item: Name, wrong: bool)
      requires Valid(n) && At(n, px, TPvcPatch(todo, failed)) && todo != map[] && mark == MarksPvcs(px)
      modifies this
      ensures Valid(n) && item in todo && Continues() && r != Error
      ensures PvcLoopAt(r, n, px, todo - {item}, wrong)
    {
      hide Traced, Mirrors, MoveOf, AfterPvcsAt, PvcLoopAt;
      item :| item in todo;
      r, wrong := Fine, failed;
      if (px.uid in todo[item].owners) != mark {
        r, wrong := TouchPvc(n, px, todo, failed, mark, item, todo - {item});
      } else {
        SkipPvc(n, px, todo, failed, item, todo - {item});
      }
    }

    method OwnerReferenceForSelector(n: Name, px: Database, mark: bool) returns (r: Return)
      requires Valid(n) && At(n, px, TPvcList) && mark == MarksPvcs(px)
      modifies this
      ensures Valid(n) && Owned(r, n, px, AfterPvcsAt(px)) && Continues()
    {
      hide Traced, Mirrors, Valid;
      var todo, failed := map[], false;
      r, todo := ListPvcs(n, px);
      while r == Fine && todo != map[]
        invariant Valid(n) && Continues() && PvcLoopAt(r, n, px, todo, failed)
        decreases r == Fine, |todo|
      {
        assert At(n, px, TPvcPatch(todo, failed));
        hide PvcLoopAt, At;
        var item;
        r, item, failed := PatchPvc(n, px, todo, failed, mark);
        Smaller(todo, item);
        todo := todo - {item};
      }
      if r == Fine && failed {
        return Error;
      }
    }

    /* ---- percona_xtradb.go: terminate ---- */

    function GetPersistentSecrets(px: Database): seq<Name> {
      if px.spec.secret.Some? then [px.spec.secret.value] else []
    }

    method SetOwnerReferenceToOffshoots(n: Name, px: Database) returns (r: Return)
      requires Valid(n) && px.spec.policy != Policy.Halt && At(n, px, EntryAt(px))
      modifies this
      ensures Valid(n) && Owned(r, n, px, TFinalizer) && Continues()
    {
      hide Traced, Mirrors, Valid;
      if px.spec.policy == WipeOut {
        r := WipeOutDatabase(n, px);
      } else {
        r := OwnerReferenceForItems(n, px, GetPersistentSecrets(px), false);
      }
      if r == Fine {
        r := OwnerReferenceForSelector(n, px, true);
      }
    }

    method RemoveOwnerReferenceFromOffshoots(n: Name, px: Database) returns (r: Return)
      requires Valid(n) && px.spec.policy == Policy.Halt && At(n, px, EntryAt(px))
      modifies this
      ensures Valid(n) && Owned(r, n, px, TFinalizer) && Continues()
    {
      hide Traced, Mirrors, Valid;
      r := OwnerReferenceForSelector(n, px, false);
      if r == Fine {
        r := OwnerReferenceForItems(n, px, GetPersistentSecrets(px), false);
      }
    }

    method Terminate(n: Name, px: Database) returns (r: Return)
      requires Valid(n) && At(n, px, EntryAt(px))
      modifies this
      ensures Valid(n) && Owned(r, n, px, TFinalizer) && Continues()
      ensures r == Fine ==> !px.spec.monitoring.AgentMissing?
    {
      hide Traced, Mirrors, Valid;
      if px.spec.policy == Policy.Halt {
        r := RemoveOwnerReferenceFromOffshoots(n, px);
      } else {
        r := SetOwnerReferenceToOffshoots(n, px);
      }
      if r == Fine && px.spec.monitoring.AgentMissing? {
        r := DeleteMonitor(n, px);
      }
    }

    /** An agent that nothing implements. */
    method DeleteMonitor(n: Name, px: Database) returns (r: Return)
      requires Valid(n) && At(n, px, TFinalizer) && px.spec.monitoring.AgentMissing?
      modifies this
      ensures Valid(n) && Continues() && r == Down && n !in machine.passes
    {
      hide Traced, MoveOf, Step;
      var c := coming;
      ghost var move := MoveOf(machine, n, machine.passes[n], c);
      NilAgentMove(machine, n, machine.passes[n], c);
      GoDown(n, c, Quiet, move);
      return Down;
    }

    /* ---- workqueue.go ---- */

    /** Where a reconcile stands once its database has the finalizer. */
    ghost predicate Dispatched(n: Name, px: Database)
      reads `machine
    {
      if px.conditions.paused == Some(true) then n !in machine.passes
      else if !px.spec.halted then At(n, px, CValidate)
      else if px.spec.policy != Policy.Halt then Failing(n)
      else At(n, px, HDelete(0))
    }

    /** With the finalizer in place the patch is empty and nothing is sent. */
    method HasFinalizer(n: Name, px: Database)
      requires Valid(n) && At(n, px, Start) && px.finalizer
      modifies this
      ensures Valid(n) && Dispatched(n, px) && Continues()
    {
      hide Traced, MoveOf, Step;
      StartedMove(machine, n, machine.passes[n], coming);
      Make(n, coming, Quiet, MoveOf(machine, n, machine.passes[n], coming));
    }

    method AddFinalizer(n: Name, px: Database) returns (r: Return, after: Database)
      requires Valid(n) && At(n, px, Start)
      modifies this
      ensures Valid(n) && Continues()
      ensures match r
              case Fine => Dispatched(n, after)
              case Error => n !in machine.passes
              case Down => Gone(n)
    {
      hide Traced, Made, MoveOf, StoredDatabase, Current, History, Stored, AuthSecret;
      after := px;
      if px.finalizer {
        HasFinalizer(n, px);
        return Fine, px;
      }
      var c := coming;
      Reads(n);
      ghost var move := MoveOf(machine, n, machine.passes[n], c);
      StartedMove(machine, n, machine.passes[n], c);
      var stored := StoredDatabase(n);
      if stored.Some? {
        after := stored.value.(finalizer := true);
      }
      r := Serve(n, c, if stored.Some? && c.outcome.Applied() then Effect.PutDatabase(after) else Quiet,
                 stored.None? || c.outcome != Ok, move);
    }

    method RemoveFinalizer(n: Name, px: Database) returns (r: Return)
      requires Valid(n) && At(n, px, TFinalizer) && !px.spec.monitoring.AgentMissing?
      modifies this
      ensures Valid(n) && Continues() && Ended(r, n)
    {
      hide Traced, Made, MoveOf, StoredDatabase, Current, History, Stored, AuthSecret;
      var c := coming;
      Reads(n);
      ghost var move := MoveOf(machine, n, machine.passes[n], c);
      FinalizerMove(machine, n, machine.passes[n], c);
      var stored := StoredDatabase(n);
      r := Serve(n, c,
                 if stored.Some? && c.outcome.Applied() then Effect.PutDatabase(stored.value.(finalizer := false)) else Quiet,
                 stored.None? || c.outcome != Ok, move);
    }

    method Reconcile(n: Name, px: Database) returns (r: Return)
      requires Valid(n) && At(n, px, Start)
      modifies this
      ensures Valid(n) && Continues() && Ended(r, n)
    {
      hide Traced, Mirrors, Valid;
      var db;
      r, db := AddFinalizer(n, px);
      if r != Fine || db.conditions.paused == Some(true) {
        return;
      }
      if db.spec.halted {
        r := HaltPass(n, db);
      } else {
        r := Create(n, db);
      }
      if r == Error {
        r := PushFailureEvent(n);
      }
    }

    method Finalize(n: Name, px: Database) returns (r: Return)
      requires Valid(n) && At(n, px, EntryAt(px))
      modifies this
      ensures Valid(n) && Continues() && Ended(r, n)
    {
      hide Traced, Mirrors, Valid, EntryAt;
      r := Terminate(n, px);
      if r == Fine {
        r := RemoveFinalizer(n, px);
      }
    }

    lemma ListedSame(n: Name)
      requires Mirrors()
      ensures Listed(n) == Cached(machine, n)
    {
    }

    /** The worker takes the key from the queue, which changes nothing but the machine's passes. */
    method TakeKey(n: Name)
      requires Mirrors() && n !in machine.passes
      modifies `machine, `start, `others, `trace
      ensures Valid(n) && machine == start == Step(old(machine), Take(n)) && others == OthersIn(script, n)
    {
      TakeStores(machine, n);
      OthersNone(Step(machine, Take(n)), script, n);
      hide Step, After, OthersOf, OthersIn, Cached;
      machine := Step(machine, Take(n));
      start, others, trace := machine, OthersIn(script, n), [];
    }

    /**
     One reconcile of a key, among whatever others do meanwhile: users, other workers' passes, other
     controllers, the informer, garbage collection, crashes. Whatever the calls' outcomes, and wherever
     the process goes down, the stores end up as the machine has them after taking the key and after
     the calls and the others' steps, none left out and in the order in which they happened; and
     unless the turns ran out the machine's pass is over, too.
     */
    method RunPerconaXtraDB(n: Name) returns (r: Return)
      requires Mirrors() && n !in machine.passes
      modifies this
      ensures Mirrors() && machine == After(Step(old(machine), Take(n)), trace)
      ensures OthersOf(trace, n) + OthersIn(script, n) == OthersIn(old(script), n)
      ensures Reachable(old(machine)) ==> Reachable(machine)
      ensures n in machine.passes ==> r == Down && script == []
    {
      hide After, Step, EntryAt, Reachable, OthersOf, OthersIn, Listed, Cached;
      ghost var before := machine;
      ListedSame(n);
      var obj := Listed(n);
      TakePass(machine, n);
      TakeKey(n);
      r := Fine;
      if obj.Some? && (!obj.value.deleting || obj.value.finalizer) {
        r := Await(n);
        if r == Fine {
          if obj.value.deleting {
            r := Finalize(n, obj.value);
          } else {
            r := Reconcile(n, obj.value);
          }
        }
      }
      if Reachable(before) {
        Reach(before, Take(n));
        AfterReachable(start, trace);
      }
    }
  }

  lemma Smaller(todo: map<Name, Pvc>, item: Name)
    requires item in todo
    ensures |todo - {item}| < |todo|
  {
    assert (todo - {item}).Keys == todo.Keys - {item};
    assert |todo.Keys| == |todo| && |(todo - {item}).Keys| == |todo - {item}|;
  }
}
