/**
 Switching monitoring agents. The agent in use is remembered in an annotation of the stats service,
 which is written last, and what happens to the old agent's deletion is only logged.
 */
module Monitoring {
  import opened Options
  import Admission

  type Agent = string

  const Prometheus: Agent := "prometheus.io"
  const Builtin: Agent := "prometheus.io/builtin"
  const Operator: Agent := "prometheus.io/operator"

  /** The agent types the monitoring library has an implementation for. */
  predicate Known(a: Agent) { a == Prometheus || a == Builtin || a == Operator }

  /** The ones whose implementation does something. */
  predicate Acts(a: Agent) { a == Builtin || a == Operator }

  /** How a call to the API server ends: with its effect or without, known to the operator or not. */
  datatype Reply = Ok | Failed | Lost | CrashBefore | CrashAfter {
    predicate Applied() { this == Ok || this == Lost || this == CrashAfter }
    predicate Crashes() { this == CrashBefore || this == CrashAfter }
  }

  datatype Replies = Replies(getOld: Reply, delete: Reply, add: Reply, getService: Reply, patch: Reply)

  /** `prometheus` says whether the monitor spec has that section. */
  datatype MonitorSpec = MonitorSpec(agent: Agent, prometheus: bool)

  datatype End = Done | Error | Crash

  /** What the stats service's annotation says, and the agents that are set up for the database. */
  datatype Setup = Setup(annotation: Option<Agent>, live: set<Agent>)

  function Without(s: Setup, a: Agent): Setup { if Acts(a) then s.(live := s.live - {a}) else s }

  function With(s: Setup, a: Agent): Setup { if Acts(a) then s.(live := s.live + {a}) else s }

  /** The old agent, unless the stats service cannot be read or names one that is not known. */
  function OldAgent(s: Setup, r: Replies): Option<Agent> {
    if r.getOld == Ok && s.annotation.Some? && Known(s.annotation.value) then s.annotation else None
  }

  predicate Deletes(s: Setup, spec: Option<MonitorSpec>, r: Replies) {
    OldAgent(s, r).Some? && (spec.Some? ==> OldAgent(s, r).value != spec.value.agent)
  }

  function AfterDelete(s: Setup, spec: Option<MonitorSpec>, r: Replies): Setup {
    if Deletes(s, spec, r) && r.delete.Applied() then Without(s, OldAgent(s, r).value) else s
  }

  predicate CrashesBeforeAdd(s: Setup, spec: Option<MonitorSpec>, r: Replies) {
    r.getOld.Crashes() || (Deletes(s, spec, r) && r.delete.Crashes())
  }

  function Managed(s: Setup, spec: Option<MonitorSpec>, r: Replies): (Setup, End) {
    var s1 := AfterDelete(s, spec, r);
    if CrashesBeforeAdd(s, spec, r) then (s1, Crash)
    else if spec.None? then (s1, Done)
    else if !spec.value.prometheus then (s1, Error)
    else if !Known(spec.value.agent) then (s1, Crash)
    else
      var s2 := if r.add.Applied() then With(s1, spec.value.agent) else s1;
      if r.add.Crashes() then (s2, Crash)
      else if r.add != Ok then (s2, Error)
      else if r.getService.Crashes() then (s2, Crash)
      else if r.getService != Ok then (s2, Error)
      else
        var s3 := if r.patch.Applied() then s2.(annotation := Some(spec.value.agent)) else s2;
        (s3, if r.patch.Crashes() then Crash else if r.patch != Ok then Error else Done)
  }

  class Monitor {
    var annotation: Option<Agent>
    var live: set<Agent>

    function Value(): Setup
      reads this
    {
      Setup(annotation, live)
    }

    constructor ()
      ensures Value() == Setup(None, {})
    {
      annotation, live := None, {};
    }

    method GetOldAgent(reply: Reply) returns (agent: Option<Agent>)
      ensures agent == if reply == Ok && annotation.Some? && Known(annotation.value) then annotation else None
    {
      if reply != Ok || annotation.None? || !Known(annotation.value) {
        return None;
      }
      return annotation;
    }

    method DeleteAgent(agent: Agent, reply: Reply)
      modifies this
      ensures Value() == if reply.Applied() then Without(old(Value()), agent) else old(Value())
    {
      if reply.Applied() && Acts(agent) {
        live := live - {agent};
      }
    }

    method AddOrUpdate(agent: Agent, reply: Reply)
      modifies this
      ensures Value() == if reply.Applied() then With(old(Value()), agent) else old(Value())
    {
      if reply.Applied() && Acts(agent) {
        live := live + {agent};
      }
    }

    method SetNewAgent(agent: Agent, getService: Reply, patch: Reply) returns (end: End)
      modifies this
      ensures live == old(live)
      ensures annotation == if getService == Ok && patch.Applied() then Some(agent) else old(annotation)
      ensures end ==
        if getService.Crashes() then Crash else if getService != Ok then Error
        else if patch.Crashes() then Crash else if patch != Ok then Error else Done
    {
      if getService != Ok {
        return if getService.Crashes() then Crash else Error;
      }
      if patch.Applied() {
        annotation := Some(agent);
      }
      return if patch.Crashes() then Crash else if patch != Ok then Error else Done;
    }

    method ManageMonitor(spec: Option<MonitorSpec>, r: Replies) returns (end: End)
      modifies this
      ensures (Value(), end) == Managed(old(Value()), spec, r)
    {
      var oldAgent := GetOldAgent(r.getOld);
      if r.getOld.Crashes() {
        return Crash;
      }
      if spec.Some? {
        if oldAgent.Some? && oldAgent.value != spec.value.agent {
          DeleteAgent(oldAgent.value, r.delete);
          if r.delete.Crashes() {
            return Crash;
          }
        }
        if !spec.value.prometheus {
          return Error;
        }
        if !Known(spec.value.agent) {
          return Crash;
        }
        AddOrUpdate(spec.value.agent, r.add);
        if r.add != Ok {
          return if r.add.Crashes() then Crash else Error;
        }
        end := SetNewAgent(spec.value.agent, r.getService, r.patch);
        return;
      } else if oldAgent.Some? {
        DeleteAgent(oldAgent.value, r.delete);
        if r.delete.Crashes() {
          return Crash;
        }
      }
      return Done;
    }
  }

  /* ---- one pass ---- */

  function Wanted(spec: Option<MonitorSpec>): set<Agent> {
    if spec.Some? && Acts(spec.value.agent) then {spec.value.agent} else {}
  }

  function Annotated(s: Setup): set<Agent> { if s.annotation.Some? then {s.annotation.value} else {} }

  ghost predicate OnlyActing(s: Setup) { forall a :: a in s.live ==> Acts(a) }

  /** The agent that the annotation names is live, is not wanted any more, and stays. */
  predicate LeavesOld(s: Setup, spec: Option<MonitorSpec>, r: Replies) {
    && s.annotation.Some? && s.annotation.value in s.live && s.annotation.value !in Wanted(spec)
    && (r.getOld != Ok || !r.delete.Applied())
  }

  /**
   A pass that ends well, from a state in which only the annotated agent can be live, leaves exactly
   the agent of the spec, or none, exactly unless the annotated one could not be read or deleted.
   */
  lemma SwitchesExactly(s: Setup, spec: Option<MonitorSpec>, r: Replies)
    requires OnlyActing(s) && s.live <= Annotated(s)
    requires Managed(s, spec, r).1 == Done
    ensures Managed(s, spec, r).0.live == Wanted(spec) <==> !LeavesOld(s, spec, r)
  {
    var s' := Managed(s, spec, r).0;
    if LeavesOld(s, spec, r) {
      assert s.annotation.value in s'.live;
    } else {
      assert forall a :: a in s'.live <==> a in Wanted(spec);
    }
  }

  /* ---- over many passes ---- */

  datatype Attempt = Attempt(spec: Option<MonitorSpec>, replies: Replies)

  /** The setups before, between and after the attempts. */
  function SetupAt(ps: seq<Attempt>, i: nat): Setup
    requires i <= |ps|
  {
    if i == 0 then Setup(None, {}) else Managed(SetupAt(ps, i - 1), ps[i - 1].spec, ps[i - 1].replies).0
  }

  function EndAt(ps: seq<Attempt>, i: nat): End
    requires i < |ps|
  {
    Managed(SetupAt(ps, i), ps[i].spec, ps[i].replies).1
  }

  function AgentOf(spec: Option<MonitorSpec>): Option<Agent> {
    if spec.Some? then Some(spec.value.agent) else None
  }

  /** Old agents are found and deleted, and an attempt that did not end well is retried with the same agent. */
  ghost predicate Orderly(ps: seq<Attempt>) {
    && (forall i :: 0 <= i < |ps| ==> ps[i].replies.getOld != Failed && ps[i].replies.getOld != Lost)
    && (forall i :: 0 <= i < |ps| ==> ps[i].replies.delete != Failed)
    && (forall i :: 0 <= i < |ps| - 1 && EndAt(ps, i) != Done ==> AgentOf(ps[i + 1].spec) == AgentOf(ps[i].spec))
  }

  lemma AttemptKeeps(s: Setup, spec: Option<MonitorSpec>, r: Replies)
    requires OnlyActing(s) && s.live <= Annotated(s) + Wanted(spec)
    requires r.getOld != Failed && r.getOld != Lost && r.delete != Failed
    ensures var s' := Managed(s, spec, r).0;
      && OnlyActing(s') && s'.live <= Annotated(s') + Wanted(spec)
      && (Managed(s, spec, r).1 == Done ==> s'.live == Wanted(spec) && (spec.Some? ==> s'.annotation == Some(spec.value.agent)))
  {
    var s1 := AfterDelete(s, spec, r);
    assert !CrashesBeforeAdd(s, spec, r) ==> s1.live <= Wanted(spec);
  }

  /**
   Over any number of attempts, cut off anywhere: the live agents are among the annotated one and
   the spec's, and an attempt that ends well leaves exactly the spec's agent, or none.
   */
  lemma {:induction false} LiveAgents(ps: seq<Attempt>, i: nat)
    requires Orderly(ps) && i < |ps|
    ensures OnlyActing(SetupAt(ps, i + 1))
    ensures SetupAt(ps, i + 1).live <= Annotated(SetupAt(ps, i + 1)) + Wanted(ps[i].spec)
    ensures EndAt(ps, i) == Done ==> SetupAt(ps, i + 1).live == Wanted(ps[i].spec)
  {
    hide Managed, Acts, AgentOf;
    var s := SetupAt(ps, i);
    assert SetupAt(ps, i + 1) == Managed(s, ps[i].spec, ps[i].replies).0;
    if i > 0 {
      LiveAgents(ps, i - 1);
      SameWanted(ps[i - 1].spec, ps[i].spec);
      if EndAt(ps, i - 1) == Done { DoneIsAnnotated(SetupAt(ps, i - 1), ps[i - 1].spec, ps[i - 1].replies); }
    }
    AttemptKeeps(s, ps[i].spec, ps[i].replies);
  }

  lemma SameWanted(spec: Option<MonitorSpec>, next: Option<MonitorSpec>)
    ensures AgentOf(spec) == AgentOf(next) ==> Wanted(spec) == Wanted(next)
  {
  }

  lemma DoneIsAnnotated(s: Setup, spec: Option<MonitorSpec>, r: Replies)
    requires Managed(s, spec, r).1 == Done
    ensures spec.Some? ==> Managed(s, spec, r).0.annotation == Some(spec.value.agent)
  {
  }

  /** When the agent changes after a crash, the one set up before the crash is left behind. */
  lemma ChangedRetryLeaksAgent()
    ensures var fine := Replies(Ok, Ok, Ok, Ok, Ok);
      var builtin, operator := Some(MonitorSpec(Builtin, true)), Some(MonitorSpec(Operator, true));
      var ps := [Attempt(builtin, fine), Attempt(operator, fine.(patch := CrashBefore)), Attempt(builtin, fine)];
      EndAt(ps, 2) == Done && SetupAt(ps, 3).live == {Builtin, Operator}
  {
    var fine := Replies(Ok, Ok, Ok, Ok, Ok);
    var builtin, operator := Some(MonitorSpec(Builtin, true)), Some(MonitorSpec(Operator, true));
    var ps := [Attempt(builtin, fine), Attempt(operator, fine.(patch := CrashBefore)), Attempt(builtin, fine)];
    assert SetupAt(ps, 0) == Setup(None, {});
    assert SetupAt(ps, 1) == Setup(Some(Builtin), {Builtin});
    assert SetupAt(ps, 2) == Setup(Some(Builtin), {Operator});
    assert SetupAt(ps, 3) == Setup(Some(Builtin), {Builtin, Operator});
  }

  /* ---- agent types without an implementation ---- */

  predicate NoCrash(r: Replies) {
    !r.getOld.Crashes() && !r.delete.Crashes() && !r.add.Crashes() && !r.getService.Crashes() && !r.patch.Crashes()
  }

  /** When no call takes the process down, the switch itself does exactly for an agent type nobody implements. */
  lemma CrashesExactly(s: Setup, spec: Option<MonitorSpec>, r: Replies)
    requires NoCrash(r)
    ensures Managed(s, spec, r).1 == Crash <==> spec.Some? && spec.value.prometheus && !Known(spec.value.agent)
  {
  }

  lemma {:induction false} VendorOf(vendor: string, rest: string)
    requires '/' !in vendor
    ensures Admission.BeforeSlash(vendor + "/" + rest) == vendor
  {
    if vendor == "" {
    } else {
      assert (vendor + "/" + rest)[1..] == vendor[1..] + "/" + rest;
      VendorOf(vendor[1..], rest);
    }
  }

  /** Validation lets any type of the vendor through, so such a spec can be stored, and crashes the operator. */
  lemma UnknownAgentCrashes(s: Setup, rest: string, port: int, r: Replies)
    requires 1024 <= port <= 65535 && rest != "builtin" && rest != "operator" && NoCrash(r)
    ensures var m := Admission.Monitor(Admission.VendorPrometheus + "/" + rest, Some(port));
            Admission.MonitorOk(m) && Managed(s, Some(MonitorSpec(m.agent, m.port.Some?)), r).1 == Crash
  {
    var vendor := Admission.VendorPrometheus;
    VendorOf(vendor, rest);
    var agent := vendor + "/" + rest;
    assert agent[|vendor|] == '/';
    assert agent[|vendor| + 1..] == rest && Builtin[|vendor| + 1..] == "builtin" && Operator[|vendor| + 1..] == "operator";
    assert |Prometheus| == |vendor| < |agent|;
    CrashesExactly(s, Some(MonitorSpec(agent, true)), r);
  }
}
