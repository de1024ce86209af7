/** `update_proton_environment`: wait for the environment to settle, re-fetch
    its status, submit exactly one update unless the status is still busy,
    then wait again. */
module DeploymentGate {
  import opened Outcomes
  import opened SpecDocument
  import opened ControlPlane

  /** `EXPECTED_DEPLOYMENT_STATUS`: statuses that, seen right after a
      completed wait, mean the deployment is stuck. */
  const BusyStatuses: seq<string> := ["IN_PROGRESS", "DELETE_IN_PROGRESS", "DELETE_COMPLETE", "CANCELLING"]

  predicate IsBusy(status: string) {
    status in BusyStatuses
  }

  /** The oracle lets the gate through: the first wait succeeded and the
      re-fetched status is outside the busy set. */
  predicate Cleared(cp: ControlPlane) {
    cp.firstWait.Deployed? && cp.recheck.Found? && !IsBusy(cp.recheck.environment.deploymentStatus)
  }

  /** The update at index `i` was submitted only after a successful wait and
      a re-fetch reporting a non-busy status of the same environment, and,
      if accepted, is immediately followed by a wait on that environment. */
  predicate SubmitGated(calls: seq<Call>, i: nat)
    requires i < |calls| && calls[i].UpdateEnvironment?
  {
    && 2 <= i
    && calls[i - 2].WaitDeployed? && calls[i - 2].outcome.Deployed?
    && calls[i - 2].name == calls[i].name
    && calls[i - 1].GetEnvironment? && calls[i - 1].reply.Found?
    && calls[i - 1].name == calls[i].name
    && !IsBusy(calls[i - 1].reply.environment.deploymentStatus)
    && (calls[i].ack.Accepted? ==>
          i + 1 < |calls| && calls[i + 1].WaitDeployed? && calls[i + 1].name == calls[i].name)
  }

  /** Every update in the trace went through the gate. */
  predicate GateRespected(calls: seq<Call>) {
    forall i: nat | i < |calls| && calls[i].UpdateEnvironment? :: SubmitGated(calls, i)
  }

  /** Every update in the trace targets `name` with `spec` and the fixed
      deployment type and description. */
  predicate UpdatesCarry(calls: seq<Call>, name: string, spec: Document) {
    forall i | 0 <= i < |calls| && calls[i].UpdateEnvironment? ::
      calls[i].name == name && calls[i].spec == spec &&
      calls[i].deploymentType == DeploymentType && calls[i].description == UpdateDescription
  }

  /** A wait, a non-busy re-fetch and an update, followed by a wait when the
      update was accepted, form a gated trace. */
  lemma GatedSubmitTrace(first: Call, fetch: Call, update: Call, rest: seq<Call>)
    requires first.WaitDeployed? && first.outcome.Deployed?
    requires fetch.GetEnvironment? && fetch.reply.Found? && !IsBusy(fetch.reply.environment.deploymentStatus)
    requires update.UpdateEnvironment? && first.name == update.name && fetch.name == update.name
    requires update.ack.Accepted? ==> |rest| == 1 && rest[0].WaitDeployed? && rest[0].name == update.name
    requires update.ack.Rejected? ==> rest == []
    ensures GateRespected([first, fetch, update] + rest)
  {
  }

  /** `update_proton_environment(environment, name, spec)`. */
  function UpdateProtonEnvironment(cp: ControlPlane, name: string, spec: Document): (r: Run)
    ensures GateRespected(r.calls)
    ensures UpdatesCarry(r.calls, name, spec)
    ensures 1 <= |r.calls| && r.calls[0] == Wait(name, cp.firstWait)
    ensures r.outcome.Completed? <==> Cleared(cp) && cp.submit.Accepted? && cp.secondWait.Deployed?
    ensures cp.firstWait.Deployed? && cp.recheck.Found? && IsBusy(cp.recheck.environment.deploymentStatus) ==>
              r.outcome == Aborted(StuckDeployment)
    ensures r.outcome.Aborted? ==> r.outcome.error in {WaiterFailed, ServiceError, StuckDeployment}
  {
    var first := Wait(name, cp.firstWait);
    if cp.firstWait.WaitGaveUp? then Run([first], Aborted(WaiterFailed))
    else
      var fetch := GetEnvironment(name, cp.recheck);
      match cp.recheck
      case FetchFailed => Run([first, fetch], Aborted(ServiceError))
      case Found(environment) =>
        if IsBusy(environment.deploymentStatus) then
          Run([first, fetch], Aborted(StuckDeployment))
        else
          var update := UpdateEnvironment(name, spec, DeploymentType, UpdateDescription, cp.submit);
          if cp.submit.Rejected? then
            GatedSubmitTrace(first, fetch, update, []);
            assert [first, fetch, update] + [] == [first, fetch, update];
            Run([first, fetch, update], Aborted(ServiceError))
          else
            var second := Wait(name, cp.secondWait);
            GatedSubmitTrace(first, fetch, update, [second]);
            Run([first, fetch, update, second],
                if cp.secondWait.Deployed? then Completed else Aborted(WaiterFailed))
  }

  /** The environment is updated exactly once when the gate clears and never
      otherwise; the second wait happens only after an accepted update. */
  lemma UpdateOnceIffCleared(cp: ControlPlane, name: string, spec: Document)
    ensures Count(UpdateProtonEnvironment(cp, name, spec).calls, UpdateKind) == (if Cleared(cp) then 1 else 0)
    ensures Count(UpdateProtonEnvironment(cp, name, spec).calls, WaitKind)
         == (if Cleared(cp) && cp.submit.Accepted? then 2 else 1)
  {
    var calls := UpdateProtonEnvironment(cp, name, spec).calls;
    if Cleared(cp) {
      assert calls == calls[..2] + calls[2..];
      CountConcat(calls[..2], calls[2..], UpdateKind);
      CountConcat(calls[..2], calls[2..], WaitKind);
    }
  }

  /** The busy partition, spelled out. */
  lemma BusyPartition(status: string)
    ensures IsBusy(status) <==>
              status == "IN_PROGRESS" || status == "DELETE_IN_PROGRESS" ||
              status == "DELETE_COMPLETE" || status == "CANCELLING"
  {
  }

  /** A busy status after the first wait aborts the run before any update
      is submitted and before the second wait. */
  lemma BusyStatusBlocksUpdate(cp: ControlPlane, name: string, spec: Document)
    requires cp.firstWait.Deployed? && cp.recheck.Found?
    requires IsBusy(cp.recheck.environment.deploymentStatus)
    ensures UpdateProtonEnvironment(cp, name, spec)
         == Run([Wait(name, Deployed), GetEnvironment(name, cp.recheck)], Aborted(StuckDeployment))
  {
  }

  /** When nothing fails, the run is wait, re-fetch, one update, wait. */
  lemma ClearedRunShape(cp: ControlPlane, name: string, spec: Document)
    requires Cleared(cp) && cp.submit.Accepted? && cp.secondWait.Deployed?
    ensures UpdateProtonEnvironment(cp, name, spec).calls
         == [Wait(name, Deployed), GetEnvironment(name, cp.recheck),
             UpdateEnvironment(name, spec, DeploymentType, UpdateDescription, Accepted),
             Wait(name, Deployed)]
  {
  }

  /** Putting a call that is not an update in front of a trace keeps the gate respected. */
  lemma GateRespectedPrepend(c: Call, calls: seq<Call>)
    requires !c.UpdateEnvironment? && GateRespected(calls)
    ensures GateRespected([c] + calls)
  {
  }

  /** Appending a call that is not an update keeps the gate respected. */
  lemma GateRespectedAppend(calls: seq<Call>, c: Call)
    requires !c.UpdateEnvironment? && GateRespected(calls)
    ensures GateRespected(calls + [c])
  {
  }
}
