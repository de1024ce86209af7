/** `proton_environment_deployment` and `finalize_deployment`: fetch the
    environment, reconcile its namespace list, write the list back into the
    spec, push the update through the deployment gate and, for a create,
    report the new namespace's outputs. */
module Orchestrator {
  import opened Outcomes
  import opened Sequences
  import opened SpecDocument
  import opened Reconciler
  import opened ControlPlane
  import opened DeploymentGate

  /** The cluster-access command reported for a new namespace; its text is a
      placeholder in the script and is treated as an opaque constant. */
  const KubectlCommand: string :=
    "aws eks update-kubeconfig --name cluster-name-here --region region-here --role-arn role-arn-here"

  const NamespaceNameKey: string := "NamespaceName"
  const KubectlConfigurationKey: string := "KubectlConfiguration"
  const SucceededStatus: string := "SUCCEEDED"

  /** The value of the first output named `key`, if any. */
  function OutputValue(outputs: seq<Output>, key: string): (v: Option<string>)
    ensures v.None? <==> forall i | 0 <= i < |outputs| :: outputs[i].key != key
    ensures v.Some? ==> exists i | 0 <= i < |outputs| :: outputs[i] == Output(key, v.value)
  {
    if |outputs| == 0 then None
    else if outputs[0].key == key then Some(outputs[0].valueString)
    else OutputValue(outputs[1..], key)
  }

  /** No two outputs share a key. */
  predicate DistinctKeys(outputs: seq<Output>) {
    forall i, j | 0 <= i < j < |outputs| :: outputs[i].key != outputs[j].key
  }

  /** `finalize_deployment`: the notification sent after a create; a delete
      sends none. */
  function FinalizeDeployment(name: string, action: Action, resourceArn: string): (r: Option<Notification>)
    ensures r.None? <==> action.Delete?
    ensures r.Some? ==> r.value.resourceArn == resourceArn && r.value.status == SucceededStatus
    ensures r.Some? ==> |r.value.outputs| == 2 && DistinctKeys(r.value.outputs)
    ensures r.Some? ==> OutputValue(r.value.outputs, NamespaceNameKey) == Some(name)
    ensures r.Some? ==> OutputValue(r.value.outputs, KubectlConfigurationKey) == Some(KubectlCommand)
  {
    match action
    case Create =>
      Some(Notification(
        resourceArn,
        [Output(NamespaceNameKey, name), Output(KubectlConfigurationKey, KubectlCommand)],
        SucceededStatus))
    case Delete => None
  }

  /** The run after the gate has completed: notify for a create, finish for a delete. */
  function Finish(cp: ControlPlane, before: seq<Call>, name: string, action: Action, resourceArn: string): (r: Run)
    ensures |before| <= |r.calls| && r.calls[..|before|] == before
    ensures r.calls == before <==> action.Delete?
    ensures action.Delete? ==> r.outcome == Completed
    ensures action.Create? ==>
              |r.calls| == |before| + 1 &&
              r.calls[|before|] == NotifyDeploymentStatus(FinalizeDeployment(name, action, resourceArn).value, cp.notify) &&
              (r.outcome.Completed? <==> cp.notify.Accepted?) &&
              (r.outcome.Aborted? ==> r.outcome.error == ServiceError)
  {
    match FinalizeDeployment(name, action, resourceArn)
    case None => Run(before, Completed)
    case Some(n) =>
      Run(before + [NotifyDeploymentStatus(n, cp.notify)],
          if cp.notify.Accepted? then Completed else Aborted(ServiceError))
  }

  /** `proton_environment_deployment(name, environment, action)` against the
      scripted control plane. */
  function Deploy(cp: ControlPlane, name: string, env: string, action: Action, resourceArn: string): (r: Run)
    ensures 1 <= |r.calls| && r.calls[0] == GetEnvironment(env, cp.metadata)
    ensures GateRespected(r.calls)
    ensures r.outcome.Completed? ==> Count(r.calls, UpdateKind) == 1
  {
    var fetch := GetEnvironment(env, cp.metadata);
    match cp.metadata
    case FetchFailed => Run([fetch], Aborted(ServiceError))
    case Found(environment) =>
      match ReadNamespaces(environment.spec)
      case Err(e) => Run([fetch], Aborted(e))
      case Ok(current) =>
        match Reconcile(current, name, action)
        case Err(e) => Run([fetch], Aborted(e))
        case Ok(plan) =>
          match PrepareSpec(plan.namespaces, environment.spec)
          case Err(e) => Run([fetch], Aborted(e))
          case Ok(updated) =>
            var gate := UpdateProtonEnvironment(cp, env, updated);
            GateRespectedPrepend(fetch, gate.calls);
            if gate.outcome.Aborted? then
              Run([fetch] + gate.calls, gate.outcome)
            else
              var r := Finish(cp, [fetch] + gate.calls, name, action, resourceArn);
              UpdateOnceIffCleared(cp, env, updated);
              CountConcat([fetch], gate.calls, UpdateKind);
              if action.Create? then
                GateRespectedAppend([fetch] + gate.calls, r.calls[|r.calls| - 1]);
                assert r.calls == ([fetch] + gate.calls) + [r.calls[|r.calls| - 1]];
                CountConcat([fetch] + gate.calls, [r.calls[|r.calls| - 1]], UpdateKind);
                r
              else
                r
  }

  /** The fetched spec can be read and the request reconciled, so the run
      reaches the deployment gate. */
  predicate Reconcilable(cp: ControlPlane, name: string, action: Action) {
    && cp.metadata.Found?
    && ReadNamespaces(cp.metadata.environment.spec).Ok?
    && Reconcile(ReadNamespaces(cp.metadata.environment.spec).value, name, action).Ok?
  }

  /** The list the run submits, when it gets as far as the gate. */
  function PlannedNamespaces(cp: ControlPlane, name: string, action: Action): seq<string>
    requires Reconcilable(cp, name, action)
  {
    Reconcile(ReadNamespaces(cp.metadata.environment.spec).value, name, action).value.namespaces
  }

  /** Deleting a name that is not listed fails at `list.remove`, right after
      the first fetch: no wait, no update, no notification. */
  lemma DeleteOfAbsentNameFailsEarly(cp: ControlPlane, name: string, env: string, resourceArn: string)
    requires cp.metadata.Found?
    requires ReadNamespaces(cp.metadata.environment.spec).Ok?
    requires name !in ReadNamespaces(cp.metadata.environment.spec).value
    ensures Deploy(cp, name, env, Delete, resourceArn)
         == Run([GetEnvironment(env, cp.metadata)], Aborted(NamespaceNotFound))
    ensures Count(Deploy(cp, name, env, Delete, resourceArn).calls, UpdateKind) == 0
    ensures Count(Deploy(cp, name, env, Delete, resourceArn).calls, WaitKind) == 0
  {
  }

  /** Exactly one update is submitted when the request reconciles and the
      gate clears, and none otherwise. */
  lemma UpdateSubmittedIffGateClears(cp: ControlPlane, name: string, env: string, action: Action, resourceArn: string)
    ensures Count(Deploy(cp, name, env, action, resourceArn).calls, UpdateKind)
         == (if Reconcilable(cp, name, action) && Cleared(cp) then 1 else 0)
  {
    var r := Deploy(cp, name, env, action, resourceArn);
    if Reconcilable(cp, name, action) {
      var environment := cp.metadata.environment;
      var updated := PrepareSpec(PlannedNamespaces(cp, name, action), environment.spec).value;
      var gate := UpdateProtonEnvironment(cp, env, updated);
      UpdateOnceIffCleared(cp, env, updated);
      CountConcat([GetEnvironment(env, cp.metadata)], gate.calls, UpdateKind);
      if gate.outcome.Completed? && action.Create? {
        var before := [GetEnvironment(env, cp.metadata)] + gate.calls;
        assert r.calls == before + [r.calls[|before|]];
        CountConcat(before, [r.calls[|before|]], UpdateKind);
      }
    }
  }

  /** The update carries the fetched spec with `spec.namespaces` replaced by
      the reconciled list, and nothing else changed. */
  lemma SubmittedSpecHoldsReconciledList(cp: ControlPlane, name: string, env: string, action: Action, resourceArn: string)
    requires Reconcilable(cp, name, action) && Cleared(cp)
    ensures var calls := Deploy(cp, name, env, action, resourceArn).calls;
            && 4 <= |calls|
            && calls[1] == Wait(env, Deployed)
            && calls[2] == GetEnvironment(env, cp.recheck)
            && calls[3].UpdateEnvironment? && calls[3].name == env
            && calls[3].deploymentType == DeploymentType && calls[3].description == UpdateDescription
            && ReadNamespaces(calls[3].spec) == Ok(PlannedNamespaces(cp, name, action))
            && PrepareSpec(PlannedNamespaces(cp, name, action), cp.metadata.environment.spec) == Ok(calls[3].spec)
  {
  }

  /** Creating a name that is already listed does not short-circuit: the
      unchanged list is still written back and submitted. When the field was
      present the submitted spec is the fetched one, unchanged. */
  lemma CreateOfPresentNameStillSubmits(cp: ControlPlane, name: string, env: string, resourceArn: string)
    requires cp.metadata.Found? && Cleared(cp)
    requires ReadNamespaces(cp.metadata.environment.spec).Ok?
    requires name in ReadNamespaces(cp.metadata.environment.spec).value
    ensures var calls := Deploy(cp, name, env, Create, resourceArn).calls;
            && 4 <= |calls| && calls[3].UpdateEnvironment?
            && ReadNamespaces(calls[3].spec) == ReadNamespaces(cp.metadata.environment.spec)
            && (NamespacesKey in SpecFields(cp.metadata.environment.spec) ==>
                  calls[3].spec == cp.metadata.environment.spec)
  {
    var doc := cp.metadata.environment.spec;
    SubmittedSpecHoldsReconciledList(cp, name, env, Create, resourceArn);
    if NamespacesKey in SpecFields(doc) {
      WriteBackIsIdentity(doc);
    }
  }

  /** A notification is sent exactly when a create completed its second wait;
      it is the last call and reports the requested name. A delete never
      notifies. */
  lemma NotifiesOnlyAfterCompletedCreate(cp: ControlPlane, name: string, env: string, action: Action, resourceArn: string)
    ensures Count(Deploy(cp, name, env, action, resourceArn).calls, NotifyKind)
         == (if action.Create? && Reconcilable(cp, name, action) && Cleared(cp)
                && cp.submit.Accepted? && cp.secondWait.Deployed? then 1 else 0)
    ensures var calls := Deploy(cp, name, env, action, resourceArn).calls;
            Count(calls, NotifyKind) == 1 ==>
              && calls[|calls| - 1].NotifyDeploymentStatus?
              && OutputValue(calls[|calls| - 1].notification.outputs, NamespaceNameKey) == Some(name)
              && calls[|calls| - 1].notification.status == SucceededStatus
  {
    var r := Deploy(cp, name, env, action, resourceArn);
    if Reconcilable(cp, name, action) {
      var environment := cp.metadata.environment;
      var updated := PrepareSpec(PlannedNamespaces(cp, name, action), environment.spec).value;
      var gate := UpdateProtonEnvironment(cp, env, updated);
      var before := [GetEnvironment(env, cp.metadata)] + gate.calls;
      assert |gate.calls| <= 4;
      assert forall i | 0 <= i < |gate.calls| :: !gate.calls[i].NotifyDeploymentStatus?;
      assert Count(gate.calls, NotifyKind) == 0;
      CountConcat([GetEnvironment(env, cp.metadata)], gate.calls, NotifyKind);
      if gate.outcome.Completed? && action.Create? {
        assert r.calls == before + [r.calls[|before|]];
        CountConcat(before, [r.calls[|before|]], NotifyKind);
      }
    }
  }

  /** An invocation completes, i.e. the script exits normally, exactly when
      the request reconciles, the gate clears, the update and the second wait
      succeed and, for a create, the notification is accepted. */
  lemma DeployCompletesIff(cp: ControlPlane, name: string, env: string, action: Action, resourceArn: string)
    ensures Deploy(cp, name, env, action, resourceArn).outcome.Completed?
        <==> Reconcilable(cp, name, action) && Cleared(cp) && cp.submit.Accepted? && cp.secondWait.Deployed?
             && (action.Delete? || cp.notify.Accepted?)
  {
  }

  /** A request that reconciles but meets a busy status after the first wait
      ends the whole invocation as stuck, after the fetch, the wait and the
      re-fetch: no update, no second wait, no notification. */
  lemma BusyRecheckAbortsRun(cp: ControlPlane, name: string, env: string, action: Action, resourceArn: string)
    requires Reconcilable(cp, name, action)
    requires cp.firstWait.Deployed? && cp.recheck.Found?
    requires IsBusy(cp.recheck.environment.deploymentStatus)
    ensures Deploy(cp, name, env, action, resourceArn)
         == Run([GetEnvironment(env, cp.metadata), Wait(env, Deployed), GetEnvironment(env, cp.recheck)],
                Aborted(StuckDeployment))
  {
  }
}
