# EKS namespace vending through AWS Proton — a Dafny model

The namespace-vending script adds or removes one Kubernetes namespace in the
`spec.namespaces` list of an AWS Proton environment. It fetches the
environment, reconciles the list with the request, writes the list back into
the spec, waits for the environment to settle, refuses to proceed if the
environment is still busy, submits exactly one update, waits again and, for a
create, notifies Proton of the new namespace's outputs.

This project models that decision logic as pure functions and proves what it
promises:

- `outcomes.dfy` — `Error`, `Result` and `Option`: every exception on the
  modelled path is an error value.
- `sequences.dfy` — duplicate-free lists and Python's `list.remove` (first
  occurrence), with an independent reference definition `IsFirstRemoval`.
- `spec_document.dfy` — the decoded spec as a map with a nested `spec` map;
  reading `spec.namespaces` (absent reads as `[]`) and overwriting it.
- `reconciler.dfy` — `validate_ns_exist` and the create/delete branch.
- `control_plane.dfy` — the Proton client as a scripted oracle; a run is the
  trace of calls made, each with the reply it got, plus how the run ended.
- `deployment_gate.dfy` — the busy set and `update_proton_environment`.
- `orchestrator.dfy` — `finalize_deployment` and the whole
  `proton_environment_deployment` invocation.
- `scenarios.dfy` — worked runs: create `c` on `[a, b]`, delete `b`, and a
  busy `IN_PROGRESS` environment.

Behaviour of the script worth knowing:

- Deleting a name that is not listed fails. `validate_ns_exist` returns false
  for every delete, so `list.remove` raises `ValueError` before any wait or
  update (`NamespaceNotFound`). The label "Updating" arises only for a create
  of a name that is already listed.
- An empty namespace name is accepted like any other.
- The stuck-deployment exception carries a fixed message (ns_update.py:58),
  so `StuckDeployment` has no payload.

## Model

| member | source | states |
|---|---|---|
| Sequences.RemoveFirst | cdk/service-templates/cdk-eks-namespace-vending/v1/instance_infrastructure/ns_update.py:91-92 | `list.remove` fails exactly when the name is absent; otherwise the result is the list with its first occurrence cut out (the reference `IsFirstRemoval`) |
| Sequences.FirstRemovalUnique | cdk/service-templates/cdk-eks-namespace-vending/v1/instance_infrastructure/ns_update.py:91-92 | the first occurrence is unique, so removal has exactly one possible result |
| Sequences.FirstRemovalContents | cdk/service-templates/cdk-eks-namespace-vending/v1/instance_infrastructure/ns_update.py:91-92 | removal shortens the list by one and takes out exactly one copy of the name (multiset) |
| Sequences.FirstRemovalKeepsNoDup | cdk/service-templates/cdk-eks-namespace-vending/v1/instance_infrastructure/ns_update.py:91-93 | on a duplicate-free list, removal leaves a duplicate-free list without the name |
| Sequences.RemoveFirstUndoesAppend | cdk/service-templates/cdk-eks-namespace-vending/v1/instance_infrastructure/ns_update.py:88-92 | removing a name just appended to a list that lacked it restores the list |
| Reconciler.ValidateNamespaceExists | cdk/service-templates/cdk-eks-namespace-vending/v1/instance_infrastructure/ns_update.py:19-29 | true exactly when the name is listed and the action is not a delete |
| Reconciler.Reconcile | cdk/service-templates/cdk-eks-namespace-vending/v1/instance_infrastructure/ns_update.py:86-95 | create of an absent name appends it with label Creating; create of a present name keeps the list with label Updating; delete of a present name removes its first occurrence with label Deleting; delete of an absent name fails with NamespaceNotFound, and only then |
| Reconciler.ReconcileKeepsNoDup | cdk/service-templates/cdk-eks-namespace-vending/v1/instance_infrastructure/ns_update.py:86-95 | a duplicate-free list stays duplicate-free; after a create the name is listed, after a delete it is not |
| Reconciler.DeleteRemovesOneCopy | cdk/service-templates/cdk-eks-namespace-vending/v1/instance_infrastructure/ns_update.py:91-93 | a delete of a listed name removes exactly one copy and keeps every other name |
| Reconciler.DeleteUndoesCreate | cdk/service-templates/cdk-eks-namespace-vending/v1/instance_infrastructure/ns_update.py:88-93 | deleting a namespace just created restores the original list |
| Reconciler.CreateAfterDeleteMovesToEnd | cdk/service-templates/cdk-eks-namespace-vending/v1/instance_infrastructure/ns_update.py:88-93 | re-creating a namespace just deleted from a duplicate-free list appends it, giving the same names (multiset) |
| SpecDocument.ReadNamespaces | cdk/service-templates/cdk-eks-namespace-vending/v1/instance_infrastructure/ns_update.py:13-17 | the list is read from `spec.namespaces`; an absent field reads as `[]`; an absent `spec` is MissingSpec |
| SpecDocument.PrepareSpec | cdk/service-templates/cdk-eks-namespace-vending/v1/instance_infrastructure/ns_update.py:31-33 | `spec.namespaces` becomes the given list; every other top-level key and every other key under `spec` is unchanged; fails exactly when `spec` is missing or not a mapping |
| SpecDocument.ReadAfterPrepare | cdk/service-templates/cdk-eks-namespace-vending/v1/instance_infrastructure/ns_update.py:13-33 | reading back a written list yields that list |
| SpecDocument.ReadableIsWritable | cdk/service-templates/cdk-eks-namespace-vending/v1/instance_infrastructure/ns_update.py:13-33 | a spec whose list could be read can be written |
| SpecDocument.WriteBackIsIdentity | cdk/service-templates/cdk-eks-namespace-vending/v1/instance_infrastructure/ns_update.py:31-33 | writing back the list that was read leaves the document unchanged when the field was present |
| SpecDocument.PrepareSpecLastWriteWins | cdk/service-templates/cdk-eks-namespace-vending/v1/instance_infrastructure/ns_update.py:31-33 | two writes equal the second write alone |
| ControlPlane.Wait | cdk/service-templates/cdk-eks-namespace-vending/v1/instance_infrastructure/ns_update.py:35-45 | records a wait on `name` with delay 10 and 60 attempts, and the waiter's outcome |
| DeploymentGate.UpdateProtonEnvironment | cdk/service-templates/cdk-eks-namespace-vending/v1/instance_infrastructure/ns_update.py:47-61 | every update follows a successful wait and a non-busy re-fetch of the same environment, and an accepted update is followed by a wait; updates carry the given spec and fixed arguments; the run completes exactly when the gate clears and the update and second wait succeed; a busy status aborts with StuckDeployment |
| DeploymentGate.UpdateOnceIffCleared | cdk/service-templates/cdk-eks-namespace-vending/v1/instance_infrastructure/ns_update.py:47-60 | one update exactly when the status after the first wait is not busy, none otherwise; the second wait happens only after an accepted update |
| DeploymentGate.BusyPartition | cdk/service-templates/cdk-eks-namespace-vending/v1/instance_infrastructure/ns_update.py:11 | busy means IN_PROGRESS, DELETE_IN_PROGRESS, DELETE_COMPLETE or CANCELLING, and nothing else |
| DeploymentGate.BusyStatusBlocksUpdate | cdk/service-templates/cdk-eks-namespace-vending/v1/instance_infrastructure/ns_update.py:48-58 | a busy status yields one wait, one fetch and a StuckDeployment abort: no update, no second wait |
| DeploymentGate.ClearedRunShape | cdk/service-templates/cdk-eks-namespace-vending/v1/instance_infrastructure/ns_update.py:35-61 | with no failures the calls are wait (10 s, 60 attempts), re-fetch, one update with CURRENT_VERSION, wait |
| Orchestrator.FinalizeDeployment | cdk/service-templates/cdk-eks-namespace-vending/v1/instance_infrastructure/ns_update.py:63-81 | a create yields a SUCCEEDED notification with exactly two distinctly keyed outputs, NamespaceName = the name and KubectlConfiguration = the command; a delete yields none |
| Orchestrator.Finish | cdk/service-templates/cdk-eks-namespace-vending/v1/instance_infrastructure/ns_update.py:99-100 | after the gate, a create appends one notification call and fails exactly when it is rejected; a delete adds no call |
| Orchestrator.Deploy | cdk/service-templates/cdk-eks-namespace-vending/v1/instance_infrastructure/ns_update.py:83-100 | the run starts with the metadata fetch, never submits an update that bypassed the gate, and a completed run submitted exactly one update |
| Orchestrator.DeleteOfAbsentNameFailsEarly | cdk/service-templates/cdk-eks-namespace-vending/v1/instance_infrastructure/ns_update.py:84-99 | deleting an unlisted name fails with NamespaceNotFound after the first fetch, with no wait and no update |
| Orchestrator.UpdateSubmittedIffGateClears | cdk/service-templates/cdk-eks-namespace-vending/v1/instance_infrastructure/ns_update.py:83-99 | an invocation submits exactly one update when the request reconciles and the gate clears, none otherwise |
| Orchestrator.SubmittedSpecHoldsReconciledList | cdk/service-templates/cdk-eks-namespace-vending/v1/instance_infrastructure/ns_update.py:84-99 | the submitted spec is the fetched spec with `spec.namespaces` replaced by the reconciled list, submitted after wait and re-fetch |
| Orchestrator.CreateOfPresentNameStillSubmits | cdk/service-templates/cdk-eks-namespace-vending/v1/instance_infrastructure/ns_update.py:86-99 | creating an already-listed name still submits an update, with the list unchanged, and with the fetched spec itself when the field was present |
| Orchestrator.DeployCompletesIff | cdk/service-templates/cdk-eks-namespace-vending/v1/instance_infrastructure/ns_update.py:83-100 | an invocation completes exactly when the request reconciles, the gate clears, the update and the second wait succeed and, for a create, the notification is accepted |
| Orchestrator.BusyRecheckAbortsRun | cdk/service-templates/cdk-eks-namespace-vending/v1/instance_infrastructure/ns_update.py:83-99 | for every reconcilable request, a busy status after the first wait ends the run as StuckDeployment after fetch, wait and re-fetch: no update, no second wait, no notification |
| Orchestrator.NotifiesOnlyAfterCompletedCreate | cdk/service-templates/cdk-eks-namespace-vending/v1/instance_infrastructure/ns_update.py:63-100 | one notification exactly when a create got through both waits and the update, as the last call, naming the namespace; a delete never notifies |
| Scenarios.CreateScenario | cdk/service-templates/cdk-eks-namespace-vending/v1/instance_infrastructure/ns_update.py:83-100 | creating `c` on `[a, b]` submits `[a, b, c]` with the other fields kept and notifies `c` |
| Scenarios.DeleteScenario | cdk/service-templates/cdk-eks-namespace-vending/v1/instance_infrastructure/ns_update.py:83-100 | deleting `b` from `[a, b]` submits `[a]` and sends no notification |
| Scenarios.StuckScenario | cdk/service-templates/cdk-eks-namespace-vending/v1/instance_infrastructure/ns_update.py:47-58 | an `IN_PROGRESS` status after the first wait aborts as stuck without an update |

## Left out

- The Proton client (`get_environment`, `update_environment`, `notify_resource_deployment_status_change`) is network I/O. It is replaced by the `ControlPlane` oracle, which scripts each reply. Any exception from these calls is `ServiceError`.
- The waiter's polling, delay and timeout are time-based library behaviour. Only the outcome is modelled: settled, or gave up (`WaiterFailed`). The delay 10 and attempt limit 60 appear only as recorded arguments.
- The YAML `safe_load`/`dump` codec is a foreign library. The spec is an already-decoded `Document`, and the update carries that document rather than its YAML text.
- `Node` represents only scalars, lists of strings and mappings. Other YAML values in sibling fields would be carried opaquely by the real script; this is enough to state that siblings are preserved.
- ReadNamespaces: a `namespaces` value that is not a list, or a `spec` that is not a mapping, is reported as `MalformedSpec`. The script behaves otherwise: a `spec` that is not a mapping raises `AttributeError`; a null `namespaces` raises `TypeError`; a string `namespaces` is searched by substring; a mapping `namespaces` is searched by key, so a create of a name that is already a key takes the "Updating" branch and submits the update without an exception.
- Shared (anchored) YAML substructure, and the in-place `append`/`remove` on the list object read from the spec that it exposes, are not modelled. A `Document` is a tree value, so when an anchor makes another field share the `namespaces` list, the real script also changes that other field, and the "nothing else changes" statements of `PrepareSpec` and `Orchestrator.SubmittedSpecHoldsReconciledList` do not describe such documents.
- `Action` has only `Create` and `Delete`, the only two values the command line passes.
- The typer command line, the `rich` progress and completion messages, and the text of the progress line are output only and not modelled.
- The `RESOURCE_ARN` environment variable is a parameter of `Deploy` and `FinalizeDeployment`. Its absence is not modelled.
- The text of the kubectl command is a placeholder; it is an opaque constant.
- Races between the busy check and the submit, across independent processes, are not coordinated by the script, so there is nothing to verify.
