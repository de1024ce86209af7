/** The AWS Proton control-plane client, as seen by the script.

    The client is network I/O and is not modelled; in its place an oracle
    (`ControlPlane`) scripts the reply to each of the at most six calls one
    invocation makes, in the order the script makes them. A run of the script
    is the trace of calls it made, each recorded with the reply it received,
    together with how the run ended. */
module ControlPlane {
  import opened Outcomes
  import opened SpecDocument

  /** What `get_environment` returns: the deployment status label and the
      decoded spec. */
  datatype Environment = Environment(deploymentStatus: string, spec: Document)

  /** The reply to `get_environment`: the environment, or a raised client error. */
  datatype Reply = Found(environment: Environment) | FetchFailed

  /** How a wait on the `environment_deployed` waiter ended. */
  datatype WaitOutcome = Deployed | WaitGaveUp

  /** Whether an `update_environment` or notification call returned normally. */
  datatype Ack = Accepted | Rejected

  /** One `{key, valueString}` entry of a notification's outputs. */
  datatype Output = Output(key: string, valueString: string)

  /** The payload of `notify_resource_deployment_status_change`. */
  datatype Notification = Notification(resourceArn: string, outputs: seq<Output>, status: string)

  /** The scripted replies, in call order: the fetch in `collect_metadata`,
      the first wait, the re-fetch, the update, the second wait and the
      notification. */
  datatype ControlPlane = ControlPlane(
    metadata: Reply,
    firstWait: WaitOutcome,
    recheck: Reply,
    submit: Ack,
    secondWait: WaitOutcome,
    notify: Ack)

  /** One collaborator call with the reply it received. */
  datatype Call =
    | GetEnvironment(name: string, reply: Reply)
    | WaitDeployed(name: string, delay: nat, maxAttempts: nat, outcome: WaitOutcome)
    | UpdateEnvironment(name: string, spec: Document, deploymentType: string, description: string, ack: Ack)
    | NotifyDeploymentStatus(notification: Notification, ack: Ack)

  /** How a run ended. */
  datatype Outcome = Completed | Aborted(error: Error)

  /** The calls a run made, in order, and how it ended. */
  datatype Run = Run(calls: seq<Call>, outcome: Outcome)

  /** The defaults of `env_waiter`: poll every 10 seconds, at most 60 times. */
  const WaiterDelay: nat := 10
  const WaiterMaxAttempts: nat := 60

  /** The fixed arguments of the `update_environment` call. */
  const DeploymentType: string := "CURRENT_VERSION"
  const UpdateDescription: string := "Automated update via EKS namespace vending"

  /** `env_waiter(name)` with its default configuration. */
  function Wait(name: string, outcome: WaitOutcome): (c: Call)
    ensures c.WaitDeployed? && c.name == name && c.outcome == outcome
    ensures c.delay == 10 && c.maxAttempts == 60
  {
    WaitDeployed(name, WaiterDelay, WaiterMaxAttempts, outcome)
  }

  /** The kinds of collaborator call, for counting. */
  datatype CallKind = FetchKind | WaitKind | UpdateKind | NotifyKind

  function KindOf(c: Call): CallKind {
    match c
    case GetEnvironment(_, _) => FetchKind
    case WaitDeployed(_, _, _, _) => WaitKind
    case UpdateEnvironment(_, _, _, _, _) => UpdateKind
    case NotifyDeploymentStatus(_, _) => NotifyKind
  }

  /** How many calls of kind `k` the trace holds. */
  function Count(calls: seq<Call>, k: CallKind): (n: nat)
    ensures n <= |calls|
    ensures n == 0 <==> forall i | 0 <= i < |calls| :: KindOf(calls[i]) != k
  {
    if |calls| == 0 then 0
    else (if KindOf(calls[0]) == k then 1 else 0) + Count(calls[1..], k)
  }

  /** Counting distributes over concatenation of traces. */
  lemma {:induction false} CountConcat(a: seq<Call>, b: seq<Call>, k: CallKind)
    ensures Count(a + b, k) == Count(a, k) + Count(b, k)
  {
    if |a| == 0 {
      assert a + b == b;
    } else {
      assert (a + b)[1..] == a[1..] + b;
      CountConcat(a[1..], b, k);
    }
  }
}
