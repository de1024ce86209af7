/** Worked runs of the namespace-vending script against a control plane
    whose every call succeeds, over an environment listing `a` and `b`. */
module Scenarios {
  import opened Outcomes
  import opened Sequences
  import opened SpecDocument
  import opened Reconciler
  import opened ControlPlane
  import opened DeploymentGate
  import opened Orchestrator

  /** An environment spec with one sibling field next to the namespaces, and
      one top-level field next to `spec`. */
  function SampleSpec(namespaces: seq<string>): Document {
    map[
      "proton" := Scalar("EnvironmentSpec"),
      SpecKey := Mapping(map[NamespacesKey := Names(namespaces), "cluster_name" := Scalar("eks-1")])]
  }

  /** Rewriting the sample's namespaces gives the sample with the new list. */
  lemma PrepareSampleSpec(a: seq<string>, b: seq<string>)
    ensures PrepareSpec(b, SampleSpec(a)) == Ok(SampleSpec(b))
  {
    assert "proton" != SpecKey && "cluster_name" != NamespacesKey;
    var doc := SampleSpec(a);
    var fields := map[NamespacesKey := Names(b), "cluster_name" := Scalar("eks-1")];
    assert doc[SpecKey].fields[NamespacesKey := Names(b)] == fields;
    assert doc[SpecKey := Mapping(fields)] == SampleSpec(b);
  }

  function SampleEnvironment(status: string): Environment {
    Environment(status, SampleSpec(["a", "b"]))
  }

  /** Every call succeeds; `status` is what both fetches report. */
  function Smooth(status: string): ControlPlane {
    ControlPlane(Found(SampleEnvironment(status)), Deployed, Found(SampleEnvironment(status)),
                 Accepted, Deployed, Accepted)
  }

  /** Creating `c` appends it, submits one update carrying `[a, b, c]` with
      every other field kept, and reports `c` as the new namespace. */
  lemma CreateScenario(arn: string)
    ensures Reconcile(["a", "b"], "c", Create) == Ok(Plan(["a", "b", "c"], Creating))
    ensures Deploy(Smooth("SUCCEEDED"), "c", "env1", Create, arn)
         == Run([GetEnvironment("env1", Found(SampleEnvironment("SUCCEEDED"))),
                 Wait("env1", Deployed),
                 GetEnvironment("env1", Found(SampleEnvironment("SUCCEEDED"))),
                 UpdateEnvironment("env1", SampleSpec(["a", "b", "c"]), DeploymentType, UpdateDescription, Accepted),
                 Wait("env1", Deployed),
                 NotifyDeploymentStatus(
                   Notification(arn, [Output("NamespaceName", "c"), Output("KubectlConfiguration", KubectlCommand)], "SUCCEEDED"),
                   Accepted)],
                Completed)
  {
    var doc := SampleSpec(["a", "b"]);
    assert ReadNamespaces(doc) == Ok(["a", "b"]);
    assert "c" !in ["a", "b"];
    assert ["a", "b"] + ["c"] == ["a", "b", "c"];
    PrepareSampleSpec(["a", "b"], ["a", "b", "c"]);
    ClearedRunShape(Smooth("SUCCEEDED"), "env1", SampleSpec(["a", "b", "c"]));
  }

  /** Deleting `b` submits `[a]` and sends no notification. */
  lemma DeleteScenario(arn: string)
    ensures Reconcile(["a", "b"], "b", Delete) == Ok(Plan(["a"], Deleting))
    ensures Deploy(Smooth("SUCCEEDED"), "b", "env1", Delete, arn)
         == Run([GetEnvironment("env1", Found(SampleEnvironment("SUCCEEDED"))),
                 Wait("env1", Deployed),
                 GetEnvironment("env1", Found(SampleEnvironment("SUCCEEDED"))),
                 UpdateEnvironment("env1", SampleSpec(["a"]), DeploymentType, UpdateDescription, Accepted),
                 Wait("env1", Deployed)],
                Completed)
  {
    var doc := SampleSpec(["a", "b"]);
    assert ReadNamespaces(doc) == Ok(["a", "b"]);
    assert "a" != "b" && ["a", "b"][1..] == ["b"] && ["b"][1..] == [];
    assert RemoveFirst(["b"], "b") == Some([]);
    assert ["a"] + [] == ["a"];
    assert RemoveFirst(["a", "b"], "b") == Some(["a"]);
    assert Reconcile(["a", "b"], "b", Delete) == Ok(Plan(["a"], Deleting));
    PrepareSampleSpec(["a", "b"], ["a"]);
    ClearedRunShape(Smooth("SUCCEEDED"), "env1", SampleSpec(["a"]));
  }

  /** A status of `IN_PROGRESS` after the first wait aborts the run as stuck:
      no update and no second wait. */
  lemma StuckScenario(arn: string)
    ensures Deploy(Smooth("IN_PROGRESS"), "c", "env1", Create, arn)
         == Run([GetEnvironment("env1", Found(SampleEnvironment("IN_PROGRESS"))),
                 Wait("env1", Deployed),
                 GetEnvironment("env1", Found(SampleEnvironment("IN_PROGRESS")))],
                Aborted(StuckDeployment))
  {
  }
}
