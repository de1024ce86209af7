/** The namespace reconciliation step of `proton_environment_deployment`:
    given the current list, a requested name and an action, compute the list
    to submit and the progress label printed before the update. */
module Reconciler {
  import opened Outcomes
  import opened Sequences

  /** The two actions the command line passes: `create` and `delete`. */
  datatype Action = Create | Delete

  /** The progress word printed before the update is submitted. */
  datatype Label = Creating | Deleting | Updating

  /** The list to submit and the progress label. */
  datatype Plan = Plan(namespaces: seq<string>, progress: Label)

  /** `validate_ns_exist`: true when the name is already listed and the action
      is not a delete, i.e. when a create needs no change to the list. */
  function ValidateNamespaceExists(name: string, namespaces: seq<string>, action: Action): (noChange: bool)
    ensures noChange <==> name in namespaces && action.Create?
  {
    if name in namespaces then
      if action.Delete? then false else true
    else
      false
  }

  /** The branch on `ns_exists` in `proton_environment_deployment`. A delete
      always reaches `list.remove`, which fails when the name is absent. */
  function Reconcile(namespaces: seq<string>, name: string, action: Action): (r: Result<Plan>)
    ensures r.Err? <==> action.Delete? && name !in namespaces
    ensures r.Err? ==> r.error == NamespaceNotFound
    ensures action.Create? && name !in namespaces ==> r == Ok(Plan(namespaces + [name], Creating))
    ensures action.Create? && name in namespaces ==> r == Ok(Plan(namespaces, Updating))
    ensures action.Delete? && r.Ok? ==>
              r.value.progress == Deleting && IsFirstRemoval(namespaces, name, r.value.namespaces)
  {
    var noChange := ValidateNamespaceExists(name, namespaces, action);
    if action.Create? && !noChange then
      Ok(Plan(namespaces + [name], Creating))
    else if action.Delete? && !noChange then
      match RemoveFirst(namespaces, name)
      case None => Err(NamespaceNotFound)
      case Some(remaining) => Ok(Plan(remaining, Deleting))
    else
      Ok(Plan(namespaces, Updating))
  }

  /** Reconciling a duplicate-free list keeps it duplicate-free; after a
      successful delete the name is no longer listed, after any create it is. */
  lemma ReconcileKeepsNoDup(namespaces: seq<string>, name: string, action: Action)
    requires NoDup(namespaces)
    requires Reconcile(namespaces, name, action).Ok?
    ensures NoDup(Reconcile(namespaces, name, action).value.namespaces)
    ensures action.Create? ==> name in Reconcile(namespaces, name, action).value.namespaces
    ensures action.Delete? ==> name !in Reconcile(namespaces, name, action).value.namespaces
  {
    if action.Create? && name !in namespaces {
      AppendKeepsNoDup(namespaces, name);
    }
  }

  /** A successful delete removes exactly one copy of the name and keeps
      every other name, in order. */
  lemma DeleteRemovesOneCopy(namespaces: seq<string>, name: string)
    requires name in namespaces
    ensures Reconcile(namespaces, name, Delete).Ok?
    ensures |Reconcile(namespaces, name, Delete).value.namespaces| + 1 == |namespaces|
    ensures multiset(Reconcile(namespaces, name, Delete).value.namespaces) + multiset{name}
         == multiset(namespaces)
  {
    FirstRemovalContents(namespaces, name, Reconcile(namespaces, name, Delete).value.namespaces);
  }

  /** Deleting a namespace that was just created restores the original list. */
  lemma DeleteUndoesCreate(namespaces: seq<string>, name: string)
    requires name !in namespaces
    ensures Reconcile(namespaces, name, Create).Ok?
    ensures Reconcile(Reconcile(namespaces, name, Create).value.namespaces, name, Delete)
         == Ok(Plan(namespaces, Deleting))
  {
    RemoveFirstUndoesAppend(namespaces, name);
  }

  /** Creating a namespace that was just deleted from a duplicate-free list
      gives the same names, with that one moved to the end. */
  lemma CreateAfterDeleteMovesToEnd(namespaces: seq<string>, name: string)
    requires NoDup(namespaces) && name in namespaces
    ensures Reconcile(namespaces, name, Delete).Ok?
    ensures Reconcile(Reconcile(namespaces, name, Delete).value.namespaces, name, Create)
         == Ok(Plan(Reconcile(namespaces, name, Delete).value.namespaces + [name], Creating))
    ensures multiset(Reconcile(Reconcile(namespaces, name, Delete).value.namespaces, name, Create).value.namespaces)
         == multiset(namespaces)
  {
    var remaining := Reconcile(namespaces, name, Delete).value.namespaces;
    FirstRemovalKeepsNoDup(namespaces, name, remaining);
    FirstRemovalContents(namespaces, name, remaining);
  }
}
