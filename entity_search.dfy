/**
 * The searches the controller makes over the nearby-entity detector lists:
 * the activate and pick-up keys act on the first ready entity in list order,
 * and the on-screen buttons are shown when any entity is ready.
 */
module EntitySearch {
  import opened ControlTypes

  /** The position of the first ready entity, in detector order. */
  function FirstReady(ready: seq<bool>): (r: Option<nat>)
    ensures r.Some? ==> r.value < |ready| && ready[r.value]
    ensures r.Some? ==> forall j :: 0 <= j < r.value ==> !ready[j]
    ensures r.None? <==> forall j :: 0 <= j < |ready| ==> !ready[j]
  {
    if ready == [] then None
    else if ready[0] then Some(0)
    else
      match FirstReady(ready[1..])
      case None => None
      case Some(k) => Some(k + 1)
  }

  /** A ready entity with no ready entity before it is the one `FirstReady` finds. */
  lemma FirstReadyUnique(ready: seq<bool>, i: nat)
    requires i < |ready| && ready[i]
    requires forall j :: 0 <= j < i ==> !ready[j]
    ensures FirstReady(ready) == Some(i)
  {
  }

  /**
   * The activate / pick-up loop: walk the list and stop at the first entity
   * whose readiness query holds.
   */
  method FindFirstReady(ready: seq<bool>) returns (found: Option<nat>)
    ensures found == FirstReady(ready)
  {
    found := None;
    var i := 0;
    while i < |ready|
      invariant 0 <= i <= |ready|
      invariant found == None
      invariant forall j :: 0 <= j < i ==> !ready[j]
    {
      if ready[i] {
        found := Some(i);
        break;
      }
      i := i + 1;
    }
    if found.Some? {
      FirstReadyUnique(ready, i);
    }
  }

  /** The should-show-button loop: return true at the first ready entity, false after the list. */
  method AnyReady(ready: seq<bool>) returns (show: bool)
    ensures show <==> exists i :: 0 <= i < |ready| && ready[i]
    ensures show <==> FirstReady(ready).Some?
  {
    for i := 0 to |ready|
      invariant forall j :: 0 <= j < i ==> !ready[j]
    {
      if ready[i] {
        return true;
      }
    }
    return false;
  }
}
