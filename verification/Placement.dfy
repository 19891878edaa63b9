/** Where this process has placed containers: state/placement_cache.py. */
module Placement {
  import opened Wrappers
  import opened Commands

  datatype Spot = Spot(device: string, generation: int)

  type Spots = map<string, Spot>

  function Record(spots: Spots, container: string, device: string, generation: int): Spots {
    if container == "" then spots else spots[container := Spot(device, generation)]
  }

  function Forget(spots: Spots, container: string): Spots { spots - {container} }

  function Lookup(spots: Spots, container: string): Option<Spot> {
    if container in spots then Some(spots[container]) else None
  }

  class PlacementCache {
    var entries: Spots

    constructor ()
      ensures entries == map[]
    {
      entries := map[];
    }

    method Put(container: string, device: string, generation: int)
      modifies this
      ensures entries == Record(old(entries), container, device, generation)
      ensures entries == if container == "" then old(entries) else old(entries)[container := Spot(device, generation)]
    {
      if container == "" {
        return;
      }
      entries := entries[container := Spot(device, generation)];
    }

    method Drop(container: string)
      modifies this
      ensures entries == Forget(old(entries), container)
      ensures entries.Keys == old(entries).Keys - {container} && forall other :: other in entries ==> entries[other] == old(entries)[other]
    {
      entries := entries - {container};
    }

    method Get(container: string) returns (spot: Option<Spot>)
      ensures spot == Lookup(entries, container)
      ensures if container in entries then spot == Some(entries[container]) else spot == None
    {
      spot := if container in entries then Some(entries[container]) else None;
    }
  }

  /** `_update_placement_cache`, for a command whose handler succeeded. */
  function Update(spots: Spots, cmd: Command): Spots {
    if cmd.operation in PLACING then Record(spots, cmd.container, cmd.device, cmd.generation)
    else if cmd.operation in UNPLACING then Forget(spots, cmd.container)
    else spots
  }

  /** The cache after the given commands have succeeded in this order. */
  function Fold(completed: seq<Command>): Spots {
    if completed == [] then map[] else Update(Fold(completed[..|completed| - 1]), completed[|completed| - 1])
  }

  predicate Places(cmd: Command, container: string) {
    (cmd.operation.Create? || cmd.operation.Resume?) && cmd.container == container && container != ""
  }

  predicate Unplaces(cmd: Command, container: string) {
    (cmd.operation.Delete? || cmd.operation.Hibernate?) && cmd.container == container
  }

  /** Command `i` is the last to place or remove the container, and it places it. */
  ghost predicate LastPlacing(completed: seq<Command>, container: string, i: int) {
    && 0 <= i < |completed|
    && Places(completed[i], container)
    && forall j :: i < j < |completed| ==> !Places(completed[j], container) && !Unplaces(completed[j], container)
  }

  /** A lookup answers exactly with the last placing command that no later command has overridden or undone. */
  lemma {:induction false} LookupExactly(completed: seq<Command>, container: string, spot: Spot)
    ensures Lookup(Fold(completed), container) == Some(spot) <==>
            exists i :: LastPlacing(completed, container, i) && spot == Spot(completed[i].device, completed[i].generation)
  {
    if completed != [] {
      var n := |completed| - 1;
      var init, last := completed[..n], completed[n];
      LookupExactly(init, container, spot);
      if Places(last, container) {
        assert LastPlacing(completed, container, n);
      } else if !Unplaces(last, container) {
        forall i | LastPlacing(init, container, i) ensures LastPlacing(completed, container, i) {
        }
        forall i | LastPlacing(completed, container, i) ensures LastPlacing(init, container, i) {
        }
      }
    }
  }
}
