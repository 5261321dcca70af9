/**
 * The landing-door list a lift starts with: one landing door for every floor
 * of the floor-name table, in floor order, each closed.
 */
module LandingDoors {
  import opened Bacnet

  /** The floors 0 .. floorCount - 1, each with a closed landing door. */
  function ClosedDoors(floorCount: nat): (doors: seq<LandingDoor>)
    requires floorCount <= 0x100
  {
    seq(floorCount, i requires 0 <= i < floorCount => LandingDoor(i, DOOR_STATUS_CLOSED))
  }

  /** Clears a landing-door list and adds a closed door for each floor in turn. */
  method ClosedLandingDoors(floorCount: nat) returns (doors: seq<LandingDoor>)
    requires floorCount <= 0x100
    ensures |doors| == floorCount
    ensures forall f :: 0 <= f < floorCount ==> doors[f].floorNumber == f && doors[f].doorStatus == DOOR_STATUS_CLOSED
    ensures doors == ClosedDoors(floorCount)
  {
    doors := [];
    for i := 0 to floorCount
      invariant |doors| == i
      invariant forall f :: 0 <= f < i ==> doors[f] == LandingDoor(f, DOOR_STATUS_CLOSED)
    {
      doors := doors + [LandingDoor(i, DOOR_STATUS_CLOSED)];
    }
  }
}
