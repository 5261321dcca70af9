/**
 * The database of the earlier version of the example: no lift objects and no
 * dictionary, but one set of static per-lift arrays and lists for each of the
 * lifts C to G, a Setup step that seeds the fault sets, the landing call
 * control and the per-door call and landing-door lists, and five
 * Making_Car_Call arrays that writes update in place.
 */
module LegacyDatabase {
  import opened Bacnet
  import LandingDoors

  // Object names of the lifts in this version.
  const LIFT_C_NAME: string := "People Lifter (C)"
  const LIFT_D_NAME: string := "People Lifter (D)"
  const LIFT_E_NAME: string := "Top of a double decker People Lifter (E)"
  const LIFT_F_NAME: string := "Bottom of a double decker People Lifter (F)"
  const LIFT_G_NAME: string := "People Lifter (G)"

  /** The one car door name every lift but G has. */
  const LIFT_CAR_DOOR_TEXT: seq<string> := ["Front"]
  /** Lift G's two car door names. */
  const LIFT_G_DOOR_TEXT: seq<string> := ["Front", "Rear"]
  /** The car position every lift reports. */
  const LIFT_CAR_POSITION: byte := 3
  /** The car door status every lift reports: closed. */
  const LIFT_CAR_DOOR_STATUS: uint32 := DOOR_STATUS_CLOSED
  /** The car moving direction every lift reports: none. */
  const LIFT_CAR_MOVING_DIRECTION: uint32 := LIFT_CAR_DIRECTION_NONE
  /** The passenger alarm every lift reports. */
  const LIFT_PASSENGER_ALARM: bool := false
  /** The lift group's mode: normal, and nothing changes it in this version. */
  const LIFT_GROUP_MODE: uint32 := 1

  /** The three per-door list arrays of one lift: one list per car door. */
  datatype LiftCalls = LiftCalls(registeredCarCalls: seq<seq<byte>>,
                                 assignedLandingCalls: seq<seq<LandingCall>>,
                                 landingDoorStatus: seq<seq<LandingDoor>>)
  {
    /** All three arrays have one list per car door. */
    predicate HasDoors(doors: nat)
    {
      |registeredCarCalls| == doors && |assignedLandingCalls| == doors && |landingDoorStatus| == doors
    }
  }

  /** The list arrays as their static initialisers create them: an empty list for every door. */
  function EmptyCalls(doors: nat): (c: LiftCalls)
    ensures c.HasDoors(doors)
    ensures forall d :: 0 <= d < doors ==>
      c.registeredCarCalls[d] == [] && c.assignedLandingCalls[d] == [] && c.landingDoorStatus[d] == []
  {
    LiftCalls(seq(doors, _ => []), seq(doors, _ => []), seq(doors, _ => []))
  }

  /** Everything Setup assigns: the two fault sets, the landing call control and the lists of each lift. */
  datatype SetupState = SetupState(escalatorFaults: seq<uint32>, liftFaults: seq<uint32>, landingCallControl: LandingCallStatus,
                                   liftC: LiftCalls, liftD: LiftCalls, liftE: LiftCalls, liftF: LiftCalls, liftG: LiftCalls)
  {
    /** Lifts C to F have one car door, lift G two. */
    predicate WellShaped()
    {
      liftC.HasDoors(1) && liftD.HasDoors(1) && liftE.HasDoors(1) && liftF.HasDoors(1) && liftG.HasDoors(2)
    }
  }

  /** Landing doors of floors 0 .. 7, all closed. */
  const CLOSED_LANDING_DOORS: seq<LandingDoor> := LandingDoors.ClosedDoors(8)

  /**
   * What Setup leaves behind. It replaces both fault sets, resets the
   * control, and clears and refills list 0 of every array (and list 1 of
   * lift G's); nothing else of the arrays is touched.
   */
  function AfterSetup(s: SetupState): (t: SetupState)
    requires s.WellShaped()
    ensures t.WellShaped()
    ensures t.escalatorFaults == [2, 7] && t.liftFaults == [1, 9, 14]
    ensures t.landingCallControl == RESET_LANDING_CALL_CONTROL
  {
    SetupState(
      [2, 7],
      [1, 9, 14],
      s.landingCallControl.(floorNumber := 0, floorText := "", commandChoice := Direction, commandValue := LIFT_CAR_DIRECTION_UNKNOWN),
      LiftCalls(s.liftC.registeredCarCalls[0 := []],
                s.liftC.assignedLandingCalls[0 := []],
                s.liftC.landingDoorStatus[0 := CLOSED_LANDING_DOORS]),
      LiftCalls(s.liftD.registeredCarCalls[0 := [2]],
                s.liftD.assignedLandingCalls[0 := [LandingCall(2, LIFT_CAR_DIRECTION_UP)]],
                s.liftD.landingDoorStatus[0 := CLOSED_LANDING_DOORS]),
      LiftCalls(s.liftE.registeredCarCalls[0 := [4, 6]],
                s.liftE.assignedLandingCalls[0 := [LandingCall(4, LIFT_CAR_DIRECTION_UP_AND_DOWN), LandingCall(6, LIFT_CAR_DIRECTION_DOWN)]],
                s.liftE.landingDoorStatus[0 := CLOSED_LANDING_DOORS]),
      LiftCalls(s.liftF.registeredCarCalls[0 := [3, 5]],
                s.liftF.assignedLandingCalls[0 := [LandingCall(3, LIFT_CAR_DIRECTION_UP_AND_DOWN), LandingCall(5, LIFT_CAR_DIRECTION_DOWN)]],
                s.liftF.landingDoorStatus[0 := CLOSED_LANDING_DOORS]),
      LiftCalls(s.liftG.registeredCarCalls[0 := [1, 2, 3]][1 := [0, 5]],
                s.liftG.assignedLandingCalls[0 := [LandingCall(1, LIFT_CAR_DIRECTION_UP), LandingCall(2, LIFT_CAR_DIRECTION_UP_AND_DOWN),
                                                   LandingCall(3, LIFT_CAR_DIRECTION_DOWN)]]
                                            [1 := [LandingCall(0, LIFT_CAR_DIRECTION_UP), LandingCall(5, LIFT_CAR_DIRECTION_DOWN)]],
                s.liftG.landingDoorStatus[0 := CLOSED_LANDING_DOORS]
                                         [1 := [LandingDoor(0, DOOR_STATUS_CLOSED), LandingDoor(7, DOOR_STATUS_SAFETY_LOCKED)]]))
  }

  /** The state every Setup produces, whatever came before. */
  const SEEDED: SetupState := SetupState(
    [2, 7],
    [1, 9, 14],
    RESET_LANDING_CALL_CONTROL,
    LiftCalls([[]], [[]], [CLOSED_LANDING_DOORS]),
    LiftCalls([[2]], [[LandingCall(2, LIFT_CAR_DIRECTION_UP)]], [CLOSED_LANDING_DOORS]),
    LiftCalls([[4, 6]], [[LandingCall(4, LIFT_CAR_DIRECTION_UP_AND_DOWN), LandingCall(6, LIFT_CAR_DIRECTION_DOWN)]], [CLOSED_LANDING_DOORS]),
    LiftCalls([[3, 5]], [[LandingCall(3, LIFT_CAR_DIRECTION_UP_AND_DOWN), LandingCall(5, LIFT_CAR_DIRECTION_DOWN)]], [CLOSED_LANDING_DOORS]),
    LiftCalls([[1, 2, 3], [0, 5]],
              [[LandingCall(1, LIFT_CAR_DIRECTION_UP), LandingCall(2, LIFT_CAR_DIRECTION_UP_AND_DOWN), LandingCall(3, LIFT_CAR_DIRECTION_DOWN)],
               [LandingCall(0, LIFT_CAR_DIRECTION_UP), LandingCall(5, LIFT_CAR_DIRECTION_DOWN)]],
              [CLOSED_LANDING_DOORS, [LandingDoor(0, DOOR_STATUS_CLOSED), LandingDoor(7, DOOR_STATUS_SAFETY_LOCKED)]]))

  /** Every list is cleared before it is filled, so Setup's result does not depend on the lists it found. */
  lemma SetupResultIsFixed(s: SetupState)
    requires s.WellShaped()
    ensures AfterSetup(s) == SEEDED
  {
    var t := AfterSetup(s);
    assert t.liftC == SEEDED.liftC;
    assert t.liftD == SEEDED.liftD;
    assert t.liftE == SEEDED.liftE;
    assert t.liftF == SEEDED.liftF;
    assert t.liftG.registeredCarCalls == SEEDED.liftG.registeredCarCalls;
    assert t.liftG.assignedLandingCalls == SEEDED.liftG.assignedLandingCalls;
    assert t.liftG.landingDoorStatus == SEEDED.liftG.landingDoorStatus;
  }

  /** Running Setup twice gives the same state as running it once. */
  lemma SetupIsIdempotent(s: SetupState)
    requires s.WellShaped()
    ensures AfterSetup(AfterSetup(s)) == AfterSetup(s)
  {
    SetupResultIsFixed(s);
    SetupResultIsFixed(AfterSetup(s));
  }

  /**
   * Every call of a lift's lists names a floor of the floor-name table, and
   * every assigned landing call asks for up, down or up-and-down.
   */
  predicate ServesKnownFloors(l: LiftCalls)
  {
    (forall d, k :: 0 <= d < |l.registeredCarCalls| && 0 <= k < |l.registeredCarCalls[d]| ==>
       l.registeredCarCalls[d][k] < |FLOOR_NAMES|)
    && (forall d, k :: 0 <= d < |l.assignedLandingCalls| && 0 <= k < |l.assignedLandingCalls[d]| ==>
          l.assignedLandingCalls[d][k].floorNumber < |FLOOR_NAMES|
          && l.assignedLandingCalls[d][k].direction in {LIFT_CAR_DIRECTION_UP, LIFT_CAR_DIRECTION_DOWN, LIFT_CAR_DIRECTION_UP_AND_DOWN})
  }

  /** After Setup every lift serves only known floors, and the fault sets hold no value twice. */
  lemma SeededCallsServeKnownFloors()
    ensures ServesKnownFloors(SEEDED.liftC) && ServesKnownFloors(SEEDED.liftD) && ServesKnownFloors(SEEDED.liftE)
    ensures ServesKnownFloors(SEEDED.liftF) && ServesKnownFloors(SEEDED.liftG)
    ensures NoDuplicates(SEEDED.escalatorFaults) && NoDuplicates(SEEDED.liftFaults)
  {
  }

  /**
   * Clears the list of one door and adds the given items to it one at a
   * time; the lists of the other doors are left alone.
   */
  method Refill<T>(lists: seq<seq<T>>, door: nat, items: seq<T>) returns (r: seq<seq<T>>)
    requires door < |lists|
    ensures r == lists[door := items]
  {
    r := lists[door := []];
    for i := 0 to |items|
      invariant r == lists[door := items[..i]]
    {
      assert items[..i + 1] == items[..i] + [items[i]];
      r := r[door := r[door] + [items[i]]];
    }
    assert items[..|items|] == items;
  }

  class Database {
    var escalatorFaults: seq<uint32>
    /** One fault set shared by all lifts. */
    var liftFaults: seq<uint32>
    var landingCallControl: LandingCallStatus
    var liftC: LiftCalls
    var liftD: LiftCalls
    var liftE: LiftCalls
    var liftF: LiftCalls
    var liftG: LiftCalls
    const makingCarCallC: array<byte>
    const makingCarCallD: array<byte>
    const makingCarCallE: array<byte>
    const makingCarCallF: array<byte>
    const makingCarCallG: array<byte>

    /** The five Making_Car_Call arrays, the only state a property write changes. */
    function CarCallArrays(): set<array<byte>>
    {
      {makingCarCallC, makingCarCallD, makingCarCallE, makingCarCallF, makingCarCallG}
    }

    /** The state Setup assigns. */
    function Snapshot(): SetupState
      reads this
    {
      SetupState(escalatorFaults, liftFaults, landingCallControl, liftC, liftD, liftE, liftF, liftG)
    }

    /**
     * Per-door arrays agree for every lift: one door for C to F and two for
     * G, across the Making_Car_Call array and the three list arrays; the five
     * Making_Car_Call arrays are five different arrays.
     */
    predicate Valid()
      reads this
    {
      Snapshot().WellShaped()
      && makingCarCallC.Length == 1 && makingCarCallD.Length == 1 && makingCarCallE.Length == 1
      && makingCarCallF.Length == 1 && makingCarCallG.Length == 2
      && makingCarCallC != makingCarCallD && makingCarCallC != makingCarCallE && makingCarCallC != makingCarCallF
      && makingCarCallC != makingCarCallG && makingCarCallD != makingCarCallE && makingCarCallD != makingCarCallF
      && makingCarCallD != makingCarCallG && makingCarCallE != makingCarCallF && makingCarCallE != makingCarCallG
      && makingCarCallF != makingCarCallG
    }

    /**
     * The static initialisers: every Making_Car_Call array holds zeros, every
     * list is empty, the control is the default record, and the fault sets
     * are empty until Setup creates them.
     */
    constructor()
      ensures Valid()
      ensures fresh(CarCallArrays())
      ensures makingCarCallC[..] == [0] && makingCarCallD[..] == [0] && makingCarCallE[..] == [0]
      ensures makingCarCallF[..] == [0] && makingCarCallG[..] == [0, 0]
      ensures liftC == EmptyCalls(1) && liftD == EmptyCalls(1) && liftE == EmptyCalls(1) && liftF == EmptyCalls(1)
      ensures liftG == EmptyCalls(2)
      ensures escalatorFaults == [] && liftFaults == []
      ensures landingCallControl == LandingCallStatus(0, Direction, 0, "")
    {
      makingCarCallC := new byte[] [0];
      makingCarCallD := new byte[] [0];
      makingCarCallE := new byte[] [0];
      makingCarCallF := new byte[] [0];
      makingCarCallG := new byte[] [0, 0];
      liftC := EmptyCalls(1);
      liftD := EmptyCalls(1);
      liftE := EmptyCalls(1);
      liftF := EmptyCalls(1);
      liftG := EmptyCalls(2);
      escalatorFaults := [];
      liftFaults := [];
      landingCallControl := LandingCallStatus(0, Direction, 0, "");
    }

    /** Seeds the database: see AfterSetup for the state it leaves. */
    method Setup()
      requires Valid()
      modifies this
      ensures Valid()
      ensures Snapshot() == AfterSetup(old(Snapshot()))
    {
      escalatorFaults := [];
      escalatorFaults := escalatorFaults + [2];
      escalatorFaults := escalatorFaults + [7];

      liftFaults := [];
      liftFaults := liftFaults + [1];
      liftFaults := liftFaults + [9];
      liftFaults := liftFaults + [14];

      landingCallControl := landingCallControl.(floorNumber := 0);
      landingCallControl := landingCallControl.(floorText := "");
      landingCallControl := landingCallControl.(commandChoice := Direction);
      landingCallControl := landingCallControl.(commandValue := LIFT_CAR_DIRECTION_UNKNOWN);

      SeedRegisteredCarCalls();
      SeedAssignedLandingCalls();
      SeedLandingDoors();
    }

    /** Registered car calls: C none, D one, E and F two, G three at the front and two at the rear. */
    method SeedRegisteredCarCalls()
      requires Valid()
      modifies this
      ensures Valid()
      ensures escalatorFaults == old(escalatorFaults) && liftFaults == old(liftFaults)
      ensures landingCallControl == old(landingCallControl)
      ensures liftC == old(liftC).(registeredCarCalls := old(liftC.registeredCarCalls)[0 := []])
      ensures liftD == old(liftD).(registeredCarCalls := old(liftD.registeredCarCalls)[0 := [2]])
      ensures liftE == old(liftE).(registeredCarCalls := old(liftE.registeredCarCalls)[0 := [4, 6]])
      ensures liftF == old(liftF).(registeredCarCalls := old(liftF.registeredCarCalls)[0 := [3, 5]])
      ensures liftG == old(liftG).(registeredCarCalls := old(liftG.registeredCarCalls)[0 := [1, 2, 3]][1 := [0, 5]])
    {
      var lists := Refill(liftC.registeredCarCalls, 0, []);
      liftC := liftC.(registeredCarCalls := lists);
      lists := Refill(liftD.registeredCarCalls, 0, [2]);
      liftD := liftD.(registeredCarCalls := lists);
      lists := Refill(liftE.registeredCarCalls, 0, [4, 6]);
      liftE := liftE.(registeredCarCalls := lists);
      lists := Refill(liftF.registeredCarCalls, 0, [3, 5]);
      liftF := liftF.(registeredCarCalls := lists);
      lists := Refill(liftG.registeredCarCalls, 0, [1, 2, 3]);
      lists := Refill(lists, 1, [0, 5]);
      liftG := liftG.(registeredCarCalls := lists);
    }

    /** Assigned landing calls, with the same floors as the registered car calls. */
    method SeedAssignedLandingCalls()
      requires Valid()
      modifies this
      ensures Valid()
      ensures escalatorFaults == old(escalatorFaults) && liftFaults == old(liftFaults)
      ensures landingCallControl == old(landingCallControl)
      ensures liftC == old(liftC).(assignedLandingCalls := old(liftC.assignedLandingCalls)[0 := []])
      ensures liftD == old(liftD).(assignedLandingCalls := old(liftD.assignedLandingCalls)[0 := [LandingCall(2, LIFT_CAR_DIRECTION_UP)]])
      ensures liftE == old(liftE).(assignedLandingCalls := old(liftE.assignedLandingCalls)
                                     [0 := [LandingCall(4, LIFT_CAR_DIRECTION_UP_AND_DOWN), LandingCall(6, LIFT_CAR_DIRECTION_DOWN)]])
      ensures liftF == old(liftF).(assignedLandingCalls := old(liftF.assignedLandingCalls)
                                     [0 := [LandingCall(3, LIFT_CAR_DIRECTION_UP_AND_DOWN), LandingCall(5, LIFT_CAR_DIRECTION_DOWN)]])
      ensures liftG == old(liftG).(assignedLandingCalls := old(liftG.assignedLandingCalls)
                                     [0 := [LandingCall(1, LIFT_CAR_DIRECTION_UP), LandingCall(2, LIFT_CAR_DIRECTION_UP_AND_DOWN),
                                            LandingCall(3, LIFT_CAR_DIRECTION_DOWN)]]
                                     [1 := [LandingCall(0, LIFT_CAR_DIRECTION_UP), LandingCall(5, LIFT_CAR_DIRECTION_DOWN)]])
    {
      var lists := Refill(liftC.assignedLandingCalls, 0, []);
      liftC := liftC.(assignedLandingCalls := lists);
      lists := Refill(liftD.assignedLandingCalls, 0, [LandingCall(2, LIFT_CAR_DIRECTION_UP)]);
      liftD := liftD.(assignedLandingCalls := lists);
      lists := Refill(liftE.assignedLandingCalls, 0, [LandingCall(4, LIFT_CAR_DIRECTION_UP_AND_DOWN), LandingCall(6, LIFT_CAR_DIRECTION_DOWN)]);
      liftE := liftE.(assignedLandingCalls := lists);
      lists := Refill(liftF.assignedLandingCalls, 0, [LandingCall(3, LIFT_CAR_DIRECTION_UP_AND_DOWN), LandingCall(5, LIFT_CAR_DIRECTION_DOWN)]);
      liftF := liftF.(assignedLandingCalls := lists);
      lists := Refill(liftG.assignedLandingCalls, 0,
                      [LandingCall(1, LIFT_CAR_DIRECTION_UP), LandingCall(2, LIFT_CAR_DIRECTION_UP_AND_DOWN), LandingCall(3, LIFT_CAR_DIRECTION_DOWN)]);
      lists := Refill(lists, 1, [LandingCall(0, LIFT_CAR_DIRECTION_UP), LandingCall(5, LIFT_CAR_DIRECTION_DOWN)]);
      liftG := liftG.(assignedLandingCalls := lists);
    }

    /** Landing doors: floors 0 .. 7 closed for every lift's first door; lift G's rear door serves floor 0 and floor 7. */
    method SeedLandingDoors()
      requires Valid()
      modifies this
      ensures Valid()
      ensures escalatorFaults == old(escalatorFaults) && liftFaults == old(liftFaults)
      ensures landingCallControl == old(landingCallControl)
      ensures liftC == old(liftC).(landingDoorStatus := old(liftC.landingDoorStatus)[0 := CLOSED_LANDING_DOORS])
      ensures liftD == old(liftD).(landingDoorStatus := old(liftD.landingDoorStatus)[0 := CLOSED_LANDING_DOORS])
      ensures liftE == old(liftE).(landingDoorStatus := old(liftE.landingDoorStatus)[0 := CLOSED_LANDING_DOORS])
      ensures liftF == old(liftF).(landingDoorStatus := old(liftF.landingDoorStatus)[0 := CLOSED_LANDING_DOORS])
      ensures liftG == old(liftG).(landingDoorStatus := old(liftG.landingDoorStatus)[0 := CLOSED_LANDING_DOORS]
                                     [1 := [LandingDoor(0, DOOR_STATUS_CLOSED), LandingDoor(7, DOOR_STATUS_SAFETY_LOCKED)]])
    {
      var doors := LandingDoors.ClosedLandingDoors(8);
      liftC := liftC.(landingDoorStatus := liftC.landingDoorStatus[0 := doors]);
      doors := LandingDoors.ClosedLandingDoors(8);
      liftD := liftD.(landingDoorStatus := liftD.landingDoorStatus[0 := doors]);
      doors := LandingDoors.ClosedLandingDoors(8);
      liftE := liftE.(landingDoorStatus := liftE.landingDoorStatus[0 := doors]);
      doors := LandingDoors.ClosedLandingDoors(8);
      liftF := liftF.(landingDoorStatus := liftF.landingDoorStatus[0 := doors]);
      doors := LandingDoors.ClosedLandingDoors(8);
      var lists := liftG.landingDoorStatus[0 := doors];
      lists := Refill(lists, 1, [LandingDoor(0, DOOR_STATUS_CLOSED), LandingDoor(7, DOOR_STATUS_SAFETY_LOCKED)]);
      liftG := liftG.(landingDoorStatus := lists);
    }
  }
}
