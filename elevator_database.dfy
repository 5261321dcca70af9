/**
 * The lift database of the example: one lift object per lift (a car with one
 * or two doors and per-door arrays of car calls, landing calls and landing
 * doors), a dictionary of lifts keyed by instance, the escalator fault
 * signals, and the lift group's mode, landing call control and landing calls.
 */
module ElevatorDatabase {
  import opened Bacnet
  import LandingDoors
  import MakingCarCall

  /**
   * A lift object. The arrays indexed by car door (carDoorText, carDoorStatus,
   * makingCarCall, registeredCarCalls, assignedLandingCalls, landingDoorStatus)
   * hold one element per door of the car.
   */
  datatype LiftObject = LiftObject(
    instance: uint32,
    objectName: string,
    installationID: byte,
    groupID: byte,
    carDoorText: seq<string>,
    carDoorStatus: seq<uint32>,
    passengerAlarm: bool,
    carMovingDirection: uint32,
    carPosition: byte,
    makingCarCall: seq<byte>,
    registeredCarCalls: seq<seq<byte>>,
    assignedLandingCalls: seq<seq<LandingCall>>,
    landingDoorStatus: seq<seq<LandingDoor>>,
    faultSignals: seq<uint32>)
  {
    function DoorCount(): nat
    {
      |carDoorText|
    }

    /** The car has a door, and every per-door array has one element for each door. */
    predicate DoorsAgree()
    {
      0 < |carDoorText|
      && |carDoorStatus| == |carDoorText|
      && |makingCarCall| == |carDoorText|
      && |registeredCarCalls| == |carDoorText|
      && |assignedLandingCalls| == |carDoorText|
      && |landingDoorStatus| == |carDoorText|
    }

    /**
     * The lift is well formed: its door arrays agree, each counter names an
     * entry of the table that describes it, every car call names a floor, and
     * the fault signals form a set.
     */
    predicate Valid()
    {
      DoorsAgree()
      && carMovingDirection < |CAR_DIRECTION_TEXT|
      && carPosition < |FLOOR_NAMES|
      && (forall d :: 0 <= d < |carDoorStatus| ==> carDoorStatus[d] < |CAR_DOOR_STATUS_TEXT|)
      && MakingCarCall.CallsInRange(makingCarCall)
      && NoDuplicates(faultSignals)
    }

    /**
     * Every registered car call, assigned landing call and landing door names
     * a floor of the floor-name table, and every assigned landing call asks
     * for up, down or up-and-down.
     */
    predicate ServesKnownFloors()
    {
      (forall d, k :: 0 <= d < |registeredCarCalls| && 0 <= k < |registeredCarCalls[d]| ==>
         registeredCarCalls[d][k] < |FLOOR_NAMES|)
      && (forall d, k :: 0 <= d < |assignedLandingCalls| && 0 <= k < |assignedLandingCalls[d]| ==>
            assignedLandingCalls[d][k].floorNumber < |FLOOR_NAMES|
            && assignedLandingCalls[d][k].direction in {LIFT_CAR_DIRECTION_UP, LIFT_CAR_DIRECTION_DOWN, LIFT_CAR_DIRECTION_UP_AND_DOWN})
      && (forall d, k :: 0 <= d < |landingDoorStatus| && 0 <= k < |landingDoorStatus[d]| ==>
            landingDoorStatus[d][k].floorNumber < |FLOOR_NAMES|)
    }
  }

  /**
   * The lift object as its constructor leaves it: one front door, closed, no
   * car call made, registered or assigned, a closed landing door on every
   * floor, direction none, position 3, passenger alarm off, no fault signals.
   */
  function FreshLift(instance: uint32, objectName: string, installationID: byte, groupID: byte): (lift: LiftObject)
    ensures lift.Valid() && lift.ServesKnownFloors()
    ensures lift.instance == instance && lift.objectName == objectName
    ensures lift.DoorCount() == 1
    ensures lift.carDoorStatus == [DOOR_STATUS_CLOSED] && lift.makingCarCall == [0]
    ensures lift.registeredCarCalls == [[]] && lift.assignedLandingCalls == [[]]
    ensures |lift.landingDoorStatus[0]| == |FLOOR_NAMES|
    ensures forall f :: 0 <= f < |FLOOR_NAMES| ==> lift.landingDoorStatus[0][f] == LandingDoor(f, DOOR_STATUS_CLOSED)
    ensures lift.faultSignals == []
    ensures lift.carDoorText == ["Front"] && lift.carMovingDirection == LIFT_CAR_DIRECTION_NONE
    ensures lift.carPosition == 3 && !lift.passengerAlarm
  {
    LiftObject(instance, objectName, installationID, groupID, ["Front"], [DOOR_STATUS_CLOSED], false,
         LIFT_CAR_DIRECTION_NONE, 3, [0], [[]], [[]], [LandingDoors.ClosedDoors(|FLOOR_NAMES|)], [])
  }

  /** The lift object constructor: it sizes the car-door status array by the door texts and closes every door. */
  method NewLiftObject(instance: uint32, objectName: string, installationID: byte, groupID: byte) returns (lift: LiftObject)
    ensures lift == FreshLift(instance, objectName, installationID, groupID)
  {
    var carDoorText := ["Front"];
    var carDoorStatus := new uint32[|carDoorText|];
    for i := 0 to |carDoorText|
      invariant forall d :: 0 <= d < i ==> carDoorStatus[d] == DOOR_STATUS_CLOSED
    {
      carDoorStatus[i] := DOOR_STATUS_CLOSED;
    }
    var landingDoors := LandingDoors.ClosedLandingDoors(|FLOOR_NAMES|);
    lift := LiftObject(instance, objectName, installationID, groupID, carDoorText, carDoorStatus[..], false,
                 LIFT_CAR_DIRECTION_NONE, 3, [0], [[]], [[]], [landingDoors], []);
  }

  /** Lift G as the database rebuilds it: a front and a rear door. */
  function TwoDoorLift(lift: LiftObject): (g: LiftObject)
  {
    lift.(carDoorText := ["Front", "Rear"], makingCarCall := [0, 0], registeredCarCalls := [[], []],
          assignedLandingCalls := [[], []], landingDoorStatus := [[], []],
          carDoorStatus := [DOOR_STATUS_CLOSED, DOOR_STATUS_CLOSED])
  }

  /** Lift C: one door, no calls. */
  function LiftC(): (lift: LiftObject)
    ensures lift.Valid() && lift.ServesKnownFloors()
    ensures lift.instance == LIFT_C_INSTANCE && lift.DoorCount() == 1 && lift.faultSignals == []
  {
    FreshLift(LIFT_C_INSTANCE, "People lifts (C)", 1, 2)
  }

  /** Lift D: one door, one registered and one assigned call, three fault signals. */
  function LiftD(): (lift: LiftObject)
    ensures lift.Valid() && lift.ServesKnownFloors()
    ensures lift.instance == LIFT_D_INSTANCE && lift.DoorCount() == 1 && lift.faultSignals == [1, 9, 14]
  {
    FreshLift(LIFT_D_INSTANCE, "People lifts (D)", 2, 2).(
      faultSignals := [1, 9, 14],
      registeredCarCalls := [[2]],
      assignedLandingCalls := [[LandingCall(2, LIFT_CAR_DIRECTION_UP)]])
  }

  /** Lift E, the top car of a double decker: one door, two registered and two assigned calls. */
  function LiftE(): (lift: LiftObject)
    ensures lift.Valid() && lift.ServesKnownFloors()
    ensures lift.instance == LIFT_E_INSTANCE && lift.DoorCount() == 1 && lift.faultSignals == []
  {
    FreshLift(LIFT_E_INSTANCE, "Top of a double decker People lifts (E)", 3, 2).(
      registeredCarCalls := [[4, 6]],
      assignedLandingCalls := [[LandingCall(4, LIFT_CAR_DIRECTION_UP_AND_DOWN), LandingCall(6, LIFT_CAR_DIRECTION_DOWN)]])
  }

  /** Lift F, the bottom car of a double decker: one door, two registered and two assigned calls. */
  function LiftF(): (lift: LiftObject)
    ensures lift.Valid() && lift.ServesKnownFloors()
    ensures lift.instance == LIFT_F_INSTANCE && lift.DoorCount() == 1 && lift.faultSignals == []
  {
    FreshLift(LIFT_F_INSTANCE, "Bottom of a double decker People lifts (F)", 4, 2).(
      registeredCarCalls := [[3, 5]],
      assignedLandingCalls := [[LandingCall(3, LIFT_CAR_DIRECTION_UP_AND_DOWN), LandingCall(5, LIFT_CAR_DIRECTION_DOWN)]])
  }

  /**
   * Lift G: a front and a rear door, calls on both; the rear door's landing
   * doors are floor 0 closed and floor 7 safety-locked, and the front door's
   * landing-door list is left empty.
   */
  function LiftG(): (lift: LiftObject)
    ensures lift.Valid() && lift.ServesKnownFloors()
    ensures lift.instance == LIFT_G_INSTANCE && lift.DoorCount() == 2 && lift.faultSignals == []
    ensures lift.landingDoorStatus[0] == []
    ensures lift.landingDoorStatus[1] == [LandingDoor(0, DOOR_STATUS_CLOSED), LandingDoor(7, DOOR_STATUS_SAFETY_LOCKED)]
    ensures lift.carDoorText == ["Front", "Rear"] && lift.carDoorStatus == [DOOR_STATUS_CLOSED, DOOR_STATUS_CLOSED]
    ensures lift.makingCarCall == [0, 0] && lift.registeredCarCalls == [[1, 2, 3], [0, 5]]
  {
    TwoDoorLift(FreshLift(LIFT_G_INSTANCE, "People lifts (G)", 1, 3)).(
      registeredCarCalls := [[1, 2, 3], [0, 5]],
      assignedLandingCalls := [[LandingCall(1, LIFT_CAR_DIRECTION_UP),
                                LandingCall(2, LIFT_CAR_DIRECTION_UP_AND_DOWN),
                                LandingCall(3, LIFT_CAR_DIRECTION_DOWN)],
                               [LandingCall(0, LIFT_CAR_DIRECTION_UP),
                                LandingCall(5, LIFT_CAR_DIRECTION_DOWN)]],
      landingDoorStatus := [[], [LandingDoor(0, DOOR_STATUS_CLOSED), LandingDoor(7, DOOR_STATUS_SAFETY_LOCKED)]])
  }

  /** The lifts as the database constructor leaves them, keyed by their instances. */
  function InitialLifts(): map<uint32, LiftObject>
  {
    map[LIFT_C_INSTANCE := LiftC(), LIFT_D_INSTANCE := LiftD(), LIFT_E_INSTANCE := LiftE(),
        LIFT_F_INSTANCE := LiftF(), LIFT_G_INSTANCE := LiftG()]
  }

  /** Every lift of a dictionary is well formed and serves only known floors. */
  predicate AllLiftsValid(lifts: map<uint32, LiftObject>)
  {
    forall k :: k in lifts ==> lifts[k].Valid() && lifts[k].ServesKnownFloors()
  }

  /**
   * Replacing a lift of the dictionary by a well-formed lift keeps every lift
   * well formed and keeps the set of keys.
   */
  lemma ReplaceKeepsAllLiftsValid(lifts: map<uint32, LiftObject>, k: uint32, lift: LiftObject)
    requires AllLiftsValid(lifts) && lift.Valid() && lift.ServesKnownFloors() && k in lifts
    ensures AllLiftsValid(lifts[k := lift])
    ensures lifts[k := lift].Keys == lifts.Keys
  {
  }

  /** Every lift the database starts with is well formed and serves only known floors. */
  lemma InitialLiftsValid()
    ensures AllLiftsValid(InitialLifts())
  {
    InitialLiftsShape();
  }

  /**
   * The initial dictionary holds lifts C to G, each under its own instance,
   * each well formed and serving only known floors; only lift G has two
   * doors and only lift D starts with fault signals.
   */
  lemma InitialLiftsShape()
    ensures forall k :: k in InitialLifts() ==>
      InitialLifts()[k].instance == k && InitialLifts()[k].Valid() && InitialLifts()[k].ServesKnownFloors()
    ensures forall k :: k in InitialLifts() ==> (InitialLifts()[k].DoorCount() == 2 <==> k == LIFT_G_INSTANCE)
    ensures forall k :: k in InitialLifts() ==> (InitialLifts()[k].faultSignals == [] <==> k != LIFT_D_INSTANCE)
  {
    forall k | k in InitialLifts()
      ensures InitialLifts()[k].instance == k && InitialLifts()[k].Valid() && InitialLifts()[k].ServesKnownFloors()
      ensures InitialLifts()[k].DoorCount() == 2 <==> k == LIFT_G_INSTANCE
      ensures InitialLifts()[k].faultSignals == [] <==> k != LIFT_D_INSTANCE
    {
      InitialLiftAt(k);
    }
  }

  /** The initial dictionary's keys are the instances of lifts C to G. */
  lemma InitialLiftKeys()
    ensures InitialLifts().Keys == {LIFT_C_INSTANCE, LIFT_D_INSTANCE, LIFT_E_INSTANCE, LIFT_F_INSTANCE, LIFT_G_INSTANCE}
  {
  }

  /** One entry of the initial dictionary: the lift the constructor stored under that key. */
  lemma InitialLiftAt(k: uint32)
    requires k in InitialLifts()
    ensures InitialLifts()[k].instance == k && InitialLifts()[k].Valid() && InitialLifts()[k].ServesKnownFloors()
    ensures InitialLifts()[k].DoorCount() == 2 <==> k == LIFT_G_INSTANCE
    ensures InitialLifts()[k].faultSignals == [] <==> k != LIFT_D_INSTANCE
  {
    var lift := InitialLifts()[k];
    if k == LIFT_C_INSTANCE {
      assert lift == LiftC();
    } else if k == LIFT_D_INSTANCE {
      assert lift == LiftD();
    } else if k == LIFT_E_INSTANCE {
      assert lift == LiftE();
    } else if k == LIFT_F_INSTANCE {
      assert lift == LiftF();
    } else {
      assert lift == LiftG();
    }
  }

  // The database constructor creates each lift and then clears and fills its
  // lists; the methods below do both for one lift at a time.

  method CreateLiftC() returns (c: LiftObject)
    ensures c == LiftC()
  {
    c := NewLiftObject(LIFT_C_INSTANCE, "People lifts (C)", 1, 2);
    c := c.(registeredCarCalls := c.registeredCarCalls[0 := []]);
    c := c.(assignedLandingCalls := c.assignedLandingCalls[0 := []]);
  }

  method CreateLiftD() returns (d: LiftObject)
    ensures d == LiftD()
  {
    d := NewLiftObject(LIFT_D_INSTANCE, "People lifts (D)", 2, 2);
    d := d.(faultSignals := d.faultSignals + [1] + [9] + [14]);
    d := d.(registeredCarCalls := d.registeredCarCalls[0 := [2]]);
    d := d.(assignedLandingCalls := d.assignedLandingCalls[0 := [LandingCall(2, LIFT_CAR_DIRECTION_UP)]]);
    assert d.faultSignals == [1, 9, 14] && d.registeredCarCalls == [[2]];
  }

  method CreateLiftE() returns (e: LiftObject)
    ensures e == LiftE()
  {
    e := NewLiftObject(LIFT_E_INSTANCE, "Top of a double decker People lifts (E)", 3, 2);
    e := e.(registeredCarCalls := e.registeredCarCalls[0 := [4, 6]]);
    e := e.(assignedLandingCalls := e.assignedLandingCalls[0 := [LandingCall(4, LIFT_CAR_DIRECTION_UP_AND_DOWN),
                                                                LandingCall(6, LIFT_CAR_DIRECTION_DOWN)]]);
    assert e.registeredCarCalls == [[4, 6]];
  }

  method CreateLiftF() returns (f: LiftObject)
    ensures f == LiftF()
  {
    f := NewLiftObject(LIFT_F_INSTANCE, "Bottom of a double decker People lifts (F)", 4, 2);
    f := f.(registeredCarCalls := f.registeredCarCalls[0 := [3, 5]]);
    f := f.(assignedLandingCalls := f.assignedLandingCalls[0 := [LandingCall(3, LIFT_CAR_DIRECTION_UP_AND_DOWN),
                                                                LandingCall(5, LIFT_CAR_DIRECTION_DOWN)]]);
    assert f.registeredCarCalls == [[3, 5]];
  }

  /** Lift G is created with one door, then rebuilt with a front and a rear door before its lists are filled. */
  method CreateLiftG() returns (g: LiftObject)
    ensures g == LiftG()
  {
    g := NewLiftObject(LIFT_G_INSTANCE, "People lifts (G)", 1, 3);
    var doorText := ["Front", "Rear"];
    var doorStatus := new uint32[|doorText|];
    doorStatus[0] := DOOR_STATUS_CLOSED;
    doorStatus[1] := DOOR_STATUS_CLOSED;
    g := g.(carDoorText := doorText, makingCarCall := [0, 0], registeredCarCalls := [[], []],
            assignedLandingCalls := [[], []], landingDoorStatus := [[], []], carDoorStatus := doorStatus[..]);
    assert g == TwoDoorLift(FreshLift(LIFT_G_INSTANCE, "People lifts (G)", 1, 3));
    g := g.(registeredCarCalls := g.registeredCarCalls[0 := [1, 2, 3]][1 := [0, 5]]);
    g := g.(assignedLandingCalls := g.assignedLandingCalls[0 := [LandingCall(1, LIFT_CAR_DIRECTION_UP),
                                                                LandingCall(2, LIFT_CAR_DIRECTION_UP_AND_DOWN),
                                                                LandingCall(3, LIFT_CAR_DIRECTION_DOWN)]]
                                                          [1 := [LandingCall(0, LIFT_CAR_DIRECTION_UP),
                                                                LandingCall(5, LIFT_CAR_DIRECTION_DOWN)]]);
    g := g.(landingDoorStatus := g.landingDoorStatus[1 := [LandingDoor(0, DOOR_STATUS_CLOSED),
                                                             LandingDoor(7, DOOR_STATUS_SAFETY_LOCKED)]]);
    assert g.registeredCarCalls == [[1, 2, 3], [0, 5]];
  }

  /** Fills the dictionary of lifts. */
  method CreateLifts() returns (lifts: map<uint32, LiftObject>)
    ensures lifts == InitialLifts()
  {
    var c := CreateLiftC();
    var d := CreateLiftD();
    var e := CreateLiftE();
    var f := CreateLiftF();
    var g := CreateLiftG();
    lifts := map[LIFT_C_INSTANCE := c, LIFT_D_INSTANCE := d, LIFT_E_INSTANCE := e,
                 LIFT_F_INSTANCE := f, LIFT_G_INSTANCE := g];
  }

  /** The order in which the dictionary of lifts enumerates its keys: the order they were added. */
  const INITIAL_LIFT_ORDER: seq<uint32> := [LIFT_C_INSTANCE, LIFT_D_INSTANCE, LIFT_E_INSTANCE, LIFT_F_INSTANCE, LIFT_G_INSTANCE]

  /** The key enumeration names every initial lift exactly once. */
  lemma InitialLiftOrderListsEveryLift()
    ensures NoDuplicates(INITIAL_LIFT_ORDER)
    ensures forall k :: k in INITIAL_LIFT_ORDER <==> k in InitialLifts()
  {
  }

  class Database {
    /** The dictionary of lift objects, keyed by instance. */
    var lifts: map<uint32, LiftObject>
    /** The keys of the dictionary in enumeration order. */
    var liftOrder: seq<uint32>
    var escalatorFaults: seq<uint32>
    var groupMode: uint32
    var landingCallControl: LandingCallStatus
    var landingCalls: seq<LandingCallStatus>

    /**
     * Every lift is well formed and serves only known floors, the key
     * enumeration lists every key once, and the escalator fault signals form
     * a set.
     */
    ghost predicate Valid()
      reads this
    {
      AllLiftsValid(lifts)
      && 0 < |liftOrder|
      && NoDuplicates(liftOrder)
      && (forall k :: k in liftOrder <==> k in lifts)
      && NoDuplicates(escalatorFaults)
    }

    /** The database constructor. */
    constructor()
      ensures Valid()
      ensures lifts == InitialLifts() && liftOrder == INITIAL_LIFT_ORDER
      ensures escalatorFaults == [2, 7]
      ensures groupMode == 1
      ensures landingCallControl == RESET_LANDING_CALL_CONTROL
      ensures landingCalls == []
    {
      // The group mode and the landing calls are static fields initialised when the class loads.
      groupMode := 1;
      landingCalls := [];

      escalatorFaults := [2, 7];

      var created := CreateLifts();
      lifts := created;
      liftOrder := INITIAL_LIFT_ORDER;
      InitialLiftsValid();
      InitialLiftOrderListsEveryLift();

      landingCallControl := RESET_LANDING_CALL_CONTROL;
    }

    /**
     * Writes a changed lift object back under its key: the dictionary holds
     * the same keys, and nothing else of the database changes.
     */
    method ReplaceLift(key: uint32, lift: LiftObject)
      requires Valid() && key in lifts && lift.Valid() && lift.ServesKnownFloors()
      modifies this
      ensures Valid()
      ensures lifts == old(lifts)[key := lift]
      ensures liftOrder == old(liftOrder) && escalatorFaults == old(escalatorFaults) && groupMode == old(groupMode)
      ensures landingCallControl == old(landingCallControl) && landingCalls == old(landingCalls)
    {
      ReplaceKeepsAllLiftsValid(lifts, key, lift);
      lifts := lifts[key := lift];
    }
  }
}
