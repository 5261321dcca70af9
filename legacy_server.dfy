/**
 * The callbacks of the earlier version of the example: the same properties
 * as the later version, but answered from per-lift static arrays through
 * chains of instance comparisons instead of a dictionary of lift objects.
 */
module LegacyServer {
  import opened Bacnet
  import opened LegacyDatabase
  import Text
  import Paging
  import MakingCarCall
  import ElevatorDatabase

  /** The lifts of this version: C, D, E, F and G. */
  predicate IsLift(instance: uint32)
  {
    instance == LIFT_C_INSTANCE || instance == LIFT_D_INSTANCE || instance == LIFT_E_INSTANCE
    || instance == LIFT_F_INSTANCE || instance == LIFT_G_INSTANCE
  }

  /** The car door names a Car_Door_Text read uses: lift G's two, or the one default for any other instance. */
  function CarDoorTextOf(instance: uint32): (texts: seq<string>)
    ensures |texts| == if instance == LIFT_G_INSTANCE then 2 else 1
  {
    if instance == LIFT_G_INSTANCE then LIFT_G_DOOR_TEXT else LIFT_CAR_DOOR_TEXT
  }

  /**
   * Character strings: the object names, Floor_Text and Car_Door_Text. The
   * two text arrays check only the upper bound of the index, so index 0
   * throws; Car_Door_Text does not check the object type.
   */
  function GetPropertyCharString(objectType: ObjectType, instance: uint32, property: PropertyId, maxElementCount: uint32,
                                 useArrayIndex: bool, index: uint32): (r: Answer<(nat, seq<byte>)>)
    ensures r.Value? ==> r.value.0 == |r.value.1| <= maxElementCount
    ensures r.Fault? <==> index == 0 && useArrayIndex && (property == FloorText || property == CarDoorText)
    ensures property == FloorText && useArrayIndex && 0 < index <= |FLOOR_NAMES| ==>
      r == Value(Text.UpdateStringAndReturnSize(maxElementCount, FLOOR_NAMES[index - 1]))
    ensures property == CarDoorText && useArrayIndex && 0 < index <= |CarDoorTextOf(instance)| ==>
      r == Value(Text.UpdateStringAndReturnSize(maxElementCount, CarDoorTextOf(instance)[index - 1]))
    ensures (property == FloorText || property == CarDoorText) && !useArrayIndex ==> r == Declined
    ensures !r.Unwritten?
  {
    if property == ObjectName then
      if objectType == Device && instance == DEVICE_INSTANCE then Text.CopyOut(maxElementCount, DEVICE_NAME)
      else if objectType == ElevatorGroup && instance == ESCALATOR_GROUP_INSTANCE then Text.CopyOut(maxElementCount, ESCALATOR_GROUP_NAME)
      else if objectType == Escalator && instance == ESCALATOR_A_INSTANCE then Text.CopyOut(maxElementCount, ESCALATOR_A_NAME)
      else if objectType == Escalator && instance == ESCALATOR_B_INSTANCE then Text.CopyOut(maxElementCount, ESCALATOR_B_NAME)
      else if objectType == ElevatorGroup && instance == LIFT_GROUP_INSTANCE then Text.CopyOut(maxElementCount, LIFT_GROUP_NAME)
      else if objectType == Lift && instance == LIFT_C_INSTANCE then Text.CopyOut(maxElementCount, LIFT_C_NAME)
      else if objectType == Lift && instance == LIFT_D_INSTANCE then Text.CopyOut(maxElementCount, LIFT_D_NAME)
      else if objectType == Lift && instance == LIFT_E_INSTANCE then Text.CopyOut(maxElementCount, LIFT_E_NAME)
      else if objectType == Lift && instance == LIFT_F_INSTANCE then Text.CopyOut(maxElementCount, LIFT_F_NAME)
      else if objectType == Lift && instance == LIFT_G_INSTANCE then Text.CopyOut(maxElementCount, LIFT_G_NAME)
      else if objectType == Escalator && instance == ESCALATOR_H_INSTANCE then Text.CopyOut(maxElementCount, ESCALATOR_H_NAME)
      else if objectType == PositiveIntegerValue && instance == ESCALATOR_GROUP_MACHINE_ROOM_ID then Text.CopyOut(maxElementCount, MACHINE_ROOM_1_NAME)
      else if objectType == PositiveIntegerValue && instance == LIFT_GROUP_MACHINE_ROOM_ID then Text.CopyOut(maxElementCount, MACHINE_ROOM_2_NAME)
      else Declined
    else if property == FloorText && useArrayIndex then
      if index <= |FLOOR_NAMES| then
        if index == 0 then Fault else Text.CopyOut(maxElementCount, FLOOR_NAMES[index - 1])
      else Declined
    else if property == CarDoorText && useArrayIndex then
      var texts := CarDoorTextOf(instance);
      if index <= |texts| then
        if index == 0 then Fault else Text.CopyOut(maxElementCount, texts[index - 1])
      else Declined
    else Declined
  }

  /**
   * Enumerated values: the group mode, and one car door status and one car
   * moving direction for every lift instance, known or not.
   */
  function GetEnumerated(objectType: ObjectType, instance: uint32, property: PropertyId): (r: Answer<nat>)
    ensures r.Value? <==>
      (objectType == ElevatorGroup && instance == LIFT_GROUP_INSTANCE && property == GroupMode)
      || (objectType == Lift && (property == CarDoorStatus || property == CarMovingDirection))
      || (objectType == Escalator && property == OperationDirection)
    ensures r.Value? || r.Declined?
    ensures r.Value? && objectType == Lift && property == CarDoorStatus ==> r.value < |CAR_DOOR_STATUS_TEXT|
    ensures r.Value? && objectType == Lift && property == CarMovingDirection ==> r.value < |CAR_DIRECTION_TEXT|
  {
    if objectType == ElevatorGroup && instance == LIFT_GROUP_INSTANCE && property == GroupMode then Value(LIFT_GROUP_MODE as nat)
    else if objectType == Lift && property == CarDoorStatus then Value(LIFT_CAR_DOOR_STATUS as nat)
    else if objectType == Lift && property == CarMovingDirection then Value(LIFT_CAR_MOVING_DIRECTION as nat)
    else if objectType == Escalator && property == OperationDirection then Value(ESCALATOR_OPERATION_DIRECTION as nat)
    else Declined
  }

  /** The passenger alarm: set for every escalator, clear for every lift instance. */
  function GetPropertyBool(objectType: ObjectType, instance: uint32, property: PropertyId): (r: Answer<bool>)
    ensures r.Value? <==> property == PassengerAlarm && (objectType == Escalator || objectType == Lift)
    ensures r.Value? ==> (r.value <==> objectType == Escalator)
    ensures r.Value? || r.Declined?
  {
    if property == PassengerAlarm then
      if objectType == Escalator then Value(ESCALATOR_PASSENGER_ALARM)
      else if objectType == Lift then Value(LIFT_PASSENGER_ALARM)
      else Declined
    else Declined
  }

  /**
   * The fixed answers of this version for a lift are the ones the later
   * version gives for a lift object its constructor has just built: door
   * closed, direction none, position 3, passenger alarm off, one door.
   */
  lemma AnswersMatchFreshLift(instance: uint32, objectName: string, installationID: byte, groupID: byte)
    requires IsLift(instance) && instance != LIFT_G_INSTANCE
    ensures var built := ElevatorDatabase.FreshLift(instance, objectName, installationID, groupID);
      GetEnumerated(Lift, instance, CarDoorStatus) == Value(built.carDoorStatus[0] as nat)
      && GetEnumerated(Lift, instance, CarMovingDirection) == Value(built.carMovingDirection as nat)
      && GetPropertyBool(Lift, instance, PassengerAlarm) == Value(built.passengerAlarm)
      && LIFT_CAR_POSITION == built.carPosition
      && |CarDoorTextOf(instance)| == built.DoorCount()
  {
  }

  /** The landing calls of a group are not served: every request answers true with more cleared and no element. */
  function GetListElevatorGroupLandingCall(groupInstance: uint32, position: uint32): (r: Paging.Page<LandingCallStatus>)
    ensures !r.Item?
  {
    Paging.PastEnd
  }

  class Server {
    const database: Database

    predicate Valid()
      reads database
    {
      database.Valid()
    }

    /** The static initialisers, then Setup. */
    constructor()
      ensures Valid() && fresh(database) && fresh(database.CarCallArrays())
      ensures database.Snapshot() == SEEDED
      ensures database.makingCarCallC[..] == [0] && database.makingCarCallD[..] == [0] && database.makingCarCallE[..] == [0]
      ensures database.makingCarCallF[..] == [0] && database.makingCarCallG[..] == [0, 0]
    {
      var created := new Database();
      ghost var before := created.Snapshot();
      created.Setup();
      SetupResultIsFixed(before);
      database := created;
    }

    /** The Making_Car_Call array an instance names, through the chain of instance comparisons. */
    function CarCallArrayOf(instance: uint32): (a: Option<array<byte>>)
      ensures a.Some? <==> IsLift(instance)
      ensures a.Some? ==> a.value in database.CarCallArrays()
      ensures instance == LIFT_G_INSTANCE ==> a == Some(database.makingCarCallG)
    {
      if instance == LIFT_C_INSTANCE then Some(database.makingCarCallC)
      else if instance == LIFT_D_INSTANCE then Some(database.makingCarCallD)
      else if instance == LIFT_E_INSTANCE then Some(database.makingCarCallE)
      else if instance == LIFT_F_INSTANCE then Some(database.makingCarCallF)
      else if instance == LIFT_G_INSTANCE then Some(database.makingCarCallG)
      else None
    }

    /**
     * Unsigned values. The door-count reads answer 2 for lift G and 1 for any
     * other instance. A Making_Car_Call read answers true for every lift
     * request, but writes a value only for a known lift and an index within
     * its array.
     */
    function GetUnsignedInteger(objectType: ObjectType, instance: uint32, property: PropertyId, useArrayIndex: bool, index: uint32): (r: Answer<nat>)
      reads database, database.CarCallArrays()
      ensures objectType == Lift && property == MakingCarCall ==>
        match CarCallArrayOf(instance)
        case None => r == Unwritten
        case Some(a) =>
          (index == 0 ==> r == Value(a.Length))
          && (0 < index <= a.Length ==> r == Value(a[index - 1] as nat))
          && (index > a.Length ==> r == Unwritten)
      ensures objectType == Lift && (property == CarDoorText || property == CarDoorStatus) ==>
        r == Value(if instance == LIFT_G_INSTANCE then 2 else 1)
      ensures objectType == Lift && property == FloorText ==> r == Value(|FLOOR_NAMES|)
      ensures r.Unwritten? ==> objectType == Lift && property == MakingCarCall
      ensures !r.Fault?
    {
      if objectType == Lift && property == FloorText then
        Value(|FLOOR_NAMES|)
      else if objectType == Lift && property == CarDoorText then
        Value(|CarDoorTextOf(instance)|)
      else if objectType == Lift && property == CarDoorStatus then
        Value(|CarDoorTextOf(instance)|)
      else if objectType == Lift && property == CarPosition then
        Value(LIFT_CAR_POSITION as nat)
      else if objectType == Lift && property == MakingCarCall then
        match CarCallArrayOf(instance)
        case None => Unwritten
        case Some(a) =>
          if index == 0 then Value(a.Length)
          else if index <= a.Length then Value(a[index - 1] as nat)
          else Unwritten
      else if objectType == PositiveIntegerValue && instance == ESCALATOR_GROUP_MACHINE_ROOM_ID && property == PresentValue then
        Value(ESCALATOR_GROUP_MACHINE_ROOM_ID as nat)
      else if objectType == PositiveIntegerValue && instance == LIFT_GROUP_MACHINE_ROOM_ID && property == PresentValue then
        Value(LIFT_GROUP_MACHINE_ROOM_ID as nat)
      else if property == GroupId then
        if objectType == ElevatorGroup && instance == LIFT_GROUP_INSTANCE then Value(LIFT_GROUP_ID as nat)
        else if objectType == ElevatorGroup && instance == ESCALATOR_GROUP_INSTANCE then Value(ESCALATOR_GROUP_ID as nat)
        else Declined
      else Declined
    }

    /**
     * Fault_Signals, one element per call: the escalators share one fault
     * set and every lift instance, known or not, reads the one lift fault set.
     */
    method GetListOfEnumerations(objectType: ObjectType, instance: uint32, property: PropertyId, rangeOption: byte, position: uint32)
      returns (r: Answer<Paging.Page<uint32>>)
      ensures r.Declined? <==> !(property == FaultSignals && rangeOption == 0 && (objectType == Escalator || objectType == Lift))
      ensures r.Value? || r.Declined?
      ensures r.Value? && objectType == Escalator ==> r.value == Paging.PageAt(database.escalatorFaults, position)
      ensures r.Value? && objectType == Lift ==> r.value == Paging.PageAt(database.liftFaults, position)
    {
      if property == FaultSignals {
        if objectType == Escalator && rangeOption == 0 {
          var page := Paging.ScanFaultSignals(database.escalatorFaults, position);
          return Value(page);
        } else if objectType == Lift && rangeOption == 0 {
          var page := Paging.ScanFaultSignals(database.liftFaults, position);
          return Value(page);
        }
      }
      return Declined;
    }

    /**
     * Making_Car_Call writes. For a known lift an index that names no door is
     * an invalid array index. Then, for any instance, a floor above the
     * number of floor names is out of range. A known lift then stores the
     * call in place; an unknown lift is not handled.
     */
    method SetUnsignedInteger(objectType: ObjectType, instance: uint32, property: PropertyId, value: uint32,
                              useArrayIndex: bool, index: uint32) returns (r: WriteAnswer)
      requires Valid()
      modifies database.CarCallArrays()
      ensures var handled := property == MakingCarCall && objectType == Lift && useArrayIndex;
              match CarCallArrayOf(instance)
              case Some(a) =>
                (r.Rejected? <==> handled && MakingCarCall.Validate(a.Length, index, value).Some?)
                && (r.Rejected? ==> Some(r.error) == MakingCarCall.Validate(a.Length, index, value))
                && (r.Written? <==> handled && MakingCarCall.Validate(a.Length, index, value).None?)
              case None =>
                r == if handled && value > |FLOOR_NAMES| then Rejected(ValueOutOfRange) else Ignored
      ensures !r.Written? ==> forall b :: b in database.CarCallArrays() ==> b[..] == old(b[..])
      ensures r.Written? ==>
        var target := CarCallArrayOf(instance).value;
        target[..] == MakingCarCall.Store(old(target[..]), index, value)
        && forall b :: b in database.CarCallArrays() && b != target ==> b[..] == old(b[..])
      ensures r.Written? ==> GetUnsignedInteger(Lift, instance, MakingCarCall, useArrayIndex, index) == Value(value)
    {
      if property == MakingCarCall {
        if objectType == Lift {
          if useArrayIndex {
            var target := CarCallArrayOf(instance);
            if target.Some? && (index > target.value.Length || index == 0) {
              return Rejected(InvalidArrayIndex);
            }
            if value > |FLOOR_NAMES| {
              return Rejected(ValueOutOfRange);
            }
            if target.Some? {
              target.value[index - 1] := value;
              return Written;
            }
          }
        }
      }
      return Ignored;
    }

    /**
     * Every per-door size read agrees for every lift of a valid database: the
     * Car_Door_Text, Car_Door_Status and Making_Car_Call sizes are all the
     * number of car doors, 2 for lift G and 1 for the others, and so is the
     * length of each of its list arrays.
     */
    lemma DoorCountsAgree(instance: uint32)
      requires Valid() && IsLift(instance)
      ensures var doors := if instance == LIFT_G_INSTANCE then 2 else 1;
        GetUnsignedInteger(Lift, instance, CarDoorText, false, 0) == Value(doors)
        && GetUnsignedInteger(Lift, instance, CarDoorStatus, false, 0) == Value(doors)
        && GetUnsignedInteger(Lift, instance, MakingCarCall, false, 0) == Value(doors)
        && database.Snapshot().liftC.HasDoors(1) && database.Snapshot().liftG.HasDoors(2)
    {
    }
  }
}
