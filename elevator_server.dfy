/**
 * The BACnet server of the example: the callbacks through which the stack
 * reads and writes the properties of the lift database, and the console keys
 * that change the selected lift, the group mode and the simulated state of a
 * lift.
 */
module ElevatorServer {
  import opened Bacnet
  import opened ElevatorDatabase
  import Text
  import Paging
  import MakingCarCall
  import Console

  /** The console keys the server acts on; every other key is OtherKey. */
  datatype Key = LeftArrow | RightArrow | KeyF | KeyM | KeyP | KeyD | KeyC | KeyS | KeyG | KeyQ | OtherKey

  /** The command a landing call status callback writes out, if any. */
  datatype CommandReply = DirectionReply(direction: byte) | DestinationReply(destination: byte) | NoCommand

  /**
   * The out-parameters of the landing call status callback when it returns
   * true: the floor, the command, the copied floor text when the use-floor-text
   * flag is set, and the more flag.
   */
  datatype LandingCallReply = LandingCallReply(floorNumber: byte, command: CommandReply, floorText: Option<seq<byte>>, more: bool)

  /**
   * What the landing call status callback hands back: a reply (true), false
   * with the more flag cleared, false alone, or the exception a byte
   * conversion of an out-of-range number throws.
   */
  datatype LandingCallAnswer = Reply(reply: LandingCallReply) | PastEndMoreCleared | NoReply | ConversionFault

  /**
   * Writes one landing call status out. A destination is written as a
   * destination. A direction is written only when the group's landing call
   * control (gate) also holds a direction; otherwise no command is written.
   * The number written is converted to a byte with an overflow check, so a
   * value above 255 throws. A non-empty floor text is copied and flagged.
   */
  function DescribeLandingCall(status: LandingCallStatus, gate: Command, floorTextMaxLength: uint16, more: bool): (r: LandingCallAnswer)
    ensures r.ConversionFault? <==> (status.commandChoice == Destination || gate == Direction) && status.commandValue > 0xFF
    ensures r.Reply? || r.ConversionFault?
    ensures r.Reply? ==> r.reply.floorNumber == status.floorNumber && r.reply.more == more
    ensures r.Reply? ==> (r.reply.command.DestinationReply? <==> status.commandChoice == Destination)
    ensures r.Reply? ==> (r.reply.command.DirectionReply? <==> status.commandChoice == Direction && gate == Direction)
    ensures r.Reply? && !r.reply.command.NoCommand? ==>
      (if r.reply.command.DestinationReply? then r.reply.command.destination else r.reply.command.direction) == status.commandValue
    ensures r.Reply? ==> (r.reply.floorText.Some? <==> status.floorText != [])
    ensures r.Reply? && r.reply.floorText.Some? ==>
      |r.reply.floorText.value| <= floorTextMaxLength && r.reply.floorText.value <= Text.AsciiBytes(status.floorText)
  {
    var text := if |status.floorText| > 0 then Some(Text.UpdateStringAndReturnSize(floorTextMaxLength, status.floorText).1) else None;
    match status.commandChoice
    case Destination =>
      if status.commandValue <= 0xFF then Reply(LandingCallReply(status.floorNumber, DestinationReply(status.commandValue), text, more))
      else ConversionFault
    case Direction =>
      if gate.Destination? then Reply(LandingCallReply(status.floorNumber, NoCommand, text, more))
      else if status.commandValue <= 0xFF then Reply(LandingCallReply(status.floorNumber, DirectionReply(status.commandValue), text, more))
      else ConversionFault
  }

  /**
   * The landing call control after a write: the floor, the text when the
   * use-floor-text flag is set (empty otherwise), and the destination when the
   * command choice is the destination's code, the direction otherwise.
   */
  function ControlWritten(floorNumber: byte, commandChoice: byte, direction: uint32, destination: byte, useFloorText: bool, floorText: string): (c: LandingCallStatus)
    ensures c.floorNumber == floorNumber
    ensures c.floorText == (if useFloorText then floorText else "")
    ensures c.commandChoice == Destination <==> commandChoice == CommandCode(Destination)
    ensures c.commandValue == if c.commandChoice == Destination then destination else direction
  {
    var text := if useFloorText then floorText else "";
    if commandChoice == CommandCode(Destination) then LandingCallStatus(floorNumber, Destination, destination, text)
    else LandingCallStatus(floorNumber, Direction, direction, text)
  }

  /**
   * Reading the landing call control back after a write gives the floor and
   * the command written: the destination for the destination code, the
   * direction for any other code when it fits a byte, and the exception of
   * the byte conversion when it does not. The floor text comes back exactly
   * when it was flagged and non-empty, and an ASCII text that fits the buffer
   * comes back whole.
   */
  lemma ControlRoundTrip(floorNumber: byte, commandChoice: byte, direction: uint32, destination: byte,
                         useFloorText: bool, floorText: string, floorTextMaxLength: uint16)
    ensures var c := ControlWritten(floorNumber, commandChoice, direction, destination, useFloorText, floorText);
            var r := DescribeLandingCall(c, c.commandChoice, floorTextMaxLength, false);
            (r.ConversionFault? <==> commandChoice != CommandCode(Destination) && direction > 0xFF)
            && (r.Reply? ==>
                  r.reply.floorNumber == floorNumber
                  && !r.reply.more
                  && r.reply.command == (if commandChoice == CommandCode(Destination) then DestinationReply(destination)
                                         else DirectionReply(direction))
                  && (r.reply.floorText.Some? <==> useFloorText && floorText != [])
                  && (r.reply.floorText.Some? && Text.IsAscii(floorText) && |floorText| <= floorTextMaxLength ==>
                        Text.AsciiString(r.reply.floorText.value) == floorText))
  {
    var c := ControlWritten(floorNumber, commandChoice, direction, destination, useFloorText, floorText);
    var r := DescribeLandingCall(c, c.commandChoice, floorTextMaxLength, false);
    if r.Reply? && r.reply.floorText.Some? && Text.IsAscii(floorText) && |floorText| <= floorTextMaxLength {
      Text.StringThatFitsArrivesWhole(floorTextMaxLength, floorText);
    }
  }

  /**
   * The Landing_Calls read by position: a position past the end clears more
   * and declines; an empty list declines; otherwise the callback walks the
   * list with a counter and writes the status at the position out, with more
   * set while it is not the last. The position equal to the length finds no
   * status and declines.
   */
  method ScanLandingCalls(calls: seq<LandingCallStatus>, gate: Command, position: uint32, floorTextMaxLength: uint16)
    returns (r: LandingCallAnswer)
    ensures position > |calls| ==> r == PastEndMoreCleared
    ensures position == |calls| ==> r == NoReply
    ensures position < |calls| ==> r == DescribeLandingCall(calls[position], gate, floorTextMaxLength, position + 1 < |calls|)
  {
    if position > |calls| {
      return PastEndMoreCleared;
    } else if |calls| == 0 {
      return NoReply;
    }
    var count := 0;
    while count < |calls|
      invariant count <= |calls| && count <= position
    {
      var status := calls[count];
      if position == count {
        return DescribeLandingCall(status, gate, floorTextMaxLength, |calls| > count + 1);
      }
      count := count + 1;
    }
    return NoReply;
  }

  /** Index 0 of the car door status array reads its size, an index naming a door reads that door's status; a larger index throws. */
  function CarDoorStatusRead(statuses: seq<uint32>, index: uint32): (r: Answer<nat>)
    ensures r.Fault? <==> index > |statuses|
    ensures index == 0 ==> r == Value(|statuses|)
    ensures 0 < index <= |statuses| ==> r == Value(statuses[index - 1] as nat)
  {
    if index == 0 then Value(|statuses|)
    else if index <= |statuses| then Value(statuses[index - 1] as nat)
    else Fault
  }

  /**
   * The lift selected on the console after a key press: the passenger alarm
   * toggles, the car direction, car position and first car door status
   * advance around their tables, and the fault signal toggles in the
   * fault-signal set.
   */
  function KeyEffect(key: Key, lift: LiftObject, faultSignal: uint32): (r: LiftObject)
    requires lift.Valid()
    ensures r.Valid()
    ensures lift.ServesKnownFloors() ==> r.ServesKnownFloors()
    ensures r.instance == lift.instance && r.objectName == lift.objectName && r.carDoorText == lift.carDoorText
    ensures r.makingCarCall == lift.makingCarCall
    ensures key !in {KeyF, KeyP, KeyD, KeyC, KeyS} ==> r == lift
  {
    match key
    case KeyF =>
      Console.ToggleFaultKeepsSet(lift.faultSignals, faultSignal);
      lift.(faultSignals := Console.ToggleFault(lift.faultSignals, faultSignal))
    case KeyP =>
      lift.(passengerAlarm := !lift.passengerAlarm)
    case KeyD =>
      lift.(carMovingDirection := Console.NextInCycle(lift.carMovingDirection, UINT32_WIDTH, |CAR_DIRECTION_TEXT|))
    case KeyC =>
      lift.(carPosition := Console.NextInCycle(lift.carPosition, BYTE_WIDTH, |FLOOR_NAMES|))
    case KeyS =>
      lift.(carDoorStatus := lift.carDoorStatus[0 := Console.NextInCycle(lift.carDoorStatus[0], UINT32_WIDTH, |CAR_DOOR_STATUS_TEXT|)])
    case _ => lift
  }

  /** The effect of a key on the selected lift, one field at a time. */
  method PressOnLift(key: Key, lift: LiftObject, faultSignal: uint32) returns (updated: LiftObject)
    requires lift.Valid()
    ensures updated == KeyEffect(key, lift, faultSignal)
  {
    updated := lift;
    match key {
      case KeyF =>
        if faultSignal in updated.faultSignals {
          updated := updated.(faultSignals := Console.Without(updated.faultSignals, faultSignal));
        } else {
          updated := updated.(faultSignals := updated.faultSignals + [faultSignal]);
        }
      case KeyP =>
        updated := updated.(passengerAlarm := !updated.passengerAlarm);
      case KeyD =>
        var direction := (updated.carMovingDirection + 1) % UINT32_WIDTH;
        if direction >= |CAR_DIRECTION_TEXT| {
          direction := 0;
        }
        updated := updated.(carMovingDirection := direction);
      case KeyC =>
        var position := (updated.carPosition + 1) % BYTE_WIDTH;
        if position >= |FLOOR_NAMES| {
          position := 0;
        }
        updated := updated.(carPosition := position);
      case KeyS =>
        var status := (updated.carDoorStatus[0] + 1) % UINT32_WIDTH;
        if status >= |CAR_DOOR_STATUS_TEXT| {
          status := 0;
        }
        updated := updated.(carDoorStatus := updated.carDoorStatus[0 := status]);
      case _ =>
    }
  }

  class Server {
    const database: Database
    /** The index, in the dictionary's key order, of the lift the console keys act on. */
    var selectedLift: int

    ghost predicate Valid()
      reads this, database
    {
      database.Valid() && 0 <= selectedLift < |database.liftOrder|
    }

    constructor()
      ensures Valid() && fresh(database)
      ensures selectedLift == 0
      ensures database.lifts == InitialLifts() && database.liftOrder == INITIAL_LIFT_ORDER
      ensures database.escalatorFaults == [2, 7] && database.groupMode == 1
      ensures database.landingCallControl == RESET_LANDING_CALL_CONTROL && database.landingCalls == []
    {
      database := new Database();
      selectedLift := 0;
    }

    /**
     * Character strings: the object names, the floor names of Floor_Text and
     * the door names of Car_Door_Text. Array index 0 of the two text arrays is
     * not guarded and throws.
     */
    function GetPropertyCharString(objectType: ObjectType, instance: uint32, property: PropertyId, maxElementCount: uint32,
                                   useArrayIndex: bool, index: uint32): (r: Answer<(nat, seq<byte>)>)
      reads database
      ensures r.Value? ==> r.value.0 == |r.value.1| <= maxElementCount
      ensures r.Fault? <==>
        index == 0 && useArrayIndex
        && (property == FloorText || (property == CarDoorText && objectType == Lift && instance in database.lifts))
      ensures !r.Unwritten?
    {
      if property == ObjectName then
        if objectType == Device && instance == DEVICE_INSTANCE then Text.CopyOut(maxElementCount, DEVICE_NAME)
        else if objectType == ElevatorGroup && instance == ESCALATOR_GROUP_INSTANCE then Text.CopyOut(maxElementCount, ESCALATOR_GROUP_NAME)
        else if objectType == Escalator && instance == ESCALATOR_A_INSTANCE then Text.CopyOut(maxElementCount, ESCALATOR_A_NAME)
        else if objectType == Escalator && instance == ESCALATOR_B_INSTANCE then Text.CopyOut(maxElementCount, ESCALATOR_B_NAME)
        else if objectType == ElevatorGroup && instance == LIFT_GROUP_INSTANCE then Text.CopyOut(maxElementCount, LIFT_GROUP_NAME)
        else if objectType == Lift && instance in database.lifts then Text.CopyOut(maxElementCount, database.lifts[instance].objectName)
        else if objectType == Escalator && instance == ESCALATOR_H_INSTANCE then Text.CopyOut(maxElementCount, ESCALATOR_H_NAME)
        else if objectType == PositiveIntegerValue && instance == ESCALATOR_GROUP_MACHINE_ROOM_ID then Text.CopyOut(maxElementCount, MACHINE_ROOM_1_NAME)
        else if objectType == PositiveIntegerValue && instance == LIFT_GROUP_MACHINE_ROOM_ID then Text.CopyOut(maxElementCount, MACHINE_ROOM_2_NAME)
        else Declined
      else if property == FloorText && useArrayIndex then
        if index <= |FLOOR_NAMES| then
          if index == 0 then Fault else Text.CopyOut(maxElementCount, FLOOR_NAMES[index - 1])
        else Declined
      else if property == CarDoorText && useArrayIndex && objectType == Lift && instance in database.lifts then
        var texts := database.lifts[instance].carDoorText;
        if index <= |texts| then
          if index == 0 then Fault else Text.CopyOut(maxElementCount, texts[index - 1])
        else Declined
      else Declined
    }

    /** Enumerated values: the group mode, the car door status, the car moving direction and the escalator direction. */
    function GetEnumerated(objectType: ObjectType, instance: uint32, property: PropertyId, useArrayIndex: bool, index: uint32): (r: Answer<nat>)
      reads database
      ensures r.Fault? <==>
        objectType == Lift && property == CarDoorStatus && useArrayIndex && instance in database.lifts
        && index > |database.lifts[instance].carDoorStatus|
      ensures !r.Unwritten?
      ensures objectType == ElevatorGroup && instance == LIFT_GROUP_INSTANCE && property == GroupMode ==>
        r == Value(database.groupMode as nat)
      ensures objectType == Lift && property == CarMovingDirection ==>
        r == if instance in database.lifts then Value(database.lifts[instance].carMovingDirection as nat) else Declined
      ensures objectType == Lift && property == CarDoorStatus && instance in database.lifts && useArrayIndex ==>
        r == CarDoorStatusRead(database.lifts[instance].carDoorStatus, index)
      ensures objectType == Escalator && property == OperationDirection ==> r == Value(ESCALATOR_OPERATION_DIRECTION as nat)
    {
      if objectType == ElevatorGroup && instance == LIFT_GROUP_INSTANCE && property == GroupMode then
        Value(database.groupMode as nat)
      else if objectType == Lift && property == CarDoorStatus && instance in database.lifts && useArrayIndex then
        CarDoorStatusRead(database.lifts[instance].carDoorStatus, index)
      else if objectType == Lift && property == CarMovingDirection && instance in database.lifts then
        Value(database.lifts[instance].carMovingDirection as nat)
      else if objectType == Escalator && property == OperationDirection then
        Value(ESCALATOR_OPERATION_DIRECTION as nat)
      else Declined
    }

    /**
     * Unsigned values: the sizes of the per-door arrays, the car door status,
     * the car position, the making-car-call array, the machine room numbers
     * and the group identifiers.
     */
    function GetUnsignedInteger(objectType: ObjectType, instance: uint32, property: PropertyId, useArrayIndex: bool, index: uint32): (r: Answer<nat>)
      reads database
      ensures r.Fault? <==>
        objectType == Lift && property == CarDoorStatus && useArrayIndex && instance in database.lifts
        && index > |database.lifts[instance].carDoorStatus|
      ensures objectType == Lift && property == FloorText ==> r == Value(|FLOOR_NAMES|)
      ensures objectType == Lift && property == MakingCarCall && instance in database.lifts ==>
        var calls := database.lifts[instance].makingCarCall;
        (index == 0 ==> r == Value(|calls|))
        && (0 < index <= |calls| ==> r == Value(calls[index - 1] as nat))
        && (index > |calls| ==> r == Declined)
      ensures !r.Unwritten?
    {
      var lifts := database.lifts;
      if objectType == Lift && property == FloorText then
        Value(|FLOOR_NAMES|)
      else if objectType == Lift && property == CarDoorText && instance in lifts then
        Value(|lifts[instance].carDoorText|)
      else if objectType == Lift && property == CarDoorStatus && instance in lifts && useArrayIndex then
        CarDoorStatusRead(lifts[instance].carDoorStatus, index)
      else if objectType == Lift && property == AssignedLandingCalls && instance in lifts then
        Value(|lifts[instance].assignedLandingCalls|)
      else if objectType == Lift && property == RegisteredCarCall && instance in lifts then
        Value(|lifts[instance].registeredCarCalls|)
      else if objectType == Lift && property == LandingDoorStatus && instance in lifts then
        Value(|lifts[instance].landingDoorStatus|)
      else if objectType == Lift && property == CarPosition && instance in lifts then
        Value(lifts[instance].carPosition as nat)
      else if objectType == Lift && property == MakingCarCall && instance in lifts then
        match MakingCarCall.Element(lifts[instance].makingCarCall, index)
        case Some(v) => Value(v)
        case None => Declined
      else if objectType == PositiveIntegerValue && instance == ESCALATOR_GROUP_MACHINE_ROOM_ID && property == PresentValue then
        Value(ESCALATOR_GROUP_MACHINE_ROOM_ID as nat)
      else if objectType == PositiveIntegerValue && instance == LIFT_GROUP_MACHINE_ROOM_ID && property == PresentValue then
        Value(LIFT_GROUP_MACHINE_ROOM_ID as nat)
      else if property == GroupId then
        if objectType == ElevatorGroup && instance == LIFT_GROUP_INSTANCE then Value(LIFT_GROUP_ID as nat)
        else if objectType == ElevatorGroup && instance == ESCALATOR_GROUP_INSTANCE then Value(ESCALATOR_GROUP_ID as nat)
        else Declined
      else Declined
    }

    /** The passenger alarm: constant for an escalator, the lift's own flag for a lift. */
    function GetPropertyBool(objectType: ObjectType, instance: uint32, property: PropertyId): (r: Answer<bool>)
      reads database
      ensures r.Value? <==> property == PassengerAlarm && (objectType == Escalator || (objectType == Lift && instance in database.lifts))
      ensures r.Value? && objectType == Lift ==> r.value == database.lifts[instance].passengerAlarm
      ensures r.Value? || r.Declined?
    {
      if property == PassengerAlarm then
        if objectType == Escalator then Value(ESCALATOR_PASSENGER_ALARM)
        else if objectType == Lift && instance in database.lifts then Value(database.lifts[instance].passengerAlarm)
        else Declined
      else Declined
    }

    /**
     * Fault_Signals, one element per call: the escalators share one fault
     * set, each lift has its own. Only range option 0 is served.
     */
    method GetListOfEnumerations(objectType: ObjectType, instance: uint32, property: PropertyId, rangeOption: byte, position: uint32)
      returns (r: Answer<Paging.Page<uint32>>)
      ensures r.Declined? <==>
        !(property == FaultSignals && rangeOption == 0 && (objectType == Escalator || (objectType == Lift && instance in database.lifts)))
      ensures r.Value? || r.Declined?
      ensures r.Value? && objectType == Escalator ==> r.value == Paging.PageAt(database.escalatorFaults, position)
      ensures r.Value? && objectType == Lift ==> r.value == Paging.PageAt(database.lifts[instance].faultSignals, position)
    {
      if property == FaultSignals {
        if objectType == Escalator && rangeOption == 0 {
          var page := Paging.ScanFaultSignals(database.escalatorFaults, position);
          return Value(page);
        } else if objectType == Lift && rangeOption == 0 && instance in database.lifts {
          var page := Paging.ScanFaultSignals(database.lifts[instance].faultSignals, position);
          return Value(page);
        }
      }
      return Declined;
    }

    /**
     * Making_Car_Call writes. A lift that exists is written through an array
     * index: an index naming no door is an invalid array index, a floor above
     * the number of floor names is out of range, and a valid call is stored in
     * its door's element when the dictionary key matches the lift's instance.
     * Anything else is not handled.
     */
    method SetUnsignedInteger(objectType: ObjectType, instance: uint32, property: PropertyId, value: uint32,
                              useArrayIndex: bool, index: uint32) returns (r: WriteAnswer)
      requires database.Valid()
      modifies database
      ensures database.Valid()
      ensures database.liftOrder == old(database.liftOrder) && database.escalatorFaults == old(database.escalatorFaults)
      ensures database.groupMode == old(database.groupMode) && database.landingCalls == old(database.landingCalls)
      ensures database.landingCallControl == old(database.landingCallControl)
      ensures var handled := property == MakingCarCall && objectType == Lift && instance in old(database.lifts) && useArrayIndex;
              (r.Rejected? <==> handled && MakingCarCall.Validate(|old(database.lifts[instance].makingCarCall)|, index, value).Some?)
              && (r.Rejected? ==> Some(r.error) == MakingCarCall.Validate(|old(database.lifts[instance].makingCarCall)|, index, value))
              && (r.Written? <==> handled && MakingCarCall.Validate(|old(database.lifts[instance].makingCarCall)|, index, value).None?
                                  && old(database.lifts[instance].instance) == instance)
      ensures r.Written? ==> GetUnsignedInteger(Lift, instance, MakingCarCall, useArrayIndex, index) == Value(value)
      ensures !r.Written? ==> database.lifts == old(database.lifts)
      ensures r.Written? ==>
        database.lifts == old(database.lifts)[instance := old(database.lifts[instance]).(
          makingCarCall := MakingCarCall.Store(old(database.lifts[instance].makingCarCall), index, value))]
    {
      if property == MakingCarCall {
        if objectType == Lift && instance in database.lifts {
          if useArrayIndex {
            var lift := database.lifts[instance];
            var calls := lift.makingCarCall;
            if index > |calls| || index == 0 {
              return Rejected(InvalidArrayIndex);
            }
            if value > |FLOOR_NAMES| {
              return Rejected(ValueOutOfRange);
            }
            if instance == lift.instance {
              var stored := MakingCarCall.Store(calls, index, value);
              MakingCarCall.StoreKeepsCallsInRange(calls, index, value);
              MakingCarCall.StoreThenElement(calls, index, value, 0);
              database.ReplaceLift(instance, lift.(makingCarCall := stored));
              return Written;
            }
          }
        }
      }
      return Ignored;
    }

    /**
     * The group's landing call control and landing calls, for the lift group
     * only. The landing calls are read by position and written out through the
     * same conversion as the control, gated by the control's command choice.
     */
    method GetListElevatorGroupLandingCallStatus(groupInstance: uint32, property: PropertyId, byPosition: bool,
                                                 position: uint32, floorTextMaxLength: uint16)
      returns (r: LandingCallAnswer)
      ensures groupInstance != LIFT_GROUP_INSTANCE ==> r == NoReply
      ensures groupInstance == LIFT_GROUP_INSTANCE && property == LandingCallControl ==>
        r == DescribeLandingCall(database.landingCallControl, database.landingCallControl.commandChoice, floorTextMaxLength, false)
      ensures groupInstance == LIFT_GROUP_INSTANCE && property == LandingCalls && byPosition ==>
        (position > |database.landingCalls| ==> r == PastEndMoreCleared)
        && (position == |database.landingCalls| ==> r == NoReply)
        && (position < |database.landingCalls| ==>
              r == DescribeLandingCall(database.landingCalls[position], database.landingCallControl.commandChoice,
                                       floorTextMaxLength, position + 1 < |database.landingCalls|))
      ensures (property != LandingCallControl && property != LandingCalls) || (property == LandingCalls && !byPosition) ==> r == NoReply
    {
      if groupInstance == LIFT_GROUP_INSTANCE {
        var control := database.landingCallControl;
        if property == LandingCallControl {
          return DescribeLandingCall(control, control.commandChoice, floorTextMaxLength, false);
        } else if property == LandingCalls {
          if byPosition {
            r := ScanLandingCalls(database.landingCalls, control.commandChoice, position, floorTextMaxLength);
            return;
          }
        }
      }
      return NoReply;
    }

    /** Writes the lift group's landing call control; any other group is not handled. */
    method SetElevatorGroupLandingCallControl(groupInstance: uint32, floorNumber: byte, commandChoice: byte, direction: uint32,
                                              destination: byte, useFloorText: bool, floorText: string) returns (accepted: bool)
      modifies database
      ensures accepted <==> groupInstance == LIFT_GROUP_INSTANCE
      ensures accepted ==> database.landingCallControl == ControlWritten(floorNumber, commandChoice, direction, destination, useFloorText, floorText)
      ensures !accepted ==> database.landingCallControl == old(database.landingCallControl)
      ensures database.lifts == old(database.lifts) && database.liftOrder == old(database.liftOrder)
      ensures database.escalatorFaults == old(database.escalatorFaults) && database.groupMode == old(database.groupMode)
      ensures database.landingCalls == old(database.landingCalls)
      ensures old(database.Valid()) ==> database.Valid()
    {
      if groupInstance == LIFT_GROUP_INSTANCE {
        var control := database.landingCallControl.(floorNumber := floorNumber);
        if useFloorText {
          control := control.(floorText := floorText);
        } else {
          control := control.(floorText := "");
        }
        if commandChoice == CommandCode(Destination) {
          control := control.(commandChoice := Destination, commandValue := destination);
        } else {
          control := control.(commandChoice := Direction, commandValue := direction);
        }
        database.landingCallControl := control;
        return true;
      }
      return false;
    }

    /** Registered_Car_Call, one floor per call: the door by array index, the call by offset. */
    function GetSequenceLiftRegisteredCarCall(instance: uint32, door: uint32, offset: uint32): (r: Answer<(byte, bool)>)
      reads database
      ensures instance !in database.lifts ==> r == Declined
      ensures instance in database.lifts ==>
        var lists := database.lifts[instance].registeredCarCalls;
        && (r.Fault? <==> door == 0 || door > |lists| || (|lists[door - 1]| > 0 && offset >= |lists[door - 1]|))
        && (r.Declined? <==> 0 < door <= |lists| && |lists[door - 1]| == 0)
        && (r.Value? ==> 0 < door <= |lists| && Paging.PageAt(lists[door - 1], offset) == Paging.Item(r.value.0, r.value.1))
      ensures !r.Unwritten?
    {
      if instance !in database.lifts then Declined
      else Paging.ReadListElement(database.lifts[instance].registeredCarCalls, door, offset)
    }

    /** Assigned_Landing_Calls, one landing call per call: the door by array index, the call by offset. */
    function GetSequenceLiftAssignedLandingCall(instance: uint32, door: uint32, offset: uint32): (r: Answer<(LandingCall, bool)>)
      reads database
      ensures instance !in database.lifts ==> r == Declined
      ensures instance in database.lifts ==>
        var lists := database.lifts[instance].assignedLandingCalls;
        && (r.Fault? <==> door == 0 || door > |lists| || (|lists[door - 1]| > 0 && offset >= |lists[door - 1]|))
        && (r.Declined? <==> 0 < door <= |lists| && |lists[door - 1]| == 0)
        && (r.Value? ==> 0 < door <= |lists| && Paging.PageAt(lists[door - 1], offset) == Paging.Item(r.value.0, r.value.1))
      ensures !r.Unwritten?
    {
      if instance !in database.lifts then Declined
      else Paging.ReadListElement(database.lifts[instance].assignedLandingCalls, door, offset)
    }

    /** Landing_Door_Status, one landing door per call: the door by array index, the landing door by offset. */
    function GetSequenceLiftLandingDoorStatus(instance: uint32, door: uint32, offset: uint32): (r: Answer<(LandingDoor, bool)>)
      reads database
      ensures instance !in database.lifts ==> r == Declined
      ensures instance in database.lifts ==>
        var lists := database.lifts[instance].landingDoorStatus;
        && (r.Fault? <==> door == 0 || door > |lists| || (|lists[door - 1]| > 0 && offset >= |lists[door - 1]|))
        && (r.Declined? <==> 0 < door <= |lists| && |lists[door - 1]| == 0)
        && (r.Value? ==> 0 < door <= |lists| && Paging.PageAt(lists[door - 1], offset) == Paging.Item(r.value.0, r.value.1))
      ensures !r.Unwritten?
    {
      if instance !in database.lifts then Declined
      else Paging.ReadListElement(database.lifts[instance].landingDoorStatus, door, offset)
    }

    /**
     * One console key. The arrows move the selection within the lifts; M
     * toggles the group mode; F, P, D, C and S change the selected lift; Q
     * ends the program. The fault signal F toggles is drawn at random from
     * 0 .. 15 and is a parameter here.
     */
    method UserInput(key: Key, faultSignal: uint32) returns (exit: bool)
      requires Valid() && faultSignal < 16
      modifies this, database
      ensures Valid()
      ensures exit <==> key == KeyQ
      ensures database.liftOrder == old(database.liftOrder) && database.escalatorFaults == old(database.escalatorFaults)
      ensures database.landingCallControl == old(database.landingCallControl) && database.landingCalls == old(database.landingCalls)
      ensures selectedLift == match key
        case LeftArrow => Console.SelectLeft(old(selectedLift), |database.liftOrder|)
        case RightArrow => Console.SelectRight(old(selectedLift), |database.liftOrder|)
        case _ => old(selectedLift)
      ensures database.groupMode == if key == KeyM then Console.ToggleGroupMode(old(database.groupMode)) else old(database.groupMode)
      ensures key in {KeyF, KeyP, KeyD, KeyC, KeyS} ==>
        var selected := old(database.liftOrder[selectedLift]);
        database.lifts == old(database.lifts)[selected := KeyEffect(key, old(database.lifts[selected]), faultSignal)]
      ensures key !in {KeyF, KeyP, KeyD, KeyC, KeyS} ==> database.lifts == old(database.lifts)
    {
      exit := false;
      match key {
        case LeftArrow =>
          if selectedLift > 0 {
            selectedLift := selectedLift - 1;
          }
        case RightArrow =>
          // The dictionary's count is the length of its key list.
          if selectedLift < |database.liftOrder| - 1 {
            selectedLift := selectedLift + 1;
          }
        case KeyM =>
          if database.groupMode == 1 {
            database.groupMode := 0;
          } else {
            database.groupMode := 1;
          }
        case KeyQ =>
          exit := true;
        case KeyF | KeyP | KeyD | KeyC | KeyS =>
          ChangeSelectedLift(key, faultSignal);
        case KeyG | OtherKey =>
      }
    }

    /** The keys that change the selected lift, applied to the lift under the selection. */
    method ChangeSelectedLift(key: Key, faultSignal: uint32)
      requires Valid()
      modifies database
      ensures Valid()
      ensures database.liftOrder == old(database.liftOrder) && database.escalatorFaults == old(database.escalatorFaults)
      ensures database.landingCallControl == old(database.landingCallControl) && database.landingCalls == old(database.landingCalls)
      ensures database.groupMode == old(database.groupMode)
      ensures var selected := database.liftOrder[selectedLift];
        database.lifts == old(database.lifts)[selected := KeyEffect(key, old(database.lifts[selected]), faultSignal)]
    {
      var selected := database.liftOrder[selectedLift];
      var lift := database.lifts[selected];
      assert lift.Valid() && lift.ServesKnownFloors();
      lift := PressOnLift(key, lift, faultSignal);
      database.ReplaceLift(selected, lift);
    }

    /** Both callbacks that serve Car_Door_Status answer every request alike. */
    lemma CarDoorStatusCallbacksAgree(instance: uint32, useArrayIndex: bool, index: uint32)
      ensures GetEnumerated(Lift, instance, CarDoorStatus, useArrayIndex, index)
           == GetUnsignedInteger(Lift, instance, CarDoorStatus, useArrayIndex, index)
    {
    }

    /**
     * For a lift of a valid database, every per-door array property reports
     * the same size: the number of car doors.
     */
    lemma DoorArraySizesAgree(instance: uint32)
      requires database.Valid() && instance in database.lifts
      ensures var doors := database.lifts[instance].DoorCount();
        GetUnsignedInteger(Lift, instance, CarDoorText, false, 0) == Value(doors)
        && GetUnsignedInteger(Lift, instance, CarDoorStatus, true, 0) == Value(doors)
        && GetUnsignedInteger(Lift, instance, MakingCarCall, true, 0) == Value(doors)
        && GetUnsignedInteger(Lift, instance, RegisteredCarCall, false, 0) == Value(doors)
        && GetUnsignedInteger(Lift, instance, AssignedLandingCalls, false, 0) == Value(doors)
        && GetUnsignedInteger(Lift, instance, LandingDoorStatus, false, 0) == Value(doors)
        && GetEnumerated(Lift, instance, CarDoorStatus, true, 0) == Value(doors)
    {
      assert database.lifts[instance].Valid();
    }
  }
}
