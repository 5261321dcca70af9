/**
 * The vocabulary both versions of the BACnet elevator example share: the value
 * widths of the C# fields, the object types and property identifiers the
 * callbacks dispatch on, the enumerations the example stores as numbers, the
 * fixed instance numbers of its objects, and the record types of the lift
 * database (landing calls, landing doors, landing call status).
 */
module Bacnet {

  /** A C# `Byte`. */
  type byte = x: nat | x < 0x100

  /** A C# `UInt16`. */
  type uint16 = x: nat | x < 0x1_0000

  /** A C# `UInt32`. */
  type uint32 = x: nat | x < 0x1_0000_0000

  /** The number of values of a Byte and of a UInt32: an increment past the last one wraps to 0. */
  const BYTE_WIDTH: nat := 0x100
  const UINT32_WIDTH: nat := 0x1_0000_0000

  datatype Option<T> = None | Some(value: T)

  /** Object types the callbacks distinguish; every other type of the stack is OtherObjectType. */
  datatype ObjectType = Device | ElevatorGroup | Escalator | Lift | PositiveIntegerValue | OtherObjectType

  /** Property identifiers the callbacks distinguish; every other identifier is OtherProperty. */
  datatype PropertyId =
    | ObjectName | FloorText | CarDoorText | CarDoorStatus | CarMovingDirection | CarPosition
    | MakingCarCall | RegisteredCarCall | AssignedLandingCalls | LandingDoorStatus | FaultSignals
    | GroupMode | GroupId | PresentValue | OperationDirection | LandingCallControl | LandingCalls | PassengerAlarm
    | OtherProperty

  /** The two BACnet error codes a rejected write reports to the stack. */
  datatype ErrorCode = InvalidArrayIndex | ValueOutOfRange

  /**
   * What a read callback hands back to the stack:
   * Value(v)  — it returned true and wrote v to its value out-parameter;
   * Unwritten — it returned true without writing the value out-parameter;
   * Declined  — it returned false ("not implemented");
   * Fault     — an index or conversion that the code does not guard throws.
   */
  datatype Answer<T> = Value(value: T) | Unwritten | Declined | Fault

  /**
   * What a write callback hands back: Written (true), Rejected (false with an
   * error code written), or Ignored (false, no error code written).
   */
  datatype WriteAnswer = Written | Rejected(error: ErrorCode) | Ignored

  // BACnetDoorStatus ::= ENUMERATED { closed (0), opened (1), unknown (2), door-fault (3), unused (4),
  //   none (5), closing (6), opening (7), safety-locked (8), limited-opened (9), ... }
  const DOOR_STATUS_CLOSED: uint32 := 0
  const DOOR_STATUS_SAFETY_LOCKED: uint32 := 8
  /** The display names of the door states; the console cycles a car door through them. */
  const CAR_DOOR_STATUS_TEXT: seq<string> :=
    ["closed", "opened", "unknown", "door-fault", "unused", "none", "closing", "opening", "safety-locked", "limited-opened"]

  // BACnetLiftCarDirection ::= ENUMERATED { unknown (0), none (1), stopped (2), up (3), down (4), up-and-down (5), ... }
  const LIFT_CAR_DIRECTION_UNKNOWN: uint32 := 0
  const LIFT_CAR_DIRECTION_NONE: uint32 := 1
  const LIFT_CAR_DIRECTION_UP: uint32 := 3
  const LIFT_CAR_DIRECTION_DOWN: uint32 := 4
  const LIFT_CAR_DIRECTION_UP_AND_DOWN: uint32 := 5
  /** The display names of the car directions; the console cycles a car through them. */
  const CAR_DIRECTION_TEXT: seq<string> := ["unknown", "none", "stopped", "up", "down", "up-and-down"]

  /** The floor names every lift shares; the universal floor number indexes this table. */
  const FLOOR_NAMES: seq<string> := ["Basement", "Lobby", "One", "Two", "Three", "Four", "Five", "Roof"]

  // Instances of the objects of the example device.
  const DEVICE_INSTANCE: uint32 := 389001
  const ESCALATOR_GROUP_INSTANCE: uint32 := 1000
  const ESCALATOR_A_INSTANCE: uint32 := 1001
  const ESCALATOR_B_INSTANCE: uint32 := 1002
  const ESCALATOR_H_INSTANCE: uint32 := 1003
  const LIFT_GROUP_INSTANCE: uint32 := 2000
  const LIFT_C_INSTANCE: uint32 := 2001
  const LIFT_D_INSTANCE: uint32 := 2002
  const LIFT_E_INSTANCE: uint32 := 2003
  const LIFT_F_INSTANCE: uint32 := 2004
  const LIFT_G_INSTANCE: uint32 := 2005

  // Machine rooms (Positive Integer Value objects) and group identifiers.
  const ESCALATOR_GROUP_MACHINE_ROOM_ID: uint32 := 1
  const LIFT_GROUP_MACHINE_ROOM_ID: uint32 := 2
  const ESCALATOR_GROUP_ID: byte := 1
  const LIFT_GROUP_ID: byte := 2

  // BACnetEscalatorOperationDirection ::= ENUMERATED { unknown (0), stopped (1), ... }
  const ESCALATOR_OPERATION_DIRECTION: uint32 := 0
  /** The passenger alarm every escalator reports. */
  const ESCALATOR_PASSENGER_ALARM: bool := true

  // Object names shared by both versions.
  const DEVICE_NAME: string := "Elevator Example"
  const ESCALATOR_GROUP_NAME: string := "ESCALATOR Group"
  const ESCALATOR_A_NAME: string := "Moving sidewalk (A)"
  const ESCALATOR_B_NAME: string := "Moving sidewalk (B)"
  const ESCALATOR_H_NAME: string := "Moving sidewalk (H)"
  const LIFT_GROUP_NAME: string := "LIFT Group"
  const MACHINE_ROOM_1_NAME: string := "Machine room (1)"
  const MACHINE_ROOM_2_NAME: string := "Machine room (2)"

  /** An assigned landing call: a floor and the direction of travel asked for. */
  datatype LandingCall = LandingCall(floorNumber: byte, direction: uint32)

  /** The status of the landing door of one floor, as a BACnetDoorStatus number. */
  datatype LandingDoor = LandingDoor(floorNumber: byte, doorStatus: uint32)

  /** Which of the two alternatives a BACnetLandingCallStatus carries. */
  datatype Command = Direction | Destination

  /** The number that stands for each alternative on the wire. */
  function CommandCode(c: Command): (code: byte)
    ensures code == 1 || code == 2
    ensures code == 2 <==> c == Destination
  {
    match c
    case Direction => 1
    case Destination => 2
  }

  /**
   * A BACnetLandingCallStatus: a floor, the command (a direction or a
   * destination floor, both kept in commandValue) and an optional floor text.
   */
  datatype LandingCallStatus = LandingCallStatus(floorNumber: byte, commandChoice: Command, commandValue: uint32, floorText: string)

  /** The landing call control as both versions reset it: floor 0, direction unknown, no text. */
  const RESET_LANDING_CALL_CONTROL: LandingCallStatus := LandingCallStatus(0, Direction, LIFT_CAR_DIRECTION_UNKNOWN, "")

  /** No value occurs twice: the list is the enumeration of a HashSet. */
  predicate NoDuplicates<T(==)>(s: seq<T>)
  {
    forall i, j :: 0 <= i < j < |s| ==> s[i] != s[j]
  }
}
