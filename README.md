# BACnet elevator example: lift database and property callbacks

This project is a Dafny model of the C# BACnet elevator example server, in
both of its versions. The server publishes an escalator group, a lift group,
five lifts (C to G) and three escalators. It answers property reads and
writes from the BACnet stack through callbacks, and answers those from an
in-memory lift database.

The later version (`BACnetElevatorExample/`) keeps a dictionary of lift
objects. Each lift has per-door arrays: door texts, door status,
Making_Car_Call, registered car calls, assigned landing calls and landing
door status. Lift G has two doors and the others one. Console keys change the
selected lift, the group mode and the simulated state of a lift. The earlier
version (`BACnetElevatorExample/BACnetElevatorExample/`) keeps static per-lift
arrays and a `Setup` step that seeds them, and answers through chains of
instance comparisons.

Modules:

- `Bacnet` (bacnet.dfy): object types, property identifiers, error codes,
  the answer of a callback, and the constants and records both versions share.
- `Text` (text.dfy): the ASCII copy of a string into the stack's value buffer.
- `Paging` (paging.dfy): lists handed out one element at a time with a "more" flag.
- `Console` (console.dfy): the wrapping counters and toggles behind the console keys.
- `MakingCarCall` (making_car_call.dfy): validation, store and read of Making_Car_Call.
- `LandingDoors` (landing_doors.dfy): the list of closed landing doors a lift starts with.
- The later version: `ElevatorDatabase` (elevator_database.dfy) and
  `ElevatorServer` (elevator_server.dfy).
- The earlier version: `LegacyDatabase` (legacy_database.dfy) and
  `LegacyServer` (legacy_server.dfy).

The C# callbacks write results through pointers and return a bool. Here
they return an `Answer`:

- `Value(v)` means true with `v` written.
- `Unwritten` means true with nothing written.
- `Declined` means false.
- `Fault` means the callback throws: an index that underflows or runs past
  an array, or a `Convert.ToByte` overflow.

The source leaves several indices unchecked: Floor_Text and Car_Door_Text
index 0, the upper bound of Car_Door_Status, and the door index and offset of
the three sequence callbacks. These are not hidden behind a `requires`. Each
such case is an explicit `Fault` outcome, and the contracts state exactly
when it happens.

Two quirks of the source are kept as written:

- The Landing_Calls reader gates a direction on the control's command
  choice, not on the element's.
- A position equal to the list's length declines.

For an unknown lift instance, a Making_Car_Call write in the earlier version
is not simply ignored. The floor check runs before the instance is looked up,
so a value above 8 still answers `ERROR_VALUE_OUT_OF_RANGE`.

## Model

| member | source | states |
|---|---|---|
| Bacnet.CommandCode | BACnetElevatorExample/BACnetElevatorExampleDatabase.cs:11-15 | the command choice of a landing call status is 1 for a direction and 2 for a destination |
| Text.AsciiByte | BACnetElevatorExample/Program.cs:557 | ASCII encoding gives a 7-bit byte, the character itself when it is ASCII |
| Text.AsciiBytes | BACnetElevatorExample/Program.cs:557 | the encoding has one byte per character, each the encoding of that character |
| Text.AsciiRoundTrip | BACnetElevatorExample/Program.cs:557 | an ASCII string is decoded back from its bytes unchanged |
| Text.UpdateStringAndReturnSize | BACnetElevatorExample/Program.cs:555-565 | copies min(byte length, buffer size) bytes, a prefix of the string's encoding, and returns that count |
| Text.CopyOut | BACnetElevatorExample/Program.cs:601-602 | a string callback answers true with the copied bytes and their count, which never exceeds the buffer |
| Text.StringThatFitsArrivesWhole | BACnetElevatorExample/BACnetElevatorExample/Program.cs:203-213 | an ASCII string no longer than the buffer arrives whole and decodes to itself |
| Text.LongStringIsTruncated | BACnetElevatorExample/Program.cs:559-563 | a longer string arrives as exactly its first maxElementCount characters |
| Paging.PageAt | BACnetElevatorExample/Program.cs:966-978 | an element exists exactly below the length; it is the element at the position, with more set unless it is the last |
| Paging.CollectIsSuffix | BACnetElevatorExample/Program.cs:966-978 | following the more flag from a position collects exactly the rest of the list |
| Paging.CollectFromStartIsWholeList | BACnetElevatorExample/Program.cs:966-978 | following the more flag from position 0 collects the whole list in order |
| Paging.ScanFaultSignals | BACnetElevatorExample/Program.cs:963-978 | the counter scan answers element i with more == (i < Count - 1), and past the end answers with more cleared; it equals PageAt |
| Paging.ReadListElement | BACnetElevatorExample/Program.cs:1210-1229 | an empty door list declines; door 0, a door past the last or an offset past the end throws; otherwise the element at the offset, more cleared exactly on the last |
| Console.NextInCycle | BACnetElevatorExample/Program.cs:417-425 | the counter advances by one (wrapping at its integer width) and returns to 0 at the table length, so it stays within the table |
| Console.PressRepeatedly | BACnetElevatorExample/Program.cs:429-437 | after at least one press the counter lies within its table |
| Console.PressesAdvance | BACnetElevatorExample/Program.cs:417-425 | short of the table's end, n presses advance the counter by n |
| Console.PressesCompose | BACnetElevatorExample/Program.cs:417-425 | a presses then b presses equal a + b presses |
| Console.FullCycleReturns | BACnetElevatorExample/Program.cs:441-451 | pressing once per table entry returns the counter to its start |
| Console.ToggleGroupMode | BACnetElevatorExample/Program.cs:392-401 | normal (1) becomes unknown (0), any other mode becomes normal |
| Console.ToggleGroupModeTwice | BACnetElevatorExample/Program.cs:392-401 | toggling a normal or unknown mode twice restores it |
| Console.SelectLeft | BACnetElevatorExample/Program.cs:359-366 | the selection moves one back unless it is on the first lift, and stays in range |
| Console.SelectRight | BACnetElevatorExample/Program.cs:367-374 | the selection moves one on unless it is on the last lift, and stays in range |
| Console.Without | BACnetElevatorExample/Program.cs:382 | removing a fault signal keeps exactly the other members |
| Console.WithoutKeepsNoDuplicates | BACnetElevatorExample/Program.cs:382 | removal keeps the enumeration free of duplicates |
| Console.ToggleFault | BACnetElevatorExample/Program.cs:376-388 | the drawn fault signal is in the result exactly when it was not in the set; the other members stay the same |
| Console.ToggleFaultKeepsSet | BACnetElevatorExample/Program.cs:376-388 | toggling keeps the fault signals a set |
| Console.ToggleFaultTwice | BACnetElevatorExample/Program.cs:376-388 | toggling the same signal twice gives back the same members |
| MakingCarCall.Validate | BACnetElevatorExample/Program.cs:1019-1032 | index 0 or past the last door is an invalid array index; then a floor above 8 is out of range; otherwise no error |
| MakingCarCall.Store | BACnetElevatorExample/Program.cs:1034-1038 | a valid write sets the addressed door's element and keeps the size and every other element |
| MakingCarCall.Element | BACnetElevatorExample/Program.cs:867-880 | index 0 reads the door count, an index naming a door reads its element, and a larger index reads nothing |
| MakingCarCall.StoreThenElement | BACnetElevatorExample/Program.cs:1034-1038 | a stored value is read back at its index, index 0 still reads the door count, and other indices read as before |
| MakingCarCall.StoreKeepsCallsInRange | BACnetElevatorExample/Program.cs:1027-1038 | a valid write keeps every car call a known floor |
| LandingDoors.ClosedLandingDoors | BACnetElevatorExample/BACnetElevatorExampleDatabase.cs:140-144 | the loop leaves floors 0 .. n-1 in order, each with a closed landing door |
| ElevatorDatabase.FreshLift | BACnetElevatorExample/BACnetElevatorExampleDatabase.cs:84-145 | a new lift has one door, all per-door arrays of length 1, its door closed, no calls, a closed landing door on every floor, direction none, position 3, alarm off, no faults |
| ElevatorDatabase.NewLiftObject | BACnetElevatorExample/BACnetElevatorExampleDatabase.cs:84-145 | the constructor's loops build exactly FreshLift |
| ElevatorDatabase.LiftC | BACnetElevatorExample/BACnetElevatorExampleDatabase.cs:269 | lift C is well formed, one door, no fault signals |
| ElevatorDatabase.LiftD | BACnetElevatorExample/BACnetElevatorExampleDatabase.cs:296-303 | lift D is well formed, one door, fault signals {1, 9, 14} |
| ElevatorDatabase.LiftE | BACnetElevatorExample/BACnetElevatorExampleDatabase.cs:304-306 | lift E is well formed, one door, no fault signals |
| ElevatorDatabase.LiftF | BACnetElevatorExample/BACnetElevatorExampleDatabase.cs:307-309 | lift F is well formed, one door, no fault signals |
| ElevatorDatabase.LiftG | BACnetElevatorExample/BACnetElevatorExampleDatabase.cs:274-339 | lift G is well formed with Front and Rear doors, both closed, zeroed Making_Car_Call, registered calls [1, 2, 3] and [0, 5]; its front landing-door list is empty and its rear one is floor 0 closed, floor 7 safety-locked |
| ElevatorDatabase.ReplaceKeepsAllLiftsValid | BACnetElevatorExample/Program.cs:1037 | writing back a well-formed lift keeps every lift well formed and keeps the keys |
| ElevatorDatabase.InitialLiftsValid | BACnetElevatorExample/BACnetElevatorExampleDatabase.cs:268-339 | every lift the constructor builds is well formed and serves only known floors with up, down or up-and-down calls |
| ElevatorDatabase.InitialLiftsShape | BACnetElevatorExample/BACnetElevatorExampleDatabase.cs:268-339 | each lift's instance equals its key; exactly G has two doors; exactly D starts with fault signals |
| ElevatorDatabase.InitialLiftKeys | BACnetElevatorExample/BACnetElevatorExampleDatabase.cs:268-273 | the dictionary's keys are exactly 2001 .. 2005 |
| ElevatorDatabase.InitialLiftAt | BACnetElevatorExample/BACnetElevatorExampleDatabase.cs:269-273 | the same facts for one key |
| ElevatorDatabase.CreateLiftC | BACnetElevatorExample/BACnetElevatorExampleDatabase.cs:269 | creating lift C and clearing its lists gives LiftC |
| ElevatorDatabase.CreateLiftD | BACnetElevatorExample/BACnetElevatorExampleDatabase.cs:296-321 | creating and seeding lift D gives LiftD |
| ElevatorDatabase.CreateLiftE | BACnetElevatorExample/BACnetElevatorExampleDatabase.cs:304-324 | creating and seeding lift E gives LiftE |
| ElevatorDatabase.CreateLiftF | BACnetElevatorExample/BACnetElevatorExampleDatabase.cs:307-327 | creating and seeding lift F gives LiftF |
| ElevatorDatabase.CreateLiftG | BACnetElevatorExample/BACnetElevatorExampleDatabase.cs:273-339 | rebuilding lift G with two doors and seeding it gives LiftG |
| ElevatorDatabase.CreateLifts | BACnetElevatorExample/BACnetElevatorExampleDatabase.cs:268-273 | the dictionary filled by the constructor is InitialLifts |
| ElevatorDatabase.InitialLiftOrderListsEveryLift | BACnetElevatorExample/Program.cs:354 | the key list names every lift exactly once |
| ElevatorDatabase.Database.constructor | BACnetElevatorExample/BACnetElevatorExampleDatabase.cs:256-342 | the database starts valid with lifts C to G, escalator faults {2, 7}, group mode 1, the reset landing call control and no landing calls |
| ElevatorDatabase.Database.ReplaceLift | BACnetElevatorExample/Program.cs:1037 | a lift written back keeps the database valid; only that key's lift changes |
| ElevatorServer.DescribeLandingCall | BACnetElevatorExample/Program.cs:1112-1135 | a destination is written as a destination; a direction only when the control holds a direction; a value above 255 throws; the floor text is copied exactly when non-empty |
| ElevatorServer.ControlWritten | BACnetElevatorExample/Program.cs:1161-1185 | the control after a write holds the floor, the text only when flagged, and the destination for code 2, otherwise the direction |
| ElevatorServer.ControlRoundTrip | BACnetElevatorExample/Program.cs:1060-1085 | reading the control after a write gives the floor, the command written, the text exactly when flagged and non-empty (whole when ASCII and short enough), and more cleared; a direction above 255 throws |
| ElevatorServer.ScanLandingCalls | BACnetElevatorExample/Program.cs:1093-1139 | past the end clears more and declines; position == Count declines; otherwise the status at the position, more set unless it is the last |
| ElevatorServer.CarDoorStatusRead | BACnetElevatorExample/Program.cs:725-731 | index 0 reads the door count, a door index reads its status, and a larger index throws |
| ElevatorServer.KeyEffect | BACnetElevatorExample/Program.cs:376-454 | a key press keeps the selected lift well formed and its identity and car calls unchanged; keys other than F, P, D, C and S leave it alone |
| ElevatorServer.PressOnLift | BACnetElevatorExample/Program.cs:376-454 | the field-by-field key handling equals KeyEffect |
| ElevatorServer.Server.constructor | BACnetElevatorExample/Program.cs:43 | the server starts with a fresh valid database and the first lift selected |
| ElevatorServer.Server.GetPropertyCharString | BACnetElevatorExample/Program.cs:589-674 | every answer fits the buffer; it throws exactly for index 0 of Floor_Text or of a known lift's Car_Door_Text |
| ElevatorServer.Server.GetEnumerated | BACnetElevatorExample/Program.cs:702-757 | the group mode, a known lift's moving direction (an unknown lift declines), a known lift's door status through CarDoorStatusRead, and the escalator direction; it throws exactly for a known lift's Car_Door_Status index past the last door |
| ElevatorServer.Server.GetUnsignedInteger | BACnetElevatorExample/Program.cs:759-924 | a Making_Car_Call read gives the door count at index 0, the element at a door index, and false beyond; Floor_Text's size is 8; a Car_Door_Status index past the last door throws |
| ElevatorServer.Server.GetPropertyBool | BACnetElevatorExample/Program.cs:926-950 | the passenger alarm is answered for escalators and known lifts only, and a lift answers its own flag |
| ElevatorServer.Server.GetListOfEnumerations | BACnetElevatorExample/Program.cs:952-1002 | Fault_Signals with range option 0 pages the escalator set or a known lift's set; an unknown lift declines |
| ElevatorServer.Server.SetUnsignedInteger | BACnetElevatorExample/Program.cs:1006-1046 | errors follow Validate; a successful write changes only the addressed element of the addressed lift and is read back; a failed one changes nothing |
| ElevatorServer.Server.GetListElevatorGroupLandingCallStatus | BACnetElevatorExample/Program.cs:1048-1146 | the control and the landing calls are answered for group 2000 only, through DescribeLandingCall and ScanLandingCalls |
| ElevatorServer.Server.SetElevatorGroupLandingCallControl | BACnetElevatorExample/Program.cs:1148-1192 | group 2000 stores ControlWritten; any other group is refused and nothing changes |
| ElevatorServer.Server.GetSequenceLiftRegisteredCarCall | BACnetElevatorExample/Program.cs:1194-1230 | an unknown lift declines; for a known lift an empty door list declines, door 0, a door past the last or an offset past the end throws, and otherwise the answer is the registered call at the offset with its more flag |
| ElevatorServer.Server.GetSequenceLiftAssignedLandingCall | BACnetElevatorExample/Program.cs:1232-1277 | an unknown lift declines; for a known lift an empty door list declines, door 0, a door past the last or an offset past the end throws, and otherwise the answer is the landing call at the offset with its more flag |
| ElevatorServer.Server.GetSequenceLiftLandingDoorStatus | BACnetElevatorExample/Program.cs:1279-1329 | an unknown lift declines; for a known lift an empty door list declines, door 0, a door past the last or an offset past the end throws, and otherwise the answer is the landing door at the offset with its more flag |
| ElevatorServer.Server.UserInput | BACnetElevatorExample/Program.cs:349-485 | the arrows move the selection within the lifts; M toggles the group mode; F, P, D, C and S apply KeyEffect to the selected lift only; Q exits; the database stays valid |
| ElevatorServer.Server.ChangeSelectedLift | BACnetElevatorExample/Program.cs:376-454 | only the selected lift changes, by KeyEffect, and the database stays valid |
| ElevatorServer.Server.CarDoorStatusCallbacksAgree | BACnetElevatorExample/Program.cs:787-802 | the enumerated and the unsigned Car_Door_Status callbacks give the same answer for every request |
| ElevatorServer.Server.DoorArraySizesAgree | BACnetElevatorExample/Program.cs:776-881 | for a lift of a valid database every per-door size read answers the number of car doors |
| LegacyDatabase.EmptyCalls | BACnetElevatorExample/BACnetElevatorExample/BACnetElevatorExampleDatabase.cs:127-172 | the static list arrays have one empty list per door |
| LegacyDatabase.AfterSetup | BACnetElevatorExample/BACnetElevatorExample/BACnetElevatorExampleDatabase.cs:197-293 | Setup leaves escalator faults {2, 7}, lift faults {1, 9, 14} and the reset control, and keeps one list per door (two for G) |
| LegacyDatabase.SetupResultIsFixed | BACnetElevatorExample/BACnetElevatorExample/BACnetElevatorExampleDatabase.cs:227-292 | every list is cleared before it is filled, so Setup's result is the same fixed state whatever it started from |
| LegacyDatabase.SetupIsIdempotent | BACnetElevatorExample/BACnetElevatorExample/BACnetElevatorExampleDatabase.cs:197-293 | running Setup twice gives the state of running it once |
| LegacyDatabase.SeededCallsServeKnownFloors | BACnetElevatorExample/BACnetElevatorExample/BACnetElevatorExampleDatabase.cs:227-260 | every seeded call names a floor below 8 with up, down or up-and-down, and both fault sets are duplicate free |
| LegacyDatabase.Refill | BACnetElevatorExample/BACnetElevatorExample/BACnetElevatorExampleDatabase.cs:236-242 | clearing a door's list and adding the items one by one gives exactly those items and leaves the other doors alone |
| LegacyDatabase.Database.constructor | BACnetElevatorExample/BACnetElevatorExample/BACnetElevatorExampleDatabase.cs:126-172 | Making_Car_Call arrays of zeros (one element, two for G), empty lists, and a default control |
| LegacyDatabase.Database.Setup | BACnetElevatorExample/BACnetElevatorExample/BACnetElevatorExampleDatabase.cs:197-293 | the state after Setup is AfterSetup of the state before, and the per-door shapes are kept |
| LegacyDatabase.Database.SeedRegisteredCarCalls | BACnetElevatorExample/BACnetElevatorExample/BACnetElevatorExampleDatabase.cs:227-242 | registered calls become C [], D [2], E [4, 6], F [3, 5], G [1, 2, 3] and [0, 5]; nothing else changes |
| LegacyDatabase.Database.SeedAssignedLandingCalls | BACnetElevatorExample/BACnetElevatorExample/BACnetElevatorExampleDatabase.cs:244-260 | assigned landing calls become the seeded lists; nothing else changes |
| LegacyDatabase.Database.SeedLandingDoors | BACnetElevatorExample/BACnetElevatorExample/BACnetElevatorExampleDatabase.cs:262-292 | each first door serves floors 0 .. 7 closed; G's rear door has floor 0 closed and floor 7 safety-locked |
| LegacyServer.CarDoorTextOf | BACnetElevatorExample/BACnetElevatorExample/Program.cs:306-324 | two door names for lift G, one for every other instance |
| LegacyServer.GetPropertyCharString | BACnetElevatorExample/BACnetElevatorExample/Program.cs:215-328 | every answer fits the buffer; Floor_Text index k in 1 .. 8 answers FLOOR_NAMES[k-1]; Car_Door_Text uses G's table or the default; index 0 of either throws |
| LegacyServer.GetEnumerated | BACnetElevatorExample/BACnetElevatorExample/Program.cs:355-401 | the group mode and, for every lift instance, a door status and a direction within their tables |
| LegacyServer.GetPropertyBool | BACnetElevatorExample/BACnetElevatorExample/Program.cs:582-605 | the passenger alarm is set for escalators and clear for every lift instance |
| LegacyServer.AnswersMatchFreshLift | BACnetElevatorExample/BACnetElevatorExample/BACnetElevatorExampleDatabase.cs:79-87 | the fixed lift answers of this version equal those of a lift the later version has just constructed |
| LegacyServer.GetListElevatorGroupLandingCall | BACnetElevatorExample/BACnetElevatorExample/Program.cs:659-672 | no landing call is ever handed out: true with more cleared |
| LegacyServer.Server.constructor | BACnetElevatorExample/BACnetElevatorExample/Program.cs:120 | after the static initialisers and Setup the database is in the seeded state with zeroed Making_Car_Call arrays |
| LegacyServer.Server.CarCallArrayOf | BACnetElevatorExample/BACnetElevatorExample/Program.cs:728-753 | exactly the lifts C to G have a Making_Car_Call array, one of the database's five |
| LegacyServer.Server.GetUnsignedInteger | BACnetElevatorExample/BACnetElevatorExample/Program.cs:403-580 | Making_Car_Call index 0 gives the array size and a door index the element; any other lift request answers true unwritten; door-count reads give 2 for G and 1 otherwise |
| LegacyServer.Server.GetListOfEnumerations | BACnetElevatorExample/BACnetElevatorExample/Program.cs:607-657 | the escalator set and the one shared lift set are paged for any instance with range option 0 |
| LegacyServer.Server.SetUnsignedInteger | BACnetElevatorExample/BACnetElevatorExample/Program.cs:674-760 | a known lift's errors follow Validate; an unknown lift is refused out of range above 8 and otherwise ignored; a write changes only the addressed array element in place and is read back |
| LegacyServer.Server.DoorCountsAgree | BACnetElevatorExample/BACnetElevatorExample/Program.cs:420-537 | Car_Door_Text, Car_Door_Status and Making_Car_Call sizes agree with the per-door list arrays: 2 for G, 1 otherwise |

## Left out

- UDP transport (`SendMessage`, `RecvMessage`) and address packing: network I/O.
- Calls into the closed BACnet stack (object registration, `ValueUpdated`, `Loop`): foreign code. Its constants are modelled as datatypes or as the numbers of the standard's enumerations.
- Console printing (`PrintCurrentlySelectedLiftStatus`, `PrintGlobalStatus`, every `Console.WriteLine`): output only. The G key therefore changes nothing.
- The random fault number of the F key is a parameter. `Environment.Exit` is modelled by `UserInput` returning true.
- `CallbackGetSystemTime` (wall clock), `CallbackGetPropertyReal` and the energy meter (floating point).
- `MarshalUnsafeCStringToString`: the written floor text is taken as the decoded string. The pointer reinterpretation is not modelled.
- `CallbackAcknowledgeAlarm`: its only logic is a source-name comparison followed by logging.
- ElevatorServer.Server.SetUnsignedInteger: the lift objects are values in a map, so the in-place update of a lift's `makingCarCall` array becomes writing back a changed lift. Aliasing between lift objects cannot arise in the source and is not modelled.
- ElevatorServer.Server.GetPropertyCharString: the contract states the buffer bound and exactly when the read throws, not which name each object answers with (the constant tables are in the body).
- ElevatorServer.Server.UserInput: the dictionary's key order, which .NET does not promise, is taken to be insertion order (C to G) and kept as `liftOrder`; `lifts.Count` is its length.
- Console.ToggleFault: a HashSet is modelled as a duplicate-free sequence in enumeration order. Adding appends; removing keeps the others in order. The slot reuse of a .NET HashSet after a removal is not modelled.
- The earlier version's list filling is modelled by `Refill`, one `Add` per loop step, rather than as a separate statement per call.
- The earlier version's fault sets and the landing call control's floor text are null until `Setup` runs; the model starts them empty. `Setup` always runs before any callback, and this version has no reader of the control.
- The earlier version copies strings into a buffer typed as characters; the model keeps the copied bytes as the later version does.
- Object_Name, instance numbers and constant properties of the escalators and the device are modelled only as the lookup tables in the bodies.
