/**
 * The Making_Car_Call array of a lift (one Unsigned8 per car door, the last
 * floor requested through that door): the validation a write runs, the
 * store itself, and the element read. Array index 0 stands for the size of
 * the array; indices 1 .. size name the elements.
 */
module MakingCarCall {
  import opened Bacnet

  /**
   * The checks a write runs, in order: an index that names no door is an
   * invalid array index; then a floor number above the number of floor names
   * is out of range. No error means the write may go ahead.
   */
  function Validate(doorCount: nat, index: nat, value: nat): (e: Option<ErrorCode>)
    ensures e.None? <==> 1 <= index <= doorCount && value <= |FLOOR_NAMES|
    ensures e == Some(InvalidArrayIndex) <==> index == 0 || index > doorCount
    ensures e == Some(ValueOutOfRange) <==> 1 <= index <= doorCount && value > |FLOOR_NAMES|
  {
    if index > doorCount || index == 0 then Some(InvalidArrayIndex)
    else if value > |FLOOR_NAMES| then Some(ValueOutOfRange)
    else None
  }

  /** Stores a validated car call in the element of its door. */
  function Store(calls: seq<byte>, index: nat, value: nat): (r: seq<byte>)
    requires Validate(|calls|, index, value).None?
    ensures |r| == |calls|
    ensures r[index - 1] == value
    ensures forall d :: 0 <= d < |calls| && d != index - 1 ==> r[d] == calls[d]
  {
    calls[index - 1 := value]
  }

  /**
   * The read: index 0 gives the number of doors, an index naming a door gives
   * the car call of that door, and any other index gives nothing.
   */
  function Element(calls: seq<byte>, index: nat): (r: Option<nat>)
    ensures index == 0 ==> r == Some(|calls|)
    ensures 0 < index ==> (r.Some? <==> index <= |calls|)
    ensures 0 < index <= |calls| ==> r == Some(calls[index - 1] as nat)
  {
    if index == 0 then Some(|calls|)
    else if index <= |calls| then Some(calls[index - 1] as nat)
    else None
  }

  /**
   * A write that passes validation is read back at the same index, leaves
   * the size of the array alone and leaves every other door's car call as it
   * was.
   */
  lemma StoreThenElement(calls: seq<byte>, index: nat, value: nat, other: nat)
    requires Validate(|calls|, index, value).None?
    ensures Element(Store(calls, index, value), index) == Some(value)
    ensures Element(Store(calls, index, value), 0) == Some(|calls|)
    ensures other != index ==> Element(Store(calls, index, value), other) == Element(calls, other)
  {
  }

  /** Every car call a write can leave behind names a floor of the floor-name table. */
  predicate CallsInRange(calls: seq<byte>)
  {
    forall d :: 0 <= d < |calls| ==> calls[d] <= |FLOOR_NAMES|
  }

  lemma StoreKeepsCallsInRange(calls: seq<byte>, index: nat, value: nat)
    requires CallsInRange(calls) && Validate(|calls|, index, value).None?
    ensures CallsInRange(Store(calls, index, value))
  {
  }
}
