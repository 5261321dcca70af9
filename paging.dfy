/**
 * How the callbacks hand a list to the stack one element at a time: the stack
 * asks for the element at a position (or offset) and the callback answers with
 * that element and a "more" flag that tells the stack whether to ask for the
 * next one.
 */
module Paging {
  import opened Bacnet

  /** One answer of a paged read: the element and the more flag, or nothing past the end. */
  datatype Page<T> = Item(value: T, more: bool) | PastEnd

  /** The reference meaning of reading a list at a position. */
  function PageAt<T>(s: seq<T>, position: nat): (p: Page<T>)
    ensures p.Item? <==> position < |s|
    ensures p.Item? ==> p.value == s[position] && (p.more <==> position + 1 < |s|)
  {
    if position < |s| then Item(s[position], position + 1 < |s|) else PastEnd
  }

  /** What a client collects by asking from a position on while the more flag is set. */
  function Collect<T>(s: seq<T>, position: nat): seq<T>
    decreases |s| - position
  {
    match PageAt(s, position)
    case PastEnd => []
    case Item(v, more) => [v] + (if more then Collect(s, position + 1) else [])
  }

  /** Following the more flag from a position collects exactly the rest of the list. */
  lemma {:induction false} CollectIsSuffix<T>(s: seq<T>, position: nat)
    requires position <= |s|
    ensures Collect(s, position) == s[position..]
    decreases |s| - position
  {
    if position < |s| {
      if position + 1 < |s| {
        CollectIsSuffix(s, position + 1);
      }
      assert s[position..] == [s[position]] + s[position + 1..];
    }
  }

  /** Following the more flag from position 0 collects the whole list, in order. */
  lemma CollectFromStartIsWholeList<T>(s: seq<T>)
    ensures Collect(s, 0) == s
  {
    CollectIsSuffix(s, 0);
  }

  /**
   * The enumeration of a fault-signal set at a position: the callback walks
   * the set with a counter and answers the element whose count equals the
   * position, with more set while that element is not the last one. A
   * position past the end still answers (the callback returns true) with
   * more cleared and no element.
   */
  method ScanFaultSignals(faults: seq<uint32>, position: nat) returns (page: Page<uint32>)
    ensures position < |faults| ==> page == Item(faults[position], position < |faults| - 1)
    ensures position >= |faults| ==> page == PastEnd
    ensures page == PageAt(faults, position)
  {
    var count := 0;
    while count < |faults|
      invariant count <= |faults|
      invariant count <= position
    {
      var fault := faults[count];
      if count == position {
        return Item(fault, count < |faults| - 1);
      }
      count := count + 1;
    }
    return PastEnd;
  }

  /**
   * The element read of the three per-door list properties (Registered_Car_Call,
   * Assigned_Landing_Calls, Landing_Door_Status): the door is chosen by a
   * 1-based array index, the element by a 0-based offset, and more is cleared
   * on the last element. An empty list declines. Neither the door index nor
   * the offset is range-checked: door 0 (which wraps to the largest UInt32),
   * a door past the last one, or an offset past the end of a non-empty list
   * throw, which is a Fault.
   */
  function ReadListElement<T>(lists: seq<seq<T>>, door: nat, offset: nat): (r: Answer<(T, bool)>)
    ensures r.Fault? <==> door == 0 || door > |lists| || (|lists[door - 1]| > 0 && offset >= |lists[door - 1]|)
    ensures r.Declined? <==> 0 < door <= |lists| && |lists[door - 1]| == 0
    ensures r.Value? ==> 0 < door <= |lists| && PageAt(lists[door - 1], offset) == Item(r.value.0, r.value.1)
    ensures !r.Unwritten?
  {
    if door == 0 || door > |lists| then Fault
    else
      var list := lists[door - 1];
      if |list| == 0 then Declined
      else if offset >= |list| then Fault
      else Value((list[offset], !(offset + 1 == |list|)))
  }
}
