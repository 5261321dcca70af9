/**
 * The state changes behind the console keys of the example: wrapping
 * counters for the car's direction, position and door status, the group-mode
 * toggle, moving the lift selection, and toggling a fault signal in a
 * lift's fault-signal set.
 */
module Console {
  import opened Bacnet

  /**
   * A counter field of the given width (0x100 for a Byte, 0x1_0000_0000 for a
   * UInt32) is incremented, wrapping to 0 past its largest value, and set back
   * to 0 once it has reached the length of the table that names its values.
   */
  function NextInCycle(v: nat, width: nat, bound: nat): (r: nat)
    requires 0 < bound && v < width
    ensures r < bound && r < width
    ensures v < bound <= width ==> r == if v + 1 == bound then 0 else v + 1
  {
    var incremented := if v + 1 == width then 0 else v + 1;
    if incremented >= bound then 0 else incremented
  }

  /** The counter after n presses of its key. */
  function PressRepeatedly(v: nat, width: nat, bound: nat, n: nat): (r: nat)
    requires 0 < bound && v < width
    ensures r < width
    ensures 0 < n ==> r < bound
  {
    if n == 0 then v else NextInCycle(PressRepeatedly(v, width, bound, n - 1), width, bound)
  }

  /** Short of the end of the table, each press advances the counter by one. */
  lemma {:induction false} PressesAdvance(v: nat, width: nat, bound: nat, n: nat)
    requires bound <= width && v + n < bound
    ensures PressRepeatedly(v, width, bound, n) == v + n
  {
    if n > 0 {
      PressesAdvance(v, width, bound, n - 1);
    }
  }

  /** a presses followed by b presses are a + b presses. */
  lemma {:induction false} PressesCompose(v: nat, width: nat, bound: nat, a: nat, b: nat)
    requires 0 < bound && v < width
    ensures PressRepeatedly(v, width, bound, a + b) == PressRepeatedly(PressRepeatedly(v, width, bound, a), width, bound, b)
  {
    if b > 0 {
      PressesCompose(v, width, bound, a, b - 1);
      assert a + b - 1 == a + (b - 1);
    }
  }

  /** Pressing the key once for every entry of the table brings the counter back to where it was. */
  lemma FullCycleReturns(v: nat, width: nat, bound: nat)
    requires v < bound <= width
    ensures PressRepeatedly(v, width, bound, bound) == v
  {
    var toEnd := bound - v;
    PressesAdvance(v, width, bound, toEnd - 1);
    assert PressRepeatedly(v, width, bound, toEnd) == 0;
    PressesCompose(v, width, bound, toEnd, v);
    if v > 0 {
      PressesAdvance(0, width, bound, v);
    }
  }

  /** The M key: group mode normal (1) becomes unknown (0); any other mode becomes normal. */
  function ToggleGroupMode(mode: uint32): (r: uint32)
    ensures r == 0 || r == 1
    ensures r == 0 <==> mode == 1
  {
    if mode == 1 then 0 else 1
  }

  /** Toggling twice restores a mode that is normal or unknown. */
  lemma ToggleGroupModeTwice(mode: uint32)
    requires mode == 0 || mode == 1
    ensures ToggleGroupMode(ToggleGroupMode(mode)) == mode
  {
  }

  /** The left arrow: the selection moves one lift back, unless it is on the first. */
  function SelectLeft(selected: int, count: nat): (r: int)
    requires 0 <= selected < count
    ensures 0 <= r < count
    ensures r == selected - 1 || r == selected
    ensures r == selected <==> selected == 0
  {
    if selected > 0 then selected - 1 else selected
  }

  /** The right arrow: the selection moves one lift on, unless it is on the last. */
  function SelectRight(selected: int, count: nat): (r: int)
    requires 0 <= selected < count
    ensures 0 <= r < count
    ensures r == selected + 1 || r == selected
    ensures r == selected <==> selected == count - 1
  {
    if selected < count - 1 then selected + 1 else selected
  }

  /** The set enumeration with one value removed, the others kept in their order. */
  function Without(s: seq<uint32>, f: uint32): (r: seq<uint32>)
    ensures forall x :: x in r <==> x in s && x != f
    ensures |r| <= |s|
  {
    if s == [] then []
    else (if s[0] == f then [] else [s[0]]) + Without(s[1..], f)
  }

  lemma {:induction false} WithoutKeepsNoDuplicates(s: seq<uint32>, f: uint32)
    requires NoDuplicates(s)
    ensures NoDuplicates(Without(s, f))
  {
    if s != [] {
      var rest := s[1..];
      assert NoDuplicates(rest) by {
        forall i, j | 0 <= i < j < |rest|
          ensures rest[i] != rest[j]
        {
          assert rest[i] == s[i + 1] && rest[j] == s[j + 1];
        }
      }
      WithoutKeepsNoDuplicates(rest, f);
      assert s[0] !in rest by {
        forall k | 0 <= k < |rest|
          ensures rest[k] != s[0]
        {
          assert rest[k] == s[k + 1];
        }
      }
      var tail := Without(rest, f);
      assert s[0] !in tail;
      var head := if s[0] == f then [] else [s[0]];
      assert Without(s, f) == head + tail;
      forall i, j | 0 <= i < j < |head + tail|
        ensures (head + tail)[i] != (head + tail)[j]
      {
        if i < |head| {
          assert (head + tail)[j] == tail[j - |head|];
        } else {
          assert (head + tail)[i] == tail[i - |head|] && (head + tail)[j] == tail[j - |head|];
        }
      }
    }
  }

  /** The F key: a fault signal in the set is removed, one not in it is added. */
  function ToggleFault(faults: seq<uint32>, f: uint32): (r: seq<uint32>)
    ensures f in r <==> f !in faults
    ensures forall x :: x != f ==> (x in r <==> x in faults)
  {
    if f in faults then Without(faults, f) else faults + [f]
  }

  /** Toggling keeps the enumeration free of duplicates: it stays a set. */
  lemma ToggleFaultKeepsSet(faults: seq<uint32>, f: uint32)
    requires NoDuplicates(faults)
    ensures NoDuplicates(ToggleFault(faults, f))
  {
    if f in faults {
      WithoutKeepsNoDuplicates(faults, f);
    } else {
      var r := faults + [f];
      forall i, j | 0 <= i < j < |r|
        ensures r[i] != r[j]
      {
        if j == |faults| {
          assert r[i] == faults[i];
        } else {
          assert r[i] == faults[i] && r[j] == faults[j];
        }
      }
    }
  }

  /** Toggling the same fault signal twice gives back a set with the same members. */
  lemma ToggleFaultTwice(faults: seq<uint32>, f: uint32)
    ensures forall x :: x in ToggleFault(ToggleFault(faults, f), f) <==> x in faults
  {
  }
}
