/**
 The event list of muduo/EpollPoller.cpp.  epoll_wait fills the first slots of `events_`, and
 fillActivateChannels, as it is written, walks all of them.
 */
module EventSlots {
  const INITIAL_SLOTS: nat := 16

  /** The list after epoll_wait: the slots behind those reported hold what they held before. */
  function Filled<T>(reported: seq<T>, slots: seq<T>): seq<T>
    requires |reported| <= |slots|
  {
    reported + slots[|reported|..]
  }

  /** The slots that the loop over the list visits; it is not reached when nothing is reported. */
  function Visited<T>(reported: seq<T>, slots: seq<T>): seq<T>
    requires |reported| <= |slots|
  {
    if reported == [] then [] else Filled(reported, slots)
  }

  /** The list the poll leaves behind: it doubles when it was full, with empty slots. */
  function Kept<T>(reported: seq<T>, slots: seq<T>, empty: T): seq<T>
    requires |reported| <= |slots|
  {
    var filled := Filled(reported, slots);
    if reported != [] && |reported| == |slots| then filled + seq(|slots|, _ => empty) else filled
  }

  /** What is visited is what was reported if and only if nothing was, or the list was full. */
  lemma VisitedIffFull<T>(reported: seq<T>, slots: seq<T>)
    requires |reported| <= |slots|
    ensures Visited(reported, slots) == reported <==> reported == [] || |reported| == |slots|
  {
    assert |Filled(reported, slots)| == |slots|;
  }

  /** The last slot is always empty between polls, so a poll visits an empty slot if and only if it
      reports something without filling the list. */
  lemma LastSlotIsEmpty<T>(reported: seq<T>, slots: seq<T>, empty: T)
    requires |reported| <= |slots| && empty !in reported && slots != [] && slots[|slots| - 1] == empty
    ensures empty in Visited(reported, slots) <==> 0 < |reported| < |slots|
    ensures var kept := Kept(reported, slots, empty); |kept| >= |slots| && kept[|kept| - 1] == empty
  {
    var filled := Filled(reported, slots);
    if |reported| < |slots| {
      assert filled[|slots| - 1] == slots[|slots| - 1];
    } else {
      assert filled == reported;
    }
  }

  /** A full list doubles, with empty slots behind what was reported; any other keeps its size and the slots
      behind what was reported. */
  lemma KeptSize<T>(reported: seq<T>, slots: seq<T>, empty: T)
    requires |reported| <= |slots| && reported != []
    ensures var kept := Kept(reported, slots, empty);
            && kept[..|reported|] == reported
            && |kept| == (if |reported| == |slots| then 2 * |slots| else |slots|)
            && forall i :: |reported| <= i < |kept| ==> kept[i] == if |reported| == |slots| then empty else slots[i]
  {
    var filled := Filled(reported, slots);
    assert |reported| == |slots| ==> filled == reported;
  }
}
