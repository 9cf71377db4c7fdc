/**
 * The list rules every acquisition tick applies to a single list: a window
 * that slides once it is full, a display list that is also emptied at
 * midnight, and a minute-record list that grows at whole minutes and is
 * emptied at whole hours. Also the configured input names.
 */
module Rolling {

  /** No input name is configured twice. */
  predicate Distinct(ain: seq<string>) {
    forall i, j :: 0 <= i < j < |ain| ==> ain[i] != ain[j]
  }

  function Inputs(ain: seq<string>): set<string> {
    set s | s in ain
  }

  lemma DistinctNotBefore(ain: seq<string>, i: int)
    requires Distinct(ain) && 0 <= i < |ain|
    ensures ain[i] !in ain[..i]
  {
  }

  /**
   * A window after one tick: x is appended and, when the window is full,
   * the front entry is dropped.
   */
  function Slide<T>(s: seq<T>, x: T, full: bool): (r: seq<T>)
    ensures |r| == if full then |s| else |s| + 1
  {
    if full then (s + [x])[1..] else s + [x]
  }

  /** A display list after one tick: it slides, and the midnight reset empties it. */
  function Display<T>(s: seq<T>, x: T, full: bool, midnight: bool): (r: seq<T>)
    ensures |r| == if midnight then 0 else if full then |s| else |s| + 1
  {
    if midnight then [] else Slide(s, x, full)
  }

  /** A minute-record list after one tick: x is appended at a whole minute; a whole hour empties it. */
  function Record<T>(s: seq<T>, x: T, atMinute: bool, atHour: bool): (r: seq<T>)
    ensures |r| == if atHour then 0 else if atMinute then |s| + 1 else |s|
  {
    if atHour then [] else if atMinute then s + [x] else s
  }

  /**
   * A window keeps the newest entries: after a tick it is a suffix of the
   * old window followed by x, as long as the old window once full, and it
   * ends with x unless it was empty and full.
   */
  lemma SlideKeepsNewest<T>(s: seq<T>, x: T, full: bool)
    ensures var r := Slide(s, x, full);
      r == (s + [x])[|s| + 1 - |r|..] && (|r| > 0 ==> r[|r| - 1] == x)
  {
  }

  /** A full window that already holds entries loses exactly its oldest entry. */
  lemma SlideFull<T>(s: seq<T>, x: T)
    requires |s| > 0
    ensures Slide(s, x, true) == s[1..] + [x]
  {
  }
}
