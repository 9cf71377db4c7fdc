/**
 * The spike debounce as a state machine. Each sensor group has a guard flag
 * (the source's spikeThreadRunningP / spikeThreadRunningT, which is True when
 * no episode of that group is running). A detection schedules a deferred
 * storeSpike only while the group's flag is set, and clears it; when a
 * scheduled storeSpike fires, it sets both flags again. `pending` lists the
 * scheduled callbacks in the order they will fire (all use the same delay).
 */
module Spike {

  datatype Kind = Temp | Pressure

  datatype Guard = Guard(armedP: bool, armedT: bool, pending: seq<Kind>)

  function Armed(g: Guard, k: Kind): bool {
    if k == Pressure then g.armedP else g.armedT
  }

  /** One detection decision of group k; `fired` says whether the detection rule held. */
  function Detect(g: Guard, k: Kind, fired: bool): (r: Guard)
    ensures fired && Armed(g, k) ==> r.pending == g.pending + [k] && !Armed(r, k)
    ensures !(fired && Armed(g, k)) ==> r == g
    ensures Armed(r, if k == Temp then Pressure else Temp) == Armed(g, if k == Temp then Pressure else Temp)
  {
    if fired && Armed(g, k) then
      (if k == Pressure then g.(armedP := false, pending := g.pending + [k])
       else g.(armedT := false, pending := g.pending + [k]))
    else g
  }

  /** The oldest scheduled storeSpike fires: it is dropped and both flags are set. */
  function Expire(g: Guard): (r: Guard)
    requires g.pending != []
    ensures r.armedP && r.armedT && r.pending == g.pending[1..]
  {
    Guard(true, true, g.pending[1..])
  }

  /** Two detections of the same group in a row act as one detection on either outcome. */
  lemma DetectTwice(g: Guard, k: Kind, a: bool, b: bool)
    ensures Detect(Detect(g, k, a), k, b) == Detect(g, k, a || b)
  {
  }

  /** Something that happens to the guards: a detection decision, or a scheduled callback firing. */
  datatype Event = Detected(kind: Kind, fired: bool) | Expired

  function Step(g: Guard, ev: Event): Guard {
    match ev
    case Detected(k, f) => Detect(g, k, f)
    case Expired => if g.pending == [] then g else Expire(g)
  }

  function Run(g: Guard, evs: seq<Event>): Guard
    decreases |evs|
  {
    if evs == [] then g else Run(Step(g, evs[0]), evs[1..])
  }

  function Count(s: seq<Kind>, k: Kind): nat {
    if s == [] then 0 else Count(s[..|s| - 1], k) + (if s[|s| - 1] == k then 1 else 0)
  }

  lemma CountAppend(s: seq<Kind>, k: Kind, x: Kind)
    ensures Count(s + [x], k) == Count(s, k) + (if x == k then 1 else 0)
  {
    assert (s + [x])[..|s|] == s;
  }

  predicate NoExpiry(evs: seq<Event>) {
    forall i :: 0 <= i < |evs| ==> evs[i].Detected?
  }

  /** Some event of the sequence is a detection of group k whose rule held. */
  predicate FiresFor(evs: seq<Event>, k: Kind) {
    exists i :: 0 <= i < |evs| && evs[i] == Detected(k, true)
  }

  /** Some detection of group k held: the first event, or one of the rest. */
  lemma FiresForFirst(evs: seq<Event>, k: Kind)
    requires evs != []
    ensures FiresFor(evs, k) <==> evs[0] == Detected(k, true) || FiresFor(evs[1..], k)
  {
    if FiresFor(evs, k) && evs[0] != Detected(k, true) {
      var i :| 0 <= i < |evs| && evs[i] == Detected(k, true);
      assert evs[1..][i - 1] == Detected(k, true);
    }
    if FiresFor(evs[1..], k) {
      var i :| 0 <= i < |evs[1..]| && evs[1..][i] == Detected(k, true);
      assert evs[i + 1] == Detected(k, true);
    }
  }

  /** One detection keeps the schedule as a prefix, adds at most its own group, and never arms a group. */
  lemma DetectStep(g: Guard, j: Kind, f: bool, k: Kind)
    ensures var r := Detect(g, j, f);
      && |r.pending| >= |g.pending| && r.pending[..|g.pending|] == g.pending
      && Count(r.pending, k) == Count(g.pending, k) + (if f && Armed(g, j) && j == k then 1 else 0)
      && (!Armed(g, k) ==> !Armed(r, k))
      && (Armed(r, k) <==> Armed(g, k) && !(f && j == k))
  {
    if f && Armed(g, j) {
      CountAppend(g.pending, k, j);
      assert (g.pending + [j])[..|g.pending|] == g.pending;
    } else {
      assert g.pending[..|g.pending|] == g.pending;
    }
  }

  /**
   * Debounce: while no scheduled callback fires, any number of detections of
   * group k, across any number of ticks and sensors, schedule at most one
   * callback for k -- exactly one when the group was armed and some detection
   * held, none otherwise. Earlier scheduled callbacks stay in place.
   */
  lemma {:induction false} Debounce(g: Guard, evs: seq<Event>, k: Kind)
    requires NoExpiry(evs)
    ensures |Run(g, evs).pending| >= |g.pending| && Run(g, evs).pending[..|g.pending|] == g.pending
    ensures Count(Run(g, evs).pending, k) == Count(g.pending, k) + (if Armed(g, k) && FiresFor(evs, k) then 1 else 0)
    ensures !Armed(g, k) ==> !Armed(Run(g, evs), k)
    decreases |evs|
  {
    if evs == [] {
      assert g.pending[..|g.pending|] == g.pending;
    } else {
      var ev := evs[0];
      assert ev.Detected?;
      var g1 := Detect(g, ev.kind, ev.fired);
      assert Step(g, ev) == g1;
      var rest := evs[1..];
      assert NoExpiry(rest);
      DetectStep(g, ev.kind, ev.fired, k);
      Debounce(g1, rest, k);
      FiresForFirst(evs, k);
      var p := Run(g1, rest).pending;
      assert p[..|g.pending|] == p[..|g1.pending|][..|g.pending|];
    }
  }

  /**
   * Because a firing callback sets both flags, a pressure episode ending
   * while a temperature episode is still scheduled lets a second temperature
   * episode be scheduled: two temperature callbacks are then outstanding.
   */
  lemma CrossGroupRearm()
    ensures var g := Run(Guard(true, true, []),
                         [Detected(Pressure, true), Detected(Temp, true), Expired, Detected(Temp, true)]);
            g.pending == [Temp, Temp] && !g.armedT && g.armedP
  {
  }
}
