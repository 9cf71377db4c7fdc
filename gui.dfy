/**
 * The main window's run control: start and stop, the tail of each periodic
 * plot update (minute-record "Time" column, view window, reschedule), the
 * choice of the plot's visible time range, and the per-sensor dictionaries
 * it sets up once for the acquisition object to fill.
 */
module Gui {
  import opened Options
  import opened Clock
  import opened Rolling
  import opened Spike
  import opened Ticks
  import opened Daq

  /** The analog inputs of each sensor group. */
  const AINT: seq<string> := ["AIN0", "AIN4"]
  const AINP: seq<string> := ["AIN3"]
  const AINM: seq<string> := ["AIN2"]

  /** Lead-wire resistance of each temperature input, in ohms. */
  const ResValues: map<string, real> := map["AIN0" := 1.080, "AIN4" := 1.099]

  /** Update periods, in seconds, of the magnetic, temperature and pressure plots. */
  const MagPeriod: real := 0.95
  const TempPeriod: real := 0.95
  const PressPeriod: real := 1.0 / 3.0

  /** No input is configured twice. */
  lemma InputsDistinct()
    ensures Distinct(AINT) && Distinct(AINP) && Distinct(AINM)
  {
    assert "AIN0"[3] != "AIN4"[3];
  }

  /** The lead resistances are given for exactly the temperature inputs. */
  lemma ResValuesKeyed()
    ensures ResValues.Keys == Inputs(AINT)
  {
    assert AINT[0] == "AIN0" && AINT[1] == "AIN4";
  }

  /** A one-shot timer field: none yet, started with a period, or cancelled. */
  datatype Timer = NoTimer | Started(period: real) | Cancelled(period: real)

  /** Cancelling stops a started timer and does nothing to any other. */
  function Cancel(tm: Timer): (r: Timer)
    ensures !r.Started?
    ensures tm.Started? ==> r == Cancelled(tm.period)
    ensures !tm.Started? ==> r == tm
  {
    if tm.Started? then Cancelled(tm.period) else tm
  }

  /** Python's int() of a float: truncation toward zero. */
  function Trunc(x: real): (r: int)
    ensures 0.0 <= x ==> 0 <= r && r as real <= x < r as real + 1.0
    ensures x < 0.0 ==> r <= 0 && r as real - 1.0 < x <= r as real
  {
    if x >= 0.0 then x.Floor else -((-x).Floor)
  }

  lemma FloorShift(y: real, k: int)
    ensures (y + k as real).Floor == y.Floor + k
  {
  }

  /** What a view update does to the plot: nothing, switch the combo box, or set the visible range. */
  datatype ViewAction = Keep | SelectIndex(index: int) | SetXRange(lo: int, hi: int)

  /** The visible window of combo-box entries 1, 2 and 3: 90 s, 5 min, 10 min. */
  function Width(index: int): int
    requires 1 <= index <= 3
  {
    if index == 1 then 90 else if index == 2 then 300 else 600
  }

  /**
   * There is enough data for entry `index`: more than 90 s for the 90 s
   * window, at least 5 and 10 minutes for the others.
   */
  predicate Enough(index: int, last: real)
    requires 1 <= index <= 3
  {
    if index == 1 then last > 90.0 else last >= Width(index) as real
  }

  /**
   * The view decision of one update, from the combo-box index read on entry
   * and the newest elapsed time. The default entry switches to the 90 s
   * entry once there are more than 90 s of data (and does not also show it
   * in the same update); a windowed entry shows its window ending 5 s after
   * the newest sample when there is enough data, and falls back to the
   * default entry otherwise.
   */
  function ViewWindow(index: int, last: real): (a: ViewAction)
    ensures a == SelectIndex(1) <==> index == 0 && last > 90.0
    ensures a == SelectIndex(0) <==> 1 <= index <= 3 && !Enough(index, last)
    ensures a.SetXRange? <==> 1 <= index <= 3 && Enough(index, last)
    ensures a == Keep <==> index < 0 || index > 3 || (index == 0 && last <= 90.0)
    ensures a.SetXRange? ==>
      && 0 <= a.lo && a.hi - a.lo == Width(index) + 5
      && a.lo as real <= last - Width(index) as real < a.lo as real + 1.0
  {
    if index == 0 then
      (if last > 90.0 then SelectIndex(1) else Keep)
    else if 1 <= index <= 3 then
      (if Enough(index, last) then
         var lo := Trunc(last - Width(index) as real);
         FloorShift(last - Width(index) as real, Width(index) + 5);
         SetXRange(lo, Trunc(last + 5.0))
       else SelectIndex(0))
    else Keep
  }

  /**
   * Switching from the default entry is followed, on the next update with
   * no less data, by the 90 s window.
   */
  lemma DefaultThenNinety(last: real, later: real)
    requires ViewWindow(0, last) == SelectIndex(1) && later >= last
    ensures ViewWindow(1, later).SetXRange?
    ensures ViewWindow(1, later).hi - ViewWindow(1, later).lo == 95
  {
  }

  /** Clearing each sensor's display list, leaving its other lists alone. */
  function TempDataCleared(ch: TempChannels): (r: TempChannels)
    ensures r.Keys == ch.Keys
    ensures forall x :: x in r ==> r[x].data == [] && r[x] == ch[x].(data := [])
  {
    map x | x in ch :: ch[x].(data := [])
  }

  function PressDataCleared(ch: PressChannels): (r: PressChannels)
    ensures r.Keys == ch.Keys
    ensures forall x :: x in r ==> r[x].data == [] && r[x] == ch[x].(data := [])
  {
    map x | x in ch :: ch[x].(data := [])
  }

  function MagDataCleared(ch: MagChannels): (r: MagChannels)
    ensures r.Keys == ch.Keys
    ensures forall x :: x in r ==> r[x].data == [] && r[x] == ch[x].(data := [])
  {
    map x | x in ch :: ch[x].(data := [])
  }

  /** Emptying a group's time list together with every display list keeps its lists aligned. */
  lemma StopAligned(t: TempLists, p: PressLists, m: MagLists)
    requires TempAligned(t) && PressAligned(p) && MagAligned(m)
    ensures TempAligned(t.(time := [], channels := TempDataCleared(t.channels)))
    ensures PressAligned(p.(time := [], channels := PressDataCleared(p.channels)))
    ensures MagAligned(m.(time := [], channels := MagDataCleared(m.channels)))
  {
  }

  /** Stopping a run keeps the window's invariant. */
  twostate lemma StopKeepsValid(w: MainWindow)
    requires old(w.Valid()) && !w.e && w.test == old(w.test)
    requires w.daqClass.timeT == [] && w.daqClass.timeP == [] && w.daqClass.timeM == []
    requires unchanged(w.daqClass`spikeTimeT, w.daqClass`labelsT, w.daqClass`spikeTimeP, w.daqClass`labelsP, w.daqClass`labelsM)
    requires unchanged(w.dictsT`timeColumn, w.dictsP`timeColumn, w.dictsM`timeColumn)
    requires w.dictsT.channels == TempDataCleared(old(w.dictsT.channels))
    requires w.dictsP.channels == PressDataCleared(old(w.dictsP.channels))
    requires w.dictsM.channels == MagDataCleared(old(w.dictsM.channels))
    ensures w.Valid()
  {
    StopAligned(old(TempOf(w.daqClass, w.dictsT)), old(PressOf(w.daqClass, w.dictsP)), old(MagOf(w.daqClass, w.dictsM)));
  }

  /** A temperature update keeps the window's invariant: its own lists stay aligned and the other groups are untouched. */
  twostate lemma TempUpdateKeepsValid(w: MainWindow)
    requires old(w.Valid()) && w.e == old(w.e) && w.test == old(w.test)
    requires w.dictsT.channels.Keys == old(w.dictsT.channels.Keys)
    requires TempAligned(TempOf(w.daqClass, w.dictsT)) && w.dictsT.timeColumn == Some(w.daqClass.labelsT)
    requires unchanged(w.daqClass`timeP, w.daqClass`spikeTimeP, w.daqClass`labelsP, w.daqClass`timeM, w.daqClass`labelsM)
    requires unchanged(w.dictsP, w.dictsM)
    ensures w.Valid()
  {
  }

  /** A pressure update keeps the window's invariant. */
  twostate lemma PressUpdateKeepsValid(w: MainWindow)
    requires old(w.Valid()) && w.e == old(w.e) && w.test == old(w.test)
    requires w.dictsP.channels.Keys == old(w.dictsP.channels.Keys)
    requires PressAligned(PressOf(w.daqClass, w.dictsP)) && w.dictsP.timeColumn == Some(w.daqClass.labelsP)
    requires unchanged(w.daqClass`timeT, w.daqClass`spikeTimeT, w.daqClass`labelsT, w.daqClass`timeM, w.daqClass`labelsM)
    requires unchanged(w.dictsT, w.dictsM)
    ensures w.Valid()
  {
  }

  /** A magnetic update keeps the window's invariant. */
  twostate lemma MagUpdateKeepsValid(w: MainWindow)
    requires old(w.Valid()) && w.e == old(w.e) && w.test == old(w.test)
    requires w.dictsM.channels.Keys == old(w.dictsM.channels.Keys)
    requires MagAligned(MagOf(w.daqClass, w.dictsM)) && w.dictsM.timeColumn == Some(w.daqClass.labelsM)
    requires unchanged(w.daqClass`timeT, w.daqClass`spikeTimeT, w.daqClass`labelsT)
    requires unchanged(w.daqClass`timeP, w.daqClass`spikeTimeP, w.daqClass`labelsP)
    requires unchanged(w.dictsT, w.dictsP)
    ensures w.Valid()
  {
  }

  /** For each configured temperature input, empty its display list. */
  method ClearTempData(ch: TempChannels, ain: seq<string>) returns (r: TempChannels)
    requires Distinct(ain) && ch.Keys == Inputs(ain)
    ensures r == TempDataCleared(ch)
  {
    r := ch;
    var i := 0;
    while i < |ain|
      invariant 0 <= i <= |ain| && r.Keys == ch.Keys
      invariant forall y :: y in r ==> r[y] == if y in ain[..i] then ch[y].(data := []) else ch[y]
    {
      var x := ain[i];
      DistinctNotBefore(ain, i);
      assert ain[..i + 1] == ain[..i] + [x];
      r := r[x := r[x].(data := [])];
      i := i + 1;
    }
    assert ain[..i] == ain;
  }

  /** For each configured pressure input, empty its display list. */
  method ClearPressData(ch: PressChannels, ain: seq<string>) returns (r: PressChannels)
    requires Distinct(ain) && ch.Keys == Inputs(ain)
    ensures r == PressDataCleared(ch)
  {
    r := ch;
    var i := 0;
    while i < |ain|
      invariant 0 <= i <= |ain| && r.Keys == ch.Keys
      invariant forall y :: y in r ==> r[y] == if y in ain[..i] then ch[y].(data := []) else ch[y]
    {
      var x := ain[i];
      DistinctNotBefore(ain, i);
      assert ain[..i + 1] == ain[..i] + [x];
      r := r[x := r[x].(data := [])];
      i := i + 1;
    }
    assert ain[..i] == ain;
  }

  /** For each configured magnetic input, empty its display list. */
  method ClearMagData(ch: MagChannels, ain: seq<string>) returns (r: MagChannels)
    requires Distinct(ain) && ch.Keys == Inputs(ain)
    ensures r == MagDataCleared(ch)
  {
    r := ch;
    var i := 0;
    while i < |ain|
      invariant 0 <= i <= |ain| && r.Keys == ch.Keys
      invariant forall y :: y in r ==> r[y] == if y in ain[..i] then ch[y].(data := []) else ch[y]
    {
      var x := ain[i];
      DistinctNotBefore(ain, i);
      assert ain[..i + 1] == ain[..i] + [x];
      r := r[x := r[x].(data := [])];
      i := i + 1;
    }
    assert ain[..i] == ain;
  }

  class MainWindow {
    /** The class-level lists of the acquisition class, and the window's per-sensor dictionaries. */
    const daqClass: DaqShared
    const dictsT: TempStore
    const dictsP: PressStore
    const dictsM: MagStore

    /** The run flag: the updates reschedule themselves while it is set. */
    var e: bool
    var closing: bool
    /** The view combo box's current entry. */
    var comboIndex: int
    var test: Daq?
    var magTimer: Timer
    var tempTimer: Timer
    var pressTimer: Timer

    /** The temperature dictionary has exactly its inputs, its lists line up, and its "Time" column is the label list. */
    predicate TempValid()
      reads daqClass`timeT, daqClass`spikeTimeT, daqClass`labelsT, dictsT`channels, dictsT`timeColumn
    {
      && dictsT.channels.Keys == Inputs(AINT)
      && TempAligned(TempOf(daqClass, dictsT))
      && (dictsT.timeColumn.Some? ==> dictsT.timeColumn.value == daqClass.labelsT)
    }

    predicate PressValid()
      reads daqClass`timeP, daqClass`spikeTimeP, daqClass`labelsP, dictsP`channels, dictsP`timeColumn
    {
      && dictsP.channels.Keys == Inputs(AINP)
      && PressAligned(PressOf(daqClass, dictsP))
      && (dictsP.timeColumn.Some? ==> dictsP.timeColumn.value == daqClass.labelsP)
    }

    predicate MagValid()
      reads daqClass`timeM, daqClass`labelsM, dictsM`channels, dictsM`timeColumn
    {
      && dictsM.channels.Keys == Inputs(AINM)
      && MagAligned(MagOf(daqClass, dictsM))
      && (dictsM.timeColumn.Some? ==> dictsM.timeColumn.value == daqClass.labelsM)
    }

    /** While the run flag is set there is an acquisition object, and it uses the class-level lists. */
    predicate RunValid()
      reads this`e, this`test
    {
      && (e ==> test != null)
      && (test != null ==> test.shared == daqClass)
    }

    /**
     * Every dictionary has exactly its group's inputs, each group's parallel
     * lists line up, a minute-record "Time" column, once added, is the
     * group's label list, and the acquisition object (once there is one)
     * uses the class-level lists.
     */
    predicate Valid()
      reads this`e, this`test, daqClass, dictsT, dictsP, dictsM
    {
      TempValid() && PressValid() && MagValid() && RunValid()
    }

    /** The window as first set up: one empty list per input in every dictionary, not running. */
    constructor ()
      ensures Valid() && !e && !closing && comboIndex == 0 && test == null
      ensures magTimer == NoTimer && tempTimer == NoTimer && pressTimer == NoTimer
      ensures forall x :: x in dictsT.channels ==> dictsT.channels[x] == EmptyTemp
      ensures forall x :: x in dictsP.channels ==> dictsP.channels[x] == EmptyPress
      ensures forall x :: x in dictsM.channels ==> dictsM.channels[x] == EmptyMag
      ensures dictsT.timeColumn == None && dictsP.timeColumn == None && dictsM.timeColumn == None
    {
      daqClass := new DaqShared();
      dictsT := new TempStore(AINT);
      dictsP := new PressStore(AINP);
      dictsM := new MagStore(AINM);
      e, closing, comboIndex, test := false, false, 0, null;
      magTimer, tempTimer, pressTimer := NoTimer, NoTimer, NoTimer;
      new;
      EmptyAligned(dictsT.channels, dictsP.channels, dictsM.channels);
    }

    /**
     * Starts a run: unless one is running, a new acquisition object (epoch
     * `now`) and the three plot timers with their periods.
     */
    method StartRun(now: real)
      requires Valid()
      modifies this`e, this`test, this`magTimer, this`tempTimer, this`pressTimer
      ensures Valid() && e
      ensures old(e) ==>
        (test == old(test) && magTimer == old(magTimer) && tempTimer == old(tempTimer) && pressTimer == old(pressTimer))
      ensures !old(e) ==>
        (&& test != null && fresh(test) && test.start == now
         && test.armedP && test.armedT && test.pending == []
         && magTimer == Started(MagPeriod) && tempTimer == Started(TempPeriod) && pressTimer == Started(PressPeriod))
    {
      if e {
        return;
      }
      test := new Daq(daqClass, now);
      e := true;
      magTimer := Started(MagPeriod);
      tempTimer := Started(TempPeriod);
      pressTimer := Started(PressPeriod);
    }

    /**
     * Stops a running run: clears the run flag, empties the three time
     * lists, cancels the timers and empties every display list. Minute
     * records, averaging buffers and spike lists are kept. When no run is
     * going, nothing changes, so a second stop is a no-op.
     */
    method StopRun()
      requires Valid()
      modifies this`e, this`magTimer, this`tempTimer, this`pressTimer
      modifies daqClass`timeT, daqClass`timeP, daqClass`timeM, dictsT`channels, dictsP`channels, dictsM`channels
      ensures Valid() && !e
      ensures !old(e) ==>
        (&& unchanged(daqClass, dictsT, dictsP, dictsM)
         && magTimer == old(magTimer) && tempTimer == old(tempTimer) && pressTimer == old(pressTimer))
      ensures old(e) ==>
        (&& daqClass.timeT == [] && daqClass.timeP == [] && daqClass.timeM == []
         && dictsT.channels == TempDataCleared(old(dictsT.channels))
         && dictsP.channels == PressDataCleared(old(dictsP.channels))
         && dictsM.channels == MagDataCleared(old(dictsM.channels))
         && magTimer == Cancel(old(magTimer)) && tempTimer == Cancel(old(tempTimer))
         && pressTimer == Cancel(old(pressTimer)))
    {
      if e {
        e := false;
        test.StopRun();
        magTimer, tempTimer, pressTimer := Cancel(magTimer), Cancel(tempTimer), Cancel(pressTimer);
        ClearDisplays();
        StopKeepsValid(this);
      }
    }

    /** Empties every sensor's display list in the three dictionaries. */
    method ClearDisplays()
      requires dictsT.channels.Keys == Inputs(AINT)
      requires dictsP.channels.Keys == Inputs(AINP)
      requires dictsM.channels.Keys == Inputs(AINM)
      modifies dictsT`channels, dictsP`channels, dictsM`channels
      ensures dictsT.channels == TempDataCleared(old(dictsT.channels))
      ensures dictsP.channels == PressDataCleared(old(dictsP.channels))
      ensures dictsM.channels == MagDataCleared(old(dictsM.channels))
    {
      InputsDistinct();
      var m := ClearMagData(dictsM.channels, AINM);
      dictsM.channels := m;
      var tc := ClearTempData(dictsT.channels, AINT);
      dictsT.channels := tc;
      var p := ClearPressData(dictsP.channels, AINP);
      dictsP.channels := p;
    }

    /**
     * The view update: unless the window is closing, apply the view decision
     * for the combo-box entry read on entry and the newest elapsed time.
     */
    method ImageUpdate1(xData: seq<real>) returns (view: Option<ViewAction>)
      requires |xData| >= 1
      modifies this`comboIndex
      ensures closing ==> view == None && comboIndex == old(comboIndex)
      ensures !closing ==> view == Some(ViewWindow(old(comboIndex), xData[|xData| - 1]))
      ensures comboIndex == if view.Some? && view.value.SelectIndex? then view.value.index else old(comboIndex)
    {
      var index := comboIndex;
      if closing {
        return None;
      }
      var a := ViewWindow(index, xData[|xData| - 1]);
      if a.SelectIndex? {
        comboIndex := a.index;
      }
      view := Some(a);
    }

    /**
     * The view step at the end of a plot update: the window follows the
     * newest elapsed time only when the plot is shown and has data.
     */
    method ShowLatest(xData: seq<real>, shown: bool) returns (view: Option<ViewAction>)
      modifies this`comboIndex
      ensures shown && xData != [] && !closing ==> view == Some(ViewWindow(old(comboIndex), xData[|xData| - 1]))
      ensures !(shown && xData != []) ==> view == None && comboIndex == old(comboIndex)
      ensures closing ==> view == None
      ensures comboIndex == if view.Some? && view.value.SelectIndex? then view.value.index else old(comboIndex)
    {
      view := None;
      if shown && |xData| >= 1 {
        view := ImageUpdate1(xData);
      }
    }

    /**
     * The magnetic plot update: one magnetic tick, the "Time" column of the
     * minute records set to the label list, the view update when this plot
     * is shown and has data, and a new timer only while the run flag is set.
     */
    method UpdatePlot1(now: real, clock: WallTime, v: map<string, real>, shown: bool)
      returns (view: Option<ViewAction>)
      requires Valid() && test != null && Inputs(AINM) <= v.Keys && clock.Valid()
      modifies test`start, daqClass`timeM, daqClass`labelsM, dictsM`channels, dictsM`timeColumn
      modifies this`comboIndex, this`magTimer
      ensures Valid()
      ensures MagOf(daqClass, dictsM) == MagTick(old(MagOf(daqClass, dictsM)), v, Elapsed(now, old(test.start)), clock)
      ensures dictsM.timeColumn == Some(daqClass.labelsM)
      ensures shown && daqClass.timeM != [] && !closing
        ==> view == Some(ViewWindow(old(comboIndex), daqClass.timeM[|daqClass.timeM| - 1]))
      ensures !(shown && daqClass.timeM != []) ==> view == None && comboIndex == old(comboIndex)
      ensures closing ==> view == None
      ensures comboIndex == if view.Some? && view.value.SelectIndex? then view.value.index else old(comboIndex)
      ensures test.start == if clock.AtMidnight() then now else old(test.start)
      ensures magTimer == if e then Started(MagPeriod) else old(magTimer)
    {
      InputsDistinct();
      var xData, labels := test.MData(AINM, dictsM, now, clock, v);
      dictsM.timeColumn := Some(labels);
      view := ShowLatest(xData, shown);
      if e {
        magTimer := Started(MagPeriod);
      }
      MagUpdateKeepsValid(this);
    }

    /** The temperature plot update, with the derivative check of the tick. */
    method UpdatePlot2(now: real, clock: WallTime, v: map<string, real>, shown: bool)
      returns (view: Option<ViewAction>)
      requires Valid() && test != null && Inputs(AINT) <= v.Keys && clock.Valid()
      modifies test`start, test`armedT, test`pending
      modifies daqClass`timeT, daqClass`spikeTimeT, daqClass`labelsT, dictsT`channels, dictsT`timeColumn
      modifies this`comboIndex, this`tempTimer
      ensures Valid()
      ensures TempOf(daqClass, dictsT) == TempTick(old(TempOf(daqClass, dictsT)), v, Elapsed(now, old(test.start)), clock)
      ensures test.GuardOf() == Detect(old(test.GuardOf()), Temp, AnySteep(dictsT.channels, AINT))
      ensures dictsT.timeColumn == Some(daqClass.labelsT)
      ensures shown && daqClass.timeT != [] && !closing
        ==> view == Some(ViewWindow(old(comboIndex), daqClass.timeT[|daqClass.timeT| - 1]))
      ensures !(shown && daqClass.timeT != []) ==> view == None && comboIndex == old(comboIndex)
      ensures closing ==> view == None
      ensures comboIndex == if view.Some? && view.value.SelectIndex? then view.value.index else old(comboIndex)
      ensures test.start == if clock.AtMidnight() then now else old(test.start)
      ensures tempTimer == if e then Started(TempPeriod) else old(tempTimer)
    {
      InputsDistinct();
      var xData, labels := test.TData(AINT, dictsT, now, clock, v);
      dictsT.timeColumn := Some(labels);
      view := ShowLatest(xData, shown);
      if e {
        tempTimer := Started(TempPeriod);
      }
      TempUpdateKeepsValid(this);
    }

    /** The pressure plot update, with the threshold check of the tick. */
    method UpdatePlot3(now: real, clock: WallTime, v: map<string, real>, shown: bool)
      returns (view: Option<ViewAction>)
      requires Valid() && test != null && Inputs(AINP) <= v.Keys && clock.Valid()
      modifies test`start, test`armedP, test`pending
      modifies daqClass`timeP, daqClass`spikeTimeP, daqClass`labelsP, dictsP`channels, dictsP`timeColumn
      modifies this`comboIndex, this`pressTimer
      ensures Valid()
      ensures PressOf(daqClass, dictsP) == PressTick(old(PressOf(daqClass, dictsP)), v, Elapsed(now, old(test.start)), clock)
      ensures test.GuardOf() == Detect(old(test.GuardOf()), Pressure, AnyOverThreshold(v, AINP))
      ensures dictsP.timeColumn == Some(daqClass.labelsP)
      ensures shown && daqClass.timeP != [] && !closing
        ==> view == Some(ViewWindow(old(comboIndex), daqClass.timeP[|daqClass.timeP| - 1]))
      ensures !(shown && daqClass.timeP != []) ==> view == None && comboIndex == old(comboIndex)
      ensures closing ==> view == None
      ensures comboIndex == if view.Some? && view.value.SelectIndex? then view.value.index else old(comboIndex)
      ensures test.start == if clock.AtMidnight() then now else old(test.start)
      ensures pressTimer == if e then Started(PressPeriod) else old(pressTimer)
    {
      InputsDistinct();
      var xData, labels := test.PData(AINP, dictsP, now, clock, v);
      dictsP.timeColumn := Some(labels);
      view := ShowLatest(xData, shown);
      if e {
        pressTimer := Started(PressPeriod);
      }
      PressUpdateKeepsValid(this);
    }
  }
}
