/**
 * What one acquisition tick does to the lists of one sensor group.
 *
 * Every group keeps a display window (a time list and one list per sensor),
 * minute records (an "HH:MM" label list and one list of minute means per
 * sensor) and a one-minute averaging buffer per sensor. Temperature and
 * pressure also keep a spike window ("HH:MM:SS" labels and samples);
 * temperature adds a window of smoothed values for the derivative rule.
 *
 * The per-sensor dictionaries of a group (display, minute, buffer, spike
 * and derivative dictionaries) all have the same keys; here they are one
 * dictionary from sensor to a channel record holding that sensor's lists.
 *
 * `TempTick`, `PressTick` and `MagTick` say what a tick produces; the
 * methods `TempStep`, `PressStep` and `MagStep` do it one sensor at a time
 * and are proved to produce exactly that.
 */
module Ticks {
  import opened Clock
  import opened Stats
  import opened Rolling

  /** Display lists keep 15 minutes: from then on each tick drops one front entry. */
  const DisplayHorizon: real := 900.0
  /** The averaging buffer keeps one minute. */
  const AverageHorizon: real := 60.0
  /** From two minutes on, each temperature tick adds a smoothed value and drops a spike sample. */
  const DerivativeStart: real := 120.0
  /** From four minutes on, the derivative window also drops its front value. */
  const DerivativeHorizon: real := 240.0
  /** The pressure spike window keeps three minutes. */
  const PressureSpikeHorizon: real := 180.0
  /** Magnetic minute values are stored in milligauss: volts times 1000. */
  const MilliScale: real := 1000.0

  /** One temperature sensor's lists: display, minute means, averaging buffer, spike samples, derivative window. */
  datatype TempChannel = TempChannel(data: seq<real>, filelist: seq<real>, buffer: seq<real>,
                                     spikeData: seq<real>, derAvg: seq<real>)

  /** One pressure sensor's lists. */
  datatype PressChannel = PressChannel(data: seq<real>, filelist: seq<real>, buffer: seq<real>, spikeData: seq<real>)

  /** One magnetic sensor's lists. */
  datatype MagChannel = MagChannel(data: seq<real>, filelist: seq<real>, buffer: seq<real>)

  type TempChannels = map<string, TempChannel>
  type PressChannels = map<string, PressChannel>
  type MagChannels = map<string, MagChannel>

  /** The temperature group: time list, spike-time labels, minute labels and the channels. */
  datatype TempLists = TempLists(time: seq<real>, spikeTime: seq<string>, labels: seq<string>, channels: TempChannels)

  datatype PressLists = PressLists(time: seq<real>, spikeTime: seq<string>, labels: seq<string>, channels: PressChannels)

  datatype MagLists = MagLists(time: seq<real>, labels: seq<string>, channels: MagChannels)

  /**
   * Parallel lists line up: every display list is as long as the time list,
   * every minute list as long as the label list, every spike list as long as
   * the spike-time list, and the buffers (and derivative windows) of all
   * sensors have equal lengths.
   */
  predicate TempAligned(s: TempLists) {
    && (forall x :: x in s.channels ==>
          |s.channels[x].data| == |s.time| && |s.channels[x].filelist| == |s.labels|
          && |s.channels[x].spikeData| == |s.spikeTime|)
    && (forall x, y :: x in s.channels && y in s.channels ==>
          |s.channels[x].buffer| == |s.channels[y].buffer| && |s.channels[x].derAvg| == |s.channels[y].derAvg|)
  }

  predicate PressAligned(s: PressLists) {
    && (forall x :: x in s.channels ==>
          |s.channels[x].data| == |s.time| && |s.channels[x].filelist| == |s.labels|
          && |s.channels[x].spikeData| == |s.spikeTime|)
    && (forall x, y :: x in s.channels && y in s.channels ==> |s.channels[x].buffer| == |s.channels[y].buffer|)
  }

  predicate MagAligned(s: MagLists) {
    && (forall x :: x in s.channels ==> |s.channels[x].data| == |s.time| && |s.channels[x].filelist| == |s.labels|)
    && (forall x, y :: x in s.channels && y in s.channels ==> |s.channels[x].buffer| == |s.channels[y].buffer|)
  }

  /**
   * One temperature sensor at elapsed time t with sample x: the display list
   * slides (emptied at midnight); at a whole minute the mean of the buffer
   * with x in it is recorded; the buffer slides from one minute on; the spike
   * window slides from two minutes on, when the derivative window also gets
   * the mean of the spike window with x in it, and slides from four minutes on.
   */
  function TempChannelTick(c: TempChannel, x: real, t: real, clock: WallTime): TempChannel {
    var spiked := c.spikeData + [x];
    TempChannel(
      Display(c.data, x, t >= DisplayHorizon, clock.AtMidnight()),
      Record(c.filelist, Mean(c.buffer + [x]), clock.AtMinute(), clock.AtHour()),
      Slide(c.buffer, x, t >= AverageHorizon),
      Slide(c.spikeData, x, t >= DerivativeStart),
      if t >= DerivativeStart then Slide(c.derAvg, Mean(spiked), t >= DerivativeHorizon) else c.derAvg)
  }

  /** One pressure sensor: as temperature, with a three-minute spike window and no derivative window. */
  function PressChannelTick(c: PressChannel, x: real, t: real, clock: WallTime): PressChannel {
    PressChannel(
      Display(c.data, x, t >= DisplayHorizon, clock.AtMidnight()),
      Record(c.filelist, Mean(c.buffer + [x]), clock.AtMinute(), clock.AtHour()),
      Slide(c.buffer, x, t >= AverageHorizon),
      Slide(c.spikeData, x, t >= PressureSpikeHorizon))
  }

  /** One magnetic sensor: minute values in milligauss. */
  function MagChannelTick(c: MagChannel, x: real, t: real, clock: WallTime): MagChannel {
    MagChannel(
      Display(c.data, x, t >= DisplayHorizon, clock.AtMidnight()),
      Record(c.filelist, Mean(c.buffer + [x]) * MilliScale, clock.AtMinute(), clock.AtHour()),
      Slide(c.buffer, x, t >= AverageHorizon))
  }

  /** One temperature tick with one temperature per sensor in v. */
  function TempTick(s: TempLists, v: map<string, real>, t: real, clock: WallTime): (r: TempLists)
    requires s.channels.Keys <= v.Keys && clock.Valid()
    ensures r.channels.Keys == s.channels.Keys
  {
    TempLists(
      Display(s.time, t, t >= DisplayHorizon, clock.AtMidnight()),
      Slide(s.spikeTime, FormatHMS(clock), t >= DerivativeStart),
      Record(s.labels, FormatHM(clock), clock.AtMinute(), clock.AtHour()),
      map x | x in s.channels :: TempChannelTick(s.channels[x], v[x], t, clock))
  }

  /** One pressure tick with one pressure per sensor in v. */
  function PressTick(s: PressLists, v: map<string, real>, t: real, clock: WallTime): (r: PressLists)
    requires s.channels.Keys <= v.Keys && clock.Valid()
    ensures r.channels.Keys == s.channels.Keys
  {
    PressLists(
      Display(s.time, t, t >= DisplayHorizon, clock.AtMidnight()),
      Slide(s.spikeTime, FormatHMS(clock), t >= PressureSpikeHorizon),
      Record(s.labels, FormatHM(clock), clock.AtMinute(), clock.AtHour()),
      map x | x in s.channels :: PressChannelTick(s.channels[x], v[x], t, clock))
  }

  /** One magnetic tick with one reading (volts) per sensor in v. */
  function MagTick(s: MagLists, v: map<string, real>, t: real, clock: WallTime): (r: MagLists)
    requires s.channels.Keys <= v.Keys && clock.Valid()
    ensures r.channels.Keys == s.channels.Keys
  {
    MagLists(
      Display(s.time, t, t >= DisplayHorizon, clock.AtMidnight()),
      Record(s.labels, FormatHM(clock), clock.AtMinute(), clock.AtHour()),
      map x | x in s.channels :: MagChannelTick(s.channels[x], v[x], t, clock))
  }

  // ---------------------------------------------------------------------
  // The ticks, one sensor at a time.
  // ---------------------------------------------------------------------

  /** A temperature tick: the group's own lists, then every configured sensor in turn. */
  method TempStep(s: TempLists, ain: seq<string>, v: map<string, real>, t: real, clock: WallTime)
    returns (r: TempLists)
    requires Distinct(ain) && s.channels.Keys == Inputs(ain) && Inputs(ain) <= v.Keys && clock.Valid()
    ensures r == TempTick(s, v, t, clock)
  {
    var ch := s.channels;
    var i := 0;
    while i < |ain|
      invariant 0 <= i <= |ain| && ch.Keys == s.channels.Keys
      invariant forall y :: y in ch ==>
        ch[y] == if y in ain[..i] then TempChannelTick(s.channels[y], v[y], t, clock) else s.channels[y]
    {
      var x := ain[i];
      DistinctNotBefore(ain, i);
      assert ain[..i + 1] == ain[..i] + [x];
      ch := ch[x := TempChannelTick(ch[x], v[x], t, clock)];
      i := i + 1;
    }
    assert ain[..i] == ain;
    r := TempLists(Display(s.time, t, t >= DisplayHorizon, clock.AtMidnight()),
                   Slide(s.spikeTime, FormatHMS(clock), t >= DerivativeStart),
                   Record(s.labels, FormatHM(clock), clock.AtMinute(), clock.AtHour()),
                   ch);
  }

  /** A pressure tick. */
  method PressStep(s: PressLists, ain: seq<string>, v: map<string, real>, t: real, clock: WallTime)
    returns (r: PressLists)
    requires Distinct(ain) && s.channels.Keys == Inputs(ain) && Inputs(ain) <= v.Keys && clock.Valid()
    ensures r == PressTick(s, v, t, clock)
  {
    var ch := s.channels;
    var i := 0;
    while i < |ain|
      invariant 0 <= i <= |ain| && ch.Keys == s.channels.Keys
      invariant forall y :: y in ch ==>
        ch[y] == if y in ain[..i] then PressChannelTick(s.channels[y], v[y], t, clock) else s.channels[y]
    {
      var x := ain[i];
      DistinctNotBefore(ain, i);
      assert ain[..i + 1] == ain[..i] + [x];
      ch := ch[x := PressChannelTick(ch[x], v[x], t, clock)];
      i := i + 1;
    }
    assert ain[..i] == ain;
    r := PressLists(Display(s.time, t, t >= DisplayHorizon, clock.AtMidnight()),
                    Slide(s.spikeTime, FormatHMS(clock), t >= PressureSpikeHorizon),
                    Record(s.labels, FormatHM(clock), clock.AtMinute(), clock.AtHour()),
                    ch);
  }

  /** A magnetic tick. */
  method MagStep(s: MagLists, ain: seq<string>, v: map<string, real>, t: real, clock: WallTime)
    returns (r: MagLists)
    requires Distinct(ain) && s.channels.Keys == Inputs(ain) && Inputs(ain) <= v.Keys && clock.Valid()
    ensures r == MagTick(s, v, t, clock)
  {
    var ch := s.channels;
    var i := 0;
    while i < |ain|
      invariant 0 <= i <= |ain| && ch.Keys == s.channels.Keys
      invariant forall y :: y in ch ==>
        ch[y] == if y in ain[..i] then MagChannelTick(s.channels[y], v[y], t, clock) else s.channels[y]
    {
      var x := ain[i];
      DistinctNotBefore(ain, i);
      assert ain[..i + 1] == ain[..i] + [x];
      ch := ch[x := MagChannelTick(ch[x], v[x], t, clock)];
      i := i + 1;
    }
    assert ain[..i] == ain;
    r := MagLists(Display(s.time, t, t >= DisplayHorizon, clock.AtMidnight()),
                  Record(s.labels, FormatHM(clock), clock.AtMinute(), clock.AtHour()),
                  ch);
  }

  // ---------------------------------------------------------------------
  // The per-sensor dictionaries as the window first sets them up.
  // ---------------------------------------------------------------------

  const EmptyTemp := TempChannel([], [], [], [], [])
  const EmptyPress := PressChannel([], [], [], [])
  const EmptyMag := MagChannel([], [], [])

  /** One empty channel per configured temperature input. */
  method EmptyTempChannels(ain: seq<string>) returns (m: TempChannels)
    ensures m.Keys == Inputs(ain) && forall x :: x in m ==> m[x] == EmptyTemp
  {
    m := map[];
    var i := 0;
    while i < |ain|
      invariant 0 <= i <= |ain|
      invariant m.Keys == Inputs(ain[..i]) && forall x :: x in m ==> m[x] == EmptyTemp
    {
      assert ain[..i + 1] == ain[..i] + [ain[i]];
      m := m[ain[i] := EmptyTemp];
      i := i + 1;
    }
    assert ain[..i] == ain;
  }

  /** One empty channel per configured pressure input. */
  method EmptyPressChannels(ain: seq<string>) returns (m: PressChannels)
    ensures m.Keys == Inputs(ain) && forall x :: x in m ==> m[x] == EmptyPress
  {
    m := map[];
    var i := 0;
    while i < |ain|
      invariant 0 <= i <= |ain|
      invariant m.Keys == Inputs(ain[..i]) && forall x :: x in m ==> m[x] == EmptyPress
    {
      assert ain[..i + 1] == ain[..i] + [ain[i]];
      m := m[ain[i] := EmptyPress];
      i := i + 1;
    }
    assert ain[..i] == ain;
  }

  /** One empty channel per configured magnetic input. */
  method EmptyMagChannels(ain: seq<string>) returns (m: MagChannels)
    ensures m.Keys == Inputs(ain) && forall x :: x in m ==> m[x] == EmptyMag
  {
    m := map[];
    var i := 0;
    while i < |ain|
      invariant 0 <= i <= |ain|
      invariant m.Keys == Inputs(ain[..i]) && forall x :: x in m ==> m[x] == EmptyMag
    {
      assert ain[..i + 1] == ain[..i] + [ain[i]];
      m := m[ain[i] := EmptyMag];
      i := i + 1;
    }
    assert ain[..i] == ain;
  }

  /** Freshly set-up lists are aligned: all empty. */
  lemma EmptyAligned(ch: TempChannels, pc: PressChannels, mc: MagChannels)
    requires forall x :: x in ch ==> ch[x] == EmptyTemp
    requires forall x :: x in pc ==> pc[x] == EmptyPress
    requires forall x :: x in mc ==> mc[x] == EmptyMag
    ensures TempAligned(TempLists([], [], [], ch))
    ensures PressAligned(PressLists([], [], [], pc))
    ensures MagAligned(MagLists([], [], mc))
  {
  }

  // ---------------------------------------------------------------------
  // Properties of a tick.
  // ---------------------------------------------------------------------

  /**
   * A temperature tick keeps the parallel lists in line: the time list and
   * every display list gain one entry and, from 15 minutes on, lose one;
   * labels and minute lists move together; so do spike labels and samples.
   */
  lemma TempTickAligned(s: TempLists, v: map<string, real>, t: real, clock: WallTime)
    requires s.channels.Keys <= v.Keys && clock.Valid() && TempAligned(s)
    ensures TempAligned(TempTick(s, v, t, clock))
  {
    var r := TempTick(s, v, t, clock);
    forall x | x in r.channels
      ensures |r.channels[x].data| == |r.time| && |r.channels[x].filelist| == |r.labels|
      ensures |r.channels[x].spikeData| == |r.spikeTime|
    {
      assert r.channels[x] == TempChannelTick(s.channels[x], v[x], t, clock);
    }
    forall x, y | x in r.channels && y in r.channels
      ensures |r.channels[x].buffer| == |r.channels[y].buffer| && |r.channels[x].derAvg| == |r.channels[y].derAvg|
    {
      assert r.channels[x] == TempChannelTick(s.channels[x], v[x], t, clock);
      assert r.channels[y] == TempChannelTick(s.channels[y], v[y], t, clock);
    }
  }

  /** A pressure tick keeps the parallel lists in line. */
  lemma PressTickAligned(s: PressLists, v: map<string, real>, t: real, clock: WallTime)
    requires s.channels.Keys <= v.Keys && clock.Valid() && PressAligned(s)
    ensures PressAligned(PressTick(s, v, t, clock))
  {
    var r := PressTick(s, v, t, clock);
    forall x | x in r.channels
      ensures |r.channels[x].data| == |r.time| && |r.channels[x].filelist| == |r.labels|
      ensures |r.channels[x].spikeData| == |r.spikeTime|
    {
      assert r.channels[x] == PressChannelTick(s.channels[x], v[x], t, clock);
    }
    forall x, y | x in r.channels && y in r.channels
      ensures |r.channels[x].buffer| == |r.channels[y].buffer|
    {
      assert r.channels[x] == PressChannelTick(s.channels[x], v[x], t, clock);
      assert r.channels[y] == PressChannelTick(s.channels[y], v[y], t, clock);
    }
  }

  /** A magnetic tick keeps the parallel lists in line. */
  lemma MagTickAligned(s: MagLists, v: map<string, real>, t: real, clock: WallTime)
    requires s.channels.Keys <= v.Keys && clock.Valid() && MagAligned(s)
    ensures MagAligned(MagTick(s, v, t, clock))
  {
    var r := MagTick(s, v, t, clock);
    forall x | x in r.channels
      ensures |r.channels[x].data| == |r.time| && |r.channels[x].filelist| == |r.labels|
    {
      assert r.channels[x] == MagChannelTick(s.channels[x], v[x], t, clock);
    }
    forall x, y | x in r.channels && y in r.channels
      ensures |r.channels[x].buffer| == |r.channels[y].buffer|
    {
      assert r.channels[x] == MagChannelTick(s.channels[x], v[x], t, clock);
      assert r.channels[y] == MagChannelTick(s.channels[y], v[y], t, clock);
    }
  }

  /**
   * A minute record (a whole minute that is not a whole hour) appends one
   * value to the sensor's minute list: the mean of the averaging buffer with
   * this tick's sample in it, so it lies between the smallest and the
   * largest of those samples.
   */
  lemma TempMinute(c: TempChannel, x: real, t: real, clock: WallTime, lo: real, hi: real)
    requires clock.AtMinute() && !clock.AtHour()
    requires forall i :: 0 <= i < |c.buffer| ==> lo <= c.buffer[i] <= hi
    requires lo <= x <= hi
    ensures var r := TempChannelTick(c, x, t, clock);
      |r.filelist| == |c.filelist| + 1 && r.filelist[..|c.filelist|] == c.filelist
      && r.filelist[|c.filelist|] == Mean(c.buffer + [x])
      && lo <= r.filelist[|c.filelist|] <= hi
  {
    var b := c.buffer + [x];
    assert forall i :: 0 <= i < |b| ==> lo <= b[i] <= hi;
    MeanWithin(b, lo, hi);
  }

  /** The magnetic minute value is the buffer mean in milligauss, between 1000 times the extremes. */
  lemma MagMinute(c: MagChannel, x: real, t: real, clock: WallTime, lo: real, hi: real)
    requires clock.AtMinute() && !clock.AtHour()
    requires forall i :: 0 <= i < |c.buffer| ==> lo <= c.buffer[i] <= hi
    requires lo <= x <= hi
    ensures var r := MagChannelTick(c, x, t, clock);
      |r.filelist| == |c.filelist| + 1 && r.filelist[..|c.filelist|] == c.filelist
      && r.filelist[|c.filelist|] == Mean(c.buffer + [x]) * MilliScale
      && lo * MilliScale <= r.filelist[|c.filelist|] <= hi * MilliScale
  {
    var b := c.buffer + [x];
    assert forall i :: 0 <= i < |b| ==> lo <= b[i] <= hi;
    MeanWithin(b, lo, hi);
  }

  /** Away from a whole minute, labels and minute lists are untouched. */
  lemma TempNoMinute(s: TempLists, v: map<string, real>, t: real, clock: WallTime, x: string)
    requires s.channels.Keys <= v.Keys && clock.Valid() && !clock.AtMinute() && x in s.channels
    ensures var r := TempTick(s, v, t, clock);
      r.labels == s.labels && r.channels[x].filelist == s.channels[x].filelist
  {
  }

  /**
   * At a whole hour the labels and every minute list are empty afterwards,
   * the record this very tick would have added included.
   */
  lemma TempHour(s: TempLists, v: map<string, real>, t: real, clock: WallTime, x: string)
    requires s.channels.Keys <= v.Keys && clock.Valid() && clock.AtHour() && x in s.channels
    ensures var r := TempTick(s, v, t, clock);
      r.labels == [] && r.channels[x].filelist == []
  {
    assert TempTick(s, v, t, clock).channels[x] == TempChannelTick(s.channels[x], v[x], t, clock);
  }

  /** At midnight the time list and every display list are empty afterwards. */
  lemma TempMidnight(s: TempLists, v: map<string, real>, t: real, clock: WallTime, x: string)
    requires s.channels.Keys <= v.Keys && clock.Valid() && clock.AtMidnight() && x in s.channels
    ensures var r := TempTick(s, v, t, clock);
      r.time == [] && r.channels[x].data == []
  {
    assert TempTick(s, v, t, clock).channels[x] == TempChannelTick(s.channels[x], v[x], t, clock);
  }

  /**
   * The wall clock decides only the display reset and the minute records:
   * two ticks of a sensor that differ only in the clock leave the same
   * averaging buffer, spike samples and derivative window. So neither a
   * minute record nor the midnight reset touches those lists.
   */
  lemma TempClockScope(c: TempChannel, x: real, t: real, c1: WallTime, c2: WallTime)
    ensures var r1, r2 := TempChannelTick(c, x, t, c1), TempChannelTick(c, x, t, c2);
      r1.buffer == r2.buffer && r1.spikeData == r2.spikeData && r1.derAvg == r2.derAvg
  {
  }

  /**
   * The averaging buffer is never emptied by a record: it always ends with
   * this tick's sample, and from one minute on it keeps its length.
   */
  lemma BufferSlides(c: TempChannel, x: real, t: real, clock: WallTime)
    ensures var b := TempChannelTick(c, x, t, clock).buffer;
      (t >= AverageHorizon ==> |b| == |c.buffer|) && (t < AverageHorizon ==> b == c.buffer + [x])
      && (|b| > 0 ==> b[|b| - 1] == x)
  {
  }

  /**
   * From two minutes on, the derivative window gets the mean of the spike
   * samples including this tick's, and the spike window keeps its length;
   * from four minutes on the derivative window keeps its length too. Before
   * two minutes the derivative window is left alone.
   */
  lemma DerivativeWindow(c: TempChannel, x: real, t: real, clock: WallTime)
    ensures var r := TempChannelTick(c, x, t, clock);
      && (t < DerivativeStart ==> r.derAvg == c.derAvg)
      && (t >= DerivativeStart ==>
            |r.spikeData| == |c.spikeData|
            && |r.derAvg| == (if t >= DerivativeHorizon then |c.derAvg| else |c.derAvg| + 1)
            && (|r.derAvg| > 0 ==> r.derAvg[|r.derAvg| - 1] == Mean(c.spikeData + [x])))
  {
  }

  /** The pressure minute value is the buffer mean with this tick's sample, between the extremes. */
  lemma PressMinute(c: PressChannel, x: real, t: real, clock: WallTime, lo: real, hi: real)
    requires clock.AtMinute() && !clock.AtHour()
    requires forall i :: 0 <= i < |c.buffer| ==> lo <= c.buffer[i] <= hi
    requires lo <= x <= hi
    ensures var r := PressChannelTick(c, x, t, clock);
      |r.filelist| == |c.filelist| + 1 && r.filelist[..|c.filelist|] == c.filelist
      && r.filelist[|c.filelist|] == Mean(c.buffer + [x])
      && lo <= r.filelist[|c.filelist|] <= hi
  {
    var b := c.buffer + [x];
    assert forall i :: 0 <= i < |b| ==> lo <= b[i] <= hi;
    MeanWithin(b, lo, hi);
  }

  /**
   * The pressure resets: a whole hour empties the labels and the minute
   * list, midnight empties the time list and the display list, and the
   * wall clock has no say in the averaging buffer, the spike labels or the
   * spike window.
   */
  lemma PressResets(s: PressLists, v: map<string, real>, t: real, clock: WallTime, other: WallTime, x: string)
    requires s.channels.Keys <= v.Keys && clock.Valid() && other.Valid() && x in s.channels
    ensures var r, q := PressTick(s, v, t, clock), PressTick(s, v, t, other);
      && (clock.AtHour() ==> r.labels == [] && r.channels[x].filelist == [])
      && (clock.AtMidnight() ==> r.time == [] && r.channels[x].data == [])
      && |r.spikeTime| == |q.spikeTime|
      && r.channels[x].buffer == q.channels[x].buffer && r.channels[x].spikeData == q.channels[x].spikeData
  {
    assert PressTick(s, v, t, clock).channels[x] == PressChannelTick(s.channels[x], v[x], t, clock);
    assert PressTick(s, v, t, other).channels[x] == PressChannelTick(s.channels[x], v[x], t, other);
  }

  /** The magnetic resets, as for pressure; the clock has no say in the averaging buffer. */
  lemma MagResets(s: MagLists, v: map<string, real>, t: real, clock: WallTime, other: WallTime, x: string)
    requires s.channels.Keys <= v.Keys && clock.Valid() && other.Valid() && x in s.channels
    ensures var r, q := MagTick(s, v, t, clock), MagTick(s, v, t, other);
      && (clock.AtHour() ==> r.labels == [] && r.channels[x].filelist == [])
      && (clock.AtMidnight() ==> r.time == [] && r.channels[x].data == [])
      && r.channels[x].buffer == q.channels[x].buffer
  {
    assert MagTick(s, v, t, clock).channels[x] == MagChannelTick(s.channels[x], v[x], t, clock);
    assert MagTick(s, v, t, other).channels[x] == MagChannelTick(s.channels[x], v[x], t, other);
  }

  /**
   * The pressure spike window holds three minutes: from then on it keeps
   * its length, before then it grows by this tick's sample; either way it
   * ends with that sample.
   */
  lemma PressSpikeWindow(c: PressChannel, x: real, t: real, clock: WallTime)
    ensures var w := PressChannelTick(c, x, t, clock).spikeData;
      (t >= PressureSpikeHorizon ==> |w| == |c.spikeData|)
      && (t < PressureSpikeHorizon ==> w == c.spikeData + [x])
      && (|w| > 0 ==> w[|w| - 1] == x)
  {
    SlideKeepsNewest(c.spikeData, x, t >= PressureSpikeHorizon);
  }

  /**
   * The minute record is keyed on the wall-clock second alone, so two ticks
   * within the same whole-minute second (the pressure update runs three
   * times a second) both record: the label list ends with the same label
   * twice and every minute list grows by two.
   */
  lemma PressMinuteRepeats(s: PressLists, v: map<string, real>, t1: real, t2: real, clock: WallTime, x: string)
    requires s.channels.Keys <= v.Keys && clock.Valid() && clock.AtMinute() && !clock.AtHour() && x in s.channels
    ensures var r := PressTick(PressTick(s, v, t1, clock), v, t2, clock);
      && r.labels == s.labels + [FormatHM(clock), FormatHM(clock)]
      && |r.channels[x].filelist| == |s.channels[x].filelist| + 2
  {
    var r1 := PressTick(s, v, t1, clock);
    assert r1.channels[x] == PressChannelTick(s.channels[x], v[x], t1, clock);
    assert PressTick(r1, v, t2, clock).channels[x] == PressChannelTick(r1.channels[x], v[x], t2, clock);
  }

  // ---------------------------------------------------------------------
  // Many ticks.
  // ---------------------------------------------------------------------

  /** The inputs of one tick: elapsed time, wall clock and one converted value per sensor. */
  datatype Reading = Reading(t: real, clock: WallTime, v: map<string, real>)

  predicate Covers(rs: seq<Reading>, keys: set<string>) {
    forall i :: 0 <= i < |rs| ==> keys <= rs[i].v.Keys && rs[i].clock.Valid()
  }

  /** A run of temperature ticks, oldest reading first. */
  function TempRun(s: TempLists, rs: seq<Reading>): (r: TempLists)
    requires Covers(rs, s.channels.Keys)
    ensures r.channels.Keys == s.channels.Keys
    decreases |rs|
  {
    if rs == [] then s
    else TempRun(TempTick(s, rs[0].v, rs[0].t, rs[0].clock), rs[1..])
  }

  /** Every reading of the run is at least 15 minutes in and none is at midnight. */
  predicate Settled(rs: seq<Reading>) {
    forall i :: 0 <= i < |rs| ==> rs[i].t >= DisplayHorizon && !rs[i].clock.AtMidnight()
  }

  /**
   * Once warmed up, the temperature lists stop growing: over any run of
   * ticks at least 15 minutes in and away from midnight, the time list, the
   * spike labels and each sensor's display list, averaging buffer, spike
   * window and derivative window keep the lengths they had.
   */
  lemma {:induction false} TempRunSteady(s: TempLists, rs: seq<Reading>, x: string)
    requires Covers(rs, s.channels.Keys) && Settled(rs) && x in s.channels
    ensures var r := TempRun(s, rs);
      && |r.time| == |s.time| && |r.spikeTime| == |s.spikeTime|
      && |r.channels[x].data| == |s.channels[x].data| && |r.channels[x].buffer| == |s.channels[x].buffer|
      && |r.channels[x].spikeData| == |s.channels[x].spikeData| && |r.channels[x].derAvg| == |s.channels[x].derAvg|
    decreases |rs|
  {
    if rs != [] {
      var n := TempTick(s, rs[0].v, rs[0].t, rs[0].clock);
      assert n.channels[x] == TempChannelTick(s.channels[x], rs[0].v[x], rs[0].t, rs[0].clock);
      assert Covers(rs[1..], n.channels.Keys) && Settled(rs[1..]) by {
        forall i | 0 <= i < |rs[1..]|
          ensures n.channels.Keys <= rs[1..][i].v.Keys && rs[1..][i].clock.Valid()
          ensures rs[1..][i].t >= DisplayHorizon && !rs[1..][i].clock.AtMidnight()
        {
          assert rs[1..][i] == rs[i + 1];
        }
      }
      TempRunSteady(n, rs[1..], x);
    }
  }
}
