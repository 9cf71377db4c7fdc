/**
 * The acquisition object: one tick per sensor group (temperature, pressure,
 * magnetic field), the temperature derivative check, the pressure threshold
 * check, the deferred spike store and the stop that empties the time lists.
 *
 * The lists the source keeps as class attributes, shared by every
 * acquisition object, live in one `DaqShared` object that every `Daq`
 * points to. The per-sensor dictionaries belong to the window and are
 * handed to each tick; they are the stores `TempStore`, `PressStore` and
 * `MagStore`, each one dictionary from sensor to that sensor's lists.
 */
module Daq {
  import opened Options
  import opened Clock
  import opened Stats
  import opened Rolling
  import opened Spike
  import opened Ticks

  /** Pressure at or above this value is a spike. */
  const Threshold: real := 1000.0

  /** What a fired storeSpike hands to the file writer: one column per sensor and the time column. */
  datatype SpikeRecord = SpikeRecord(group: Kind, columns: map<string, seq<real>>, time: seq<string>)

  /** The record is a proper table: every column is as long as the time column. */
  predicate Rectangular(rec: SpikeRecord) {
    forall x :: x in rec.columns ==> |rec.columns[x]| == |rec.time|
  }

  /** The spike samples of every temperature sensor. */
  function TempSpikeColumns(ch: TempChannels): (r: map<string, seq<real>>)
    ensures r.Keys == ch.Keys && forall x :: x in r ==> r[x] == ch[x].spikeData
  {
    map x | x in ch :: ch[x].spikeData
  }

  /** The spike samples of every pressure sensor. */
  function PressSpikeColumns(ch: PressChannels): (r: map<string, seq<real>>)
    ensures r.Keys == ch.Keys && forall x :: x in r ==> r[x] == ch[x].spikeData
  {
    map x | x in ch :: ch[x].spikeData
  }

  /** The lists the source declares at class level, shared by every acquisition object. */
  class DaqShared {
    var timeT: seq<real>
    var spikeTimeT: seq<string>
    var labelsT: seq<string>
    var timeP: seq<real>
    var spikeTimeP: seq<string>
    var labelsP: seq<string>
    var timeM: seq<real>
    var labelsM: seq<string>

    constructor ()
      ensures timeT == [] && spikeTimeT == [] && labelsT == []
      ensures timeP == [] && spikeTimeP == [] && labelsP == []
      ensures timeM == [] && labelsM == []
    {
      timeT, spikeTimeT, labelsT := [], [], [];
      timeP, spikeTimeP, labelsP := [], [], [];
      timeM, labelsM := [], [];
    }
  }

  /**
   * The window's temperature dictionaries: one channel per sensor, and the
   * "Time" column the window adds to the minute-record dictionary.
   */
  class TempStore {
    var channels: TempChannels
    var timeColumn: Option<seq<string>>

    constructor (ain: seq<string>)
      ensures channels.Keys == Inputs(ain) && (forall x :: x in channels ==> channels[x] == EmptyTemp)
      ensures timeColumn == None
    {
      var m := EmptyTempChannels(ain);
      channels := m;
      timeColumn := None;
    }
  }

  /** The window's pressure dictionaries. */
  class PressStore {
    var channels: PressChannels
    var timeColumn: Option<seq<string>>

    constructor (ain: seq<string>)
      ensures channels.Keys == Inputs(ain) && (forall x :: x in channels ==> channels[x] == EmptyPress)
      ensures timeColumn == None
    {
      var m := EmptyPressChannels(ain);
      channels := m;
      timeColumn := None;
    }
  }

  /** The window's magnetic-field dictionaries. */
  class MagStore {
    var channels: MagChannels
    var timeColumn: Option<seq<string>>

    constructor (ain: seq<string>)
      ensures channels.Keys == Inputs(ain) && (forall x :: x in channels ==> channels[x] == EmptyMag)
      ensures timeColumn == None
    {
      var m := EmptyMagChannels(ain);
      channels := m;
      timeColumn := None;
    }
  }

  /** The temperature group's lists as a value. */
  function TempOf(sh: DaqShared, d: TempStore): TempLists
    reads sh`timeT, sh`spikeTimeT, sh`labelsT, d`channels
  {
    TempLists(sh.timeT, sh.spikeTimeT, sh.labelsT, d.channels)
  }

  function PressOf(sh: DaqShared, d: PressStore): PressLists
    reads sh`timeP, sh`spikeTimeP, sh`labelsP, d`channels
  {
    PressLists(sh.timeP, sh.spikeTimeP, sh.labelsP, d.channels)
  }

  function MagOf(sh: DaqShared, d: MagStore): MagLists
    reads sh`timeM, sh`labelsM, d`channels
  {
    MagLists(sh.timeM, sh.labelsM, d.channels)
  }

  /** Some configured temperature sensor's derivative window meets the derivative rule. */
  predicate AnySteep(ch: TempChannels, ain: seq<string>)
    requires Inputs(ain) <= ch.Keys
  {
    exists j :: 0 <= j < |ain| && Steep(ch[ain[j]].derAvg)
  }

  /** Some configured pressure sensor's sample is at or above the threshold. */
  predicate AnyOverThreshold(v: map<string, real>, ain: seq<string>)
    requires Inputs(ain) <= v.Keys
  {
    exists j :: 0 <= j < |ain| && v[ain[j]] >= Threshold
  }

  /** A spike record taken while the group's lists are aligned is a proper table. */
  lemma TempRecordRectangular(s: TempLists)
    requires TempAligned(s)
    ensures Rectangular(SpikeRecord(Temp, TempSpikeColumns(s.channels), s.spikeTime))
  {
  }

  lemma PressRecordRectangular(s: PressLists)
    requires PressAligned(s)
    ensures Rectangular(SpikeRecord(Pressure, PressSpikeColumns(s.channels), s.spikeTime))
  {
  }

  /** One acquisition object: its epoch, its two guard flags and the spike stores it has scheduled. */
  class Daq {
    const shared: DaqShared
    var start: real
    var armedP: bool
    var armedT: bool
    var pending: seq<Kind>

    function GuardOf(): Guard
      reads this`armedP, this`armedT, this`pending
    {
      Guard(armedP, armedT, pending)
    }

    /** A new acquisition object: epoch now, both guards set, nothing scheduled. */
    constructor (shared: DaqShared, now: real)
      ensures this.shared == shared && start == now
      ensures armedP && armedT && pending == []
    {
      this.shared := shared;
      start := now;
      armedP, armedT := true, true;
      pending := [];
    }

    /**
     * The temperature derivative check: for each sensor, a window of at least
     * three values whose last gradient has magnitude at least 0.02 schedules a
     * temperature store, once, if the temperature guard is set.
     */
    method DerivativeFunction(ch: TempChannels, ain: seq<string>)
      requires Inputs(ain) <= ch.Keys
      modifies this`armedT, this`pending
      ensures GuardOf() == Detect(old(GuardOf()), Temp, AnySteep(ch, ain))
    {
      var i := 0;
      while i < |ain|
        invariant 0 <= i <= |ain|
        invariant GuardOf() == Detect(old(GuardOf()), Temp, exists j :: 0 <= j < i && Steep(ch[ain[j]].derAvg))
      {
        var fired := Steep(ch[ain[i]].derAvg);
        DetectTwice(old(GuardOf()), Temp, exists j :: 0 <= j < i && Steep(ch[ain[j]].derAvg), fired);
        if fired && armedT {
          armedT := false;
          pending := pending + [Temp];
        }
        i := i + 1;
      }
    }

    /** The pressure threshold check of each sensor's new sample, in sensor order. */
    method PressureCheck(v: map<string, real>, ain: seq<string>)
      requires Inputs(ain) <= v.Keys
      modifies this`armedP, this`pending
      ensures GuardOf() == Detect(old(GuardOf()), Pressure, AnyOverThreshold(v, ain))
    {
      var i := 0;
      while i < |ain|
        invariant 0 <= i <= |ain|
        invariant GuardOf() == Detect(old(GuardOf()), Pressure, exists j :: 0 <= j < i && v[ain[j]] >= Threshold)
      {
        var fired := v[ain[i]] >= Threshold;
        DetectTwice(old(GuardOf()), Pressure, exists j :: 0 <= j < i && v[ain[j]] >= Threshold, fired);
        if fired && armedP {
          armedP := false;
          pending := pending + [Pressure];
        }
        i := i + 1;
      }
    }

    /**
     * One temperature tick at absolute time `now`, wall clock `clock` and one
     * converted temperature per sensor; returns the time list and the minute
     * labels (the objects the window keeps using).
     */
    method TData(ain: seq<string>, d: TempStore, now: real, clock: WallTime, v: map<string, real>)
      returns (xData: seq<real>, labels: seq<string>)
      requires Distinct(ain) && d.channels.Keys == Inputs(ain) && Inputs(ain) <= v.Keys && clock.Valid()
      modifies this`start, this`armedT, this`pending
      modifies shared`timeT, shared`spikeTimeT, shared`labelsT, d`channels
      ensures TempOf(shared, d) == TempTick(old(TempOf(shared, d)), v, Elapsed(now, old(start)), clock)
      ensures old(TempAligned(TempOf(shared, d))) ==> TempAligned(TempOf(shared, d))
      ensures start == if clock.AtMidnight() then now else old(start)
      ensures GuardOf() == Detect(old(GuardOf()), Temp, AnySteep(d.channels, ain))
      ensures xData == shared.timeT && labels == shared.labelsT
    {
      var t := Elapsed(now, start);
      var before := TempOf(shared, d);
      var r := TempStep(before, ain, v, t, clock);
      if TempAligned(before) {
        TempTickAligned(before, v, t, clock);
      }
      shared.timeT, shared.spikeTimeT, shared.labelsT := r.time, r.spikeTime, r.labels;
      d.channels := r.channels;
      if clock.AtMidnight() {
        start := now;
      }
      DerivativeFunction(d.channels, ain);
      xData, labels := shared.timeT, shared.labelsT;
    }

    /** One pressure tick, with the threshold check of every new sample. */
    method PData(ain: seq<string>, d: PressStore, now: real, clock: WallTime, v: map<string, real>)
      returns (xData: seq<real>, labels: seq<string>)
      requires Distinct(ain) && d.channels.Keys == Inputs(ain) && Inputs(ain) <= v.Keys && clock.Valid()
      modifies this`start, this`armedP, this`pending
      modifies shared`timeP, shared`spikeTimeP, shared`labelsP, d`channels
      ensures PressOf(shared, d) == PressTick(old(PressOf(shared, d)), v, Elapsed(now, old(start)), clock)
      ensures old(PressAligned(PressOf(shared, d))) ==> PressAligned(PressOf(shared, d))
      ensures start == if clock.AtMidnight() then now else old(start)
      ensures GuardOf() == Detect(old(GuardOf()), Pressure, AnyOverThreshold(v, ain))
      ensures xData == shared.timeP && labels == shared.labelsP
    {
      var t := Elapsed(now, start);
      var before := PressOf(shared, d);
      var r := PressStep(before, ain, v, t, clock);
      if PressAligned(before) {
        PressTickAligned(before, v, t, clock);
      }
      PressureCheck(v, ain);
      shared.timeP, shared.spikeTimeP, shared.labelsP := r.time, r.spikeTime, r.labels;
      d.channels := r.channels;
      if clock.AtMidnight() {
        start := now;
      }
      xData, labels := shared.timeP, shared.labelsP;
    }

    /** One magnetic tick. */
    method MData(ain: seq<string>, d: MagStore, now: real, clock: WallTime, v: map<string, real>)
      returns (xData: seq<real>, labels: seq<string>)
      requires Distinct(ain) && d.channels.Keys == Inputs(ain) && Inputs(ain) <= v.Keys && clock.Valid()
      modifies this`start, shared`timeM, shared`labelsM, d`channels
      ensures MagOf(shared, d) == MagTick(old(MagOf(shared, d)), v, Elapsed(now, old(start)), clock)
      ensures old(MagAligned(MagOf(shared, d))) ==> MagAligned(MagOf(shared, d))
      ensures start == if clock.AtMidnight() then now else old(start)
      ensures xData == shared.timeM && labels == shared.labelsM
    {
      var t := Elapsed(now, start);
      var before := MagOf(shared, d);
      var r := MagStep(before, ain, v, t, clock);
      if MagAligned(before) {
        MagTickAligned(before, v, t, clock);
      }
      shared.timeM, shared.labelsM := r.time, r.labels;
      d.channels := r.channels;
      if clock.AtMidnight() {
        start := now;
      }
      xData, labels := shared.timeM, shared.labelsM;
    }

    /**
     * The body of a scheduled store: the record of the spike columns and
     * their time column, as they are when it runs; then both guards are set,
     * whichever group the store belongs to.
     */
    method StoreSpike(columns: map<string, seq<real>>, time: seq<string>, kind: Kind) returns (rec: SpikeRecord)
      modifies this`armedP, this`armedT
      ensures rec == SpikeRecord(kind, columns, time)
      ensures armedP && armedT
    {
      rec := SpikeRecord(kind, columns, time);
      if !armedP {
        armedP := true;
      }
      if !armedT {
        armedT := true;
      }
    }

    /**
     * The oldest scheduled store runs (all are scheduled with the same
     * delay, so they run in the order they were scheduled). It writes the
     * group's spike lists as they are now, not as they were when the spike
     * was seen.
     */
    method CooldownExpired(dt: TempStore, dp: PressStore) returns (rec: SpikeRecord)
      requires pending != []
      modifies this`armedP, this`armedT, this`pending
      ensures GuardOf() == Expire(old(GuardOf()))
      ensures rec == if old(pending[0]) == Temp
        then SpikeRecord(Temp, TempSpikeColumns(dt.channels), shared.spikeTimeT)
        else SpikeRecord(Pressure, PressSpikeColumns(dp.channels), shared.spikeTimeP)
      ensures rec.group == Temp && TempAligned(TempOf(shared, dt)) ==> Rectangular(rec)
      ensures rec.group == Pressure && PressAligned(PressOf(shared, dp)) ==> Rectangular(rec)
    {
      var kind := pending[0];
      pending := pending[1..];
      if kind == Temp {
        rec := StoreSpike(TempSpikeColumns(dt.channels), shared.spikeTimeT, Temp);
        if TempAligned(TempOf(shared, dt)) {
          TempRecordRectangular(TempOf(shared, dt));
        }
      } else {
        rec := StoreSpike(PressSpikeColumns(dp.channels), shared.spikeTimeP, Pressure);
        if PressAligned(PressOf(shared, dp)) {
          PressRecordRectangular(PressOf(shared, dp));
        }
      }
    }

    /** Empties the three time lists; minute labels and spike labels are kept. */
    method StopRun()
      modifies shared`timeT, shared`timeP, shared`timeM
      ensures shared.timeT == [] && shared.timeP == [] && shared.timeM == []
    {
      shared.timeT := [];
      shared.timeP := [];
      shared.timeM := [];
    }
  }
}
