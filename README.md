# LabJack T7 sensor logger — a Dafny model of its bookkeeping

The system reads temperature (PT100 RTDs), ion-pump pressure and magnetic
field from a LabJack T7 and shows them in a PyQt window. Every plot update
runs one acquisition tick for its sensor group. A tick does four things:

- it appends the elapsed time and one value per sensor to the display lists,
  which hold 15 minutes;
- it keeps a one-minute averaging buffer per sensor and, at each whole
  minute, appends an "HH:MM" label and the buffer's mean to the minute
  records, which are emptied every whole hour;
- at midnight it empties the display lists and restarts the elapsed clock;
- for temperature and pressure, it keeps spike windows and checks for a
  spike.

The temperature check is a derivative rule on a window of running means; the
pressure check is a fixed threshold. A spike schedules a deferred store of
the spike windows 60 s later, debounced by one guard flag per group. The
window starts and stops the run, reschedules each update while the run flag
is set, and chooses the plot's visible time range.

The model has these modules:

- `Clock`: the wall clock, the elapsed seconds that ignore whole days, and
  the "HH:MM" / "HH:MM:SS" labels.
- `Stats`: sum, mean, `np.gradient`, and the derivative rule.
- `Convert`: the RTD voltage-to-resistance step and the Callendar–Van Dusen
  relation.
- `Rolling`: the three list rules of a tick — a sliding window, a display
  list, and a minute-record list.
- `Spike`: the guard flags as a state machine.
- `Ticks`: one tick of each group on values, the loop methods that carry it
  out sensor by sensor, and its properties.
- `Daq`: the acquisition object, as classes. The lists the source keeps as
  class attributes are shared by every acquisition object, so they live in
  one `DaqShared` object.
- `Gui`: the main window, with its per-sensor dictionaries, run control,
  update tails and view-window rule.

Hardware reads and clock reads are inputs: each tick receives the absolute
time `now`, the wall clock `(hour, minute, second)`, and one converted value
per sensor.

The window keeps five temperature dictionaries (`DataT`, `filelistT`,
`fileBufferListT`, `derAvg`, `spikeDataT`), three magnetic ones and four
pressure ones, all keyed by input name. The model holds one map from input
name to a record of that sensor's lists (`TempChannel`, `PressChannel`,
`MagChannel`). Each source dictionary is one field of that record taken over
all sensors; for example, `Daq.TempSpikeColumns` is `spikeDataT`. The
`'Time'` entry the window adds to each minute-record dictionary is the field
`timeColumn` of the store, and while it is present it is the same list as
the group's labels.

Three behaviours of the code worth noting:

- The derivative trigger is inclusive: `>= 0.02` or `<= -0.02`.
- A full window drops exactly one entry per tick. It is not trimmed "while
  older than" its horizon.
- The averaging buffer slides. It is not reset when a minute record is made.

## Model

| member | source | states |
|---|---|---|
| Clock.Elapsed | streamTest_T7.py:108-109 | elapsed seconds lie in [0, 86400) and differ from now − start by a whole number of days; they equal now − start within a day and are smaller beyond one |
| Clock.FormatHM | streamTest_T7.py:144 | a minute label is five characters with ':' in the middle |
| Clock.FormatHMS | streamTest_T7.py:113 | a spike time label is the minute label followed by ':' and the second written with two digits (which, by Clock.TwoDigits, read back as the second) |
| Clock.ParseFormatHM | streamTest_T7.py:144 | reading a minute label back gives the hour and minute it was made from |
| Clock.FormatHMInjective | streamTest_T7.py:144 | two valid clocks get the same minute label iff they agree on hour and minute |
| Stats.MeanWithin | streamTest_T7.py:147-148 | a non-empty buffer's mean lies between any lower and upper bound of its samples |
| Stats.MeanOfConstant | streamTest_T7.py:147-148 | the mean of a constant buffer is that constant |
| Stats.Gradient | streamTest_T7.py:393 | the gradient has one entry per sample |
| Stats.SteepIsLastDifference | streamTest_T7.py:392-396 | the derivative rule holds iff the window has at least 3 values and the last one-sided difference is at least 0.02 in magnitude, inclusive |
| Convert.RtdResistance | streamTest_T7.py:124 | the divider formula is undefined exactly at 0 V and gives a non-negative resistance for 0 < V ≤ 2.5 |
| Convert.LeadCorrected | streamTest_T7.py:124-125 | the lead-corrected resistance is undefined exactly at 0 V |
| Convert.ResistanceRoundTrip | streamTest_T7.py:124-125 | the voltage a resistance produces is positive and converts back to that resistance |
| Convert.DiscriminantIsSquare | streamTest_T7.py:126 | at the resistance of temperature t the discriminant is (A + 2Bt)² |
| Convert.TemperatureRoundTrip | streamTest_T7.py:124-126 | on the RTD's working branch, voltage → resistance → temperature recovers the temperature |
| Rolling.Slide | streamTest_T7.py:169-171 | a window grows by one until full, then keeps its length |
| Rolling.Display | streamTest_T7.py:136-139 | a display list is empty after midnight, keeps its length when full, and grows by one otherwise |
| Rolling.Record | streamTest_T7.py:143-149 | a minute list is empty after a whole hour, grows by one at a whole minute, and is unchanged otherwise |
| Rolling.SlideKeepsNewest | streamTest_T7.py:136-139 | after a tick a window is the newest suffix of old window + sample and ends with the sample |
| Rolling.SlideFull | streamTest_T7.py:169-171 | a full, non-empty window loses exactly its oldest entry |
| Spike.Detect | streamTest_T7.py:225-231 | a detection while armed schedules one store of its group and disarms only that group; otherwise nothing changes |
| Spike.Expire | streamTest_T7.py:380-383 | a firing store is removed from the schedule and re-arms both groups |
| Spike.DetectStep | streamTest_T7.py:225-231 | a detection keeps the schedule as a prefix, adds a store only for its own group and only when armed, and never arms a group |
| Spike.DetectTwice | streamTest_T7.py:391-401 | two detections of one group in a row act as one detection of their disjunction |
| Spike.Debounce | streamTest_T7.py:225-231 | with no store firing, any number of detections schedule exactly one store for the group if it was armed and some detection held, otherwise none; earlier entries stay, and a disarmed group stays disarmed |
| Spike.CrossGroupRearm | streamTest_T7.py:380-383 | a pressure store firing while a temperature store is pending lets a second temperature store be scheduled |
| Ticks.TempTick | streamTest_T7.py:112-186 | a temperature tick keeps the set of sensors |
| Ticks.PressTick | streamTest_T7.py:211-277 | a pressure tick keeps the set of sensors |
| Ticks.MagTick | streamTest_T7.py:295-343 | a magnetic tick keeps the set of sensors |
| Ticks.TempStep | streamTest_T7.py:112-186 | the loop over the configured inputs computes exactly the temperature tick |
| Ticks.PressStep | streamTest_T7.py:211-277 | the loop over the configured inputs computes exactly the pressure tick |
| Ticks.MagStep | streamTest_T7.py:295-343 | the loop over the configured inputs computes exactly the magnetic tick |
| Ticks.EmptyTempChannels | GUI_for_labjack.py:105-111 | every configured temperature input gets empty lists, and no other key exists |
| Ticks.EmptyPressChannels | GUI_for_labjack.py:122-126 | every configured pressure input gets empty lists, and no other key exists |
| Ticks.EmptyMagChannels | GUI_for_labjack.py:85-88 | every configured magnetic input gets empty lists, and no other key exists |
| Ticks.EmptyAligned | GUI_for_labjack.py:77-126 | freshly set-up dictionaries satisfy the parallel-length invariant |
| Ticks.TempTickAligned | streamTest_T7.py:136-171 | a temperature tick preserves the invariant: time and display lists, labels and minute lists, spike labels and spike windows have equal lengths, and all buffers and derivative windows are equally long |
| Ticks.PressTickAligned | streamTest_T7.py:237-277 | a pressure tick preserves the parallel-length invariant |
| Ticks.MagTickAligned | streamTest_T7.py:311-335 | a magnetic tick preserves the parallel-length invariant |
| Ticks.TempMinute | streamTest_T7.py:143-149 | at a whole minute exactly one value is appended, and it is the mean of the buffer including this tick's sample, so it lies between the samples' bounds |
| Ticks.PressMinute | streamTest_T7.py:243-250 | the same for pressure |
| Ticks.MagMinute | streamTest_T7.py:317-323 | the same for magnetics, scaled by 1000 |
| Ticks.TempNoMinute | streamTest_T7.py:143 | away from a whole minute, labels and minute lists are unchanged |
| Ticks.TempHour | streamTest_T7.py:176-179 | at a whole hour, labels and minute lists are empty afterwards, including this tick's record |
| Ticks.TempMidnight | streamTest_T7.py:182-185 | at midnight, the time list and display lists are empty afterwards |
| Ticks.TempClockScope | streamTest_T7.py:152-186 | the clock has no effect on buffers, spike windows and derivative windows, so the resets leave them alone |
| Ticks.PressResets | streamTest_T7.py:259-277 | hour and midnight resets for pressure; the clock has no effect on buffers, spike labels and spike windows |
| Ticks.MagResets | streamTest_T7.py:332-343 | hour and midnight resets for magnetics; the clock has no effect on buffers |
| Ticks.BufferSlides | streamTest_T7.py:169-171 | the averaging buffer ends with this tick's sample, keeps its length from 60 s on, and is never emptied by a record |
| Ticks.DerivativeWindow | streamTest_T7.py:152-164 | from 120 s on, the derivative window gets the mean of the spike window including the new sample, and the spike window keeps its length; from 240 s on, the derivative window keeps its length; before 120 s it is untouched |
| Ticks.PressSpikeWindow | streamTest_T7.py:274-277 | the pressure spike window keeps its length from 180 s on, grows before then, and ends with the new sample |
| Ticks.PressMinuteRepeats | streamTest_T7.py:243-250 | two pressure ticks in the same whole-minute second both record: the same label twice, two values per sensor |
| Ticks.TempRun | streamTest_T7.py:112-186 | a run of temperature ticks keeps the set of sensors |
| Ticks.TempRunSteady | streamTest_T7.py:136-171 | over any run of ticks after 15 minutes that avoids midnight, all rolling lists keep their lengths |
| Daq.TempSpikeColumns | streamTest_T7.py:360 | the spike table has one column per temperature sensor, and each column is that sensor's spike window |
| Daq.PressSpikeColumns | streamTest_T7.py:360 | the same for pressure |
| Daq.TempRecordRectangular | streamTest_T7.py:360-367 | when the lists are aligned, every spike column is as long as the spike time column |
| Daq.PressRecordRectangular | streamTest_T7.py:360-367 | the same for pressure |
| Daq.DaqShared.constructor | streamTest_T7.py:37-65 | the class-level lists start empty |
| Daq.TempStore.constructor | GUI_for_labjack.py:93-111 | one empty set of lists per temperature input, and no "Time" entry yet |
| Daq.PressStore.constructor | GUI_for_labjack.py:115-126 | one empty set of lists per pressure input |
| Daq.MagStore.constructor | GUI_for_labjack.py:78-88 | one empty set of lists per magnetic input |
| Daq.Daq.constructor | streamTest_T7.py:71-73 | a new acquisition object has epoch now, both guards set, and nothing scheduled |
| Daq.Daq.DerivativeFunction | streamTest_T7.py:385-401 | the guard changes exactly as one detection of "some sensor's derivative window is steep" |
| Daq.Daq.PressureCheck | streamTest_T7.py:215-231 | the guard changes exactly as one detection of "some new sample ≥ 1000" |
| Daq.Daq.TData | streamTest_T7.py:75-192 | the lists become the temperature tick of the old lists at the elapsed time; alignment is preserved; the epoch is reset exactly at midnight; the derivative check runs on the new windows; the returned lists are the shared ones |
| Daq.Daq.PData | streamTest_T7.py:194-281 | the same for pressure, with the threshold check |
| Daq.Daq.MData | streamTest_T7.py:284-345 | the same for magnetics, with no spike check |
| Daq.Daq.StoreSpike | streamTest_T7.py:349-383 | the record holds the columns and time labels handed in, and both guards are set afterwards |
| Daq.Daq.CooldownExpired | streamTest_T7.py:349-383 | the oldest scheduled store fires: it records its group's spike windows as they are at that moment, re-arms both guards, and yields a rectangular table when the lists are aligned |
| Daq.Daq.StopRun | streamTest_T7.py:405-420 | only the three time lists are emptied |
| Gui.InputsDistinct | GUI_for_labjack.py:72-74 | no input is configured twice |
| Gui.ResValuesKeyed | GUI_for_labjack.py:102 | the lead resistances are keyed by exactly the temperature inputs |
| Gui.Cancel | GUI_for_labjack.py:402 | cancelling stops a started timer and leaves any other timer unchanged |
| Gui.Trunc | GUI_for_labjack.py:717 | int() truncates toward zero |
| Gui.ViewWindow | GUI_for_labjack.py:712-732 | index 0 switches to 1 iff last > 90; a windowed index falls back to 0 iff it lacks data (90 s strict; 300 s and 600 s inclusive); otherwise it sets a range W + 5 s wide that starts at the truncated last − W |
| Gui.DefaultThenNinety | GUI_for_labjack.py:712-717 | after the switch from 0 to 1, the next update with no less data shows a 95 s range |
| Gui.TempDataCleared | GUI_for_labjack.py:410-413 | every temperature display list is empty, and every other list of the sensor is kept |
| Gui.PressDataCleared | GUI_for_labjack.py:416-419 | the same for pressure |
| Gui.MagDataCleared | GUI_for_labjack.py:403-406 | the same for magnetics |
| Gui.ClearTempData | GUI_for_labjack.py:410-413 | the loop over the temperature inputs computes exactly that clearing |
| Gui.ClearPressData | GUI_for_labjack.py:416-419 | the loop over the pressure inputs computes exactly that clearing |
| Gui.ClearMagData | GUI_for_labjack.py:403-406 | the loop over the magnetic inputs computes exactly that clearing |
| Gui.StopAligned | GUI_for_labjack.py:398-419 | emptying a group's time list together with its display lists keeps the parallel-length invariant |
| Gui.StopKeepsValid | GUI_for_labjack.py:398-419 | a stop keeps the window invariant |
| Gui.TempUpdateKeepsValid | GUI_for_labjack.py:501-512 | a temperature update keeps the window invariant |
| Gui.PressUpdateKeepsValid | GUI_for_labjack.py:561-570 | a pressure update keeps the window invariant |
| Gui.MagUpdateKeepsValid | GUI_for_labjack.py:450-458 | a magnetic update keeps the window invariant |
| Gui.MainWindow.constructor | GUI_for_labjack.py:72-126 | every dictionary holds exactly one empty entry per input of its group; there is no run, no timer and no acquisition object |
| Gui.MainWindow.StartRun | GUI_for_labjack.py:365-388 | with a run going it changes nothing; otherwise it makes a fresh acquisition object with epoch now and starts exactly three timers (0.95 s, 0.95 s, 1/3 s) |
| Gui.MainWindow.StopRun | GUI_for_labjack.py:398-419 | with no run going it changes nothing, so a second stop is a no-op; otherwise it clears the run flag, the three time lists and every display list, keeps the minute records, and cancels the three timers |
| Gui.MainWindow.ClearDisplays | GUI_for_labjack.py:403-419 | every display list of the three dictionaries is emptied |
| Gui.MainWindow.ImageUpdate1 | GUI_for_labjack.py:697-732 | while closing it does nothing; otherwise it applies the view rule to the index read at entry and the newest time, and changes the index only when the rule selects one |
| Gui.MainWindow.ShowLatest | GUI_for_labjack.py:520-523 | the view rule runs only when the plot is shown and has data; nothing is done while closing; the combo index changes only to the index the rule selects |
| Gui.MainWindow.UpdatePlot1 | GUI_for_labjack.py:450-486 | one magnetic tick; the epoch moves to the tick's time exactly at midnight; the "Time" column is the label list; the view rule runs only when this plot is shown and has data, never while closing, and the combo index changes only to the index it selects; the timer restarts only while the run flag is set; the invariant is kept |
| Gui.MainWindow.UpdatePlot2 | GUI_for_labjack.py:501-544 | the same for temperature, with the derivative check |
| Gui.MainWindow.UpdatePlot3 | GUI_for_labjack.py:561-599 | the same for pressure, with the threshold check |

## Left out

- Hardware access (`ljm.openS`, `ljm.eReadName`): each tick takes one
  converted value per sensor as input.
- A failed read or conversion is not modelled. In the source it raises
  after the tick's time (and, for temperature and pressure, its spike
  label) has been appended. A read error can do so in every group. In the
  temperature group, a 0 V reading divides by zero
  (streamTest_T7.py:124), and a negative discriminant fails the square
  root (streamTest_T7.py:126). The time list then outgrows the lists of
  the sensors not yet processed. The update also never reaches its timer
  restart (GUI_for_labjack.py:542-544), so that group stops updating. The
  model's ticks always complete and always line up.
- The pressure factor `10**(-0.74)` and the magnetic identity conversion
  are not modelled. Both are applied before the value reaches the tick.
- Convert.TemperatureRoundTrip: the square root is not computed. The lemma
  takes any non-negative root of the discriminant, since reals have no
  `sqrt`.
- Clock reads: `now` and the wall clock are inputs. At midnight the source
  reads the clock again for the new epoch; the model uses the tick's own
  `now`.
- Ticks.TempTick: Python's `round(…, 3)` of the minute value is not
  modelled; the value is the exact mean.
- Ticks.PressTick: Python's `round(…, 1)` of the minute value is not
  modelled.
- Ticks.MagTick: Python's `round(…, 6)` before the ×1000 scaling is not
  modelled.
- Floating point: all values are exact reals.
- Order within a tick: the source appends every sensor's sample before it
  trims any list. The model updates one sensor's lists at a time. Each
  sensor's lists are separate, so the end state is the same. The pressure
  threshold check reads only the new samples, so its place in the tick does
  not matter either.
- Threads and `Timer` objects: a timer is a field value (none, started with
  a period, or cancelled). Its firing is a call of the update method or of
  `Daq.Daq.CooldownExpired`.
- The read-then-write race on the guard flags is not modelled, nor is an
  update that fires after a stop and a restart.
- Gui.MainWindow.UpdatePlot1, Gui.MainWindow.UpdatePlot2 and
  Gui.MainWindow.UpdatePlot3: each requires an acquisition object. The
  source starts the update timers only after creating one.
- File output: `fileWriter` and the CSV part of `storeSpike` are not
  modelled. The store returns the record it would write.
- `print` messages, widgets, legends and line plotting are not modelled.
  Which plot is shown (the radio buttons) is the `shown` input.
- `closeEvent` is not modelled; `closing` is a field.
- `imageUpdate2` is not modelled; it is never called.
- `numLines` is not modelled.
- `derBufferList` is not modelled. It is set up with one empty list per
  temperature input and never used afterwards.
- When the hour reset clears every entry of the minute-record dictionary,
  it also clears the `'Time'` entry. That entry is the label list just
  emptied, so the effect is the same.
