# Multibeam activity detector: tube decoding and bus cycle

A model of the core of a detector that polls sixteen sensing tubes over a
shared digital bus. A two-line output port (bit 0 reset, bit 1 clock) steps
through the tubes: one reset pulse, then one clock pulse per tube. During
each clock-high window the five-line input port is sampled once: four
position lines and a DV line. The sample updates that tube's stored state.
DV low means the position lines carry a reading. DV high with all position
lines low, right after a reading of 1, means the animal is eating.

The repository has two versions of this logic, and each is modelled as
written:

- `previous/program.c`, the threaded version. `Reading` holds the update
  that `processData` applies to a `TubeReading {value, isEating}`. It uses
  the position weights {1, 1, 4, 8} exactly as the code has them. `Reading`
  also holds the display's EATING / ACTIVE / IDLE choice. `TubeTable` is the
  global table of sixteen readings as a class over an array, with
  `initializeState`'s loop and `processData`'s in-place update.
  `OutputThread` gives the line writes of one output-thread iteration.
- `new/mad.cpp`, the sequential version. `Sample` extracts the position
  bits and DV from the input byte and gives the new `lastValue` of a tube
  (DV low stores `dataValue + 1`; eating is `-1`). `Cycle` models one pass
  of the main loop. `Cycle.Detector.RunCycle` updates `lastValue` in place
  and returns the pass as a trace of `Write(mask)`, `Sleep(µs)` and
  `Read(tube)` events. The bytes the reads return are an input sequence.
- `Timing` holds the integer timing constants. `Versions` relates the two
  versions.

The central property is in `Cycle.EachTubeReadOnce`,
`Cycle.ReadBetweenClockEdges` and `Cycle.ReadTiming`. In one pass each
tube 0..15 is read exactly once. The read comes after that tube's
clock-high write and before its clock-low write, with no write in between.
In time, the read is `readDelay` (200 µs) after the rising edge, and the
falling edge is `clockHighDuration` (500 µs) after the rising edge.

Notes on the code as written:

- The threaded version stores the weighted value itself (0..14 for 0/1
  lines), with no +1. An all-low DV-low sample therefore leaves it at 0
  (IDLE). The sequential version records 1 for the same sample.
  `Versions.EatingDiverges` proves the consequence: the two versions start
  eating after different samples.
- The threaded output thread has no hold times. Its `timebase` multiples
  are timeouts passed to the write calls, not sleeps, so its writes carry
  no durations.
- The sequential loop has no exit of its own. It is left only through the
  `Error:` path of `DAQmxErrChk` when a write or read fails, which is not
  modelled (see Left out).
- The threaded output thread tests `running` only at the top of its loop
  (previous/program.c:111). It therefore always finishes a full iteration,
  and `OutputThread.OutputPatternShape` proves that such an iteration ends
  with both lines low.
- The threaded table starts at value 0, not eating, both as a
  zero-initialised static array and after `initializeState`. No initial
  state is distinct from IDLE. The sequential `lastValue` starts with
  unspecified contents, which here are the constructor's argument.

## Model

| member | source | states |
|---|---|---|
| `Timing.TimingRelations` | new/mad.cpp:2-7 | the reset pulse is 3·Tb = 600 µs; readDelay = Tb = 200 µs lies strictly inside the 500 µs high window; readDelay + remainingHighDelay = clockHighDuration |
| `Reading.WeightedValue` | previous/program.c:92-93 | the position value computed from the four line bytes is never negative and at most 14·255 |
| `Reading.DvLowOverwrites` | previous/program.c:91-95 | DV low sets value to data[0] + data[1] + 4·data[2] + 8·data[3] and clears eating, whatever the old reading; with 0/1 lines the value is in 0..14 |
| `Reading.EatingStarts` | previous/program.c:96-100 | DV high, all position lines low and stored value 1 gives value 1 and eating |
| `Reading.HoldsLastReading` | previous/program.c:96-101 | DV high in every other case leaves the reading unchanged |
| `Reading.ProcessedIdempotent` | previous/program.c:91-101 | processing the same sample twice equals processing it once (a second DV-high all-low sample keeps the tube eating) |
| `Reading.ProcessedWellFormed` | previous/program.c:91-101 | the update keeps the invariant that values are non-negative and a tube eats only at value 1 |
| `Reading.WeightedValueGaps` | previous/program.c:92-93 | with weights {1,1,4,8} and 0/1 lines, values 3, 7, 11 and 15 can never be produced |
| `Reading.WeightedValueNotInjective` | previous/program.c:92-93 | two different samples (only line 0 high, only line 1 high) decode to the same reading |
| `Reading.Processed` | previous/program.c:91-101 | processData's update: the new value is either the old value or the weighted value; a tube that is eating kept its value, and it either was eating already or had value 1 |
| `Reading.Classify` | previous/program.c:219-227 | an ACTIVE status carries the stored value, which is positive |
| `Reading.ClassifyCases` | previous/program.c:219-227 | EATING iff eating; ACTIVE at the value iff not eating and value > 0; IDLE iff not eating and value ≤ 0 (total and exclusive) |
| `Reading.EatingShownAtStoredPosition` | previous/program.c:219-220 | for a well-formed reading, the "position 1" printed for an eating tube is its stored value |
| `Reading.InitialReadingIdle` | previous/program.c:76-77 | the initial reading (0, not eating) is well-formed and classifies as IDLE |
| `Reading.StatusAfterSample` | previous/program.c:91-101 | the status after one sample: ACTIVE at the weighted value or IDLE for DV low, EATING on the eating transition, unchanged otherwise |
| `TubeTable.TubeReadings.constructor` | previous/program.c:36 | the zero-initialised static table: NUM_TUBES entries, each value 0 and not eating, so the table invariant holds |
| `TubeTable.TubeReadings.InitializeState` | previous/program.c:75-79 | after initialisation every tube has value 0 and is not eating, the table invariant holds and every tube classifies as IDLE |
| `TubeTable.TubeReadings.ProcessData` | previous/program.c:83-104 | tubeReadings[tubeNumber] becomes the processed reading; every other entry is unchanged; the table invariant is kept |
| `TubeTable.TubeReadings.StatusOf` | previous/program.c:214-227 | the status shown for a tube: EATING only at stored value 1, ACTIVE at the stored positive value |
| `OutputThread.ClockPulses` | previous/program.c:134-154 | the tube loop makes two writes per tube |
| `OutputThread.OutputPattern` | previous/program.c:113-154 | one iteration is 2 + 2·NUM_TUBES writes, starting with reset high and clock low, then both low |
| `OutputThread.OutputIteration` | previous/program.c:113-154 | one iteration, which reassigns the outputData array line by line, writes exactly OutputPattern() |
| `OutputThread.ClockPulsesAt` | previous/program.c:134-154 | within the tube loop, even writes raise the clock and odd writes lower it, with reset low |
| `OutputThread.PulsesShape` | previous/program.c:113-154 | the reset pulse followed by n clock pulses has 2 + 2n writes, never has reset and clock high together and ends with both lines low |
| `OutputThread.OutputPatternShape` | previous/program.c:113-154 | one iteration is 34 writes: [1,0], [0,0], then [0,1], [0,0] per tube; never both lines high; ends with both lines low |
| `Sample.DataValue` | new/mad.cpp:57 | dataValue is the input byte modulo 16, in 0..15 |
| `Sample.DvHigh` | new/mad.cpp:58 | DV is exactly bit 4 of the input byte |
| `Sample.Updated` | new/mad.cpp:61-79 | the new lastValue is the old one, the eating mark -1, or a position in 1..16; a tube that was not eating reaches -1 only from 1 |
| `Sample.HighBitsIgnored` | new/mad.cpp:57-58 | bytes that agree on bits 0..4 decode identically; bits 5..7 are ignored |
| `Sample.DecodedBitsRoundTrip` | new/mad.cpp:57-58 | dataValue and DV together rebuild bits 0..4 of the byte |
| `Sample.DvLowRecordsPosition` | new/mad.cpp:61-67 | DV low records dataValue + 1, in 1..16, whatever was recorded before |
| `Sample.EatingStarts` | new/mad.cpp:71-75 | DV high with dataValue 0 after a recorded 1 records -1 (EATING) |
| `Sample.HoldsLastValue` | new/mad.cpp:68-79 | DV high otherwise leaves lastValue unchanged, so an eating tube stays eating |
| `Sample.EatingOnlyFromOne` | new/mad.cpp:61-79 | a tube that was not eating starts eating only from a recorded 1 and a DV-high all-low sample |
| `Sample.UpdatedIdempotent` | new/mad.cpp:61-79 | applying a sample twice gives the same value as applying it once |
| `Sample.UpdatedKeepsRecorded` | new/mad.cpp:61-79 | after a DV-low sample, or from a recorded value, lastValue stays in {-1} ∪ 1..16 |
| `Cycle.ResetPulse` | new/mad.cpp:28-35 | step 1 writes 0x01, then 0x00, and reads nothing |
| `Cycle.TubeSlot` | new/mad.cpp:42-91 | one tube's iteration: six events, whose only writes are 0x02 first and 0x00 fifth, and whose only read of that tube is the third, between them |
| `Cycle.TubeSlots` | new/mad.cpp:38-92 | the tube loop's events for tubes 0..n-1 in ascending order: one six-event slot per tube, 6·n events in all |
| `Cycle.CycleTrace` | new/mad.cpp:28-92 | one pass has 3 + 6·16 events and begins by raising reset |
| `Cycle.ResetPulseTiming` | new/mad.cpp:28-35 | reset stays high for exactly resetPulseDuration before it is lowered |
| `Cycle.ResetPulseTotals` | new/mad.cpp:28-35 | the reset pulse writes 0x01 then 0x00 and lasts resetPulseDuration |
| `Cycle.PassSummary` | new/mad.cpp:28-92 | the reset pulse and n tube slots write 0x01, 0x00 then 0x02, 0x00 per tube, and last resetPulseDuration + 1000·n µs |
| `Cycle.Detector.ProcessReading` | new/mad.cpp:56-80 | lastValue[tube] becomes the updated value for the byte read; no other entry changes |
| `Cycle.Detector.RunCycle` | new/mad.cpp:28-92 | one pass emits exactly CycleTrace() and leaves every tube's value updated by its own sample |
| `Cycle.TubeSlotsAt` | new/mad.cpp:38-92 | event k of tube t's iteration sits at index 6t + k of the tube loop's events |
| `Cycle.CycleSlotAt` | new/mad.cpp:38-92 | event k of tube t's iteration sits at index 3 + 6t + k of the pass |
| `Cycle.CycleTraceAt` | new/mad.cpp:28-92 | a pass has 99 events: the reset pulse, then one six-event slot per tube in ascending order |
| `Cycle.EachTubeReadOnce` | new/mad.cpp:38-54 | each tube below 16 is read exactly once, at index 5 + 6t, and no other tube is read |
| `Cycle.ReadBetweenClockEdges` | new/mad.cpp:42-88 | tube t's read lies strictly between its clock-high write (0x02) and its clock-low write (0x00), with no write in between |
| `Cycle.SlotTimeline` | new/mad.cpp:42-83 | within a slot the read is readDelay after the rising edge and the falling edge clockHighDuration after it |
| `Cycle.SlotsTiming` | new/mad.cpp:42-88 | in the pass, the read of tube t is readDelay and the falling edge clockHighDuration after the rising edge |
| `Cycle.ReadTiming` | new/mad.cpp:48-83 | in time, each tube's read falls strictly inside its clock-high window |
| `Cycle.NoResetWithClock` | new/mad.cpp:28-91 | no mask written has both bit 0 and bit 1 set; the last write of a pass sets both lines low |
| `Cycle.SlotTotals` | new/mad.cpp:42-91 | one tube slot writes 0x02 then 0x00 and lasts 1000 µs |
| `Cycle.TubeSlotsWrites` | new/mad.cpp:38-92 | the tube loop writes 0x02, 0x00 per tube |
| `Cycle.TubeSlotsElapsed` | new/mad.cpp:38-92 | the tube loop sleeps 1000 µs per tube |
| `Cycle.CycleSummary` | new/mad.cpp:28-92 | a pass writes 0x01, 0x00 and then 0x02, 0x00 per tube (34 writes), and sleeps 16600 µs in all |
| `Versions.MaskOf` | new/mad.cpp:26-27 | the port value of a 0/1 two-line write has reset on bit 0, clock on bit 1, and nothing above |
| `Versions.ClockPulsesMatch` | previous/program.c:134-154 | the threaded clock pulses, as port values, equal the sequential version's |
| `Versions.SameLinePattern` | previous/program.c:113-154 | one threaded output iteration writes exactly the port values of one sequential pass |
| `Versions.LinesOf` | new/mad.cpp:56-58 | splitting a byte into five 0/1 lines keeps the DV reading, and the position lines rebuild dataValue in standard binary |
| `Versions.PositionsCompared` | previous/program.c:92-93 | on a DV-low sample the sequential value equals the threaded value + 1 + line 1 (line 1 weighs 1 in the threaded version) |
| `Versions.EatingDiverges` | previous/program.c:91-100 | after an all-low DV-low sample only the sequential version eats; after a line-0 reading only the threaded version eats |

## Left out

- Device and task setup, start, stop and clear, and the digital read and write library calls. Reads are an input sequence; writes are trace events.
- Threads, critical sections, condition variables and the `resetActive` / `clockHigh` handshake. The input thread's wait-and-read loop is concurrency, so it is not modelled. Only the output thread's write pattern and the decode are kept.
- Per-tube locks in `TubeReading`. Console output, screen clearing and the 100 ms display refresh. Only the status choice is kept.
- The float `timebase`, its multiples (timeouts on the threaded writes and reads, and the reader's `Sleep`), and the interactive timebase menu.
- Real-time sleeping and the infinite loops. One pass is modelled, with durations as integer `Sleep` events. Writes and reads take no time in the model.
- Error paths through `DAQmxErrChk` in the sequential fragment. Its `Error:` label and context are not part of this model, and the threaded version ignores write and read results.
- The two versions lay out the port data differently. The threaded version passes one byte per line: `outputData[2]` and `inputData[5]`. The sequential version passes a single packed byte: `doData` and `diData`. `Versions.MaskOf`, `Versions.LinesOf` and so `Versions.SameLinePattern` take the packed reading that the sequential version's comments describe (bit 0 reset, bit 1 clock; bits 0..3 position, bit 4 DV). How the library actually fills a one-byte buffer for five lines is not modelled.
- `currentTube`. It is set to 0 and never advanced or read.
- The declarations of `numTubes`, `lastValue`, `doTask` and `diTask` are not part of this model. The model takes `numTubes` as 16 and `lastValue` as an int array of 16 with unspecified contents.
- Cycle.Detector.RunCycle: `Read(tube)` events do not record the byte the read returned. Which byte goes with which tube is stated separately, through the updated `lastValue`.
