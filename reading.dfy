/** The per-tube reading of the threaded detector: how one five-line sample
    updates a TubeReading, and how the display classifies a reading. */
module Reading {
  import opened Timing

  /** One entry of the tube table (the per-entry lock is not modelled). */
  datatype TubeReading = TubeReading(value: int, isEating: bool)

  /** What the display shows for a tube. */
  datatype Status = Eating | Active(position: int) | Idle

  /** A sample as read from the input port: data[0..3] are the position
      lines, data[4] is the DV line. */
  type LineSample = s: seq<bv8> | |s| == InputLineCount witness [0, 0, 0, 0, 0]

  /** Every line reads as a logic level 0 or 1. */
  predicate LineLevels(data: LineSample) {
    forall i :: 0 <= i < |data| ==> data[i] == 0 || data[i] == 1
  }

  /** DV high: the position lines carry no reading (DV low means they do). */
  predicate DvHigh(data: LineSample) {
    data[4] != 0
  }

  /** All four position lines low. */
  predicate AllPositionLinesLow(data: LineSample) {
    data[0] == 0 && data[1] == 0 && data[2] == 0 && data[3] == 0
  }

  /** The position value the threaded version computes, with the weights
      {1, 1, 4, 8} exactly as the source has them. */
  function WeightedValue(data: LineSample): (v: int)
    ensures 0 <= v <= 14 * 255
  {
    data[0] as int + data[1] as int * 1 + data[2] as int * 4 + data[3] as int * 8
  }

  /** The state update that processData performs on one tube's reading. */
  function Processed(r: TubeReading, data: LineSample): (r': TubeReading)
    ensures r'.value == r.value || r'.value == WeightedValue(data)
    ensures r'.isEating ==> r'.value == r.value && (r.isEating || r.value == 1)
  {
    if !DvHigh(data) then
      TubeReading(WeightedValue(data), false)
    else if AllPositionLinesLow(data) && r.value == 1 then
      r.(isEating := true)
    else
      r
  }

  /** The status choice of the display loop. */
  function Classify(r: TubeReading): (s: Status)
    ensures s.Active? ==> s.position == r.value && s.position > 0
  {
    if r.isEating then Eating
    else if r.value > 0 then Active(r.value)
    else Idle
  }

  /** The reading a tube has after initialisation. */
  function InitialReading(): TubeReading {
    TubeReading(0, false)
  }

  /** Invariant of every reading the program can produce: values are never
      negative, and a tube is only eating while its value is 1. */
  predicate WellFormed(r: TubeReading) {
    r.value >= 0 && (r.isEating ==> r.value == 1)
  }

  // ---------------------------------------------------------------------
  // Properties of the update

  /** DV low overwrites the reading with the weighted value and clears
      eating, whatever the previous reading was; with 0/1 lines the value
      lies in 0..14. */
  lemma DvLowOverwrites(r: TubeReading, data: LineSample)
    requires !DvHigh(data)
    ensures Processed(r, data).value == data[0] as int + data[1] as int + 4 * data[2] as int + 8 * data[3] as int
    ensures !Processed(r, data).isEating
    ensures LineLevels(data) ==> 0 <= Processed(r, data).value <= 14
  {
  }

  /** DV high, all position lines low and a stored value of 1: the tube
      starts eating and keeps its value. */
  lemma EatingStarts(r: TubeReading, data: LineSample)
    requires DvHigh(data) && AllPositionLinesLow(data) && r.value == 1
    ensures Processed(r, data) == TubeReading(1, true)
  {
  }

  /** DV high in every other case holds the last reading unchanged. */
  lemma HoldsLastReading(r: TubeReading, data: LineSample)
    requires DvHigh(data) && !(AllPositionLinesLow(data) && r.value == 1)
    ensures Processed(r, data) == r
  {
  }

  /** Processing the same sample twice is the same as processing it once;
      in particular a second DV-high all-low sample keeps the tube eating. */
  lemma ProcessedIdempotent(r: TubeReading, data: LineSample)
    ensures Processed(Processed(r, data), data) == Processed(r, data)
  {
  }

  /** The update keeps the invariant. */
  lemma ProcessedWellFormed(r: TubeReading, data: LineSample)
    requires WellFormed(r)
    ensures WellFormed(Processed(r, data))
  {
  }

  /** With the weights {1, 1, 4, 8}, 0/1 lines never give a value that is 3
      modulo 4 (3, 7, 11 and 15 are unreachable). */
  lemma WeightedValueGaps(data: LineSample)
    requires LineLevels(data)
    ensures WeightedValue(data) % 4 != 3
  {
  }

  /** ... and two different samples, differing only in which of the two
      lowest position lines is high, decode to the same value. */
  lemma WeightedValueNotInjective()
    ensures var a: LineSample := [1, 0, 0, 0, 0];
            var b: LineSample := [0, 1, 0, 0, 0];
            a != b && Processed(InitialReading(), a) == Processed(InitialReading(), b)
  {
  }

  // ---------------------------------------------------------------------
  // Properties of the display classification

  /** Exactly one status applies, and it is the one the display prints:
      EATING when eating, ACTIVE at the value when the value is positive,
      IDLE otherwise. */
  lemma ClassifyCases(r: TubeReading)
    ensures Classify(r) == Eating <==> r.isEating
    ensures Classify(r) == Active(r.value) <==> !r.isEating && r.value > 0
    ensures Classify(r) == Idle <==> !r.isEating && r.value <= 0
  {
  }

  /** The display prints "position 1" for an eating tube; for a well-formed
      reading that is the stored value. */
  lemma EatingShownAtStoredPosition(r: TubeReading)
    requires WellFormed(r) && Classify(r) == Eating
    ensures r.value == 1
  {
  }

  /** A freshly initialised tube is shown as idle. */
  lemma InitialReadingIdle()
    ensures WellFormed(InitialReading()) && Classify(InitialReading()) == Idle
  {
  }

  /** What the display shows after one sample, in terms of the sample. */
  lemma StatusAfterSample(r: TubeReading, data: LineSample)
    requires WellFormed(r) && LineLevels(data)
    ensures !DvHigh(data) ==>
              Classify(Processed(r, data)) == (if WeightedValue(data) > 0 then Active(WeightedValue(data)) else Idle)
    ensures DvHigh(data) && AllPositionLinesLow(data) && r.value == 1 ==>
              Classify(Processed(r, data)) == Eating
    ensures DvHigh(data) && !(AllPositionLinesLow(data) && r.value == 1) ==>
              Classify(Processed(r, data)) == Classify(r)
  {
  }
}
