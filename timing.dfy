/** Bus geometry and the integer timing constants of the sequential detector
    (all durations in microseconds). */
module Timing {

  /** Number of tubes multiplexed on the data bus (NUM_TUBES / numTubes). */
  const NumTubes: nat := 16
  /** Lines on the input port: four position lines and the DV line. */
  const InputLineCount: nat := 5
  /** Lines on the output port: reset (line 0) and clock (line 1). */
  const OutputLineCount: nat := 2

  /** Base time unit. */
  const Tb: nat := 200
  const resetPulseDuration: nat := 3 * Tb
  const clockHighDuration: nat := 500
  const clockLowDuration: nat := 500
  /** Delay after the clock's rising edge before the sample is taken. */
  const readDelay: nat := Tb
  /** The part of the clock-high window left after the sample (an int in the
      source; it is 300, so it fits a nat). */
  const remainingHighDelay: nat := clockHighDuration - readDelay

  /** The relations the constants are chosen to satisfy: the sample falls
      strictly inside the high window and the two sleeps around it fill it. */
  lemma TimingRelations()
    ensures resetPulseDuration == 3 * Tb == 600
    ensures readDelay == Tb == 200 && remainingHighDelay == 300
    ensures 0 < readDelay < clockHighDuration
    ensures readDelay + remainingHighDelay == clockHighDuration
    ensures clockHighDuration + clockLowDuration == 1000
  {
  }
}
