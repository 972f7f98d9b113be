/** The line-write pattern of one iteration of the threaded detector's
    output thread (the reset/clock handshake with the input thread is not
    modelled). */
module OutputThread {
  import opened Timing

  /** One call that writes the two output lines: outputData[0] is the reset
      line, outputData[1] the clock line. */
  datatype LineWrite = LineWrite(reset: bv8, clock: bv8)

  /** The clock pulses of the first n tubes: high, then low, for each. */
  function ClockPulses(n: nat): (w: seq<LineWrite>)
    ensures |w| == 2 * n
  {
    if n == 0 then [] else ClockPulses(n - 1) + [LineWrite(0, 1), LineWrite(0, 0)]
  }

  /** The writes of one iteration: reset high, reset low, then a clock
      pulse per tube. */
  function OutputPattern(): (w: seq<LineWrite>)
    ensures |w| == 2 + 2 * NumTubes
    ensures w[0] == LineWrite(1, 0) && w[1] == LineWrite(0, 0)
  {
    [LineWrite(1, 0), LineWrite(0, 0)] + ClockPulses(NumTubes)
  }

  /** One iteration of the output thread's loop. The array outputData is
      reassigned line by line and every write sends its current contents. */
  method OutputIteration() returns (writes: seq<LineWrite>)
    ensures writes == OutputPattern()
  {
    var outputData := new bv8[OutputLineCount];
    outputData[0] := 1;  // reset high
    outputData[1] := 0;  // clock low
    writes := [LineWrite(outputData[0], outputData[1])];
    outputData[0] := 0;  // reset low
    writes := writes + [LineWrite(outputData[0], outputData[1])];
    for i := 0 to NumTubes
      invariant outputData[0] == 0 && outputData[1] == 0
      invariant writes == [LineWrite(1, 0), LineWrite(0, 0)] + ClockPulses(i)
    {
      outputData[1] := 1;  // clock high
      writes := writes + [LineWrite(outputData[0], outputData[1])];
      outputData[1] := 0;  // clock low
      writes := writes + [LineWrite(outputData[0], outputData[1])];
    }
  }

  /** Write k of the first n clock pulses: even positions raise the clock,
      odd positions lower it, the reset line stays low. */
  lemma {:induction false} ClockPulsesAt(n: nat, k: nat)
    requires k < 2 * n
    ensures ClockPulses(n)[k] == if k % 2 == 0 then LineWrite(0, 1) else LineWrite(0, 0)
  {
    if k < 2 * (n - 1) {
      ClockPulsesAt(n - 1, k);
    }
  }

  /** The reset pulse followed by n clock pulses: 2 + 2n writes; reset
      high with the clock low, then reset low, then the clock alternating
      high and low with reset low; never both lines high; last write both
      lines low. */
  lemma {:induction false} PulsesShape(n: nat)
    ensures var w := [LineWrite(1, 0), LineWrite(0, 0)] + ClockPulses(n);
            |w| == 2 + 2 * n &&
            w[0] == LineWrite(1, 0) && w[1] == LineWrite(0, 0) &&
            (forall k :: 2 <= k < |w| ==> w[k] == if k % 2 == 0 then LineWrite(0, 1) else LineWrite(0, 0)) &&
            (forall k :: 0 <= k < |w| ==> !(w[k].reset == 1 && w[k].clock == 1)) &&
            w[|w| - 1] == LineWrite(0, 0)
  {
    var w := [LineWrite(1, 0), LineWrite(0, 0)] + ClockPulses(n);
    forall k | 2 <= k < |w|
      ensures w[k] == if k % 2 == 0 then LineWrite(0, 1) else LineWrite(0, 0)
    {
      ClockPulsesAt(n, k - 2);
    }
  }

  /** Shape of one iteration: 34 writes; the first raises reset with the
      clock low, the second lowers it; then the clock alternates high/low
      with reset low; reset and clock are never high together; the
      iteration ends with both lines low. */
  lemma OutputPatternShape()
    ensures |OutputPattern()| == 2 + 2 * NumTubes == 34
    ensures OutputPattern()[0] == LineWrite(1, 0) && OutputPattern()[1] == LineWrite(0, 0)
    ensures forall k :: 2 <= k < |OutputPattern()| ==>
              OutputPattern()[k] == if k % 2 == 0 then LineWrite(0, 1) else LineWrite(0, 0)
    ensures forall k :: 0 <= k < |OutputPattern()| ==>
              !(OutputPattern()[k].reset == 1 && OutputPattern()[k].clock == 1)
    ensures OutputPattern()[|OutputPattern()| - 1] == LineWrite(0, 0)
  {
    PulsesShape(NumTubes);
  }
}
