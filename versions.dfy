/** How the threaded and the sequential detector relate: the same line
    pattern on the output port, and different position decoding. */
module Versions {
  import opened Timing
  import opened OutputThread
  import opened Cycle
  import Reading
  import Sample

  /** The port value a two-line write puts on the bus: reset on bit 0,
      clock on bit 1 (for line values 0 and 1). */
  function MaskOf(w: LineWrite): (m: bv8)
    ensures w.reset <= 1 && w.clock <= 1 ==>
              m & 0x01 == w.reset && (m >> 1) & 0x01 == w.clock && m >> 2 == 0
  {
    w.reset | (w.clock << 1)
  }

  /** The port values of a sequence of 0/1 line writes. */
  function Masks(ws: seq<LineWrite>): (ms: seq<bv8>)
    ensures |ms| == |ws|
    ensures forall i :: 0 <= i < |ws| ==> ms[i] == MaskOf(ws[i])
  {
    if ws == [] then [] else Masks(ws[..|ws| - 1]) + [MaskOf(ws[|ws| - 1])]
  }

  /** The clock pulses of the threaded version, as port values, are those of
      the sequential version. */
  lemma {:induction false} ClockPulsesMatch(n: nat)
    ensures Masks(ClockPulses(n)) == ClockMasks(n)
  {
    if n > 0 {
      ClockPulsesMatch(n - 1);
      var w := ClockPulses(n);
      assert w[..|w| - 1][..|w| - 2] == ClockPulses(n - 1);
    }
  }

  /** One iteration of the threaded output thread puts on the port exactly
      the sequence of values one pass of the sequential loop writes. */
  lemma SameLinePattern()
    ensures Masks(OutputPattern()) == WriteMasks(CycleTrace())
  {
    ClockPulsesMatch(NumTubes);
    CycleSummary();
    var w := OutputPattern();
    assert w[..2] == [LineWrite(1, 0), LineWrite(0, 0)];
    assert Masks(w[..2]) == [ResetHigh, AllLow];
    MasksConcat(w[..2], ClockPulses(NumTubes));
    assert w[..2] + ClockPulses(NumTubes) == w;
  }

  /** Port values of a concatenation. */
  lemma MasksConcat(a: seq<LineWrite>, b: seq<LineWrite>)
    ensures Masks(a + b) == Masks(a) + Masks(b)
  {
    var l, r := Masks(a + b), Masks(a) + Masks(b);
    forall i | 0 <= i < |l|
      ensures l[i] == r[i]
    {
      if i < |a| {
        assert (a + b)[i] == a[i];
      } else {
        assert (a + b)[i] == b[i - |a|];
      }
    }
  }

  /** The five input lines as the threaded version sees them, for the byte
      the sequential version reads. */
  function LinesOf(x: bv8): (data: Reading.LineSample)
    ensures Reading.LineLevels(data)
    ensures Reading.DvHigh(data) == Sample.DvHigh(x)
    ensures data[0] as int + 2 * data[1] as int + 4 * data[2] as int + 8 * data[3] as int == Sample.DataValue(x)
  {
    [x & 1, (x >> 1) & 1, (x >> 2) & 1, (x >> 3) & 1, (x >> 4) & 1]
  }

  /** On a DV-low sample the two versions record different positions: the
      sequential one dataValue + 1, the threaded one the weighted value,
      which counts line 1 with weight 1 instead of 2. */
  lemma PositionsCompared(r: Reading.TubeReading, last: int, x: bv8)
    requires !Sample.DvHigh(x)
    ensures Sample.Updated(last, x) == Reading.Processed(r, LinesOf(x)).value + 1 + ((x >> 1) & 1) as int
  {
  }

  /** The versions disagree on when a tube starts eating. The sequential one
      eats after an all-low DV-low sample (recorded as 1); the threaded one
      does not, since that sample gives value 0. After a sample with only
      line 0 high the threaded one eats and the sequential one does not. */
  lemma EatingDiverges()
    ensures var r1 := Reading.Processed(Reading.InitialReading(), LinesOf(0x00));
            var l1 := Sample.Updated(0, 0x00);
            Sample.Updated(l1, 0x10) == Sample.EatingMark &&
            Reading.Classify(Reading.Processed(r1, LinesOf(0x10))) == Reading.Idle
    ensures var r1 := Reading.Processed(Reading.InitialReading(), LinesOf(0x01));
            var l1 := Sample.Updated(0, 0x01);
            Sample.Updated(l1, 0x10) == 2 &&
            Reading.Classify(Reading.Processed(r1, LinesOf(0x10))) == Reading.Eating
  {
  }
}
