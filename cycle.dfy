/** One pass of the sequential detector's main loop as a trace of bus
    events, and the detector object whose lastValue array the pass updates. */
module Cycle {
  import opened Timing
  import opened Sample

  /** What the main loop does to the outside world, in order. */
  datatype Event =
    | Write(mask: bv8)     // a write to the output port: bit 0 reset, bit 1 clock
    | Read(tube: nat)      // the single input read taken for a tube
    | Sleep(micros: nat)   // a timed wait

  const ResetHigh: bv8 := 0x01
  const ClockHigh: bv8 := 0x02
  const AllLow: bv8 := 0x00

  /** Step 1: the reset pulse. */
  function ResetPulse(): (s: seq<Event>)
    ensures |s| == 3 && s[0] == Write(ResetHigh) && s[2] == Write(AllLow)
    ensures forall i :: 0 <= i < |s| ==> !s[i].Read?
  {
    [Write(ResetHigh), Sleep(resetPulseDuration), Write(AllLow)]
  }

  /** Steps 2-8 for one tube: clock high, wait, read, wait out the high
      window, clock low, wait the low period. */
  function TubeSlot(tube: nat): (s: seq<Event>)
    ensures |s| == 6 && s[0] == Write(ClockHigh) && s[4] == Write(AllLow)
    ensures forall i :: 0 <= i < |s| ==> (s[i] == Read(tube) <==> i == 2)
    ensures forall i :: 0 <= i < |s| ==> (s[i].Write? <==> i == 0 || i == 4)
  {
    [Write(ClockHigh), Sleep(readDelay), Read(tube), Sleep(remainingHighDelay),
     Write(AllLow), Sleep(clockLowDuration)]
  }

  /** The slots of tubes 0..n-1 in ascending order. */
  function TubeSlots(n: nat): (s: seq<Event>)
    ensures |s| == 6 * n
  {
    if n == 0 then [] else TubeSlots(n - 1) + TubeSlot(n - 1)
  }

  /** The events of one full pass. */
  function CycleTrace(): (s: seq<Event>)
    ensures |s| == 3 + 6 * NumTubes
    ensures s[0] == Write(ResetHigh)
  {
    ResetPulse() + TubeSlots(NumTubes)
  }

  /** Total time spent sleeping in a stretch of the trace (writes and reads
      take no time in the model). */
  function Elapsed(s: seq<Event>): nat {
    if s == [] then 0
    else Elapsed(s[..|s| - 1]) + (if s[|s| - 1].Sleep? then s[|s| - 1].micros else 0)
  }

  /** The masks written, in order. */
  function WriteMasks(s: seq<Event>): seq<bv8> {
    if s == [] then []
    else WriteMasks(s[..|s| - 1]) + (if s[|s| - 1].Write? then [s[|s| - 1].mask] else [])
  }

  // ---------------------------------------------------------------------
  // The detector

  class Detector {
    /** lastValue[numTubes]: the last value recorded per tube. */
    var lastValue: array<int>

    /** A detector whose lastValue holds the given (unspecified) contents. */
    constructor (initial: seq<int>)
      requires |initial| == NumTubes
      ensures fresh(lastValue) && lastValue[..] == initial
    {
      lastValue := new int[NumTubes](i requires 0 <= i < NumTubes => initial[i]);
    }

    /** Steps 5-6 after the read: extract the position bits and DV, then
        record a position, the eating mark, or nothing. Only
        lastValue[tube] changes. */
    method ProcessReading(tube: nat, diData: bv8)
      requires tube < lastValue.Length
      modifies lastValue
      ensures lastValue[tube] == Updated(old(lastValue[tube]), diData)
      ensures forall t :: 0 <= t < lastValue.Length && t != tube ==> lastValue[t] == old(lastValue[t])
    {
      var dataValue := (diData & 0x0F) as int;
      var dv := (diData & 0x10) != 0;
      if !dv {
        var tubeNumber := dataValue + 1;
        lastValue[tube] := tubeNumber;
      } else {
        if dataValue == 0 && lastValue[tube] == 1 {
          lastValue[tube] := -1;
        }
      }
    }

    /** One pass of the main loop. samples[k] is what the k-th read returns.
        The pass emits exactly CycleTrace() and leaves every tube's value
        updated by its own sample. */
    method RunCycle(samples: seq<bv8>) returns (trace: seq<Event>)
      requires lastValue.Length == NumTubes && |samples| == NumTubes
      modifies lastValue
      ensures trace == CycleTrace()
      ensures forall t :: 0 <= t < NumTubes ==> lastValue[t] == Updated(old(lastValue[t]), samples[t])
    {
      var doData: bv8 := 0x01;
      trace := [Write(doData), Sleep(resetPulseDuration)];
      doData := 0x00;
      trace := trace + [Write(doData)];
      for tube := 0 to NumTubes
        invariant trace == ResetPulse() + TubeSlots(tube)
        invariant forall t :: 0 <= t < tube ==> lastValue[t] == Updated(old(lastValue[t]), samples[t])
        invariant forall t :: tube <= t < NumTubes ==> lastValue[t] == old(lastValue[t])
      {
        doData := 0x02;
        trace := trace + [Write(doData), Sleep(readDelay)];
        var diData := samples[tube];
        trace := trace + [Read(tube)];
        ProcessReading(tube, diData);
        trace := trace + [Sleep(remainingHighDelay)];
        doData := 0x00;
        trace := trace + [Write(doData), Sleep(clockLowDuration)];
      }
    }
  }

  // ---------------------------------------------------------------------
  // Properties of the trace

  /** Event k of tube t's slot sits at index 6 * t + k of the first n slots. */
  lemma {:induction false} TubeSlotsAt(n: nat, t: nat, k: nat)
    requires t < n && k < 6
    ensures TubeSlots(n)[6 * t + k] == TubeSlot(t)[k]
  {
    if t < n - 1 {
      TubeSlotsAt(n - 1, t, k);
    }
  }

  /** Layout of the pass: 99 events, the reset pulse first, then tube t's
      slot at index 3 + 6 * t. */
  lemma CycleTraceAt(i: nat)
    requires i < |CycleTrace()|
    ensures |CycleTrace()| == 3 + 6 * NumTubes == 99
    ensures i < 3 ==> CycleTrace()[i] == ResetPulse()[i]
    ensures i >= 3 ==> (i - 3) / 6 < NumTubes && CycleTrace()[i] == TubeSlot((i - 3) / 6)[(i - 3) % 6]
  {
    if i >= 3 {
      TubeSlotsAt(NumTubes, (i - 3) / 6, (i - 3) % 6);
    }
  }

  /** Event k of tube t's slot sits at index 3 + 6 * t + k of the pass. */
  lemma CycleSlotAt(t: nat, k: nat)
    requires t < NumTubes && k < 6
    ensures CycleTrace()[3 + 6 * t + k] == TubeSlot(t)[k]
  {
    TubeSlotsAt(NumTubes, t, k);
  }

  /** Every tube t < 16 is read exactly once in a pass, at index 5 + 6 * t,
      and no other tube is read. */
  lemma EachTubeReadOnce(t: nat)
    ensures t < NumTubes ==> CycleTrace()[5 + 6 * t] == Read(t)
    ensures forall i :: 0 <= i < |CycleTrace()| && CycleTrace()[i] == Read(t) ==> t < NumTubes && i == 5 + 6 * t
  {
    if t < NumTubes {
      CycleSlotAt(t, 2);
    }
    forall i | 0 <= i < |CycleTrace()| && CycleTrace()[i] == Read(t)
      ensures t < NumTubes && i == 5 + 6 * t
    {
      CycleTraceAt(i);
    }
  }

  /** The first t slots are a prefix of the first n. */
  lemma {:induction false} TubeSlotsPrefix(n: nat, t: nat)
    requires t <= n
    ensures TubeSlots(n)[..6 * t] == TubeSlots(t)
  {
    if t < n {
      TubeSlotsPrefix(n - 1, t);
      assert TubeSlots(n)[..6 * (n - 1)] == TubeSlots(n - 1);
    }
  }

  /** The reset pulse and the first n slots, up to event k of slot t. */
  lemma {:induction false} SlotsPrefix(n: nat, t: nat, k: nat)
    requires t < n && k <= 6
    ensures (ResetPulse() + TubeSlots(n))[..3 + 6 * t + k] == ResetPulse() + TubeSlots(t) + TubeSlot(t)[..k]
  {
    var slots := TubeSlots(n);
    TubeSlotsPrefix(n, t + 1);
    assert slots[..6 * t + k] == slots[..6 * (t + 1)][..6 * t + k];
    assert TubeSlots(t + 1) == TubeSlots(t) + TubeSlot(t);
    assert (TubeSlots(t) + TubeSlot(t))[..6 * t + k] == TubeSlots(t) + TubeSlot(t)[..k];
    assert (ResetPulse() + slots)[..3 + 6 * t + k] == ResetPulse() + slots[..6 * t + k];
  }

  /** The pass up to event k of tube t's slot. */
  lemma CyclePrefix(t: nat, k: nat)
    requires t < NumTubes && k <= 6
    ensures CycleTrace()[..3 + 6 * t + k] == ResetPulse() + TubeSlots(t) + TubeSlot(t)[..k]
  {
    SlotsPrefix(NumTubes, t, k);
  }

  /** Reset stays high for exactly resetPulseDuration before it is
      lowered. */
  lemma ResetPulseTiming()
    ensures Elapsed(ResetPulse()[..2]) == resetPulseDuration
  {
    var s := ResetPulse();
    assert s[..1][..0] == [];
    assert Elapsed(s[..1]) == 0;
    assert s[..2][..1] == s[..1];
  }

  /** Time offsets inside one slot: the read comes readDelay after the
      rising edge, the falling edge clockHighDuration after it. */
  lemma SlotTimeline(t: nat)
    ensures Elapsed(TubeSlot(t)[..2]) == readDelay
    ensures Elapsed(TubeSlot(t)[..4]) == clockHighDuration
  {
    var s := TubeSlot(t);
    assert s[..1][..0] == [];
    assert Elapsed(s[..1]) == 0;
    assert s[..2][..1] == s[..1];
    assert Elapsed(s[..2]) == readDelay;
    assert s[..3][..2] == s[..2];
    assert Elapsed(s[..3]) == readDelay;
    assert s[..4][..3] == s[..3];
  }

  /** A slot writes the clock high then low and lasts one clock period. */
  lemma SlotTotals(t: nat)
    ensures Elapsed(TubeSlot(t)) == clockHighDuration + clockLowDuration == 1000
    ensures WriteMasks(TubeSlot(t)) == [ClockHigh, AllLow]
  {
    var s := TubeSlot(t);
    assert s[..1][..0] == [];
    assert Elapsed(s[..1]) == 0 && WriteMasks(s[..1]) == [ClockHigh];
    assert s[..2][..1] == s[..1];
    assert Elapsed(s[..2]) == readDelay && WriteMasks(s[..2]) == [ClockHigh];
    assert s[..3][..2] == s[..2];
    assert Elapsed(s[..3]) == readDelay && WriteMasks(s[..3]) == [ClockHigh];
    assert s[..4][..3] == s[..3];
    assert Elapsed(s[..4]) == clockHighDuration && WriteMasks(s[..4]) == [ClockHigh];
    assert s[..5][..4] == s[..4];
    assert Elapsed(s[..5]) == clockHighDuration && WriteMasks(s[..5]) == [ClockHigh, AllLow];
    assert s[..5] == s[..6][..5];
    assert s[..6] == s;
  }

  /** Tube t's read lies strictly between its clock-high write (index
      3 + 6 * t) and its clock-low write (index 7 + 6 * t), with no other
      write in between. */
  lemma ReadBetweenClockEdges(t: nat)
    requires t < NumTubes
    ensures var tr, h, r, l := CycleTrace(), 3 + 6 * t, 5 + 6 * t, 7 + 6 * t;
            h < r < l < |tr| &&
            tr[h] == Write(ClockHigh) && tr[r] == Read(t) && tr[l] == Write(AllLow) &&
            forall j :: h < j < l ==> !tr[j].Write?
  {
    var h := 3 + 6 * t;
    forall j | h < j < h + 4
      ensures !CycleTrace()[j].Write?
    {
      CycleSlotAt(t, j - h);
    }
    CycleSlotAt(t, 0);
    CycleSlotAt(t, 2);
    CycleSlotAt(t, 4);
  }

  /** The first n slots after the reset pulse: tube t's read comes
      readDelay after its rising edge, its falling edge clockHighDuration
      after it. */
  lemma SlotsTiming(n: nat, t: nat)
    requires t < n
    ensures var tr, h := ResetPulse() + TubeSlots(n), 3 + 6 * t;
            Elapsed(tr[..h + 2]) == Elapsed(tr[..h]) + readDelay &&
            Elapsed(tr[..h + 4]) == Elapsed(tr[..h]) + clockHighDuration
  {
    var before := ResetPulse() + TubeSlots(t);
    SlotsPrefix(n, t, 0);
    SlotsPrefix(n, t, 2);
    SlotsPrefix(n, t, 4);
    assert before + TubeSlot(t)[..0] == before;
    ElapsedConcat(before, TubeSlot(t)[..2]);
    ElapsedConcat(before, TubeSlot(t)[..4]);
    SlotTimeline(t);
  }

  /** In time, the read of tube t comes readDelay after its rising clock
      edge and the falling edge clockHighDuration after it, so the sample
      is taken strictly inside the high window. */
  lemma ReadTiming(t: nat)
    requires t < NumTubes
    ensures var tr, h, r, l := CycleTrace(), 3 + 6 * t, 5 + 6 * t, 7 + 6 * t;
            Elapsed(tr[..r]) == Elapsed(tr[..h]) + readDelay &&
            Elapsed(tr[..l]) == Elapsed(tr[..h]) + clockHighDuration &&
            Elapsed(tr[..h]) < Elapsed(tr[..r]) < Elapsed(tr[..l])
  {
    SlotsTiming(NumTubes, t);
  }

  /** No write of the pass drives reset and clock high together, and the
      pass ends with both lines low. */
  lemma NoResetWithClock()
    ensures forall i :: 0 <= i < |CycleTrace()| && CycleTrace()[i].Write? ==>
              CycleTrace()[i].mask & 0x03 != 0x03
    ensures CycleTrace()[|CycleTrace()| - 2] == Write(AllLow)
    ensures CycleTrace()[|CycleTrace()| - 1].Sleep?
  {
    forall i | 0 <= i < |CycleTrace()| && CycleTrace()[i].Write?
      ensures CycleTrace()[i].mask & 0x03 != 0x03
    {
      CycleTraceAt(i);
    }
    CycleTraceAt(|CycleTrace()| - 2);
    CycleTraceAt(|CycleTrace()| - 1);
  }

  /** Sleeps of a concatenation add up. */
  lemma {:induction false} ElapsedConcat(a: seq<Event>, b: seq<Event>)
    ensures Elapsed(a + b) == Elapsed(a) + Elapsed(b)
  {
    if b != [] {
      assert (a + b)[..|a + b| - 1] == a + b[..|b| - 1];
      ElapsedConcat(a, b[..|b| - 1]);
    } else {
      assert a + b == a;
    }
  }

  /** Writes of a concatenation are those of the parts, in order. */
  lemma {:induction false} WriteMasksConcat(a: seq<Event>, b: seq<Event>)
    ensures WriteMasks(a + b) == WriteMasks(a) + WriteMasks(b)
  {
    if b != [] {
      assert (a + b)[..|a + b| - 1] == a + b[..|b| - 1];
      WriteMasksConcat(a, b[..|b| - 1]);
    } else {
      assert a + b == a;
    }
  }

  /** The written masks of the first n slots: 0x02, 0x00 per tube. */
  function ClockMasks(n: nat): seq<bv8> {
    if n == 0 then [] else ClockMasks(n - 1) + [ClockHigh, AllLow]
  }

  /** The first n slots write ClockMasks(n). */
  lemma {:induction false} TubeSlotsWrites(n: nat)
    ensures WriteMasks(TubeSlots(n)) == ClockMasks(n)
  {
    if n > 0 {
      TubeSlotsWrites(n - 1);
      WriteMasksConcat(TubeSlots(n - 1), TubeSlot(n - 1));
      SlotTotals(n - 1);
    }
  }

  /** The first n slots take 1000 µs each. */
  lemma {:induction false} TubeSlotsElapsed(n: nat)
    ensures Elapsed(TubeSlots(n)) == 1000 * n
  {
    if n > 0 {
      TubeSlotsElapsed(n - 1);
      ElapsedConcat(TubeSlots(n - 1), TubeSlot(n - 1));
      SlotTotals(n - 1);
    }
  }

  /** The reset pulse writes 0x01 then 0x00 and lasts resetPulseDuration. */
  lemma ResetPulseTotals()
    ensures WriteMasks(ResetPulse()) == [ResetHigh, AllLow]
    ensures Elapsed(ResetPulse()) == resetPulseDuration
  {
    var s := ResetPulse();
    ResetPulseTiming();
    assert s[..1][..0] == [];
    assert WriteMasks(s[..1]) == [ResetHigh];
    assert s[..2][..1] == s[..1];
    assert WriteMasks(s[..2]) == [ResetHigh];
    assert s[..3][..2] == s[..2];
    assert s[..3] == s;
  }

  /** The reset pulse and n slots: writes and total time. */
  lemma PassSummary(n: nat)
    ensures WriteMasks(ResetPulse() + TubeSlots(n)) == [ResetHigh, AllLow] + ClockMasks(n)
    ensures Elapsed(ResetPulse() + TubeSlots(n)) == resetPulseDuration + 1000 * n
  {
    TubeSlotsWrites(n);
    TubeSlotsElapsed(n);
    ResetPulseTotals();
    WriteMasksConcat(ResetPulse(), TubeSlots(n));
    ElapsedConcat(ResetPulse(), TubeSlots(n));
  }

  /** A pass writes 0x01, 0x00 and then 0x02, 0x00 for each tube (34 writes)
      and lasts resetPulseDuration plus 1000 µs per tube. */
  lemma CycleSummary()
    ensures WriteMasks(CycleTrace()) == [ResetHigh, AllLow] + ClockMasks(NumTubes)
    ensures |WriteMasks(CycleTrace())| == 34
    ensures Elapsed(CycleTrace()) == resetPulseDuration + NumTubes * 1000 == 16600
  {
    PassSummary(NumTubes);
    ClockMasksLength(NumTubes);
  }

  lemma {:induction false} ClockMasksLength(n: nat)
    ensures |ClockMasks(n)| == 2 * n
  {
    if n > 0 {
      ClockMasksLength(n - 1);
    }
  }
}
