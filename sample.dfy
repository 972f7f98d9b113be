/** The sequential detector's decoding of one input byte and its update of
    the last value recorded for a tube. */
module Sample {

  /** lastValue entry that marks a tube as eating. */
  const EatingMark: int := -1

  /** dataValue: the position lines, bits 0..3 of the input byte. */
  function DataValue(diData: bv8): (v: nat)
    ensures v < 16
    ensures v == diData as int % 16
  {
    (diData & 0x0F) as nat
  }

  /** DV: bit 4 of the input byte. */
  function DvHigh(diData: bv8): (dv: bool)
    ensures dv <==> (diData as int / 16) % 2 == 1
  {
    diData & 0x10 != 0
  }

  /** The new lastValue of a tube whose previous value is last and whose
      sample is diData. */
  function Updated(last: int, diData: bv8): (r: int)
    ensures r == last || r == EatingMark || 1 <= r <= 16
    ensures r == EatingMark && last != EatingMark ==> last == 1
  {
    if !DvHigh(diData) then DataValue(diData) + 1
    else if DataValue(diData) == 0 && last == 1 then EatingMark
    else last
  }

  /** Values lastValue takes once a tube has been decoded: a position 1..16
      or the eating mark. */
  predicate IsRecorded(v: int) {
    v == EatingMark || 1 <= v <= 16
  }

  /** Bits 5..7 of the input byte play no part in decoding. */
  lemma HighBitsIgnored(x: bv8, y: bv8)
    requires x & 0x1F == y & 0x1F
    ensures DataValue(x) == DataValue(y) && DvHigh(x) == DvHigh(y)
    ensures forall last :: Updated(last, x) == Updated(last, y)
  {
  }

  /** The five decoded bits determine the low five bits of the byte. */
  lemma DecodedBitsRoundTrip(x: bv8)
    ensures x & 0x1F == (DataValue(x) as bv8) | (if DvHigh(x) then 0x10 else 0)
  {
  }

  /** DV low records position dataValue + 1 (0 -> 1, 15 -> 16), whatever was
      recorded before. */
  lemma DvLowRecordsPosition(last: int, diData: bv8)
    requires !DvHigh(diData)
    ensures Updated(last, diData) == DataValue(diData) + 1
    ensures 1 <= Updated(last, diData) <= 16
  {
  }

  /** DV high with all position lines low after a recorded 1: eating. */
  lemma EatingStarts(diData: bv8)
    requires DvHigh(diData) && DataValue(diData) == 0
    ensures Updated(1, diData) == EatingMark
  {
  }

  /** DV high otherwise holds the last value; an eating tube stays eating
      and is not re-triggered. */
  lemma HoldsLastValue(last: int, diData: bv8)
    requires DvHigh(diData) && !(DataValue(diData) == 0 && last == 1)
    ensures Updated(last, diData) == last
    ensures last == EatingMark ==> Updated(last, diData) == EatingMark
  {
  }

  /** Only a recorded 1 followed by a DV-high all-low sample starts eating. */
  lemma EatingOnlyFromOne(last: int, diData: bv8)
    requires last != EatingMark && Updated(last, diData) == EatingMark
    ensures last == 1 && DvHigh(diData) && DataValue(diData) == 0
  {
  }

  /** Applying a sample twice gives the same value as applying it once. */
  lemma UpdatedIdempotent(last: int, diData: bv8)
    ensures Updated(Updated(last, diData), diData) == Updated(last, diData)
  {
  }

  /** Once recorded, a value stays within positions and the eating mark. */
  lemma UpdatedKeepsRecorded(last: int, diData: bv8)
    requires IsRecorded(last) || !DvHigh(diData)
    ensures IsRecorded(Updated(last, diData))
  {
  }
}
