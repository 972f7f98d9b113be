/** The threaded detector's table of sixteen tube readings, updated in place
    by initializeState and processData. */
module TubeTable {
  import opened Timing
  import opened Reading

  class TubeReadings {
    /** tubeReadings[NUM_TUBES]: the global array of readings. */
    var tubeReadings: array<TubeReading>

    /** Every entry satisfies the reading invariant. */
    ghost predicate Valid()
      reads this, tubeReadings
    {
      tubeReadings.Length == NumTubes &&
      forall i :: 0 <= i < tubeReadings.Length ==> WellFormed(tubeReadings[i])
    }

    /** The static table: zero-initialised storage, so every tube starts
        at value 0 and not eating. */
    constructor ()
      ensures fresh(tubeReadings) && Valid()
      ensures forall i :: 0 <= i < NumTubes ==> tubeReadings[i] == InitialReading()
    {
      tubeReadings := new TubeReading[NumTubes](_ => TubeReading(0, false));
    }

    /** The loop of initializeState: every tube gets value 0 and is not
        eating, so every tube is shown as idle. */
    method InitializeState()
      requires tubeReadings.Length == NumTubes
      modifies tubeReadings
      ensures Valid()
      ensures forall i :: 0 <= i < NumTubes ==> tubeReadings[i] == InitialReading()
      ensures forall i :: 0 <= i < NumTubes ==> Classify(tubeReadings[i]) == Idle
    {
      for i := 0 to NumTubes
        invariant forall j :: 0 <= j < i ==> tubeReadings[j] == InitialReading()
      {
        tubeReadings[i] := TubeReading(0, false);
      }
    }

    /** processData: decode one sample into the reading of tube tubeNumber;
        no other entry changes, and the table invariant is kept. */
    method ProcessData(data: LineSample, tubeNumber: int)
      requires 0 <= tubeNumber < NumTubes == tubeReadings.Length
      modifies tubeReadings
      ensures tubeReadings[tubeNumber] == Processed(old(tubeReadings[tubeNumber]), data)
      ensures forall i :: 0 <= i < NumTubes && i != tubeNumber ==> tubeReadings[i] == old(tubeReadings[i])
      ensures old(Valid()) ==> Valid()
    {
      if data[4] == 0 {
        tubeReadings[tubeNumber] :=
          tubeReadings[tubeNumber].(value := data[0] as int + data[1] as int * 1 + data[2] as int * 4 + data[3] as int * 8,
                                    isEating := false);
      } else {
        if data[0] == 0 && data[1] == 0 && data[2] == 0 && data[3] == 0 &&
           tubeReadings[tubeNumber].value == 1 {
          tubeReadings[tubeNumber] := tubeReadings[tubeNumber].(isEating := true);
        }
      }
    }

    /** The status the display shows for one tube. */
    function StatusOf(tube: nat): (s: Status)
      requires Valid() && tube < NumTubes
      reads this, tubeReadings
      ensures s == Eating ==> tubeReadings[tube].value == 1
      ensures s.Active? ==> s.position == tubeReadings[tube].value > 0
    {
      Classify(tubeReadings[tube])
    }
  }
}
