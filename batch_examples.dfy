/**
 * Worked pairings of the batch engine's findPairs: two pivot highs ten bars apart at
 * 100 and 100.5 (0.5% apart, inside the default 1.2% tolerance).
 */
module BatchExamples {
  import opened Common
  import opened BatchEngine

  /** %K falls from 85 to 70: one bearish event pairing bar 10 with bar 20. */
  lemma BearishPairEmitted()
    ensures Pairs([PivotRec(10, 100.0, Avail(85.0)), PivotRec(20, 100.5, Avail(70.0))],
                  true, Defaults.minBarsBetweenPivots, Defaults.priceTolerance, 2)
         == [Event(Bearish, false, 10, 100.0, Avail(85.0), 20, 100.5, Avail(70.0),
                   10, Avail(0.005), Avail(-15.0))]
  {
    assert Abs(100.5 - 100.0) / 100.0 == 0.005;
  }

  /** %K falls only from 85 to 78, short of the 10-point gate: no event. */
  lemma SmallOscillatorMoveRejected()
    ensures Pairs([PivotRec(10, 100.0, Avail(85.0)), PivotRec(20, 100.5, Avail(78.0))],
                  true, Defaults.minBarsBetweenPivots, Defaults.priceTolerance, 2) == []
  {
    assert Abs(100.5 - 100.0) / 100.0 == 0.005;
  }

  /** The pivots are five bars apart, fewer than the seven required: no event. */
  lemma ClosePivotsRejected()
    ensures Pairs([PivotRec(10, 100.0, Avail(85.0)), PivotRec(15, 100.5, Avail(70.0))],
                  true, Defaults.minBarsBetweenPivots, Defaults.priceTolerance, 2) == []
  {
  }

  /** The same pair 61 bars apart lies beyond the 60-bar look-back: no event. */
  lemma DistantPivotsRejected()
    ensures Pairs([PivotRec(10, 100.0, Avail(85.0)), PivotRec(71, 100.5, Avail(70.0))],
                  true, Defaults.minBarsBetweenPivots, Defaults.priceTolerance, 2) == []
  {
  }
}
