/** Clients of CCDrAlgorithm that follow the documented call sequences and
    check, from the contracts alone, the decisions the controller must make. */
module Scenarios {
  import opened Numerics
  import opened BlockList
  import opened CCDr

  /** One active-set pass measured in the L1 norm: maxIters 5, eps 0.01,
      alpha 0.3 over 10 nodes (edge budget 3). */
  method InnerLoopScenario() {
    var c := new CCDrAlgorithm(5, 0.01, 0.3, 10, [], false, false, L1);
    assert c.EdgeThreshold() == 3;
    c.UpdateError(0.02);
    assert c.GetError() == 0.02;
    assert c.Moar(1);
    c.UpdateError(-0.005);
    assert c.GetError() == 0.025;
    assert c.Moar(2);
    assert !c.Moar(6);
    c.ResetError();
    assert c.GetError() == 0.0;
    assert !c.Moar(3);
  }

  /** In the L-infinity norm only the largest change counts, and an error equal
      to eps stops the pass. */
  method MaxNormScenario() {
    var c := new CCDrAlgorithm(5, 0.5, 0.5, 21, [], false, false, Linf);
    assert c.EdgeThreshold() == 11;
    c.UpdateError(-0.5);
    c.UpdateError(0.25);
    assert c.GetError() == 0.5;
    assert c.L1Error == 0.75;
    assert !c.Moar(1);
    c.UpdateError(0.75);
    assert c.Moar(1);
    assert !c.Moar(-1);
  }

  /** The outer loop needs both flags: one flag alone after a reset does not
      let a sweep follow. */
  method FlagScenario() {
    var c := new CCDrAlgorithm(2, 0.01, 0.5, 4, [Block(0, 1), Block(1, 2)], true, false, L1);
    var go := c.KeepGoing();
    assert !go;
    c.ResetFlags();
    c.ActiveSetChanged();
    go := c.KeepGoing();
    assert !go;
    c.BelowThreshold();
    go := c.KeepGoing();
    assert go;
    c.SetOrder([7, 3]);
    assert c.NumBlocks() == 2;
    c.ResetFlags();
    go := c.KeepGoing();
    assert !go;
  }

  /** A sweep count equal to maxIters continues; one more stops. */
  method SweepCapScenario() {
    var c := new CCDrAlgorithm(2, 0.01, 0.5, 4, [], false, true, L1);
    assert c.UpdateSigmas();
    c.ActiveSetChanged();
    c.BelowThreshold();
    c.AddSweep();
    c.AddSweep();
    assert c.numSweeps == c.maxIters;
    var go := c.KeepGoing();
    assert go;
    c.AddSweep();
    go := c.KeepGoing();
    assert !go;
  }

  /** A slightly negative alpha * p rounds to an edge budget of 0. */
  method NegativeBudgetScenario() {
    var c := new CCDrAlgorithm(5, 0.01, -0.01, 10, [], false, false, L1);
    assert c.EdgeThreshold() == 0;
  }
}
