/** The convergence and termination controller of the CCDr coordinate-descent
    optimizer (class `CCDrAlgorithm`). The driving loop reports progress to it
    (changes of single parameters, active-set outcomes, completed sweeps) and
    asks it two questions: `KeepGoing` (run another full sweep?) and `Moar`
    (iterate once more over the fixed active set?). */
module CCDr {
  import opened Numerics
  import opened ErrorAccumulator
  import opened BlockList

  /** The norm of the accumulated error that `Moar` compares with `eps`. */
  datatype ErrType = L1 | Linf

  class CCDrAlgorithm {
    // configuration, fixed at construction
    const maxIters: u32
    const eps: real
    const alpha: real
    const maxEdges: u32
    const randomizeOrder: bool
    const updateSigmasFlag: bool
    const errorNorm: ErrType

    /** stopFlags[0] == 1: the active set changed in this sweep;
        stopFlags[1] == 1: the active set is still below the edge budget. */
    const stopFlags: array<int>

    var numSweeps: u32
    var L1Error: real
    var LinfError: real
    var blocks: seq<Block>

    /** The object invariant: two flags, each 0 or 1, and consistent accumulators. */
    ghost predicate Valid()
      reads this, stopFlags
    {
      stopFlags.Length == 2 &&
      (forall i :: 0 <= i < stopFlags.Length ==> stopFlags[i] == 0 || stopFlags[i] == 1) &&
      Consistent(Errors())
    }

    /** The two accumulators as a value of the ErrorAccumulator model. */
    function Errors(): Acc
      reads this
    {
      Acc(L1Error, LinfError)
    }

    /** The outer continuation condition: every stop flag is set and the sweep
        cap has not been exceeded. */
    ghost predicate SweepsContinue()
      reads this, stopFlags
    {
      (forall i :: 0 <= i < stopFlags.Length ==> stopFlags[i] == 1) && numSweeps <= maxIters
    }

    constructor (m: u32, e: real, a: real, p: u32, b: seq<Block>, r: bool, u: bool, t: ErrType)
      requires 0 <= EdgeBudget(a, p) < TWO_32
      ensures Valid() && fresh(stopFlags)
      ensures maxIters == m && eps == e && alpha == a
      ensures maxEdges == EdgeBudget(a, p)
      ensures 0.0 <= a <= 1.0 && p < TWO_31 ==> 0 <= EdgeThreshold() == EdgeBudget(a, p) <= p
      ensures blocks == b && randomizeOrder == r && UpdateSigmas() == u && errorNorm == t
      ensures numSweeps == 0 && Errors() == Zero()
      ensures stopFlags[..] == [0, 0] && !SweepsContinue()
    {
      maxIters := m;
      eps := e;
      alpha := a;
      maxEdges := EdgeBudget(a, p);
      blocks := b;
      randomizeOrder := r;
      numSweeps := 0;
      L1Error := 0.0;
      LinfError := 0.0;
      stopFlags := new int[2](_ => 0);
      updateSigmasFlag := u;
      errorNorm := t;
      new;
      assert stopFlags[..] == [0, 0];
      assert stopFlags[0] != 1;
    }

    /** Reorders the block schedule when the controller was built to randomize
        it; the random source is the parameter `draws`. */
    method SetOrder(draws: seq<nat>)
      requires Valid()
      modifies this`blocks
      ensures Valid()
      ensures !randomizeOrder ==> blocks == old(blocks)
      ensures multiset(blocks) == multiset(old(blocks))
      ensures NumBlocks() == old(NumBlocks())
    {
      if randomizeOrder {
        blocks := Shuffle(blocks, draws);
      }
    }

    /** The number of blocks one sweep enumerates. */
    function NumBlocks(): (n: nat)
      reads this
      ensures n == |blocks| == |multiset(blocks)|
    {
      |blocks|
    }

    /** The block at position `k` of the current order, one of the blocks the
        schedule holds. */
    function GetBlock(k: u32): (r: Block)
      requires k < NumBlocks()
      reads this
      ensures r == blocks[k]
      ensures r in multiset(blocks)
    {
      blocks[k]
    }

    /** Decides whether to run another full sweep: the product of the flags is
        positive and the sweep count has not passed the cap. A sweep count equal
        to `maxIters` still continues. */
    method KeepGoing() returns (r: bool)
      requires Valid()
      ensures r == SweepsContinue()
      ensures r <==> stopFlags[0] == 1 && stopFlags[1] == 1 && numSweeps <= maxIters
    {
      var prod := 1;
      var i := 0;
      while i < stopFlags.Length
        invariant 0 <= i <= stopFlags.Length
        invariant prod == Product(stopFlags[..i])
      {
        assert stopFlags[..i + 1] == stopFlags[..i] + [stopFlags[i]];
        prod := prod * stopFlags[i];
        i := i + 1;
      }
      assert stopFlags[..i] == stopFlags[..];
      ProductOfFlags(stopFlags[..]);
      if numSweeps > maxIters {
        prod := 0;
      }
      r := prod > 0;
    }

    /** Decides whether to iterate once more over the fixed active set: the
        selected error is strictly above `eps` and the iteration count, compared
        as an unsigned number, has not passed `maxIters`. */
    function Moar(iters: i32): (r: bool)
      reads this
      ensures r ==> GetError() > eps
      ensures GetError() <= eps ==> !r
      ensures 0 <= iters ==> (r <==> GetError() > eps && iters <= maxIters)
      ensures iters < 0 ==> (r <==> GetError() > eps && iters + TWO_32 <= maxIters)
    {
      GetError() > eps && AsUnsigned(iters) <= maxIters
    }

    /** The edge budget `round(alpha * p)`, returned as an `int`. */
    function EdgeThreshold(): (r: i32)
      reads this
      ensures maxEdges < TWO_31 ==> r == maxEdges
      ensures TWO_31 <= maxEdges ==> r < 0
    {
      AsSigned(maxEdges)
    }

    /** The accumulated error in the norm chosen at construction. */
    function GetError(): (r: real)
      reads this
      ensures errorNorm == L1 ==> r == L1Error
      ensures errorNorm == Linf ==> r == LinfError
      ensures Consistent(Errors()) ==> 0.0 <= r <= L1Error
    {
      match errorNorm
      case L1 => L1Error
      case Linf => LinfError
    }

    /** The value of stop flag `f`. */
    function GetStopFlag(f: i32): (r: int)
      requires 0 <= f < stopFlags.Length
      reads this, stopFlags
      ensures r == stopFlags[f]
      ensures Valid() ==> r == 0 || r == 1
    {
      stopFlags[f]
    }

    /** Records that the active set changed in this sweep. */
    method ActiveSetChanged()
      requires Valid()
      modifies stopFlags
      ensures Valid()
      ensures stopFlags[..] == old(stopFlags[..])[0 := 1]
      ensures SweepsContinue() <==> stopFlags[1] == 1 && numSweeps <= maxIters
    {
      stopFlags[0] := 1;
    }

    /** Records that the active set is still below the edge budget. */
    method BelowThreshold()
      requires Valid()
      modifies stopFlags
      ensures Valid()
      ensures stopFlags[..] == old(stopFlags[..])[1 := 1]
      ensures SweepsContinue() <==> stopFlags[0] == 1 && numSweeps <= maxIters
    {
      stopFlags[1] := 1;
    }

    /** Clears every stop flag; no sweep can follow until both are set again. */
    method ResetFlags()
      requires Valid()
      modifies stopFlags
      ensures Valid()
      ensures stopFlags[..] == [0, 0]
      ensures !SweepsContinue()
    {
      var i := 0;
      while i < stopFlags.Length
        invariant 0 <= i <= stopFlags.Length
        invariant forall k :: 0 <= k < i ==> stopFlags[k] == 0
      {
        stopFlags[i] := 0;
        i := i + 1;
      }
      assert stopFlags[..] == [0, 0];
      assert stopFlags[0] != 1;
    }

    /** Folds the raw change `e` of one single-parameter update into both
        accumulators. */
    method UpdateError(e: real)
      requires Valid()
      modifies this`L1Error, this`LinfError
      ensures Valid()
      ensures Errors() == Report(old(Errors()), e)
      ensures L1Error == old(L1Error) + Abs(e)
      ensures LinfError == Max(old(LinfError), Abs(e))
    {
      var abse := Abs(e);
      L1Error := L1Error + abse;
      if abse > LinfError {
        LinfError := abse;
      }
    }

    /** Starts a new active-set pass with no accumulated error. */
    method ResetError()
      requires Valid()
      modifies this`L1Error, this`LinfError
      ensures Valid()
      ensures Errors() == Zero()
      ensures 0.0 <= eps ==> forall i: i32 :: !Moar(i)
    {
      L1Error := 0.0;
      LinfError := 0.0;
    }

    /** Counts one more completed sweep (an `unsigned int` increment). */
    method AddSweep()
      requires Valid()
      modifies this`numSweeps
      ensures Valid()
      ensures numSweeps == (old(numSweeps) + 1) % TWO_32
      ensures old(numSweeps) < TWO_32 - 1 ==> numSweeps == old(numSweeps) + 1
    {
      numSweeps := (numSweeps + 1) % TWO_32;
    }

    /** The configuration switch for updating the sigmas, as given at construction. */
    function UpdateSigmas(): (r: bool)
      reads this
      ensures r == updateSigmasFlag
    {
      updateSigmasFlag
    }
  }

  /** The running product `keepGoing` computes over the flags, left to right. */
  function Product(s: seq<int>): (r: int) {
    if s == [] then 1 else Product(s[..|s| - 1]) * s[|s| - 1]
  }

  /** Over flags that are each 0 or 1, the product is 1 exactly when every flag
      is 1, and 0 otherwise. */
  lemma {:induction false} ProductOfFlags(s: seq<int>)
    requires forall i :: 0 <= i < |s| ==> s[i] == 0 || s[i] == 1
    ensures Product(s) == 0 || Product(s) == 1
    ensures Product(s) == 1 <==> forall i :: 0 <= i < |s| ==> s[i] == 1
  {
    if s != [] {
      var init := s[..|s| - 1];
      ProductOfFlags(init);
      assert forall i :: 0 <= i < |init| ==> init[i] == s[i];
    }
  }
}
