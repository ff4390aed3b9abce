/** The parameter logic of `Randomizer`: which distribution it draws from,
    the bounds, mean and standard deviation, and whether Gaussian draws are
    clipped to the bounds. The bounds and the mean are `double` in the
    source; they are modelled as `real`, which is exact for the negation,
    comparison and copying done here once NaN and the infinities are
    excluded and -0.0 is identified with 0.0. */
module Randomizers {

  /** Index of the uniform distribution. */
  const Uniform: int := 0
  /** Index of the Gaussian distribution. */
  const Gaussian: int := 1
  /** The labels of the distributions, by index. */
  const FunctionList: seq<string> := ["Uniform", "Gaussian"]

  /** The parameters of a randomizer, as a value. */
  datatype Parameters = Parameters(
    distributionIndex: int,
    upperBound: real,
    lowerBound: real,
    mean: real,
    standardDeviation: real,
    clipping: bool)

  /** The field initialisers of `Randomizer`. */
  const Defaults: Parameters := Parameters(Uniform, 1.0, -1.0, 0.5, 0.5, false)

  /** The parameters of a mirrored copy. */
  function Mirror(p: Parameters): (r: Parameters)
  {
    p.(lowerBound := -p.upperBound, upperBound := -p.lowerBound, mean := -p.mean)
  }

  /** Mirroring twice gives back the original parameters. */
  lemma MirrorTwice(p: Parameters)
    ensures Mirror(Mirror(p)) == p
  {
  }

  /** Mirroring keeps well-ordered bounds well ordered, and only those. */
  lemma MirrorKeepsOrder(p: Parameters)
    ensures p.lowerBound <= p.upperBound <==> Mirror(p).lowerBound <= Mirror(p).upperBound
  {
  }

  class Randomizer {
    var distributionIndex: int
    var upperBound: real
    var lowerBound: real
    var mean: real
    var standardDeviation: real
    var clipping: bool

    function Params(): (p: Parameters)
      reads this
    {
      Parameters(distributionIndex, upperBound, lowerBound, mean, standardDeviation, clipping)
    }

    /** The default constructor: every field keeps its initialiser. */
    constructor ()
      ensures Params() == Defaults
    {
      distributionIndex := Uniform;
      upperBound, lowerBound := 1.0, -1.0;
      mean, standardDeviation := 0.5, 0.5;
      clipping := false;
    }

    /** The copy constructor as written: after the field initialisers it sets
        each of lower bound, upper bound, mean, standard deviation and
        clipping from the new object's own getter, never reading `dup`, so
        the copy has the default parameters whatever `dup` holds. */
    constructor Copy(dup: Randomizer)
      ensures Params() == Defaults
    {
      distributionIndex := Uniform;
      upperBound, lowerBound := 1.0, -1.0;
      mean, standardDeviation := 0.5, 0.5;
      clipping := false;
      new;
      SetLowerBound(lowerBound);
      SetUpperBound(upperBound);
      SetMean(mean);
      SetStandardDeviation(standardDeviation);
      SetClipping(clipping);
    }

    /** The copy constructor as its documentation describes it: the result
        duplicates `dup`, distribution included. */
    constructor CopyOf(dup: Randomizer)
      ensures Params() == dup.Params()
    {
      distributionIndex := Uniform;
      upperBound, lowerBound := 1.0, -1.0;
      mean, standardDeviation := 0.5, 0.5;
      clipping := false;
      new;
      SetDistributionIndex(dup.distributionIndex);
      SetLowerBound(dup.lowerBound);
      SetUpperBound(dup.upperBound);
      SetMean(dup.mean);
      SetStandardDeviation(dup.standardDeviation);
      SetClipping(dup.clipping);
    }

    /** A mirrored copy: the lower bound is minus this upper bound, the upper
        bound minus this lower bound, the mean minus this mean; distribution,
        standard deviation and clipping are copied. This randomizer is left
        as it was. */
    method MirrorCopy() returns (mirror: Randomizer)
      ensures fresh(mirror)
      ensures mirror.lowerBound == -upperBound && mirror.upperBound == -lowerBound
      ensures mirror.mean == -mean
      ensures mirror.distributionIndex == distributionIndex
      ensures mirror.standardDeviation == standardDeviation && mirror.clipping == clipping
      ensures mirror.Params() == Mirror(Params())
    {
      mirror := new Randomizer();
      mirror.SetDistributionIndex(distributionIndex);
      mirror.SetLowerBound(-upperBound);
      mirror.SetUpperBound(-lowerBound);
      mirror.SetMean(-mean);
      mirror.SetStandardDeviation(standardDeviation);
      mirror.SetClipping(clipping);
    }

    /** `clip`: `val` limited to the bounds, the upper bound tested first, so
        that the lower bound is returned only for a value at most the upper
        bound. The last three clauses fix the result for every input. */
    function Clip(val: real): (ret: real)
      reads this
      ensures ret == val || ret == lowerBound || ret == upperBound
      ensures lowerBound <= upperBound ==> lowerBound <= ret <= upperBound
      ensures lowerBound <= val <= upperBound ==> ret == val
      ensures val > upperBound ==> ret == upperBound
      ensures val <= upperBound && val < lowerBound ==> ret == lowerBound
    {
      if val > upperBound then upperBound
      else if val < lowerBound then lowerBound
      else val
    }

    /** `getDistributionName`: "Gaussian" for index 1, "Uniform" for every
        other index, agreeing with the label list on the two valid indices. */
    function DistributionName(): (name: string)
      reads this
      ensures name == "Gaussian" <==> distributionIndex == Gaussian
      ensures name != "Gaussian" ==> name == "Uniform"
      ensures 0 <= distributionIndex < |FunctionList| ==> name == FunctionList[distributionIndex]
    {
      if distributionIndex == 1 then "Gaussian" else "Uniform"
    }

    method SetDistributionIndex(index: int)
      modifies this
      ensures Params() == old(Params()).(distributionIndex := index)
    {
      distributionIndex := index;
    }

    method SetLowerBound(bound: real)
      modifies this
      ensures Params() == old(Params()).(lowerBound := bound)
    {
      lowerBound := bound;
    }

    method SetUpperBound(bound: real)
      modifies this
      ensures Params() == old(Params()).(upperBound := bound)
    {
      upperBound := bound;
    }

    method SetMean(m: real)
      modifies this
      ensures Params() == old(Params()).(mean := m)
    {
      mean := m;
    }

    method SetStandardDeviation(sd: real)
      modifies this
      ensures Params() == old(Params()).(standardDeviation := sd)
    {
      standardDeviation := sd;
    }

    method SetClipping(clip: bool)
      modifies this
      ensures Params() == old(Params()).(clipping := clip)
    {
      clipping := clip;
    }
  }

  /** With well-ordered bounds, clipping a clipped value changes nothing. */
  lemma ClipIdempotent(r: Randomizer, val: real)
    requires r.lowerBound <= r.upperBound
    ensures r.Clip(r.Clip(val)) == r.Clip(val)
  {
  }

  /** With a lower bound above the upper bound, clipping is not idempotent:
      the upper bound clips to the lower bound and back. */
  lemma ClipFlipsWhenMisordered(r: Randomizer)
    requires r.lowerBound > r.upperBound
    ensures r.Clip(r.upperBound) == r.lowerBound
    ensures r.Clip(r.Clip(r.upperBound)) == r.upperBound
  {
  }

  /** A randomizer whose lower bound is set to 0 and copied with the copy
      constructor yields a copy whose lower bound is still the default -1. */
  method CopyDropsLowerBound() returns (original: Randomizer, copy: Randomizer)
    ensures original.lowerBound == 0.0 && copy.lowerBound == -1.0
    ensures original.Params() != copy.Params()
  {
    original := new Randomizer();
    original.SetLowerBound(0.0);
    copy := new Randomizer.Copy(original);
  }
}
