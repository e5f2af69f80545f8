/**
 * The shape bounds that `TensorRTEngineBuilder.validate` enforces on an
 * optimization profile, against the model's `max_position_embeddings`.
 */
module ProfileChecks {
  import opened Wrappers
  import opened Descriptors

  /** One row of validation's bounds list: the field, its value, its minimum and optional maximum. */
  datatype Bound = Bound(field: Field, value: Option<int>, min: int, max: Option<int>)

  /** The stored profile of `with_generation_profile`: the output length defaults to prompt + new tokens. */
  function GenerationProfile(maxBatchSize: int, maxPromptLength: Option<int>, maxNewTokens: Option<int>, maxOutputLength: Option<int>): (p: OptimizationProfile)
    ensures p.maxBatchSize == maxBatchSize && p.maxPromptLength == maxPromptLength && p.maxNewTokens == maxNewTokens
    ensures maxOutputLength.Some? ==> p.maxOutputLength == maxOutputLength
    ensures p.maxOutputLength.None? <==> maxOutputLength.None? && (maxPromptLength.None? || maxNewTokens.None?)
    ensures maxOutputLength.None? && p.maxOutputLength.Some? ==> p.maxOutputLength.value == maxPromptLength.value + maxNewTokens.value
  {
    var output :=
      if maxOutputLength.None? && maxPromptLength.Some? && maxNewTokens.Some?
      then Some(maxPromptLength.value + maxNewTokens.value)
      else maxOutputLength;
    OptimizationProfile(maxBatchSize, maxPromptLength, maxNewTokens, output)
  }

  /** The bounds list, built once the prompt and new-token lengths are known to be integers. */
  function Bounds(p: OptimizationProfile, maxSequenceLength: int): (bs: seq<Bound>)
    requires p.maxPromptLength.Some? && p.maxNewTokens.Some?
    ensures |bs| == 4
    ensures forall i :: 0 <= i < 4 ==> FieldOrder(bs[i].field) == i
  {
    [ Bound(MaxBatchSize, Some(p.maxBatchSize), 1, None),
      Bound(MaxPromptLength, p.maxPromptLength, 1, Some(maxSequenceLength - 1)),
      Bound(MaxNewTokens, p.maxNewTokens, 1, Some(maxSequenceLength - 1)),
      Bound(MaxOutputLength, p.maxOutputLength, p.maxPromptLength.value + p.maxNewTokens.value, Some(maxSequenceLength)) ]
  }

  /** The error one row raises, if any: None compared, too small, then too large. */
  function BoundError(b: Bound): Option<Error> {
    match b.value
    case None => Some(NoneCompared(b.field))
    case Some(v) =>
      if v < b.min then Some(BelowMinimum(b.field, v, b.min))
      else if b.max.Some? && v > b.max.value then Some(AboveMaximum(b.field, v, b.max.value))
      else None
  }

  /** The error of the first row that raises. */
  function FirstViolation(bs: seq<Bound>): Option<Error>
    decreases |bs|
  {
    if bs == [] then None
    else if BoundError(bs[0]).Some? then BoundError(bs[0])
    else FirstViolation(bs[1..])
  }

  /** The error `validate` raises for a stored profile, or None when it passes. */
  function ProfileError(profile: Option<OptimizationProfile>, maxSequenceLength: int): Option<Error> {
    match profile
    case None => Some(NoOptimizationProfile)
    case Some(p) =>
      if p.maxPromptLength.None? || p.maxNewTokens.None? then Some(NoneInLengthSum)
      else FirstViolation(Bounds(p, maxSequenceLength))
  }

  /** Field `f` of the profile is within its documented range. */
  predicate Satisfies(f: Field, p: OptimizationProfile, maxSequenceLength: int)
    requires p.maxPromptLength.Some? && p.maxNewTokens.Some?
  {
    var prompt := p.maxPromptLength.value;
    var newTokens := p.maxNewTokens.value;
    match f
    case MaxBatchSize => p.maxBatchSize >= 1
    case MaxPromptLength => 1 <= prompt <= maxSequenceLength - 1
    case MaxNewTokens => 1 <= newTokens <= maxSequenceLength - 1
    case MaxOutputLength =>
      p.maxOutputLength.Some? && prompt + newTokens <= p.maxOutputLength.value <= maxSequenceLength
  }

  /** All four fields are integers within their ranges. */
  predicate WithinBounds(p: OptimizationProfile, maxSequenceLength: int) {
    && p.maxPromptLength.Some? && p.maxNewTokens.Some? && p.maxOutputLength.Some?
    && p.maxBatchSize >= 1
    && 1 <= p.maxPromptLength.value <= maxSequenceLength - 1
    && 1 <= p.maxNewTokens.value <= maxSequenceLength - 1
    && p.maxPromptLength.value + p.maxNewTokens.value <= p.maxOutputLength.value <= maxSequenceLength
  }

  lemma BoundErrorMeansViolated(p: OptimizationProfile, maxSequenceLength: int, i: nat)
    requires p.maxPromptLength.Some? && p.maxNewTokens.Some? && i < 4
    ensures var b := Bounds(p, maxSequenceLength)[i];
            BoundError(b).None? <==> Satisfies(b.field, p, maxSequenceLength)
    ensures var b := Bounds(p, maxSequenceLength)[i];
            BoundError(b).Some? ==> BoundError(b).value.field == b.field
  {
  }

  /** The first violation of a list is the error of some row all of whose predecessors pass. */
  lemma {:induction false} FirstViolationIsFirst(bs: seq<Bound>)
    requires FirstViolation(bs).Some?
    ensures exists k :: 0 <= k < |bs| && FirstViolation(bs) == BoundError(bs[k])
                        && forall j :: 0 <= j < k ==> BoundError(bs[j]).None?
    decreases |bs|
  {
    if BoundError(bs[0]).Some? {
      assert FirstViolation(bs) == BoundError(bs[0]);
    } else {
      FirstViolationIsFirst(bs[1..]);
      var k :| 0 <= k < |bs[1..]| && FirstViolation(bs[1..]) == BoundError(bs[1..][k])
               && forall j :: 0 <= j < k ==> BoundError(bs[1..][j]).None?;
      assert FirstViolation(bs) == BoundError(bs[k + 1]);
      forall j | 0 <= j < k + 1
        ensures BoundError(bs[j]).None?
      {
        if j > 0 { assert bs[j] == bs[1..][j - 1]; }
      }
    }
  }

  lemma {:induction false} FirstViolationNone(bs: seq<Bound>)
    ensures FirstViolation(bs).None? <==> forall j :: 0 <= j < |bs| ==> BoundError(bs[j]).None?
    decreases |bs|
  {
    if bs != [] {
      FirstViolationNone(bs[1..]);
      assert forall j :: 1 <= j < |bs| ==> bs[j] == bs[1..][j - 1];
    }
  }

  /** Validation of a stored profile passes exactly when every field is within its range. */
  lemma ProfileErrorNoneIff(p: OptimizationProfile, maxSequenceLength: int)
    ensures ProfileError(Some(p), maxSequenceLength).None? <==> WithinBounds(p, maxSequenceLength)
  {
    if p.maxPromptLength.Some? && p.maxNewTokens.Some? {
      var bs := Bounds(p, maxSequenceLength);
      FirstViolationNone(bs);
      forall i | 0 <= i < 4
        ensures BoundError(bs[i]).None? <==> Satisfies(bs[i].field, p, maxSequenceLength)
      {
        BoundErrorMeansViolated(p, maxSequenceLength, i);
      }
      assert bs[0].field == MaxBatchSize && bs[1].field == MaxPromptLength;
      assert bs[2].field == MaxNewTokens && bs[3].field == MaxOutputLength;
    }
  }

  /**
   * A failed validation of a profile whose prompt and new-token lengths are set
   * names a field that is out of range, and every field checked before it is in range.
   */
  lemma ProfileErrorNamesFirstViolated(p: OptimizationProfile, maxSequenceLength: int)
    requires p.maxPromptLength.Some? && p.maxNewTokens.Some?
    requires ProfileError(Some(p), maxSequenceLength).Some?
    ensures var e := ProfileError(Some(p), maxSequenceLength).value;
            && (e.NoneCompared? || e.BelowMinimum? || e.AboveMaximum?)
            && !Satisfies(e.field, p, maxSequenceLength)
            && forall g :: FieldOrder(g) < FieldOrder(e.field) ==> Satisfies(g, p, maxSequenceLength)
  {
    var bs := Bounds(p, maxSequenceLength);
    FirstViolationIsFirst(bs);
    var k :| 0 <= k < |bs| && FirstViolation(bs) == BoundError(bs[k])
             && forall j :: 0 <= j < k ==> BoundError(bs[j]).None?;
    BoundErrorMeansViolated(p, maxSequenceLength, k);
    forall g | FieldOrder(g) < FieldOrder(bs[k].field)
      ensures Satisfies(g, p, maxSequenceLength)
    {
      var j := FieldOrder(g);
      BoundErrorMeansViolated(p, maxSequenceLength, j);
      assert bs[j].field == g by {
        assert FieldOrder(bs[j].field) == j;
      }
    }
  }

  /**
   * Once the bounds pass, prompt + new tokens fit in the sequence length, so the
   * truncation warning that follows the bounds loop can never be logged.
   */
  lemma PassingBoundsExcludeTruncation(p: OptimizationProfile, maxSequenceLength: int)
    requires ProfileError(Some(p), maxSequenceLength).None?
    ensures p.maxPromptLength.Some? && p.maxNewTokens.Some?
    ensures p.maxPromptLength.value + p.maxNewTokens.value <= maxSequenceLength
  {
    ProfileErrorNoneIff(p, maxSequenceLength);
  }

  /**
   * A profile whose output length was left to its default passes validation
   * exactly when batch, prompt and new-token bounds hold and their sum fits.
   */
  lemma DefaultedOutputValidIff(maxBatchSize: int, prompt: int, newTokens: int, maxSequenceLength: int)
    ensures ProfileError(Some(GenerationProfile(maxBatchSize, Some(prompt), Some(newTokens), None)), maxSequenceLength).None?
            <==> (maxBatchSize >= 1 && 1 <= prompt <= maxSequenceLength - 1
                  && 1 <= newTokens <= maxSequenceLength - 1 && prompt + newTokens <= maxSequenceLength)
  {
    ProfileErrorNoneIff(GenerationProfile(maxBatchSize, Some(prompt), Some(newTokens), None), maxSequenceLength);
  }

  /** Prompt 100 and 50 new tokens against a 120-token model are refused on the output length, not truncated. */
  lemma OverlongDefaultRefused()
    ensures ProfileError(Some(GenerationProfile(1, Some(100), Some(50), None)), 120)
            == Some(AboveMaximum(MaxOutputLength, 150, 120))
  {
  }
}
