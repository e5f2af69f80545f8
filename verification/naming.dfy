/**
 * The file names derived from a model identifier, a precision, a tensor-parallel
 * degree and a rank: one serialized engine per rank and one calibration archive
 * per rank.
 */
module Naming {
  import opened Wrappers
  import opened Decimal

  const ENGINE_SUFFIX := ".engine"
  const NPZ_SUFFIX := ".npz"

  /** The text of an engine name that comes before the rank. */
  function EngineNamePrefix(identifier: string, dtype: string, tpDegree: int): string {
    identifier + ("_" + dtype + "_tp" + IntToString(tpDegree) + "_rank")
  }

  /** The text of a calibration archive name that comes before the rank. */
  function NpzNamePrefix(identifier: string, tpDegree: int): string {
    identifier + ("_tp" + IntToString(tpDegree) + "_rank")
  }

  /** A name made of a prefix `identifier + rest`, a rank and a suffix starts with the identifier and ends with the suffix. */
  lemma NameEnds(identifier: string, rest: string, rank: string, suffix: string)
    ensures var name := identifier + rest + rank + suffix;
            && |identifier| <= |name| && name[..|identifier|] == identifier
            && |suffix| <= |name| && name[|name| - |suffix|..] == suffix
  {
    var name := identifier + rest + rank + suffix;
    assert name == identifier + (rest + rank + suffix);
    assert name == (identifier + rest + rank) + suffix;
  }

  /** `{identifier}_{dtype}_tp{tp_degree}_rank{rank}.engine` */
  function CreateUniqueEngineName(identifier: string, dtype: string, rank: int, tpDegree: int): (name: string)
    ensures |identifier| < |name| && name[..|identifier|] == identifier
    ensures |ENGINE_SUFFIX| < |name| && name[|name| - |ENGINE_SUFFIX|..] == ENGINE_SUFFIX
  {
    NameEnds(identifier, "_" + dtype + "_tp" + IntToString(tpDegree) + "_rank", IntToString(rank), ENGINE_SUFFIX);
    EngineNamePrefix(identifier, dtype, tpDegree) + IntToString(rank) + ENGINE_SUFFIX
  }

  /** `{identifier}_tp{tp_degree}_rank{rank}.npz` */
  function CreateNpzCalibrationFilename(identifier: string, rank: int, tpDegree: int): (name: string)
    ensures |identifier| < |name| && name[..|identifier|] == identifier
    ensures |NPZ_SUFFIX| < |name| && name[|name| - |NPZ_SUFFIX|..] == NPZ_SUFFIX
  {
    NameEnds(identifier, "_tp" + IntToString(tpDegree) + "_rank", IntToString(rank), NPZ_SUFFIX);
    NpzNamePrefix(identifier, tpDegree) + IntToString(rank) + NPZ_SUFFIX
  }

  /** The text of `s` between a known prefix and a known suffix, when `s` has both. */
  function Between(s: string, prefix: string, suffix: string): Option<string> {
    if |prefix| + |suffix| <= |s| && s[..|prefix|] == prefix && s[|s| - |suffix|..] == suffix
    then Some(s[|prefix|..|s| - |suffix|])
    else None
  }

  /** The rank encoded in an engine name, for a known identifier, precision and degree. */
  function EngineRank(name: string, identifier: string, dtype: string, tpDegree: int): Option<int> {
    match Between(name, EngineNamePrefix(identifier, dtype, tpDegree), ENGINE_SUFFIX)
    case Some(digits) => Some(IntValue(digits))
    case None => None
  }

  /** The rank encoded in a calibration archive name. */
  function NpzRank(name: string, identifier: string, tpDegree: int): Option<int> {
    match Between(name, NpzNamePrefix(identifier, tpDegree), NPZ_SUFFIX)
    case Some(digits) => Some(IntValue(digits))
    case None => None
  }

  lemma BetweenConcat(prefix: string, middle: string, suffix: string)
    ensures Between(prefix + middle + suffix, prefix, suffix) == Some(middle)
  {
    var s := prefix + middle + suffix;
    assert s[..|prefix|] == prefix;
    assert s[|s| - |suffix|..] == suffix;
    assert s[|prefix|..|s| - |suffix|] == middle;
  }

  /** An engine name gives back the rank it was made from. */
  lemma EngineNameRoundTrip(identifier: string, dtype: string, rank: int, tpDegree: int)
    ensures EngineRank(CreateUniqueEngineName(identifier, dtype, rank, tpDegree), identifier, dtype, tpDegree) == Some(rank)
  {
    BetweenConcat(EngineNamePrefix(identifier, dtype, tpDegree), IntToString(rank), ENGINE_SUFFIX);
    IntToStringRoundTrip(rank);
  }

  /** A calibration archive name gives back the rank it was made from. */
  lemma NpzNameRoundTrip(identifier: string, rank: int, tpDegree: int)
    ensures NpzRank(CreateNpzCalibrationFilename(identifier, rank, tpDegree), identifier, tpDegree) == Some(rank)
  {
    BetweenConcat(NpzNamePrefix(identifier, tpDegree), IntToString(rank), NPZ_SUFFIX);
    IntToStringRoundTrip(rank);
  }

  /** Two ranks of one build never share an engine file. */
  lemma EngineNamesDistinct(identifier: string, dtype: string, tpDegree: int, a: int, b: int)
    requires a != b
    ensures CreateUniqueEngineName(identifier, dtype, a, tpDegree) != CreateUniqueEngineName(identifier, dtype, b, tpDegree)
  {
    EngineNameRoundTrip(identifier, dtype, a, tpDegree);
    EngineNameRoundTrip(identifier, dtype, b, tpDegree);
  }

  /** Two ranks never share a calibration archive. */
  lemma NpzNamesDistinct(identifier: string, tpDegree: int, a: int, b: int)
    requires a != b
    ensures CreateNpzCalibrationFilename(identifier, a, tpDegree) != CreateNpzCalibrationFilename(identifier, b, tpDegree)
  {
    NpzNameRoundTrip(identifier, a, tpDegree);
    NpzNameRoundTrip(identifier, b, tpDegree);
  }
}
