/**
 * Classification results: a mapping from labels to confidences, and the check
 * every stored result must pass (non-empty, confidences summing to 1.0 once the
 * sum is rounded to 9 decimal digits).
 */
module Classification {
  import opened Wrappers

  /** Labels are hashable values; in practice strings or integers. */
  datatype Label = Text(name: string) | Number(value: int)

  /** A label-to-confidence mapping. */
  type LabelMap = map<Label, real>

  /** Why a mapping was refused (Python raises `ValueError` for both). */
  datatype Invalidity = EmptyMap | SumNotOne(total: real)

  /** The failures of the classification operations. */
  datatype ClassificationError =
    | NoClassification                          // `NoClassificationError`
    | InvalidClassification(reason: Invalidity) // `ValueError` from validation
    | MissingDirectory(dir: string)             // `IOError` from `open`: no such directory

  /** The sum of all confidences (`sum(m.values())`), in no particular order. */
  ghost function Sum(m: LabelMap): (total: real)
    ensures (forall k :: k in m ==> m[k] >= 0.0) ==> total >= 0.0
    decreases |m|
  {
    if m == map[] then 0.0
    else
      var k :| k in m;
      assert |(m - {k}).Keys| < |m.Keys| by {
        assert (m - {k}).Keys == m.Keys - {k};
      }
      m[k] + Sum(m - {k})
  }

  /** Any one entry can be taken out of the sum first. */
  lemma {:induction false} SumRemove(m: LabelMap, k: Label)
    requires k in m
    ensures Sum(m) == m[k] + Sum(m - {k})
    decreases |m|
  {
    var j :| j in m && Sum(m) == m[j] + Sum(m - {j});
    if j != k {
      assert (m - {j}).Keys == m.Keys - {j};
      assert (m - {k}).Keys == m.Keys - {k};
      SumRemove(m - {j}, k);
      SumRemove(m - {k}, j);
      assert m - {j} - {k} == m - {k} - {j};
    }
  }

  /**
   * Python 2's `round(x, 9)` on an exact real: the nearest multiple of 10^-9,
   * with halves rounded away from zero.
   */
  function Round9(x: real): (r: real)
    ensures -0.0000000005 <= r - x <= 0.0000000005
    ensures x >= 0.0 ==> r >= 0.0
  {
    if x >= 0.0 then
      ((x * 1000000000.0 + 0.5).Floor as real) / 1000000000.0
    else
      -((((-x) * 1000000000.0 + 0.5).Floor as real) / 1000000000.0)
  }

  /**
   * `round(x, 9) == 1.0`, as an interval: halves go away from zero, so
   * 0.9999999995 rounds up to 1.0 while 1.0000000005 rounds up to 1.000000001.
   */
  predicate RoundsToOne(x: real)
    ensures RoundsToOne(x) <==> Round9(x) == 1.0
  {
    0.9999999995 <= x < 1.0000000005
  }

  /** A mapping that may be stored: non-empty, confidences summing to 1.0 after rounding. */
  ghost predicate IsValid(m: LabelMap)
    ensures IsValid(m) ==> m != map[]
  {
    |m| > 0 && RoundsToOne(Sum(m))
  }

  /** The documented rule in Python's own terms: non-empty, and `round(sum, 9) == 1.0`. */
  lemma ValidIffRoundedSumIsOne(m: LabelMap)
    ensures IsValid(m) <==> |m| > 0 && Round9(Sum(m)) == 1.0
  {
  }

  /** Adds up the confidences one entry at a time. */
  method SumConfidences(m: LabelMap) returns (total: real)
    ensures total == Sum(m)
  {
    total := 0.0;
    var rest := m;
    while rest != map[]
      invariant total + Sum(rest) == Sum(m)
      decreases |rest|
    {
      var k :| k in rest;
      SumRemove(rest, k);
      assert (rest - {k}).Keys == rest.Keys - {k};
      total := total + rest[k];
      rest := rest - {k};
    }
  }

  /**
   * The validation `set_classification` performs before writing: an empty
   * mapping and one whose rounded sum is not 1.0 are refused; a valid mapping
   * is handed back unchanged.
   */
  method Validate(m: LabelMap) returns (r: Result<LabelMap, ClassificationError>)
    ensures r.Success? <==> IsValid(m)
    ensures r.Success? ==> r.value == m
    ensures |m| == 0 ==> r == Failure(InvalidClassification(EmptyMap))
    ensures |m| > 0 && !IsValid(m) ==> r == Failure(InvalidClassification(SumNotOne(Sum(m))))
  {
    if |m| == 0 {
      return Failure(InvalidClassification(EmptyMap));
    }
    var total := SumConfidences(m);
    if !RoundsToOne(total) {
      return Failure(InvalidClassification(SumNotOne(total)));
    }
    return Success(m);
  }

  /** An empty mapping is never valid. */
  lemma EmptyIsInvalid()
    ensures !IsValid(map[])
  {
  }

  /** A single label held with full confidence is valid. */
  lemma SingleLabelIsValid(l: Label)
    ensures IsValid(map[l := 1.0])
  {
    var m := map[l := 1.0];
    SumRemove(m, l);
    assert m - {l} == map[];
  }

  /** 0.5 + 0.49999999 rounds to 0.99999999, so this near miss is refused. */
  lemma NearMissIsInvalid()
    ensures !IsValid(map[Text("a") := 0.5, Text("b") := 0.49999999])
  {
    var m := map[Text("a") := 0.5, Text("b") := 0.49999999];
    SumRemove(m, Text("a"));
    var m' := m - {Text("a")};
    assert m' == map[Text("b") := 0.49999999];
    SumRemove(m', Text("b"));
    assert m' - {Text("b")} == map[];
  }

  /** Confidences within a billionth of an exact split still pass: 0.5 + 0.4999999996. */
  lemma RoundingToleranceAccepted()
    ensures IsValid(map[Text("a") := 0.5, Text("b") := 0.4999999996])
  {
    var m := map[Text("a") := 0.5, Text("b") := 0.4999999996];
    SumRemove(m, Text("a"));
    var m' := m - {Text("a")};
    assert m' == map[Text("b") := 0.4999999996];
    SumRemove(m', Text("b"));
    assert m' - {Text("b")} == map[];
  }

  /** The upper halfway point rounds away from 1.0, so it is refused. */
  lemma UpperHalfwayIsInvalid()
    ensures !IsValid(map[Text("a") := 1.0000000005])
  {
    var m := map[Text("a") := 1.0000000005];
    SumRemove(m, Text("a"));
    assert m - {Text("a")} == map[];
  }

  /** The lower halfway point rounds up to 1.0, so it is accepted. */
  lemma LowerHalfwayIsValid()
    ensures IsValid(map[Text("a") := 0.9999999995])
  {
    var m := map[Text("a") := 0.9999999995];
    SumRemove(m, Text("a"));
    assert m - {Text("a")} == map[];
  }

  /**
   * Confidences are documented to lie in [0, 1], but only the sum is checked:
   * a mapping with a confidence above 1 and one below 0 is accepted.
   */
  lemma OutOfRangeConfidencesAccepted()
    ensures IsValid(map[Text("a") := 2.0, Text("b") := -1.0])
  {
    var m := map[Text("a") := 2.0, Text("b") := -1.0];
    SumRemove(m, Text("a"));
    var m' := m - {Text("a")};
    assert m' == map[Text("b") := -1.0];
    SumRemove(m', Text("b"));
    assert m' - {Text("b")} == map[];
  }
}
