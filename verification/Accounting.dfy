/** Canonical token accounting of one upstream attempt: admission, validation and the per-attempt
    reading of stored facts (internal/repository/usage_accounting.go). */
module Accounting {

  datatype Option<+T> = None | Some(value: T)

  newtype int64 = x: int | -0x8000_0000_0000_0000 <= x < 0x8000_0000_0000_0000

  const MAX_INT64: int64 := 0x7FFF_FFFF_FFFF_FFFF

  /** The token quality text: one of the three supported names, or any other string. */
  datatype TokenQuality = Complete | Inconsistent | Unclassified | Unsupported(text: string)

  /** The nullable canonical columns. */
  datatype UsageAccounting = UsageAccounting(
    quality: Option<TokenQuality>,
    total: Option<int64>,
    input: Option<int64>, uncached: Option<int64>, cacheRead: Option<int64>, cacheWrite: Option<int64>,
    output: Option<int64>, nonReasoning: Option<int64>, reasoning: Option<int64>,
    unclassified: Option<int64>)

  /** The nine token buckets, with NULL read as zero. */
  datatype Tokens = Tokens(
    total: int,
    input: int, uncached: int, cacheRead: int, cacheWrite: int,
    output: int, nonReasoning: int, reasoning: int,
    unclassified: int)

  const NO_FACTS := UsageAccounting(None, None, None, None, None, None, None, None, None, None)

  function OrZero(value: Option<int64>): int {
    match value
    case None => 0
    case Some(v) => v as int
  }

  function TokensOf(f: UsageAccounting): Tokens {
    Tokens(OrZero(f.total), OrZero(f.input), OrZero(f.uncached), OrZero(f.cacheRead), OrZero(f.cacheWrite),
           OrZero(f.output), OrZero(f.nonReasoning), OrZero(f.reasoning), OrZero(f.unclassified))
  }

  predicate FactsAbsent(f: UsageAccounting) { f == NO_FACTS }

  /** The bucket identities every canonical breakdown has to satisfy. */
  predicate Balanced(t: Tokens) {
    && t.input == t.uncached + t.cacheRead + t.cacheWrite
    && t.output == t.nonReasoning + t.reasoning
    && t.total == t.input + t.output + t.unclassified
  }

  predicate NonNegative(t: Tokens) {
    && 0 <= t.total && 0 <= t.input && 0 <= t.uncached && 0 <= t.cacheRead && 0 <= t.cacheWrite
    && 0 <= t.output && 0 <= t.nonReasoning && 0 <= t.reasoning && 0 <= t.unclassified
  }

  predicate Present(f: UsageAccounting) {
    && f.total.Some? && f.input.Some? && f.uncached.Some? && f.cacheRead.Some? && f.cacheWrite.Some?
    && f.output.Some? && f.nonReasoning.Some? && f.reasoning.Some? && f.unclassified.Some?
  }

  /** What it means for facts to be a valid canonical breakdown, over unbounded integers. */
  predicate WellFormed(f: UsageAccounting) {
    && f.quality.Some? && !f.quality.value.Unsupported?
    && Present(f)
    && NonNegative(TokensOf(f))
    && Balanced(TokensOf(f))
    && (f.quality.value.Complete? ==> TokensOf(f).unclassified == 0)
  }

  /** Column by column: a supported quality, nine non-negative buckets, and the three sums. */
  lemma WellFormedIff(f: UsageAccounting)
    ensures WellFormed(f) <==>
      && f.quality in {Some(Complete), Some(Inconsistent), Some(Unclassified)}
      && f.total.Some? && f.input.Some? && f.uncached.Some? && f.cacheRead.Some? && f.cacheWrite.Some?
      && f.output.Some? && f.nonReasoning.Some? && f.reasoning.Some? && f.unclassified.Some?
      && f.uncached.value >= 0 && f.cacheRead.value >= 0 && f.cacheWrite.value >= 0
      && f.nonReasoning.value >= 0 && f.reasoning.value >= 0 && f.unclassified.value >= 0
      && f.input.value as int == f.uncached.value as int + f.cacheRead.value as int + f.cacheWrite.value as int
      && f.output.value as int == f.nonReasoning.value as int + f.reasoning.value as int
      && f.total.value as int == f.input.value as int + f.output.value as int + f.unclassified.value as int
      && (f.quality == Some(Complete) ==> f.unclassified == Some(0))
  {
  }

  predicate Admissible(f: UsageAccounting) { FactsAbsent(f) || WellFormed(f) }

  function SumOf(values: seq<int64>): int {
    if values == [] then 0 else SumOf(values[..|values| - 1]) + values[|values| - 1] as int
  }

  /** Exact integer equality of a total with a sum, decided without leaving 64 bits. */
  method SumEquals(total: int64, values: seq<int64>) returns (equal: bool)
    ensures equal <==> (forall v :: v in values ==> 0 <= v) && total as int == SumOf(values)
  {
    var sum: int64 := 0;
    for i := 0 to |values|
      invariant 0 <= sum
      invariant forall k :: 0 <= k < i ==> 0 <= values[k]
      invariant sum as int == SumOf(values[..i])
    {
      assert values[..i + 1][..i] == values[..i];
      if values[i] < 0 || sum > MAX_INT64 - values[i] {
        if forall v :: v in values ==> 0 <= v {
          assert values[i] in values;
          SumGrows(values, i + 1);
        }
        return false;
      }
      sum := sum + values[i];
    }
    assert values[..|values|] == values;
    return total == sum;
  }

  lemma {:induction false} SumGrows(values: seq<int64>, n: nat)
    requires n <= |values|
    requires forall v :: v in values ==> 0 <= v
    ensures SumOf(values[..n]) <= SumOf(values)
    decreases |values| - n
  {
    if n == |values| {
      assert values[..n] == values;
    } else {
      SumGrows(values, n + 1);
      assert values[n] in values;
      assert values[..n + 1][..n] == values[..n];
    }
  }

  datatype ValidationError =
    | QualityRequired | UnsupportedQuality | BucketRequired | NegativeBucket
    | InputMismatch | OutputMismatch | TotalMismatch | UnclassifiedInComplete

  /** The nil and sign passes over the nine buckets. */
  method CheckBuckets(f: UsageAccounting) returns (err: Option<ValidationError>)
    ensures err.None? <==> Present(f) && NonNegative(TokensOf(f))
    ensures err.None? || err == Some(BucketRequired) || err == Some(NegativeBucket)
    ensures err == Some(NegativeBucket) ==> Present(f)
  {
    var values :=
      [f.total, f.input, f.uncached, f.cacheRead, f.cacheWrite, f.output, f.nonReasoning, f.reasoning, f.unclassified];
    assert values[0] == f.total && values[1] == f.input && values[2] == f.uncached && values[3] == f.cacheRead;
    assert values[4] == f.cacheWrite && values[5] == f.output && values[6] == f.nonReasoning && values[7] == f.reasoning
      && values[8] == f.unclassified;
    for i := 0 to |values|
      invariant forall k :: 0 <= k < i ==> values[k].Some?
    {
      if values[i].None? {
        return Some(BucketRequired);
      }
    }
    for i := 0 to |values|
      invariant forall k :: 0 <= k < i ==> 0 <= values[k].value
    {
      if values[i].value < 0 {
        return Some(NegativeBucket);
      }
    }
    return None;
  }

  /** The three bucket identities. */
  method CheckSums(f: UsageAccounting) returns (err: Option<ValidationError>)
    requires Present(f) && NonNegative(TokensOf(f))
    ensures err.None? <==> Balanced(TokensOf(f))
    ensures err.None? || err == Some(InputMismatch) || err == Some(OutputMismatch) || err == Some(TotalMismatch)
  {
    var inputSum := SumEquals(f.input.value, [f.uncached.value, f.cacheRead.value, f.cacheWrite.value]);
    SumOfThree(f.uncached.value, f.cacheRead.value, f.cacheWrite.value);
    if !inputSum {
      return Some(InputMismatch);
    }
    var outputSum := SumEquals(f.output.value, [f.nonReasoning.value, f.reasoning.value]);
    SumOfTwo(f.nonReasoning.value, f.reasoning.value);
    if !outputSum {
      return Some(OutputMismatch);
    }
    var totalSum := SumEquals(f.total.value, [f.input.value, f.output.value, f.unclassified.value]);
    SumOfThree(f.input.value, f.output.value, f.unclassified.value);
    if !totalSum {
      return Some(TotalMismatch);
    }
    return None;
  }

  method ValidateUsageAccounting(f: UsageAccounting) returns (err: Option<ValidationError>)
    ensures err.None? <==> WellFormed(f)
    ensures err == Some(QualityRequired) <==> f.quality.None?
    ensures err == Some(NegativeBucket) ==> !NonNegative(TokensOf(f))
    ensures err == Some(UnclassifiedInComplete) ==> f.quality == Some(Complete) && Balanced(TokensOf(f))
  {
    if f.quality.None? {
      return Some(QualityRequired);
    }
    if f.quality.value.Unsupported? {
      return Some(UnsupportedQuality);
    }
    err := CheckBuckets(f);
    if err.Some? {
      return;
    }
    err := CheckSums(f);
    if err.Some? {
      return;
    }
    if f.quality.value.Complete? && f.unclassified.value != 0 {
      return Some(UnclassifiedInComplete);
    }
  }

  lemma SumOfTwo(a: int64, b: int64)
    ensures SumOf([a, b]) == a as int + b as int
  {
    assert [a, b][..1] == [a];
    assert SumOf([a]) == a as int;
  }

  lemma SumOfThree(a: int64, b: int64, c: int64)
    ensures SumOf([a, b, c]) == a as int + b as int + c as int
  {
    assert [a, b, c][..2] == [a, b];
    SumOfTwo(a, b);
  }
}
