/**
  `generateYearOptions`: the years offered in a year picker, from
  `endOffset` years after the current year down to `startOffset` years
  before it. The current year is a parameter.
 */
module Years {

  const DefaultStartOffset := 50
  const DefaultEndOffset := 1

  /** The loop of the source: count down from the newest year and push each year. */
  method GenerateYearOptions(currentYear: int, startOffset: int, endOffset: int) returns (years: seq<int>)
    ensures |years| == if startOffset + endOffset + 1 >= 0 then startOffset + endOffset + 1 else 0
    ensures forall k :: 0 <= k < |years| ==> years[k] == currentYear + endOffset - k
    ensures years != [] ==>
      years[0] == currentYear + endOffset && years[|years| - 1] == currentYear - startOffset
    ensures forall k :: 0 < k < |years| ==> years[k] == years[k - 1] - 1
    ensures forall k :: 0 <= k < |years| ==>
      currentYear - startOffset <= years[k] <= currentYear + endOffset
  {
    years := [];
    var year := currentYear + endOffset;
    while year >= currentYear - startOffset
      invariant year <= currentYear + endOffset
      invariant year >= currentYear - startOffset - 1 || years == []
      invariant |years| == currentYear + endOffset - year
      invariant forall k :: 0 <= k < |years| ==> years[k] == currentYear + endOffset - k
      decreases year - (currentYear - startOffset)
    {
      years := years + [year];
      year := year - 1;
    }
  }

  /** Called with no arguments: 52 years, from next year down to fifty years ago. */
  method DefaultYearOptions(currentYear: int) returns (years: seq<int>)
    ensures |years| == 52
    ensures years[0] == currentYear + 1 && years[51] == currentYear - 50
  {
    years := GenerateYearOptions(currentYear, DefaultStartOffset, DefaultEndOffset);
  }
}
