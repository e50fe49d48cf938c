/** The JSON-array statistics pipeline: parse keeps the decoded value only if
    it is an array, transform aggregates the numbers into count / average /
    maximum, and write hands the aggregate back unchanged. JSON decoding is
    library code, so the decoder is a parameter producing an abstract `Json`.
 */
module JsonStats {
  import opened Results
  import opened DataPipeline

  /** A decoded JSON document, as far as this pipeline looks at it. Array
      elements are numbers; object members and nested values are not modelled. */
  datatype Json =
    | JArray(items: seq<int>)
    | JObject(keys: seq<string>)
    | JString(text: string)
    | JNumber(number: int)
    | JBool(flag: bool)
    | JNull

  /** The aggregate returned by the pipeline; `max` is `None` for an empty array. */
  datatype Stats = Stats(count: nat, avg: real, max: Option<int>)

  /** Message of the `TypeError` raised for a non-array document. */
  const NotAnArrayMessage: string := "expected a JSON array"

  /** Sum of the numbers, accumulated left to right. */
  function Sum(xs: seq<int>): int
  {
    if xs == [] then 0 else Sum(xs[..|xs| - 1]) + xs[|xs| - 1]
  }

  /** The largest number, scanning left to right and keeping the earlier one on ties. */
  function MaxOf(xs: seq<int>): (m: int)
    requires xs != []
    ensures m in xs
    ensures forall i :: 0 <= i < |xs| ==> xs[i] <= m
  {
    if |xs| == 1 then xs[0]
    else
      var front := MaxOf(xs[..|xs| - 1]);
      var last := xs[|xs| - 1];
      if last > front then last else front
  }

  /** The parse hook: decode the text, then keep the value only if it is an
      array. A decoding error is raised as it is; any other decoded value
      raises TypeError. */
  function Parse(decode: string -> Result<Json>, raw: string): (r: Result<seq<int>>)
    ensures r.Success? <==> decode(raw).Success? && decode(raw).value.JArray?
    ensures r.Success? ==> r.value == decode(raw).value.items
    ensures decode(raw).Failure? ==> r.error == decode(raw).error
    ensures decode(raw).Success? && !decode(raw).value.JArray? ==> r.error == TypeError(NotAnArrayMessage)
  {
    var data :- decode(raw);
    if data.JArray? then Success(data.items) else Failure(TypeError(NotAnArrayMessage))
  }

  /** The transform hook: count, mean (0 when empty) and maximum (absent when empty). */
  function Aggregate(nums: seq<int>): (s: Stats)
    ensures s.count == |nums|
    ensures nums == [] ==> s.avg == 0.0 && s.max == None
    ensures nums != [] ==> s.avg * (|nums| as real) == Sum(nums) as real
    ensures nums != [] ==> s.max.Some? && s.max.value in nums
    ensures nums != [] ==> forall i :: 0 <= i < |nums| ==> nums[i] <= s.max.value
  {
    Stats(|nums|,
          if nums == [] then 0.0 else (Sum(nums) as real) / (|nums| as real),
          if nums == [] then None else Some(MaxOf(nums)))
  }

  /** The write hook: the aggregate itself. */
  function Write(stats: Stats): Result<Stats>
  {
    Success(stats)
  }

  /** A statistics pipeline; transform and write are this pipeline's own hooks. */
  function JsonStatsPipeline(reader: Option<Reader>, fileRead: Reader,
                             decode: string -> Result<Json>): Pipeline<seq<int>, Stats, Stats>
  {
    New(reader, fileRead, raw => Parse(decode, raw), nums => Success(Aggregate(nums)), Write)
  }

  /** A sum is at most the count times any upper bound of the elements. */
  lemma {:induction false} SumAtMostCountTimesBound(xs: seq<int>, bound: int)
    requires forall i :: 0 <= i < |xs| ==> xs[i] <= bound
    ensures Sum(xs) <= |xs| * bound
    decreases |xs|
  {
    if xs != [] {
      var front := xs[..|xs| - 1];
      assert forall i :: 0 <= i < |front| ==> front[i] == xs[i];
      SumAtMostCountTimesBound(front, bound);
    }
  }

  /** The reported mean never exceeds the reported maximum. */
  lemma AverageAtMostMax(nums: seq<int>)
    requires nums != []
    ensures Aggregate(nums).avg <= Aggregate(nums).max.value as real
  {
    var top := MaxOf(nums);
    SumAtMostCountTimesBound(nums, top);
  }

  /** End to end: a run over a decoded array returns its aggregate, and reads once. */
  lemma RunAggregatesArray(reader: Option<Reader>, fileRead: Reader,
                           decode: string -> Result<Json>, path: string)
    requires path != []
    ensures var p := JsonStatsPipeline(reader, fileRead, decode);
            var raw := p.reader(path);
            raw.Success? && decode(raw.value).Success? && decode(raw.value).value.JArray? ==>
              Run(p, path) == Outcome(Success(Aggregate(decode(raw.value).value.items)), Chain(path))
  {
  }

  /** End to end: a decoded document that is not an array raises TypeError
      from parse, and neither transform nor write runs. */
  lemma RunRejectsNonArray(reader: Option<Reader>, fileRead: Reader,
                           decode: string -> Result<Json>, path: string)
    requires path != []
    ensures var p := JsonStatsPipeline(reader, fileRead, decode);
            var raw := p.reader(path);
            raw.Success? && decode(raw.value).Success? && !decode(raw.value).value.JArray? ==>
              Run(p, path) == Outcome(Failure(TypeError(NotAnArrayMessage)), [ReadEvent(path), ParseEvent])
  {
  }

  /** The worked example: the text "[10, 20, 30]" gives count 3, mean 20 and maximum 30. */
  lemma TenTwentyThirtyExample(fileRead: Reader, decode: string -> Result<Json>)
    requires decode("[10, 20, 30]") == Success(JArray([10, 20, 30]))
    ensures Run(JsonStatsPipeline(Some(_ => Success("[10, 20, 30]")), fileRead, decode), "nums.json")
         == Outcome(Success(Stats(3, 20.0, Some(30))), Chain("nums.json"))
  {
    var nums := [10, 20, 30];
    assert nums[..2] == [10, 20] && nums[..2][..1] == [10] && nums[..2][..1][..0] == [];
    assert Sum([10]) == 10;
    assert Sum([10, 20]) == 30;
    assert Sum(nums) == 60;
    assert MaxOf(nums) == 30;
  }
}
