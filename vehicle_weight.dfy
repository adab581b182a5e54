/**
 * The curb-weight extractor of app.py (`get_vehicle_weight`): given the decoded
 * response of the vehicle-specification lookup and an optional model hint, pick
 * one candidate record, find its first `CW` spec and convert the value.
 *
 * The selection and extraction are first specified as first-index searches
 * (`SelectIndex`, `ModelValue`, `CwValue`, `ExtractWeight`); the method
 * `GetVehicleWeight` performs the same search with the source's nested loops
 * and early breaks and is proved to compute `ExtractWeight`.
 */
module VehicleWeight {
  import opened Wrappers
  import opened Text

  /** One `{"Name": …, "Value": …}` entry; a key absent from the JSON object is `None`. */
  datatype Spec = Spec(name: Option<string>, value: Option<string>)

  /** One entry of `Results`: a trim or configuration with its `Specs` list. */
  datatype Candidate = Candidate(specs: Option<seq<Spec>>)

  /** The decoded lookup response `{"Count": …, "Results": […]}`. */
  datatype SpecData = SpecData(count: Option<int>, results: Option<seq<Candidate>>)

  /** The three errors the extractor raises. */
  datatype WeightError = NoData | WeightNotFound | InvalidNumber

  /** The text of the exception each error raises, as the handler reports it. */
  function Message(e: WeightError): string {
    match e
    case NoData => "No data found for the specified vehicle"
    case WeightNotFound => "Weight (CW) not found in the specifications"
    case InvalidNumber => "Weight value is not a valid number"
  }

  /** Factor applied to the raw `CW` value before rounding. */
  const WeightFactor: real := 0.001102

  // The `.get` defaults of the source.
  function CountOf(d: SpecData): int { d.count.GetOr(0) }
  function ResultsOf(d: SpecData): seq<Candidate> { d.results.GetOr([]) }
  function SpecsOf(c: Candidate): seq<Spec> { c.specs.GetOr([]) }
  function NameOf(s: Spec): string { s.name.GetOr("") }

  predicate IsModelSpec(s: Spec) { Lower(NameOf(s)) == "model" }
  predicate IsWeightSpec(s: Spec) { Upper(NameOf(s)) == "CW" }

  /** The lowest index whose element satisfies `p`, or `None` when no element does. */
  function FirstMatch<T>(s: seq<T>, p: T -> bool): (r: Option<nat>)
    ensures r.Some? ==> r.value < |s| && p(s[r.value]) && forall j :: 0 <= j < r.value ==> !p(s[j])
    ensures r.None? ==> forall j :: 0 <= j < |s| ==> !p(s[j])
  {
    if s == [] then None
    else if p(s[0]) then Some(0)
    else
      match FirstMatch(s[1..], p)
      case None => None
      case Some(i) => Some(i + 1)
  }

  /** An index whose element satisfies `p`, with none before it, is the first match. */
  lemma FirstMatchAt<T>(s: seq<T>, p: T -> bool, k: nat)
    requires k < |s| && p(s[k])
    requires forall j :: 0 <= j < k ==> !p(s[j])
    ensures FirstMatch(s, p) == Some(k)
  {
  }

  /**
   * The normalised model name of a candidate: the value of its FIRST spec named
   * `model` (any case), with `Value` defaulting to "", stripped and lower-cased;
   * `None` when the candidate has no such spec.
   */
  function ModelValue(c: Candidate): Option<string> {
    match FirstMatch(SpecsOf(c), IsModelSpec)
    case None => None
    case Some(k) => Some(Lower(Strip(SpecsOf(c)[k].value.GetOr(""), StrWhitespace)))
  }

  /** The test of the source on a model name: present, non-empty, and containing the lower-cased hint. */
  predicate ModelMatches(mv: Option<string>, hint: string) {
    mv.Some? && mv.value != "" && Contains(mv.value, Lower(hint))
  }

  /** A candidate matches the hint when its model name passes the test. */
  predicate Matches(c: Candidate, hint: string) {
    ModelMatches(ModelValue(c), hint)
  }

  /**
   * The index of the selected candidate: with more than one result and a
   * non-empty hint, the first matching candidate, else the first candidate.
   */
  function SelectIndex(count: int, results: seq<Candidate>, hint: Option<string>): (i: nat)
    requires results != []
    ensures i < |results|
    ensures !(count > 1 && Truthy(hint)) ==> i == 0
    ensures count > 1 && Truthy(hint) ==>
      (Matches(results[i], hint.value) && forall j :: 0 <= j < i ==> !Matches(results[j], hint.value)) ||
      (i == 0 && forall j :: 0 <= j < |results| ==> !Matches(results[j], hint.value))
  {
    if count > 1 && Truthy(hint) then
      match FirstMatch(results, c => Matches(c, hint.value))
      case Some(i) => i
      case None => 0
    else 0
  }

  /** The raw weight: the `Value` of the candidate's FIRST spec named `CW` (any case), if it has one. */
  function CwValue(c: Candidate): Option<string> {
    match FirstMatch(SpecsOf(c), IsWeightSpec)
    case None => None
    case Some(k) => SpecsOf(c)[k].value
  }

  /** Rounds to the nearest integer, ties to the even one (the rule of Python's `round`). */
  function RoundHalfEven(y: real): (n: int)
    ensures -0.5 <= n as real - y <= 0.5
    ensures (n as real - y == 0.5 || y - n as real == 0.5) ==> n % 2 == 0
  {
    var f := y.Floor;
    var d := y - f as real;
    if d < 0.5 then f
    else if d > 0.5 then f + 1
    else if f % 2 == 0 then f
    else f + 1
  }

  /** `round(x, 1)`: the nearest multiple of one tenth, ties to even. */
  function RoundToTenth(x: real): real {
    RoundHalfEven(x * 10.0) as real / 10.0
  }

  /** The whole extraction, as a function of the decoded response, the hint and the number parser. */
  function ExtractWeight(data: SpecData, hint: Option<string>, parse: string -> Option<real>): Result<real, WeightError> {
    var count := CountOf(data);
    var results := ResultsOf(data);
    if count == 0 || results == [] then Failure(NoData)
    else
      match CwValue(results[SelectIndex(count, results, hint)])
      case None => Failure(WeightNotFound)
      case Some(raw) =>
        match parse(raw)
        case None => Failure(InvalidNumber)
        case Some(x) => Success(RoundToTenth(x * WeightFactor))
  }

  /** The first matching candidate is the selected one. */
  lemma FirstMatchSelected(count: int, results: seq<Candidate>, hint: Option<string>, i: nat)
    requires count > 1 && Truthy(hint)
    requires i < |results| && Matches(results[i], hint.value)
    requires forall j :: 0 <= j < i ==> !Matches(results[j], hint.value)
    ensures SelectIndex(count, results, hint) == i
  {
  }

  /** When no candidate matches, the first candidate is selected. */
  lemma NoMatchSelectsFirst(count: int, results: seq<Candidate>, hint: Option<string>)
    requires results != [] && hint.Some?
    requires forall j :: 0 <= j < |results| ==> !Matches(results[j], hint.value)
    ensures SelectIndex(count, results, hint) == 0
  {
  }

  /** The inner loop of the source: scan the specs for the first `model` entry (app.py:43-48). */
  method FindModelValue(c: Candidate) returns (modelValue: Option<string>)
    ensures modelValue == ModelValue(c)
  {
    var specs := c.specs.GetOr([]);
    modelValue := None;
    var k := 0;
    while k < |specs|
      invariant 0 <= k <= |specs|
      invariant modelValue == None
      invariant forall j :: 0 <= j < k ==> !IsModelSpec(specs[j])
    {
      if IsModelSpec(specs[k]) {
        FirstMatchAt(specs, IsModelSpec, k);
        modelValue := Some(Lower(Strip(specs[k].value.GetOr(""), StrWhitespace)));
        break;
      }
      k := k + 1;
    }
  }

  /** One more candidate that does not match extends the prefix of non-matching candidates. */
  lemma NoMatchExtends(results: seq<Candidate>, hint: string, i: nat)
    requires i < |results| && !Matches(results[i], hint)
    requires forall j :: 0 <= j < i ==> !Matches(results[j], hint)
    ensures forall j :: 0 <= j < i + 1 ==> !Matches(results[j], hint)
  {
  }

  /** The candidate selection of the source, with its fallback to the first result (app.py:40-55). */
  method SelectCandidate(count: int, results: seq<Candidate>, specificModel: Option<string>)
    returns (selected: Candidate)
    requires results != []
    ensures selected == results[SelectIndex(count, results, specificModel)]
  {
    var found: Option<Candidate> := None;
    if count > 1 && Truthy(specificModel) {
      var i := 0;
      while i < |results|
        invariant 0 <= i <= |results|
        invariant found == None
        invariant forall j :: 0 <= j < i ==> !Matches(results[j], specificModel.value)
      {
        var modelValue := FindModelValue(results[i]);
        if ModelMatches(modelValue, specificModel.value) {
          FirstMatchSelected(count, results, specificModel, i);
          found := Some(results[i]);
          break;
        }
        NoMatchExtends(results, specificModel.value, i);
        i := i + 1;
      }
      if found == None {
        NoMatchSelectsFirst(count, results, specificModel);
        found := Some(results[0]);
      }
    } else {
      found := Some(results[0]);
    }
    selected := found.value;
  }

  /** The scan for the first `CW` entry of the selected candidate (app.py:56-60). */
  method FindWeightValue(c: Candidate) returns (weightValue: Option<string>)
    ensures weightValue == CwValue(c)
  {
    var specs := c.specs.GetOr([]);
    weightValue := None;
    var k := 0;
    while k < |specs|
      invariant 0 <= k <= |specs|
      invariant weightValue == None
      invariant forall j :: 0 <= j < k ==> !IsWeightSpec(specs[j])
    {
      if IsWeightSpec(specs[k]) {
        FirstMatchAt(specs, IsWeightSpec, k);
        weightValue := specs[k].value;
        break;
      }
      k := k + 1;
    }
  }

  /** The extraction of a non-empty response, given the selected candidate. */
  lemma ExtractFromSelected(data: SpecData, hint: Option<string>, parse: string -> Option<real>, c: Candidate)
    requires CountOf(data) != 0 && ResultsOf(data) != []
    requires c == ResultsOf(data)[SelectIndex(CountOf(data), ResultsOf(data), hint)]
    ensures CwValue(c).None? ==> ExtractWeight(data, hint, parse) == Failure(WeightNotFound)
    ensures CwValue(c).Some? && parse(CwValue(c).value).None? ==> ExtractWeight(data, hint, parse) == Failure(InvalidNumber)
    ensures CwValue(c).Some? && parse(CwValue(c).value).Some? ==>
      ExtractWeight(data, hint, parse) == Success(RoundToTenth(parse(CwValue(c).value).value * WeightFactor))
  {
  }

  /**
   * `get_vehicle_weight` after the fetch, over the decoded response `data`;
   * `parse` stands for `float()`.
   */
  method GetVehicleWeight(data: SpecData, specificModel: Option<string>, parse: string -> Option<real>)
    returns (r: Result<real, WeightError>)
    ensures r == ExtractWeight(data, specificModel, parse)
  {
    var count := data.count.GetOr(0);
    var results := data.results.GetOr([]);
    if count == 0 || results == [] {
      return Failure(NoData);
    }
    var selected := SelectCandidate(count, results, specificModel);
    ExtractFromSelected(data, specificModel, parse, selected);
    var weightValue := FindWeightValue(selected);
    if weightValue == None {
      return Failure(WeightNotFound);
    }
    var parsed := parse(weightValue.value);
    if parsed == None {
      return Failure(InvalidNumber);
    }
    return Success(RoundToTenth(parsed.value * WeightFactor));
  }

  // Properties of the extraction.

  /** An empty response is reported as "no data", whatever the hint and the parser (app.py:36-39). */
  lemma NoDataExactly(data: SpecData, hint: Option<string>, parse: string -> Option<real>)
    ensures ExtractWeight(data, hint, parse) == Failure(NoData) <==> CountOf(data) == 0 || ResultsOf(data) == []
  {
  }

  /** A hint that exactly one candidate matches selects that candidate, wherever it is. */
  lemma UniqueMatchSelected(count: int, results: seq<Candidate>, hint: Option<string>, i: nat)
    requires count > 1 && Truthy(hint)
    requires i < |results| && Matches(results[i], hint.value)
    requires forall j :: 0 <= j < |results| && j != i ==> !Matches(results[j], hint.value)
    ensures SelectIndex(count, results, hint) == i
  {
  }

  /**
   * Only the first `model` spec of a candidate decides whether it matches: the
   * specs after it are never consulted, so an empty first model value rejects
   * the candidate even when a later `model` spec would match (app.py:45-49).
   */
  lemma {:induction false} FirstModelSpecDecides(pre: seq<Spec>, s: Spec, post: seq<Spec>, hint: string)
    requires forall j :: 0 <= j < |pre| ==> !IsModelSpec(pre[j])
    requires IsModelSpec(s)
    ensures var v := Lower(Strip(s.value.GetOr(""), StrWhitespace));
      Matches(Candidate(Some(pre + [s] + post)), hint) <==> v != "" && Contains(v, Lower(hint))
    ensures Lower(Strip(s.value.GetOr(""), StrWhitespace)) == "" ==> !Matches(Candidate(Some(pre + [s] + post)), hint)
  {
    var specs := pre + [s] + post;
    assert specs[|pre|] == s;
    assert forall j :: 0 <= j < |pre| ==> specs[j] == pre[j];
    assert FirstMatch(specs, IsModelSpec) == Some(|pre|);
  }

  /** A candidate without any `model` spec never matches a hint. */
  lemma NoModelSpecNoMatch(c: Candidate, hint: string)
    requires forall j :: 0 <= j < |SpecsOf(c)| ==> !IsModelSpec(SpecsOf(c)[j])
    ensures !Matches(c, hint)
  {
  }

  /** The raw weight is the value of the first `CW` spec; later `CW` specs are ignored (app.py:57-60). */
  lemma {:induction false} FirstCwDecides(pre: seq<Spec>, s: Spec, post: seq<Spec>)
    requires forall j :: 0 <= j < |pre| ==> !IsWeightSpec(pre[j])
    requires IsWeightSpec(s)
    ensures CwValue(Candidate(Some(pre + [s] + post))) == s.value
  {
    var specs := pre + [s] + post;
    assert specs[|pre|] == s;
    assert forall j :: 0 <= j < |pre| ==> specs[j] == pre[j];
    assert FirstMatch(specs, IsWeightSpec) == Some(|pre|);
  }

  /**
   * The "not found" error is raised exactly when the response is non-empty and
   * the selected candidate has no `CW` spec or its first one has no `Value`
   * (app.py:56-62).
   */
  lemma WeightNotFoundExactly(data: SpecData, hint: Option<string>, parse: string -> Option<real>)
    ensures ExtractWeight(data, hint, parse) == Failure(WeightNotFound) <==>
      CountOf(data) != 0 && ResultsOf(data) != [] &&
      CwValue(ResultsOf(data)[SelectIndex(CountOf(data), ResultsOf(data), hint)]).None?
  {
  }

  /**
   * A `CW` value that is present but does not parse yields "not a valid
   * number", never "not found" (app.py:63-66).
   */
  lemma UnparseableWeightIsInvalidNumber(data: SpecData, hint: Option<string>, parse: string -> Option<real>, raw: string)
    requires CountOf(data) != 0 && ResultsOf(data) != []
    requires CwValue(ResultsOf(data)[SelectIndex(CountOf(data), ResultsOf(data), hint)]) == Some(raw)
    requires parse(raw).None?
    ensures ExtractWeight(data, hint, parse) == Failure(InvalidNumber)
  {
  }

  /** A successful extraction is the parsed first `CW` value of the selected candidate, scaled and rounded (app.py:63-67). */
  lemma SuccessIsConvertedWeight(data: SpecData, hint: Option<string>, parse: string -> Option<real>, w: real)
    requires ExtractWeight(data, hint, parse) == Success(w)
    ensures CountOf(data) != 0 && ResultsOf(data) != []
    ensures var raw := CwValue(ResultsOf(data)[SelectIndex(CountOf(data), ResultsOf(data), hint)]);
      raw.Some? && parse(raw.value).Some? && w == RoundToTenth(parse(raw.value).value * WeightFactor)
  {
  }

  function Abs(r: real): real { if r < 0.0 then -r else r }

  /** `RoundHalfEven` returns an integer nearest to its argument. */
  lemma RoundHalfEvenIsNearest(y: real, k: int)
    ensures Abs(RoundHalfEven(y) as real - y) <= Abs(k as real - y)
  {
    var n := RoundHalfEven(y);
    var a, b := n as real - y, k as real - y;
    assert b - a == (k - n) as real;
    if k != n {
      assert k - n >= 1 || k - n <= -1;
      assert b - a >= 1.0 || b - a <= -1.0;
    }
  }

  /** `RoundToTenth` returns a multiple of one tenth nearest to its argument. */
  lemma RoundToTenthIsNearest(x: real, k: int)
    ensures RoundToTenth(x) * 10.0 == RoundHalfEven(x * 10.0) as real
    ensures Abs(RoundToTenth(x) - x) <= Abs(k as real / 10.0 - x)
  {
    var y := x * 10.0;
    var n := RoundHalfEven(y);
    RoundHalfEvenIsNearest(y, k);
    assert RoundToTenth(x) - x == (n as real - y) / 10.0;
    assert k as real / 10.0 - x == (k as real - y) / 10.0;
  }

  /**
   * The single-result example: one candidate whose only spec is `CW` = "3000"
   * gives 3000 * 0.001102 = 3.306, rounded to 3.3.
   */
  lemma SingleResultExample(parse: string -> Option<real>, hint: Option<string>)
    requires parse("3000") == Some(3000.0)
    ensures ExtractWeight(SpecData(Some(1), Some([Candidate(Some([Spec(Some("CW"), Some("3000"))]))])), hint, parse)
      == Success(3.3)
  {
    var c := Candidate(Some([Spec(Some("CW"), Some("3000"))]));
    assert Upper("CW") == "CW";
    assert CwValue(c) == Some("3000");
    assert RoundHalfEven(33.06) == 33;
  }
}
