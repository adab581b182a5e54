# Vehicle weight lookup, quote persistence and phone menu — a Dafny model

This project models the logic of a small scrap-vehicle web service.

- **Curb-weight extraction** (`get_vehicle_weight` in app.py). It receives the decoded
  response of a vehicle-specification lookup, `{"Count": …, "Results": [{"Specs": [{"Name": …, "Value": …}]}]}`,
  and an optional model hint. It rejects an empty response. It selects one candidate record:
  with more than one result and a non-empty hint, the first candidate whose first `model` spec,
  stripped and lower-cased, is non-empty and contains the lower-cased hint; otherwise the first
  record. It then takes the value of the first spec named `CW`, parses it, multiplies it by
  0.001102 and rounds it to one decimal.
- **The weight endpoint** (`api_get_vehicle_weight`). It validates `year`, `make` and `model`
  and parses `year` as an integer. It then calls the lookup and answers 200 with
  `{"CurbWeight": w}`, or 500 with the error text.
- **The save endpoint** (`save_data`). It rejects a request that is not JSON. Otherwise it
  reshapes the payload into a fixed document, `specs`, `location` and `pickup_details` lists plus four
  scalars, hands it to the store and reports the new id.
- **The phone menu** (`ivr`, `handle_input` in router.py). A response is a sequence of abstract
  voice verbs (`Say`, `Gather`, `Dial`, `Redirect`), built by appending to a `VoiceResponse` object.

Modules: `Wrappers` (Option, Result), `Text` (ASCII `lower`/`upper`, `strip()` and the trimming
of `int()`, Python's substring test, `int()` on strings), `VehicleWeight` (the extractor), `WeightEndpoint`, `SaveData`, `IvrRouter`.

The extractor is specified twice. The functions `FirstMatch`, `ModelValue`, `SelectIndex`, `CwValue`
and `ExtractWeight` define the selection and extraction as first-index searches. The methods
`FindModelValue`, `SelectCandidate`, `FindWeightValue` and `GetVehicleWeight` run the source's
nested loops with early `break`, and each is proved equal to its function. The properties are
then lemmas about the functions. The JSON `.get` defaults are explicit: a missing `Count` is 0,
missing `Results` and `Specs` are empty, a missing `Name` is "", a missing `Value` is "" for the
model test and absent for the weight. Selection is driven by `Count`, not by the length of `Results`.

Notes on app.py:
- the hint is used only when it is non-empty; a present but empty hint falls back to the first record;
- a candidate matches only when its model value is non-empty as well as containing the hint;
- the `CW` name is compared after upper-casing, and the weight is not checked to be positive;
- `str.strip()` (app.py:47) and `int()` (app.py:81) trim different sets of characters: the information
  separators 0x1C-0x1F are whitespace to the first and not to the second, so `Strip` takes the kind of
  whitespace as a parameter, `StrWhitespace` for the one and `IntWhitespace` for the other.

## Model

| member | source | states |
|---|---|---|
| `Text.Strip` | app.py:47 | the result is the slice of the input left after removing whitespace of the given kind from both ends: everything cut off is whitespace, the result neither starts nor ends with whitespace, and a string without whitespace at its ends is unchanged |
| `Text.Lower` | app.py:46-49 | `str.lower()`; `LowerIsCaseless` states its properties |
| `Text.LowerIsCaseless` | app.py:46-49 | `lower()` keeps the length, leaves no capital letter and changes no character other than by case |
| `Text.Upper` | app.py:58 | `str.upper()`; `UpperIsCaseless` states its properties |
| `Text.UpperIsCaseless` | app.py:58 | `upper()` keeps the length, leaves no small letter and changes no character other than by case |
| `Text.Truthy` | app.py:77 | Python truthiness of an optional string, also used at app.py:41 and app.py:49; the contracts of `ApiGetVehicleWeight` and `SelectIndex` state its effect |
| `Text.Contains` | app.py:49 | true exactly when the needle occurs in the haystack at some position |
| `Text.ParseInt` | app.py:80-83 | an accepted year, with tabs, line breaks, vertical tabs, form feeds, carriage returns and spaces trimmed from both ends, is non-empty, ends in a digit and has only digits and underscores after its first character |
| `Text.IntToString` | app.py:80-83 | `str(n)`, the rendering `int()` reads back: non-empty, starting with '-' exactly when n is negative, digits otherwise |
| `Text.ParseIntRoundTrip` | app.py:80-83 | `int(str(n)) == n` for every integer n |
| `Text.SeparatorIsNotIntSpace` | app.py:80-83 | a year starting with an information separator (0x1C-0x1F) is rejected, although `str.strip()` would remove that character |
| `VehicleWeight.FirstMatch` | app.py:42-51 | returns the lowest index satisfying the test, with no earlier index satisfying it, or none when no element does |
| `VehicleWeight.ModelValue` | app.py:43-48 | the stripped, lower-cased value of the first `model` spec, or none; `FindModelValue`, `FirstModelSpecDecides` and `NoModelSpecNoMatch` state its properties |
| `VehicleWeight.ModelMatches` | app.py:49 | the source's test on a model value: present, non-empty, containing the lower-cased hint; `FirstModelSpecDecides` states it for a candidate |
| `VehicleWeight.Matches` | app.py:43-49 | a candidate passes the test on its model value; `FirstModelSpecDecides` and `NoModelSpecNoMatch` state when |
| `VehicleWeight.CwValue` | app.py:56-60 | the `Value` of the first `CW` spec, or none; `FindWeightValue` and `FirstCwDecides` state its properties |
| `VehicleWeight.ExtractWeight` | app.py:36-67 | the extraction as a function; `NoDataExactly`, `WeightNotFoundExactly`, `UnparseableWeightIsInvalidNumber`, `SuccessIsConvertedWeight` and `ExtractFromSelected` state its outcomes |
| `VehicleWeight.Message` | app.py:39-66 | the three exception texts of the extractor; `ExtractorErrorIs500` states that each reaches the client |
| `VehicleWeight.RoundToTenth` | app.py:67 | `round(x, 1)`; `RoundToTenthIsNearest` states its properties |
| `VehicleWeight.SelectIndex` | app.py:40-55 | with Count > 1 and a non-empty hint: the first matching candidate, or index 0 when none matches; otherwise index 0 |
| `VehicleWeight.FindModelValue` | app.py:43-48 | the loop returns the normalised value of the first `model` spec, or none |
| `VehicleWeight.SelectCandidate` | app.py:40-55 | the loop over the results returns the candidate at `SelectIndex` |
| `VehicleWeight.FindWeightValue` | app.py:56-60 | the loop returns the `Value` of the first `CW` spec, or none |
| `VehicleWeight.GetVehicleWeight` | app.py:31-67 | the imperative extraction returns exactly `ExtractWeight` of the decoded response, hint and parser |
| `VehicleWeight.NoDataExactly` | app.py:36-39 | the result is the no-data error exactly when Count is missing or 0 or Results is missing or empty, whatever the hint |
| `VehicleWeight.FirstMatchSelected` | app.py:41-51 | a matching candidate with no match before it is the selected one |
| `VehicleWeight.NoMatchSelectsFirst` | app.py:52-53 | when no candidate matches, the first record is selected |
| `VehicleWeight.UniqueMatchSelected` | app.py:41-51 | a hint that exactly one candidate matches selects that candidate, whatever its position |
| `VehicleWeight.FirstModelSpecDecides` | app.py:45-49 | only the first `model` spec decides a match; an empty first model value rejects the candidate even if a later `model` spec would match |
| `VehicleWeight.NoModelSpecNoMatch` | app.py:44-49 | a candidate without any `model` spec never matches |
| `VehicleWeight.FirstCwDecides` | app.py:57-60 | the raw weight is the `Value` of the first `CW` spec; later `CW` specs are ignored |
| `VehicleWeight.WeightNotFoundExactly` | app.py:56-62 | the not-found error is raised exactly when the response is non-empty and the selected candidate has no `CW` spec or its first one has no `Value` |
| `VehicleWeight.UnparseableWeightIsInvalidNumber` | app.py:63-66 | a present `CW` value that does not parse gives the invalid-number error, never not-found |
| `VehicleWeight.SuccessIsConvertedWeight` | app.py:63-67 | a success is the parsed first `CW` value of the selected candidate, times 0.001102, rounded to one decimal |
| `VehicleWeight.ExtractFromSelected` | app.py:56-67 | for a non-empty response, the outcome is decided by the selected candidate's first `CW` value and its parse |
| `VehicleWeight.RoundHalfEven` | app.py:67 | the result is within one half of the argument, and even on a tie |
| `VehicleWeight.RoundHalfEvenIsNearest` | app.py:67 | no integer is closer to the argument than the result |
| `VehicleWeight.RoundToTenthIsNearest` | app.py:67 | `round(x, 1)` is a multiple of one tenth, and no multiple of one tenth is closer to x |
| `VehicleWeight.SingleResultExample` | app.py:36-67 | one record whose only spec is `CW` = "3000" gives 3.3 |
| `WeightEndpoint.ApiGetVehicleWeight` | app.py:71-89 | 400 with the missing-parameters error if year, make or model is absent or empty; otherwise 400 with the invalid-year error if year is not an integer; otherwise 200 with the lookup's weight or 500 with its error text |
| `WeightEndpoint.VehicleLookup` | app.py:35-67 | an upstream fetch error passes through unchanged, an extractor error becomes its exception text, and an extracted weight is returned unchanged |
| `WeightEndpoint.RejectionIgnoresLookup` | app.py:77-83 | a request rejected with 400 gets the same reply whatever the lookup does, so the lookup is not consulted |
| `WeightEndpoint.ReplyShape` | app.py:77-89 | every reply is 200 with a weight, or 400 or 500 with an error |
| `WeightEndpoint.ValidatedRequest` | app.py:85-89 | a request that passes validation gets 200 with the lookup's weight or 500 with its error text |
| `WeightEndpoint.DecimalYearAccepted` | app.py:80-89 | a year written as a decimal integer is accepted and passed to the lookup as that integer |
| `WeightEndpoint.ExtractorErrorIs500` | app.py:85-89 | every extractor error reaches the client as 500 with its exception text |
| `WeightEndpoint.ExtractorSuccessIs200` | app.py:85-89 | every extracted weight reaches the client as 200 with `{"CurbWeight": w}` |
| `WeightEndpoint.CorollaExample` | app.py:70-89 | year 2015, Toyota Corolla, one record with `CW` = "3000": 200 with `{"CurbWeight": 3.3}` |
| `SaveData.CleanDocument` | app.py:97-132 | lists of 4, 6 and 4 values; position i of the flattened document holds the payload's value for key i of the layout, null when missing |
| `SaveData.SaveData` | app.py:93-138 | a non-JSON request is rejected with 400; a JSON one stores the cleaned document and answers 200 with the id the store returned |
| `SaveData.FlattenInjective` | app.py:124-132 | a document of the layout's shape is determined by its flattening |
| `SaveData.SameDocumentIffSameFields` | app.py:100-132 | two payloads give the same document exactly when they agree on the eighteen keys of the layout |
| `SaveData.OtherKeysIgnored` | app.py:100-132 | keys outside the layout never reach the document |
| `IvrRouter.VoiceResponse.constructor` | router.py:12 | a new response has no verbs |
| `IvrRouter.VoiceResponse.Say` | router.py:15 | appends one `Say` |
| `IvrRouter.VoiceResponse.Gather` | router.py:18-19 | appends one `Gather` with its digit count, action, method and nested verbs |
| `IvrRouter.VoiceResponse.Dial` | router.py:31 | appends one `Dial` |
| `IvrRouter.VoiceResponse.Redirect` | router.py:40 | appends one `Redirect` |
| `IvrRouter.Ivr` | router.py:10-21 | the greeting `Say`, then a `Gather` of exactly 1 digit posting to `/handle_input` that holds the prompt `Say` |
| `IvrRouter.HandleInput` | router.py:24-42 | exactly one `Say` then one `Dial` or `Redirect`; the `Dial` comes exactly for digits 1, 2 and 3, to the sales number, pathway 2 or pathway 3 (both ""); anything else, a missing value included, says the invalid-choice message and redirects to `/ivr` |

## Left out

- `get_vehicle_specs` (app.py:13-28) is a network request and JSON decoding; the model takes its outcome as the `Fetch` parameter, either the decoded response or the exception's text. The URL building goes with it.
- `float()` is the parameter `parse: string -> Option<real>`; `round(x * 0.001102, 1)` is computed on exact reals with ties to even, so binary floating-point representation error, infinities and NaN are not modelled.
- Explicit JSON nulls and values of other types are only partly representable. Fields are either missing or hold a string (an integer for `Count`, a list for `Results` and `Specs`).
  - A null `Results` and a null `CW` `Value` behave as missing in the source (no data, weight not found), and the model's `None` gives the same outcome.
  - A null `Count` with non-empty `Results`, a null `Specs` that is iterated, a null or non-string `Name`, and a null or non-string `model` `Value` make the source raise a type or attribute error, which the handler turns into 500. The model's `None` gives the `.get` default in those places, so it covers only the missing case.
  - A boolean `Count` compares as 0 or 1 and is covered by those integers. A float or string `Count` is not representable.
  - A numeric `CW` `Value`, which `float()` accepts, is not representable.
- `.lower()`, `.upper()`, `.strip()` and `int()` are modelled on ASCII: no Unicode case mappings, Unicode whitespace or non-ASCII digits.
- Text.ParseInt: does not model the limit of 4300 digits that `int()` enforces on decimal strings since Python 3.11 (underscores and the sign do not count), because the Python version is not fixed by the source. `ParseIntRoundTrip` and `DecimalYearAccepted` therefore also cover renderings longer than that limit, which such an interpreter rejects.
- Text.ParseInt: its contract states only the shape of an accepted string; the value it reads is stated by `ParseIntRoundTrip` for canonical decimal renderings.
- The MongoDB client, `insert_one` and the print of the id (app.py:7-10, app.py:135-138) are the `insert` parameter of `SaveData`, which returns the new id.
- `save_data` with a JSON body that is not an object, or that is malformed, is not modelled; Flask and the `.get` call fail before the document is built.
- Flask routing, `request.args`, `request.values`, `jsonify` and `app.run` are framework plumbing; parameters are passed in directly.
- The Twilio XML rendering of a voice response is not modelled; only the verb sequence is. The prompt inside the gather is passed when the gather is appended, rather than added to it afterwards; the resulting verb tree is the same.
