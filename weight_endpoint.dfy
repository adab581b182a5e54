/**
 * The `GET /get_vehicle_weight` handler of app.py (`api_get_vehicle_weight`):
 * parameter validation and the mapping of the lookup's outcome to a status
 * and a JSON body. Query parameters arrive as optional strings; the lookup
 * (fetch plus extraction) is a parameter, so the handler can be stated for
 * any lookup and then for the extractor of `VehicleWeight`.
 */
module WeightEndpoint {
  import opened Wrappers
  import opened Text
  import opened VehicleWeight

  /** The JSON body: `{"CurbWeight": w}` or `{"error": message}`. */
  datatype Body = CurbWeight(weight: real) | Error(message: string)

  /** An HTTP reply: status code and body. */
  datatype Reply = Reply(status: int, body: Body)

  /** `get_vehicle_weight(year, make, model, specific_model)`: a weight, or the text of the exception it raised. */
  type Lookup = (int, string, string, Option<string>) -> Result<real, string>

  /** The decoded response of `get_vehicle_specs(year, make, model)`, or the text of its exception. */
  type Fetch = (int, string, string) -> Result<SpecData, string>

  const MissingParameters := "Missing required parameters: year, make, model"
  const InvalidYear := "Invalid year parameter"

  /** The handler, with the query parameters `year`, `make`, `model`, `specific_model` passed in. */
  function ApiGetVehicleWeight(year: Option<string>, make: Option<string>, model: Option<string>,
                               specificModel: Option<string>, lookup: Lookup): (r: Reply)
    ensures !(Truthy(year) && Truthy(make) && Truthy(model)) ==> r == Reply(400, Error(MissingParameters))
    ensures Truthy(year) && Truthy(make) && Truthy(model) && ParseInt(year.value).None? ==>
      r == Reply(400, Error(InvalidYear))
    ensures Truthy(year) && Truthy(make) && Truthy(model) && ParseInt(year.value).Some? ==>
      match lookup(ParseInt(year.value).value, make.value, model.value, specificModel)
      case Success(w) => r == Reply(200, CurbWeight(w))
      case Failure(e) => r == Reply(500, Error(e))
  {
    if !(Truthy(year) && Truthy(make) && Truthy(model)) then
      Reply(400, Error(MissingParameters))
    else
      match ParseInt(year.value)
      case None => Reply(400, Error(InvalidYear))
      case Some(y) =>
        match lookup(y, make.value, model.value, specificModel)
        case Success(w) => Reply(200, CurbWeight(w))
        case Failure(e) => Reply(500, Error(e))
  }

  /**
   * `get_vehicle_weight` in full: fetch, then extract; an exception of either
   * step becomes its message.
   */
  function VehicleLookup(fetch: Fetch, parse: string -> Option<real>): (lookup: Lookup)
    ensures forall y, mk, md, h :: fetch(y, mk, md).Failure? ==> lookup(y, mk, md, h) == Failure(fetch(y, mk, md).error)
    ensures forall y, mk, md, h :: fetch(y, mk, md).Success? && ExtractWeight(fetch(y, mk, md).value, h, parse).Failure? ==>
      lookup(y, mk, md, h) == Failure(Message(ExtractWeight(fetch(y, mk, md).value, h, parse).error))
    ensures forall y, mk, md, h :: fetch(y, mk, md).Success? && ExtractWeight(fetch(y, mk, md).value, h, parse).Success? ==>
      lookup(y, mk, md, h) == Success(ExtractWeight(fetch(y, mk, md).value, h, parse).value)
  {
    (year: int, make: string, model: string, hint: Option<string>) =>
      match fetch(year, make, model)
      case Failure(e) => Failure(e)
      case Success(data) =>
        match ExtractWeight(data, hint, parse)
        case Success(w) => Success(w)
        case Failure(e) => Failure(Message(e))
  }

  /** A request rejected with 400 gets the same reply whatever the lookup would do: the lookup is not consulted. */
  lemma RejectionIgnoresLookup(year: Option<string>, make: Option<string>, model: Option<string>,
                               specificModel: Option<string>, lookup1: Lookup, lookup2: Lookup)
    requires ApiGetVehicleWeight(year, make, model, specificModel, lookup1).status == 400
    ensures ApiGetVehicleWeight(year, make, model, specificModel, lookup1)
         == ApiGetVehicleWeight(year, make, model, specificModel, lookup2)
  {
  }

  /** Every reply is 200 with a weight, or 400/500 with an error message. */
  lemma ReplyShape(year: Option<string>, make: Option<string>, model: Option<string>,
                   specificModel: Option<string>, lookup: Lookup)
    ensures var r := ApiGetVehicleWeight(year, make, model, specificModel, lookup);
      (r.status == 200 && r.body.CurbWeight?) || ((r.status == 400 || r.status == 500) && r.body.Error?)
  {
  }

  /** A year given as a decimal integer is accepted and passed to the lookup as that integer. */
  lemma DecimalYearAccepted(y: int, make: string, model: string, specificModel: Option<string>, lookup: Lookup)
    requires make != "" && model != ""
    ensures var r := ApiGetVehicleWeight(Some(IntToString(y)), Some(make), Some(model), specificModel, lookup);
      match lookup(y, make, model, specificModel)
      case Success(w) => r == Reply(200, CurbWeight(w))
      case Failure(e) => r == Reply(500, Error(e))
  {
    var s := IntToString(y);
    ParseIntRoundTrip(y);
    assert s != "";
    ValidatedRequest(Some(s), Some(make), Some(model), specificModel, lookup, y);
  }

  /**
   * Every error of the extractor reaches the client as a 500 carrying the
   * exception's text; no error kind is exposed otherwise.
   */
  lemma ExtractorErrorIs500(y: int, make: string, model: string, specificModel: Option<string>,
                            fetch: Fetch, parse: string -> Option<real>, data: SpecData, e: WeightError)
    requires make != "" && model != ""
    requires fetch(y, make, model) == Success(data)
    requires ExtractWeight(data, specificModel, parse) == Failure(e)
    ensures ApiGetVehicleWeight(Some(IntToString(y)), Some(make), Some(model), specificModel, VehicleLookup(fetch, parse))
         == Reply(500, Error(Message(e)))
  {
    assert VehicleLookup(fetch, parse)(y, make, model, specificModel) == Failure(Message(e));
    DecimalYearAccepted(y, make, model, specificModel, VehicleLookup(fetch, parse));
  }

  /** A successful extraction reaches the client as a 200 carrying the weight. */
  lemma ExtractorSuccessIs200(y: int, make: string, model: string, specificModel: Option<string>,
                              fetch: Fetch, parse: string -> Option<real>, data: SpecData, w: real)
    requires make != "" && model != ""
    requires fetch(y, make, model) == Success(data)
    requires ExtractWeight(data, specificModel, parse) == Success(w)
    ensures ApiGetVehicleWeight(Some(IntToString(y)), Some(make), Some(model), specificModel, VehicleLookup(fetch, parse))
         == Reply(200, CurbWeight(w))
  {
    assert VehicleLookup(fetch, parse)(y, make, model, specificModel) == Success(w);
    DecimalYearAccepted(y, make, model, specificModel, VehicleLookup(fetch, parse));
  }

  /** A request that passes validation gets the lookup's outcome: 200 with the weight, or 500 with the message. */
  lemma ValidatedRequest(year: Option<string>, make: Option<string>, model: Option<string>,
                         specificModel: Option<string>, lookup: Lookup, y: int)
    requires Truthy(year) && Truthy(make) && Truthy(model) && ParseInt(year.value) == Some(y)
    ensures var r := ApiGetVehicleWeight(year, make, model, specificModel, lookup);
      match lookup(y, make.value, model.value, specificModel)
      case Success(w) => r == Reply(200, CurbWeight(w))
      case Failure(e) => r == Reply(500, Error(e))
  {
  }

  /** `str(2015) == "2015"`. */
  lemma RenderYear2015()
    ensures IntToString(2015) == "2015"
  {
    assert NatToString(2) == "2";
    assert NatToString(20) == "20";
    assert NatToString(201) == "201";
  }

  /** `int("2015") == 2015`. */
  lemma ParseYear2015()
    ensures ParseInt("2015") == Some(2015)
  {
    RenderYear2015();
    ParseIntRoundTrip(2015);
  }

  /** The example's lookup succeeds with 3.3. */
  lemma CorollaLookup(fetch: Fetch, parse: string -> Option<real>)
    requires fetch(2015, "Toyota", "Corolla")
          == Success(SpecData(Some(1), Some([Candidate(Some([Spec(Some("CW"), Some("3000"))]))])))
    requires parse("3000") == Some(3000.0)
    ensures VehicleLookup(fetch, parse)(2015, "Toyota", "Corolla", None) == Success(3.3)
  {
    SingleResultExample(parse, None);
  }

  /**
   * The end-to-end example: year 2015, Toyota Corolla, a lookup returning one
   * result whose only spec is `CW` = "3000", answers 200 `{"CurbWeight": 3.3}`.
   */
  lemma CorollaExample(fetch: Fetch, parse: string -> Option<real>)
    requires fetch(2015, "Toyota", "Corolla")
          == Success(SpecData(Some(1), Some([Candidate(Some([Spec(Some("CW"), Some("3000"))]))])))
    requires parse("3000") == Some(3000.0)
    ensures ApiGetVehicleWeight(Some("2015"), Some("Toyota"), Some("Corolla"), None, VehicleLookup(fetch, parse))
         == Reply(200, CurbWeight(3.3))
  {
    ParseYear2015();
    CorollaLookup(fetch, parse);
    ValidatedRequest(Some("2015"), Some("Toyota"), Some("Corolla"), None, VehicleLookup(fetch, parse), 2015);
  }
}
