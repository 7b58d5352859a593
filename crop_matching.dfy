/*
  Crop recommendation matching: the stored recommendations whose soil type
  and season equal the request's and whose rainfall and temperature lie
  within 100 and 5 units of the request's, best success rate first.
*/
module CropMatching {
  import opened Wrappers
  import opened Values
  import opened Sequences

  /** A stored recommendation: a crop that succeeded under these
      conditions at this rate. */
  datatype Recommendation = Recommendation(cropId: int, soilType: string, season: string,
                                           rainfall: real, temperature: real, successRate: real)

  /** Why a request is answered without recommendations: a parameter is
      missing (a bad request), or it has a kind the matching does not
      accept. */
  datatype RecommendError = MissingParameters | UnsupportedParameter(field: string)

  /** The matching tolerances. */
  const RainfallTolerance: real := 100.0
  const TemperatureTolerance: real := 5.0

  /** The four request fields, in the order they are read. */
  const RequestFields: seq<string> := ["soil_type", "season", "rainfall", "temperature"]

  function Distance(a: real, b: real): real {
    if a >= b then a - b else b - a
  }

  /** The conditions of one lookup, once the request has been read. */
  datatype Conditions = Conditions(soilType: string, season: string, rainfall: real, temperature: real)

  /** The bounds the lookup compares against, written as lower and upper
      limits around the requested values. */
  predicate Matches(r: Recommendation, c: Conditions) {
    && r.soilType == c.soilType
    && r.season == c.season
    && r.rainfall <= c.rainfall + RainfallTolerance
    && r.rainfall >= c.rainfall - RainfallTolerance
    && r.temperature <= c.temperature + TemperatureTolerance
    && r.temperature >= c.temperature - TemperatureTolerance
  }

  /** Higher success rate first. */
  predicate RateBefore(a: Recommendation, b: Recommendation) {
    a.successRate >= b.successRate
  }

  lemma RateOrderIsTotalPreorder()
    ensures TotalPreorder(RateBefore)
  {
  }

  /** The matching recommendations, best success rate first. */
  function Matching(records: seq<Recommendation>, c: Conditions): (r: seq<Recommendation>)
    ensures forall x :: x in r <==> (&& x in records && x.soilType == c.soilType && x.season == c.season
                                     && Distance(x.rainfall, c.rainfall) <= RainfallTolerance
                                     && Distance(x.temperature, c.temperature) <= TemperatureTolerance)
    ensures forall i, j :: 0 <= i < j < |r| ==> r[i].successRate >= r[j].successRate
    ensures multiset(r) == multiset(Filter(records, (x: Recommendation) => Matches(x, c)))
  {
    var selected := Filter(records, (x: Recommendation) => Matches(x, c));
    RateOrderIsTotalPreorder();
    var r := Sort(selected, RateBefore);
    forall x ensures x in r <==> x in selected {
      SortKeepsMembers(selected, RateBefore, x);
    }
    r
  }

  /** A request parameter is there as the matching code checks it: present
      and truthy. */
  predicate TruthyField(request: Dict, key: string) {
    Truthy(Get(request, key, Null))
  }

  /** Reads the conditions once every parameter is known to be given:
      soil type and season as texts, rainfall and temperature as numbers. */
  function ReadConditions(request: Dict): (r: Result<Conditions, RecommendError>)
    ensures r.Ok? <==> && Get(request, "soil_type", Null).Text?
                       && Get(request, "season", Null).Text?
                       && Get(request, "rainfall", Null).Num?
                       && Get(request, "temperature", Null).Num?
    ensures r.Ok? ==> r.value == Conditions(Get(request, "soil_type", Null).s, Get(request, "season", Null).s,
                                            Get(request, "rainfall", Null).n, Get(request, "temperature", Null).n)
    ensures r.Err? ==> r.error.UnsupportedParameter? && r.error.field in RequestFields
  {
    var soil, season := Get(request, "soil_type", Null), Get(request, "season", Null);
    var rain, temp := Get(request, "rainfall", Null), Get(request, "temperature", Null);
    if !soil.Text? then Err(UnsupportedParameter("soil_type"))
    else if !season.Text? then Err(UnsupportedParameter("season"))
    else if !rain.Num? then Err(UnsupportedParameter("rainfall"))
    else if !temp.Num? then Err(UnsupportedParameter("temperature"))
    else Ok(Conditions(soil.s, season.s, rain.n, temp.n))
  }

  /** The recommend action as written: every parameter must be truthy, so
      a rainfall or a temperature of zero counts as missing. */
  function RecommendAsWritten(records: seq<Recommendation>, request: Dict): (r: Result<seq<Recommendation>, RecommendError>)
    ensures r == Err(MissingParameters) <==> exists k :: k in RequestFields && !TruthyField(request, k)
    ensures r.Ok? ==> ReadConditions(request).Ok? && r.value == Matching(records, ReadConditions(request).value)
  {
    if !(forall k :: k in RequestFields ==> TruthyField(request, k)) then Err(MissingParameters)
    else
      match ReadConditions(request)
      case Err(e) => Err(e)
      case Ok(c) => Ok(Matching(records, c))
  }

  /** A parameter counts as given when it is present, not null and not the
      empty text; a numeric zero is a value like any other. */
  predicate Given(request: Dict, key: string) {
    var v := Get(request, key, Null);
    v != Null && v != Text("")
  }

  /** The recommend action with the presence check it evidently intends:
      a missing parameter is a bad request, a zero rainfall or temperature
      is looked up. */
  function Recommend(records: seq<Recommendation>, request: Dict): (r: Result<seq<Recommendation>, RecommendError>)
    ensures r == Err(MissingParameters) <==> exists k :: k in RequestFields && !Given(request, k)
    ensures r.Ok? ==> ReadConditions(request).Ok? && r.value == Matching(records, ReadConditions(request).value)
  {
    if !(forall k :: k in RequestFields ==> Given(request, k)) then Err(MissingParameters)
    else
      match ReadConditions(request)
      case Err(e) => Err(e)
      case Ok(c) => Ok(Matching(records, c))
  }

  /** Whenever the recommend action as written answers, the corrected one
      gives the same answer; the two differ only where a zero was taken
      for a missing value. */
  lemma RecommendExtendsAsWritten(records: seq<Recommendation>, request: Dict)
    requires RecommendAsWritten(records, request).Ok?
    ensures Recommend(records, request) == RecommendAsWritten(records, request)
  {
    forall k | k in RequestFields
      ensures Given(request, k)
    {
      assert TruthyField(request, k);
    }
  }

  /** A request for a dry season is refused as written and looked up by
      the corrected action. */
  lemma ZeroRainfallRefused(records: seq<Recommendation>)
    ensures var request := map["soil_type" := Text("loamy"), "season" := Text("rabi"),
                               "rainfall" := Num(0.0), "temperature" := Num(18.0)];
            && RecommendAsWritten(records, request) == Err(MissingParameters)
            && Recommend(records, request) == Ok(Matching(records, Conditions("loamy", "rabi", 0.0, 18.0)))
  {
    var request := map["soil_type" := Text("loamy"), "season" := Text("rabi"),
                       "rainfall" := Num(0.0), "temperature" := Num(18.0)];
    assert request["rainfall"] == Num(0.0);
    assert RequestFields[2] == "rainfall" && !TruthyField(request, "rainfall");
    forall k | k in RequestFields
      ensures Given(request, k)
    {
      assert k == "soil_type" || k == "season" || k == "rainfall" || k == "temperature";
    }
    assert ReadConditions(request) == Ok(Conditions("loamy", "rabi", 0.0, 18.0));
  }

  /** The first recommendation has the best success rate of all matches. */
  lemma BestFirst(records: seq<Recommendation>, c: Conditions, x: Recommendation)
    requires x in records && Matches(x, c)
    ensures |Matching(records, c)| > 0 && Matching(records, c)[0].successRate >= x.successRate
  {
    var r := Matching(records, c);
    assert x in r;
    var i :| 0 <= i < |r| && r[i] == x;
    if i > 0 {
      assert r[0].successRate >= r[i].successRate;
    }
  }
}
