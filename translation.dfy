/*
  The multilingual weather translator: phrase tables in English, Hindi and
  Haryanvi, the temperature and soil-moisture bands used to pick a phrase,
  and the three dictionary transformations built on them (weather data,
  alerts and farming recommendations).
*/
module Translation {
  import opened Wrappers
  import opened Config
  import opened Values
  import opened Sequences

  /** One phrase in the three supported languages. */
  datatype Phrase = Phrase(en: string, hi: string, hr: string)
  {
    /** The phrase in `lang`; every translator language is one of the three. */
    function In(lang: string): string {
      if lang == "hi" then hi else if lang == "hr" then hr else en
    }
  }

  /** A translator fixes the language all its lookups use. */
  datatype Translator = Translator(language: string)

  /** Language selection: an absent or empty preference falls back to the
      configured default, an unsupported one to English. */
  function NewTranslator(preferred: Option<string>): (tr: Translator)
    ensures tr.language in Languages
    ensures (preferred == None || preferred == Some("")) ==> tr.language == DefaultLanguage
    ensures preferred.Some? && preferred.value in Languages ==> tr.language == preferred.value
    ensures preferred.Some? && preferred.value != "" && preferred.value !in Languages ==> tr.language == "en"
  {
    var chosen := if preferred.None? || preferred.value == "" then DefaultLanguage else preferred.value;
    if chosen in Languages then Translator(chosen) else Translator("en")
  }

  // ---------------------------------------------------------------------
  // Phrase tables
  // ---------------------------------------------------------------------

  /** Weather condition phrases, keyed by condition code. */
  function ConditionPhrase(key: string): Option<Phrase> {
    if key == "CLEAR" then Some(Phrase("Clear", "साफ़", "साफ"))
    else if key == "PARTLY_CLOUDY" then Some(Phrase("Partly Cloudy", "आंशिक रूप से बादल", "थोड़े बादल"))
    else if key == "CLOUDY" then Some(Phrase("Cloudy", "बादल", "बादल"))
    else if key == "RAIN" then Some(Phrase("Rain", "बारिश", "बरखा"))
    else if key == "THUNDERSTORM" then Some(Phrase("Thunderstorm", "आंधी", "आंधी"))
    else if key == "FOG" then Some(Phrase("Fog", "कोहरा", "कुहरा"))
    else if key == "HAZE" then Some(Phrase("Haze", "धुंध", "धुंध"))
    else None
  }

  /** Alert type phrases, keyed by alert type code. */
  function AlertPhrase(key: string): Option<Phrase> {
    if key == "FROST" then Some(Phrase("Frost Warning", "पाला चेतावनी", "पाला की चेतावनी"))
    else if key == "HEATWAVE" then Some(Phrase("Heat Wave Warning", "लू की चेतावनी", "लू की चेतावनी"))
    else if key == "HEAVY_RAIN" then Some(Phrase("Heavy Rain Warning", "भारी बारिश की चेतावनी", "तेज बरखा की चेतावनी"))
    else if key == "PEST_RISK" then Some(Phrase("High Pest Risk", "कीट का खतरा", "कीड़े का खतरा"))
    else if key == "DISEASE_RISK" then Some(Phrase("Disease Risk", "बीमारी का खतरा", "बीमारी का खतरा"))
    else None
  }

  /** Farming action phrases, keyed by action code. */
  function ActionPhrase(key: string): Option<Phrase> {
    if key == "IRRIGATE" then Some(Phrase("Irrigation needed", "सिंचाई करें", "पानी देना जरूरी है"))
    else if key == "SPRAY" then Some(Phrase("Suitable for spraying", "छिड़काव के लिए उपयुक्त", "दवाई डालने का टैम है"))
    else if key == "PROTECT" then Some(Phrase("Protect crops", "फसल की रक्षा करें", "फसल की रखवाली करें"))
    else if key == "HARVEST" then Some(Phrase("Good for harvesting", "कटाई के लिए उपयुक्त", "कटाई का बढ़िया टैम है"))
    else None
  }

  /** A table entry in the translator's language; a code the table does not
      know is answered with the code itself. */
  function Localize(entry: Option<Phrase>, tr: Translator, key: string): string {
    match entry
    case Some(p) => p.In(tr.language)
    case None => key
  }

  function WeatherCondition(tr: Translator, condition: string): string {
    Localize(ConditionPhrase(condition), tr, condition)
  }

  function AlertType(tr: Translator, alertType: string): string {
    Localize(AlertPhrase(alertType), tr, alertType)
  }

  function FarmingAction(tr: Translator, action: string): string {
    Localize(ActionPhrase(action), tr, action)
  }

  /** A known code is always replaced by a phrase different from the code,
      and an unknown code is passed through unchanged. */
  lemma LookupReplacesKnownCodes(tr: Translator, key: string)
    ensures ConditionPhrase(key).Some? <==> WeatherCondition(tr, key) != key
    ensures AlertPhrase(key).Some? <==> AlertType(tr, key) != key
    ensures ActionPhrase(key).Some? <==> FarmingAction(tr, key) != key
  {
  }

  /** No phrase of the alert table is itself an alert code, so translating an
      already translated alert type changes nothing. */
  lemma AlertTypeIdempotent(tr: Translator, key: string)
    ensures AlertType(tr, AlertType(tr, key)) == AlertType(tr, key)
  {
    if AlertPhrase(key).Some? {
      var text := AlertType(tr, key);
      assert AlertPhrase(text) == None;
    }
  }

  /** The same holds for weather conditions. */
  lemma WeatherConditionIdempotent(tr: Translator, key: string)
    ensures WeatherCondition(tr, WeatherCondition(tr, key)) == WeatherCondition(tr, key)
  {
    if ConditionPhrase(key).Some? {
      var text := WeatherCondition(tr, key);
      assert ConditionPhrase(text) == None;
    }
  }

  /** The three recommendation phrases differ in every language, so a
      recommendation list says unambiguously which actions it contains. */
  lemma ActionPhrasesDistinct(tr: Translator)
    ensures FarmingAction(tr, "IRRIGATE") != FarmingAction(tr, "SPRAY")
    ensures FarmingAction(tr, "IRRIGATE") != FarmingAction(tr, "PROTECT")
    ensures FarmingAction(tr, "SPRAY") != FarmingAction(tr, "PROTECT")
  {
  }

  // ---------------------------------------------------------------------
  // Temperature and soil-moisture bands
  // ---------------------------------------------------------------------

  datatype TemperatureBand = VeryCold | Cold | Moderate | Warm | Hot
  {
    function Rank(): nat {
      match this
      case VeryCold => 0
      case Cold => 1
      case Moderate => 2
      case Warm => 3
      case Hot => 4
    }

    function Text(): Phrase {
      match this
      case VeryCold => Phrase("Very Cold", "बहुत ठंडा", "बहुत ठंडा")
      case Cold => Phrase("Cold", "ठंडा", "ठंडा")
      case Moderate => Phrase("Moderate", "सामान्य", "ठीक")
      case Warm => Phrase("Warm", "गरम", "गरम")
      case Hot => Phrase("Hot", "बहुत गरम", "तपत")
    }
  }

  /** Each band is closed at its upper bound: 5, 15, 25 and 35 degrees. */
  function TemperatureBandOf(t: real): (b: TemperatureBand)
    ensures b == VeryCold <==> t <= 5.0
    ensures b == Cold <==> 5.0 < t <= 15.0
    ensures b == Moderate <==> 15.0 < t <= 25.0
    ensures b == Warm <==> 25.0 < t <= 35.0
    ensures b == Hot <==> 35.0 < t
  {
    if t <= 5.0 then VeryCold
    else if t <= 15.0 then Cold
    else if t <= 25.0 then Moderate
    else if t <= 35.0 then Warm
    else Hot
  }

  /** A warmer reading never falls in a colder band. */
  lemma TemperatureBandMonotone(t1: real, t2: real)
    requires t1 <= t2
    ensures TemperatureBandOf(t1).Rank() <= TemperatureBandOf(t2).Rank()
  {
  }

  function TemperatureDescription(tr: Translator, t: real): string {
    TemperatureBandOf(t).Text().In(tr.language)
  }

  /** Ten degrees is described as cold in English. */
  lemma TenDegreesIsCold()
    ensures TemperatureDescription(Translator("en"), 10.0) == "Cold"
  {
  }

  datatype SoilBand = Dry | Moist | Wet
  {
    function Text(): Phrase {
      match this
      case Dry => Phrase("Dry soil - irrigation needed", "सूखी मिट्टी - सिंचाई की आवश्यकता है", "सूखी माटी - पानी की जरूरत है")
      case Moist => Phrase("Good soil moisture", "अच्छी नमी", "बढ़िया नमी")
      case Wet => Phrase("Wet soil - avoid irrigation", "गीली मिट्टी - सिंचाई न करें", "गीली माटी - पानी ना दें")
    }
  }

  /** Dry below the low soil-moisture threshold, wet above the high one. */
  function SoilBandOf(m: real): (b: SoilBand)
    ensures b == Dry <==> m < LowSoilMoisture
    ensures b == Wet <==> m > HighSoilMoisture
    ensures b == Moist <==> LowSoilMoisture <= m <= HighSoilMoisture
  {
    if m < 30.0 then Dry else if m > 70.0 then Wet else Moist
  }

  function SoilCondition(tr: Translator, m: real): string {
    SoilBandOf(m).Text().In(tr.language)
  }

  // ---------------------------------------------------------------------
  // Dictionary transformations
  // ---------------------------------------------------------------------

  /** A condition value is translated when it is a string; any other value
      is not a table key and is kept as it is. */
  function TranslateConditionValue(tr: Translator, v: Value): Value {
    match v
    case Text(s) => Text(WeatherCondition(tr, s))
    case _ => v
  }

  function TranslateAlertValue(tr: Translator, v: Value): Value {
    match v
    case Text(s) => Text(AlertType(tr, s))
    case _ => v
  }

  /** Keys whose values the weather-data translation may write. */
  predicate WeatherDataKey(k: string) {
    k == "weather_condition" || k == "temperature_description" || k == "soil_condition"
  }

  /** Translates a weather-data dictionary. A temperature or soil moisture
      that is not a number cannot be compared with a band bound: the result
      is the error naming the key. */
  function TranslateWeatherData(tr: Translator, data: Dict): (r: Result<Dict, string>)
    ensures r.Err? <==> (("temperature" in data && !data["temperature"].Num?)
                         || ("soil_moisture" in data && !data["soil_moisture"].Num?))
    ensures r.Err? && "temperature" in data && !data["temperature"].Num? ==> r.error == "temperature"
    ensures r.Ok? ==> r.value.Keys == data.Keys
                        + (if "temperature" in data then {"temperature_description"} else {})
                        + (if "soil_moisture" in data then {"soil_condition"} else {})
    ensures r.Ok? ==> forall k :: k in data && !WeatherDataKey(k) ==> k in r.value && r.value[k] == data[k]
    ensures r.Ok? && "weather_condition" in data ==>
              r.value["weather_condition"] == TranslateConditionValue(tr, data["weather_condition"])
    ensures r.Ok? && "temperature" in data ==>
              r.value["temperature_description"] == Text(TemperatureDescription(tr, data["temperature"].n))
    ensures r.Ok? && "temperature" !in data && "temperature_description" in data ==>
              r.value["temperature_description"] == data["temperature_description"]
    ensures r.Ok? && "soil_moisture" in data ==>
              r.value["soil_condition"] == Text(SoilCondition(tr, data["soil_moisture"].n))
    ensures r.Ok? && "soil_moisture" !in data && "soil_condition" in data ==>
              r.value["soil_condition"] == data["soil_condition"]
  {
    var d1 := if "weather_condition" in data
              then data["weather_condition" := TranslateConditionValue(tr, data["weather_condition"])]
              else data;
    if "temperature" in d1 && !d1["temperature"].Num? then Err("temperature")
    else
      var d2 := if "temperature" in d1
                then d1["temperature_description" := Text(TemperatureDescription(tr, d1["temperature"].n))]
                else d1;
      if "soil_moisture" in d2 && !d2["soil_moisture"].Num? then Err("soil_moisture")
      else
        var d3 := if "soil_moisture" in d2
                  then d2["soil_condition" := Text(SoilCondition(tr, d2["soil_moisture"].n))]
                  else d2;
        Ok(d3)
  }

  /** Translates an alert dictionary: the alert type is translated, and a
      missing description is filled with the translated alert type. With
      neither key present the lookup of the alert type fails. */
  function TranslateAlert(tr: Translator, data: Dict): (r: Result<Dict, string>)
    ensures r.Err? <==> "alert_type" !in data && "description" !in data
    ensures r.Ok? ==> r.value.Keys == data.Keys + {"description"}
    ensures r.Ok? ==> forall k :: k in data && k != "alert_type" && k != "description" ==>
                        r.value[k] == data[k]
    ensures r.Ok? && "alert_type" in data ==>
              r.value["alert_type"] == TranslateAlertValue(tr, data["alert_type"])
    ensures r.Ok? && "description" in data ==> r.value["description"] == data["description"]
    ensures r.Ok? && "description" !in data ==>
              r.value["description"] == r.value["alert_type"]
    // the description is the translated type, not a translation of the translation
    ensures r.Ok? && "description" !in data ==>
              r.value["description"] == TranslateAlertValue(tr, data["alert_type"])
  {
    var d1 := if "alert_type" in data
              then data["alert_type" := TranslateAlertValue(tr, data["alert_type"])]
              else data;
    if "description" in d1 then Ok(d1)
    else if "alert_type" !in d1 then Err("alert_type")
    else
      var described := TranslateAlertValue(tr, d1["alert_type"]);
      AlertValueIdempotent(tr, data["alert_type"]);
      Ok(d1["description" := described])
  }

  lemma AlertValueIdempotent(tr: Translator, v: Value)
    ensures TranslateAlertValue(tr, TranslateAlertValue(tr, v)) == TranslateAlertValue(tr, v)
  {
    if v.Text? {
      AlertTypeIdempotent(tr, v.s);
    }
  }

  const RecommendationOrder: seq<string> := ["IRRIGATE", "SPRAY", "PROTECT"]

  /** The action codes a weather reading calls for, in the fixed order
      irrigate, spray, protect. Missing readings default to soil moisture 0,
      wind speed 0, no rain and 20 degrees; a present reading that is not a
      number cannot be compared and yields the error naming its key. */
  function RecommendationCodes(data: Dict): (r: Result<seq<string>, string>)
    ensures var soil := Get(data, "soil_moisture", Num(0.0));
            var wind := Get(data, "wind_speed", Num(0.0));
            var temp := Get(data, "temperature", Num(20.0));
            (r.Err? <==> !soil.Num? || (soil.Num? && !wind.Num?) || (soil.Num? && wind.Num? && !temp.Num?))
            && (r.Ok? ==>
                  IsSubsequence(r.value, RecommendationOrder)
                  && ("IRRIGATE" in r.value <==> soil.n < LowSoilMoisture)
                  && ("SPRAY" in r.value <==> wind.n < 15.0 && !Truthy(Get(data, "rainfall", Num(0.0))))
                  && ("PROTECT" in r.value <==> temp.n <= 5.0))
  {
    var soil := Get(data, "soil_moisture", Num(0.0));
    if !soil.Num? then Err("soil_moisture")
    else
      var wind := Get(data, "wind_speed", Num(0.0));
      if !wind.Num? then Err("wind_speed")
      else
        var temp := Get(data, "temperature", Num(20.0));
        if !temp.Num? then Err("temperature")
        else
          var irrigate := soil.n < 30.0;
          var spray := wind.n < 15.0 && !Truthy(Get(data, "rainfall", Num(0.0)));
          var protect := temp.n <= 5.0;
          var flags := [irrigate, spray, protect];
          SelectDistinct(flags, RecommendationOrder, 0);
          SelectDistinct(flags, RecommendationOrder, 1);
          SelectDistinct(flags, RecommendationOrder, 2);
          Ok(Select(flags, RecommendationOrder))
  }

  function TranslateAll(tr: Translator, codes: seq<string>): (r: seq<string>)
    ensures |r| == |codes|
    ensures forall i :: 0 <= i < |codes| ==> r[i] == FarmingAction(tr, codes[i])
  {
    if |codes| == 0 then [] else [FarmingAction(tr, codes[0])] + TranslateAll(tr, codes[1..])
  }

  /** Farming recommendations in the translator's language: at most three
      phrases, each present exactly when its condition holds. */
  function Recommendations(tr: Translator, data: Dict): (r: Result<seq<string>, string>)
    ensures r.Err? <==> RecommendationCodes(data).Err?
    ensures r.Ok? ==> r.value == TranslateAll(tr, RecommendationCodes(data).value)
    ensures r.Ok? ==> |r.value| <= 3
    ensures r.Ok? ==>
              var soil := Get(data, "soil_moisture", Num(0.0)).n;
              (FarmingAction(tr, "IRRIGATE") in r.value <==> soil < LowSoilMoisture)
    ensures r.Ok? ==>
              var calm := Get(data, "wind_speed", Num(0.0)).n < 15.0;
              var dry := !Truthy(Get(data, "rainfall", Num(0.0)));
              (FarmingAction(tr, "SPRAY") in r.value <==> calm && dry)
    ensures r.Ok? ==>
              var temp := Get(data, "temperature", Num(20.0)).n;
              (FarmingAction(tr, "PROTECT") in r.value <==> temp <= 5.0)
  {
    match RecommendationCodes(data)
    case Err(e) => Err(e)
    case Ok(codes) =>
      RecommendationPhrases(tr, codes);
      Ok(TranslateAll(tr, codes))
  }

  lemma RecommendationPhrases(tr: Translator, codes: seq<string>)
    requires IsSubsequence(codes, RecommendationOrder)
    ensures |TranslateAll(tr, codes)| <= 3
    ensures FarmingAction(tr, "IRRIGATE") in TranslateAll(tr, codes) <==> "IRRIGATE" in codes
    ensures FarmingAction(tr, "SPRAY") in TranslateAll(tr, codes) <==> "SPRAY" in codes
    ensures FarmingAction(tr, "PROTECT") in TranslateAll(tr, codes) <==> "PROTECT" in codes
  {
    SubsequenceBounds(codes, RecommendationOrder);
    assert forall c :: c in RecommendationOrder ==> c == "IRRIGATE" || c == "SPRAY" || c == "PROTECT";
    CodeOfPhrase(tr, codes, "IRRIGATE");
    CodeOfPhrase(tr, codes, "SPRAY");
    CodeOfPhrase(tr, codes, "PROTECT");
  }

  /** Over the three recommendation codes, a phrase is in the translated
      list exactly when its code is in the code list. */
  lemma CodeOfPhrase(tr: Translator, codes: seq<string>, c: string)
    requires forall d :: d in codes ==> d == "IRRIGATE" || d == "SPRAY" || d == "PROTECT"
    requires c == "IRRIGATE" || c == "SPRAY" || c == "PROTECT"
    ensures FarmingAction(tr, c) in TranslateAll(tr, codes) <==> c in codes
  {
    ActionPhrasesDistinct(tr);
    var r := TranslateAll(tr, codes);
    if c in codes {
      var i :| 0 <= i < |codes| && codes[i] == c;
      assert r[i] == FarmingAction(tr, c);
    }
    if FarmingAction(tr, c) in r {
      var i :| 0 <= i < |r| && r[i] == FarmingAction(tr, c);
      var d := codes[i];
      assert d in codes;
      assert FarmingAction(tr, d) == FarmingAction(tr, c);
      assert d == c;
    }
  }
}
