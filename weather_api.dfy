/**
 * `mapCondition` of src/api/weatherApi.js: an OpenWeatherMap condition code
 * (and its `main` label) classified as one of the salon's simple conditions.
 */
module WeatherApi {
  import opened Wrappers

  predicate IsUpper(c: char) {
    'A' <= c <= 'Z'
  }

  /** `String.prototype.toLowerCase` on ASCII letters; every other character is kept. */
  function ToLower(s: string): (r: string)
    ensures |r| == |s|
    ensures forall i :: 0 <= i < |s| ==> !IsUpper(r[i])
    ensures forall i :: 0 <= i < |s| && !IsUpper(s[i]) ==> r[i] == s[i]
    ensures forall i :: 0 <= i < |s| && IsUpper(s[i]) ==> r[i] as int == s[i] as int + 32
  {
    seq(|s|, i requires 0 <= i < |s| => if IsUpper(s[i]) then (s[i] as int + 32) as char else s[i])
  }

  /** The six conditions the numeric ranges produce. */
  predicate IsKnownCondition(c: string) {
    c == "storm" || c == "rain" || c == "snow" || c == "windy" || c == "sunny" || c == "cloudy"
  }

  /**
   * `mapCondition(weatherId, main)`. An absent id (`undefined`) fails every
   * comparison, exactly like an id below 200, and falls through to the label:
   * `main?.toLowerCase() || 'cloudy'`.
   */
  function MapCondition(weatherId: Option<int>, main: Option<string>): (r: string)
    ensures weatherId.Some? && 200 <= weatherId.value < 300 ==> r == "storm"
    ensures weatherId.Some? && 300 <= weatherId.value < 600 ==> r == "rain"
    ensures weatherId.Some? && 600 <= weatherId.value < 700 ==> r == "snow"
    ensures weatherId.Some? && 700 <= weatherId.value < 800 ==> r == "windy"
    ensures weatherId == Some(800) ==> r == "sunny"
    ensures weatherId.Some? && weatherId.value > 800 ==> r == "cloudy"
    ensures (weatherId.None? || weatherId.value < 200) && main.Some? && main.value != "" ==> r == ToLower(main.value)
    ensures (weatherId.None? || weatherId.value < 200) && (main.None? || main.value == "") ==> r == "cloudy"
    ensures r != ""
  {
    if weatherId.Some? && weatherId.value >= 200 && weatherId.value < 300 then "storm"
    else if weatherId.Some? && weatherId.value >= 300 && weatherId.value < 600 then "rain"
    else if weatherId.Some? && weatherId.value >= 600 && weatherId.value < 700 then "snow"
    else if weatherId.Some? && weatherId.value >= 700 && weatherId.value < 800 then "windy"
    else if weatherId == Some(800) then "sunny"
    else if weatherId.Some? && weatherId.value > 800 then "cloudy"
    else
      var lowered := if main.Some? then ToLower(main.value) else "";
      if lowered != "" then lowered else "cloudy"
  }

  /** A half-open range of condition codes and the condition it stands for. */
  datatype Band = Band(low: int, high: int, condition: string)

  /** OpenWeatherMap's code groups as the salon reads them: thunderstorm, drizzle and rain, snow, atmosphere, clear. */
  const Bands: seq<Band> := [
    Band(200, 300, "storm"), Band(300, 600, "rain"), Band(600, 700, "snow"),
    Band(700, 800, "windy"), Band(800, 801, "sunny")]

  predicate InBand(b: Band, code: int) {
    b.low <= code < b.high
  }

  /** No code lies in two bands, so at most one branch of the if-chain can apply. */
  lemma BandsDisjoint()
    ensures forall i, j, code :: 0 <= i < j < |Bands| && InBand(Bands[i], code) ==> !InBand(Bands[j], code)
  {
  }

  /**
   * The if-chain agrees with the table: a code from 200 up maps to the
   * condition of the one band holding it, and to "cloudy" above all bands.
   */
  lemma MapConditionMatchesBands(code: int, main: Option<string>)
    requires code >= 200
    ensures forall i :: 0 <= i < |Bands| && InBand(Bands[i], code) ==> MapCondition(Some(code), main) == Bands[i].condition
    ensures (forall i :: 0 <= i < |Bands| ==> !InBand(Bands[i], code)) ==> MapCondition(Some(code), main) == "cloudy"
  {
    if code > 800 {
      assert forall i :: 0 <= i < |Bands| ==> !InBand(Bands[i], code);
    } else if code < 300 {
      assert InBand(Bands[0], code);
    } else if code < 600 {
      assert InBand(Bands[1], code);
    } else if code < 700 {
      assert InBand(Bands[2], code);
    } else if code < 800 {
      assert InBand(Bands[3], code);
    } else {
      assert InBand(Bands[4], code);
    }
  }

  /**
   * Every code from 200 up lands in exactly one of the six conditions and the
   * label is ignored; below 200 the result is the lower-cased label or "cloudy".
   */
  lemma MapConditionTotal(weatherId: int, main: Option<string>, otherMain: Option<string>)
    ensures weatherId >= 200 ==> IsKnownCondition(MapCondition(Some(weatherId), main))
    ensures weatherId >= 200 ==> MapCondition(Some(weatherId), main) == MapCondition(Some(weatherId), otherMain)
    ensures weatherId < 200 ==> MapCondition(Some(weatherId), main) == MapCondition(None, main)
  {
  }
}
