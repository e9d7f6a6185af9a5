/** The computed part of `WeatherBot.send_weather_report`: from the weather
    service's metric observation to the values the report shows. */
module Report {
  import Units
  import Wind
  import Outfit

  /** The fields of the weather service's answer the report reads. */
  datatype Observation = Observation(
    tempC: real,          // main.temp
    feelsLikeC: real,     // main.feels_like
    windMetresPerSecond: real, // wind.speed
    description: string   // weather[0].description
  )

  /** What the report shows, before it is formatted as text. */
  datatype ReportFacts = ReportFacts(
    tempF: real,
    feelsLikeF: real,
    windMph: real,
    wind: Wind.WindLabel,
    condition: string,
    outfit: string
  )

  /** Convert the temperatures and wind speed, describe the wind and ask
      the rules engine for an outfit using the converted values. */
  function Summarise(o: Observation): (r: ReportFacts)
    ensures Units.FahrenheitToCelsius(r.tempF) == o.tempC
    ensures Units.FahrenheitToCelsius(r.feelsLikeF) == o.feelsLikeC
    ensures Units.MphToMetresPerSecond(r.windMph) == o.windMetresPerSecond
    ensures r.condition == o.description
    ensures r.wind == Wind.Describe(r.windMph)
    ensures r.outfit == Outfit.Suggestion(r.tempF, r.condition, r.windMph)
  {
    var tempF := Units.CelsiusToFahrenheit(o.tempC);
    var windMph := Units.MetresPerSecondToMph(o.windMetresPerSecond);
    ReportFacts(
      tempF,
      Units.CelsiusToFahrenheit(o.feelsLikeC),
      windMph,
      Wind.Describe(windMph),
      o.description,
      Outfit.Suggestion(tempF, o.description, windMph))
  }

  /** The band boundaries read in Celsius, for the Fahrenheit value
      `Summarise` hands to the rules: a band's lower bound is reached
      exactly when the Celsius reading reaches the converted bound (90 °F
      is 290/9 °C, 30 °F is -10/9 °C). */
  lemma BandBoundsInCelsius(tempC: real, boundF: real)
    ensures Units.CelsiusToFahrenheit(tempC) >= boundF <==> tempC >= Units.FahrenheitToCelsius(boundF)
    ensures Outfit.BandOf(Units.CelsiusToFahrenheit(tempC)) == Outfit.Scorching <==> tempC >= 290.0 / 9.0
    ensures Outfit.BandOf(Units.CelsiusToFahrenheit(tempC)) == Outfit.Freezing <==> tempC < -10.0 / 9.0
  {
    Outfit.BandBoundaries(Units.CelsiusToFahrenheit(tempC));
  }

  /** The rules engine's 20 mph wind limit is 20/2.237 m/s in the service's
      units, and the Calm label ends at 5/2.237 m/s, for the mph value
      `Summarise` hands to the rules. */
  lemma WindLimitInMetresPerSecond(metresPerSecond: real)
    ensures Units.MetresPerSecondToMph(metresPerSecond) > Outfit.HighWind
      <==> metresPerSecond > Outfit.HighWind / Units.MphPerMetrePerSecond
    ensures Wind.Describe(Units.MetresPerSecondToMph(metresPerSecond)) == Wind.Calm
      <==> metresPerSecond < 5.0 / Units.MphPerMetrePerSecond
  {
    Wind.DescribeIntervals(Units.MetresPerSecondToMph(metresPerSecond));
  }
}
