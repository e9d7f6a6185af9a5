/** The unit conversions of `WeatherBot.send_weather_report`: the weather
    service answers in metric units and the rules work in °F and mph.
    Conversions are exact rationals here. */
module Units {

  /** `c * 9/5 + 32`. */
  function CelsiusToFahrenheit(c: real): (f: real)
    ensures FahrenheitToCelsius(f) == c
  {
    c * 9.0 / 5.0 + 32.0
  }

  /** The inverse conversion, `(f - 32) * 5/9`. */
  function FahrenheitToCelsius(f: real): real {
    (f - 32.0) * 5.0 / 9.0
  }

  /** The factor from metres per second to miles per hour. */
  const MphPerMetrePerSecond: real := 2.237

  /** `s * 2.237`. */
  function MetresPerSecondToMph(s: real): (mph: real)
    ensures MphToMetresPerSecond(mph) == s
    ensures s >= 0.0 ==> mph >= 0.0
  {
    s * MphPerMetrePerSecond
  }

  /** The inverse conversion. */
  function MphToMetresPerSecond(mph: real): real {
    mph / MphPerMetrePerSecond
  }

  /** Water freezes at 32 °F and boils at 212 °F; -40 is the same on both
      scales. */
  lemma FahrenheitLandmarks()
    ensures CelsiusToFahrenheit(0.0) == 32.0
    ensures CelsiusToFahrenheit(100.0) == 212.0
    ensures CelsiusToFahrenheit(-40.0) == -40.0
  {
  }

  /** Both conversions are strictly increasing, so they keep the order of
      the values the threshold rules compare. */
  lemma ConversionsStrictlyIncreasing(a: real, b: real)
    requires a < b
    ensures CelsiusToFahrenheit(a) < CelsiusToFahrenheit(b)
    ensures MetresPerSecondToMph(a) < MetresPerSecondToMph(b)
  {
  }

  /** Converting back from Fahrenheit recovers the Celsius value, and the
      other way round. */
  lemma FahrenheitRoundTrip(f: real)
    ensures CelsiusToFahrenheit(FahrenheitToCelsius(f)) == f
  {
  }
}
