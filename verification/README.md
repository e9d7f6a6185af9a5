# DressToWeather advisory rules in Dafny

DressToWeather is a Discord bot (`WeatherBot`) that looks up the current
weather for a city and answers with a report: the temperature in °F, a wind
description, the condition text and an outfit suggestion. This project models
the deterministic part of that bot and proves its boundary behaviour:

- the outfit rules engine (`get_outfit_suggestion` with its nested
  `get_fem_style` and `get_masc_style`): eight temperature bands with
  inclusive lower bounds 90, 80, 70, 60, 50, 40 and 30 °F, and at most one
  extra line for rain (split on wind above 20 mph), snow, or high wind alone;
- the case-insensitive substring test the rules use (`str.lower()` followed
  by `str.find(...) != -1`);
- the wind description of `send_weather_report` (strict upper bounds 5, 12,
  20 and 30 mph) and its unit conversions (`c * 9/5 + 32`, `s * 2.237`);
- the `setlocation` command's update of the `user_locations` table, which is
  written only when the weather lookup for the city succeeded.

Modules, one per concept of the bot:

| file | module | models |
|---|---|---|
| optional.dfy | `Optional` | the "payload or nothing" answer of the weather lookup |
| text.dfy | `Text` | ASCII lower-casing and `str.find` |
| thresholds.dfy | `Thresholds` | rank of a value among ascending inclusive bounds: the reference both classifiers are proved against |
| outfit.dfy | `Outfit` | bands, outfit lines, weather additions, the suggestion text |
| lines.dfy | `Lines` | the suggestion read line by line: at most one addition line, told apart by its emoji |
| wind.dfy | `Wind` | the five wind labels |
| units.dfy | `Units` | Celsius→Fahrenheit and m/s→mph |
| report.dfy | `Report` | the values `send_weather_report` computes from an observation |
| locations.dfy | `Locations` | the `setlocation` table update and its reply |

Each classifier is written as the source's chain of comparisons and proved
equal to an independent reference: the band or label whose position is the
number of bounds the value has reached (`Thresholds.Rank`). Every temperature
therefore lies in exactly one band, and both style functions pick the same one.

## Model

| member | source | states |
|---|---|---|
| Text.LowerChar | weatherbot.py:78 | lower-casing leaves no upper-case ASCII letter, maps each letter A..Z to the letter at the same place in a..z, and changes nothing else |
| Text.Lower | weatherbot.py:78 | `lower()` keeps the length and lower-cases each character in place |
| Text.LowerIgnoresCase | weatherbot.py:78-83 | strings that differ only in letter case lower-case to the same string |
| Text.FindFrom | weatherbot.py:78 | searching from an index answers the first occurrence at or after it, or -1 exactly when there is none |
| Text.Find | weatherbot.py:78 | `find` answers -1 exactly when the needle occurs nowhere, otherwise an index where it occurs with no earlier occurrence |
| Outfit.BandOf | weatherbot.py:37-53 | every temperature lies in exactly one of the eight bands, each band covering its inclusive lower bound up to the next band's bound |
| Outfit.FemBand | weatherbot.py:37-53 | the `>=` chain of `get_fem_style` lands on the reference band of the temperature |
| Outfit.MascBand | weatherbot.py:55-71 | the separate `>=` chain of `get_masc_style` lands on the same reference band |
| Outfit.FemStyle | weatherbot.py:37-53 | the feminine line is the one of the reference band of the temperature |
| Outfit.MascStyle | weatherbot.py:55-71 | the masculine line is the one of the same reference band |
| Outfit.StylesAgreeOnBand | weatherbot.py:73-74 | the two separate chains pick the same band for every temperature |
| Outfit.BandBoundaries | weatherbot.py:38-53 | 90 is in the hottest band and 89.999 in the next one down; the hottest band is exactly `>= 90` and the coldest exactly `< 30` |
| Outfit.BandMonotone | weatherbot.py:37-71 | a higher temperature never yields a colder band |
| Outfit.RainTakesPrecedence | weatherbot.py:78-82 | a condition mentioning rain gets the wind-and-rain line above 20 mph and the plain-rain line otherwise, whatever else it mentions |
| Outfit.WeatherAddition | weatherbot.py:77-86 | each of the five outcomes (wind and rain, rain, snow, high wind, none) happens exactly under its own condition; snow only without rain, high wind only without rain or snow |
| Outfit.SnowIgnoresWind | weatherbot.py:83-84 | the snow line does not depend on the wind speed |
| Outfit.NoWindLineAtLimit | weatherbot.py:79-86 | at exactly 20 mph neither wind-driven line is added |
| Outfit.AdditionIgnoresCase | weatherbot.py:78-83 | conditions that differ only in letter case get the same addition |
| Outfit.ShoutedRainIsRain | weatherbot.py:78-82 | "Light RAIN" is handled as "light rain": wind-and-rain above 20 mph, plain rain otherwise |
| Outfit.AdditionText | weatherbot.py:77-86 | the appended text is empty exactly when no rule fired; otherwise it is a new indented line whose emoji right after the indentation identifies the addition |
| Outfit.Suggestion | weatherbot.py:88 | the suggestion is the feminine line and the masculine line of the reference band of the temperature, followed by the text of the chosen addition |
| Lines.SuggestionLines | weatherbot.py:73-88 | the suggestion has the feminine and the masculine line of the reference band, plus a third and last line exactly when some rule fired, and that line is the chosen addition; there are never more than three lines |
| Lines.SuggestionIsItsLines | weatherbot.py:88 | writing those lines one after the other gives exactly the suggestion text |
| Lines.AdditionLineStandsApart | weatherbot.py:80-88 | an addition line's text differs from both outfit lines and from every other addition's text |
| Lines.AtMostOneAddition | weatherbot.py:77-88 | any addition line in the suggestion is the one the rules chose, so at most one is appended |
| Lines.NoLineReadsLikeOtherAddition | weatherbot.py:77-88 | for an addition the rules did not choose, no line of the suggestion has its text |
| Lines.WindyRainAtSeventy | weatherbot.py:42-88 | at 70 °F, "light rain" and 25 mph the lines are the warm band's two lines then the wind-and-rain line; no line is the plain-rain line or has its text |
| Wind.Describe | weatherbot.py:104-114 | the label's strength is the number of the bounds 5, 12, 20, 30 the speed has reached |
| Wind.DescribeIntervals | weatherbot.py:104-114 | Calm below 5, Light breeze in [5,12), Moderate breeze in [12,20), Strong breeze in [20,30), Very windy from 30, each as an if-and-only-if |
| Wind.DescribeMonotone | weatherbot.py:104-114 | more wind never gives a calmer label |
| Wind.LabelTextsDistinct | weatherbot.py:106-114 | the five label texts are pairwise different |
| Units.CelsiusToFahrenheit | weatherbot.py:99-100 | converting to Fahrenheit is undone by the inverse conversion |
| Units.FahrenheitRoundTrip | weatherbot.py:99 | converting a Fahrenheit value to Celsius and back gives it again |
| Units.FahrenheitLandmarks | weatherbot.py:99 | 0 °C is 32 °F, 100 °C is 212 °F, -40 is the same on both scales |
| Units.MetresPerSecondToMph | weatherbot.py:101 | the mph value is non-negative for a non-negative speed and converts back to the m/s value |
| Units.ConversionsStrictlyIncreasing | weatherbot.py:99-101 | both conversions are strictly increasing |
| Report.Summarise | weatherbot.py:98-114 | the report's °F and mph values convert back to the observation's metric values; the wind label and the outfit are computed from those converted values and the observation's description |
| Report.BandBoundsInCelsius | weatherbot.py:99-103 | a Fahrenheit band bound is reached exactly when the Celsius reading reaches the converted bound; hottest band from 290/9 °C, coldest below -10/9 °C |
| Report.WindLimitInMetresPerSecond | weatherbot.py:101-106 | the 20 mph wind rule fires exactly above 20/2.237 m/s, and Calm is exactly below 5/2.237 m/s |
| Locations.SetLocation | weatherbot.py:151-156 | a successful lookup records the city for the author and confirms; a failed one rejects and leaves the table unchanged; no other user's entry changes and only the author's key can be added |
| Locations.ReplyTextsDistinct | weatherbot.py:154-156 | the confirmation names the recorded city, so different cities get different confirmations, and it never reads like the rejection |
| Locations.SetLocationIdempotent | weatherbot.py:151-153 | repeating the same registration changes nothing further |
| Locations.LastRegistrationWins | weatherbot.py:151-153 | of two successful registrations by one user, the later city is kept |
| Locations.FailedLookupKeepsEarlierCity | weatherbot.py:151-156 | a rejected location does not erase the city recorded earlier |
| Locations.DistinctUsersCommute | weatherbot.py:153 | registrations by two different users give the same table in either order |

## Left out

- The Discord client, bot construction, command and event wiring, `bot.run`
  and sending messages to channels or direct messages: I/O through a foreign
  library.
- `get_weather`: an HTTP request to the OpenWeatherMap service. Its result
  is an input (`Option<Observation>`). The source tests the answer's Python
  truthiness, so a successful but empty JSON object would count as a failure;
  `None` in the model stands for every falsy answer.
- The `weather` command: a lookup followed by sending the report, all I/O
  around `Report.Summarise` and `Outfit.Suggestion`.
- `check_weather`, the fixed 24-hour background loop over all registered
  users: timer and async plumbing with no per-user time of day.
- The report message itself (emoji text, `:.1f` rounding of the values):
  float-to-text formatting. `Report.Summarise` stops at the values shown.
- Report.BandBoundsInCelsius and Report.WindLimitInMetresPerSecond are
  stated for the conversions `Report.Summarise` applies, not for the
  `Summarise` record itself.
- `weather[0]` of an answer with an empty `weather` list raises an error in
  the source; the model takes the description as a field of the observation.
- Environment and credential loading (`dotenv`, `os.getenv`).
- Units.CelsiusToFahrenheit: exact rational arithmetic, so results can differ
  from Python's IEEE doubles in the last bits; NaN and infinities are not
  modelled.
- Units.MetresPerSecondToMph: exact rational arithmetic (2.237 is 2237/1000),
  so results can differ from Python's IEEE doubles in the last bits.
- Lines.WindyRainAtSeventy: states the absence of the plain-rain text line
  by line (no line of the suggestion is the plain-rain line or has its
  text), not as the absence of a substring anywhere in the suggestion,
  because a character-level search through the long outfit texts is beyond
  what the verifier settles within its resource bound.
- Text.LowerChar: lower-cases ASCII letters only, where Python's
  `str.lower()` follows the full Unicode case mapping.
