/** The outfit rules engine of `WeatherBot.get_outfit_suggestion`: a
    temperature band chosen by inclusive Fahrenheit lower bounds, one feminine
    and one masculine outfit line per band, and at most one extra line for
    rain, snow or high wind. */
module Outfit {
  import Text
  import Thresholds

  /** The eight temperature bands, hottest first. */
  datatype Band = Scorching | Hot | Warm | Mild | Cool | Chilly | Cold | Freezing

  /** 0 for the coldest band up to 7 for the hottest. */
  function Warmth(b: Band): nat {
    match b
    case Freezing => 0
    case Cold => 1
    case Chilly => 2
    case Cool => 3
    case Mild => 4
    case Warm => 5
    case Hot => 6
    case Scorching => 7
  }

  /** The inclusive lower bounds of the bands above the coldest, in °F. */
  const BandBounds: seq<real> := [30.0, 40.0, 50.0, 60.0, 70.0, 80.0, 90.0]

  /** Band `b` covers the temperatures at or above its lower bound and below
      the next band's lower bound. */
  predicate InBand(temp: real, b: Band) {
    && (Warmth(b) == 0 || BandBounds[Warmth(b) - 1] <= temp)
    && (Warmth(b) == 7 || temp < BandBounds[Warmth(b)])
  }

  /** The band of warmth `w` (the inverse of `Warmth`). */
  function BandOfWarmth(w: nat): (b: Band)
    requires w <= 7
    ensures Warmth(b) == w
  {
    [Freezing, Cold, Chilly, Cool, Mild, Warm, Hot, Scorching][w]
  }

  /** Reference classification: the band whose warmth is the number of band
      bounds the temperature has reached.  Every temperature lies in exactly
      this one band. */
  function BandOf(temp: real): (b: Band)
    ensures InBand(temp, b)
    ensures forall other: Band :: InBand(temp, other) ==> other == b
  {
    Thresholds.RankLocates(BandBounds, temp);
    BandOfWarmth(Thresholds.Rank(BandBounds, temp))
  }

  /** The feminine outfit line of each band. */
  function FemText(b: Band): string {
    match b
    case Scorching => "Lightweight sundresses, breezy tank tops, loose shorts, hair up in a messy bun or braids for coolness. Consider moisture-wicking fabrics."
    case Hot => "Flowy midi dresses, cropped tops with high-waisted shorts, light skirts with breathable tops. Consider a light kimono for sun protection."
    case Warm => "A-line dresses with short sleeves, culottes with blouses, cotton jumpsuits. Add a light cardigan for evening."
    case Mild => "Midi skirts with light sweaters, shirt dresses with tights, cropped trousers with fitted tops. Layer with a denim jacket or blazer."
    case Cool => "Sweater dresses with boots, layered tops with ponte pants, long skirts with turtlenecks. Add a trench coat or light wool coat."
    case Chilly => "Wool dresses with thermal tights, chunky sweaters with lined pants, knee-high boots. Layer with a warm peacoat."
    case Cold => "Insulated leggings under dresses, thermal base layers, chunky knit sweaters, waterproof boots. Add a down coat and warm accessories."
    case Freezing => "Heavy thermal layers under warm dresses or pants, insulated boots, maximum layering with wool and down materials."
  }

  /** The masculine outfit line of each band. */
  function MascText(b: Band): string {
    match b
    case Scorching => "Loose cotton shorts, breathable short-sleeve shirts, lightweight chino shorts. Consider moisture-wicking athletic wear."
    case Hot => "Bermuda shorts, polo shirts, light chinos with rolled ankles, breathable button-downs with sleeves rolled."
    case Warm => "Chino shorts or light pants, short-sleeve henley shirts, light cotton button-downs. Add a light pullover for evening."
    case Mild => "Chinos or jeans with long-sleeve tees, casual button-downs, light sweaters. Layer with a light jacket."
    case Cool => "Dark jeans or wool pants, flannel shirts, medium-weight sweaters. Add a quilted jacket or heavy blazer."
    case Chilly => "Heavy jeans or wool trousers, thick sweaters, thermal undershirts. Layer with a wool coat."
    case Cold => "Insulated pants, heavy sweaters with base layers, winter boots. Add a heavy down jacket and warm accessories."
    case Freezing => "Maximum layering with thermal base layer, insulated pants, heavy sweater, and serious winter coat."
  }

  /** The chain of `>=` tests in `get_fem_style`; it lands on the
      reference band. */
  function FemBand(temp: real): (b: Band)
    ensures b == BandOf(temp)
  {
    if temp >= 90.0 then Scorching
    else if temp >= 80.0 then Hot
    else if temp >= 70.0 then Warm
    else if temp >= 60.0 then Mild
    else if temp >= 50.0 then Cool
    else if temp >= 40.0 then Chilly
    else if temp >= 30.0 then Cold
    else Freezing
  }

  /** The separate chain of `>=` tests in `get_masc_style`; it lands on the
      same reference band. */
  function MascBand(temp: real): (b: Band)
    ensures b == BandOf(temp)
  {
    if temp >= 90.0 then Scorching
    else if temp >= 80.0 then Hot
    else if temp >= 70.0 then Warm
    else if temp >= 60.0 then Mild
    else if temp >= 50.0 then Cool
    else if temp >= 40.0 then Chilly
    else if temp >= 30.0 then Cold
    else Freezing
  }

  /** `get_fem_style`: the feminine line of the reference band. */
  function FemStyle(temp: real): (r: string)
    ensures r == FemText(BandOf(temp))
  {
    FemText(FemBand(temp))
  }

  /** `get_masc_style`: the masculine line of the reference band. */
  function MascStyle(temp: real): (r: string)
    ensures r == MascText(BandOf(temp))
  {
    MascText(MascBand(temp))
  }

  /** Both style functions pick the same band for every temperature. */
  lemma StylesAgreeOnBand(temp: real)
    ensures FemBand(temp) == MascBand(temp)
  {
  }

  /** The lower bounds are inclusive: 90 is in the hottest band, a hair
      below 90 is in the next one down, and exactly the temperatures under
      30 are in the coldest. */
  lemma BandBoundaries(temp: real)
    ensures BandOf(90.0) == Scorching
    ensures BandOf(89.999) == Hot
    ensures BandOf(temp) == Scorching <==> temp >= 90.0
    ensures BandOf(temp) == Freezing <==> temp < 30.0
  {
    assert InBand(90.0, Scorching);
    assert InBand(89.999, Hot);
    assert InBand(temp, BandOf(temp));
    if temp < 30.0 {
      assert InBand(temp, Freezing);
    }
    if temp >= 90.0 {
      assert InBand(temp, Scorching);
    }
  }

  /** A higher temperature never yields a colder band. */
  lemma BandMonotone(t1: real, t2: real)
    requires t1 <= t2
    ensures Warmth(BandOf(t1)) <= Warmth(BandOf(t2))
  {
    Thresholds.RankLocates(BandBounds, t1);
    Thresholds.RankLocates(BandBounds, t2);
    Thresholds.RankMonotone(BandBounds, t1, t2);
  }

  /** The wind speed (mph) above which the wind rules fire; 20 itself does not. */
  const HighWind: real := 20.0

  /** The one extra line the rules may append. */
  datatype Addition = NoAddition | WindAndRain | Rain | Snow | HighWinds

  /** The weather-specific rules: rain first (split on high wind), then
      snow, then high wind alone, matched case-insensitively. */
  function WeatherAddition(condition: string, windMph: real): (a: Addition)
    ensures a == WindAndRain <==> MentionsRain(condition) && windMph > HighWind
    ensures a == Rain <==> MentionsRain(condition) && windMph <= HighWind
    ensures a == Snow <==> !MentionsRain(condition) && MentionsSnow(condition)
    ensures a == HighWinds
      <==> !MentionsRain(condition) && !MentionsSnow(condition) && windMph > HighWind
    ensures a == NoAddition
      <==> !MentionsRain(condition) && !MentionsSnow(condition) && windMph <= HighWind
  {
    var c := Text.Lower(condition);
    if Text.Find(c, "rain") != -1 then
      if windMph > HighWind then WindAndRain else Rain
    else if Text.Find(c, "snow") != -1 then Snow
    else if windMph > HighWind then HighWinds
    else NoAddition
  }

  predicate MentionsRain(condition: string) {
    Text.Contains(Text.Lower(condition), "rain")
  }

  predicate MentionsSnow(condition: string) {
    Text.Contains(Text.Lower(condition), "snow")
  }

  /** The indentation that starts every line of the suggestion. */
  const LineIndent: string := "\n      "

  /** The emoji that opens each addition line. */
  function Marker(a: Addition): char
    requires a != NoAddition
  {
    match a
    case WindAndRain => '\U{26C8}'
    case Rain => '\U{1F327}'
    case Snow => '\U{2744}'
    case HighWinds => '\U{1F4A8}'
  }

  /** The rest of each addition line after its emoji. */
  function AdditionBody(a: Addition): string
    requires a != NoAddition
  {
    match a
    case WindAndRain => "\U{FE0F} Due to wind and rain: Add a waterproof raincoat, avoid umbrellas. Consider waterproof boots and rain pants."
    case Rain => "\U{FE0F} For rain: Bring an umbrella, consider water-resistant shoes."
    case Snow => "\U{FE0F} For snow: Add waterproof boots, warm socks, and snow-appropriate outerwear."
    case HighWinds => " Due to high winds: Add wind-resistant layers, secure loose items."
  }

  /** The text appended for each addition: empty for none, otherwise a
      line of its own whose emoji tells the additions apart. */
  function AdditionText(a: Addition): (r: string)
    ensures r == [] <==> a == NoAddition
    ensures a != NoAddition ==> |r| > |LineIndent| && r[..|LineIndent|] == LineIndent
    ensures a != NoAddition ==> r[|LineIndent|] == Marker(a)
  {
    if a == NoAddition then ""
    else
      MarkedLineLayout(Marker(a), AdditionBody(a));
      LineIndent + [Marker(a)] + AdditionBody(a)
  }

  /** A line built from the indentation, an emoji and a body starts with
      the indentation and has the emoji right after it. */
  lemma MarkedLineLayout(marker: char, body: string)
    ensures |LineIndent + [marker] + body| > |LineIndent|
    ensures (LineIndent + [marker] + body)[..|LineIndent|] == LineIndent
    ensures (LineIndent + [marker] + body)[|LineIndent|] == marker
  {
  }

  const FemLabel: string := LineIndent + "\U{1F457}" + " Feminine style: "
  const MascLabel: string := LineIndent + "\U{1F454}" + " Masculine style: "

  /** `get_outfit_suggestion`: the feminine line, the masculine line, then
      the text of the single weather addition.  Both outfit lines come from
      the reference band of the temperature. */
  function Suggestion(temp: real, condition: string, windMph: real): (r: string)
    ensures r == (FemLabel + FemText(BandOf(temp))) + (MascLabel + MascText(BandOf(temp)))
      + AdditionText(WeatherAddition(condition, windMph))
  {
    (FemLabel + FemStyle(temp)) + (MascLabel + MascStyle(temp))
      + AdditionText(WeatherAddition(condition, windMph))
  }

  /** A condition mentioning rain always gives the rain line, whatever it
      says about snow: the wind-and-rain line above 20 mph, else plain rain. */
  lemma RainTakesPrecedence(condition: string, windMph: real)
    requires MentionsRain(condition)
    ensures windMph > HighWind ==> WeatherAddition(condition, windMph) == WindAndRain
    ensures windMph <= HighWind ==> WeatherAddition(condition, windMph) == Rain
  {
  }

  /** The snow line does not depend on the wind. */
  lemma SnowIgnoresWind(condition: string, w1: real, w2: real)
    requires WeatherAddition(condition, w1) == Snow
    ensures WeatherAddition(condition, w2) == Snow
  {
  }

  /** At exactly 20 mph no wind-driven line is added. */
  lemma NoWindLineAtLimit(condition: string)
    ensures WeatherAddition(condition, HighWind) != WindAndRain
    ensures WeatherAddition(condition, HighWind) != HighWinds
  {
  }

  /** Matching ignores the case of ASCII letters. */
  lemma AdditionIgnoresCase(a: string, b: string, windMph: real)
    requires Text.SameIgnoringCase(a, b)
    ensures WeatherAddition(a, windMph) == WeatherAddition(b, windMph)
  {
    Text.LowerIgnoresCase(a, b);
  }

  /** "light rain" mentions rain. */
  lemma LightRainMentionsRain()
    ensures MentionsRain("light rain")
  {
    Text.LowerKeepsLowercase("light rain");
    Text.ContainsSuffix("light ", "rain");
    assert "light " + "rain" == "light rain";
  }

  /** "Light RAIN" is treated as "light rain": with wind above 20 mph both
      get the wind-and-rain line, otherwise the plain-rain line. */
  lemma ShoutedRainIsRain(windMph: real)
    ensures WeatherAddition("Light RAIN", windMph) == WeatherAddition("light rain", windMph)
    ensures WeatherAddition("Light RAIN", windMph) == (if windMph > HighWind then WindAndRain else Rain)
  {
    assert Text.SameIgnoringCase("Light RAIN", "light rain");
    AdditionIgnoresCase("Light RAIN", "light rain", windMph);
    LightRainMentionsRain();
    RainTakesPrecedence("light rain", windMph);
  }
}
