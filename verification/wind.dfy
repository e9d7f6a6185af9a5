/** The wind description of `WeatherBot.send_weather_report`: five labels
    for a wind speed in mph, with strict upper bounds 5, 12, 20 and 30. */
module Wind {
  import Thresholds

  datatype WindLabel = Calm | LightBreeze | ModerateBreeze | StrongBreeze | VeryWindy

  /** 0 for Calm up to 4 for Very windy. */
  function Strength(l: WindLabel): nat {
    match l
    case Calm => 0
    case LightBreeze => 1
    case ModerateBreeze => 2
    case StrongBreeze => 3
    case VeryWindy => 4
  }

  /** The text shown for each label. */
  function LabelText(l: WindLabel): string {
    match l
    case Calm => "Calm"
    case LightBreeze => "Light breeze"
    case ModerateBreeze => "Moderate breeze"
    case StrongBreeze => "Strong breeze"
    case VeryWindy => "Very windy"
  }

  /** The speeds (mph) at which the next label starts. */
  const LabelBounds: seq<real> := [5.0, 12.0, 20.0, 30.0]

  /** The chain of `<` tests; the label's strength is the number of label
      bounds the speed has reached. */
  function Describe(mph: real): (l: WindLabel)
    ensures Strength(l) == Thresholds.Rank(LabelBounds, mph)
  {
    var l :=
      if mph < 5.0 then Calm
      else if mph < 12.0 then LightBreeze
      else if mph < 20.0 then ModerateBreeze
      else if mph < 30.0 then StrongBreeze
      else VeryWindy;
    Thresholds.RankInterval(LabelBounds, mph, Strength(l));
    l
  }

  /** Each label covers exactly its half-open speed interval. */
  lemma DescribeIntervals(mph: real)
    ensures Describe(mph) == Calm <==> mph < 5.0
    ensures Describe(mph) == LightBreeze <==> 5.0 <= mph < 12.0
    ensures Describe(mph) == ModerateBreeze <==> 12.0 <= mph < 20.0
    ensures Describe(mph) == StrongBreeze <==> 20.0 <= mph < 30.0
    ensures Describe(mph) == VeryWindy <==> 30.0 <= mph
  {
    Thresholds.RankLocates(LabelBounds, mph);
  }

  /** More wind never gives a calmer label. */
  lemma DescribeMonotone(s1: real, s2: real)
    requires s1 <= s2
    ensures Strength(Describe(s1)) <= Strength(Describe(s2))
  {
    Thresholds.RankMonotone(LabelBounds, s1, s2);
  }

  /** Different labels read differently. */
  lemma LabelTextsDistinct(l1: WindLabel, l2: WindLabel)
    requires l1 != l2
    ensures LabelText(l1) != LabelText(l2)
  {
    assert LabelText(l1)[0] != LabelText(l2)[0] || |LabelText(l1)| != |LabelText(l2)|;
  }
}
