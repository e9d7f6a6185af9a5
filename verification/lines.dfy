/** The outfit suggestion read line by line: the text of
    `get_outfit_suggestion` is two outfit lines and at most one addition
    line, and the lines tell the additions apart. */
module Lines {
  import opened Outfit

  /** One line of the suggestion. */
  datatype Line = Feminine(band: Band) | Masculine(band: Band) | Extra(addition: Addition)

  /** The text of one line (each carries its own leading line break). */
  function LineText(l: Line): string {
    match l
    case Feminine(b) => FemLabel + FemText(b)
    case Masculine(b) => MascLabel + MascText(b)
    case Extra(a) => AdditionText(a)
  }

  /** The text of a list of lines, one after the other. */
  function Render(lines: seq<Line>): string {
    if lines == [] then [] else LineText(lines[0]) + Render(lines[1..])
  }

  /** A hint for the solver: appending nothing leaves a string as it is. */
  lemma AppendNothing(s: string)
    ensures s + [] == s
  {
  }

  lemma RenderPair(x: Line, y: Line)
    ensures Render([x, y]) == LineText(x) + LineText(y)
  {
    assert [x, y][1..] == [y];
    assert [y][1..] == [];
    assert Render([y]) == LineText(y) + [];
    AppendNothing(LineText(y));
  }

  lemma RenderTriple(x: Line, y: Line, z: Line)
    ensures Render([x, y, z]) == LineText(x) + LineText(y) + LineText(z)
  {
    assert [x, y, z][1..] == [y, z];
    RenderPair(y, z);
  }

  /** The suggestion read as its lines: the feminine and the masculine line
      of the reference band and, only when some rule fired, the one
      addition line. */
  function SuggestionLines(temp: real, condition: string, windMph: real): (lines: seq<Line>)
    ensures |lines| == 2 <==> WeatherAddition(condition, windMph) == NoAddition
    ensures |lines| == 3 ==> lines[2] == Extra(WeatherAddition(condition, windMph))
    ensures |lines| == if WeatherAddition(condition, windMph) == NoAddition then 2 else 3
    ensures lines[0] == Feminine(BandOf(temp))
    ensures lines[1] == Masculine(BandOf(temp))
  {
    var a := WeatherAddition(condition, windMph);
    if a == NoAddition then
      [Feminine(FemBand(temp)), Masculine(MascBand(temp))]
    else
      [Feminine(FemBand(temp)), Masculine(MascBand(temp)), Extra(a)]
  }

  /** Writing out the lines gives the suggestion text. */
  lemma SuggestionIsItsLines(temp: real, condition: string, windMph: real)
    ensures Render(SuggestionLines(temp, condition, windMph)) == Suggestion(temp, condition, windMph)
  {
    var lines := SuggestionLines(temp, condition, windMph);
    var a := WeatherAddition(condition, windMph);
    if a == NoAddition {
      assert lines == [lines[0], lines[1]];
      RenderPair(lines[0], lines[1]);
      AppendNothing(LineText(lines[0]) + LineText(lines[1]));
    } else {
      assert lines == [lines[0], lines[1], lines[2]];
      RenderTriple(lines[0], lines[1], lines[2]);
    }
  }

  /** An addition line's text differs from the text of every other line
      (its emoji right after the indentation is not the dress, the necktie
      or another addition's), so the text of the suggestion shows which
      single addition was chosen. */
  lemma AdditionLineStandsApart(a: Addition, other: Line)
    requires a != NoAddition
    requires other != Extra(a)
    ensures LineText(Extra(a)) != LineText(other)
  {
    match other
    case Feminine(b) => MarkerAfterLabels(a, FemText(b));
    case Masculine(b) => MarkerAfterLabels(a, MascText(b));
    case Extra(a') => AdditionTextsDistinct(a, a');
  }

  /** Helper for `AdditionLineStandsApart`: different additions have
      different texts. */
  lemma AdditionTextsDistinct(a: Addition, a': Addition)
    requires a != NoAddition
    requires a' != a
    ensures AdditionText(a) != AdditionText(a')
  {
    if a' == NoAddition {
      assert |AdditionText(a')| == 0 < |AdditionText(a)|;
    } else {
      assert Marker(a) != Marker(a');
      MarkedLinesDiffer(Marker(a), AdditionBody(a), Marker(a'), AdditionBody(a'));
    }
  }

  /** Helper for `AdditionLineStandsApart`: an addition line starts with a
      different emoji than a line behind either outfit label. */
  lemma MarkerAfterLabels(a: Addition, style: string)
    requires a != NoAddition
    ensures AdditionText(a) != FemLabel + style
    ensures AdditionText(a) != MascLabel + style
  {
    assert (FemLabel + style)[|LineIndent|] == '\U{1F457}';
    assert (MascLabel + style)[|LineIndent|] == '\U{1F454}';
  }

  /** Lines whose emoji after the indentation differ are different. */
  lemma MarkedLinesDiffer(m1: char, body1: string, m2: char, body2: string)
    requires m1 != m2
    ensures LineIndent + [m1] + body1 != LineIndent + [m2] + body2
  {
    MarkedLineLayout(m1, body1);
    MarkedLineLayout(m2, body2);
  }

  /** At most one addition line is appended: any addition line of the
      suggestion is the one the rules chose. */
  lemma AtMostOneAddition(temp: real, condition: string, windMph: real, a: Addition)
    requires Extra(a) in SuggestionLines(temp, condition, windMph)
    ensures a == WeatherAddition(condition, windMph)
    ensures a != NoAddition
  {
  }

  /** An addition the rules did not choose cannot be read anywhere in the
      suggestion: no line has its text. */
  lemma NoLineReadsLikeOtherAddition(temp: real, condition: string, windMph: real, a: Addition)
    requires a != NoAddition
    requires a != WeatherAddition(condition, windMph)
    ensures forall l :: l in SuggestionLines(temp, condition, windMph) ==> LineText(l) != AdditionText(a)
  {
    forall l | l in SuggestionLines(temp, condition, windMph)
      ensures LineText(l) != AdditionText(a)
    {
      AdditionLineStandsApart(a, l);
    }
  }

  /** At 70 °F, "light rain" and 25 mph: the warm band's lines followed by
      the wind-and-rain line; no line is, or reads like, the plain-rain
      line. */
  lemma WindyRainAtSeventy()
    ensures BandOf(70.0) == Warm
    ensures WeatherAddition("light rain", 25.0) == WindAndRain
    ensures SuggestionLines(70.0, "light rain", 25.0) == [Feminine(Warm), Masculine(Warm), Extra(WindAndRain)]
    ensures Extra(Rain) !in SuggestionLines(70.0, "light rain", 25.0)
    ensures forall l :: l in SuggestionLines(70.0, "light rain", 25.0) ==> LineText(l) != AdditionText(Rain)
  {
    assert InBand(70.0, Warm);
    LightRainMentionsRain();
    NoLineReadsLikeOtherAddition(70.0, "light rain", 25.0, Rain);
  }
}
