/**
 * What the composer promises, proved about the step functions of `Weather`:
 * the bucket boundaries of every step, the at-most-one and exactly-one
 * guarantees, step order, when the composer fails, and that the published
 * message splits back into the report.
 */
module WeatherProperties {
  import opened Results
  import opened Weather
  import Messages

  /** Temperature bands are half-open `[lo, hi)`, the last one open-ended. */
  lemma TemperatureBands(t: real)
    ensures TemperatureSentence(t) == BelowFreezing <==> t < 0.0
    ensures TemperatureSentence(t) == Freezing <==> 0.0 <= t < 10.0
    ensures TemperatureSentence(t) == Chilly <==> 10.0 <= t < 20.0
    ensures TemperatureSentence(t) == Nice <==> 20.0 <= t < 30.0
    ensures TemperatureSentence(t) == ReallyHot <==> 30.0 <= t < 40.0
    ensures TemperatureSentence(t) == Sweltering <==> 40.0 <= t
  {
  }

  /** At most one humidity sentence; fog whenever the dew point exceeds the temperature. */
  lemma HumidityBands(t: real, d: real)
    ensures |HumiditySentences(t, d)| <= 1
    ensures HumiditySentences(t, d) == [VeryFoggy] <==> d > t
    ensures HumiditySentences(t, d) == [SomewhatHumid] <==> d <= t && 15.0 < d < 21.0
    ensures HumiditySentences(t, d) == [ReallyHumid] <==> d <= t && 21.0 <= d < 26.0
    ensures HumiditySentences(t, d) == [BrutalHumidity] <==> d <= t && 26.0 <= d
    ensures HumiditySentences(t, d) == [] <==> d <= t && d <= 15.0
  {
  }

  /** The nine direction labels: the eight compass points and "variable". */
  const DirectionLabels: set<string> :=
    {Variable, North, NorthEast, East, SouthEast, South, SouthWest, West, NorthWest}

  /** Each direction gets one label; 0 is variable and north wraps around 340. */
  lemma DirectionBands(d: int)
    ensures DirectionLabel(d) in DirectionLabels
    ensures DirectionLabel(d) == Variable <==> d == 0
    ensures DirectionLabel(d) == North <==> (d != 0 && d < 20) || 340 <= d
    ensures DirectionLabel(d) == NorthEast <==> 20 <= d < 70
    ensures DirectionLabel(d) == East <==> 70 <= d < 110
    ensures DirectionLabel(d) == SouthEast <==> 110 <= d < 160
    ensures DirectionLabel(d) == South <==> 160 <= d < 200
    ensures DirectionLabel(d) == SouthWest <==> 200 <= d < 250
    ensures DirectionLabel(d) == West <==> 250 <= d < 290
    ensures DirectionLabel(d) == NorthWest <==> 290 <= d < 340
  {
  }

  /** Speed bands in knots. */
  lemma SpeedBands(s: int)
    ensures SpeedLabel(s) == Calm <==> s < 2
    ensures SpeedLabel(s) == Breezy <==> 2 <= s < 5
    ensures SpeedLabel(s) == KindOfWindy <==> 5 <= s < 10
    ensures SpeedLabel(s) == Strong <==> 10 <= s < 15
    ensures SpeedLabel(s) == VeryStrong <==> 15 <= s
  {
  }

  /** True when `s` begins with `prefix`. */
  predicate StartsWith(s: string, prefix: string)
  {
    |prefix| <= |s| && s[..|prefix|] == prefix
  }

  /** True when `s` ends with `suffix`. */
  predicate EndsWith(s: string, suffix: string)
  {
    |suffix| <= |s| && s[|s| - |suffix|..] == suffix
  }

  /**
   * The wind sentence opens with "Winds are ", ends with a period, and its
   * text before the period ends in " and gusty" exactly when the gust is over
   * 20 knots.
   */
  lemma WindSentenceShape(d: int, s: int, g: int)
    ensures StartsWith(WindSentence(d, s, g), WindOpening)
    ensures EndsWith(WindSentence(d, s, g), Period)
    ensures EndsWith(WindSentence(d, s, g), Gusty + Period) <==> g > GustThreshold
  {
    var w := WindSentence(d, s, g);
    var body := WindOpening + DirectionLabel(d) + WindJoint + SpeedLabel(s);
    assert w[..|WindOpening|] == WindOpening;
    if g > GustThreshold {
      assert w == body + (Gusty + Period);
      assert w[|w| - |Gusty + Period|..] == Gusty + Period;
    } else {
      assert w == body + Period;
      var speedText := SpeedLabel(s);
      assert w == (WindOpening + DirectionLabel(d) + WindJoint) + (speedText + Period);
      // Every speed label is at least four letters long and none has 'u'
      // fourth from its end, where " and gusty." has it.
      assert |speedText| >= 4 && speedText[|speedText| - 4] != 'u';
      assert w[|w| - 5] == speedText[|speedText| - 4];
    }
  }

  /** A wind sentence appears exactly when the wind is not calm, and the absent gust counts as 0. */
  lemma WindPresence(obs: Observation)
    ensures |WindSentences(obs)| <= 1
    ensures WindSentences(obs) != [] <==> !(obs.windDirection == 0 && obs.windSpeed == 0)
    ensures obs.windGust == None && !IsCalm(obs) ==>
      WindSentences(obs) == [WindSentence(obs.windDirection, obs.windSpeed, 0)]
  {
  }

  /** The sky-cover codes that produce a sentence. */
  const KnownCovers: set<string> := {"CLR", "SKC", "FEW", "SCT", "BKN", "OVC"}

  /** CLR and SKC agree, the known codes give one sentence each, any other code gives none. */
  lemma SkyCodes(cover: string)
    ensures |SkySentences(cover)| <= 1
    ensures SkySentences(cover) != [] <==> cover in KnownCovers
    ensures SkySentences("CLR") == SkySentences("SKC") == [ClearSky]
  {
  }

  /** CLR, FEW, SCT, BKN and OVC give five different sentences. */
  lemma CloudCodesDistinct(a: string, b: string)
    requires a in {"CLR", "FEW", "SCT", "BKN", "OVC"} && b in {"CLR", "FEW", "SCT", "BKN", "OVC"}
    requires a != b
    ensures SkySentences(a) != SkySentences(b)
  {
  }

  /** Rain wins when the spread is under 2; fog needs a spread under 5 and visibility under 2. */
  lemma PrecipitationRules(t: real, d: real, v: Option<real>)
    ensures PrecipitationSentences(t, d, v).Failure? <==> 2.0 <= t - d < 5.0 && v.None?
    ensures PrecipitationSentences(t, d, v) == Success([Raining]) <==> t - d < 2.0
    ensures PrecipitationSentences(t, d, v) == Success([PrettyFoggy]) <==>
      2.0 <= t - d < 5.0 && v.Some? && v.value < 2.0
    ensures PrecipitationSentences(t, d, v) == Success([]) <==>
      5.0 <= t - d || (2.0 <= t - d && v.Some? && 2.0 <= v.value)
    ensures PrecipitationSentences(t, d, v).Success? ==> |PrecipitationSentences(t, d, v).value| <= 1
  {
  }

  /** Outside the fog band the visibility is never looked at. */
  lemma PrecipitationIgnoresVisibility(t: real, d: real, v: Option<real>, w: Option<real>)
    requires !(2.0 <= t - d < 5.0)
    ensures PrecipitationSentences(t, d, v) == PrecipitationSentences(t, d, w)
  {
  }

  /** The composer fails only when the fog rule needs a visibility it does not have. */
  lemma ReportFailure(obs: Observation)
    ensures Report(obs).Failure? <==>
      2.0 <= obs.temperature - obs.dewPoint < 5.0 && obs.visibility.None?
  {
  }

  // Each sentence the composer can produce belongs to exactly one step.
  const TemperatureTexts: set<string> := {BelowFreezing, Freezing, Chilly, Nice, ReallyHot, Sweltering}
  const HumidityTexts: set<string> := {VeryFoggy, SomewhatHumid, ReallyHumid, BrutalHumidity}
  const SkyTexts: set<string> := {ClearSky, FewClouds, LittleCloudy, CloudCover, Overcast}
  const PrecipitationTexts: set<string> := {Raining, PrettyFoggy}

  /** The step (1 to 5) that a sentence belongs to, judged by its text alone; 0 for no step. */
  function StepOf(s: string): (k: int)
    ensures 0 <= k <= 5
  {
    if StartsWith(s, WindOpening) then 3
    else if s in TemperatureTexts then 1
    else if s in HumidityTexts then 2
    else if s in SkyTexts then 4
    else if s in PrecipitationTexts then 5
    else 0
  }

  /** A sentence that does not start with 'W' is not a wind sentence. */
  lemma NotWind(s: string)
    requires |s| > 0 && s[0] != 'W'
    ensures !StartsWith(s, WindOpening)
  {
    if |WindOpening| <= |s| {
      assert s[..|WindOpening|][0] == s[0];
    }
  }

  /** Every sentence of `part` belongs to step `k`, and there is at most one. */
  predicate OneOfStep(part: seq<string>, k: int)
  {
    |part| <= 1 && forall x | x in part :: StepOf(x) == k
  }

  lemma TemperatureStep(t: real)
    ensures StepOf(TemperatureSentence(t)) == 1
  {
    NotWind(TemperatureSentence(t));
  }

  lemma HumidityStep(t: real, d: real)
    ensures OneOfStep(HumiditySentences(t, d), 2)
  {
    if HumiditySentences(t, d) != [] {
      NotWind(HumiditySentences(t, d)[0]);
    }
  }

  lemma WindStep(obs: Observation)
    ensures OneOfStep(WindSentences(obs), 3)
  {
    WindSentenceShape(obs.windDirection, obs.windSpeed, GustKnots(obs.windGust));
  }

  lemma SkyStep(cover: string)
    ensures OneOfStep(SkySentences(cover), 4)
  {
    var k := SkySentences(cover);
    if k != [] {
      assert k[0] in SkyTexts;
      assert k[0][0] == 'T' || k[0][0] == 'I';
      NotWind(k[0]);
    }
  }

  lemma PrecipitationStep(t: real, d: real, v: Option<real>)
    requires PrecipitationSentences(t, d, v).Success?
    ensures OneOfStep(PrecipitationSentences(t, d, v).value, 5)
  {
    var p := PrecipitationSentences(t, d, v).value;
    if p != [] {
      NotWind(p[0]);
    }
  }

  /** The steps of the sentences strictly increase along `r`. */
  predicate InStepOrder(r: seq<string>)
  {
    forall i, j | 0 <= i < j < |r| :: StepOf(r[i]) < StepOf(r[j])
  }

  /** Appending at most one sentence of a later step keeps step order. */
  lemma AppendStep(a: seq<string>, b: seq<string>, k: int)
    requires InStepOrder(a) && forall x | x in a :: StepOf(x) < k
    requires OneOfStep(b, k)
    ensures InStepOrder(a + b) && forall x | x in a + b :: StepOf(x) <= k
  {
    forall i, j | 0 <= i < j < |a + b|
      ensures StepOf((a + b)[i]) < StepOf((a + b)[j])
    {
      assert (a + b)[i] == a[i] && a[i] in a;
      if j < |a| {
        assert (a + b)[j] == a[j];
      } else {
        assert (a + b)[j] == b[j - |a|] && b[j - |a|] in b;
      }
    }
  }

  /**
   * The report keeps step order: between one and five sentences, each of a
   * step 1 to 5, steps strictly increasing, and the temperature sentence
   * first and only first.
   */
  lemma ReportOrder(obs: Observation)
    requires Report(obs).Success?
    ensures 1 <= |Report(obs).value| <= 5
    ensures Report(obs).value[0] == TemperatureSentence(obs.temperature)
    ensures forall i | 0 <= i < |Report(obs).value| :: 1 <= StepOf(Report(obs).value[i]) <= 5
    ensures InStepOrder(Report(obs).value)
    ensures StepOf(Report(obs).value[0]) == 1
    ensures forall i | 0 < i < |Report(obs).value| :: StepOf(Report(obs).value[i]) != 1
  {
    var t, d := obs.temperature, obs.dewPoint;
    var r0 := [TemperatureSentence(t)];
    TemperatureStep(t);
    var r1 := r0 + HumiditySentences(t, d);
    HumidityStep(t, d);
    AppendStep(r0, HumiditySentences(t, d), 2);
    var r2 := r1 + WindSentences(obs);
    WindStep(obs);
    AppendStep(r1, WindSentences(obs), 3);
    var r3 := r2 + SkySentences(obs.skyCover);
    SkyStep(obs.skyCover);
    AppendStep(r2, SkySentences(obs.skyCover), 4);
    var p := PrecipitationSentences(t, d, obs.visibility).value;
    PrecipitationStep(t, d, obs.visibility);
    AppendStep(r3, p, 5);
    var r := Report(obs).value;
    assert r == r3 + p;
    assert forall i | 0 < i < |r| :: StepOf(r[0]) < StepOf(r[i]);
    forall i | 0 <= i < |r|
      ensures 1 <= StepOf(r[i])
    {
      if i > 0 {
        assert StepOf(r[0]) < StepOf(r[i]);
      }
    }
  }

  /**
   * No two spaces in a row, with a trailing space allowed: the part of
   * `Messages.Clean` that survives gluing pieces together.  A string is
   * `Clean` exactly when it is `SingleSpaced` and does not end in a space.
   */
  predicate SingleSpaced(s: string)
  {
    forall i | 0 <= i < |s| - 1 :: s[i] == ' ' ==> s[i + 1] != ' '
  }

  lemma CleanIsSingleSpaced(x: string)
    ensures Messages.Clean(x) <==> SingleSpaced(x) && (|x| == 0 || x[|x| - 1] != ' ')
  {
  }

  /** Gluing two single-spaced pieces keeps single spacing unless both meet in a space. */
  lemma Glue(a: string, b: string)
    requires SingleSpaced(a) && SingleSpaced(b)
    requires |a| == 0 || |b| == 0 || a[|a| - 1] != ' ' || b[0] != ' '
    ensures SingleSpaced(a + b)
  {
    var ab := a + b;
    forall i | 0 <= i < |ab| - 1 && ab[i] == ' '
      ensures ab[i + 1] != ' '
    {
      if i + 1 < |a| {
        assert ab[i] == a[i] && ab[i + 1] == a[i + 1];
      } else if i + 1 == |a| {
        assert ab[i] == a[|a| - 1] && ab[i + 1] == b[0];
      } else {
        assert ab[i] == b[i - |a|] && ab[i + 1] == b[i + 1 - |a|];
      }
    }
  }

  /** A non-empty `Messages.Clean` piece that also does not start with a space. */
  predicate Word(x: string)
  {
    SingleSpaced(x) && |x| > 0 && x[0] != ' ' && x[|x| - 1] != ' '
  }

  lemma DirectionWord(d: int)
    ensures Word(DirectionLabel(d))
  {
    assert Word(Variable) && Word(North) && Word(NorthEast) by {}
    assert Word(East) && Word(SouthEast) && Word(South) by {}
    assert Word(SouthWest) && Word(West) && Word(NorthWest) by {}
  }

  lemma SpeedWord(s: int)
    ensures Word(SpeedLabel(s))
  {
    assert Word(Calm) && Word(Breezy) && Word(KindOfWindy) by {}
    assert Word(Strong) && Word(VeryStrong) by {}
  }

  /** The wind sentence survives joining and splitting. */
  lemma WindSentenceClean(d: int, s: int, g: int)
    ensures Messages.Clean(WindSentence(d, s, g))
  {
    var direction, speed := DirectionLabel(d), SpeedLabel(s);
    var gust := if g > GustThreshold then Gusty else "";
    assert SingleSpaced(WindOpening) && SingleSpaced(WindJoint) && SingleSpaced(Gusty) by {}
    DirectionWord(d);
    SpeedWord(s);
    Glue(WindOpening, direction);
    var a := WindOpening + direction;
    assert a[|a| - 1] == direction[|direction| - 1];
    Glue(a, WindJoint);
    var b := a + WindJoint;
    Glue(b, speed);
    var c := b + speed;
    assert c[|c| - 1] == speed[|speed| - 1];
    Glue(c, gust);
    var e := c + gust;
    assert e[|e| - 1] != ' ' by {
      if gust == "" { assert e == c; } else { assert e[|e| - 1] == gust[|gust| - 1]; }
    }
    Glue(e, Period);
    var w := e + Period;
    assert w == WindSentence(d, s, g);
    assert w[|w| - 1] == '.';
  }

  lemma TemperatureClean(t: real)
    ensures Messages.Clean(TemperatureSentence(t))
  {
    assert Messages.Clean(BelowFreezing) by {}
    assert Messages.Clean(Freezing) by {}
    assert Messages.Clean(Chilly) by {}
    assert Messages.Clean(Nice) by {}
    assert Messages.Clean(ReallyHot) by {}
    assert Messages.Clean(Sweltering) by {}
  }

  lemma HumidityClean(t: real, d: real)
    ensures forall x | x in HumiditySentences(t, d) :: Messages.Clean(x)
  {
    FogAndHumidClean();
    StrongHumidityClean();
  }

  lemma FogAndHumidClean()
    ensures Messages.Clean(VeryFoggy) && Messages.Clean(SomewhatHumid)
  {
  }

  lemma StrongHumidityClean()
    ensures Messages.Clean(ReallyHumid) && Messages.Clean(BrutalHumidity)
  {
  }

  lemma SkyClean(cover: string)
    ensures forall x | x in SkySentences(cover) :: Messages.Clean(x)
  {
    ClearAndFewClean();
    CloudyClean();
  }

  lemma ClearAndFewClean()
    ensures Messages.Clean(ClearSky) && Messages.Clean(FewClouds)
  {
    Messages.CleanConcat(FewCloudsStart, FewCloudsEnd);
  }

  lemma CloudyClean()
    ensures Messages.Clean(LittleCloudy) && Messages.Clean(CloudCover) && Messages.Clean(Overcast)
  {
  }

  lemma PrecipitationClean(t: real, d: real, v: Option<real>)
    requires PrecipitationSentences(t, d, v).Success?
    ensures forall x | x in PrecipitationSentences(t, d, v).value :: Messages.Clean(x)
  {
    assert Messages.Clean(Raining) by {}
    assert Messages.Clean(PrettyFoggy) by {}
  }

  /** All sentences of `part` survive joining and splitting. */
  predicate AllClean(part: seq<string>)
  {
    forall x | x in part :: Messages.Clean(x)
  }

  /** Every sentence of the report survives joining and splitting. */
  lemma ReportClean(obs: Observation)
    requires Report(obs).Success?
    ensures forall k | 0 <= k < |Report(obs).value| :: Messages.Clean(Report(obs).value[k])
  {
    var t, d := obs.temperature, obs.dewPoint;
    TemperatureClean(t);
    HumidityClean(t, d);
    if !IsCalm(obs) {
      WindSentenceClean(obs.windDirection, obs.windSpeed, GustKnots(obs.windGust));
    }
    SkyClean(obs.skyCover);
    PrecipitationClean(t, d, obs.visibility);
    var parts := [[TemperatureSentence(t)], HumiditySentences(t, d), WindSentences(obs),
                  SkySentences(obs.skyCover), PrecipitationSentences(t, d, obs.visibility).value];
    assert forall n | 0 <= n < |parts| :: AllClean(parts[n]);
    var r := Report(obs).value;
    assert r == parts[0] + parts[1] + parts[2] + parts[3] + parts[4];
    forall k | 0 <= k < |r|
      ensures Messages.Clean(r[k])
    {
      assert r[k] in r;
    }
  }

  /** A consumer that splits the published message at each double space gets the report back. */
  lemma MessageRoundTrip(obs: Observation)
    requires Report(obs).Success?
    ensures Message(obs).Success?
    ensures Messages.Split(Message(obs).value) == Report(obs).value
  {
    ReportOrder(obs);
    ReportClean(obs);
    Messages.SplitJoin(Report(obs).value);
  }

  /** Behaviour at the boundaries the composer is known for. */
  lemma BoundaryExamples()
    ensures TemperatureSentence(10.0) == Chilly
    ensures TemperatureSentence(40.0) == Sweltering
    ensures HumiditySentences(25.0, 16.0) == [SomewhatHumid]
    ensures HumiditySentences(30.0, 15.0) == []
    ensures HumiditySentences(10.0, 30.0) == [VeryFoggy]
    ensures DirectionLabel(0) == Variable && SpeedLabel(5) == KindOfWindy && SpeedLabel(4) == Breezy
    ensures DirectionLabel(345) == DirectionLabel(19) == North
    ensures PrecipitationSentences(20.0, 19.0, None) == Success([Raining])
    ensures SkySentences("SKC") == [ClearSky] && SkySentences("XYZ") == []
  {
  }
}
