/**
 * The composer as weather.py runs it (lines 74-190): a message list that
 * each step appends to, a gust that starts at 0 and is overwritten when the
 * report has one, and a wind sentence built piece by piece.  Each step is a
 * method that appends to the list it is given; `Describe` runs them in order
 * and is proved to produce the message the step functions of `Weather`
 * specify.
 */
module Composer {
  import opened Results
  import opened Weather
  import Messages
  import WeatherProperties

  /** Step 1 (weather.py:79-90). */
  method AppendTemperature(message: seq<string>, temp: real) returns (out: seq<string>)
    ensures out == message + [TemperatureSentence(temp)]
  {
    out := message;
    if temp < 0.0 {
      out := out + [BelowFreezing];
    } else if temp < 10.0 {
      out := out + [Freezing];
    } else if temp < 20.0 {
      out := out + [Chilly];
    } else if temp < 30.0 {
      out := out + [Nice];
    } else if temp < 40.0 {
      out := out + [ReallyHot];
    } else {
      out := out + [Sweltering];
    }
  }

  /** Step 2 (weather.py:94-102). */
  method AppendHumidity(message: seq<string>, temp: real, dewPoint: real) returns (out: seq<string>)
    ensures out == message + HumiditySentences(temp, dewPoint)
  {
    out := message;
    if dewPoint > temp {
      out := out + [VeryFoggy];
    } else if dewPoint > 15.0 {
      if dewPoint < 21.0 {
        out := out + [SomewhatHumid];
      } else if dewPoint < 26.0 {
        out := out + [ReallyHumid];
      } else {
        out := out + [BrutalHumidity];
      }
    }
  }

  /** The wind sentence, built with one `+=` per piece (weather.py:113-152). */
  method BuildWind(windDirection: int, windSpeed: int, windGust: int) returns (wind: string)
    ensures wind == WindSentence(windDirection, windSpeed, windGust)
  {
    wind := WindOpening;
    if windDirection == 0 {
      wind := wind + Variable;
    } else if windDirection < 20 {
      wind := wind + North;
    } else if windDirection < 70 {
      wind := wind + NorthEast;
    } else if windDirection < 110 {
      wind := wind + East;
    } else if windDirection < 160 {
      wind := wind + SouthEast;
    } else if windDirection < 200 {
      wind := wind + South;
    } else if windDirection < 250 {
      wind := wind + SouthWest;
    } else if windDirection < 290 {
      wind := wind + West;
    } else if windDirection < 340 {
      wind := wind + NorthWest;
    } else {
      wind := wind + North;
    }

    wind := wind + WindJoint;

    if windSpeed < 2 {
      wind := wind + Calm;
    } else if windSpeed < 5 {
      wind := wind + Breezy;
    } else if windSpeed < 10 {
      wind := wind + KindOfWindy;
    } else if windSpeed < 15 {
      wind := wind + Strong;
    } else {
      wind := wind + VeryStrong;
    }

    if windGust > GustThreshold {
      wind := wind + Gusty;
    }

    wind := wind + Period;
  }

  /** Step 3 (weather.py:104-153): the gust defaults to 0; calm wind adds nothing. */
  method AppendWind(message: seq<string>, obs: Observation) returns (out: seq<string>)
    ensures out == message + WindSentences(obs)
  {
    out := message;
    var windDirection := obs.windDirection;
    var windSpeed := obs.windSpeed;
    var windGust := 0;
    if obs.windGust.Some? {
      windGust := obs.windGust.value;
    }
    if !(windDirection == 0 && windSpeed == 0) {
      var wind := BuildWind(windDirection, windSpeed, windGust);
      out := out + [wind];
    }
  }

  /** Step 4 (weather.py:155-165): unknown codes add nothing. */
  method AppendSky(message: seq<string>, cover: string) returns (out: seq<string>)
    ensures out == message + SkySentences(cover)
  {
    out := message;
    if cover == "CLR" || cover == "SKC" {
      out := out + [ClearSky];
    } else if cover == "FEW" {
      out := out + [FewClouds];
    } else if cover == "SCT" {
      out := out + [LittleCloudy];
    } else if cover == "BKN" {
      out := out + [CloudCover];
    } else if cover == "OVC" {
      out := out + [Overcast];
    }
  }

  /** Step 5 (weather.py:179-183): the visibility is read only in the fog branch. */
  method AppendPrecipitation(message: seq<string>, temp: real, dewPoint: real, visibility: Option<real>)
    returns (out: Result<seq<string>, Error>)
    ensures out.Failure? <==> PrecipitationSentences(temp, dewPoint, visibility).Failure?
    ensures out.Failure? ==> out.error == VisibilityUnavailable
    ensures out.Success? ==> out.value == message + PrecipitationSentences(temp, dewPoint, visibility).value
  {
    if temp - dewPoint < 2.0 {
      out := Success(message + [Raining]);
    } else if temp - dewPoint < 5.0 {
      match visibility
      case None =>
        out := Failure(VisibilityUnavailable);
      case Some(miles) =>
        out := Success(if miles < 2.0 then message + [PrettyFoggy] else message);
    } else {
      out := Success(message);
    }
  }

  /** The whole composer: the five steps in order, then the two-space join (weather.py:190). */
  method Describe(obs: Observation) returns (result: Result<string, Error>)
    ensures result == Message(obs)
    ensures result.Failure? <==> 2.0 <= obs.temperature - obs.dewPoint < 5.0 && obs.visibility.None?
    ensures result.Success? ==> Report(obs).Success? && Messages.Split(result.value) == Report(obs).value
  {
    var message: seq<string> := [];
    message := AppendTemperature(message, obs.temperature);
    message := AppendHumidity(message, obs.temperature, obs.dewPoint);
    message := AppendWind(message, obs);
    message := AppendSky(message, obs.skyCover);
    var withPrecipitation := AppendPrecipitation(message, obs.temperature, obs.dewPoint, obs.visibility);
    if withPrecipitation.Failure? {
      return Failure(withPrecipitation.error);
    }
    message := withPrecipitation.value;
    assert message == Report(obs).value;
    WeatherProperties.MessageRoundTrip(obs);
    result := Success(Messages.Join(message));
  }
}
