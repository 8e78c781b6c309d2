/**
 * The weather-message composer of weather.py (lines 74-190): from the fields
 * of one METAR observation it builds an ordered list of canned sentences in
 * five steps (temperature, humidity or fog, wind, sky cover, rain or fog)
 * and joins them with two spaces.
 *
 * The step functions below are the specification; `Describe` is the
 * composer itself, written the way the script works: appending to a list
 * and building the wind sentence piece by piece.
 */
module Weather {
  import opened Results
  import Messages

  /** The one failure the composer itself can run into. */
  datatype Error =
    /** The visibility field was needed (weather.py:182) but is absent or not a number. */
    VisibilityUnavailable

  /**
   * The METAR fields the composer reads.  Temperature and dew point are in
   * degrees Celsius, wind in degrees and knots, visibility in statute miles.
   * The gust and the visibility are optional: the script defaults the gust
   * to 0 and reads the visibility only when the fog rule needs it.
   */
  datatype Observation = Observation(
    temperature: real,
    dewPoint: real,
    windDirection: int,
    windSpeed: int,
    windGust: Option<int>,
    visibility: Option<real>,
    skyCover: string)

  // Temperature sentences (weather.py:79-90).
  const BelowFreezing: string := "It is below-0 freezing."
  const Freezing: string := "It is freezing out."
  const Chilly: string := "It is chilly out."
  const Nice: string := "The tempurature is nice."
  const ReallyHot: string := "It is really hot out."
  const Sweltering: string := "It is sweltering out."

  // Humidity and fog sentences (weather.py:94-102).
  const VeryFoggy: string := "Right now, it is very foggy."
  const SomewhatHumid: string := "Right now, it is somewhat humid."
  const ReallyHumid: string := "Right now, it is really humid."
  const BrutalHumidity: string := "Right now, the humidity is pretty brutal."

  // Pieces of the wind sentence (weather.py:113-152).
  const WindOpening: string := "Winds are "
  const Variable: string := "variable"
  const North: string := "from the north"
  const NorthEast: string := "from the north east"
  const East: string := "from the east"
  const SouthEast: string := "from the south east"
  const South: string := "from the south"
  const SouthWest: string := "from the south west"
  const West: string := "from the west"
  const NorthWest: string := "from the north west"
  const WindJoint: string := " and "
  const Calm: string := "calm"
  const Breezy: string := "breezy"
  const KindOfWindy: string := "kind of windy"
  const Strong: string := "strong"
  const VeryStrong: string := "very strong"
  const Gusty: string := " and gusty"
  const Period: string := "."

  /** Gusts above this many knots make the wind "gusty" (weather.py:149). */
  const GustThreshold: int := 20

  // Sky-cover sentences (weather.py:155-165).
  const ClearSky: string := "There isn't a cloud in the sky."
  // Written in two parts: the verifier cannot index into a single string
  // literal this long, and the lemmas need its characters.
  const FewClouds: string := FewCloudsStart + FewCloudsEnd
  const FewCloudsStart: string := "There are a few clouds"
  const FewCloudsEnd: string := " but it is mostly clear."
  const LittleCloudy: string := "It is a little cloudy."
  const CloudCover: string := "There is a lot of cloud cover."
  const Overcast: string := "It is overcast."

  // Rain and fog sentences (weather.py:179-183).
  const Raining: string := "And it is raining."
  const PrettyFoggy: string := "And it is pretty foggy right now."

  /** Step 1: the temperature bucket, with half-open bands. */
  function TemperatureSentence(temperature: real): string
  {
    if temperature < 0.0 then BelowFreezing
    else if temperature < 10.0 then Freezing
    else if temperature < 20.0 then Chilly
    else if temperature < 30.0 then Nice
    else if temperature < 40.0 then ReallyHot
    else Sweltering
  }

  /** Step 2: fog when the dew point exceeds the temperature, else humidity above a dew point of 15. */
  function HumiditySentences(temperature: real, dewPoint: real): seq<string>
  {
    if dewPoint > temperature then [VeryFoggy]
    else if dewPoint > 15.0 then
      if dewPoint < 21.0 then [SomewhatHumid]
      else if dewPoint < 26.0 then [ReallyHumid]
      else [BrutalHumidity]
    else []
  }

  /** The compass bucket of a wind direction; 0 is "variable". */
  function DirectionLabel(direction: int): string
  {
    if direction == 0 then Variable
    else if direction < 20 then North
    else if direction < 70 then NorthEast
    else if direction < 110 then East
    else if direction < 160 then SouthEast
    else if direction < 200 then South
    else if direction < 250 then SouthWest
    else if direction < 290 then West
    else if direction < 340 then NorthWest
    else North
  }

  /** The bucket of a wind speed in knots. */
  function SpeedLabel(speed: int): string
  {
    if speed < 2 then Calm
    else if speed < 5 then Breezy
    else if speed < 10 then KindOfWindy
    else if speed < 15 then Strong
    else VeryStrong
  }

  /** The gust in knots, 0 when the report has none (weather.py:106-109). */
  function GustKnots(gust: Option<int>): int
  {
    match gust
    case None => 0
    case Some(knots) => knots
  }

  /** The wind sentence for a direction, a speed and a gust. */
  function WindSentence(direction: int, speed: int, gust: int): string
  {
    WindOpening + DirectionLabel(direction) + WindJoint + SpeedLabel(speed)
      + (if gust > GustThreshold then Gusty else "") + Period
  }

  /** True for the calm report, direction 0 and speed 0, which gets no wind sentence. */
  predicate IsCalm(obs: Observation)
  {
    obs.windDirection == 0 && obs.windSpeed == 0
  }

  /** Step 3: the wind sentence unless the wind is calm. */
  function WindSentences(obs: Observation): seq<string>
  {
    if IsCalm(obs) then []
    else [WindSentence(obs.windDirection, obs.windSpeed, GustKnots(obs.windGust))]
  }

  /** Step 4: one sentence per recognised sky-cover code, none for any other code. */
  function SkySentences(cover: string): seq<string>
  {
    if cover == "CLR" || cover == "SKC" then [ClearSky]
    else if cover == "FEW" then [FewClouds]
    else if cover == "SCT" then [LittleCloudy]
    else if cover == "BKN" then [CloudCover]
    else if cover == "OVC" then [Overcast]
    else []
  }

  /**
   * Step 5: rain when the temperature is within 2 degrees of the dew point,
   * else fog when it is within 5 and visibility is under 2 miles.  The
   * visibility is read only in the second case, and the script fails there
   * when it is unavailable.
   */
  function PrecipitationSentences(temperature: real, dewPoint: real, visibility: Option<real>)
    : Result<seq<string>, Error>
  {
    if temperature - dewPoint < 2.0 then Success([Raining])
    else if temperature - dewPoint < 5.0 then
      match visibility
      case None => Failure(VisibilityUnavailable)
      case Some(miles) => Success(if miles < 2.0 then [PrettyFoggy] else [])
    else Success([])
  }

  /** The sentences of the five steps, in step order. */
  function Report(obs: Observation): Result<seq<string>, Error>
  {
    match PrecipitationSentences(obs.temperature, obs.dewPoint, obs.visibility)
    case Failure(e) => Failure(e)
    case Success(precipitation) =>
      Success([TemperatureSentence(obs.temperature)]
        + HumiditySentences(obs.temperature, obs.dewPoint)
        + WindSentences(obs)
        + SkySentences(obs.skyCover)
        + precipitation)
  }

  /** The published message: the report joined with two spaces (weather.py:190). */
  function Message(obs: Observation): Result<string, Error>
  {
    match Report(obs)
    case Failure(e) => Failure(e)
    case Success(sentences) => Success(Messages.Join(sentences))
  }
}
