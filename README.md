# Weather-message composer

A Dafny model of the message composer in `weather.py`, a script that takes a
METAR report for an airport and publishes a short English weather description
to a MUCK. The composer reads the parsed report fields: temperature and dew
point (°C), wind direction (degrees), wind speed and gust (knots), visibility
(statute miles) and the sky-cover code. It builds an ordered list of canned
sentences in five steps:

1. temperature: always exactly one sentence, in half-open bands;
2. humidity or fog: at most one sentence;
3. wind: compass bucket, speed bucket and an optional " and gusty", left out when the wind is calm;
4. sky cover: one sentence per recognised code;
5. rain or fog, judged from the temperature/dew-point spread: at most one sentence.

It then joins the list with two spaces.

Files:

- `results.dfy` — module `Results`: `Option` and `Result`.
- `weather.dfy` — module `Weather`: the `Observation` record, the sentence texts as constants (copied exactly, including the script's spelling "tempurature"), one specification function per step, `Report` (the five steps in order) and `Message` (the joined string).
- `weather_properties.dfy` — module `WeatherProperties`: what the composer promises, proved about those functions.
- `messages.dfy` — module `Messages`: `Join` with the two-space separator, its inverse `Split` (Python's `str.split("  ")`), and the round-trip lemmas.
- `composer.dfy` — module `Composer`: the composer written imperatively, the way the script works. Each step method appends to the message list. `BuildWind` builds the wind sentence with one concatenation per piece. The gust starts at 0 and is overwritten when the report has one. `Describe` runs the steps and is proved equal to `Message`.

Inputs and typing:

- `Observation` takes the fields already typed. `windGust` is an `Option`, so the model keeps the script's default of 0 (weather.py:106-109).
- `visibility` is an `Option` too. The script reads it only inside the fog branch (weather.py:181-182), so a missing or unparseable visibility stops the script only there. The model returns `Failure(VisibilityUnavailable)` in exactly that case; `ReportFailure` and `Describe` state when it happens.
- Temperature, dew point and visibility are `real`. The script only compares them and takes one difference, so exact reals give the intended rules.

Boundary cases worth noting:

- A wind speed of exactly 5 knots is "kind of windy", because `wind_speed < 5` fails (weather.py:140-143). `BoundaryExamples` states this.
- The sky cover is the script's raw code string (`CLR`, `SKC`, `FEW`, `SCT`, `BKN`, `OVC`). Any other string, including the empty one, adds nothing.

Because `Describe` is proved equal to the function `Message`, two calls on the same observation give the same result.

## Model

| member | source | states |
|---|---|---|
| WeatherProperties.TemperatureBands | weather.py:79-90 | each of the six temperature sentences is chosen exactly on its half-open band: below 0, [0,10), [10,20), [20,30), [30,40), 40 and above |
| WeatherProperties.HumidityBands | weather.py:94-102 | at most one humidity sentence; "very foggy" exactly when dew point > temperature; otherwise somewhat humid on (15,21), really humid on [21,26), brutal from 26; none exactly when dew point <= temperature and dew point <= 15 (so 15 itself gives none) |
| WeatherProperties.DirectionBands | weather.py:115-134 | every direction gets one of the nine labels; "variable" exactly at 0; "from the north" exactly for non-zero directions below 20 and for 340 and above; each other compass label exactly on its band |
| WeatherProperties.SpeedBands | weather.py:138-147 | each speed label exactly on its band: below 2, [2,5), [5,10), [10,15), 15 and above |
| WeatherProperties.WindSentenceShape | weather.py:113-152 | the wind sentence starts with "Winds are ", ends with ".", and ends with " and gusty." exactly when the gust exceeds 20 knots |
| WeatherProperties.WindPresence | weather.py:104-112 | at most one wind sentence, present exactly when not (direction = 0 and speed = 0); with no gust reported the sentence is the one for gust 0 |
| WeatherProperties.SkyCodes | weather.py:155-165 | at most one sky sentence; a sentence exactly for CLR, SKC, FEW, SCT, BKN, OVC; CLR and SKC give the same clear-sky sentence |
| WeatherProperties.CloudCodesDistinct | weather.py:155-165 | CLR, FEW, SCT, BKN and OVC give pairwise different sentences, so each cloud code has its own sentence, different from the clear-sky one |
| WeatherProperties.PrecipitationRules | weather.py:179-183 | rain exactly when temperature - dew point < 2; fog exactly when the spread is in [2,5) and visibility is known and < 2; nothing for a spread of 5 or more, or for a spread of 2 or more with visibility known and >= 2; failure exactly when the spread is in [2,5) and visibility is unavailable; at most one sentence |
| WeatherProperties.PrecipitationIgnoresVisibility | weather.py:179-182 | outside the [2,5) spread the outcome is the same whatever the visibility |
| WeatherProperties.ReportFailure | weather.py:179-182 | the composer fails exactly when the fog rule needs an unavailable visibility |
| WeatherProperties.ReportOrder | weather.py:75-183 | the report has 1 to 5 sentences; the first is the temperature sentence; judged by its text, each sentence belongs to one step and the steps strictly increase, so no later sentence is a temperature sentence |
| WeatherProperties.ReportClean | weather.py:79-183 | no sentence of the report has two spaces in a row or ends in a space |
| WeatherProperties.MessageRoundTrip | weather.py:190 | splitting the published message at each double space gives back exactly the report's sentences, in order |
| WeatherProperties.BoundaryExamples | weather.py:79-147 | boundary cases: 10 °C is chilly, 40 °C sweltering, dew point 16 at 25 °C somewhat humid, dew point 15 no humidity sentence, dew above temperature foggy, direction 0 variable, 345 and 19 north, speed 5 kind of windy and 4 breezy, spread 1 rain, SKC clear, XYZ nothing |
| Messages.SplitJoin | weather.py:190 | joining a non-empty list of sentences in which no space is doubled or trailing, then splitting, restores the list |
| Messages.JoinSplit | weather.py:190 | for every string, splitting at the two-space separator and joining again restores the string |
| Composer.AppendTemperature | weather.py:77-90 | appends exactly the temperature sentence of the given temperature |
| Composer.AppendHumidity | weather.py:92-102 | appends exactly the humidity sentences for the given temperature and dew point |
| Composer.BuildWind | weather.py:113-152 | the piece-by-piece string equals the wind sentence for the direction, speed and gust |
| Composer.AppendWind | weather.py:104-153 | with the gust defaulted to 0, appends the wind sentence unless the wind is calm |
| Composer.AppendSky | weather.py:155-165 | appends exactly the sky sentences for the code |
| Composer.AppendPrecipitation | weather.py:179-183 | fails exactly when the fog rule needs an unavailable visibility, and otherwise appends exactly the rain or fog sentences |
| Composer.Describe | weather.py:74-190 | the composed string is `Message(obs)`; it fails exactly when the spread is in [2,5) and visibility is unavailable; on success it splits back into the report |

## Left out

- Loading and checking `config.ini` (weather.py:16-31): file I/O and process exit.
- Building the METAR URL and the HTTP request (weather.py:33-39): network I/O.
- Parsing the XML and copying fields into the `metar` dictionary (weather.py:41-72): a library call. The model takes an already-typed `Observation`. The composer itself also fails when a required field is missing or `float()`/`int()` rejects it: the temperature (weather.py:77), the dew point (:92), the wind direction and speed (:104-105), a present but malformed gust (:109), and a missing sky-cover key (:155). These are not modelled. Each of these lookups runs unconditionally and aborts the run before anything is published (weather.py:185-190), so failing up front on such a report is observably the same. The visibility lookup (:182) is different: it runs only in the fog branch, so its failure depends on the other fields. That failure is modelled.
- Repeated `sky_condition` elements: the last one overwrites the cover code during parsing. The model takes the resulting single code. A `sky_condition` without a `sky_cover` attribute gives Python's `None`, which matches no code, just like any unknown string here.
- The commented-out `precip_in` rule (weather.py:167-176): it sits inside a string literal and never runs.
- Publishing the message over MCP and disconnecting (weather.py:185-193): a network protocol through a foreign library. The model stops at the joined string.
- IEEE floating point: temperature, dew point and visibility are exact reals, so binary rounding of the subtraction at weather.py:179-181 is not modelled.
