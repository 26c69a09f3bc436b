# Earthquake chatbot tools — a Dafny model

The chatbot's language model answers questions about earthquakes. It can call three
tool functions in `gemini.py`. This project models those three functions and proves
what they promise:

- `get_current_date` gives today's UTC date as `YYYY-MM-DD`.
- `check_earthquake_alert` turns optional region, time-window and magnitude arguments
  into a USGS FDSN event query. It sends the query and sorts the answer into one of
  three reply shapes: earthquakes detected (the events passed on unchanged), no
  alerts, or an error.
- `get_location_coordinates` asks the HERE geocoding service for a place name. It
  replies with the first candidate's latitude and longitude, "Location not found.", or
  an error that names the HTTP status.

Modules:

- `Outcomes`: Option and Result.
- `Digits`: zero-padded and plain decimal text, each with its reading back.
- `CivilDate`: proleptic Gregorian dates from year 1 to 9999 (the range Python's
  `datetime` allows). It covers day arithmetic, the day number Python calls
  `toordinal`, and the `%Y-%m-%d` text form.
- `Values`: the numbers, event records and dictionaries the tools pass around.
- `Http`: a remote service. Every request is logged, and the answer is a fixed function
  of the request and of how many requests came before.
- `DateHelper`, `Seismic`, `Geocoder`: the three tools.

The clock is an input. `today` is the date `datetime.utcnow()` reads. The two services
are `Http.Endpoint` objects whose `answer` function stands for the remote side.
`Seismic.BuildQuery` is the pure specification of the query. `Seismic.CheckEarthquakeAlert`
builds the same parameter map step by step, as the source does. It is proved to send
exactly that query, or nothing when `BuildQuery` fails.

Some of the code's behaviour is easy to miss, and the model keeps it:
- The default `min_magnitude` is the integer `3` and not `3.0`. The defaults
  `radius_km = 1000` and `limit = 10` are integers too.
- The parameter dictionary is assembled before the region is checked (gemini.py:43-49
  run before gemini.py:50). So with `end_date` left out, a clock date in the last week
  of year 9999 raises Python's `OverflowError` ("date value out of range"). That
  happens even when no region is given, and no request is sent.
- The geocoder treats a missing or null `items` like an empty one.

## Model

| member | source | states |
|---|---|---|
| `DateHelper.GetCurrentDate` | gemini.py:19-22 | today's date as ten characters with `-` at positions 4 and 7, which read back as exactly the clock's date |
| `CivilDate.Format` | gemini.py:22 | `%Y-%m-%d` text of a date: ten characters, dashes at 4 and 7, and `Parse` takes it back to the same date |
| `CivilDate.ParseFormat` | gemini.py:22 | the other direction of the round trip: any string `Parse` accepts is exactly the formatted text of the date it yields |
| `Digits.Padded` | gemini.py:22 | a zero-padded field of the given width, all digits, whose value is the number written |
| `Digits.PaddedValueOf` | gemini.py:22 | every digit string is the padded form of its own value, so reading a fixed-width field is injective |
| `CivilDate.NextDay` | gemini.py:47 | the next calendar date is valid and has day number one higher; it is missing only after 9999-12-31 |
| `CivilDate.AddDays` | gemini.py:47 | `d + n` days is a valid date with day number exactly `n` higher, and it is missing exactly when that day number passes the last representable date |
| `CivilDate.OrdinalInjective` | gemini.py:47 | two valid dates with the same day number are equal, so the week-later date is the only date seven day numbers on |
| `CivilDate.WeekOverflow` | gemini.py:47 | adding one week overflows exactly for 9999-12-25 to 9999-12-31 |
| `Seismic.BuildQuery` | gemini.py:24-61 | overflow of the default end date is an error before the region is checked. Otherwise a complete box gives `format=geojson`, `limit=10`, `minmagnitude`, `starttime`, `endtime` and the four box keys with the given bounds, even when a point is also given. Otherwise latitude and longitude give those keys plus `latitude`, `longitude` and `maxradiuskm = radius_km`, even when part of a box is given. Otherwise the result is the missing-region error. Given dates pass through unchanged; missing ones become today and today plus 7 days |
| `Seismic.RegionKeysExclusive` | gemini.py:50-59 | a box query holds all box keys and none of the point keys; a point query holds all point keys and none of the box keys |
| `Seismic.DefaultWindow` | gemini.py:46-47 | with both dates left out, a region given and a clock date before 9999-12-25, the query is built; `starttime` reads back as today and `endtime` as the date whose day number is today's plus 7 |
| `Seismic.Unspecified` | gemini.py:24 | a call passing no argument has no box, no point and no dates, with `radius_km` the integer 1000 and `min_magnitude` the integer 3 |
| `Seismic.PointDefaults` | gemini.py:24 | a point query leaving radius and magnitude out, on a clock date before 9999-12-25, is built with the given point, `maxradiuskm` = integer 1000 and `minmagnitude` = integer 3 |
| `Seismic.OverflowOnlyAtEnd` | gemini.py:43-49 | building the query raises only when `end_date` is left out and today is in the last seven days of year 9999 |
| `Seismic.Classify` | gemini.py:64-72 | status 200 with events gives exactly the keys `alert` ("Earthquake detected") and `earthquakes`, holding the events unchanged. Status 200 without events gives exactly `{alert: "No earthquake alerts in the given area."}`. Any other status gives exactly `{error: "Failed to fetch data from USGS API."}`. Each holds in both directions |
| `Seismic.CheckEarthquakeAlert` | gemini.py:24-72 | on overflow it raises and sends nothing. Without a complete region it returns the fixed error and sends nothing. Otherwise it sends exactly one request, equal to `BuildQuery`'s query, and returns `Classify` of the service's answer |
| `Http.Endpoint.Get` | gemini.py:63 | one GET appends the request to the log and returns the service's answer to it |
| `Geocoder.StatusMessage` | gemini.py:101 | the failure text starts with "Failed to fetch data. HTTP Status code: " and the status code reads back out of it |
| `Digits.Decimal` | gemini.py:101 | `str` of a status code: at least one digit, no leading zero, and its value is the number |
| `Geocoder.Coordinates` | gemini.py:89-101 | status 200 with candidates gives latitude and longitude equal to the first item's `position.lat` and `position.lng`. The reply is `{error: "Location not found."}` exactly when the status is 200 and `items` is empty or missing. Any other status gives a single `error`: the failed-fetch text for that status, from which the status reads back |
| `Geocoder.NotFoundIsNoStatus` | gemini.py:99-101 | "Location not found." is never read as a failed-status message |
| `Geocoder.StatusMessageInjective` | gemini.py:101 | different failing statuses give different error texts |
| `Geocoder.GetLocationCoordinates` | gemini.py:76-101 | sends exactly one request carrying the place name and the key, and returns `Coordinates` of the answer |

## Left out

- The HTTP calls themselves (gemini.py:63, gemini.py:88) are network I/O. Each is an
  `Http.Endpoint` whose answer is a parameter. Transport exceptions raised by
  `requests` (DNS failure, refused connection, a body that is not JSON) are not modelled.
- A catalog body without a `features` key (a `KeyError` in the source) is not modelled.
  Neither is a geocoding item without `position`, `lat` or `lng`. The catalog's
  `features` is always a list here.
- `requests` drops parameters whose value is `None`. An explicit `radius_km=None` or
  `min_magnitude=None` would leave that key out of the sent query. The model takes
  both as given numbers.
- The model takes one clock date for both `utcnow()` reads (gemini.py:46-47). If
  midnight fell between them, the source could start and end the default window on
  clocks a day apart.
- The time of day is not modelled. `utcnow()` is reduced to its date, which is all that
  `%Y-%m-%d` shows and all that adding one week changes.
- Years below 1000 are written with four zero-padded digits. Some C libraries'
  `strftime` does not pad them.
- Coordinates, radius and magnitude are opaque numbers (`Values.Number`) that are only
  forwarded. Floating point is not modelled, and no range is checked, as in the
  source. Dates are not validated, and start before end is not enforced, as in the
  source.
- The key order of Python dictionaries, and so of the query string, is not modelled.
- The language-model chat session, its system prompt, automatic function calling and
  the helpline file upload (gemini.py:103-152) are foreign library calls.
- The Streamlit page and its transcript (gemini.py:153-165) are UI.
- Loading the API keys from the environment (gemini.py:5, gemini.py:10) is left out.
  The HERE key is a parameter of `Geocoder.GetLocationCoordinates`, and None when unset.
- The unused bounding-box import (gemini.py:13-16) is not modelled. The `print` and
  `json.dumps` debug output (gemini.py:25, 42, 62, 66) only prints, so it is left out.
- The commented-out manual dispatch (gemini.py:167-180) is left out.
