# Weather Wizard 3000 — a Dafny model of its logic

Weather Wizard 3000 is a command-line weather assistant. It asks for a day
(today and the next four days), then for a location (city name, IP-based
auto-detection or typed coordinates). It fetches a three-hourly forecast and
folds the entries of the chosen day into a daily summary: maximum, minimum and
feels-like temperature in Kelvin, average humidity, and whether rain is
expected. It can then ask a generative-language service for clothing advice.

This project models the two pieces of logic in that program and proves what
they promise:

- **Forecast aggregation** (`WeatherApp.py`, module `WeatherApp`, properties in
  `ForecastProperties`). `ProcessWeatherData` replaces the city name, then
  follows the source loop over the entries. The running maximum starts at −inf
  and the running minimum at +inf (module `Floats` models Python floats with
  infinities and NaN). Running sums and a rain flag are kept alongside. The
  summary fields are written only when at least one entry matched. An entry of
  the target day without readings raises in the source (`KeyError`, or
  `IndexError` when its `weather` list is empty). The model reports that as
  `ok == false`, and the city name has already been replaced.
  Temperatures and humidity are `real`, so the arithmetic is exact.
- **Kelvin conversion** and the **navigation of the suggestion reply**
  (`Suggestion`). The reply is walked over a JSON datatype with Python's own
  rules for `dict.get`, truthiness, `len` and `[0]`.
- **The interactive loop** (`main.py`, module `Menus`). The three menus are a
  step function `Step(session, input)` over the phases `SelectDate`,
  `SelectLocation(target day)`, `SelectAI` and `Exited`. `Run` folds it over a
  sequence of inputs. The menu choice is the integer `get_menu_choice` returns.
  Module `MenuInput` models that function: Python's `int()` on the typed line,
  with −1 for text `int()` rejects, including digit runs longer than the
  default limit of 4300 digits.

Dates are day numbers. A forecast entry carries the day already taken from its
`dt_txt`. The date menu computes the target as today's day number plus the
offset. What the outside world supplies during a step is part of the step's
input: today's day number, the typed coordinates, and the forecast request's
outcome. The outcome is a decoded response; a response with a city name whose
`list` is missing, not iterable, or yields something other than objects, so
that processing raises right after the city name is written; or a failure that happened before any field was written
(transport error, a status other than 200, no `city.name`).

## Model

| member | source | states |
|---|---|---|
| `WeatherApp.ProcessWeatherData` | WeatherApp.py:29-67 | the city name is always replaced; processing fails exactly when a target-day entry lacks readings; on failure or when no entry matches, nothing but the city name changes; otherwise max/min are the true extremes of the day's `temp_max`/`temp_min` (bound and attained), feels-like and humidity are the arithmetic means, and rain is set iff some day entry has a condition code below 700 |
| `WeatherApp.FoldAccounts` | WeatherApp.py:40-60 | about the loop `Fold`: it fails iff a target-day entry lacks readings, and otherwise its variables hold the count, the sums, the rain flag and the extremes of exactly the target day's readings, starting from −inf/+inf |
| `WeatherApp.AddAccounts` | WeatherApp.py:49-60 | about one loop iteration `Add`: the running max/min, sums, count and rain flag that account for some readings then account for those readings plus the new one |
| `Floats.PyMax` | WeatherApp.py:56 | `max` returns one of its arguments; without NaN it is at least both; a NaN in either place yields the first argument |
| `Floats.PyMin` | WeatherApp.py:57 | `min` returns one of its arguments; without NaN it is at most both; a NaN in either place yields the first argument |
| `WeatherApp.KelvinToCelsiusFahrenheit` | WeatherApp.py:86-89 | Celsius plus 273.15 gives back the Kelvin value, and Fahrenheit converts back to that Celsius value by (F − 32)·5/9 |
| `WeatherApp.AbsoluteZero` | WeatherApp.py:86-89 | 0 K converts to −273.15 °C and −459.67 °F |
| `WeatherApp.ConversionStrictlyIncreasing` | WeatherApp.py:86-89 | both converted values are strictly increasing in the Kelvin value |
| `ForecastProperties.Matches` | WeatherApp.py:44 | the filtered entries are exactly the input's entries of the target day: each kept entry carries the target day and comes from the input, and every target-day entry of the input is kept |
| `ForecastProperties.FoldOverMatchesOnly` | WeatherApp.py:40-46 | running the loop over only the target day's entries gives the same result as over all entries |
| `ForecastProperties.ProcessMatchesOnly` | WeatherApp.py:29-67 | processing a response restricted to the target day's entries yields the same summary and success flag |
| `ForecastProperties.OtherDaysUnread` | WeatherApp.py:41-46 | entries of other days are read for their date only: changing or dropping their readings does not change the loop's result |
| `ForecastProperties.MatchedFailsIff` | WeatherApp.py:44-46 | processing fails exactly when the response holds an entry of the target day without readings |
| `ForecastProperties.ProcessOrderIndependent` | WeatherApp.py:40-67 | any reordering of the forecast entries yields the same summary and success flag |
| `ForecastProperties.SummaryUnique` | WeatherApp.py:62-67 | two daily summaries of the same multiset of readings are equal, so max, min, sums and the rain flag do not depend on order |
| `ForecastProperties.TotalPermutation` | WeatherApp.py:58-59 | the running sums do not depend on the order of their terms |
| `ForecastProperties.SingleMatch` | WeatherApp.py:62-67 | with one matching entry, max, min, feels-like and humidity are that entry's values and rain is its condition test |
| `ForecastProperties.TwoEntryDay` | WeatherApp.py:29-67 | two day entries (codes 800 and 500) plus one entry of another day without readings give rain, max 295 K, min 285 K, feels-like 289.5 K and humidity 57.5 |
| `Suggestion.ExtractSuggestion` | WeatherApp.py:193-202 | when `candidates[0].content.parts[0].text` is present as arrays and objects its value is returned; the fallback text "No fashion suggestions available." is returned whenever the candidates (default empty) are falsy, or the first candidate's content (default empty) has falsy parts (default empty) or a first part without `text`; any other returned value is exactly that fallback; the navigation raises exactly when neither the text path nor a fallback path is present, so a reply that is not an object raises |
| `Suggestion.NumericCandidatesRaise` | WeatherApp.py:194-196 | a truthy candidate value without `len` (a number) makes the navigation raise |
| `Suggestion.NoCandidates` | WeatherApp.py:194-202 | an empty candidate list yields the fallback text |
| `Suggestion.PartWithoutText` | WeatherApp.py:199-200 | a first part without a `text` key yields the fallback text |
| `MenuInput.MenuChoice` | main.py:106-110 | the choice is the value `int()` reads from the line, and −1 exactly when `int()` raises `ValueError` or the line is the text of −1 itself |
| `MenuInput.MenuChoiceRoundTrip` | main.py:106-110 | the decimal text of any integer of at most 4300 digits, with any space, tab, line feed, vertical tab, form feed or carriage return around it, is read back as that integer; the text of a longer one reads as −1 |
| `MenuInput.ParseIntText` | main.py:108 | `int()` reads the decimal text of every integer of at most 4300 digits, negative ones included, back as that integer, and rejects the text of longer ones |
| `MenuInput.LongDigitRunRejected` | main.py:106-110 | a well-formed digit run of more than 4300 digits is rejected and reads as −1 |
| `MenuInput.NonIntegerText` | main.py:106-110 | "abc", the empty line, "1__0", "- 3", and "3" next to an ASCII separator character (28 or 31) are read as −1 instead of failing |
| `MenuInput.AcceptedSpellings` | main.py:106-108 | surrounding whitespace, a plus sign, an underscore between digits and leading zeros are accepted as `int()` accepts them |
| `Menus.IsValidCoordinate` | main.py:161-162 | a coordinate is valid iff it is a finite number within the bounds, boundaries included; NaN and the infinities are rejected |
| `Menus.FetchAndShow` | main.py:112-134 | the city-search and auto-location handlers ask for a retry iff the request failed or processing raised; a failed request leaves the summary unchanged; a response whose entry list is unreadable, or that raises or matches nothing, changes only the city name; when processing succeeds with matches it leaves the day's summary |
| `Menus.HandleManualCoordinates` | main.py:136-152 | out-of-range coordinates skip the fetch and do not retry; a retry happens only for finite coordinates; in-range coordinates behave as a fetch |
| `Menus.Step` | main.py:14-80 | menus follow the order date, location, AI, date; the program ends iff the choice is 6 in the date menu or 4 in the location menu; date choices 1–5 select today plus 0–4 days; other date and location choices change nothing; a location choice that fetches (1, 2, or 3 with coordinates in range) stays in the location menu iff the fetch or its processing raised, and leaves the summary the fetch handler leaves; coordinates out of range go on to the AI menu unchanged; the AI menu never exits, returns to the date menu on 1 or 2, and never changes the summary |
| `Menus.ExitedIsFinal` | main.py:35-37 | about `Run`: once the program has ended, no further input changes the session |
| `Menus.ExitNeedsExitChoice` | main.py:35-59 | about `Run`: every run that ends the program contains a 6 in the date menu or a 4 in the location menu |
| `Menus.SummaryChangesOnlyByLocation` | main.py:14-80 | about `Run`: a run that changes the summary contains a choice 1, 2 or 3 made in the location menu |
| `Menus.InvalidDateChoicesIgnored` | main.py:20-43 | any number of invalid date-menu choices leaves the session exactly as it was |
| `Menus.ExitAlwaysReachable` | main.py:25-77 | from every menu the program can be ended within two choices |
| `Menus.OneRound` | main.py:14-80 | choosing today, searching a city with two entries for today and declining the suggestion returns to the date menu with that day's summary |

## Left out

- HTTP requests (`make_api_request`, the IP-geolocation and generative-language calls) and status-code checks: external transport. A forecast request is an input: it responded, its entry list was unreadable, or it failed.
- API keys from the environment and URL construction: configuration only.
- The IP-geolocation reply parsing and its default coordinates (46.947975, 7.447447): the coordinates only feed the request, whose outcome is an input, so the auto-location handler is `FetchAndShow`, like city search.
- `parse_coordinate`'s re-prompt loop and Python's `float()`: the typed coordinates are the `Float` values it finally returns. These include NaN and the infinities, which `float()` accepts.
- `strptime` parsing of `dt_txt` and `datetime.date.today()`: entries carry a day number, and today's day number is part of each step's input.
- `get_weather_message` formatting, the emoji texts and the prompt template: presentation and static text.
- The text of the error message `ai_suggestion` returns when an exception escapes: Python's exception messages are not modelled, only that one was raised (`Raised`). A reply body that is not valid JSON is not modelled either.
- The AI suggestion's text has no effect on the session, so `Step` does not return it.
- IEEE rounding: temperatures and humidity are exact reals.
- `MenuInput.MenuChoice`: only ASCII whitespace and ASCII digits are modelled. Python's `int()` also accepts non-ASCII Unicode whitespace and decimal digits, which the model rejects. Of ASCII, only space and characters 9–13 are whitespace to `int()`, as modelled.
- End of input while reading a menu choice raises `EOFError`, which is not the `ValueError` that `get_menu_choice` catches. Console input is not modelled, so neither is this.
- Console output and the top-level handling of `KeyboardInterrupt` and unexpected exceptions.
- A response without `city.name` raises before any field is written, so it is folded into the failed-request input. A `list` that is missing, not iterable, or yields something other than objects raises right after the city name is written; that is the input `ListUnreadable`. A `list` that yields nothing (`{}`, `""`) is a response with no entries.
- An entry of any day without a parsable `dt_txt` raises in the source. Entries carry their day number already, so this failure is not modelled.
- `MenuInput.ParseInt`: the digit limit is fixed at its default of 4300. It can be changed through `sys.set_int_max_str_digits` or `PYTHONINTMAXSTRDIGITS`, and Python releases without the limit (before 3.7.14, 3.8.14, 3.9.14 and 3.10.7) accept any length; neither is modelled.

A target-day entry without readings raises after the city name has been
replaced, and the location handler turns that into a retry. The other summary
fields are written only when some entry matched the day.
