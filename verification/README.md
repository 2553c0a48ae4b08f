# Chat-bot intent dispatcher and weather helpers, modelled in Dafny

This project models the core of a small chat-bot back end. Its main part is the
intent-to-response dispatcher of `main.py`:

- a `ChatNode` is a named table from intent labels to canned responses;
- a `ChatBot` registers nodes by name and keeps one current node;
- a turn (`handle_input`) runs as follows. With no current node it answers a
  fixed error. Otherwise it asks a language model for an intent label, then
  strips and lower-cases that label. If the current node holds a non-empty
  response for the label, that response is the answer. In every other case the
  message goes to a second language-model call.
- the startup wiring builds three nodes and makes "greeting" current.

It also models the non-I/O logic of `api.py`:

- the name-length guard, query parameters and result projection of
  `search_location`;
- the response-shape check and the date-prefix filter loop of `get_weather`.

Files:

- `wrappers.dfy`: `Option` and `Result`.
- `text.dfy`: Python's `str.strip()` and `str.lower()`, and the intent
  normalisation built from them.
- `chat.dfy`: the classes `ChatNode` and `ChatBot`, the startup wiring and a
  two-turn scenario.
- `pyjson.dfy`: a decoded JSON document and the Python operations used on it
  (`in`, `[key]`, `[i]`, iteration, `startswith`). Each one returns its value
  or the exception Python raises.
- `api.dfy`: `search_location` and `get_weather`.

The two language-model calls are the parameters `classify` and `fallback`,
both of type `string -> string`. `HandleInput` also returns the list of
external calls it made, so the model can say when no call is made.
`HandleInput` has no `modifies` clause, so Dafny checks that a turn changes
nothing: not the registry, not the current node, not any node's intents.

In `api.py` the HTTP request is a parameter `fetch`. It maps the query
parameters to a response made of the status, the body text and the decoded
payload. Latitudes, longitudes and temperatures have the opaque type
parameter `N`.

## Model

| member | source | states |
|---|---|---|
| `Chat.ChatNode.constructor` | main.py:23-25 | a new node has the given name and no intents |
| `Chat.ChatNode.AddIntent` | main.py:27-29 | afterwards the intent maps to the new response, even if it had one before; every other intent's response is unchanged |
| `Chat.ChatNode.GetResponse` | main.py:31-33 | returns the stored response when the intent is a key and None otherwise; it has no precondition, so it never fails |
| `Chat.ChatBot.constructor` | main.py:36-38 | a new bot has no nodes and no current node |
| `Chat.ChatBot.AddNode` | main.py:40-41 | registers the node under its own name and replaces any node of that name; other entries and the current node are unchanged; every node stays registered under its own name |
| `Chat.ChatBot.SetStartNode` | main.py:43-45 | the current node becomes the node registered under the name, or none when the name is not registered; the registry is unchanged |
| `Chat.ChatBot.HandleInput` | main.py:69-85 | with no current node: the reply is "Error: No starting node set." and no external call is made; otherwise the classifier is called once, and a non-empty response on the current node for the normalised label is returned verbatim; a missing or empty response gives `fallback(userInput)` after exactly one fallback call; the method changes no state |
| `Text.SkipSpaces` | main.py:67 | the index reached moving forward is the first non-whitespace character, or the end; everything skipped is whitespace |
| `Text.SkipSpacesBack` | main.py:67 | the index reached moving back is just after the last non-whitespace character, or the lower bound; everything skipped is whitespace |
| `Text.IsSpace` | main.py:67 | the characters `str.strip()` removes: within ASCII exactly space, tab, line feed, carriage return, vertical tab, form feed and 0x1C-0x1F; no whitespace is an upper-case letter |
| `Text.Strip` | main.py:67 | the result neither starts nor ends with whitespace and is no longer than the input |
| `Text.StripIsSlice` | main.py:67 | the result is one slice of the input with only whitespace before and after it |
| `Text.LowerChar` | main.py:67 | an upper-case ASCII letter becomes the lower-case letter at the same place in the alphabet; every other character is unchanged; the result is never upper-case |
| `Text.Lower` | main.py:67 | same length; every character is lower-cased on its own |
| `Text.Normalise` | main.py:67 | the label used for lookup has no surrounding whitespace and no upper-case ASCII letter |
| `Text.StripOfPadded` | main.py:67 | stripping whitespace + core + whitespace gives back exactly the core, when the core has no whitespace at its ends |
| `Text.StripIdempotent` | main.py:67 | stripping twice is the same as stripping once |
| `Text.NormaliseIdempotent` | main.py:67 | normalising a normalised label changes nothing |
| `Text.NormaliseOfPadded` | main.py:67 | the label looked up is the lower-cased core of the classifier's answer, whatever whitespace surrounds it |
| `Text.NormaliseExample` | main.py:67 | the classifier answer " Hello\n" selects the intent "hello" |
| `Chat.Startup` | main.py:89-112 | after the wiring, nodes "greeting", "help" and "goodbye" hold exactly the responses of main.py:97-104, and "greeting" is the current node |
| `Chat.GreetingTexts` | main.py:97-104 | every greeting response is non-empty; "info", "back" and "bye" are not greeting intents |
| `Chat.TwoTurnsAfterStartup` | main.py:97-112 | in two turns after startup, both answered by the greeting node, a "hello" label gets "Hi there! How can I assist you?"; every label the greeting node lacks, "info", "back" and "bye" among them, gets the fallback |
| `Api.SearchLocation` | api.py:14-15 | a name shorter than 2 characters, and only such a name, raises the short-name ValueError; the result for such a name does not depend on `fetch` |
| `Api.HasKey` | api.py:25 | the API key is added only when it is truthy: it is false exactly for `None` and the empty string |
| `Api.SearchParams` | api.py:18-26 | the query always holds name, count, format "json" and language, and holds apikey only when a non-empty key is given |
| `Api.ProjectLocation` | api.py:36 | a result succeeds exactly when it is an object with name, latitude and longitude, and gives those three values; otherwise TypeError for a non-object, or KeyError of the first missing key in the order name, latitude, longitude |
| `Api.ProjectLocations` | api.py:36 | succeeds exactly when every result has the three fields; then one location per result, in order; otherwise the exception of the first failing result, every result before it being well-formed |
| `Api.SearchResponse` | api.py:30-38 | for a body that decodes, processing the response never raises ValueError |
| `Api.SearchHttpError` | api.py:30-31 | a non-200 status gives the error with reason "HTTP <status>: <text>" |
| `Api.SearchNoResults` | api.py:35-38 | a payload without "results" gives the "No results found." error |
| `Api.SearchFound` | api.py:35-36 | a list of well-formed results gives one location per result, in order, with that result's name, latitude and longitude |
| `Api.WeatherParams` | api.py:43-49 | the forecast query holds latitude, longitude, hourly "temperature_2m", timezone "auto" and forecast_days 7 |
| `Api.HourlySeries` | api.py:56-61 | succeeds exactly when the payload is an object whose "hourly" object holds "time" and "temperature_2m", and then gives `hourly["time"]` and `hourly["temperature_2m"]`; a failure is "Invalid response format" or an exception, nothing else |
| `Api.Matches` | api.py:67-70 | the matching indices are exactly those of string timestamps starting with the date, in increasing order |
| `Api.Collect` | api.py:67-70 | what the loop computes from an index on: every reading it keeps has a timestamp starting with the date, there are no more readings than timestamps left, and its exceptions are never ValueError |
| `Api.FilterByDate` | api.py:67-70 | the `for` loop returns what `Collect` gives from index 0 |
| `Api.Weather` | api.py:51-75 | "Failed to fetch data" with the status is returned exactly for a non-200 status; the only error messages are "Invalid response format" and "No data available for the given date"; a returned list is non-empty and every timestamp in it starts with the date |
| `Api.GetWeather` | api.py:51-75 | the loop method returns what the specification function `Weather` gives for the fetched response |
| `Api.CollectIsMatches` | api.py:67-70 | the collected entries are the matching timestamps, in order, each with the temperature at the same index |
| `Api.CollectSucceeds` | api.py:67-70 | the loop completes exactly when every timestamp is a string and every matching one has a temperature at its index |
| `Api.WeatherReadings` | api.py:67-75 | a returned list is non-empty; every timestamp in it starts with the date; it holds every matching timestamp in input order, each with the temperature at the same index |
| `Api.WeatherNoData` | api.py:72-75 | "No data available for the given date" is returned exactly when all timestamps are strings and none matches; a returned list is never empty |
| `Api.WeatherInvalidFormat` | api.py:56-57 | a missing "hourly", or an "hourly" object without "temperature_2m", gives "Invalid response format" |
| `PyJson.Contains` | api.py:56 | `key in value`: key membership for an object, membership of the string item for a list, occurrence at some index for a string, TypeError for anything else |
| `PyJson.SubstringOccurs` | api.py:56 | the substring search finds the key exactly when it occurs at some index of the string |
| `PyJson.Subscript` | api.py:60-61 | `value[key]`: the entry for the key of an object; KeyError(key) for an object without it, TypeError for anything else |
| `PyJson.Iterate` | api.py:68 | a `for` loop visits a list's items, a string's characters as one-character strings, or an object's keys, each in order; anything else raises TypeError |
| `PyJson.StartsWith` | api.py:69 | `value.startswith(date)` is the prefix test for a string and AttributeError for anything else |
| `PyJson.ItemAt` | api.py:70 | `value[i]` succeeds exactly for an index within a list or a string, giving the list's item or the one-character string at that index; otherwise IndexError for a list or string, KeyError for an object, TypeError for anything else |
| `PyJson.Decimal` | api.py:31 | `str(n)`: a minus sign exactly for a negative number, followed by the digits of its magnitude |
| `PyJson.Digits` | api.py:31 | the decimal digits read back as the number, with no leading zero |
| `Api.WeatherMissingTime` | api.py:56-60 | the shape check does not cover "time": an "hourly" object without it raises KeyError("time") |

## Left out

- The FastAPI app, CORS set-up, request model, `/api/data` endpoint and uvicorn entry point (main.py:1-19, 115-128). They are HTTP plumbing.
- The `ollama.chat` calls, with their model name and system prompt. They are foreign calls and become the `classify` and `fallback` parameters. A function parameter answers the same text the same way every time; a language model need not.
- `async`/`await`: the model runs a turn sequentially.
- The `print` logging.
- Text.Lower: lower-cases only the ASCII letters A-Z. Python's `str.lower()` also lower-cases other Unicode letters. `Text.IsSpace` does cover every character Python's `str.strip()` removes.
- `requests.get` and `response.json()`. The status, body text and decoded payload are inputs; a body that is not valid JSON is not modelled.
- Api.GetWeather: `date` is used verbatim as the prefix. The `datetime.strptime` parsing and re-rendering is not modelled, so a malformed date raising ValueError and a date such as "2023-2-4" being rewritten to "2023-02-04" are not captured.
- Query parameters are a `map`, so the order of the parameters in the query string is not modelled.
- The floats for latitude, longitude and temperature are the opaque type `N`. They are only copied.
- Decoded JSON objects are entry lists that are assumed to have distinct keys, as Python dicts do; nothing in the model enforces it, and lookup takes the first entry for a key. Duplicate keys in the raw JSON text are not modelled.
- Api.SearchResponse: the payload is given already decoded. A 200 response whose body is not JSON makes `response.json()` raise JSONDecodeError, a subclass of ValueError, and the model does not capture that. So a name of 2 or more characters can also end in a ValueError.
- PyJson.ItemAt: indexing an object with an integer raises Python's `KeyError(0)`, whose key is an int. The model renders it as `KeyError("0")`, which looks the same as a miss on the string key "0".
- Python's default arguments of `search_location` (count 1, language "en", no API key): the model's callers pass every argument.
- The interactive `__main__` block of api.py (api.py:78-91), and src/main.ts and src/send.ts (browser UI code).
- Booking, slot filling, cancellation and conversation history: main.py has none of them, so there is nothing to model.
