# GenVision Hub in Dafny

GenVision Hub is a small video-generation demo. A Flask server (`app.py`)
validates a prompt and a list of model ids, builds one placeholder result per
selected model and keeps a short most-recent-first history of prompts. A
browser controller (`static/js/app.js`, class `GenVisionHub`) keeps the model
selection, enables the generate button, sends requests and draws the results
and the history panel.

This project models both halves and proves what they promise.

- `text.dfy` (module `Text`): whitespace trimming in each runtime's sense.
  Python's `str.strip()` and JavaScript's `String.prototype.trim()` are modelled
  separately because their whitespace sets differ. Also decimal rendering of
  counts with its read-back, and `str.join`.
- `api.dfy` (module `Api`): the JSON records that travel between the two
  sides, a video result and a history entry.
- `backend.dfy` (module `Backend`): `generate_video` and `get_history`.
  - The checks are a pure function, `Validate`.
  - The results loop is a method with loop invariants, `BuildResults`.
  - The in-place history update (`insert(0, …)`, then `pop()` past ten
    entries) lives in the class `Server`, which holds `prompt_history`.
- `client.dfy` (module `Client`): the controller.
  - The page-facing helpers are pure functions: counter tier, button,
    dropdown label, `truncateText`, `formatDate` bucketing and history
    rendering.
  - The controller's state is the value `HubState`. Each handler is a pure
    transition on it, and the lemmas about those transitions state what the
    page promises.
  - The class `Hub` has the controller's fields. Each of its methods is
    proved to make exactly the transition of its handler.
  - `generateVideos` and `loadHistory` are split at their `await`. The part
    before the request is one step (`GenerateVideos`, `LoadHistory`). The
    part after the response is another step, which takes the response as an
    outcome value: `Ok`, `HttpError` with an optional error field, or
    `TransportError` with a message.
- `endtoend.dfy` (module `EndToEnd`): what the server makes of the request
  the controller sends.

Throughout the model:

- The selection is a sequence without repetitions. A JavaScript `Set`
  iterates in insertion order, and that order is the order of the request's
  `models` list.
- Page elements that no handler has written yet are `None`.
- The requests the controller has sent, and how many history fetches are
  still outstanding, are recorded in ghost fields.
- Timestamps are opaque text.
- A history entry's age in milliseconds is a function parameter, because it
  comes from the clock and from parsing a date.

The whitespace sets of the two runtimes differ on a few characters
(U+001C..U+001F and U+0085 are whitespace only to Python, U+FEFF only to
JavaScript). `EndToEnd.SentPromptRefusedAsBlank` shows the effect: a prompt
the browser sends can be refused by the server with "Prompt is required".

## Model

| member | source | states |
|---|---|---|
| Text.TrimStart | app.py:49 | the result is the suffix of the input that starts at its first non-whitespace character; everything cut off is whitespace |
| Text.TrimEnd | app.py:49 | the result is the prefix of the input that ends at its last non-whitespace character; everything cut off is whitespace |
| Text.Trim | static/js/app.js:74 | the trimmed prompt is no longer than the input and neither starts nor ends with whitespace |
| Text.TrimSplits | app.py:49 | the input is leading whitespace, then the trimmed text, then trailing whitespace |
| Text.TrimEmptyIffBlank | app.py:52 | a prompt trims to nothing exactly when every character is whitespace |
| Text.TrimIdempotent | static/js/app.js:103 | trimming an already trimmed prompt changes nothing |
| Text.BlankDiffersBetweenRuntimes | static/js/app.js:103-104 | U+001C survives JavaScript's trim but Python's strip removes it |
| Text.SpaceAgreement | app.py:49 | every character JavaScript trims, except U+FEFF, Python strips too |
| Text.NatToString | app.py:79 | a count renders as a non-empty string of decimal digits with no leading zero |
| Text.DecimalRoundTrip | app.py:101 | reading the rendered digits back gives the count |
| Text.NatToStringInjective | static/js/app.js:95 | different counts render as different texts |
| Backend.Unknown | app.py:59 | an id is in the invalid list exactly when it was requested and is not a known model; the list is no longer than the request |
| Backend.UnknownAppend | app.py:59-61 | filtering a concatenation concatenates the filtered parts, so invalid ids keep their request order |
| Backend.Validate | app.py:48-61 | a request is accepted exactly when its prompt is not all whitespace, its model list is non-empty and every id is known; otherwise the error is "Prompt is required", then "At least one model must be selected", then "Invalid models: " with the invalid ids joined by ", ", checked in that order; an accepted prompt is the stripped, non-empty prompt |
| Backend.DisplayNames | app.py:88 | the history entry's models are the display names of the requested ids, position by position |
| Backend.BuildResults | app.py:66-83 | one result per requested id, in request order; each has that id, its display name, the video `/static/videos/` + `placeholder{i mod 3 + 1}.mp4`, the prompt, generation time `"{2+i}s"`, the given timestamp and 0 likes |
| Backend.GenerationTimeReadsBack | app.py:79 | the i-th result's generation time is digits followed by `s`, and the digits read back as 2 + i |
| Backend.PlaceholdersCycle | app.py:68-72 | results three positions apart show the same placeholder video |
| Backend.Remember | app.py:92-96 | the new entry comes first and the earlier entries follow in their old order, cut from the end; a history of at most 10 entries becomes one entry longer, but never longer than 10 |
| Backend.RememberAllKeepsNewest | app.py:92-96 | after any run of successful requests the history is the newest entries, newest first, then the earlier history, cut to 10 entries |
| Backend.Server.constructor | app.py:37 | the server starts with an empty history |
| Backend.Server.Generate | app.py:45-102 | a refused request gets status 400 with the validation error and leaves the history unchanged; an accepted one gets the results of `BuildResults`, the message "Generated {n} videos successfully" with n the number of models, and the history updated by `Remember` with the trimmed prompt, the display names and the result count; the history never exceeds 10 entries |
| Backend.Server.GenerateAccepted | app.py:66-102 | past the checks: the results describe the run, the message counts the models, the history is updated by `Remember` and stays within 10 entries |
| Backend.Server.GetHistory | app.py:108-111 | returns the stored history unchanged, at most 10 entries |
| Client.SetAdd | static/js/app.js:47 | the selection gains the id, keeps its repetition-free order, and a new id goes last |
| Client.SetDelete | static/js/app.js:49 | the selection loses exactly the id and stays repetition-free; an absent id changes nothing, and in a repetition-free selection the id is cut out of its position with the other ids in their insertion order |
| Client.SetDeleteIdempotent | static/js/app.js:49 | clearing a box twice is clearing it once |
| Client.DistinctSize | static/js/app.js:89 | the selection's size is its number of distinct ids |
| Client.CounterTier | static/js/app.js:61-67 | up to 350 characters the counter is secondary, 351 to 450 warning, above 450 danger |
| Client.CanGenerateIffNonBlank | static/js/app.js:74-76 | the button is enabled exactly when the prompt has a non-whitespace character, some model is selected and no request is in flight |
| Client.ButtonFor | static/js/app.js:76-84 | the button is disabled exactly when generation is not allowed, and shows "Generating..." exactly while a request is in flight |
| Client.DropdownFor | static/js/app.js:91-97 | the dropdown says "Select Models" exactly at size 0 and is emphasised exactly when something is selected; otherwise it reads "Models (n)" whose digits read back as the size |
| Client.DropdownShowsCount | static/js/app.js:95 | different selection sizes give different dropdown labels |
| Client.TruncateText | static/js/app.js:297-300 | a text that fits comes back unchanged; a longer one becomes its first maxLength characters followed by "..." |
| Client.AgeOf | static/js/app.js:305-309 | with h the whole hours of the age rounded down: under one hour (negative ages included) is "just now", 1 to 23 hours is h hours, 1 to 6 days is floor(h / 24) days, a week or more is older |
| Client.AgeOfMonotone | static/js/app.js:305-311 | an older entry never lands in a newer bucket, and within a bucket the count does not decrease |
| Client.FormatDate | static/js/app.js:302-312 | with h the whole hours of the age rounded down: "Just now" below one hour, "{h}h ago" from 1 to 23 hours, "{floor(h / 24)}d ago" from 24 to 167 hours, and the locale date from a week on or when the date does not parse |
| Client.FormatDateSamples | static/js/app.js:302-312 | thirty minutes, five hours, three days and ten days ago read "Just now", "5h ago", "3d ago" and the locale date |
| Client.RenderHistory | static/js/app.js:271-295 | the empty-state text exactly for an empty list, otherwise one item per entry in list order, each holding the prompt cut to 60 characters, the model names and the relative time |
| Client.FailureText | static/js/app.js:130-140 | a non-2xx response shows the server's error field if present and non-empty, otherwise "Failed to generate videos"; a thrown error shows its message, or "Failed to generate videos. Please try again." if that is empty |
| Client.Initial | static/js/app.js:4-16 | the fresh controller is consistent, idle, with nothing selected, an empty history, one history fetch sent and the button disabled and idle |
| Client.Toggled | static/js/app.js:45-54 | ticking adds the id and clearing removes it, other ids are untouched and keep their insertion order (a newly ticked id goes last, a cleared one is cut out of its place), the dropdown is redrawn, and the controller stays consistent |
| Client.Typed | static/js/app.js:56-70 | the counter's tier follows the untrimmed length, only the input, counter and button change, and the controller stays consistent |
| Client.Submitted | static/js/app.js:100-114 | no change while a request is in flight or nothing is selected; "Please enter a prompt" for a blank prompt; otherwise a request goes out exactly when the button allows it, carrying the trimmed prompt and the selection in insertion order, with the flag set, the button busy, the loading indicator shown and the results hidden |
| Client.Settled | static/js/app.js:116-145 | whatever the outcome, the flag is cleared, the loading indicator hidden and the button recomputed; on success the cards are drawn, a history fetch sent and the message shown; on failure the error text is shown and nothing else changes |
| Client.HistoryReceived | static/js/app.js:259-269 | a successful fetch replaces the held history wholesale and draws it; a failed one leaves the list and the panel as they were; either way one fewer fetch is outstanding and nothing else changes |
| Client.LikeSettled | static/js/app.js:236-257 | a like request is sent and then "Video liked!" or "Failed to like video" is shown |
| Client.ButtonMatchesSubmit | static/js/app.js:76-78 | in a consistent state the button is enabled exactly when a click sends a request |
| Client.AtMostOneInFlight | static/js/app.js:101 | once a click has sent a request, a second click does nothing and the button is disabled |
| Client.AttemptEndsIdle | static/js/app.js:109-145 | every attempt that sends its request ends idle, whatever the outcome: flag cleared, indicator hidden, button enabled again, and the sent request is the trimmed prompt with the selection |
| Client.ToggleIdempotent | static/js/app.js:45-50 | ticking or clearing a box twice is doing it once |
| Client.DropdownCountsSelection | static/js/app.js:89-95 | the dropdown shows the number of distinct selected ids |
| Client.LikeIgnoresServerError | static/js/app.js:248-255 | a failed like shows the same text whatever error the server gave |
| Client.Hub.constructor | static/js/app.js:4-16 | the controller's fields start as `Initial` describes, and it is consistent |
| Client.Hub.HandleModelSelection | static/js/app.js:45-54 | keeps the controller consistent and makes exactly the `Toggled` transition |
| Client.Hub.HandlePromptInput | static/js/app.js:56-70 | keeps the controller consistent and makes exactly the `Typed` transition |
| Client.Hub.UpdateGenerateButtonState | static/js/app.js:72-85 | sets the button from the prompt, selection and flag, and nothing else |
| Client.Hub.UpdateDropdownButton | static/js/app.js:87-98 | sets the dropdown from the selection size, and nothing else |
| Client.Hub.GenerateVideos | static/js/app.js:100-126 | keeps the controller consistent and makes exactly the `Submitted` transition |
| Client.Hub.SetGenerating | static/js/app.js:109-110 | sets the in-flight flag and redraws the button to match, and nothing else |
| Client.Hub.ShowLoading | static/js/app.js:113-126 | shows the loading indicator, hides the results and sends the request, and nothing else |
| Client.Hub.FinishGeneration | static/js/app.js:128-145 | keeps the controller consistent and makes exactly the `Settled` transition |
| Client.Hub.ShowBatch | static/js/app.js:134-136 | draws the cards, sends a history fetch and shows the message, and nothing else |
| Client.Hub.LoadHistory | static/js/app.js:259-261 | records one more history fetch sent, and nothing else |
| Client.Hub.ReceiveHistory | static/js/app.js:262-268 | keeps the controller consistent and makes exactly the `HistoryReceived` transition |
| Client.Hub.ShowHistory | static/js/app.js:264-265 | replaces the held history and draws it as `RenderHistory` describes, and nothing else |
| Client.Hub.DisplayHistory | static/js/app.js:271-295 | draws the held history as `RenderHistory` describes, and nothing else |
| Client.Hub.LikeVideo | static/js/app.js:236-257 | keeps the controller consistent and makes exactly the `LikeSettled` transition |
| EndToEnd.SentRequestVerdict | app.py:49-61 | a request the button lets through, with known ids, is accepted exactly when its prompt is not all Python whitespace; the server then generates for the selection in the controller's order, with the prompt stripped again; otherwise the error is "Prompt is required" |
| EndToEnd.SentPromptRefusedAsBlank | static/js/app.js:74-76 | a prompt of one character that only Python counts as whitespace (U+001C..U+001F or U+0085) enables the button and is sent unchanged, yet it is all whitespace to the server, which refuses it with "Prompt is required" whatever models are selected |
| EndToEnd.BlankPromptRefused | app.py:49-53 | a request whose prompt is all Python whitespace is refused with "Prompt is required", whatever models it names |

## Left out

- Flask routing, CORS, `render_template`, `request.get_json` and the generic 500 path for a body Flask cannot parse: requests and responses are abstract values. A request's `prompt` and `models` are optional, and a missing one reads as the empty default.
- JSON values of the wrong type (a non-string prompt, a non-list models value, a non-string error field): the model only has strings and lists of strings there.
- `time.sleep(2)` and `datetime.now().isoformat()`: one opaque timestamp is a parameter of `Server.Generate`. The source reads the clock once per result and once more for the history entry, so its timestamps can differ by microseconds; the model uses one value for all of them.
- The model table's descriptions and capabilities: only `index` and `get_models` read them. The model keeps each id's display name.
- `index`, `get_models` and `like_video`: stateless endpoints. `index` and `get_models` always succeed. `like_video` succeeds for any JSON-object body, and answers 500 "Failed to like video" when the body parses to something else (JSON `null` or a list), which depends on Flask's parsing as the generate endpoint's 500 path does. Only the client side of a like is modelled.
- DOM and HTML: markup, Bootstrap modals and toasts, `scrollIntoView`, the spinner icons in the button, `createVideoItem` and its `animation-delay`. Notifications are a list of success or failure texts, and the results grid is the list of results drawn.
- `bindEventListeners`: the change, input, click and Ctrl+Enter handlers only call the modelled handlers.
- `downloadVideo`: it uses Blob and object-URL browser APIs and `Date.now()`.
- `fetch` and `response.json()`: a request settles as an outcome value. A body that does not parse counts as a thrown error.
- Locale dates: `toLocaleString`, `toLocaleDateString` and the re-parse of the locale string inside `formatDate` are runtime-dependent. The age in milliseconds and the locale date text are parameters, and an age that does not parse is `None`, which yields the locale date.
- Interleaving of async handlers: each handler, and each half of `generateVideos` and `loadHistory` around its `await`, is one atomic step. Which history response arrives last is up to the caller.
- History responses whose body parses but holds no `history` list: `loadHistory` never checks `response.ok`, so a non-2xx JSON body, like a 2xx body without a `history` field, is stored as `undefined` and then makes `displayHistory` throw, and the held list is lost. The model treats every non-`Ok` outcome as leaving the list unchanged.
- String lengths: JavaScript counts UTF-16 code units and Python counts code points; the model counts characters.
