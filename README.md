# Conversational chatbot turn processing, in Dafny

This project models the turn-processing core of the `ConversationalBot`
chatbot in its two variants:

- `conversational_agent.py`: three tools (weather by coordinates, Wikipedia
  summaries, text reversal), chosen by keywords in the **user's query** and
  appended to the model's answer.
- `single_agent.py`: one tool (Wikipedia), triggered by the word "wikipedia"
  in the **model's answer**.

Each bot keeps a `conversation_history` of `(role, content)` entries. A
non-empty query is answered. The prompt is the system prompt, the header
`"\n\nConversation:\n"`, one `role: content` line per stored entry and a final
`user: <query>` line. Then a user entry and an assistant entry are appended,
and only the newest ten entries are kept.

The language model, the HTTP weather service, the Wikipedia library, the
clock and Python's `float()` are inputs:

- the model is a function `llm: string -> Completion` from prompt to
  `Text(s) | Empty | Failure(msg)`;
- the forecast request is `forecast: (real, real) -> WeatherReply` and the
  current time `clock` is an integer number of microseconds, the resolution of
  Python's `datetime`;
- Wikipedia is `Encyclopedia.Service(search, page)`: the title search (titles or
  an error text) and the page fetch by exact title (a summary or nothing);
- `float()` on a coordinate token is `parseFloat: string -> Option<real>`.

Files:

- `wrappers.dfy`: `Option` and `Result`.
- `py_strings.dfy` (`PyStrings`): the Python `str` operations used, with their
  laws. These are `lower()`, `in`, `replace(p, "")`, `strip()`, `rstrip(c)`,
  `split()`, `join`, `split(c)` and `[::-1]`.
- `conversation.dfy` (`Conversation`): turns, the ten-entry window, prompt
  rendering and the completion fallback, shared by both variants.
- `encyclopedia.dfy` (`Encyclopedia`): `search_wikipedia` and its best-effort
  summary loop, shared by both variants, which differ only in the error prefix.
- `conversational_agent.dfy` (`ConversationalAgent`): the three tools, the
  keyword router, `process_query` and the `Bot` class with `Interact`.
- `single_agent.dfy` (`SingleAgent`): its `search_wikipedia`, `process_query`
  and `Bot` class.

The specification functions `Route`, `WeatherScan`, `WithTool`, `Answer` and
`Encyclopedia.WikiResult` (shared by both variants, which pass their own error
prefix) define what a turn computes. The methods that
mirror the Python loops (`BuildPrompt`, `CollectSummaries`,
`ScanForCoordinates`) and the `ProcessQuery` methods are proved equal to them.
The lemmas below state what those functions promise.

Behaviour that follows the code where a plain reading might expect otherwise:

- In `get_current_temperature`, an exception from `requests.get` is caught by
  the general handler. It gives `"Error fetching weather: ..."`, not the fixed
  `"Weather API failed."`, which is only for a non-200 status.
- The weather branch does not stop at the first `latitude` token. Every token
  equal to "latitude" (any case) that has a next token adds one tool result. A
  coordinate that `float()` rejects ends the loop through the bare `except`,
  and the results already added are kept.
- Timestamps written with a UTC offset (the code rewrites a `Z` suffix to
  `+00:00`) become offset-aware datetimes. Subtracting the naive
  `datetime.utcnow()` from them raises `TypeError`, so any such timestamp turns
  the lookup into `"Error fetching weather: can't subtract offset-naive and
  offset-aware datetimes"`. The model keeps this (`OffsetTimestampFails`).
- In `single_agent.py`, `query.split("wikipedia","")` passes a string as the
  maximum split count. Whenever the model's answer mentions "wikipedia", the
  turn therefore ends in `"Error processing query: 'str' object cannot be
  interpreted as an integer"` and the search never runs. The model keeps this
  too, and that error text is stored as the assistant entry.
- Keyword tests use the lower-cased query, but the removal of "wikipedia",
  "search" and "reverse" is case-sensitive. So "Wikipedia Paris" searches for
  "Wikipedia Paris" (`SearchQueryKeepsOtherCasings`).

## Model

| member | source | states |
|---|---|---|
| `PyStrings.ContainsIff` | conversational_agent.py:101 | the recursive `p in s` holds exactly when `p` occurs at some position of `s` |
| `PyStrings.ContainsLower` | conversational_agent.py:114-115 | an exact-case occurrence of a lower-case keyword is also found in the lowered text |
| `PyStrings.RemoveUnchangedIff` | conversational_agent.py:115 | `s.replace(p, "")` leaves `s` unchanged exactly when `p` does not occur in `s` |
| `PyStrings.Strip` | conversational_agent.py:115-116 | `strip()` is the slice of `s` after its leading whitespace, with only whitespace after it; it is empty exactly when every character is whitespace, and otherwise starts and ends with non-whitespace |
| `PyStrings.RStrip` | conversational_agent.py:107-108 | `rstrip(",")` is a prefix of the token, does not end in a comma, and only commas were cut |
| `PyStrings.Words` | conversational_agent.py:104 | every token of `split()` is non-empty and holds no whitespace |
| `PyStrings.WordsSkipLead` | conversational_agent.py:104 | `split()` ignores any leading run of whitespace, of any kind and length |
| `PyStrings.WordsAllSpace` | conversational_agent.py:104 | `split()` of a text that is all whitespace, or empty, has no tokens |
| `PyStrings.WordsOfWordThen` | conversational_agent.py:104 | a whitespace-free word followed by the end or by whitespace is the first token, taken whole; with the two lemmas above this fixes `split()` on every text: tokens are the maximal non-whitespace runs |
| `PyStrings.WordsOfJoin` | conversational_agent.py:104 | splitting whitespace-free tokens joined by single spaces gives the tokens back |
| `PyStrings.WordsKeepNonSpace` | conversational_agent.py:104 | the tokens of `split()` put together are exactly the non-whitespace characters of the query, in order |
| `PyStrings.SplitJoin` | conversational_agent.py:92 | splitting a `"\n".join` on the separator gives back the pieces when none contains it |
| `PyStrings.Reverse` | conversational_agent.py:60 | `[::-1]` has the same length and puts character `i` at position `len - 1 - i` |
| `PyStrings.ReverseInvolution` | conversational_agent.py:60 | reversing twice gives back the text |
| `PyStrings.Lower` | conversational_agent.py:101 | `lower()` keeps the length and lowers each ASCII letter in place |
| `Conversation.Window` | conversational_agent.py:143-144 | the kept history has min(length, 10) entries and is the newest suffix of what was there |
| `Conversation.WindowOfWindow` | conversational_agent.py:139-144 | trimming after every turn keeps the same entries as trimming once over everything ever said |
| `Conversation.ExchangeKeepsNewest` | conversational_agent.py:139-144 | after a turn the history has min(old + 2, 10) entries; it ends with the user entry then the assistant entry, preceded by the newest old entries (oldest dropped first) |
| `Conversation.BuildPrompt` | conversational_agent.py:87-95 | the `messages` loop, the join and the f-string give the prompt: system prompt, header, one line per entry, then `user: <query>` |
| `Conversation.PromptRendersQueryAsUserTurn` | conversational_agent.py:88-90 | the query line is rendered exactly as the user entry that will be stored after the turn |
| `Conversation.PromptLinesRecoverable` | conversational_agent.py:87-95 | the prompt starts with system prompt and header; when no content has a line break, the rest splits back into the history lines and the query line |
| `Conversation.PromptIsAmbiguous` | conversational_agent.py:89-92 | a user entry containing `"\nassistant: "` gives the same prompt as two separate entries, because line breaks are not escaped |
| `Conversation.BaseAnswer` | conversational_agent.py:98 | a non-empty model text is the answer; no text or empty text gives "I couldn't generate a response." |
| `Encyclopedia.Candidates` | conversational_agent.py:48 | `titles[:3]` is a prefix of the titles of length min(3, number of titles) |
| `Encyclopedia.CollectSummaries` | conversational_agent.py:47-53 | the fetch loop yields one `**title**\n summary` block per fetched candidate, failed fetches skipped, in rank order |
| `Encyclopedia.SummariesAppend` | conversational_agent.py:48-53 | the blocks of consecutive title lists follow one another, so rank order is kept |
| `Encyclopedia.SummariesCount` | conversational_agent.py:48-53 | there are at most as many blocks as titles; none exactly when every fetch fails; one per title when every fetch succeeds |
| `Encyclopedia.SummariesAreBlocks` | conversational_agent.py:51 | every kept entry starts with the bold title marker |
| `Encyclopedia.OnlyFirstThreeMatter` | conversational_agent.py:48 | titles after the third never change the result |
| `Encyclopedia.AggregateNoResultIff` | conversational_agent.py:54 | the result is "No good result found." exactly when no candidate page could be fetched |
| `Encyclopedia.AggregateShape` | single_agent.py:29 | a successful search gives either the fixed no-result text or text that starts with a title block |
| `ConversationalAgent.ClosestIndex` | conversational_agent.py:38 | the chosen hour is at least as close to now as every other, and strictly closer than every earlier one |
| `ConversationalAgent.ClosestIndexUnique` | conversational_agent.py:38 | those two properties determine the index: it is the stable argmin |
| `ConversationalAgent.ClosestIndexExample` | conversational_agent.py:38 | for readings at now-2h, now-1h and now+1h the reading at now-1h is chosen |
| `ConversationalAgent.CurrentTemperature` | conversational_agent.py:21-41 | "Weather API failed." exactly for a non-200 status; every other outcome is a temperature text or an "Error fetching weather: " text, never an exception; a raised request or an undecodable body gives the prefix followed by the exception's text, no hours gives the empty-`min` text, and hours with no temperatures give the list-index text |
| `ConversationalAgent.CurrentTemperatureReadsClosestHour` | conversational_agent.py:32-39 | for a status-200 forecast with naive timestamps and matching arrays, the result reports the reading of the earliest closest hour in degrees Celsius |
| `ConversationalAgent.OffsetTimestampFails` | conversational_agent.py:35-38 | one offset-aware timestamp makes the lookup return the naive/aware subtraction error |
| `Encyclopedia.SearchWikipedia` | conversational_agent.py:43-56 | a failed search gives the bot's error prefix ("Error searching Wikipedia: " here) and its message; otherwise the candidates' blocks joined by blank lines, or the no-result text |
| `ConversationalAgent.CreateYourOwn` | conversational_agent.py:58-60 | the result is "You sent: ", the text, ". This reverses it: ", then a tail that reverses back to the text |
| `ConversationalAgent.CreateYourOwnExample` | conversational_agent.py:58-60 | "abc" gives "You sent: abc. This reverses it: cba" |
| `ConversationalAgent.RouteByExactKeyword` | conversational_agent.py:101-120 | the exact keywords always trigger their branch under the case-insensitive tests; "temperature" with "latitude" selects weather whatever else the query says |
| `ConversationalAgent.SearchQueryKeepsOtherCasings` | conversational_agent.py:114-115 | when neither exact "wikipedia" nor "search" occurs, the search argument is the whole query stripped |
| `ConversationalAgent.ScanForCoordinates` | conversational_agent.py:103-112 | the token loop gives one tool result per "latitude" token with a successor, and stops at the first coordinate `float` rejects |
| `ConversationalAgent.WeatherScanExtends` | conversational_agent.py:103-112 | the weather loop only appends: the model's answer stays in front |
| `ConversationalAgent.WeatherScanWithoutLatitude` | conversational_agent.py:105-106 | with no "latitude" token that has a successor, the weather loop adds nothing |
| `ConversationalAgent.UseTools` | conversational_agent.py:100-124 | the `if`/`elif` chain runs at most one tool, in the order weather, Wikipedia, reverse, and only with a non-empty argument |
| `ConversationalAgent.ProcessQuery` | conversational_agent.py:83-129 | prompt, completion, fallback, routing and the error answer together give the turn's answer |
| `ConversationalAgent.AnswerOnFailure` | conversational_agent.py:128-129 | a failing model call gives "Error: " and its message, and no tool runs |
| `ConversationalAgent.AnswerKeepsModelText` | conversational_agent.py:98-126 | when the model answers, its text (or the fallback) begins the answer; with no keyword it is the whole answer |
| `ConversationalAgent.WeatherBranchWins` | conversational_agent.py:101-114 | when the weather keywords are present the answer is the weather loop's, even if it adds nothing |
| `ConversationalAgent.EmptyArgumentRunsNoTool` | conversational_agent.py:115-124 | a search or reversal argument that strips to nothing leaves the answer unchanged |
| `ConversationalAgent.Bot.constructor` | conversational_agent.py:66-69 | a new bot has no history and no rows |
| `ConversationalAgent.Bot.Interact` | conversational_agent.py:131-152 | an empty query changes nothing and shows nothing; otherwise both entries are logged, the history is the newest ten entries, the two rows are shown, and the history never exceeds ten entries |
| `ConversationalAgent.Bot.Store` | conversational_agent.py:139-150 | the stored history becomes the newest ten of the old history plus the user and assistant entries, the log grows by those two, and two rows are added |
| `Encyclopedia.WikiResultPrefixOnlyOnError` | single_agent.py:18-31 | the one-tool search differs from the three-tool one only by its prefix "Error searching wikipedia: ", which shows only when the title search fails, and then heads its message |
| `SingleAgent.ProcessQuery` | single_agent.py:49-73 | prompt, completion, fallback, the answer-text trigger and the error answer together give the turn's answer |
| `SingleAgent.AnswerOnFailure` | single_agent.py:72-73 | a failing model call gives "Error processing query: " and its message |
| `SingleAgent.AnswerRoutesOnModelText` | single_agent.py:63-71 | a model text mentioning "wikipedia" in any case ends in the `split` TypeError text; any other text is returned unchanged |
| `SingleAgent.EmptyCompletionGivesFallback` | single_agent.py:63-66 | no completion text, or an empty one, gives "I couldn't generate a response.", which never triggers the search |
| `SingleAgent.QueryIsNotTheTrigger` | single_agent.py:66 | the query affects the answer only through the prompt: equal completions give equal answers whatever the queries say |
| `SingleAgent.Bot.constructor` | single_agent.py:36-39 | a new bot has no history and no rows |
| `SingleAgent.Bot.Store` | single_agent.py:83-94 | the stored history becomes the newest ten of the old history plus the user and assistant entries, the log grows by those two, and two rows are added |
| `SingleAgent.Bot.Interact` | single_agent.py:75-96 | an empty query changes nothing and shows nothing; otherwise both entries (an error answer included) are logged and the newest ten are kept |

## Left out

- The Panel user interface: rows are kept as `(speaker, text)` entries in
  `panels`, and the `WidgetBox` returned by `interact` is `Some(panels)`. Layout,
  widths, styles and the row labels' emoji are not modelled.
- Start-up: loading `.env`, the API-key check and `genai.configure` happen
  once at import time, before any turn.
- The Gemini call, the HTTP request with its JSON decoding, and the Wikipedia
  library calls are inputs (see above). Their exception texts are opaque
  strings; only the fixed prefixes and the texts of the exceptions Python
  itself raises (empty `min`, naive/aware subtraction, list index, the `split`
  TypeError) are spelled out.
- `EmptyMinMessage` is CPython 3.11's text, "min() arg is an empty sequence";
  CPython 3.12 and later say "min() iterable argument is empty" instead. The
  repository names no interpreter version, so for a status-200 forecast with
  no hours `CurrentTemperature` matches the source on 3.11 and earlier only.
- Clock and timestamps: times are integer microseconds and "now" is one reading
  per turn. When a query has several "latitude" tokens, Python reads the clock
  once per lookup; the model uses one reading for all of them.
- Floating point: `float()` of a coordinate token is the input `parseFloat`,
  and temperatures are their printed text.
- `Lower` only lowers ASCII letters. Python's `str.lower` also folds other
  scripts, so a keyword spelled with non-ASCII letters that lower to ASCII
  (the Kelvin sign for `k`, for instance) is not recognised by the model.
- The one-tool bot's `search_wikipedia` (`Encyclopedia.SearchWikipedia` with
  its prefix) is modelled but never reached from a turn, because the branch
  that would call it raises first.
