# Daily deal bot: headline collection and model fallback

This project models `analyze_market_news` in `main.py` of the Daily-deal-bot
repository, with Dafny 4.11, and proves properties of the model. The script
reads an RSS feed of NBFC and banking deal news. It turns the first ten
entries into headline lines. It gives up when there are no headlines or no
API key. It builds an analysis prompt from a fixed header, the headlines and
a fixed trailer. Then it asks the Gemini models of `MODELS`, one at a time in
order, until one answers 200 with readable text.

The model performs no I/O: the feed, the environment and the HTTP service
are inputs of the model.

- The feed is the sequence of entry titles.
- The API key is the optional value of each environment variable. `ResolveKey`
  applies Python's `or` and truthiness, so unset and empty both count as missing.
- The service is a total function from a `Request` (model, key, prompt) to a
  `Response`. A `Response` is either a status with the body decoded as JSON
  (`None` when `response.json()` would raise), or `Raised` when
  `requests.post` itself raises.
- The printed log lines become the `Attempt` trace: one entry per loop pass,
  holding the model and its classified `Outcome`.

Files:

- `wrappers.dfy`: the `Option` datatype.
- `response_body.dfy`: decoded JSON values and the subscript chain
  `['candidates'][0]['content']['parts'][0]['text']` with Python semantics.
  KeyError and IndexError give `Missing`, which the inner handler catches.
  TypeError gives `WrongType`, which only the outer handler catches.
- `lines.dfy`: `"\n".join` and `split("\n")`.
- `market_news.dfy`: the constants, headline collection, the prompt, response
  classification, the fallback loop and the whole run.

`main.py` calls each model at most once, with no retry; a 503 is handled
like any other non-200 status.

## Model

| member | source | states |
|---|---|---|
| `MarketNews.Truthy` | main.py:35 | definition; no contract: a key is truthy unless it is unset or empty, so `not API_KEY` holds exactly for those two |
| `MarketNews.ResolveKey` | main.py:19 | the key is present exactly when one of the two variables is set to a non-empty value; `GEMINI_API_KEY` wins when it is set |
| `MarketNews.CollectHeadlines` | main.py:25-27 | at most ten lines, as many as there are entries up to ten; line i is `"- "` followed by the title of entry i, in feed order |
| `MarketNews.Prompt` | main.py:39-51 | definition; no contract: header, the newline-joined headlines, then a blank line and the output instructions |
| `Lines.Join` | main.py:46 | definition; no contract: `"\n".join` |
| `MarketNews.PromptContainsHeadline` | main.py:39-51 | every headline stands in the prompt at a known offset after the header, and each one lies wholly before the next |
| `MarketNews.PromptHeadlinesRecoverable` | main.py:39-51 | the prompt starts with the header and ends with the trailer; when no title holds a line break, splitting the part between them on line breaks gives back exactly the headlines, in order |
| `Lines.JoinLineAt` | main.py:46 | in the newline-joined text, line i occupies the slice starting after all earlier lines and separators |
| `Lines.LineStartsIncrease` | main.py:46 | line i + 1 starts right after line i and one separator |
| `Lines.SplitJoin` | main.py:46 | splitting the join of one or more lines without line breaks on line breaks gives back the lines |
| `ResponseBody.ExtractText` | main.py:73-75 | a body that is not a JSON object raises TypeError; an object without `candidates`, or with an empty `candidates` list, raises KeyError or IndexError |
| `ResponseBody.FollowBuild` | main.py:75 | following a subscript path through the value built for it reaches the leaf |
| `ResponseBody.ExtractSuccessBody` | main.py:75 | the minimal reply body built for a text yields exactly that text |
| `ResponseBody.ExtractTextFound` | main.py:73-75 | for every body, whatever other fields it holds: the lookup finds the text exactly when the body has the path `candidates[0].content.parts[0].text` through objects and non-empty lists, and then yields the value at that path |
| `ResponseBody.At` | main.py:75 | definition; no contract: one Python subscript, KeyError/IndexError for a missing key or index, TypeError for a value of the wrong kind |
| `ResponseBody.Follow` | main.py:75 | definition; no contract: the subscript chain, stopping at the first exception |
| `MarketNews.Classify` | main.py:69-98 | success only for 200 with a decodable body whose text path exists, and then with that text; unreadable exactly for 200 with a missing key or index on the path; connection error for a raised request, an undecodable 200 body or a TypeError on the path; 429 is quota exceeded, 404 is not found, and any other status s is failed with s |
| `MarketNews.ClassifyWellFormedReply` | main.py:72-82 | a 200 reply whose body has the text path, whatever other fields it holds, is a success with the text at that path |
| `MarketNews.Attempts` | main.py:56-98 | the loop never makes more passes than there are models |
| `MarketNews.AttemptsShape` | main.py:56-98 | models are tried strictly in list order, each once, each with the outcome of its own response; every attempt but the last failed; the loop ends before the last model only on a success |
| `MarketNews.AttemptsUnique` | main.py:56-98 | any trace with those properties is the loop's trace |
| `MarketNews.StopsAtFirstSuccess` | main.py:72-82 | when model k is the first that succeeds, exactly k + 1 models are tried and the last attempt carries model k's outcome |
| `MarketNews.AllFailed` | main.py:100-101 | no attempt succeeds exactly when no model succeeds, and then every model was tried |
| `MarketNews.AttemptsAppend` | main.py:12-17 | extra fallback models at the end of the list are only reached when every earlier model failed, and change nothing otherwise |
| `MarketNews.EachModelAtMostOnce` | main.py:12-17 | with the configured list no model name is tried twice |
| `MarketNews.QuotaThenUnreadableThenSuccess` | main.py:83-98 | a 429 from the first model and an unreadable 200 from the second each move on to the next; the third model's text ends the loop and the fourth is never called |
| `MarketNews.TryModels` | main.py:54-98 | the loop's trace is `Attempts`; `success` is set exactly when some model succeeds; the text is returned exactly when `success` is set, and it is the last attempt's text |
| `MarketNews.AnalyzeMarketNews` | main.py:21-101 | an empty feed returns with nothing else done; headlines without a key return before any model is called; otherwise the prompt is built from the headlines and the models are tried as `TryModels` states; when none of the first ten titles holds a line break, the headlines can be read back from the prompt |

## Left out

- Fetching and parsing the feed (`feedparser.parse`, the RSS URL): network and an external library. The feed is its sequence of titles. An entry without a title, which would make the script raise AttributeError, is not modelled.
- The HTTP request itself (URL string, headers, JSON request body, the 30-second timeout): network I/O. A `Request` carries what the URL and body are built from.
- `time.sleep(1)` after a 429: timing only; the loop goes on to the next model either way.
- All `print` output, including the text that is printed on success: console output. The `Attempt` trace and the returned text stand for it.
- Reading the environment: the two variables are inputs of `ResolveKey`.
- JSON numbers are integers in the model; floating-point values are not modelled. This does not affect the path lookup.
- The service is a function of the request, so the model does not capture answers that change over time. Each model is called at most once per run, so this does not restrict any run.
