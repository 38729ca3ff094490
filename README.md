# Opposition AI Kenya: the news pipeline and the endpoint decisions, in Dafny

This project models the deterministic core of a civic news-analysis assistant. An agent
fetches eight public RSS feeds, each with bounded retries. It builds a bounded batch of
articles from them. When the live fetch yields nothing it falls back to the last saved
batch, and then to a fixed placeholder article. It saves the batch and asks a hosted
text-generation service for one analysis per article. A small web application exposes this
through `/analyze`, `/ask` and `/recommend`.

Everything outside the repository's own logic is an input:

- The network is a function from (feed URL, attempt number) to an attempt outcome: a
  response with its status code and parsed feed, or a raised exception.
- The text-generation service is a function from (call number, article) to a reply: text,
  no text, or an error.
- The question and recommendation tools are functions from a string to a returned
  dictionary or a raised exception.
- Sleeping is recorded as `Sleep` steps in a log returned by the fetcher.
- Files are values. The news cache comes in as `Option<seq<Article>>` (None when the file
  does not exist), and the list written to it is returned. `/analyze` returns the content
  of `analysis_output.json` after the call, and `/recommend` takes it as an input.

Modules:

- `Wrappers` (wrappers.dfy): `Option`.
- `PyBuiltins` (py_builtins.dfy): `dict.get`, `str.strip()` over Python's full
  `str.isspace` character set, and `sep.join(parts)`, with the laws that characterise them.
- `OppositionAgent` (opposition_agent.dfy): `fetch_feed` as a method with its `for` loop,
  and `analyze_government_news` as imperative methods (the feed loop, the per-entry
  append loop, the fallback chain, the cache write, the analysis loop). Each is proved
  against specification functions (`FetchResult`, `FetchLog`, `LiveBatch`,
  `FinalArticles`, `AnalyzeArticle`), whose properties are proved as lemmas.
- `App` (app.dfy): the handler decisions as functions, plus `Analyze`, which composes the
  agent with the `/analyze` decision.

Three behaviours of the code are worth stating outright:

- The cache file is written on every call, with whatever list is analysed: live,
  cached or the placeholder (agents/opposition_agent.py:99-100). `AnalyzeGovernmentNews`
  states this unconditional write.
- An existing but corrupt cache file makes `json.load` raise
  (agents/opposition_agent.py:85-86). The code does not treat it as an absent cache; this
  exception path is listed under "Left out".
- Nothing is deduplicated. An entry among the first five of two sources is taken from
  both, so it appears twice in the collected list, before the cut to fifteen. For the
  extreme case, where the same feed is reached through two sources, `DuplicatesKept`
  proves the batch is exactly that source's contribution twice over.

## Model

| member | source | states |
|---|---|---|
| `PyBuiltins.Strip` | app.py:46 | the result is the contiguous slice of the input left after cutting leading and trailing whitespace: everything cut is whitespace, and the result does not begin or end with whitespace |
| `PyBuiltins.StripUnique` | app.py:46 | `strip()` is determined by that contract: for whitespace + m + whitespace, with m empty or free of whitespace at both ends, the result is m |
| `PyBuiltins.StripEmptyIffAllSpace` | app.py:46-47 | `strip()` gives "" exactly when the string is all whitespace, in both directions |
| `PyBuiltins.StripIdempotent` | app.py:66 | stripping a stripped string changes nothing |
| `PyBuiltins.JoinConcat` | app.py:74 | joining p followed by q gives join(p), one separator, then join(q): the parts stay in order and are separated exactly once |
| `PyBuiltins.JoinLength` | app.py:74 | the joined string's length is the sum of the parts' lengths plus one separator per gap |
| `PyBuiltins.JoinStartsWithFirst` | app.py:74 | the joined string begins with the first part |
| `OppositionAgent.FirstSuccess` | agents/opposition_agent.py:32-46 | the attempt it finds is the first among attempts 0..retries-1 with status 200; None means that no attempt in that range has status 200 |
| `OppositionAgent.FailedAttempts` | agents/opposition_agent.py:32-53 | n failed attempts are exactly 2n steps: request i at position 2i, followed by one sleep of `delay` |
| `OppositionAgent.FetchFeed` | agents/opposition_agent.py:30-55 | the loop returns the parsed feed of the first status-200 attempt, or None; its log is the failed attempts with their sleeps, then the successful request and nothing after it |
| `OppositionAgent.FetchSpec` | agents/opposition_agent.py:30-55 | the fetch gives None exactly when none of the `retries` attempts got status 200, and then it made `retries` requests and `retries` sleeps; on success it returns the parse of the first 200 response, makes no more requests, and does not sleep after it; every request except a successful last one is followed by exactly one sleep |
| `OppositionAgent.ToArticle` | agents/opposition_agent.py:75-79 | a present key keeps its value, even an empty one; a missing title becomes "Untitled" and a missing link "No link"; a missing summary falls back to the description, then to "No summary available." |
| `OppositionAgent.Contribution` | agents/opposition_agent.py:73-74 | a source gives min(5, number of entries) articles; a failed fetch gives none |
| `OppositionAgent.CollectedLength` | agents/opposition_agent.py:70-79 | before truncation there are exactly the sum over sources of min(5, entries) articles |
| `OppositionAgent.LiveBatch` | agents/opposition_agent.py:81 | the live batch is the first min(15, collected count) collected articles: a prefix, in source order |
| `OppositionAgent.LiveBatchLength` | agents/opposition_agent.py:70-81 | the live batch has min(15, sum over sources of min(5, entries)) articles |
| `OppositionAgent.CollectedConcat` | agents/opposition_agent.py:71-79 | collecting over sources p then q gives p's articles followed by q's |
| `OppositionAgent.CollectedSlice` | agents/opposition_agent.py:71-79 | source i's articles sit, in feed order, after those of every earlier source and before those of every later one |
| `OppositionAgent.SilentSourceSkipped` | agents/opposition_agent.py:72-73 | a source whose fetch gives None, or a feed without entries, contributes nothing, and processing goes on with the next source |
| `OppositionAgent.DuplicatesKept` | agents/opposition_agent.py:71-79 | the same feed reached twice yields exactly its contribution twice over, so the first article appears at both block starts: duplicates are not removed |
| `OppositionAgent.AppendEntries` | agents/opposition_agent.py:73-79 | the per-entry loop appends exactly the source's contribution to the running list |
| `OppositionAgent.CollectArticles` | agents/opposition_agent.py:70-81 | fetching every source in declaration order with 3 retries and a 5-second delay, then truncating, gives the live batch of what each fetch returned |
| `OppositionAgent.FinalArticles` | agents/opposition_agent.py:83-97 | the analysed list is never empty; it is the live batch when that is non-empty, else the cached list untruncated when the cache exists and is non-empty, else exactly the placeholder article |
| `OppositionAgent.CacheStable` | agents/opposition_agent.py:83-100 | saving the final list makes the next total-failure call return that same list, and a repeated call with the same live data saves the same list: nothing accumulates |
| `OppositionAgent.AnalyzeArticle` | agents/opposition_agent.py:122-138 | the record copies the article's title and link; non-empty text is kept; empty or missing text becomes "⚠️ No analysis generated."; an error becomes "⚠️ AI generation error: " plus its message; the analysis is never empty |
| `OppositionAgent.AnalyzeArticles` | agents/opposition_agent.py:102-138 | exactly one record per article, in article order, each made from that call's reply; an error does not stop the loop |
| `OppositionAgent.AnalyzeGovernmentNews` | agents/opposition_agent.py:58-144 | the cache is overwritten with exactly the final list (live, cached or placeholder), and that list is the one analysed; the report has status "success", the given timestamp, and one analysis per saved article |
| `App.ReportFile` | app.py:22-25 | the saved report keeps each analysis's title, text and source, in order |
| `App.AnalyzeNews` | app.py:19-37 | a completed analysis is returned with code 200 and saved; after an exception, it returns status "warning" with the cached list as `analyses` if the cache exists, and otherwise status "error" with code 500; a failed call does not write the file |
| `App.AskQuestion` | app.py:43-54 | the reply is 400 with an `error` field exactly when the question is empty after `strip()`; otherwise the stripped question goes to the tool, whose dictionary is returned, or whose exception becomes a 500 error |
| `App.ForwardedQuestionStripped` | app.py:46-51 | a forwarded question has no whitespace at either end |
| `App.AskRejectsBlank` | app.py:45-48 | `/ask` rejects a question exactly when it is whitespace only |
| `App.AnalysisTexts` | app.py:74 | one text per saved entry, in order, "" where `analysis` is missing; none when the `analyses` key is missing |
| `App.RecommendTopic` | app.py:62-76 | a POST with a non-empty stripped `topic` uses it; otherwise, including every GET, the saved analyses joined by "\n" when the file exists, else "Current government policy and recent news in Kenya." |
| `App.GetIgnoresBody` | app.py:62-69 | a GET's topic does not depend on any body |
| `App.RecommendPolicy` | app.py:78-82 | the reply carries the recommender's `recommendations` value, or "⚠️ No recommendation generated." when that key is absent; an exception gives a 500 error |
| `App.RecommendReadsSavedReport` | app.py:69-74 | after `/analyze` saves a report, `/recommend` receives the report's analysis texts, in order, joined by newlines |
| `App.Analyze` | app.py:20-26 | `/analyze` when nothing raises: the agent's report is returned with status "success" and code 200 and is saved. Its timestamp is the given one, and it holds one analysis per article the agent saved to the cache, each made from that call's reply. Afterwards a GET on `/recommend` never sends an empty topic |

## Left out

- HTTP and TLS details (headers, the 10-second timeout, certificate checking) are left out. Each attempt is an abstract outcome.
- Feed parsing (`feedparser.parse`, RSS versus RDF) is left out. A response already carries its parsed feed, as a list of entries with string fields. Malformed content is a feed with no entries.
- `ToArticle` reads `description` as a plain key. In feedparser's entry dictionary, `get("description")` is an alias lookup (the summary, then the subtitle), and that alias resolution is left to the parser abstraction.
- Console messages (`print`) are left out. They do not affect any result.
- FetchFeed: `delay` is a `nat`. A negative delay makes `time.sleep` raise `ValueError` outside the `try` (agents/opposition_agent.py:53), and the exception would leave `fetch_feed`; that path is not modelled. The only call site passes the default, 5.
- `time.sleep` appears only as `Sleep` steps in the fetcher's log. `CollectArticles` does not keep the logs of the individual fetches.
- JSON file reading and writing, and creating the cache directory, are left out. The cache holds typed articles.
- Exceptions raised inside `analyze_government_news` are not modelled. These are a cache file that is not valid JSON or whose JSON is a truthy value other than a list of objects (a falsy value such as `null`, `{}`, `0` or `""` is treated like an empty list by the `if not articles` test at agents/opposition_agent.py:88, and so gives the placeholder), cached entries without `title`, `summary` or `link` (all three are read building the prompt, outside the `try`, agents/opposition_agent.py:116-118), and write failures. So `AnalyzeGovernmentNews` always returns, and `AnalyzeNews` takes the exception as an input.
- An exception while `/analyze` re-reads the cache in its fallback branch is not modelled.
- `datetime.now()` is not modelled. The timestamp is an input.
- The text-generation client and every prompt are left out, because they are foreign calls. This covers `citizen_question` and `policy_recommendation`, including their own fallback texts ("⚠️ No answer generated.", "⚠️ AI error: ..."). Their results are inputs to `/ask` and `/recommend`.
- The import-time `GEMINI_API_KEY` check, the client and `Agent` construction, Flask routing, `render_template`, `jsonify` and `app.run` are left out.
- main.py is not part of this model. It is an interactive console loop.
- A request body that is not a JSON object is left out. In the source `data.get` then fails, and the handler answers with a server error. Bodies are maps from strings to strings.
- `ReportFile` keeps only the `analyses` part of the saved report. `status` and `timestamp` are never read back.
- Exception text (`str(e)`) is an input string.
