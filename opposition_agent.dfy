/**
 * The news-ingestion pipeline of the opposition agent: fetching a feed with bounded
 * retries, building a bounded batch of articles from several feeds, falling back to the
 * cached batch and then to a fixed placeholder, saving the batch, and turning each
 * article into one analysis record with the help of the text-generation service.
 *
 * The network, the feed parser and the text-generation service are inputs (functions);
 * sleeping is recorded in a log; the cache file is a value passed in and a value returned.
 */
module OppositionAgent {
  import opened Wrappers
  import opened PyBuiltins

  /** One parsed feed entry: the string fields the parser found, by name. */
  type Entry = map<string, string>

  /** A parsed feed document. */
  datatype Feed = Feed(entries: seq<Entry>)

  /** What one GET attempt gives: a response (status and parsed body) or an exception. */
  datatype Outcome = Response(status: int, feed: Feed) | Raised(message: string)

  /** The network: the outcome of attempt number `attempt` (from 0) to fetch `url`. */
  type Network = (string, nat) -> Outcome

  /** What the fetcher does, in order: send a request, or wait a number of seconds. */
  datatype Step = Request(attempt: nat) | Sleep(seconds: nat)

  datatype Article = Article(title: string, link: string, summary: string)

  /** What the text-generation service gives for one prompt. */
  datatype AiReply = Text(text: string) | NoText | AiError(message: string)

  /** The service: its reply to the `call`-th request (from 0), built from `article`. */
  type Generator = (nat, Article) -> AiReply

  datatype Analysis = Analysis(title: string, analysis: string, source: string)

  datatype NewsReport = NewsReport(status: string, timestamp: string, analyses: seq<Analysis>)

  const DEFAULT_RETRIES := 3
  const DEFAULT_DELAY := 5
  const PER_SOURCE_LIMIT := 5
  const BATCH_LIMIT := 15

  const FEEDS: seq<string> := [
    "https://www.standardmedia.co.ke/kenya/rss.xml",
    "https://rss.nation.africa/rss.xml",
    "https://www.theeastafrican.co.ke/rss.xml",
    "https://www.kbc.co.ke/feed/",
    "https://www.msn.com/en-xl/feeds/news",
    "https://allafrica.com/tools/headlines/rdf/kenya/headlines.rdf",
    "https://www.bbc.co.uk/feeds/rss/africa.xml",
    "https://www.aljazeera.com/xml/rss/all.xml"
  ]

  const PLACEHOLDER := Article(
    "Government launches new affordable housing project",
    "https://example.com/fallback",
    "The Kenyan government has announced a new affordable housing project "
    + "aimed at urban youth and low-income families.")

  const NO_ANALYSIS := "⚠️ No analysis generated."
  const AI_ERROR_PREFIX := "⚠️ AI generation error: "

  function Min(a: int, b: int): int { if a <= b then a else b }

  // ---------------------------------------------------------------------------
  // fetch_feed

  predicate Succeeded(o: Outcome) { o.Response? && o.status == 200 }

  /** The first attempt in `from .. retries - 1` whose response has status 200, if any. */
  function FirstSuccess(network: Network, url: string, from: nat, retries: int): (k: Option<nat>)
    decreases retries - from
    ensures k.Some? ==> from <= k.value < retries && Succeeded(network(url, k.value))
    ensures k.Some? ==> forall j :: from <= j < k.value ==> !Succeeded(network(url, j))
    ensures k.None? ==> forall j :: from <= j < retries ==> !Succeeded(network(url, j))
  {
    if from >= retries then None
    else if Succeeded(network(url, from)) then Some(from)
    else FirstSuccess(network, url, from + 1, retries)
  }

  /** The parsed feed of the first status-200 response within `retries` attempts, or None. */
  function FetchResult(network: Network, url: string, retries: int): Option<Feed>
  {
    match FirstSuccess(network, url, 0, retries)
    case Some(k) => Some(network(url, k).feed)
    case None => None
  }

  /** `n` failed attempts: each request is followed by exactly one sleep of `delay`. */
  function FailedAttempts(delay: nat, n: nat): (log: seq<Step>)
    ensures |log| == 2 * n
    ensures forall i :: 0 <= i < 2 * n ==>
      log[i] == if i % 2 == 0 then Request(i / 2) else Sleep(delay)
  {
    if n == 0 then [] else FailedAttempts(delay, n - 1) + [Request(n - 1), Sleep(delay)]
  }

  /**
   * The steps of one fetch: failed attempts each followed by a sleep, then either the
   * successful request with nothing after it, or, when every attempt failed, nothing more.
   */
  function FetchLog(network: Network, url: string, retries: int, delay: nat): seq<Step>
  {
    match FirstSuccess(network, url, 0, retries)
    case Some(k) => FailedAttempts(delay, k) + [Request(k)]
    case None => FailedAttempts(delay, if retries < 0 then 0 else retries)
  }

  /** `fetch_feed(url, retries, delay)`. */
  method FetchFeed(network: Network, url: string, retries: int, delay: nat)
    returns (feed: Option<Feed>, log: seq<Step>)
    ensures feed == FetchResult(network, url, retries)
    ensures log == FetchLog(network, url, retries, delay)
  {
    log := [];
    var n := if retries < 0 then 0 else retries;
    for attempt := 0 to n
      invariant log == FailedAttempts(delay, attempt)
      invariant forall j :: 0 <= j < attempt ==> !Succeeded(network(url, j))
    {
      log := log + [Request(attempt)];
      var outcome := network(url, attempt);
      if outcome.Response? && outcome.status == 200 {
        return Some(outcome.feed), log;
      }
      log := log + [Sleep(delay)];
    }
    feed := None;
  }

  /**
   * What the fetcher promises: it makes at most `retries` requests, one per attempt in
   * order; it stops at the first status-200 response and returns its parse; every failed
   * attempt, the last included, is followed by exactly one sleep of `delay`; and it
   * returns None exactly when none of the `retries` attempts succeeded.
   */
  lemma FetchSpec(network: Network, url: string, retries: int, delay: nat)
    ensures var log := FetchLog(network, url, retries, delay);
      var feed := FetchResult(network, url, retries);
      && (feed.None? <==> forall j :: 0 <= j < retries ==> !Succeeded(network(url, j)))
      && (feed.None? ==> |log| == 2 * (if retries < 0 then 0 else retries))
      && (feed.Some? ==> exists k :: 0 <= k < retries && Succeeded(network(url, k))
                          && (forall j :: 0 <= j < k ==> !Succeeded(network(url, j)))
                          && feed == Some(network(url, k).feed)
                          && |log| == 2 * k + 1 && log[2 * k] == Request(k))
      && (forall i :: 0 <= i < |log| ==>
            log[i] == if i % 2 == 0 then Request(i / 2) else Sleep(delay))
  {
    var log := FetchLog(network, url, retries, delay);
    match FirstSuccess(network, url, 0, retries)
    case Some(k) =>
      var failed := FailedAttempts(delay, k);
      assert log == failed + [Request(k)];
      assert log[2 * k] == Request(k);
      assert forall i :: 0 <= i < 2 * k ==> log[i] == failed[i];
      assert FetchResult(network, url, retries) == Some(network(url, k).feed);
      assert Succeeded(network(url, k));
    case None =>
      assert log == FailedAttempts(delay, if retries < 0 then 0 else retries);
  }

  // ---------------------------------------------------------------------------
  // analyze_government_news: building the batch

  /** The record one feed entry becomes; each missing key gets its default. */
  function ToArticle(e: Entry): (a: Article)
    ensures "title" in e ==> a.title == e["title"]
    ensures "title" !in e ==> a.title == "Untitled"
    ensures "link" in e ==> a.link == e["link"]
    ensures "link" !in e ==> a.link == "No link"
    ensures "summary" in e ==> a.summary == e["summary"]
    ensures "summary" !in e && "description" in e ==> a.summary == e["description"]
    ensures "summary" !in e && "description" !in e ==> a.summary == "No summary available."
  {
    Article(
      Get(e, "title", "Untitled"),
      Get(e, "link", "No link"),
      Get(e, "summary", Get(e, "description", "No summary available.")))
  }

  /** How many articles one fetched source gives: at most its first five entries. */
  function EntryCount(feed: Option<Feed>): nat
  {
    match feed
    case None => 0
    case Some(f) => Min(PER_SOURCE_LIMIT, |f.entries|)
  }

  /** The articles one source gives, in feed order. */
  function Contribution(feed: Option<Feed>): (r: seq<Article>)
    ensures |r| == EntryCount(feed)
  {
    match feed
    case None => []
    case Some(f) => seq(EntryCount(feed), i requires 0 <= i < EntryCount(feed) => ToArticle(f.entries[i]))
  }

  function TotalEntries(fetched: seq<Option<Feed>>): nat
  {
    if |fetched| == 0 then 0
    else TotalEntries(fetched[..|fetched| - 1]) + EntryCount(fetched[|fetched| - 1])
  }

  /** The lists concatenated in order (Python's repeated `append`). */
  function Flatten<T>(xss: seq<seq<T>>): seq<T>
  {
    if |xss| == 0 then [] else Flatten(xss[..|xss| - 1]) + xss[|xss| - 1]
  }

  lemma {:induction false} FlattenConcat<T>(p: seq<seq<T>>, q: seq<seq<T>>)
    ensures Flatten(p + q) == Flatten(p) + Flatten(q)
  {
    if q != [] {
      var q' := q[..|q| - 1];
      assert (p + q)[..|p + q| - 1] == p + q';
      FlattenConcat(p, q');
    } else {
      assert p + q == p;
    }
  }

  /** Each source's articles, one list per source, in declaration order. */
  function Contributions(fetched: seq<Option<Feed>>): (r: seq<seq<Article>>)
    ensures |r| == |fetched|
  {
    seq(|fetched|, i requires 0 <= i < |fetched| => Contribution(fetched[i]))
  }

  /** The contributions of all sources, concatenated in source order, before truncation. */
  function Collected(fetched: seq<Option<Feed>>): seq<Article>
  {
    Flatten(Contributions(fetched))
  }

  /**
   * Collecting over the sources `p` followed by the sources `q` gives the articles of `p`
   * followed by those of `q`: order is kept and nothing is dropped or merged.
   */
  lemma CollectedConcat(p: seq<Option<Feed>>, q: seq<Option<Feed>>)
    ensures Collected(p + q) == Collected(p) + Collected(q)
  {
    assert Contributions(p + q) == Contributions(p) + Contributions(q);
    FlattenConcat(Contributions(p), Contributions(q));
  }

  /** Adding one more source appends its articles. */
  lemma CollectedStep(fetched: seq<Option<Feed>>, feed: Option<Feed>)
    ensures Collected(fetched + [feed]) == Collected(fetched) + Contribution(feed)
  {
    CollectedConcat(fetched, [feed]);
    var cs := Contributions([feed]);
    assert cs == [Contribution(feed)];
    assert cs[..0] == [];
    assert Flatten(cs) == Flatten(cs[..0]) + cs[0];
  }

  /** Each source that fetched something gives at most its first five entries, and no more. */
  lemma {:induction false} CollectedLength(fetched: seq<Option<Feed>>)
    ensures |Collected(fetched)| == TotalEntries(fetched)
  {
    if |fetched| > 0 {
      var init := fetched[..|fetched| - 1];
      CollectedLength(init);
      CollectedStep(init, fetched[|fetched| - 1]);
      assert init + [fetched[|fetched| - 1]] == fetched;
    } else {
      assert Contributions(fetched) == [];
    }
  }

  /** The live batch: the collected articles cut to the first fifteen. */
  function LiveBatch(fetched: seq<Option<Feed>>): (r: seq<Article>)
    ensures |r| == Min(BATCH_LIMIT, |Collected(fetched)|)
    ensures r == Collected(fetched)[..|r|]
  {
    var all := Collected(fetched);
    all[..Min(BATCH_LIMIT, |all|)]
  }

  /**
   * The live batch has min(15, sum over sources of min(5, entries)) articles: the first
   * ones collected, in source order.
   */
  lemma LiveBatchLength(fetched: seq<Option<Feed>>)
    ensures |LiveBatch(fetched)| == Min(BATCH_LIMIT, TotalEntries(fetched))
  {
    CollectedLength(fetched);
  }

  /** What each configured source's fetch gives, in declaration order. */
  function FetchAll(network: Network, feeds: seq<string>): (r: seq<Option<Feed>>)
    ensures |r| == |feeds|
    ensures forall i :: 0 <= i < |feeds| ==> r[i] == FetchResult(network, feeds[i], DEFAULT_RETRIES)
  {
    if |feeds| == 0 then []
    else FetchAll(network, feeds[..|feeds| - 1]) + [FetchResult(network, feeds[|feeds| - 1], DEFAULT_RETRIES)]
  }

  /**
   * Source `i`'s articles sit in the collected list right after those of the sources
   * declared before it, unchanged and in feed order, and before those declared after it.
   */
  lemma CollectedSlice(fetched: seq<Option<Feed>>, i: nat)
    requires i < |fetched|
    ensures Collected(fetched)
            == Collected(fetched[..i]) + Contribution(fetched[i]) + Collected(fetched[i + 1..])
    ensures |Collected(fetched[..i])| == TotalEntries(fetched[..i])
  {
    CollectedLength(fetched[..i]);
    assert fetched == fetched[..i] + [fetched[i]] + fetched[i + 1..];
    CollectedConcat(fetched[..i] + [fetched[i]], fetched[i + 1..]);
    CollectedStep(fetched[..i], fetched[i]);
  }

  /**
   * A source that fetches nothing (None, or a feed without entries) adds nothing: the
   * batch is what the remaining sources give.
   */
  lemma SilentSourceSkipped(before: seq<Option<Feed>>, feed: Option<Feed>, after: seq<Option<Feed>>)
    requires feed.None? || feed.value.entries == []
    ensures Collected(before + [feed] + after) == Collected(before + after)
  {
    CollectedConcat(before + [feed], after);
    CollectedStep(before, feed);
    CollectedConcat(before, after);
  }

  /** The same entry reached through two sources appears twice: there is no deduplication. */
  lemma DuplicatesKept(f: Feed)
    requires f.entries != []
    ensures var batch := LiveBatch([Some(f), Some(f)]);
      batch == Contribution(Some(f)) + Contribution(Some(f))
      && |batch| == 2 * Min(PER_SOURCE_LIMIT, |f.entries|)
      && batch[0] == batch[Min(PER_SOURCE_LIMIT, |f.entries|)] == ToArticle(f.entries[0])
  {
    var c := Contribution(Some(f));
    CollectedStep([], Some(f));
    CollectedStep([Some(f)], Some(f));
    assert [Some(f)] + [Some(f)] == [Some(f), Some(f)];
    assert Collected([Some(f), Some(f)]) == c + c;
    assert (c + c)[|c|] == c[0];
  }

  /** A list holding the article of each of a source's first entries is its contribution. */
  lemma ContributionOf(feed: Option<Feed>, added: seq<Article>)
    requires feed.Some? && |added| == EntryCount(feed)
    requires forall j :: 0 <= j < |added| ==> added[j] == ToArticle(feed.value.entries[j])
    ensures added == Contribution(feed)
  {
  }

  lemma FetchAllStep(network: Network, feeds: seq<string>, i: nat)
    requires i < |feeds|
    ensures FetchAll(network, feeds[..i + 1]) == FetchAll(network, feeds[..i]) + [FetchResult(network, feeds[i], DEFAULT_RETRIES)]
  {
    assert feeds[..i + 1][..i] == feeds[..i];
  }

  /** The body of the per-source loop: append the article of each of the first five entries. */
  method AppendEntries(articles: seq<Article>, feed: Option<Feed>) returns (extended: seq<Article>)
    ensures extended == articles + Contribution(feed)
  {
    extended := articles;
    if feed.Some? && |feed.value.entries| > 0 {
      var entries := feed.value.entries[..Min(PER_SOURCE_LIMIT, |feed.value.entries|)];
      ghost var added: seq<Article> := [];
      for k := 0 to |entries|
        invariant extended == articles + added && |added| == k
        invariant forall j :: 0 <= j < k ==> added[j] == ToArticle(entries[j])
      {
        extended := extended + [ToArticle(entries[k])];
        added := added + [ToArticle(entries[k])];
      }
      ContributionOf(feed, added);
    }
  }

  /** The live part of `analyze_government_news`: fetch every source, collect, truncate. */
  method CollectArticles(network: Network, feeds: seq<string>) returns (articles: seq<Article>)
    ensures articles == LiveBatch(FetchAll(network, feeds))
  {
    articles := [];
    ghost var fetched: seq<Option<Feed>> := [];
    for i := 0 to |feeds|
      invariant fetched == FetchAll(network, feeds[..i])
      invariant articles == Collected(fetched)
    {
      var feed, _ := FetchFeed(network, feeds[i], DEFAULT_RETRIES, DEFAULT_DELAY);
      articles := AppendEntries(articles, feed);
      FetchAllStep(network, feeds, i);
      CollectedStep(fetched, feed);
      fetched := fetched + [feed];
    }
    assert feeds[..|feeds|] == feeds;
    articles := articles[..Min(BATCH_LIMIT, |articles|)];
  }

  // ---------------------------------------------------------------------------
  // analyze_government_news: fallback and cache

  /**
   * The list that is analysed and saved: the live batch when it is non-empty; otherwise
   * the cached list, unchanged and not truncated, when the cache exists and is non-empty;
   * otherwise the single placeholder article. It is never empty.
   */
  function FinalArticles(live: seq<Article>, cache: Option<seq<Article>>): (r: seq<Article>)
    ensures r != []
    ensures live != [] ==> r == live
    ensures live == [] && cache.Some? && cache.value != [] ==> r == cache.value
    ensures live == [] && (cache.None? || cache.value == []) ==> r == [PLACEHOLDER]
  {
    var articles := if live == [] && cache.Some? then cache.value else live;
    if articles == [] then [PLACEHOLDER] else articles
  }

  /**
   * Saving the result makes the next call's fallback give the same list back, and a call
   * with the same live data saves the same list again: the cache does not accumulate.
   */
  lemma CacheStable(live: seq<Article>, cache: Option<seq<Article>>)
    ensures var saved := FinalArticles(live, cache);
      && FinalArticles([], Some(saved)) == saved
      && FinalArticles(live, Some(saved)) == saved
  {
  }

  // ---------------------------------------------------------------------------
  // analyze_government_news: one analysis per article

  /** The record for one article: its title and link, and the service's text or a warning. */
  function AnalyzeArticle(art: Article, reply: AiReply): (a: Analysis)
    ensures a.title == art.title && a.source == art.link
    ensures a.analysis != ""
    ensures reply.Text? && reply.text != "" ==> a.analysis == reply.text
    ensures reply.NoText? || reply == Text("") ==> a.analysis == NO_ANALYSIS
    ensures reply.AiError? ==> a.analysis == AI_ERROR_PREFIX + reply.message
  {
    match reply
    case Text(t) => Analysis(art.title, if t == "" then NO_ANALYSIS else t, art.link)
    case NoText => Analysis(art.title, NO_ANALYSIS, art.link)
    case AiError(e) => Analysis(art.title, AI_ERROR_PREFIX + e, art.link)
  }

  /** The analysis loop: one record per article, in article order, with the i-th reply. */
  method AnalyzeArticles(articles: seq<Article>, generate: Generator) returns (analyses: seq<Analysis>)
    ensures |analyses| == |articles|
    ensures forall i :: 0 <= i < |articles| ==>
      analyses[i] == AnalyzeArticle(articles[i], generate(i, articles[i]))
  {
    analyses := [];
    for i := 0 to |articles|
      invariant |analyses| == i
      invariant forall j :: 0 <= j < i ==>
        analyses[j] == AnalyzeArticle(articles[j], generate(j, articles[j]))
    {
      var reply := generate(i, articles[i]);
      analyses := analyses + [AnalyzeArticle(articles[i], reply)];
    }
  }

  /**
   * `analyze_government_news()`: given the network, the service, the cache file's content
   * (None when the file does not exist) and the clock reading, returns the report and the
   * list the cache file holds afterwards.
   */
  method AnalyzeGovernmentNews(network: Network, generate: Generator,
                               cache: Option<seq<Article>>, timestamp: string)
    returns (report: NewsReport, saved: seq<Article>)
    ensures saved == FinalArticles(LiveBatch(FetchAll(network, FEEDS)), cache)
    ensures report.status == "success" && report.timestamp == timestamp
    ensures |report.analyses| == |saved|
    ensures forall i :: 0 <= i < |saved| ==>
      report.analyses[i] == AnalyzeArticle(saved[i], generate(i, saved[i]))
  {
    var articles := CollectArticles(network, FEEDS);
    if articles == [] && cache.Some? {
      articles := cache.value;
    }
    if articles == [] {
      articles := [PLACEHOLDER];
    }
    saved := articles;
    var analyses := AnalyzeArticles(articles, generate);
    report := NewsReport("success", timestamp, analyses);
  }
}
