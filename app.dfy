/**
 * The decisions of the three web endpoints, with the agent's tools as inputs:
 * `/analyze` (run the news analysis; on an exception, fall back to the cached articles),
 * `/ask` (reject an empty question) and `/recommend` (choose the topic to send).
 * Files are values: the news cache and `analysis_output.json` are passed in, and what an
 * endpoint writes is returned.
 */
module App {
  import opened Wrappers
  import opened PyBuiltins
  import opened OppositionAgent

  /** A JSON request body: an object with string values. */
  type Body = map<string, string>

  /** A JSON response with its HTTP status code. */
  datatype HttpReply = HttpReply(code: int, body: map<string, string>)

  /** What a call into one of the agent's tools gives: its dictionary, or the exception it raised. */
  datatype CallOutcome = Returned(fields: map<string, string>) | Threw(message: string)

  datatype HttpMethod = GET | POST

  // ---------------------------------------------------------------------------
  // /analyze

  /** What `analyze_government_news()` did: returned a report, or raised. */
  datatype NewsOutcome = Completed(report: NewsReport) | Failed(error: string)

  /** The part of `analysis_output.json` that `/recommend` reads: the `analyses` list, if present. */
  datatype AnalysisFile = AnalysisFile(analyses: Option<seq<map<string, string>>>)

  /** The JSON reply of `/analyze`. */
  datatype AnalyzeReply =
    | Live(report: NewsReport)
    | CachedNews(message: string, articles: seq<Article>)
    | Unavailable(message: string)
  {
    function Status(): string
    {
      match this
      case Live(report) => report.status
      case CachedNews(_, _) => "warning"
      case Unavailable(_) => "error"
    }

    function Code(): int
    {
      if Unavailable? then 500 else 200
    }
  }

  /** The reply and the content of `analysis_output.json` afterwards. */
  datatype AnalyzeResult = AnalyzeResult(reply: AnalyzeReply, analysisFile: Option<AnalysisFile>)

  /** The report as `/analyze` saves it. */
  function ReportFile(report: NewsReport): (f: AnalysisFile)
    ensures f.analyses.Some? && |f.analyses.value| == |report.analyses|
    ensures forall i :: 0 <= i < |report.analyses| ==>
      f.analyses.value[i] == map["title" := report.analyses[i].title,
                                 "analysis" := report.analyses[i].analysis,
                                 "source" := report.analyses[i].source]
  {
    var xs := report.analyses;
    AnalysisFile(Some(seq(|xs|, i requires 0 <= i < |xs| =>
      map["title" := xs[i].title, "analysis" := xs[i].analysis, "source" := xs[i].source])))
  }

  /**
   * `analyze_news()`: a completed analysis is returned and saved; after an exception the
   * cached articles are returned with status "warning" when the cache file exists, and
   * otherwise an error with status 500. Only a completed analysis writes the file.
   */
  function AnalyzeNews(outcome: NewsOutcome, cache: Option<seq<Article>>,
                       analysisFile: Option<AnalysisFile>): (r: AnalyzeResult)
    ensures outcome.Completed? ==>
      r.reply == Live(outcome.report) && r.reply.Code() == 200
      && r.analysisFile == Some(ReportFile(outcome.report))
    ensures outcome.Failed? ==> r.analysisFile == analysisFile
    ensures outcome.Failed? && cache.Some? ==>
      r.reply.Status() == "warning" && r.reply.Code() == 200
      && r.reply == CachedNews("⚠️ Live fetch failed: " + outcome.error + ". Using cached news.", cache.value)
    ensures outcome.Failed? && cache.None? ==>
      r.reply.Status() == "error" && r.reply.Code() == 500
      && r.reply == Unavailable("⚠️ Failed to fetch or analyze news: " + outcome.error)
  {
    match outcome
    case Completed(report) => AnalyzeResult(Live(report), Some(ReportFile(report)))
    case Failed(e) =>
      if cache.Some? then
        AnalyzeResult(CachedNews("⚠️ Live fetch failed: " + e + ". Using cached news.", cache.value),
                      analysisFile)
      else
        AnalyzeResult(Unavailable("⚠️ Failed to fetch or analyze news: " + e), analysisFile)
  }

  // ---------------------------------------------------------------------------
  // /ask

  /**
   * `ask_question()`: a question that is empty after `strip()` is rejected with 400 and an
   * `error` field; any other is stripped and passed to the question tool, whose dictionary
   * is returned, or whose exception becomes a 500 error.
   */
  function AskQuestion(body: Body, citizen: string -> CallOutcome): (r: HttpReply)
    ensures var question := Strip(Get(body, "question", ""));
      && (r.code == 400 <==> question == "")
      && (question == "" ==> r.body == map["error" := "Question is required"])
      && (question != "" && citizen(question).Returned? ==>
            r == HttpReply(200, citizen(question).fields))
      && (question != "" && citizen(question).Threw? ==>
            r == HttpReply(500, map["error" := "⚠️ Failed to answer question: " + citizen(question).message]))
  {
    var question := Strip(Get(body, "question", ""));
    if question == "" then
      HttpReply(400, map["error" := "Question is required"])
    else
      match citizen(question)
      case Returned(answer) => HttpReply(200, answer)
      case Threw(e) => HttpReply(500, map["error" := "⚠️ Failed to answer question: " + e])
  }

  /** A forwarded question never starts or ends with whitespace, and one more strip leaves it. */
  lemma ForwardedQuestionStripped(body: Body)
    ensures var question := Strip(Get(body, "question", ""));
      question != "" ==> !IsSpace(question[0]) && !IsSpace(question[|question| - 1])
                         && Strip(question) == question
  {
    StripIdempotent(Get(body, "question", ""));
  }

  /** `/ask` rejects a question exactly when it consists of whitespace only. */
  lemma AskRejectsBlank(body: Body, citizen: string -> CallOutcome)
    ensures AskQuestion(body, citizen).code == 400 <==> AllSpace(Get(body, "question", ""))
  {
    StripEmptyIffAllSpace(Get(body, "question", ""));
  }

  // ---------------------------------------------------------------------------
  // /recommend

  const DEFAULT_TOPIC := "Current government policy and recent news in Kenya."
  const NO_RECOMMENDATION := "⚠️ No recommendation generated."

  /** Each saved entry's `analysis` field, "" where it is missing; none when `analyses` is. */
  function AnalysisTexts(file: AnalysisFile): (texts: seq<string>)
    ensures file.analyses.None? ==> texts == []
    ensures file.analyses.Some? ==> |texts| == |file.analyses.value|
    ensures file.analyses.Some? ==> forall i :: 0 <= i < |texts| ==>
      texts[i] == Get(file.analyses.value[i], "analysis", "")
  {
    match file.analyses
    case None => []
    case Some(xs) => seq(|xs|, i requires 0 <= i < |xs| => Get(xs[i], "analysis", ""))
  }

  /**
   * The topic `/recommend` sends: a POST's stripped `topic` when that is not empty (a GET has
   * none); otherwise the saved analyses joined by newlines when the file exists; otherwise
   * the default topic.
   */
  function RecommendTopic(verb: HttpMethod, body: Body, file: Option<AnalysisFile>): (topic: string)
    ensures var posted := Strip(Get(body, "topic", ""));
      && (verb == POST && posted != "" ==> topic == posted)
      && ((verb == GET || posted == "") && file.Some? ==> topic == Join("\n", AnalysisTexts(file.value)))
      && ((verb == GET || posted == "") && file.None? ==> topic == DEFAULT_TOPIC)
  {
    var topic := if verb == POST then Strip(Get(body, "topic", "")) else "";
    if topic != "" then topic
    else
      match file
      case Some(f) => Join("\n", AnalysisTexts(f))
      case None => DEFAULT_TOPIC
  }

  /** A GET never looks at a body. */
  lemma GetIgnoresBody(b1: Body, b2: Body, file: Option<AnalysisFile>)
    ensures RecommendTopic(GET, b1, file) == RecommendTopic(GET, b2, file)
  {
  }

  /**
   * `recommend_policy_endpoint()`: the recommender's `recommendations` value (or the
   * default message when that key is absent), or a 500 error when it raises.
   */
  function RecommendPolicy(verb: HttpMethod, body: Body, file: Option<AnalysisFile>,
                           recommend: string -> CallOutcome): (r: HttpReply)
    ensures var out := recommend(RecommendTopic(verb, body, file));
      && (out.Returned? ==>
            r.code == 200
            && r.body == map["recommendation" := Get(out.fields, "recommendations", NO_RECOMMENDATION)])
      && (out.Threw? ==>
            r.code == 500
            && r.body == map["error" := "⚠️ Failed to generate policy recommendation: " + out.message])
  {
    match recommend(RecommendTopic(verb, body, file))
    case Returned(result) =>
      HttpReply(200, map["recommendation" := Get(result, "recommendations", NO_RECOMMENDATION)])
    case Threw(e) =>
      HttpReply(500, map["error" := "⚠️ Failed to generate policy recommendation: " + e])
  }

  /**
   * After `/analyze` has saved a report, a GET on `/recommend` sends the report's analyses,
   * in order, joined by newlines.
   */
  lemma RecommendReadsSavedReport(report: NewsReport, body: Body)
    ensures RecommendTopic(GET, body, Some(ReportFile(report)))
            == Join("\n", seq(|report.analyses|, i requires 0 <= i < |report.analyses| => report.analyses[i].analysis))
  {
    var texts := AnalysisTexts(ReportFile(report));
    assert texts == seq(|report.analyses|, i requires 0 <= i < |report.analyses| => report.analyses[i].analysis);
  }

  /**
   * The whole `/analyze` handler when nothing raises: the agent's report is returned with
   * status "success" and saved, and from then on a GET on `/recommend` never sends an
   * empty topic, since the agent always analyses at least one article and every analysis
   * text is non-empty.
   */
  method Analyze(network: Network, generate: Generator, cache: Option<seq<Article>>,
                 analysisFile: Option<AnalysisFile>, timestamp: string)
    returns (result: AnalyzeResult, savedCache: seq<Article>)
    ensures savedCache == FinalArticles(LiveBatch(FetchAll(network, FEEDS)), cache)
    ensures result.reply.Live? && result.reply.Status() == "success" && result.reply.Code() == 200
    ensures result.reply.report.timestamp == timestamp
    ensures |result.reply.report.analyses| == |savedCache|
    ensures forall i :: 0 <= i < |savedCache| ==>
              result.reply.report.analyses[i] == AnalyzeArticle(savedCache[i], generate(i, savedCache[i]))
    ensures result.analysisFile == Some(ReportFile(result.reply.report))
    ensures forall body :: RecommendTopic(GET, body, result.analysisFile) != ""
  {
    var report;
    report, savedCache := AnalyzeGovernmentNews(network, generate, cache, timestamp);
    result := AnalyzeNews(Completed(report), cache, analysisFile);
    var texts := AnalysisTexts(ReportFile(report));
    assert texts[0] == report.analyses[0].analysis;
    JoinStartsWithFirst("\n", texts);
  }
}
