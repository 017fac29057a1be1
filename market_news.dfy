/**
 * analyze_market_news (main.py): collect at most ten feed headlines, give up
 * early when there are none or when no API key is set, build the analysis
 * prompt, and ask the generation models of MODELS one after the other until
 * one of them returns readable text.
 *
 * The feed, the environment and the HTTP service are inputs: the feed is the
 * sequence of entry titles, the key is the optional value of each environment
 * variable, and the service is a function from a request to its response.
 */
module MarketNews {
  import opened Wrappers
  import opened ResponseBody
  import opened Lines

  /** How many feed entries are turned into headlines. */
  const MaxHeadlines: nat := 10

  /** The generation models, most preferred first. */
  const Models: seq<string> :=
    ["gemini-2.5-flash", "gemini-2.5-flash-lite", "gemini-3.0-pro-preview", "gemini-2.0-flash"]

  const PromptHeader: string :=
    "You are a financial analyst. Review these news headlines about NBFCs and Banking.\n"
    + "Identify and summarize ONLY:\n"
    + "1. New Investments (Who invested in whom?)\n"
    + "2. Mergers & Acquisitions (Deals)\n"
    + "3. Major Regulatory Updates affecting the sector\n\n"
    + "Headlines:\n"

  /** What follows the headlines: a blank line, then the output instructions. */
  const PromptTrailer: string :=
    "\n\n"
    + "Output Format:\n"
    + "- **Deals & Investments:** [List details]\n"
    + "- **Top Sector News:** [Major non-deal updates]\n"
    + "If nothing relevant is found in a category, write 'None'."

  function Min(a: int, b: int): int
  {
    if a < b then a else b
  }

  // ---------------------------------------------------------------------
  // The API key
  // ---------------------------------------------------------------------

  /** Python truthiness of an environment lookup: unset and empty are both false. */
  predicate Truthy(v: Option<string>)
  {
    v.Some? && v.value != ""
  }

  /** `os.environ.get("GEMINI_API_KEY") or os.environ.get("GOOGLE_API_KEY")` */
  function ResolveKey(gemini: Option<string>, google: Option<string>): (key: Option<string>)
    ensures Truthy(key) <==> Truthy(gemini) || Truthy(google)
    ensures Truthy(gemini) ==> key == gemini
    ensures !Truthy(gemini) && Truthy(google) ==> key == google
  {
    if Truthy(gemini) then gemini else google
  }

  // ---------------------------------------------------------------------
  // Headlines and the prompt
  // ---------------------------------------------------------------------

  /** The headline lines: one `"- " + title` per entry, for the first ten entries. */
  method CollectHeadlines(titles: seq<string>) returns (headlines: seq<string>)
    ensures |headlines| == Min(|titles|, MaxHeadlines)
    ensures forall i :: 0 <= i < |headlines| ==> headlines[i] == "- " + titles[i]
  {
    headlines := [];
    var first := titles[..Min(|titles|, MaxHeadlines)];
    for i := 0 to |first|
      invariant |headlines| == i
      invariant forall k :: 0 <= k < i ==> headlines[k] == "- " + first[k]
    {
      headlines := headlines + ["- " + first[i]];
    }
  }

  /** The analysis prompt around the joined headline lines. */
  function Prompt(headlines: seq<string>): string
  {
    PromptHeader + Join(headlines) + PromptTrailer
  }

  /** Where headline `i` begins in the prompt. */
  function HeadlineStart(headlines: seq<string>, i: nat): nat
    requires i <= |headlines|
  {
    |PromptHeader| + LineStart(headlines, i)
  }

  lemma SliceOfMiddle(a: string, b: string, c: string, lo: nat, hi: nat)
    requires lo <= hi <= |b|
    ensures (a + b + c)[|a| + lo..|a| + hi] == b[lo..hi]
  {
  }

  /** Every headline appears in the prompt, each after the one before it. */
  lemma PromptContainsHeadline(headlines: seq<string>, i: nat)
    requires i < |headlines|
    ensures HeadlineStart(headlines, i) + |headlines[i]| <= |Prompt(headlines)|
    ensures Prompt(headlines)[HeadlineStart(headlines, i)..HeadlineStart(headlines, i) + |headlines[i]|] == headlines[i]
    ensures i + 1 < |headlines| ==> HeadlineStart(headlines, i) + |headlines[i]| < HeadlineStart(headlines, i + 1)
  {
    JoinLineAt(headlines, i);
    if i + 1 < |headlines| {
      LineStartsIncrease(headlines, i);
    }
    var s := LineStart(headlines, i);
    SliceOfMiddle(PromptHeader, Join(headlines), PromptTrailer, s, s + |headlines[i]|);
  }

  /** The part of the prompt between header and trailer is the headline block. */
  function HeadlineBlock(prompt: string): string
    requires |prompt| >= |PromptHeader| + |PromptTrailer|
  {
    prompt[|PromptHeader|..|prompt| - |PromptTrailer|]
  }

  /**
   * The prompt is header, joined headlines and trailer: the headline lines
   * can be cut out of it and split apart again, unchanged and in order, when
   * no title holds a line break.
   */
  lemma PromptHeadlinesRecoverable(headlines: seq<string>)
    requires |headlines| >= 1
    requires forall i :: 0 <= i < |headlines| ==> NoLineBreak(headlines[i])
    ensures |Prompt(headlines)| >= |PromptHeader| + |PromptTrailer|
    ensures Prompt(headlines)[..|PromptHeader|] == PromptHeader
    ensures Prompt(headlines)[|Prompt(headlines)| - |PromptTrailer|..] == PromptTrailer
    ensures Split(HeadlineBlock(Prompt(headlines))) == headlines
  {
    var j := Join(headlines);
    SliceOfMiddle(PromptHeader, j, PromptTrailer, 0, |j|);
    SplitJoin(headlines);
  }

  /** A title without line breaks gives a headline line without one. */
  lemma HeadlineNoLineBreak(title: string)
    ensures NoLineBreak("- " + title) <==> NoLineBreak(title)
  {
    assert forall k :: 0 <= k < |title| ==> ("- " + title)[k + 2] == title[k];
  }

  // ---------------------------------------------------------------------
  // One model call
  // ---------------------------------------------------------------------

  /** What is sent for one model: the URL names the model and the key, the body holds the prompt. */
  datatype Request = Request(model: string, key: string, prompt: string)

  /**
   * What the service answers: a status and the body as decoded JSON (None
   * when `response.json()` cannot decode it), or an exception raised by
   * `requests.post` (connection failure, timeout).
   */
  datatype Response = Response(status: int, body: Option<Json>) | Raised

  /** How the loop body reacts to one response; each branch prints one log line. */
  datatype Outcome =
    | Success(text: Json)   // 200 and the text path is present: the loop stops
    | Unreadable            // 200 but a KeyError or IndexError on the text path
    | QuotaExceeded         // 429
    | NotFound              // 404
    | Failed(status: int)   // any other status
    | ConnectionError       // any exception reaching the outer handler

  function Classify(r: Response): (o: Outcome)
    ensures o.Success? <==> r.Response? && r.status == 200 && r.body.Some? && ExtractText(r.body.value).Found?
    ensures o.Success? ==> o.text == ExtractText(r.body.value).value
    ensures o.Unreadable? <==> r.Response? && r.status == 200 && r.body.Some? && ExtractText(r.body.value).Missing?
    ensures o.ConnectionError? <==>
              r.Raised? || (r.status == 200 && (r.body.None? || ExtractText(r.body.value).WrongType?))
    ensures r.Response? && r.status == 429 ==> o == QuotaExceeded
    ensures r.Response? && r.status == 404 ==> o == NotFound
    ensures r.Response? && r.status != 200 && r.status != 429 && r.status != 404 ==> o == Failed(r.status)
  {
    match r
    case Raised => ConnectionError
    case Response(status, body) =>
      if status == 200 then
        match body
        case None => ConnectionError
        case Some(j) =>
          (match ExtractText(j)
           case Found(text) => Success(text)
           case Missing => Unreadable
           case WrongType => ConnectionError)
      else if status == 429 then QuotaExceeded
      else if status == 404 then NotFound
      else Failed(status)
  }

  /** A 200 reply whose body has the text path, whatever else it holds, yields that text. */
  lemma ClassifyWellFormedReply(body: Json)
    requires HasTextPath(body)
    ensures Classify(Response(200, Some(body))) == Success(TextAt(body))
  {
    ExtractTextFound(body);
  }

  /** The outcome of calling `model` with `key` and `prompt`. */
  function OutcomeFor(server: Request -> Response, key: string, prompt: string, model: string): Outcome
  {
    Classify(server(Request(model, key, prompt)))
  }

  predicate Succeeds(server: Request -> Response, key: string, prompt: string, model: string)
  {
    OutcomeFor(server, key, prompt, model).Success?
  }

  // ---------------------------------------------------------------------
  // The fallback loop
  // ---------------------------------------------------------------------

  /** One pass of the loop body: which model, and what came of it. */
  datatype Attempt = Attempt(model: string, outcome: Outcome)

  /**
   * The models the loop tries, in order, with their outcomes: every model up
   * to and including the first that succeeds, or all of them.
   */
  function Attempts(models: seq<string>, server: Request -> Response, key: string, prompt: string): (r: seq<Attempt>)
    ensures |r| <= |models|
    decreases |models|
  {
    if models == [] then []
    else
      var first := Attempt(models[0], OutcomeFor(server, key, prompt, models[0]));
      if first.outcome.Success? then [first]
      else [first] + Attempts(models[1..], server, key, prompt)
  }

  /**
   * Models are tried strictly in order, each once, with the outcome of its
   * own response; every attempt but the last failed; and the loop ends early
   * only on a success.
   */
  lemma {:induction false} AttemptsShape(models: seq<string>, server: Request -> Response, key: string, prompt: string)
    ensures var r := Attempts(models, server, key, prompt);
      && (|models| > 0 ==> |r| > 0)
      && (forall i :: 0 <= i < |r| ==> r[i] == Attempt(models[i], OutcomeFor(server, key, prompt, models[i])))
      && (forall i :: 0 <= i < |r| - 1 ==> !r[i].outcome.Success?)
      && (|r| < |models| ==> r[|r| - 1].outcome.Success?)
    decreases |models|
  {
    if models != [] {
      AttemptsShape(models[1..], server, key, prompt);
    }
  }

  /** The loop stops at the first model that succeeds, and no later model is tried. */
  lemma {:induction false} StopsAtFirstSuccess(models: seq<string>, server: Request -> Response, key: string, prompt: string, k: nat)
    requires k < |models|
    requires Succeeds(server, key, prompt, models[k])
    requires forall j :: 0 <= j < k ==> !Succeeds(server, key, prompt, models[j])
    ensures |Attempts(models, server, key, prompt)| == k + 1
    ensures Attempts(models, server, key, prompt)[k].outcome == OutcomeFor(server, key, prompt, models[k])
    decreases k
  {
    if k > 0 {
      StopsAtFirstSuccess(models[1..], server, key, prompt, k - 1);
    }
  }

  /** No attempt succeeds exactly when no model succeeds, and then every model was tried. */
  lemma AllFailed(models: seq<string>, server: Request -> Response, key: string, prompt: string)
    ensures var r := Attempts(models, server, key, prompt);
      (forall i :: 0 <= i < |r| ==> !r[i].outcome.Success?) <==>
      (forall j :: 0 <= j < |models| ==> !Succeeds(server, key, prompt, models[j]))
    ensures (forall j :: 0 <= j < |models| ==> !Succeeds(server, key, prompt, models[j])) ==>
      |Attempts(models, server, key, prompt)| == |models|
  {
    AttemptsShape(models, server, key, prompt);
    var r := Attempts(models, server, key, prompt);
    if forall i :: 0 <= i < |r| ==> !r[i].outcome.Success? {
      assert |r| == |models|;
    }
  }

  /**
   * Appending fallback models never changes what happens with the earlier
   * ones: the later models are only reached when all earlier ones fail.
   */
  lemma {:induction false} AttemptsAppend(m1: seq<string>, m2: seq<string>, server: Request -> Response, key: string, prompt: string)
    ensures var a := Attempts(m1, server, key, prompt);
      Attempts(m1 + m2, server, key, prompt) ==
        if a != [] && a[|a| - 1].outcome.Success? then a else a + Attempts(m2, server, key, prompt)
    decreases |m1|
  {
    if m1 == [] {
      assert m1 + m2 == m2;
    } else {
      assert (m1 + m2)[0] == m1[0];
      assert (m1 + m2)[1..] == m1[1..] + m2;
      AttemptsAppend(m1[1..], m2, server, key, prompt);
    }
  }

  /** With the configured models, no model is tried twice. */
  lemma EachModelAtMostOnce(server: Request -> Response, key: string, prompt: string)
    ensures var r := Attempts(Models, server, key, prompt);
      forall i, j :: 0 <= i < j < |r| ==> r[i].model != r[j].model
  {
    AttemptsShape(Models, server, key, prompt);
  }

  /**
   * Against the configured models: a 429 from the first and an unreadable
   * 200 from the second each move on, and the third model's text is used,
   * so the fourth is never called.
   */
  lemma QuotaThenUnreadableThenSuccess(server: Request -> Response, key: string, prompt: string, text: Json)
    requires server(Request(Models[0], key, prompt)) == Response(429, None)
    requires server(Request(Models[1], key, prompt)) == Response(200, Some(JObject(map[])))
    requires server(Request(Models[2], key, prompt)) == Response(200, Some(SuccessBody(text)))
    ensures Attempts(Models, server, key, prompt) ==
      [Attempt(Models[0], QuotaExceeded), Attempt(Models[1], Unreadable), Attempt(Models[2], Success(text))]
  {
    ExtractSuccessBody(text);
    assert Models[1..][1..] == Models[2..];
  }

  /**
   * The contract of Attempts determines it: any sequence of attempts that
   * tries the models in order, fails on all but its last, and either ends
   * with a success or has tried every model, is the loop's trace.
   */
  lemma {:induction false} AttemptsUnique(models: seq<string>, server: Request -> Response, key: string, prompt: string, a: seq<Attempt>)
    requires |a| <= |models|
    requires |models| > 0 ==> |a| > 0
    requires forall i :: 0 <= i < |a| ==> a[i] == Attempt(models[i], OutcomeFor(server, key, prompt, models[i]))
    requires forall i :: 0 <= i < |a| - 1 ==> !a[i].outcome.Success?
    requires |a| < |models| ==> a[|a| - 1].outcome.Success?
    ensures a == Attempts(models, server, key, prompt)
    decreases |models|
  {
    if models != [] && !a[0].outcome.Success? {
      AttemptsUnique(models[1..], server, key, prompt, a[1..]);
      assert a == [a[0]] + a[1..];
    }
  }

  /**
   * The `for model in MODELS` loop: classify each response, stop with the
   * first readable text, otherwise go on to the next model.
   */
  method TryModels(models: seq<string>, server: Request -> Response, key: string, prompt: string)
    returns (attempts: seq<Attempt>, success: bool, text: Option<Json>)
    ensures attempts == Attempts(models, server, key, prompt)
    ensures success <==> exists j :: 0 <= j < |models| && Succeeds(server, key, prompt, models[j])
    ensures success <==> text.Some?
    ensures success ==> attempts[|attempts| - 1].outcome == Success(text.value)
    ensures !success ==> |attempts| == |models|
  {
    attempts := [];
    success := false;
    text := None;
    for i := 0 to |models|
      invariant |attempts| == i
      invariant !success && text == None
      invariant forall j :: 0 <= j < i ==> attempts[j] == Attempt(models[j], OutcomeFor(server, key, prompt, models[j]))
      invariant forall j :: 0 <= j < i ==> !attempts[j].outcome.Success?
    {
      var outcome := Classify(server(Request(models[i], key, prompt)));
      attempts := attempts + [Attempt(models[i], outcome)];
      if outcome.Success? {
        success := true;
        text := Some(outcome.text);
        break;
      }
    }
    AttemptsUnique(models, server, key, prompt, attempts);
  }

  // ---------------------------------------------------------------------
  // The whole run
  // ---------------------------------------------------------------------

  /** How analyze_market_news ends. */
  datatype Run =
    | NoHeadlines                                 // empty feed: nothing else happens
    | KeyMissing(headlines: seq<string>)          // headlines found, but no key: no model is called
    | Analysed(headlines: seq<string>, prompt: string, attempts: seq<Attempt>, success: bool, text: Option<Json>)

  method AnalyzeMarketNews(titles: seq<string>, apiKey: Option<string>, server: Request -> Response)
    returns (run: Run)
    ensures run.NoHeadlines? <==> titles == []
    ensures run.KeyMissing? <==> titles != [] && !Truthy(apiKey)
    ensures !run.NoHeadlines? ==>
      |run.headlines| == Min(|titles|, MaxHeadlines) &&
      forall i :: 0 <= i < |run.headlines| ==> run.headlines[i] == "- " + titles[i]
    ensures run.Analysed? ==>
      run.prompt == Prompt(run.headlines) &&
      run.attempts == Attempts(Models, server, apiKey.value, run.prompt) &&
      (run.success <==> exists j :: 0 <= j < |Models| && Succeeds(server, apiKey.value, run.prompt, Models[j])) &&
      (run.success <==> run.text.Some?) &&
      (run.success ==> run.attempts[|run.attempts| - 1].outcome == Success(run.text.value))
    ensures run.Analysed? && (forall i :: 0 <= i < Min(|titles|, MaxHeadlines) ==> NoLineBreak(titles[i])) ==>
      |run.prompt| >= |PromptHeader| + |PromptTrailer| && Split(HeadlineBlock(run.prompt)) == run.headlines
  {
    var headlines := CollectHeadlines(titles);
    if headlines == [] {
      return NoHeadlines;
    }
    if !Truthy(apiKey) {
      return KeyMissing(headlines);
    }
    var prompt := Prompt(headlines);
    if forall i :: 0 <= i < Min(|titles|, MaxHeadlines) ==> NoLineBreak(titles[i]) {
      forall i | 0 <= i < |headlines|
        ensures NoLineBreak(headlines[i])
      {
        HeadlineNoLineBreak(titles[i]);
      }
      PromptHeadlinesRecoverable(headlines);
    }
    var attempts, success, text := TryModels(Models, server, apiKey.value, prompt);
    run := Analysed(headlines, prompt, attempts, success, text);
  }
}
