/**
 * The web specialist of src/lib/agents/WebSearchAgent.ts: a web search through the search
 * service, scraping a page and summarising a page through the completion service, each saved
 * as a search record.
 *
 * The three services are parameters: `search` maps a query to its hits or a failure, `parses`
 * says whether the URL parser accepts a string, and `complete` maps a prompt to the reply text
 * (absent when the reply has no content) or a failure.
 */
module WebSearchAgent {
  import opened Common
  import opened Strings
  import opened Store
  import opened Responses
  import Tracker
  import opened SimulatedPage

  // ---------------------------------------------------------------------------
  // Shared pieces

  /** The stored snippet: the first 200 characters of the text, then "...". */
  function Snippet(text: string): (r: string)
    ensures 3 <= |r| <= 203 && r[|r| - 3..] == "..."
    ensures |r| - 3 <= |text| && r[..|r| - 3] == text[..|r| - 3]
    ensures |text| <= 200 ==> r == text + "..."
  {
    Prefix(text, 200) + "..."
  }

  const PromptHead := "Please provide a concise summary of the following content:\n\n"

  /** The prompt of `generateSummaryWithLLM`: the first 2000 characters of the content, then "...". */
  function SummaryPrompt(content: string): (p: string)
    ensures |p| <= |PromptHead| + 2003
    ensures |PromptHead| <= |p| && p[..|PromptHead|] == PromptHead
    ensures |content| <= 2000 ==> p == PromptHead + content + "..."
  {
    PromptHead + Prefix(content, 2000) + "..."
  }

  /**
   * The summary `generateSummaryWithLLM` returns for a reply of the completion service: the reply
   * text when there is some, a fixed fallback otherwise. It never fails and is never empty.
   */
  function LlmSummary(reply: Result<Option<string>>): (r: string)
    ensures r != ""
    ensures reply.Ok? && reply.value.Some? && reply.value.value != "" ==> r == reply.value.value
    ensures reply.Err? ==> r == "Failed to generate summary"
    ensures reply.Ok? && (reply.value.None? || reply.value.value == "") ==> r == "Summary generation failed"
  {
    match reply
    case Err(_) => "Failed to generate summary"
    case Ok(text) => if text.Some? && text.value != "" then text.value else "Summary generation failed"
  }

  /** The error messages of the agent. */
  const QueryRequired := "Search query is required"
  const SearchFailure := "Failed to perform web search"
  const UrlRequired := "URL is required"
  const InvalidUrl := "Invalid URL format"
  const ScrapeFailure := "Failed to scrape URL"
  const SummaryFailure := "Failed to summarize web page"
  const UnknownCommand := "Unknown web search command"

  /** `searchResult.map(item => item.url)`. */
  function Urls(hits: seq<SearchHit>): (r: seq<string>)
    ensures |r| == |hits|
    ensures forall i | 0 <= i < |hits| :: r[i] == hits[i].url
  {
    if hits == [] then [] else [hits[0].url] + Urls(hits[1..])
  }

  /** The stored result list of a search: every hit, as it came. */
  function FoundEntries(hits: seq<SearchHit>): (r: seq<ResultEntry>)
    ensures |r| == |hits|
    ensures forall i | 0 <= i < |hits| :: r[i] == Found(hits[i])
  {
    if hits == [] then [] else [Found(hits[0])] + FoundEntries(hits[1..])
  }

  /** Mapping the urls distributes over a split of the hits. */
  lemma {:induction false} UrlsAppend(a: seq<SearchHit>, b: seq<SearchHit>)
    ensures Urls(a + b) == Urls(a) + Urls(b)
  {
    if a != [] {
      assert (a + b)[0] == a[0] && (a + b)[1..] == a[1..] + b;
      calc {
        Urls(a + b);
        [a[0].url] + Urls(a[1..] + b);
      == { UrlsAppend(a[1..], b); }
        [a[0].url] + (Urls(a[1..]) + Urls(b));
      ==
        ([a[0].url] + Urls(a[1..])) + Urls(b);
      }
    } else {
      assert a + b == b;
    }
  }

  // ---------------------------------------------------------------------------
  // performSearch

  const SearchRemark := " Search complete! The web has been combed for your information needs."

  /** The result message: a pluralised count (the noun is singular exactly for one result), formal from 7 upwards. */
  function SearchContent(query: string, count: nat, formality: int, humour: int, roll: bool): (c: string)
    ensures var noun := "result" + PluralS(count);
            var base := if Formal(formality)
                        then "I've conducted a thorough search for \"" + query + "\" and found " + NatToString(count)
                             + " " + noun + ", Sir/Madam."
                        else "Found " + NatToString(count) + " " + noun + " for \"" + query + "\"";
            && (c == base || c == base + SearchRemark)
            && (c != base <==> humour >= 6 && roll)
  {
    var noun := "result" + PluralS(count);
    var base := if Formal(formality)
                then "I've conducted a thorough search for \"" + query + "\" and found " + NatToString(count)
                     + " " + noun + ", Sir/Madam."
                else "Found " + NatToString(count) + " " + noun + " for \"" + query + "\"";
    WithHumour(base, humour, roll, SearchRemark)
  }

  /** The personality block shared by the three operations, with its completion line. */
  function WebPersonality(hour: int, completion: string): Personality
  {
    Personality(Some(SirGreeting(hour)), Some("Certainly, Sir/Madam."), Some(completion), None)
  }

  /**
   * `performSearch`: a missing (falsy) query is refused before the search service is called; a
   * failed search is reported with its message; otherwise the hits are saved under the fresh id
   * with their urls in order (a query that is not text, or an id in use, is a store failure).
   */
  function PerformSearch(rows: map<string, WebSearch>, query: Option<Value>, search: string -> Result<seq<SearchHit>>,
                         newId: string, userId: string, preferences: Option<Fields>, hour: int, roll: bool)
    : Outcome<WebSearch>
  {
    if !GivenOpt(query) then Outcome(ErrorResponse(QueryRequired), rows)
    else
      var found := search(TemplateText(query.value));
      if found.Err? then Outcome(ErrorResponse(SearchFailure, Some(found.message)), rows)
      else if !query.value.Str? || newId in rows then
        Outcome(ErrorResponse(SearchFailure, Some(StoreFailure)), rows)
      else
        var hits := found.value;
        var record := WebSearch(newId, userId, query.value.s, FoundEntries(hits), Urls(hits), None);
        Outcome(SuccessResponse(SearchContent(query.value.s, |hits|, Formality(preferences), Humour(preferences), roll),
                                Link, Some(SearchRaw(query.value.s, hits, record)),
                                Some(WebPersonality(hour, "Web search completed successfully."))),
                rows[newId := record])
  }

  /** An empty query is refused the same way whatever the search service would answer: it is never consulted. */
  lemma EmptyQueryIsRefusedFirst(rows: map<string, WebSearch>, query: Option<Value>,
                                 search1: string -> Result<seq<SearchHit>>, search2: string -> Result<seq<SearchHit>>,
                                 newId: string, userId: string, preferences: Option<Fields>, hour: int, roll: bool)
    requires !GivenOpt(query)
    ensures PerformSearch(rows, query, search1, newId, userId, preferences, hour, roll)
            == PerformSearch(rows, query, search2, newId, userId, preferences, hour, roll)
            == Outcome(ErrorResponse(QueryRequired), rows)
  {
  }

  /**
   * `performSearch` writes exactly when it succeeds: one record under the fresh id holding the
   * query, every hit and their urls in order; an error leaves the store as it was.
   */
  lemma SearchWritesOnlyOnSuccess(rows: map<string, WebSearch>, query: Option<Value>,
                                  search: string -> Result<seq<SearchHit>>, newId: string, userId: string,
                                  preferences: Option<Fields>, hour: int, roll: bool)
    ensures var o := PerformSearch(rows, query, search, newId, userId, preferences, hour, roll);
            && (o.response.status == Success <==>
                  GivenOpt(query) && search(TemplateText(query.value)).Ok? && query.value.Str? && newId !in rows)
            && (o.response.status == Error ==> o.rows == rows)
            && (o.response.status == Success ==>
                  var hits := search(query.value.s).value;
                  && newId in o.rows && o.rows == rows[newId := o.rows[newId]]
                  && o.rows[newId].query == query.value.s && o.rows[newId].userId == userId
                  && |o.rows[newId].results| == |o.rows[newId].urls| == |hits|
                  && (forall i | 0 <= i < |hits| :: o.rows[newId].urls[i] == hits[i].url)
                  && o.response.raw == Some(SearchRaw(query.value.s, hits, o.rows[newId])))
  {
  }

  /** The result message built step by step as `performSearch` does. */
  method SearchMessage(query: string, count: nat, formality: int, humour: int, roll: bool) returns (content: string)
    ensures content == SearchContent(query, count, formality, humour, roll)
  {
    var noun := "result" + PluralS(count);
    content := "Found " + NatToString(count) + " " + noun + " for \"" + query + "\"";
    if formality >= 7 {
      content := "I've conducted a thorough search for \"" + query + "\" and found " + NatToString(count)
                 + " " + noun + ", Sir/Madam.";
    }
    ghost var base := content;
    if humour >= 6 && roll {
      content := content + SearchRemark;
    }
    assert content == WithHumour(base, humour, roll, SearchRemark);
  }

  /** The method form of `performSearch`, against the search table. */
  method PerformSearchIn(searches: Table<WebSearch>, query: Option<Value>, search: string -> Result<seq<SearchHit>>,
                         newId: string, userId: string, preferences: Option<Fields>, hour: int, roll: bool)
    returns (response: Response)
    modifies searches
    ensures Outcome(response, searches.rows)
            == PerformSearch(old(searches.rows), query, search, newId, userId, preferences, hour, roll)
  {
    if !GivenOpt(query) {
      return ErrorResponse(QueryRequired);
    }
    var found := search(TemplateText(query.value));
    if found.Err? {
      return ErrorResponse(SearchFailure, Some(found.message));
    }
    if !query.value.Str? {
      return ErrorResponse(SearchFailure, Some(StoreFailure));
    }
    var hits := found.value;
    var record := WebSearch(newId, userId, query.value.s, FoundEntries(hits), Urls(hits), None);
    var created := searches.Create(newId, record);
    if !created {
      return ErrorResponse(SearchFailure, Some(StoreFailure));
    }
    var message := SearchMessage(query.value.s, |hits|, Formality(preferences), Humour(preferences), roll);
    response := SuccessResponse(message, Link, Some(SearchRaw(query.value.s, hits, record)),
                                Some(WebPersonality(hour, "Web search completed successfully.")));
  }

  // ---------------------------------------------------------------------------
  // scrapeUrl

  const ScrapeRemark := " Web scraping complete! I've extracted the digital essence for your analysis."

  /** The confirmation for a scraped page: formal from formality 7 upwards, with the optional remark. */
  function ScrapeContent(url: string, formality: int, humour: int, roll: bool): (c: string)
    ensures var base := if Formal(formality)
                        then "I've successfully scraped the content from " + url + " for you, Sir/Madam."
                        else "Content from " + url + " has been scraped successfully";
            && (c == base || c == base + ScrapeRemark)
            && (c != base <==> humour >= 6 && roll)
  {
    var base := if Formal(formality)
                then "I've successfully scraped the content from " + url + " for you, Sir/Madam."
                else "Content from " + url + " has been scraped successfully";
    WithHumour(base, humour, roll, ScrapeRemark)
  }

  /** The record saved for a scraped page: one result holding the text and its snippet, and the url. */
  function ScrapeRecord(id: string, userId: string, url: string): (r: WebSearch)
    ensures r.id == id && r.userId == userId && r.urls == [url] && |r.results| == 1
    ensures r.results[0].Scraped? && r.results[0].content == ScrapedText(url) && r.results[0].snippet == Snippet(ScrapedText(url))
  {
    var scraped := ScrapedText(url);
    WebSearch(id, userId, "Scrape: " + url, [Scraped(url, "Scraped Content", Snippet(scraped), scraped)], [url], None)
  }

  /**
   * `scrapeUrl`: a missing url, then a url the parser rejects, are refused before anything is
   * stored; otherwise the simulated page text is saved under the fresh id (an id in use is a store
   * failure).
   */
  function ScrapeUrl(rows: map<string, WebSearch>, url: Option<Value>, parses: string -> bool, newId: string,
                     userId: string, preferences: Option<Fields>, hour: int, roll: bool): Outcome<WebSearch>
  {
    if !GivenOpt(url) then Outcome(ErrorResponse(UrlRequired), rows)
    else
      var u := TemplateText(url.value);
      if !parses(u) then Outcome(ErrorResponse(InvalidUrl), rows)
      else if newId in rows then Outcome(ErrorResponse(ScrapeFailure, Some(StoreFailure)), rows)
      else
        var record := ScrapeRecord(newId, userId, u);
        Outcome(SuccessResponse(ScrapeContent(u, Formality(preferences), Humour(preferences), roll),
                                Link, Some(ScrapeRaw(u, ScrapedText(u), record)),
                                Some(WebPersonality(hour, "Web content scraped successfully."))),
                rows[newId := record])
  }

  /**
   * The checks of `scrapeUrl` come in order with no write on error; on success the one new record
   * names the url as its only url and stores the page text with its 200-character snippet.
   */
  lemma ScrapeChecksInOrder(rows: map<string, WebSearch>, url: Option<Value>, parses: string -> bool, newId: string,
                            userId: string, preferences: Option<Fields>, hour: int, roll: bool)
    ensures var o := ScrapeUrl(rows, url, parses, newId, userId, preferences, hour, roll);
            && (o.response == ErrorResponse(UrlRequired) <==> !GivenOpt(url))
            && (o.response == ErrorResponse(InvalidUrl) <==>
                  GivenOpt(url) && !parses(TemplateText(url.value)))
            && (o.response.status == Success <==> GivenOpt(url) && parses(TemplateText(url.value)) && newId !in rows)
            && (o.response.status == Error ==> o.rows == rows)
            && (o.response.status == Success ==>
                  o.rows == rows[newId := ScrapeRecord(newId, userId, TemplateText(url.value))])
  {
    var o := ScrapeUrl(rows, url, parses, newId, userId, preferences, hour, roll);
    if !GivenOpt(url) {
      assert o.response == ErrorResponse(UrlRequired);
    } else if !parses(TemplateText(url.value)) {
      assert o.response == ErrorResponse(InvalidUrl) && |InvalidUrl| != |UrlRequired|;
    } else if newId in rows {
      assert o.response == ErrorResponse(ScrapeFailure, Some(StoreFailure));
    }
  }

  /** The confirmation built step by step as `scrapeUrl` does. */
  method ScrapeMessage(url: string, formality: int, humour: int, roll: bool) returns (content: string)
    ensures content == ScrapeContent(url, formality, humour, roll)
  {
    content := "Content from " + url + " has been scraped successfully";
    if formality >= 7 {
      content := "I've successfully scraped the content from " + url + " for you, Sir/Madam.";
    }
    ghost var base := content;
    if humour >= 6 && roll {
      content := content + ScrapeRemark;
    }
    assert content == WithHumour(base, humour, roll, ScrapeRemark);
  }

  /** The method form of `scrapeUrl`, against the search table. */
  method ScrapeUrlIn(searches: Table<WebSearch>, url: Option<Value>, parses: string -> bool, newId: string,
                     userId: string, preferences: Option<Fields>, hour: int, roll: bool) returns (response: Response)
    modifies searches
    ensures Outcome(response, searches.rows)
            == ScrapeUrl(old(searches.rows), url, parses, newId, userId, preferences, hour, roll)
  {
    if !GivenOpt(url) {
      return ErrorResponse(UrlRequired);
    }
    var u := TemplateText(url.value);
    if !parses(u) {
      return ErrorResponse(InvalidUrl);
    }
    var scraped := ScrapedText(u);
    var record := ScrapeRecord(newId, userId, u);
    var created := searches.Create(newId, record);
    if !created {
      return ErrorResponse(ScrapeFailure, Some(StoreFailure));
    }
    var message := ScrapeMessage(u, Formality(preferences), Humour(preferences), roll);
    response := SuccessResponse(message, Link, Some(ScrapeRaw(u, scraped, record)),
                                Some(WebPersonality(hour, "Web content scraped successfully.")));
  }

  // ---------------------------------------------------------------------------
  // summarizeWebPage

  const PageSummaryRemark := " Summary complete! I've distilled the web page to its essential components."

  /** The confirmation for a summarised page: formal from formality 7 upwards, with the optional remark. */
  function PageSummaryContent(url: string, formality: int, humour: int, roll: bool): (c: string)
    ensures var base := if Formal(formality)
                        then "I've generated a comprehensive summary of the web page " + url + " for you, Sir/Madam."
                        else "Web page " + url + " has been summarized successfully";
            && (c == base || c == base + PageSummaryRemark)
            && (c != base <==> humour >= 6 && roll)
  {
    var base := if Formal(formality)
                then "I've generated a comprehensive summary of the web page " + url + " for you, Sir/Madam."
                else "Web page " + url + " has been summarized successfully";
    WithHumour(base, humour, roll, PageSummaryRemark)
  }

  /** The summary of a page: the completion service's reply to the prompt built from the simulated page text. */
  function PageSummary(url: string, complete: string -> Result<Option<string>>): string
  {
    LlmSummary(complete(SummaryPrompt(ScrapedText(url))))
  }

  /** The record saved for a summarised page: one result holding the summary and its snippet, and the url. */
  function PageSummaryRecord(id: string, userId: string, url: string, summary: string): (r: WebSearch)
    ensures r.id == id && r.userId == userId && r.urls == [url] && |r.results| == 1 && r.summary == Some(summary)
    ensures r.results[0].Summarized? && r.results[0].summary == summary && r.results[0].snippet == Snippet(summary)
  {
    WebSearch(id, userId, "Summarize: " + url, [Summarized(url, "Summarized Content", Snippet(summary), summary)], [url],
              Some(summary))
  }

  /**
   * `summarizeWebPage`: a missing url is refused; the url is not checked by the parser; a failing
   * completion service still yields a (fallback) summary, which is saved under the fresh id (an
   * id in use is a store failure).
   */
  function SummarizeWebPage(rows: map<string, WebSearch>, url: Option<Value>, complete: string -> Result<Option<string>>,
                            newId: string, userId: string, preferences: Option<Fields>, hour: int, roll: bool)
    : Outcome<WebSearch>
  {
    if !GivenOpt(url) then Outcome(ErrorResponse(UrlRequired), rows)
    else
      var u := TemplateText(url.value);
      var summary := PageSummary(u, complete);
      if newId in rows then Outcome(ErrorResponse(SummaryFailure, Some(StoreFailure)), rows)
      else
        var record := PageSummaryRecord(newId, userId, u, summary);
        Outcome(SuccessResponse(PageSummaryContent(u, Formality(preferences), Humour(preferences), roll),
                                Link, Some(PageSummaryRaw(u, summary, record)),
                                Some(WebPersonality(hour, "Web page summarized successfully."))),
                rows[newId := record])
  }

  /**
   * Whether `summarizeWebPage` succeeds does not depend on the completion service: it fails only
   * for a missing url or an id in use, and on success stores a non-empty summary on the record.
   */
  lemma PageSummaryToleratesLlmFailure(rows: map<string, WebSearch>, url: Option<Value>,
                                       complete: string -> Result<Option<string>>, newId: string, userId: string,
                                       preferences: Option<Fields>, hour: int, roll: bool)
    ensures var o := SummarizeWebPage(rows, url, complete, newId, userId, preferences, hour, roll);
            && (o.response.status == Success <==> GivenOpt(url) && newId !in rows)
            && (o.response.status == Error ==> o.rows == rows)
            && (o.response.status == Success ==>
                  && newId in o.rows && o.rows == rows[newId := o.rows[newId]]
                  && o.rows[newId].summary.Some? && o.rows[newId].summary.value != ""
                  && o.rows[newId].urls == [TemplateText(url.value)])
  {
    if GivenOpt(url) && newId !in rows {
      var u := TemplateText(url.value);
      var record := PageSummaryRecord(newId, userId, u, PageSummary(u, complete));
      assert SummarizeWebPage(rows, url, complete, newId, userId, preferences, hour, roll).rows == rows[newId := record];
    }
  }

  /** The confirmation built step by step as `summarizeWebPage` does. */
  method PageSummaryMessage(url: string, formality: int, humour: int, roll: bool) returns (content: string)
    ensures content == PageSummaryContent(url, formality, humour, roll)
  {
    content := "Web page " + url + " has been summarized successfully";
    if formality >= 7 {
      content := "I've generated a comprehensive summary of the web page " + url + " for you, Sir/Madam.";
    }
    ghost var base := content;
    if humour >= 6 && roll {
      content := content + PageSummaryRemark;
    }
    assert content == WithHumour(base, humour, roll, PageSummaryRemark);
  }

  /** `generateSummaryWithLLM` as a method: it calls the service with the prompt and falls back on failure. */
  method SummaryWithLlm(content: string, complete: string -> Result<Option<string>>) returns (summary: string)
    ensures summary == LlmSummary(complete(SummaryPrompt(content)))
  {
    var prompt := PromptHead + Prefix(content, 2000) + "...";
    var reply := complete(prompt);
    if reply.Err? {
      return "Failed to generate summary";
    }
    summary := if reply.value.Some? && reply.value.value != "" then reply.value.value else "Summary generation failed";
  }

  /** The method form of `summarizeWebPage`, against the search table. */
  method SummarizeWebPageIn(searches: Table<WebSearch>, url: Option<Value>, complete: string -> Result<Option<string>>,
                            newId: string, userId: string, preferences: Option<Fields>, hour: int, roll: bool)
    returns (response: Response)
    modifies searches
    ensures Outcome(response, searches.rows)
            == SummarizeWebPage(old(searches.rows), url, complete, newId, userId, preferences, hour, roll)
  {
    if !GivenOpt(url) {
      return ErrorResponse(UrlRequired);
    }
    var u := TemplateText(url.value);
    var scraped := ScrapedText(u);
    var summary := SummaryWithLlm(scraped, complete);
    var record := PageSummaryRecord(newId, userId, u, summary);
    var created := searches.Create(newId, record);
    if !created {
      return ErrorResponse(SummaryFailure, Some(StoreFailure));
    }
    var message := PageSummaryMessage(u, Formality(preferences), Humour(preferences), roll);
    response := SuccessResponse(message, Link, Some(PageSummaryRaw(u, summary, record)),
                                Some(WebPersonality(hour, "Web page summarized successfully.")));
  }

  // ---------------------------------------------------------------------------
  // execute

  /** The switch of `execute`. */
  function Dispatch(rows: map<string, WebSearch>, command: Command, search: string -> Result<seq<SearchHit>>,
                    parses: string -> bool, complete: string -> Result<Option<string>>, userId: string, newId: string,
                    preferences: Option<Fields>, hour: int, roll: bool): Outcome<WebSearch>
  {
    match command.intent
    case Some("web_search") =>
      PerformSearch(rows, Param(command, "query"), search, newId, userId, preferences, hour, roll)
    case Some("scrape_url") =>
      ScrapeUrl(rows, Param(command, "url"), parses, newId, userId, preferences, hour, roll)
    case Some("summarize_web_page") =>
      SummarizeWebPage(rows, Param(command, "url"), complete, newId, userId, preferences, hour, roll)
    case _ => Outcome(ErrorResponse(UnknownCommand), rows)
  }

  /** Success adds exactly the record under the fresh id; an error writes nothing. */
  predicate AddsAtMostOne(rows: map<string, WebSearch>, o: Outcome<WebSearch>, newId: string)
  {
    && (o.response.status == Success ==> newId !in rows && newId in o.rows && o.rows == rows[newId := o.rows[newId]])
    && (o.response.status == Error ==> o.rows == rows)
  }

  /** `performSearch` adds at most its one record. */
  lemma SearchAddsAtMostOne(rows: map<string, WebSearch>, query: Option<Value>, search: string -> Result<seq<SearchHit>>,
                            newId: string, userId: string, preferences: Option<Fields>, hour: int, roll: bool)
    ensures AddsAtMostOne(rows, PerformSearch(rows, query, search, newId, userId, preferences, hour, roll), newId)
  {
    SearchWritesOnlyOnSuccess(rows, query, search, newId, userId, preferences, hour, roll);
  }

  /** `scrapeUrl` adds at most its one record. */
  lemma ScrapeAddsAtMostOne(rows: map<string, WebSearch>, url: Option<Value>, parses: string -> bool, newId: string,
                            userId: string, preferences: Option<Fields>, hour: int, roll: bool)
    ensures AddsAtMostOne(rows, ScrapeUrl(rows, url, parses, newId, userId, preferences, hour, roll), newId)
  {
    ScrapeChecksInOrder(rows, url, parses, newId, userId, preferences, hour, roll);
  }

  /** `summarizeWebPage` adds at most its one record. */
  lemma PageSummaryAddsAtMostOne(rows: map<string, WebSearch>, url: Option<Value>,
                                 complete: string -> Result<Option<string>>, newId: string, userId: string,
                                 preferences: Option<Fields>, hour: int, roll: bool)
    ensures AddsAtMostOne(rows, SummarizeWebPage(rows, url, complete, newId, userId, preferences, hour, roll), newId)
  {
    PageSummaryToleratesLlmFailure(rows, url, complete, newId, userId, preferences, hour, roll);
  }

  /** An unknown intent is an error that writes nothing; every known intent adds at most the one record. */
  lemma DispatchWritesAtMostOne(rows: map<string, WebSearch>, command: Command,
                                search: string -> Result<seq<SearchHit>>, parses: string -> bool,
                                complete: string -> Result<Option<string>>, userId: string, newId: string,
                                preferences: Option<Fields>, hour: int, roll: bool)
    ensures var o := Dispatch(rows, command, search, parses, complete, userId, newId, preferences, hour, roll);
            && (command.intent !in {Some("web_search"), Some("scrape_url"), Some("summarize_web_page")} ==>
                  o == Outcome(ErrorResponse(UnknownCommand), rows))
            && AddsAtMostOne(rows, o, newId)
  {
    match command.intent
    case Some("web_search") =>
      SearchAddsAtMostOne(rows, Param(command, "query"), search, newId, userId, preferences, hour, roll);
    case Some("scrape_url") =>
      ScrapeAddsAtMostOne(rows, Param(command, "url"), parses, newId, userId, preferences, hour, roll);
    case Some("summarize_web_page") =>
      PageSummaryAddsAtMostOne(rows, Param(command, "url"), complete, newId, userId, preferences, hour, roll);
    case _ =>
  }

  /** The switch of `execute` over the intent, against the search table. */
  method DispatchIn(searches: Table<WebSearch>, command: Command, search: string -> Result<seq<SearchHit>>,
                    parses: string -> bool, complete: string -> Result<Option<string>>, userId: string,
                    newId: string, preferences: Option<Fields>, hour: int, roll: bool)
    returns (response: Response)
    modifies searches
    ensures Outcome(response, searches.rows)
            == Dispatch(old(searches.rows), command, search, parses, complete, userId, newId, preferences, hour, roll)
  {
    match command.intent {
      case Some("web_search") =>
        response := PerformSearchIn(searches, Param(command, "query"), search, newId, userId, preferences, hour, roll);
      case Some("scrape_url") =>
        response := ScrapeUrlIn(searches, Param(command, "url"), parses, newId, userId, preferences, hour, roll);
      case Some("summarize_web_page") =>
        response := SummarizeWebPageIn(searches, Param(command, "url"), complete, newId, userId, preferences, hour, roll);
      case _ =>
        response := ErrorResponse(UnknownCommand);
    }
  }

  /**
   * `execute`: logs and starts the record, runs the operation the intent names, and records the
   * response as COMPLETED, even when the response is an error.
   */
  method Execute(log: Tracker.ExecutionLog, searches: Table<WebSearch>, id: string, command: Command,
                 search: string -> Result<seq<SearchHit>>, parses: string -> bool,
                 complete: string -> Result<Option<string>>, userId: string, newId: string,
                 preferences: Option<Fields>, hour: int, roll: bool, now: int)
    returns (r: Result<Response>)
    modifies log, searches
    ensures r.Ok? <==> id !in old(log.records)
    ensures r.Ok? ==> Outcome(r.value, searches.rows)
                      == Dispatch(old(searches.rows), command, search, parses, complete, userId, newId, preferences,
                                  hour, roll)
    ensures r.Ok? ==> log.records == old(log.records)[id := Tracker.CompletedRecord(id, Tracker.WEB_SEARCH, userId,
                                                                                    command, Tracker.ResponsePayload(r.value),
                                                                                    now)]
    ensures r.Err? ==> log.records == old(log.records) && searches.rows == old(searches.rows)
    ensures old(log.Valid()) ==> log.Valid()
  {
    var logged := log.LogExecution(id, Tracker.WEB_SEARCH, userId, command.text, command.intent, command.parameters, now);
    if logged.Err? {
      return Err(logged.message);
    }
    log.StartExecution(id, now);
    var response := DispatchIn(searches, command, search, parses, complete, userId, newId, preferences, hour, roll);
    log.UpdateExecution(id, Tracker.COMPLETED, Some(Tracker.ResponsePayload(response)), None, now);
    Tracker.LifecycleTable(old(log.records), id,
                           Tracker.Pending(id, Tracker.WEB_SEARCH, userId, command.text, command.intent,
                                           command.parameters, now),
                           now, Tracker.COMPLETED, Some(Tracker.ResponsePayload(response)), None, now);
    r := Ok(response);
  }
}
