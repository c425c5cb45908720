/**
 * The page text `simulateWebScraping` in src/lib/agents/WebSearchAgent.ts returns in place of a
 * real page: a fixed text that names the url.
 */
module SimulatedPage {
  import opened Strings

  const ScrapedTail := ". In a real implementation, this would contain the actual text content extracted from the web page. The content would include the main text, headings, and other relevant information from the page, excluding navigation elements, ads, and other non-content items."

  /** `simulateWebScraping`: a fixed text naming the page. */
  function ScrapedText(url: string): (r: string)
    ensures OccursAt(r, url, 39)
  {
    "This is simulated scraped content from " + url + ScrapedTail
  }
}
