/**
 * The values the FireCrawl document loader works with: its parameters, the
 * modes it runs in, the page objects the crawling service returns and the
 * documents it yields.
 */
module Firecrawl {
  import opened Wrappers

  /** An arbitrary value stored in the loader's params or in page metadata. */
  datatype Value =
    | Null
    | Bool(b: bool)
    | Int(i: int)
    | Str(s: string)
    | List(items: seq<Value>)
    | Dict(entries: map<string, Value>)

  /** An optional string that is present and non-empty: a truthy value in the source. */
  predicate Filled(o: Option<string>) {
    o.Some? && o.value != ""
  }

  /** The five operations the loader can run. */
  datatype Mode = Crawl | Scrape | Map | Extract | Search

  /** The name by which callers select a mode. */
  function ModeName(m: Mode): string {
    match m
    case Crawl => "crawl"
    case Scrape => "scrape"
    case Map => "map"
    case Extract => "extract"
    case Search => "search"
  }

  /**
   * The names the constructor accepts. The source lists "search" twice;
   * as a set of allowed names that makes no difference.
   */
  const ModeNames: set<string> := {"crawl", "scrape", "search", "map", "extract"}

  /** The mode name the constructor uses when none is given. */
  const DefaultModeName: string := "crawl"

  /** The mode a name selects, if it selects one. */
  function ParseMode(s: string): (r: Option<Mode>)
    ensures r.Some? <==> s in ModeNames
    ensures r.Some? ==> ModeName(r.value) == s
  {
    if s == "crawl" then Some(Crawl)
    else if s == "scrape" then Some(Scrape)
    else if s == "search" then Some(Search)
    else if s == "map" then Some(Map)
    else if s == "extract" then Some(Extract)
    else None
  }

  /** Every mode is selected by its own name and by no other. */
  lemma ModeNameRoundTrip(m: Mode, s: string)
    ensures ParseMode(ModeName(m)) == Some(m)
    ensures ParseMode(s) == Some(m) <==> s == ModeName(m)
  {
  }

  /**
   * A page object returned by the scrape, crawl and search operations. An
   * attribute the object lacks and an attribute set to None are both `None`.
   */
  datatype Page = Page(
    markdown: Option<string>,
    html: Option<string>,
    rawHtml: Option<string>,
    metadata: Option<map<string, Value>>)

  /** One raw result: a plain string (map links, extract output) or a page object. */
  datatype RawItem = TextItem(text: string) | PageItem(page: Page)

  /** The record the loader yields for one result. */
  datatype Document = Document(pageContent: string, metadata: map<string, Value>)

  /**
   * A scrape-options object built by the client library from the keyword
   * arguments of a params mapping. How the library interprets them is not
   * modelled.
   */
  datatype ScrapeOptions = ScrapeOptions(settings: map<string, Value>)

  /** The params key holding the settings of the scrape options. */
  const ScrapeOptionsKey: string := "scrapeOptions"

  /**
   * `ScrapeOptions(**raw)`: keyword unpacking succeeds only for a mapping and
   * raises TypeError for any other value.
   */
  function BuildScrapeOptions(raw: Value): (r: Result<ScrapeOptions, LoaderError>)
    ensures r.Success? <==> raw.Dict?
    ensures r.Success? ==> r.value.settings == raw.entries
    ensures r.Failure? ==> r.error == OptionsNotMapping
  {
    match raw
    case Dict(settings) => Success(ScrapeOptions(settings))
    case _ => Failure(OptionsNotMapping)
  }

  /**
   * Building scrape options fails: params has `scrapeOptions`, the options
   * type could be imported, and the value is not a mapping.
   */
  predicate OptionsRejected(params: map<string, Value>, optionsTypeAvailable: bool) {
    ScrapeOptionsKey in params && optionsTypeAvailable && !params[ScrapeOptionsKey].Dict?
  }

  /** A keyword argument passed to the crawl call: a params value or an options object. */
  datatype KwArg = Param(value: Value) | Options(options: ScrapeOptions)

  /**
   * The errors the loader raises: the ValueErrors of its own checks, one
   * constructor per message, the ValueError of the API key lookup, and the
   * TypeError of unpacking a scrapeOptions value that is not a mapping.
   */
  datatype LoaderError =
    | InvalidMode(mode: string)
    | UrlNotProvided
    | ApiKeyNotFound
    | UrlRequiredFor(required: Mode)
    | OptionsNotMapping
}
