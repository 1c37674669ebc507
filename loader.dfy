/**
 * The FireCrawl document loader: constructor validation, the per-mode call
 * into the crawling service and the documents a load yields.
 *
 * The service client is not modelled: its five operations are abstract
 * total functions supplied by the caller, together with whether the client
 * library provides the scrape-options type.
 */
module Loader {
  import opened Wrappers
  import opened Firecrawl
  import CrawlParams
  import Normalisation

  /** The crawl response; `data` is None when the response has no such attribute. */
  datatype CrawlResponse = CrawlResponse(data: Option<seq<Page>>)

  /** The external client: one function per service operation. */
  datatype Client = Client(
    optionsTypeAvailable: bool,
    scrapeUrl: (string, Option<ScrapeOptions>) -> Page,
    crawlUrl: (string, map<string, KwArg>) -> CrawlResponse,
    mapUrl: (string, map<string, Value>) -> seq<string>,
    extract: (seq<string>, map<string, Value>) -> string,
    search: (Option<Value>, map<string, Value>) -> seq<Page>)

  /** The one service call a load makes, with the arguments it passes. */
  datatype Call =
    | ScrapeUrl(url: string, scrapeOptions: Option<ScrapeOptions>)
    | CrawlUrl(url: string, kwargs: map<string, KwArg>)
    | MapUrl(url: string, params: map<string, Value>)
    | ExtractUrls(urls: seq<string>, params: map<string, Value>)
    | SearchWeb(query: Option<Value>, params: map<string, Value>)

  /** The mode whose branch makes a call of this kind. */
  function CallMode(c: Call): Mode {
    match c
    case ScrapeUrl(_, _) => Scrape
    case CrawlUrl(_, _) => Crawl
    case MapUrl(_, _) => Map
    case ExtractUrls(_, _) => Extract
    case SearchWeb(_, _) => Search
  }

  /**
   * The constructor's checks: the mode name first, then the url. On success
   * the result is the mode the name selects.
   */
  function CheckArgs(url: string, mode: string): (r: Result<Mode, LoaderError>)
    ensures r.Success? <==> mode in ModeNames && url != ""
    ensures r.Success? ==> ModeName(r.value) == mode
    ensures mode !in ModeNames ==> r == Failure(InvalidMode(mode))
    ensures mode in ModeNames && url == "" ==> r == Failure(UrlNotProvided)
  {
    match ParseMode(mode)
    case None => Failure(InvalidMode(mode))
    case Some(m) => if url == "" then Failure(UrlNotProvided) else Success(m)
  }

  /**
   * The API key handed to the client: the explicit key when it is non-empty,
   * else the FIRECRAWL_API_KEY environment value when that is set and
   * non-empty; otherwise the lookup raises.
   */
  function ResolveApiKey(apiKey: Option<string>, envApiKey: Option<string>): (r: Result<string, LoaderError>)
    ensures r.Success? <==> Filled(apiKey) || Filled(envApiKey)
    ensures r.Success? ==> r.value != "" && (r.value == apiKey.GetOr("") || r.value == envApiKey.GetOr(""))
    ensures Filled(apiKey) ==> r == Success(apiKey.value)
    ensures r.Failure? ==> r.error == ApiKeyNotFound
  {
    if apiKey.Some? && apiKey.value != "" then Success(apiKey.value)
    else if envApiKey.Some? && envApiKey.value != "" then Success(envApiKey.value)
    else Failure(ApiKeyNotFound)
  }

  /**
   * The scrape options of a scrape call: built from `scrapeOptions` when
   * params has it and the options type is available, None otherwise; the
   * build raises when the value is not a mapping.
   */
  function ScrapeModeOptions(params: map<string, Value>, optionsTypeAvailable: bool)
    : (r: Result<Option<ScrapeOptions>, LoaderError>)
    ensures r.Failure? <==> OptionsRejected(params, optionsTypeAvailable)
    ensures r.Failure? ==> r.error == OptionsNotMapping
    ensures r.Success? ==> (r.value.Some? <==> ScrapeOptionsKey in params && optionsTypeAvailable)
    ensures r.Success? && r.value.Some? ==>
              r.value.value == ScrapeOptions(params[ScrapeOptionsKey].entries)
  {
    if ScrapeOptionsKey in params && optionsTypeAvailable then
      match BuildScrapeOptions(params[ScrapeOptionsKey])
      case Failure(e) => Failure(e)
      case Success(options) => Success(Some(options))
    else Success(None)
  }

  /** `params.get("query")`. */
  function SearchQuery(params: map<string, Value>): (q: Option<Value>)
    ensures q.Some? <==> "query" in params
    ensures q.Some? ==> q.value == params["query"]
  {
    if "query" in params then Some(params["query"]) else None
  }

  /** Crawl, map and extract re-check the url; scrape and search do not. */
  predicate UrlRejected(url: string, mode: Mode) {
    url == "" && mode in {Crawl, Map, Extract}
  }

  /** Scrape and crawl build scrape options; the other modes pass params on untouched. */
  predicate BuildsOptions(mode: Mode) {
    mode in {Scrape, Crawl}
  }

  /**
   * The call a load makes. The url re-check comes first and fails with the
   * mode's error; building the scrape options comes next and fails with a
   * TypeError.
   */
  function Request(url: string, mode: Mode, params: map<string, Value>, optionsTypeAvailable: bool)
    : (r: Result<Call, LoaderError>)
    ensures r.Failure? <==>
              UrlRejected(url, mode) || (BuildsOptions(mode) && OptionsRejected(params, optionsTypeAvailable))
    ensures UrlRejected(url, mode) ==> r == Failure(UrlRequiredFor(mode))
    ensures r.Failure? && !UrlRejected(url, mode) ==> r.error == OptionsNotMapping
    ensures r.Success? ==> CallMode(r.value) == mode
  {
    match mode
    case Scrape =>
      (match ScrapeModeOptions(params, optionsTypeAvailable)
       case Failure(e) => Failure(e)
       case Success(options) => Success(ScrapeUrl(url, options)))
    case Crawl =>
      if url == "" then Failure(UrlRequiredFor(Crawl))
      else
        (match CrawlParams.CrawlKwargs(params, optionsTypeAvailable)
         case Failure(e) => Failure(e)
         case Success(kwargs) => Success(CrawlUrl(url, kwargs)))
    case Map =>
      if url == "" then Failure(UrlRequiredFor(Map)) else Success(MapUrl(url, params))
    case Extract =>
      if url == "" then Failure(UrlRequiredFor(Extract)) else Success(ExtractUrls([url], params))
    case Search => Success(SearchWeb(SearchQuery(params), params))
  }

  /** Page objects as raw results. */
  function Pages(pages: seq<Page>): seq<RawItem> {
    seq(|pages|, i requires 0 <= i < |pages| => PageItem(pages[i]))
  }

  /** Strings as raw results. */
  function Texts(texts: seq<string>): seq<RawItem> {
    seq(|texts|, i requires 0 <= i < |texts| => TextItem(texts[i]))
  }

  /** The raw results of a call: strings for map and extract, page objects otherwise. */
  function Perform(client: Client, call: Call): (items: seq<RawItem>)
    ensures Normalisation.Fits(CallMode(call), items)
  {
    match call
    case ScrapeUrl(url, options) => [PageItem(client.scrapeUrl(url, options))]
    case CrawlUrl(url, kwargs) => Pages(client.crawlUrl(url, kwargs).data.GetOr([]))
    case MapUrl(url, params) => Texts(client.mapUrl(url, params))
    case ExtractUrls(urls, params) => [TextItem(client.extract(urls, params))]
    case SearchWeb(query, params) => Pages(client.search(query, params))
  }

  /** The documents a load yields, or the error it raises before yielding any. */
  function Load(client: Client, url: string, mode: Mode, params: map<string, Value>)
    : (r: Result<seq<Document>, LoaderError>)
    ensures r.Failure? <==>
              UrlRejected(url, mode) ||
              (BuildsOptions(mode) && OptionsRejected(params, client.optionsTypeAvailable))
    ensures r.Success? ==> forall j :: 0 <= j < |r.value| ==> r.value[j].pageContent != ""
  {
    match Request(url, mode, params, client.optionsTypeAvailable)
    case Failure(e) => Failure(e)
    case Success(call) => Success(Normalisation.Normalised(mode, Perform(client, call)))
  }

  /**
   * What each call receives: the translated keywords for crawl, the params
   * unchanged for map, extract and search, `[url]` for extract, and
   * `params.get("query")` as the search query.
   */
  lemma RequestArguments(url: string, mode: Mode, params: map<string, Value>, optionsTypeAvailable: bool)
    ensures var r := Request(url, mode, params, optionsTypeAvailable);
      r.Success? ==>
      var call := r.value;
      match mode
      case Scrape => call == ScrapeUrl(url, ScrapeModeOptions(params, optionsTypeAvailable).value)
      case Crawl => call == CrawlUrl(url, CrawlParams.CrawlKwargs(params, optionsTypeAvailable).value)
      case Map => call == MapUrl(url, params)
      case Extract => call == ExtractUrls([url], params)
      case Search => call == SearchWeb(SearchQuery(params), params)
  {
  }

  /**
   * How many raw results each mode has: exactly one for scrape and extract
   * (so at most one document), the response's `data` or nothing for crawl.
   */
  lemma ResultCounts(client: Client, url: string, mode: Mode, params: map<string, Value>)
    ensures var r := Request(url, mode, params, client.optionsTypeAvailable);
      r.Success? ==>
      var items := Perform(client, r.value);
      && (mode in {Scrape, Extract} ==> |items| == 1 && |Load(client, url, mode, params).value| <= 1)
      && (mode == Crawl ==>
            items == Pages(client.crawlUrl(url, CrawlParams.CrawlKwargs(params, client.optionsTypeAvailable).value)
                             .data.GetOr([])))
  {
  }

  /** Search with params {query: "x"} calls the search operation with query "x". */
  lemma SearchExample(url: string, optionsTypeAvailable: bool)
    ensures Request(url, Search, map["query" := Str("x")], optionsTypeAvailable)
            == Success(SearchWeb(Some(Str("x")), map["query" := Str("x")]))
  {
  }

  /**
   * A loader with a validated url, mode and params, and the API key its
   * client is built with; none of them changes after construction.
   */
  class FireCrawlLoader {
    const url: string
    const mode: Mode
    const params: map<string, Value>
    const apiKey: string

    /** Construction guarantees a non-empty url. */
    ghost predicate Valid() {
      url != ""
    }

    constructor (url: string, mode: Mode, params: map<string, Value>, apiKey: string)
      requires url != ""
      ensures Valid()
      ensures this.url == url && this.mode == mode && this.params == params && this.apiKey == apiKey
    {
      this.url := url;
      this.mode := mode;
      this.params := params;
      this.apiKey := apiKey;
    }

    /**
     * Constructs a loader from a mode name (crawl when omitted), optional
     * params and an optional API key, with `envApiKey` the value of
     * FIRECRAWL_API_KEY, if set. It raises as CheckArgs decides, and then as
     * the key lookup decides; absent params become the empty map.
     */
    static method Create(url: string, mode: Option<string>, params: Option<map<string, Value>>,
                         apiKey: Option<string>, envApiKey: Option<string>)
      returns (r: Result<FireCrawlLoader, LoaderError>)
      ensures var name := mode.GetOr(DefaultModeName);
        && (r.Failure? <==> CheckArgs(url, name).Failure? || ResolveApiKey(apiKey, envApiKey).Failure?)
        && (CheckArgs(url, name).Failure? ==> r == Failure(CheckArgs(url, name).error))
        && (CheckArgs(url, name).Success? && r.Failure? ==> r.error == ApiKeyNotFound)
      ensures r.Success? ==>
                && fresh(r.value) && r.value.Valid()
                && r.value.url == url
                && ModeName(r.value.mode) == mode.GetOr(DefaultModeName)
                && r.value.params == params.GetOr(map[])
                && r.value.apiKey == ResolveApiKey(apiKey, envApiKey).value
    {
      var m :- CheckArgs(url, mode.GetOr(DefaultModeName));
      var key :- ResolveApiKey(apiKey, envApiKey);
      var loader := new FireCrawlLoader(url, m, params.GetOr(map[]), key);
      return Success(loader);
    }

    /**
     * Makes the mode's call on `client` and yields the normalised documents.
     * A constructed loader fails here only while building scrape options.
     */
    method LazyLoad(client: Client) returns (r: Result<seq<Document>, LoaderError>)
      ensures r == Load(client, url, mode, params)
      ensures Valid() && r.Failure? ==>
                BuildsOptions(mode) && r.error == OptionsNotMapping
    {
      var items: seq<RawItem>;
      match mode {
        case Scrape =>
          var options :- ScrapeModeOptions(params, client.optionsTypeAvailable);
          items := [PageItem(client.scrapeUrl(url, options))];
        case Crawl =>
          if url == "" {
            return Failure(UrlRequiredFor(Crawl));
          }
          var kwargs :- CrawlParams.BuildCrawlKwargs(params, client.optionsTypeAvailable);
          var response := client.crawlUrl(url, kwargs);
          items := Pages(response.data.GetOr([]));
        case Map =>
          if url == "" {
            return Failure(UrlRequiredFor(Map));
          }
          items := Texts(client.mapUrl(url, params));
        case Extract =>
          if url == "" {
            return Failure(UrlRequiredFor(Extract));
          }
          items := [TextItem(client.extract([url], params))];
        case Search =>
          items := Pages(client.search(SearchQuery(params), params));
      }
      var docs := Normalisation.NormaliseItems(mode, items);
      return Success(docs);
    }
  }
}
