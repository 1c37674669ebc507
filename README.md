# FireCrawl document loader, modelled in Dafny

This project models the `FireCrawlLoader` document loader of
`langchain_community`. The loader is a thin adapter over the FireCrawl
client. It is constructed with a url, a mode (`crawl`, `scrape`, `map`,
`extract` or `search`) and a params mapping. A load makes exactly one call
to the crawling service, chosen by the mode. Each raw result is then turned
into a document with page content and metadata, and results with empty
content are skipped.

Layout:

- `wrappers.dfy` (module `Wrappers`): `Option` and `Result`.
- `firecrawl.dfy` (module `Firecrawl`): params values, the `Mode` type and
  mode names, page objects, raw results, documents, the scrape-options value
  and its construction (`BuildScrapeOptions`, shared by scrape and crawl
  mode), crawl keyword arguments and the errors the loader raises.
- `crawl_params.dfy` (module `CrawlParams`): the crawl-mode rename table.
  `RenameCrawlParams` inserts keys one `if` at a time, as the source does,
  and `BuildCrawlKwargs` then adds the `scrape_options` entry. It fails with
  the TypeError of `ScrapeOptions(**value)` when the value is not a mapping
  while the options type is available; when the type cannot be imported,
  the raw value is passed on. Both are proved equal to the specification: `Translate`, a fold
  over the table, and `CrawlKwargs`. The lemmas then state the per-key,
  closure and scrape-options properties.
- `normalisation.dfy` (module `Normalisation`): the content fallback chain,
  the metadata default, and the filter-map over raw results. `NormaliseItems`
  is the source's `for`/`continue` loop, proved equal to the specification
  `Normalised`. `Kept` gives the positions of the results that yield a
  document. The lemmas show that normalisation keeps exactly the non-empty
  results, in order.
- `loader.dfy` (module `Loader`): the client as a record of abstract
  operations, the call each mode makes (`Request`), its raw results
  (`Perform`), the whole load (`Load`), and the class `FireCrawlLoader`.
  In the class, `Create` validates and resolves the API key like
  `__init__`, and `LazyLoad` is proved equal to `Load`.

The service client is an input. `Client` holds one total function for each
operation (`scrape_url`, `crawl_url`, `map_url`, `extract`, `search`), plus
a flag saying whether the library provides the `ScrapeOptions` type.
`map_url` returns plain strings. `extract` returns its result already
stringified. `scrape_url` and `search` return page objects, and the crawl
response may or may not have a `data` attribute. A page attribute that is
missing and one set to `None` are both `None` in `Page`. This replaces the
source's `getattr`/`hasattr` reflection with explicit optional fields.

The environment is an input too: `Create` takes the value of
`FIRECRAWL_API_KEY` as a parameter.

Two details of the source:

- The constructor rejects an empty url in every mode, search included
  (firecrawl.py:107-108). `lazy_load` checks the url again only in crawl,
  map and extract (firecrawl.py:134-135, 170-171, 174-175), which `Request`
  models; scrape and search do not check it again.
- The allowed-mode tuple lists `search` twice. As a set of names this
  changes nothing (`ModeNames`).

## Model

| member | source | states |
|---|---|---|
| `Firecrawl.ParseMode` | libs/community/langchain_community/document_loaders/firecrawl.py:101-105 | a name is accepted iff it is one of crawl, scrape, search, map, extract, and the accepted mode's name is that name |
| `Firecrawl.ModeNameRoundTrip` | libs/community/langchain_community/document_loaders/firecrawl.py:101-105 | each mode is selected by its own name and by no other name |
| `Loader.CheckArgs` | libs/community/langchain_community/document_loaders/firecrawl.py:101-108 | construction succeeds iff the mode name is allowed and the url is non-empty; an invalid mode is reported first, with the name; an allowed mode with an empty url gives "Url must be provided" |
| `Loader.ResolveApiKey` | libs/community/langchain_community/document_loaders/firecrawl.py:110 | a key is found iff the explicit key or the environment value is non-empty; a non-empty explicit key wins; otherwise the lookup fails with the missing-key error |
| `Loader.FireCrawlLoader.constructor` | libs/community/langchain_community/document_loaders/firecrawl.py:110-114 | the fields equal the given url, mode, params and API key, and the url is non-empty |
| `Loader.FireCrawlLoader.Create` | libs/community/langchain_community/document_loaders/firecrawl.py:66-114 | an omitted mode name is "crawl"; fails exactly when the mode/url checks or the API-key lookup fail; the mode/url error comes first, otherwise the missing-key error; on success the fields equal the inputs, the mode is the one the name selects, absent params become the empty map, and the key is the resolved one |
| `CrawlParams.Translate` | libs/community/langchain_community/document_loaders/firecrawl.py:138-154 | inserting the renamed keys yields no keyword outside the table's snake_case names |
| `CrawlParams.TranslateAt` | libs/community/langchain_community/document_loaders/firecrawl.py:141-154 | for a table with distinct keywords, each row's keyword is present iff its params key is, with the identical value |
| `CrawlParams.CrawlRenamesNames` | libs/community/langchain_community/document_loaders/firecrawl.py:141-154 | the table produces exactly max_depth, limit, include_paths, exclude_paths, allow_external_links, allow_backward_links, ignore_sitemap |
| `CrawlParams.CrawlRenamesDistinct` | libs/community/langchain_community/document_loaders/firecrawl.py:141-154 | no two of the seven renames produce the same keyword |
| `Firecrawl.BuildScrapeOptions` | libs/community/langchain_community/document_loaders/firecrawl.py:160 | `ScrapeOptions(**value)` succeeds iff the value is a mapping, and then holds exactly its entries; any other value gives the TypeError |
| `CrawlParams.CrawlKwargs` | libs/community/langchain_community/document_loaders/firecrawl.py:138-163 | building the crawl keyword arguments fails iff params has scrapeOptions, the options type is available and the value is not a mapping, and then with the TypeError |
| `CrawlParams.CrawlKwargFor` | libs/community/langchain_community/document_loaders/firecrawl.py:141-154 | when building succeeds, for each of the seven recognised keys the crawl call receives its snake_case keyword iff the key is in params, carrying the identical value |
| `CrawlParams.CrawlKwargsClosed` | libs/community/langchain_community/document_loaders/firecrawl.py:138-163 | when building succeeds, the crawl call receives no keyword other than the seven snake_case names and scrape_options; unrecognised params are dropped |
| `CrawlParams.CrawlScrapeOptions` | libs/community/langchain_community/document_loaders/firecrawl.py:156-163 | when building succeeds, scrape_options is passed iff params has scrapeOptions: as an options object holding its entries, or as the raw value when the options type is unavailable |
| `CrawlParams.TranslateCrawlRenames` | libs/community/langchain_community/document_loaders/firecrawl.py:141-154 | translating with the table is the seven conditional insertions in the source's order |
| `CrawlParams.RenameCrawlParams` | libs/community/langchain_community/document_loaders/firecrawl.py:138-154 | the seven `if` statements produce exactly the table's translation of params |
| `CrawlParams.BuildCrawlKwargs` | libs/community/langchain_community/document_loaders/firecrawl.py:138-163 | the step-by-step insertion and the scrape-options step produce exactly the specified crawl keyword arguments, or its TypeError |
| `CrawlParams.CrawlExample` | libs/community/langchain_community/document_loaders/firecrawl.py:141-144 | params {maxDepth: 2, limit: 10} become exactly {max_depth: 2, limit: 10} |
| `Loader.ScrapeModeOptions` | libs/community/langchain_community/document_loaders/firecrawl.py:119-125 | building fails iff params has scrapeOptions, the options type is available and the value is not a mapping, with the TypeError; otherwise the scrape call gets options iff params has scrapeOptions and the type is available, holding that entry's contents, and None else |
| `Loader.SearchQuery` | libs/community/langchain_community/document_loaders/firecrawl.py:181 | the search query is present iff params has "query", and is then its value |
| `Loader.Request` | libs/community/langchain_community/document_loaders/firecrawl.py:116-188 | a load fails iff the url is empty in crawl, map or extract mode, with that mode's "URL is required" error, or scrape or crawl mode meets a scrapeOptions value that is not a mapping while the options type is available, with the TypeError; otherwise it makes the call of its own mode |
| `Loader.RequestArguments` | libs/community/langchain_community/document_loaders/firecrawl.py:127-183 | when the request succeeds, each mode's call receives: scrape the url and options; crawl the translated keywords; map and search the params unchanged; extract the one-element url list and the params; search the query from params |
| `Loader.Perform` | libs/community/langchain_community/document_loaders/firecrawl.py:127-183 | map and extract results are strings, all other results are page objects |
| `Loader.ResultCounts` | libs/community/langchain_community/document_loaders/firecrawl.py:127-178 | when the request succeeds, scrape and extract have exactly one raw result and so yield at most one document; crawl's results are the response's data, or none when it has no data |
| `Loader.SearchExample` | libs/community/langchain_community/document_loaders/firecrawl.py:179-183 | params {query: "x"} make the search call with query "x" and the params |
| `Loader.Load` | libs/community/langchain_community/document_loaders/firecrawl.py:116-203 | a load fails iff the url re-check fails or, in scrape or crawl mode with the options type available, the scrapeOptions value is not a mapping; every yielded document has non-empty content |
| `Loader.FireCrawlLoader.LazyLoad` | libs/community/langchain_community/document_loaders/firecrawl.py:116-203 | the imperative dispatch and loop yield exactly the specified load; a constructed loader fails only in scrape or crawl mode, with the TypeError of building scrape options |
| `Normalisation.FirstFilled` | libs/community/langchain_community/document_loaders/firecrawl.py:194-196 | the result is non-empty iff some attribute is filled, and is then the value of the first filled attribute |
| `Normalisation.PageContent` | libs/community/langchain_community/document_loaders/firecrawl.py:194-196 | content is markdown if non-empty, else html if non-empty, else rawHtml, else "" |
| `Normalisation.PageMetadata` | libs/community/langchain_community/document_loaders/firecrawl.py:197 | metadata is empty iff the page's metadata is absent or empty; otherwise it is the page's metadata |
| `Normalisation.Normalised` | libs/community/langchain_community/document_loaders/firecrawl.py:189-203 | there are no more documents than raw results, and every document has non-empty content |
| `Normalisation.Kept` | libs/community/langchain_community/document_loaders/firecrawl.py:189-203 | the kept positions are valid, strictly increasing, and one per document |
| `Normalisation.NormalisedFromKept` | libs/community/langchain_community/document_loaders/firecrawl.py:189-203 | the j-th document is the document of the raw result at the j-th kept position, so documents keep their results' relative order |
| `Normalisation.KeptExactlyNonEmpty` | libs/community/langchain_community/document_loaders/firecrawl.py:198-199 | a raw result is kept iff its content is non-empty: empty ones are skipped and no others are |
| `Normalisation.VerbatimDocuments` | libs/community/langchain_community/document_loaders/firecrawl.py:190-192 | in map and extract mode each document's content is the raw string itself and its metadata is empty |
| `Normalisation.PageDocuments` | libs/community/langchain_community/document_loaders/firecrawl.py:193-197 | in the other modes each document carries its page's selected content and metadata |
| `Normalisation.NormalisedAppend` | libs/community/langchain_community/document_loaders/firecrawl.py:189-203 | the documents of concatenated results are the concatenation of their documents, so each prefix of the results yields a prefix of the documents |
| `Normalisation.NormaliseItems` | libs/community/langchain_community/document_loaders/firecrawl.py:189-203 | the `for`/`continue` loop yields exactly the specified documents |
| `Normalisation.MapExample` | libs/community/langchain_community/document_loaders/firecrawl.py:189-203 | map links ["a", "b"] yield the documents "a" and "b", in that order, with empty metadata |

## Left out

- The import check for the `firecrawl` package and its ImportError: this is only about whether a dependency is installed.
- How `get_from_env` reads the process environment: the value of `FIRECRAWL_API_KEY` is a parameter of `Create`. `api_url` is handed to the client unchanged and is not modelled.
- Building the `FirecrawlApp` client and the `self.firecrawl` field: the client is a parameter of `LazyLoad`.
- The service operations themselves, and any error they raise: each is an abstract total function of `Client`. Errors the service raises propagate unchanged through the source and are not modelled.
- What `ScrapeOptions(**mapping)` builds from a mapping, and any error it raises for keys or values it does not accept: it is a foreign object, modelled as a wrapper of the mapping's entries. The TypeError for a value that is not a mapping is modelled (`BuildScrapeOptions`).
- `str(...)` of the extract result: foreign, modelled as the client's `extract` returning the string.
- `Document`, `BaseLoader` and the inherited `load`/`alazy_load`/`aload` variants: they are not in this file.
- Laziness of the generator: `LazyLoad` returns the whole sequence. `NormalisedAppend` states that each prefix of the results yields a prefix of the documents.
- The defensive `else` branch for an unknown mode in `lazy_load`: `Mode` is a closed datatype, so that branch cannot be reached.
- Text of the ValueError messages: each message is one `LoaderError` constructor.
- The shapes of the map and search responses are taken to be sequences of strings and of page objects respectively: the client's response types are not part of this model.
- The crawl response's `data` is taken to be a sequence of page objects or absent (`CrawlResponse.data` is `None`). A `data` attribute that exists but is `None` is not distinguished from an absent one: the source would then iterate over `None` and raise TypeError at firecrawl.py:189, while the model yields no documents.
- Loader.FireCrawlLoader.LazyLoad: the loader's fields are immutable snapshots taken at construction. The source's attributes can be reassigned after `__init__`, and `self.params` shares the caller's dict, so later changes to either would be seen by `lazy_load`; the model has no reassignment and no shared params dict. In the model the url re-checks matter only for an empty url passed straight to `Load`.
