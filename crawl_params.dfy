/**
 * Crawl mode translates the loader's camelCase params into the snake_case
 * keyword arguments of the client's crawl call. Only the seven recognised
 * keys and the scrape options are forwarded; everything else is dropped.
 */
module CrawlParams {
  import opened Wrappers
  import opened Firecrawl

  /** One row of the rename table: a params key and the keyword it becomes. */
  datatype Rename = Rename(camel: string, snake: string)

  /** The rename table, in the order in which the source inserts the keys. */
  const CrawlRenames: seq<Rename> := [
    Rename("maxDepth", "max_depth"),
    Rename("limit", "limit"),
    Rename("includePaths", "include_paths"),
    Rename("excludePaths", "exclude_paths"),
    Rename("allowExternalLinks", "allow_external_links"),
    Rename("allowBackwardLinks", "allow_backward_links"),
    Rename("ignoreSitemap", "ignore_sitemap")
  ]

  const ScrapeOptionsKwarg: string := "scrape_options"

  /** Every keyword the crawl call can receive from the loader. */
  const CrawlKwargNames: set<string> := {
    "max_depth", "limit", "include_paths", "exclude_paths",
    "allow_external_links", "allow_backward_links", "ignore_sitemap",
    ScrapeOptionsKwarg
  }

  /** The keywords a rename table produces. */
  function SnakeNames(table: seq<Rename>): set<string> {
    set i | 0 <= i < |table| :: table[i].snake
  }

  /** No two rows of the table produce the same keyword. */
  ghost predicate DistinctSnakes(table: seq<Rename>) {
    forall i, j :: 0 <= i < j < |table| ==> table[i].snake != table[j].snake
  }

  /**
   * The keyword arguments produced by inserting, row after row, the value of
   * every params key the table recognises under its new name.
   */
  function Translate(params: map<string, Value>, table: seq<Rename>): (kw: map<string, KwArg>)
    ensures kw.Keys <= SnakeNames(table)
  {
    if table == [] then map[]
    else
      var init := table[..|table| - 1];
      var last := table[|table| - 1];
      var kw := Translate(params, init);
      assert SnakeNames(init) <= SnakeNames(table) by {
        forall k | k in SnakeNames(init) ensures k in SnakeNames(table) {
          var i :| 0 <= i < |init| && init[i].snake == k;
          assert table[i] == init[i];
        }
      }
      InsertRenamed(params, kw, last)
  }

  /** One step of the translation: insert the row's keyword when its params key is present. */
  function InsertRenamed(params: map<string, Value>, kw: map<string, KwArg>, row: Rename): map<string, KwArg> {
    if row.camel in params then kw[row.snake := Param(params[row.camel])] else kw
  }

  /** Translating one more row of the table is one more insertion step. */
  lemma TranslateStep(params: map<string, Value>, table: seq<Rename>, k: nat)
    requires k < |table|
    ensures Translate(params, table[..k + 1]) == InsertRenamed(params, Translate(params, table[..k]), table[k])
  {
    assert table[..k + 1][..k] == table[..k];
  }

  /**
   * With distinct keywords, each row's keyword is present exactly when its
   * params key is, and carries that key's value unchanged.
   */
  lemma {:induction false} TranslateAt(params: map<string, Value>, table: seq<Rename>, i: nat)
    requires DistinctSnakes(table)
    requires i < |table|
    ensures table[i].snake in Translate(params, table) <==> table[i].camel in params
    ensures table[i].camel in params ==>
              Translate(params, table)[table[i].snake] == Param(params[table[i].camel])
  {
    var n := |table| - 1;
    var init := table[..n];
    assert DistinctSnakes(init) by {
      forall a, b | 0 <= a < b < |init| ensures init[a].snake != init[b].snake {
        assert init[a] == table[a] && init[b] == table[b];
      }
    }
    assert Translate(params, table) == InsertRenamed(params, Translate(params, init), table[n]);
    if i == n {
      forall a | 0 <= a < |init| ensures init[a].snake != table[n].snake {
        assert init[a] == table[a];
      }
      assert table[n].snake !in SnakeNames(init);
    } else {
      assert init[i] == table[i];
      assert table[i].snake != table[n].snake;
      TranslateAt(params, init, i);
    }
  }

  /**
   * The keyword arguments of the crawl call for the given params, or the
   * TypeError raised while building the scrape options.
   */
  function CrawlKwargs(params: map<string, Value>, optionsTypeAvailable: bool)
    : (r: Result<map<string, KwArg>, LoaderError>)
    ensures r.Failure? <==> OptionsRejected(params, optionsTypeAvailable)
    ensures r.Failure? ==> r.error == OptionsNotMapping
  {
    var kw := Translate(params, CrawlRenames);
    if ScrapeOptionsKey !in params then Success(kw)
    else if !optionsTypeAvailable then Success(kw[ScrapeOptionsKwarg := Param(params[ScrapeOptionsKey])])
    else
      match BuildScrapeOptions(params[ScrapeOptionsKey])
      case Failure(e) => Failure(e)
      case Success(options) => Success(kw[ScrapeOptionsKwarg := Options(options)])
  }

  /** The keywords the literal table produces. */
  lemma CrawlRenamesNames()
    ensures SnakeNames(CrawlRenames) == CrawlKwargNames - {ScrapeOptionsKwarg}
  {
    assert CrawlRenames[0].snake == "max_depth";
    assert CrawlRenames[1].snake == "limit";
    assert CrawlRenames[2].snake == "include_paths";
    assert CrawlRenames[3].snake == "exclude_paths";
    assert CrawlRenames[4].snake == "allow_external_links";
    assert CrawlRenames[5].snake == "allow_backward_links";
    assert CrawlRenames[6].snake == "ignore_sitemap";
  }

  /** No two rows of the literal table produce the same keyword. */
  lemma CrawlRenamesDistinct()
    ensures DistinctSnakes(CrawlRenames)
  {
    CrawlRenamesNames();
  }

  /**
   * For each recognised params key, its keyword is present in the crawl
   * arguments exactly when the key is in params, with the identical value.
   */
  lemma CrawlKwargFor(params: map<string, Value>, optionsTypeAvailable: bool, camel: string, snake: string)
    requires Rename(camel, snake) in CrawlRenames
    ensures var r := CrawlKwargs(params, optionsTypeAvailable);
      r.Success? ==>
        && (snake in r.value <==> camel in params)
        && (camel in params ==> r.value[snake] == Param(params[camel]))
  {
    CrawlRenamesDistinct();
    var i :| 0 <= i < |CrawlRenames| && CrawlRenames[i] == Rename(camel, snake);
    assert snake in SnakeNames(CrawlRenames);
    TranslateAt(params, CrawlRenames, i);
  }

  /** The crawl arguments hold no keyword other than the seven renamed ones and `scrape_options`. */
  lemma CrawlKwargsClosed(params: map<string, Value>, optionsTypeAvailable: bool)
    ensures CrawlKwargs(params, optionsTypeAvailable).Success? ==>
              CrawlKwargs(params, optionsTypeAvailable).value.Keys <= CrawlKwargNames
  {
  }

  /**
   * When building succeeds, `scrape_options` is passed exactly when params
   * has `scrapeOptions`: as an options object built from its entries, or as
   * the raw value when the options type is unavailable.
   */
  lemma CrawlScrapeOptions(params: map<string, Value>, optionsTypeAvailable: bool)
    ensures var r := CrawlKwargs(params, optionsTypeAvailable);
      r.Success? ==>
        && (ScrapeOptionsKwarg in r.value <==> ScrapeOptionsKey in params)
        && (ScrapeOptionsKey in params ==>
              r.value[ScrapeOptionsKwarg] ==
              (if optionsTypeAvailable then Options(ScrapeOptions(params[ScrapeOptionsKey].entries))
               else Param(params[ScrapeOptionsKey])))
  {
  }

  /** The translation over the literal table, written out as its seven insertion steps. */
  lemma TranslateCrawlRenames(params: map<string, Value>)
    ensures Translate(params, CrawlRenames) ==
      var kw1 := InsertRenamed(params, map[], Rename("maxDepth", "max_depth"));
      var kw2 := InsertRenamed(params, kw1, Rename("limit", "limit"));
      var kw3 := InsertRenamed(params, kw2, Rename("includePaths", "include_paths"));
      var kw4 := InsertRenamed(params, kw3, Rename("excludePaths", "exclude_paths"));
      var kw5 := InsertRenamed(params, kw4, Rename("allowExternalLinks", "allow_external_links"));
      var kw6 := InsertRenamed(params, kw5, Rename("allowBackwardLinks", "allow_backward_links"));
      var kw7 := InsertRenamed(params, kw6, Rename("ignoreSitemap", "ignore_sitemap"));
      kw7
  {
    assert CrawlRenames[0] == Rename("maxDepth", "max_depth");
    TranslateStep(params, CrawlRenames, 0);
    assert CrawlRenames[1] == Rename("limit", "limit");
    TranslateStep(params, CrawlRenames, 1);
    assert CrawlRenames[2] == Rename("includePaths", "include_paths");
    TranslateStep(params, CrawlRenames, 2);
    assert CrawlRenames[3] == Rename("excludePaths", "exclude_paths");
    TranslateStep(params, CrawlRenames, 3);
    assert CrawlRenames[4] == Rename("allowExternalLinks", "allow_external_links");
    TranslateStep(params, CrawlRenames, 4);
    assert CrawlRenames[5] == Rename("allowBackwardLinks", "allow_backward_links");
    TranslateStep(params, CrawlRenames, 5);
    assert CrawlRenames[6] == Rename("ignoreSitemap", "ignore_sitemap");
    TranslateStep(params, CrawlRenames, 6);
    assert CrawlRenames[..7] == CrawlRenames;
  }

  /** Inserts the renamed keywords by conditional insertion, one recognised key at a time. */
  method RenameCrawlParams(params: map<string, Value>) returns (kw: map<string, KwArg>)
    ensures kw == Translate(params, CrawlRenames)
  {
    kw := map[];
    ghost var kw0 := kw;
    if "maxDepth" in params {
      kw := kw["max_depth" := Param(params["maxDepth"])];
    }
    assert kw == InsertRenamed(params, kw0, Rename("maxDepth", "max_depth"));
    ghost var kw1 := kw;
    if "limit" in params {
      kw := kw["limit" := Param(params["limit"])];
    }
    assert kw == InsertRenamed(params, kw1, Rename("limit", "limit"));
    ghost var kw2 := kw;
    if "includePaths" in params {
      kw := kw["include_paths" := Param(params["includePaths"])];
    }
    assert kw == InsertRenamed(params, kw2, Rename("includePaths", "include_paths"));
    ghost var kw3 := kw;
    if "excludePaths" in params {
      kw := kw["exclude_paths" := Param(params["excludePaths"])];
    }
    assert kw == InsertRenamed(params, kw3, Rename("excludePaths", "exclude_paths"));
    ghost var kw4 := kw;
    if "allowExternalLinks" in params {
      kw := kw["allow_external_links" := Param(params["allowExternalLinks"])];
    }
    assert kw == InsertRenamed(params, kw4, Rename("allowExternalLinks", "allow_external_links"));
    ghost var kw5 := kw;
    if "allowBackwardLinks" in params {
      kw := kw["allow_backward_links" := Param(params["allowBackwardLinks"])];
    }
    assert kw == InsertRenamed(params, kw5, Rename("allowBackwardLinks", "allow_backward_links"));
    ghost var kw6 := kw;
    if "ignoreSitemap" in params {
      kw := kw["ignore_sitemap" := Param(params["ignoreSitemap"])];
    }
    assert kw == InsertRenamed(params, kw6, Rename("ignoreSitemap", "ignore_sitemap"));
    TranslateCrawlRenames(params);
  }

  /** Builds the crawl keyword arguments: the renamed keys, then the scrape options. */
  method BuildCrawlKwargs(params: map<string, Value>, optionsTypeAvailable: bool)
    returns (r: Result<map<string, KwArg>, LoaderError>)
    ensures r == CrawlKwargs(params, optionsTypeAvailable)
  {
    var kw := RenameCrawlParams(params);
    if ScrapeOptionsKey in params {
      if optionsTypeAvailable {
        match params[ScrapeOptionsKey] {
          case Dict(settings) =>
            kw := kw[ScrapeOptionsKwarg := Options(ScrapeOptions(settings))];
          case _ =>
            return Failure(OptionsNotMapping);
        }
      } else {
        kw := kw[ScrapeOptionsKwarg := Param(params[ScrapeOptionsKey])];
      }
    }
    return Success(kw);
  }

  /** Params {maxDepth: 2, limit: 10} reach the crawl call as max_depth=2, limit=10. */
  lemma CrawlExample(optionsTypeAvailable: bool)
    ensures CrawlKwargs(map["maxDepth" := Int(2), "limit" := Int(10)], optionsTypeAvailable)
            == Success(map["max_depth" := Param(Int(2)), "limit" := Param(Int(10))])
  {
    var params := map["maxDepth" := Int(2), "limit" := Int(10)];
    TranslateCrawlRenames(params);
  }
}
