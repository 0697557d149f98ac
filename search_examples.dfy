/** The scenarios of the plugin's test suite, stated about the model. The test
    doubles for pages and articles all have `save_as` "save_as",
    `relative_source_path` "relative" and `url` "url". */
module SearchExamples {
  import opened Wrappers
  import opened SearchModel

  function Item(title: string, translations: seq<ContentItem>): ContentItem {
    ContentItem(title, "url", "save_as", "relative", translations)
  }

  /** `striptags` leaves a plain title alone and `json.dumps` quotes it. */
  predicate PlainTitle(f: Filters, title: string) {
    f.stripTags(title) == title && f.dumps(title) == "\"" + title + "\""
  }

  /** Settings that give only TEMPLATE_PAGES (and, optionally, SEARCH_MODE and PATH). */
  function OnlyTemplatePages(tpages: seq<TemplatePage>, mode: Option<string>, path: Option<string>): Settings {
    Settings(path, Some(tpages), mode, None)
  }

  lemma PathIsSaveAsInOutputMode(f: Filters)
    requires PlainTitle(f, "title")
    ensures Collect(Init(Context([Item("title", [])], []), OnlyTemplatePages([], None, None), "output"), f)
      == Success([InputFile("save_as", "/url", "\"title\"")])
  {
    var items := [Item("title", [])];
    assert IterationList(Context(items, [])) == items;
    assert "\"" + "title" + "\"" == "\"title\"" && "/" + "url" == "/url";
    assert ContentRecords(items, Output, f) == [ContentRecord(items[0], Output, f)];
    assert TemplateRecords([], Output) == [];
    assert CollectedFiles(Context(items, []), [], Output, f) == [InputFile("save_as", "/url", "\"title\"")];
  }

  // The test selects source mode through STORK_INPUT_OPTIONS, which this
  // search.py ignores; here SEARCH_MODE "source" stands in for it.
  lemma PathIsRelativeInSourceMode(f: Filters)
    requires PlainTitle(f, "title")
    ensures Collect(Init(Context([Item("title", [])], []), OnlyTemplatePages([], Some("source"), Some("content")), "output"), f)
      == Success([InputFile("relative", "/url", "\"title\"")])
  {
    var items := [Item("title", [])];
    assert IterationList(Context(items, [])) == items;
    assert "\"" + "title" + "\"" == "\"title\"" && "/" + "url" == "/url";
    assert ContentRecords(items, Source, f) == [ContentRecord(items[0], Source, f)];
    assert TemplateRecords([], Source) == [];
    assert CollectedFiles(Context(items, []), [], Source, f) == [InputFile("relative", "/url", "\"title\"")];
  }

  lemma ArticlesAndPagesAreCollected(f: Filters)
    requires PlainTitle(f, "page") && PlainTitle(f, "article")
    ensures Collect(Init(Context([Item("page", [])], [Item("article", [])]), OnlyTemplatePages([], None, None), "output"), f)
      == Success([InputFile("save_as", "/url", "\"page\""), InputFile("save_as", "/url", "\"article\"")])
  {
    var context := Context([Item("page", [])], [Item("article", [])]);
    var items := IterationList(context);
    assert Translations(context.articles) == [];
    assert items == [Item("page", []), Item("article", [])];
    assert "\"" + "page" + "\"" == "\"page\"" && "\"" + "article" + "\"" == "\"article\"";
    assert "/" + "url" == "/url";
    assert ContentRecords(items, Output, f) == [ContentRecord(items[0], Output, f), ContentRecord(items[1], Output, f)];
    assert TemplateRecords([], Output) == [];
    assert CollectedFiles(context, [], Output, f) == ContentRecords(items, Output, f);
  }

  lemma TranslationsAreCollected(f: Filters)
    requires PlainTitle(f, "article") && PlainTitle(f, "article-fr")
    ensures Collect(Init(Context([], [Item("article", [Item("article-fr", [])])]), OnlyTemplatePages([], None, None), "output"), f)
      == Success([InputFile("save_as", "/url", "\"article\""), InputFile("save_as", "/url", "\"article-fr\"")])
  {
    var context := Context([], [Item("article", [Item("article-fr", [])])]);
    var items := IterationList(context);
    assert Translations(context.articles) == [Item("article-fr", [])];
    assert items == [Item("article", [Item("article-fr", [])]), Item("article-fr", [])];
    assert "\"" + "article" + "\"" == "\"article\"" && "\"" + "article-fr" + "\"" == "\"article-fr\"";
    assert "/" + "url" == "/url";
    assert ContentRecords(items, Output, f) == [ContentRecord(items[0], Output, f), ContentRecord(items[1], Output, f)];
    assert TemplateRecords([], Output) == [];
    assert CollectedFiles(context, [], Output, f) == ContentRecords(items, Output, f);
  }

  // The test replaces the index run with a mock; here only the collected
  // records are stated, and SEARCH_MODE "source" selects source mode.
  lemma TemplatePagesAreCollected(f: Filters)
    ensures var tpages := [TemplatePage("src/books.html", "dest/books.html"),
                           TemplatePage("src/resume.html", "dest/resume.html")];
      Collect(Init(Context([], []), OnlyTemplatePages(tpages, None, None), "output"), f)
        == Success([InputFile("dest/books.html", "dest/books.html", ""),
                    InputFile("dest/resume.html", "dest/resume.html", "")]) &&
      Collect(Init(Context([], []), OnlyTemplatePages(tpages, Some("source"), None), "output"), f)
        == Success([InputFile("src/books.html", "dest/books.html", ""),
                    InputFile("src/resume.html", "dest/resume.html", "")])
  {
    var tpages := [TemplatePage("src/books.html", "dest/books.html"),
                   TemplatePage("src/resume.html", "dest/resume.html")];
    assert IterationList(Context([], [])) == [];
    assert ContentRecords([], Output, f) == [] && ContentRecords([], Source, f) == [];
    assert TemplateRecords(tpages, Output) == [TemplateRecord(tpages[0], Output), TemplateRecord(tpages[1], Output)];
    assert TemplateRecords(tpages, Source) == [TemplateRecord(tpages[0], Source), TemplateRecord(tpages[1], Source)];
    assert CollectedFiles(Context([], []), tpages, Output, f) == TemplateRecords(tpages, Output);
    assert CollectedFiles(Context([], []), tpages, Source, f) == TemplateRecords(tpages, Source);
  }

  // The test gives no TEMPLATE_PAGES, for which this search.py raises a
  // TypeError; here TEMPLATE_PAGES is the empty mapping, and SEARCH_MODE with
  // PATH stand in for the test's base_directory option.
  lemma BaseDirectoryFollowsMode(f: Filters)
    ensures Document(Init(Context([], []), OnlyTemplatePages([], Some("source"), Some("content")), "output"), f)
      == Success(SearchDocument("content", "main", []))
    ensures Document(Init(Context([], []), OnlyTemplatePages([], Some("output"), Some("content")), "output"), f)
      == Success(SearchDocument("output", "main", []))
  {
    assert IterationList(Context([], [])) == [];
    assert CollectedFiles(Context([], []), [], Source, f) == [];
    assert CollectedFiles(Context([], []), [], Output, f) == [];
  }

  lemma UnknownModeFailsWithNoRecords(f: Filters)
    ensures Document(Init(Context([], []), OnlyTemplatePages([], Some("foo"), None), "output"), f)
      == Failure(UnboundLocal("base_dir"))
  {
  }

  lemma SettingsFileLocation()
    ensures SettingsPath("output") == "output/search.toml"
    ensures StorkCommand(SettingsPath("output"), "output")
      == ["stork", "build", "--input", "output/search.toml", "--output", "output/search-index.st"]
  {
    assert "output" + "/" + "search.toml" == "output/search.toml";
    assert "output" + "/search-index.st" == "output/search-index.st";
  }

  /** A text without the first letter of `sub` does not contain `sub`. */
  lemma MissingLetterMeansNoOccurrence(s: string, sub: string)
    requires sub != [] && sub[0] !in s
    ensures !Contains(s, sub)
  {
  }

  lemma PositiveLogIsDebug()
    ensures ClassifyLog("foo bar") == LogRecord(Debug, "Search plugin reported foo bar")
  {
    var log := "foo bar";
    assert Banner + log == "Search plugin reported foo bar";
    MissingLetterMeansNoOccurrence(log, "error");
  }

  lemma ErrorLogIsError()
    ensures ClassifyLog("error bar") == LogRecord(Error, "Search plugin reported error bar")
  {
  }
}
