/** The plugin's generator: it reads its settings once, when it is
    constructed, and on `GenerateOutput` collects the files to index, assembles
    the configuration document, runs Stork and reports the build log. */
module Search {
  import opened Wrappers
  import opened SearchModel

  class SearchSettingsGenerator {
    const outputPath: string
    const context: Context
    const content: Option<string>
    const tpages: Option<seq<TemplatePage>>
    const searchMode: string
    const htmlSelector: string

    /** The generator's state as a value. */
    function Model(): Generator {
      Generator(outputPath, context, content, tpages, searchMode, htmlSelector)
    }

    /** `path` and `theme` are accepted for the host's generator protocol and not used. */
    constructor (context: Context, settings: Settings, path: Option<string>, theme: Option<string>,
                 outputPath: string)
      ensures Model() == Init(context, settings, outputPath)
    {
      this.outputPath := outputPath;
      this.context := context;
      this.content := settings.path;
      this.tpages := settings.templatePages;
      this.searchMode := settings.searchMode.GetOr(DefaultSearchMode);
      this.htmlSelector := settings.htmlSelector.GetOr(DefaultHtmlSelector);
    }

    /** The iteration list: a fresh concatenation of pages and articles, to
        which each article's translations are appended, article by article. */
    method IterationPages() returns (pages: seq<ContentItem>)
      ensures pages == IterationList(context)
    {
      pages := context.pages + context.articles;
      var articles := context.articles;
      for i := 0 to |articles|
        invariant pages == context.pages + articles + Translations(articles[..i])
      {
        TranslationsAppend(articles[..i], articles[i]);
        assert articles[..i + 1] == articles[..i] + [articles[i]];
        pages := pages + articles[i].translations;
      }
      assert articles[..|articles|] == articles;
    }

    /** The records of the content items and then of the template pages; the
        path of each is chosen by the mode, and a mode that matches neither
        branch leaves it unbound. */
    method InputFiles(f: Filters) returns (r: Result<seq<InputFile>, Failure>)
      ensures r == Collect(Model(), f)
    {
      var pages := IterationPages();
      var files: seq<InputFile> := [];
      for i := 0 to |pages|
        invariant ParseMode(searchMode).None? ==> i == 0 && files == []
        invariant ParseMode(searchMode).Some? ==> files == ContentRecords(pages[..i], ParseMode(searchMode).value, f)
      {
        var page := pages[i];
        var pageToIndex: Option<string> := None;
        if searchMode == "output" {
          pageToIndex := Some(page.saveAs);
        }
        if searchMode == "source" {
          pageToIndex := Some(page.relativeSourcePath);
        }
        if pageToIndex.None? {
          return Failure(UnboundLocal("page_to_index"));
        }
        files := files + [InputFile(pageToIndex.value, "/" + page.url, f.dumps(f.stripTags(page.title)))];
      }
      assert pages[..|pages|] == pages;
      if tpages.None? {
        return Failure(NotIterable);
      }
      var entries := tpages.value;
      ghost var contentFiles := files;
      for i := 0 to |entries|
        invariant ParseMode(searchMode).None? ==> i == 0 && files == []
        invariant ParseMode(searchMode).Some? ==>
          files == contentFiles + TemplateRecords(entries[..i], ParseMode(searchMode).value)
      {
        var tpage := entries[i];
        var tpageToIndex: Option<string> := None;
        if searchMode == "output" {
          tpageToIndex := Some(tpage.destination);
        }
        if searchMode == "source" {
          tpageToIndex := Some(tpage.source);
        }
        if tpageToIndex.None? {
          return Failure(UnboundLocal("tpage_to_index"));
        }
        files := files + [InputFile(tpageToIndex.value, tpage.destination, "")];
      }
      assert entries[..|entries|] == entries;
      return Success(files);
    }

    /** `build_search_index`: `storkOnPath` is whether `stork` is found on the
        search path, and `exec` gives the result of running a command line. */
    method BuildSearchIndex(settingsPath: string, storkOnPath: bool, exec: seq<string> -> ProcessResult)
      returns (r: Result<string, Failure>)
      ensures r == BuildResult(outputPath, settingsPath, storkOnPath, exec)
    {
      if !storkOnPath {
        return Failure(Raised(MissingStorkMessage));
      }
      var output := exec(["stork", "build", "--input", settingsPath, "--output", outputPath + "/search-index.st"]);
      if output.exitStatus != 0 {
        return Failure(Raised(Banner + output.stdout + output.stderr));
      }
      return Success(output.stdout);
    }

    /** `generate_output`: the configuration file written, if generation got
        that far, and the log record, or the exception raised. */
    method GenerateOutput(f: Filters, storkOnPath: bool, exec: seq<string> -> ProcessResult)
      returns (g: Generation)
      ensures g == Generate(Model(), f, storkOnPath, exec)
    {
      var searchSettingsPath := JoinPath(outputPath, "search.toml");
      var collected := InputFiles(f);
      if collected.Failure? {
        return Generation(None, Failure(collected.error));
      }
      var baseDir: Option<string> := None;
      if searchMode == "output" {
        baseDir := Some(outputPath);
      }
      if searchMode == "source" {
        baseDir := Some(Str(content));
      }
      if baseDir.None? {
        return Generation(None, Failure(UnboundLocal("base_dir")));
      }
      var searchSettings := SearchDocument(baseDir.value, htmlSelector, collected.value);
      var written := Some(WrittenFile(searchSettingsPath, searchSettings));
      var buildLog := BuildSearchIndex(searchSettingsPath, storkOnPath, exec);
      if buildLog.Failure? {
        return Generation(written, Failure(buildLog.error));
      }
      var message := Banner + buildLog.value;
      var severity := if Contains(message, "error") then Error else Debug;
      return Generation(written, Success(LogRecord(severity, message)));
    }
  }
}
