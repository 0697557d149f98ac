/** The values the search plugin works on and the specification of what its
    generator computes: the list of files handed to the Stork index builder,
    the index-configuration document, the interpretation of the Stork run
    and the classification of its build log. */
module SearchModel {
  import opened Wrappers

  // ---------------------------------------------------------------------
  // Data model
  // ---------------------------------------------------------------------

  /** A page or article of the site, as the host pipeline supplies it. */
  datatype ContentItem = ContentItem(
    title: string,
    url: string,
    saveAs: string,
    relativeSourcePath: string,
    translations: seq<ContentItem>)

  /** The build context: `context["pages"]` and `context["articles"]`. */
  datatype Context = Context(pages: seq<ContentItem>, articles: seq<ContentItem>)

  /** One `TEMPLATE_PAGES` entry: source path (the key) and destination path (the value). */
  datatype TemplatePage = TemplatePage(source: string, destination: string)

  /** The settings the generator reads; `None` is a key absent from the mapping. */
  datatype Settings = Settings(
    path: Option<string>,                      // PATH
    templatePages: Option<seq<TemplatePage>>,  // TEMPLATE_PAGES, in mapping order
    searchMode: Option<string>,                // SEARCH_MODE
    htmlSelector: Option<string>)              // SEARCH_HTML_SELECTOR

  /** The state the constructor stores: the abstract value of a generator. */
  datatype Generator = Generator(
    outputPath: string,
    context: Context,
    content: Option<string>,
    tpages: Option<seq<TemplatePage>>,
    searchMode: string,
    htmlSelector: string)

  /** The two indexing modes the generator recognises. */
  datatype Mode = Output | Source

  /** One `[[input.files]]` entry of the configuration document. */
  datatype InputFile = InputFile(path: string, url: string, title: string)

  /** The `[input]` table of the configuration document. */
  datatype SearchDocument = SearchDocument(
    baseDirectory: string,
    htmlSelector: string,
    files: seq<InputFile>)

  /** The library calls used on titles: jinja2's `striptags` and `json.dumps`. */
  datatype Filters = Filters(stripTags: string -> string, dumps: string -> string)

  /** The exceptions generation can raise. */
  datatype Failure =
    | UnboundLocal(variable: string)  // UnboundLocalError: the mode matched neither branch
    | NotIterable                     // TypeError: iterating a missing TEMPLATE_PAGES (None)
    | Raised(message: string)         // Exception(message) raised by the plugin itself

  /** What a finished `stork` process reports. */
  datatype ProcessResult = ProcessResult(exitStatus: int, stdout: string, stderr: string)

  datatype Severity = Error | Debug

  /** The one log record written for a build. */
  datatype LogRecord = LogRecord(severity: Severity, message: string)

  /** The file written to disk, if generation got that far. */
  datatype WrittenFile = WrittenFile(path: string, document: SearchDocument)

  /** The observable effects of `generate_output`: the configuration file it
      wrote (if any) and either the log record or the exception raised. */
  datatype Generation = Generation(written: Option<WrittenFile>, outcome: Result<LogRecord, Failure>)

  const DefaultSearchMode := "output"
  const DefaultHtmlSelector := "main"
  /** The text every build message and every build error starts with. */
  const Banner := "Search plugin reported "
  const MissingStorkMessage := "Stork must be installed and available on $PATH."

  // ---------------------------------------------------------------------
  // Strings
  // ---------------------------------------------------------------------

  predicate StartsWith(s: string, prefix: string) {
    |prefix| <= |s| && s[..|prefix|] == prefix
  }

  predicate EndsWith(s: string, suffix: string) {
    |suffix| <= |s| && s[|s| - |suffix|..] == suffix
  }

  /** Python's `sub in s`: `sub` occurs in `s` at some position. */
  predicate Contains(s: string, sub: string) {
    exists i :: 0 <= i <= |s| && StartsWith(s[i..], sub)
  }

  /** Python's `str()` of a setting that may be `None`, as an f-string renders it. */
  function Str(v: Option<string>): string {
    match v
    case Some(s) => s
    case None => "None"
  }

  /** `os.path.join(directory, name)` on POSIX, for a relative `name`. */
  function JoinPath(directory: string, name: string): string {
    if directory == "" || directory[|directory| - 1] == '/' then directory + name
    else directory + "/" + name
  }

  // ---------------------------------------------------------------------
  // Construction
  // ---------------------------------------------------------------------

  /** What `__init__` stores: settings are read once, with their defaults. */
  function Init(context: Context, settings: Settings, outputPath: string): (g: Generator)
    ensures g.outputPath == outputPath && g.context == context
    ensures g.content == settings.path && g.tpages == settings.templatePages
    ensures settings.searchMode.None? ==> g.searchMode == "output"
    ensures settings.searchMode.Some? ==> g.searchMode == settings.searchMode.value
    ensures settings.htmlSelector.None? ==> g.htmlSelector == "main"
    ensures settings.htmlSelector.Some? ==> g.htmlSelector == settings.htmlSelector.value
  {
    Generator(outputPath, context, settings.path, settings.templatePages,
              settings.searchMode.GetOr(DefaultSearchMode),
              settings.htmlSelector.GetOr(DefaultHtmlSelector))
  }

  /** The branch a `SEARCH_MODE` value selects; `None` when neither `if` matches. */
  function ParseMode(searchMode: string): Option<Mode> {
    if searchMode == "output" then Some(Output)
    else if searchMode == "source" then Some(Source)
    else None
  }

  // ---------------------------------------------------------------------
  // Input-file collection
  // ---------------------------------------------------------------------

  /** The translations of every article, article by article, each in its own order. */
  function Translations(articles: seq<ContentItem>): seq<ContentItem> {
    if articles == [] then []
    else articles[0].translations + Translations(articles[1..])
  }

  /** The number of translations, summed over the articles. */
  function TranslationCount(articles: seq<ContentItem>): nat {
    if articles == [] then 0
    else |articles[0].translations| + TranslationCount(articles[1..])
  }

  /** The items the generator iterates over: pages, articles, then the articles' translations. */
  function IterationList(context: Context): seq<ContentItem> {
    context.pages + context.articles + Translations(context.articles)
  }

  /** The record of a page or article. */
  function ContentRecord(item: ContentItem, mode: Mode, f: Filters): InputFile {
    InputFile(
      if mode == Output then item.saveAs else item.relativeSourcePath,
      "/" + item.url,
      f.dumps(f.stripTags(item.title)))
  }

  /** The record of a template page. */
  function TemplateRecord(tpage: TemplatePage, mode: Mode): InputFile {
    InputFile(
      if mode == Output then tpage.destination else tpage.source,
      tpage.destination,
      "")
  }

  function ContentRecords(items: seq<ContentItem>, mode: Mode, f: Filters): seq<InputFile> {
    seq(|items|, k requires 0 <= k < |items| => ContentRecord(items[k], mode, f))
  }

  function TemplateRecords(tpages: seq<TemplatePage>, mode: Mode): seq<InputFile> {
    seq(|tpages|, k requires 0 <= k < |tpages| => TemplateRecord(tpages[k], mode))
  }

  /** The files list when the mode is recognised. */
  function CollectedFiles(context: Context, tpages: seq<TemplatePage>, mode: Mode, f: Filters): seq<InputFile> {
    ContentRecords(IterationList(context), mode, f) + TemplateRecords(tpages, mode)
  }

  /** The outcome of the two collection loops, including the exception raised
      when a loop reaches a variable that the mode left unbound, and the one
      raised by iterating a missing TEMPLATE_PAGES. */
  function Collect(g: Generator, f: Filters): Result<seq<InputFile>, Failure> {
    match ParseMode(g.searchMode)
    case Some(mode) =>
      if g.tpages.None? then Failure(NotIterable)
      else Success(CollectedFiles(g.context, g.tpages.value, mode, f))
    case None =>
      if IterationList(g.context) != [] then Failure(UnboundLocal("page_to_index"))
      else if g.tpages.None? then Failure(NotIterable)
      else if g.tpages.value != [] then Failure(UnboundLocal("tpage_to_index"))
      else Success([])
  }

  // ---------------------------------------------------------------------
  // Document assembly
  // ---------------------------------------------------------------------

  /** `base_directory`: the output directory, or the source directory (PATH). */
  function BaseDirectory(mode: Mode, outputPath: string, content: Option<string>): string {
    if mode == Output then outputPath else Str(content)
  }

  /** The configuration document generation writes, or the exception raised before writing it. */
  function Document(g: Generator, f: Filters): Result<SearchDocument, Failure> {
    match Collect(g, f)
    case Failure(e) => Failure(e)
    case Success(files) =>
      match ParseMode(g.searchMode)
      case None => Failure(UnboundLocal("base_dir"))
      case Some(mode) => Success(SearchDocument(BaseDirectory(mode, g.outputPath, g.content), g.htmlSelector, files))
  }

  // ---------------------------------------------------------------------
  // Building the index and reporting
  // ---------------------------------------------------------------------

  /** The configuration file: `search.toml` in the output directory. */
  function SettingsPath(outputPath: string): (p: string)
    ensures StartsWith(p, outputPath) && EndsWith(p, "search.toml")
    ensures |p| == |outputPath| + 11 || (|p| == |outputPath| + 12 && p[|outputPath|] == '/')
    ensures |p| == |outputPath| + 12 <==> outputPath != "" && outputPath[|outputPath| - 1] != '/'
  {
    JoinPath(outputPath, "search.toml")
  }

  /** The index file Stork is asked to produce. */
  function IndexPath(outputPath: string): (p: string)
    ensures StartsWith(p, outputPath + "/") && EndsWith(p, "search-index.st")
    ensures |p| == |outputPath| + 16
  {
    outputPath + "/search-index.st"
  }

  /** The command line of the Stork run. */
  function StorkCommand(settingsPath: string, outputPath: string): seq<string> {
    ["stork", "build", "--input", settingsPath, "--output", IndexPath(outputPath)]
  }

  /** `build_search_index`: fail when `stork` is not on the search path; otherwise
      run it and fail on a non-zero exit, else return what it printed. */
  function BuildResult(outputPath: string, settingsPath: string, storkOnPath: bool,
                       exec: seq<string> -> ProcessResult): (r: Result<string, Failure>)
    ensures r.Success? <==> storkOnPath && exec(StorkCommand(settingsPath, outputPath)).exitStatus == 0
    ensures r.Success? ==> r.value == exec(StorkCommand(settingsPath, outputPath)).stdout
    ensures !storkOnPath ==> r == Failure(Raised(MissingStorkMessage))
    ensures storkOnPath && r.Failure? ==>
      var run := exec(StorkCommand(settingsPath, outputPath));
      r.error.Raised? && StartsWith(r.error.message, Banner) &&
      r.error.message[|Banner|..] == run.stdout + run.stderr
  {
    if !storkOnPath then Failure(Raised(MissingStorkMessage))
    else
      var run := exec(StorkCommand(settingsPath, outputPath));
      if run.exitStatus != 0 then Failure(Raised(Banner + run.stdout + run.stderr))
      else Success(run.stdout)
  }

  /** The record logged for a build log: the banner plus the log, at error
      severity exactly when the log mentions "error". */
  function ClassifyLog(buildLog: string): (r: LogRecord)
    ensures StartsWith(r.message, Banner) && r.message[|Banner|..] == buildLog
    ensures r.severity == Error <==> Contains(buildLog, "error")
  {
    var message := Banner + buildLog;
    BannerAddsNoError(buildLog);
    LogRecord(if Contains(message, "error") then Error else Debug, message)
  }

  /** `generate_output` as a whole. */
  function Generate(g: Generator, f: Filters, storkOnPath: bool,
                    exec: seq<string> -> ProcessResult): Generation {
    match Document(g, f)
    case Failure(e) => Generation(None, Failure(e))
    case Success(document) =>
      var settingsPath := SettingsPath(g.outputPath);
      var written := Some(WrittenFile(settingsPath, document));
      match BuildResult(g.outputPath, settingsPath, storkOnPath, exec)
      case Failure(e) => Generation(written, Failure(e))
      case Success(buildLog) => Generation(written, Success(ClassifyLog(buildLog)))
  }

  // ---------------------------------------------------------------------
  // Lemmas
  // ---------------------------------------------------------------------

  /** Every 'e' of the banner is followed, inside the banner, by a letter other than 'r'. */
  lemma BannerHasNoEr(i: int)
    requires 0 <= i < |Banner| && Banner[i] == 'e'
    ensures i + 1 < |Banner| && Banner[i + 1] != 'r'
  {
  }

  /** The banner contributes no occurrence of "error", not even one that
      straddles the banner and the log, so the severity test on the
      prefixed message is a test on the log alone. */
  lemma BannerAddsNoError(log: string)
    ensures Contains(Banner + log, "error") <==> Contains(log, "error")
  {
    var m := Banner + log;
    if Contains(log, "error") {
      var i :| 0 <= i <= |log| && StartsWith(log[i..], "error");
      assert m[|Banner| + i..] == log[i..];
    }
    if Contains(m, "error") {
      var i :| 0 <= i <= |m| && StartsWith(m[i..], "error");
      assert m[i] == 'e' && m[i + 1] == 'r';
      if i < |Banner| {
        BannerHasNoEr(i);
      }
      assert log[i - |Banner|..] == m[i..];
    }
  }

  /** Appending an article appends its translations. */
  lemma {:induction false} TranslationsAppend(articles: seq<ContentItem>, article: ContentItem)
    ensures Translations(articles + [article]) == Translations(articles) + article.translations
  {
    if articles == [] {
      assert [article][1..] == [];
    } else {
      assert (articles + [article])[1..] == articles[1..] + [article];
      TranslationsAppend(articles[1..], article);
    }
  }

  /** Translations of a split article list are the translations of each part. */
  lemma {:induction false} TranslationsSplit(articles: seq<ContentItem>, i: nat)
    requires i <= |articles|
    ensures Translations(articles) == Translations(articles[..i]) + Translations(articles[i..])
  {
    if i > 0 {
      assert articles[..i][1..] == articles[1..][..i - 1];
      assert articles[i..] == articles[1..][i - 1..];
      TranslationsSplit(articles[1..], i - 1);
    }
  }

  /** There are as many translation records as translations. */
  lemma {:induction false} TranslationsLength(articles: seq<ContentItem>)
    ensures |Translations(articles)| == TranslationCount(articles)
  {
    if articles != [] {
      TranslationsLength(articles[1..]);
    }
  }

  /** Translation j of article i sits after the translations of the articles before it. */
  lemma TranslationAt(articles: seq<ContentItem>, i: nat, j: nat)
    requires i < |articles| && j < |articles[i].translations|
    ensures TranslationCount(articles[..i]) + j < |Translations(articles)|
    ensures Translations(articles)[TranslationCount(articles[..i]) + j] == articles[i].translations[j]
  {
    TranslationsSplit(articles, i);
    TranslationsLength(articles[..i]);
    assert articles[i..][0] == articles[i];
  }

  /** Record ordering and count: the records of the pages in order, then of
      the articles in order, then of the articles' translations (article by
      article, see TranslationAt), then of the template pages in mapping
      order; nothing else. */
  lemma CollectedFilesOrder(context: Context, tpages: seq<TemplatePage>, mode: Mode, f: Filters)
    ensures var files := CollectedFiles(context, tpages, mode, f);
      var np, na := |context.pages|, |context.articles|;
      var nt := TranslationCount(context.articles);
      |files| == np + na + nt + |tpages| &&
      files[..np] == ContentRecords(context.pages, mode, f) &&
      files[np..np + na] == ContentRecords(context.articles, mode, f) &&
      files[np + na..np + na + nt] == ContentRecords(Translations(context.articles), mode, f) &&
      files[np + na + nt..] == TemplateRecords(tpages, mode)
  {
    TranslationsLength(context.articles);
  }

  /** Record shape: a content record's path is `save_as` in output mode and
      `relative_source_path` in source mode, its url is "/" + url and its title
      the quoted, tag-stripped title; a template record's path is the
      destination in output mode and the source in source mode, its url the
      destination without any prefix, and its title empty. */
  lemma CollectedFilesShape(context: Context, tpages: seq<TemplatePage>, mode: Mode, f: Filters)
    ensures var files := CollectedFiles(context, tpages, mode, f);
      var items := IterationList(context);
      |files| == |items| + |tpages| &&
      (forall k :: 0 <= k < |items| ==>
         files[k].path == (if mode == Output then items[k].saveAs else items[k].relativeSourcePath) &&
         files[k].url == "/" + items[k].url &&
         files[k].title == f.dumps(f.stripTags(items[k].title))) &&
      (forall k :: 0 <= k < |tpages| ==>
         files[|items| + k].path == (if mode == Output then tpages[k].destination else tpages[k].source) &&
         files[|items| + k].url == tpages[k].destination &&
         files[|items| + k].title == "")
  {
  }

  /** One mode governs everything: in output mode the base directory is the
      output path and every record points into the output; in source mode the
      base directory is PATH and every record points into the sources. */
  lemma ModeGovernsDocument(g: Generator, f: Filters)
    requires Document(g, f).Success?
    ensures var d := Document(g, f).value;
      var items := IterationList(g.context);
      ParseMode(g.searchMode).Some? && g.tpages.Some? &&
      |d.files| == |items| + |g.tpages.value| &&
      d.htmlSelector == g.htmlSelector &&
      (g.searchMode == "output" ==>
         d.baseDirectory == g.outputPath &&
         (forall k :: 0 <= k < |items| ==> d.files[k].path == items[k].saveAs) &&
         (forall k :: 0 <= k < |g.tpages.value| ==> d.files[|items| + k].path == g.tpages.value[k].destination)) &&
      (g.searchMode == "source" ==>
         d.baseDirectory == Str(g.content) &&
         (forall k :: 0 <= k < |items| ==> d.files[k].path == items[k].relativeSourcePath) &&
         (forall k :: 0 <= k < |g.tpages.value| ==> d.files[|items| + k].path == g.tpages.value[k].source))
  {
  }

  /** A document is produced exactly when the mode is "output" or "source" and
      TEMPLATE_PAGES is present; an unknown mode fails even with no records. */
  lemma DocumentSucceedsIff(g: Generator, f: Filters)
    ensures Document(g, f).Success? <==>
      (g.searchMode == "output" || g.searchMode == "source") && g.tpages.Some?
    ensures ParseMode(g.searchMode).None? && g.tpages.Some? ==>
      Document(g, f).Failure? && Document(g, f).error.UnboundLocal?
  {
  }

  /** The effects of one generation: nothing is written unless the document
      could be assembled; once it is, it is written to `search.toml` whatever
      Stork does; the log record is produced exactly when Stork is present and
      exits with status 0, and it carries Stork's standard output; otherwise
      the exception is the document's own, or the one `build_search_index`
      raises. */
  lemma GenerateEffects(g: Generator, f: Filters, storkOnPath: bool, exec: seq<string> -> ProcessResult)
    ensures var r := Generate(g, f, storkOnPath, exec);
      var run := exec(StorkCommand(SettingsPath(g.outputPath), g.outputPath));
      (r.written.Some? <==> Document(g, f).Success?) &&
      (r.written.Some? ==> r.written.value == WrittenFile(SettingsPath(g.outputPath), Document(g, f).value)) &&
      (r.written.None? ==> r.outcome == Failure(Document(g, f).error)) &&
      (r.outcome.Success? <==> Document(g, f).Success? && storkOnPath && run.exitStatus == 0) &&
      (r.outcome.Success? ==>
         r.outcome.value.message == Banner + run.stdout &&
         (r.outcome.value.severity == Error <==> Contains(run.stdout, "error"))) &&
      (r.written.Some? && !storkOnPath ==> r.outcome == Failure(Raised(MissingStorkMessage))) &&
      (r.written.Some? && storkOnPath && run.exitStatus != 0 ==>
         r.outcome == Failure(Raised(Banner + run.stdout + run.stderr)))
  {
  }
}
