# Pelican search plugin: index-configuration generator

This project models the generator of the Pelican `search` plugin. Once per
site build, the generator does four things:

- It collects the site's pages, articles, the articles' translations and the
  `TEMPLATE_PAGES` entries into a list of `[[input.files]]` records
  (path, url, title).
- It assembles a Stork configuration document from that list: `[input]` with
  `base_directory`, `html_selector` and the files.
- It writes the document to `<output_path>/search.toml` and runs
  `stork build --input <that file> --output <output_path>/search-index.st`.
- It logs Stork's output, prefixed with `Search plugin reported `. The record
  is at error severity when the output mentions `error`, and at debug
  severity otherwise.

The indexing mode (`SEARCH_MODE`, default `"output"`) decides every path in
one go:

- In `"output"` mode, records point at `save_as` (for template pages, the
  destination) and `base_directory` is the output path.
- In `"source"` mode, they point at `relative_source_path` (for template
  pages, the source key) and `base_directory` is the `PATH` setting.
- Any other value leaves the path variable unbound. The first record then
  raises an exception. With no records at all and `TEMPLATE_PAGES` present,
  assembling the document raises one at `base_dir`. A missing
  `TEMPLATE_PAGES` raises a `TypeError` first.

Files and modules:

- `wrappers.dfy` (`Wrappers`): `Option` and `Result`.
- `search_model.dfy` (`SearchModel`): the data model (content items, settings,
  records, the document, Stork's process result, log records, failures) as
  datatypes, plus the specification of each step as functions, and the
  lemmas about them.
- `search.dfy` (`Search`): the class `SearchSettingsGenerator`. Its
  constructor stores the settings with their defaults in `const` fields. Its
  methods follow the source's loops: the iteration list grows by `+=`, and the
  records are accumulated with a per-iteration path variable that is left
  unbound in an unknown mode. Each method is proved equal to the
  corresponding specification function.
- `search_examples.dfy` (`SearchExamples`): the scenarios of
  `tests/test_search_settings_generator.py`, stated and proved about the model.

The model abstracts the following:

- jinja2's `striptags` and `json.dumps` are the two function fields of
  `Filters`.
- Whether `stork` is on the search path is a `bool`.
- Running a command line is a function `exec` from the argument list to a
  `ProcessResult` (exit status, stdout, stderr).
- The exceptions that generation can raise are the `Failure` datatype:
  - `UnboundLocal(variable)` stands for Python's `UnboundLocalError`.
  - `NotIterable` stands for the `TypeError` raised when `TEMPLATE_PAGES` is
    missing.
  - `Raised(message)` stands for the plugin's own `Exception(message)`.

In places the test suite describes a later
version of the plugin. The model follows this version of `search.py`:

- The code reads `SEARCH_MODE` and `SEARCH_HTML_SELECTOR` directly. It has no
  `STORK_INPUT_OPTIONS`/`STORK_OUTPUT_OPTIONS` merge and no deprecation
  warnings.
- The code chooses paths by comparing the mode string with `"output"` and
  `"source"`. It does not compare `base_directory` with the output path.
- The code visits articles and translations in this order: all pages, then
  all articles, then the translations of article 0, then those of article 1,
  and so on. Translations are not interleaved with their articles.
- In source mode a missing `PATH` is rendered by the f-string as `None`, so
  the base directory is the text `None`.

## Model

| member | source | states |
|---|---|---|
| SearchModel.Init | pelican/plugins/search/search.py:26-32 | the generator keeps the output path, context, PATH and TEMPLATE_PAGES as given; SEARCH_MODE defaults to "output" and SEARCH_HTML_SELECTOR to "main", and a given value is kept |
| Search.SearchSettingsGenerator.constructor | pelican/plugins/search/search.py:26-32 | the constructed generator's state is exactly `Init` of its context, settings and output path (path and theme are unused) |
| Search.SearchSettingsGenerator.IterationPages | pelican/plugins/search/search.py:59-62 | the loop that appends each article's translations yields pages ++ articles ++ translations of every article in article order, as a fresh sequence |
| SearchModel.TranslationsAppend | pelican/plugins/search/search.py:61-62 | appending one article to the list appends exactly its translations to the flattened translations |
| SearchModel.TranslationsLength | pelican/plugins/search/search.py:59-62 | the flattened translations number the sum over the articles of their translation counts |
| SearchModel.TranslationAt | pelican/plugins/search/search.py:59-62 | translation j of article i sits at position (translations of articles 0..i-1) + j of the flattened list |
| Search.SearchSettingsGenerator.InputFiles | pelican/plugins/search/search.py:64-92 | the two loops return `Collect`: every record in order, or the exception raised, depending on which variable an unknown mode leaves unbound and on whether TEMPLATE_PAGES is missing |
| SearchModel.CollectedFilesOrder | pelican/plugins/search/search.py:59-92 | records are the pages' records, then the articles', then the translations', then the template pages' in mapping order; their count is pages + articles + total translations + template pages |
| SearchModel.CollectedFilesShape | pelican/plugins/search/search.py:67-92 | content record: path save_as (output) or relative_source_path (source), url "/" + url, title dumps(striptags(title)); template record: path destination (output) or source key (source), url the destination without any prefix, title "" |
| SearchModel.ModeGovernsDocument | pelican/plugins/search/search.py:67-106 | in a produced document, "output" mode gives base_directory = output path and all paths from save_as/destinations; "source" gives base_directory = PATH and all paths from relative_source_path/source keys; html_selector is the stored setting |
| SearchModel.DocumentSucceedsIff | pelican/plugins/search/search.py:67-102 | a document is produced exactly when the mode is "output" or "source" and TEMPLATE_PAGES is present; an unknown mode always fails, with an unbound-variable error when TEMPLATE_PAGES is present, even with no records |
| SearchModel.SettingsPath | pelican/plugins/search/search.py:57 | POSIX os.path.join of the output path and "search.toml": starts with the output path and ends with search.toml; a "/" is inserted between them exactly when the output path is non-empty and does not already end in "/" |
| SearchModel.IndexPath | pelican/plugins/search/search.py:45 | the index file is output path + "/" immediately followed by search-index.st, nothing in between |
| SearchModel.BuildResult | pelican/plugins/search/search.py:34-54 | success exactly when stork is on the path and exits 0, with its stdout; missing stork fails with "Stork must be installed and available on $PATH."; a non-zero exit fails with "Search plugin reported " + stdout + stderr |
| Search.SearchSettingsGenerator.BuildSearchIndex | pelican/plugins/search/search.py:34-54 | the method runs `stork build --input <settings path> --output <output>/search-index.st` and returns `BuildResult` |
| SearchModel.BannerAddsNoError | pelican/plugins/search/search.py:114-115 | "error" occurs in "Search plugin reported " + log exactly when it occurs in the log: the banner adds no occurrence, not even across the join |
| SearchModel.ClassifyLog | pelican/plugins/search/search.py:113-115 | the logged message is the banner followed by the build log, at error severity exactly when the log contains "error", debug otherwise |
| Search.SearchSettingsGenerator.GenerateOutput | pelican/plugins/search/search.py:56-115 | the whole generation equals `Generate`: the file written (if any) and the log record or exception |
| SearchModel.GenerateEffects | pelican/plugins/search/search.py:94-115 | nothing is written unless the document is assembled; once assembled it is written to search.toml whatever Stork does; a log record results exactly when Stork is present and exits 0, carrying its stdout; when nothing is written the exception is the document's own (unbound variable or TypeError), otherwise the one build_search_index raises |
| SearchExamples.PathIsSaveAsInOutputMode | tests/test_search_settings_generator.py:238-252 | one page in the default mode gives the record save_as, /url, "title" |
| SearchExamples.PathIsRelativeInSourceMode | tests/test_search_settings_generator.py:254-271 | the same page in source mode gives the record relative, /url, "title" |
| SearchExamples.ArticlesAndPagesAreCollected | tests/test_search_settings_generator.py:273-297 | a page and an article give the page's record and then the article's |
| SearchExamples.TranslationsAreCollected | tests/test_search_settings_generator.py:299-327 | an article with one translation gives the article's record and then the translation's |
| SearchExamples.TemplatePagesAreCollected | tests/test_search_settings_generator.py:329-363 | two template pages give destination (output) or source (source) paths, destination urls and empty titles, in mapping order |
| SearchExamples.BaseDirectoryFollowsMode | tests/test_search_settings_generator.py:42-54 | SEARCH_MODE source with PATH content gives base_directory content; output gives the output path; html_selector defaults to main |
| SearchExamples.UnknownModeFailsWithNoRecords | pelican/plugins/search/search.py:95-102 | with no records at all, an unknown mode still fails at base_dir |
| SearchExamples.SettingsFileLocation | tests/test_search_settings_generator.py:58-76 | output path "output" gives output/search.toml and the Stork command line on it |
| SearchExamples.PositiveLogIsDebug | tests/test_search_settings_generator.py:78-97 | build log "foo bar" is logged at debug severity as "Search plugin reported foo bar" |
| SearchExamples.ErrorLogIsError | tests/test_search_settings_generator.py:99-118 | build log "error bar" is logged at error severity as "Search plugin reported error bar" |

## Left out

- Locating `stork` with `which` and running it with `subprocess.run`
  (search.py:35-50) are process I/O. They are the `storkOnPath` flag and the
  `exec` function. No timeout exists in the source, and none is modelled.
- Writing `search.toml` (search.py:109-110) is file I/O. The model records
  the path and the document that would be written (`WrittenFile`).
- The exact TOML text built by the f-strings and `cleandoc`
  (search.py:72-77, 86-91, 99-106) is not modelled. The document is
  structured (`SearchDocument`), so characters in paths or urls that the text
  would leave unescaped are not modelled either.
- jinja2's `striptags` and `json.dumps` are foreign library calls. They are
  uninterpreted parameters (`Filters`).
- The `logging` framework is not modelled. Only the severity and the message
  of the one record are.
- `get_generators` and `register` (search.py:118-123) are plugin-registration
  glue.
- The unused `writer` argument of `generate_output` and the `*null` varargs
  of `__init__` are not modelled.
- The `STORK_INPUT_OPTIONS`/`STORK_OUTPUT_OPTIONS` merge, the deprecation
  warnings, `input_options`, `get_input_files`, `generate_stork_settings` and
  `_index_output` appear only in tests/test_search_settings_generator.py:11-55
  and 141-210. This version of search.py does not implement them.
- A context without `pages` or `articles` (a `KeyError` in Python) cannot be
  built: `Context` always has both.
- `TEMPLATE_PAGES` is a sequence of (source, destination) pairs in mapping
  order. Python dict keys are unique, and the model does not require it.
  Each record uses its own pair's destination where the source looks the key
  up again.
- A `TEMPLATE_PAGES` given as a non-empty list of strings is not modelled.
  Python would raise a `TypeError` on `self.tpages[tpage]`.
