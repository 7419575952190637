# mkpages build plan — a Dafny model

`mkpages` generates the source files of a per-tenant mobile app. Invoked as
`node app <site_name> <app_id>`, it fetches the site's settings from the
MyAppPresser API, and for every menu item of type `html` it fetches the page's
rendered content and instantiates three templates (the page's html, its
Angular module and its component) into `builds/app_<site>_<app_id>/page-<id>/`;
it then instantiates the shared `globalvars.ts` with the app id and the API
URL, and zips the build directory.

This project models the deterministic part of that run as pure functions:

- `CliParams` — reading `argv[2]` and `argv[3]`, and which parameter is reported missing first.
- `ContentCollector` — the per-page content request: its path and options, the
  choice of transport by port (80 → http, 443 → https, anything else → nothing
  is sent and the promise never settles), and how the parsed reply settles the
  promise (resolve with a truthy `content.rendered`, reject with
  `No content found for page id <id>`, reject with a transport error's message).
- `BuildPlan` — the run itself: the early stop, the API URL, the filter on
  `page_type == 'html'`, and the list of template instantiations (`FileSpec`:
  template, source folder, destination directory, new folder, new file, ordered
  substitutions) each page and the globals file ask for.
- `PlanProperties`, `RunProperties` — lemmas relating several calls: menu
  order, files per page, uniqueness of every output target, escaping of every
  substitution key, the early stop, the URL scheme against the transport.
- `JsValues` (parsed JSON values, truthiness, property access), `RegexEscape`
  (regex escaping of literal placeholders and its inverse), `AppConfig`,
  `Wrappers` — supporting definitions.

Inputs mkpages reads from the outside world are parameters: the argument
vector, the server configuration (`ServerConfig`), the settings reply
(`SettingsReply`), and, per page id, the reply the content request receives
(`fetch: string -> Reply`, already parsed).

Behaviour of the code the model follows:
- settings are read from `menus.items`;
- a port other than 80 and 443 sends no content request and leaves the
  promise pending forever;
- the globals URL uses `http://` only for port 80 and `https://` for every
  other port, which is not the content collector's rule;
- a page whose content is rejected or never arrives gets no html file, while its
  module and component files are still requested; the rejection is left
  unhandled (see "## Left out").

## Model

| member | source | states |
|---|---|---|
| CliParams.GetCliParams | mkpages/src/index.ts:157-173 | fewer than 3 arguments reports the missing site name (checked first), exactly 3 reports the missing app id, and 4 or more give the params `argv[2]`, `argv[3]` |
| CliParams.TrailingArgumentsIgnored | mkpages/src/index.ts:169-172 | arguments after the app id never change the params |
| BuildPlan.Run | mkpages/src/index.ts:18-58 | the run stops with the first missing parameter exactly when fewer than 4 arguments are given; it builds files exactly when the parameters are present and the settings reply is an object; a built run lists the globals file last and every file carries the same `dest_dir` string `builds/app_<site>_<app_id>` |
| RunProperties.StopIgnoresEverythingElse | mkpages/src/index.ts:21-25 | a missing parameter stops the run whatever the settings, the content replies or the configuration, so nothing is built |
| BuildPlan.ApiUrl | mkpages/src/index.ts:178-184 | the URL starts with `http://` exactly for port 80 and with `https://` for every other port, then holds the host name, and ends with `/<site>/` |
| RunProperties.ApiSchemeAgainstTransport | mkpages/src/index.ts:179-183 | for ports 80 and 443 the globals URL scheme agrees with the content transport; for any other port the URL says https while no content request is issued |
| BuildPlan.PageName | mkpages/src/index.ts:107 | a page folder is `page-` followed by exactly the page id, which can be read back from it |
| BuildPlan.PageSpecs | mkpages/src/index.ts:102-150 | a page asks for its module and component files always and for its html file exactly when its content resolved, with the resolved content as the substitution value; all in folder `page-<id>` of the build directory, with pairwise different targets |
| PlanProperties.PageFileNames | mkpages/src/index.ts:116-148 | a page's files are `page-<id>.module.ts` and `page-<id>.ts`, both with `CustomHtmlTemplate` → `Page<id>` then `custom-html-template` → `page-<id>`, and, once content resolved, `page-<id>.html` with `Content goes here` → the content; every file is its template's name with `custom-html-template` renamed to the page folder |
| BuildPlan.HtmlPages | mkpages/src/index.ts:62-67 | exactly the menu items with page type `html` are kept |
| BuildPlan.MakeComponents | mkpages/src/index.ts:60-70 | between two and three files per html page, all in the build directory, each in the folder of one html page of the menu |
| PlanProperties.HtmlPagesAppend | mkpages/src/index.ts:62-67 | the filter keeps menu order: it distributes over concatenation |
| PlanProperties.MakeComponentsAppend | mkpages/src/index.ts:62-67 | the menu is walked in order: the files planned for a concatenated menu are the files of the first part followed by those of the second |
| PlanProperties.MakeComponentsSkipsOthers | mkpages/src/index.ts:62-67 | non-html items contribute nothing: the plan equals the plan of the html pages alone |
| PlanProperties.ThreeFilesPerPage | mkpages/src/index.ts:102-129 | when every page's content resolves, each html page yields exactly three files |
| PlanProperties.OtherPortHasNoHtmlFiles | mkpages/src/modules/ContentCollector.ts:26-60 | with a port other than 80 and 443, no page gets its html file: exactly two files per html page, none from the html template |
| PlanProperties.ModuleFilePlanned | mkpages/src/index.ts:116-121 | every html page's module file is part of the plan |
| PlanProperties.DistinctIdsGiveDistinctTargets | mkpages/src/index.ts:104-128 | pairwise distinct page ids give every planned page file its own output target |
| PlanProperties.DistinctTargetsNeedDistinctIds | mkpages/src/index.ts:104-128 | two html pages sharing an id make two page files share an output target |
| PlanProperties.PageTargetsDistinctIffIdsDistinct | mkpages/src/index.ts:104-128 | page file targets are pairwise distinct exactly when html page ids are |
| RunProperties.GlobalsFileSpec | mkpages/src/index.ts:72-89 | the single globals file is `globalvars/globalvars.ts` from folder `templates` in `builds/app_<site>_<app_id>`, replacing `\[\[appp_app_id\]\]` by the app id and then `\[\[myappp_url\]\]` by the API URL; its folder is not a page folder |
| RunProperties.BuiltRunTargets | mkpages/src/index.ts:72-88 | a built run has exactly one globals file, the last one, and its targets are pairwise distinct exactly when the html page ids are |
| RunProperties.BuiltRunFileCount | mkpages/src/index.ts:44-51 | when every page's content resolves, a built run has three files per html page plus the globals file |
| RunProperties.GlobalsKeyEscaped | mkpages/src/index.ts:84-88 | the globals keys are the regex escapes of `[[appp_app_id]]` and `[[myappp_url]]`, and unescape back to them |
| RunProperties.PageKeyPlain | mkpages/src/index.ts:118-128 | the page keys contain no regex-special character, so they are their own escapes |
| RunProperties.KeysAreEscapedPlaceholders | mkpages/src/index.ts:84-148 | every substitution key of a built run is the regex escape of one of the templates' five literal placeholders |
| RegexEscape.UnescapeEscape | mkpages/src/index.ts:85-87 | escaping a literal for use as a pattern loses nothing: unescaping gives the literal back |
| ContentCollector.RequestPath | mkpages/src/modules/ContentCollector.ts:23 | the path is `/`, the site name, `/wp-json/wp/v2/apppages/`, the page id, in that order |
| ContentCollector.OptionsFor | mkpages/src/modules/ContentCollector.ts:19-24 | the request goes to the configured host and port with GET, on a path from which the page id can be read back |
| ContentCollector.SelectTransport | mkpages/src/modules/ContentCollector.ts:26-42 | http exactly for port 80, https exactly for port 443, no transport otherwise |
| ContentCollector.IssuedRequests | mkpages/src/modules/ContentCollector.ts:26-60 | at most one request per call, one exactly for ports 80 and 443, over http exactly for 80 and https exactly for 443, so never both |
| ContentCollector.NotFoundMessage | mkpages/src/modules/ContentCollector.ts:33 | the rejection reason is the fixed prefix followed by the page id |
| ContentCollector.Classify | mkpages/src/modules/ContentCollector.ts:28-57 | resolves exactly when the body's `content` and `content.rendered` are both truthy, with that truthy value; otherwise rejects with the not-found message; a transport error rejects with its message; a null body throws; no data leaves it pending |
| ContentCollector.GetPageContent | mkpages/src/modules/ContentCollector.ts:15-62 | any port other than 80 and 443 leaves the promise pending whatever the reply; it is pending exactly when no request is issued or no data arrives |
| ContentCollector.ServedPageOutcome | mkpages/src/modules/ContentCollector.ts:30-34 | a served page resolves with its markup exactly when the markup is non-empty; an empty page is rejected as not found |
| ContentCollector.TransportErrorNeverResolves | mkpages/src/modules/ContentCollector.ts:37-57 | a transport error never resolves the promise, and rejects it with the error's message whenever a request was issued |

## Left out

- File-system access (`fs.access`, `fs.mkdir`), logging and the callback/promise sequencing of the run: I/O and scheduling.
- BuildPlan.Run: the order of its file list is menu order page by page (module, component, html), then globals; it is not the order of the template calls. mkpages issues every page's module and component calls first, then the globals call and the zip, and each html call only later, when that page's reply arrives, in reply order. The model states which files are requested, not when.
- BuildPlan.Run: the `path.resolve` roots handed to the template maker are left out because they depend on the working directory, so `FileSpec` has no root folder. Page files use the root `path.resolve('./')` (mkpages/src/index.ts:109) and the globals file `path.resolve('../mkpages')` (mkpages/src/index.ts:77); they coincide only when the working directory is a folder named `mkpages`. The shared build directory the model states is the `dest_dir` string only.
- The settings request (`AppSettings`) is not part of this model: its outcome is the `SettingsReply` parameter. A `null` reply or one without `menus.items` throws in mkpages; that is not modelled.
- Applying substitutions to template text (`TemplateMaker`) and zipping (`AppZip`) are not part of this model: substitution lists are data only.
- JSON parsing: each reply is already parsed. mkpages parses every data chunk on its own; only the first chunk's parse is modelled (`Body`), and a chunk that is not valid JSON (which throws) is not modelled.
- The `.then` that writes a page's html file has no rejection handler, so a rejected page is an unhandled rejection, and a null body raises an uncaught TypeError in the data callback. Either may end the Node process, cutting off work still pending; this process-level effect is not modelled, and the model only records that the page gets no html file.
- JSON numbers are integers (no floating point, no NaN); property lookups see own properties only, not prototype ones.
- Page ids and page types are text: the string conversion of a numeric page id and loose equality of a non-string page type with `'html'` are not modelled.
- The process exit code is not modelled (mkpages sets none).
- `src/pages/post-details/post-details.ts` (UI behaviour) and `src/app/app.routing.ts` (static routes): no logic shared with the generator.
