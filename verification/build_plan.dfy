/**
 * The deterministic build plan of the page generator: from the command line,
 * the server configuration, the settings reply and the content replies, the
 * list of template instantiations the run asks for. Each `FileSpec` stands
 * for one `build_template` call of the template maker.
 */
module BuildPlan {
  import opened Wrappers
  import opened AppConfig
  import opened JsValues
  import opened CliParams
  import opened ContentCollector

  /** One entry of the settings' `menus.items`. */
  datatype MenuItem = MenuItem(pageId: string, title: string, pageType: string)

  /**
   * The settings request's outcome: a settings object with its menu items, a
   * reply that is not an object (only logged), or a failed request.
   */
  datatype SettingsReply = Settings(items: seq<MenuItem>) | NotAnObject(logged: string) | FetchFailed(error: string)

  /** A `{key, value}` pair: every match of the pattern `key` is replaced by `value`. */
  datatype Substitution = Substitution(key: string, value: JsValue)

  /** One template instantiation: read `srcFolder/template`, write `destDir/newFolder/newFile`. */
  datatype FileSpec = FileSpec(
    srcFolder: string,
    newFolder: string,
    destDir: string,
    template: string,
    newFile: string,
    substitutions: seq<Substitution>)

  /** How a run ends: stopped for a missing parameter, without settings, or with its files built. */
  datatype RunResult = Stopped(error: ParamError) | NoSettings | Built(files: seq<FileSpec>)

  const HtmlPageType := "html"
  const PagePrefix := "page-"
  const ClassPrefix := "Page"
  const PageTemplateFolder := "templates/custom-html-template"
  const NamePlaceholder := "custom-html-template"
  const ClassPlaceholder := "CustomHtmlTemplate"
  const ContentPlaceholder := "Content goes here"
  const HtmlTemplate := "custom-html-template.html"
  const ModuleTemplate := "custom-html-template.module.ts"
  const ComponentTemplate := "custom-html-template.ts"
  const GlobalsTemplateFolder := "templates"
  const GlobalsFolder := "globalvars"
  const GlobalsFile := "globalvars.ts"
  const AppIdPlaceholder := "[[appp_app_id]]"
  const UrlPlaceholder := "[[myappp_url]]"
  /** The two globals keys, written pre-escaped for use as regular expressions. */
  const AppIdKey := "\\[\\[appp_app_id\\]\\]"
  const UrlKey := "\\[\\[myappp_url\\]\\]"

  /** The per-tenant build directory every file of a run is written under. */
  function DestDir(p: Params): string {
    "builds/app_" + p.siteName + "_" + p.appId
  }

  /** The URL scheme the globals file uses for a port. */
  function Scheme(port: int): string {
    if port == 80 then "http://" else "https://"
  }

  /**
   * `get_myapp_url`: plain http only for port 80 and https for every other
   * port, then the host, then the site name between slashes.
   */
  function ApiUrl(cfg: ServerConfig, siteName: string): (u: string)
    ensures |u| == |Scheme(cfg.port)| + |cfg.hostname| + |siteName| + 2
    ensures u[..7] == "http://" <==> cfg.port == 80
    ensures u[..8] == "https://" <==> cfg.port != 80
    ensures u[|Scheme(cfg.port)|..|Scheme(cfg.port)| + |cfg.hostname|] == cfg.hostname
    ensures u[|u| - |siteName| - 2..] == "/" + siteName + "/"
    ensures u[|u| - 1] == '/'
  {
    var u := Scheme(cfg.port) + cfg.hostname + "/" + siteName + "/";
    assert u[..|Scheme(cfg.port)|] == Scheme(cfg.port);
    assert cfg.port == 80 ==> u[..7] == "http://" && u[4] == ':';
    assert cfg.port != 80 ==> u[..8] == "https://" && u[4] == 's';
    u
  }

  /** The folder (and file stem) of a page's component: `page-<id>`. */
  function PageName(pageId: string): (n: string)
    ensures |n| == |PagePrefix| + |pageId|
    ensures n[..|PagePrefix|] == PagePrefix && n[|PagePrefix|..] == pageId
  {
    PagePrefix + pageId
  }

  /** True when `folder` is a page folder. */
  predicate IsPageFolder(folder: string) {
    |PagePrefix| <= |folder| && folder[..|PagePrefix|] == PagePrefix
  }

  /** The page id a page folder is named after. */
  function PageIdOfFolder(folder: string): string
    requires IsPageFolder(folder)
  {
    folder[|PagePrefix|..]
  }

  /** A page file: the template's name with `custom-html-template` renamed to `page-<id>`. */
  function PageFile(p: Params, pageId: string, template: string, substitutions: seq<Substitution>): FileSpec
    requires |NamePlaceholder| <= |template|
  {
    FileSpec(PageTemplateFolder, PageName(pageId), DestDir(p), template,
             PageName(pageId) + template[|NamePlaceholder|..], substitutions)
  }

  /** The module and component substitutions: the class name first, then the file stem. */
  function WrapperSubstitutions(pageId: string): seq<Substitution> {
    [Substitution(ClassPlaceholder, Str(ClassPrefix + pageId)),
     Substitution(NamePlaceholder, Str(PageName(pageId)))]
  }

  function ModuleSpec(p: Params, pageId: string): FileSpec {
    PageFile(p, pageId, ModuleTemplate, WrapperSubstitutions(pageId))
  }

  function ComponentSpec(p: Params, pageId: string): FileSpec {
    PageFile(p, pageId, ComponentTemplate, WrapperSubstitutions(pageId))
  }

  function HtmlSpec(p: Params, pageId: string, content: JsValue): FileSpec {
    PageFile(p, pageId, HtmlTemplate, [Substitution(ContentPlaceholder, content)])
  }

  /** The destination of a spec; two specs with one target overwrite each other. */
  function Target(s: FileSpec): (string, string, string) {
    (s.destDir, s.newFolder, s.newFile)
  }

  predicate DistinctTargets(fs: seq<FileSpec>) {
    forall i, j :: 0 <= i < j < |fs| ==> Target(fs[i]) != Target(fs[j])
  }

  predicate DistinctIds(ids: seq<string>) {
    forall i, j :: 0 <= i < j < |ids| ==> ids[i] != ids[j]
  }

  /**
   * `make_page_html_component`: the module and the component files are always
   * requested; the html file only once the page's content has resolved, and
   * then with that content in place of the content placeholder.
   */
  function PageSpecs(p: Params, cfg: ServerConfig, pageId: string, reply: Reply): (r: seq<FileSpec>)
    ensures GetPageContent(cfg, p.siteName, pageId, reply).Resolved? ==> |r| == 3
    ensures !GetPageContent(cfg, p.siteName, pageId, reply).Resolved? ==> |r| == 2
    ensures r[0] == ModuleSpec(p, pageId) && r[1] == ComponentSpec(p, pageId)
    ensures |r| == 3 ==> r[2] == HtmlSpec(p, pageId, GetPageContent(cfg, p.siteName, pageId, reply).value)
    ensures forall s :: s in r ==> s.destDir == DestDir(p) && s.srcFolder == PageTemplateFolder
    ensures forall s :: s in r ==> IsPageFolder(s.newFolder) && PageIdOfFolder(s.newFolder) == pageId
    ensures DistinctTargets(r)
  {
    var settled := GetPageContent(cfg, p.siteName, pageId, reply);
    var wrappers := [ModuleSpec(p, pageId), ComponentSpec(p, pageId)];
    assert ModuleSpec(p, pageId).newFile == PageName(pageId) + ".module.ts";
    assert ComponentSpec(p, pageId).newFile == PageName(pageId) + ".ts";
    if settled.Resolved? then
      assert HtmlSpec(p, pageId, settled.value).newFile == PageName(pageId) + ".html";
      wrappers + [HtmlSpec(p, pageId, settled.value)]
    else
      wrappers
  }

  /** The menu items that produce a page, in menu order. */
  function HtmlPages(items: seq<MenuItem>): (r: seq<MenuItem>)
    ensures |r| <= |items|
    ensures forall it :: it in r ==> it in items && it.pageType == HtmlPageType
    ensures forall it :: it in items && it.pageType == HtmlPageType ==> it in r
  {
    if items == [] then []
    else (if items[0].pageType == HtmlPageType then [items[0]] else []) + HtmlPages(items[1..])
  }

  /** The page ids of a sequence of menu items, position by position. */
  function Ids(pages: seq<MenuItem>): (r: seq<string>)
    ensures |r| == |pages|
    ensures forall i :: 0 <= i < |pages| ==> r[i] == pages[i].pageId
  {
    seq(|pages|, i requires 0 <= i < |pages| => pages[i].pageId)
  }

  /**
   * `make_components`: walks the menu in order, asking each html item's
   * content from the collector and requesting its files; other items are skipped.
   */
  function MakeComponents(p: Params, cfg: ServerConfig, items: seq<MenuItem>, fetch: string -> Reply): (r: seq<FileSpec>)
    ensures 2 * |HtmlPages(items)| <= |r| <= 3 * |HtmlPages(items)|
    ensures forall s :: s in r ==> s.destDir == DestDir(p) && s.srcFolder == PageTemplateFolder
    ensures forall s :: s in r ==> IsPageFolder(s.newFolder) && PageIdOfFolder(s.newFolder) in Ids(HtmlPages(items))
  {
    if items == [] then []
    else
      var head := if items[0].pageType == HtmlPageType
        then PageSpecs(p, cfg, items[0].pageId, fetch(items[0].pageId)) else [];
      var rest := MakeComponents(p, cfg, items[1..], fetch);
      assert HtmlPages(items) == (if items[0].pageType == HtmlPageType then [items[0]] else []) + HtmlPages(items[1..]);
      head + rest
  }

  /** `set_globalvars`: the single globals file, with the app id and the API URL. */
  function GlobalsSpec(p: Params, cfg: ServerConfig): FileSpec {
    FileSpec(GlobalsTemplateFolder, GlobalsFolder, DestDir(p), GlobalsFile, GlobalsFile,
             [Substitution(AppIdKey, Str(p.appId)),
              Substitution(UrlKey, Str(ApiUrl(cfg, p.siteName)))])
  }

  /**
   * `run`: without both parameters it stops before anything else; without a
   * settings object it builds nothing; otherwise the page files in menu order,
   * then the globals file, all under the one build directory.
   */
  function Run(argv: seq<string>, cfg: ServerConfig, settings: SettingsReply, fetch: string -> Reply): (r: RunResult)
    ensures r.Stopped? <==> |argv| < 4
    ensures r.Stopped? ==> r.error == (if |argv| < 3 then MissingSiteName else MissingAppId)
    ensures r.Built? <==> |argv| >= 4 && settings.Settings?
    ensures r.Built? ==> |r.files| >= 1
    ensures r.Built? ==> r.files[|r.files| - 1] == GlobalsSpec(Params(argv[2], argv[3]), cfg)
    ensures r.Built? ==> forall s :: s in r.files ==> s.destDir == DestDir(Params(argv[2], argv[3]))
  {
    match GetCliParams(argv)
    case Failure(e) => Stopped(e)
    case Success(p) =>
      match settings
      case Settings(items) => Built(MakeComponents(p, cfg, items, fetch) + [GlobalsSpec(p, cfg)])
      case NotAnObject(_) => NoSettings
      case FetchFailed(_) => NoSettings
  }
}
