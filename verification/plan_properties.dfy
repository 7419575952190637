/**
 * Properties of the build plan that relate several calls or the whole run:
 * menu order, the count of files per page, the uniqueness of every output
 * target, the escaping of substitution keys and the early stop.
 */
module PlanProperties {
  import opened AppConfig
  import opened JsValues
  import opened RegexEscape
  import opened CliParams
  import opened ContentCollector
  import opened BuildPlan

  /** Every html page's content request resolves. */
  predicate AllResolve(p: Params, cfg: ServerConfig, items: seq<MenuItem>, fetch: string -> Reply) {
    forall it :: it in items && it.pageType == HtmlPageType ==>
      GetPageContent(cfg, p.siteName, it.pageId, fetch(it.pageId)).Resolved?
  }

  /**
   * The files of one page: `page-<id>.module.ts` and `page-<id>.ts`, both
   * renaming the class placeholder to `Page<id>` and then the name placeholder
   * to `page-<id>`, and, once the content resolved, `page-<id>.html` with the
   * content in place of the content placeholder. Each file is named after its
   * template with the name placeholder renamed to the page folder.
   */
  lemma PageFileNames(p: Params, cfg: ServerConfig, pageId: string, reply: Reply)
    ensures var r := PageSpecs(p, cfg, pageId, reply);
      && r[0].template == "custom-html-template.module.ts" && r[0].newFile == "page-" + pageId + ".module.ts"
      && r[1].template == "custom-html-template.ts" && r[1].newFile == "page-" + pageId + ".ts"
      && r[0].substitutions == r[1].substitutions
      && r[0].substitutions == [Substitution("CustomHtmlTemplate", Str("Page" + pageId)),
                                Substitution("custom-html-template", Str("page-" + pageId))]
    ensures var r := PageSpecs(p, cfg, pageId, reply);
      |r| == 3 ==>
        && r[2].template == "custom-html-template.html" && r[2].newFile == "page-" + pageId + ".html"
        && r[2].substitutions == [Substitution("Content goes here", GetPageContent(cfg, p.siteName, pageId, reply).value)]
    ensures forall s :: s in PageSpecs(p, cfg, pageId, reply) ==>
      && |NamePlaceholder| <= |s.template|
      && s.template[..|NamePlaceholder|] == NamePlaceholder
      && s.newFile == s.newFolder + s.template[|NamePlaceholder|..]
  {
  }

  /** Filtering the menu keeps the menu's order: it distributes over concatenation. */
  lemma {:induction false} HtmlPagesAppend(a: seq<MenuItem>, b: seq<MenuItem>)
    ensures HtmlPages(a + b) == HtmlPages(a) + HtmlPages(b)
  {
    if a == [] {
      assert a + b == b;
    } else {
      assert (a + b)[0] == a[0];
      assert (a + b)[1..] == a[1..] + b;
      HtmlPagesAppend(a[1..], b);
    }
  }

  /** The menu is processed in order: the plan of a concatenation is the concatenation of plans. */
  lemma {:induction false} MakeComponentsAppend(p: Params, cfg: ServerConfig, a: seq<MenuItem>, b: seq<MenuItem>, fetch: string -> Reply)
    ensures MakeComponents(p, cfg, a + b, fetch) == MakeComponents(p, cfg, a, fetch) + MakeComponents(p, cfg, b, fetch)
  {
    if a == [] {
      assert a + b == b;
    } else {
      assert (a + b)[0] == a[0];
      assert (a + b)[1..] == a[1..] + b;
      MakeComponentsAppend(p, cfg, a[1..], b, fetch);
    }
  }

  /** Items that are not html pages contribute nothing: the plan is that of the html pages alone. */
  lemma {:induction false} MakeComponentsSkipsOthers(p: Params, cfg: ServerConfig, items: seq<MenuItem>, fetch: string -> Reply)
    ensures MakeComponents(p, cfg, items, fetch) == MakeComponents(p, cfg, HtmlPages(items), fetch)
  {
    if items != [] {
      var x := items[0];
      var hx := if x.pageType == HtmlPageType then [x] else [];
      MakeComponentsSkipsOthers(p, cfg, items[1..], fetch);
      assert HtmlPages(items) == hx + HtmlPages(items[1..]);
      MakeComponentsAppend(p, cfg, hx, HtmlPages(items[1..]), fetch);
      if x.pageType == HtmlPageType {
        assert hx[1..] == [];
      }
    }
  }

  /** When every content request resolves, each html page yields exactly three files. */
  lemma {:induction false} ThreeFilesPerPage(p: Params, cfg: ServerConfig, items: seq<MenuItem>, fetch: string -> Reply)
    requires AllResolve(p, cfg, items, fetch)
    ensures |MakeComponents(p, cfg, items, fetch)| == 3 * |HtmlPages(items)|
  {
    if items != [] {
      assert AllResolve(p, cfg, items[1..], fetch) by {
        forall it | it in items[1..] && it.pageType == HtmlPageType
          ensures GetPageContent(cfg, p.siteName, it.pageId, fetch(it.pageId)).Resolved?
        {
          assert it in items;
        }
      }
      ThreeFilesPerPage(p, cfg, items[1..], fetch);
      assert items[0] in items;
    }
  }

  /**
   * With a port other than 80 and 443 no content request is ever sent, so no
   * page gets its html file: exactly the module and component files remain.
   */
  lemma {:induction false} OtherPortHasNoHtmlFiles(p: Params, cfg: ServerConfig, items: seq<MenuItem>, fetch: string -> Reply)
    requires cfg.port != 80 && cfg.port != 443
    ensures |MakeComponents(p, cfg, items, fetch)| == 2 * |HtmlPages(items)|
    ensures forall s :: s in MakeComponents(p, cfg, items, fetch) ==> s.template != HtmlTemplate
  {
    if items != [] {
      OtherPortHasNoHtmlFiles(p, cfg, items[1..], fetch);
      var x := items[0];
      if x.pageType == HtmlPageType {
        var head := PageSpecs(p, cfg, x.pageId, fetch(x.pageId));
        assert head == [ModuleSpec(p, x.pageId), ComponentSpec(p, x.pageId)];
        assert MakeComponents(p, cfg, items, fetch) == head + MakeComponents(p, cfg, items[1..], fetch);
      }
    }
  }

  /** Joining two target-distinct lists that share no target keeps targets distinct. */
  lemma DistinctTargetsAppend(a: seq<FileSpec>, b: seq<FileSpec>)
    requires DistinctTargets(a) && DistinctTargets(b)
    requires forall s, t :: s in a && t in b ==> Target(s) != Target(t)
    ensures DistinctTargets(a + b)
  {
    forall i, j | 0 <= i < j < |a + b|
      ensures Target((a + b)[i]) != Target((a + b)[j])
    {
      if j < |a| {
      } else if i >= |a| {
        assert (a + b)[i] == b[i - |a|] && (a + b)[j] == b[j - |a|];
      } else {
        assert (a + b)[i] in a && (a + b)[j] in b;
      }
    }
  }

  /** A prefix of distinct ids followed by the rest: distinct exactly when the head is new. */
  lemma DistinctIdsCons(x: MenuItem, rest: seq<MenuItem>)
    ensures DistinctIds(Ids([x] + rest)) <==> x.pageId !in Ids(rest) && DistinctIds(Ids(rest))
  {
    var all := Ids([x] + rest);
    assert all == [x.pageId] + Ids(rest);
    if DistinctIds(all) {
      forall i, j | 0 <= i < j < |Ids(rest)|
        ensures Ids(rest)[i] != Ids(rest)[j]
      {
        assert all[i + 1] == Ids(rest)[i] && all[j + 1] == Ids(rest)[j];
      }
      forall k | 0 <= k < |Ids(rest)|
        ensures Ids(rest)[k] != x.pageId
      {
        assert all[0] == x.pageId && all[k + 1] == Ids(rest)[k];
        assert all[0] != all[k + 1];
      }
    }
    if x.pageId !in Ids(rest) && DistinctIds(Ids(rest)) {
      forall i, j | 0 <= i < j < |all|
        ensures all[i] != all[j]
      {
        assert all[j] == Ids(rest)[j - 1];
        if i > 0 {
          assert all[i] == Ids(rest)[i - 1];
        }
      }
    }
  }

  /** The parts of a target-distinct list are target-distinct and share no target. */
  lemma DistinctTargetsSplit(a: seq<FileSpec>, b: seq<FileSpec>)
    requires DistinctTargets(a + b)
    ensures DistinctTargets(b)
    ensures forall s, t :: s in a && t in b ==> Target(s) != Target(t)
  {
    var all := a + b;
    forall i, j | 0 <= i < j < |b|
      ensures Target(b[i]) != Target(b[j])
    {
      assert all[|a| + i] == b[i] && all[|a| + j] == b[j];
    }
    forall s, t | s in a && t in b
      ensures Target(s) != Target(t)
    {
      var i :| 0 <= i < |a| && a[i] == s;
      var j :| 0 <= j < |b| && b[j] == t;
      assert all[i] == s && all[|a| + j] == t;
    }
  }

  /** The split of the html pages of a non-empty menu at its first item. */
  lemma HtmlPagesCons(items: seq<MenuItem>)
    requires items != []
    ensures items[0].pageType == HtmlPageType ==> HtmlPages(items) == [items[0]] + HtmlPages(items[1..])
    ensures items[0].pageType != HtmlPageType ==> HtmlPages(items) == HtmlPages(items[1..])
  {
  }

  /** Every html page's module file is part of the plan. */
  lemma {:induction false} ModuleFilePlanned(p: Params, cfg: ServerConfig, items: seq<MenuItem>, fetch: string -> Reply, y: MenuItem)
    requires y in HtmlPages(items)
    ensures ModuleSpec(p, y.pageId) in MakeComponents(p, cfg, items, fetch)
  {
    var x := items[0];
    HtmlPagesCons(items);
    var head := if x.pageType == HtmlPageType then PageSpecs(p, cfg, x.pageId, fetch(x.pageId)) else [];
    assert MakeComponents(p, cfg, items, fetch) == head + MakeComponents(p, cfg, items[1..], fetch);
    if x.pageType == HtmlPageType && y == x {
      assert head[0] == ModuleSpec(p, y.pageId);
    } else {
      ModuleFilePlanned(p, cfg, items[1..], fetch, y);
    }
  }

  /** Distinct html page ids give every planned file its own output target. */
  lemma {:induction false} DistinctIdsGiveDistinctTargets(p: Params, cfg: ServerConfig, items: seq<MenuItem>, fetch: string -> Reply)
    requires DistinctIds(Ids(HtmlPages(items)))
    ensures DistinctTargets(MakeComponents(p, cfg, items, fetch))
  {
    if items != [] {
      var x := items[0];
      var rest := items[1..];
      HtmlPagesCons(items);
      var tail := MakeComponents(p, cfg, rest, fetch);
      if x.pageType == HtmlPageType {
        DistinctIdsCons(x, HtmlPages(rest));
        DistinctIdsGiveDistinctTargets(p, cfg, rest, fetch);
        var head := PageSpecs(p, cfg, x.pageId, fetch(x.pageId));
        assert MakeComponents(p, cfg, items, fetch) == head + tail;
        forall s, t | s in head && t in tail
          ensures Target(s) != Target(t)
        {
          assert PageIdOfFolder(s.newFolder) != PageIdOfFolder(t.newFolder);
        }
        DistinctTargetsAppend(head, tail);
      } else {
        DistinctIdsGiveDistinctTargets(p, cfg, rest, fetch);
        assert MakeComponents(p, cfg, items, fetch) == tail;
      }
    }
  }

  /** Conversely, two html pages with one id make the plan write one module file twice. */
  lemma {:induction false} DistinctTargetsNeedDistinctIds(p: Params, cfg: ServerConfig, items: seq<MenuItem>, fetch: string -> Reply)
    requires DistinctTargets(MakeComponents(p, cfg, items, fetch))
    ensures DistinctIds(Ids(HtmlPages(items)))
  {
    if items != [] {
      var x := items[0];
      var rest := items[1..];
      HtmlPagesCons(items);
      var tail := MakeComponents(p, cfg, rest, fetch);
      if x.pageType == HtmlPageType {
        var head := PageSpecs(p, cfg, x.pageId, fetch(x.pageId));
        assert MakeComponents(p, cfg, items, fetch) == head + tail;
        DistinctTargetsSplit(head, tail);
        DistinctTargetsNeedDistinctIds(p, cfg, rest, fetch);
        forall k | 0 <= k < |Ids(HtmlPages(rest))|
          ensures Ids(HtmlPages(rest))[k] != x.pageId
        {
          var y := HtmlPages(rest)[k];
          ModuleFilePlanned(p, cfg, rest, fetch, y);
          assert head[0] in head && head[0] == ModuleSpec(p, x.pageId);
          assert Target(ModuleSpec(p, x.pageId)) != Target(ModuleSpec(p, y.pageId));
        }
        DistinctIdsCons(x, HtmlPages(rest));
      } else {
        assert MakeComponents(p, cfg, items, fetch) == tail;
        DistinctTargetsNeedDistinctIds(p, cfg, rest, fetch);
      }
    }
  }

  /**
   * No two files of the page plan share an output target exactly when the
   * html pages' ids are pairwise distinct.
   */
  lemma PageTargetsDistinctIffIdsDistinct(p: Params, cfg: ServerConfig, items: seq<MenuItem>, fetch: string -> Reply)
    ensures DistinctTargets(MakeComponents(p, cfg, items, fetch)) <==> DistinctIds(Ids(HtmlPages(items)))
  {
    if DistinctIds(Ids(HtmlPages(items))) {
      DistinctIdsGiveDistinctTargets(p, cfg, items, fetch);
    }
    if DistinctTargets(MakeComponents(p, cfg, items, fetch)) {
      DistinctTargetsNeedDistinctIds(p, cfg, items, fetch);
    }
  }
}
