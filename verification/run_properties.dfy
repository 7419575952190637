/**
 * Properties of a whole run: the early stop, the globals file, the scheme of
 * the API URL against the content transport, the escaping of every key and
 * the uniqueness of every output target.
 */
module RunProperties {
  import opened Wrappers
  import opened AppConfig
  import opened JsValues
  import opened RegexEscape
  import opened CliParams
  import opened ContentCollector
  import opened BuildPlan
  import opened PlanProperties

  /** The literal placeholders the templates contain. */
  function Placeholders(): set<string> {
    {AppIdPlaceholder, UrlPlaceholder, ContentPlaceholder, ClassPlaceholder, NamePlaceholder}
  }

  /** A missing parameter stops the run before settings, content or configuration matter. */
  lemma StopIgnoresEverythingElse(argv: seq<string>, cfg: ServerConfig, cfg': ServerConfig,
                                  settings: SettingsReply, settings': SettingsReply,
                                  fetch: string -> Reply, fetch': string -> Reply)
    requires |argv| < 4
    ensures Run(argv, cfg, settings, fetch) == Run(argv, cfg', settings', fetch')
    ensures !Run(argv, cfg, settings, fetch).Built?
  {
  }

  /**
   * `set_globalvars`: one file `globalvars/globalvars.ts` from the template
   * folder `templates`, in the run's build directory, replacing the escaped
   * app-id placeholder by the app id and then the escaped URL placeholder by
   * the API URL.
   */
  lemma GlobalsFileSpec(p: Params, cfg: ServerConfig)
    ensures var g := GlobalsSpec(p, cfg);
      && g.srcFolder == "templates"
      && g.newFolder == "globalvars"
      && g.template == "globalvars.ts" && g.newFile == "globalvars.ts"
      && g.destDir == "builds/app_" + p.siteName + "_" + p.appId
      && g.substitutions == [Substitution("\\[\\[appp_app_id\\]\\]", Str(p.appId)),
                             Substitution("\\[\\[myappp_url\\]\\]", Str(ApiUrl(cfg, p.siteName)))]
    ensures !IsPageFolder(GlobalsSpec(p, cfg).newFolder)
  {
    assert GlobalsFolder[0] != PagePrefix[0];
  }

  /** A bracketed placeholder escapes to its name between escaped brackets. */
  lemma EscapeBracketed(name: string)
    requires IsPlain(name)
    ensures Escape("[[" + name + "]]") == "\\[\\[" + name + "\\]\\]"
  {
    assert Escape("[[") == "\\[\\[" by {
      assert "[["[1..] == "[";
      assert "["[1..] == [];
    }
    assert Escape("]]") == "\\]\\]" by {
      assert "]]"[1..] == "]";
      assert "]"[1..] == [];
    }
    EscapePlain(name);
    EscapeAppend("[[", name);
    EscapeAppend("[[" + name, "]]");
  }

  /** The two globals keys are the regex escapes of their bracketed placeholders. */
  lemma GlobalsKeyEscaped(placeholder: string, key: string)
    requires (placeholder == AppIdPlaceholder && key == AppIdKey) || (placeholder == UrlPlaceholder && key == UrlKey)
    ensures key == Escape(placeholder)
    ensures Unescape(key) == placeholder
  {
    var name := if placeholder == AppIdPlaceholder then "appp_app_id" else "myappp_url";
    assert IsPlain(name);
    assert placeholder == "[[" + name + "]]";
    assert key == "\\[\\[" + name + "\\]\\]";
    EscapeBracketed(name);
    UnescapeEscape(placeholder);
  }

  /** The page keys contain no special character, so they are their own escapes. */
  lemma PageKeyPlain(key: string)
    requires IsPageKey(key)
    ensures key == Escape(key)
    ensures Unescape(key) == key
  {
    if key == ContentPlaceholder {
      assert IsPlain(ContentPlaceholder);
    } else if key == ClassPlaceholder {
      assert IsPlain(ClassPlaceholder);
    } else {
      assert IsPlain(NamePlaceholder);
    }
    EscapePlain(key);
    UnescapeEscape(key);
  }

  /** The page placeholders. */
  predicate IsPageKey(key: string) {
    key == ContentPlaceholder || key == ClassPlaceholder || key == NamePlaceholder
  }

  /** One page's files substitute only the page placeholders. */
  lemma PageSpecsKeys(p: Params, cfg: ServerConfig, pageId: string, reply: Reply)
    ensures forall s, sub :: s in PageSpecs(p, cfg, pageId, reply) && sub in s.substitutions ==> IsPageKey(sub.key)
  {
    var r := PageSpecs(p, cfg, pageId, reply);
    forall s, sub | s in r && sub in s.substitutions
      ensures IsPageKey(sub.key)
    {
      var i :| 0 <= i < |r| && r[i] == s;
      var k :| 0 <= k < |s.substitutions| && s.substitutions[k] == sub;
    }
  }

  /** Every page file substitutes only the three page placeholders. */
  lemma {:induction false} PageKeys(p: Params, cfg: ServerConfig, items: seq<MenuItem>, fetch: string -> Reply)
    ensures forall s, sub :: s in MakeComponents(p, cfg, items, fetch) && sub in s.substitutions ==>
              IsPageKey(sub.key)
  {
    if items != [] {
      PageKeys(p, cfg, items[1..], fetch);
      var x := items[0];
      var head := if x.pageType == HtmlPageType then PageSpecs(p, cfg, x.pageId, fetch(x.pageId)) else [];
      var tail := MakeComponents(p, cfg, items[1..], fetch);
      assert MakeComponents(p, cfg, items, fetch) == head + tail;
      if x.pageType == HtmlPageType {
        PageSpecsKeys(p, cfg, x.pageId, fetch(x.pageId));
      }
      forall s: FileSpec, sub: Substitution | s in head + tail && sub in s.substitutions
        ensures IsPageKey(sub.key)
      {
        if s in head {
        } else {
          assert s in tail;
        }
      }
    }
  }

  /**
   * Every key a built run hands to the template maker is the regex escape of
   * one of the templates' literal placeholders.
   */
  lemma KeysAreEscapedPlaceholders(argv: seq<string>, cfg: ServerConfig, settings: SettingsReply, fetch: string -> Reply)
    requires Run(argv, cfg, settings, fetch).Built?
    ensures forall s, sub :: s in Run(argv, cfg, settings, fetch).files && sub in s.substitutions ==>
              Unescape(sub.key) in Placeholders() && sub.key == Escape(Unescape(sub.key))
  {
    var p := Params(argv[2], argv[3]);
    var comps := MakeComponents(p, cfg, settings.items, fetch);
    var g := GlobalsSpec(p, cfg);
    assert Run(argv, cfg, settings, fetch).files == comps + [g];
    PageKeys(p, cfg, settings.items, fetch);
    forall s, sub | s in comps + [g] && sub in s.substitutions
      ensures Unescape(sub.key) in Placeholders() && sub.key == Escape(Unescape(sub.key))
    {
      if s in comps {
        PageKeyPlain(sub.key);
      } else {
        if sub.key == AppIdKey {
          GlobalsKeyEscaped(AppIdPlaceholder, sub.key);
        } else {
          GlobalsKeyEscaped(UrlPlaceholder, sub.key);
        }
      }
    }
  }

  /**
   * A built run has exactly one globals file, the last, and no two of its
   * files share an output target exactly when the html page ids are distinct.
   */
  lemma BuiltRunTargets(argv: seq<string>, cfg: ServerConfig, settings: SettingsReply, fetch: string -> Reply)
    requires Run(argv, cfg, settings, fetch).Built?
    ensures var files := Run(argv, cfg, settings, fetch).files;
      forall i :: 0 <= i < |files| ==> (files[i].newFolder == GlobalsFolder <==> i == |files| - 1)
    ensures DistinctTargets(Run(argv, cfg, settings, fetch).files) <==> DistinctIds(Ids(HtmlPages(settings.items)))
  {
    var p := Params(argv[2], argv[3]);
    var comps := MakeComponents(p, cfg, settings.items, fetch);
    var g := GlobalsSpec(p, cfg);
    var files := comps + [g];
    assert Run(argv, cfg, settings, fetch).files == files;
    assert !IsPageFolder(GlobalsFolder) by {
      assert GlobalsFolder[0] != PagePrefix[0];
    }
    forall i | 0 <= i < |files|
      ensures files[i].newFolder == GlobalsFolder <==> i == |files| - 1
    {
      if i < |comps| {
        assert files[i] in comps;
      }
    }
    PageTargetsDistinctIffIdsDistinct(p, cfg, settings.items, fetch);
    if DistinctTargets(comps) {
      forall s, t | s in comps && t in [g]
        ensures Target(s) != Target(t)
      {
      }
      DistinctTargetsAppend(comps, [g]);
    }
    if DistinctTargets(files) {
      DistinctTargetsSplit(comps, [g]);
      assert DistinctTargets(comps) by {
        forall i, j | 0 <= i < j < |comps|
          ensures Target(comps[i]) != Target(comps[j])
        {
          assert files[i] == comps[i] && files[j] == comps[j];
        }
      }
    }
  }

  /** When every content request resolves, a built run has three files per html page plus the globals file. */
  lemma BuiltRunFileCount(argv: seq<string>, cfg: ServerConfig, settings: SettingsReply, fetch: string -> Reply)
    requires Run(argv, cfg, settings, fetch).Built?
    requires AllResolve(Params(argv[2], argv[3]), cfg, settings.items, fetch)
    ensures |Run(argv, cfg, settings, fetch).files| == 3 * |HtmlPages(settings.items)| + 1
  {
    ThreeFilesPerPage(Params(argv[2], argv[3]), cfg, settings.items, fetch);
  }

  /**
   * The globals file's API URL and the content requests agree on the scheme for
   * ports 80 and 443; any other port gets an https URL while no content request
   * is sent at all.
   */
  lemma ApiSchemeAgainstTransport(cfg: ServerConfig, siteName: string, pageId: string)
    ensures SelectTransport(cfg.port) == Some(Http) ==> ApiUrl(cfg, siteName)[..7] == "http://"
    ensures SelectTransport(cfg.port) == Some(Https) ==> ApiUrl(cfg, siteName)[..8] == "https://"
    ensures SelectTransport(cfg.port).None? ==>
              ApiUrl(cfg, siteName)[..8] == "https://" && IssuedRequests(cfg, siteName, pageId) == []
  {
  }
}
