/**
 * The crawler object: its queue and processed set are fields that snap,
 * stripScripts and extractNewLinks update in place. Each method is proved
 * against the state machine of module Traversal.
 */
module Crawl {
  import opened Wrappers
  import opened Web
  import opened BundleStripper
  import opened LinkExtractor
  import opened Traversal

  class Crawler {
    const cfg: Config
    /** `this.paths`: the queue, seeded with options.include */
    var paths: seq<string>
    /** `this.processed`: the canonical paths already claimed */
    var processed: set<string>
    /** the `{urlPath, html}` objects passed to the handler, in call order */
    var emitted: seq<Page>

    function State(): CrawlState
      reads this
    {
      CrawlState(paths, processed, emitted)
    }

    constructor (cfg: Config, seeds: seq<string>)
      ensures State() == Initial(seeds)
      ensures this.cfg == cfg
    {
      this.cfg := cfg;
      paths := seeds;
      processed := {};
      emitted := [];
    }

    /** Removes, in place, the bundle scripts of `window`; false when a
        script's URL cannot be constructed. */
    method StripScripts(window: Document) returns (ok: bool)
      modifies window
      ensures ok <==> Strip(cfg, window.url, old(window.elements)).Some?
      ensures ok ==> window.elements == Strip(cfg, window.url, old(window.elements)).value
    {
      if !cfg.opts.stripBundles {
        return true;
      }
      ok := RemoveScripts(window, JsFiles(cfg));
    }

    /** The removal loop of stripScripts, over the page's scripts in
        document order. */
    method RemoveScripts(window: Document, jsFiles: seq<string>) returns (ok: bool)
      modifies window
      ensures ok <==> AllParse(cfg.lib, window.url, old(window.elements))
      ensures ok ==> window.elements == Kept(cfg.lib, window.url, jsFiles, old(window.elements))
    {
      var lib, url := cfg.lib, window.url;
      ghost var allParse, kept := AllParse(lib, url, window.elements), Kept(lib, url, jsFiles, window.elements);
      ghost var done: Dom := [];
      var rest, k := window.elements, 0;
      while rest != []
        invariant allParse == AllParse(lib, url, rest)
        invariant kept == done + Kept(lib, url, jsFiles, rest)
        invariant window.elements == done + rest && k == |done|
      {
        var element := rest[0];
        var verdict := Classify(lib, url, jsFiles, element);
        if verdict == Abort {
          return false;
        }
        RemovalTurn(lib, url, jsFiles, done, rest);
        if verdict == Remove {
          RemoveAfter(done, rest);
          window.Remove(k);  // element.remove()
        } else {
          done, k := done + [element], k + 1;
        }
        rest := rest[1..];
      }
      ok := true;
    }

    /** One turn of the removal loop: a script whose URL cannot be
        constructed aborts, a script whose source basename is a bundle file
        is removed, and every other element is kept. */
    method Classify(lib: Library, url: string, jsFiles: seq<string>, element: Element) returns (verdict: Verdict)
      ensures verdict == Abort <==> Unparseable(lib, url, element)
      ensures verdict == Remove <==> Bundled(lib, url, jsFiles, element)
    {
      if element.tag != "script" {
        return Keep;
      }
      var srcPath := if "src" in element.attrs then lib.srcPathname(url, element.attrs["src"]) else None;
      if srcPath.None? {
        return Abort;
      }
      verdict := if lib.basename(srcPath.value) in jsFiles then Remove else Keep;
    }

    /** Appends to the queue, in scan order, every path the page at
        `currentPath` leads to that is neither processed nor excluded. */
    method ExtractNewLinks(window: Document, currentPath: string)
      modifies this`paths
      ensures paths == old(paths) + NewLinks(cfg, window.elements, currentPath, processed)
    {
      var t := 0;
      while t < |TagAttributes|
        invariant 0 <= t <= |TagAttributes|
        invariant paths == old(paths) + LinksFor(cfg, window.elements, TagAttributes[..t], currentPath, processed)
      {
        assert TagAttributes[..t + 1][..t] == TagAttributes[..t];
        ScanSelector(window.elements, TagAttributes[t].0, TagAttributes[t].1, currentPath);
        t := t + 1;
      }
      assert TagAttributes[..t] == TagAttributes;
    }

    /** The inner loop of extractNewLinks: one selector's elements, in
        document order. */
    method ScanSelector(els: Dom, tag: string, attr: string, currentPath: string)
      modifies this`paths
      ensures paths == old(paths) + LinksOf(cfg, els, tag, attr, currentPath, processed)
    {
      var i := 0;
      while i < |els|
        invariant 0 <= i <= |els|
        invariant paths == old(paths) + LinksOf(cfg, els[..i], tag, attr, currentPath, processed)
      {
        assert els[..i + 1] == els[..i] + [els[i]];
        LinksOfSnoc(cfg, els[..i], els[i], tag, attr, currentPath, processed);
        var found := Consider(els[i], tag, attr, currentPath);
        paths := paths + found;
        i := i + 1;
      }
      assert els[..i] == els;
    }

    /** The callback extractNewLinks runs on one element: the path to push
        for it, if any. */
    method Consider(element: Element, tag: string, attr: string, currentPath: string) returns (found: seq<string>)
      ensures found == Found(cfg, element, tag, attr, currentPath, processed)
    {
      found := [];
      if !Selected(element, tag, attr) || AttributeIs(element, "target", "_blank") {
        return;
      }
      var href := cfg.lib.parse(element.attrs[attr]);
      if href.protocol != "" || href.host != "" || href.path.None? {
        return;
      }
      var relativePath := cfg.lib.resolve(currentPath, href.path.value);
      if !PageExtension(cfg.lib.extname(relativePath)) {
        return;
      }
      if relativePath in processed {
        return;
      }
      if AnyMatch(cfg.opts.exclude, relativePath) {
        return;
      }
      found := [relativePath];
    }

    /** One call of snap: shift the queue, canonicalise, skip or claim,
        load, strip, serialise, extract links, call the handler. */
    method Snap() returns (outcome: Outcome)
      modifies this
      ensures State() == Step(cfg, old(State())).next
      ensures outcome == Step(cfg, old(State())).outcome
    {
      if |paths| == 0 {
        return Finished;
      }
      var urlPath := paths[0];
      paths := paths[1..];
      if urlPath == "" {
        return Finished;
      }
      urlPath := cfg.lib.resolve("/", urlPath);
      if urlPath in processed {
        return Skipped(urlPath);
      }
      processed := processed + {urlPath};
      if urlPath !in cfg.site {
        return LoadFailed(urlPath);
      }
      var window := new Document(urlPath, cfg.site[urlPath]);
      var ok := StripScripts(window);
      if !ok {
        return StripFailed(urlPath);
      }
      var html := cfg.lib.serialize(window.elements);
      ExtractNewLinks(window, urlPath);
      emitted := emitted + [Page(urlPath, html)];
      return Emitted(urlPath);
    }

    /** crawl(handler): snap until it stops recursing, for at most `fuel`
        calls; the outcome that ended the crawl, None if the fuel ran out. */
    method Crawl(fuel: nat) returns (stopped: Option<Outcome>)
      modifies this
      ensures State() == Run(cfg, old(State()), fuel).final
      ensures stopped == Run(cfg, old(State()), fuel).stopped
    {
      var left: nat := fuel;
      while left > 0
        invariant left <= fuel
        invariant Run(cfg, old(State()), fuel).final == Run(cfg, State(), left).final
        invariant Run(cfg, old(State()), fuel).stopped == Run(cfg, State(), left).stopped
      {
        ghost var s := State();
        RunUnfold(cfg, s, left);
        var outcome := Snap();
        left := left - 1;
        if !outcome.Continues() {
          return Some(outcome);
        }
      }
      return None;
    }
  }
}
