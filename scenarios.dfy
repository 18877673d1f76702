/**
 * Concrete crawls on a two-page site, with simple stand-ins for the URL
 * helpers (references are already absolute paths, no extensions).
 */
module Scenarios {
  import opened Wrappers
  import opened Web
  import opened BundleStripper
  import opened LinkExtractor
  import opened Traversal

  function LinkTo(p: string): Element
  {
    Element("a", map["href" := p])
  }

  /** A site where /a links to /b and /b links back to /a. */
  function CycleSite(): Config
  {
    var lib := Library(
      (base: string, ref: string) => ref,
      (ref: string) => UrlParts("", "", Some(ref)),
      (p: string) => "",
      (p: string) => p,
      (page: string, src: string) => Some(src),
      (d: Dom) => if d == [LinkTo("/b")] then "<a href=/b>" else "<a href=/a>");
    Config(lib, Options([], false, [], []), map["/a" := [LinkTo("/b")], "/b" := [LinkTo("/a")]])
  }

  function PageA(): Page { Page("/a", "<a href=/b>") }
  function PageB(): Page { Page("/b", "<a href=/a>") }

  lemma SerializedPages()
    ensures CycleSite().lib.serialize([LinkTo("/b")]) == PageA().html
    ensures CycleSite().lib.serialize([LinkTo("/a")]) == PageB().html
  {
    assert LinkTo("/a").attrs["href"] != LinkTo("/b").attrs["href"];
  }

  /** A call of snap with /a at the head of the queue and nothing
      processed yet: /a is emitted and /b queued behind the rest. */
  lemma FirstOnA(rest: seq<string>)
    ensures Step(CycleSite(), CrawlState(["/a"] + rest, {}, []))
            == StepResult(CrawlState(rest + ["/b"], {"/a"}, [PageA()]), Emitted("/a"), ["/b"])
  {
    var c := CycleSite();
    var s0 := CrawlState(["/a"] + rest, {}, []);
    assert s0.paths[0] == "/a" && s0.paths[1..] == rest;
    assert Canonical(c, "/a") == "/a";
    assert Strip(c, "/a", c.site["/a"]) == Some([LinkTo("/b")]);
    SerializedPages();
    LinksFromOnePage(c, "/a", "/b", {"/a"});
    assert {} + {"/a"} == {"/a"} && [] + [PageA()] == [PageA()];
  }

  /** First call of snap: /a is emitted and /b queued. */
  lemma CycleFirst()
    ensures Step(CycleSite(), Initial(["/a"]))
            == StepResult(CrawlState(["/b"], {"/a"}, [PageA()]), Emitted("/a"), ["/b"])
  {
    FirstOnA([]);
    assert ["/a"] + [] == ["/a"] && [] + ["/b"] == ["/b"];
  }

  /** Second call: /b is emitted; its link back to /a is already processed. */
  lemma CycleSecond()
    ensures Step(CycleSite(), CrawlState(["/b"], {"/a"}, [PageA()]))
            == StepResult(CrawlState([], {"/a", "/b"}, [PageA(), PageB()]), Emitted("/b"), [])
  {
    var c := CycleSite();
    var s1 := CrawlState(["/b"], {"/a"}, [PageA()]);
    assert Canonical(c, "/b") == "/b";
    assert "/b" !in s1.processed;
    assert Strip(c, "/b", c.site["/b"]) == Some([LinkTo("/a")]);
    SerializedPages();
    LinksFromOnePage(c, "/b", "/a", s1.processed + {"/b"});
    assert s1.paths[1..] == [];
    assert s1.processed + {"/b"} == {"/a", "/b"};
  }

  /** From the state after /a was emitted, the crawl emits /b and then
      finds the queue empty. */
  lemma CycleFromSecond()
    ensures var t := Run(CycleSite(), CrawlState(["/b"], {"/a"}, [PageA()]), 2);
            && t.final.emitted == [PageA(), PageB()]
            && t.dequeued == ["/b"]
            && t.stopped == Some(Finished)
  {
    var c := CycleSite();
    var s1 := CrawlState(["/b"], {"/a"}, [PageA()]);
    var s2 := CrawlState([], {"/a", "/b"}, [PageA(), PageB()]);
    CycleSecond();
    RunGoesOn(c, s1, 2);
    RunUnfold(c, s2, 1);
    assert Run(c, s2, 1).dequeued == [];
  }

  /** Seeded with /a, the crawl of the cycle emits /a then /b, each once,
      and ends when the queue runs dry. */
  lemma CycleCrawledOnce()
    ensures var t := Run(CycleSite(), Initial(["/a"]), 3);
            && t.final.emitted == [PageA(), PageB()]
            && t.stopped == Some(Finished)
  {
    CycleFirst();
    CycleFromSecond();
    RunGoesOn(CycleSite(), Initial(["/a"]), 3);
  }

  /** Second call: the second /a is caught at dequeue and skipped. */
  lemma DuplicateSkipped()
    ensures Step(CycleSite(), CrawlState(["/a", "/b"], {"/a"}, [PageA()]))
            == StepResult(CrawlState(["/b"], {"/a"}, [PageA()]), Skipped("/a"), [])
  {
    var s1 := CrawlState(["/a", "/b"], {"/a"}, [PageA()]);
    assert Canonical(CycleSite(), "/a") == "/a";
    assert s1.paths[1..] == ["/b"];
  }

  /** Seeded with /a twice, the crawl skips the duplicate and goes on: it
      takes /a, /a and /b off the queue, calls the handler for /a then /b,
      once each, and finishes. */
  lemma DuplicateSeedCrawledOnce()
    ensures var t := Run(CycleSite(), Initial(["/a", "/a"]), 4);
            && t.final.emitted == [PageA(), PageB()]
            && t.dequeued == ["/a", "/a", "/b"]
            && t.stopped == Some(Finished)
  {
    var c := CycleSite();
    var s1 := CrawlState(["/a", "/b"], {"/a"}, [PageA()]);
    FirstOnA(["/a"]);
    assert ["/a"] + ["/a"] == ["/a", "/a"] && ["/a"] + ["/b"] == ["/a", "/b"];
    DuplicateSkipped();
    CycleFromSecond();
    RunGoesOn(c, s1, 3);
    RunGoesOn(c, Initial(["/a", "/a"]), 4);
  }

  /** The links of a page holding one plain anchor. */
  lemma LinksFromOnePage(c: Config, page: string, target: string, processed: set<string>)
    requires c == CycleSite() && page in c.site && c.site[page] == [LinkTo(target)]
    ensures NewLinks(c, c.site[page], page, processed) == if target in processed then [] else [target]
  {
    var els := c.site[page];
    NewLinksOrder(c, els, page, processed);
    assert els[..0] == [];
    assert Found(c, els[0], "iframe", "src", page, processed) == [];
  }

  /** A path the site cannot render ends the crawl: the seed queued after it
      is never loaded and the handler is never called. */
  lemma FailedLoadEndsCrawl(fuel: nat)
    requires fuel > 0
    ensures var t := Run(CycleSite(), Initial(["/missing", "/a"]), fuel);
            && t.stopped == Some(LoadFailed("/missing"))
            && t.final.emitted == []
            && t.final.paths == ["/a"]
  {
    var c := CycleSite();
    var s0 := Initial(["/missing", "/a"]);
    assert Step(c, s0).outcome == LoadFailed("/missing");
    RunUnfold(c, s0, fuel);
  }
}
