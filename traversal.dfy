/**
 * The crawl as a state machine. One Step is one call of the crawler's snap
 * up to the point where it calls itself again; Run repeats Step while snap
 * would recurse. The state is the queue of pending paths, the set of
 * processed paths and the pages handed to the handler so far.
 */
module Traversal {
  import opened Wrappers
  import opened Web
  import opened BundleStripper
  import opened LinkExtractor

  /** The `{urlPath, html}` object passed to the handler. */
  datatype Page = Page(urlPath: string, html: string)

  datatype CrawlState = CrawlState(paths: seq<string>, processed: set<string>, emitted: seq<Page>)

  /** How one call of snap ends. */
  datatype Outcome =
    | Finished              // the queue was empty or its head was falsy
    | Skipped(urlPath: string)     // already processed: snap recurses at once
    | Emitted(urlPath: string)     // handler called: snap recurses
    | LoadFailed(urlPath: string)  // the load rejected: the crawl's promise rejects
    | StripFailed(urlPath: string) // stripScripts rejected: logged, the crawl ends
  {
    /** snap calls itself again after this outcome. */
    predicate Continues()
    {
      Skipped? || Emitted?
    }
  }

  datatype StepResult = StepResult(next: CrawlState, outcome: Outcome, appended: seq<string>)

  /** `url.resolve('/', p)`: the key under which a queued path is processed. */
  function Canonical(c: Config, p: string): string
  {
    c.lib.resolve("/", p)
  }

  /** The queue after its head has been shifted off. */
  function Tail(paths: seq<string>): seq<string>
  {
    if paths == [] then [] else paths[1..]
  }

  /** One call of snap. */
  function Step(c: Config, s: CrawlState): StepResult
  {
    if s.paths == [] || s.paths[0] == "" then
      StepResult(s.(paths := Tail(s.paths)), Finished, [])
    else
      var urlPath := Canonical(c, s.paths[0]);
      var rest := s.paths[1..];
      if urlPath in s.processed then
        StepResult(s.(paths := rest), Skipped(urlPath), [])
      else
        var claimed := s.processed + {urlPath};
        if urlPath !in c.site then
          StepResult(CrawlState(rest, claimed, s.emitted), LoadFailed(urlPath), [])
        else
          match Strip(c, urlPath, c.site[urlPath])
          case None =>
            StepResult(CrawlState(rest, claimed, s.emitted), StripFailed(urlPath), [])
          case Some(dom) =>
            var links := NewLinks(c, dom, urlPath, claimed);
            var page := Page(urlPath, c.lib.serialize(dom));
            StepResult(CrawlState(rest + links, claimed, s.emitted + [page]), Emitted(urlPath), links)
  }

  /** What a run did: its last state, the paths it shifted off the queue
      and the paths it pushed, in order, and the outcome that ended it
      (None when the fuel ran out first). */
  datatype Trace = Trace(final: CrawlState, dequeued: seq<string>, appended: seq<string>, stopped: Option<Outcome>)

  /** Up to `fuel` calls of snap. */
  function Run(c: Config, s: CrawlState, fuel: nat): Trace
    decreases fuel
  {
    if fuel == 0 then Trace(s, [], [], None)
    else
      var r := Step(c, s);
      var taken := if s.paths == [] then [] else [s.paths[0]];
      if !r.outcome.Continues() then Trace(r.next, taken, r.appended, Some(r.outcome))
      else
        var t := Run(c, r.next, fuel - 1);
        Trace(t.final, taken + t.dequeued, r.appended + t.appended, t.stopped)
  }

  /** One more call of snap, seen from the start of a run. */
  lemma RunUnfold(c: Config, s: CrawlState, fuel: nat)
    requires fuel > 0
    ensures var r := Step(c, s);
            && (!r.outcome.Continues() ==>
                  Run(c, s, fuel).final == r.next && Run(c, s, fuel).stopped == Some(r.outcome))
            && (r.outcome.Continues() ==>
                  (Run(c, s, fuel).final == Run(c, r.next, fuel - 1).final
                   && Run(c, s, fuel).stopped == Run(c, r.next, fuel - 1).stopped))
  {
  }

  /** The state of a fresh crawler: the seeds queued, nothing processed. */
  function Initial(seeds: seq<string>): CrawlState
  {
    CrawlState(seeds, {}, [])
  }

  /** The handler has been called at most once per canonical path, only for
      processed paths of the site. */
  ghost predicate Consistent(c: Config, s: CrawlState)
  {
    (forall i :: 0 <= i < |s.emitted| ==> s.emitted[i].urlPath in s.processed && s.emitted[i].urlPath in c.site)
    && (forall i, j :: 0 <= i < j < |s.emitted| ==> s.emitted[i].urlPath != s.emitted[j].urlPath)
  }

  // ---------------------------------------------------------------------
  // One step

  /** snap ends the crawl without touching `processed` or calling the
      handler iff the queue is empty or its head is the empty string. */
  lemma StepFinishes(c: Config, s: CrawlState)
    ensures Step(c, s).outcome == Finished <==> s.paths == [] || s.paths[0] == ""
    ensures Step(c, s).outcome == Finished ==>
              Step(c, s).next == s.(paths := Tail(s.paths)) && Step(c, s).appended == []
  {
  }

  /** snap takes the head of the queue and the extractor only appends:
      the queue after a step is the old queue without its head, followed by
      the discovered paths; `processed` only grows, and the handler log
      only grows at its end. */
  lemma StepQueue(c: Config, s: CrawlState)
    ensures Step(c, s).next.paths == Tail(s.paths) + Step(c, s).appended
    ensures !Step(c, s).outcome.Emitted? ==> Step(c, s).appended == []
    ensures s.processed <= Step(c, s).next.processed
    ensures s.emitted <= Step(c, s).next.emitted
  {
  }

  /** A canonical path already processed is skipped with no load and no
      handler call; otherwise it is claimed before the load, and the
      handler receives it only if it was not processed before. */
  lemma StepAtMostOnce(c: Config, s: CrawlState)
    requires s.paths != [] && s.paths[0] != ""
    ensures var r := Step(c, s);
            var urlPath := Canonical(c, s.paths[0]);
            && (urlPath in s.processed ==>
                  r.outcome == Skipped(urlPath) && r.next == s.(paths := s.paths[1..]) && r.appended == [])
            && (urlPath !in s.processed ==>
                  r.next.processed == s.processed + {urlPath} && r.outcome != Skipped(urlPath))
            && (r.next.emitted != s.emitted ==>
                  r.outcome == Emitted(urlPath) && urlPath !in s.processed && urlPath in c.site
                  && r.next.emitted == s.emitted + [Page(urlPath, r.next.emitted[|s.emitted|].html)])
  {
  }

  /** Only script elements are ever removed, so the extractor finds the
      same links in the stripped page as in the page as rendered. */
  lemma {:induction false} StripKeepsLinksOf(c: Config, url: string, jsFiles: seq<string>, els: Dom,
                                             tag: string, attr: string, currentPath: string, processed: set<string>)
    requires tag != "script"
    ensures LinksOf(c, Kept(c.lib, url, jsFiles, els), tag, attr, currentPath, processed)
            == LinksOf(c, els, tag, attr, currentPath, processed)
  {
    if els != [] {
      var n := |els| - 1;
      var last := els[n];
      var init := Kept(c.lib, url, jsFiles, els[..n]);
      assert els == els[..n] + [last];
      KeptSnoc(c.lib, url, jsFiles, els[..n], last);
      StripKeepsLinksOf(c, url, jsFiles, els[..n], tag, attr, currentPath, processed);
      var tailPart := if Bundled(c.lib, url, jsFiles, last) then [] else [last];
      LinksOfAppend(c, init, tailPart, tag, attr, currentPath, processed);
      assert tailPart != [] ==> tailPart[..0] == [];
    }
  }

  lemma StripKeepsNewLinks(c: Config, url: string, els: Dom, currentPath: string, processed: set<string>)
    requires Strip(c, url, els).Some?
    ensures NewLinks(c, Strip(c, url, els).value, currentPath, processed) == NewLinks(c, els, currentPath, processed)
  {
    var dom := Strip(c, url, els).value;
    NewLinksOrder(c, dom, currentPath, processed);
    NewLinksOrder(c, els, currentPath, processed);
    if c.opts.stripBundles {
      StripKeepsLinksOf(c, url, JsFiles(c), els, "a", "href", currentPath, processed);
      StripKeepsLinksOf(c, url, JsFiles(c), els, "iframe", "src", currentPath, processed);
    }
  }

  /** The handler receives the stripped page's serialisation, and the paths
      queued are the links of the page as rendered (stripping does not
      affect discovery), filtered against `processed` with the page itself
      already in it. */
  lemma StepEmits(c: Config, s: CrawlState)
    requires Step(c, s).outcome.Emitted?
    ensures var r := Step(c, s);
            var u := r.outcome.urlPath;
            && u in c.site && Strip(c, u, c.site[u]).Some?
            && r.next.emitted == s.emitted + [Page(u, c.lib.serialize(Strip(c, u, c.site[u]).value))]
            && r.appended == NewLinks(c, c.site[u], u, s.processed + {u})
  {
    var u := Step(c, s).outcome.urlPath;
    StripKeepsNewLinks(c, u, c.site[u], u, s.processed + {u});
  }

  /** Which outcome a step on an unprocessed head has: a path outside the
      site fails to load, a page whose scripts cannot be stripped fails the
      strip (both claim the path, push nothing and call no handler), and
      every other page is handed to the handler. */
  lemma StepOutcome(c: Config, s: CrawlState)
    requires s.paths != [] && s.paths[0] != "" && Canonical(c, s.paths[0]) !in s.processed
    ensures var r := Step(c, s);
            var u := Canonical(c, s.paths[0]);
            var failed := CrawlState(s.paths[1..], s.processed + {u}, s.emitted);
            && (u !in c.site ==> r.outcome == LoadFailed(u) && r.next == failed && r.appended == [])
            && (u in c.site && Strip(c, u, c.site[u]).None? ==>
                  r.outcome == StripFailed(u) && r.next == failed && r.appended == [])
            && (u in c.site && Strip(c, u, c.site[u]).Some? ==> r.outcome == Emitted(u))
  {
  }

  /** After skipping an already processed path, and after handing a page
      to the handler, snap calls itself again: the run goes on from the
      step's state, with the path taken and the paths pushed in front of
      what the rest of the run takes and pushes. */
  lemma RunGoesOn(c: Config, s: CrawlState, fuel: nat)
    requires fuel > 0 && (Step(c, s).outcome.Skipped? || Step(c, s).outcome.Emitted?)
    ensures var rest := Run(c, Step(c, s).next, fuel - 1);
            && Run(c, s, fuel).final == rest.final
            && Run(c, s, fuel).stopped == rest.stopped
            && Run(c, s, fuel).dequeued == [s.paths[0]] + rest.dequeued
            && Run(c, s, fuel).appended == Step(c, s).appended + rest.appended
  {
  }

  /** A failed load or a failed strip ends the run at once: snap is not
      called again, whatever is still queued. */
  lemma FailureEndsRun(c: Config, s: CrawlState, fuel: nat)
    requires fuel > 0 && (Step(c, s).outcome.LoadFailed? || Step(c, s).outcome.StripFailed?)
    ensures Run(c, s, fuel).stopped == Some(Step(c, s).outcome)
    ensures Run(c, s, fuel).final == Step(c, s).next
    ensures Run(c, s, fuel).dequeued == [s.paths[0]] && Run(c, s, fuel).appended == []
  {
  }

  lemma StepConsistent(c: Config, s: CrawlState)
    requires Consistent(c, s)
    ensures Consistent(c, Step(c, s).next)
  {
  }

  // ---------------------------------------------------------------------
  // Whole runs

  /** The handler is called at most once per canonical path over a whole
      run, and only for pages of the site. */
  lemma {:induction false} RunConsistent(c: Config, s: CrawlState, fuel: nat)
    requires Consistent(c, s)
    ensures Consistent(c, Run(c, s, fuel).final)
    decreases fuel
  {
    if fuel > 0 {
      StepConsistent(c, s);
      if Step(c, s).outcome.Continues() {
        RunConsistent(c, Step(c, s).next, fuel - 1);
      }
    }
  }

  /** FIFO: what a run shifted off the queue, followed by what is still
      queued, is exactly the queue it started with followed by everything
      it pushed, in push order. */
  lemma {:induction false} RunFifo(c: Config, s: CrawlState, fuel: nat)
    ensures var t := Run(c, s, fuel);
            t.dequeued + t.final.paths == s.paths + t.appended
    decreases fuel
  {
    if fuel > 0 {
      var r := Step(c, s);
      StepQueue(c, s);
      var taken := if s.paths == [] then [] else [s.paths[0]];
      assert taken + Tail(s.paths) == s.paths;
      if r.outcome.Continues() {
        var t := Run(c, r.next, fuel - 1);
        RunFifo(c, r.next, fuel - 1);
        QueueConcat(taken, Tail(s.paths), r.appended, t.dequeued, t.final.paths, t.appended);
      }
    }
  }

  lemma QueueConcat(taken: seq<string>, rest: seq<string>, pushed: seq<string>,
                    later: seq<string>, left: seq<string>, pushedLater: seq<string>)
    requires later + left == (rest + pushed) + pushedLater
    ensures (taken + later) + left == (taken + rest) + (pushed + pushedLater)
  {
    assert (taken + later) + left == taken + (later + left);
    assert (rest + pushed) + pushedLater == rest + (pushed + pushedLater);
    assert taken + (rest + (pushed + pushedLater)) == (taken + rest) + (pushed + pushedLater);
  }

  /** The seeds are taken first, in the order given. */
  lemma SeedsFirst(c: Config, seeds: seq<string>, fuel: nat, k: nat)
    requires k < |seeds| && k < |Run(c, Initial(seeds), fuel).dequeued|
    ensures Run(c, Initial(seeds), fuel).dequeued[k] == seeds[k]
  {
    var t := Run(c, Initial(seeds), fuel);
    RunFifo(c, Initial(seeds), fuel);
    assert (t.dequeued + t.final.paths)[k] == (seeds + t.appended)[k];
  }

  /** Pages handed to the handler stay handed, and processed paths stay
      processed. */
  lemma {:induction false} RunMonotone(c: Config, s: CrawlState, fuel: nat)
    ensures s.processed <= Run(c, s, fuel).final.processed
    ensures s.emitted <= Run(c, s, fuel).final.emitted
    decreases fuel
  {
    if fuel > 0 {
      StepQueue(c, s);
      if Step(c, s).outcome.Continues() {
        RunMonotone(c, Step(c, s).next, fuel - 1);
      }
    }
  }

  /** Every path a run pushes has a page extension and matches no exclusion
      glob (the exclusion globs apply to discovered paths only). */
  lemma {:induction false} RunAppendedFiltered(c: Config, s: CrawlState, fuel: nat)
    ensures forall p :: p in Run(c, s, fuel).appended ==>
              PageExtension(c.lib.extname(p)) && !AnyMatch(c.opts.exclude, p)
    decreases fuel
  {
    if fuel > 0 {
      var r := Step(c, s);
      if r.outcome.Emitted? {
        var u := r.outcome.urlPath;
        var dom := Strip(c, u, c.site[u]).value;
        forall p | p in r.appended ensures PageExtension(c.lib.extname(p)) && !AnyMatch(c.opts.exclude, p) {
          NewLinksMember(c, dom, u, s.processed + {u}, p);
        }
      }
      if r.outcome.Continues() {
        RunAppendedFiltered(c, r.next, fuel - 1);
      }
    }
  }

  /** Distinct values drawn from a set are no more than the set holds. */
  lemma {:induction false} DistinctBound(xs: seq<string>, keys: set<string>)
    requires forall i :: 0 <= i < |xs| ==> xs[i] in keys
    requires forall i, j :: 0 <= i < j < |xs| ==> xs[i] != xs[j]
    ensures |xs| <= |keys|
  {
    if xs != [] {
      var n := |xs| - 1;
      DistinctBound(xs[..n], keys - {xs[n]});
    }
  }

  function UrlPaths(pages: seq<Page>): (r: seq<string>)
    ensures |r| == |pages| && forall i :: 0 <= i < |pages| ==> r[i] == pages[i].urlPath
  {
    if pages == [] then [] else [pages[0].urlPath] + UrlPaths(pages[1..])
  }

  /** A crawl from fresh state calls the handler with pairwise distinct
      canonical paths, at most once per page of the site. */
  lemma CrawlAtMostOnce(c: Config, seeds: seq<string>, fuel: nat)
    ensures var pages := Run(c, Initial(seeds), fuel).final.emitted;
            && (forall i, j :: 0 <= i < j < |pages| ==> pages[i].urlPath != pages[j].urlPath)
            && |pages| <= |c.site|
  {
    RunConsistent(c, Initial(seeds), fuel);
    var pages := Run(c, Initial(seeds), fuel).final.emitted;
    DistinctBound(UrlPaths(pages), c.site.Keys);
  }

  // ---------------------------------------------------------------------
  // Termination on a finite site

  lemma {:induction false} LinksOfLength(c: Config, els: Dom, tag: string, attr: string, currentPath: string, processed: set<string>)
    ensures |LinksOf(c, els, tag, attr, currentPath, processed)| <= |els|
  {
    if els != [] {
      LinksOfLength(c, els[..|els| - 1], tag, attr, currentPath, processed);
    }
  }

  /** Each page queues at most two paths per element: one bound per
      selector scan, a loose bound that is all the termination measure
      needs (an element has one tag, so it in fact adds at most one). */
  lemma NewLinksLength(c: Config, els: Dom, currentPath: string, processed: set<string>)
    ensures |NewLinks(c, els, currentPath, processed)| <= 2 * |els|
  {
    NewLinksOrder(c, els, currentPath, processed);
    LinksOfLength(c, els, "a", "href", currentPath, processed);
    LinksOfLength(c, els, "iframe", "src", currentPath, processed);
  }

  /** A bound on the size of every page of the site. */
  ghost function LargestPage(site: map<string, Dom>, keys: set<string>): (b: nat)
    requires keys <= site.Keys
    ensures forall k :: k in keys ==> |site[k]| <= b
    decreases keys
  {
    if keys == {} then 0
    else
      var k :| k in keys;
      var rest := LargestPage(site, keys - {k});
      if |site[k]| > rest then |site[k]| else rest
  }

  /** Unvisited pages weigh more than anything one page can queue. */
  function Measure(c: Config, s: CrawlState, weight: nat): nat
  {
    |c.site.Keys - s.processed| * weight + |s.paths|
  }

  lemma WeightedDrop(unvisited: nat, queued: nat, pushed: nat, weight: nat)
    requires unvisited > 0 && queued > 0 && pushed < weight
    ensures (unvisited - 1) * weight + (queued - 1 + pushed) < unvisited * weight + queued
  {
    assert unvisited * weight == (unvisited - 1) * weight + weight;
  }

  lemma StepDecreases(c: Config, s: CrawlState, weight: nat)
    requires forall k :: k in c.site ==> 2 * |c.site[k]| < weight
    requires Step(c, s).outcome.Continues()
    ensures Measure(c, Step(c, s).next, weight) < Measure(c, s, weight)
  {
    var r := Step(c, s);
    StepQueue(c, s);
    if r.outcome.Emitted? {
      var u := r.outcome.urlPath;
      StepEmits(c, s);
      StepAtMostOnce(c, s);
      NewLinksLength(c, c.site[u], u, s.processed + {u});
      var before := c.site.Keys - s.processed;
      var after := c.site.Keys - r.next.processed;
      assert before == after + {u};
      WeightedDrop(|before|, |s.paths|, |r.appended|, weight);
    } else {
      StepAtMostOnce(c, s);
    }
  }

  lemma {:induction false} RunStops(c: Config, s: CrawlState, fuel: nat, weight: nat)
    requires forall k :: k in c.site ==> 2 * |c.site[k]| < weight
    requires fuel > Measure(c, s, weight)
    ensures Run(c, s, fuel).stopped.Some?
    decreases fuel
  {
    var r := Step(c, s);
    RunUnfold(c, s, fuel);
    if r.outcome.Continues() {
      StepDecreases(c, s, weight);
      RunStops(c, r.next, fuel - 1, weight);
    }
  }

  /** On a finite site the crawl always ends: some number of snap calls
      reaches an outcome after which snap does not recurse. */
  lemma CrawlTerminates(c: Config, s: CrawlState)
    ensures exists fuel :: Run(c, s, fuel).stopped.Some?
  {
    var weight := 2 * LargestPage(c.site, c.site.Keys) + 1;
    var fuel := Measure(c, s, weight) + 1;
    RunStops(c, s, fuel, weight);
  }
}
