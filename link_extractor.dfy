/**
 * Link discovery: after a page is rendered, the crawler scans its anchors
 * and then its iframes and queues every same-origin page path that it may
 * follow and has not handled yet.
 */
module LinkExtractor {
  import opened Wrappers
  import opened Web

  /** The extractor's tagAttributeMap, in key order: anchors by `href`,
      then iframes by `src`. */
  const TagAttributes: seq<(string, string)> := [("a", "href"), ("iframe", "src")]

  /** The element is matched by the selector `tag[attr]`. */
  predicate Selected(e: Element, tag: string, attr: string)
  {
    e.tag == tag && attr in e.attrs
  }

  /** An extension the crawler follows: none, or exactly ".html". */
  predicate PageExtension(ext: string)
  {
    ext == "" || ext == ".html"
  }

  /** The path a selected element leads to, resolved against the current
      page; None when the element opens a new browsing context, when the
      reference names a protocol or a host or has no path, or when the
      resolved path has an extension the crawler does not follow. */
  function Follow(lib: Library, e: Element, attr: string, currentPath: string): Option<string>
    requires attr in e.attrs
  {
    if AttributeIs(e, "target", "_blank") then None
    else
      var href := lib.parse(e.attrs[attr]);
      if href.protocol != "" || href.host != "" || href.path.None? then None
      else
        var relativePath := lib.resolve(currentPath, href.path.value);
        if !PageExtension(lib.extname(relativePath)) then None
        else Some(relativePath)
  }

  /** A followable path is queued only if it is not processed yet and no
      exclusion glob matches it. */
  predicate Admitted(c: Config, processed: set<string>, p: string)
  {
    p !in processed && !AnyMatch(c.opts.exclude, p)
  }

  /** What one element adds to the queue. */
  function Found(c: Config, e: Element, tag: string, attr: string, currentPath: string, processed: set<string>): seq<string>
  {
    if !Selected(e, tag, attr) then []
    else match Follow(c.lib, e, attr, currentPath)
      case None => []
      case Some(p) => if Admitted(c, processed, p) then [p] else []
  }

  /** The paths queued while scanning the `tag[attr]` elements of `els`, in
      document order. */
  function LinksOf(c: Config, els: Dom, tag: string, attr: string, currentPath: string, processed: set<string>): seq<string>
  {
    if els == [] then []
    else LinksOf(c, els[..|els| - 1], tag, attr, currentPath, processed)
         + Found(c, els[|els| - 1], tag, attr, currentPath, processed)
  }

  /** Scanning one more element adds what that element contributes. */
  lemma LinksOfSnoc(c: Config, els: Dom, e: Element, tag: string, attr: string, currentPath: string, processed: set<string>)
    ensures LinksOf(c, els + [e], tag, attr, currentPath, processed)
            == LinksOf(c, els, tag, attr, currentPath, processed) + Found(c, e, tag, attr, currentPath, processed)
  {
    assert (els + [e])[..|els|] == els;
  }

  /** The paths queued while scanning the selectors of `table` in order. */
  function LinksFor(c: Config, els: Dom, table: seq<(string, string)>, currentPath: string, processed: set<string>): seq<string>
  {
    if table == [] then []
    else
      var last := table[|table| - 1];
      LinksFor(c, els, table[..|table| - 1], currentPath, processed)
      + LinksOf(c, els, last.0, last.1, currentPath, processed)
  }

  /** Everything extractNewLinks appends to the queue for one page. */
  function NewLinks(c: Config, els: Dom, currentPath: string, processed: set<string>): seq<string>
  {
    LinksFor(c, els, TagAttributes, currentPath, processed)
  }

  /** The flat reading of the per-element callback of extractNewLinks
      (src/Crawler.js:99-105), condition by condition, as a reference for
      `Found`, which follows the code's nesting: the element is selected by
      `tag[attr]` and does not open a new context, its reference has no
      protocol, no host and a path, which resolves against the current page
      to `p` with a page extension, and `p` is neither processed nor
      excluded. */
  predicate Leads(c: Config, e: Element, tag: string, attr: string, currentPath: string, processed: set<string>, p: string)
  {
    e.tag == tag && attr in e.attrs
    && !AttributeIs(e, "target", "_blank")
    && c.lib.parse(e.attrs[attr]).protocol == ""
    && c.lib.parse(e.attrs[attr]).host == ""
    && c.lib.parse(e.attrs[attr]).path.Some?
    && p == c.lib.resolve(currentPath, c.lib.parse(e.attrs[attr]).path.value)
    && (c.lib.extname(p) == "" || c.lib.extname(p) == ".html")
    && p !in processed
    && (forall k :: 0 <= k < |c.opts.exclude| ==> !c.opts.exclude[k](p))
  }

  lemma FoundLeads(c: Config, e: Element, tag: string, attr: string, currentPath: string, processed: set<string>, p: string)
    ensures p in Found(c, e, tag, attr, currentPath, processed) <==> Leads(c, e, tag, attr, currentPath, processed, p)
  {
  }

  /** Scanning is element by element: the links of a concatenation are the
      links of each part, in order (document order is preserved). */
  lemma {:induction false} LinksOfAppend(c: Config, a: Dom, b: Dom, tag: string, attr: string, currentPath: string, processed: set<string>)
    ensures LinksOf(c, a + b, tag, attr, currentPath, processed)
            == LinksOf(c, a, tag, attr, currentPath, processed) + LinksOf(c, b, tag, attr, currentPath, processed)
    decreases |b|
  {
    if b != [] {
      var n := |b| - 1;
      assert (a + b)[..|a + b| - 1] == a + b[..n];
      LinksOfAppend(c, a, b[..n], tag, attr, currentPath, processed);
    } else {
      assert a + b == a;
    }
  }

  /** A path is queued by the `tag[attr]` scan iff some element leads to it. */
  lemma {:induction false} LinksOfMember(c: Config, els: Dom, tag: string, attr: string, currentPath: string, processed: set<string>, p: string)
    ensures p in LinksOf(c, els, tag, attr, currentPath, processed) <==>
            exists i :: 0 <= i < |els| && Leads(c, els[i], tag, attr, currentPath, processed, p)
  {
    if els != [] {
      var n := |els| - 1;
      LinksOfMember(c, els[..n], tag, attr, currentPath, processed, p);
      FoundLeads(c, els[n], tag, attr, currentPath, processed, p);
      if exists i :: 0 <= i < |els| && Leads(c, els[i], tag, attr, currentPath, processed, p) {
        var i :| 0 <= i < |els| && Leads(c, els[i], tag, attr, currentPath, processed, p);
        if i < n {
          assert els[..n][i] == els[i];
        }
      }
      if p in LinksOf(c, els[..n], tag, attr, currentPath, processed) {
        var i :| 0 <= i < n && Leads(c, els[..n][i], tag, attr, currentPath, processed, p);
        assert els[i] == els[..n][i];
      }
    }
  }

  /** Anchors are scanned before iframes. */
  lemma NewLinksOrder(c: Config, els: Dom, currentPath: string, processed: set<string>)
    ensures NewLinks(c, els, currentPath, processed)
            == LinksOf(c, els, "a", "href", currentPath, processed) + LinksOf(c, els, "iframe", "src", currentPath, processed)
  {
    var t := TagAttributes;
    assert t[..|t| - 1] == [("a", "href")] && t[|t| - 1] == ("iframe", "src");
    assert [("a", "href")][..0] == [];
    calc {
      NewLinks(c, els, currentPath, processed);
      LinksFor(c, els, [("a", "href")], currentPath, processed) + LinksOf(c, els, "iframe", "src", currentPath, processed);
      LinksFor(c, els, [], currentPath, processed) + LinksOf(c, els, "a", "href", currentPath, processed)
      + LinksOf(c, els, "iframe", "src", currentPath, processed);
    }
  }

  /** The extractor queues exactly the paths some anchor or iframe of the
      page leads to: every queued path is unprocessed, matches no exclusion
      glob, has a page extension and comes from a same-origin reference
      that does not open a new context; and every such path is queued. */
  lemma NewLinksMember(c: Config, els: Dom, currentPath: string, processed: set<string>, p: string)
    ensures p in NewLinks(c, els, currentPath, processed) <==>
            exists i :: 0 <= i < |els| &&
              (Leads(c, els[i], "a", "href", currentPath, processed, p)
               || Leads(c, els[i], "iframe", "src", currentPath, processed, p))
  {
    NewLinksOrder(c, els, currentPath, processed);
    LinksOfMember(c, els, "a", "href", currentPath, processed, p);
    LinksOfMember(c, els, "iframe", "src", currentPath, processed, p);
  }

  /** A scan for `tag` passes over an element of another tag wherever it
      stands in the page. */
  lemma LinksOfSkip(c: Config, a: Dom, e: Element, b: Dom, tag: string, attr: string, currentPath: string, processed: set<string>)
    requires e.tag != tag
    ensures LinksOf(c, a + [e] + b, tag, attr, currentPath, processed) == LinksOf(c, a + b, tag, attr, currentPath, processed)
  {
    LinksOfAppend(c, a + [e], b, tag, attr, currentPath, processed);
    LinksOfSnoc(c, a, e, tag, attr, currentPath, processed);
    LinksOfAppend(c, a, b, tag, attr, currentPath, processed);
  }

  /** Only anchors and iframes contribute: an element of any other tag,
      wherever it stands in the page, can be removed without changing what
      is queued. */
  lemma NewLinksIgnoreOtherTags(c: Config, a: Dom, e: Element, b: Dom, currentPath: string, processed: set<string>)
    requires e.tag != "a" && e.tag != "iframe"
    ensures NewLinks(c, a + [e] + b, currentPath, processed) == NewLinks(c, a + b, currentPath, processed)
  {
    NewLinksOrder(c, a + [e] + b, currentPath, processed);
    NewLinksOrder(c, a + b, currentPath, processed);
    LinksOfSkip(c, a, e, b, "a", "href", currentPath, processed);
    LinksOfSkip(c, a, e, b, "iframe", "src", currentPath, processed);
  }
}
