/**
 * The environment the crawler runs in: the rendered DOM, the URL and path
 * helpers of the platform, the crawler's options and the site it crawls.
 * Library functions whose internals are not part of the model are kept
 * abstract as function-typed fields.
 */
module Web {
  import opened Wrappers

  /** One element of a rendered document, in document order. Attribute
      names are the keys of `attrs`; an absent key is a missing attribute. */
  datatype Element = Element(tag: string, attrs: map<string, string>)

  /** A rendered document: its elements in document order. */
  type Dom = seq<Element>

  /** The fields of `url.parse` that the crawler reads. `protocol` and
      `host` are "" when the parser yields null or the empty string (both
      are falsy to the crawler); `path` keeps null apart from "". */
  datatype UrlParts = UrlParts(protocol: string, host: string, path: Option<string>)

  /** The library calls the crawler makes, as uninterpreted functions. */
  datatype Library = Library(
    // url.resolve(base, ref)
    resolve: (string, string) -> string,
    // url.parse(ref)
    parse: string -> UrlParts,
    // path.extname(p)
    extname: string -> string,
    // path.basename(p)
    basename: string -> string,
    // the pathname of `new URL(script.src)` for a script whose `src`
    // attribute is the second argument in the page at the first argument;
    // None when the URL constructor throws
    srcPathname: (string, string) -> Option<string>,
    // jsdom.serializeDocument
    serialize: Dom -> string)

  /** The crawler's options, with each glob already compiled to a matcher
      and the bundle directories already listed. */
  datatype Options = Options(
    // options.exclude
    exclude: seq<string -> bool>,
    // options.stripBundles
    stripBundles: bool,
    // for each directory of options.stripBundlesInclude, its files joined
    // to the directory path, in listing order
    bundleListing: seq<seq<string>>,
    // options.stripBundlesExclude
    stripBundlesExclude: seq<string -> bool>)

  /** Everything a crawl run depends on. `site` maps each path that renders
      successfully to its rendered document; loading a path outside it fails. */
  datatype Config = Config(lib: Library, opts: Options, site: map<string, Dom>)

  /** Some compiled glob of `patterns` accepts `s`
      (`patterns.filter(r => r.test(s)).length > 0`). */
  predicate AnyMatch(patterns: seq<string -> bool>, s: string)
  {
    exists i :: 0 <= i < |patterns| && patterns[i](s)
  }

  /** `element.getAttribute(name) === value` */
  predicate AttributeIs(e: Element, name: string, value: string)
  {
    name in e.attrs && e.attrs[name] == value
  }

  /** A rendered page, in the form the crawler's window object has it: the
      path it was loaded from and its elements, which scripts may remove in
      place. */
  class Document {
    const url: string
    var elements: Dom

    constructor (url: string, elements: Dom)
      ensures this.url == url && this.elements == elements
    {
      this.url := url;
      this.elements := elements;
    }

    /** `element.remove()` for the element at position `k` of the document. */
    method Remove(k: nat)
      requires k < |elements|
      modifies this
      ensures elements == old(elements)[..k] + old(elements)[k + 1..]
    {
      elements := elements[..k] + elements[k + 1..];
    }
  }

  /** Removing the first element after `before` leaves `before` followed by
      the rest of what came after it. */
  lemma RemoveAfter(before: Dom, after: Dom)
    requires after != []
    ensures (before + after)[..|before|] + (before + after)[|before| + 1..] == before + after[1..]
  {
    assert (before + after)[..|before|] == before;
    assert (before + after)[|before| + 1..] == after[1..];
  }
}
