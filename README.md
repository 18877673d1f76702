# react-snapshot crawler, modelled in Dafny

react-snapshot pre-renders a single-page application into static HTML. It
crawls the application from a list of seed paths. For each path it renders
the page, optionally removes the `<script>` tags of the build's bundles,
serialises the page for a handler, and queues the same-origin page links it
finds. This project models that crawl engine (`src/Crawler.js`) and proves
what it guarantees.

The model has five modules, a `Scenarios` module of worked examples and a small `Wrappers` module for `Option`:

- `Web` (web.dfy) holds the environment. An element is a tag with an
  attribute map, and a page is the sequence of its elements in document
  order. The URL and path helpers (`url.resolve`, `url.parse`,
  `path.extname`, `path.basename`, `new URL(script.src).pathname`,
  `jsdom.serializeDocument`) are function-typed fields of `Library`. The
  options carry the compiled exclusion globs as matchers. The site is a map
  from each renderable path to its rendered page. `Document` is the window
  object, whose element list scripts may remove from in place.
- `BundleStripper` (bundle_stripper.dfy) specifies `stripScripts`. It covers
  the list of bundle basenames, which scripts are removed, and when the
  stripping fails. `JsFiles` is the bundle basename list
  (src/Crawler.js:74-77), `Kept` the elements the removal loop leaves
  (src/Crawler.js:79-84) and `Strip` the whole of `stripScripts`
  (src/Crawler.js:57-87).
- `LinkExtractor` (link_extractor.dfy) specifies `extractNewLinks`: which
  elements lead to which queued paths, and in what order. `Found` is what
  one element adds (src/Crawler.js:99-106) and `NewLinks` what one page
  adds (src/Crawler.js:89-109).
- `Traversal` (traversal.dfy) is the crawl as a state machine. The state is
  the queue, the processed set and the pages handed to the handler. `Step`
  is one call of `snap` (src/Crawler.js:36-55), and `Run` repeats it while
  `snap` would recurse (src/Crawler.js:41, 53).
  The lemmas here state FIFO order, at most one handler call per canonical
  path, the filters on discovered paths, and termination on a finite site.
- `Crawl` (crawler.dfy) is the `Crawler` class. `Snap` updates its fields
  `paths`, `processed` and `emitted` in place; `ExtractNewLinks` appends to
  `paths` only; `StripScripts` changes none of them and removes elements
  from the window's `Document` in place. Each method is proved against the
  matching function of the modules above.
- `Scenarios` (scenarios.dfy) proves the outcome of three concrete crawls on a two-page site, one of them with a duplicate seed.

## Behaviour of the code worth knowing

- The source extracts links from the stripped window: `stripScripts`
  removes elements from the window in place before `extractNewLinks` reads
  it (src/Crawler.js:47-50). Only `<script>` elements are ever removed, so
  the links are the same as those of the page as rendered; this is proved
  by `StripKeepsNewLinks` and `StepEmits`.
- A failed page ends the crawl; the crawl does not go on with the next
  path. When the load rejects, the first `errFn` returns `undefined` and
  the next `then` dereferences `window.document`, so the crawl's promise
  rejects. When `stripScripts` rejects, the second `errFn` logs and the
  crawl resolves. In neither case is `snap` called again
  (src/Crawler.js:45-54). See `StepOutcome` and `FailureEndsRun`.
- A queued path is keyed by `url.resolve('/', p)`, which is abstract in
  the model. The source does not strip trailing slashes, whatever its
  comment at src/Crawler.js:39 says, so `/foo/` and `/foo` are handled once
  only if the resolver maps them to the same string. The at-most-once
  guarantee is per canonical string.
- The exclusion globs apply only to discovered links, never to seeds
  (src/Crawler.js:16, 105).
- With bundle stripping on, a script without a `src` attribute has
  `element.src == ""`, and `new URL("")` throws at src/Crawler.js:80. That
  page is lost and the crawl ends (`InlineScriptAborts`).

## Model

| member | source | states |
|---|---|---|
| `Crawl.Crawler.constructor` | src/Crawler.js:11-27 | a new crawler queues exactly the seeds, in order, with nothing processed and no handler calls |
| `Crawl.Crawler.Crawl` | src/Crawler.js:29-34 | the state and the ending outcome after repeated `snap` calls are those of `Traversal.Run` |
| `Crawl.Crawler.Snap` | src/Crawler.js:36-55 | one `snap` call updates queue, processed set and handler calls exactly as `Traversal.Step`, and reports how it ended |
| `Crawl.Crawler.StripScripts` | src/Crawler.js:57-87 | succeeds iff stripping is off or every script URL can be constructed, and on success leaves in the window exactly `Strip`'s result |
| `Crawl.Crawler.RemoveScripts` | src/Crawler.js:79-85 | the in-place removal loop completes iff every script URL of the page can be constructed, and then the window holds exactly `Kept` of the page |
| `Crawl.Crawler.Classify` | src/Crawler.js:79-84 | one turn of the loop aborts exactly on a script whose URL cannot be constructed and removes exactly a script whose source basename is in `jsFiles` |
| `Web.Document.Remove` | src/Crawler.js:82 | `element.remove()` takes out that one element and keeps the others in order |
| `Crawl.Crawler.ExtractNewLinks` | src/Crawler.js:89-109 | appends `NewLinks` of the page to the queue and changes nothing else |
| `Crawl.Crawler.ScanSelector` | src/Crawler.js:96-108 | one selector's scan appends, in document order, what each matched element contributes |
| `Crawl.Crawler.Consider` | src/Crawler.js:99-106 | the per-element callback yields the element's resolved path exactly when it passes every filter |
| `BundleStripper.FlattenMember` | src/Crawler.js:75 | a file is in the concatenated listing iff some directory lists it |
| `BundleStripper.BundleNamesMember` | src/Crawler.js:76-77 | a basename is kept iff some file not matched by an exclusion glob has it |
| `BundleStripper.JsFilesMember` | src/Crawler.js:61-77 | a name is in `jsFiles` iff some listed bundle file that no `stripBundlesExclude` glob matches has that basename |
| `BundleStripper.KeptMember` | src/Crawler.js:79-84 | an element survives stripping iff it is in the page and is not a script whose source basename is in `jsFiles` |
| `BundleStripper.KeptAppend` | src/Crawler.js:79-84 | removal decides element by element: stripping a concatenation strips each part in order |
| `BundleStripper.KeptNothingToRemove` | src/Crawler.js:79-84 | a page with no bundle script is left unchanged, so no other element is removed |
| `BundleStripper.KeptIdempotent` | src/Crawler.js:79-84 | stripping an already stripped page removes nothing more |
| `BundleStripper.AllParseMember` | src/Crawler.js:80 | stripping can proceed iff no script's URL makes the URL constructor throw |
| `BundleStripper.InlineScriptAborts` | src/Crawler.js:80 | with stripping on, a page with a script lacking `src` cannot be stripped |
| `LinkExtractor.FoundLeads` | src/Crawler.js:99-106 | an element contributes a path iff it has the attribute, is not `target="_blank"`, has no protocol or host and has a path; the path is its resolution against the current page, with extension `''` or `.html`, unprocessed and not excluded |
| `LinkExtractor.LinksOfAppend` | src/Crawler.js:98 | the scan is element by element in document order: the links of a concatenation are the links of each part, in order |
| `LinkExtractor.LinksOfMember` | src/Crawler.js:98-107 | a path is queued by a selector's scan iff some matched element leads to it |
| `LinkExtractor.NewLinksOrder` | src/Crawler.js:91-96 | the anchors' links come before the iframes' links |
| `LinkExtractor.NewLinksMember` | src/Crawler.js:96-107 | the extractor queues exactly the paths that some anchor (`href`) or iframe (`src`) of the page leads to |
| `LinkExtractor.LinksOfSkip` | src/Crawler.js:96-98 | a selector scan passes over an element of another tag wherever it stands in the page |
| `LinkExtractor.NewLinksIgnoreOtherTags` | src/Crawler.js:91-98 | an element other than an anchor or iframe, anywhere in the page, does not change what is queued |
| `Traversal.StepFinishes` | src/Crawler.js:37-38 | `snap` ends the crawl iff the queue is empty or its head is `''`, and then leaves processed set and handler calls unchanged |
| `Traversal.StepQueue` | src/Crawler.js:36-55 | after a step the queue is the old queue without its head followed by the discovered paths, which are empty unless the page was emitted; processed and handler calls only grow |
| `Traversal.StepAtMostOnce` | src/Crawler.js:39-44 | an already processed canonical path is skipped: shifted off with nothing pushed, no load and no handler call; otherwise it is claimed before loading; the handler only receives unprocessed canonical paths of the site |
| `Traversal.StepEmits` | src/Crawler.js:47-53 | on success the handler gets `{urlPath, html}` with the canonical path and the stripped page's serialisation, and the queued paths are those of the page as rendered, filtered against `processed` that already holds the page |
| `Traversal.StepOutcome` | src/Crawler.js:40-54 | an unprocessed head outside the site fails to load, one whose scripts cannot be stripped fails the strip (both claim the path, push nothing and call no handler), and every other one is emitted |
| `Traversal.FailureEndsRun` | src/Crawler.js:45-54 | after a failed load or strip the run stops with that outcome, having taken only that path off the queue and pushed nothing |
| `Traversal.RunGoesOn` | src/Crawler.js:40-53 | after a skip or a handler call `snap` calls itself again: the run goes on from the step's state, with that path taken and its pushes in front of the rest of the run |
| `Traversal.StripKeepsLinksOf` | src/Crawler.js:79-98 | removing bundle scripts does not change any non-script selector's scan |
| `Traversal.StripKeepsNewLinks` | src/Crawler.js:47-50 | the extractor finds the same links in the stripped window as in the rendered one |
| `Traversal.StepConsistent` | src/Crawler.js:40-51 | a step keeps the handler calls distinct by canonical path, processed, and within the site |
| `Traversal.RunConsistent` | src/Crawler.js:36-55 | a whole run keeps the handler calls distinct by canonical path, processed, and within the site |
| `Traversal.RunFifo` | src/Crawler.js:36-55 | the paths taken off the queue, followed by those still queued, equal the starting queue followed by every pushed path in push order |
| `Traversal.SeedsFirst` | src/Crawler.js:16-37 | the seeds are taken first, in `options.include` order |
| `Traversal.RunMonotone` | src/Crawler.js:43-51 | processed paths stay processed and handler calls are never undone |
| `Traversal.RunAppendedFiltered` | src/Crawler.js:103-106 | every path a run pushes has extension `''` or `.html` and matches no exclusion glob |
| `Traversal.CrawlAtMostOnce` | src/Crawler.js:39-51 | from a fresh crawler, the handler's canonical paths are pairwise distinct and number at most the site's pages |
| `Traversal.LinksOfLength` | src/Crawler.js:98-107 | a selector's scan pushes at most one path per element |
| `Traversal.NewLinksLength` | src/Crawler.js:96-107 | one page pushes at most two paths per element |
| `Traversal.StepDecreases` | src/Crawler.js:36-55 | each recursing `snap` call lowers a measure that weighs unvisited site pages above queue length |
| `Traversal.RunStops` | src/Crawler.js:36-55 | with more fuel than that measure, the crawl reaches an ending outcome |
| `Traversal.CrawlTerminates` | src/Crawler.js:36-55 | on a finite site every crawl ends after finitely many `snap` calls |
| `Scenarios.FirstOnA` | src/Crawler.js:36-55 | with `/a` at the head of any queue and nothing processed, `snap` emits `/a` and queues `/b` behind the rest |
| `Scenarios.CycleFirst` | src/Crawler.js:36-55 | on the two-page cycle, the first call emits `/a` and queues `/b` |
| `Scenarios.CycleSecond` | src/Crawler.js:36-55 | the second call emits `/b`; its link back to `/a` is not queued because `/a` is processed |
| `Scenarios.CycleFromSecond` | src/Crawler.js:36-55 | from the state after `/a` was emitted, the crawl emits `/b`, takes only `/b` off the queue and finishes |
| `Scenarios.CycleCrawledOnce` | src/Crawler.js:36-55 | seeded with `/a`, where `/a` and `/b` link to each other, the crawl calls the handler for `/a` then `/b`, once each, and finishes |
| `Scenarios.DuplicateSkipped` | src/Crawler.js:39-41 | a second `/a` in the queue is caught at dequeue and skipped, with nothing pushed and no handler call |
| `Scenarios.DuplicateSeedCrawledOnce` | src/Crawler.js:36-55 | seeded with `/a` twice, the crawl takes `/a`, `/a`, `/b` off the queue, calls the handler for `/a` then `/b`, once each, and finishes |
| `Scenarios.FailedLoadEndsCrawl` | src/Crawler.js:45-54 | a seed that fails to load ends the crawl: the seed after it is never loaded and the handler is never called |

## Left out

- src/snapshot.js (the jsdom environment, its resource loader and skip patterns, the `reactSnapshotRender` handshake and its delay) is not part of this model. A page load is the site map: a path outside it is a failed load, whatever the cause.
- `fs.readdir`, `path.resolve` and `path.join` (src/Crawler.js:61-69): the bundle directories arrive already listed, as full file paths. A listing error is not modelled. The listing is taken to be the same for every page, though the source reads the directories again for each one.
- The internals of `url.parse`, `url.resolve`, `path.extname`, `path.basename`, jsdom's URL reflection of `script.src` and `glob-to-regexp` are uninterpreted functions. Nothing is assumed about them.
- The DOM is a flat list of elements in document order, so nested documents are not modelled. Removing a script removes no other element, because a script holds only text.
- `jsdom.serializeDocument` is an uninterpreted function of the page. `window.close()` frees resources and has no observable effect, so it is omitted.
- `baseUrl`, `protocol`, `host` and `snapshotDelay` are only passed to the page loader, so they are omitted.
- Console logging, including the start and finish messages, is not modelled.
- Exceptions thrown by the handler are not modelled. The handler is recorded as the sequence of pages it receives.
- Entries of `options.include` are strings. Non-string falsy seeds are not modelled.
- `processed` is a set. The source uses a plain object, but its keys are results of `url.resolve('/', p)`: a path starting with `/`, or an absolute URL when the seed has a scheme. Every such key contains `/` or `:`, so no inherited property name can collide with one.
- The source's promise chain is modelled as a sequence of `snap` calls. The order of operations inside each call is kept.
- Crawl.Crawler.StripScripts: does not describe the window after a failed strip, where the scripts before the bad one are already removed, because the source discards that window and ends the crawl.
- Crawl.Crawler.RemoveScripts: likewise says nothing about the window when it returns false.
- Crawl.Crawler.Crawl: runs at most `fuel` calls of `snap`, so that the method has a bound; `CrawlTerminates` gives a fuel that reaches the end of every modelled crawl.
- The site is a finite map, so an application with infinitely many renderable paths (say `/n` linking to `/n+1`), on which the source's recursion at src/Crawler.js:53 never ends, is not modelled; every modelled crawl ends (`CrawlTerminates`).
