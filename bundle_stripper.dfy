/**
 * Bundle stripping: before a page is serialised, every `<script>` whose
 * source file is one of the build's bundle files is removed from the
 * document, so that the static snapshot does not load the bundles again.
 */
module BundleStripper {
  import opened Wrappers
  import opened Web

  /** `Array.prototype.concat(...filesList)`: the directory listings, one
      after the other. */
  function Flatten(listing: seq<seq<string>>): seq<string>
  {
    if listing == [] then [] else listing[0] + Flatten(listing[1..])
  }

  /** The basenames of the files that no exclusion glob matches, in order. */
  function BundleNames(files: seq<string>, exclude: seq<string -> bool>, basename: string -> string): seq<string>
  {
    if files == [] then []
    else (if AnyMatch(exclude, files[0]) then [] else [basename(files[0])])
         + BundleNames(files[1..], exclude, basename)
  }

  /** The list `jsFiles` that stripScripts builds from the bundle
      directories. */
  function JsFiles(c: Config): seq<string>
  {
    BundleNames(Flatten(c.opts.bundleListing), c.opts.stripBundlesExclude, c.lib.basename)
  }

  /** What the removal loop does with one element. */
  datatype Verdict = Keep | Remove | Abort

  predicate IsScript(e: Element)
  {
    e.tag == "script"
  }

  /** The pathname of `new URL(element.src)` for a script of the page at
      `url`. A script without a `src` attribute has `element.src == ""`, for
      which the URL constructor throws, so it has no pathname. */
  function ScriptPathname(lib: Library, url: string, e: Element): Option<string>
  {
    if "src" in e.attrs then lib.srcPathname(url, e.attrs["src"]) else None
  }

  /** A script whose URL cannot be constructed: reaching it aborts the
      stripping of the page. */
  predicate Unparseable(lib: Library, url: string, e: Element)
  {
    IsScript(e) && ScriptPathname(lib, url, e).None?
  }

  /** Every script of `els` has a URL the constructor accepts. */
  predicate AllParse(lib: Library, url: string, els: Dom)
  {
    els == [] || (!Unparseable(lib, url, els[0]) && AllParse(lib, url, els[1..]))
  }

  /** A script whose source basename is one of `jsFiles`: it is removed. */
  predicate Bundled(lib: Library, url: string, jsFiles: seq<string>, e: Element)
  {
    IsScript(e) && ScriptPathname(lib, url, e).Some?
    && lib.basename(ScriptPathname(lib, url, e).value) in jsFiles
  }

  /** The elements that survive the removal loop, in document order. */
  function Kept(lib: Library, url: string, jsFiles: seq<string>, els: Dom): Dom
  {
    if els == [] then []
    else (if Bundled(lib, url, jsFiles, els[0]) then [] else [els[0]]) + Kept(lib, url, jsFiles, els[1..])
  }

  /** One turn of the removal loop over the elements still ahead, `rest`,
      when its first element does not abort it: that element is dropped if
      it is a bundle script and appended to what is already kept otherwise. */
  lemma RemovalTurn(lib: Library, url: string, jsFiles: seq<string>, done: Dom, rest: Dom)
    requires rest != [] && !Unparseable(lib, url, rest[0])
    ensures AllParse(lib, url, rest) == AllParse(lib, url, rest[1..])
    ensures Bundled(lib, url, jsFiles, rest[0]) ==>
              done + Kept(lib, url, jsFiles, rest) == done + Kept(lib, url, jsFiles, rest[1..])
    ensures !Bundled(lib, url, jsFiles, rest[0]) ==>
              done + Kept(lib, url, jsFiles, rest) == (done + [rest[0]]) + Kept(lib, url, jsFiles, rest[1..])
  {
    var later := Kept(lib, url, jsFiles, rest[1..]);
    if Bundled(lib, url, jsFiles, rest[0]) {
      assert Kept(lib, url, jsFiles, rest) == [] + later;
      assert [] + later == later;
    } else {
      assert Kept(lib, url, jsFiles, rest) == [rest[0]] + later;
      assert done + ([rest[0]] + later) == (done + [rest[0]]) + later;
    }
  }

  /** What stripScripts makes of the page at `url`: the page itself when
      stripping is off; None when some script's URL cannot be constructed;
      otherwise the page without its bundle scripts. */
  function Strip(c: Config, url: string, els: Dom): Option<Dom>
  {
    if !c.opts.stripBundles then Some(els)
    else if !AllParse(c.lib, url, els) then None
    else Some(Kept(c.lib, url, JsFiles(c), els))
  }

  lemma {:induction false} FlattenMember(listing: seq<seq<string>>, f: string)
    ensures f in Flatten(listing) <==>
            exists d, j :: 0 <= d < |listing| && 0 <= j < |listing[d]| && listing[d][j] == f
  {
    if listing != [] {
      FlattenMember(listing[1..], f);
      if f in Flatten(listing) {
        if f !in listing[0] {
          var d, j :| 0 <= d < |listing[1..]| && 0 <= j < |listing[1..][d]| && listing[1..][d][j] == f;
          assert listing[d + 1][j] == f;
        } else {
          var j :| 0 <= j < |listing[0]| && listing[0][j] == f;
          assert listing[0][j] == f;
        }
      }
      if exists d, j :: 0 <= d < |listing| && 0 <= j < |listing[d]| && listing[d][j] == f {
        var d, j :| 0 <= d < |listing| && 0 <= j < |listing[d]| && listing[d][j] == f;
        if d > 0 {
          assert listing[1..][d - 1][j] == f;
        }
      }
    }
  }

  lemma {:induction false} BundleNamesMember(files: seq<string>, exclude: seq<string -> bool>, basename: string -> string, b: string)
    ensures b in BundleNames(files, exclude, basename) <==>
            exists j :: 0 <= j < |files| && !AnyMatch(exclude, files[j]) && basename(files[j]) == b
  {
    if files != [] {
      BundleNamesMember(files[1..], exclude, basename, b);
      if exists j :: 0 <= j < |files| && !AnyMatch(exclude, files[j]) && basename(files[j]) == b {
        var j :| 0 <= j < |files| && !AnyMatch(exclude, files[j]) && basename(files[j]) == b;
        if j > 0 {
          assert files[1..][j - 1] == files[j];
        }
      }
      if b in BundleNames(files[1..], exclude, basename) {
        var j :| 0 <= j < |files[1..]| && !AnyMatch(exclude, files[1..][j]) && basename(files[1..][j]) == b;
        assert files[j + 1] == files[1..][j];
      }
    }
  }

  /** A name is stripped exactly when some listed bundle file that no
      exclusion glob matches has that basename. */
  lemma JsFilesMember(c: Config, b: string)
    ensures b in JsFiles(c) <==>
            exists d, j :: 0 <= d < |c.opts.bundleListing| && 0 <= j < |c.opts.bundleListing[d]|
                           && !AnyMatch(c.opts.stripBundlesExclude, c.opts.bundleListing[d][j])
                           && c.lib.basename(c.opts.bundleListing[d][j]) == b
  {
    var listing := c.opts.bundleListing;
    var files := Flatten(listing);
    BundleNamesMember(files, c.opts.stripBundlesExclude, c.lib.basename, b);
    if b in JsFiles(c) {
      var k :| 0 <= k < |files| && !AnyMatch(c.opts.stripBundlesExclude, files[k]) && c.lib.basename(files[k]) == b;
      FlattenMember(listing, files[k]);
    }
    if exists d, j :: 0 <= d < |listing| && 0 <= j < |listing[d]|
                      && !AnyMatch(c.opts.stripBundlesExclude, listing[d][j])
                      && c.lib.basename(listing[d][j]) == b {
      var d, j :| 0 <= d < |listing| && 0 <= j < |listing[d]|
                  && !AnyMatch(c.opts.stripBundlesExclude, listing[d][j])
                  && c.lib.basename(listing[d][j]) == b;
      FlattenMember(listing, listing[d][j]);
      var k :| 0 <= k < |files| && files[k] == listing[d][j];
    }
  }

  /** Removal works element by element: stripping a concatenation strips
      each part. */
  lemma {:induction false} KeptAppend(lib: Library, url: string, jsFiles: seq<string>, a: Dom, b: Dom)
    ensures Kept(lib, url, jsFiles, a + b) == Kept(lib, url, jsFiles, a) + Kept(lib, url, jsFiles, b)
  {
    if a == [] {
      assert a + b == b;
    } else {
      assert (a + b)[0] == a[0] && (a + b)[1..] == a[1..] + b;
      KeptAppend(lib, url, jsFiles, a[1..], b);
    }
  }

  /** Stripping one more element keeps or drops just that element. */
  lemma KeptSnoc(lib: Library, url: string, jsFiles: seq<string>, els: Dom, e: Element)
    ensures Kept(lib, url, jsFiles, els + [e])
            == Kept(lib, url, jsFiles, els) + (if Bundled(lib, url, jsFiles, e) then [] else [e])
  {
    KeptAppend(lib, url, jsFiles, els, [e]);
    assert [e][1..] == [];
  }

  /** Exactly the bundle scripts are removed: an element value survives iff
      it occurs in the page and is not a bundle script. */
  lemma {:induction false} KeptMember(lib: Library, url: string, jsFiles: seq<string>, els: Dom, x: Element)
    ensures x in Kept(lib, url, jsFiles, els) <==> x in els && !Bundled(lib, url, jsFiles, x)
  {
    if els != [] {
      KeptMember(lib, url, jsFiles, els[1..], x);
      assert els == [els[0]] + els[1..];
    }
  }

  /** No element other than a bundle script is removed: a page with no
      bundle script is left as it is. */
  lemma {:induction false} KeptNothingToRemove(lib: Library, url: string, jsFiles: seq<string>, els: Dom)
    requires forall i :: 0 <= i < |els| ==> !Bundled(lib, url, jsFiles, els[i])
    ensures Kept(lib, url, jsFiles, els) == els
  {
    if els != [] {
      assert forall i :: 0 <= i < |els[1..]| ==> els[1..][i] == els[i + 1];
      KeptNothingToRemove(lib, url, jsFiles, els[1..]);
      assert els == [els[0]] + els[1..];
    }
  }

  /** Stripping twice removes nothing more. */
  lemma KeptIdempotent(lib: Library, url: string, jsFiles: seq<string>, els: Dom)
    ensures Kept(lib, url, jsFiles, Kept(lib, url, jsFiles, els)) == Kept(lib, url, jsFiles, els)
  {
    var k := Kept(lib, url, jsFiles, els);
    forall i | 0 <= i < |k| ensures !Bundled(lib, url, jsFiles, k[i]) {
      KeptMember(lib, url, jsFiles, els, k[i]);
    }
    KeptNothingToRemove(lib, url, jsFiles, k);
  }

  /** Stripping fails exactly when some script's URL cannot be
      constructed. */
  lemma {:induction false} AllParseMember(lib: Library, url: string, els: Dom)
    ensures AllParse(lib, url, els) <==> forall i :: 0 <= i < |els| ==> !Unparseable(lib, url, els[i])
  {
    if els != [] {
      AllParseMember(lib, url, els[1..]);
      if AllParse(lib, url, els) {
        forall i | 0 <= i < |els| ensures !Unparseable(lib, url, els[i]) {
          if i > 0 {
            assert els[1..][i - 1] == els[i];
          }
        }
      } else if !Unparseable(lib, url, els[0]) {
        var i :| 0 <= i < |els[1..]| && Unparseable(lib, url, els[1..][i]);
        assert els[i + 1] == els[1..][i];
      }
    }
  }

  /** With stripping on, a page holding an inline script (no `src`) cannot
      be stripped. */
  lemma InlineScriptAborts(c: Config, url: string, els: Dom, i: nat)
    requires c.opts.stripBundles
    requires i < |els| && IsScript(els[i]) && "src" !in els[i].attrs
    ensures Strip(c, url, els) == None
  {
    AllParseMember(c.lib, url, els);
  }
}
