/** The server entry: `renderPreloadLinks` builds the resource hints for the
    modules one render instantiated, from the build's SSR manifest, and
    `render` returns them beside the rendered HTML. */
module EntryServer {
  import opened Wrappers
  import opened Text

  /** Module id, or a file's base name, to the asset paths listed for it. */
  type Manifest = map<string, seq<string>>

  /** What one render of the application yields: its HTML and the ids of
      the modules instantiated during it, in instantiation order. */
  datatype Page = Page(html: string, modules: seq<string>)

  /** Creating the app, pushing the URL into its router, waiting for it and
      rendering it to a string; a throw anywhere is a Failure. */
  type App = string -> Result<Page, Exception>

  // ---------------------------------------------------------------------
  // renderPreloadLink: one tag per asset path, chosen by suffix

  const ScriptSuffix := ".js"
  const StyleSuffix := ".css"
  const WoffSuffix := ".woff"
  const Woff2Suffix := ".woff2"
  const GifSuffix := ".gif"
  const JpgSuffix := ".jpg"
  const JpegSuffix := ".jpeg"
  const PngSuffix := ".png"

  /** The suffixes in the order `renderPreloadLink` tests them; the tag for
      a path with suffix number i is TagOpen[i] + path + TagClose[i]. */
  const AssetSuffixes := [ScriptSuffix, StyleSuffix, WoffSuffix, Woff2Suffix, GifSuffix, JpgSuffix, JpegSuffix, PngSuffix]

  const PreloadOpen := " <link rel=\"preload\" href=\""

  const TagOpen := [
    "<link rel=\"modulepreload\" crossorigin href=\"",
    "<link rel=\"stylesheet\" href=\"",
    PreloadOpen, PreloadOpen, PreloadOpen, PreloadOpen, PreloadOpen, PreloadOpen]

  const TagClose := [
    "\">",
    "\">",
    "\" as=\"font\" type=\"font/woff\" crossorigin>",
    "\" as=\"font\" type=\"font/woff2\" crossorigin>",
    "\" as=\"image\" type=\"image/gif\">",
    "\" as=\"image\" type=\"image/jpeg\">",
    "\" as=\"image\" type=\"image/jpeg\">",
    "\" as=\"image\" type=\"image/png\">"]

  lemma EndsWithTail(s: string, suffix: string, n: nat)
    requires EndsWith(s, suffix) && n <= |suffix|
    ensures s[|s| - n..] == suffix[|suffix| - n..]
  {
    assert s[|s| - n..] == s[|s| - |suffix|..][|suffix| - n..];
  }

  /** No path ends with two of the known suffixes, so the order of the
      tests in `renderPreloadLink` never decides which tag a path gets. */
  lemma SuffixesExclusive(file: string)
    ensures forall i, j :: 0 <= i < j < |AssetSuffixes| ==>
      !(EndsWith(file, AssetSuffixes[i]) && EndsWith(file, AssetSuffixes[j]))
  {
    forall i, j | 0 <= i < j < |AssetSuffixes| && EndsWith(file, AssetSuffixes[i])
      ensures !EndsWith(file, AssetSuffixes[j])
    {
      EndsWithTail(file, AssetSuffixes[i], 2);
      if EndsWith(file, AssetSuffixes[j]) {
        EndsWithTail(file, AssetSuffixes[j], 2);
        assert false;
      }
    }
  }

  /** The number of the first suffix from number `i` on that the path ends
      with, or |AssetSuffixes| when it ends with none of them. */
  function SuffixIndexFrom(file: string, i: nat): (k: nat)
    requires i <= |AssetSuffixes|
    ensures i <= k <= |AssetSuffixes|
    decreases |AssetSuffixes| - i
  {
    if i == |AssetSuffixes| then i
    else if EndsWith(file, AssetSuffixes[i]) then i
    else SuffixIndexFrom(file, i + 1)
  }

  /** `renderPreloadLink(file)`: the tests of the suffixes in order, the
      first one that matches choosing the tag. */
  function RenderPreloadLink(file: string): string
  {
    var k := SuffixIndexFrom(file, 0);
    if k < |AssetSuffixes| then TagOpen[k] + file + TagClose[k] else ""
  }

  lemma {:induction false} SuffixIndexSkips(file: string, i: nat, k: nat)
    requires i <= k <= |AssetSuffixes|
    requires forall n :: i <= n < k ==> !EndsWith(file, AssetSuffixes[n])
    ensures SuffixIndexFrom(file, i) == SuffixIndexFrom(file, k)
    decreases k - i
  {
    if i < k {
      SuffixIndexSkips(file, i + 1, k);
    }
  }

  /** The tag of a path is chosen by the one known suffix it ends with. */
  lemma TagBySuffix(file: string, k: nat)
    requires k < |AssetSuffixes| && EndsWith(file, AssetSuffixes[k])
    ensures RenderPreloadLink(file) == TagOpen[k] + file + TagClose[k]
  {
    SuffixesExclusive(file);
    SuffixIndexSkips(file, 0, k);
  }

  /** The path ends with one of the suffixes `renderPreloadLink` knows. */
  predicate IsKnownAsset(file: string)
  {
    exists suffix :: suffix in AssetSuffixes && EndsWith(file, suffix)
  }

  /** A script gets a cross-origin module preload, a stylesheet a
      stylesheet link. */
  lemma ScriptAndStyleTags(file: string)
    ensures EndsWith(file, ScriptSuffix) ==>
      RenderPreloadLink(file) == "<link rel=\"modulepreload\" crossorigin href=\"" + file + "\">"
    ensures EndsWith(file, StyleSuffix) ==>
      RenderPreloadLink(file) == "<link rel=\"stylesheet\" href=\"" + file + "\">"
  {
    if EndsWith(file, ScriptSuffix) { TagBySuffix(file, 0); }
    if EndsWith(file, StyleSuffix) { TagBySuffix(file, 1); }
  }

  /** Fonts get a cross-origin preload as a font with their MIME type. */
  lemma FontTags(file: string)
    ensures EndsWith(file, WoffSuffix) ==>
      RenderPreloadLink(file) == " <link rel=\"preload\" href=\"" + file + "\" as=\"font\" type=\"font/woff\" crossorigin>"
    ensures EndsWith(file, Woff2Suffix) ==>
      RenderPreloadLink(file) == " <link rel=\"preload\" href=\"" + file + "\" as=\"font\" type=\"font/woff2\" crossorigin>"
  {
    if EndsWith(file, WoffSuffix) {
      TagBySuffix(file, 2);
      assert TagOpen[2] == PreloadOpen;
      assert TagClose[2] == "\" as=\"font\" type=\"font/woff\" crossorigin>";
      SuffixesExclusive(file);
      assert !EndsWith(file, AssetSuffixes[3]);
    } else if EndsWith(file, Woff2Suffix) {
      TagBySuffix(file, 3);
      assert TagOpen[3] == PreloadOpen;
      assert TagClose[3] == "\" as=\"font\" type=\"font/woff2\" crossorigin>";
    }
  }

  /** Images get a preload as an image with their MIME type; `.jpg` and
      `.jpeg` share `image/jpeg`. */
  lemma ImageTags(file: string)
    ensures EndsWith(file, GifSuffix) ==>
      RenderPreloadLink(file) == " <link rel=\"preload\" href=\"" + file + "\" as=\"image\" type=\"image/gif\">"
    ensures EndsWith(file, JpgSuffix) || EndsWith(file, JpegSuffix) ==>
      RenderPreloadLink(file) == " <link rel=\"preload\" href=\"" + file + "\" as=\"image\" type=\"image/jpeg\">"
    ensures EndsWith(file, PngSuffix) ==>
      RenderPreloadLink(file) == " <link rel=\"preload\" href=\"" + file + "\" as=\"image\" type=\"image/png\">"
  {
    if EndsWith(file, GifSuffix) { TagBySuffix(file, 4); }
    if EndsWith(file, JpgSuffix) { TagBySuffix(file, 5); }
    if EndsWith(file, JpegSuffix) { TagBySuffix(file, 6); }
    if EndsWith(file, PngSuffix) { TagBySuffix(file, 7); }
  }

  /** The search finds a suffix exactly when the path ends with one. */
  lemma {:induction false} SuffixIndexFinds(file: string, i: nat)
    requires i <= |AssetSuffixes|
    ensures SuffixIndexFrom(file, i) < |AssetSuffixes| ==> EndsWith(file, AssetSuffixes[SuffixIndexFrom(file, i)])
    ensures SuffixIndexFrom(file, i) == |AssetSuffixes| ==>
      forall n :: i <= n < |AssetSuffixes| ==> !EndsWith(file, AssetSuffixes[n])
    decreases |AssetSuffixes| - i
  {
    if i < |AssetSuffixes| && !EndsWith(file, AssetSuffixes[i]) {
      SuffixIndexFinds(file, i + 1);
    }
  }

  /** A path gets a tag exactly when it ends with a known suffix; any
      other path contributes the empty string. */
  lemma UnknownSuffixNoTag(file: string)
    ensures RenderPreloadLink(file) == "" <==> !IsKnownAsset(file)
  {
    var k := SuffixIndexFrom(file, 0);
    SuffixIndexFinds(file, 0);
    if k < |AssetSuffixes| {
      assert |TagOpen[k]| > 0;
      assert AssetSuffixes[k] in AssetSuffixes;
    }
  }

  // ---------------------------------------------------------------------
  // renderPreloadLinks, specified as the sequence of tags it emits

  /** One emitted tag: a file of a rendered module, or a dependency listed
      under the base name of the file `dependent`. */
  datatype Emission = Primary(file: string) | Dependency(file: string, dependent: string)

  /** The walk's state: the tags emitted so far and the `seen` set. */
  datatype Walk = Walk(emitted: seq<Emission>, seen: set<string>)

  const Start := Walk([], {})

  /** The files listed under the base name of `file`, if it is a key. */
  function Deps(manifest: Manifest, file: string): seq<string>
  {
    var name := Basename(file);
    if name in manifest then manifest[name] else []
  }

  function DepEmissions(deps: seq<string>, file: string): (es: seq<Emission>)
    ensures |es| == |deps|
    ensures forall k :: 0 <= k < |deps| ==> es[k] == Dependency(deps[k], file)
  {
    if |deps| == 0 then []
    else DepEmissions(deps[..|deps| - 1], file) + [Dependency(deps[|deps| - 1], file)]
  }

  function Elems(s: seq<string>): set<string>
  {
    set x | x in s
  }

  lemma DepPrefixSnoc(deps: seq<string>, k: nat, file: string)
    requires k < |deps|
    ensures DepEmissions(deps[..k + 1], file) == DepEmissions(deps[..k], file) + [Dependency(deps[k], file)]
    ensures Elems(deps[..k + 1]) == Elems(deps[..k]) + {deps[k]}
  {
    assert deps[..k + 1][..k] == deps[..k];
    assert deps[..k + 1] == deps[..k] + [deps[k]];
  }

  /** One file of a rendered module: skipped when seen; otherwise marked
      seen, then its dependencies are emitted (each marked seen after its
      tag, none checked against `seen`), then the file itself. */
  function VisitFile(manifest: Manifest, w: Walk, file: string): Walk
  {
    if file in w.seen then w
    else
      var deps := Deps(manifest, file);
      Walk(w.emitted + DepEmissions(deps, file) + [Primary(file)], w.seen + {file} + Elems(deps))
  }

  function VisitFiles(manifest: Manifest, w: Walk, files: seq<string>): Walk
  {
    if |files| == 0 then w
    else VisitFile(manifest, VisitFiles(manifest, w, files[..|files| - 1]), files[|files| - 1])
  }

  /** A module id missing from the manifest is skipped. */
  function VisitModule(manifest: Manifest, w: Walk, id: string): Walk
  {
    if id in manifest then VisitFiles(manifest, w, manifest[id]) else w
  }

  function VisitModules(manifest: Manifest, w: Walk, modules: seq<string>): Walk
  {
    if |modules| == 0 then w
    else VisitModule(manifest, VisitModules(manifest, w, modules[..|modules| - 1]), modules[|modules| - 1])
  }

  function Emissions(modules: seq<string>, manifest: Manifest): seq<Emission>
  {
    VisitModules(manifest, Start, modules).emitted
  }

  /** The concatenation of `tag` over the files of `es`, in order. */
  function Concat(es: seq<Emission>, tag: string -> string): string
  {
    if |es| == 0 then ""
    else Concat(es[..|es| - 1], tag) + tag(es[|es| - 1].file)
  }

  lemma {:induction false} ConcatAppend(a: seq<Emission>, b: seq<Emission>, tag: string -> string)
    ensures Concat(a + b, tag) == Concat(a, tag) + Concat(b, tag)
    decreases |b|
  {
    if |b| == 0 {
      assert a + b == a;
    } else {
      var ab := a + b;
      assert ab[..|ab| - 1] == a + b[..|b| - 1];
      assert ab[|ab| - 1] == b[|b| - 1];
      ConcatAppend(a, b[..|b| - 1], tag);
    }
  }

  /** The concatenated tags of a sequence of emissions. */
  function Tags(es: seq<Emission>): string
  {
    Concat(es, RenderPreloadLink)
  }

  lemma TagsAppend(a: seq<Emission>, b: seq<Emission>)
    ensures Tags(a + b) == Tags(a) + Tags(b)
  {
    ConcatAppend(a, b, RenderPreloadLink);
  }

  lemma TagsSnoc(es: seq<Emission>, e: Emission)
    ensures Tags(es + [e]) == Tags(es) + RenderPreloadLink(e.file)
  {
    assert (es + [e])[..|es|] == es;
  }

  /** The string `renderPreloadLinks(modules, manifest)` returns. */
  function PreloadLinks(modules: seq<string>, manifest: Manifest): string
  {
    Tags(Emissions(modules, manifest))
  }

  /** The loop `for (const depFile of manifest[filename])`: each
      dependency's tag is appended and the dependency marked seen, with no
      test against `seen`. */
  method EmitDependencies(ghost prefix: seq<Emission>, deps: seq<string>, file: string,
                          links0: string, seen0: set<string>)
    returns (links: string, seen: set<string>)
    requires links0 == Tags(prefix)
    ensures links == Tags(prefix + DepEmissions(deps, file))
    ensures seen == seen0 + Elems(deps)
  {
    links, seen := links0, seen0;
    assert prefix + DepEmissions(deps[..0], file) == prefix;
    var k := 0;
    while k < |deps|
      invariant 0 <= k <= |deps|
      invariant seen == seen0 + Elems(deps[..k])
      invariant links == Tags(prefix + DepEmissions(deps[..k], file))
    {
      var depFile := deps[k];
      assert links + RenderPreloadLink(depFile) == Tags(prefix + DepEmissions(deps[..k + 1], file))
          && seen + {depFile} == seen0 + Elems(deps[..k + 1]) by {
        DepPrefixSnoc(deps, k, file);
        TagsSnoc(prefix + DepEmissions(deps[..k], file), Dependency(depFile, file));
        assert prefix + DepEmissions(deps[..k + 1], file)
            == prefix + DepEmissions(deps[..k], file) + [Dependency(depFile, file)];
      }
      links := links + RenderPreloadLink(depFile);
      seen := seen + {depFile};
      k := k + 1;
    }
    assert deps[..|deps|] == deps;
  }

  /** The body of the callback `renderPreloadLinks` runs for each file of
      a module: given the `links` and `seen` of the walk so far, it returns
      them after that file. */
  method VisitFileStep(manifest: Manifest, ghost w: Walk, file: string, links0: string, seen0: set<string>)
    returns (links: string, seen: set<string>)
    requires links0 == Tags(w.emitted) && seen0 == w.seen
    ensures links == Tags(VisitFile(manifest, w, file).emitted)
    ensures seen == VisitFile(manifest, w, file).seen
  {
    links, seen := links0, seen0;
    if file !in seen {
      seen := seen + {file};
      var filename := Basename(file);
      ghost var withDeps := w.emitted + DepEmissions(Deps(manifest, file), file);
      if filename in manifest {
        links, seen := EmitDependencies(w.emitted, manifest[filename], file, links, seen);
      } else {
        assert withDeps == w.emitted;
      }
      TagsSnoc(withDeps, Primary(file));
      links := links + RenderPreloadLink(file);
    }
  }

  lemma VisitFilesSnoc(manifest: Manifest, w: Walk, files: seq<string>, j: nat)
    requires j < |files|
    ensures VisitFiles(manifest, w, files[..j + 1]) == VisitFile(manifest, VisitFiles(manifest, w, files[..j]), files[j])
  {
    assert files[..j + 1][..j] == files[..j];
  }

  /** The callback `renderPreloadLinks` runs for each module id: nothing
      for an id missing from the manifest, else the loop over its files. */
  method VisitModuleStep(manifest: Manifest, ghost w: Walk, id: string, links0: string, seen0: set<string>)
    returns (links: string, seen: set<string>)
    requires links0 == Tags(w.emitted) && seen0 == w.seen
    ensures links == Tags(VisitModule(manifest, w, id).emitted)
    ensures seen == VisitModule(manifest, w, id).seen
  {
    links, seen := links0, seen0;
    if id in manifest {
      var files := manifest[id];
      assert VisitFiles(manifest, w, files[..0]) == w;
      var j := 0;
      while j < |files|
        invariant 0 <= j <= |files|
        invariant seen == VisitFiles(manifest, w, files[..j]).seen
        invariant links == Tags(VisitFiles(manifest, w, files[..j]).emitted)
      {
        VisitFilesSnoc(manifest, w, files, j);
        links, seen := VisitFileStep(manifest, VisitFiles(manifest, w, files[..j]), files[j], links, seen);
        j := j + 1;
      }
      assert files[..|files|] == files;
    }
  }

  /** `renderPreloadLinks`: the loop over the modules in order, each one's
      files in list order. */
  method RenderPreloadLinks(modules: seq<string>, manifest: Manifest) returns (links: string)
    ensures links == PreloadLinks(modules, manifest)
  {
    links := "";
    var seen: set<string> := {};
    var i := 0;
    while i < |modules|
      invariant 0 <= i <= |modules|
      invariant seen == VisitModules(manifest, Start, modules[..i]).seen
      invariant links == Tags(VisitModules(manifest, Start, modules[..i]).emitted)
    {
      assert modules[..i + 1][..i] == modules[..i];
      links, seen := VisitModuleStep(manifest, VisitModules(manifest, Start, modules[..i]), modules[i], links, seen);
      i := i + 1;
    }
    assert modules[..|modules|] == modules;
  }

  /** The output contract of `render`: the rendered HTML, and the preload
      links of the modules that render instantiated. A throw from the
      application propagates. */
  method Render(app: App, url: string, manifest: Manifest) returns (r: Result<(string, string), Exception>)
    ensures r.Success? <==> app(url).Success?
    ensures r.Success? ==>
      r.value == (app(url).value.html, PreloadLinks(app(url).value.modules, manifest))
    ensures r.Failure? ==> r.error == app(url).error
  {
    var rendered := app(url);
    if rendered.Failure? {
      return Failure(rendered.error);
    }
    var preloadLinks := RenderPreloadLinks(rendered.value.modules, manifest);
    return Success((rendered.value.html, preloadLinks));
  }

  // ---------------------------------------------------------------------
  // Properties of the walk

  /** The files whose tags were emitted. */
  function Files(es: seq<Emission>): set<string>
  {
    set e | e in es :: e.file
  }

  /** `seen` holds exactly the files whose tags were emitted. */
  predicate SeenIsEmitted(w: Walk)
  {
    w.seen == Files(w.emitted)
  }

  /** Every primary tag is immediately preceded by the tags of the files
      listed under its base name, in manifest order. */
  predicate DepsPrecede(manifest: Manifest, es: seq<Emission>)
  {
    forall j :: 0 <= j < |es| && es[j].Primary? ==>
      |Deps(manifest, es[j].file)| <= j &&
      es[j - |Deps(manifest, es[j].file)|..j] == DepEmissions(Deps(manifest, es[j].file), es[j].file)
  }

  /** No file is tagged before its primary tag, except as a dependency of
      itself; in particular every file has at most one primary tag. */
  predicate PrimaryFirst(es: seq<Emission>)
  {
    forall i, j :: 0 <= i < j < |es| && es[j].Primary? && es[i].file == es[j].file ==>
      es[i] == Dependency(es[j].file, es[j].file)
  }

  predicate WellFormed(manifest: Manifest, w: Walk)
  {
    SeenIsEmitted(w) && DepsPrecede(manifest, w.emitted) && PrimaryFirst(w.emitted)
  }

  lemma FilesAppend(a: seq<Emission>, b: seq<Emission>)
    ensures Files(a + b) == Files(a) + Files(b)
  {
    forall x | x in Files(a + b) ensures x in Files(a) + Files(b) {
      var e :| e in a + b && e.file == x;
    }
    forall x | x in Files(a) + Files(b) ensures x in Files(a + b) {
      if x in Files(a) {
        var e :| e in a && e.file == x;
        assert e in a + b;
      } else {
        var e :| e in b && e.file == x;
        assert e in a + b;
      }
    }
  }

  lemma FilesOfDeps(deps: seq<string>, file: string)
    ensures Files(DepEmissions(deps, file)) == Elems(deps)
  {
    var es := DepEmissions(deps, file);
    forall x | x in Files(es) ensures x in Elems(deps) {
      var e :| e in es && e.file == x;
      var k :| 0 <= k < |es| && es[k] == e;
    }
    forall x | x in Elems(deps) ensures x in Files(es) {
      var k :| 0 <= k < |deps| && deps[k] == x;
      assert es[k] in es;
    }
  }

  lemma DepsPrecedeVisit(manifest: Manifest, es: seq<Emission>, file: string)
    requires DepsPrecede(manifest, es)
    ensures DepsPrecede(manifest, es + DepEmissions(Deps(manifest, file), file) + [Primary(file)])
  {
    var deps := Deps(manifest, file);
    var es' := es + DepEmissions(deps, file) + [Primary(file)];
    forall j | 0 <= j < |es'| && es'[j].Primary?
      ensures |Deps(manifest, es'[j].file)| <= j
      ensures es'[j - |Deps(manifest, es'[j].file)|..j] == DepEmissions(Deps(manifest, es'[j].file), es'[j].file)
    {
      if j < |es| {
        assert es'[j] == es[j];
        var n := |Deps(manifest, es[j].file)|;
        assert es'[j - n..j] == es[j - n..j];
      } else if j == |es'| - 1 {
        assert es'[j - |deps|..j] == DepEmissions(deps, file);
      }
    }
  }

  lemma PrimaryFirstVisit(manifest: Manifest, es: seq<Emission>, file: string)
    requires PrimaryFirst(es) && file !in Files(es)
    ensures PrimaryFirst(es + DepEmissions(Deps(manifest, file), file) + [Primary(file)])
  {
    var deps := Deps(manifest, file);
    var es' := es + DepEmissions(deps, file) + [Primary(file)];
    forall i, j | 0 <= i < j < |es'| && es'[j].Primary? && es'[i].file == es'[j].file
      ensures es'[i] == Dependency(es'[j].file, es'[j].file)
    {
      if j < |es| {
        assert es'[i] == es[i] && es'[j] == es[j];
      } else if j == |es'| - 1 && |es| <= i {
        assert es'[i] == Dependency(deps[i - |es|], file);
      }
    }
  }

  lemma VisitFileWellFormed(manifest: Manifest, w: Walk, file: string)
    requires WellFormed(manifest, w)
    ensures WellFormed(manifest, VisitFile(manifest, w, file))
  {
    if file !in w.seen {
      var deps := Deps(manifest, file);
      var des := DepEmissions(deps, file);
      FilesAppend(w.emitted, des);
      FilesAppend(w.emitted + des, [Primary(file)]);
      FilesOfDeps(deps, file);
      assert Files([Primary(file)]) == {file};
      DepsPrecedeVisit(manifest, w.emitted, file);
      PrimaryFirstVisit(manifest, w.emitted, file);
    }
  }

  lemma {:induction false} VisitFilesWellFormed(manifest: Manifest, w: Walk, files: seq<string>)
    requires WellFormed(manifest, w)
    ensures WellFormed(manifest, VisitFiles(manifest, w, files))
  {
    if |files| > 0 {
      VisitFilesWellFormed(manifest, w, files[..|files| - 1]);
      VisitFileWellFormed(manifest, VisitFiles(manifest, w, files[..|files| - 1]), files[|files| - 1]);
    }
  }

  lemma {:induction false} VisitModulesWellFormed(manifest: Manifest, w: Walk, modules: seq<string>)
    requires WellFormed(manifest, w)
    ensures WellFormed(manifest, VisitModules(manifest, w, modules))
  {
    if |modules| > 0 {
      var before := VisitModules(manifest, w, modules[..|modules| - 1]);
      VisitModulesWellFormed(manifest, w, modules[..|modules| - 1]);
      var id := modules[|modules| - 1];
      if id in manifest {
        VisitFilesWellFormed(manifest, before, manifest[id]);
      }
    }
  }

  /** The shape of what `renderPreloadLinks` emits: `seen` ends up holding
      exactly the emitted files; the dependencies of a file come right
      before its own tag; and a file's primary tag comes before any other
      tag of it, except a dependency of itself. */
  lemma EmissionsShape(modules: seq<string>, manifest: Manifest)
    ensures VisitModules(manifest, Start, modules).seen == Files(Emissions(modules, manifest))
    ensures DepsPrecede(manifest, Emissions(modules, manifest))
    ensures PrimaryFirst(Emissions(modules, manifest))
  {
    assert Files([]) == {};
    VisitModulesWellFormed(manifest, Start, modules);
  }

  /** A file tagged earlier, whether as a primary file or as a dependency,
      is skipped when it comes up again as a module's file. */
  lemma TaggedFileSkipped(modules: seq<string>, manifest: Manifest, file: string)
    requires file in Files(Emissions(modules, manifest))
    ensures VisitFile(manifest, VisitModules(manifest, Start, modules), file) == VisitModules(manifest, Start, modules)
  {
    EmissionsShape(modules, manifest);
  }

  lemma {:induction false} VisitFilesAppend(manifest: Manifest, w: Walk, a: seq<string>, b: seq<string>)
    ensures VisitFiles(manifest, w, a + b) == VisitFiles(manifest, VisitFiles(manifest, w, a), b)
    decreases |b|
  {
    if |b| == 0 {
      assert a + b == a;
    } else {
      assert (a + b)[..|a + b| - 1] == a + b[..|b| - 1];
      VisitFilesAppend(manifest, w, a, b[..|b| - 1]);
    }
  }

  /** The walk over a list of modules is the walk over its first part
      continued with the rest. */
  lemma {:induction false} VisitModulesAppend(manifest: Manifest, w: Walk, a: seq<string>, b: seq<string>)
    ensures VisitModules(manifest, w, a + b) == VisitModules(manifest, VisitModules(manifest, w, a), b)
    decreases |b|
  {
    if |b| == 0 {
      assert a + b == a;
    } else {
      assert (a + b)[..|a + b| - 1] == a + b[..|b| - 1];
      VisitModulesAppend(manifest, w, a, b[..|b| - 1]);
    }
  }

  /** The walk only appends to what was emitted and only adds to `seen`;
      every file of a module's list ends up in `seen`. */
  lemma {:induction false} VisitFilesGrows(manifest: Manifest, w: Walk, files: seq<string>)
    ensures w.emitted <= VisitFiles(manifest, w, files).emitted
    ensures w.seen + Elems(files) <= VisitFiles(manifest, w, files).seen
  {
    if |files| > 0 {
      VisitFilesGrows(manifest, w, files[..|files| - 1]);
    }
  }

  lemma {:induction false} VisitModulesGrows(manifest: Manifest, w: Walk, modules: seq<string>)
    ensures w.emitted <= VisitModules(manifest, w, modules).emitted
    ensures w.seen <= VisitModules(manifest, w, modules).seen
    ensures forall k :: 0 <= k < |modules| && modules[k] in manifest ==>
      Elems(manifest[modules[k]]) <= VisitModules(manifest, w, modules).seen
  {
    if |modules| > 0 {
      var init := modules[..|modules| - 1];
      var id := modules[|modules| - 1];
      var before := VisitModules(manifest, w, init);
      VisitModulesGrows(manifest, w, init);
      if id in manifest {
        VisitFilesGrows(manifest, before, manifest[id]);
      }
      forall k | 0 <= k < |modules| && modules[k] in manifest
        ensures Elems(manifest[modules[k]]) <= VisitModules(manifest, w, modules).seen
      {
        if k < |modules| - 1 {
          assert modules[k] == init[k];
        }
      }
    }
  }

  /** Every file listed under a rendered module present in the manifest
      gets a tag. */
  lemma EveryListedFileTagged(modules: seq<string>, manifest: Manifest)
    ensures forall k :: 0 <= k < |modules| && modules[k] in manifest ==>
      Elems(manifest[modules[k]]) <= Files(Emissions(modules, manifest))
  {
    VisitModulesGrows(manifest, Start, modules);
    EmissionsShape(modules, manifest);
  }

  /** The output for a list of modules begins with the output for any
      prefix of it: modules contribute in input order. */
  lemma OutputInModuleOrder(a: seq<string>, b: seq<string>, manifest: Manifest)
    ensures Emissions(a, manifest) <= Emissions(a + b, manifest)
    ensures PreloadLinks(a, manifest) <= PreloadLinks(a + b, manifest)
  {
    VisitModulesAppend(manifest, Start, a, b);
    var w := VisitModules(manifest, Start, a);
    VisitModulesGrows(manifest, w, b);
    var all := Emissions(a + b, manifest);
    assert all == w.emitted + all[|w.emitted|..];
    TagsAppend(w.emitted, all[|w.emitted|..]);
  }

  /** A module id missing from the manifest contributes nothing, wherever
      it stands, and the modules after it are processed as usual. */
  lemma AbsentModuleSkipped(pre: seq<string>, id: string, post: seq<string>, manifest: Manifest)
    requires id !in manifest
    ensures Emissions(pre + [id] + post, manifest) == Emissions(pre + post, manifest)
    ensures PreloadLinks(pre + [id] + post, manifest) == PreloadLinks(pre + post, manifest)
  {
    VisitModulesAppend(manifest, Start, pre + [id], post);
    VisitModulesAppend(manifest, Start, pre, post);
    assert (pre + [id])[..|pre|] == pre;
  }

  lemma {:induction false} NoPresentModulesWalk(manifest: Manifest, modules: seq<string>)
    requires forall k :: 0 <= k < |modules| ==> modules[k] !in manifest
    ensures VisitModules(manifest, Start, modules) == Start
  {
    if |modules| > 0 {
      NoPresentModulesWalk(manifest, modules[..|modules| - 1]);
    }
  }

  /** With no modules, or none of them in the manifest, the result is the
      empty string. */
  lemma NoPresentModules(modules: seq<string>, manifest: Manifest)
    requires forall k :: 0 <= k < |modules| ==> modules[k] !in manifest
    ensures PreloadLinks(modules, manifest) == ""
  {
    NoPresentModulesWalk(manifest, modules);
  }

  /** With the empty manifest of development mode nothing is emitted. */
  lemma EmptyManifestNoLinks(modules: seq<string>)
    ensures PreloadLinks(modules, map[]) == ""
  {
    NoPresentModules(modules, map[]);
  }

  /** A tag of a path with an unknown suffix adds nothing to the output
      and the tags after it follow as usual. */
  lemma UnknownFileAddsNothing(pre: seq<Emission>, e: Emission, post: seq<Emission>)
    requires !IsKnownAsset(e.file)
    ensures Tags(pre + [e] + post) == Tags(pre) + Tags(post)
  {
    UnknownSuffixNoTag(e.file);
    TagsAppend(pre + [e], post);
    TagsSnoc(pre, e);
  }

  // ---------------------------------------------------------------------
  // Examples

  /** The walk over one module with two files, step by step. */
  lemma WalkTwoFiles(manifest: Manifest, id: string, f1: string, f2: string)
    requires id in manifest && manifest[id] == [f1, f2]
    ensures Emissions([id], manifest)
      == VisitFile(manifest, VisitFile(manifest, Start, f1), f2).emitted
  {
    assert [id][..0] == [];
    assert [f1, f2][..1] == [f1];
    assert [f1][..0] == [];
    assert VisitFiles(manifest, Start, [f1]) == VisitFile(manifest, Start, f1);
    assert VisitModules(manifest, Start, [id]) == VisitFiles(manifest, Start, [f1, f2]);
  }

  /** Visiting a new file without a manifest entry of its own tags it. */
  lemma VisitPlainFile(manifest: Manifest, w: Walk, file: string)
    requires file !in w.seen && Basename(file) !in manifest
    ensures VisitFile(manifest, w, file) == Walk(w.emitted + [Primary(file)], w.seen + {file})
  {
    var deps := Deps(manifest, file);
    assert deps == [];
    assert DepEmissions(deps, file) == [];
    assert Elems(deps) == {};
    assert w.emitted + [] + [Primary(file)] == w.emitted + [Primary(file)];
    assert w.seen + {file} + {} == w.seen + {file};
  }

  /** Visiting a new file whose base name lists one dependency tags the
      dependency, then the file. */
  lemma VisitFileWithDep(manifest: Manifest, w: Walk, file: string, dep: string)
    requires file !in w.seen && Basename(file) in manifest && manifest[Basename(file)] == [dep]
    ensures VisitFile(manifest, w, file) == Walk(w.emitted + [Dependency(dep, file), Primary(file)], w.seen + {file, dep})
  {
    assert DepEmissions([dep], file) == [Dependency(dep, file)] by {
      assert [dep][..0] == [];
    }
    assert Elems([dep]) == {dep};
    assert w.emitted + [Dependency(dep, file)] + [Primary(file)] == w.emitted + [Dependency(dep, file), Primary(file)];
  }

  lemma ConcatOfTwo(e1: Emission, e2: Emission, tag: string -> string)
    ensures Concat([e1, e2], tag) == tag(e1.file) + tag(e2.file)
  {
    assert [e1, e2][..1] == [e1];
    assert [e1][..0] == [];
    assert Concat([e1], tag) == "" + tag(e1.file) == tag(e1.file);
  }

  /** The tags of two emissions. */
  lemma TagsOfTwo(e1: Emission, e2: Emission)
    ensures Tags([e1, e2]) == RenderPreloadLink(e1.file) + RenderPreloadLink(e2.file)
  {
    ConcatOfTwo(e1, e2, RenderPreloadLink);
  }

  /** Two files of one module without manifest entries of their own are
      tagged in list order. */
  lemma TwoPlainFiles(manifest: Manifest, id: string, f1: string, f2: string)
    requires id in manifest && manifest[id] == [f1, f2] && f1 != f2
    requires Basename(f1) !in manifest && Basename(f2) !in manifest
    ensures Emissions([id], manifest) == [Primary(f1), Primary(f2)]
    ensures PreloadLinks([id], manifest) == RenderPreloadLink(f1) + RenderPreloadLink(f2)
  {
    WalkTwoFiles(manifest, id, f1, f2);
    VisitPlainFile(manifest, Start, f1);
    VisitPlainFile(manifest, VisitFile(manifest, Start, f1), f2);
    TagsOfTwo(Primary(f1), Primary(f2));
  }

  /** A module listing a script and a stylesheet, neither with a manifest
      entry of its own, gets a module preload and a stylesheet link, in
      list order. */
  lemma ScriptThenStylesheet(manifest: Manifest, id: string, script: string, sheet: string)
    requires id in manifest && manifest[id] == [script, sheet]
    requires EndsWith(script, ScriptSuffix) && EndsWith(sheet, StyleSuffix)
    requires Basename(script) !in manifest && Basename(sheet) !in manifest
    ensures PreloadLinks([id], manifest)
      == ("<link rel=\"modulepreload\" crossorigin href=\"" + script + "\">")
       + ("<link rel=\"stylesheet\" href=\"" + sheet + "\">")
  {
    assert PreloadLinks([id], manifest) == RenderPreloadLink(script) + RenderPreloadLink(sheet) by {
      SuffixesExclusive(script);
      assert !(EndsWith(script, AssetSuffixes[0]) && EndsWith(script, AssetSuffixes[1]));
      TwoPlainFiles(manifest, id, script, sheet);
    }
    ScriptAndStyleTags(script);
    ScriptAndStyleTags(sheet);
  }

  /** A file listed under its own base name is tagged twice: once as its
      own dependency and once as itself. */
  lemma SelfDependencyTaggedTwice(manifest: Manifest, id: string, file: string)
    requires id in manifest && manifest[id] == [file]
    requires Basename(file) in manifest && manifest[Basename(file)] == [file]
    ensures Emissions([id], manifest) == [Dependency(file, file), Primary(file)]
    ensures PreloadLinks([id], manifest) == RenderPreloadLink(file) + RenderPreloadLink(file)
  {
    assert [id][..0] == [] && [file][..0] == [];
    assert VisitModules(manifest, Start, [id]) == VisitFiles(manifest, Start, [file]);
    assert VisitFiles(manifest, Start, [file]) == VisitFile(manifest, Start, file);
    VisitFileWithDep(manifest, Start, file, file);
    TagsOfTwo(Dependency(file, file), Primary(file));
  }

  /** Dependencies are not checked against `seen`: a dependency shared by
      two files is tagged before each of them. */
  lemma SharedDependencyRepeated(manifest: Manifest, id: string, a: string, b: string, dep: string)
    requires id in manifest && manifest[id] == [a, b] && b != a && b != dep
    requires Basename(a) in manifest && manifest[Basename(a)] == [dep]
    requires Basename(b) in manifest && manifest[Basename(b)] == [dep]
    ensures Emissions([id], manifest) == [Dependency(dep, a), Primary(a), Dependency(dep, b), Primary(b)]
  {
    WalkTwoFiles(manifest, id, a, b);
    VisitFileWithDep(manifest, Start, a, dep);
    VisitFileWithDep(manifest, VisitFile(manifest, Start, a), b, dep);
  }

  /** A file tagged as a dependency is not tagged again when it comes up
      as a module's file. */
  lemma DependencySuppressesLaterFile(manifest: Manifest, id: string, a: string, dep: string)
    requires id in manifest && manifest[id] == [a, dep]
    requires Basename(a) in manifest && manifest[Basename(a)] == [dep]
    ensures Emissions([id], manifest) == [Dependency(dep, a), Primary(a)]
  {
    WalkTwoFiles(manifest, id, a, dep);
    VisitFileWithDep(manifest, Start, a, dep);
  }
}
