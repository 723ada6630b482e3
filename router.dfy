/** The route table of `src/router.js`: every key `./pages/X.vue` of the
    page glob becomes a route whose path is the lower-cased text between
    `./pages` and `.vue`, `/home` standing for `/`. */
module Router {
  import opened Wrappers
  import opened Text

  /** A route: its path and the component stored under its glob key. */
  datatype Route<C> = Route(path: string, component: C)

  const PagesPrefix := "./pages"
  const VueSuffix := ".vue"
  const HomePath := "/home"
  const RootPath := "/"

  /** The characters JavaScript's `.` does not match: LF, CR, LINE
      SEPARATOR and PARAGRAPH SEPARATOR. */
  predicate IsLineTerminator(c: char)
  {
    c == '\n' || c == '\r' || c == '\U{2028}' || c == '\U{2029}'
  }

  predicate NoLineTerminators(s: string)
  {
    forall i :: 0 <= i < |s| ==> !IsLineTerminator(s[i])
  }

  /** `/\.\/pages(.*)\.vue$/` matches `key` starting at `p`: `./pages` at
      `p`, then characters other than line terminators, then `.vue` at the
      end of the key. */
  predicate MatchesAt(key: string, p: nat)
  {
    && OccursAt(key, PagesPrefix, p)
    && p + |PagesPrefix| + |VueSuffix| <= |key|
    && EndsWith(key, VueSuffix)
    && NoLineTerminators(key[p + |PagesPrefix|..|key| - |VueSuffix|])
  }

  /** The leftmost start at or after `from` where the pattern matches. */
  function MatchFrom(key: string, from: nat): (r: Option<nat>)
    ensures r.Some? ==> from <= r.value && MatchesAt(key, r.value)
    ensures r.Some? ==> forall p :: from <= p < r.value ==> !MatchesAt(key, p)
    ensures r.None? ==> forall p :: from <= p ==> !MatchesAt(key, p)
    decreases |key| - from
  {
    if from + |PagesPrefix| + |VueSuffix| > |key| then None
    else if MatchesAt(key, from) then Some(from)
    else MatchFrom(key, from + 1)
  }

  /** `key.match(/\.\/pages(.*)\.vue$/)[1]`: the first capture group of
      the leftmost match, or None when `match` returns null. */
  function Capture(key: string): Option<string>
  {
    match MatchFrom(key, 0)
    case None => None
    case Some(p) => Some(key[p + |PagesPrefix|..|key| - |VueSuffix|])
  }

  /** The path of the route for `key`, or None when the pattern does not
      match and reading `[1]` of null throws. */
  function RoutePath(key: string): (r: Option<string>)
    ensures r.Some? <==> Capture(key).Some?
    ensures r.Some? ==> IsLowerCase(r.value)
    ensures r.Some? ==> r.value == RootPath || r.value == ToLower(Capture(key).value)
    ensures r.Some? && r.value != RootPath ==> r.value != HomePath
    ensures r.Some? && ToLower(Capture(key).value) != HomePath ==> r.value == ToLower(Capture(key).value)
    ensures r.Some? && ToLower(Capture(key).value) == HomePath ==> r.value == RootPath
  {
    match Capture(key)
    case None => None
    case Some(c) =>
      var name := ToLower(c);
      Some(if name == HomePath then RootPath else name)
  }

  /** `Object.keys(pages).map(...)` over the glob's (key, component)
      pairs in key order; the first key that does not match stops the
      derivation with a failure naming it. */
  function Routes<C>(pages: seq<(string, C)>): (r: Result<seq<Route<C>>, string>)
    ensures r.Success? <==> forall i :: 0 <= i < |pages| ==> RoutePath(pages[i].0).Some?
    ensures r.Success? ==> |r.value| == |pages|
    ensures r.Success? ==> forall i :: 0 <= i < |pages| ==>
      r.value[i] == Route(RoutePath(pages[i].0).value, pages[i].1)
    ensures r.Success? ==> forall i :: 0 <= i < |r.value| ==> IsLowerCase(r.value[i].path)
    ensures r.Failure? ==>
      exists i :: 0 <= i < |pages| && r.error == pages[i].0 && RoutePath(pages[i].0).None? &&
        (forall j :: 0 <= j < i ==> RoutePath(pages[j].0).Some?)
  {
    if |pages| == 0 then Success([])
    else
      match RoutePath(pages[0].0)
      case None => Failure(pages[0].0)
      case Some(path) =>
        match Routes(pages[1..])
        case Failure(key) => Failure(key)
        case Success(rest) => Success([Route(path, pages[0].1)] + rest)
  }

  /** Without line terminators the pattern matches exactly when `./pages`
      occurs early enough and the key ends with `.vue`, and its capture
      starts right after the first occurrence of `./pages`. */
  lemma CaptureAtFirstOccurrence(key: string)
    requires NoLineTerminators(key)
    ensures Capture(key) ==
      match IndexOf(key, PagesPrefix)
      case None => None
      case Some(p) =>
        if p + |PagesPrefix| + |VueSuffix| <= |key| && EndsWith(key, VueSuffix)
        then Some(key[p + |PagesPrefix|..|key| - |VueSuffix|])
        else None
  {
    match IndexOf(key, PagesPrefix)
    case None =>
    case Some(p) =>
      if p + |PagesPrefix| + |VueSuffix| <= |key| && EndsWith(key, VueSuffix) {
        assert MatchesAt(key, p);
      }
  }

  /** A key `./pages/X.vue` as the glob produces it, with no line
      terminator in X, routes to the lower-cased `/X`, or to `/` when that
      is `/home`. */
  lemma GlobKeyRoute(x: string)
    requires NoLineTerminators(x)
    ensures RoutePath(PagesPrefix + "/" + x + VueSuffix)
      == Some(if ToLower("/" + x) == HomePath then RootPath else ToLower("/" + x))
  {
    var key := PagesPrefix + "/" + x + VueSuffix;
    assert key[|key| - |VueSuffix|..] == VueSuffix;
    assert key[|PagesPrefix|..|key| - |VueSuffix|] == "/" + x;
    assert NoLineTerminators(key[|PagesPrefix|..|key| - |VueSuffix|]);
    assert MatchesAt(key, 0);
  }

  /** The pattern is not anchored at the start: a key with text before its
      first `./pages` routes by the capture after that occurrence. */
  lemma KeyRoute(pre: string, x: string)
    requires FirstOccurrenceAt(pre + PagesPrefix + x + VueSuffix, PagesPrefix, |pre|)
    requires NoLineTerminators(x)
    ensures RoutePath(pre + PagesPrefix + x + VueSuffix)
      == Some(if ToLower(x) == HomePath then RootPath else ToLower(x))
  {
    var key := pre + PagesPrefix + x + VueSuffix;
    var p := |pre|;
    assert key[|key| - |VueSuffix|..] == VueSuffix;
    assert key[p + |PagesPrefix|..|key| - |VueSuffix|] == x;
    assert MatchesAt(key, p);
    forall q | 0 <= q < p ensures !MatchesAt(key, q) {
      assert !OccursAt(key, PagesPrefix, q);
    }
    assert MatchFrom(key, 0) == Some(p);
  }

  /** `src/./pages/About.vue` also routes to `/about`. */
  lemma PrefixedAboutRoute()
    ensures RoutePath("src/./pages/About.vue") == Some("/about")
  {
    var key := "src/./pages/About.vue";
    assert key == "src/" + PagesPrefix + ("/" + "About") + VueSuffix;
    forall j | 0 <= j < 4 ensures !OccursAt(key, PagesPrefix, j) {
      assert key[j + 1] != PagesPrefix[1] || key[j] != PagesPrefix[0];
    }
    assert key[4..4 + |PagesPrefix|] == PagesPrefix;
    LowerCaseNames();
    KeyRoute("src/", "/" + "About");
  }

  /** `./pages/About.vue` is the route `/about`. */
  lemma AboutRoute()
    ensures RoutePath("./pages/About.vue") == Some("/about")
  {
    assert "./pages/About.vue" == PagesPrefix + "/" + "About" + VueSuffix;
    LowerCaseNames();
    GlobKeyRoute("About");
  }

  /** `Home.vue` is the root route, whatever the letter case of `Home`. */
  lemma HomeRoute()
    ensures RoutePath("./pages/Home.vue") == Some(RootPath)
  {
    assert "./pages/Home.vue" == PagesPrefix + "/" + "Home" + VueSuffix;
    LowerCaseNames();
    GlobKeyRoute("Home");
  }

  lemma UpperCaseHomeRoute()
    ensures RoutePath("./pages/HOME.vue") == Some(RootPath)
  {
    assert "./pages/HOME.vue" == PagesPrefix + "/" + "HOME" + VueSuffix;
    LowerCaseNames();
    GlobKeyRoute("HOME");
  }

  lemma LowerCaseNames()
    ensures ToLower("/" + "About") == "/about"
    ensures ToLower("/" + "Home") == HomePath
    ensures ToLower("/" + "HOME") == HomePath
  {
  }

  /** A key that is not a `.vue` file under `./pages` makes the whole
      derivation fail. */
  lemma NonPageKeyFails<C>(pre: seq<(string, C)>, key: string, component: C, post: seq<(string, C)>)
    requires !EndsWith(key, VueSuffix)
    ensures Routes(pre + [(key, component)] + post).Failure?
  {
    var pages := pre + [(key, component)] + post;
    assert pages[|pre|].0 == key;
    assert Capture(key).None?;
  }
}
