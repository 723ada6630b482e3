# vite-ssr-demo, modelled in Dafny

This project models the server-side rendering core of vite-ssr-demo, a Vue
application served by Express with Vite. It covers three pieces:

- **The preload-link generator of the server entry** (`src/entry-server.js`).
  - `renderPreloadLinks` walks the modules one render instantiated, in order, and looks each one up in the SSR manifest.
  - It skips files it has already seen.
  - Before a file's own tag, it emits the tags of the files listed under that file's base name.
  - `renderPreloadLink` turns one asset path into a `<link>` tag chosen by its suffix.
- **The route table of the router** (`src/router.js`).
  - Each glob key `./pages/X.vue` becomes a route.
  - Its path is the lower-cased capture of `/\.\/pages(.*)\.vue$/`, with `/home` standing for `/`.
- **The catch-all request handler of the server** (`server.js`).
  - It loads the configuration once at startup: an empty manifest and template in development.
  - It replaces the first `/test/` of the URL with `/`.
  - It obtains a template and a render function, and splices the preload links and the app HTML into the two placeholders.
  - It answers 200 with HTML, or 500 with the error's stack.

## Modules

- `wrappers.dfy`, module `Wrappers`: `Option`, `Result` and the thrown `Exception`, of which only `stack` is observable.
- `text.dfy`, module `Text`: the JavaScript and Node string operations the core uses.
  - `indexOf` and `endsWith`.
  - `String.prototype.replace` with a string pattern. Only the first occurrence is replaced, and the replacement text goes through the GetSubstitution operation of ECMA-262: `$$`, `$&`, `` $` `` and `$'` are expanded.
  - POSIX `path.basename` and ASCII `toLowerCase`.
- `entry_server.dfy`, module `EntryServer`: `renderPreloadLink` as a function.
  - `renderPreloadLinks` as an imperative method. Its loops carry the accumulated `links` string and the `seen` set.
  - The method is proved equal to a functional specification: the sequence of `Emission`s (primary file, or dependency of a file) that a `Walk` produces.
  - The `render` output contract.
- `router.dfy`, module `Router`: the regular expression's leftmost match and capture, `RoutePath` for one key, and `Routes` for the glob's (key, component) pairs.
- `server.dfy`, module `Server`: `createServer`'s configuration and the handler's pure steps.
  - `Respond` is the functional specification of a request.
  - `Handle` is the imperative handler over a `Response` class with the `status`/`set`/`end` mutators.

The dependency loop of `renderPreloadLinks` is modelled as written:

- In `renderPreloadLinks`, the dependency loop (`src/entry-server.js:41-44`) does not consult `seen`. It only adds each dependency to `seen` after emitting its tag.
- The file itself is marked seen before that loop (`src/entry-server.js:38`).
- So a dependency shared by two files is tagged twice, and a file listed under its own base name is tagged twice: once as its own dependency, once as itself.
- `SharedDependencyRepeated` and `SelfDependencyTaggedTwice` state this.

## Model

| member | source | states |
|---|---|---|
| Text.IndexOf | server.js:88 | the first occurrence of the pattern, or `None` (JavaScript's -1) when it occurs nowhere |
| Text.Replace | server.js:88 | a string with no occurrence of the pattern is returned unchanged |
| Text.ReplaceFirst | server.js:119-121 | when the pattern first occurs right after `pre` and the replacement has no `$`, exactly that occurrence is exchanged for the replacement and nothing else changes |
| Text.SubstituteLiteral | server.js:119-121 | a replacement string without `$` is inserted literally by GetSubstitution |
| Text.LastIndexOf | src/entry-server.js:39 | the index of the last occurrence of the character, and no occurrence after it; `None` exactly when the character is absent |
| Text.BasenameIsLastComponent | src/entry-server.js:39 | `basename(file)` is a suffix of the path holding no `/`, preceded by a `/` unless it is the whole path |
| Text.BasenameOfName | src/entry-server.js:39 | the base name of a path with no `/` is the path itself |
| Text.BasenameOfPath | src/entry-server.js:39 | the base name of `dir/name` is `name` |
| Text.LowerChar | src/router.js:16 | ASCII lower-casing of a character: upper-case letters move down by 32, any other character is kept |
| Text.ToLower | src/router.js:16 | `toLowerCase` keeps the length, lower-cases each character in place, and yields a lower-case string |
| EntryServer.SuffixesExclusive | src/entry-server.js:55-68 | no path ends with two of the eight known suffixes |
| EntryServer.TagBySuffix | src/entry-server.js:54-73 | a path ending with known suffix number k gets exactly that suffix's tag around the path |
| EntryServer.ScriptAndStyleTags | src/entry-server.js:55-58 | a `.js` path F gives exactly `<link rel="modulepreload" crossorigin href="F">`, and a `.css` path gives exactly `<link rel="stylesheet" href="F">` |
| EntryServer.FontTags | src/entry-server.js:59-62 | `.woff` and `.woff2` paths give the font preload tag, with its leading space, its MIME type and `crossorigin` |
| EntryServer.ImageTags | src/entry-server.js:63-68 | `.gif`, `.jpg`/`.jpeg` and `.png` paths give the image preload tag with its leading space; `.jpg` and `.jpeg` share `image/jpeg` |
| EntryServer.SuffixIndexFinds | src/entry-server.js:55-69 | the suffix comparisons, in order, stop at a suffix the path ends with, or pass all eight only when it ends with none |
| EntryServer.UnknownSuffixNoTag | src/entry-server.js:69-72 | a path yields the empty string exactly when it ends with none of the known suffixes |
| EntryServer.DepEmissions | src/entry-server.js:41-44 | one dependency tag per listed file, in manifest order |
| EntryServer.EmitDependencies | src/entry-server.js:41-44 | the loop appends the tags of all listed files in order and adds all of them to `seen`, without consulting `seen` |
| EntryServer.VisitFileStep | src/entry-server.js:36-47 | one file's callback leaves `links` and `seen` as the walk specification says: skipped when seen; otherwise its dependencies' tags, then its own |
| EntryServer.VisitModuleStep | src/entry-server.js:33-49 | one module id's callback: nothing for an id missing from the manifest, else the walk over its files in list order |
| EntryServer.RenderPreloadLinks | src/entry-server.js:30-52 | the nested loops return exactly the concatenated tags of the walk specification's emissions |
| EntryServer.Render | src/entry-server.js:7-26 | `render` succeeds exactly when the application renders; it then returns the HTML and the preload links of the instantiated modules, and otherwise propagates the thrown error |
| EntryServer.EmissionsShape | src/entry-server.js:36-47 | after the walk, `seen` is exactly the set of files tagged; each primary tag is immediately preceded by its base name's dependency tags in manifest order; and a file's tag never comes before its primary tag, except as a dependency of itself |
| EntryServer.TaggedFileSkipped | src/entry-server.js:37-38 | a file already tagged, as a primary file or as a dependency, contributes nothing when it comes up again |
| EntryServer.VisitModulesGrows | src/entry-server.js:33-50 | the walk only appends to the output and only adds to `seen`; every file of a present module ends in `seen` |
| EntryServer.EveryListedFileTagged | src/entry-server.js:34-47 | every file listed under a rendered module present in the manifest is tagged |
| EntryServer.VisitModulesAppend | src/entry-server.js:33 | the walk over `a + b` is the walk over `a` continued with `b` |
| EntryServer.OutputInModuleOrder | src/entry-server.js:33-36 | the emissions and the output for a prefix of the modules are a prefix of those for the whole list |
| EntryServer.AbsentModuleSkipped | src/entry-server.js:34-35 | a module id missing from the manifest contributes nothing wherever it stands, and later ids are processed as usual |
| EntryServer.NoPresentModules | src/entry-server.js:31-35 | with no modules, or none of them present in the manifest, the result is the empty string |
| EntryServer.EmptyManifestNoLinks | src/entry-server.js:30-52 | with an empty manifest the result is the empty string |
| EntryServer.TagsAppend | src/entry-server.js:42-46 | the output for concatenated emissions is the concatenation of their outputs |
| EntryServer.UnknownFileAddsNothing | src/entry-server.js:46-72 | an emission of a path with an unknown suffix adds nothing to the output |
| EntryServer.VisitPlainFile | src/entry-server.js:37-46 | a new file whose base name is not a key is tagged alone and marked seen |
| EntryServer.VisitFileWithDep | src/entry-server.js:37-46 | a new file whose base name lists one file tags that file, then itself, and marks both seen |
| EntryServer.TwoPlainFiles | src/entry-server.js:36-46 | two distinct plain files of one module are tagged in list order |
| EntryServer.ScriptThenStylesheet | src/entry-server.js:36-58 | a module listing a script and a stylesheet yields the exact module-preload tag, then the exact stylesheet tag |
| EntryServer.SelfDependencyTaggedTwice | src/entry-server.js:38-46 | a file listed under its own base name is tagged twice: as its own dependency, then as itself |
| EntryServer.SharedDependencyRepeated | src/entry-server.js:41-44 | a dependency shared by two files is tagged before each of them |
| EntryServer.DependencySuppressesLaterFile | src/entry-server.js:37-43 | a file already tagged as a dependency is not tagged again as a module's file |
| Router.MatchFrom | src/router.js:16 | the leftmost position from which the regular expression matches, or `None` when it matches nowhere |
| Router.RoutePath | src/router.js:16-18 | a path exactly when the key matches; the path is the lower-cased capture, except that a capture lower-casing to `/home` gives `/`; the path is lower-case and never `/home` |
| Router.KeyRoute | src/router.js:16-18 | the pattern is not anchored at the start: a key with text before its first `./pages` routes to the lower-cased capture after that occurrence, or to `/` for `/home` |
| Router.PrefixedAboutRoute | src/router.js:16-18 | `src/./pages/About.vue` routes to `/about` |
| Router.Routes | src/router.js:14-21 | succeeds exactly when every key matches, with one route per key in key order, holding the key's path and its component, all paths lower-case; otherwise fails on the first key that does not match |
| Router.CaptureAtFirstOccurrence | src/router.js:16 | without line terminators, the capture runs from just after the first `./pages` to just before the final `.vue`, and there is none when either is missing |
| Router.GlobKeyRoute | src/router.js:16-18 | a glob key `./pages/X.vue` routes to the lower-cased `/X`, or to `/` when that is `/home` |
| Router.AboutRoute | src/router.js:16-18 | `./pages/About.vue` routes to `/about` |
| Router.HomeRoute | src/router.js:16-18 | `./pages/Home.vue` routes to `/` |
| Router.UpperCaseHomeRoute | src/router.js:16-18 | `./pages/HOME.vue` routes to `/` |
| Router.NonPageKeyFails | src/router.js:16 | a key not ending in `.vue` makes the whole derivation fail, wherever it stands |
| Server.NormalizeUrl | server.js:88 | only the first `/test/` becomes `/`; a URL without `/test/` is unchanged |
| Server.SpliceExact | server.js:119-121 | with the placeholders first occurring where expected and no `$` in the inserted strings, the page is prefix + preload links + middle + app HTML + suffix |
| Server.SpliceMissingPlaceholders | server.js:119-121 | a missing preload placeholder leaves only the app HTML step; with neither placeholder the template is sent as is |
| Server.DollarPatternExpanded | server.js:121 | a `$&` in the app HTML is expanded to the matched placeholder, as JavaScript does |
| Server.CreateServer | server.js:29-46 | in development the template is `''`, the manifest `{}` and a development server exists; in production the template and manifest are those read at startup, and a failing read rejects with its error |
| Server.Respond | server.js:85-130 | the status is 200 exactly when the try block completes, with `text/html` and the spliced page; otherwise 500 with the stack of the repaired error and no content type |
| Server.SuccessfulRequest | server.js:93-124 | a request succeeds exactly when the template, the render entry and the render succeed; its body is then the template with the preload links and the app HTML spliced in |
| Server.DevelopmentRequest | server.js:93-105 | in development a successful page is the transformed fresh template with no preload links and the app HTML spliced in |
| Server.ProductionRequest | server.js:107-124 | in production the page is the template read at startup, spliced with the links from the startup manifest |
| Server.FailedRequest | server.js:125-130 | a failure answers 500 with the error's stack, repaired by the development server in development and as thrown in production |
| Server.Response.constructor | server.js:85 | a fresh response has status 200, no headers, an empty body and is not ended |
| Server.Response.Status | server.js:124-129 | `status(code)` sets the status code and nothing else |
| Server.Response.Set | server.js:124 | `set` adds one header and changes nothing else |
| Server.Response.End | server.js:124-129 | `end(text)` sends the body and finishes the response, leaving status and headers alone |
| Server.Handle | server.js:85-130 | the handler ends the response with the status and body `Respond` specifies, setting `Content-Type` only on success |

## Left out

- The Vue framework calls of `render` (`createApp`, `router.push`, `isReady`, `renderToString`) are not modelled. The application is an abstract function from the URL to a `Page` (HTML and instantiated module ids) or a thrown error.
- A render that registers no module leaves `ctx.modules` undefined, so `modules.forEach` throws a TypeError. The model always has a (possibly empty) sequence of module ids.
- Manifest lookups are modelled as map lookups. Keys inherited from JavaScript's `Object.prototype` (such as `constructor`) are not modelled.
- Manifest values that are not arrays of strings are not modelled: the manifest is a map from strings to sequences of strings.
- `Text.Basename` follows POSIX `path.basename` for paths without a trailing `/`. Trailing-slash trimming and Windows separators are not modelled, because manifest paths have neither.
- `Text.ToLower` lower-cases ASCII letters only, because Unicode case mapping is outside the model.
- `Router.MatchFrom` models only the one regular expression `/\.\/pages(.*)\.vue$/`, not regular expressions in general.
- `import.meta.glob` is not modelled. Its result is an input sequence of (key, component) pairs in key order.
- `createRouter` and its choice between memory and web history are not modelled: they are thin vue-router wrappers.
- `src/router/index.js` is not part of this model: it holds a static route table and no computation.
- `vite.config.noexternal.js` is not part of this model: it is build configuration.
- `Server.Prepare` treats file reads, `transformIndexHtml`, `ssrLoadModule` and the production `import` as inputs fixed for the request. An `Env` is the environment of one request, so the fresh read of `index.html` on every development request is modelled by giving each request its own `DevServer` value; no lemma relates two requests. The file system, the Vite development server and module loading are I/O and foreign code.
- `Server.Fixed` models `ssrFixStacktrace` as a function on the error. The source repairs the error object in place.
- A thrown value that is not an `Error`, whose `stack` would be undefined, is not modelled.
- `Server.Response` stores `Content-Type` as given. Express adding a charset to it is not modelled.
- Express, compression and serve-static middleware, `app.listen` on port 6173, and `console.log` are I/O and are not modelled.
- Concurrent requests are not modelled. Each request is independent and shares only read-only configuration.
