/** The request handler of `server.js`: the configuration `createServer`
    loads once, and the catch-all route that normalises the URL, obtains
    a template and a render function, splices the rendered page into the
    template and answers 200, or 500 with the error's stack. */
module Server {
  import opened Wrappers
  import opened Text
  import EntryServer

  /** The base path the development server is created with. */
  const BasePath := "/test/"
  const PreloadPlaceholder := "<!--preload-links-->"
  const AppPlaceholder := "<!--app-html-->"
  const ContentTypeHeader := "Content-Type"
  const HtmlType := "text/html"
  const StatusOk := 200
  const StatusError := 500

  // ---------------------------------------------------------------------
  // The pure steps of the handler

  /** `req.originalUrl.replace('/test/', '/')`: the first `/test/` becomes
      `/`; a URL without one is unchanged. */
  function NormalizeUrl(originalUrl: string): (url: string)
    ensures IndexOf(originalUrl, BasePath).None? ==> url == originalUrl
    ensures IndexOf(originalUrl, BasePath).Some? ==>
      var p := IndexOf(originalUrl, BasePath).value;
      url == originalUrl[..p] + "/" + originalUrl[p + |BasePath|..]
  {
    Replace(originalUrl, BasePath, "/")
  }

  /** The two chained `replace` calls: the first preload placeholder of
      the template, then the first app placeholder of that result. */
  function Splice(template: string, preloadLinks: string, appHtml: string): string
  {
    Replace(Replace(template, PreloadPlaceholder, preloadLinks), AppPlaceholder, appHtml)
  }

  /** With the preload placeholder first occurring after `pre`, the app
      placeholder first occurring after `mid` once the links are in, and
      no `$` in the inserted strings, each placeholder is exchanged for
      its text and nothing else changes. */
  lemma SpliceExact(pre: string, mid: string, post: string, preloadLinks: string, appHtml: string)
    requires FirstOccurrenceAt(pre + PreloadPlaceholder + mid + AppPlaceholder + post, PreloadPlaceholder, |pre|)
    requires FirstOccurrenceAt(pre + preloadLinks + mid + AppPlaceholder + post, AppPlaceholder, |pre + preloadLinks + mid|)
    requires '$' !in preloadLinks && '$' !in appHtml
    ensures Splice(pre + PreloadPlaceholder + mid + AppPlaceholder + post, preloadLinks, appHtml)
      == pre + preloadLinks + mid + appHtml + post
  {
    var rest := mid + AppPlaceholder + post;
    assert pre + PreloadPlaceholder + mid + AppPlaceholder + post == pre + PreloadPlaceholder + rest;
    assert pre + preloadLinks + mid + AppPlaceholder + post == pre + preloadLinks + rest;
    ReplaceFirst(pre, PreloadPlaceholder, rest, preloadLinks);
    var head := pre + preloadLinks + mid;
    assert pre + preloadLinks + rest == head + AppPlaceholder + post;
    ReplaceFirst(head, AppPlaceholder, post, appHtml);
  }

  /** A template without a preload placeholder only gets the app HTML; one
      without either placeholder is sent as it is. */
  lemma SpliceMissingPlaceholders(template: string, preloadLinks: string, appHtml: string)
    requires forall j :: !OccursAt(template, PreloadPlaceholder, j)
    ensures Splice(template, preloadLinks, appHtml) == Replace(template, AppPlaceholder, appHtml)
    ensures (forall j :: !OccursAt(template, AppPlaceholder, j)) ==>
      Splice(template, preloadLinks, appHtml) == template
  {
  }

  /** `replace` expands `$&` in the inserted text into the matched
      placeholder, as JavaScript does: an app HTML of `$&` leaves the app
      placeholder in place. */
  lemma DollarPatternExpanded()
    ensures Replace(AppPlaceholder, AppPlaceholder, "$&") == AppPlaceholder
  {
    assert IndexOf(AppPlaceholder, AppPlaceholder) == Some(0);
    assert AppPlaceholder[..0] == "" && AppPlaceholder[|AppPlaceholder|..] == "";
    assert Substitute("$&", AppPlaceholder, "", "") == AppPlaceholder + Substitute("", AppPlaceholder, "", "");
  }

  // ---------------------------------------------------------------------
  // Configuration

  /** What `createServer` fixes once: the mode, the production template
      and the SSR manifest. */
  datatype Config = Config(isProd: bool, indexProd: string, manifest: EntryServer.Manifest)

  /** The parts of the Vite development server the handler uses, as seen by
      one request: reading `index.html`, `transformIndexHtml`, loading the
      server entry with `ssrLoadModule` and `ssrFixStacktrace`. */
  datatype DevServer = DevServer(
    readIndexHtml: Result<string, Exception>,
    transformIndexHtml: (string, string) -> Result<string, Exception>,
    ssrLoadModule: Result<EntryServer.App, Exception>,
    ssrFixStacktrace: Exception -> Exception)

  /** The handler's environment as one request sees it: the configuration,
      the development server (`vite`, undefined in production) and the
      import of the built server entry used in production. The development
      server's `readIndexHtml` is the result of this request's fresh read of
      `index.html`; a later request is modelled by an `Env` with another
      `DevServer` value and the same configuration. */
  datatype Env = Env(config: Config, vite: Option<DevServer>, prodEntry: Result<EntryServer.App, Exception>)

  /** A development server exists exactly outside production. */
  predicate Valid(s: Env)
  {
    s.config.isProd <==> s.vite.None?
  }

  /** `createServer`: in production the template and then the manifest are
      read once, and a failing read rejects; in development both are empty
      and a development server is created. The `Env` returned is the
      environment of one request: `vite` carries that request's view of the
      development server. */
  function CreateServer(isProd: bool, readIndexProd: Result<string, Exception>,
                        readManifest: Result<EntryServer.Manifest, Exception>,
                        vite: DevServer, prodEntry: Result<EntryServer.App, Exception>): (r: Result<Env, Exception>)
    ensures r.Success? ==> Valid(r.value) && r.value.config.isProd == isProd
    ensures !isProd ==> r.Success? && r.value.config == Config(false, "", map[]) && r.value.vite == Some(vite)
    ensures isProd ==> (r.Success? <==> readIndexProd.Success? && readManifest.Success?)
    ensures isProd && readIndexProd.Failure? ==> r == Failure(readIndexProd.error)
    ensures isProd && readIndexProd.Success? && readManifest.Failure? ==> r == Failure(readManifest.error)
    ensures isProd && r.Success? ==>
      r.value.config == Config(true, readIndexProd.value, readManifest.value) && r.value.vite.None?
  {
    if !isProd then Success(Env(Config(false, "", map[]), Some(vite), prodEntry))
    else
      match readIndexProd
      case Failure(e) => Failure(e)
      case Success(indexProd) =>
        match readManifest
        case Failure(e) => Failure(e)
        case Success(manifest) => Success(Env(Config(true, indexProd, manifest), None, prodEntry))
  }

  // ---------------------------------------------------------------------
  // The handler, specified

  /** Steps 1 to 3 of the handler: the template and the render entry, or
      the error that one of them throws. */
  function Prepare(s: Env, url: string): Result<(string, EntryServer.App), Exception>
    requires Valid(s)
  {
    if !s.config.isProd then
      var vite := s.vite.value;
      match vite.readIndexHtml
      case Failure(e) => Failure(e)
      case Success(raw) =>
        match vite.transformIndexHtml(url, raw)
        case Failure(e) => Failure(e)
        case Success(template) =>
          match vite.ssrLoadModule
          case Failure(e) => Failure(e)
          case Success(app) => Success((template, app))
    else
      match s.prodEntry
      case Failure(e) => Failure(e)
      case Success(app) => Success((s.config.indexProd, app))
  }

  /** The `try` block: the spliced page, or the error thrown in it. */
  function Attempt(s: Env, url: string): Result<string, Exception>
    requires Valid(s)
  {
    match Prepare(s, url)
    case Failure(e) => Failure(e)
    case Success((template, app)) =>
      match app(url)
      case Failure(e) => Failure(e)
      case Success(page) =>
        Success(Splice(template, EntryServer.PreloadLinks(page.modules, s.config.manifest), page.html))
  }

  /** The error as the `catch` block sees it after `vite && vite.ssrFixStacktrace(e)`. */
  function Fixed(s: Env, e: Exception): Exception
  {
    match s.vite
    case None => e
    case Some(vite) => vite.ssrFixStacktrace(e)
  }

  /** What the response carries once the handler has ended it. */
  datatype Reply = Reply(status: int, contentType: Option<string>, body: string)

  /** The response to a request for `originalUrl`: 200 with the page as
      HTML, or 500 with the stack of the error and no content type. */
  function Respond(s: Env, originalUrl: string): (r: Reply)
    requires Valid(s)
    ensures r.status == StatusOk || r.status == StatusError
    ensures r.status == StatusOk <==> Attempt(s, NormalizeUrl(originalUrl)).Success?
    ensures r.status == StatusOk ==>
      r.contentType == Some(HtmlType) && r.body == Attempt(s, NormalizeUrl(originalUrl)).value
    ensures r.status == StatusError ==>
      r.contentType.None? && r.body == Fixed(s, Attempt(s, NormalizeUrl(originalUrl)).error).stack
  {
    match Attempt(s, NormalizeUrl(originalUrl))
    case Success(html) => Reply(StatusOk, Some(HtmlType), html)
    case Failure(e) => Reply(StatusError, None, Fixed(s, e).stack)
  }

  /** A request succeeds exactly when the template, the render entry and
      the render all succeed; its body is then the template with the
      preload links and the app HTML spliced in. */
  lemma SuccessfulRequest(s: Env, originalUrl: string)
    requires Valid(s)
    ensures var url := NormalizeUrl(originalUrl);
      Respond(s, originalUrl).status == StatusOk <==>
        Prepare(s, url).Success? && Prepare(s, url).value.1(url).Success?
    ensures var url := NormalizeUrl(originalUrl);
      Respond(s, originalUrl).status == StatusOk ==>
        var (template, app) := Prepare(s, url).value;
        Respond(s, originalUrl).body
          == Splice(template, EntryServer.PreloadLinks(app(url).value.modules, s.config.manifest), app(url).value.html)
  {
  }

  /** In development the manifest is empty, so no preload links are
      spliced in, and the template is read and transformed per request. */
  lemma DevelopmentRequest(vite: DevServer, readIndexProd: Result<string, Exception>,
                           readManifest: Result<EntryServer.Manifest, Exception>,
                           prodEntry: Result<EntryServer.App, Exception>, originalUrl: string)
    ensures var s := CreateServer(false, readIndexProd, readManifest, vite, prodEntry).value;
      var url := NormalizeUrl(originalUrl);
      Attempt(s, url).Success? ==>
        && vite.readIndexHtml.Success?
        && vite.transformIndexHtml(url, vite.readIndexHtml.value).Success?
        && vite.ssrLoadModule.Success?
        && var app := vite.ssrLoadModule.value;
           Attempt(s, url).value
             == Splice(vite.transformIndexHtml(url, vite.readIndexHtml.value).value, "", app(url).value.html)
  {
    var s := CreateServer(false, readIndexProd, readManifest, vite, prodEntry).value;
    var url := NormalizeUrl(originalUrl);
    if Attempt(s, url).Success? {
      var app := vite.ssrLoadModule.value;
      EntryServer.EmptyManifestNoLinks(app(url).value.modules);
    }
  }

  /** In production the template and the manifest are those read at
      startup, the same for every request. */
  lemma ProductionRequest(vite: DevServer, indexProd: string, manifest: EntryServer.Manifest,
                          app: EntryServer.App, originalUrl: string)
    ensures var s := CreateServer(true, Success(indexProd), Success(manifest), vite, Success(app)).value;
      var url := NormalizeUrl(originalUrl);
      Attempt(s, url) ==
        match app(url)
        case Failure(e) => Failure(e)
        case Success(page) => Success(Splice(indexProd, EntryServer.PreloadLinks(page.modules, manifest), page.html))
  {
  }

  /** A failure answers 500 with the error's stack: repaired by the
      development server in development, as thrown in production. */
  lemma FailedRequest(s: Env, originalUrl: string)
    requires Valid(s)
    requires Attempt(s, NormalizeUrl(originalUrl)).Failure?
    ensures var e := Attempt(s, NormalizeUrl(originalUrl)).error;
      Respond(s, originalUrl) == Reply(StatusError, None,
        if s.config.isProd then e.stack else s.vite.value.ssrFixStacktrace(e).stack)
  {
  }

  // ---------------------------------------------------------------------
  // The handler, imperative

  /** The parts of Express's response object the handler uses. */
  class Response {
    var statusCode: int
    var headers: map<string, string>
    var body: string
    var ended: bool

    /** A fresh response: status 200, no headers, not ended. */
    constructor ()
      ensures statusCode == StatusOk && headers == map[] && body == "" && !ended
    {
      statusCode := StatusOk;
      headers := map[];
      body := "";
      ended := false;
    }

    /** `res.status(code)`. */
    method Status(code: int)
      modifies this
      ensures statusCode == code
      ensures headers == old(headers) && body == old(body) && ended == old(ended)
    {
      statusCode := code;
    }

    /** `res.set({name: value})`. */
    method Set(name: string, value: string)
      modifies this
      ensures headers == old(headers)[name := value]
      ensures statusCode == old(statusCode) && body == old(body) && ended == old(ended)
    {
      headers := headers[name := value];
    }

    /** `res.end(text)`: the body is sent and the response is finished. */
    method End(text: string)
      requires !ended
      modifies this
      ensures ended && body == text
      ensures statusCode == old(statusCode) && headers == old(headers)
    {
      body := text;
      ended := true;
    }
  }

  /** The catch-all route: it ends `res` with the reply `Respond` specifies,
      setting the content type only on success. */
  method Handle(s: Env, originalUrl: string, res: Response)
    requires Valid(s) && !res.ended
    modifies res
    ensures res.ended
    ensures res.statusCode == Respond(s, originalUrl).status
    ensures res.body == Respond(s, originalUrl).body
    ensures res.headers == match Respond(s, originalUrl).contentType
      case None => old(res.headers)
      case Some(t) => old(res.headers)[ContentTypeHeader := t]
  {
    var url := NormalizeUrl(originalUrl);
    var thrown: Option<Exception> := None;
    var html := "";
    var prepared := Prepare(s, url);
    if prepared.Failure? {
      thrown := Some(prepared.error);
    } else {
      var (template, app) := prepared.value;
      var rendered := EntryServer.Render(app, url, s.config.manifest);
      if rendered.Failure? {
        thrown := Some(rendered.error);
      } else {
        var (appHtml, preloadLinks) := rendered.value;
        html := Splice(template, preloadLinks, appHtml);
      }
    }
    if thrown.None? {
      res.Status(StatusOk);
      res.Set(ContentTypeHeader, HtmlType);
      res.End(html);
    } else {
      var e := Fixed(s, thrown.value);
      res.Status(StatusError);
      res.End(e.stack);
    }
  }
}
