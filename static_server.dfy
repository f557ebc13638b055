/** The request handler of the static file server (server.js), as a pure
    decision from the request URL and the outcome of reading a file to the
    response.

    Node's `path` helpers are not modelled: `normalize`, `join`, `resolve` and
    `extname` come in as arbitrary total functions, so everything proved here
    holds whatever they compute. The file system comes in as a function from
    the path read to the outcome of reading it. */
module StaticServer {

  /** A response body: the plain-text messages of the error paths, or the
      bytes of a file. */
  datatype Body = Text(text: string) | Bytes(data: seq<bv8>)

  /** What the handler passes to `writeHead` and `end`. */
  datatype Response = Response(status: nat, headers: map<string, string>, body: Body)

  /** The outcome of `fs.readFile`: the file's bytes, or an error with its code. */
  datatype ReadResult = ReadOk(data: seq<bv8>) | ReadErr(code: string)

  /** The four helpers of Node's `path` module that the handler calls. */
  datatype NodePath = NodePath(
    normalize: string -> string,
    join: (string, string) -> string,
    resolve: string -> string,
    extname: string -> string)

  /** The extension table; anything else is served as octet-stream. */
  const MimeTypes: map<string, string> := map[
    ".html" := "text/html",
    ".css" := "text/css",
    ".js" := "application/javascript",
    ".json" := "application/json",
    ".ico" := "image/x-icon",
    ".svg" := "image/svg+xml",
    ".png" := "image/png",
    ".jpg" := "image/jpeg",
    ".jpeg" := "image/jpeg",
    ".webp" := "image/webp",
    ".woff2" := "font/woff2",
    ".woff" := "font/woff"
  ]

  const DefaultType: string := "application/octet-stream"
  const NoCache: string := "no-cache"
  const ShortCache: string := "public, max-age=60"

  /** `s.split('?')[0]`: the longest prefix of `s` that holds no '?'. */
  function BeforeQuery(s: string): (r: string)
    ensures r <= s
    ensures '?' !in r
    ensures |r| == |s| || s[|r|] == '?'
  {
    if s == [] || s[0] == '?' then [] else [s[0]] + BeforeQuery(s[1..])
  }

  /** The URL path served: exactly "/" means the index document, any other
      URL loses everything from its first '?' on. */
  function UrlPath(url: string): (r: string)
    ensures url == "/" ==> r == "/index.html"
    ensures url != "/" ==> r <= url && '?' !in r && (|r| == |url| || url[|r|] == '?')
  {
    if url == "/" then "/index.html" else BeforeQuery(url)
  }

  /** `resolvedPath.startsWith(resolvedRoot)`: a plain prefix test on strings. */
  predicate StartsWith(resolvedPath: string, resolvedRoot: string) {
    resolvedRoot <= resolvedPath
  }

  /** The Content-Type of a served file: its table entry, or octet-stream;
      no table entry is octet-stream, so the fallback is taken exactly for
      the extensions outside the table. */
  function ContentType(ext: string): (r: string)
    ensures ext in MimeTypes ==> r == MimeTypes[ext]
    ensures r == DefaultType <==> ext !in MimeTypes
  {
    if ext in MimeTypes then MimeTypes[ext] else DefaultType
  }

  /** The Cache-Control of a served file: no-cache exactly for ".html",
      a sixty-second public cache for every other extension. */
  function CacheControl(ext: string): (r: string)
    ensures r == NoCache <==> ext == ".html"
    ensures r != NoCache ==> r == ShortCache
  {
    if ext == ".html" then NoCache else ShortCache
  }

  /** Where the guard leaves the request: refused, or a file to read
      together with the extension the headers will use. */
  datatype Route = Forbidden | ReadFile(filePath: string, ext: string)

  /** The path the handler builds from the URL, before any extension is added. */
  function Joined(node: NodePath, publicDir: string, url: string): string {
    node.join(publicDir, node.normalize(UrlPath(url)))
  }

  /** The synchronous part of the handler: map the URL to a path, refuse a
      path whose resolution does not start with the resolved root, else take
      the extension of the path and append ".html" when it has none. */
  function RouteOf(node: NodePath, publicDir: string, url: string): (r: Route)
    ensures r.Forbidden? <==> !StartsWith(node.resolve(Joined(node, publicDir, url)), node.resolve(publicDir))
    ensures r.ReadFile? ==> r.ext == node.extname(Joined(node, publicDir, url))
    ensures r.ReadFile? && r.ext == "" ==> r.filePath == Joined(node, publicDir, url) + ".html"
    ensures r.ReadFile? && r.ext != "" ==> r.filePath == Joined(node, publicDir, url)
  {
    var filePath := Joined(node, publicDir, url);
    var resolvedPath := node.resolve(filePath);
    if !StartsWith(resolvedPath, node.resolve(publicDir)) then
      Forbidden
    else
      var ext := node.extname(filePath);
      ReadFile(if ext == "" then filePath + ".html" else filePath, ext)
  }

  /** The read callback: ENOENT is 404, any other error 500, and a file read
      is 200 with its bytes and the headers chosen by the extension. */
  function Respond(ext: string, read: ReadResult): (r: Response)
    ensures read.ReadErr? ==> r.headers == map[] && r.body.Text?
    ensures r.status == 404 <==> read.ReadErr? && read.code == "ENOENT"
    ensures r.status == 500 <==> read.ReadErr? && read.code != "ENOENT"
    ensures r.status == 200 <==> read.ReadOk?
    ensures r.status == 404 ==> r.body == Text("Not found")
    ensures r.status == 500 ==> r.body == Text("Server error")
    ensures read.ReadOk? ==> r.body == Bytes(read.data)
    ensures read.ReadOk? ==> r.headers.Keys == {"Content-Type", "Cache-Control"}
    ensures read.ReadOk? ==> r.headers["Content-Type"] == ContentType(ext)
    ensures read.ReadOk? ==> r.headers["Cache-Control"] == CacheControl(ext)
  {
    match read
    case ReadErr(code) =>
      if code == "ENOENT" then Response(404, map[], Text("Not found"))
      else Response(500, map[], Text("Server error"))
    case ReadOk(data) =>
      var headers := map["Content-Type" := ContentType(ext)];
      var headers := headers["Cache-Control" := CacheControl(ext)];
      Response(200, headers, Bytes(data))
  }

  /** The whole handler for one request, given what each path reads as. */
  function Handle(node: NodePath, publicDir: string, url: string, readFile: string -> ReadResult): (r: Response)
    ensures r.status == 403 <==> RouteOf(node, publicDir, url).Forbidden?
    ensures r.status == 403 ==> r == Response(403, map[], Text("Forbidden"))
    ensures r.status != 403 ==>
              var route := RouteOf(node, publicDir, url);
              r == Respond(route.ext, readFile(route.filePath))
  {
    match RouteOf(node, publicDir, url)
    case Forbidden => Response(403, map[], Text("Forbidden"))
    case ReadFile(filePath, ext) => Respond(ext, readFile(filePath))
  }

  /** A refused request reads no file: its response is the same whatever the
      file system holds. */
  lemma ForbiddenReadsNothing(node: NodePath, publicDir: string, url: string,
                              fs1: string -> ReadResult, fs2: string -> ReadResult)
    requires !StartsWith(node.resolve(Joined(node, publicDir, url)), node.resolve(publicDir))
    ensures Handle(node, publicDir, url, fs1) == Handle(node, publicDir, url, fs2)
    ensures Handle(node, publicDir, url, fs1).status == 403
  {
  }

  /** An extensionless request that is not refused reads the path with ".html"
      appended; if that read succeeds, the headers still use the empty
      extension: octet-stream and the sixty-second cache, not text/html. */
  lemma ExtensionlessServedAsOctetStream(node: NodePath, publicDir: string, url: string,
                                         readFile: string -> ReadResult)
    requires StartsWith(node.resolve(Joined(node, publicDir, url)), node.resolve(publicDir))
    requires node.extname(Joined(node, publicDir, url)) == ""
    requires readFile(Joined(node, publicDir, url) + ".html").ReadOk?
    ensures Handle(node, publicDir, url, readFile).status == 200
    ensures Handle(node, publicDir, url, readFile).headers["Content-Type"] == "application/octet-stream"
    ensures Handle(node, publicDir, url, readFile).headers["Cache-Control"] == "public, max-age=60"
  {
    assert "" !in MimeTypes;
  }

  /** A stylesheet that is found is served as text/css with the sixty-second cache. */
  lemma StylesheetHeaders(node: NodePath, publicDir: string, url: string,
                          readFile: string -> ReadResult)
    requires StartsWith(node.resolve(Joined(node, publicDir, url)), node.resolve(publicDir))
    requires node.extname(Joined(node, publicDir, url)) == ".css"
    requires readFile(Joined(node, publicDir, url)).ReadOk?
    ensures Handle(node, publicDir, url, readFile).status == 200
    ensures Handle(node, publicDir, url, readFile).headers["Content-Type"] == "text/css"
    ensures Handle(node, publicDir, url, readFile).headers["Cache-Control"] == "public, max-age=60"
  {
  }

  /** Only the bare URL "/" is the index document: with a query string it
      maps to "/", which is not rewritten. */
  lemma RootWithQueryIsNotIndex(query: string)
    ensures UrlPath("/?" + query) == "/"
  {
    var url := "/?" + query;
    assert url[0] == '/' && url[1] == '?' && url != "/";
    assert url[1..][0] == '?';
  }

  /** The guard compares strings, not path segments: every request whose
      resolved path extends the resolved root as a string is admitted, so a
      sibling directory whose name extends the root's passes it too. */
  lemma GuardAdmitsStringExtensions(node: NodePath, publicDir: string, url: string, rest: string)
    requires node.resolve(Joined(node, publicDir, url)) == node.resolve(publicDir) + rest
    ensures RouteOf(node, publicDir, url).ReadFile?
    ensures Handle(node, publicDir, url, _ => ReadErr("ENOENT")).status == 404
  {
  }
}
