/**
 * One run of `handleRequest` (index.js:37-127) as a pure step: the
 * request and the answers of the outside world go in; the response, the
 * new cache directory and the list of effectful calls made come out.
 */
module Handler {
  import opened Wrappers
  import opened Store
  import UrlPath
  import CachePath

  /** What the origin answers for a key: the image bytes, or any failure (not found upstream, network error). */
  datatype Origin = Fetched(image: Blob) | FetchFailed

  /** A PUT body as the request stream delivered it: the data chunks, and whether the stream reported an error. */
  datatype Body = Body(chunks: seq<Blob>, transportError: bool)

  datatype Request = Request(verb: string, url: string, body: Body)

  /** The answers of the world outside the handler during one request. */
  datatype Env = Env(readFault: bool, origin: Origin, writeFault: bool, unlinkFault: bool)

  /** A response body: image bytes (`image/jpeg`) or a plain-text message. */
  datatype Payload = ImageBody(bytes: Blob) | TextBody(message: string)

  datatype Response = Response(status: int, payload: Payload)

  /** The effectful calls the handler makes, in the order it makes them. */
  datatype Call = Read(name: string) | Fetch(url: string) | Write(name: string) | Remove(name: string)

  datatype Outcome = Outcome(response: Response, dir: Dir, calls: seq<Call>)

  const OriginBase: string := "https://http.cat/"

  const NoKeyMessage: string := "Bad Request: expected path /<http-code>"
  const NotFoundMessage: string := "Not Found"
  const CreatedMessage: string := "Created"
  const DeletedMessage: string := "Deleted"
  const BadBodyMessage: string := "Bad Request"
  const ServerErrorMessage: string := "Internal Server Error"
  const NotAllowedMessage: string := "Method Not Allowed"

  /** The statuses the handler can send. */
  const Statuses: set<int> := {200, 201, 400, 404, 405, 500}

  /** The origin URL asked for a key on a cache miss. */
  function OriginUrl(key: string): string {
    OriginBase + key
  }

  /** The cached entry for a key, as a reader of the directory sees it. */
  function Lookup(dir: Dir, key: string): Option<Blob> {
    Get(dir, CachePath.FileName(key))
  }

  /** The file name a call works on, if it works on one. */
  function CallFile(c: Call): Option<string> {
    match c
    case Read(name) => Some(name)
    case Write(name) => Some(name)
    case Remove(name) => Some(name)
    case Fetch(_) => None
  }

  function Text(status: int, message: string): Response {
    Response(status, TextBody(message))
  }

  /** GET (index.js:50-76): serve from the cache, or fetch, store and serve. */
  function HandleGet(dir: Dir, key: string, env: Env): Outcome {
    var name := CachePath.FileName(key);
    match ReadFile(dir, name, env.readFault)
    case Ok(data) =>
      Outcome(Response(200, ImageBody(data)), dir, [Read(name)])
    case Err(_) =>
      // every read error is a miss; fetching and storing share one error path
      match env.origin
      case FetchFailed =>
        Outcome(Text(404, NotFoundMessage), dir, [Read(name), Fetch(OriginUrl(key))])
      case Fetched(image) =>
        var (written, dir') := WriteFile(dir, name, image, env.writeFault);
        var calls := [Read(name), Fetch(OriginUrl(key)), Write(name)];
        if written.Ok? then Outcome(Response(200, ImageBody(image)), dir', calls)
        else Outcome(Text(404, NotFoundMessage), dir', calls)
  }

  /** PUT (index.js:78-98): store the concatenated body under the key. */
  function HandlePut(dir: Dir, key: string, body: Body, env: Env): Outcome {
    var name := CachePath.FileName(key);
    if body.transportError then Outcome(Text(400, BadBodyMessage), dir, [])
    else
      var (written, dir') := WriteFile(dir, name, Concat(body.chunks), env.writeFault);
      if written.Ok? then Outcome(Text(201, CreatedMessage), dir', [Write(name)])
      else Outcome(Text(500, ServerErrorMessage), dir', [Write(name)])
  }

  /** DELETE (index.js:100-115): remove the key's file. */
  function HandleDelete(dir: Dir, key: string, env: Env): Outcome {
    var name := CachePath.FileName(key);
    var (removed, dir') := Unlink(dir, name, env.unlinkFault);
    match removed
    case Ok(_) => Outcome(Text(200, DeletedMessage), dir', [Remove(name)])
    case Err(ENOENT) => Outcome(Text(404, NotFoundMessage), dir', [Remove(name)])
    case Err(EIO) => Outcome(Text(500, ServerErrorMessage), dir', [Remove(name)])
  }

  /**
   * `handleRequest`: extract the key, then dispatch on the method. Every
   * request ends in one of the six statuses; only the key's own file can
   * change, and only a 200 or 201 response comes with a change; the origin
   * is asked only by GET, and only for the key's URL.
   */
  function Handle(dir: Dir, req: Request, env: Env): (r: Outcome)
    ensures r.response.status in Statuses
    ensures r.dir != dir ==> r.response.status == 200 || r.response.status == 201
    ensures forall n :: Get(r.dir, n) != Get(dir, n) ==>
      UrlPath.ExtractKey(req.url).Some? && n == CachePath.FileName(UrlPath.ExtractKey(req.url).value)
    ensures forall i :: 0 <= i < |r.calls| && r.calls[i].Fetch? ==>
      req.verb == "GET" && UrlPath.ExtractKey(req.url).Some? &&
      r.calls[i].url == OriginUrl(UrlPath.ExtractKey(req.url).value)
  {
    match UrlPath.ExtractKey(req.url)
    case None => Outcome(Text(400, NoKeyMessage), dir, [])
    case Some(key) =>
      if req.verb == "GET" then HandleGet(dir, key, env)
      else if req.verb == "PUT" then HandlePut(dir, key, req.body, env)
      else if req.verb == "DELETE" then HandleDelete(dir, key, env)
      else Outcome(Text(405, NotAllowedMessage), dir, [])
  }

  /** The request the handler would treat as method `m` on `key`. */
  predicate Targets(req: Request, m: string, key: string) {
    req.verb == m && UrlPath.ExtractKey(req.url) == Some(key)
  }

  /** Only the given key's entry may differ between the two directories. */
  ghost predicate OthersUnchanged(dir: Dir, dir': Dir, key: string) {
    forall k :: k != key ==> Lookup(dir', k) == Lookup(dir, k)
  }

  /** A write or removal of one file leaves every other key's entry as it was. */
  lemma OtherKeysUnchanged(dir: Dir, dir': Dir, key: string)
    requires forall n :: n != CachePath.FileName(key) ==> Get(dir', n) == Get(dir, n)
    ensures OthersUnchanged(dir, dir', key)
  {
    forall k | k != key ensures Lookup(dir', k) == Lookup(dir, k) {
      CachePath.FileNameInjective(k, key);
    }
  }

  /** Only DELETE removes files: every other request keeps every file that was there. */
  lemma OnlyDeleteRemoves(dir: Dir, req: Request, env: Env)
    requires req.verb != "DELETE"
    ensures dir.Keys <= Handle(dir, req, env).dir.Keys
  {
  }

  /** A URL made of separators only is answered 400 with nothing touched, whatever the method. */
  lemma NoKeyIsBadRequest(dir: Dir, req: Request, env: Env)
    requires UrlPath.AllSlashes(req.url)
    ensures Handle(dir, req, env) == Outcome(Text(400, NoKeyMessage), dir, [])
  {
    UrlPath.NoKeyIffAllSlashes(req.url);
  }

  /** Every file the handler reads, writes or removes is a direct entry of the cache directory. */
  lemma FilesStayInCacheDirectory(dir: Dir, req: Request, env: Env, c: Call)
    requires c in Handle(dir, req, env).calls && CallFile(c).Some?
    ensures '/' !in CallFile(c).value
    ensures CallFile(c).value != "." && CallFile(c).value != ".."
  {
    var key := UrlPath.ExtractKey(req.url).value;
    UrlPath.KeyShape(req.url);
    CachePath.FileNameIsDirectEntry(key);
  }

  /** GET on a cached key sends exactly the stored bytes, changes nothing and does not ask the origin. */
  lemma GetHit(dir: Dir, req: Request, env: Env, key: string)
    requires Targets(req, "GET", key)
    requires Lookup(dir, key).Some? && !env.readFault
    ensures Handle(dir, req, env).response == Response(200, ImageBody(Lookup(dir, key).value))
    ensures Handle(dir, req, env).dir == dir
    ensures Handle(dir, req, env).calls == [Read(CachePath.FileName(key))]
  {
  }

  /**
   * GET on a key that cannot be read from the cache, with the origin
   * answering `image` and the write succeeding: 200 with `image`, the key
   * now maps to `image`, every other key is untouched, and the next GET of
   * the key is a hit serving the same bytes.
   */
  lemma GetMissFetchesAndStores(dir: Dir, req: Request, env: Env, key: string, image: Blob, next: Env)
    requires Targets(req, "GET", key)
    requires Lookup(dir, key).None? || env.readFault
    requires env.origin == Fetched(image) && !env.writeFault
    requires !next.readFault
    ensures Handle(dir, req, env).response == Response(200, ImageBody(image))
    ensures Handle(dir, req, env).dir == dir[CachePath.FileName(key) := image]
    ensures Fetch(OriginUrl(key)) in Handle(dir, req, env).calls
    ensures Lookup(Handle(dir, req, env).dir, key) == Some(image)
    ensures OthersUnchanged(dir, Handle(dir, req, env).dir, key)
    ensures Handle(Handle(dir, req, env).dir, req, next).response == Response(200, ImageBody(image))
    ensures Fetch(OriginUrl(key)) !in Handle(Handle(dir, req, env).dir, req, next).calls
  {
    var dir' := Handle(dir, req, env).dir;
    OtherKeysUnchanged(dir, dir', key);
    GetHit(dir', req, next, key);
  }

  /**
   * GET on a key that cannot be read from the cache, where the origin fails
   * or storing its answer fails: 404 and the directory is unchanged, so an
   * absent key stays absent and the same GET asks the origin again.
   */
  lemma GetMissFails(dir: Dir, req: Request, env: Env, key: string)
    requires Targets(req, "GET", key)
    requires Lookup(dir, key).None? || env.readFault
    requires env.origin == FetchFailed || env.writeFault
    ensures Handle(dir, req, env).response == Text(404, NotFoundMessage)
    ensures Handle(dir, req, env).dir == dir
    ensures Fetch(OriginUrl(key)) in Handle(dir, req, env).calls
    ensures Lookup(dir, key).None? ==> Lookup(Handle(dir, req, env).dir, key).None?
    ensures Fetch(OriginUrl(key)) in Handle(Handle(dir, req, env).dir, req, env).calls
  {
  }

  /** A failed cache read on GET is treated like an absent entry: the answer is the one an empty slot gets. */
  lemma GetReadFaultIsMiss(dir: Dir, req: Request, env: Env, key: string)
    requires Targets(req, "GET", key) && env.readFault
    ensures Handle(dir, req, env).response
         == Handle(dir - {CachePath.FileName(key)}, req, env.(readFault := false)).response
    ensures Handle(dir, req, env).calls
         == Handle(dir - {CachePath.FileName(key)}, req, env.(readFault := false)).calls
  {
  }

  /**
   * PUT with a complete body and a successful write: 201, the key now maps
   * to the concatenated chunks (replacing any earlier entry), and every
   * other key is untouched.
   */
  lemma PutStores(dir: Dir, req: Request, env: Env, key: string)
    requires Targets(req, "PUT", key)
    requires !req.body.transportError && !env.writeFault
    ensures Handle(dir, req, env).response == Text(201, CreatedMessage)
    ensures Handle(dir, req, env).dir == dir[CachePath.FileName(key) := Concat(req.body.chunks)]
    ensures Lookup(Handle(dir, req, env).dir, key) == Some(Concat(req.body.chunks))
    ensures OthersUnchanged(dir, Handle(dir, req, env).dir, key)
  {
    OtherKeysUnchanged(dir, Handle(dir, req, env).dir, key);
  }

  /** PUT whose write fails: 500 and nothing changes. */
  lemma PutWriteFails(dir: Dir, req: Request, env: Env, key: string)
    requires Targets(req, "PUT", key)
    requires !req.body.transportError && env.writeFault
    ensures Handle(dir, req, env).response == Text(500, ServerErrorMessage)
    ensures Handle(dir, req, env).dir == dir
  {
  }

  /** PUT whose body stream errors: 400, nothing is written. */
  lemma PutBadBody(dir: Dir, req: Request, env: Env, key: string)
    requires Targets(req, "PUT", key) && req.body.transportError
    ensures Handle(dir, req, env) == Outcome(Text(400, BadBodyMessage), dir, [])
  {
  }

  /** DELETE of a cached key: 200 and exactly that key is gone. */
  lemma DeletePresent(dir: Dir, req: Request, env: Env, key: string)
    requires Targets(req, "DELETE", key)
    requires Lookup(dir, key).Some? && !env.unlinkFault
    ensures Handle(dir, req, env).response == Text(200, DeletedMessage)
    ensures Handle(dir, req, env).dir == dir - {CachePath.FileName(key)}
    ensures Lookup(Handle(dir, req, env).dir, key).None?
    ensures OthersUnchanged(dir, Handle(dir, req, env).dir, key)
  {
    OtherKeysUnchanged(dir, Handle(dir, req, env).dir, key);
  }

  /** DELETE of a key that is not cached (ENOENT): 404 and nothing changes. */
  lemma DeleteAbsent(dir: Dir, req: Request, env: Env, key: string)
    requires Targets(req, "DELETE", key)
    requires Lookup(dir, key).None? && !env.unlinkFault
    ensures Handle(dir, req, env).response == Text(404, NotFoundMessage)
    ensures Handle(dir, req, env).dir == dir
  {
  }

  /** DELETE failing for any reason but ENOENT: 500 and nothing changes. */
  lemma DeleteFails(dir: Dir, req: Request, env: Env, key: string)
    requires Targets(req, "DELETE", key) && env.unlinkFault
    ensures Handle(dir, req, env).response == Text(500, ServerErrorMessage)
    ensures Handle(dir, req, env).dir == dir
  {
  }

  /** Any other method on a keyed URL: 405, nothing touched. */
  lemma OtherMethodNotAllowed(dir: Dir, req: Request, env: Env)
    requires UrlPath.ExtractKey(req.url).Some?
    requires req.verb != "GET" && req.verb != "PUT" && req.verb != "DELETE"
    ensures Handle(dir, req, env) == Outcome(Text(405, NotAllowedMessage), dir, [])
  {
  }

  /**
   * A successful PUT followed by a GET of the same key (spelled by any URL
   * that yields that key) answers 200 with exactly the uploaded bytes,
   * without asking the origin.
   */
  lemma PutThenGet(dir: Dir, put: Request, get: Request, env: Env, next: Env, key: string)
    requires Targets(put, "PUT", key) && Targets(get, "GET", key)
    requires !put.body.transportError && !env.writeFault && !next.readFault
    ensures Handle(Handle(dir, put, env).dir, get, next).response
         == Response(200, ImageBody(Concat(put.body.chunks)))
    ensures forall c :: c in Handle(Handle(dir, put, env).dir, get, next).calls ==> !c.Fetch?
  {
  }

  /**
   * A DELETE answered 200 or 404 leaves the key uncached, so a following
   * GET whose origin fails answers 404.
   */
  lemma DeleteThenGet(dir: Dir, del: Request, get: Request, env: Env, next: Env, key: string)
    requires Targets(del, "DELETE", key) && Targets(get, "GET", key)
    requires !env.unlinkFault && next.origin == FetchFailed
    ensures Handle(dir, del, env).response.status in {200, 404}
    ensures Handle(Handle(dir, del, env).dir, get, next).response == Text(404, NotFoundMessage)
  {
  }
}
