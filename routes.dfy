/** The platform handlers: list, connect, delete, sync and analyze, each run for a caller
    already let through by the authentication middleware, whose `claims.sub` is `callerId`. */
module Routes {
  import opened Schema
  import opened Http
  import Text
  import Storage
  import Simulator
  import Mirror

  /** One member of a request body as it arrives: missing, a string, or a JSON value of
      another type (`kind` names it, as in "number" or "null"). */
  datatype Field = Absent | Str(s: string) | NotStr(kind: string)

  /** A connect request body: an object with the three members the schema knows, or
      something that is not an object at all. */
  datatype ConnectBody =
    | NonObject(kind: string)
    | Body(name: Field, username: Field, apiKey: Field)

  /** One validation issue: its message and the path of the offending member. */
  datatype Issue = Issue(message: string, path: seq<string>)

  function FieldIssues(key: string, f: Field, optional: bool): seq<Issue>
  {
    match f
    case Absent => if optional then [] else [Issue("Required", [key])]
    case Str(_) => []
    case NotStr(kind) => [Issue("Expected string, received " + kind, [key])]
  }

  /** Parsing a connect body against the connect schema: `name` and `username` must be
      strings, `apiKey` may be left out but is a string when given. All issues are
      collected, member by member in schema order. */
  function ParseConnect(body: ConnectBody): (r: Result<ConnectPlatformRequest, seq<Issue>>)
    ensures r.Ok? <==> body.Body? && body.name.Str? && body.username.Str? && !body.apiKey.NotStr?
    ensures r.Ok? ==> r.value == ConnectPlatformRequest(body.name.s, body.username.s,
                                   if body.apiKey.Str? then Some(body.apiKey.s) else None)
    ensures r.Err? ==> |r.error| > 0
    ensures r.Err? && body.NonObject? ==> r.error[0].path == []
    ensures r.Err? && body.Body? && !body.name.Str? ==> r.error[0].path == ["name"]
    ensures r.Err? && body.Body? && body.name.Str? && !body.username.Str? ==> r.error[0].path == ["username"]
    ensures r.Err? && body.Body? && body.name.Str? && body.username.Str? ==> r.error == [Issue(r.error[0].message, ["apiKey"])]
  {
    match body
    case NonObject(kind) => Err([Issue("Expected object, received " + kind, [])])
    case Body(name, username, apiKey) =>
      var issues := FieldIssues("name", name, false) + FieldIssues("username", username, false)
                    + FieldIssues("apiKey", apiKey, true);
      if issues == [] then
        Ok(ConnectPlatformRequest(name.s, username.s, if apiKey.Str? then Some(apiKey.s) else None))
      else
        Err(issues)
  }

  /** The body the connect dialog sends for a request: `apiKey || undefined`, so an empty
      key is left out. */
  function EncodeConnect(req: ConnectPlatformRequest): (body: ConnectBody)
    ensures body.Body? && body.name == Str(req.name) && body.username == Str(req.username)
    ensures body.apiKey.Absent? <==> req.apiKey.None? || req.apiKey == Some("")
  {
    Body(Str(req.name), Str(req.username),
         if req.apiKey.Some? && req.apiKey.value != "" then Str(req.apiKey.value) else Absent)
  }

  /** Every request the dialog sends passes validation and stores what was asked for: the
      request itself comes back unless its key was empty, and the stored `config` is the
      same either way. */
  lemma ParseEncode(req: ConnectPlatformRequest)
    ensures ParseConnect(EncodeConnect(req)).Ok?
    ensures req.apiKey != Some("") ==> ParseConnect(EncodeConnect(req)) == Ok(req)
    ensures ConfigFor(ParseConnect(EncodeConnect(req)).value.apiKey) == ConfigFor(req.apiKey)
  {
  }

  /** The 400 reply for failed validation: the first issue's message and its path joined by ".". */
  function FirstIssue(issues: seq<Issue>): (r: Response)
    requires |issues| > 0
    ensures r.ValidationError? && r.message == issues[0].message
    ensures issues[0].path == [] ==> r.field == ""
    ensures |issues[0].path| == 1 ==> r.field == issues[0].path[0]
  {
    ValidationError(issues[0].message, Text.Join(issues[0].path, "."))
  }

  /** The stored `config`: `{ apiKey }` when a non-empty key was given (an empty string
      is falsy), `{}` otherwise. */
  function ConfigFor(apiKey: Option<string>): (c: Config)
    ensures "apiKey" in c <==> apiKey.Some? && apiKey.value != ""
    ensures "apiKey" in c ==> c["apiKey"] == apiKey.value
    ensures c.Keys <= {"apiKey"}
  {
    if apiKey.Some? && apiKey.value != "" then map["apiKey" := apiKey.value] else map[]
  }

  /** GET: the caller's rows, and no one else's. */
  method ListPlatforms(store: Storage.DatabaseStorage, callerId: string) returns (r: Response)
    requires store.Valid()
    ensures r.Listed? && Storage.IsListing(store.rows, callerId, r.platforms)
    ensures StatusCode(r) == 200
  {
    var platforms := store.GetPlatforms(callerId);
    r := Listed(platforms);
  }

  /** POST: validate, simulate the first snapshot, insert one row owned by the caller.
      A body that fails validation is answered 400 and inserts nothing. `checkTime` is the
      simulator's own clock reading and `now` the database's insert time: two readings. */
  method Connect(store: Storage.DatabaseStorage, callerId: string, body: ConnectBody,
                 checkTime: Timestamp, now: Timestamp)
    returns (r: Response)
    requires store.Valid()
    modifies store
    ensures store.Valid()
    ensures ParseConnect(body).Err? ==>
      && r == FirstIssue(ParseConnect(body).error)
      && store.rows == old(store.rows) && store.nextId == old(store.nextId)
    ensures ParseConnect(body).Ok? ==>
      var req := ParseConnect(body).value;
      && r.Created?
      && r.platform.id == old(store.nextId) && store.nextId == old(store.nextId) + 1
      && r.platform.id !in old(store.rows)
      && store.rows == old(store.rows)[r.platform.id := r.platform]
      && r.platform.userId == callerId
      && r.platform.name == req.name && r.platform.username == req.username
      && r.platform.config == ConfigFor(req.apiKey)
      && Simulator.Plausible(req.name, r.platform.stats, checkTime)
      && r.platform.lastUpdated == now
  {
    var parsed := ParseConnect(body);
    if parsed.Err? {
      return FirstIssue(parsed.error);
    }
    var input := parsed.value;
    var initialStats := Simulator.SimulateFetchStats(input.name, input.username, checkTime);
    var platform := store.CreatePlatform(
      InsertPlatform(callerId, input.name, input.username, Some(ConfigFor(input.apiKey))),
      Some(initialStats), now);
    r := Created(platform);
  }

  /** DELETE: 404 for an unknown id, checked first; 401 when the caller does not own the
      row; otherwise the row goes and the reply is 204. Only the success path changes the table. */
  method Delete(store: Storage.DatabaseStorage, callerId: string, id: int) returns (r: Response)
    requires store.Valid()
    modifies store
    ensures store.Valid() && store.nextId == old(store.nextId)
    ensures id !in old(store.rows) ==> r == NotFound && store.rows == old(store.rows)
    ensures id in old(store.rows) && old(store.rows)[id].userId != callerId ==>
      r == Unauthorized && store.rows == old(store.rows)
    ensures id in old(store.rows) && old(store.rows)[id].userId == callerId ==>
      r == NoContent && store.rows == old(store.rows) - {id}
  {
    var platform := store.GetPlatform(id);
    if platform.None? {
      return NotFound;
    }
    if platform.value.userId != callerId {
      return Unauthorized;
    }
    store.DeletePlatform(id);
    r := NoContent;
  }

  /** POST sync: the same 404-then-401 checks; otherwise a fresh snapshot for the stored
      name and username replaces `stats` wholesale and `lastUpdated` becomes now. The
      simulator and the update read the clock separately, at `checkTime` and `now`. */
  method Sync(store: Storage.DatabaseStorage, callerId: string, id: int, checkTime: Timestamp, now: Timestamp)
    returns (r: Response)
    requires store.Valid()
    modifies store
    ensures store.Valid() && store.nextId == old(store.nextId)
    ensures id !in old(store.rows) ==> r == NotFound && store.rows == old(store.rows)
    ensures id in old(store.rows) && old(store.rows)[id].userId != callerId ==>
      r == Unauthorized && store.rows == old(store.rows)
    ensures id in old(store.rows) && old(store.rows)[id].userId == callerId ==>
      var before := old(store.rows)[id];
      && r.Synced?
      && r.platform == before.(stats := r.platform.stats, lastUpdated := now)
      && Simulator.Plausible(before.name, r.platform.stats, checkTime)
      && store.rows == old(store.rows)[id := r.platform]
  {
    var platform := store.GetPlatform(id);
    if platform.None? {
      return NotFound;
    }
    if platform.value.userId != callerId {
      return Unauthorized;
    }
    var newStats := Simulator.SimulateFetchStats(platform.value.name, platform.value.username, checkTime);
    var updated := store.UpdatePlatformStats(id, newStats, now);
    r := Synced(updated.value);
  }

  /** POST analyze, as evidently intended (it reads the generated text as `response.text`,
      where the handler as written fails; see `Mirror.RespondAsWritten`): the caller's rows
      as fetched, and the reply for them; the requested `platformIds` play no part. `ser` stands for `JSON.stringify` and `generate` for
      the text-generation call. */
  method Analyze(store: Storage.DatabaseStorage, callerId: string, platformIds: seq<int>,
                 ser: Stats -> string, generate: string -> Mirror.EngineResult)
    returns (r: Response, listed: seq<Platform>)
    requires store.Valid()
    ensures Storage.IsListing(store.rows, callerId, listed)
    ensures r == Mirror.Respond(listed, ser, generate)
  {
    listed := store.GetPlatforms(callerId);
    if |listed| == 0 {
      r := Analysis(Mirror.Fallback);
      return;
    }
    var prompt := Mirror.Prompt(Mirror.Digest(listed, ser));
    var result := generate(prompt);
    match result
    case Rejected =>
      r := ServerError(Mirror.FailureMessage);
    case Resolved(response) =>
      r := Analysis(response.text);
  }

  /** A successful delete followed by a listing: the deleted id is not listed. */
  method DeleteThenList(store: Storage.DatabaseStorage, callerId: string, id: int)
    returns (deleted: Response, listed: Response)
    requires store.Valid()
    modifies store
    ensures deleted == NoContent ==> listed.Listed? && forall i :: 0 <= i < |listed.platforms| ==> listed.platforms[i].id != id
  {
    deleted := Delete(store, callerId, id);
    listed := ListPlatforms(store, callerId);
    if deleted == NoContent {
      Storage.DeletedNotListed(old(store.rows), id, callerId, listed.platforms);
    }
  }

  /** A deleted id is never handed out again: a connect after a successful delete gets
      a different id. */
  method DeleteThenConnect(store: Storage.DatabaseStorage, callerId: string, id: int, body: ConnectBody,
                           checkTime: Timestamp, now: Timestamp)
    returns (deleted: Response, created: Response)
    requires store.Valid()
    modifies store
    ensures deleted == NoContent && ParseConnect(body).Ok? ==> created.Created? && created.platform.id != id
  {
    deleted := Delete(store, callerId, id);
    created := Connect(store, callerId, body, checkTime, now);
  }

  /** A caller with no rows gets the fallback text, and the prompt is never built. */
  lemma AnalyzeWithoutPlatforms(rows: map<int, Platform>, callerId: string, listed: seq<Platform>,
                                ser: Stats -> string, generate: string -> Mirror.EngineResult)
    requires Storage.IsListing(rows, callerId, listed)
    requires forall id :: id in rows ==> rows[id].userId != callerId
    ensures Mirror.Request(listed, ser) == None
    ensures Mirror.Respond(listed, ser, generate) == Analysis(Mirror.Fallback)
  {
  }
}
