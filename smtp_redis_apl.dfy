/** The SMTP app's `RedisAPL` (apps/smtp/src/apl.ts): auth data as JSON
    strings in Redis under `APP_SMTP:<saleorApiUrl>`.

    The constructor starts the one connection attempt; every operation
    awaits that same attempt, so its outcome is fixed for the life of the
    instance. The Redis key space is the `store` field; what one command
    does (`Reply`) and the JSON codec are parameters. */
module SmtpRedisApl {
  import opened Wrappers
  import A = MongoApl

  /** `JSON.stringify` on `AuthData`, and `JSON.parse` (None: it throws). */
  datatype Json = Json(stringify: A.AuthData -> string, parse: string -> Option<A.AuthData>)

  /** Parsing gives back what was stringified, and the text is never empty
      (it is at least "{}"). */
  ghost predicate RoundTrips(json: Json)
  {
    forall a :: json.parse(json.stringify(a)) == Some(a) && json.stringify(a) != ""
  }

  /** What one Redis command, or the connection attempt, does. */
  datatype Reply = Completes | Fails(reason: string)

  /** What an operation rethrows. */
  datatype Failure =
    | ConnectionFailed(reason: string)
    | CommandFailed(reason: string)
    | InvalidJson
    | NotImplemented(message: string)

  datatype ReadyResult = Ready | NotReady(error: Failure)

  /** What `reconnectStrategy` tells the client: give up with an `Error`, or
      wait this many milliseconds. */
  datatype Backoff = GiveUp(message: string) | RetryAfter(ms: nat)

  function Min(a: int, b: int): int
  {
    if a <= b then a else b
  }

  /** `reconnectStrategy(retries)`: give up after ten retries, otherwise
      wait `min(retries * 100, 3000)`; the cap never binds, since the
      largest delay offered is 1000. */
  function ReconnectStrategy(retries: nat): (r: Backoff)
    ensures r.GiveUp? <==> retries > 10
    ensures r.RetryAfter? ==> r.ms == retries * 100 <= 1000
  {
    if retries > 10 then GiveUp("Redis connection failed") else RetryAfter(Min(retries * 100, 3000))
  }

  /** The delay grows with the number of retries, until it gives up. */
  lemma BackoffGrows(i: nat, j: nat)
    requires i <= j <= 10
    ensures ReconnectStrategy(i).ms <= ReconnectStrategy(j).ms
  {
  }

  /** `prepareAuthDataKey(apiUrl)` */
  function Key(saleorApiUrl: string): (k: string)
    ensures StartsWith(k, "APP_SMTP:") && k[|"APP_SMTP:"|..] == saleorApiUrl
  {
    "APP_SMTP:" + saleorApiUrl
  }

  /** Different URLs never share a key. */
  lemma KeyInjective(u1: string, u2: string)
    requires Key(u1) == Key(u2)
    ensures u1 == u2
  {
    assert u1 == Key(u1)[|"APP_SMTP:"|..];
  }

  /** `get` once connected and `GET` has answered: an absent or empty value
      is `undefined`. */
  function Lookup(json: Json, store: map<string, string>, saleorApiUrl: string): (r: Result<Option<A.AuthData>, Failure>)
    ensures (Key(saleorApiUrl) !in store || store[Key(saleorApiUrl)] == "") ==> r == Ok(None)
    ensures r.Err? ==> r.error == InvalidJson
  {
    var k := Key(saleorApiUrl);
    if k !in store || store[k] == "" then Ok(None)
    else match json.parse(store[k])
      case None => Err(InvalidJson)
      case Some(a) => Ok(Some(a))
  }

  /** The `SET` of `set(authData)`. */
  function Put(json: Json, store: map<string, string>, a: A.AuthData): (r: map<string, string>)
    ensures r.Keys == store.Keys + {Key(a.saleorApiUrl)}
    ensures forall k :: k in store && k != Key(a.saleorApiUrl) ==> r[k] == store[k]
  {
    store[Key(a.saleorApiUrl) := json.stringify(a)]
  }

  /** The `DEL` of `delete(saleorApiUrl)`. */
  function Remove(store: map<string, string>, saleorApiUrl: string): (r: map<string, string>)
    ensures r.Keys == store.Keys - {Key(saleorApiUrl)}
    ensures forall k :: k in r ==> r[k] == store[k]
  {
    store - {Key(saleorApiUrl)}
  }

  /** Set then get of the same URL gives back the record. */
  lemma GetAfterSet(json: Json, store: map<string, string>, a: A.AuthData)
    requires RoundTrips(json)
    ensures Lookup(json, Put(json, store, a), a.saleorApiUrl) == Ok(Some(a))
  {
    assert json.parse(json.stringify(a)) == Some(a) && json.stringify(a) != "";
  }

  /** Delete then get of the same URL gives `undefined`. */
  lemma GetAfterDelete(json: Json, store: map<string, string>, saleorApiUrl: string)
    ensures Lookup(json, Remove(store, saleorApiUrl), saleorApiUrl) == Ok(None)
  {
  }

  /** Writing one URL's record changes no other URL's lookup. */
  lemma OtherUrlsUnaffected(json: Json, store: map<string, string>, a: A.AuthData, other: string)
    requires other != a.saleorApiUrl
    ensures Lookup(json, Put(json, store, a), other) == Lookup(json, store, other)
    ensures Lookup(json, Remove(store, a.saleorApiUrl), other) == Lookup(json, store, other)
  {
    if Key(other) == Key(a.saleorApiUrl) {
      KeyInjective(other, a.saleorApiUrl);
    }
  }

  class RedisAPL {
    const url: string
    const json: Json
    /** how `connectionPromise`, started by the constructor, settles */
    const connection: Reply
    /** the Redis key space */
    var store: map<string, string>

    /** `new RedisAPL({ url })` */
    constructor(url: string, json: Json, connection: Reply, store: map<string, string>)
      ensures this.url == url && this.json == json && this.connection == connection
      ensures this.store == store
    {
      this.url := url;
      this.json := json;
      this.connection := connection;
      this.store := store;
    }

    method Get(saleorApiUrl: string, reply: Reply) returns (r: Result<Option<A.AuthData>, Failure>)
      ensures connection.Fails? ==> r == Err(ConnectionFailed(connection.reason))
      ensures connection.Completes? && reply.Fails? ==> r == Err(CommandFailed(reply.reason))
      ensures connection.Completes? && reply.Completes? ==> r == Lookup(json, store, saleorApiUrl)
    {
      if connection.Fails? {
        return Err(ConnectionFailed(connection.reason));
      }
      if reply.Fails? {
        return Err(CommandFailed(reply.reason));
      }
      var k := Key(saleorApiUrl);
      if k in store && store[k] != "" {
        var parsed := json.parse(store[k]);
        if parsed.None? {
          return Err(InvalidJson);
        }
        return Ok(parsed);
      }
      return Ok(None);
    }

    method Set(authData: A.AuthData, reply: Reply) returns (r: Result<(), Failure>)
      modifies this`store
      ensures connection.Fails? ==> r == Err(ConnectionFailed(connection.reason))
      ensures connection.Completes? && reply.Fails? ==> r == Err(CommandFailed(reply.reason))
      ensures r.Err? ==> store == old(store)
      ensures r.Ok? ==> store == Put(json, old(store), authData)
    {
      if connection.Fails? {
        return Err(ConnectionFailed(connection.reason));
      }
      if reply.Fails? {
        return Err(CommandFailed(reply.reason));
      }
      store := store[Key(authData.saleorApiUrl) := json.stringify(authData)];
      return Ok(());
    }

    method Delete(saleorApiUrl: string, reply: Reply) returns (r: Result<(), Failure>)
      modifies this`store
      ensures connection.Fails? ==> r == Err(ConnectionFailed(connection.reason))
      ensures connection.Completes? && reply.Fails? ==> r == Err(CommandFailed(reply.reason))
      ensures r.Err? ==> store == old(store)
      ensures r.Ok? ==> store == Remove(old(store), saleorApiUrl)
    {
      if connection.Fails? {
        return Err(ConnectionFailed(connection.reason));
      }
      if reply.Fails? {
        return Err(CommandFailed(reply.reason));
      }
      store := store - {Key(saleorApiUrl)};
      return Ok(());
    }

    /** `getAll()` is not supported and always throws. */
    method GetAll() returns (r: Result<seq<A.AuthData>, Failure>)
      ensures r == Err(NotImplemented("Not implemented."))
    {
      return Err(NotImplemented("Not implemented."));
    }

    /** `isReady()`: the connection and a `PING`; never throws. */
    method IsReady(ping: Reply) returns (r: ReadyResult)
      ensures r.Ready? <==> connection.Completes? && ping.Completes?
      ensures connection.Fails? ==> r == NotReady(ConnectionFailed(connection.reason))
      ensures connection.Completes? && ping.Fails? ==> r == NotReady(CommandFailed(ping.reason))
    {
      if connection.Fails? {
        return NotReady(ConnectionFailed(connection.reason));
      }
      if ping.Fails? {
        return NotReady(CommandFailed(ping.reason));
      }
      return Ready;
    }

    /** `isConfigured()`: configured whatever the state. */
    method IsConfigured() returns (configured: bool)
      ensures configured
    {
      return true;
    }
  }
}
