/** The Stripe app's `MongoAPL` (apps/stripe/src/modules/apl/mongodb-apl.ts):
    auth data in the `apl_auth_data` collection, a connection memo that keeps
    a failed attempt for good, URL validation in `get` and `delete`, and
    errors wrapped in one error class per operation.

    `env.MONGODB_URL` and `createSaleorApiUrl` are fixed for the instance's
    life and are constructor parameters. The collection is a field because
    the methods change it in place; a new instance is given the collection's
    current content. */
module StripeMongoApl {
  import opened Wrappers
  import opened MongoLifecycle
  import MC = MongoCollection
  import A = MongoApl

  datatype AplError =
    | ValueError                          // "Value Error: Provided saleorApiUrl is invalid."
    | GetAuthDataError(cause: A.Cause)    // "Failed to get APL entry"
    | SetAuthDataError(cause: A.Cause)    // "Failed to set APL entry"
    | DeleteAuthDataError(cause: A.Cause) // "Failed to delete APL entry"
    | GetAllAuthDataError(cause: A.Cause) // "Failed to get all APL entries"

  /** `catch (error) { throw new XError(..., { cause: error }) }` */
  function WrapErr<T>(r: Result<T, A.Cause>, wrap: A.Cause -> AplError): (w: Result<T, AplError>)
    ensures r.Ok? <==> w.Ok?
    ensures r.Ok? ==> w.value == r.value
    ensures r.Err? ==> w.error == wrap(r.error)
  {
    match r
    case Ok(v) => Ok(v)
    case Err(c) => Err(wrap(c))
  }

  class MongoAPL {
    /** `env.MONGODB_URL` */
    const mongoUrl: EnvVar
    /** `createSaleorApiUrl`: the branded URL, or None when it rejects the
        string. It is not part of this model. */
    const createSaleorApiUrl: string -> Option<string>

    var connectionPromise: Memo
    var client: bool
    /** `db` and `collection`, which are set and cleared together */
    var collection: bool
    /** the `apl_auth_data` collection, by `saleorApiUrl` */
    var authData: map<string, MC.Doc<A.AuthData>>
    /** the `_id` the driver assigns to the next inserted document */
    var nextObjectId: nat

    function Connection(): Conn
      reads this
    {
      Conn(connectionPromise, client, collection)
    }

    function State(): A.Store
      reads this
    {
      A.Store(Connection(), authData, nextObjectId)
    }

    predicate Valid()
      reads this
    {
      Wf(Connection())
    }

    /** `new MongoAPL()`: nothing is connected until first use. */
    constructor(mongoUrl: EnvVar, createSaleorApiUrl: string -> Option<string>,
                stored: map<string, MC.Doc<A.AuthData>>, nextObjectId: nat)
      ensures Valid()
      ensures this.mongoUrl == mongoUrl && this.createSaleorApiUrl == createSaleorApiUrl
      ensures State() == A.Initial(stored, nextObjectId)
    {
      this.mongoUrl := mongoUrl;
      this.createSaleorApiUrl := createSaleorApiUrl;
      connectionPromise := Unset;
      client := false;
      collection := false;
      authData := stored;
      this.nextObjectId := nextObjectId;
    }

    /** `connect()`, run to completion; returns what its promise settles to.
        The client is assigned once `new MongoClient(url)` accepts the URL,
        before the first `await`; the collection
        after `client.connect()`; a failure leaves both as they are. */
    method Connect(dial: Dial) returns (settled: Memo)
      requires !client && !collection
      modifies this`client, this`collection
      ensures Conn(settled, client, collection) == AfterAttempt(KeepFailure, Truthy(mongoUrl), dial)
    {
      if !Truthy(mongoUrl) {
        return Rejected(MissingUrl);
      }
      if dial.Unparsable? {
        return Rejected(InvalidUrl(dial.reason));
      }
      client := true;
      if dial.Unreachable? {
        return Rejected(ClientConnectFailed(dial.reason));
      }
      collection := true;
      if dial.IndexRejected? {
        return Rejected(IndexCreationFailed(dial.reason));
      }
      return Fulfilled;
    }

    /** `ensureConnection()`: the memoized attempt is never cleared. */
    method EnsureConnection(dial: Dial) returns (r: Result<(), ConnectionError>)
      requires Valid()
      modifies this`connectionPromise, this`client, this`collection
      ensures Valid()
      ensures Step(Connection(), r) == Ensure(KeepFailure, Truthy(mongoUrl), dial, old(Connection()))
    {
      if connectionPromise.Unset? {
        connectionPromise := Connect(dial);
      }
      if connectionPromise.Rejected? {
        return Err(ConnectFailed(connectionPromise.cause));
      }
      if !collection {
        return Err(NotEstablished);
      }
      return Ok(());
    }

    /** `get(saleorApiUrl)`: an invalid URL is refused before the connection
        is touched. */
    method Get(saleorApiUrl: string, dial: Dial, io: MC.Io) returns (r: Result<Option<A.AuthData>, AplError>)
      requires Valid()
      modifies this`connectionPromise, this`client, this`collection
      ensures Valid()
      ensures createSaleorApiUrl(saleorApiUrl).None? ==> r == Err(ValueError) && State() == old(State())
      ensures createSaleorApiUrl(saleorApiUrl).Some? ==>
        var o := A.Get(KeepFailure, Truthy(mongoUrl), dial, io, old(State()), createSaleorApiUrl(saleorApiUrl).value);
        State() == o.store && r == WrapErr(o.result, c => GetAuthDataError(c))
    {
      var parsed := createSaleorApiUrl(saleorApiUrl);
      if parsed.None? {
        return Err(ValueError);
      }
      var connected := EnsureConnection(dial);
      if connected.Err? {
        return Err(GetAuthDataError(A.Connection(connected.error)));
      }
      if io.Broken? {
        return Err(GetAuthDataError(A.Driver(io.reason)));
      }
      var found := MC.FindOne(authData, parsed.value);
      return Ok(found);
    }

    /** `set(authData)`: no URL check; an upsert keyed by the record's URL. */
    method Set(a: A.AuthData, dial: Dial, io: MC.Io) returns (r: Result<(), AplError>)
      requires Valid()
      modifies this`connectionPromise, this`client, this`collection, this`authData, this`nextObjectId
      ensures Valid()
      ensures var o := A.Set(KeepFailure, Truthy(mongoUrl), dial, io, old(State()), a);
        State() == o.store && r == WrapErr(o.result, c => SetAuthDataError(c))
    {
      var connected := EnsureConnection(dial);
      if connected.Err? {
        return Err(SetAuthDataError(A.Connection(connected.error)));
      }
      if io.Broken? {
        return Err(SetAuthDataError(A.Driver(io.reason)));
      }
      authData := MC.ReplaceOneUpsert(authData, a.saleorApiUrl, a, nextObjectId);
      nextObjectId := nextObjectId + 1;
      return Ok(());
    }

    /** `delete(saleorApiUrl)`: an invalid URL is refused before the
        connection is touched; the match count is not inspected. */
    method Delete(saleorApiUrl: string, dial: Dial, io: MC.Io) returns (r: Result<(), AplError>)
      requires Valid()
      modifies this`connectionPromise, this`client, this`collection, this`authData
      ensures Valid()
      ensures createSaleorApiUrl(saleorApiUrl).None? ==> r == Err(ValueError) && State() == old(State())
      ensures createSaleorApiUrl(saleorApiUrl).Some? ==>
        var o := A.Delete(KeepFailure, Truthy(mongoUrl), dial, io, old(State()), createSaleorApiUrl(saleorApiUrl).value);
        State() == o.store && r == WrapErr(o.result, c => DeleteAuthDataError(c))
    {
      var parsed := createSaleorApiUrl(saleorApiUrl);
      if parsed.None? {
        return Err(ValueError);
      }
      var connected := EnsureConnection(dial);
      if connected.Err? {
        return Err(DeleteAuthDataError(A.Connection(connected.error)));
      }
      if io.Broken? {
        return Err(DeleteAuthDataError(A.Driver(io.reason)));
      }
      authData := MC.DeleteOne(authData, parsed.value);
      return Ok(());
    }

    /** `getAll()`: every stored record, `_id` removed. */
    method GetAll(dial: Dial, io: MC.Io) returns (r: Result<seq<A.AuthData>, AplError>)
      requires Valid()
      modifies this`connectionPromise, this`client, this`collection
      ensures Valid()
      ensures var o := A.GetAll(KeepFailure, Truthy(mongoUrl), dial, io, old(State()));
        && State() == o.store
        && (o.result.Err? ==> r == Err(GetAllAuthDataError(o.result.error)))
        && (o.result.Ok? ==> r.Ok? && |r.value| == |authData| && forall x :: x in r.value <==> x in o.result.value)
    {
      var connected := EnsureConnection(dial);
      if connected.Err? {
        return Err(GetAllAuthDataError(A.Connection(connected.error)));
      }
      if io.Broken? {
        return Err(GetAllAuthDataError(A.Driver(io.reason)));
      }
      var results := MC.ToArray(authData);
      return Ok(results);
    }

    /** `isReady()`: never throws; any failure is reported as not ready. */
    method IsReady(dial: Dial, ping: MC.Io) returns (r: A.ReadyResult)
      requires Valid()
      modifies this`connectionPromise, this`client, this`collection
      ensures Valid()
      ensures (State(), r) == A.IsReady(KeepFailure, Truthy(mongoUrl), dial, ping, old(State()))
    {
      var connected := EnsureConnection(dial);
      if connected.Err? {
        return A.NotReady(A.Connection(connected.error));
      }
      if ping.Broken? {
        return A.NotReady(A.Driver(ping.reason));
      }
      return A.Ready;
    }

    /** `isConfigured()`: a check of `MONGODB_URL` alone, with no I/O. */
    method IsConfigured() returns (r: A.ConfiguredResult)
      ensures r.Configured? <==> Truthy(mongoUrl)
    {
      NonEmptyStringIsTruthy(mongoUrl);
      r := if NonEmptyString(mongoUrl) then A.Configured else A.NotConfigured;
    }

    /** `close()`: drops the client and handles but keeps the memo. */
    method Close()
      requires Valid()
      modifies this`client, this`collection
      ensures Valid()
      ensures Connection() == MongoLifecycle.Close(old(Connection()))
    {
      if client {
        client := false;
        collection := false;
      }
    }
  }
}
