/** The OCR-credits app's `MongoAPL` (apps/ocr-credits/src/mongodb-apl.ts).
    It differs from the Stripe copy in three ways: a connect failure clears
    every connection field, the memo included, so the next call tries
    afresh; URLs are used as given, with no validation; and there is no
    `close()`. */
module OcrMongoApl {
  import opened Wrappers
  import opened MongoLifecycle
  import MC = MongoCollection
  import A = MongoApl

  datatype AplError =
    | GetAuthDataError(cause: A.Cause)    // "Failed to get APL entry"
    | SetAuthDataError(cause: A.Cause)    // "Failed to set APL entry"
    | DeleteAuthDataError(cause: A.Cause) // "Failed to delete APL entry"
    | GetAllAuthDataError(cause: A.Cause) // "Failed to get all APL entries"

  function WrapErr<T>(r: Result<T, A.Cause>, wrap: A.Cause -> AplError): (w: Result<T, AplError>)
    ensures r.Ok? <==> w.Ok?
    ensures r.Ok? ==> w.value == r.value
    ensures r.Err? ==> w.error == wrap(r.error)
  {
    match r
    case Ok(v) => Ok(v)
    case Err(c) => Err(wrap(c))
  }

  class MongoAPL {
    /** `env.MONGODB_URL` */
    const mongoUrl: EnvVar

    var connectionPromise: Memo
    var client: bool
    /** `db` and `collection`, which are set and cleared together */
    var collection: bool
    /** the `apl_auth_data` collection, by `saleorApiUrl` */
    var authData: map<string, MC.Doc<A.AuthData>>
    /** the `_id` the driver assigns to the next inserted document */
    var nextObjectId: nat

    function Connection(): Conn
      reads this
    {
      Conn(connectionPromise, client, collection)
    }

    function State(): A.Store
      reads this
    {
      A.Store(Connection(), authData, nextObjectId)
    }

    predicate Valid()
      reads this
    {
      Wf(Connection())
    }

    constructor(mongoUrl: EnvVar, stored: map<string, MC.Doc<A.AuthData>>, nextObjectId: nat)
      ensures Valid()
      ensures this.mongoUrl == mongoUrl
      ensures State() == A.Initial(stored, nextObjectId)
    {
      this.mongoUrl := mongoUrl;
      connectionPromise := Unset;
      client := false;
      collection := false;
      authData := stored;
      this.nextObjectId := nextObjectId;
    }

    /** The `catch` block of `connect()`: close the client (a failure to
        close is swallowed) and clear client, db, collection and the memo. */
    method ResetConnection()
      modifies this`connectionPromise, this`client, this`collection
      ensures Connection() == Fresh
    {
      if client {
        client := false;
      }
      collection := false;
      connectionPromise := Unset;
    }

    /** `ensureConnection()`. `connect()` runs synchronously up to its first
        `await`: without a URL, or when `new MongoClient(...)` rejects the
        URL, it throws there, and its `catch` block has
        already cleared the fields when line 70 stores the rejected promise,
        which therefore stays memoized. Otherwise the pending promise is
        stored first and a later failure clears it again. */
    method EnsureConnection(dial: Dial) returns (r: Result<(), ConnectionError>)
      requires Valid()
      modifies this`connectionPromise, this`client, this`collection
      ensures Valid()
      ensures Step(Connection(), r) == Ensure(ResetOnFailure, Truthy(mongoUrl), dial, old(Connection()))
    {
      var awaited := connectionPromise;
      if connectionPromise.Unset? {
        if !Truthy(mongoUrl) {
          ResetConnection();
          connectionPromise := Rejected(MissingUrl);
          awaited := connectionPromise;
        } else if dial.Unparsable? {
          ResetConnection();
          connectionPromise := Rejected(InvalidUrl(dial.reason));
          awaited := connectionPromise;
        } else {
          client := true;
          if !dial.Unreachable? {
            collection := true;
          }
          awaited := Settled(AttemptFailure(true, dial));
          connectionPromise := awaited;
          if awaited.Rejected? {
            ResetConnection();
          }
        }
      }
      if awaited.Rejected? {
        return Err(ConnectFailed(awaited.cause));
      }
      if !collection {
        return Err(NotEstablished);
      }
      return Ok(());
    }

    /** `get(saleorApiUrl)`: the URL is used as given. */
    method Get(saleorApiUrl: string, dial: Dial, io: MC.Io) returns (r: Result<Option<A.AuthData>, AplError>)
      requires Valid()
      modifies this`connectionPromise, this`client, this`collection
      ensures Valid()
      ensures var o := A.Get(ResetOnFailure, Truthy(mongoUrl), dial, io, old(State()), saleorApiUrl);
        State() == o.store && r == WrapErr(o.result, c => GetAuthDataError(c))
    {
      var connected := EnsureConnection(dial);
      if connected.Err? {
        return Err(GetAuthDataError(A.Connection(connected.error)));
      }
      if io.Broken? {
        return Err(GetAuthDataError(A.Driver(io.reason)));
      }
      var found := MC.FindOne(authData, saleorApiUrl);
      return Ok(found);
    }

    /** `set(authData)`: an upsert keyed by the record's URL. */
    method Set(a: A.AuthData, dial: Dial, io: MC.Io) returns (r: Result<(), AplError>)
      requires Valid()
      modifies this`connectionPromise, this`client, this`collection, this`authData, this`nextObjectId
      ensures Valid()
      ensures var o := A.Set(ResetOnFailure, Truthy(mongoUrl), dial, io, old(State()), a);
        State() == o.store && r == WrapErr(o.result, c => SetAuthDataError(c))
    {
      var connected := EnsureConnection(dial);
      if connected.Err? {
        return Err(SetAuthDataError(A.Connection(connected.error)));
      }
      if io.Broken? {
        return Err(SetAuthDataError(A.Driver(io.reason)));
      }
      authData := MC.ReplaceOneUpsert(authData, a.saleorApiUrl, a, nextObjectId);
      nextObjectId := nextObjectId + 1;
      return Ok(());
    }

    /** `delete(saleorApiUrl)`: the URL is used as given. */
    method Delete(saleorApiUrl: string, dial: Dial, io: MC.Io) returns (r: Result<(), AplError>)
      requires Valid()
      modifies this`connectionPromise, this`client, this`collection, this`authData
      ensures Valid()
      ensures var o := A.Delete(ResetOnFailure, Truthy(mongoUrl), dial, io, old(State()), saleorApiUrl);
        State() == o.store && r == WrapErr(o.result, c => DeleteAuthDataError(c))
    {
      var connected := EnsureConnection(dial);
      if connected.Err? {
        return Err(DeleteAuthDataError(A.Connection(connected.error)));
      }
      if io.Broken? {
        return Err(DeleteAuthDataError(A.Driver(io.reason)));
      }
      authData := MC.DeleteOne(authData, saleorApiUrl);
      return Ok(());
    }

    /** `getAll()`: every stored record, `_id` removed. */
    method GetAll(dial: Dial, io: MC.Io) returns (r: Result<seq<A.AuthData>, AplError>)
      requires Valid()
      modifies this`connectionPromise, this`client, this`collection
      ensures Valid()
      ensures var o := A.GetAll(ResetOnFailure, Truthy(mongoUrl), dial, io, old(State()));
        && State() == o.store
        && (o.result.Err? ==> r == Err(GetAllAuthDataError(o.result.error)))
        && (o.result.Ok? ==> r.Ok? && |r.value| == |authData| && forall x :: x in r.value <==> x in o.result.value)
    {
      var connected := EnsureConnection(dial);
      if connected.Err? {
        return Err(GetAllAuthDataError(A.Connection(connected.error)));
      }
      if io.Broken? {
        return Err(GetAllAuthDataError(A.Driver(io.reason)));
      }
      var results := MC.ToArray(authData);
      return Ok(results);
    }

    /** `isReady()`: never throws. */
    method IsReady(dial: Dial, ping: MC.Io) returns (r: A.ReadyResult)
      requires Valid()
      modifies this`connectionPromise, this`client, this`collection
      ensures Valid()
      ensures (State(), r) == A.IsReady(ResetOnFailure, Truthy(mongoUrl), dial, ping, old(State()))
    {
      var connected := EnsureConnection(dial);
      if connected.Err? {
        return A.NotReady(A.Connection(connected.error));
      }
      if ping.Broken? {
        return A.NotReady(A.Driver(ping.reason));
      }
      return A.Ready;
    }

    /** `isConfigured()`: a check of `MONGODB_URL` alone, with no I/O. */
    method IsConfigured() returns (r: A.ConfiguredResult)
      ensures r.Configured? <==> Truthy(mongoUrl)
    {
      NonEmptyStringIsTruthy(mongoUrl);
      r := if NonEmptyString(mongoUrl) then A.Configured else A.NotConfigured;
    }
  }
}
