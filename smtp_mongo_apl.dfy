/** The SMTP app's `MongoAPL` (apps/smtp/src/modules/apl/mongodb-apl.ts).
    The connection memo behaves as in the Stripe copy (a failed attempt is
    kept for good, `close()` keeps the memo); URLs are used as given; and
    every failure is a plain `Error` whose message is the operation's own
    text followed by the caught error rendered as a string. */
module SmtpMongoApl {
  import opened Wrappers
  import opened MongoLifecycle
  import MC = MongoCollection
  import A = MongoApl

  /** A plain JavaScript `Error`. */
  datatype Error = Error(message: string)

  /** `${error}` for an `Error`: its name, ": ", then its message. */
  function Rendered(e: Error): string
  {
    "Error: " + e.message
  }

  /** The message of the `Error` thrown by `connect()`; a driver failure
      `reason` is the driver error already rendered as a string. */
  function ConnectMessage(f: ConnectFailure): (m: string)
    ensures StartsWith(m, "Failed to connect to MongoDB: ")
  {
    var prefix := "Failed to connect to MongoDB: ";
    var rest := match f
      case MissingUrl => Rendered(Error("MONGODB_URL is required"))
      case InvalidUrl(reason) => reason
      case ClientConnectFailed(reason) => reason
      case IndexCreationFailed(reason) => reason;
    assert (prefix + rest)[..|prefix|] == prefix;
    prefix + rest
  }

  /** The caught error of an operation, rendered as a string. */
  function CauseText(c: A.Cause): string
  {
    match c
    case Connection(ConnectFailed(f)) => Rendered(Error(ConnectMessage(f)))
    case Connection(NotEstablished) => Rendered(Error("MongoDB connection not established"))
    case Driver(reason) => reason
  }

  datatype Operation = GetOp | SetOp | DeleteOp | GetAllOp

  function Prefix(op: Operation): string
  {
    match op
    case GetOp => "Failed to get APL entry: "
    case SetOp => "Failed to set APL entry: "
    case DeleteOp => "Failed to delete APL entry: "
    case GetAllOp => "Failed to get all APL entries: "
  }

  /** `throw new Error(`Failed to ... : ${error}`)` */
  function Wrapped(op: Operation, c: A.Cause): (e: Error)
    ensures StartsWith(e.message, Prefix(op))
  {
    var m := Prefix(op) + CauseText(c);
    assert m[..|Prefix(op)|] == Prefix(op);
    Error(m)
  }

  function WrapErr<T>(r: Result<T, A.Cause>, op: Operation): (w: Result<T, Error>)
    ensures r.Ok? <==> w.Ok?
    ensures r.Ok? ==> w.value == r.value
    ensures r.Err? ==> w.error == Wrapped(op, r.error)
  {
    match r
    case Ok(v) => Ok(v)
    case Err(c) => Err(Wrapped(op, c))
  }

  /** The characters at positions 10 and 14 tell the four prefixes apart. */
  lemma PrefixMarks(op: Operation)
    ensures |Prefix(op)| > 14
    ensures Prefix(op)[10] == (if op.SetOp? then 's' else if op.DeleteOp? then 'd' else 'g')
    ensures Prefix(op)[14] == (if op.GetOp? then 'A' else if op.GetAllOp? then 'a' else Prefix(op)[14])
  {
  }

  /** The message names the operation that failed: two different
      operations never produce the same message. */
  lemma MessagesNameTheOperation(op1: Operation, c1: A.Cause, op2: Operation, c2: A.Cause)
    requires op1 != op2
    ensures Wrapped(op1, c1).message != Wrapped(op2, c2).message
  {
    var m1 := Wrapped(op1, c1).message;
    var m2 := Wrapped(op2, c2).message;
    PrefixMarks(op1);
    PrefixMarks(op2);
    assert m1[..|Prefix(op1)|] == Prefix(op1) && m2[..|Prefix(op2)|] == Prefix(op2);
    assert m1[10] == Prefix(op1)[10] && m2[10] == Prefix(op2)[10];
    assert m1[14] == Prefix(op1)[14] && m2[14] == Prefix(op2)[14];
  }

  class MongoAPL {
    /** `env.MONGODB_URL` */
    const mongoUrl: EnvVar

    var connectionPromise: Memo
    var client: bool
    /** `db` and `collection`, which are set and cleared together */
    var collection: bool
    /** the `apl_auth_data` collection, by `saleorApiUrl` */
    var authData: map<string, MC.Doc<A.AuthData>>
    /** the `_id` the driver assigns to the next inserted document */
    var nextObjectId: nat

    function Connection(): Conn
      reads this
    {
      Conn(connectionPromise, client, collection)
    }

    function State(): A.Store
      reads this
    {
      A.Store(Connection(), authData, nextObjectId)
    }

    predicate Valid()
      reads this
    {
      Wf(Connection())
    }

    constructor(mongoUrl: EnvVar, stored: map<string, MC.Doc<A.AuthData>>, nextObjectId: nat)
      ensures Valid()
      ensures this.mongoUrl == mongoUrl
      ensures State() == A.Initial(stored, nextObjectId)
    {
      this.mongoUrl := mongoUrl;
      connectionPromise := Unset;
      client := false;
      collection := false;
      authData := stored;
      this.nextObjectId := nextObjectId;
    }

    /** `connect()`, run to completion; returns what its promise settles to. */
    method Connect(dial: Dial) returns (settled: Memo)
      requires !client && !collection
      modifies this`client, this`collection
      ensures Conn(settled, client, collection) == AfterAttempt(KeepFailure, Truthy(mongoUrl), dial)
    {
      if !Truthy(mongoUrl) {
        return Rejected(MissingUrl);
      }
      if dial.Unparsable? {
        return Rejected(InvalidUrl(dial.reason));
      }
      client := true;
      if dial.Unreachable? {
        return Rejected(ClientConnectFailed(dial.reason));
      }
      collection := true;
      if dial.IndexRejected? {
        return Rejected(IndexCreationFailed(dial.reason));
      }
      return Fulfilled;
    }

    /** `ensureConnection()`: the memoized attempt is never cleared. */
    method EnsureConnection(dial: Dial) returns (r: Result<(), ConnectionError>)
      requires Valid()
      modifies this`connectionPromise, this`client, this`collection
      ensures Valid()
      ensures Step(Connection(), r) == Ensure(KeepFailure, Truthy(mongoUrl), dial, old(Connection()))
    {
      if connectionPromise.Unset? {
        connectionPromise := Connect(dial);
      }
      if connectionPromise.Rejected? {
        return Err(ConnectFailed(connectionPromise.cause));
      }
      if !collection {
        return Err(NotEstablished);
      }
      return Ok(());
    }

    method Get(saleorApiUrl: string, dial: Dial, io: MC.Io) returns (r: Result<Option<A.AuthData>, Error>)
      requires Valid()
      modifies this`connectionPromise, this`client, this`collection
      ensures Valid()
      ensures var o := A.Get(KeepFailure, Truthy(mongoUrl), dial, io, old(State()), saleorApiUrl);
        State() == o.store && r == WrapErr(o.result, GetOp)
    {
      var connected := EnsureConnection(dial);
      if connected.Err? {
        return Err(Wrapped(GetOp, A.Connection(connected.error)));
      }
      if io.Broken? {
        return Err(Wrapped(GetOp, A.Driver(io.reason)));
      }
      var found := MC.FindOne(authData, saleorApiUrl);
      return Ok(found);
    }

    method Set(a: A.AuthData, dial: Dial, io: MC.Io) returns (r: Result<(), Error>)
      requires Valid()
      modifies this`connectionPromise, this`client, this`collection, this`authData, this`nextObjectId
      ensures Valid()
      ensures var o := A.Set(KeepFailure, Truthy(mongoUrl), dial, io, old(State()), a);
        State() == o.store && r == WrapErr(o.result, SetOp)
    {
      var connected := EnsureConnection(dial);
      if connected.Err? {
        return Err(Wrapped(SetOp, A.Connection(connected.error)));
      }
      if io.Broken? {
        return Err(Wrapped(SetOp, A.Driver(io.reason)));
      }
      authData := MC.ReplaceOneUpsert(authData, a.saleorApiUrl, a, nextObjectId);
      nextObjectId := nextObjectId + 1;
      return Ok(());
    }

    method Delete(saleorApiUrl: string, dial: Dial, io: MC.Io) returns (r: Result<(), Error>)
      requires Valid()
      modifies this`connectionPromise, this`client, this`collection, this`authData
      ensures Valid()
      ensures var o := A.Delete(KeepFailure, Truthy(mongoUrl), dial, io, old(State()), saleorApiUrl);
        State() == o.store && r == WrapErr(o.result, DeleteOp)
    {
      var connected := EnsureConnection(dial);
      if connected.Err? {
        return Err(Wrapped(DeleteOp, A.Connection(connected.error)));
      }
      if io.Broken? {
        return Err(Wrapped(DeleteOp, A.Driver(io.reason)));
      }
      authData := MC.DeleteOne(authData, saleorApiUrl);
      return Ok(());
    }

    method GetAll(dial: Dial, io: MC.Io) returns (r: Result<seq<A.AuthData>, Error>)
      requires Valid()
      modifies this`connectionPromise, this`client, this`collection
      ensures Valid()
      ensures var o := A.GetAll(KeepFailure, Truthy(mongoUrl), dial, io, old(State()));
        && State() == o.store
        && (o.result.Err? ==> r == Err(Wrapped(GetAllOp, o.result.error)))
        && (o.result.Ok? ==> r.Ok? && |r.value| == |authData| && forall x :: x in r.value <==> x in o.result.value)
    {
      var connected := EnsureConnection(dial);
      if connected.Err? {
        return Err(Wrapped(GetAllOp, A.Connection(connected.error)));
      }
      if io.Broken? {
        return Err(Wrapped(GetAllOp, A.Driver(io.reason)));
      }
      var results := MC.ToArray(authData);
      return Ok(results);
    }

    /** `isReady()`: never throws. */
    method IsReady(dial: Dial, ping: MC.Io) returns (r: A.ReadyResult)
      requires Valid()
      modifies this`connectionPromise, this`client, this`collection
      ensures Valid()
      ensures (State(), r) == A.IsReady(KeepFailure, Truthy(mongoUrl), dial, ping, old(State()))
    {
      var connected := EnsureConnection(dial);
      if connected.Err? {
        return A.NotReady(A.Connection(connected.error));
      }
      if ping.Broken? {
        return A.NotReady(A.Driver(ping.reason));
      }
      return A.Ready;
    }

    /** `isConfigured()` through `isMongoDBConfigured()`
        (apps/smtp/src/lib/env.ts): `MONGODB_URL` is a non-empty string. */
    method IsConfigured() returns (r: A.ConfiguredResult)
      ensures r.Configured? <==> Truthy(mongoUrl)
    {
      NonEmptyStringIsTruthy(mongoUrl);
      r := if NonEmptyString(mongoUrl) then A.Configured else A.NotConfigured;
    }

    /** `close()`: drops the client and handles but keeps the memo. */
    method Close()
      requires Valid()
      modifies this`client, this`collection
      ensures Valid()
      ensures Connection() == MongoLifecycle.Close(old(Connection()))
    {
      if client {
        client := false;
        collection := false;
      }
    }
  }
}
