/** The Stripe app's `MongodbTransactionRecorderRepo`
    (apps/stripe/src/modules/transactions-recording/repositories/mongodb/mongodb-transaction-recorder-repo.ts):
    recorded transactions in the `recorded_transactions` collection, unique
    on (saleorApiUrl, appId, stripePaymentIntentId), behind the lazy
    connection memo. Every failure is returned as an error value.

    `createStripePaymentIntentId` and `createSaleorTransactionId` are not
    part of this model; they enter as predicates saying whether each accepts
    a stored value (it throws otherwise). */
module MongoTransactionRecorder {
  import opened Wrappers
  import opened MongoLifecycle
  import MC = MongoCollection

  /** `RecordedTransaction` */
  datatype RecordedTransaction = RecordedTransaction(
    stripePaymentIntentId: string,
    saleorTransactionId: string,
    saleorTransactionFlow: string,
    resolvedTransactionFlow: string,
    selectedPaymentMethod: string)

  datatype TxKey = TxKey(saleorApiUrl: string, appId: string, stripePaymentIntentId: string)

  /** The other fields of a `recorded_transactions` document. */
  datatype TxDoc = TxDoc(
    saleorTransactionId: string,
    saleorTransactionFlow: string,
    resolvedTransactionFlow: string,
    selectedPaymentMethod: string)

  type Transactions = map<TxKey, MC.Doc<TxDoc>>

  /** Whether the two id constructors accept a value. */
  datatype Brands = Brands(paymentIntentId: string -> bool, transactionId: string -> bool)

  datatype Cause =
    | Connection(error: ConnectionError)
    | Driver(reason: string)
    | InvalidStoredId // an id constructor threw on a stored value

  datatype RecorderError =
    | TransactionMissingError(saleorApiUrl: string, appId: string, stripePaymentIntentId: string)
    | FailedFetchingTransactionError(cause: Cause)
    | FailedWritingTransactionError(cause: Cause)

  /** The write of `recordTransaction`: an upsert keyed by the access
      pattern and the payment intent id, every field copied. */
  function Record(txs: Transactions, url: string, appId: string, t: RecordedTransaction, freshId: nat): (r: Transactions)
    ensures r.Keys == txs.Keys + {TxKey(url, appId, t.stripePaymentIntentId)}
    ensures forall k :: k in txs && k != TxKey(url, appId, t.stripePaymentIntentId) ==> r[k] == txs[k]
  {
    var doc := TxDoc(t.saleorTransactionId, t.saleorTransactionFlow, t.resolvedTransactionFlow, t.selectedPaymentMethod);
    MC.ReplaceOneUpsert(txs, TxKey(url, appId, t.stripePaymentIntentId), doc, freshId)
  }

  /** `getTransactionByStripePaymentIntentId` once connected and the
      `findOne` has completed. */
  function Fetch(brands: Brands, txs: Transactions, url: string, appId: string, id: string): (r: Result<RecordedTransaction, RecorderError>)
    ensures TxKey(url, appId, id) !in txs <==> r == Err(TransactionMissingError(url, appId, id))
    ensures r.Ok? ==> r.value.stripePaymentIntentId == id
  {
    match MC.FindOne(txs, TxKey(url, appId, id))
    case None => Err(TransactionMissingError(url, appId, id))
    case Some(doc) =>
      if !brands.paymentIntentId(id) || !brands.transactionId(doc.saleorTransactionId) then
        Err(FailedFetchingTransactionError(InvalidStoredId))
      else
        Ok(RecordedTransaction(id, doc.saleorTransactionId, doc.saleorTransactionFlow,
                               doc.resolvedTransactionFlow, doc.selectedPaymentMethod))
  }

  /** Record then get for the same installation and payment intent returns
      a transaction with the same five fields. */
  lemma FetchAfterRecord(brands: Brands, txs: Transactions, url: string, appId: string, t: RecordedTransaction, freshId: nat)
    requires brands.paymentIntentId(t.stripePaymentIntentId) && brands.transactionId(t.saleorTransactionId)
    ensures Fetch(brands, Record(txs, url, appId, t, freshId), url, appId, t.stripePaymentIntentId) == Ok(t)
  {
  }

  /** Recording the same payment intent twice leaves one document, holding
      the latest values. */
  lemma RecordTwiceKeepsLatest(brands: Brands, txs: Transactions, url: string, appId: string,
                               t1: RecordedTransaction, t2: RecordedTransaction, id1: nat, id2: nat)
    requires t1.stripePaymentIntentId == t2.stripePaymentIntentId
    requires brands.paymentIntentId(t2.stripePaymentIntentId) && brands.transactionId(t2.saleorTransactionId)
    ensures var once := Record(txs, url, appId, t1, id1);
      var twice := Record(once, url, appId, t2, id2);
      && twice.Keys == once.Keys
      && Fetch(brands, twice, url, appId, t2.stripePaymentIntentId) == Ok(t2)
  {
  }

  /** Lookups are scoped: recording under one (saleorApiUrl, appId) changes
      no lookup under another, nor of another payment intent. */
  lemma RecordIsScoped(brands: Brands, txs: Transactions, url: string, appId: string, t: RecordedTransaction, freshId: nat,
                       url2: string, appId2: string, id: string)
    requires (url2, appId2, id) != (url, appId, t.stripePaymentIntentId)
    ensures Fetch(brands, Record(txs, url, appId, t, freshId), url2, appId2, id) == Fetch(brands, txs, url2, appId2, id)
  {
  }

  class MongodbTransactionRecorderRepo {
    /** `env.MONGODB_URL` */
    const mongoUrl: EnvVar
    const brands: Brands

    var connectionPromise: Memo
    var client: bool
    /** `db` and `collection`, which are set and cleared together */
    var collection: bool
    /** the `recorded_transactions` collection */
    var transactions: Transactions
    /** the `_id` the driver assigns to the next inserted document */
    var nextObjectId: nat

    function Connection(): Conn
      reads this
    {
      Conn(connectionPromise, client, collection)
    }

    predicate Valid()
      reads this
    {
      Wf(Connection())
    }

    /** `new MongodbTransactionRecorderRepo()`: a missing `MONGODB_URL` is
        not noticed until first use. */
    constructor(mongoUrl: EnvVar, brands: Brands, transactions: Transactions, nextObjectId: nat)
      ensures Valid() && Connection() == Fresh
      ensures this.mongoUrl == mongoUrl && this.brands == brands
      ensures this.transactions == transactions && this.nextObjectId == nextObjectId
    {
      this.mongoUrl := mongoUrl;
      this.brands := brands;
      connectionPromise := Unset;
      client := false;
      collection := false;
      this.transactions := transactions;
      this.nextObjectId := nextObjectId;
    }

    /** `connect()`, run to completion; either index creation may fail. */
    method Connect(dial: Dial) returns (settled: Memo)
      requires !client && !collection
      modifies this`client, this`collection
      ensures Conn(settled, client, collection) == AfterAttempt(KeepFailure, Truthy(mongoUrl), dial)
    {
      if !Truthy(mongoUrl) {
        return Rejected(MissingUrl);
      }
      if dial.Unparsable? {
        return Rejected(InvalidUrl(dial.reason));
      }
      client := true;
      if dial.Unreachable? {
        return Rejected(ClientConnectFailed(dial.reason));
      }
      collection := true;
      if dial.IndexRejected? {
        return Rejected(IndexCreationFailed(dial.reason));
      }
      return Fulfilled;
    }

    /** `ensureConnection()`: the memoized attempt is never cleared. */
    method EnsureConnection(dial: Dial) returns (r: Result<(), ConnectionError>)
      requires Valid()
      modifies this`connectionPromise, this`client, this`collection
      ensures Valid()
      ensures Step(Connection(), r) == Ensure(KeepFailure, Truthy(mongoUrl), dial, old(Connection()))
    {
      if connectionPromise.Unset? {
        connectionPromise := Connect(dial);
      }
      if connectionPromise.Rejected? {
        return Err(ConnectFailed(connectionPromise.cause));
      }
      if !collection {
        return Err(NotEstablished);
      }
      return Ok(());
    }

    /** `recordTransaction(accessPattern, transaction)`: every failure,
        the connection's included, is a writing error. */
    method RecordTransaction(url: string, appId: string, t: RecordedTransaction, dial: Dial, io: MC.Io)
      returns (r: Result<(), RecorderError>)
      requires Valid()
      modifies this`connectionPromise, this`client, this`collection, this`transactions, this`nextObjectId
      ensures Valid()
      ensures var step := Ensure(KeepFailure, Truthy(mongoUrl), dial, old(Connection()));
        && Connection() == step.conn
        && (r.Err? ==> r.error.FailedWritingTransactionError? && transactions == old(transactions))
        && (step.outcome.Err? ==> r == Err(FailedWritingTransactionError(Cause.Connection(step.outcome.error))))
        && (step.outcome.Ok? && io.Broken? ==> r == Err(FailedWritingTransactionError(Driver(io.reason))))
        && (step.outcome.Ok? && io.Done? ==>
              && r == Ok(())
              && transactions == Record(old(transactions), url, appId, t, old(nextObjectId)))
    {
      var connected := EnsureConnection(dial);
      if connected.Err? {
        return Err(FailedWritingTransactionError(Cause.Connection(connected.error)));
      }
      var mongoTransaction := TxDoc(t.saleorTransactionId, t.saleorTransactionFlow,
                                    t.resolvedTransactionFlow, t.selectedPaymentMethod);
      if io.Broken? {
        return Err(FailedWritingTransactionError(Driver(io.reason)));
      }
      transactions := MC.ReplaceOneUpsert(transactions, TxKey(url, appId, t.stripePaymentIntentId),
                                          mongoTransaction, nextObjectId);
      nextObjectId := nextObjectId + 1;
      return Ok(());
    }

    /** `getTransactionByStripePaymentIntentId(accessPattern, id)`: an
        absent document is "missing"; a failing connection or driver call is
        a fetching error, never "missing". */
    method GetTransactionByStripePaymentIntentId(url: string, appId: string, id: string, dial: Dial, io: MC.Io)
      returns (r: Result<RecordedTransaction, RecorderError>)
      requires Valid()
      modifies this`connectionPromise, this`client, this`collection
      ensures Valid()
      ensures var step := Ensure(KeepFailure, Truthy(mongoUrl), dial, old(Connection()));
        && Connection() == step.conn
        && (r.Err? ==> !r.error.FailedWritingTransactionError?)
        && (step.outcome.Err? ==> r == Err(FailedFetchingTransactionError(Cause.Connection(step.outcome.error))))
        && (step.outcome.Ok? && io.Broken? ==> r == Err(FailedFetchingTransactionError(Driver(io.reason))))
        && (step.outcome.Ok? && io.Done? ==> r == Fetch(brands, transactions, url, appId, id))
    {
      var connected := EnsureConnection(dial);
      if connected.Err? {
        return Err(FailedFetchingTransactionError(Cause.Connection(connected.error)));
      }
      if io.Broken? {
        return Err(FailedFetchingTransactionError(Driver(io.reason)));
      }
      var mongoTransaction := MC.FindOne(transactions, TxKey(url, appId, id));
      if mongoTransaction.None? {
        return Err(TransactionMissingError(url, appId, id));
      }
      var doc := mongoTransaction.value;
      if !brands.paymentIntentId(id) || !brands.transactionId(doc.saleorTransactionId) {
        return Err(FailedFetchingTransactionError(InvalidStoredId));
      }
      return Ok(RecordedTransaction(id, doc.saleorTransactionId, doc.saleorTransactionFlow,
                                    doc.resolvedTransactionFlow, doc.selectedPaymentMethod));
    }

    /** `close()`: drops the client and handle but keeps the memo. */
    method Close()
      requires Valid()
      modifies this`client, this`collection
      ensures Valid()
      ensures Connection() == MongoLifecycle.Close(old(Connection()))
    {
      if client {
        client := false;
        collection := false;
      }
    }
  }
}
