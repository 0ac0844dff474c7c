/** What the three `MongoAPL` copies (Stripe, OCR credits, SMTP) do to the
    auth-data collection, as functions of the store's state: the connection
    fields, the `apl_auth_data` collection keyed by `saleorApiUrl` (it has a
    unique index), and the next `_id` the driver would assign.

    Every operation runs `ensureConnection()` and then at most one driver
    call; `dial` is what a connect attempt started now would meet, `io` what
    the driver call does. The copies differ in the connection policy, in URL
    validation (Stripe only) and in how a failure is wrapped; each copy's
    class states its methods in terms of these functions. */
module MongoApl {
  import opened Wrappers
  import opened MongoLifecycle
  import MC = MongoCollection

  /** `AuthData` of the app SDK. */
  datatype AuthData = AuthData(saleorApiUrl: string, token: string, appId: string, jwks: Option<string>)

  datatype Store = Store(conn: Conn, records: map<string, MC.Doc<AuthData>>, nextId: nat)

  /** The error an operation catches: from `ensureConnection()` or from the
      driver call. */
  datatype Cause = Connection(error: ConnectionError) | Driver(reason: string)

  datatype Outcome<+T> = Outcome(store: Store, result: Result<T, Cause>)

  /** `AplReadyResult` */
  datatype ReadyResult = Ready | NotReady(error: Cause)

  /** `AplConfiguredResult`: the error is always "missing env variables". */
  datatype ConfiguredResult = Configured | NotConfigured

  /** The state of a new instance over an existing collection. */
  function Initial(records: map<string, MC.Doc<AuthData>>, nextId: nat): (s: Store)
    ensures Wf(s.conn) && s.conn.memo.Unset?
  {
    Store(Fresh, records, nextId)
  }

  /** `await this.ensureConnection()` followed by a driver call that behaves
      as `io`: the new connection fields, and the error if either failed. */
  function Gate(policy: Policy, urlSet: bool, dial: Dial, io: MC.Io, s: Store): (g: (Store, Option<Cause>))
    ensures g.0.records == s.records && g.0.nextId == s.nextId
    ensures g.0.conn == Ensure(policy, urlSet, dial, s.conn).conn
    ensures g.1.None? <==> Ensure(policy, urlSet, dial, s.conn).outcome.Ok? && io.Done?
  {
    var step := Ensure(policy, urlSet, dial, s.conn);
    var next := s.(conn := step.conn);
    if step.outcome.Err? then (next, Some(Connection(step.outcome.error)))
    else if io.Broken? then (next, Some(Driver(io.reason)))
    else (next, None)
  }

  /** `get(url)`: `findOne({ saleorApiUrl: url })` with `_id` removed. */
  function Get(policy: Policy, urlSet: bool, dial: Dial, io: MC.Io, s: Store, url: string): (o: Outcome<Option<AuthData>>)
    ensures o.store.records == s.records
    ensures o.result.Ok? <==> Gate(policy, urlSet, dial, io, s).1.None?
    ensures o.result.Ok? ==> (o.result.value.Some? <==> url in s.records)
    ensures o.result.Ok? && o.result.value.Some? ==> o.result.value.value == s.records[url].body
  {
    var (next, failure) := Gate(policy, urlSet, dial, io, s);
    if failure.Some? then Outcome(next, Err(failure.value))
    else Outcome(next, Ok(MC.FindOne(s.records, url)))
  }

  /** `set(authData)`: `replaceOne` keyed by `authData.saleorApiUrl` with
      `upsert: true`. */
  function Set(policy: Policy, urlSet: bool, dial: Dial, io: MC.Io, s: Store, a: AuthData): (o: Outcome<()>)
    ensures o.result.Ok? <==> Gate(policy, urlSet, dial, io, s).1.None?
    ensures o.result.Err? ==> o.store.records == s.records
    ensures o.result.Ok? ==>
      && o.store.records.Keys == s.records.Keys + {a.saleorApiUrl}
      && o.store.records[a.saleorApiUrl].body == a
      && forall k :: k in s.records && k != a.saleorApiUrl ==> o.store.records[k] == s.records[k]
  {
    var (next, failure) := Gate(policy, urlSet, dial, io, s);
    if failure.Some? then Outcome(next, Err(failure.value))
    else
      Outcome(next.(records := MC.ReplaceOneUpsert(s.records, a.saleorApiUrl, a, s.nextId), nextId := s.nextId + 1), Ok(()))
  }

  /** `delete(url)`: `deleteOne({ saleorApiUrl: url })`. */
  function Delete(policy: Policy, urlSet: bool, dial: Dial, io: MC.Io, s: Store, url: string): (o: Outcome<()>)
    ensures o.result.Ok? <==> Gate(policy, urlSet, dial, io, s).1.None?
    ensures o.result.Err? ==> o.store.records == s.records
    ensures o.result.Ok? ==> o.store.records.Keys == s.records.Keys - {url}
    ensures forall k :: k in o.store.records ==> o.store.records[k] == s.records[k]
  {
    var (next, failure) := Gate(policy, urlSet, dial, io, s);
    if failure.Some? then Outcome(next, Err(failure.value))
    else Outcome(next.(records := MC.DeleteOne(s.records, url)), Ok(()))
  }

  /** The records `getAll()` returns, each with `_id` removed. */
  function Bodies(records: map<string, MC.Doc<AuthData>>): set<AuthData>
  {
    set k | k in records :: records[k].body
  }

  /** `getAll()`: whether it fails, and the state it leaves; the records it
      returns are `Bodies` of the collection, as a set: the cursor's order is
      not modelled. */
  function GetAll(policy: Policy, urlSet: bool, dial: Dial, io: MC.Io, s: Store): (o: Outcome<set<AuthData>>)
    ensures o.store.records == s.records
    ensures o.result.Ok? <==> Gate(policy, urlSet, dial, io, s).1.None?
    ensures o.result.Ok? ==> forall k :: k in s.records ==> s.records[k].body in o.result.value
    ensures o.result.Ok? ==> forall a :: a in o.result.value ==> exists k :: k in s.records && s.records[k].body == a
  {
    var (next, failure) := Gate(policy, urlSet, dial, io, s);
    if failure.Some? then Outcome(next, Err(failure.value))
    else Outcome(next, Ok(Bodies(s.records)))
  }

  /** `isReady()`: `ensureConnection()` then `db.admin().ping()`, which
      behaves as `ping`; every error is caught. */
  function IsReady(policy: Policy, urlSet: bool, dial: Dial, ping: MC.Io, s: Store): (r: (Store, ReadyResult))
    ensures r.0.records == s.records
    ensures r.1.Ready? <==> Ensure(policy, urlSet, dial, s.conn).outcome.Ok? && ping.Done?
  {
    var (next, failure) := Gate(policy, urlSet, dial, ping, s);
    (next, if failure.Some? then NotReady(failure.value) else Ready)
  }

  /** `isConfigured()`: `typeof MONGODB_URL === "string"` and non-empty. */
  function IsConfigured(mongoUrl: EnvVar): (r: ConfiguredResult)
    ensures r.Configured? <==> mongoUrl.Some? && mongoUrl.value != ""
  {
    if NonEmptyString(mongoUrl) then Configured else NotConfigured
  }

  /** `isConfigured()` reports exactly the environments in which `connect()`
      gets past its `MONGODB_URL` check, and looks at nothing else. */
  lemma IsConfiguredIffConnectNeedsNoUrl(mongoUrl: EnvVar, policy: Policy, dial: Dial)
    ensures IsConfigured(mongoUrl).Configured? <==> AttemptFailure(Truthy(mongoUrl), dial) != Some(MissingUrl)
  {
    NonEmptyStringIsTruthy(mongoUrl);
  }

  /** An operation succeeds exactly when the connection is established and
      the driver call completes; a failure carries the error that caused it
      and changes no record. */
  lemma FailuresAreWrappedAndChangeNothing(policy: Policy, urlSet: bool, dial: Dial, io: MC.Io, s: Store, a: AuthData, url: string)
    ensures var step := Ensure(policy, urlSet, dial, s.conn);
      var ok := step.outcome.Ok? && io.Done?;
      && (Set(policy, urlSet, dial, io, s, a).result.Ok? <==> ok)
      && (Delete(policy, urlSet, dial, io, s, url).result.Ok? <==> ok)
      && (Get(policy, urlSet, dial, io, s, url).result.Ok? <==> ok)
      && (GetAll(policy, urlSet, dial, io, s).result.Ok? <==> ok)
      && (step.outcome.Err? ==>
            && Set(policy, urlSet, dial, io, s, a) == Outcome(s.(conn := step.conn), Err(Connection(step.outcome.error)))
            && Delete(policy, urlSet, dial, io, s, url) == Outcome(s.(conn := step.conn), Err(Connection(step.outcome.error))))
      && (step.outcome.Ok? && io.Broken? ==>
            && Set(policy, urlSet, dial, io, s, a) == Outcome(s.(conn := step.conn), Err(Driver(io.reason)))
            && Delete(policy, urlSet, dial, io, s, url) == Outcome(s.(conn := step.conn), Err(Driver(io.reason))))
  {
  }

  /** `set` keeps at most one record per URL: it replaces the record under
      `authData.saleorApiUrl` and leaves every other URL's record alone. */
  lemma SetUpsertsOneRecord(policy: Policy, urlSet: bool, dial: Dial, s: Store, a: AuthData)
    requires Ensure(policy, urlSet, dial, s.conn).outcome.Ok?
    ensures var r := Set(policy, urlSet, dial, MC.Done, s, a).store.records;
      && r.Keys == s.records.Keys + {a.saleorApiUrl}
      && r[a.saleorApiUrl].body == a
      && (forall u :: u in s.records && u != a.saleorApiUrl ==> r[u] == s.records[u])
  {
  }

  /** Once an operation has succeeded, the connection is established and
      stays so for every later operation of the same instance. */
  lemma EstablishedStaysEstablished(policy: Policy, urlSet: bool, dial: Dial, s: Store)
    requires s.conn.memo.Fulfilled? && s.conn.collections
    ensures Ensure(policy, urlSet, dial, s.conn) == Step(s.conn, Ok(()))
  {
  }

  /** `set` then `get` of the same URL returns the record that was written,
      without `_id`; `get` of any other URL is unaffected. */
  lemma GetAfterSet(policy: Policy, urlSet: bool, dial1: Dial, dial2: Dial, s: Store, a: AuthData, other: string)
    requires Wf(s.conn)
    requires Set(policy, urlSet, dial1, MC.Done, s, a).result.Ok?
    ensures var s1 := Set(policy, urlSet, dial1, MC.Done, s, a).store;
      && Get(policy, urlSet, dial2, MC.Done, s1, a.saleorApiUrl).result == Ok(Some(a))
      && (other != a.saleorApiUrl ==>
            Get(policy, urlSet, dial2, MC.Done, s1, other).result == Ok(MC.FindOne(s.records, other)))
  {
    var s1 := Set(policy, urlSet, dial1, MC.Done, s, a).store;
    EstablishedStaysEstablished(policy, urlSet, dial2, s1);
    MC.FindAfterUpsert(s.records, a.saleorApiUrl, a, s.nextId, other);
  }

  /** `delete` then `get` of the same URL finds nothing. */
  lemma GetAfterDelete(policy: Policy, urlSet: bool, dial1: Dial, dial2: Dial, s: Store, url: string)
    requires Delete(policy, urlSet, dial1, MC.Done, s, url).result.Ok?
    ensures var s1 := Delete(policy, urlSet, dial1, MC.Done, s, url).store;
      Get(policy, urlSet, dial2, MC.Done, s1, url).result == Ok(None)
  {
    var s1 := Delete(policy, urlSet, dial1, MC.Done, s, url).store;
    EstablishedStaysEstablished(policy, urlSet, dial2, s1);
  }

  /** `delete` never inspects the match count: deleting a URL that has no
      record succeeds on a live connection and changes nothing. */
  lemma DeleteAbsentSucceeds(policy: Policy, urlSet: bool, dial: Dial, s: Store, url: string)
    requires url !in s.records
    requires Ensure(policy, urlSet, dial, s.conn).outcome.Ok?
    ensures var o := Delete(policy, urlSet, dial, MC.Done, s, url);
      o.result == Ok(()) && o.store.records == s.records
  {
  }

  /** `getAll()` after `set` contains the record that was written. */
  lemma GetAllAfterSet(policy: Policy, urlSet: bool, dial1: Dial, dial2: Dial, s: Store, a: AuthData)
    requires Wf(s.conn)
    requires Set(policy, urlSet, dial1, MC.Done, s, a).result.Ok?
    ensures var s1 := Set(policy, urlSet, dial1, MC.Done, s, a).store;
      var all := GetAll(policy, urlSet, dial2, MC.Done, s1).result;
      all.Ok? && a in all.value
  {
    var s1 := Set(policy, urlSet, dial1, MC.Done, s, a).store;
    EstablishedStaysEstablished(policy, urlSet, dial2, s1);
    assert s1.records[a.saleorApiUrl].body == a;
  }

  /** A store that has served a `set` is ready exactly when the ping
      completes, whatever the driver would do on a new attempt. */
  lemma ReadyAfterSet(policy: Policy, urlSet: bool, dial1: Dial, dial2: Dial, ping: MC.Io, s: Store, a: AuthData)
    requires Set(policy, urlSet, dial1, MC.Done, s, a).result.Ok?
    ensures var s1 := Set(policy, urlSet, dial1, MC.Done, s, a).store;
      IsReady(policy, urlSet, dial2, ping, s1).1.Ready? <==> ping.Done?
  {
    var s1 := Set(policy, urlSet, dial1, MC.Done, s, a).store;
    EstablishedStaysEstablished(policy, urlSet, dial2, s1);
  }
}
