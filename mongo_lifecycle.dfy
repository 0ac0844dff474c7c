/** The lazy connection memo that every MongoDB-backed store in the apps
    repeats: fields `client`, `db`, the collection handles and
    `connectionPromise`, set by `connect()`, consulted by
    `ensureConnection()` and cleared (except the memo) by `close()`.

    The variants differ in one respect, captured by `Policy`: the Stripe and
    SMTP copies keep a rejected attempt in `connectionPromise` for good; the
    OCR-credits copy's `catch` block clears every field, including the memo,
    so that the next call connects afresh -- except when `connect()` throws
    before its first `await` (no `MONGODB_URL`, or a URL that
    `new MongoClient(...)` cannot parse), because then the clearing runs
    before `ensureConnection` stores the rejected promise.

    Calls are sequential: the promise is modelled by the value it settles to.
    `db` and the collection handles are always set and cleared together and
    are one flag, `collections`. */
module MongoLifecycle {
  import opened Wrappers

  /** Why `connect()` rejected. */
  datatype ConnectFailure =
    | MissingUrl                          // `!env.MONGODB_URL`, thrown before any `await`
    | InvalidUrl(reason: string)          // `new MongoClient(url)` threw, also before any `await`
    | ClientConnectFailed(reason: string) // `await this.client.connect()` rejected
    | IndexCreationFailed(reason: string) // an `await ...createIndex(...)` rejected

  /** The `connectionPromise` field: null, or the promise of one attempt,
      represented by what it settles to. */
  datatype Memo = Unset | Fulfilled | Rejected(cause: ConnectFailure)

  /** What the driver does if `connect()` runs now (the network and the
      driver's URL parser are oracles). */
  datatype Dial =
    | Reachable
    | Unparsable(reason: string)     // the constructor rejects the URL
    | Unreachable(reason: string)
    | IndexRejected(reason: string)

  /** What `ensureConnection()` throws. */
  datatype ConnectionError =
    | ConnectFailed(cause: ConnectFailure) // the awaited attempt rejected
    | NotEstablished                       // "MongoDB connection not established"

  datatype Policy = KeepFailure | ResetOnFailure

  datatype Conn = Conn(memo: Memo, client: bool, collections: bool)

  /** The fields of a newly constructed store. */
  const Fresh: Conn := Conn(Unset, false, false)

  /** The states the stores can reach: handles only exist with a client, and
      nothing is set while no attempt is memoized. */
  predicate Wf(c: Conn)
  {
    && (c.collections ==> c.client)
    && (c.memo.Unset? ==> !c.client && !c.collections)
  }

  /** A failure thrown before `connect()` first suspends: no client exists yet. */
  predicate BeforeFirstAwait(f: ConnectFailure)
  {
    f.MissingUrl? || f.InvalidUrl?
  }

  /** How an attempt made now would end. */
  function AttemptFailure(urlSet: bool, dial: Dial): (f: Option<ConnectFailure>)
    ensures !urlSet ==> f == Some(MissingUrl)
    ensures f.None? <==> urlSet && dial.Reachable?
    ensures f.Some? && BeforeFirstAwait(f.value) <==> !urlSet || dial.Unparsable?
  {
    if !urlSet then Some(MissingUrl)
    else match dial
      case Reachable => None
      case Unparsable(reason) => Some(InvalidUrl(reason))
      case Unreachable(reason) => Some(ClientConnectFailed(reason))
      case IndexRejected(reason) => Some(IndexCreationFailed(reason))
  }

  function Settled(f: Option<ConnectFailure>): Memo
  {
    if f.None? then Fulfilled else Rejected(f.value)
  }

  /** The fields once an attempt started from `Unset` has settled. */
  function AfterAttempt(policy: Policy, urlSet: bool, dial: Dial): (c: Conn)
    ensures Wf(c)
    ensures c.memo.Fulfilled? <==> urlSet && dial.Reachable?
    ensures policy.KeepFailure? ==> c.memo == Settled(AttemptFailure(urlSet, dial))
    ensures policy.ResetOnFailure? ==>
      (c.memo.Rejected? <==> AttemptFailure(urlSet, dial).Some? && BeforeFirstAwait(AttemptFailure(urlSet, dial).value))
    ensures c.memo.Rejected? && BeforeFirstAwait(c.memo.cause) ==> !c.client
    ensures c.memo.Rejected? ==> c.memo == Settled(AttemptFailure(urlSet, dial))
    ensures c.memo.Unset? ==> c == Fresh
    ensures c.memo.Fulfilled? ==> c.client && c.collections
  {
    if !urlSet then
      // thrown before the first await: no client was created; in the OCR
      // copy the reset has already run when the rejected promise is stored
      Conn(Rejected(MissingUrl), false, false)
    else match dial
      case Reachable => Conn(Fulfilled, true, true)
      case Unparsable(reason) => Conn(Rejected(InvalidUrl(reason)), false, false)
      case Unreachable(reason) =>
        if policy.ResetOnFailure? then Fresh
        else Conn(Rejected(ClientConnectFailed(reason)), true, false)
      case IndexRejected(reason) =>
        if policy.ResetOnFailure? then Fresh
        else Conn(Rejected(IndexCreationFailed(reason)), true, true)
  }

  datatype Step = Step(conn: Conn, outcome: Result<(), ConnectionError>)

  /** `ensureConnection()`: start an attempt only if none is memoized, await
      the memoized (or just started) attempt, then insist on the handles. */
  function Ensure(policy: Policy, urlSet: bool, dial: Dial, c: Conn): (s: Step)
    ensures Wf(c) ==> Wf(s.conn)
    ensures !c.memo.Unset? ==> s.conn == c
    ensures c.memo.Rejected? ==> s.outcome == Err(ConnectFailed(c.memo.cause))
    ensures s.outcome.Ok? ==> s.conn.memo.Fulfilled? && s.conn.collections
    ensures c.memo.Fulfilled? ==> (s.outcome.Ok? <==> c.collections)
    ensures c.memo.Unset? ==>
      && s.conn == AfterAttempt(policy, urlSet, dial)
      && (s.outcome.Ok? <==> urlSet && dial.Reachable?)
      && (AttemptFailure(urlSet, dial).Some? ==> s.outcome == Err(ConnectFailed(AttemptFailure(urlSet, dial).value)))
  {
    var awaited := if c.memo.Unset? then Settled(AttemptFailure(urlSet, dial)) else c.memo;
    var next := if c.memo.Unset? then AfterAttempt(policy, urlSet, dial) else c;
    Step(next,
      if awaited.Rejected? then Err(ConnectFailed(awaited.cause))
      else if !next.collections then Err(NotEstablished)
      else Ok(()))
  }

  /** `close()`: with a client, drop client, db and handles; the memo stays. */
  function Close(c: Conn): (r: Conn)
    ensures r.memo == c.memo && !r.client
    ensures !c.collections ==> !r.collections
    ensures Wf(c) ==> Wf(r) && !r.collections
  {
    if c.client then Conn(c.memo, false, false) else c
  }

  /** A sequence of calls on one store: an operation (which runs
      `ensureConnection()` with the driver behaving as `dial`) or `close()`. */
  datatype Call = Use(dial: Dial) | CloseCall

  datatype Trace = Trace(final: Conn, outcomes: seq<Result<(), ConnectionError>>)

  function Run(policy: Policy, urlSet: bool, calls: seq<Call>, c: Conn): (t: Trace)
    ensures |t.outcomes| == |calls|
  {
    if calls == [] then Trace(c, [])
    else
      var first := match calls[0]
        case Use(dial) => Ensure(policy, urlSet, dial, c)
        case CloseCall => Step(Close(c), Ok(()));
      var rest := Run(policy, urlSet, calls[1..], first.conn);
      Trace(rest.final, [first.outcome] + rest.outcomes)
  }

  /** The number of calls in a run that start a connection attempt. */
  function Attempts(policy: Policy, urlSet: bool, calls: seq<Call>, c: Conn): nat
  {
    if calls == [] then 0
    else match calls[0]
      case Use(dial) =>
        (if c.memo.Unset? then 1 else 0)
          + Attempts(policy, urlSet, calls[1..], Ensure(policy, urlSet, dial, c).conn)
      case CloseCall => Attempts(policy, urlSet, calls[1..], Close(c))
  }

  /** Stripe and SMTP copies: `connect` runs at most once per instance. */
  lemma {:induction false} ConnectAtMostOnce(urlSet: bool, calls: seq<Call>, c: Conn)
    ensures Attempts(KeepFailure, urlSet, calls, c) <= (if c.memo.Unset? then 1 else 0)
  {
    if calls != [] {
      match calls[0]
      case Use(dial) =>
        ConnectAtMostOnce(urlSet, calls[1..], Ensure(KeepFailure, urlSet, dial, c).conn);
      case CloseCall =>
        ConnectAtMostOnce(urlSet, calls[1..], Close(c));
    }
  }

  /** Any copy: once a failed attempt is memoized, every later operation
      fails with that same error and nothing reconnects. In the Stripe and
      SMTP copies every failure is memoized; in the OCR-credits copy only
      one thrown before the first `await`. */
  lemma {:induction false} FailureIsPermanent(policy: Policy, urlSet: bool, calls: seq<Call>, c: Conn)
    requires c.memo.Rejected?
    ensures var t := Run(policy, urlSet, calls, c);
      && t.final.memo == c.memo
      && forall i :: 0 <= i < |calls| && calls[i].Use? ==> t.outcomes[i] == Err(ConnectFailed(c.memo.cause))
  {
    if calls != [] {
      var next := match calls[0]
        case Use(dial) => Ensure(policy, urlSet, dial, c).conn
        case CloseCall => Close(c);
      FailureIsPermanent(policy, urlSet, calls[1..], next);
      var t := Run(policy, urlSet, calls, c);
      forall i | 0 <= i < |calls| && calls[i].Use?
        ensures t.outcomes[i] == Err(ConnectFailed(c.memo.cause))
      {
        if i > 0 {
          assert calls[1..][i - 1] == calls[i];
        }
      }
    }
  }

  /** The copies that have `close()` (the Stripe and SMTP APLs and the
      Stripe app's two repositories; the OCR-credits APL has none): after
      `close()` of an established connection the memo still holds the
      fulfilled attempt but the handles are gone, so every later operation
      fails with "connection not established" instead of
      reconnecting. */
  lemma {:induction false} ClosedStoreNeverReconnects(policy: Policy, urlSet: bool, calls: seq<Call>, c: Conn)
    requires c.memo.Fulfilled? && !c.collections
    ensures var t := Run(policy, urlSet, calls, c);
      && t.final.memo.Fulfilled? && !t.final.collections
      && Attempts(policy, urlSet, calls, c) == 0
      && forall i :: 0 <= i < |calls| && calls[i].Use? ==> t.outcomes[i] == Err(NotEstablished)
  {
    if calls != [] {
      var next := match calls[0]
        case Use(dial) => Ensure(policy, urlSet, dial, c).conn
        case CloseCall => Close(c);
      ClosedStoreNeverReconnects(policy, urlSet, calls[1..], next);
      var t := Run(policy, urlSet, calls, c);
      forall i | 0 <= i < |calls| && calls[i].Use?
        ensures t.outcomes[i] == Err(NotEstablished)
      {
        if i > 0 {
          assert calls[1..][i - 1] == calls[i];
        }
      }
    }
  }

  /** The Stripe and SMTP APLs and the Stripe app's two repositories:
      `close()` after a successful connect leaves the store in the
      state `ClosedStoreNeverReconnects` is about. */
  lemma CloseAfterConnect(policy: Policy, urlSet: bool, c: Conn)
    requires Wf(c)
    requires Ensure(policy, urlSet, Reachable, c).outcome.Ok?
    ensures var closed := Close(Ensure(policy, urlSet, Reachable, c).conn);
      closed.memo.Fulfilled? && !closed.collections
  {
  }

  /** OCR-credits copy: a failure after the first suspension (the server
      unreachable, the index refused) clears every field, so the next
      operation starts a fresh attempt, which can succeed. */
  lemma ResetCopyRetriesAfterLateFailure(dial: Dial, c: Conn)
    requires c.memo.Unset? && (dial.Unreachable? || dial.IndexRejected?)
    ensures var failed := Ensure(ResetOnFailure, true, dial, c);
      && failed.outcome.Err? && failed.conn == Fresh
      && Ensure(ResetOnFailure, true, Reachable, failed.conn) == Step(Conn(Fulfilled, true, true), Ok(()))
  {
  }

  /** OCR-credits copy: a failure thrown before the first `await` -- no
      `MONGODB_URL`, or one the driver cannot parse -- stays memoized,
      because the reset runs before the rejected attempt is stored; from
      then on every operation fails with it, as in the other copies. */
  lemma ResetCopyKeepsEarlyFailure(urlSet: bool, dial: Dial, calls: seq<Call>, c: Conn)
    requires c.memo.Unset?
    requires !urlSet || dial.Unparsable?
    ensures var first := Ensure(ResetOnFailure, urlSet, dial, c);
      && first.conn == Conn(Settled(AttemptFailure(urlSet, dial)), false, false)
      && first.outcome == Err(ConnectFailed(AttemptFailure(urlSet, dial).value))
      && var t := Run(ResetOnFailure, urlSet, calls, first.conn);
         t.final.memo == first.conn.memo
         && forall i :: 0 <= i < |calls| && calls[i].Use? ==> t.outcomes[i] == first.outcome
  {
    var first := Ensure(ResetOnFailure, urlSet, dial, c);
    FailureIsPermanent(ResetOnFailure, urlSet, calls, first.conn);
  }

  /** Without `MONGODB_URL`, every operation of every copy fails with the
      missing-URL connection error: the two policies cannot be told apart
      from outside. */
  lemma {:induction false} MissingUrlFailsEveryCall(policy: Policy, calls: seq<Call>, c: Conn)
    requires c.memo.Unset? || c.memo == Rejected(MissingUrl)
    ensures forall i :: 0 <= i < |calls| && calls[i].Use? ==>
      Run(policy, false, calls, c).outcomes[i] == Err(ConnectFailed(MissingUrl))
  {
    if calls != [] {
      var next := match calls[0]
        case Use(dial) => Ensure(policy, false, dial, c).conn
        case CloseCall => Close(c);
      MissingUrlFailsEveryCall(policy, calls[1..], next);
      var t := Run(policy, false, calls, c);
      forall i | 0 <= i < |calls| && calls[i].Use?
        ensures t.outcomes[i] == Err(ConnectFailed(MissingUrl))
      {
        if i > 0 {
          assert calls[1..][i - 1] == calls[i];
        }
      }
    }
  }
}
