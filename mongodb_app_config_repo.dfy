/** The Stripe app's `MongodbAppConfigRepo`
    (apps/stripe/src/modules/app-config/repositories/mongodb/mongodb-app-config-repo.ts):
    Stripe configurations and channel-to-config mappings in two MongoDB
    collections behind the lazy connection memo, with the secret keys
    encrypted by an `Encryptor`. Every failure is returned as an error
    value; nothing is thrown.

    `env.MONGODB_URL`, the encryptor and the validators are fixed for the
    instance's life. `randomBytes(16)` gives the two IVs `saveStripeConfig`
    encrypts with; they are parameters. */
module MongoConfigRepo {
  import opened Wrappers
  import opened MongoLifecycle
  import MC = MongoCollection
  import E = Encryptor
  import opened AppConfigStore

  /** `AppConfigRepoError`'s three classes. */
  datatype RepoError =
    | FailureSavingConfig(cause: Cause)
    | FailureFetchingConfig(cause: Cause)
    | FailureRemovingConfig(cause: Cause)

  class MongodbAppConfigRepo {
    /** `env.MONGODB_URL` */
    const mongoUrl: EnvVar
    const encryptor: E.Encryptor
    const validation: Validation

    var connectionPromise: Memo
    var client: bool
    /** `db`, `stripeConfigCollection` and `channelMappingCollection`, which
        are set and cleared together */
    var collections: bool
    /** the `stripe_configs` collection */
    var configs: Configs
    /** the `channel_config_mappings` collection */
    var mappings: Mappings
    /** the `_id` the driver assigns to the next inserted document */
    var nextObjectId: nat

    function Connection(): Conn
      reads this
    {
      Conn(connectionPromise, client, collections)
    }

    predicate Valid()
      reads this
    {
      Wf(Connection())
    }

    /** `new MongodbAppConfigRepo(encryptor)`: nothing is connected until
        first use. */
    constructor(mongoUrl: EnvVar, encryptor: E.Encryptor, validation: Validation,
                configs: Configs, mappings: Mappings, nextObjectId: nat)
      ensures Valid() && Connection() == Fresh
      ensures this.mongoUrl == mongoUrl && this.encryptor == encryptor && this.validation == validation
      ensures this.configs == configs && this.mappings == mappings && this.nextObjectId == nextObjectId
    {
      this.mongoUrl := mongoUrl;
      this.encryptor := encryptor;
      this.validation := validation;
      connectionPromise := Unset;
      client := false;
      collections := false;
      this.configs := configs;
      this.mappings := mappings;
      this.nextObjectId := nextObjectId;
    }

    /** `connect()`, run to completion; either index creation may fail. */
    method Connect(dial: Dial) returns (settled: Memo)
      requires !client && !collections
      modifies this`client, this`collections
      ensures Conn(settled, client, collections) == AfterAttempt(KeepFailure, Truthy(mongoUrl), dial)
    {
      if !Truthy(mongoUrl) {
        return Rejected(MissingUrl);
      }
      if dial.Unparsable? {
        return Rejected(InvalidUrl(dial.reason));
      }
      client := true;
      if dial.Unreachable? {
        return Rejected(ClientConnectFailed(dial.reason));
      }
      collections := true;
      if dial.IndexRejected? {
        return Rejected(IndexCreationFailed(dial.reason));
      }
      return Fulfilled;
    }

    /** `ensureConnection()`: the memoized attempt is never cleared. */
    method EnsureConnection(dial: Dial) returns (r: Result<(), ConnectionError>)
      requires Valid()
      modifies this`connectionPromise, this`client, this`collections
      ensures Valid()
      ensures Step(Connection(), r) == Ensure(KeepFailure, Truthy(mongoUrl), dial, old(Connection()))
    {
      if connectionPromise.Unset? {
        connectionPromise := Connect(dial);
      }
      if connectionPromise.Rejected? {
        return Err(ConnectFailed(connectionPromise.cause));
      }
      if !collections {
        return Err(NotEstablished);
      }
      return Ok(());
    }

    /** `saveStripeConfig({ config, saleorApiUrl, appId })` */
    method SaveStripeConfig(url: string, appId: string, config: StripeConfig,
                            ivRk: seq<E.byte>, ivWh: seq<E.byte>, dial: Dial, io: MC.Io)
      returns (r: Result<(), RepoError>)
      requires Valid()
      modifies this`connectionPromise, this`client, this`collections, this`configs, this`nextObjectId
      ensures Valid()
      ensures var step := Ensure(KeepFailure, Truthy(mongoUrl), dial, old(Connection()));
        && Connection() == step.conn
        && (step.outcome.Err? ==> r == Err(FailureSavingConfig(AppConfigStore.Connection(step.outcome.error))) && configs == old(configs))
        && (step.outcome.Ok? && io.Broken? ==> r == Err(FailureSavingConfig(Driver(io.reason))) && configs == old(configs))
        && (step.outcome.Ok? && io.Done? ==>
              && r == Ok(())
              && configs == SaveConfig(encryptor, ivRk, ivWh, old(configs), url, appId, config, old(nextObjectId)))
    {
      var connected := EnsureConnection(dial);
      if connected.Err? {
        return Err(FailureSavingConfig(AppConfigStore.Connection(connected.error)));
      }
      var mongoConfig := Encode(encryptor, ivRk, ivWh, config);
      if io.Broken? {
        return Err(FailureSavingConfig(Driver(io.reason)));
      }
      configs := MC.ReplaceOneUpsert(configs, ConfigKey(url, appId, config.id), mongoConfig, nextObjectId);
      nextObjectId := nextObjectId + 1;
      return Ok(());
    }

    /** `getStripeConfig(access)`; `ioMapping` and `ioConfig` are the two
        `findOne` calls. */
    method GetStripeConfig(access: Access, dial: Dial, ioMapping: MC.Io, ioConfig: MC.Io)
      returns (r: Result<Option<StripeConfig>, RepoError>)
      requires Valid()
      modifies this`connectionPromise, this`client, this`collections
      ensures Valid()
      ensures var step := Ensure(KeepFailure, Truthy(mongoUrl), dial, old(Connection()));
        && Connection() == step.conn
        && (step.outcome.Err? ==> r == Err(FailureFetchingConfig(AppConfigStore.Connection(step.outcome.error))))
        && (step.outcome.Ok? ==>
              var found := Lookup(encryptor, validation, configs, mappings, access, ioMapping, ioConfig);
              r == if found.Ok? then Ok(found.value) else Err(FailureFetchingConfig(found.error)))
    {
      var connected := EnsureConnection(dial);
      if connected.Err? {
        return Err(FailureFetchingConfig(AppConfigStore.Connection(connected.error)));
      }
      var configId: string;
      match access {
        case ByConfigId(_, _, id) =>
          configId := id;
        case ByChannelId(url, appId, channelId) =>
          if ioMapping.Broken? {
            return Err(FailureFetchingConfig(Driver(ioMapping.reason)));
          }
          var mapping := MC.FindOne(mappings, MappingKey(url, appId, channelId));
          if mapping.None? || !Truthy(mapping.value.configId) {
            return Ok(None);
          }
          configId := mapping.value.configId.value;
      }
      if configId == "" {
        return Ok(None);
      }
      if ioConfig.Broken? {
        return Err(FailureFetchingConfig(Driver(ioConfig.reason)));
      }
      var key := ConfigKey(access.saleorApiUrl, access.appId, configId);
      var mongoConfig := MC.FindOne(configs, key);
      if mongoConfig.None? {
        return Ok(None);
      }
      match ReadRow(encryptor, validation, key, mongoConfig.value) {
        case Parsed(c) => return Ok(Some(c));
        case Unparsable => return Err(FailureFetchingConfig(ParseFailed));
        case Threw(f) => return Err(FailureFetchingConfig(Read(f)));
      }
    }

    /** `getRootConfig(access)`: both collections filtered to the
        installation, then the two folds. Which throwing config is reported
        depends on the cursor order. */
    method GetRootConfig(url: string, appId: string, dial: Dial, ioConfigs: MC.Io, ioMappings: MC.Io)
      returns (r: Result<RootConfig, RepoError>)
      requires Valid()
      modifies this`connectionPromise, this`client, this`collections
      ensures Valid()
      ensures var step := Ensure(KeepFailure, Truthy(mongoUrl), dial, old(Connection()));
        && Connection() == step.conn
        && (step.outcome.Err? ==> r == Err(FailureFetchingConfig(AppConfigStore.Connection(step.outcome.error))))
        && (step.outcome.Ok? && ioConfigs.Broken? ==> r == Err(FailureFetchingConfig(Driver(ioConfigs.reason))))
        && (step.outcome.Ok? && ioConfigs.Done? && ioMappings.Broken? ==>
              r == Err(FailureFetchingConfig(Driver(ioMappings.reason))))
        && (step.outcome.Ok? && ioConfigs.Done? && ioMappings.Done? ==>
              var root := RootConfigOf(encryptor, validation, configs, mappings, url, appId);
              && (root.Some? ==> r == Ok(root.value))
              && (root.None? ==>
                    && r.Err? && r.error.FailureFetchingConfig? && r.error.cause.Read?
                    && exists k :: k in configs && k.saleorApiUrl == url && k.appId == appId
                         && ReadRow(encryptor, validation, k, configs[k].body) == Threw(r.error.cause.failure)))
    {
      var connected := EnsureConnection(dial);
      if connected.Err? {
        return Err(FailureFetchingConfig(AppConfigStore.Connection(connected.error)));
      }
      if ioConfigs.Broken? {
        return Err(FailureFetchingConfig(Driver(ioConfigs.reason)));
      }
      var configKeys := MC.Find(configs, (k: ConfigKey) => k.saleorApiUrl == url && k.appId == appId);
      if ioMappings.Broken? {
        return Err(FailureFetchingConfig(Driver(ioMappings.reason)));
      }
      var mappingKeys := MC.Find(mappings, (k: MappingKey) => k.saleorApiUrl == url && k.appId == appId);
      var channelToConfigMapping := ChannelFold(mappings, mappingKeys);
      var configIdToConfigMapping := ConfigFold(encryptor, validation, configs, configKeys);
      ChannelFoldIsChannelMap(mappings, url, appId, mappingKeys);
      ConfigFoldThrowsIffSomeRowThrows(encryptor, validation, configs, url, appId, configKeys);
      ConfigFoldIsConfigMap(encryptor, validation, configs, url, appId, configKeys);
      if configIdToConfigMapping.Err? {
        return Err(FailureFetchingConfig(Read(configIdToConfigMapping.error)));
      }
      return Ok(RootConfig(channelToConfigMapping, configIdToConfigMapping.value));
    }

    /** `removeConfig(access, { configId })`: deletes the config document
        only; mappings are left as they are and no match is required. */
    method RemoveConfig(url: string, appId: string, configId: string, dial: Dial, io: MC.Io)
      returns (r: Result<(), RepoError>)
      requires Valid()
      modifies this`connectionPromise, this`client, this`collections, this`configs
      ensures Valid()
      ensures var step := Ensure(KeepFailure, Truthy(mongoUrl), dial, old(Connection()));
        && Connection() == step.conn
        && (step.outcome.Err? ==> r == Err(FailureRemovingConfig(AppConfigStore.Connection(step.outcome.error))) && configs == old(configs))
        && (step.outcome.Ok? && io.Broken? ==> r == Err(FailureRemovingConfig(Driver(io.reason))) && configs == old(configs))
        && (step.outcome.Ok? && io.Done? ==> r == Ok(()) && configs == AppConfigStore.RemoveConfig(old(configs), url, appId, configId))
    {
      var connected := EnsureConnection(dial);
      if connected.Err? {
        return Err(FailureRemovingConfig(AppConfigStore.Connection(connected.error)));
      }
      if io.Broken? {
        return Err(FailureRemovingConfig(Driver(io.reason)));
      }
      configs := MC.DeleteOne(configs, ConfigKey(url, appId, configId));
      return Ok(());
    }

    /** `updateMapping(access, { configId, channelId })` */
    method UpdateMapping(url: string, appId: string, channelId: string, configId: Option<string>, dial: Dial, io: MC.Io)
      returns (r: Result<(), RepoError>)
      requires Valid()
      modifies this`connectionPromise, this`client, this`collections, this`mappings, this`nextObjectId
      ensures Valid()
      ensures var step := Ensure(KeepFailure, Truthy(mongoUrl), dial, old(Connection()));
        && Connection() == step.conn
        && (step.outcome.Err? ==> r == Err(FailureSavingConfig(AppConfigStore.Connection(step.outcome.error))) && mappings == old(mappings))
        && (step.outcome.Ok? && io.Broken? ==> r == Err(FailureSavingConfig(Driver(io.reason))) && mappings == old(mappings))
        && (step.outcome.Ok? && io.Done? ==>
              && r == Ok(())
              && mappings == AppConfigStore.UpdateMapping(old(mappings), url, appId, channelId, configId, old(nextObjectId)))
    {
      var connected := EnsureConnection(dial);
      if connected.Err? {
        return Err(FailureSavingConfig(AppConfigStore.Connection(connected.error)));
      }
      var mapping := MappingDoc(if Truthy(configId) then configId else None);
      if io.Broken? {
        return Err(FailureSavingConfig(Driver(io.reason)));
      }
      mappings := MC.ReplaceOneUpsert(mappings, MappingKey(url, appId, channelId), mapping, nextObjectId);
      nextObjectId := nextObjectId + 1;
      return Ok(());
    }

    /** `close()`: drops the client and handles but keeps the memo. */
    method Close()
      requires Valid()
      modifies this`client, this`collections
      ensures Valid()
      ensures Connection() == MongoLifecycle.Close(old(Connection()))
    {
      if client {
        client := false;
        collections := false;
      }
    }
  }
}
