/** What the Stripe app's MongoDB configuration repository
    (apps/stripe/src/modules/app-config/repositories/mongodb/mongodb-app-config-repo.ts)
    stores and how it reads it back, as functions of the two collections:
    `stripe_configs`, unique on (saleorApiUrl, appId, configId), and
    `channel_config_mappings`, unique on (saleorApiUrl, appId, channelId).
    A document is split into its unique key and the remaining fields.

    The key validators (`createStripeRestrictedKey`,
    `createStripePublishableKey`, `createStripeWebhookSecret`) and
    `StripeConfig.create` are not part of this model; they enter as the
    predicates of a `Validation` record. */
module AppConfigStore {
  import opened Wrappers
  import MC = MongoCollection
  import ML = MongoLifecycle
  import E = Encryptor

  datatype StripeConfig = StripeConfig(
    id: string, name: string, publishableKey: string,
    restrictedKey: string, webhookId: string, webhookSecret: string)

  datatype ConfigKey = ConfigKey(saleorApiUrl: string, appId: string, configId: string)

  datatype MappingKey = MappingKey(saleorApiUrl: string, appId: string, channelId: string)

  /** The other fields of a `stripe_configs` document; `stripeRk` and
      `stripeWhSecret` hold `Encryptor.encrypt` output. */
  datatype ConfigDoc = ConfigDoc(
    configName: string, stripePk: string, stripeRk: string,
    stripeWhId: string, stripeWhSecret: string)

  /** The other field of a `channel_config_mappings` document. */
  datatype MappingDoc = MappingDoc(configId: Option<string>)

  type Configs = map<ConfigKey, MC.Doc<ConfigDoc>>

  type Mappings = map<MappingKey, MC.Doc<MappingDoc>>

  /** Whether each validator accepts a value (`_unsafeUnwrap()` throws when
      it does not), and whether `StripeConfig.create` accepts the fields. */
  datatype Validation = Validation(
    restrictedKey: string -> bool,
    publishableKey: string -> bool,
    webhookSecret: string -> bool,
    create: StripeConfig -> bool)

  /** A config whose fields every validator accepts. */
  predicate Acceptable(v: Validation, c: StripeConfig)
  {
    v.restrictedKey(c.restrictedKey) && v.publishableKey(c.publishableKey)
      && v.webhookSecret(c.webhookSecret) && v.create(c)
  }

  /** Why reading a stored config threw. */
  datatype ReadFailure =
    | Undecryptable(error: E.DecryptError)
    | InvalidRestrictedKey
    | InvalidPublishableKey
    | InvalidWebhookSecret

  /** Reading one stored config: a config, a rejection by
      `StripeConfig.create`, or a throw. */
  datatype Parse = Parsed(config: StripeConfig) | Unparsable | Threw(failure: ReadFailure)

  /** The document `saveStripeConfig` writes: the restricted key and the
      webhook secret encrypted (each under its own IV), the other fields
      verbatim. */
  function Encode(enc: E.Encryptor, ivRk: seq<E.byte>, ivWh: seq<E.byte>, c: StripeConfig): (d: ConfigDoc)
    ensures d.configName == c.name && d.stripePk == c.publishableKey && d.stripeWhId == c.webhookId
    ensures d.stripeRk == E.Encrypt(enc, ivRk, c.restrictedKey)
    ensures d.stripeWhSecret == E.Encrypt(enc, ivWh, c.webhookSecret)
  {
    ConfigDoc(c.name, c.publishableKey, E.Encrypt(enc, ivRk, c.restrictedKey),
              c.webhookId, E.Encrypt(enc, ivWh, c.webhookSecret))
  }

  /** The `StripeConfig.create({...})` call of `getStripeConfig` and
      `getRootConfig`, with the object literal's fields evaluated in order:
      decrypt and validate the restricted key, validate the publishable key,
      decrypt and validate the webhook secret. */
  function ReadRow(enc: E.Encryptor, v: Validation, key: ConfigKey, doc: ConfigDoc): (p: Parse)
    ensures p.Parsed? ==>
      && p.config.id == key.configId && p.config.name == doc.configName
      && p.config.publishableKey == doc.stripePk && p.config.webhookId == doc.stripeWhId
      && Acceptable(v, p.config)
    ensures E.Decrypt(enc, doc.stripeRk).Err? ==> p == Threw(Undecryptable(E.Decrypt(enc, doc.stripeRk).error))
  {
    match E.Decrypt(enc, doc.stripeRk)
    case Err(e) => Threw(Undecryptable(e))
    case Ok(rk) =>
      if !v.restrictedKey(rk) then Threw(InvalidRestrictedKey)
      else if !v.publishableKey(doc.stripePk) then Threw(InvalidPublishableKey)
      else match E.Decrypt(enc, doc.stripeWhSecret)
        case Err(e) => Threw(Undecryptable(e))
        case Ok(whs) =>
          if !v.webhookSecret(whs) then Threw(InvalidWebhookSecret)
          else
            var c := StripeConfig(key.configId, doc.configName, doc.stripePk, rk, doc.stripeWhId, whs);
            if v.create(c) then Parsed(c) else Unparsable
  }

  /** A saved config reads back as itself: decryption inverts the two
      encryptions, and the validators accepted these values before. */
  lemma ReadEncoded(enc: E.Encryptor, v: Validation, ivRk: seq<E.byte>, ivWh: seq<E.byte>,
                    url: string, appId: string, c: StripeConfig)
    requires E.Sound(enc.crypto) && |enc.key| == 32 && |ivRk| == 16 && |ivWh| == 16
    requires Acceptable(v, c)
    ensures ReadRow(enc, v, ConfigKey(url, appId, c.id), Encode(enc, ivRk, ivWh, c)) == Parsed(c)
  {
    E.DecryptEncrypt(enc, ivRk, c.restrictedKey);
    E.DecryptEncrypt(enc, ivWh, c.webhookSecret);
  }

  /** How `getStripeConfig` finds a config. */
  datatype Access =
    | ByConfigId(saleorApiUrl: string, appId: string, configId: string)
    | ByChannelId(saleorApiUrl: string, appId: string, channelId: string)

  /** Why an operation failed, before it is wrapped in the repository's
      error. */
  datatype Cause =
    | Connection(error: ML.ConnectionError)
    | Driver(reason: string)
    | Read(failure: ReadFailure)
    | ParseFailed // "Failed to parse config from MongoDB"

  /** The config id a channel is mapped to, "" when the mapping is absent
      or holds none. */
  function MappedConfigId(mappings: Mappings, key: MappingKey): (id: string)
    ensures id != "" <==> key in mappings && Truthy(mappings[key].body.configId)
    ensures id != "" ==> id == mappings[key].body.configId.value
  {
    match MC.FindOne(mappings, key)
    case None => ""
    case Some(m) => if Truthy(m.configId) then m.configId.value else ""
  }

  /** The config id `getStripeConfig` looks for: the one given, or the one
      the channel is mapped to. */
  function RequestedConfigId(mappings: Mappings, access: Access): string
  {
    match access
    case ByConfigId(_, _, id) => id
    case ByChannelId(url, appId, ch) => MappedConfigId(mappings, MappingKey(url, appId, ch))
  }

  /** `getStripeConfig(access)` once connected; `ioMapping` and `ioConfig`
      are the two `findOne` calls. A config is found only under the
      installation's key for the requested id, and only if that row reads
      as a config; an empty id finds nothing without touching the configs. */
  function Lookup(enc: E.Encryptor, v: Validation, configs: Configs, mappings: Mappings,
                  access: Access, ioMapping: MC.Io, ioConfig: MC.Io): (r: Result<Option<StripeConfig>, Cause>)
    ensures access.ByChannelId? && ioMapping.Broken? ==> r == Err(Driver(ioMapping.reason))
    ensures !(access.ByChannelId? && ioMapping.Broken?) && RequestedConfigId(mappings, access) == "" ==> r == Ok(None)
    ensures r.Ok? && r.value.Some? ==>
      var key := ConfigKey(access.saleorApiUrl, access.appId, RequestedConfigId(mappings, access));
      key in configs && ReadRow(enc, v, key, configs[key].body) == Parsed(r.value.value)
    ensures r == Ok(None) ==>
      || RequestedConfigId(mappings, access) == ""
      || ConfigKey(access.saleorApiUrl, access.appId, RequestedConfigId(mappings, access)) !in configs
    ensures var key := ConfigKey(access.saleorApiUrl, access.appId, RequestedConfigId(mappings, access));
      !(access.ByChannelId? && ioMapping.Broken?) && key.configId != "" ==>
        && (ioConfig.Broken? ==> r == Err(Driver(ioConfig.reason)))
        && (ioConfig.Done? && key !in configs ==> r == Ok(None))
        && (ioConfig.Done? && key in configs ==>
              var p := ReadRow(enc, v, key, configs[key].body);
              && (p.Parsed? ==> r == Ok(Some(p.config)))
              && (p.Unparsable? ==> r == Err(ParseFailed))
              && (p.Threw? ==> r == Err(Read(p.failure))))
  {
    if access.ByChannelId? && ioMapping.Broken? then Err(Driver(ioMapping.reason))
    else
      var configId := RequestedConfigId(mappings, access);
      if configId == "" then Ok(None)
      else if ioConfig.Broken? then Err(Driver(ioConfig.reason))
      else
        var key := ConfigKey(access.saleorApiUrl, access.appId, configId);
        match MC.FindOne(configs, key)
        case None => Ok(None)
        case Some(doc) =>
          match ReadRow(enc, v, key, doc)
          case Parsed(c) => Ok(Some(c))
          case Unparsable => Err(ParseFailed)
          case Threw(f) => Err(Read(f))
  }

  /** The two cases in which a channel lookup finds nothing without error:
      no config id is mapped to the channel, or the mapped config is gone. */
  lemma ChannelLookupNull(enc: E.Encryptor, v: Validation, configs: Configs, mappings: Mappings,
                          url: string, appId: string, channelId: string, ioConfig: MC.Io)
    ensures var id := MappedConfigId(mappings, MappingKey(url, appId, channelId));
      var r := Lookup(enc, v, configs, mappings, ByChannelId(url, appId, channelId), MC.Done, ioConfig);
      (id == "" || (ioConfig.Done? && ConfigKey(url, appId, id) !in configs)) ==> r == Ok(None)
  {
  }

  /** Looking a channel up is looking its mapped config id up. */
  lemma ChannelLookupFollowsMapping(enc: E.Encryptor, v: Validation, configs: Configs, mappings: Mappings,
                                    url: string, appId: string, channelId: string, ioConfig: MC.Io)
    requires MappedConfigId(mappings, MappingKey(url, appId, channelId)) != ""
    ensures Lookup(enc, v, configs, mappings, ByChannelId(url, appId, channelId), MC.Done, ioConfig)
      == Lookup(enc, v, configs, mappings,
                ByConfigId(url, appId, MappedConfigId(mappings, MappingKey(url, appId, channelId))), MC.Done, ioConfig)
  {
  }

  /** The channel map of `getRootConfig`: every channel of the
      installation whose mapping holds a config id. */
  function ChannelMapOf(mappings: Mappings, url: string, appId: string): (m: map<string, string>)
    ensures forall ch :: ch in m <==> MappedConfigId(mappings, MappingKey(url, appId, ch)) != ""
    ensures forall ch :: ch in m ==> m[ch] == MappedConfigId(mappings, MappingKey(url, appId, ch))
  {
    map k | k in mappings && k.saleorApiUrl == url && k.appId == appId && Truthy(mappings[k].body.configId)
      :: k.channelId := mappings[k].body.configId.value
  }

  /** Every config of the installation can be read without a throw. */
  predicate NoThrow(enc: E.Encryptor, v: Validation, configs: Configs, url: string, appId: string)
  {
    forall k :: k in configs && k.saleorApiUrl == url && k.appId == appId ==>
      !ReadRow(enc, v, k, configs[k].body).Threw?
  }

  /** The config map of `getRootConfig`: every config of the installation
      that `StripeConfig.create` accepts, by config id. */
  function ConfigMapOf(enc: E.Encryptor, v: Validation, configs: Configs, url: string, appId: string): (m: map<string, StripeConfig>)
    ensures forall id :: id in m <==> var k := ConfigKey(url, appId, id);
      k in configs && ReadRow(enc, v, k, configs[k].body).Parsed?
    ensures forall id :: id in m ==> m[id] == ReadRow(enc, v, ConfigKey(url, appId, id), configs[ConfigKey(url, appId, id)].body).config
  {
    map k | k in configs && k.saleorApiUrl == url && k.appId == appId && ReadRow(enc, v, k, configs[k].body).Parsed?
      :: k.configId := ReadRow(enc, v, k, configs[k].body).config
  }

  /** `AppRootConfig` */
  datatype RootConfig = RootConfig(channelToConfig: map<string, string>, configs: map<string, StripeConfig>)

  /** `getRootConfig(access)` once connected, when no config throws. */
  function RootConfigOf(enc: E.Encryptor, v: Validation, configs: Configs, mappings: Mappings,
                        url: string, appId: string): (r: Option<RootConfig>)
    ensures r.Some? <==> NoThrow(enc, v, configs, url, appId)
  {
    if NoThrow(enc, v, configs, url, appId) then
      Some(RootConfig(ChannelMapOf(mappings, url, appId), ConfigMapOf(enc, v, configs, url, appId)))
    else None
  }

  /** The `reduce` that builds the channel map, over the mapping documents
      in cursor order. */
  function ChannelFold(mappings: Mappings, keys: seq<MappingKey>): map<string, string>
    requires forall k :: k in keys ==> k in mappings
  {
    if keys == [] then map[]
    else
      var acc := ChannelFold(mappings, keys[..|keys| - 1]);
      var k := keys[|keys| - 1];
      var configId := mappings[k].body.configId;
      if Truthy(configId) then acc[k.channelId := configId.value] else acc
  }

  /** The `reduce` that builds the config map, over the config documents in
      cursor order; a throw in the callback ends the whole fold. */
  function ConfigFold(enc: E.Encryptor, v: Validation, configs: Configs, keys: seq<ConfigKey>): Result<map<string, StripeConfig>, ReadFailure>
    requires forall k :: k in keys ==> k in configs
  {
    if keys == [] then Ok(map[])
    else
      match ConfigFold(enc, v, configs, keys[..|keys| - 1])
      case Err(f) => Err(f)
      case Ok(acc) =>
        var k := keys[|keys| - 1];
        match ReadRow(enc, v, k, configs[k].body)
        case Threw(f) => Err(f)
        case Unparsable => Ok(acc)
        case Parsed(c) => Ok(acc[k.configId := c])
  }

  /** Over distinct mappings of one installation, the fold keeps the
      config id of every listed mapping that has one. */
  lemma {:induction false} ChannelFoldContents(mappings: Mappings, keys: seq<MappingKey>, url: string, appId: string)
    requires forall k :: k in keys ==> k in mappings && k.saleorApiUrl == url && k.appId == appId
    requires MC.Distinct(keys)
    ensures forall ch :: ch in ChannelFold(mappings, keys) <==>
      MappingKey(url, appId, ch) in keys && MappedConfigId(mappings, MappingKey(url, appId, ch)) != ""
    ensures forall ch :: ch in ChannelFold(mappings, keys) ==>
      ChannelFold(mappings, keys)[ch] == MappedConfigId(mappings, MappingKey(url, appId, ch))
  {
    if keys != [] {
      var init := keys[..|keys| - 1];
      var last := keys[|keys| - 1];
      MC.DistinctInit(keys);
      ChannelFoldContents(mappings, init, url, appId);
      assert last == MappingKey(url, appId, last.channelId);
      var acc := ChannelFold(mappings, init);
      var configId := mappings[last].body.configId;
      if Truthy(configId) {
        assert ChannelFold(mappings, keys) == acc[last.channelId := configId.value];
      } else {
        assert ChannelFold(mappings, keys) == acc;
      }
    }
  }

  /** Over distinct configs of one installation, the fold fails exactly
      when one of them throws, with that one's failure, and otherwise
      keeps every config that parses. */
  lemma {:induction false} ConfigFoldContents(enc: E.Encryptor, v: Validation, configs: Configs, keys: seq<ConfigKey>, url: string, appId: string)
    requires forall k :: k in keys ==> k in configs && k.saleorApiUrl == url && k.appId == appId
    requires MC.Distinct(keys)
    ensures var r := ConfigFold(enc, v, configs, keys);
      && (r.Ok? <==> forall k :: k in keys ==> !ReadRow(enc, v, k, configs[k].body).Threw?)
      && (r.Err? ==> exists k :: k in keys && ReadRow(enc, v, k, configs[k].body) == Threw(r.error))
      && (r.Ok? ==> forall id :: id in r.value <==>
            ConfigKey(url, appId, id) in keys && ReadRow(enc, v, ConfigKey(url, appId, id), configs[ConfigKey(url, appId, id)].body).Parsed?)
      && (r.Ok? ==> forall id :: id in r.value ==>
            r.value[id] == ReadRow(enc, v, ConfigKey(url, appId, id), configs[ConfigKey(url, appId, id)].body).config)
  {
    if keys != [] {
      var init := keys[..|keys| - 1];
      var last := keys[|keys| - 1];
      MC.DistinctInit(keys);
      ConfigFoldContents(enc, v, configs, init, url, appId);
      assert last == ConfigKey(url, appId, last.configId);
      var row := ReadRow(enc, v, last, configs[last].body);
      match ConfigFold(enc, v, configs, init)
      case Err(f) =>
        assert ConfigFold(enc, v, configs, keys) == Err(f);
      case Ok(acc) =>
        if row.Parsed? {
          assert ConfigFold(enc, v, configs, keys) == Ok(acc[last.configId := row.config]);
        }
    }
  }

  /** With every mapping of the installation listed once, the channel
      fold builds `ChannelMapOf`. */
  lemma ChannelFoldIsChannelMap(mappings: Mappings, url: string, appId: string, keys: seq<MappingKey>)
    requires MC.Distinct(keys)
    requires forall k :: k in keys <==> k in mappings && k.saleorApiUrl == url && k.appId == appId
    ensures ChannelFold(mappings, keys) == ChannelMapOf(mappings, url, appId)
  {
    ChannelFoldContents(mappings, keys, url, appId);
    var folded := ChannelFold(mappings, keys);
    var spec := ChannelMapOf(mappings, url, appId);
    assert forall ch :: ch in folded <==> ch in spec;
    assert forall ch :: ch in folded ==> folded[ch] == spec[ch];
  }

  /** With every config of the installation listed once, the config fold
      fails exactly when one of them throws, and then with that one's
      failure. */
  lemma ConfigFoldThrowsIffSomeRowThrows(enc: E.Encryptor, v: Validation, configs: Configs, url: string, appId: string, keys: seq<ConfigKey>)
    requires MC.Distinct(keys)
    requires forall k :: k in keys <==> k in configs && k.saleorApiUrl == url && k.appId == appId
    ensures var r := ConfigFold(enc, v, configs, keys);
      && (r.Ok? <==> NoThrow(enc, v, configs, url, appId))
      && (r.Err? ==> exists k :: k in configs && k.saleorApiUrl == url && k.appId == appId
                       && ReadRow(enc, v, k, configs[k].body) == Threw(r.error))
  {
    ConfigFoldContents(enc, v, configs, keys, url, appId);
  }

  /** With every config of the installation listed once, a config fold that
      does not fail builds `ConfigMapOf`, whatever the order of the keys. */
  lemma ConfigFoldIsConfigMap(enc: E.Encryptor, v: Validation, configs: Configs, url: string, appId: string, keys: seq<ConfigKey>)
    requires MC.Distinct(keys)
    requires forall k :: k in keys <==> k in configs && k.saleorApiUrl == url && k.appId == appId
    ensures var r := ConfigFold(enc, v, configs, keys);
      r.Ok? ==> r.value == ConfigMapOf(enc, v, configs, url, appId)
  {
    ConfigFoldContents(enc, v, configs, keys, url, appId);
    var r := ConfigFold(enc, v, configs, keys);
    if r.Ok? {
      var folded := r.value;
      var spec := ConfigMapOf(enc, v, configs, url, appId);
      forall id
        ensures id in folded <==> id in spec
        ensures id in folded ==> folded[id] == spec[id]
      {
        var k := ConfigKey(url, appId, id);
        assert k in keys <==> k in configs;
      }
      assert folded == spec;
    }
  }

  /** The root config agrees with `getStripeConfig`: a channel it maps to a
      config it holds looks up that config. */
  lemma RootConfigAgreesWithLookup(enc: E.Encryptor, v: Validation, configs: Configs, mappings: Mappings,
                                   url: string, appId: string, channelId: string)
    requires RootConfigOf(enc, v, configs, mappings, url, appId).Some?
    requires var root := RootConfigOf(enc, v, configs, mappings, url, appId).value;
      channelId in root.channelToConfig && root.channelToConfig[channelId] in root.configs
    ensures var root := RootConfigOf(enc, v, configs, mappings, url, appId).value;
      Lookup(enc, v, configs, mappings, ByChannelId(url, appId, channelId), MC.Done, MC.Done)
        == Ok(Some(root.configs[root.channelToConfig[channelId]]))
  {
  }

  /** The write of `saveStripeConfig`: an upsert keyed by
      (saleorApiUrl, appId, config.id). */
  function SaveConfig(enc: E.Encryptor, ivRk: seq<E.byte>, ivWh: seq<E.byte>, configs: Configs,
                      url: string, appId: string, c: StripeConfig, freshId: nat): (r: Configs)
    ensures r.Keys == configs.Keys + {ConfigKey(url, appId, c.id)}
    ensures r[ConfigKey(url, appId, c.id)].body == Encode(enc, ivRk, ivWh, c)
    ensures forall k :: k in configs && k != ConfigKey(url, appId, c.id) ==> r[k] == configs[k]
  {
    MC.ReplaceOneUpsert(configs, ConfigKey(url, appId, c.id), Encode(enc, ivRk, ivWh, c), freshId)
  }

  /** The write of `removeConfig`: the config document only. */
  function RemoveConfig(configs: Configs, url: string, appId: string, configId: string): (r: Configs)
    ensures r.Keys == configs.Keys - {ConfigKey(url, appId, configId)}
    ensures forall k :: k in r ==> r[k] == configs[k]
  {
    MC.DeleteOne(configs, ConfigKey(url, appId, configId))
  }

  /** The write of `updateMapping`: an upsert keyed by
      (saleorApiUrl, appId, channelId) whose `configId` is `data.configId ||
      undefined`, so an empty id is stored as none. */
  function UpdateMapping(mappings: Mappings, url: string, appId: string, channelId: string,
                         configId: Option<string>, freshId: nat): (r: Mappings)
    ensures r.Keys == mappings.Keys + {MappingKey(url, appId, channelId)}
    ensures r[MappingKey(url, appId, channelId)].body.configId == if Truthy(configId) then configId else None
    ensures forall k :: k in mappings && k != MappingKey(url, appId, channelId) ==> r[k] == mappings[k]
  {
    var stored := if Truthy(configId) then configId else None;
    MC.ReplaceOneUpsert(mappings, MappingKey(url, appId, channelId), MappingDoc(stored), freshId)
  }

  /** Save then `getStripeConfig({configId})` of the same installation
      returns an equal config. */
  lemma GetAfterSave(enc: E.Encryptor, v: Validation, ivRk: seq<E.byte>, ivWh: seq<E.byte>,
                     configs: Configs, mappings: Mappings, url: string, appId: string, c: StripeConfig, freshId: nat)
    requires E.Sound(enc.crypto) && |enc.key| == 32 && |ivRk| == 16 && |ivWh| == 16
    requires Acceptable(v, c) && c.id != ""
    ensures Lookup(enc, v, SaveConfig(enc, ivRk, ivWh, configs, url, appId, c, freshId), mappings,
                   ByConfigId(url, appId, c.id), MC.Done, MC.Done) == Ok(Some(c))
  {
    ReadEncoded(enc, v, ivRk, ivWh, url, appId, c);
  }

  /** A config saved under an empty id is stored but can never be found by
      `getStripeConfig`, which answers null for an empty id. */
  lemma EmptyConfigIdIsNeverFound(enc: E.Encryptor, v: Validation, configs: Configs, mappings: Mappings,
                                  url: string, appId: string, io: MC.Io)
    ensures Lookup(enc, v, configs, mappings, ByConfigId(url, appId, ""), io, io) == Ok(None)
  {
  }

  /** Mapping a channel to a saved config makes the channel lookup return
      that config. */
  lemma ChannelGetAfterMapAndSave(enc: E.Encryptor, v: Validation, ivRk: seq<E.byte>, ivWh: seq<E.byte>,
                                  configs: Configs, mappings: Mappings, url: string, appId: string,
                                  channelId: string, c: StripeConfig, id1: nat, id2: nat)
    requires E.Sound(enc.crypto) && |enc.key| == 32 && |ivRk| == 16 && |ivWh| == 16
    requires Acceptable(v, c) && c.id != ""
    ensures Lookup(enc, v, SaveConfig(enc, ivRk, ivWh, configs, url, appId, c, id1),
                   UpdateMapping(mappings, url, appId, channelId, Some(c.id), id2),
                   ByChannelId(url, appId, channelId), MC.Done, MC.Done) == Ok(Some(c))
  {
    var saved := SaveConfig(enc, ivRk, ivWh, configs, url, appId, c, id1);
    var mapped := UpdateMapping(mappings, url, appId, channelId, Some(c.id), id2);
    assert MappedConfigId(mapped, MappingKey(url, appId, channelId)) == c.id;
    ChannelLookupFollowsMapping(enc, v, saved, mapped, url, appId, channelId, MC.Done);
    GetAfterSave(enc, v, ivRk, ivWh, configs, mapped, url, appId, c, id1);
  }

  /** `removeConfig` leaves the mapping behind; looking up a channel that
      was mapped to the removed config then finds nothing, without error. */
  lemma ChannelGetAfterRemoveIsNull(enc: E.Encryptor, v: Validation, configs: Configs, mappings: Mappings,
                                    url: string, appId: string, channelId: string)
    requires MappedConfigId(mappings, MappingKey(url, appId, channelId)) != ""
    ensures var removed := RemoveConfig(configs, url, appId, MappedConfigId(mappings, MappingKey(url, appId, channelId)));
      Lookup(enc, v, removed, mappings, ByChannelId(url, appId, channelId), MC.Done, MC.Done) == Ok(None)
  {
  }

  /** Clearing a mapping (`configId` null or empty) makes the channel
      lookup return null and drops the channel from the root config's
      channel map. */
  lemma ClearedMappingIsNull(enc: E.Encryptor, v: Validation, configs: Configs, mappings: Mappings,
                             url: string, appId: string, channelId: string, configId: Option<string>, freshId: nat, io: MC.Io)
    requires !Truthy(configId)
    ensures var m := UpdateMapping(mappings, url, appId, channelId, configId, freshId);
      && Lookup(enc, v, configs, m, ByChannelId(url, appId, channelId), MC.Done, io) == Ok(None)
      && channelId !in ChannelMapOf(m, url, appId)
  {
  }

  /** Writes are scoped to one installation: saving a config leaves every
      lookup of another (saleorApiUrl, appId) as it was. */
  lemma SaveIsScopedToInstallation(enc: E.Encryptor, v: Validation, ivRk: seq<E.byte>, ivWh: seq<E.byte>,
                                   configs: Configs, mappings: Mappings, url: string, appId: string,
                                   c: StripeConfig, freshId: nat, access: Access, io1: MC.Io, io2: MC.Io)
    requires (access.saleorApiUrl, access.appId) != (url, appId)
    ensures Lookup(enc, v, SaveConfig(enc, ivRk, ivWh, configs, url, appId, c, freshId), mappings, access, io1, io2)
      == Lookup(enc, v, configs, mappings, access, io1, io2)
  {
    var key := ConfigKey(access.saleorApiUrl, access.appId, RequestedConfigId(mappings, access));
    assert key != ConfigKey(url, appId, c.id);
  }
}
