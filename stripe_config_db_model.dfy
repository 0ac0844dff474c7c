/** The DynamoDB item that holds one Stripe configuration
    (apps/stripe/src/modules/app-config/repositories/dynamodb/stripe-config-db-model.ts):
    its key builders, its schema, and its entity, created on first use. It
    shares partitions with the channel mappings, so its sort keys must never
    be mistaken for theirs. */
module StripeConfigDbModel {
  import opened Wrappers
  import T = DynamoMainTable
  import Channel = ChannelConfigMappingDbModel

  /** `getPK({ saleorApiUrl, appId })`: scoped to the installation. */
  function GetPK(saleorApiUrl: string, appId: string): (pk: string)
    ensures |pk| == |saleorApiUrl| + 1 + |appId|
    ensures pk[..|saleorApiUrl|] == saleorApiUrl && pk[|saleorApiUrl|] == '#' && pk[|saleorApiUrl| + 1..] == appId
  {
    T.PrimaryKeyScopedToInstallation(saleorApiUrl, appId)
  }

  /** A configuration lives in the same partition as its installation's
      channel mappings, and in no other installation's. */
  lemma PkIsTheMappingsPartition(saleorApiUrl: string, appId: string, appId2: string)
    ensures GetPK(saleorApiUrl, appId) == Channel.GetPK(saleorApiUrl, appId)
    ensures GetPK(saleorApiUrl, appId) == GetPK(saleorApiUrl, appId2) ==> appId == appId2
  {
    if GetPK(saleorApiUrl, appId) == GetPK(saleorApiUrl, appId2) {
      T.InstallationKeyInjectiveInAppId(saleorApiUrl, appId, appId2);
    }
  }

  /** `getSKforAllItems()`: the prefix a query for every configuration uses. */
  function GetSKforAllItems(): string
  {
    "CONFIG_ID#"
  }

  /** `getSKforSpecificItem({ configId })` */
  function GetSKforSpecificItem(configId: string): (sk: string)
    ensures StartsWith(sk, GetSKforAllItems())
    ensures sk[|GetSKforAllItems()|..] == configId
  {
    var sk := "CONFIG_ID#" + configId;
    assert sk[..10] == "CONFIG_ID#";
    sk
  }

  /** Different configurations never share a sort key. */
  lemma SkInjective(configId1: string, configId2: string)
    requires GetSKforSpecificItem(configId1) == GetSKforSpecificItem(configId2)
    ensures configId1 == configId2
  {
    var n := |GetSKforAllItems()|;
    assert configId1 == GetSKforSpecificItem(configId1)[n..];
  }

  /** A prefix query for configurations never returns a channel mapping, and
      one for channel mappings never returns a configuration. */
  lemma SkPrefixesAreDisjoint(configId: string, channelId: string)
    ensures !StartsWith(GetSKforSpecificItem(configId), Channel.GetSKforAllChannels())
    ensures !StartsWith(Channel.GetSKforSpecificChannel(channelId), GetSKforAllItems())
  {
    var config := GetSKforSpecificItem(configId);
    var channel := Channel.GetSKforSpecificChannel(channelId);
    assert config[1] == GetSKforAllItems()[1] == 'O';
    assert channel[1] == Channel.GetSKforAllChannels()[1] == 'H';
  }

  /** The item schema: all six data attributes are required strings. */
  datatype Item = Item(
    PK: string,
    SK: string,
    configName: string,
    configId: string,
    stripePk: string,
    stripeRk: string,
    stripeWhSecret: string,
    stripeWhId: string)

  /** The module's state: `_dynamoDbStripeConfigEntity`. */
  class EntityModule {
    var entity: T.Entity?

    constructor()
      ensures entity == null
    {
      entity := null;
    }

    /** `getEntity()`, behind the `entity` getter: the entity is created at
        most once, over the main table, which may itself be created now; if
        that throws, nothing is cached. */
    method GetEntity(tables: T.TableModule, tableName: EnvVar) returns (r: Result<T.Entity, T.TableError>)
      modifies this`entity, tables`dynamoMainTable
      ensures old(entity) != null ==> r == Ok(old(entity)) && entity == old(entity)
      ensures old(entity) != null ==> tables.dynamoMainTable == old(tables.dynamoMainTable)
      ensures old(entity) == null ==> (r.Ok? <==> old(tables.dynamoMainTable) != null || Truthy(tableName))
      ensures old(entity) == null && r.Err? ==> entity == null && tables.dynamoMainTable == null
      ensures old(entity) == null && old(tables.dynamoMainTable) != null ==>
        tables.dynamoMainTable == old(tables.dynamoMainTable)
      ensures old(entity) == null && old(tables.dynamoMainTable) == null && Truthy(tableName) ==>
        && tables.dynamoMainTable != null && fresh(tables.dynamoMainTable)
        && tables.dynamoMainTable.tableName == tableName.value
      ensures old(entity) == null && r.Ok? ==>
        && fresh(r.value) && entity == r.value
        && r.value.name == "StripeConfig" && r.value.table == tables.dynamoMainTable
    {
      if entity == null {
        var table := tables.GetDynamoMainTable(tableName);
        if table.Err? {
          return Err(table.error);
        }
        entity := new T.Entity(table.value, "StripeConfig");
      }
      return Ok(entity);
    }
  }
}
