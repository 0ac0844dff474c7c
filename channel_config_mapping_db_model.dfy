/** The DynamoDB item that maps a channel to a Stripe configuration
    (apps/stripe/src/modules/app-config/repositories/dynamodb/channel-config-mapping-db-model.ts):
    its key builders, its schema, and its entity, created on first use. */
module ChannelConfigMappingDbModel {
  import opened Wrappers
  import T = DynamoMainTable

  /** `getPK({ saleorApiUrl, appId })`: scoped to the installation. */
  function GetPK(saleorApiUrl: string, appId: string): (pk: string)
    ensures |pk| == |saleorApiUrl| + 1 + |appId|
    ensures pk[..|saleorApiUrl|] == saleorApiUrl && pk[|saleorApiUrl|] == '#' && pk[|saleorApiUrl| + 1..] == appId
  {
    T.PrimaryKeyScopedToInstallation(saleorApiUrl, appId)
  }

  /** Mappings of different installations of one Saleor API URL never share
      a partition. */
  lemma PkSeparatesInstallations(saleorApiUrl: string, appId1: string, appId2: string)
    requires GetPK(saleorApiUrl, appId1) == GetPK(saleorApiUrl, appId2)
    ensures appId1 == appId2
  {
    T.InstallationKeyInjectiveInAppId(saleorApiUrl, appId1, appId2);
  }

  /** `getSKforAllChannels()`: the prefix a query for every mapping uses. */
  function GetSKforAllChannels(): string
  {
    "CHANNEL_ID#"
  }

  /** `getSKforSpecificChannel({ channelId })` */
  function GetSKforSpecificChannel(channelId: string): (sk: string)
    ensures StartsWith(sk, GetSKforAllChannels())
    ensures sk[|GetSKforAllChannels()|..] == channelId
  {
    var sk := "CHANNEL_ID#" + channelId;
    assert sk[..11] == "CHANNEL_ID#";
    sk
  }

  /** Different channels never share a sort key. */
  lemma SkInjective(channelId1: string, channelId2: string)
    requires GetSKforSpecificChannel(channelId1) == GetSKforSpecificChannel(channelId2)
    ensures channelId1 == channelId2
  {
    var n := |GetSKforAllChannels()|;
    assert channelId1 == GetSKforSpecificChannel(channelId1)[n..];
  }

  /** The item schema: `channelId` is required and `configId` optional, so a
      mapping can be cleared without being deleted. */
  datatype Entry = Entry(PK: string, SK: string, channelId: string, configId: Option<string>)

  /** The module's state: `_dynamoDbChannelConfigMappingEntity`. */
  class EntityModule {
    var entity: T.Entity?

    constructor()
      ensures entity == null
    {
      entity := null;
    }

    /** `getEntity()`, behind the `entity` getter: the entity is created at
        most once, over the main table, which may itself be created now; if
        that throws, nothing is cached. */
    method GetEntity(tables: T.TableModule, tableName: EnvVar) returns (r: Result<T.Entity, T.TableError>)
      modifies this`entity, tables`dynamoMainTable
      ensures old(entity) != null ==> r == Ok(old(entity)) && entity == old(entity)
      ensures old(entity) != null ==> tables.dynamoMainTable == old(tables.dynamoMainTable)
      ensures old(entity) == null ==> (r.Ok? <==> old(tables.dynamoMainTable) != null || Truthy(tableName))
      ensures old(entity) == null && r.Err? ==> entity == null && tables.dynamoMainTable == null
      ensures old(entity) == null && old(tables.dynamoMainTable) != null ==>
        tables.dynamoMainTable == old(tables.dynamoMainTable)
      ensures old(entity) == null && old(tables.dynamoMainTable) == null && Truthy(tableName) ==>
        && tables.dynamoMainTable != null && fresh(tables.dynamoMainTable)
        && tables.dynamoMainTable.tableName == tableName.value
      ensures old(entity) == null && r.Ok? ==>
        && fresh(r.value) && entity == r.value
        && r.value.name == "ChannelConfigMapping" && r.value.table == tables.dynamoMainTable
    {
      if entity == null {
        var table := tables.GetDynamoMainTable(tableName);
        if table.Err? {
          return Err(table.error);
        }
        entity := new T.Entity(table.value, "ChannelConfigMapping");
      }
      return Ok(entity);
    }
  }
}
