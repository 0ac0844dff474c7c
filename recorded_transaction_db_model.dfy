/** The DynamoDB item that records one transaction
    (apps/stripe/src/modules/transactions-recording/repositories/dynamodb/recorded-transaction-db-model.ts):
    its key builders, its schema, and its entity, created on first use. Its
    access pattern offers point lookups only: there is no all-items sort
    key. */
module RecordedTransactionDbModel {
  import opened Wrappers
  import T = DynamoMainTable
  import Channel = ChannelConfigMappingDbModel
  import Config = StripeConfigDbModel

  /** `getPK({ saleorApiUrl, appId })`: scoped to the installation. */
  function GetPK(saleorApiUrl: string, appId: string): (pk: string)
    ensures |pk| == |saleorApiUrl| + 1 + |appId|
    ensures pk[..|saleorApiUrl|] == saleorApiUrl && pk[|saleorApiUrl|] == '#' && pk[|saleorApiUrl| + 1..] == appId
  {
    T.PrimaryKeyScopedToInstallation(saleorApiUrl, appId)
  }

  /** Transactions of different installations of one Saleor API URL never
      share a partition. */
  lemma PkSeparatesInstallations(saleorApiUrl: string, appId1: string, appId2: string)
    requires GetPK(saleorApiUrl, appId1) == GetPK(saleorApiUrl, appId2)
    ensures appId1 == appId2
  {
    T.InstallationKeyInjectiveInAppId(saleorApiUrl, appId1, appId2);
  }

  /** `getSKforSpecificItem({ paymentIntentId })` */
  function GetSKforSpecificItem(paymentIntentId: string): (sk: string)
    ensures StartsWith(sk, "TRANSACTION#")
    ensures sk[|"TRANSACTION#"|..] == paymentIntentId
  {
    var sk := "TRANSACTION#" + paymentIntentId;
    assert sk[..12] == "TRANSACTION#";
    sk
  }

  /** Different payment intents never share a sort key. */
  lemma SkInjective(paymentIntentId1: string, paymentIntentId2: string)
    requires GetSKforSpecificItem(paymentIntentId1) == GetSKforSpecificItem(paymentIntentId2)
    ensures paymentIntentId1 == paymentIntentId2
  {
    assert paymentIntentId1 == GetSKforSpecificItem(paymentIntentId1)[12..];
  }

  /** A prefix query for configurations or for channel mappings, which
      share the partition, never returns a transaction. */
  lemma SkIsNeitherConfigNorChannel(paymentIntentId: string)
    ensures !StartsWith(GetSKforSpecificItem(paymentIntentId), Config.GetSKforAllItems())
    ensures !StartsWith(GetSKforSpecificItem(paymentIntentId), Channel.GetSKforAllChannels())
  {
    var sk := GetSKforSpecificItem(paymentIntentId);
    assert sk[0] == 'T';
    assert Config.GetSKforAllItems()[0] == 'C' && Channel.GetSKforAllChannels()[0] == 'C';
  }

  /** `saleorSchemaVersion`: numeric major and minor. */
  datatype SchemaVersion = SchemaVersion(major: int, minor: int)

  /** The item schema: `selectedPaymentMethod` is stored as a string. */
  datatype Item = Item(
    PK: string,
    SK: string,
    paymentIntentId: string,
    saleorTransactionId: string,
    saleorTransactionFlow: string,
    resolvedTransactionFlow: string,
    selectedPaymentMethod: string,
    saleorSchemaVersion: SchemaVersion)

  /** The module's state: `_entity`. */
  class EntityModule {
    var entity: T.Entity?

    constructor()
      ensures entity == null
    {
      entity := null;
    }

    /** `getEntity()`, behind the `entity` getter: the entity is created at
        most once, over the main table, which may itself be created now; if
        that throws, nothing is cached. */
    method GetEntity(tables: T.TableModule, tableName: EnvVar) returns (r: Result<T.Entity, T.TableError>)
      modifies this`entity, tables`dynamoMainTable
      ensures old(entity) != null ==> r == Ok(old(entity)) && entity == old(entity)
      ensures old(entity) != null ==> tables.dynamoMainTable == old(tables.dynamoMainTable)
      ensures old(entity) == null ==> (r.Ok? <==> old(tables.dynamoMainTable) != null || Truthy(tableName))
      ensures old(entity) == null && r.Err? ==> entity == null && tables.dynamoMainTable == null
      ensures old(entity) == null && old(tables.dynamoMainTable) != null ==>
        tables.dynamoMainTable == old(tables.dynamoMainTable)
      ensures old(entity) == null && old(tables.dynamoMainTable) == null && Truthy(tableName) ==>
        && tables.dynamoMainTable != null && fresh(tables.dynamoMainTable)
        && tables.dynamoMainTable.tableName == tableName.value
      ensures old(entity) == null && r.Ok? ==>
        && fresh(r.value) && entity == r.value
        && r.value.name == "RecordedTransaction" && r.value.table == tables.dynamoMainTable
    {
      if entity == null {
        var table := tables.GetDynamoMainTable(tableName);
        if table.Err? {
          return Err(table.error);
        }
        entity := new T.Entity(table.value, "RecordedTransaction");
      }
      return Ok(entity);
    }
  }
}
