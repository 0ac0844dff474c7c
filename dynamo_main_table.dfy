/** The Stripe app's DynamoDB main table
    (apps/stripe/src/modules/dynamodb/dynamo-main-table.ts): the two
    partition-key builders, and the module-level table that is created on
    first use. The DynamoDB client and dynamodb-toolbox's `Table` are not
    part of this model; a table is known by its name. */
module DynamoMainTable {
  import opened Wrappers

  /** `getPrimaryKeyScopedToInstallation({ saleorApiUrl, appId })`: data that
      a reinstall must not see (configuration, transactions). */
  function PrimaryKeyScopedToInstallation(saleorApiUrl: string, appId: string): (pk: string)
    ensures |pk| == |saleorApiUrl| + 1 + |appId|
    ensures pk[..|saleorApiUrl|] == PrimaryKeyScopedToSaleorApiUrl(saleorApiUrl)
    ensures pk[|saleorApiUrl|] == '#' && pk[|saleorApiUrl| + 1..] == appId
  {
    saleorApiUrl + "#" + appId
  }

  /** `getPrimaryKeyScopedToSaleorApiUrl({ saleorApiUrl })`: data that
      survives a reinstall (the APL). */
  function PrimaryKeyScopedToSaleorApiUrl(saleorApiUrl: string): (pk: string)
    ensures |pk| == |saleorApiUrl| && forall i :: 0 <= i < |pk| ==> pk[i] == saleorApiUrl[i]
  {
    saleorApiUrl
  }

  /** The installation key is the tenant key, "#", then the app id. */
  lemma InstallationKeyExtendsTenantKey(saleorApiUrl: string, appId: string)
    ensures PrimaryKeyScopedToInstallation(saleorApiUrl, appId)
         == PrimaryKeyScopedToSaleorApiUrl(saleorApiUrl) + "#" + appId
  {
    var pk := PrimaryKeyScopedToInstallation(saleorApiUrl, appId);
    var t := PrimaryKeyScopedToSaleorApiUrl(saleorApiUrl);
    assert t == saleorApiUrl;
  }

  /** For one Saleor API URL, different app ids give different keys. */
  lemma InstallationKeyInjectiveInAppId(saleorApiUrl: string, appId1: string, appId2: string)
    requires PrimaryKeyScopedToInstallation(saleorApiUrl, appId1) == PrimaryKeyScopedToInstallation(saleorApiUrl, appId2)
    ensures appId1 == appId2
  {
    var n := |saleorApiUrl| + 1;
    assert appId1 == PrimaryKeyScopedToInstallation(saleorApiUrl, appId1)[n..];
    assert appId2 == PrimaryKeyScopedToInstallation(saleorApiUrl, appId2)[n..];
  }

  /** The first "#" of the installation key ends the URL when the URL has
      none of its own. */
  lemma FirstHashEndsUrl(saleorApiUrl: string, appId: string, i: nat)
    requires '#' !in saleorApiUrl
    requires i < |PrimaryKeyScopedToInstallation(saleorApiUrl, appId)|
    requires PrimaryKeyScopedToInstallation(saleorApiUrl, appId)[i] == '#'
    ensures |saleorApiUrl| <= i
  {
  }

  /** Over URLs without "#", the installation key determines both parts. */
  lemma InstallationKeyInjective(url1: string, appId1: string, url2: string, appId2: string)
    requires '#' !in url1 && '#' !in url2
    requires PrimaryKeyScopedToInstallation(url1, appId1) == PrimaryKeyScopedToInstallation(url2, appId2)
    ensures url1 == url2 && appId1 == appId2
  {
    var pk := PrimaryKeyScopedToInstallation(url1, appId1);
    FirstHashEndsUrl(url1, appId1, |url2|);
    FirstHashEndsUrl(url2, appId2, |url1|);
    assert |url1| == |url2|;
    assert url1 == pk[..|url1|] == url2;
    InstallationKeyInjectiveInAppId(url1, appId1, appId2);
  }

  /** A "#" inside the URL lets two installations share a key. */
  lemma HashInUrlCollides()
    ensures PrimaryKeyScopedToInstallation("a#b", "c") == PrimaryKeyScopedToInstallation("a", "b#c")
    ensures ("a#b", "c") != ("a", "b#c")
  {
    assert PrimaryKeyScopedToInstallation("a#b", "c") == "a#b#c";
    assert PrimaryKeyScopedToInstallation("a", "b#c") == "a#b#c";
  }

  /** `DynamoMainTable.create({ documentClient, tableName })` */
  class Table {
    const tableName: string

    constructor(tableName: string)
      ensures this.tableName == tableName
    {
      this.tableName := tableName;
    }
  }

  datatype TableError = TableNameRequired(message: string)

  /** A dynamodb-toolbox `Entity`: an item type of the main table. */
  class Entity {
    const table: Table
    const name: string

    constructor(table: Table, name: string)
      ensures this.table == table && this.name == name
    {
      this.table := table;
      this.name := name;
    }
  }

  /** The module's state: `_dynamoMainTable`. */
  class TableModule {
    var dynamoMainTable: Table?

    /** Loading the module, which also builds the `dynamoMainTable` proxy,
        creates no table. */
    constructor()
      ensures dynamoMainTable == null
    {
      dynamoMainTable := null;
    }

    /** `getDynamoMainTable()`; `tableName` is `env.DYNAMODB_MAIN_TABLE_NAME`
        at the time of the call. The table is created at most once; a
        missing name throws and leaves nothing cached, so the next call
        checks again. */
    method GetDynamoMainTable(tableName: EnvVar) returns (r: Result<Table, TableError>)
      modifies this`dynamoMainTable
      ensures old(dynamoMainTable) != null ==> r == Ok(old(dynamoMainTable)) && dynamoMainTable == old(dynamoMainTable)
      ensures old(dynamoMainTable) == null && !Truthy(tableName) ==> r.Err? && dynamoMainTable == null
      ensures old(dynamoMainTable) == null && Truthy(tableName) ==>
        && r.Ok? && fresh(r.value) && r.value.tableName == tableName.value
        && dynamoMainTable == r.value
    {
      if dynamoMainTable == null {
        if !Truthy(tableName) {
          return Err(TableNameRequired("DYNAMODB_MAIN_TABLE_NAME is required when using DynamoDB"));
        }
        dynamoMainTable := new Table(tableName.value);
      }
      return Ok(dynamoMainTable);
    }

    /** A property read through the deprecated `dynamoMainTable` proxy: it
        goes through `getDynamoMainTable()` every time. */
    method ProxyGet(tableName: EnvVar) returns (r: Result<Table, TableError>)
      modifies this`dynamoMainTable
      ensures old(dynamoMainTable) != null ==> r == Ok(old(dynamoMainTable)) && dynamoMainTable == old(dynamoMainTable)
      ensures old(dynamoMainTable) == null && !Truthy(tableName) ==> r.Err? && dynamoMainTable == null
      ensures old(dynamoMainTable) == null && Truthy(tableName) ==>
        && r.Ok? && fresh(r.value) && r.value.tableName == tableName.value
        && dynamoMainTable == r.value
    {
      r := GetDynamoMainTable(tableName);
    }
  }
}
