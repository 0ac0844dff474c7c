/** How the Stripe app picks its storage at module load: the APL switch
    (apps/stripe/src/lib/saleor-app.ts), `createAppConfigRepo`
    (app-config-repo-impl.ts) and `createTransactionRecorder`
    (transaction-recorder-impl.ts). Each reads `env.APL` once and the result
    is bound to a module-level value; none of them checks any other
    environment variable, so a misconfigured backend fails only on first use. */
module StripeBackends {
  import E = Encryptor

  /** Where a store keeps its data. */
  datatype Backend = MongoDb | DynamoDb | LocalFile

  /** The APL behind `saleorApp`. `DynamoAPL` is built over the lazy
      `dynamoMainTable` proxy, which reads the table name only when used. */
  datatype Apl = DynamoAPL | MongoAPL | FileAPL

  datatype AppConfigRepo =
    | MongodbAppConfigRepo(encryptor: E.Encryptor)
    | DynamodbAppConfigRepo

  datatype TransactionRecorderRepo =
    | MongodbTransactionRecorderRepo
    | DynamoDBTransactionRecorderRepo

  /** The `switch (env.APL)` that assigns `apl`. */
  function SelectApl(apl: string): (r: Apl)
    ensures r == DynamoAPL <==> apl == "dynamodb"
    ensures r == MongoAPL <==> apl == "mongodb"
    ensures r == FileAPL <==> apl != "dynamodb" && apl != "mongodb"
  {
    match apl
    case "dynamodb" => DynamoAPL
    case "mongodb" => MongoAPL
    case _ => FileAPL
  }

  /** `createAppConfigRepo()`; the Mongo repository builds `new Encryptor()`,
      keyed by `env.SECRET_KEY`. */
  function CreateAppConfigRepo(c: E.Crypto, apl: string, secretKey: string): (r: AppConfigRepo)
    ensures r.MongodbAppConfigRepo? <==> apl == "mongodb"
    ensures r.MongodbAppConfigRepo? ==> r.encryptor == E.Default(c, secretKey)
  {
    if apl == "mongodb" then MongodbAppConfigRepo(E.Default(c, secretKey)) else DynamodbAppConfigRepo
  }

  /** `createTransactionRecorder()` */
  function CreateTransactionRecorder(apl: string): (r: TransactionRecorderRepo)
    ensures r == MongodbTransactionRecorderRepo <==> apl == "mongodb"
  {
    if apl == "mongodb" then MongodbTransactionRecorderRepo else DynamoDBTransactionRecorderRepo
  }

  function AuthBackend(a: Apl): Backend
  {
    match a
    case DynamoAPL => DynamoDb
    case MongoAPL => MongoDb
    case FileAPL => LocalFile
  }

  function ConfigBackend(r: AppConfigRepo): Backend
  {
    if r.MongodbAppConfigRepo? then MongoDb else DynamoDb
  }

  function RecorderBackend(r: TransactionRecorderRepo): Backend
  {
    if r.MongodbTransactionRecorderRepo? then MongoDb else DynamoDb
  }

  /** Auth data, configuration and transactions live in one backend exactly
      when `APL` names one the three selectors all know: "mongodb" or
      "dynamodb". */
  lemma OneBackendIffMongoOrDynamo(c: E.Crypto, apl: string, secretKey: string)
    ensures var auth := AuthBackend(SelectApl(apl));
      auth == ConfigBackend(CreateAppConfigRepo(c, apl, secretKey)) == RecorderBackend(CreateTransactionRecorder(apl))
      <==> apl == "mongodb" || apl == "dynamodb"
  {
  }

  /** Any other value, "file" included, keeps auth data in a local file but
      still sends configuration and transactions to DynamoDB. */
  lemma OtherValuesSplitStorage(c: E.Crypto, apl: string, secretKey: string)
    requires apl != "mongodb" && apl != "dynamodb"
    ensures AuthBackend(SelectApl(apl)) == LocalFile
    ensures ConfigBackend(CreateAppConfigRepo(c, apl, secretKey)) == DynamoDb
    ensures RecorderBackend(CreateTransactionRecorder(apl)) == DynamoDb
  {
  }

  /** A MongoDB store of any of the three kinds is chosen only by "mongodb",
      and then all three are. */
  lemma MongoIsAllOrNothing(c: E.Crypto, apl: string, secretKey: string)
    ensures AuthBackend(SelectApl(apl)) == MongoDb
        <==> ConfigBackend(CreateAppConfigRepo(c, apl, secretKey)) == MongoDb
    ensures ConfigBackend(CreateAppConfigRepo(c, apl, secretKey)) == MongoDb
        <==> RecorderBackend(CreateTransactionRecorder(apl)) == MongoDb
  {
  }
}
