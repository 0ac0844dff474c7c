/** The SMTP app's APL selection (apps/smtp/src/saleor-app.ts): `APL`
    defaults to "file"; "dynamodb" and "saleor-cloud" check their variables
    first and throw a plain `Error` when they are missing; "mongodb" and
    "upstash" check nothing; anything else is a file APL. */
module SmtpSaleorApp {
  import opened Wrappers

  /** The variables the switch reads from `process.env`. */
  datatype Env = Env(
    apl: EnvVar,
    dynamodbMainTableName: EnvVar,
    awsRegion: EnvVar,
    awsAccessKeyId: EnvVar,
    awsSecretAccessKey: EnvVar,
    restAplEndpoint: EnvVar,
    restAplToken: EnvVar)

  datatype Apl =
    | DynamoAPL
    | MongoAPL
    | UpstashAPL
    | FileAPL
    | SaleorCloudAPL(resourceUrl: string, token: string)

  datatype Error = Error(message: string)

  /** `process.env.APL ?? "file"`: only an unset variable takes the default. */
  function AplType(env: Env): (t: string)
    ensures env.apl.None? ==> t == "file"
    ensures env.apl.Some? ==> t == env.apl.value
  {
    match env.apl
    case None => "file"
    case Some(v) => v
  }

  /** `validateDynamoEnvVariables()`: each of the four is `!== undefined`. */
  predicate DynamoEnvSet(env: Env)
  {
    && env.dynamodbMainTableName.Some?
    && env.awsRegion.Some?
    && env.awsAccessKeyId.Some?
    && env.awsSecretAccessKey.Some?
  }

  /** The `switch (aplType)` that assigns `apl`, or the error it throws. */
  function SelectApl(env: Env): (r: Result<Apl, Error>)
    ensures AplType(env) == "dynamodb" && DynamoEnvSet(env) ==> r == Ok(DynamoAPL)
    ensures AplType(env) == "dynamodb" && !DynamoEnvSet(env) ==> r.Err?
    ensures AplType(env) == "saleor-cloud" && Truthy(env.restAplEndpoint) && Truthy(env.restAplToken) ==>
      r == Ok(SaleorCloudAPL(env.restAplEndpoint.value, env.restAplToken.value))
    ensures AplType(env) == "saleor-cloud" && !(Truthy(env.restAplEndpoint) && Truthy(env.restAplToken)) ==> r.Err?
    ensures AplType(env) == "mongodb" ==> r == Ok(MongoAPL)
    ensures AplType(env) == "upstash" ==> r == Ok(UpstashAPL)
    ensures AplType(env) !in {"dynamodb", "saleor-cloud", "mongodb", "upstash"} ==> r == Ok(FileAPL)
  {
    match AplType(env)
    case "dynamodb" =>
      if !DynamoEnvSet(env) then
        Err(Error("Missing required environment variables for DynamoDB APL configuration."))
      else
        Ok(DynamoAPL)
    case "mongodb" => Ok(MongoAPL)
    case "upstash" => Ok(UpstashAPL)
    case "file" => Ok(FileAPL)
    case "saleor-cloud" =>
      if !Truthy(env.restAplEndpoint) || !Truthy(env.restAplToken) then
        Err(Error("Rest APL is not configured - missing env variables. Check saleor-app.ts"))
      else
        Ok(SaleorCloudAPL(env.restAplEndpoint.value, env.restAplToken.value))
    case _ => Ok(FileAPL)
  }

  /** With `APL` unset the app runs on a file APL and cannot fail. */
  lemma UnsetAplIsFile(env: Env)
    requires env.apl.None?
    ensures SelectApl(env) == Ok(FileAPL)
  {
  }

  /** Only "dynamodb" and "saleor-cloud" can make selection throw. */
  lemma OnlyCheckedKindsFail(env: Env)
    requires SelectApl(env).Err?
    ensures AplType(env) == "dynamodb" || AplType(env) == "saleor-cloud"
  {
  }

  /** The two checks differ on empty strings: empty Dynamo variables pass
      the `!== undefined` test, empty REST variables fail the truthiness
      test. */
  lemma EmptyStringsPassOnlyTheDynamoCheck(env: Env)
    requires env.dynamodbMainTableName == env.awsRegion == env.awsAccessKeyId == env.awsSecretAccessKey == Some("")
    requires env.restAplEndpoint == env.restAplToken == Some("")
    ensures env.apl == Some("dynamodb") ==> SelectApl(env) == Ok(DynamoAPL)
    ensures env.apl == Some("saleor-cloud") ==> SelectApl(env).Err?
  {
  }
}
