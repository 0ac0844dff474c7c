/** The OCR-credits app's APL selection (apps/ocr-credits/src/saleor-app.ts)
    over its validated environment (apps/ocr-credits/src/env.ts): "redis"
    and "saleor-cloud" check their variables and throw
    `MisconfiguredAPLError`; "file" and every value without a case, "mongodb"
    included, give a file APL at `FILE_APL_PATH`. */
module OcrSaleorApp {
  import opened Wrappers

  /** The raw variables, before validation. */
  datatype RawEnv = RawEnv(
    nodeEnv: EnvVar,
    apl: EnvVar,
    fileAplPath: EnvVar,
    redisUrl: EnvVar,
    restAplEndpoint: EnvVar,
    restAplToken: EnvVar)

  /** The validated `env`. `REDIS_URL` is not declared by the schema, so
      `env.REDIS_URL` reads as undefined whatever the process holds; the
      field is kept so that the `"redis"` case can be stated. */
  datatype Env = Env(
    nodeEnv: string,
    apl: string,
    fileAplPath: string,
    redisUrl: EnvVar,
    restAplEndpoint: EnvVar,
    restAplToken: EnvVar)

  /** `APL: z.enum(["file", "mongodb", "saleor-cloud"]).default("file")` */
  function ParseApl(raw: EnvVar): (r: Option<string>)
    ensures r.Some? ==> r.value in {"file", "mongodb", "saleor-cloud"}
    ensures raw.None? ==> r == Some("file")
    ensures raw.Some? && raw.value in {"file", "mongodb", "saleor-cloud"} ==> r == raw
  {
    match raw
    case None => Some("file")
    case Some(v) => if v in {"file", "mongodb", "saleor-cloud"} then Some(v) else None
  }

  /** `NODE_ENV: z.enum(["development", "production", "test"]).default("development")` */
  function ParseNodeEnv(raw: EnvVar): (r: Option<string>)
    ensures r.Some? ==> r.value in {"development", "production", "test"}
    ensures raw.None? ==> r == Some("development")
    ensures raw.Some? && raw.value in {"development", "production", "test"} ==> r == raw
  {
    match raw
    case None => Some("development")
    case Some(v) => if v in {"development", "production", "test"} then Some(v) else None
  }

  /** `createEnv(...)`: fails (throws) on a `NODE_ENV` or an `APL` outside
      its enum; the other declared variables are optional strings. */
  function ParseEnv(raw: RawEnv): (r: Option<Env>)
    ensures r.Some? <==> ParseNodeEnv(raw.nodeEnv).Some? && ParseApl(raw.apl).Some?
    ensures r.Some? ==> r.value.nodeEnv == ParseNodeEnv(raw.nodeEnv).value
    ensures r.Some? ==> r.value.apl == ParseApl(raw.apl).value
    ensures r.Some? ==> r.value.redisUrl.None?
    ensures r.Some? && raw.fileAplPath.None? ==> r.value.fileAplPath == ".auth-data.json"
    ensures r.Some? && raw.fileAplPath.Some? ==> r.value.fileAplPath == raw.fileAplPath.value
  {
    match (ParseNodeEnv(raw.nodeEnv), ParseApl(raw.apl))
    case (Some(nodeEnv), Some(apl)) =>
      var path := match raw.fileAplPath case None => ".auth-data.json" case Some(p) => p;
      Some(Env(nodeEnv, apl, path, None, raw.restAplEndpoint, raw.restAplToken))
    case _ => None
  }

  datatype Apl =
    | RedisAPL(url: string, hashCollectionKey: string)
    | SaleorCloudAPL(resourceUrl: string, token: string)
    | FileAPL(fileName: string)

  datatype MisconfiguredAPLError = MisconfiguredAPLError(message: string)

  /** The `switch (env.APL)` that assigns `apl`, or the error it throws. */
  function SelectApl(env: Env): (r: Result<Apl, MisconfiguredAPLError>)
    ensures env.apl == "redis" && Truthy(env.redisUrl) ==>
      r == Ok(RedisAPL(env.redisUrl.value, "saleor_ocr_credits_auth"))
    ensures env.apl == "redis" && !Truthy(env.redisUrl) ==> r.Err?
    ensures env.apl == "saleor-cloud" && Truthy(env.restAplEndpoint) && Truthy(env.restAplToken) ==>
      r == Ok(SaleorCloudAPL(env.restAplEndpoint.value, env.restAplToken.value))
    ensures env.apl == "saleor-cloud" && !(Truthy(env.restAplEndpoint) && Truthy(env.restAplToken)) ==> r.Err?
    ensures env.apl != "redis" && env.apl != "saleor-cloud" ==> r == Ok(FileAPL(env.fileAplPath))
  {
    match env.apl
    case "redis" =>
      if !Truthy(env.redisUrl) then
        Err(MisconfiguredAPLError("Redis APL is not configured - missing REDIS_URL env variable"))
      else
        Ok(RedisAPL(env.redisUrl.value, "saleor_ocr_credits_auth"))
    case "saleor-cloud" =>
      if !Truthy(env.restAplEndpoint) || !Truthy(env.restAplToken) then
        Err(MisconfiguredAPLError("Saleor Cloud APL is not configured - missing REST_APL_ENDPOINT or REST_APL_TOKEN"))
      else
        Ok(SaleorCloudAPL(env.restAplEndpoint.value, env.restAplToken.value))
    case _ => Ok(FileAPL(env.fileAplPath))
  }

  /** From a validated environment the "redis" case is never taken (the
      enum excludes it, and `REDIS_URL` would read as undefined anyway): the
      app runs on a file APL or on Saleor Cloud, and "mongodb" gets a file
      APL. */
  lemma RedisIsUnreachable(raw: RawEnv)
    requires ParseEnv(raw).Some?
    ensures SelectApl(ParseEnv(raw).value).Ok? ==> !SelectApl(ParseEnv(raw).value).value.RedisAPL?
    ensures raw.apl == Some("mongodb") ==> SelectApl(ParseEnv(raw).value).Ok?
    ensures raw.apl == Some("mongodb") ==> SelectApl(ParseEnv(raw).value).value.FileAPL?
  {
  }

  /** With `APL` and `FILE_APL_PATH` unset (and a `NODE_ENV` the schema
      accepts, unset included), auth data goes to ".auth-data.json". */
  lemma DefaultsToAuthDataFile(raw: RawEnv)
    requires raw.apl.None? && raw.fileAplPath.None?
    requires raw.nodeEnv.None? || raw.nodeEnv.value in {"development", "production", "test"}
    ensures ParseEnv(raw).Some?
    ensures SelectApl(ParseEnv(raw).value) == Ok(FileAPL(".auth-data.json"))
  {
  }

  /** Selection from a validated environment fails only for "saleor-cloud"
      with a variable missing or empty. */
  lemma OnlySaleorCloudFails(raw: RawEnv)
    requires ParseEnv(raw).Some?
    ensures SelectApl(ParseEnv(raw).value).Err?
        <==> raw.apl == Some("saleor-cloud") && !(Truthy(raw.restAplEndpoint) && Truthy(raw.restAplToken))
  {
  }
}
