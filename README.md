# Storage layers of the Saleor apps, modelled in Dafny

This project models how three Saleor apps (Stripe, SMTP and OCR credits) store
and find their data. It covers:

- **MongoDB stores with a lazy connection.** These are the three `MongoAPL`
  copies, which hold each Saleor installation's auth data, and the Stripe app's
  `MongodbAppConfigRepo` and `MongodbTransactionRecorderRepo`. All of them share
  one connection memo (module `MongoLifecycle`). The Stripe and SMTP copies keep
  a failed attempt for good. The OCR-credits copy clears its fields after a
  failure, so the next call can retry.
- **The SMTP app's `RedisAPL`.** It stores JSON strings under `APP_SMTP:<url>`
  and uses a bounded reconnect backoff.
- **The Stripe app's DynamoDB layout.** This covers the partition and sort key
  builders, the three item schemas, and the main table and entities, each
  created on first use.
- **The `Encryptor`.** It stores Stripe secrets as `hex(iv):hex(ciphertext)`.
  Keys of 64 hexadecimal digits are used as they are; any other key is hashed.
- **The OCR-credits SKU table and ORDER_FULLY_PAID handler.** The handler adds
  `pages x quantity` credits for each known SKU and stops at the first refusal
  from the credits service.
- **APL and repository selection.** Each app picks its storage from the `APL`
  environment variable.

Modelling choices:

- Stateful objects are Dafny classes whose fields the methods update.
- Each method's `ensures` ties the new state and the result to a pure function
  of the old state, in modules `MongoLifecycle`, `MongoApl`, `AppConfigStore`
  and `MongoTransactionRecorder`. The store properties are lemmas about those
  functions.
- Whatever the network, a driver call, a Redis command or the credits service
  does is a parameter: `Dial`, `Io`, `Reply` or `addCredits`.
- SHA-256, AES-256-CBC, JSON and the SDK's URL and key validators are
  parameters too. Their assumed behaviour is written down as predicates
  (`Encryptor.Sound`, `SmtpRedisApl.RoundTrips`).

Calls are sequential, so a promise is modelled by the value it settles to.

## Model

Each class is proved against a pure function in its module (`MongoApl`,
`MongoLifecycle`, `AppConfigStore`, `MongoTransactionRecorder`), with
`Valid()` as the invariant its methods keep.

| member | source | states |
|---|---|---|
| Hex.DigitValue | apps/stripe/src/lib/encryptor.ts:40-41 | A hexadecimal digit read by `Buffer.from(_, "hex")` has a value below 16 |
| Hex.DigitValueOfLower | apps/stripe/src/lib/encryptor.ts:32 | Every lower-case digit that `toString("hex")` writes reads back as its own value |
| Hex.Encode | apps/stripe/src/lib/encryptor.ts:32 | Hex output has two characters per byte, every one a hexadecimal digit and never ":" |
| Hex.Decode | apps/stripe/src/lib/encryptor.ts:40-41 | Hex decoding yields at most one byte per two characters |
| Hex.DecodeEncode | apps/stripe/src/lib/encryptor.ts:32-41 | Decoding the hex form of any bytes gives those bytes back |
| Hex.DecodeLength | apps/stripe/src/lib/encryptor.ts:19-20 | A string of hexadecimal digits of even length decodes to half as many bytes, so a 64-digit secret gives a 32-byte key |
| Encryptor.DeriveKey | apps/stripe/src/lib/encryptor.ts:17-25 | A 64-digit hexadecimal secret is decoded and used as the key, and any other secret is hashed; with a sound hash the key is 32 bytes either way |
| Encryptor.New | apps/stripe/src/lib/encryptor.ts:12-15 | The constructor keeps the key derived from the secret |
| Encryptor.Default | apps/stripe/src/lib/encryptor.ts:12 | `new Encryptor()` uses `SECRET_KEY` as the secret |
| Encryptor.IndexOf | apps/stripe/src/lib/encryptor.ts:36 | The first ":" of a text is found, or there is none |
| Encryptor.FirstField | apps/stripe/src/lib/encryptor.ts:36 | `split(":")[0]` is a ":"-free prefix of the text, and is the whole text when it has no ":" |
| Encryptor.SecondField | apps/stripe/src/lib/encryptor.ts:36 | `split(":")[1]` is undefined exactly when the text has no ":", and never contains ":" |
| Encryptor.Encrypt | apps/stripe/src/lib/encryptor.ts:27-33 | The first ":"-field of the output is the hex IV and the second is the hex ciphertext |
| Encryptor.Decrypt | apps/stripe/src/lib/encryptor.ts:35-46 | "Invalid input" exactly when the first or second ":"-field is absent or empty, so also for text with no ":" or a leading ":". Otherwise the result is the cipher's outcome on the hex-decoded IV and ciphertext: a plaintext exactly when the cipher yields one |
| Encryptor.FieldsOfJoin | apps/stripe/src/lib/encryptor.ts:32-36 | Splitting `a + ":" + b` gives back `a` and the first field of `b` |
| Encryptor.EncryptFraming | apps/stripe/src/lib/encryptor.ts:27-33 | Encrypted output is 32 hex digits of IV, one ":", then the hex ciphertext, with exactly one ":" in all |
| Encryptor.DecryptIgnoresTrailingFields | apps/stripe/src/lib/encryptor.ts:36 | Decryption reads only the first two ":"-separated fields |
| Encryptor.DecryptEncrypt | apps/stripe/src/lib/encryptor.ts:27-46 | Under sound primitives, a 32-byte key and a 16-byte IV, decrypting an encrypted text gives the text back |
| Encryptor.NewEncryptorRoundTrip | apps/stripe/src/lib/encryptor.ts:12-46 | Every encryptor built from any secret decrypts whatever it encrypts |
| SkuMapping.GetPagesForSku | apps/ocr-credits/src/modules/configuration/sku-mapping.ts:20-24 | A missing, empty or unlisted SKU is worth 0 pages; a listed SKU is worth its table value |
| SkuMapping.IsOcrCreditsSku | apps/ocr-credits/src/modules/configuration/sku-mapping.ts:29-33 | A missing or empty SKU is not an OCR credits SKU |
| SkuMapping.TableValuesArePositiveMultiplesOf500 | apps/ocr-credits/src/modules/configuration/sku-mapping.ts:7-14 | Every page count in `SKU_TO_PAGES` is a positive multiple of 500 |
| SkuMapping.IsOcrCreditsSkuIffListed | apps/ocr-credits/src/modules/configuration/sku-mapping.ts:29-33 | `isOcrCreditsSku` holds exactly for the keys of the table |
| SkuMapping.PagesPositiveIffOcrCreditsSku | apps/ocr-credits/src/modules/configuration/sku-mapping.ts:20-33 | A SKU yields a positive page count exactly when it is an OCR credits SKU |
| OrderFullyPaid.LineRequest | apps/ocr-credits/src/pages/api/webhooks/order-fully-paid.ts:74-89 | A credited line's request goes to the customer's e-mail, for the order's id and source "saleor-ocr-credits", asking for table pages times quantity |
| OrderFullyPaid.CreditRequests | apps/ocr-credits/src/pages/api/webhooks/order-fully-paid.ts:59-89 | At most one request per line, every one for the same account, order and source |
| OrderFullyPaid.FirstFailure | apps/ocr-credits/src/pages/api/webhooks/order-fully-paid.ts:91-99 | The index of the first refused call: every earlier call succeeded and this one failed |
| OrderFullyPaid.TotalPages | apps/ocr-credits/src/pages/api/webhooks/order-fully-paid.ts:109 | The running `totalCreditsAdded`: the pages of the requests made, summed in order; `TotalPagesAppend` is its partner |
| OrderFullyPaid.PagesOfLines | apps/ocr-credits/src/pages/api/webhooks/order-fully-paid.ts:57-110 | The pages of every line by the SKU table times quantity, summed; `CreditedTotalIsSumOverAllLines` ties it to the loop's total |
| OrderFullyPaid.TotalPagesAppend | apps/ocr-credits/src/pages/api/webhooks/order-fully-paid.ts:109 | The running total adds up over concatenated requests |
| OrderFullyPaid.CreditedTotalIsSumOverAllLines | apps/ocr-credits/src/pages/api/webhooks/order-fully-paid.ts:57-110 | The credited total equals the sum of `getPagesForSku(sku) x quantity` over all lines, since skipped lines are worth 0 |
| OrderFullyPaid.RequestsOfPrefix | apps/ocr-credits/src/pages/api/webhooks/order-fully-paid.ts:59-110 | The requests for a prefix of the lines are a prefix of all requests |
| OrderFullyPaid.RequestsStep | apps/ocr-credits/src/pages/api/webhooks/order-fully-paid.ts:59-89 | Processing one more line appends its request, if it has one |
| OrderFullyPaid.RefusalEndsRun | apps/ocr-credits/src/pages/api/webhooks/order-fully-paid.ts:59-99 | When the latest call is the first one refused, the calls made so far are exactly the requests up to and including it |
| OrderFullyPaid.ProvisionCredits | apps/ocr-credits/src/pages/api/webhooks/order-fully-paid.ts:57-110 | The loop over the lines makes calls in line order up to and including the first refusal and reports it. With no refusal it makes every request and returns the total over all lines |
| OrderFullyPaid.HandleOrderFullyPaid | apps/ocr-credits/src/pages/api/webhooks/order-fully-paid.ts:28-121 | 400 with no calls when the order or the e-mail is missing. Otherwise the requests are sent in line order up to and including the first refusal, which gives 500. If none is refused the result is 200 with the total over all lines and the e-mail |
| MongoLifecycle.AttemptFailure | apps/stripe/src/modules/apl/mongodb-apl.ts:33-52 | A missing `MONGODB_URL` always fails. An attempt succeeds exactly when the URL is set and the server is reachable and accepts the index. It fails before the first `await` exactly when the URL is missing or unparsable |
| MongoLifecycle.AfterAttempt | apps/ocr-credits/src/mongodb-apl.ts:28-66 | After an attempt the memo is fulfilled exactly when it succeeded, and a fulfilled memo comes with a client and live handles. The keep-failure copies memoize the settled outcome. The reset copy memoizes a failure exactly when it was thrown before the first `await` (missing or unparsable URL), with no client; any other failure leaves the fresh state |
| MongoLifecycle.Ensure | apps/stripe/src/modules/apl/mongodb-apl.ts:54-62 | The first call, from an unset memo, starts an attempt and leaves its settled state: it succeeds exactly when the URL is set and the server is reachable, and otherwise throws the attempt's own failure. An existing memo leaves the state alone; a memoized failure rethrows its cause; a fulfilled memo succeeds exactly while the handles exist. Success implies a fulfilled memo and live handles; well-formed state is preserved |
| MongoLifecycle.Close | apps/stripe/src/modules/apl/mongodb-apl.ts:197-204 | `close()` drops the client and handles but keeps the memo |
| MongoLifecycle.Run | apps/stripe/src/modules/apl/mongodb-apl.ts:54-62 | A run of calls yields one outcome per call |
| MongoLifecycle.ConnectAtMostOnce | apps/stripe/src/modules/apl/mongodb-apl.ts:54-62 | In the Stripe and SMTP copies, `connect` starts at most once per instance, over any sequence of calls |
| MongoLifecycle.FailureIsPermanent | apps/stripe/src/modules/apl/mongodb-apl.ts:54-62 | In every copy, once a failed attempt is memoized, every later operation fails with that same cause and the memo never changes |
| MongoLifecycle.ClosedStoreNeverReconnects | apps/stripe/src/modules/apl/mongodb-apl.ts:197-204 | In the copies that have `close()` (Stripe and SMTP APLs, the Stripe app's two repositories), after closing an established store every later operation fails with "connection not established" and no attempt starts |
| MongoLifecycle.CloseAfterConnect | apps/stripe/src/modules/apl/mongodb-apl.ts:197-204 | In the same copies, `close()` after a successful connect leads to that closed state |
| MongoLifecycle.ResetCopyRetriesAfterLateFailure | apps/ocr-credits/src/mongodb-apl.ts:47-64 | In the OCR-credits copy, a failure after the first `await` (connect or index creation) resets every field, and the next call reconnects and can succeed |
| MongoLifecycle.ResetCopyKeepsEarlyFailure | apps/ocr-credits/src/mongodb-apl.ts:28-77 | In the OCR-credits copy, a missing URL or one `new MongoClient` rejects is thrown before the first `await`. The reset runs before the rejected promise is stored, so the failure stays memoized with no client and every later operation fails with it |
| MongoLifecycle.MissingUrlFailsEveryCall | apps/stripe/src/modules/apl/mongodb-apl.ts:35-37 | Without `MONGODB_URL`, every operation of every copy fails with the missing-URL error |
| MongoCollection.ReplaceOneUpsert | apps/stripe/src/modules/apl/mongodb-apl.ts:104-106 | The upsert sets the body under the key, keeps an existing `_id` or takes a fresh one, and leaves every other document alone |
| MongoCollection.FindOne | apps/stripe/src/modules/apl/mongodb-apl.ts:75-88 | `findOne` finds a document exactly when its key is stored, and returns its body without `_id` |
| MongoCollection.DeleteOne | apps/stripe/src/modules/apl/mongodb-apl.ts:129-131 | `deleteOne` removes that key only |
| MongoCollection.FindAfterUpsert | apps/stripe/src/modules/apl/mongodb-apl.ts:75-106 | Upsert then find of the same key returns the body; other keys are unaffected |
| MongoCollection.UpsertTwiceKeepsOne | apps/stripe/src/modules/apl/mongodb-apl.ts:104-106 | Two upserts of one key leave one document, with the latest body and the first `_id` |
| MongoCollection.ToArray | apps/stripe/src/modules/apl/mongodb-apl.ts:148-153 | `find({}).toArray()` without `_id` returns one body per stored document, and every stored body |
| MongoCollection.Find | apps/stripe/src/modules/app-config/repositories/mongodb/mongodb-app-config-repo.ts:225-234 | A filtered `find` lists each matching document exactly once |
| MongoApl.Initial | apps/stripe/src/modules/apl/mongodb-apl.ts:28-31 | A new instance holds no memo and is well formed |
| MongoApl.Get | apps/stripe/src/modules/apl/mongodb-apl.ts:64-97 | `get` changes no record and succeeds exactly when the connection step lets it through. It then finds a record exactly when the URL is stored, and returns that record's body |
| MongoApl.Set | apps/stripe/src/modules/apl/mongodb-apl.ts:99-116 | `set` succeeds exactly when the connection step lets it through. It then stores the record under its URL and leaves every other URL's document as it was; on failure no record changes |
| MongoApl.Delete | apps/stripe/src/modules/apl/mongodb-apl.ts:118-141 | `delete` succeeds exactly when the connection step lets it through. It then removes that URL only and keeps every other document; on failure no record changes |
| MongoApl.GetAll | apps/stripe/src/modules/apl/mongodb-apl.ts:143-161 | `getAll` changes no record and succeeds exactly when the connection step lets it through. It then returns every stored body, and only stored bodies, as a set (the cursor's order is not modelled) |
| MongoApl.IsReady | apps/stripe/src/modules/apl/mongodb-apl.ts:163-178 | `isReady` changes no record and is ready exactly when the connection is established and the ping completes |
| MongoApl.IsConfigured | apps/stripe/src/modules/apl/mongodb-apl.ts:180-195 | `isConfigured` is configured exactly when `MONGODB_URL` is a non-empty string |
| MongoApl.Gate | apps/stripe/src/modules/apl/mongodb-apl.ts:64-161 | An operation's connection step is `ensureConnection`. It leaves the records alone and lets the call through exactly when the connection is established and the driver call completes |
| MongoApl.IsConfiguredIffConnectNeedsNoUrl | apps/stripe/src/modules/apl/mongodb-apl.ts:180-195 | `isConfigured` reports configured exactly when `connect` would get past its URL check |
| MongoApl.FailuresAreWrappedAndChangeNothing | apps/stripe/src/modules/apl/mongodb-apl.ts:64-161 | get, set, delete and getAll succeed exactly when connection and driver call both succeed. A failure carries its cause and changes no record |
| MongoApl.SetUpsertsOneRecord | apps/stripe/src/modules/apl/mongodb-apl.ts:99-116 | `set` on a live connection stores one record per URL and leaves other URLs alone |
| MongoApl.EstablishedStaysEstablished | apps/stripe/src/modules/apl/mongodb-apl.ts:54-62 | Once established, the connection lets every later call through unchanged |
| MongoApl.GetAfterSet | apps/stripe/src/modules/apl/mongodb-apl.ts:64-116 | `set` then `get` returns the record without `_id`; other URLs read as before |
| MongoApl.GetAfterDelete | apps/stripe/src/modules/apl/mongodb-apl.ts:64-141 | `delete` then `get` returns undefined |
| MongoApl.DeleteAbsentSucceeds | apps/stripe/src/modules/apl/mongodb-apl.ts:118-141 | Deleting an absent URL succeeds and changes nothing |
| MongoApl.GetAllAfterSet | apps/stripe/src/modules/apl/mongodb-apl.ts:99-161 | `getAll` after `set` contains the record written |
| MongoApl.ReadyAfterSet | apps/stripe/src/modules/apl/mongodb-apl.ts:163-178 | Once a `set` has succeeded, `isReady` reports ready exactly when the ping completes, whatever a new connection attempt would do |
| StripeMongoApl.WrapErr | apps/stripe/src/modules/apl/mongodb-apl.ts:89-95 | A catch block passes success through and wraps every error in its own error class |
| StripeMongoApl.MongoAPL.constructor | apps/stripe/src/modules/apl/mongodb-apl.ts:28-31 | A new instance starts unconnected over the stored records |
| StripeMongoApl.MongoAPL.Connect | apps/stripe/src/modules/apl/mongodb-apl.ts:33-52 | `connect` leaves the fields the lifecycle's keep-failure attempt prescribes |
| StripeMongoApl.MongoAPL.EnsureConnection | apps/stripe/src/modules/apl/mongodb-apl.ts:54-62 | The method's new state and result are `Ensure` under keep-failure |
| StripeMongoApl.MongoAPL.Get | apps/stripe/src/modules/apl/mongodb-apl.ts:64-97 | An invalid URL gives `ValueError` with nothing changed. Otherwise the result is `MongoApl.Get`, wrapped in `GetAuthDataError` |
| StripeMongoApl.MongoAPL.Set | apps/stripe/src/modules/apl/mongodb-apl.ts:99-116 | The new state and result are `MongoApl.Set`, errors wrapped in `SetAuthDataError` |
| StripeMongoApl.MongoAPL.Delete | apps/stripe/src/modules/apl/mongodb-apl.ts:118-141 | An invalid URL gives `ValueError` with nothing changed. Otherwise the result is `MongoApl.Delete`, wrapped in `DeleteAuthDataError` |
| StripeMongoApl.MongoAPL.GetAll | apps/stripe/src/modules/apl/mongodb-apl.ts:143-161 | The result is `MongoApl.GetAll`, wrapped in `GetAllAuthDataError`; on success it returns exactly the stored bodies |
| StripeMongoApl.MongoAPL.IsReady | apps/stripe/src/modules/apl/mongodb-apl.ts:163-178 | The new state and result are `MongoApl.IsReady` |
| StripeMongoApl.MongoAPL.IsConfigured | apps/stripe/src/modules/apl/mongodb-apl.ts:180-195 | Configured exactly when `MONGODB_URL` is a non-empty string |
| StripeMongoApl.MongoAPL.Close | apps/stripe/src/modules/apl/mongodb-apl.ts:197-204 | The connection becomes `MongoLifecycle.Close` of the old one |
| OcrMongoApl.WrapErr | apps/ocr-credits/src/mongodb-apl.ts:79-136 | Success passes through; every error is wrapped in the operation's error class |
| OcrMongoApl.MongoAPL.constructor | apps/ocr-credits/src/mongodb-apl.ts:24-26 | A new instance starts unconnected over the stored records |
| OcrMongoApl.MongoAPL.ResetConnection | apps/ocr-credits/src/mongodb-apl.ts:47-64 | The catch block of `connect` clears client, db, collection and the memo |
| OcrMongoApl.MongoAPL.EnsureConnection | apps/ocr-credits/src/mongodb-apl.ts:68-77 | The new state and result are `Ensure` under reset-on-failure |
| OcrMongoApl.MongoAPL.Get | apps/ocr-credits/src/mongodb-apl.ts:79-94 | The new state and result are `MongoApl.Get`, errors wrapped |
| OcrMongoApl.MongoAPL.Set | apps/ocr-credits/src/mongodb-apl.ts:96-116 | The new state and result are `MongoApl.Set`, errors wrapped |
| OcrMongoApl.MongoAPL.Delete | apps/ocr-credits/src/mongodb-apl.ts:118-125 | The new state and result are `MongoApl.Delete`, errors wrapped |
| OcrMongoApl.MongoAPL.GetAll | apps/ocr-credits/src/mongodb-apl.ts:127-136 | The result is `MongoApl.GetAll`, errors wrapped; on success it returns exactly the stored bodies |
| OcrMongoApl.MongoAPL.IsReady | apps/ocr-credits/src/mongodb-apl.ts:138-150 | The new state and result are `MongoApl.IsReady` |
| OcrMongoApl.MongoAPL.IsConfigured | apps/ocr-credits/src/mongodb-apl.ts:152-158 | Configured exactly when `MONGODB_URL` is a non-empty string |
| SmtpMongoApl.ConnectMessage | apps/smtp/src/modules/apl/mongodb-apl.ts:37-39 | Every connect failure is rethrown as "Failed to connect to MongoDB: ..." |
| SmtpMongoApl.Wrapped | apps/smtp/src/modules/apl/mongodb-apl.ts:68-70 | A caught error's message starts with its operation's prefix |
| SmtpMongoApl.WrapErr | apps/smtp/src/modules/apl/mongodb-apl.ts:52-108 | Success passes through; every error becomes a plain `Error` with the operation's message |
| SmtpMongoApl.MessagesNameTheOperation | apps/smtp/src/modules/apl/mongodb-apl.ts:69-106 | Errors of different operations never share a message |
| SmtpMongoApl.MongoAPL.constructor | apps/smtp/src/modules/apl/mongodb-apl.ts:16-19 | A new instance starts unconnected over the stored records |
| SmtpMongoApl.MongoAPL.Connect | apps/smtp/src/modules/apl/mongodb-apl.ts:21-40 | `connect` leaves the fields the keep-failure attempt prescribes |
| SmtpMongoApl.MongoAPL.EnsureConnection | apps/smtp/src/modules/apl/mongodb-apl.ts:42-50 | The new state and result are `Ensure` under keep-failure |
| SmtpMongoApl.MongoAPL.Get | apps/smtp/src/modules/apl/mongodb-apl.ts:52-71 | The new state and result are `MongoApl.Get`, errors wrapped as "Failed to get APL entry: ..." |
| SmtpMongoApl.MongoAPL.Set | apps/smtp/src/modules/apl/mongodb-apl.ts:73-83 | The new state and result are `MongoApl.Set`, errors wrapped as "Failed to set APL entry: ..." |
| SmtpMongoApl.MongoAPL.Delete | apps/smtp/src/modules/apl/mongodb-apl.ts:85-95 | The new state and result are `MongoApl.Delete`, errors wrapped as "Failed to delete APL entry: ..." |
| SmtpMongoApl.MongoAPL.GetAll | apps/smtp/src/modules/apl/mongodb-apl.ts:97-108 | The result is `MongoApl.GetAll`, errors wrapped; on success it returns exactly the stored bodies |
| SmtpMongoApl.MongoAPL.IsReady | apps/smtp/src/modules/apl/mongodb-apl.ts:110-125 | The new state and result are `MongoApl.IsReady` |
| SmtpMongoApl.MongoAPL.IsConfigured | apps/smtp/src/modules/apl/mongodb-apl.ts:127-142 | Configured exactly when `MONGODB_URL` is a non-empty string |
| SmtpMongoApl.MongoAPL.Close | apps/smtp/src/modules/apl/mongodb-apl.ts:144-151 | The connection becomes `MongoLifecycle.Close` of the old one |
| AppConfigStore.Encode | apps/stripe/src/modules/app-config/repositories/mongodb/mongodb-app-config-repo.ts:109-118 | The saved document encrypts the restricted key and the webhook secret and keeps the other fields verbatim |
| AppConfigStore.ReadRow | apps/stripe/src/modules/app-config/repositories/mongodb/mongodb-app-config-repo.ts:183-203 | A parsed config carries the document's fields and passes every validator. An undecryptable restricted key throws |
| AppConfigStore.ReadEncoded | apps/stripe/src/modules/app-config/repositories/mongodb/mongodb-app-config-repo.ts:109-203 | A saved acceptable config reads back as itself |
| AppConfigStore.MappedConfigId | apps/stripe/src/modules/app-config/repositories/mongodb/mongodb-app-config-repo.ts:154-171 | A channel has a config id exactly when its mapping exists and holds a non-empty id |
| AppConfigStore.Lookup | apps/stripe/src/modules/app-config/repositories/mongodb/mongodb-app-config-repo.ts:142-216 | A broken mapping read on a channel lookup is a driver error. An empty requested id gives null. Otherwise: a broken config read is a driver error; no document under the installation's key for the requested id gives null; a document gives the config it reads as, "Failed to parse" when `StripeConfig.create` rejects it, and the read failure when decryption or a key validator throws. A config found is always that parsed row, and null means the id is empty or no such document exists |
| AppConfigStore.ChannelLookupNull | apps/stripe/src/modules/app-config/repositories/mongodb/mongodb-app-config-repo.ts:154-181 | A channel lookup finds nothing, without error, when no id is mapped or the mapped config is gone |
| AppConfigStore.ChannelLookupFollowsMapping | apps/stripe/src/modules/app-config/repositories/mongodb/mongodb-app-config-repo.ts:154-181 | Looking up a mapped channel is looking up its config id |
| AppConfigStore.ChannelMapOf | apps/stripe/src/modules/app-config/repositories/mongodb/mongodb-app-config-repo.ts:237-246 | The root config's channel map holds exactly the installation's channels with a mapped id, each with that id |
| AppConfigStore.ConfigMapOf | apps/stripe/src/modules/app-config/repositories/mongodb/mongodb-app-config-repo.ts:249-271 | The root config's config map holds exactly the installation's configs that parse, each as parsed |
| AppConfigStore.RootConfigOf | apps/stripe/src/modules/app-config/repositories/mongodb/mongodb-app-config-repo.ts:218-285 | `getRootConfig` returns a root config exactly when no stored config throws |
| AppConfigStore.NoThrow | apps/stripe/src/modules/app-config/repositories/mongodb/mongodb-app-config-repo.ts:249-271 | No config of the installation makes the reduce throw; `ConfigFoldThrowsIffSomeRowThrows` ties it to the fold |
| AppConfigStore.ChannelFold | apps/stripe/src/modules/app-config/repositories/mongodb/mongodb-app-config-repo.ts:237-246 | The `mappings.reduce` of `getRootConfig`; its contents are stated by `ChannelFoldContents` and `ChannelFoldIsChannelMap` |
| AppConfigStore.ConfigFold | apps/stripe/src/modules/app-config/repositories/mongodb/mongodb-app-config-repo.ts:249-271 | The `configs.reduce` of `getRootConfig`; its contents are stated by `ConfigFoldContents`, `ConfigFoldThrowsIffSomeRowThrows` and `ConfigFoldIsConfigMap` |
| AppConfigStore.ChannelFoldContents | apps/stripe/src/modules/app-config/repositories/mongodb/mongodb-app-config-repo.ts:237-246 | Over distinct mappings of one installation, the reduce keeps the id of every listed mapping that has one |
| AppConfigStore.ConfigFoldContents | apps/stripe/src/modules/app-config/repositories/mongodb/mongodb-app-config-repo.ts:249-271 | Over distinct configs, the reduce fails exactly when one throws, with that one's failure; otherwise it keeps every config that parses |
| AppConfigStore.ChannelFoldIsChannelMap | apps/stripe/src/modules/app-config/repositories/mongodb/mongodb-app-config-repo.ts:225-246 | The channel reduce over the installation's mappings builds `ChannelMapOf` |
| AppConfigStore.ConfigFoldThrowsIffSomeRowThrows | apps/stripe/src/modules/app-config/repositories/mongodb/mongodb-app-config-repo.ts:225-271 | The config reduce fails exactly when some config of the installation throws, and then with that config's failure |
| AppConfigStore.ConfigFoldIsConfigMap | apps/stripe/src/modules/app-config/repositories/mongodb/mongodb-app-config-repo.ts:225-271 | A config reduce that does not fail builds `ConfigMapOf`, whatever the order of the keys |
| AppConfigStore.RootConfigAgreesWithLookup | apps/stripe/src/modules/app-config/repositories/mongodb/mongodb-app-config-repo.ts:142-285 | A channel that the root config maps to one of its configs looks up that config through `getStripeConfig` |
| AppConfigStore.SaveConfig | apps/stripe/src/modules/app-config/repositories/mongodb/mongodb-app-config-repo.ts:120-124 | The upsert stores the encoded config under (url, appId, configId) and leaves every other config alone |
| AppConfigStore.RemoveConfig | apps/stripe/src/modules/app-config/repositories/mongodb/mongodb-app-config-repo.ts:287-310 | `removeConfig` deletes that config only |
| AppConfigStore.UpdateMapping | apps/stripe/src/modules/app-config/repositories/mongodb/mongodb-app-config-repo.ts:312-352 | The upsert stores the channel's config id, an empty one as none, and leaves every other mapping alone |
| AppConfigStore.GetAfterSave | apps/stripe/src/modules/app-config/repositories/mongodb/mongodb-app-config-repo.ts:97-216 | Save then get by config id returns the saved config |
| AppConfigStore.EmptyConfigIdIsNeverFound | apps/stripe/src/modules/app-config/repositories/mongodb/mongodb-app-config-repo.ts:169-171 | A lookup by an empty config id returns null without touching the driver |
| AppConfigStore.ChannelGetAfterMapAndSave | apps/stripe/src/modules/app-config/repositories/mongodb/mongodb-app-config-repo.ts:97-352 | Saving a config and mapping a channel to it makes the channel lookup return it |
| AppConfigStore.ChannelGetAfterRemoveIsNull | apps/stripe/src/modules/app-config/repositories/mongodb/mongodb-app-config-repo.ts:287-310 | Removing a mapped config leaves the mapping behind, and that channel's lookup returns null |
| AppConfigStore.ClearedMappingIsNull | apps/stripe/src/modules/app-config/repositories/mongodb/mongodb-app-config-repo.ts:312-352 | Clearing a mapping makes the channel lookup null and drops the channel from the root channel map |
| AppConfigStore.SaveIsScopedToInstallation | apps/stripe/src/modules/app-config/repositories/mongodb/mongodb-app-config-repo.ts:97-140 | Saving for one (saleorApiUrl, appId) leaves every lookup of another installation as it was |
| MongoConfigRepo.MongodbAppConfigRepo.constructor | apps/stripe/src/modules/app-config/repositories/mongodb/mongodb-app-config-repo.ts:52-55 | A new repository starts unconnected with the given encryptor and collections |
| MongoConfigRepo.MongodbAppConfigRepo.Connect | apps/stripe/src/modules/app-config/repositories/mongodb/mongodb-app-config-repo.ts:57-85 | `connect` leaves the fields the keep-failure attempt prescribes |
| MongoConfigRepo.MongodbAppConfigRepo.EnsureConnection | apps/stripe/src/modules/app-config/repositories/mongodb/mongodb-app-config-repo.ts:87-95 | The new state and result are `Ensure` under keep-failure |
| MongoConfigRepo.MongodbAppConfigRepo.SaveStripeConfig | apps/stripe/src/modules/app-config/repositories/mongodb/mongodb-app-config-repo.ts:97-140 | On success the configs become `SaveConfig` of the old ones. On failure nothing changes and the error is the repository's wrapped error |
| MongoConfigRepo.MongodbAppConfigRepo.GetStripeConfig | apps/stripe/src/modules/app-config/repositories/mongodb/mongodb-app-config-repo.ts:142-216 | Once connected, the result is `Lookup`, with failures wrapped; nothing is written |
| MongoConfigRepo.MongodbAppConfigRepo.GetRootConfig | apps/stripe/src/modules/app-config/repositories/mongodb/mongodb-app-config-repo.ts:218-285 | Once connected, the result is `RootConfigOf`, and it fails exactly when some config throws; nothing is written |
| MongoConfigRepo.MongodbAppConfigRepo.RemoveConfig | apps/stripe/src/modules/app-config/repositories/mongodb/mongodb-app-config-repo.ts:287-310 | On success the configs become `RemoveConfig` of the old ones, and the mappings stay; on failure nothing changes |
| MongoConfigRepo.MongodbAppConfigRepo.UpdateMapping | apps/stripe/src/modules/app-config/repositories/mongodb/mongodb-app-config-repo.ts:312-352 | On success the mappings become `UpdateMapping` of the old ones; on failure nothing changes |
| MongoConfigRepo.MongodbAppConfigRepo.Close | apps/stripe/src/modules/app-config/repositories/mongodb/mongodb-app-config-repo.ts:354-362 | The connection becomes `MongoLifecycle.Close` of the old one |
| MongoTransactionRecorder.Record | apps/stripe/src/modules/transactions-recording/repositories/mongodb/mongodb-transaction-recorder-repo.ts:90-108 | The upsert keyed by (url, appId, payment intent id) adds that key and leaves every other transaction alone |
| MongoTransactionRecorder.Fetch | apps/stripe/src/modules/transactions-recording/repositories/mongodb/mongodb-transaction-recorder-repo.ts:137-164 | A transaction is missing exactly when its key is not stored; a found one carries the requested payment intent id |
| MongoTransactionRecorder.FetchAfterRecord | apps/stripe/src/modules/transactions-recording/repositories/mongodb/mongodb-transaction-recorder-repo.ts:83-164 | Record then get of the same key returns the recorded transaction |
| MongoTransactionRecorder.RecordTwiceKeepsLatest | apps/stripe/src/modules/transactions-recording/repositories/mongodb/mongodb-transaction-recorder-repo.ts:100-108 | Recording one payment intent twice keeps one document, which reads back as the latest transaction |
| MongoTransactionRecorder.RecordIsScoped | apps/stripe/src/modules/transactions-recording/repositories/mongodb/mongodb-transaction-recorder-repo.ts:100-141 | Recording changes no lookup of another key |
| MongoTransactionRecorder.MongodbTransactionRecorderRepo.constructor | apps/stripe/src/modules/transactions-recording/repositories/mongodb/mongodb-transaction-recorder-repo.ts:42-44 | A new repository starts unconnected over the stored transactions |
| MongoTransactionRecorder.MongodbTransactionRecorderRepo.Connect | apps/stripe/src/modules/transactions-recording/repositories/mongodb/mongodb-transaction-recorder-repo.ts:46-69 | `connect` leaves the fields the keep-failure attempt prescribes |
| MongoTransactionRecorder.MongodbTransactionRecorderRepo.EnsureConnection | apps/stripe/src/modules/transactions-recording/repositories/mongodb/mongodb-transaction-recorder-repo.ts:71-81 | The new state and result are `Ensure` under keep-failure |
| MongoTransactionRecorder.MongodbTransactionRecorderRepo.RecordTransaction | apps/stripe/src/modules/transactions-recording/repositories/mongodb/mongodb-transaction-recorder-repo.ts:83-128 | Every error is `FailedWritingTransactionError` and leaves the transactions unchanged; success stores `Record` of the old ones |
| MongoTransactionRecorder.MongodbTransactionRecorderRepo.GetTransactionByStripePaymentIntentId | apps/stripe/src/modules/transactions-recording/repositories/mongodb/mongodb-transaction-recorder-repo.ts:130-177 | A connection or driver failure gives `FailedFetchingTransactionError`; a completed read gives `Fetch`; nothing is written |
| MongoTransactionRecorder.MongodbTransactionRecorderRepo.Close | apps/stripe/src/modules/transactions-recording/repositories/mongodb/mongodb-transaction-recorder-repo.ts:179-186 | The connection becomes `MongoLifecycle.Close` of the old one |
| SmtpRedisApl.ReconnectStrategy | apps/smtp/src/apl.ts:17-23 | The client gives up exactly after more than ten retries. Otherwise it waits `retries x 100` ms, which never reaches the 3000 cap |
| SmtpRedisApl.Key | apps/smtp/src/apl.ts:42-44 | The key is "APP_SMTP:" followed by the URL |
| SmtpRedisApl.KeyInjective | apps/smtp/src/apl.ts:42-44 | Different URLs never share a key |
| SmtpRedisApl.Lookup | apps/smtp/src/apl.ts:46-59 | An absent or empty value reads as undefined; the only read error is unparsable JSON |
| SmtpRedisApl.Put | apps/smtp/src/apl.ts:61-72 | `SET` writes the URL's key and leaves every other key alone |
| SmtpRedisApl.Remove | apps/smtp/src/apl.ts:74-82 | `DEL` removes the URL's key only |
| SmtpRedisApl.GetAfterSet | apps/smtp/src/apl.ts:46-72 | With a JSON codec that round-trips, `set` then `get` returns the record |
| SmtpRedisApl.GetAfterDelete | apps/smtp/src/apl.ts:46-82 | `delete` then `get` returns undefined |
| SmtpRedisApl.OtherUrlsUnaffected | apps/smtp/src/apl.ts:46-82 | `set` and `delete` of one URL change no other URL's `get` |
| SmtpRedisApl.RedisAPL.constructor | apps/smtp/src/apl.ts:13-30 | The instance keeps the URL, the outcome of its one connection attempt, and the key space |
| SmtpRedisApl.RedisAPL.Get | apps/smtp/src/apl.ts:46-59 | A failed connection or command is rethrown; otherwise the result is `Lookup` |
| SmtpRedisApl.RedisAPL.Set | apps/smtp/src/apl.ts:61-72 | A failed connection or command is rethrown and nothing changes; success stores `Put` |
| SmtpRedisApl.RedisAPL.Delete | apps/smtp/src/apl.ts:74-82 | A failed connection or command is rethrown and nothing changes; success stores `Remove` |
| SmtpRedisApl.RedisAPL.GetAll | apps/smtp/src/apl.ts:84-86 | Always throws "Not implemented." |
| SmtpRedisApl.RedisAPL.IsReady | apps/smtp/src/apl.ts:88-96 | Ready exactly when the connection and the `PING` both complete; a failed connection reports the connection error, otherwise a failed `PING` reports the command error |
| SmtpRedisApl.RedisAPL.IsConfigured | apps/smtp/src/apl.ts:98-104 | Always configured |
| DynamoMainTable.PrimaryKeyScopedToInstallation | apps/stripe/src/modules/dynamodb/dynamo-main-table.ts:43-51 | The installation key is the tenant key, "#", then the app id |
| DynamoMainTable.PrimaryKeyScopedToSaleorApiUrl | apps/stripe/src/modules/dynamodb/dynamo-main-table.ts:57-63 | The tenant key is the Saleor API URL character for character |
| DynamoMainTable.InstallationKeyExtendsTenantKey | apps/stripe/src/modules/dynamodb/dynamo-main-table.ts:43-63 | The installation key extends the tenant key by "#" and the app id |
| DynamoMainTable.InstallationKeyInjectiveInAppId | apps/stripe/src/modules/dynamodb/dynamo-main-table.ts:43-51 | For one URL, different app ids give different keys |
| DynamoMainTable.FirstHashEndsUrl | apps/stripe/src/modules/dynamodb/dynamo-main-table.ts:43-51 | For a URL without "#", the first "#" of the key comes right after the URL |
| DynamoMainTable.InstallationKeyInjective | apps/stripe/src/modules/dynamodb/dynamo-main-table.ts:43-51 | For URLs without "#", the key determines both the URL and the app id |
| DynamoMainTable.HashInUrlCollides | apps/stripe/src/modules/dynamodb/dynamo-main-table.ts:43-51 | A "#" inside a URL lets two different installations share a key |
| DynamoMainTable.TableModule.constructor | apps/stripe/src/modules/dynamodb/dynamo-main-table.ts:66-92 | Loading the module creates no table |
| DynamoMainTable.TableModule.GetDynamoMainTable | apps/stripe/src/modules/dynamodb/dynamo-main-table.ts:66-83 | A cached table is returned as is. Without a table name the call throws and caches nothing. Otherwise one fresh table with that name is created and cached |
| DynamoMainTable.TableModule.ProxyGet | apps/stripe/src/modules/dynamodb/dynamo-main-table.ts:88-92 | Every access through the deprecated proxy goes through `getDynamoMainTable` |
| ChannelConfigMappingDbModel.GetPK | apps/stripe/src/modules/app-config/repositories/dynamodb/channel-config-mapping-db-model.ts:7-9 | The partition key is the Saleor API URL, "#", then the app id |
| ChannelConfigMappingDbModel.GetSKforAllChannels | apps/stripe/src/modules/app-config/repositories/dynamodb/channel-config-mapping-db-model.ts:15-17 | The prefix every mapping's sort key starts with; `GetSKforSpecificChannel` states that it is one |
| ChannelConfigMappingDbModel.PkSeparatesInstallations | apps/stripe/src/modules/app-config/repositories/dynamodb/channel-config-mapping-db-model.ts:7-9 | Mappings of different installations of one URL never share a partition |
| ChannelConfigMappingDbModel.GetSKforSpecificChannel | apps/stripe/src/modules/app-config/repositories/dynamodb/channel-config-mapping-db-model.ts:11-17 | A channel's sort key starts with the all-channels prefix, followed by the channel id |
| ChannelConfigMappingDbModel.SkInjective | apps/stripe/src/modules/app-config/repositories/dynamodb/channel-config-mapping-db-model.ts:11-13 | Different channels never share a sort key |
| ChannelConfigMappingDbModel.EntityModule.constructor | apps/stripe/src/modules/app-config/repositories/dynamodb/channel-config-mapping-db-model.ts:45-55 | Loading the module creates no entity |
| ChannelConfigMappingDbModel.EntityModule.GetEntity | apps/stripe/src/modules/app-config/repositories/dynamodb/channel-config-mapping-db-model.ts:45-71 | The entity is created at most once, named "ChannelConfigMapping", over the main table. An existing main table is kept; without one, a fresh table named by `DYNAMODB_MAIN_TABLE_NAME` is created when that name is set. If the table throws, nothing is cached |
| StripeConfigDbModel.GetPK | apps/stripe/src/modules/app-config/repositories/dynamodb/stripe-config-db-model.ts:8-10 | The partition key is the Saleor API URL, "#", then the app id |
| StripeConfigDbModel.GetSKforAllItems | apps/stripe/src/modules/app-config/repositories/dynamodb/stripe-config-db-model.ts:16-18 | The prefix every config's sort key starts with; `GetSKforSpecificItem` states that it is one |
| StripeConfigDbModel.PkIsTheMappingsPartition | apps/stripe/src/modules/app-config/repositories/dynamodb/stripe-config-db-model.ts:8-10 | Configs share the partition of their installation's channel mappings |
| StripeConfigDbModel.GetSKforSpecificItem | apps/stripe/src/modules/app-config/repositories/dynamodb/stripe-config-db-model.ts:12-18 | A config's sort key starts with the all-items prefix, followed by the config id |
| StripeConfigDbModel.SkInjective | apps/stripe/src/modules/app-config/repositories/dynamodb/stripe-config-db-model.ts:16-18 | Different configs never share a sort key |
| StripeConfigDbModel.SkPrefixesAreDisjoint | apps/stripe/src/modules/app-config/repositories/dynamodb/stripe-config-db-model.ts:12-18 | No config sort key is a channel mapping sort key, so prefix queries never mix the two |
| StripeConfigDbModel.EntityModule.constructor | apps/stripe/src/modules/app-config/repositories/dynamodb/stripe-config-db-model.ts:50-58 | Loading the module creates no entity |
| StripeConfigDbModel.EntityModule.GetEntity | apps/stripe/src/modules/app-config/repositories/dynamodb/stripe-config-db-model.ts:50-58 | The entity is created at most once, named "StripeConfig", over the main table. An existing main table is kept; without one, a fresh table named by `DYNAMODB_MAIN_TABLE_NAME` is created when that name is set. If the table throws, nothing is cached |
| RecordedTransactionDbModel.GetPK | apps/stripe/src/modules/transactions-recording/repositories/dynamodb/recorded-transaction-db-model.ts:9-11 | The partition key is the Saleor API URL, "#", then the app id |
| RecordedTransactionDbModel.PkSeparatesInstallations | apps/stripe/src/modules/transactions-recording/repositories/dynamodb/recorded-transaction-db-model.ts:9-11 | Transactions of different installations of one URL never share a partition |
| RecordedTransactionDbModel.GetSKforSpecificItem | apps/stripe/src/modules/transactions-recording/repositories/dynamodb/recorded-transaction-db-model.ts:13-15 | A transaction's sort key is "TRANSACTION#" followed by the payment intent id |
| RecordedTransactionDbModel.SkInjective | apps/stripe/src/modules/transactions-recording/repositories/dynamodb/recorded-transaction-db-model.ts:13-15 | Different payment intents never share a sort key |
| RecordedTransactionDbModel.SkIsNeitherConfigNorChannel | apps/stripe/src/modules/transactions-recording/repositories/dynamodb/recorded-transaction-db-model.ts:13-15 | A transaction sort key is never a config or channel mapping sort key |
| RecordedTransactionDbModel.EntityModule.constructor | apps/stripe/src/modules/transactions-recording/repositories/dynamodb/recorded-transaction-db-model.ts:51-59 | Loading the module creates no entity |
| RecordedTransactionDbModel.EntityModule.GetEntity | apps/stripe/src/modules/transactions-recording/repositories/dynamodb/recorded-transaction-db-model.ts:51-67 | The entity is created at most once, named "RecordedTransaction", over the main table. An existing main table is kept; without one, a fresh table named by `DYNAMODB_MAIN_TABLE_NAME` is created when that name is set. If the table throws, nothing is cached |
| StripeBackends.SelectApl | apps/stripe/src/lib/saleor-app.ts:12-30 | "dynamodb" selects the Dynamo APL and "mongodb" the Mongo APL; every other value selects the file APL |
| StripeBackends.CreateAppConfigRepo | apps/stripe/src/modules/app-config/repositories/app-config-repo-impl.ts:9-17 | The Mongo repository is chosen exactly for "mongodb", with `new Encryptor()`; every other value gets the DynamoDB repository |
| StripeBackends.CreateTransactionRecorder | apps/stripe/src/modules/transactions-recording/repositories/transaction-recorder-impl.ts:9-17 | The Mongo recorder is chosen exactly for "mongodb" |
| StripeBackends.OneBackendIffMongoOrDynamo | apps/stripe/src/lib/saleor-app.ts:12-30 | Auth data, configuration and transactions share one backend exactly when `APL` is "mongodb" or "dynamodb" |
| StripeBackends.OtherValuesSplitStorage | apps/stripe/src/lib/saleor-app.ts:12-30 | Any other value, "file" included, keeps auth data in a file and the rest in DynamoDB |
| StripeBackends.MongoIsAllOrNothing | apps/stripe/src/lib/saleor-app.ts:12-30 | Each of the three stores uses MongoDB exactly when `APL` is "mongodb" |
| SmtpSaleorApp.AplType | apps/smtp/src/saleor-app.ts:11 | Only an unset `APL` defaults to "file" |
| SmtpSaleorApp.DynamoEnvSet | apps/smtp/src/saleor-app.ts:26-37 | All four DynamoDB variables are defined (`!== undefined`, so empty strings pass); `EmptyStringsPassOnlyTheDynamoCheck` is its partner |
| SmtpSaleorApp.SelectApl | apps/smtp/src/saleor-app.ts:26-82 | "dynamodb" succeeds exactly when its four variables are defined. "saleor-cloud" succeeds exactly when endpoint and token are non-empty. "mongodb" and "upstash" never fail, and any other value gives the file APL |
| SmtpSaleorApp.UnsetAplIsFile | apps/smtp/src/saleor-app.ts:11-63 | With `APL` unset the app runs on a file APL |
| SmtpSaleorApp.OnlyCheckedKindsFail | apps/smtp/src/saleor-app.ts:39-82 | Only "dynamodb" and "saleor-cloud" can make selection throw |
| SmtpSaleorApp.EmptyStringsPassOnlyTheDynamoCheck | apps/smtp/src/saleor-app.ts:26-76 | Empty Dynamo variables pass the `!== undefined` check, while empty REST variables fail the truthiness check |
| OcrSaleorApp.ParseApl | apps/ocr-credits/src/env.ts:7 | `APL` validates to "file", "mongodb" or "saleor-cloud", and defaults to "file" |
| OcrSaleorApp.ParseNodeEnv | apps/ocr-credits/src/env.ts:6 | `NODE_ENV` validates to "development", "production" or "test", and defaults to "development" |
| OcrSaleorApp.ParseEnv | apps/ocr-credits/src/env.ts:4-42 | The environment validates exactly when both `NODE_ENV` and `APL` do. `FILE_APL_PATH` defaults to ".auth-data.json". `REDIS_URL` is undeclared and so always undefined in the validated env |
| OcrSaleorApp.SelectApl | apps/ocr-credits/src/saleor-app.ts:15-55 | "redis" succeeds exactly when `REDIS_URL` is non-empty, using hash key "saleor_ocr_credits_auth". "saleor-cloud" succeeds exactly when endpoint and token are non-empty. Anything else gives a file APL at `FILE_APL_PATH` |
| OcrSaleorApp.RedisIsUnreachable | apps/ocr-credits/src/saleor-app.ts:15-55 | From a validated environment the Redis APL is never selected, and "mongodb" gets a file APL |
| OcrSaleorApp.DefaultsToAuthDataFile | apps/ocr-credits/src/saleor-app.ts:48-55 | With `APL` and `FILE_APL_PATH` unset and an accepted `NODE_ENV`, auth data goes to ".auth-data.json" |
| OcrSaleorApp.OnlySaleorCloudFails | apps/ocr-credits/src/saleor-app.ts:33-46 | From a validated environment, selection fails only for "saleor-cloud" with a missing or empty variable |

## Left out

- Abstract parameters. Cryptography (SHA-256, AES-256-CBC, `randomBytes`) is
  abstract: the IVs are parameters, and `Encryptor.Sound` states the facts the
  framing relies on. JSON, `createSaleorApiUrl`, the Stripe key validators,
  `StripeConfig.create`, and the payment intent and transaction id brands are
  also abstract predicates or functions.
- Oracles. The MongoDB driver, the Redis client, the DemeteredClient and the
  network are oracles (`Dial`, `Io`, `Reply`, `addCredits`). The `_id` the
  driver assigns is a counter passed in.
- Concurrency. Promise interleavings between concurrent calls are not
  modelled. Calls are sequential, and a promise is the value it settles to.
- `MONGODB_DATABASE`, the database and collection names, and the index
  specifications are left out. Index creation is one oracle outcome of
  `connect`.
- Logging, tracing and console output are left out; they have no effect on
  state.
- The OCR-credits copy closes the client and swallows close errors after a
  failed connect. The model resets the fields without modelling that close.
- `SmtpRedisApl.RedisAPL`: `close()` (`quit`) and what the client does after
  it are left out. The one connection attempt made by the constructor is a
  fixed outcome.
- `SmtpRedisApl.ReconnectStrategy`: only its result is modelled. Its use by
  the Redis client, which retries the connection in the background, is the
  client's own behaviour.
- `MongoTransactionRecorder.RecordedTransaction`: `selectedPaymentMethod`
  (`string | number` in the source) is modelled as a string.
- `RecordedTransactionDbModel.SchemaVersion` uses unbounded integers for
  JavaScript numbers.
- The DynamoDB document client, dynamodb-toolbox's `Table` and `Entity`
  internals, the timestamps they add, and the DynamoDB repositories' queries
  are not part of this model. A table is known by its name, and an entity by
  its name and table.
- `SkuMapping.GetPagesForSku`: lookups of keys that a plain object inherits
  from `Object.prototype` (such as "constructor") are not modelled. The table
  is a map with exactly its six listed keys.
- `OrderFullyPaid.HandleOrderFullyPaid`: page counts multiplied by quantity are
  unbounded integers, not JavaScript doubles. The webhook signature check and
  the SDK's payload parsing are left out.
- `saleorApp` construction (`new SaleorApp({ apl })`) and the file, Upstash,
  DynamoDB and Saleor Cloud APLs are app SDK code and are not part of this
  model. Selection returns which APL is built and with what arguments.
- The Stripe app's `env.ts` is not part of this model, so `APL` is taken as a
  plain string there.
- `apps/ocr-credits/src/env.ts` does not declare `REDIS_URL`, so `env.REDIS_URL`
  is always undefined, and its `APL` enum has no "redis". The model keeps the
  "redis" case of the switch as written and proves it unreachable from a
  validated environment. The declared variables the selector does not read
  (`MONGODB_URL`, `MONGODB_DATABASE`, `MANIFEST_APP_ID`, the base URLs,
  `SECRET_KEY` and the Demetered settings) are optional or defaulted strings
  that cannot fail validation, and are left out of `OcrSaleorApp.Env`.
- Every `close()` of a MongoDB store takes `client.close()` to succeed. A
  driver error thrown there is not modelled.
- One backend for all three Stripe stores holds for "dynamodb" as well as for
  "mongodb": "dynamodb" selects the Dynamo APL, and the repositories fall back
  to DynamoDB for every value except "mongodb". `StripeBackends.OneBackendIffMongoOrDynamo`
  states both cases.
