# backuprds, modelled in Dafny

backuprds is a small HTTP service. It reports the latest Alibaba Cloud RDS backup
of an environment, copies that backup into an S3 bucket, reports the latest
automated AWS RDS snapshot, and starts the export of that snapshot to S3. Around
the cloud SDK calls it makes a handful of decisions:

- how a bounded retry loop answers;
- which checks a handler makes, and in which order;
- which snapshot is the latest;
- how an export task is named and where its files go;
- how an uploaded object is keyed;
- which log entries are forwarded to a WeCom webhook, and in what layout;
- how log records are decorated with their caller.

This project states those decisions in Dafny and proves their properties.

Boundary values that the program reads from the outside world are inputs of the
model:

- results of the cloud SDKs;
- HTTP responses;
- environment credentials;
- the clock;
- the caller frame.

A handler returns its HTTP response together with the trace of the cloud
operations it called. A step sequence then says which calls were made, and in
what order.

| file | module | models |
|---|---|---|
| wrappers.dfy | `Wrappers` | `Option` and `Result` (a Go `(value, error)` pair) |
| strings.dfy | `Strings` | the parts of Go's `strings`/`strconv`/`fmt` in use: `Split`, last element of a split, `TrimSuffix`, ASCII case mapping, `%d`, zero padding |
| clock.dfy | `Clock` | calendar time and the three Go time layouts in use: `20060102-150405`, `0102-1504`, `2006-01-02 15:04:05` |
| path.dfy | `Path` | Go's `path.Clean` and two-argument `path.Join` |
| config.dfy | `Config` | the configuration shapes the handlers read |
| aliyun_query.dfy | `AliyunQuery` | rds_client.go: `CreateClient` credential check and `getLastBackupURLs` |
| aws_rds.dfy | `AwsRds` | internal/service/aws/aws_rds_client.go: client creation, `StartRDSSnapshotExport`, `GetLatestSnapshotInfo` |
| uploader.dfy | `Uploader` | internal/service/aws/s3_uploader.go: `UploadBackupToS3` and the object key |
| legacy_uploader.dfy | `LegacyUploader` | s3_uploader.go: the older `uploadBackupToS3`, without the status check |
| handlers.dfy | `Handlers` | internal/handlers/handler.go: the retry loop and the handlers' check ladders |
| legacy_handlers.dfy | `LegacyHandlers` | handler.go: the older copy of the handlers |
| hook.dfy | `WecomHook` | internal/logger/hook.go: `WecomHook.Fire` |
| logger.dfy | `Logger` | internal/logger/logger.go: `getEncoder`, `getCallerInfo`, `addCallerInfo`, the `LogX` guard |

The retry loop of `BackupHandler` is proved against a separate, loop-free
statement of what it answers. `Handlers.RetryOutcome` names the first "decisive"
attempt: one that returned a record that is populated, or that is the final
attempt. The lemmas beside it prove the behaviours the handler promises:

- all attempts failing gives 500;
- a populated record on attempt k gives 200 with `retries` = k, and no later attempt runs;
- a blank record on the final attempt gives 404;
- a blank record before the final attempt is retried exactly like an error.

With `maxRetries` = 0 the loop would end without any response, and the model
shows that gap. With the configured `maxRetries` = 1, every request gets exactly
one response.

## Model

| member | source | states |
|---|---|---|
| `Strings.LastSegmentIsMaximalSuffix` | internal/service/aws/aws_rds_client.go:62-63 | `parts[len(parts)-1]` of a split is the longest suffix without the separator: no separator in it, a suffix of the input, and either the whole input or preceded by the separator |
| `Strings.SplitJoin` | internal/logger/logger.go:185-189 | splitting pieces without the separator, joined by it, gives the pieces back |
| `Strings.CaseFolding` | internal/logger/hook.go:27-30 | lower-casing is idempotent and lower-casing an upper-cased string gives the lower-cased original, so comparing lower-cased strings ignores case |
| `Strings.NatToStringRoundTrip` | internal/logger/hook.go:46-52 | reading back the decimal text of a number gives the number |
| `Strings.ZeroPadRoundTrip` | internal/service/aws/s3_uploader.go:84 | a number below 10^w, zero-padded to w digits, is exactly w digits long and reads back as the number |
| `Clock.CompactStampRoundTrip` | internal/service/aws/s3_uploader.go:84 | the `20060102-150405` stamp of a valid time is 15 characters, digits around a '-', and parses back to the same time |
| `Clock.CompactStampHasNoSlash` | internal/service/aws/s3_uploader.go:85 | the stamp holds no '/', so `path.Join` cannot split it |
| `Clock.MinuteStampShape` | internal/service/aws/aws_rds_client.go:72 | the `0102-1504` stamp is 9 characters, digits around a '-', and reads back as month, day, hour and minute |
| `Clock.CompactStampExample` | internal/service/aws/s3_uploader.go:84 | 2024-03-20 10:00:00 is stamped "20240320-100000" |
| `Path.JoinPlainElements` | internal/service/aws/s3_uploader.go:85 | `path.Join` of two plain elements (non-empty, no '/', not "." or "..") is their concatenation with one '/' |
| `AliyunQuery.CreateClient` | rds_client.go:14-28 | a blank access key or secret fails with the missing-variables error; a client exists exactly when both are set and the SDK constructor succeeds |
| `AliyunQuery.GetLastBackupURLs` | rds_client.go:31-71 | a request is sent exactly when the client was created, for the given instance id; every client failure, blank credentials or a `NewClient` error, is wrapped as "failed to create RDS client: " followed by its message; an API failure gives "API request error: " with the SDK message; an empty list gives a blank record; otherwise the first item's start time, public URL and intranet URL |
| `AliyunQuery.SuccessfulCallNeverFails` | rds_client.go:57-70 | with a client, a successful describe call always yields a record, never an error |
| `AwsRds.CreateAwsClient` | internal/service/aws/aws_rds_client.go:20-42 | a client exists exactly when both AWS variables are set and the configuration loads; missing variables and a load failure each give their own error; the client is for the requested region |
| `AwsRds.ShortInstanceId` | internal/service/aws/aws_rds_client.go:59-67 | the short id is at most 20 characters and is a suffix of the instance id |
| `AwsRds.ShortIdOfShortInstance` | internal/service/aws/aws_rds_client.go:60-61 | an id of at most 20 characters is kept unchanged, colons included |
| `AwsRds.ShortIdOfLongInstance` | internal/service/aws/aws_rds_client.go:61-67 | a longer id becomes its last ':'-segment if that has at most 20 characters, and otherwise that segment's last 20 characters |
| `AwsRds.ShortIdOfNamespacedId` | internal/service/aws/aws_rds_client.go:61-66 | a long `namespace:name` id with a short colon-free name shortens to the name |
| `AwsRds.ExportTaskIdentifierShape` | internal/service/aws/aws_rds_client.go:70-72 | the identifier is "exp-", the short id, "-", and a 9-character MMdd-HHmm stamp that reads back as the time; at most 34 characters |
| `AwsRds.ExportTaskIdentifierExample` | internal/service/aws/aws_rds_client.go:59-72 | `arn:aws:rds:ap-southeast-1:123456789012:db:myinstance-01` at 2024-03-20 10:00 gives "exp-myinstance-01-0320-1000" |
| `AwsRds.MinuteStampExample` | internal/service/aws/aws_rds_client.go:72 | 2024-03-20 10:00 is stamped "0320-1000" |
| `AwsRds.FullS3Prefix` | internal/service/aws/aws_rds_client.go:75-78 | an empty prefix stays empty; a prefix ending in '/' is kept; any other prefix gets one '/' appended |
| `AwsRds.FullS3PrefixIdempotent` | internal/service/aws/aws_rds_client.go:75-78 | a normalised non-empty prefix ends with '/', and normalising twice equals normalising once |
| `AwsRds.StartRDSSnapshotExport` | internal/service/aws/aws_rds_client.go:45-98 | the export request is sent exactly when the client was created; client failure is wrapped with the function's own prefix; the request carries the derived identifier, the role, key, bucket, normalised prefix and the snapshot ARN as source; the result is the task id the service confirms, or "failed to start export task: " plus its error |
| `AwsRds.SelectLatest` | internal/service/aws/aws_rds_client.go:137-144 | nothing is selected exactly when no snapshot is "available"; otherwise the selected one is available, no available one is strictly later, and every available one before it is strictly earlier (ties go to the first in the list) |
| `AwsRds.LatestIsUnique` | internal/service/aws/aws_rds_client.go:137-144 | at most one position satisfies the selection criterion |
| `AwsRds.LatestAmongExists` | internal/service/aws/aws_rds_client.go:137-144 | as soon as one available snapshot is among the first n, a latest one among them exists |
| `AwsRds.GetLatestSnapshotInfo` | internal/service/aws/aws_rds_client.go:101-163 | the describe request (automated snapshots, at most 20, shared and public included) is sent exactly when the client was created; a describe failure gives an error naming the instance id; no available snapshot gives four blank fields and no error; otherwise a result exists and it is the ARN, creation time, id and status of the latest available one |
| `AwsRds.SelectWithSharedLoopVariable` | internal/service/aws/aws_rds_client.go:138-142 | with a loop variable shared by all iterations, the pointer kept always ends up at the last listed snapshot |
| `AwsRds.SharedLoopVariableCounterexample` | internal/service/aws/aws_rds_client.go:137-144 | for [available at 20, creating at 5] the shared-variable reading reports the creating snapshot, while the selection picks the available one |
| `Uploader.S3KeyOfPlainEnvironment` | internal/service/aws/s3_uploader.go:84-85 | for a plain environment name the key is `env/backup-env-<yyyyMMdd-HHmmss>.xb` |
| `Uploader.S3KeyDeterminesTime` | internal/service/aws/s3_uploader.go:84-85 | for a plain environment, two valid times give the same key if and only if they are the same time |
| `Uploader.S3KeyExample` | internal/service/aws/s3_uploader.go:84-85 | a plain environment at 2024-03-20 10:00:00 gets the key `env/` followed by the object name `backup-env-20240320-100000.xb` |
| `Uploader.ObjectNameExample` | internal/service/aws/s3_uploader.go:85 | the object name at 2024-03-20 10:00:00 is `backup-env-20240320-100000.xb` |
| `Uploader.UploadBackupToS3` | internal/service/aws/s3_uploader.go:23-111 | missing credentials and a configuration failure end before any step; the download is the first step; a download error or a status other than 200 ends after the download with an error and no upload; on 200 the upload goes to the bucket under the derived key, and the result carries that key and the upload's location, or the wrapped upload error; `backupTime` plays no part |
| `LegacyUploader.UploadBackupToS3` | s3_uploader.go:23-76 | the same order without the status check: credentials, configuration, download, then upload under the same key for any HTTP status |
| `Handlers.FirstDecisive` | internal/handlers/handler.go:53-87 | the first attempt from a given one on that ends the loop, or `maxRetries`; no attempt before it ends the loop |
| `Handlers.FirstDecisiveIs` | internal/handlers/handler.go:53-87 | the first decisive attempt is the unique position that is decisive (or the end) with no decisive one before |
| `Handlers.RetryBackupQuery` | internal/handlers/handler.go:53-97 | the loop answers `RetryOutcome` after `AttemptsMade` queries, all for the same instance |
| `Handlers.EveryPathResponds` | internal/handlers/handler.go:89-97 | the loop answers exactly when at least one attempt is allowed |
| `Handlers.AllAttemptsFail` | internal/handlers/handler.go:59-97 | if every attempt errors, all run and the answer is 500 with the last error as details and `retries` = maxRetries |
| `Handlers.FirstPopulatedRecordWins` | internal/handlers/handler.go:66-86 | a populated record on attempt k after only errors and blanks answers 200 with the three fields and `retries` = k+1, and only k+1 queries run |
| `Handlers.BlankOnFinalAttempt` | internal/handlers/handler.go:66-77 | a blank record on the final attempt answers 404 with `retries` = maxRetries, whatever the earlier attempts were |
| `Handlers.BlankBeforeFinalIsRetried` | internal/handlers/handler.go:66-71 | a blank record before the final attempt is treated like an error: swapping one for the other changes neither the answer nor the number of queries |
| `Handlers.FirstDecisiveAgrees` | internal/handlers/handler.go:53-71 | changing one non-decisive attempt for another does not move the first decisive attempt |
| `Handlers.BackupHandler` | internal/handlers/handler.go:33-98 | an unknown environment answers 400 "invalid environment" with no query; otherwise the retry loop answers, and with maxRetries = 1 always does |
| `Handlers.AwsBackupHandler` | internal/handlers/handler.go:101-146 | an unknown environment answers 400 with no query; otherwise one snapshot query for the instance and region, then 500 on error, 404 on a blank ARN, else 200 with the snapshot fields |
| `Handlers.AwsExportHandler` | internal/handlers/handler.go:160-225 | an unknown environment answers 400 with no query; the export starts only after a successful query found a snapshot, with the instance's key and bucket and the shared role ARN and prefix; a query error gives 500 and a blank ARN gives 404, both without an export; the export's result gives 200 with the task id or 500 |
| `Handlers.AliRdsExportToS3Handler` | internal/handlers/handler.go:251-309 | checks run in the order environment, non-blank S3 region and bucket, backup query, non-blank public download URL, upload; the upload is called only when all pass, with the public URL, the bucket, region, environment and the backup's start time |
| `Handlers.GetS3ConfigHandler` | internal/handlers/handler.go:320-347 | 200 with region and bucket exactly when both are set; otherwise 500 with both values as details |
| `Handlers.CollectKeys` | internal/handlers/handler.go:364-372 | the range loop lists every key of the map exactly once |
| `Handlers.GetInstancesHandler` | internal/handlers/handler.go:357-375 | 200 with exactly the lists "aliyun" and "aws", holding exactly the keys of the two instance maps, without repetition |
| `LegacyHandlers.BackupHandler` | handler.go:29-84 | an unknown environment answers 400 before any query; otherwise the retry loop answers |
| `LegacyHandlers.AwsBackupHandler` | handler.go:86-130 | unknown environment 400 without a query; otherwise exactly one snapshot query, then 500 with the details, instance id and region on a query error, 404 with the instance id and region on a blank ARN, 200 with the snapshot fields otherwise |
| `LegacyHandlers.AwsExportHandler` | handler.go:144-208 | unknown environment 400 without a query; a query error answers 500 with the details, instance id and region, and a blank ARN 404, with no export in either case; otherwise the snapshot query and then one export with the instance's id, region, KMS key and bucket and the shared role and prefix, answering 500 with the details on an export error and 200 with the task id and snapshot ARN otherwise |
| `LegacyHandlers.AliRdsExportToS3Handler` | handler.go:234-291 | unknown environment 400 and missing S3 settings 500, both without a query; a query error answers 500 with the details and a blank public download URL 404, with no upload in either case; otherwise the backup query and then one upload of the public URL to the configured bucket and region under the environment's name with the backup's start time, answering 500 with the details on an upload error and 200 with bucket, key, location and region otherwise |
| `LegacyHandlers.GetS3ConfigHandler` | handler.go:302-315 | 200 with region and bucket when both are set; otherwise 500 with only the error |
| `LegacyHandlers.GetInstancesHandler` | handler.go:325-342 | the two lists hold exactly the keys of the two instance maps, each once |
| `WecomHook.ShouldProcess` | internal/logger/hook.go:27-34 | the flag is set exactly when some configured level, lower-cased, equals the entry's level |
| `WecomHook.ConfiguredCaseIsIrrelevant` | internal/logger/hook.go:29-33 | upper-casing the configured levels does not change which entries pass |
| `WecomHook.LevelStringIsLower` | internal/logger/hook.go:27 | zap's level names are already lower case |
| `WecomHook.Fire` | internal/logger/hook.go:25-86 | an entry whose level is not configured sends nothing and returns nil; otherwise one JSON POST to the webhook with msgtype "markdown" and the alert as content; a transport failure or a status other than 200 is reported, 200 returns nil |
| `WecomHook.AlertStartsWithTitle` | internal/logger/hook.go:42-48 | the alert begins "【" + upper-cased level + "告警】" followed by a line break |
| `WecomHook.AlertLinesInOrder` | internal/logger/hook.go:41-53 | for single-line fields and no stack, the alert's lines are exactly title, time, file, function, line number and message, in order |
| `WecomHook.StackOnlyWhenPresent` | internal/logger/hook.go:56-58 | the filled template is a prefix of the alert; the alert is exactly the template when there is no stack, and ends with the stack section otherwise |
| `Logger.GetEncoder` | internal/logger/logger.go:170-175 | the JSON encoder exactly when the format is "json", the console encoder otherwise |
| `Logger.GetCallerInfo` | internal/logger/logger.go:178-192 | a failed lookup gives "unknown", "unknown", 0; otherwise the line, the function's last '.'-segment and the file's last '/'-segment |
| `Logger.CallerInfoOfQualifiedName` | internal/logger/logger.go:184-191 | for `pkg.name` in `dir/file` the caller info is `file`, `name` and the line |
| `Logger.AddCallerInfo` | internal/logger/logger.go:195-204 | the message is unchanged; the fields are file, func and line, then the original fields in order, three more than before |
| `Logger.GlobalLogger.Emit` | internal/logger/logger.go:207-237 | without a logger nothing is written; with one, exactly one record with the caller fields prepended |
| `Logger.GlobalLogger.LogDebug` | internal/logger/logger.go:207-213 | as `Emit`, at debug level |
| `Logger.GlobalLogger.LogInfo` | internal/logger/logger.go:215-221 | as `Emit`, at info level |
| `Logger.GlobalLogger.LogWarn` | internal/logger/logger.go:223-229 | as `Emit`, at warn level |
| `Logger.GlobalLogger.LogError` | internal/logger/logger.go:231-237 | as `Emit`, at error level |

## Left out

- Inputs rather than computations:
  - the cloud SDKs: Alibaba Cloud `DescribeBackups`, AWS `DescribeDBSnapshots` and `StartExportTask`, and the S3 upload manager;
  - `http.Get` and `http.Post`;
  - the environment variables;
  - `config.LoadDefaultConfig`;
  - `time.Now`;
  - `runtime.Caller` and `runtime.FuncForPC`.
- `time.Sleep(retryDelay)` between attempts: timing only.
- The S3 uploader's part size, concurrency and `LeavePartsOnError` settings, and the streaming of the response body into the upload: these are I/O and in-library concurrency.
- The Alibaba Cloud endpoint and `RuntimeOptions`: SDK configuration with no decision in it.
- `json.Marshal` of the hook payload: the payload is a map of strings and cannot fail to encode, so the "failed to marshal" branch is not modelled.
- zap and lumberjack setup in `InitFromFile` and the level variable: library setup.
- `LogFatal`, which calls `os.Exit` or `logger.Fatal`: process control. The `Logger.String`/`Int`/… field constructors are shown only as the `Field` datatype.
- `HealthCheckHandler` and `healthCheckHandler`: a constant 200 `{"status": "healthy"}` with no decision in it.
- Configuration loading through viper and yaml: only the shapes are modelled, in config.dfy.
- Routing and the command line in cmd/ and main.go, the browser UI under static/, and the Swagger DTOs: these are outside the core.
- The `log.Printf` and `LogInfo` calls inside the handlers and clients: they change no response.
- `AwsRds.GetLatestSnapshotInfo`: creation times are abstract integers, and `SnapshotCreateTime.String()` is an input field of each snapshot. A nil creation time or status is not modelled: the model always has both.
- `Strings.ToLower`: only ASCII letters are case-mapped, and Go's Unicode case mapping is not modelled.
- `AwsRds.ShortInstanceId`: lengths and slices count characters. Go counts bytes, and the two agree only on ASCII ids.
- `Handlers.GetInstancesHandler`: Go's map iteration order is unspecified. The model picks keys in an arbitrary order and proves only which keys appear and that each appears once, not an order.
- `AliyunQuery.CreateClient`: whether `rds20140815.NewClient` fails is an input.
- The Alibaba Cloud client of the internal packages lives in internal/service/aliyun, which is not part of this model.
- The model follows the code in these details:
  - the object key and the export identifier use the local time that `time.Now()` gives, not UTC;
  - the 20-character shortening applies only to ids longer than 20 characters;
  - `TrimSuffix` removes only one trailing '/', so a prefix ending in "//" keeps both slashes.

## Findings

| source | as written | input that shows it | evidently intended | confidence | as-written member | corrected member |
|---|---|---|---|---|---|---|
| internal/service/aws/aws_rds_client.go:138-141 | `latestSnapshot = &snapshot` keeps the address of the range variable. Under the loop semantics of Go before 1.22 that variable is shared by all iterations, so after the loop the pointer designates the last listed snapshot | snapshots [available, created at 20; creating, created at 5]: the report shows the creating one | report the latest available snapshot, the one the scan chose | low, not executed: it applies only if go.mod declares a Go version below 1.22, and go.mod is not part of this model | `AwsRds.SelectWithSharedLoopVariable`, `AwsRds.SharedLoopVariableCounterexample` | `AwsRds.SelectLatest` |
