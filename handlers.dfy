/** internal/handlers/handler.go: the HTTP handlers. A handler's `c.JSON(status,
    body)` is its returned `Response`; everything it asks of the cloud layer is
    recorded, in order, as a `Call`, and what each call returns is an input. */
module Handlers {
  import opened Wrappers
  import opened Config
  import opened AliyunQuery
  import opened AwsRds
  import opened Uploader

  /** A `gin.H` value. */
  datatype Json = JStr(s: string) | JInt(n: int) | JList(items: seq<string>) | JObj(fields: map<string, Json>)

  /** One `c.JSON(status, body)`. */
  datatype Response = Response(status: int, body: map<string, Json>)

  const StatusBadRequest := 400
  const StatusNotFound := 404
  const StatusInternalServerError := 500

  /** `maxRetries`: the number of query attempts per request. */
  const MaxRetries: nat := 1

  /** Arguments of `aws.StartRDSSnapshotExport`. */
  datatype ExportArgs = ExportArgs(instanceId: string, snapshotArn: string, region: string, iamRoleArn: string,
                                   kmsKeyId: string, s3BucketName: string, s3Prefix: string)

  /** Arguments of `aws.UploadBackupToS3`. */
  datatype UploadArgs = UploadArgs(backupUrl: string, bucketName: string, region: string, env: string, backupTime: string)

  /** A call a handler makes into the cloud layer. */
  datatype Call =
    | GetBackupUrls(instanceId: string)
    | GetSnapshotInfo(instanceId: string, region: string)
    | StartExport(exportArgs: ExportArgs)
    | UploadToS3(uploadArgs: UploadArgs)

  function InvalidEnvironment(): Response
  {
    Response(StatusBadRequest, map["error" := JStr("invalid environment")])
  }

  // ---------------------------------------------------------------------------
  // The retry loop of BackupHandler

  function NoBackupsFound(retries: int): Response
  {
    Response(StatusNotFound, map["message" := JStr("no backups found"), "retries" := JInt(retries)])
  }

  function BackupFound(r: BackupRecord, retries: int): Response
  {
    Response(StatusOK, map["backup_start_time" := JStr(r.startTime),
                           "backup_download_url" := JStr(r.downloadUrl),
                           "backup_intranet_download_url" := JStr(r.intranetDownloadUrl),
                           "retries" := JInt(retries)])
  }

  function RetriesExhausted(details: string, retries: int): Response
  {
    Response(StatusInternalServerError, map["error" := JStr("failed to get backup URLs after retries"),
                                            "details" := JStr(details),
                                            "retries" := JInt(retries)])
  }

  /** Attempt `k` ends the loop with a response: it returned a record, and the
      record is populated or `k` is the final attempt. */
  predicate Decisive(attempts: seq<Result<BackupRecord>>, maxRetries: nat, k: nat)
    requires k < |attempts|
  {
    attempts[k].Ok? && (!IsBlank(attempts[k].value) || k == maxRetries - 1)
  }

  /** The first decisive attempt from `from` on, or `maxRetries` if none is. */
  function FirstDecisive(attempts: seq<Result<BackupRecord>>, maxRetries: nat, from: nat): (k: nat)
    requires from <= maxRetries <= |attempts|
    ensures from <= k <= maxRetries
    ensures k < maxRetries ==> Decisive(attempts, maxRetries, k)
    ensures forall j :: from <= j < k ==> !Decisive(attempts, maxRetries, j)
    decreases maxRetries - from
  {
    if from == maxRetries then maxRetries
    else if Decisive(attempts, maxRetries, from) then from
    else FirstDecisive(attempts, maxRetries, from + 1)
  }

  /** The first decisive attempt is characterised by its two properties. */
  lemma FirstDecisiveIs(attempts: seq<Result<BackupRecord>>, maxRetries: nat, k: nat)
    requires k <= maxRetries <= |attempts|
    requires k < maxRetries ==> Decisive(attempts, maxRetries, k)
    requires forall j :: 0 <= j < k ==> !Decisive(attempts, maxRetries, j)
    ensures FirstDecisive(attempts, maxRetries, 0) == k
  {
  }

  /** What the loop answers, stated without the loop: the first decisive attempt
      answers 200 or 404 with its 1-based number; with none, every attempt up to
      the last failed and the last failure is reported; zero attempts answer nothing. */
  function RetryOutcome(attempts: seq<Result<BackupRecord>>, maxRetries: nat): Option<Response>
    requires maxRetries <= |attempts|
  {
    var k := FirstDecisive(attempts, maxRetries, 0);
    if k < maxRetries then
      if IsBlank(attempts[k].value) then Some(NoBackupsFound(k + 1))
      else Some(BackupFound(attempts[k].value, k + 1))
    else if maxRetries == 0 then None
    else
      assert !Decisive(attempts, maxRetries, maxRetries - 1);
      Some(RetriesExhausted(attempts[maxRetries - 1].error, maxRetries))
  }

  /** How many attempts the loop runs: up to and including the first decisive one. */
  function AttemptsMade(attempts: seq<Result<BackupRecord>>, maxRetries: nat): nat
    requires maxRetries <= |attempts|
  {
    var k := FirstDecisive(attempts, maxRetries, 0);
    if k < maxRetries then k + 1 else maxRetries
  }

  /** The `for i := 0; i < maxRetries; i++` loop; `attempts[i]` is what the query
      returns on attempt i. */
  method RetryBackupQuery(instanceId: string, maxRetries: nat, attempts: seq<Result<BackupRecord>>)
    returns (resp: Option<Response>, calls: seq<Call>)
    requires maxRetries <= |attempts|
    ensures resp == RetryOutcome(attempts, maxRetries)
    ensures |calls| == AttemptsMade(attempts, maxRetries)
    ensures forall c :: c in calls ==> c == GetBackupUrls(instanceId)
  {
    var lastErr: Option<string> := None;
    calls := [];
    for i := 0 to maxRetries
      invariant |calls| == i
      invariant forall c :: c in calls ==> c == GetBackupUrls(instanceId)
      invariant forall j :: 0 <= j < i ==> !Decisive(attempts, maxRetries, j)
      invariant i == 0 ==> lastErr.None?
      invariant i > 0 && attempts[i - 1].Err? ==> lastErr == Some(attempts[i - 1].error)
    {
      calls := calls + [GetBackupUrls(instanceId)];
      var outcome := attempts[i];
      if outcome.Err? {
        lastErr := Some(outcome.error);
        continue;
      }
      var backupUrls := outcome.value;
      if backupUrls.downloadUrl == "" && backupUrls.intranetDownloadUrl == "" {
        if i < maxRetries - 1 {
          continue;
        }
        FirstDecisiveIs(attempts, maxRetries, i);
        return Some(NoBackupsFound(i + 1)), calls;
      }
      FirstDecisiveIs(attempts, maxRetries, i);
      return Some(BackupFound(backupUrls, i + 1)), calls;
    }
    FirstDecisiveIs(attempts, maxRetries, maxRetries);
    if maxRetries > 0 {
      assert !Decisive(attempts, maxRetries, maxRetries - 1);
    }
    if lastErr.Some? {
      return Some(RetriesExhausted(lastErr.value, maxRetries)), calls;
    }
    resp := None;
  }

  /** With at least one attempt the loop always answers; with none it answers
      nothing, which is the gap the source leaves after its loop. */
  lemma EveryPathResponds(attempts: seq<Result<BackupRecord>>, maxRetries: nat)
    requires maxRetries <= |attempts|
    ensures RetryOutcome(attempts, maxRetries).Some? <==> maxRetries >= 1
  {
  }

  /** If every attempt fails, all of them run and the last error is reported. */
  lemma AllAttemptsFail(attempts: seq<Result<BackupRecord>>, maxRetries: nat)
    requires 1 <= maxRetries <= |attempts|
    requires forall j :: 0 <= j < maxRetries ==> attempts[j].Err?
    ensures RetryOutcome(attempts, maxRetries) == Some(RetriesExhausted(attempts[maxRetries - 1].error, maxRetries))
    ensures AttemptsMade(attempts, maxRetries) == maxRetries
  {
  }

  /** A populated record on attempt k, after only failures and blank records,
      answers 200 with retries k+1, and no later attempt runs. */
  lemma FirstPopulatedRecordWins(attempts: seq<Result<BackupRecord>>, maxRetries: nat, k: nat)
    requires k < maxRetries <= |attempts|
    requires attempts[k].Ok? && !IsBlank(attempts[k].value)
    requires forall j :: 0 <= j < k ==> attempts[j].Err? || IsBlank(attempts[j].value)
    ensures RetryOutcome(attempts, maxRetries) == Some(BackupFound(attempts[k].value, k + 1))
    ensures AttemptsMade(attempts, maxRetries) == k + 1
  {
    FirstDecisiveIs(attempts, maxRetries, k);
  }

  /** A blank record on the final attempt answers 404 with retries = maxRetries,
      whatever the earlier attempts failed with. */
  lemma BlankOnFinalAttempt(attempts: seq<Result<BackupRecord>>, maxRetries: nat)
    requires 1 <= maxRetries <= |attempts|
    requires attempts[maxRetries - 1].Ok? && IsBlank(attempts[maxRetries - 1].value)
    requires forall j :: 0 <= j < maxRetries - 1 ==> attempts[j].Err? || IsBlank(attempts[j].value)
    ensures RetryOutcome(attempts, maxRetries) == Some(NoBackupsFound(maxRetries))
    ensures AttemptsMade(attempts, maxRetries) == maxRetries
  {
    FirstDecisiveIs(attempts, maxRetries, maxRetries - 1);
  }

  /** A blank record before the final attempt is retried exactly like a failure:
      replacing one by the other changes neither the answer nor the attempt count. */
  lemma {:induction false} BlankBeforeFinalIsRetried(attempts: seq<Result<BackupRecord>>, maxRetries: nat,
                                                     k: nat, blank: BackupRecord, e: string)
    requires k < maxRetries - 1 && maxRetries <= |attempts| && IsBlank(blank)
    ensures var a1, a2 := attempts[k := Ok(blank)], attempts[k := Err(e)];
      RetryOutcome(a1, maxRetries) == RetryOutcome(a2, maxRetries)
      && AttemptsMade(a1, maxRetries) == AttemptsMade(a2, maxRetries)
  {
    var a1, a2 := attempts[k := Ok(blank)], attempts[k := Err(e)];
    FirstDecisiveAgrees(a1, a2, maxRetries, 0, k);
  }

  /** Two attempt sequences that differ only at k, where neither is decisive,
      have the same first decisive attempt. */
  lemma {:induction false} FirstDecisiveAgrees(a1: seq<Result<BackupRecord>>, a2: seq<Result<BackupRecord>>,
                                               maxRetries: nat, from: nat, k: nat)
    requires from <= maxRetries <= |a1| == |a2| && k < maxRetries
    requires forall j :: 0 <= j < |a1| && j != k ==> a1[j] == a2[j]
    requires !Decisive(a1, maxRetries, k) && !Decisive(a2, maxRetries, k)
    requires maxRetries - 1 < |a1|
    requires a1[maxRetries - 1] == a2[maxRetries - 1]
    ensures FirstDecisive(a1, maxRetries, from) == FirstDecisive(a2, maxRetries, from)
    decreases maxRetries - from
  {
    if from < maxRetries {
      if from != k {
        assert Decisive(a1, maxRetries, from) == Decisive(a2, maxRetries, from);
      }
      FirstDecisiveAgrees(a1, a2, maxRetries, from + 1, k);
    }
  }

  /** `BackupHandler`: an unknown environment is rejected before any query;
      otherwise the retry loop answers, and with MaxRetries = 1 it always does. */
  method BackupHandler(cfg: Config, env: string, attempts: seq<Result<BackupRecord>>)
    returns (resp: Option<Response>, calls: seq<Call>)
    requires MaxRetries <= |attempts|
    ensures env !in cfg.aliyunInstances ==> resp == Some(InvalidEnvironment()) && calls == []
    ensures env in cfg.aliyunInstances ==>
              && resp == RetryOutcome(attempts, MaxRetries)
              && resp.Some?
              && |calls| == AttemptsMade(attempts, MaxRetries)
              && forall c :: c in calls ==> c == GetBackupUrls(cfg.aliyunInstances[env].id)
  {
    if env !in cfg.aliyunInstances {
      return Some(InvalidEnvironment()), [];
    }
    var instance := cfg.aliyunInstances[env];
    resp, calls := RetryBackupQuery(instance.id, MaxRetries, attempts);
  }

  // ---------------------------------------------------------------------------
  // Snapshot handlers

  function SnapshotQueryFailed(details: string, inst: InstanceConfig): Response
  {
    Response(StatusInternalServerError, map["error" := JStr("failed to get snapshot info"),
                                            "details" := JStr(details),
                                            "instanceId" := JStr(inst.id),
                                            "region" := JStr(inst.region)])
  }

  function NoSnapshotsFound(inst: InstanceConfig): Response
  {
    Response(StatusNotFound, map["message" := JStr("no snapshots found"),
                                 "instanceId" := JStr(inst.id),
                                 "region" := JStr(inst.region)])
  }

  function SnapshotFound(info: SnapshotInfo, inst: InstanceConfig): Response
  {
    Response(StatusOK, map["snapshot_create_time" := JStr(info.snapshotCreateTime),
                           "snapshot_arn" := JStr(info.snapshotArn),
                           "snapshot_id" := JStr(info.snapshotId),
                           "status" := JStr(info.status),
                           "instance_id" := JStr(inst.id),
                           "region" := JStr(inst.region)])
  }

  function ExportFailed(details: string, inst: InstanceConfig): Response
  {
    Response(StatusInternalServerError, map["error" := JStr("failed to start export task"),
                                            "details" := JStr(details),
                                            "instanceId" := JStr(inst.id),
                                            "region" := JStr(inst.region)])
  }

  function ExportStarted(taskId: string, snapshotArn: string, inst: InstanceConfig): Response
  {
    Response(StatusOK, map["export_task_id" := JStr(taskId),
                           "snapshot_arn" := JStr(snapshotArn),
                           "instance_id" := JStr(inst.id),
                           "region" := JStr(inst.region),
                           "kms_key_id" := JStr(inst.kmsKeyId),
                           "s3_bucket_name" := JStr(inst.s3BucketName)])
  }

  /** `AwsBackupHandler`; `snapshot` is what GetLatestSnapshotInfo returns. */
  method AwsBackupHandler(cfg: Config, env: string, snapshot: Result<SnapshotInfo>)
    returns (resp: Response, calls: seq<Call>)
    ensures env !in cfg.awsInstances ==> resp == InvalidEnvironment() && calls == []
    ensures env in cfg.awsInstances ==>
              var inst := cfg.awsInstances[env];
              && calls == [GetSnapshotInfo(inst.id, inst.region)]
              && resp == (if snapshot.Err? then SnapshotQueryFailed(snapshot.error, inst)
                          else if snapshot.value.snapshotArn == "" then NoSnapshotsFound(inst)
                          else SnapshotFound(snapshot.value, inst))
  {
    if env !in cfg.awsInstances {
      return InvalidEnvironment(), [];
    }
    var instanceConfig := cfg.awsInstances[env];
    calls := [GetSnapshotInfo(instanceConfig.id, instanceConfig.region)];
    if snapshot.Err? {
      return SnapshotQueryFailed(snapshot.error, instanceConfig), calls;
    }
    var snapshotInfo := snapshot.value;
    if snapshotInfo.snapshotArn == "" {
      return NoSnapshotsFound(instanceConfig), calls;
    }
    resp := SnapshotFound(snapshotInfo, instanceConfig);
  }

  /** `AwsExportHandler`; `snapshot` is what GetLatestSnapshotInfo returns and
      `export` what StartRDSSnapshotExport returns. The export is started only
      after a successful query found a snapshot, with the shared role and prefix. */
  method AwsExportHandler(cfg: Config, env: string, snapshot: Result<SnapshotInfo>, exportResult: Result<string>)
    returns (resp: Response, calls: seq<Call>)
    ensures env !in cfg.awsInstances ==> resp == InvalidEnvironment() && calls == []
    ensures env in cfg.awsInstances ==>
              var inst := cfg.awsInstances[env];
              && |calls| >= 1 && calls[0] == GetSnapshotInfo(inst.id, inst.region)
              && (snapshot.Err? ==> resp == SnapshotQueryFailed(snapshot.error, inst) && |calls| == 1)
              && (snapshot.Ok? && snapshot.value.snapshotArn == "" ==> resp == NoSnapshotsFound(inst) && |calls| == 1)
    ensures forall c :: c in calls && c.StartExport? ==>
              && env in cfg.awsInstances
              && snapshot.Ok? && snapshot.value.snapshotArn != ""
              && c.exportArgs == ExportArgs(cfg.awsInstances[env].id, snapshot.value.snapshotArn,
                                        cfg.awsInstances[env].region, cfg.exportTask.iamRoleArn,
                                        cfg.awsInstances[env].kmsKeyId, cfg.awsInstances[env].s3BucketName,
                                        cfg.exportTask.s3Prefix)
    ensures env in cfg.awsInstances && snapshot.Ok? && snapshot.value.snapshotArn != "" ==>
              var inst := cfg.awsInstances[env];
              && |calls| == 2 && calls[1].StartExport?
              && resp == (if exportResult.Err? then ExportFailed(exportResult.error, inst)
                          else ExportStarted(exportResult.value, snapshot.value.snapshotArn, inst))
  {
    if env !in cfg.awsInstances {
      return InvalidEnvironment(), [];
    }
    var instanceConfig := cfg.awsInstances[env];
    calls := [GetSnapshotInfo(instanceConfig.id, instanceConfig.region)];
    if snapshot.Err? {
      return SnapshotQueryFailed(snapshot.error, instanceConfig), calls;
    }
    var snapshotInfo := snapshot.value;
    if snapshotInfo.snapshotArn == "" {
      return NoSnapshotsFound(instanceConfig), calls;
    }
    calls := calls + [StartExport(ExportArgs(instanceConfig.id, snapshotInfo.snapshotArn, instanceConfig.region,
                                             cfg.exportTask.iamRoleArn, instanceConfig.kmsKeyId,
                                             instanceConfig.s3BucketName, cfg.exportTask.s3Prefix))];
    if exportResult.Err? {
      return ExportFailed(exportResult.error, instanceConfig), calls;
    }
    resp := ExportStarted(exportResult.value, snapshotInfo.snapshotArn, instanceConfig);
  }

  // ---------------------------------------------------------------------------
  // Copying an Alibaba Cloud backup to S3

  function S3ConfigMissing(): Response
  {
    Response(StatusInternalServerError, map["error" := JStr("S3 configuration is missing")])
  }

  predicate S3ConfigPresent(s3: S3Export)
  {
    s3.region != "" && s3.bucketName != ""
  }

  function BackupQueryFailed(details: string): Response
  {
    Response(StatusInternalServerError, map["error" := JStr("failed to get backup URLs"), "details" := JStr(details)])
  }

  function NoBackupFound(): Response
  {
    Response(StatusNotFound, map["error" := JStr("no backup found")])
  }

  function UploadFailed(details: string): Response
  {
    Response(StatusInternalServerError, map["error" := JStr("failed to upload to S3"), "details" := JStr(details)])
  }

  function UploadCompleted(s3: S3Export, result: UploadResult): Response
  {
    Response(StatusOK, map["message" := JStr("Backup upload completed"),
                           "s3_bucket" := JStr(s3.bucketName),
                           "s3_key" := JStr(result.s3Key),
                           "location" := JStr(result.location),
                           "region" := JStr(s3.region)])
  }

  /** `AliRDSExportToS3Handler`; `backup` is what GetLastBackupURLs returns and
      `upload` what UploadBackupToS3 returns. The checks run in the order
      environment, S3 configuration, query, public download URL, upload. */
  method AliRdsExportToS3Handler(cfg: Config, env: string, backup: Result<BackupRecord>, upload: Result<UploadResult>)
    returns (resp: Response, calls: seq<Call>)
    ensures env !in cfg.aliyunInstances ==> resp == InvalidEnvironment() && calls == []
    ensures env in cfg.aliyunInstances && !S3ConfigPresent(cfg.s3Export) ==> resp == S3ConfigMissing() && calls == []
    ensures env in cfg.aliyunInstances && S3ConfigPresent(cfg.s3Export) ==>
              && |calls| >= 1 && calls[0] == GetBackupUrls(cfg.aliyunInstances[env].id)
              && (backup.Err? ==> resp == BackupQueryFailed(backup.error) && |calls| == 1)
              && (backup.Ok? && backup.value.downloadUrl == "" ==> resp == NoBackupFound() && |calls| == 1)
    ensures forall c :: c in calls && c.UploadToS3? ==>
              && env in cfg.aliyunInstances && S3ConfigPresent(cfg.s3Export)
              && backup.Ok? && backup.value.downloadUrl != ""
              && c.uploadArgs == UploadArgs(backup.value.downloadUrl, cfg.s3Export.bucketName, cfg.s3Export.region,
                                        env, backup.value.startTime)
    ensures env in cfg.aliyunInstances && S3ConfigPresent(cfg.s3Export) && backup.Ok? && backup.value.downloadUrl != "" ==>
              && |calls| == 2 && calls[1].UploadToS3?
              && resp == (if upload.Err? then UploadFailed(upload.error) else UploadCompleted(cfg.s3Export, upload.value))
  {
    if env !in cfg.aliyunInstances {
      return InvalidEnvironment(), [];
    }
    var instanceConfig := cfg.aliyunInstances[env];
    var s3Config := cfg.s3Export;
    if s3Config.region == "" || s3Config.bucketName == "" {
      return S3ConfigMissing(), [];
    }
    calls := [GetBackupUrls(instanceConfig.id)];
    if backup.Err? {
      return BackupQueryFailed(backup.error), calls;
    }
    var backupUrls := backup.value;
    if backupUrls.downloadUrl == "" {
      return NoBackupFound(), calls;
    }
    calls := calls + [UploadToS3(UploadArgs(backupUrls.downloadUrl, s3Config.bucketName, s3Config.region,
                                            env, backupUrls.startTime))];
    if upload.Err? {
      return UploadFailed(upload.error), calls;
    }
    resp := UploadCompleted(s3Config, upload.value);
  }

  // ---------------------------------------------------------------------------
  // Configuration views

  function S3ConfigBody(s3: S3Export): map<string, Json>
  {
    map["region" := JStr(s3.region), "bucket_name" := JStr(s3.bucketName)]
  }

  /** `GetS3ConfigHandler`: the configured region and bucket, or 500 naming what
      is configured when either is blank. */
  method GetS3ConfigHandler(cfg: Config) returns (resp: Response)
    ensures S3ConfigPresent(cfg.s3Export) <==> resp.status == StatusOK
    ensures S3ConfigPresent(cfg.s3Export) ==> resp.body == S3ConfigBody(cfg.s3Export)
    ensures !S3ConfigPresent(cfg.s3Export) ==>
              resp == Response(StatusInternalServerError, map["error" := JStr("S3 configuration is missing"),
                                                              "details" := JObj(S3ConfigBody(cfg.s3Export))])
  {
    var s3Config := cfg.s3Export;
    if s3Config.region == "" || s3Config.bucketName == "" {
      return Response(StatusInternalServerError, map["error" := JStr("S3 configuration is missing"),
                                                     "details" := JObj(S3ConfigBody(s3Config))]);
    }
    resp := Response(StatusOK, S3ConfigBody(s3Config));
  }

  predicate NoDuplicates(s: seq<string>)
  {
    forall i, j :: 0 <= i < j < |s| ==> s[i] != s[j]
  }

  /** `for env := range instances { list = append(list, env) }`: every key once,
      in the map's (unspecified) iteration order. */
  method CollectKeys(instances: map<string, InstanceConfig>) returns (keys: seq<string>)
    ensures forall k :: k in keys <==> k in instances
    ensures NoDuplicates(keys)
  {
    keys := [];
    var remaining := instances.Keys;
    while remaining != {}
      invariant remaining <= instances.Keys
      invariant forall k :: k in keys <==> k in instances && k !in remaining
      invariant NoDuplicates(keys)
      decreases |remaining|
    {
      var env :| env in remaining;
      keys := keys + [env];
      remaining := remaining - {env};
    }
  }

  /** `GetInstancesHandler`: the environment names of both providers, each list
      holding every configured name exactly once. */
  method GetInstancesHandler(cfg: Config) returns (resp: Response)
    ensures resp.status == StatusOK && resp.body.Keys == {"aliyun", "aws"}
    ensures resp.body["aliyun"].JList? && resp.body["aws"].JList?
    ensures var aliyun := resp.body["aliyun"].items;
      (forall k :: k in aliyun <==> k in cfg.aliyunInstances) && NoDuplicates(aliyun)
    ensures var aws := resp.body["aws"].items;
      (forall k :: k in aws <==> k in cfg.awsInstances) && NoDuplicates(aws)
  {
    var aliyun := CollectKeys(cfg.aliyunInstances);
    var aws := CollectKeys(cfg.awsInstances);
    resp := Response(StatusOK, map["aliyun" := JList(aliyun), "aws" := JList(aws)]);
  }
}
