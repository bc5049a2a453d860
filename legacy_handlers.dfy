/** handler.go: the older copy of the handlers. Each one makes the same checks in
    the same order as its internal/handlers counterpart, so it runs that model;
    the contracts restate what the old copy promises on its own. Only
    `getS3ConfigHandler` differs: its 500 body carries no details. */
module LegacyHandlers {
  import opened Wrappers
  import opened Config
  import opened AliyunQuery
  import opened AwsRds
  import opened Uploader
  import opened Handlers

  /** `backupHandler`. */
  method BackupHandler(cfg: Config, env: string, attempts: seq<Result<BackupRecord>>)
    returns (resp: Option<Response>, calls: seq<Call>)
    requires MaxRetries <= |attempts|
    ensures env !in cfg.aliyunInstances ==> resp == Some(InvalidEnvironment()) && calls == []
    ensures env in cfg.aliyunInstances ==>
              && resp == RetryOutcome(attempts, MaxRetries)
              && resp.Some?
              && |calls| == AttemptsMade(attempts, MaxRetries)
              && forall c :: c in calls ==> c == GetBackupUrls(cfg.aliyunInstances[env].id)
  {
    if env !in cfg.aliyunInstances {
      return Some(InvalidEnvironment()), [];
    }
    resp, calls := RetryBackupQuery(cfg.aliyunInstances[env].id, MaxRetries, attempts);
  }

  /** `awsBackupHandler`. */
  method AwsBackupHandler(cfg: Config, env: string, snapshot: Result<SnapshotInfo>)
    returns (resp: Response, calls: seq<Call>)
    ensures env !in cfg.awsInstances ==> resp == InvalidEnvironment() && calls == []
    ensures env in cfg.awsInstances ==>
              var inst := cfg.awsInstances[env];
              && calls == [GetSnapshotInfo(inst.id, inst.region)]
              && resp == (if snapshot.Err? then SnapshotQueryFailed(snapshot.error, inst)
                          else if snapshot.value.snapshotArn == "" then NoSnapshotsFound(inst)
                          else SnapshotFound(snapshot.value, inst))
  {
    resp, calls := Handlers.AwsBackupHandler(cfg, env, snapshot);
  }

  /** `awsExportHandler`: a failed query answers 500 and a blank snapshot ARN 404,
      and in neither case does an export start. */
  method AwsExportHandler(cfg: Config, env: string, snapshot: Result<SnapshotInfo>, exportResult: Result<string>)
    returns (resp: Response, calls: seq<Call>)
    ensures env !in cfg.awsInstances ==> resp == InvalidEnvironment() && calls == []
    ensures env in cfg.awsInstances ==>
              var inst := cfg.awsInstances[env];
              && |calls| >= 1 && calls[0] == GetSnapshotInfo(inst.id, inst.region)
              && (snapshot.Err? ==> resp == SnapshotQueryFailed(snapshot.error, inst) && |calls| == 1)
              && (snapshot.Ok? && snapshot.value.snapshotArn == "" ==> resp == NoSnapshotsFound(inst) && |calls| == 1)
    ensures env in cfg.awsInstances && snapshot.Ok? && snapshot.value.snapshotArn != "" ==>
              var inst := cfg.awsInstances[env];
              && calls == [GetSnapshotInfo(inst.id, inst.region),
                           StartExport(ExportArgs(inst.id, snapshot.value.snapshotArn, inst.region,
                                                  cfg.exportTask.iamRoleArn, inst.kmsKeyId, inst.s3BucketName,
                                                  cfg.exportTask.s3Prefix))]
              && resp == (if exportResult.Err? then ExportFailed(exportResult.error, inst)
                          else ExportStarted(exportResult.value, snapshot.value.snapshotArn, inst))
    ensures forall c :: c in calls && c.StartExport? ==>
              env in cfg.awsInstances && snapshot.Ok? && snapshot.value.snapshotArn != ""
  {
    resp, calls := Handlers.AwsExportHandler(cfg, env, snapshot, exportResult);
  }

  /** `aliRDSExportToS3Handler`: a failed query answers 500 and a blank public
      download URL 404, before any upload; otherwise the backup is uploaded under
      the shared S3 settings and the upload's result is reported. */
  method AliRdsExportToS3Handler(cfg: Config, env: string, backup: Result<BackupRecord>, upload: Result<UploadResult>)
    returns (resp: Response, calls: seq<Call>)
    ensures env !in cfg.aliyunInstances ==> resp == InvalidEnvironment() && calls == []
    ensures env in cfg.aliyunInstances && !S3ConfigPresent(cfg.s3Export) ==> resp == S3ConfigMissing() && calls == []
    ensures env in cfg.aliyunInstances && S3ConfigPresent(cfg.s3Export) ==>
              && |calls| >= 1 && calls[0] == GetBackupUrls(cfg.aliyunInstances[env].id)
              && (backup.Err? ==> resp == BackupQueryFailed(backup.error) && |calls| == 1)
              && (backup.Ok? && backup.value.downloadUrl == "" ==> resp == NoBackupFound() && |calls| == 1)
    ensures env in cfg.aliyunInstances && S3ConfigPresent(cfg.s3Export) && backup.Ok? && backup.value.downloadUrl != "" ==>
              && calls == [GetBackupUrls(cfg.aliyunInstances[env].id),
                           UploadToS3(UploadArgs(backup.value.downloadUrl, cfg.s3Export.bucketName,
                                                 cfg.s3Export.region, env, backup.value.startTime))]
              && resp == (if upload.Err? then UploadFailed(upload.error) else UploadCompleted(cfg.s3Export, upload.value))
    ensures forall c :: c in calls && c.UploadToS3? ==>
              backup.Ok? && backup.value.downloadUrl != "" && c.uploadArgs.backupUrl == backup.value.downloadUrl
  {
    resp, calls := Handlers.AliRdsExportToS3Handler(cfg, env, backup, upload);
  }

  /** `getS3ConfigHandler`: like the internal one, but the 500 body is the bare error. */
  method GetS3ConfigHandler(cfg: Config) returns (resp: Response)
    ensures S3ConfigPresent(cfg.s3Export) ==> resp == Response(StatusOK, S3ConfigBody(cfg.s3Export))
    ensures !S3ConfigPresent(cfg.s3Export) ==> resp == S3ConfigMissing()
  {
    var s3Config := cfg.s3Export;
    if s3Config.region == "" || s3Config.bucketName == "" {
      return S3ConfigMissing();
    }
    resp := Response(StatusOK, S3ConfigBody(s3Config));
  }

  /** `getInstancesHandler`. */
  method GetInstancesHandler(cfg: Config) returns (resp: Response)
    ensures resp.status == StatusOK && resp.body.Keys == {"aliyun", "aws"}
    ensures resp.body["aliyun"].JList? && resp.body["aws"].JList?
    ensures forall k :: k in resp.body["aliyun"].items <==> k in cfg.aliyunInstances
    ensures forall k :: k in resp.body["aws"].items <==> k in cfg.awsInstances
    ensures NoDuplicates(resp.body["aliyun"].items) && NoDuplicates(resp.body["aws"].items)
  {
    resp := Handlers.GetInstancesHandler(cfg);
  }
}
