/** s3_uploader.go, the older `uploadBackupToS3`: the same steps as the internal
    uploader but with default multipart settings and no check of the download's
    HTTP status, so any response is streamed to S3. */
module LegacyUploader {
  import opened Wrappers
  import opened Clock
  import Path
  import opened AwsRds
  import opened Uploader

  method UploadBackupToS3(backupUrl: string, bucketName: string, region: string, env: string,
                          backupTime: string, aws: AwsEnvironment, now: DateTime,
                          download: DownloadOutcome, upload: Result<string>)
    returns (result: Result<UploadResult>, steps: seq<Step>)
    ensures !HasCredentials(aws.creds) ==> result == Err(MissingAwsCredentials) && steps == []
    ensures HasCredentials(aws.creds) && aws.loadConfigError.Some? ==>
              result == Err("unable to load SDK config: " + aws.loadConfigError.value) && steps == []
    ensures HasCredentials(aws.creds) && aws.loadConfigError.None? ==> |steps| >= 1 && steps[0] == Download(backupUrl)
    ensures download.DownloadFailed? && |steps| >= 1 ==>
              result == Err("failed to download backup: " + download.error) && steps == [Download(backupUrl)]
    // whatever the status code, a response is uploaded
    ensures download.Downloaded? && |steps| >= 1 ==>
              steps == [Download(backupUrl), PutObject(bucketName, S3Key(env, now), backupUrl)]
    ensures download.Downloaded? && |steps| >= 1 ==>
              result == (if upload.Ok? then Ok(UploadResult(S3Key(env, now), upload.value))
                         else Err("failed to upload to S3: " + upload.error))
  {
    steps := [];
    if !HasCredentials(aws.creds) {
      return Err(MissingAwsCredentials), steps;
    }
    if aws.loadConfigError.Some? {
      return Err("unable to load SDK config: " + aws.loadConfigError.value), steps;
    }
    steps := steps + [Download(backupUrl)];
    if download.DownloadFailed? {
      return Err("failed to download backup: " + download.error), steps;
    }
    var s3Key := Path.Join2(env, "backup-" + env + "-" + CompactStamp(now) + ".xb");
    steps := steps + [PutObject(bucketName, s3Key, backupUrl)];
    if upload.Err? {
      return Err("failed to upload to S3: " + upload.error), steps;
    }
    result := Ok(UploadResult(s3Key, upload.value));
  }
}
