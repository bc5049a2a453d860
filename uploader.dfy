/** internal/service/aws/s3_uploader.go: copying a backup artifact from its
    download URL into S3. The HTTP GET, the SDK configuration and the multipart
    upload are inputs (their outcomes); the method records which of the two
    outward steps, download and upload, it took and in what order. */
module Uploader {
  import opened Wrappers
  import opened Strings
  import opened Clock
  import Path
  import opened AwsRds

  /** What `http.Get(backupURL)` gave: an error, or a response with its status. */
  datatype DownloadOutcome = DownloadFailed(error: string) | Downloaded(statusCode: int)

  /** An outward step: fetching the source, or streaming it into bucket/key. */
  datatype Step = Download(url: string) | PutObject(bucket: string, key: string, sourceUrl: string)

  /** `UploadResult{S3Key, Location}`. */
  datatype UploadResult = UploadResult(s3Key: string, location: string)

  const StatusOK := 200

  /** The name of the backup object for an environment: `backup-<env>-<stamp>.xb`. */
  function ObjectName(env: string, now: DateTime): string
  {
    "backup-" + env + "-" + CompactStamp(now) + ".xb"
  }

  /** `path.Join(env, fmt.Sprintf("backup-%s-%s.xb", env, timestamp))`. */
  function S3Key(env: string, now: DateTime): string
  {
    Path.Join2(env, ObjectName(env, now))
  }

  /** For an ordinary environment name the key is `<env>/backup-<env>-<stamp>.xb`. */
  lemma S3KeyOfPlainEnvironment(env: string, now: DateTime)
    requires Path.PlainElement(env) && Valid(now)
    ensures S3Key(env, now) == env + "/" + ObjectName(env, now)
  {
    var name := ObjectName(env, now);
    assert '/' !in name by {
      CompactStampHasNoSlash(now);
    }
    assert name[0] == 'b';
    Path.JoinPlainElements(env, name);
  }

  /** Two readings share a key exactly when they are the same reading: readings
      a second apart never collide. */
  lemma S3KeyDeterminesTime(env: string, t1: DateTime, t2: DateTime)
    requires Path.PlainElement(env) && Valid(t1) && Valid(t2)
    ensures S3Key(env, t1) == S3Key(env, t2) <==> t1 == t2
  {
    if S3Key(env, t1) == S3Key(env, t2) {
      var n1, n2 := ObjectName(env, t1), ObjectName(env, t2);
      S3KeyOfPlainEnvironment(env, t1);
      S3KeyOfPlainEnvironment(env, t2);
      var k := S3Key(env, t1);
      assert n1 == k[|env| + 1..] == n2;
      var s1, s2 := CompactStamp(t1), CompactStamp(t2);
      CompactStampRoundTrip(t1);
      CompactStampRoundTrip(t2);
      var lead := "backup-" + env + "-";
      assert n1 == lead + s1 + ".xb";
      assert n2 == lead + s2 + ".xb";
      assert s1 == n1[|lead|..|lead| + 15];
      assert s2 == n2[|lead|..|lead| + 15];
    }
  }

  /** The key at 2024-03-20 10:00:00 (for "prod": prod/backup-prod-20240320-100000.xb). */
  lemma S3KeyExample(env: string)
    requires Path.PlainElement(env)
    ensures var now := DateTime(2024, 3, 20, 10, 0, 0);
      && S3Key(env, now) == env + "/" + ObjectName(env, now)
      && ObjectName(env, now) == "backup-" + env + "-20240320-100000.xb"
  {
    var now := DateTime(2024, 3, 20, 10, 0, 0);
    ObjectNameExample(env);
    S3KeyOfPlainEnvironment(env, now);
  }

  lemma ObjectNameExample(env: string)
    ensures ObjectName(env, DateTime(2024, 3, 20, 10, 0, 0)) == "backup-" + env + "-20240320-100000.xb"
  {
    CompactStampExample();
  }

  /** `UploadBackupToS3(backupURL, bucketName, region, env, backupTime)`.
      `aws` holds the credentials and the SDK configuration outcome, `now` the
      clock, `download` the GET's outcome, `upload` what the multipart upload
      returns (the object's location, or the error). */
  method UploadBackupToS3(backupUrl: string, bucketName: string, region: string, env: string,
                          backupTime: string, aws: AwsEnvironment, now: DateTime,
                          download: DownloadOutcome, upload: Result<string>)
    returns (result: Result<UploadResult>, steps: seq<Step>)
    // nothing is fetched without credentials and an SDK configuration
    ensures !HasCredentials(aws.creds) ==> result == Err(MissingAwsCredentials) && steps == []
    ensures HasCredentials(aws.creds) && aws.loadConfigError.Some? ==>
              result == Err("unable to load SDK config: " + aws.loadConfigError.value) && steps == []
    ensures HasCredentials(aws.creds) && aws.loadConfigError.None? ==> |steps| >= 1 && steps[0] == Download(backupUrl)
    // a failed or non-200 download is never uploaded
    ensures download.DownloadFailed? && |steps| >= 1 ==>
              result == Err("failed to download backup: " + download.error) && steps == [Download(backupUrl)]
    ensures download.Downloaded? && download.statusCode != StatusOK && |steps| >= 1 ==>
              result == Err("failed to download backup, status code: " + IntToString(download.statusCode))
              && steps == [Download(backupUrl)]
    // otherwise the body is streamed to the derived key, which is what is reported
    ensures download == Downloaded(StatusOK) && |steps| >= 1 ==>
              steps == [Download(backupUrl), PutObject(bucketName, S3Key(env, now), backupUrl)]
    ensures download == Downloaded(StatusOK) && |steps| >= 1 ==>
              result == (if upload.Ok? then Ok(UploadResult(S3Key(env, now), upload.value))
                         else Err("failed to upload to S3: " + upload.error))
    ensures result.Ok? ==> result.value.s3Key == S3Key(env, now) && PutObject(bucketName, result.value.s3Key, backupUrl) in steps
  {
    steps := [];
    if !HasCredentials(aws.creds) {
      return Err(MissingAwsCredentials), steps;
    }
    if aws.loadConfigError.Some? {
      return Err("unable to load SDK config: " + aws.loadConfigError.value), steps;
    }
    steps := steps + [Download(backupUrl)];
    if download.DownloadFailed? {
      return Err("failed to download backup: " + download.error), steps;
    }
    if download.statusCode != StatusOK {
      return Err("failed to download backup, status code: " + IntToString(download.statusCode)), steps;
    }
    var s3Key := Path.Join2(env, "backup-" + env + "-" + CompactStamp(now) + ".xb");
    steps := steps + [PutObject(bucketName, s3Key, backupUrl)];
    if upload.Err? {
      return Err("failed to upload to S3: " + upload.error), steps;
    }
    result := Ok(UploadResult(s3Key, upload.value));
  }
}
