/** The Alibaba Cloud backup query of rds_client.go: a credential check, one
    DescribeBackups call, and the mapping of its first item to a flat record. The
    SDK's client construction and the call itself are inputs. */
module AliyunQuery {
  import opened Wrappers

  /** The three result keys BackupStartTime, BackupDownloadURL and
      BackupIntranetDownloadURL. */
  datatype BackupRecord = BackupRecord(startTime: string, downloadUrl: string, intranetDownloadUrl: string)

  /** One element of the response's Items.Backup list (a nil field reads as ""). */
  datatype BackupItem = BackupItem(backupStartTime: string, backupDownloadUrl: string, backupIntranetDownloadUrl: string)

  /** How a failed SDK call presents itself: a `tea.SDKError` with its (possibly
      nil) Message, or any other error with its text. */
  datatype ApiError = SdkError(message: Option<string>) | OtherError(text: string)

  /** The environment variables ALIBABA_CLOUD_ACCESS_KEY_ID and _SECRET. */
  datatype Credentials = Credentials(accessKeyId: string, accessKeySecret: string)

  /** `DescribeBackupsRequest{DBInstanceId: instanceID}`. */
  datatype DescribeBackupsRequest = DescribeBackupsRequest(dbInstanceId: string)

  /** What one query did: its result, and the request sent, if one was. */
  datatype QueryRun = QueryRun(result: Result<BackupRecord>, request: Option<DescribeBackupsRequest>)

  const MissingCredentials := "missing required environment variables: ALIBABA_CLOUD_ACCESS_KEY_ID or ALIBABA_CLOUD_ACCESS_KEY_SECRET"

  /** A record with both download URLs blank means "no backup found yet". */
  predicate IsBlank(r: BackupRecord)
  {
    r.downloadUrl == "" && r.intranetDownloadUrl == ""
  }

  /** `CreateClient`: no client without both credentials; `newClientError` is what
      the SDK's `NewClient` reports. */
  function CreateClient(creds: Credentials, newClientError: Option<string>): (r: Result<()>)
    ensures (creds.accessKeyId == "" || creds.accessKeySecret == "") ==> r == Err(MissingCredentials)
    ensures r.Ok? <==> creds.accessKeyId != "" && creds.accessKeySecret != "" && newClientError.None?
  {
    if creds.accessKeyId == "" || creds.accessKeySecret == "" then Err(MissingCredentials)
    else if newClientError.Some? then Err(newClientError.value)
    else Ok(())
  }

  /** The outcome of DescribeBackupsWithOptions. */
  datatype DescribeOutcome = Described(items: seq<BackupItem>) | CallFailed(error: ApiError)

  /** The text after "API request error: " for a failed call: the SDK error's
      message, or the text of any other error. */
  function ApiErrorMessage(e: ApiError): string
  {
    match e
    case SdkError(m) => if m.Some? then m.value else ""
    case OtherError(t) => t
  }

  /** `getLastBackupURLs(instanceID)`. No request is sent without a client; a failed
      call is reported with the SDK's message; an empty list is a blank record, not
      an error; otherwise the first item is taken as the latest backup. */
  function GetLastBackupURLs(instanceId: string, creds: Credentials, newClientError: Option<string>,
                             describe: DescribeOutcome): (run: QueryRun)
    ensures run.request.Some? <==> CreateClient(creds, newClientError).Ok?
    ensures run.request.Some? ==> run.request.value.dbInstanceId == instanceId
    ensures CreateClient(creds, newClientError).Err? ==>
              run.result == Err("failed to create RDS client: " + CreateClient(creds, newClientError).error)
    ensures (creds.accessKeyId == "" || creds.accessKeySecret == "") ==>
              run.result == Err("failed to create RDS client: " + MissingCredentials)
    ensures run.request.Some? && describe.CallFailed? ==>
              run.result == Err("API request error: " + ApiErrorMessage(describe.error))
    ensures run.request.Some? && describe == Described([]) ==>
              run.result.Ok? && IsBlank(run.result.value) && run.result.value.startTime == ""
    ensures run.request.Some? && describe.Described? && |describe.items| > 0 ==>
              var first := describe.items[0];
              run.result == Ok(BackupRecord(first.backupStartTime, first.backupDownloadUrl, first.backupIntranetDownloadUrl))
  {
    var client := CreateClient(creds, newClientError);
    if client.Err? then QueryRun(Err("failed to create RDS client: " + client.error), None)
    else
      var request := Some(DescribeBackupsRequest(instanceId));
      match describe
      case CallFailed(e) => QueryRun(Err("API request error: " + ApiErrorMessage(e)), request)
      case Described(items) =>
        if |items| == 0 then QueryRun(Ok(BackupRecord("", "", "")), request)
        else
          var first := items[0];
          QueryRun(Ok(BackupRecord(first.backupStartTime, first.backupDownloadUrl, first.backupIntranetDownloadUrl)), request)
  }

  /** The query never fails on a successful call: whether a backup was found is
      told only by the blank record, and it is blank exactly when the list is
      empty or its first item has no download URL at all. */
  lemma SuccessfulCallNeverFails(instanceId: string, creds: Credentials, newClientError: Option<string>,
                                 items: seq<BackupItem>)
    requires CreateClient(creds, newClientError).Ok?
    ensures var run := GetLastBackupURLs(instanceId, creds, newClientError, Described(items));
      && run.result.Ok?
      && (IsBlank(run.result.value) <==>
            |items| == 0 || (items[0].backupDownloadUrl == "" && items[0].backupIntranetDownloadUrl == ""))
  {
  }
}
