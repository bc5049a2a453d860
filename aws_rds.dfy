/** internal/service/aws/aws_rds_client.go: the AWS RDS client's credential check,
    the snapshot export request (identifier and S3 prefix derivation) and the
    selection of the latest available automated snapshot. The SDK calls are
    inputs: what LoadDefaultConfig, DescribeDBSnapshots and StartExportTask return. */
module AwsRds {
  import opened Wrappers
  import opened Strings
  import opened Clock

  /** The environment variables AWS_ACCESS_KEY_ID and AWS_SECRET_ACCESS_KEY. */
  datatype AwsCredentials = AwsCredentials(accessKeyId: string, secretAccessKey: string)

  /** What building an AWS client needs from outside: the credentials, and the
      error LoadDefaultConfig reports, if any. */
  datatype AwsEnvironment = AwsEnvironment(creds: AwsCredentials, loadConfigError: Option<string>)

  datatype RdsClient = RdsClient(region: string)

  const MissingAwsCredentials := "missing required environment variables: AWS_ACCESS_KEY_ID or AWS_SECRET_ACCESS_KEY"

  predicate HasCredentials(creds: AwsCredentials)
  {
    creds.accessKeyId != "" && creds.secretAccessKey != ""
  }

  /** `createAWSClient(region)`: no client without both credentials. */
  function CreateAwsClient(region: string, env: AwsEnvironment): (r: Result<RdsClient>)
    ensures r.Ok? <==> HasCredentials(env.creds) && env.loadConfigError.None?
    ensures r.Ok? ==> r.value.region == region
    ensures !HasCredentials(env.creds) ==> r == Err(MissingAwsCredentials)
    ensures HasCredentials(env.creds) && env.loadConfigError.Some? ==>
              r == Err("failed to load AWS config: " + env.loadConfigError.value)
  {
    if !HasCredentials(env.creds) then Err(MissingAwsCredentials)
    else if env.loadConfigError.Some? then Err("failed to load AWS config: " + env.loadConfigError.value)
    else Ok(RdsClient(region))
  }

  // ---------------------------------------------------------------------------
  // Export task identifier and S3 prefix

  /** The longest instance id kept whole in an export task identifier. */
  const ShortIdLimit := 20

  /** The key part of an instance id: short ids are kept; a longer (ARN-like) id
      is cut to its last ':'-separated segment, and that to its last 20 characters. */
  function ShortInstanceId(instanceId: string): (r: string)
    ensures |r| <= ShortIdLimit
    ensures HasSuffix(instanceId, r)
  {
    if |instanceId| > ShortIdLimit then
      var segment := LastSegment(instanceId, ':');
      LastSegmentIsMaximalSuffix(instanceId, ':');
      if |segment| > ShortIdLimit then segment[|segment| - ShortIdLimit..] else segment
    else instanceId
  }

  /** An id of at most 20 characters is used unchanged, colons and all. */
  lemma ShortIdOfShortInstance(instanceId: string)
    requires |instanceId| <= ShortIdLimit
    ensures ShortInstanceId(instanceId) == instanceId
  {
  }

  /** A longer id gives a colon-free suffix of its last segment: the whole segment
      when that fits, otherwise exactly its last 20 characters. */
  lemma ShortIdOfLongInstance(instanceId: string)
    requires |instanceId| > ShortIdLimit
    ensures var segment := LastSegment(instanceId, ':');
      var r := ShortInstanceId(instanceId);
      && ':' !in r
      && HasSuffix(segment, r)
      && (|segment| <= ShortIdLimit ==> r == segment)
      && (|segment| > ShortIdLimit ==> |r| == ShortIdLimit)
  {
    var segment := LastSegment(instanceId, ':');
    LastSegmentIsMaximalSuffix(instanceId, ':');
    var r := ShortInstanceId(instanceId);
    if |segment| > ShortIdLimit {
      assert r == segment[|segment| - ShortIdLimit..];
      assert forall c :: c in r ==> c in segment;
    } else {
      assert r == segment;
    }
  }

  /** `fmt.Sprintf("exp-%s-%s", shortInstanceID, time.Now().Format("0102-1504"))`. */
  function ExportTaskIdentifier(instanceId: string, now: DateTime): string
  {
    "exp-" + ShortInstanceId(instanceId) + "-" + MinuteStamp(now)
  }

  /** Where the parts of "exp-<id>-<stamp>" sit, for a 9-character stamp. */
  lemma IdentifierLayout(short: string, stamp: string)
    requires |stamp| == 9
    ensures var r := "exp-" + short + "-" + stamp;
      && HasPrefix(r, "exp-")
      && |r| == 4 + |short| + 1 + 9
      && r[|r| - 10] == '-'
      && r[4..|r| - 10] == short
      && r[|r| - 9..] == stamp
  {
    var r := "exp-" + short + "-" + stamp;
    assert r[..4] == "exp-";
    assert r[4..|r| - 10] == short;
    assert r[|r| - 9..] == stamp;
  }

  /** The identifier reads back as "exp-", the short id, '-', and the 9-character
      minute stamp; so it never exceeds 34 characters. */
  lemma ExportTaskIdentifierShape(instanceId: string, now: DateTime)
    requires Valid(now)
    ensures var r := ExportTaskIdentifier(instanceId, now);
      && HasPrefix(r, "exp-")
      && |r| <= 4 + ShortIdLimit + 1 + 9
      && r[|r| - 10] == '-'
      && r[4..|r| - 10] == ShortInstanceId(instanceId)
      && r[|r| - 9..] == MinuteStamp(now)
  {
    MinuteStampShape(now);
    IdentifierLayout(ShortInstanceId(instanceId), MinuteStamp(now));
  }

  /** An id longer than 20 characters whose name after the last ':' fits is cut
      to that name. */
  lemma ShortIdOfNamespacedId(namespace: string, name: string)
    requires ':' !in name && |name| <= ShortIdLimit < |namespace| + 1 + |name|
    ensures ShortInstanceId(namespace + [':'] + name) == name
  {
    LastSegmentAfterSep(namespace, ':', name);
  }

  lemma ExportTaskIdentifierExample(id: string, now: DateTime)
    requires id == "arn:aws:rds:ap-southeast-1:123456789012:db" + [':'] + "myinstance-01"
    requires now == DateTime(2024, 3, 20, 10, 0, 0)
    ensures ExportTaskIdentifier(id, now) == "exp-myinstance-01-0320-1000"
  {
    var ns, name := "arn:aws:rds:ap-southeast-1:123456789012:db", "myinstance-01";
    assert |name| == 13 && |ns| == 42;
    assert ':' !in name by {
      forall i | 0 <= i < |name| ensures name[i] != ':' {}
    }
    ShortIdOfNamespacedId(ns, name);
    MinuteStampExample();
    ExportTaskIdentifierLiteral();
  }

  lemma ExportTaskIdentifierLiteral()
    ensures "exp-" + "myinstance-01" + "-" + "0320-1000" == "exp-myinstance-01-0320-1000"
  {
  }

  lemma MinuteStampExample()
    ensures MinuteStamp(DateTime(2024, 3, 20, 10, 0, 0)) == "0320-1000"
  {
    assert NatToString(3) == "3";
    assert NatToString(0) == "0";
    assert NatToString(2) == "2" && NatToString(1) == "1";
    assert NatToString(20) == "20";
    assert NatToString(10) == "10";
    assert ZeroPad(3, 2) == "03";
    assert ZeroPad(20, 2) == "20";
    assert ZeroPad(10, 2) == "10";
    assert ZeroPad(0, 2) == "00";
  }

  /** `fullS3Prefix`: an empty prefix stays empty; any other prefix ends with
      exactly the '/' it had, or one appended. */
  function FullS3Prefix(s3Prefix: string): (r: string)
    ensures r == (if s3Prefix == "" || HasSuffix(s3Prefix, "/") then s3Prefix else s3Prefix + "/")
  {
    if s3Prefix != "" then TrimSuffix(s3Prefix, "/") + "/" else s3Prefix
  }

  /** A non-empty prefix comes out ending in '/', and normalising twice changes
      nothing. */
  lemma FullS3PrefixIdempotent(s3Prefix: string)
    ensures s3Prefix != "" ==> HasSuffix(FullS3Prefix(s3Prefix), "/")
    ensures FullS3Prefix(FullS3Prefix(s3Prefix)) == FullS3Prefix(s3Prefix)
  {
    var r := FullS3Prefix(s3Prefix);
    if s3Prefix != "" && !HasSuffix(s3Prefix, "/") {
      assert r[|r| - 1..] == "/";
    }
  }

  /** `rds.StartExportTaskInput`. */
  datatype StartExportTaskInput = StartExportTaskInput(
    exportTaskIdentifier: string, iamRoleArn: string, kmsKeyId: string,
    s3BucketName: string, s3Prefix: string, sourceArn: string)

  /** What an export request did: the result, and the request sent, if one was. */
  datatype ExportRun = ExportRun(result: Result<string>, request: Option<StartExportTaskInput>)

  /** `StartRDSSnapshotExport`. `response` is what StartExportTask returns: the
      identifier the service confirms, or the error. No request is sent without a
      client; the request carries the derived identifier and prefix and the other
      arguments unchanged; the result is the confirmed identifier. */
  function StartRDSSnapshotExport(instanceId: string, snapshotArn: string, region: string,
                                  iamRoleArn: string, kmsKeyId: string, s3BucketName: string,
                                  s3Prefix: string, env: AwsEnvironment, now: DateTime,
                                  response: Result<string>): (run: ExportRun)
    ensures run.request.Some? <==> CreateAwsClient(region, env).Ok?
    ensures CreateAwsClient(region, env).Err? ==>
              run.result == Err("startRDSSnapshotExport funcation failed to create AWS RDS client: "
                                + CreateAwsClient(region, env).error)
    ensures run.request.Some? ==>
              run.request.value == StartExportTaskInput(ExportTaskIdentifier(instanceId, now), iamRoleArn,
                                                        kmsKeyId, s3BucketName, FullS3Prefix(s3Prefix), snapshotArn)
    ensures run.request.Some? && response.Ok? ==> run.result == Ok(response.value)
    ensures run.request.Some? && response.Err? ==> run.result == Err("failed to start export task: " + response.error)
  {
    var client := CreateAwsClient(region, env);
    if client.Err? then
      ExportRun(Err("startRDSSnapshotExport funcation failed to create AWS RDS client: " + client.error), None)
    else
      var shortInstanceId := ShortInstanceId(instanceId);
      var identifier := "exp-" + shortInstanceId + "-" + MinuteStamp(now);
      var fullS3Prefix := if s3Prefix != "" then TrimSuffix(s3Prefix, "/") + "/" else s3Prefix;
      var input := StartExportTaskInput(identifier, iamRoleArn, kmsKeyId, s3BucketName, fullS3Prefix, snapshotArn);
      match response
      case Err(e) => ExportRun(Err("failed to start export task: " + e), Some(input))
      case Ok(id) => ExportRun(Ok(id), Some(input))
  }

  // ---------------------------------------------------------------------------
  // Latest snapshot

  /** One element of DescribeDBSnapshots' answer. `createTime` orders snapshots
      by creation; `createTimeText` is its `String()` rendering. */
  datatype DbSnapshot = DbSnapshot(dbSnapshotArn: string, dbSnapshotIdentifier: string,
                                   createTime: int, createTimeText: string, status: string)

  /** The result keys SnapshotArn, SnapshotCreateTime, SnapshotId and Status. */
  datatype SnapshotInfo = SnapshotInfo(snapshotArn: string, snapshotCreateTime: string,
                                       snapshotId: string, status: string)

  const BlankSnapshotInfo := SnapshotInfo("", "", "", "")

  /** `rds.DescribeDBSnapshotsInput`. */
  datatype DescribeDbSnapshotsInput = DescribeDbSnapshotsInput(
    dbInstanceIdentifier: string, snapshotType: string, maxRecords: int,
    includeShared: bool, includePublic: bool)

  predicate Available(s: DbSnapshot)
  {
    s.status == "available"
  }

  function InfoOf(s: DbSnapshot): SnapshotInfo
  {
    SnapshotInfo(s.dbSnapshotArn, s.createTimeText, s.dbSnapshotIdentifier, s.status)
  }

  /** Among the first `n` snapshots, `k` is the pick of the scan: available, created
      no earlier than any available one, and strictly later than every available
      one before it (so of equal times the first listed wins). */
  predicate IsLatestAmong(snapshots: seq<DbSnapshot>, n: nat, k: nat)
    requires n <= |snapshots|
  {
    && k < n
    && Available(snapshots[k])
    && (forall j :: 0 <= j < n && Available(snapshots[j]) ==> snapshots[j].createTime <= snapshots[k].createTime)
    && (forall j :: 0 <= j < k && Available(snapshots[j]) ==> snapshots[j].createTime < snapshots[k].createTime)
  }

  predicate IsLatest(snapshots: seq<DbSnapshot>, k: nat)
  {
    IsLatestAmong(snapshots, |snapshots|, k)
  }

  /** The `for _, snapshot := range resp.DBSnapshots` scan: keep an available
      snapshot when there is none yet or it is strictly `After` the kept one. */
  method SelectLatest(snapshots: seq<DbSnapshot>) returns (latest: Option<nat>)
    ensures latest.None? <==> forall j :: 0 <= j < |snapshots| ==> !Available(snapshots[j])
    ensures latest.Some? ==> IsLatest(snapshots, latest.value)
  {
    latest := None;
    for i := 0 to |snapshots|
      invariant latest.None? <==> forall j :: 0 <= j < i ==> !Available(snapshots[j])
      invariant latest.Some? ==> IsLatestAmong(snapshots, i, latest.value)
    {
      var snapshot := snapshots[i];
      if Available(snapshot) {
        if latest.None? || snapshot.createTime > snapshots[latest.value].createTime {
          latest := Some(i);
        }
      }
    }
  }

  /** At most one index is the pick. */
  lemma LatestIsUnique(snapshots: seq<DbSnapshot>, a: nat, b: nat)
    requires IsLatest(snapshots, a) && IsLatest(snapshots, b)
    ensures a == b
  {
  }

  /** Some index is the pick as soon as one snapshot is available. */
  lemma {:induction false} LatestAmongExists(snapshots: seq<DbSnapshot>, n: nat, j: nat)
    requires j < n <= |snapshots| && Available(snapshots[j])
    ensures exists k: nat :: IsLatestAmong(snapshots, n, k)
  {
    if j == n - 1 && forall i :: 0 <= i < n - 1 ==> !Available(snapshots[i]) {
      assert IsLatestAmong(snapshots, n, n - 1);
    } else {
      var j' :| 0 <= j' < n - 1 && Available(snapshots[j']);
      LatestAmongExists(snapshots, n - 1, j');
      var k: nat :| IsLatestAmong(snapshots, n - 1, k);
      var last := snapshots[n - 1];
      if Available(last) && last.createTime > snapshots[k].createTime {
        assert IsLatestAmong(snapshots, n, n - 1);
      } else {
        assert IsLatestAmong(snapshots, n, k);
      }
    }
  }

  /** `GetLatestSnapshotInfo(instanceID, region)`; `describe` is what
      DescribeDBSnapshots returns. No request without a client; a failed call is
      reported with the instance id; no available snapshot is a blank record, not
      an error; otherwise the fields of the pick. */
  method GetLatestSnapshotInfo(instanceId: string, region: string, env: AwsEnvironment,
                               describe: Result<seq<DbSnapshot>>)
    returns (info: Result<SnapshotInfo>, request: Option<DescribeDbSnapshotsInput>)
    ensures request.Some? <==> CreateAwsClient(region, env).Ok?
    ensures CreateAwsClient(region, env).Err? ==>
              info == Err("failed to create AWS RDS client: " + CreateAwsClient(region, env).error)
    ensures request.Some? ==> request.value == DescribeDbSnapshotsInput(instanceId, "automated", 20, true, true)
    ensures request.Some? && describe.Err? ==>
              info == Err("failed to describe DB snapshots: " + describe.error + " (instanceID: " + instanceId + ")")
    ensures request.Some? && describe.Ok? && (forall j :: 0 <= j < |describe.value| ==> !Available(describe.value[j])) ==>
              info == Ok(BlankSnapshotInfo)
    ensures request.Some? && describe.Ok? ==>
              forall k: nat :: IsLatest(describe.value, k) ==> info == Ok(InfoOf(describe.value[k]))
    ensures request.Some? && describe.Ok? && (exists j :: 0 <= j < |describe.value| && Available(describe.value[j])) ==>
              exists k: nat :: IsLatest(describe.value, k) && info == Ok(InfoOf(describe.value[k]))
  {
    var client := CreateAwsClient(region, env);
    if client.Err? {
      return Err("failed to create AWS RDS client: " + client.error), None;
    }
    request := Some(DescribeDbSnapshotsInput(instanceId, "automated", 20, true, true));
    if describe.Err? {
      return Err("failed to describe DB snapshots: " + describe.error + " (instanceID: " + instanceId + ")"), request;
    }
    var latest := SelectLatest(describe.value);
    if latest.None? {
      return Ok(BlankSnapshotInfo), request;
    }
    forall k: nat | IsLatest(describe.value, k) ensures k == latest.value {
      LatestIsUnique(describe.value, k, latest.value);
    }
    info := Ok(InfoOf(describe.value[latest.value]));
  }

  /** The same scan under the loop-variable semantics of Go before 1.22: there is
      one `snapshot` variable for the whole loop, so `latestSnapshot = &snapshot`
      makes the kept pointer follow it. Once set, the comparison is of the
      current element with itself, and after the loop the pointer shows the last
      element listed. `aimed` says whether the pointer has been set. */
  function SelectWithSharedLoopVariable(snapshots: seq<DbSnapshot>, i: nat, aimed: bool): (r: Option<DbSnapshot>)
    requires i <= |snapshots|
    ensures r.Some? ==> |snapshots| > 0 && r.value == snapshots[|snapshots| - 1]
    decreases |snapshots| - i
  {
    if i == |snapshots| then
      if aimed && |snapshots| > 0 then Some(snapshots[|snapshots| - 1]) else None
    else
      var snapshot := snapshots[i];
      if Available(snapshot) && (!aimed || snapshot.createTime > snapshot.createTime) then
        SelectWithSharedLoopVariable(snapshots, i + 1, true)
      else
        SelectWithSharedLoopVariable(snapshots, i + 1, aimed)
  }

  /** With a newer available snapshot listed before an older one still being
      created, the shared-variable scan reports the one being created. */
  lemma SharedLoopVariableCounterexample()
    ensures var snapshots := [DbSnapshot("arn:new", "new", 20, "t20", "available"),
                              DbSnapshot("arn:old", "old", 5, "t5", "creating")];
      && IsLatest(snapshots, 0)
      && SelectWithSharedLoopVariable(snapshots, 0, false) == Some(snapshots[1])
      && !Available(snapshots[1])
  {
  }
}
