/** The configuration shapes the handlers read (the instance registry). Loading it
    from YAML is not modelled: a handler receives the loaded value. */
module Config {

  /** One configured database instance of an environment. */
  datatype InstanceConfig = InstanceConfig(id: string, region: string, kmsKeyId: string, s3BucketName: string)

  /** Where Alibaba Cloud backups are copied to in S3. */
  datatype S3Export = S3Export(region: string, bucketName: string)

  /** Parameters shared by every AWS snapshot export task. */
  datatype ExportTaskConfig = ExportTaskConfig(s3Prefix: string, iamRoleArn: string)

  /** `Config.RDS`: environment name to instance, per provider. */
  datatype Config = Config(
    aliyunInstances: map<string, InstanceConfig>,
    s3Export: S3Export,
    awsInstances: map<string, InstanceConfig>,
    exportTask: ExportTaskConfig)
}
