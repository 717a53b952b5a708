/**
 * The records of the RDS wastage API (pkg/api/wastage/aws_rds.go), with
 * the cost as an integer. The recommendation also carries the utilisation
 * summaries that pkg/processor/rds_instance_item.go reads, and the request's
 * storage throughput is the float the RDS processor stores there.
 */
module WastageRds {
  import opened Wrappers
  import opened Text
  import opened AwsTypes
  import opened WastageEc2

  /** The cluster types (lines 5-11). */
  const SingleInstance: string := "Single-AZ"
  const MultiAzOneInstance: string := "Multi-AZ"
  const MultiAzTwoInstance: string := "Multi-AZ (readable standbys)"

  /** `AwsRds` (lines 13-29): the instance as the request describes it; the id is hashed. */
  datatype AwsRds = AwsRds(
    hashedInstanceId: string, availabilityZone: string, instanceType: string, engine: string,
    engineVersion: string, licenseModel: string, backupRetentionPeriod: Option<Int32>, clusterType: string,
    performanceInsightsEnabled: bool, performanceInsightsRetentionPeriod: Option<Int32>,
    storageType: Option<string>, storageSize: Option<Int32>, storageIops: Option<Int32>,
    storageThroughput: Option<real>)

  /** `RightsizingAwsRds` (lines 31-47). */
  datatype RightsizingAwsRds = RightsizingAwsRds(
    region: string, instanceType: string, engine: string, engineVersion: string, clusterType: string,
    vcpu: int, memoryGb: int, storageType: Option<string>, storageSize: Option<Int32>,
    storageIops: Option<Int32>, storageThroughput: Option<Int32>, cost: int)

  /** `AwsRdsRightsizingRecommendation` (lines 49-54), with the usage summaries the item shows. */
  datatype AwsRdsRightsizingRecommendation = AwsRdsRightsizingRecommendation(
    current: RightsizingAwsRds, recommended: Option<RightsizingAwsRds>,
    vcpu: Usage, freeMemoryBytes: Usage, freeStorageBytes: Usage, storageIops: Usage, storageThroughputBytes: Usage,
    description: string)

  /** `AwsRdsWastageRequest` (lines 56-61). */
  datatype AwsRdsWastageRequest = AwsRdsWastageRequest(
    instance: AwsRds, metrics: Metrics, region: string, preferences: map<string, Option<string>>)

  /** `AwsRdsWastageResponse` (lines 63-65). */
  datatype AwsRdsWastageResponse = AwsRdsWastageResponse(rightSizing: AwsRdsRightsizingRecommendation)

  /** The response of an item not yet evaluated: Go's zero value. */
  const ZeroRdsResponse: AwsRdsWastageResponse :=
    AwsRdsWastageResponse(
      AwsRdsRightsizingRecommendation(
        RightsizingAwsRds("", "", "", "", "", 0, 0, None, None, None, None, 0), None,
        Usage(None, None, None), Usage(None, None, None), Usage(None, None, None), Usage(None, None, None),
        Usage(None, None, None), ""))
}
