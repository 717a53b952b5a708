/**
 * The right-sizing records of the EC2 wastage API
 * (pkg/api/wastage/ec2_instance.go), with costs and throughputs as integers
 * and the other floats as exact reals. The instance record also carries the
 * region, licence price and EBS IOPS fields, and the recommendation the EBS
 * IOPS usage, that pkg/processor/ec2_instance_item.go reads.
 * An EBS volume's IOPS is its baseline plus the provisioned IOPS when there
 * are any, computed in 32 bits; its throughput is the baseline plus the
 * provisioned throughput when there is any.
 */
module WastageEc2 {
  import opened Wrappers
  import opened Text
  import opened AwsTypes

  /** A volume as the request describes it (lines 29-36); the id is hashed. */
  datatype Ec2Volume = Ec2Volume(
    hashedVolumeId: string, volumeType: string, size: Option<Int32>, iops: Option<Int32>, throughput: Option<real>)

  /** The placement as the request describes it (lines 8-12); the host id is hashed. */
  datatype Ec2Placement = Ec2Placement(tenancy: string, availabilityZone: string, hashedHostId: string)

  /** The instance as the request describes it (lines 14-27). */
  datatype Ec2Instance = Ec2Instance(
    hashedInstanceId: string, state: string, instanceType: string, platform: string,
    threadsPerCore: Int32, coreCount: Int32, ebsOptimized: bool, instanceLifecycle: string,
    monitoring: Option<string>, placement: Option<Ec2Placement>, usageOperation: string, tenancy: string)

  /** `EC2InstanceWastageRequest` (lines 38-46); the identification map is left out. */
  datatype Ec2InstanceWastageRequest = Ec2InstanceWastageRequest(
    instance: Ec2Instance, volumes: seq<Ec2Volume>, metrics: Metrics, volumeMetrics: map<string, Metrics>,
    region: string, preferences: map<string, Option<string>>)

  datatype RightsizingEc2Instance = RightsizingEc2Instance(
    region: string, instanceType: string, cost: int, processor: string, architecture: string, vcpu: int,
    licensePrice: real, memory: real, ebsBandwidth: string, ebsIops: string, networkThroughput: string,
    enaSupported: string)

  /** A utilisation summary; each statistic may be missing. */
  datatype Usage = Usage(avg: Option<real>, min: Option<real>, max: Option<real>)

  datatype RightSizingRecommendation = RightSizingRecommendation(
    current: RightsizingEc2Instance, recommended: Option<RightsizingEc2Instance>,
    vcpu: Usage, memory: Usage, ebsBandwidth: Usage, ebsIops: Usage, networkThroughput: Usage, description: string)

  datatype RightsizingEbsVolume = RightsizingEbsVolume(
    tier: string, volumeSize: Option<Int32>, baselineIops: Int32, provisionedIops: Option<Int32>,
    baselineThroughput: int, provisionedThroughput: Option<int>, cost: int)
  {
    /** `IOPS` (lines 88-94): the sum wraps around as Go's int32 addition does. */
    function Iops(): (r: Int32)
      ensures provisionedIops.None? ==> r == baselineIops
      ensures provisionedIops.Some? ==> (r - (baselineIops + provisionedIops.value)) % 0x1_0000_0000 == 0
      ensures provisionedIops.Some? && MinInt32 <= baselineIops + provisionedIops.value <= MaxInt32 ==>
                r == baselineIops + provisionedIops.value
    {
      var val := baselineIops;
      if provisionedIops.Some? then Wrap32(val + provisionedIops.value) else val
    }

    /** `Throughput` (lines 96-102). */
    function Throughput(): (r: int)
      ensures provisionedThroughput.None? ==> r == baselineThroughput
      ensures provisionedThroughput.Some? ==> r - provisionedThroughput.value == baselineThroughput
    {
      var val := baselineThroughput;
      if provisionedThroughput.Some? then val + provisionedThroughput.value else val
    }
  }

  datatype EbsVolumeRecommendation = EbsVolumeRecommendation(
    current: RightsizingEbsVolume, recommended: Option<RightsizingEbsVolume>,
    iops: Usage, throughput: Usage, description: string)

  /** The response: the instance's recommendation and one per volume, keyed by hashed volume id. */
  datatype Ec2InstanceWastageResponse = Ec2InstanceWastageResponse(
    rightSizing: RightSizingRecommendation, volumeRightSizing: map<string, EbsVolumeRecommendation>)

  /** The response of an item not yet evaluated: Go's zero value. */
  const ZeroResponse: Ec2InstanceWastageResponse :=
    Ec2InstanceWastageResponse(
      RightSizingRecommendation(RightsizingEc2Instance("", "", 0, "", "", 0, 0.0, 0.0, "", "", "", ""), None,
                                Usage(None, None, None), Usage(None, None, None), Usage(None, None, None),
                                Usage(None, None, None), Usage(None, None, None), ""),
      map[])

  /** A volume whose IOPS fit in 32 bits adds up exactly; past the top they wrap to negative. */
  lemma IopsWraps(v: RightsizingEbsVolume)
    requires v.provisionedIops.Some? && v.baselineIops + v.provisionedIops.value > MaxInt32
    ensures v.Iops() == v.baselineIops + v.provisionedIops.value - 0x1_0000_0000 && v.Iops() < 0
  {
  }
}
