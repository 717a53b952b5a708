/**
 * The AWS SDK records the optimize command reads, as plain values: only the
 * fields the core looks at are kept. A pointer field the code tests for nil
 * is an Option; one it always dereferences is a plain value.
 */
module AwsTypes {
  import opened Wrappers
  import opened Text

  datatype Tag = Tag(key: string, value: Option<string>)

  datatype EbsInstanceBlockDevice = EbsInstanceBlockDevice(volumeId: string)

  datatype BlockDeviceMapping = BlockDeviceMapping(ebs: Option<EbsInstanceBlockDevice>)

  /** The instance states of EC2; only "running" matters here. */
  const Running: string := "running"

  /** The lifecycle of a spot instance. */
  const Spot: string := "spot"

  /** Where an instance runs (the SDK's `types.Placement`). */
  datatype Placement = Placement(tenancy: string, availabilityZone: Option<string>, hostId: Option<string>)

  /**
   * An EC2 instance (the SDK's `types.Instance`). `listed` is true for an
   * instance AWS described, whose id, CPU options, EBS optimisation flag and
   * usage operation are set, and false for Go's zero value, where those
   * pointers are nil and the plain fields read as their zero values.
   */
  datatype Instance = Instance(
    listed: bool, instanceId: string, instanceType: string, platformDetails: Option<string>,
    state: string, lifecycle: string, tags: seq<Tag>,
    coreCount: Int32, threadsPerCore: Int32,
    blockDeviceMappings: seq<BlockDeviceMapping>,
    ebsOptimized: bool, monitoring: Option<string>, placement: Option<Placement>, usageOperation: string)

  datatype Volume = Volume(volumeId: string, volumeType: string, size: Option<Int32>, iops: Option<Int32>,
                           throughput: Option<Int32>)

  /** The replica mode of an RDS instance whose standbys can serve reads. */
  const OpenReadOnly: string := "open-read-only"

  /**
   * An RDS instance (the SDK's `DBInstance`), with the fields the RDS
   * processor reads. `listed` is true for an instance AWS described, whose
   * identifier, zone, class, engine, version, licence and insights flag are
   * set, and false for Go's zero value, where those pointers are nil.
   */
  datatype DbInstance = DbInstance(
    listed: bool, dbInstanceIdentifier: string, dbInstanceClass: string, availabilityZone: string, engine: string,
    engineVersion: string, licenseModel: string, multiAz: Option<bool>, replicaMode: string,
    backupRetentionPeriod: Option<Int32>, performanceInsightsEnabled: bool,
    performanceInsightsRetentionPeriod: Option<Int32>, storageType: Option<string>,
    allocatedStorage: Option<Int32>, iops: Option<Int32>, storageThroughput: Option<Int32>)

  /** A CloudWatch datapoint; only its statistics are kept. */
  datatype Datapoint = Datapoint(average: Option<real>, maximum: Option<real>)

  /** CloudWatch series by metric name. */
  type Metrics = map<string, seq<Datapoint>>

  /** The tag marking an instance of an auto-scaling group. */
  const AutoScalingGroupTag: string := "aws:autoscaling:groupName"

  /**
   * The tag scan of the instance filters: some tag is the auto-scaling
   * group tag with a value that is present and non-empty.
   */
  predicate InAutoScalingGroup(tags: seq<Tag>) {
    exists k :: 0 <= k < |tags| && tags[k].key == AutoScalingGroupTag && tags[k].value.Some? && tags[k].value.value != ""
  }

  /**
   * The instance filter of the optimize command and the EC2 processor: only
   * running, non-spot instances outside any auto-scaling group are optimized.
   */
  predicate Eligible(v: Instance) {
    v.state == Running && v.lifecycle != Spot && !InAutoScalingGroup(v.tags)
  }

  /** The scan as the loops write it: a flag set by any matching tag and never cleared. */
  method ScanAutoScaling(tags: seq<Tag>) returns (isAutoScaling: bool)
    ensures isAutoScaling == InAutoScalingGroup(tags)
  {
    isAutoScaling := false;
    for k := 0 to |tags|
      invariant isAutoScaling <==> exists j :: 0 <= j < k && tags[j].key == AutoScalingGroupTag && tags[j].value.Some? && tags[j].value.value != ""
    {
      if tags[k].key == AutoScalingGroupTag && tags[k].value.Some? && tags[k].value.value != "" {
        isAutoScaling := true;
      }
    }
  }
}
