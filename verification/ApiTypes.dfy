/** Fields both API versions share: their Go types have the same layout. */
module ApiCommon {
  import opened Basics

  datatype ConditionStatus = ConditionTrue | ConditionFalse | ConditionUnknown

  datatype NodeAddress = NodeAddress(kind: string, address: string)

  /** The pass-through fields of a machine spec. */
  datatype MachineFields = MachineFields(
    providerID: Option<string>, vmSize: string, location: string, sshPublicKey: string, storageContainer: string,
    gpuCount: int, allocatePublicIP: bool, additionalSSHKeys: Slice<string>, availabilitySetName: string,
    placementGroupName: string)

  /** The pass-through fields of a virtual machine spec. */
  datatype VMFields = VMFields(
    vmSize: string, bootstrapData: Option<string>, identity: string, location: string, sshPublicKey: string,
    storageContainer: string, gpuCount: int, resourceGroup: string, vnetName: string, clusterName: string,
    subnetName: string, backendPoolNames: Slice<string>, additionalSSHKeys: Slice<string>,
    availabilitySetName: string, placementGroupName: string)

  /** The pass-through fields of a load balancer spec. */
  datatype LBFields = LBFields(sshPublicKey: string, vmSize: string, storageContainer: string, replicas: Option<int>)
}

/** API version v1beta1, where image, OS disk and availability zone are values. */
module V1Beta1 {
  import opened Basics
  import opened ApiCommon

  datatype Image = Image(
    publisher: Option<string>, offer: Option<string>, sku: Option<string>, id: Option<string>,
    subscriptionID: Option<string>, resourceGroup: Option<string>, gallery: Option<string>, name: Option<string>,
    version: Option<string>, osType: string)

  datatype AvailabilityZone = AvailabilityZone(id: Option<string>, enabled: Option<bool>)

  datatype ManagedDisk = ManagedDisk(storageAccountType: string)

  datatype OSDisk = OSDisk(name: string, source: string, osType: string, diskSizeGB: int, managedDisk: ManagedDisk)

  datatype IpConfiguration = IpConfiguration(
    name: string, primary: bool, allocation: int, ipAddress: string, prefixLength: string, subnetId: string,
    gateway: string)

  datatype NetworkInterface = NetworkInterface(name: string, ipConfigurations: Slice<Option<IpConfiguration>>)

  type NetworkInterfaces = Slice<Option<NetworkInterface>>

  datatype Condition = Condition(
    kind: string, status: ConditionStatus, severity: string, lastTransitionTime: int, reason: string, message: string)

  datatype MachineSpec = MachineSpec(
    fields: MachineFields, availabilityZone: AvailabilityZone, image: Image, osDisk: OSDisk,
    networkInterfaces: NetworkInterfaces)

  datatype VMSpec = VMSpec(
    fields: VMFields, availabilityZone: AvailabilityZone, image: Image, osDisk: OSDisk,
    networkInterfaces: NetworkInterfaces)

  datatype LBSpec = LBSpec(fields: LBFields, image: Image)

  datatype ClusterStatus = ClusterStatus(ready: bool, phase: string, conditions: Slice<Condition>)

  datatype MachineStatus = MachineStatus(
    ready: bool, addresses: Slice<NodeAddress>, vmState: Option<string>, conditions: Slice<Condition>,
    failureReason: Option<string>, failureMessage: Option<string>)

  const ZERO_IMAGE := Image(None, None, None, None, None, None, None, None, None, "")
  const ZERO_ZONE := AvailabilityZone(None, None)
  const ZERO_DISK := OSDisk("", "", "", 0, ManagedDisk(""))
}

/** API version v1beta2, the hub, where they are pointers and readiness is `Initialization`. */
module V1Beta2 {
  import opened Basics
  import opened ApiCommon

  datatype Image = Image(
    publisher: Option<string>, offer: Option<string>, sku: Option<string>, id: Option<string>,
    subscriptionID: Option<string>, resourceGroup: Option<string>, gallery: Option<string>, name: Option<string>,
    version: Option<string>, osType: string)

  datatype AvailabilityZone = AvailabilityZone(id: Option<string>, enabled: Option<bool>)

  datatype ManagedDisk = ManagedDisk(storageAccountType: string)

  datatype OSDisk = OSDisk(
    name: string, source: string, osType: string, diskSizeGB: int, managedDisk: Option<ManagedDisk>)

  datatype IpConfiguration = IpConfiguration(
    name: string, primary: bool, allocation: int, ipAddress: string, prefixLength: string, subnetId: string,
    gateway: string)

  datatype NetworkInterface = NetworkInterface(name: string, ipConfigurations: Slice<Option<IpConfiguration>>)

  type NetworkInterfaces = Slice<Option<NetworkInterface>>

  /** `metav1.Condition`: no severity, but an observed generation. */
  datatype Condition = Condition(
    kind: string, status: ConditionStatus, observedGeneration: int, lastTransitionTime: int, reason: string,
    message: string)

  datatype MachineSpec = MachineSpec(
    fields: MachineFields, availabilityZone: Option<AvailabilityZone>, image: Option<Image>, osDisk: Option<OSDisk>,
    networkInterfaces: NetworkInterfaces)

  datatype VMSpec = VMSpec(
    fields: VMFields, availabilityZone: Option<AvailabilityZone>, image: Option<Image>, osDisk: Option<OSDisk>,
    networkInterfaces: NetworkInterfaces)

  datatype LBSpec = LBSpec(fields: LBFields, image: Option<Image>)

  /** `Initialization`: a pointer to a struct whose only field is a pointer to a bool. */
  datatype Initialization = Initialization(provisioned: Option<bool>)

  datatype ClusterStatus = ClusterStatus(
    phase: string, conditions: Slice<Condition>, initialization: Option<Initialization>)

  datatype MachineStatus = MachineStatus(
    ready: bool, addresses: Slice<NodeAddress>, vmState: Option<string>, conditions: Slice<Condition>,
    initialization: Option<Initialization>)

  const PROVISIONED := Some(Initialization(Some(true)))
}
