/** The conversions between v1beta1 and the hub version v1beta2: what a trip keeps and exactly when
    it keeps everything. `Up` is v1beta1 to v1beta2, `Down` the other way, each into a new object. */
module Conversion {
  import opened Basics
  import opened ApiCommon
  import A = V1Beta1
  import B = V1Beta2

  // ----- slices -----

  /** Element-wise conversion of a slice: nil stays nil, length and order stay. */
  function MapSlice<S, T>(f: S -> T, s: Slice<S>): Slice<T> {
    match s
    case NilSlice => NilSlice
    case Elems(elems) => Elems(seq(|elems|, i requires 0 <= i < |elems| => f(elems[i])))
  }

  function MapOption<S, T>(f: S -> T, x: Option<S>): Option<T> {
    if x.Some? then Some(f(x.value)) else None
  }

  /** Two conversions in a row leave a slice alone exactly when they leave each element alone. */
  lemma MapSliceRoundTrip<S(!new), T(!new)>(f: S -> T, g: T -> S, s: Slice<S>)
    ensures MapSlice(g, MapSlice(f, s)) == s <==> (s.Elems? ==> forall x :: x in s.elems ==> g(f(x)) == x)
  {
    if s.Elems? {
      var r := MapSlice(g, MapSlice(f, s)).elems;
      assert |r| == |s.elems| && forall i :: 0 <= i < |r| ==> r[i] == g(f(s.elems[i]));
      if r == s.elems {
        forall x | x in s.elems ensures g(f(x)) == x {
          var i :| 0 <= i < |s.elems| && s.elems[i] == x;
        }
      }
    }
  }

  /** If three conversions in a row give what the first gives on each element, they do so on slices. */
  lemma MapSliceStable<S(!new), T(!new)>(f: S -> T, g: T -> S, s: Slice<S>)
    requires forall x :: f(g(f(x))) == f(x)
    ensures MapSlice(f, MapSlice(g, MapSlice(f, s))) == MapSlice(f, s)
  {
  }

  // ----- conditions -----

  const UNKNOWN := "Unknown"

  function UpCondition(c: A.Condition): B.Condition {
    B.Condition(c.kind, c.status, 0, c.lastTransitionTime,
                if c.reason == "" then UNKNOWN else c.reason, if c.message == "" then UNKNOWN else c.message)
  }

  function DownCondition(c: B.Condition): A.Condition {
    A.Condition(c.kind, c.status, "", c.lastTransitionTime, c.reason, c.message)
  }

  function UpConditions(cs: Slice<A.Condition>): Slice<B.Condition> {
    MapSlice(UpCondition, cs)
  }

  function DownConditions(cs: Slice<B.Condition>): Slice<A.Condition> {
    MapSlice(DownCondition, cs)
  }

  predicate KeptDown(c: A.Condition) {
    c.reason != "" && c.message != "" && c.severity == ""
  }

  predicate KeptUp(c: B.Condition) {
    c.reason != "" && c.message != "" && c.observedGeneration == 0
  }

  /** Conditions survive v1beta1 -> hub -> v1beta1 exactly when every reason and message is set and
      no severity is; hub -> v1beta1 -> hub exactly when reasons and messages are set and no
      observed generation is. Three conversions always give what the first one gives. */
  lemma ConditionsRoundTrip(xs: Slice<A.Condition>, ys: Slice<B.Condition>)
    ensures DownConditions(UpConditions(xs)) == xs <==> (xs.Elems? ==> forall c :: c in xs.elems ==> KeptDown(c))
    ensures UpConditions(DownConditions(ys)) == ys <==> (ys.Elems? ==> forall c :: c in ys.elems ==> KeptUp(c))
    ensures UpConditions(DownConditions(UpConditions(xs))) == UpConditions(xs)
    ensures xs.Elems? ==> UpConditions(xs).Elems? && |UpConditions(xs).elems| == |xs.elems|
  {
    MapSliceRoundTrip(UpCondition, DownCondition, xs);
    MapSliceRoundTrip(DownCondition, UpCondition, ys);
    MapSliceStable(UpCondition, DownCondition, xs);
    forall c: A.Condition ensures DownCondition(UpCondition(c)) == c <==> KeptDown(c) {}
    forall c: B.Condition ensures UpCondition(DownCondition(c)) == c <==> KeptUp(c) {}
  }

  /** The hub condition `y` says what the v1beta1 condition `x` does, an empty reason or message as unknown. */
  predicate SaysUp(x: A.Condition, y: B.Condition) {
    && y.kind == x.kind && y.status == x.status && y.lastTransitionTime == x.lastTransitionTime
    && (x.reason != "" ==> y.reason == x.reason) && (x.reason == "" ==> y.reason == "Unknown")
    && (x.message != "" ==> y.message == x.message) && (x.message == "" ==> y.message == "Unknown")
    && y.observedGeneration == 0
  }

  predicate SaysDown(x: B.Condition, y: A.Condition) {
    && y.kind == x.kind && y.status == x.status && y.lastTransitionTime == x.lastTransitionTime
    && y.reason == x.reason && y.message == x.message && y.severity == ""
  }

  /** The slices are both nil, or have the same length, with related elements at each index. */
  ghost predicate Pairwise<S, T>(same: (S, T) -> bool, xs: Slice<S>, ys: Slice<T>) {
    && (xs.NilSlice? <==> ys.NilSlice?)
    && (xs.Elems? && ys.Elems? ==>
          |xs.elems| == |ys.elems| && forall i :: 0 <= i < |xs.elems| ==> same(xs.elems[i], ys.elems[i]))
  }

  /** A conversion that relates every element to its image relates the slices, seen from either side. */
  lemma MapSlicePairs<S(!new), T(!new)>(f: S -> T, same: (S, T) -> bool, s: Slice<S>)
    requires forall x :: same(x, f(x))
    ensures Pairwise(same, s, MapSlice(f, s))
  {
  }

  lemma MapSlicePairsBack<S(!new), T(!new)>(g: T -> S, same: (S, T) -> bool, t: Slice<T>)
    requires forall y :: same(g(y), y)
    ensures Pairwise(same, MapSlice(g, t), t)
  {
  }

  /** Each conversion of conditions on its own says the same at every index. */
  lemma ConditionsSaySame(xs: Slice<A.Condition>, ys: Slice<B.Condition>)
    ensures Pairwise(SaysUp, xs, UpConditions(xs)) && Pairwise(SaysDown, ys, DownConditions(ys))
  {
    MapSlicePairs(UpCondition, SaysUp, xs);
    MapSlicePairs(DownCondition, SaysDown, ys);
  }

  /** The loop of the generated status conversions. */
  method ConvertConditionsUp(cs: Slice<A.Condition>) returns (out: Slice<B.Condition>)
    ensures Pairwise(SaysUp, cs, out)
    ensures out == UpConditions(cs)
  {
    if cs.NilSlice? {
      return NilSlice;
    }
    var converted: seq<B.Condition> := [];
    for i := 0 to |cs.elems|
      invariant |converted| == i && forall k :: 0 <= k < i ==> converted[k] == UpCondition(cs.elems[k])
    {
      converted := converted + [UpCondition(cs.elems[i])];
    }
    return Elems(converted);
  }

  method ConvertConditionsDown(cs: Slice<B.Condition>) returns (out: Slice<A.Condition>)
    ensures Pairwise(SaysDown, cs, out)
    ensures out == DownConditions(cs)
  {
    if cs.NilSlice? {
      return NilSlice;
    }
    var converted: seq<A.Condition> := [];
    for i := 0 to |cs.elems|
      invariant |converted| == i && forall k :: 0 <= k < i ==> converted[k] == DownCondition(cs.elems[k])
    {
      converted := converted + [DownCondition(cs.elems[i])];
    }
    return Elems(converted);
  }

  // ----- images, disks, zones -----

  function UpImage(x: A.Image): B.Image {
    B.Image(x.publisher, x.offer, x.sku, x.id, x.subscriptionID, x.resourceGroup, x.gallery, x.name, x.version,
            x.osType)
  }

  function DownImage(x: B.Image): A.Image {
    A.Image(x.publisher, x.offer, x.sku, x.id, x.subscriptionID, x.resourceGroup, x.gallery, x.name, x.version,
            x.osType)
  }

  /** The managed disk becomes a pointer that is never nil. */
  function UpDisk(x: A.OSDisk): B.OSDisk {
    B.OSDisk(x.name, x.source, x.osType, x.diskSizeGB, Some(B.ManagedDisk(x.managedDisk.storageAccountType)))
  }

  function DownDisk(x: B.OSDisk): A.OSDisk {
    A.OSDisk(x.name, x.source, x.osType, x.diskSizeGB,
             A.ManagedDisk(if x.managedDisk.Some? then x.managedDisk.value.storageAccountType else ""))
  }

  predicate ImageMeaningful(osType: string, id: Option<string>, publisher: Option<string>) {
    osType != "" || id.Some? || publisher.Some?
  }

  predicate DiskMeaningful(name: string, diskSizeGB: int) {
    name != "" || diskSizeGB != 0
  }

  /** A machine's image is set on the hub only if it has meaningful content. */
  function UpMachineImage(x: A.Image): Option<B.Image> {
    if ImageMeaningful(x.osType, x.id, x.publisher) then Some(UpImage(x)) else None
  }

  function UpOptionalDisk(x: A.OSDisk): Option<B.OSDisk> {
    if DiskMeaningful(x.name, x.diskSizeGB) then Some(UpDisk(x)) else None
  }

  function UpZone(x: A.AvailabilityZone): Option<B.AvailabilityZone> {
    if x.id.Some? || x.enabled.Some? then Some(B.AvailabilityZone(x.id, x.enabled)) else None
  }

  function DownOptionalImage(x: Option<B.Image>): A.Image {
    if x.Some? then DownImage(x.value) else A.ZERO_IMAGE
  }

  function DownOptionalDisk(x: Option<B.OSDisk>): A.OSDisk {
    if x.Some? then DownDisk(x.value) else A.ZERO_DISK
  }

  function DownZone(x: Option<B.AvailabilityZone>): A.AvailabilityZone {
    if x.Some? then A.AvailabilityZone(x.value.id, x.value.enabled) else A.ZERO_ZONE
  }

  // ----- network interfaces -----

  function UpIp(x: A.IpConfiguration): B.IpConfiguration {
    B.IpConfiguration(x.name, x.primary, x.allocation, x.ipAddress, x.prefixLength, x.subnetId, x.gateway)
  }

  function DownIp(x: B.IpConfiguration): A.IpConfiguration {
    A.IpConfiguration(x.name, x.primary, x.allocation, x.ipAddress, x.prefixLength, x.subnetId, x.gateway)
  }

  function UpOptIp(x: Option<A.IpConfiguration>): Option<B.IpConfiguration> { MapOption(UpIp, x) }
  function DownOptIp(x: Option<B.IpConfiguration>): Option<A.IpConfiguration> { MapOption(DownIp, x) }

  function UpNic(x: A.NetworkInterface): B.NetworkInterface {
    B.NetworkInterface(x.name, MapSlice(UpOptIp, x.ipConfigurations))
  }

  function DownNic(x: B.NetworkInterface): A.NetworkInterface {
    A.NetworkInterface(x.name, MapSlice(DownOptIp, x.ipConfigurations))
  }

  function UpOptNic(x: Option<A.NetworkInterface>): Option<B.NetworkInterface> { MapOption(UpNic, x) }
  function DownOptNic(x: Option<B.NetworkInterface>): Option<A.NetworkInterface> { MapOption(DownNic, x) }

  function UpNics(x: A.NetworkInterfaces): B.NetworkInterfaces { MapSlice(UpOptNic, x) }
  function DownNics(x: B.NetworkInterfaces): A.NetworkInterfaces { MapSlice(DownOptNic, x) }

  /** Field by field the same IP configuration. */
  predicate SameIp(x: A.IpConfiguration, y: B.IpConfiguration) {
    && y.name == x.name && y.primary == x.primary && y.allocation == x.allocation && y.ipAddress == x.ipAddress
    && y.prefixLength == x.prefixLength && y.subnetId == x.subnetId && y.gateway == x.gateway
  }

  /** Both entries are nil, or the same IP configuration. */
  predicate SameOptIp(x: Option<A.IpConfiguration>, y: Option<B.IpConfiguration>) {
    (x.None? <==> y.None?) && (x.Some? && y.Some? ==> SameIp(x.value, y.value))
  }

  /** Both entries are nil, or have the same name and the same IP configurations at the same indices. */
  ghost predicate SameOptNic(x: Option<A.NetworkInterface>, y: Option<B.NetworkInterface>) {
    && (x.None? <==> y.None?)
    && (x.Some? && y.Some? ==>
          && y.value.name == x.value.name
          && Pairwise(SameOptIp, x.value.ipConfigurations, y.value.ipConfigurations))
  }

  ghost predicate SameNics(x: A.NetworkInterfaces, y: B.NetworkInterfaces) {
    Pairwise(SameOptNic, x, y)
  }

  /** Each conversion on its own keeps every field at every index. */
  lemma NicsKept(x: A.NetworkInterfaces, y: B.NetworkInterfaces)
    ensures SameNics(x, UpNics(x)) && SameNics(DownNics(y), y)
  {
    forall n: Option<A.NetworkInterface> ensures SameOptNic(n, UpOptNic(n)) {
      if n.Some? { MapSlicePairs(UpOptIp, SameOptIp, n.value.ipConfigurations); }
    }
    forall n: Option<B.NetworkInterface> ensures SameOptNic(DownOptNic(n), n) {
      if n.Some? { MapSlicePairsBack(DownOptIp, SameOptIp, n.value.ipConfigurations); }
    }
    MapSlicePairs(UpOptNic, SameOptNic, x);
    MapSlicePairsBack(DownOptNic, SameOptNic, y);
  }

  /** The network interface conversion is a bijection, nil lists, nil entries and empty lists included. */
  lemma NetworkInterfacesBijection(x: A.NetworkInterfaces, y: B.NetworkInterfaces)
    ensures DownNics(UpNics(x)) == x
    ensures UpNics(DownNics(y)) == y
  {
    forall n: Option<A.NetworkInterface> ensures DownOptNic(UpOptNic(n)) == n {
      if n.Some? { MapSliceRoundTrip(UpOptIp, DownOptIp, n.value.ipConfigurations); }
    }
    forall n: Option<B.NetworkInterface> ensures UpOptNic(DownOptNic(n)) == n {
      if n.Some? { MapSliceRoundTrip(DownOptIp, UpOptIp, n.value.ipConfigurations); }
    }
    MapSliceRoundTrip(UpOptNic, DownOptNic, x);
    MapSliceRoundTrip(DownOptNic, UpOptNic, y);
  }

  /** The nested loops of the spec conversions, upwards. */
  method ConvertNicsUp(nics: A.NetworkInterfaces) returns (out: B.NetworkInterfaces)
    ensures SameNics(nics, out)
    ensures out == UpNics(nics)
  {
    if nics.NilSlice? {
      return NilSlice;
    }
    var converted: seq<Option<B.NetworkInterface>> := [];
    for i := 0 to |nics.elems|
      invariant |converted| == i && forall k :: 0 <= k < i ==> converted[k] == UpOptNic(nics.elems[k])
    {
      var outNic: Option<B.NetworkInterface> := None;
      if nics.elems[i].Some? {
        var ips := ConvertIpsUp(nics.elems[i].value.ipConfigurations);
        outNic := Some(B.NetworkInterface(nics.elems[i].value.name, ips));
      }
      converted := converted + [outNic];
    }
    out := Elems(converted);
    assert out == UpNics(nics);
    NicsKept(nics, NilSlice);
  }

  method ConvertIpsUp(ips: Slice<Option<A.IpConfiguration>>) returns (out: Slice<Option<B.IpConfiguration>>)
    ensures Pairwise(SameOptIp, ips, out)
    ensures out == MapSlice(UpOptIp, ips)
  {
    if ips.NilSlice? {
      return NilSlice;
    }
    var converted: seq<Option<B.IpConfiguration>> := [];
    for j := 0 to |ips.elems|
      invariant |converted| == j && forall k :: 0 <= k < j ==> converted[k] == UpOptIp(ips.elems[k])
    {
      var outIp: Option<B.IpConfiguration> := None;
      if ips.elems[j].Some? {
        var x := ips.elems[j].value;
        outIp := Some(B.IpConfiguration(
          x.name, x.primary, x.allocation, x.ipAddress, x.prefixLength, x.subnetId, x.gateway));
      }
      converted := converted + [outIp];
    }
    return Elems(converted);
  }

  /** The same loops, downwards. */
  method ConvertNicsDown(nics: B.NetworkInterfaces) returns (out: A.NetworkInterfaces)
    ensures SameNics(out, nics)
    ensures out == DownNics(nics)
  {
    if nics.NilSlice? {
      return NilSlice;
    }
    var converted: seq<Option<A.NetworkInterface>> := [];
    for i := 0 to |nics.elems|
      invariant |converted| == i && forall k :: 0 <= k < i ==> converted[k] == DownOptNic(nics.elems[k])
    {
      var outNic: Option<A.NetworkInterface> := None;
      if nics.elems[i].Some? {
        var ips := ConvertIpsDown(nics.elems[i].value.ipConfigurations);
        outNic := Some(A.NetworkInterface(nics.elems[i].value.name, ips));
      }
      converted := converted + [outNic];
    }
    out := Elems(converted);
    assert out == DownNics(nics);
    NicsKept(NilSlice, nics);
  }

  method ConvertIpsDown(ips: Slice<Option<B.IpConfiguration>>) returns (out: Slice<Option<A.IpConfiguration>>)
    ensures Pairwise(SameOptIp, out, ips)
    ensures out == MapSlice(DownOptIp, ips)
  {
    if ips.NilSlice? {
      return NilSlice;
    }
    var converted: seq<Option<A.IpConfiguration>> := [];
    for j := 0 to |ips.elems|
      invariant |converted| == j && forall k :: 0 <= k < j ==> converted[k] == DownOptIp(ips.elems[k])
    {
      var outIp: Option<A.IpConfiguration> := None;
      if ips.elems[j].Some? {
        var x := ips.elems[j].value;
        outIp := Some(A.IpConfiguration(
          x.name, x.primary, x.allocation, x.ipAddress, x.prefixLength, x.subnetId, x.gateway));
      }
      converted := converted + [outIp];
    }
    return Elems(converted);
  }

  // ----- specs -----

  function UpMachineSpec(x: A.MachineSpec): B.MachineSpec {
    B.MachineSpec(x.fields, UpZone(x.availabilityZone), UpMachineImage(x.image), UpOptionalDisk(x.osDisk),
                  UpNics(x.networkInterfaces))
  }

  function DownMachineSpec(x: B.MachineSpec): A.MachineSpec {
    A.MachineSpec(x.fields, DownZone(x.availabilityZone), DownOptionalImage(x.image), DownOptionalDisk(x.osDisk),
                  DownNics(x.networkInterfaces))
  }

  /** A virtual machine's image is always set on the hub. */
  function UpVMSpec(x: A.VMSpec): B.VMSpec {
    B.VMSpec(x.fields, UpZone(x.availabilityZone), Some(UpImage(x.image)), UpOptionalDisk(x.osDisk),
             UpNics(x.networkInterfaces))
  }

  function DownVMSpec(x: B.VMSpec): A.VMSpec {
    A.VMSpec(x.fields, DownZone(x.availabilityZone), DownOptionalImage(x.image), DownOptionalDisk(x.osDisk),
             DownNics(x.networkInterfaces))
  }

  function UpLBSpec(x: A.LBSpec): B.LBSpec {
    B.LBSpec(x.fields, Some(UpImage(x.image)))
  }

  function DownLBSpec(x: B.LBSpec): A.LBSpec {
    A.LBSpec(x.fields, DownOptionalImage(x.image))
  }

  predicate ImageKept(x: A.Image) {
    ImageMeaningful(x.osType, x.id, x.publisher) || x == A.ZERO_IMAGE
  }

  predicate DiskKept(x: A.OSDisk) {
    DiskMeaningful(x.name, x.diskSizeGB) || x == A.ZERO_DISK
  }

  /** A hub disk, zone or image that v1beta1 can express. */
  predicate HubDiskKept(x: Option<B.OSDisk>) {
    x.Some? ==> DiskMeaningful(x.value.name, x.value.diskSizeGB) && x.value.managedDisk.Some?
  }

  predicate HubZoneKept(x: Option<B.AvailabilityZone>) {
    x.Some? ==> x.value.id.Some? || x.value.enabled.Some?
  }

  predicate HubImageKept(x: Option<B.Image>) {
    x.Some? ==> ImageMeaningful(x.value.osType, x.value.id, x.value.publisher)
  }

  lemma PartsRoundTrip(image: A.Image, disk: A.OSDisk, zone: A.AvailabilityZone)
    ensures DownOptionalImage(UpMachineImage(image)) == image <==> ImageKept(image)
    ensures DownOptionalDisk(UpOptionalDisk(disk)) == disk <==> DiskKept(disk)
    ensures DownZone(UpZone(zone)) == zone
  {
  }

  lemma HubPartsRoundTrip(image: Option<B.Image>, disk: Option<B.OSDisk>, zone: Option<B.AvailabilityZone>)
    ensures UpMachineImage(DownOptionalImage(image)) == image <==> HubImageKept(image)
    ensures UpOptionalDisk(DownOptionalDisk(disk)) == disk <==> HubDiskKept(disk)
    ensures UpZone(DownZone(zone)) == zone <==> HubZoneKept(zone)
  {
  }

  /** Machine specs: v1beta1 -> hub -> v1beta1 is the identity exactly when the image is zero or
      meaningful and the OS disk is; hub -> v1beta1 -> hub exactly when every pointer that is set
      points to something v1beta1 can tell from nil. */
  lemma MachineSpecRoundTrip(x: A.MachineSpec, y: B.MachineSpec)
    ensures DownMachineSpec(UpMachineSpec(x)) == x <==> ImageKept(x.image) && DiskKept(x.osDisk)
    ensures UpMachineSpec(DownMachineSpec(y)) == y
       <==> HubImageKept(y.image) && HubDiskKept(y.osDisk) && HubZoneKept(y.availabilityZone)
    ensures UpMachineSpec(DownMachineSpec(UpMachineSpec(x))) == UpMachineSpec(x)
  {
    PartsRoundTrip(x.image, x.osDisk, x.availabilityZone);
    HubPartsRoundTrip(y.image, y.osDisk, y.availabilityZone);
    NetworkInterfacesBijection(x.networkInterfaces, y.networkInterfaces);
    var u := UpMachineSpec(x);
    HubPartsRoundTrip(u.image, u.osDisk, u.availabilityZone);
  }

  lemma VMSpecRoundTrip(x: A.VMSpec, y: B.VMSpec)
    ensures DownVMSpec(UpVMSpec(x)) == x <==> DiskKept(x.osDisk)
    ensures UpVMSpec(DownVMSpec(y)) == y
       <==> y.image.Some? && HubDiskKept(y.osDisk) && HubZoneKept(y.availabilityZone)
    ensures UpVMSpec(DownVMSpec(UpVMSpec(x))) == UpVMSpec(x)
  {
    PartsRoundTrip(x.image, x.osDisk, x.availabilityZone);
    HubPartsRoundTrip(y.image, y.osDisk, y.availabilityZone);
    NetworkInterfacesBijection(x.networkInterfaces, y.networkInterfaces);
    var u := UpVMSpec(x);
    HubPartsRoundTrip(u.image, u.osDisk, u.availabilityZone);
    assert y.image.Some? ==> UpImage(DownImage(y.image.value)) == y.image.value;
  }

  lemma LBSpecRoundTrip(x: A.LBSpec, y: B.LBSpec)
    ensures DownLBSpec(UpLBSpec(x)) == x
    ensures UpLBSpec(DownLBSpec(y)) == y <==> y.image.Some?
  {
    assert y.image.Some? ==> UpImage(DownImage(y.image.value)) == y.image.value;
  }

  // ----- what each conversion keeps, field by field -----

  predicate SameImage(x: A.Image, y: B.Image) {
    && y.publisher == x.publisher && y.offer == x.offer && y.sku == x.sku && y.id == x.id
    && y.subscriptionID == x.subscriptionID && y.resourceGroup == x.resourceGroup && y.gallery == x.gallery
    && y.name == x.name && y.version == x.version && y.osType == x.osType
  }

  predicate SameDisk(x: A.OSDisk, y: B.OSDisk) {
    y.name == x.name && y.source == x.source && y.osType == x.osType && y.diskSizeGB == x.diskSizeGB
  }

  /** Upwards: a pointer is set exactly when there is something to point to, and then to the same. */
  predicate DiskUp(x: A.OSDisk, y: Option<B.OSDisk>) {
    && (y.Some? <==> x.name != "" || x.diskSizeGB != 0)
    && (y.Some? ==>
          && SameDisk(x, y.value) && y.value.managedDisk.Some?
          && y.value.managedDisk.value.storageAccountType == x.managedDisk.storageAccountType)
  }

  predicate ZoneUp(x: A.AvailabilityZone, y: Option<B.AvailabilityZone>) {
    && (y.Some? <==> x.id.Some? || x.enabled.Some?)
    && (y.Some? ==> y.value.id == x.id && y.value.enabled == x.enabled)
  }

  /** Downwards: a nil pointer becomes the zero value. */
  predicate ImageDown(y: Option<B.Image>, x: A.Image) {
    (y.Some? ==> SameImage(x, y.value)) && (y.None? ==> x == A.ZERO_IMAGE)
  }

  predicate DiskDown(y: Option<B.OSDisk>, x: A.OSDisk) {
    && (y.Some? ==>
          && SameDisk(x, y.value)
          && x.managedDisk.storageAccountType ==
               if y.value.managedDisk.Some? then y.value.managedDisk.value.storageAccountType else "")
    && (y.None? ==> x == A.ZERO_DISK)
  }

  predicate ZoneDown(y: Option<B.AvailabilityZone>, x: A.AvailabilityZone) {
    (y.Some? ==> x.id == y.value.id && x.enabled == y.value.enabled) && (y.None? ==> x == A.ZERO_ZONE)
  }

  /** Specs upwards: a machine's image is set exactly with an OS type, an ID or a publisher, the image of a virtual
      machine or a load balancer always. */
  lemma SpecsUp(m: A.MachineSpec, v: A.VMSpec, l: A.LBSpec)
    ensures var y := UpMachineSpec(m);
      && y.fields == m.fields && SameNics(m.networkInterfaces, y.networkInterfaces)
      && ZoneUp(m.availabilityZone, y.availabilityZone) && DiskUp(m.osDisk, y.osDisk)
      && (y.image.Some? <==> m.image.osType != "" || m.image.id.Some? || m.image.publisher.Some?)
      && (y.image.Some? ==> SameImage(m.image, y.image.value))
    ensures var y := UpVMSpec(v);
      && y.fields == v.fields && SameNics(v.networkInterfaces, y.networkInterfaces)
      && ZoneUp(v.availabilityZone, y.availabilityZone) && DiskUp(v.osDisk, y.osDisk)
      && y.image.Some? && SameImage(v.image, y.image.value)
    ensures var y := UpLBSpec(l); y.fields == l.fields && y.image.Some? && SameImage(l.image, y.image.value)
  {
    NicsKept(m.networkInterfaces, NilSlice);
    NicsKept(v.networkInterfaces, NilSlice);
  }

  /** Specs downwards. */
  lemma SpecsDown(m: B.MachineSpec, v: B.VMSpec, l: B.LBSpec)
    ensures var x := DownMachineSpec(m);
      && x.fields == m.fields && SameNics(x.networkInterfaces, m.networkInterfaces)
      && ZoneDown(m.availabilityZone, x.availabilityZone) && DiskDown(m.osDisk, x.osDisk) && ImageDown(m.image, x.image)
    ensures var x := DownVMSpec(v);
      && x.fields == v.fields && SameNics(x.networkInterfaces, v.networkInterfaces)
      && ZoneDown(v.availabilityZone, x.availabilityZone) && DiskDown(v.osDisk, x.osDisk) && ImageDown(v.image, x.image)
    ensures var x := DownLBSpec(l); x.fields == l.fields && ImageDown(l.image, x.image)
  {
    NicsKept(NilSlice, m.networkInterfaces);
    NicsKept(NilSlice, v.networkInterfaces);
  }

  // ----- the meaning of an image -----

  /** What `getVMImage` makes of an image: the custom one, or the default for an OS type. */
  datatype ImageChoice = Custom(image: B.Image) | Default(osType: string)

  const OS_TYPE_LINUX := "Linux"

  function ChooseImage(image: Option<B.Image>): ImageChoice {
    if image.Some? && image.value.name.Some? && image.value.name.value != "" then Custom(image.value)
    else Default(if image.Some? then image.value.osType else OS_TYPE_LINUX)
  }

  /** A trip of the hub resource through v1beta1 keeps the image its VMs are built from exactly when, for
      a machine, the image is absent or meaningful, and for a load balancer, it is present: an absent
      one comes back with an empty OS type in place of the Linux default. */
  lemma TripKeepsImageChoice(machine: B.MachineSpec, lb: B.LBSpec)
    ensures ChooseImage(UpMachineSpec(DownMachineSpec(machine)).image) == ChooseImage(machine.image)
       <==> HubImageKept(machine.image)
    ensures ChooseImage(UpLBSpec(DownLBSpec(lb)).image) == ChooseImage(lb.image) <==> lb.image.Some?
  {
    HubPartsRoundTrip(machine.image, None, None);
    if lb.image.Some? { LBSpecRoundTrip(DownLBSpec(lb), lb); }
    assert OS_TYPE_LINUX != "";
  }

  /** A machine image given by name only is lost for the default, and a load balancer without image comes back
      with the default of an empty OS type. */
  lemma TripLosesImageChoice(machine: B.MachineSpec, lb: B.LBSpec)
    requires machine.image == Some(B.Image(None, None, None, None, None, None, None, Some("image"), None, ""))
    requires lb.image == None
    ensures ChooseImage(machine.image) == Custom(machine.image.value)
    ensures ChooseImage(UpMachineSpec(DownMachineSpec(machine)).image) == Default(OS_TYPE_LINUX)
    ensures ChooseImage(lb.image) == Default(OS_TYPE_LINUX)
    ensures ChooseImage(UpLBSpec(DownLBSpec(lb)).image) == Default("")
  {
  }

  // ----- statuses -----

  const READY := "Ready"

  predicate IsReady(kind: string, status: ConditionStatus) {
    kind == READY && status.ConditionTrue?
  }

  /** A true `Ready` condition is present. */
  predicate HubReady(cs: Slice<B.Condition>) {
    cs.Elems? && exists i :: 0 <= i < |cs.elems| && IsReady(cs.elems[i].kind, cs.elems[i].status)
  }

  predicate OldReady(cs: Slice<A.Condition>) {
    cs.Elems? && exists i :: 0 <= i < |cs.elems| && IsReady(cs.elems[i].kind, cs.elems[i].status)
  }

  function UpClusterStatus(x: A.ClusterStatus): B.ClusterStatus {
    B.ClusterStatus(x.phase, UpConditions(x.conditions), if x.ready then B.PROVISIONED else None)
  }

  function DownClusterStatus(x: B.ClusterStatus): A.ClusterStatus {
    A.ClusterStatus(HubReady(x.conditions), x.phase, DownConditions(x.conditions))
  }

  function UpMachineStatus(x: A.MachineStatus): B.MachineStatus {
    B.MachineStatus(x.ready, x.addresses, x.vmState, UpConditions(x.conditions),
                    if x.ready then B.PROVISIONED else None)
  }

  function DownMachineStatus(x: B.MachineStatus): A.MachineStatus {
    A.MachineStatus(x.ready, x.addresses, x.vmState, DownConditions(x.conditions), None, None)
  }

  /** Statuses upwards: ready becomes the provisioned mark, the failure fields of a machine go. */
  lemma StatusesUp(c: A.ClusterStatus, m: A.MachineStatus)
    ensures var y := UpClusterStatus(c);
      && y.phase == c.phase && Pairwise(SaysUp, c.conditions, y.conditions)
      && y.initialization == if c.ready then Some(B.Initialization(Some(true))) else None
    ensures var y := UpMachineStatus(m);
      && y.ready == m.ready && y.addresses == m.addresses && y.vmState == m.vmState
      && Pairwise(SaysUp, m.conditions, y.conditions)
      && y.initialization == if m.ready then Some(B.Initialization(Some(true))) else None
  {
    ConditionsSaySame(c.conditions, NilSlice);
    ConditionsSaySame(m.conditions, NilSlice);
  }

  /** Statuses downwards: a cluster is ready exactly with a true `Ready` condition, a machine as its flag says. */
  lemma StatusesDown(c: B.ClusterStatus, m: B.MachineStatus)
    ensures var x := DownClusterStatus(c);
      && x.phase == c.phase && Pairwise(SaysDown, c.conditions, x.conditions)
      && (x.ready <==> (c.conditions.Elems? &&
                        exists d :: d in c.conditions.elems && d.kind == "Ready" && d.status == ConditionTrue))
    ensures var x := DownMachineStatus(m);
      && x.ready == m.ready && x.addresses == m.addresses && x.vmState == m.vmState
      && Pairwise(SaysDown, m.conditions, x.conditions) && x.failureReason.None? && x.failureMessage.None?
  {
    ConditionsSaySame(NilSlice, c.conditions);
    ConditionsSaySame(NilSlice, m.conditions);
    if c.conditions.Elems? {
      if d :| d in c.conditions.elems && d.kind == "Ready" && d.status == ConditionTrue {
        var i :| 0 <= i < |c.conditions.elems| && c.conditions.elems[i] == d;
        assert IsReady(c.conditions.elems[i].kind, c.conditions.elems[i].status);
      }
    }
  }

  /** The scan for the `Ready` condition. */
  method ScanReady(cs: Slice<B.Condition>) returns (ready: bool)
    ensures ready == HubReady(cs)
  {
    if cs.NilSlice? {
      return false;
    }
    for i := 0 to |cs.elems|
      invariant forall k :: 0 <= k < i ==> !IsReady(cs.elems[k].kind, cs.elems[k].status)
    {
      if cs.elems[i].kind == READY && cs.elems[i].status.ConditionTrue? {
        return true;
      }
    }
    return false;
  }

  lemma ReadyPreserved(xs: Slice<A.Condition>, ys: Slice<B.Condition>)
    ensures HubReady(UpConditions(xs)) <==> OldReady(xs)
    ensures OldReady(DownConditions(ys)) <==> HubReady(ys)
  {
    if xs.Elems? {
      var us := UpConditions(xs).elems;
      assert forall i :: 0 <= i < |us| ==> us[i] == UpCondition(xs.elems[i]);
      assert forall i :: 0 <= i < |us| ==>
        IsReady(us[i].kind, us[i].status) == IsReady(xs.elems[i].kind, xs.elems[i].status);
    }
    if ys.Elems? {
      var ds := DownConditions(ys).elems;
      assert forall i :: 0 <= i < |ds| ==> ds[i] == DownCondition(ys.elems[i]);
      assert forall i :: 0 <= i < |ds| ==>
        IsReady(ds[i].kind, ds[i].status) == IsReady(ys.elems[i].kind, ys.elems[i].status);
    }
  }

  /** The cluster's `Initialization` survives hub -> v1beta1 -> hub exactly when it says provisioned and a
      true `Ready` condition is there, or says nothing and none is. Likewise a v1beta1 status reaches
      the hub with the same `Initialization` the first and the second time exactly when its ready
      flag agrees with its `Ready` condition. */
  lemma ClusterInitializationRoundTrip(x: A.ClusterStatus, y: B.ClusterStatus)
    ensures UpClusterStatus(DownClusterStatus(y)).initialization == y.initialization
       <==> y.initialization == if HubReady(y.conditions) then B.PROVISIONED else None
    ensures UpClusterStatus(DownClusterStatus(UpClusterStatus(x))) == UpClusterStatus(x)
       <==> x.ready == OldReady(x.conditions)
    ensures DownClusterStatus(UpClusterStatus(x)).ready == x.ready <==> x.ready == OldReady(x.conditions)
  {
    ReadyPreserved(x.conditions, y.conditions);
    ConditionsRoundTrip(x.conditions, y.conditions);
  }

  /** A cluster that is ready in v1beta1, without any condition, is provisioned on the hub, and no longer after
      one more trip. */
  lemma TripUnprovisionsCluster()
    ensures var x := A.ClusterStatus(true, "provisioned", NilSlice);
      && UpClusterStatus(x).initialization == B.PROVISIONED
      && UpClusterStatus(DownClusterStatus(UpClusterStatus(x))).initialization == None
  {
  }

  /** A whole cluster status survives a trip exactly when moreover its conditions do. */
  lemma ClusterStatusRoundTrip(x: A.ClusterStatus, y: B.ClusterStatus)
    ensures UpClusterStatus(DownClusterStatus(y)) == y <==>
      && y.initialization == (if HubReady(y.conditions) then B.PROVISIONED else None)
      && (y.conditions.Elems? ==> forall c :: c in y.conditions.elems ==> KeptUp(c))
    ensures DownClusterStatus(UpClusterStatus(x)) == x <==>
      && x.ready == OldReady(x.conditions)
      && (x.conditions.Elems? ==> forall c :: c in x.conditions.elems ==> KeptDown(c))
  {
    ReadyPreserved(x.conditions, y.conditions);
    ConditionsRoundTrip(x.conditions, y.conditions);
  }

  /** The machine's survives exactly when it says provisioned just in case the ready flag is set; and a
      machine status comes back whole exactly when, from the hub, moreover its conditions do, and from
      v1beta1, they do and it records no failure. */
  lemma MachineStatusRoundTrip(x: A.MachineStatus, y: B.MachineStatus)
    ensures UpMachineStatus(DownMachineStatus(y)).initialization == y.initialization
       <==> y.initialization == if y.ready then B.PROVISIONED else None
    ensures UpMachineStatus(DownMachineStatus(y)) == y <==>
      && y.initialization == (if y.ready then B.PROVISIONED else None)
      && (y.conditions.Elems? ==> forall c :: c in y.conditions.elems ==> KeptUp(c))
    ensures UpMachineStatus(DownMachineStatus(UpMachineStatus(x))) == UpMachineStatus(x)
    ensures DownMachineStatus(UpMachineStatus(x)) == x <==>
      && x.failureReason.None? && x.failureMessage.None?
      && (x.conditions.Elems? ==> forall c :: c in x.conditions.elems ==> KeptDown(c))
  {
    ConditionsRoundTrip(x.conditions, y.conditions);
  }
}
