/** The start task: the message with the most fields, nested objects and lists of devices. */
module StartTask {
  import opened Results
  import opened Yaml
  import opened Pci
  import opened Tasks

  // The fields of a start task in the order they are loaded, in three groups.
  datatype Machine = Machine(
    vmName: Option<string>, vcpus: Option<uint32>, memory: Option<uint64>, memnodeMap: Option<Matrix>)

  datatype Devices = Devices(pciIds: seq<PciId>, pciAddrs: seq<PciAddr>, xml: Option<string>, ivshmem: Option<Ivshmem>)

  datatype Launch = Launch(
    transient: Option<bool>, vcpuMap: Option<Matrix>, probeWithSsh: Option<bool>, probeHostname: Option<string>)

  datatype Start = Start(task: Task, machine: Machine, devices: Devices, launch: Launch)

  const NEW_START :=
    Start(NEW_TASK, Machine(None, None, None, None), Devices([], [], None, None), Launch(None, None, None, None))

  const START_KEYS := TASK_KEYS +
    ["vm-name", "vcpus", "memory", "memnode-map", "xml", "ivshmem", "transient", "pci-ids", "dev", "vcpu-map",
     "probe-with-ssh", "probe-hostname"]

  function NonEmpty<T>(xs: seq<T>, enc: T -> Node): Option<Node> {
    if |xs| == 0 then None else Some(OfList(xs, enc))
  }

  function StartSlots(v: Start): seq<Slot>
  {
    TaskSlots(v.task) +
    [Slot("vm-name", MapOption(v.machine.vmName, OfText)),
     Slot("vcpus", MapOption(v.machine.vcpus, OfUint32)),
     Slot("memory", MapOption(v.machine.memory, OfUint64)),
     Slot("memnode-map", MapOption(v.machine.memnodeMap, OfMatrix)),
     Slot("xml", MapOption(v.devices.xml, OfText)),
     Slot("ivshmem", MapOption(v.devices.ivshmem, EmitIvshmem)),
     Slot("transient", MapOption(v.launch.transient, OfFlag)),
     Slot("pci-ids", NonEmpty(v.devices.pciIds, EmitId)),
     Slot("dev", NonEmpty(v.devices.pciAddrs, EmitAddr)),
     Slot("vcpu-map", MapOption(v.launch.vcpuMap, OfMatrix)),
     Slot("probe-with-ssh", MapOption(v.launch.probeWithSsh, OfFlag)),
     Slot("probe-hostname", MapOption(v.launch.probeHostname, OfText))]
  }

  function EmitStart(v: Start): Node { Map(Present(StartSlots(v))) }

  /** fast::load of a vector with the empty vector as fallback: what is no list counts as missing. */
  function LoadList<T>(n: Node, key: string, dec: Node -> Result<T>): Result<seq<T>> {
    var field :- Field(n, key);
    if field.Some? && field.value.List? then AsAll(field.value.items, dec) else Ok([])
  }

  function LoadMachine(was: Machine, n: Node): Result<Machine> {
    var vmName :- LoadField(was.vmName, n, "vm-name", AsText);
    var vcpus :- LoadField(was.vcpus, n, "vcpus", AsUint32);
    var memory :- LoadField(was.memory, n, "memory", AsUint64);
    var memnodeMap :- LoadField(was.memnodeMap, n, "memnode-map", AsMatrix);
    Ok(Machine(vmName, vcpus, memory, memnodeMap))
  }

  function LoadDevices(was: Devices, n: Node): Result<Devices> {
    var pciIds :- LoadList(n, "pci-ids", LoadId);
    var pciAddrs :- LoadList(n, "devs", LoadAddr);
    var xml :- LoadField(was.xml, n, "xml", AsText);
    var ivshmem :- LoadField(was.ivshmem, n, "ivshmem", ReadIvshmem);
    Ok(Devices(pciIds, pciAddrs, xml, ivshmem))
  }

  function LoadLaunch(was: Launch, n: Node): Result<Launch> {
    var transient :- LoadField(was.transient, n, "transient", AsFlag);
    var vcpuMap :- LoadField(was.vcpuMap, n, "vcpu-map", AsMatrix);
    var probeWithSsh :- LoadField(was.probeWithSsh, n, "probe-with-ssh", AsFlag);
    var probeHostname :- LoadField(was.probeHostname, n, "probe-hostname", AsText);
    Ok(Launch(transient, vcpuMap, probeWithSsh, probeHostname))
  }

  function LoadStart(was: Start, n: Node): Result<Start> {
    var task :- LoadTask(was.task, n);
    var machine :- LoadMachine(was.machine, n);
    var devices :- LoadDevices(was.devices, n);
    var launch :- LoadLaunch(was.launch, n);
    Ok(Start(task, machine, devices, launch))
  }

  /** A list that is there is converted element by element; anything else counts as an empty one. */
  predicate ListFits<T>(n: Node, key: string, dec: Node -> Result<T>) {
    At(n, key).Some? && At(n, key).value.List? ==> forall x | x in At(n, key).value.items :: dec(x).Ok?
  }

  ghost predicate ListTakes<T>(n: Node, key: string, dec: Node -> Result<T>, now: seq<T>) {
    if At(n, key).Some? && At(n, key).value.List? then
      var items := At(n, key).value.items;
      |now| == |items| && forall i | 0 <= i < |items| :: dec(items[i]) == Ok(now[i])
    else now == []
  }

  lemma LoadListByKey<T>(n: Node, key: string, dec: Node -> Result<T>)
    ensures LoadList(n, key, dec).Ok? <==> !n.Scalar? && ListFits(n, key, dec)
    ensures LoadList(n, key, dec).Ok? ==> ListTakes(n, key, dec, LoadList(n, key, dec).value)
  {
    if At(n, key).Some? && At(n, key).value.List? {
      AsAllByIndex(At(n, key).value.items, dec);
    }
  }

  predicate MachineFits(n: Node) {
    && !n.Scalar?
    && Fits(n, "vm-name", AsText)
    && Fits(n, "vcpus", AsUint32)
    && Fits(n, "memory", AsUint64)
    && Fits(n, "memnode-map", AsMatrix)
  }

  /** The state after a load, key by key. */
  ghost predicate MachineTakes(was: Machine, n: Node, now: Machine) {
    && Takes(was.vmName, n, "vm-name", AsText, now.vmName)
    && Takes(was.vcpus, n, "vcpus", AsUint32, now.vcpus)
    && Takes(was.memory, n, "memory", AsUint64, now.memory)
    && Takes(was.memnodeMap, n, "memnode-map", AsMatrix, now.memnodeMap)
  }

  lemma MachineByKey(was: Machine, n: Node)
    ensures LoadMachine(was, n).Ok? <==> MachineFits(n)
    ensures LoadMachine(was, n).Ok? ==> MachineTakes(was, n, LoadMachine(was, n).value)
  {
  }

  predicate DevicesFits(n: Node) {
    && !n.Scalar?
    && ListFits(n, "pci-ids", LoadId)
    && ListFits(n, "devs", LoadAddr)
    && Fits(n, "xml", AsText)
    && Fits(n, "ivshmem", ReadIvshmem)
  }

  /** The state after a load, key by key. */
  ghost predicate DevicesTakes(was: Devices, n: Node, now: Devices) {
    && ListTakes(n, "pci-ids", LoadId, now.pciIds)
    && ListTakes(n, "devs", LoadAddr, now.pciAddrs)
    && Takes(was.xml, n, "xml", AsText, now.xml)
    && Takes(was.ivshmem, n, "ivshmem", ReadIvshmem, now.ivshmem)
  }

  lemma DevicesByKey(was: Devices, n: Node)
    ensures LoadDevices(was, n).Ok? <==> DevicesFits(n)
    ensures LoadDevices(was, n).Ok? ==> DevicesTakes(was, n, LoadDevices(was, n).value)
  {
    LoadListByKey(n, "pci-ids", LoadId);
    LoadListByKey(n, "devs", LoadAddr);
  }

  predicate LaunchFits(n: Node) {
    && !n.Scalar?
    && Fits(n, "transient", AsFlag)
    && Fits(n, "vcpu-map", AsMatrix)
    && Fits(n, "probe-with-ssh", AsFlag)
    && Fits(n, "probe-hostname", AsText)
  }

  /** The state after a load, key by key. */
  ghost predicate LaunchTakes(was: Launch, n: Node, now: Launch) {
    && Takes(was.transient, n, "transient", AsFlag, now.transient)
    && Takes(was.vcpuMap, n, "vcpu-map", AsMatrix, now.vcpuMap)
    && Takes(was.probeWithSsh, n, "probe-with-ssh", AsFlag, now.probeWithSsh)
    && Takes(was.probeHostname, n, "probe-hostname", AsText, now.probeHostname)
  }

  lemma LaunchByKey(was: Launch, n: Node)
    ensures LoadLaunch(was, n).Ok? <==> LaunchFits(n)
    ensures LoadLaunch(was, n).Ok? ==> LaunchTakes(was, n, LoadLaunch(was, n).value)
  {
  }

  predicate StartFits(n: Node) {
    && TaskFits(n)
    && MachineFits(n)
    && DevicesFits(n)
    && LaunchFits(n)
  }

  /** The state after a load, key by key. */
  ghost predicate StartTakes(was: Start, n: Node, now: Start) {
    && TaskTakes(was.task, n, now.task)
    && MachineTakes(was.machine, n, now.machine)
    && DevicesTakes(was.devices, n, now.devices)
    && LaunchTakes(was.launch, n, now.launch)
  }

  lemma StartByKey(was: Start, n: Node)
    ensures LoadStart(was, n).Ok? <==> StartFits(n)
    ensures LoadStart(was, n).Ok? ==> StartTakes(was, n, LoadStart(was, n).value)
  {
    TaskByKey(was.task, n);
    MachineByKey(was.machine, n);
    DevicesByKey(was.devices, n);
    LaunchByKey(was.launch, n);
  }

  lemma StartKeysAreDistinct(v: Start)
    ensures DistinctKeys(StartSlots(v))
  {
    StartKeysDiffer();
    DistinctByKeys(StartSlots(v), START_KEYS);
  }

  lemma StartKeysDiffer()
    ensures Distinct(START_KEYS)
    ensures forall i | 0 <= i < |START_KEYS| :: START_KEYS[i] != "devs"
  {
  }

  lemma IdListRoundTrip(ids: seq<PciId>, n: Node)
    requires n.Map? && Find(n.entries, "pci-ids") == NonEmpty(ids, EmitId)
    ensures LoadList(n, "pci-ids", LoadId) == Ok(ids)
  {
    forall id | id in ids
      ensures LoadId(EmitId(id)) == Ok(id)
    {
      IdRoundTrip(id);
    }
    AllRoundTrip(ids, EmitId, LoadId);
  }

  lemma MachineLoads(v: Start, n: Node)
    requires Carries(n, StartSlots(v))
    ensures LoadMachine(NEW_START.machine, n) == Ok(v.machine)
  {
    var s := StartSlots(v);
    CodecsRoundTrip();
    FieldRoundTrip(v.machine.vmName, n, s[3].key, OfText, AsText);
    FieldRoundTrip(v.machine.vcpus, n, s[4].key, OfUint32, AsUint32);
    FieldRoundTrip(v.machine.memory, n, s[5].key, OfUint64, AsUint64);
    FieldRoundTrip(v.machine.memnodeMap, n, s[6].key, OfMatrix, AsMatrix);
  }

  lemma DevicesLoad(v: Start, n: Node)
    requires Carries(n, StartSlots(v)) && Find(n.entries, "devs").None?
    ensures LoadDevices(NEW_START.devices, n) == Ok(v.devices.(pciAddrs := []))
  {
    var s := StartSlots(v);
    CodecsRoundTrip();
    IvshmemInverse();
    FieldRoundTrip(v.devices.xml, n, s[7].key, OfText, AsText);
    FieldRoundTrip(v.devices.ivshmem, n, s[8].key, EmitIvshmem, ReadIvshmem);
    assert s[10].key == "pci-ids";
    IdListRoundTrip(v.devices.pciIds, n);
  }

  lemma LaunchLoads(v: Start, n: Node)
    requires Carries(n, StartSlots(v))
    ensures LoadLaunch(NEW_START.launch, n) == Ok(v.launch)
  {
    var s := StartSlots(v);
    CodecsRoundTrip();
    FieldRoundTrip(v.launch.transient, n, s[9].key, OfFlag, AsFlag);
    FieldRoundTrip(v.launch.vcpuMap, n, s[12].key, OfMatrix, AsMatrix);
    FieldRoundTrip(v.launch.probeWithSsh, n, s[13].key, OfFlag, AsFlag);
    FieldRoundTrip(v.launch.probeHostname, n, s[14].key, OfText, AsText);
  }

  /** What comes back: everything but the addresses, for the key that is read is not the one that is written. */
  function WithoutAddrs(v: Start): Start { v.(devices := v.devices.(pciAddrs := [])) }

  lemma StartLoads(v: Start, n: Node)
    requires Carries(n, StartSlots(v)) && Find(n.entries, "devs").None?
    ensures LoadStart(NEW_START, n) == Ok(WithoutAddrs(v))
  {
    assert Carries(n, TaskSlots(v.task)) by {
      assert forall i | 0 <= i < 3 :: TaskSlots(v.task)[i] == StartSlots(v)[i];
    }
    TaskLoads(v.task, n);
    MachineLoads(v, n);
    DevicesLoad(v, n);
    LaunchLoads(v, n);
  }

  lemma StartRoundTrip(v: Start)
    ensures LoadStart(NEW_START, EmitStart(v)) == Ok(WithoutAddrs(v))
  {
    StartKeysAreDistinct(v);
    TableCarries(StartSlots(v));
    DevsAreAbsent(v);
    StartLoads(v, EmitStart(v));
  }

  lemma DevsAreAbsent(v: Start)
    ensures Find(EmitStart(v).entries, "devs").None?
  {
    StartKeysDiffer();
    assert forall i | 0 <= i < |StartSlots(v)| :: StartSlots(v)[i].key == START_KEYS[i];
    FindAbsent(StartSlots(v), "devs");
  }

  /** The addresses are written, under a key that load never looks at, and so are the ids, when there are any. */
  lemma AddrsAreWritten(v: Start)
    ensures Find(EmitStart(v).entries, "dev") ==
            if v.devices.pciAddrs == [] then None else Some(OfList(v.devices.pciAddrs, EmitAddr))
    ensures Find(EmitStart(v).entries, "pci-ids") ==
            if v.devices.pciIds == [] then None else Some(OfList(v.devices.pciIds, EmitId))
  {
    StartKeysAreDistinct(v);
    FindAll(StartSlots(v));
    assert StartSlots(v)[10].key == "pci-ids" && StartSlots(v)[11].key == "dev";
  }

  /** A start task survives exactly when it has no PCI addresses. */
  lemma StartRoundTripIff(v: Start)
    ensures LoadStart(NEW_START, EmitStart(v)) == Ok(v) <==> v.devices.pciAddrs == []
  {
    StartRoundTrip(v);
  }

  ghost predicate MachineTable(slots: seq<Slot>, v: Machine) {
    && |slots| == 15
    && slots[3] == Slot("vm-name", MapOption(v.vmName, OfText))
    && slots[4] == Slot("vcpus", MapOption(v.vcpus, OfUint32))
    && slots[5] == Slot("memory", MapOption(v.memory, OfUint64))
    && slots[6] == Slot("memnode-map", MapOption(v.memnodeMap, OfMatrix))
  }

  ghost predicate DeviceTable(slots: seq<Slot>, v: Devices) {
    && |slots| == 15
    && slots[7] == Slot("xml", MapOption(v.xml, OfText))
    && slots[8] == Slot("ivshmem", MapOption(v.ivshmem, EmitIvshmem))
    && slots[10] == Slot("pci-ids", NonEmpty(v.pciIds, EmitId))
    && slots[11] == Slot("dev", NonEmpty(v.pciAddrs, EmitAddr))
  }

  ghost predicate LaunchTable(slots: seq<Slot>, v: Launch) {
    && |slots| == 15
    && slots[9] == Slot("transient", MapOption(v.transient, OfFlag))
    && slots[12] == Slot("vcpu-map", MapOption(v.vcpuMap, OfMatrix))
    && slots[13] == Slot("probe-with-ssh", MapOption(v.probeWithSsh, OfFlag))
    && slots[14] == Slot("probe-hostname", MapOption(v.probeHostname, OfText))
  }

  lemma MachineSlots(v: Start)
    ensures MachineTable(StartSlots(v), v.machine)
  {
  }

  lemma DeviceSlots(v: Start)
    ensures DeviceTable(StartSlots(v), v.devices)
  {
  }

  lemma LaunchSlots(v: Start)
    ensures LaunchTable(StartSlots(v), v.launch)
  {
  }

  lemma StartTable(v: Start) returns (slots: seq<Slot>)
    ensures Built(slots, 3, EmitTask(v.task).entries)
    ensures MachineTable(slots, v.machine) && DeviceTable(slots, v.devices) && LaunchTable(slots, v.launch)
    ensures forall es | Built(slots, 15, es) :: EmitStart(v) == Map(es)
  {
    slots := StartSlots(v);
    StartKeysAreDistinct(v);
    TaskSlotsFirst(v);
    MachineSlots(v);
    DeviceSlots(v);
    LaunchSlots(v);
    assert slots[..|slots|] == slots;
  }

  lemma TaskSlotsFirst(v: Start)
    ensures StartSlots(v)[..3] == TaskSlots(v.task)
  {
  }

  /** if (!xs.empty()) node[key] = xs */
  method PutList<T>(es: seq<Entry>, key: string, xs: seq<T>, enc: T -> Node, ghost slots: seq<Slot>, ghost k: nat)
    returns (r: seq<Entry>)
    requires Built(slots, k, es) && k < |slots| && slots[k] == Slot(key, NonEmpty(xs, enc))
    ensures r == es + (if |xs| == 0 then [] else [Entry(key, OfList(xs, enc))]) && Built(slots, k + 1, r)
  {
    if |xs| == 0 {
      SkipSlot(slots, k, es);
      return es;
    }
    r := Put(es, key, OfList(xs, enc), slots, k);
  }

  class StartObject {
    const task: TaskObject
    var vmName: Optional<string>
    var vcpus: Optional<uint32>
    var memory: Optional<uint64>
    var memnodeMap: Optional<Matrix>
    var pciIds: seq<PciId>
    var pciAddrs: seq<PciAddr>
    var xml: Optional<string>
    var ivshmem: Optional<Ivshmem>
    var transient: Optional<bool>
    var vcpuMap: Optional<Matrix>
    var probeWithSsh: Optional<bool>
    var probeHostname: Optional<string>

    constructor ()
      ensures Valid() && Value() == NEW_START && fresh(task)
    {
      task := new TaskObject();
      vmName := Optional("vm-name", None);
      vcpus := Optional("vcpus", None);
      memory := Optional("memory", None);
      memnodeMap := Optional("memnode-map", None);
      pciIds, pciAddrs := [], [];
      xml := Optional("xml", None);
      ivshmem := Optional("ivshmem", None);
      transient := Optional("transient", None);
      vcpuMap := Optional("vcpu-map", None);
      probeWithSsh := Optional("probe-with-ssh", None);
      probeHostname := Optional("probe-hostname", None);
    }

    /** The Optionals carry the tags their constructor gave them. */
    ghost predicate Valid()
      reads this, task
    {
      && task.Valid() && vmName.tag == "vm-name" && vcpus.tag == "vcpus" && memory.tag == "memory"
      && memnodeMap.tag == "memnode-map" && xml.tag == "xml" && ivshmem.tag == "ivshmem"
      && transient.tag == "transient" && vcpuMap.tag == "vcpu-map" && probeWithSsh.tag == "probe-with-ssh"
      && probeHostname.tag == "probe-hostname"
    }

    function MachineValue(): Machine
      reads this
    {
      Machine(vmName.value, vcpus.value, memory.value, memnodeMap.value)
    }

    function DevicesValue(): Devices
      reads this
    {
      Devices(pciIds, pciAddrs, xml.value, ivshmem.value)
    }

    function LaunchValue(): Launch
      reads this
    {
      Launch(transient.value, vcpuMap.value, probeWithSsh.value, probeHostname.value)
    }

    function Value(): Start
      reads this, task
    {
      Start(task.Value(), MachineValue(), DevicesValue(), LaunchValue())
    }

    method Emit() returns (node: Node)
      requires Valid()
      ensures node == EmitStart(Value())
    {
      ghost var slots := StartTable(Value());
      node := task.Emit();
      var es := node.entries;
      es := MergeOptional(es, vmName, OfText, slots, 3);
      es := MergeOptional(es, vcpus, OfUint32, slots, 4);
      es := MergeOptional(es, memory, OfUint64, slots, 5);
      es := MergeOptional(es, memnodeMap, OfMatrix, slots, 6);
      es := MergeOptional(es, xml, OfText, slots, 7);
      es := MergeOptional(es, ivshmem, EmitIvshmem, slots, 8);
      es := MergeOptional(es, transient, OfFlag, slots, 9);
      es := PutList(es, "pci-ids", pciIds, EmitId, slots, 10);
      es := PutList(es, "dev", pciAddrs, EmitAddr, slots, 11);
      es := MergeOptional(es, vcpuMap, OfMatrix, slots, 12);
      es := MergeOptional(es, probeWithSsh, OfFlag, slots, 13);
      es := MergeOptional(es, probeHostname, OfText, slots, 14);
      node := Map(es);
    }

    method Load(node: Node) returns (r: Result<()>)
      requires Valid()
      modifies this, task
      ensures Valid()
      ensures r.Ok? <==> StartFits(node)
      ensures r.Ok? ==> StartTakes(old(Value()), node, Value())
      ensures r.Ok? <==> LoadStart(old(Value()), node).Ok?
      ensures r.Ok? ==> Value() == LoadStart(old(Value()), node).value
    {
      StartByKey(Value(), node);
      var done :- task.Load(node);
      done :- LoadMachineFields(node);
      done :- LoadDeviceFields(node);
      done :- LoadLaunchFields(node);
      return Ok(());
    }

    method LoadMachineFields(node: Node) returns (r: Result<()>)
      requires Valid()
      modifies `vmName, `vcpus, `memory, `memnodeMap
      ensures Valid() && DevicesValue() == old(DevicesValue()) && LaunchValue() == old(LaunchValue())
      ensures r.Ok? <==> LoadMachine(old(MachineValue()), node).Ok?
      ensures r.Ok? ==> MachineValue() == LoadMachine(old(MachineValue()), node).value
    {
      vmName :- LoadOptional(vmName, node, AsText);
      vcpus :- LoadOptional(vcpus, node, AsUint32);
      memory :- LoadOptional(memory, node, AsUint64);
      memnodeMap :- LoadOptional(memnodeMap, node, AsMatrix);
      return Ok(());
    }

    method LoadDeviceFields(node: Node) returns (r: Result<()>)
      requires Valid()
      modifies `pciIds, `pciAddrs, `xml, `ivshmem
      ensures Valid() && MachineValue() == old(MachineValue()) && LaunchValue() == old(LaunchValue())
      ensures r.Ok? <==> LoadDevices(old(DevicesValue()), node).Ok?
      ensures r.Ok? ==> DevicesValue() == LoadDevices(old(DevicesValue()), node).value
    {
      pciIds :- LoadList(node, "pci-ids", LoadId);
      pciAddrs :- LoadList(node, "devs", LoadAddr);
      xml :- LoadOptional(xml, node, AsText);
      ivshmem :- LoadOptional(ivshmem, node, ReadIvshmem);
      return Ok(());
    }

    method LoadLaunchFields(node: Node) returns (r: Result<()>)
      requires Valid()
      modifies `transient, `vcpuMap, `probeWithSsh, `probeHostname
      ensures Valid() && MachineValue() == old(MachineValue()) && DevicesValue() == old(DevicesValue())
      ensures r.Ok? <==> LoadLaunch(old(LaunchValue()), node).Ok?
      ensures r.Ok? ==> LaunchValue() == LoadLaunch(old(LaunchValue()), node).value
    {
      transient :- LoadOptional(transient, node, AsFlag);
      vcpuMap :- LoadOptional(vcpuMap, node, AsMatrix);
      probeWithSsh :- LoadOptional(probeWithSsh, node, AsFlag);
      probeHostname :- LoadOptional(probeHostname, node, AsText);
      return Ok(());
    }
  }
}
