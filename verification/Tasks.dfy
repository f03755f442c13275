/**
 * The task messages. Each struct is a value with a table of its entries in the order they are emitted
 * and a load function, and an object whose emit merges the entries one by one and whose load
 * overwrites the fields one by one. An Optional is a value in its owner's field.
 */
module Tasks {
  import opened Results
  import opened Yaml
  import opened Pci

  type Matrix = seq<seq<uint32>>

  /** fast::load into a plain field. */
  function LoadRequired<T>(n: Node, key: string, dec: Node -> Result<T>): Result<T> {
    var field :- Required(n, key);
    dec(field)
  }

  function OfTexts(xs: seq<string>): Node { OfList(xs, OfText) }

  function AsTexts(n: Node): Result<seq<string>> { AsList(n, AsText) }

  lemma CodecsRoundTrip()
    ensures Inverse(OfText, AsText) && Inverse(OfFlag, AsFlag) && Inverse(OfUint32, AsUint32)
    ensures Inverse(OfUint64, AsUint64) && Inverse(OfMatrix, AsMatrix) && Inverse(OfTexts, AsTexts)
  {
    FlagsRoundTrip();
    NumbersRoundTrip();
    MatrixRoundTrip();
    forall xs: seq<string>
      ensures AsTexts(OfTexts(xs)) == Ok(xs)
    {
      TextListRoundTrip(xs);
    }
  }

  /** A plain field that was written is read back. */
  lemma RequiredRoundTrip<T(!new)>(x: T, n: Node, key: string, enc: T -> Node, dec: Node -> Result<T>)
    requires n.Map? && Find(n.entries, key) == Some(enc(x)) && Inverse(enc, dec)
    ensures LoadRequired(n, key, dec) == Ok(x)
  {
  }

  // ---- Task --------------------------------------------------------------------------

  /** The options every task has. */
  datatype Task = Task(concurrentExecution: Option<bool>, timeMeasurement: Option<bool>, driver: Option<string>)

  const NEW_TASK := Task(None, None, None)

  const TASK_KEYS := ["concurrent-execution", "time-measurement", "driver"]

  function TaskSlots(v: Task): seq<Slot>
  {
    [Slot("concurrent-execution", MapOption(v.concurrentExecution, OfFlag)),
     Slot("time-measurement", MapOption(v.timeMeasurement, OfFlag)),
     Slot("driver", MapOption(v.driver, OfText))]
  }

  function EmitTask(v: Task): Node { Map(Present(TaskSlots(v))) }

  function LoadTask(was: Task, n: Node): Result<Task> {
    var concurrentExecution :- LoadField(was.concurrentExecution, n, "concurrent-execution", AsFlag);
    var timeMeasurement :- LoadField(was.timeMeasurement, n, "time-measurement", AsFlag);
    var driver :- LoadField(was.driver, n, "driver", AsText);
    Ok(Task(concurrentExecution, timeMeasurement, driver))
  }

  predicate TaskFits(n: Node) {
    && !n.Scalar?
    && Fits(n, "concurrent-execution", AsFlag)
    && Fits(n, "time-measurement", AsFlag)
    && Fits(n, "driver", AsText)
  }

  /** The state after a load, key by key. */
  ghost predicate TaskTakes(was: Task, n: Node, now: Task) {
    && Takes(was.concurrentExecution, n, "concurrent-execution", AsFlag, now.concurrentExecution)
    && Takes(was.timeMeasurement, n, "time-measurement", AsFlag, now.timeMeasurement)
    && Takes(was.driver, n, "driver", AsText, now.driver)
  }

  lemma TaskByKey(was: Task, n: Node)
    ensures LoadTask(was, n).Ok? <==> TaskFits(n)
    ensures LoadTask(was, n).Ok? ==> TaskTakes(was, n, LoadTask(was, n).value)
  {
  }

  lemma TaskKeysAreDistinct(v: Task)
    ensures DistinctKeys(TaskSlots(v))
  {
    DistinctByKeys(TaskSlots(v), TASK_KEYS);
  }

  /** From any node that carries the entries, a fresh object loads the value. */
  lemma TaskLoads(v: Task, n: Node)
    requires Carries(n, TaskSlots(v))
    ensures LoadTask(NEW_TASK, n) == Ok(v)
  {
    var s := TaskSlots(v);
    CodecsRoundTrip();
    FieldRoundTrip(v.concurrentExecution, n, s[0].key, OfFlag, AsFlag);
    FieldRoundTrip(v.timeMeasurement, n, s[1].key, OfFlag, AsFlag);
    FieldRoundTrip(v.driver, n, s[2].key, OfText, AsText);
  }

  lemma TaskRoundTrip(v: Task)
    ensures LoadTask(NEW_TASK, EmitTask(v)) == Ok(v)
  {
    TaskKeysAreDistinct(v);
    TableCarries(TaskSlots(v));
    TaskLoads(v, EmitTask(v));
  }

  lemma TaskTable(v: Task) returns (slots: seq<Slot>)
    ensures Built(slots, 0, []) && |slots| == 3
    ensures slots[0] == Slot("concurrent-execution", MapOption(v.concurrentExecution, OfFlag))
    ensures slots[1] == Slot("time-measurement", MapOption(v.timeMeasurement, OfFlag))
    ensures slots[2] == Slot("driver", MapOption(v.driver, OfText))
    ensures forall es | Built(slots, 3, es) :: EmitTask(v) == Map(es)
  {
    slots := TaskSlots(v);
    TaskKeysAreDistinct(v);
    assert slots[..3] == slots;
  }

  class TaskObject {
    var concurrentExecution: Optional<bool>
    var timeMeasurement: Optional<bool>
    var driver: Optional<string>

    constructor ()
      ensures Valid() && Value() == NEW_TASK
    {
      concurrentExecution := Optional("concurrent-execution", None);
      timeMeasurement := Optional("time-measurement", None);
      driver := Optional("driver", None);
    }

    /** The Optionals carry the tags their constructor gave them. */
    ghost predicate Valid()
      reads this
    {
      && concurrentExecution.tag == "concurrent-execution" && timeMeasurement.tag == "time-measurement"
      && driver.tag == "driver"
    }

    function Value(): Task
      reads this
    {
      Task(concurrentExecution.value, timeMeasurement.value, driver.value)
    }

    method Emit() returns (node: Node)
      requires Valid()
      ensures node == EmitTask(Value())
    {
      ghost var slots := TaskTable(Value());
      var es: seq<Entry> := [];
      es := MergeOptional(es, concurrentExecution, OfFlag, slots, 0);
      es := MergeOptional(es, timeMeasurement, OfFlag, slots, 1);
      es := MergeOptional(es, driver, OfText, slots, 2);
      node := Map(es);
    }

    method Load(node: Node) returns (r: Result<()>)
      requires Valid()
      modifies this
      ensures Valid()
      ensures r.Ok? <==> TaskFits(node)
      ensures r.Ok? ==> TaskTakes(old(Value()), node, Value())
      ensures r.Ok? <==> LoadTask(old(Value()), node).Ok?
      ensures r.Ok? ==> Value() == LoadTask(old(Value()), node).value
    {
      TaskByKey(Value(), node);
      concurrentExecution :- LoadOptional(concurrentExecution, node, AsFlag);
      timeMeasurement :- LoadOptional(timeMeasurement, node, AsFlag);
      driver :- LoadOptional(driver, node, AsText);
      return Ok(());
    }
  }

  // ---- SwapWith ----------------------------------------------------------------------

  /** The swap-with option of a migration. */
  datatype SwapWith = SwapWith(vmName: string, pscomHookProcs: Option<string>, vcpuMap: Option<Matrix>)

  const NEW_SWAP_WITH := SwapWith("", None, None)

  const SWAP_WITH_KEYS := ["vm-name", "pscom-hook-procs", "vcpu-map"]

  function SwapWithSlots(v: SwapWith): seq<Slot>
  {
    [Slot("vm-name", Some(OfText(v.vmName))),
     Slot("pscom-hook-procs", MapOption(v.pscomHookProcs, OfText)),
     Slot("vcpu-map", MapOption(v.vcpuMap, OfMatrix))]
  }

  function EmitSwapWith(v: SwapWith): Node { Map(Present(SwapWithSlots(v))) }

  function LoadSwapWith(was: SwapWith, n: Node): Result<SwapWith> {
    var vmName :- LoadRequired(n, "vm-name", AsText);
    var pscomHookProcs :- LoadField(was.pscomHookProcs, n, "pscom-hook-procs", AsText);
    var vcpuMap :- LoadField(was.vcpuMap, n, "vcpu-map", AsMatrix);
    Ok(SwapWith(vmName, pscomHookProcs, vcpuMap))
  }

  predicate SwapWithFits(n: Node) {
    && !n.Scalar?
    && Supplies(n, "vm-name", AsText)
    && Fits(n, "pscom-hook-procs", AsText)
    && Fits(n, "vcpu-map", AsMatrix)
  }

  /** The state after a load, key by key. */
  ghost predicate SwapWithTakes(was: SwapWith, n: Node, now: SwapWith) {
    && Holds(n, "vm-name", AsText, now.vmName)
    && Takes(was.pscomHookProcs, n, "pscom-hook-procs", AsText, now.pscomHookProcs)
    && Takes(was.vcpuMap, n, "vcpu-map", AsMatrix, now.vcpuMap)
  }

  lemma SwapWithByKey(was: SwapWith, n: Node)
    ensures LoadSwapWith(was, n).Ok? <==> SwapWithFits(n)
    ensures LoadSwapWith(was, n).Ok? ==> SwapWithTakes(was, n, LoadSwapWith(was, n).value)
  {
  }

  lemma SwapWithKeysAreDistinct(v: SwapWith)
    ensures DistinctKeys(SwapWithSlots(v))
  {
    DistinctByKeys(SwapWithSlots(v), SWAP_WITH_KEYS);
  }

  /** From any node that carries the entries, a fresh object loads the value. */
  lemma SwapWithLoads(v: SwapWith, n: Node)
    requires Carries(n, SwapWithSlots(v))
    ensures LoadSwapWith(NEW_SWAP_WITH, n) == Ok(v)
  {
    var s := SwapWithSlots(v);
    CodecsRoundTrip();
    RequiredRoundTrip(v.vmName, n, s[0].key, OfText, AsText);
    FieldRoundTrip(v.pscomHookProcs, n, s[1].key, OfText, AsText);
    FieldRoundTrip(v.vcpuMap, n, s[2].key, OfMatrix, AsMatrix);
  }

  lemma SwapWithRoundTrip(v: SwapWith)
    ensures LoadSwapWith(NEW_SWAP_WITH, EmitSwapWith(v)) == Ok(v)
  {
    SwapWithKeysAreDistinct(v);
    TableCarries(SwapWithSlots(v));
    SwapWithLoads(v, EmitSwapWith(v));
  }

  /** as<SwapWith>: a fresh object, loaded. */
  function ReadSwapWith(n: Node): Result<SwapWith> { LoadSwapWith(NEW_SWAP_WITH, n) }

  lemma SwapWithInverse()
    ensures Inverse(EmitSwapWith, ReadSwapWith)
  {
    forall v: SwapWith ensures ReadSwapWith(EmitSwapWith(v)) == Ok(v) { SwapWithRoundTrip(v); }
  }

  lemma SwapWithTable(v: SwapWith) returns (slots: seq<Slot>)
    ensures Built(slots, 0, []) && |slots| == 3
    ensures slots[0] == Slot("vm-name", Some(OfText(v.vmName)))
    ensures slots[1] == Slot("pscom-hook-procs", MapOption(v.pscomHookProcs, OfText))
    ensures slots[2] == Slot("vcpu-map", MapOption(v.vcpuMap, OfMatrix))
    ensures forall es | Built(slots, 3, es) :: EmitSwapWith(v) == Map(es)
  {
    slots := SwapWithSlots(v);
    SwapWithKeysAreDistinct(v);
    assert slots[..3] == slots;
  }

  class SwapWithObject {
    var vmName: string
    var pscomHookProcs: Optional<string>
    var vcpuMap: Optional<Matrix>

    constructor ()
      ensures Valid() && Value() == NEW_SWAP_WITH
    {
      vmName := "";
      pscomHookProcs := Optional("pscom-hook-procs", None);
      vcpuMap := Optional("vcpu-map", None);
    }

    /** The Optionals carry the tags their constructor gave them. */
    ghost predicate Valid()
      reads this
    {
      pscomHookProcs.tag == "pscom-hook-procs" && vcpuMap.tag == "vcpu-map"
    }

    function Value(): SwapWith
      reads this
    {
      SwapWith(vmName, pscomHookProcs.value, vcpuMap.value)
    }

    method Emit() returns (node: Node)
      requires Valid()
      ensures node == EmitSwapWith(Value())
    {
      ghost var slots := SwapWithTable(Value());
      var es: seq<Entry> := [];
      es := Put(es, "vm-name", OfText(vmName), slots, 0);
      es := MergeOptional(es, pscomHookProcs, OfText, slots, 1);
      es := MergeOptional(es, vcpuMap, OfMatrix, slots, 2);
      node := Map(es);
    }

    method Load(node: Node) returns (r: Result<()>)
      requires Valid()
      modifies this
      ensures Valid()
      ensures r.Ok? <==> SwapWithFits(node)
      ensures r.Ok? ==> SwapWithTakes(old(Value()), node, Value())
      ensures r.Ok? <==> LoadSwapWith(old(Value()), node).Ok?
      ensures r.Ok? ==> Value() == LoadSwapWith(old(Value()), node).value
    {
      SwapWithByKey(Value(), node);
      vmName :- LoadRequired(node, "vm-name", AsText);
      pscomHookProcs :- LoadOptional(pscomHookProcs, node, AsText);
      vcpuMap :- LoadOptional(vcpuMap, node, AsMatrix);
      return Ok(());
    }
  }

  // ---- Ivshmem -----------------------------------------------------------------------

  /** A shared-memory device. */
  datatype Ivshmem = Ivshmem(id: string, size: string, path: Option<string>)

  const NEW_IVSHMEM := Ivshmem("", "0", None)

  const IVSHMEM_KEYS := ["id", "size", "path"]

  function IvshmemSlots(v: Ivshmem): seq<Slot>
  {
    [Slot("id", Some(OfText(v.id))),
     Slot("size", Some(OfText(v.size))),
     Slot("path", MapOption(v.path, OfText))]
  }

  function EmitIvshmem(v: Ivshmem): Node { Map(Present(IvshmemSlots(v))) }

  function LoadIvshmem(was: Ivshmem, n: Node): Result<Ivshmem> {
    var id :- LoadRequired(n, "id", AsText);
    var size :- LoadRequired(n, "size", AsText);
    var path :- LoadField(was.path, n, "path", AsText);
    Ok(Ivshmem(id, size, path))
  }

  predicate IvshmemFits(n: Node) {
    && !n.Scalar?
    && Supplies(n, "id", AsText)
    && Supplies(n, "size", AsText)
    && Fits(n, "path", AsText)
  }

  /** The state after a load, key by key. */
  ghost predicate IvshmemTakes(was: Ivshmem, n: Node, now: Ivshmem) {
    && Holds(n, "id", AsText, now.id)
    && Holds(n, "size", AsText, now.size)
    && Takes(was.path, n, "path", AsText, now.path)
  }

  lemma IvshmemByKey(was: Ivshmem, n: Node)
    ensures LoadIvshmem(was, n).Ok? <==> IvshmemFits(n)
    ensures LoadIvshmem(was, n).Ok? ==> IvshmemTakes(was, n, LoadIvshmem(was, n).value)
  {
  }

  lemma IvshmemKeysAreDistinct(v: Ivshmem)
    ensures DistinctKeys(IvshmemSlots(v))
  {
    DistinctByKeys(IvshmemSlots(v), IVSHMEM_KEYS);
  }

  /** From any node that carries the entries, a fresh object loads the value. */
  lemma IvshmemLoads(v: Ivshmem, n: Node)
    requires Carries(n, IvshmemSlots(v))
    ensures LoadIvshmem(NEW_IVSHMEM, n) == Ok(v)
  {
    var s := IvshmemSlots(v);
    CodecsRoundTrip();
    RequiredRoundTrip(v.id, n, s[0].key, OfText, AsText);
    RequiredRoundTrip(v.size, n, s[1].key, OfText, AsText);
    FieldRoundTrip(v.path, n, s[2].key, OfText, AsText);
  }

  lemma IvshmemRoundTrip(v: Ivshmem)
    ensures LoadIvshmem(NEW_IVSHMEM, EmitIvshmem(v)) == Ok(v)
  {
    IvshmemKeysAreDistinct(v);
    TableCarries(IvshmemSlots(v));
    IvshmemLoads(v, EmitIvshmem(v));
  }

  /** as<Ivshmem>: a fresh object, loaded. */
  function ReadIvshmem(n: Node): Result<Ivshmem> { LoadIvshmem(NEW_IVSHMEM, n) }

  lemma IvshmemInverse()
    ensures Inverse(EmitIvshmem, ReadIvshmem)
  {
    forall v: Ivshmem ensures ReadIvshmem(EmitIvshmem(v)) == Ok(v) { IvshmemRoundTrip(v); }
  }

  lemma IvshmemTable(v: Ivshmem) returns (slots: seq<Slot>)
    ensures Built(slots, 0, []) && |slots| == 3
    ensures slots[0] == Slot("id", Some(OfText(v.id)))
    ensures slots[1] == Slot("size", Some(OfText(v.size)))
    ensures slots[2] == Slot("path", MapOption(v.path, OfText))
    ensures forall es | Built(slots, 3, es) :: EmitIvshmem(v) == Map(es)
  {
    slots := IvshmemSlots(v);
    IvshmemKeysAreDistinct(v);
    assert slots[..3] == slots;
  }

  class IvshmemObject {
    var id: string
    var size: string
    var path: Optional<string>

    constructor ()
      ensures Valid() && Value() == NEW_IVSHMEM && size == "0" && path.value.None?
    {
      id := "";
      size := "0";
      path := Optional("path", None);
    }

    /** The Optionals carry the tags their constructor gave them. */
    ghost predicate Valid()
      reads this
    {
      path.tag == "path"
    }

    function Value(): Ivshmem
      reads this
    {
      Ivshmem(id, size, path.value)
    }

    method Emit() returns (node: Node)
      requires Valid()
      ensures node == EmitIvshmem(Value())
    {
      ghost var slots := IvshmemTable(Value());
      var es: seq<Entry> := [];
      es := Put(es, "id", OfText(id), slots, 0);
      es := Put(es, "size", OfText(size), slots, 1);
      es := MergeOptional(es, path, OfText, slots, 2);
      node := Map(es);
    }

    method Load(node: Node) returns (r: Result<()>)
      requires Valid()
      modifies this
      ensures Valid()
      ensures r.Ok? <==> IvshmemFits(node)
      ensures r.Ok? ==> IvshmemTakes(old(Value()), node, Value())
      ensures r.Ok? <==> LoadIvshmem(old(Value()), node).Ok?
      ensures r.Ok? ==> Value() == LoadIvshmem(old(Value()), node).value
    {
      IvshmemByKey(Value(), node);
      id :- LoadRequired(node, "id", AsText);
      size :- LoadRequired(node, "size", AsText);
      path :- LoadOptional(path, node, AsText);
      return Ok(());
    }
  }

  // ---- Stop --------------------------------------------------------------------------

  /** Stop a domain. */
  datatype Stop = Stop(
    task: Task, vmName: Option<string>, regex: Option<string>, force: Option<bool>, undefine: Option<bool>)

  const NEW_STOP := Stop(NEW_TASK, None, None, None, None)

  const STOP_KEYS := TASK_KEYS + ["vm-name", "regex", "force", "undefine"]

  function StopSlots(v: Stop): seq<Slot>
  {
    TaskSlots(v.task) +
    [Slot("vm-name", MapOption(v.vmName, OfText)),
     Slot("regex", MapOption(v.regex, OfText)),
     Slot("force", MapOption(v.force, OfFlag)),
     Slot("undefine", MapOption(v.undefine, OfFlag))]
  }

  function EmitStop(v: Stop): Node { Map(Present(StopSlots(v))) }

  function LoadStop(was: Stop, n: Node): Result<Stop> {
    var task :- LoadTask(was.task, n);
    var vmName :- LoadField(was.vmName, n, "vm-name", AsText);
    var regex :- LoadField(was.regex, n, "regex", AsText);
    var force :- LoadField(was.force, n, "force", AsFlag);
    var undefine :- LoadField(was.undefine, n, "undefine", AsFlag);
    Ok(Stop(task, vmName, regex, force, undefine))
  }

  predicate StopFits(n: Node) {
    && TaskFits(n)
    && Fits(n, "vm-name", AsText)
    && Fits(n, "regex", AsText)
    && Fits(n, "force", AsFlag)
    && Fits(n, "undefine", AsFlag)
  }

  /** The state after a load, key by key. */
  ghost predicate StopTakes(was: Stop, n: Node, now: Stop) {
    && TaskTakes(was.task, n, now.task)
    && Takes(was.vmName, n, "vm-name", AsText, now.vmName)
    && Takes(was.regex, n, "regex", AsText, now.regex)
    && Takes(was.force, n, "force", AsFlag, now.force)
    && Takes(was.undefine, n, "undefine", AsFlag, now.undefine)
  }

  lemma StopByKey(was: Stop, n: Node)
    ensures LoadStop(was, n).Ok? <==> StopFits(n)
    ensures LoadStop(was, n).Ok? ==> StopTakes(was, n, LoadStop(was, n).value)
  {
    TaskByKey(was.task, n);
  }

  lemma StopKeysAreDistinct(v: Stop)
    ensures DistinctKeys(StopSlots(v))
  {
    DistinctByKeys(StopSlots(v), STOP_KEYS);
  }

  /** From any node that carries the entries, a fresh object loads the value. */
  lemma StopLoads(v: Stop, n: Node)
    requires Carries(n, StopSlots(v))
    ensures LoadStop(NEW_STOP, n) == Ok(v)
  {
    var s := StopSlots(v);
    assert forall i | 0 <= i < 3 :: TaskSlots(v.task)[i] == s[i];
    CodecsRoundTrip();
    TaskLoads(v.task, n);
    FieldRoundTrip(v.vmName, n, s[3].key, OfText, AsText);
    FieldRoundTrip(v.regex, n, s[4].key, OfText, AsText);
    FieldRoundTrip(v.force, n, s[5].key, OfFlag, AsFlag);
    FieldRoundTrip(v.undefine, n, s[6].key, OfFlag, AsFlag);
  }

  lemma StopRoundTrip(v: Stop)
    ensures LoadStop(NEW_STOP, EmitStop(v)) == Ok(v)
  {
    StopKeysAreDistinct(v);
    TableCarries(StopSlots(v));
    StopLoads(v, EmitStop(v));
  }

  lemma StopTable(v: Stop) returns (slots: seq<Slot>)
    ensures Built(slots, 3, EmitTask(v.task).entries) && |slots| == 7
    ensures slots[3] == Slot("vm-name", MapOption(v.vmName, OfText))
    ensures slots[4] == Slot("regex", MapOption(v.regex, OfText))
    ensures slots[5] == Slot("force", MapOption(v.force, OfFlag))
    ensures slots[6] == Slot("undefine", MapOption(v.undefine, OfFlag))
    ensures forall es | Built(slots, 7, es) :: EmitStop(v) == Map(es)
  {
    slots := StopSlots(v);
    StopKeysAreDistinct(v);
    assert slots[..3] == TaskSlots(v.task) && slots[..7] == slots;
  }

  class StopObject {
    const task: TaskObject
    var vmName: Optional<string>
    var regex: Optional<string>
    var force: Optional<bool>
    var undefine: Optional<bool>

    constructor ()
      ensures Valid() && Value() == NEW_STOP && fresh(task)
    {
      task := new TaskObject();
      vmName := Optional("vm-name", None);
      regex := Optional("regex", None);
      force := Optional("force", None);
      undefine := Optional("undefine", None);
    }

    /** The Optionals carry the tags their constructor gave them. */
    ghost predicate Valid()
      reads this, task
    {
      && task.Valid() && vmName.tag == "vm-name" && regex.tag == "regex"
      && force.tag == "force" && undefine.tag == "undefine"
    }

    function Value(): Stop
      reads this, task
    {
      Stop(task.Value(), vmName.value, regex.value, force.value, undefine.value)
    }

    method Emit() returns (node: Node)
      requires Valid()
      ensures node == EmitStop(Value())
    {
      ghost var slots := StopTable(Value());
      node := task.Emit();
      var es := node.entries;
      es := MergeOptional(es, vmName, OfText, slots, 3);
      es := MergeOptional(es, regex, OfText, slots, 4);
      es := MergeOptional(es, force, OfFlag, slots, 5);
      es := MergeOptional(es, undefine, OfFlag, slots, 6);
      node := Map(es);
    }

    method Load(node: Node) returns (r: Result<()>)
      requires Valid()
      modifies this, task
      ensures Valid()
      ensures r.Ok? <==> StopFits(node)
      ensures r.Ok? ==> StopTakes(old(Value()), node, Value())
      ensures r.Ok? <==> LoadStop(old(Value()), node).Ok?
      ensures r.Ok? ==> Value() == LoadStop(old(Value()), node).value
    {
      StopByKey(Value(), node);
      var done :- task.Load(node);
      vmName :- LoadOptional(vmName, node, AsText);
      regex :- LoadOptional(regex, node, AsText);
      force :- LoadOptional(force, node, AsFlag);
      undefine :- LoadOptional(undefine, node, AsFlag);
      return Ok(());
    }
  }

  // ---- Repin -------------------------------------------------------------------------

  /** Repin the virtual cpus of a domain. */
  datatype Repin = Repin(task: Task, vmName: string, vcpuMap: Matrix)

  const NEW_REPIN := Repin(NEW_TASK, "", [])

  const REPIN_KEYS := TASK_KEYS + ["vm-name", "vcpu-map"]

  function RepinSlots(v: Repin): seq<Slot>
  {
    TaskSlots(v.task) +
    [Slot("vm-name", Some(OfText(v.vmName))),
     Slot("vcpu-map", Some(OfMatrix(v.vcpuMap)))]
  }

  function EmitRepin(v: Repin): Node { Map(Present(RepinSlots(v))) }

  function LoadRepin(was: Repin, n: Node): Result<Repin> {
    var task :- LoadTask(was.task, n);
    var vmName :- LoadRequired(n, "vm-name", AsText);
    var vcpuMap :- LoadRequired(n, "vcpu-map", AsMatrix);
    Ok(Repin(task, vmName, vcpuMap))
  }

  predicate RepinFits(n: Node) {
    && TaskFits(n)
    && Supplies(n, "vm-name", AsText)
    && Supplies(n, "vcpu-map", AsMatrix)
  }

  /** The state after a load, key by key. */
  ghost predicate RepinTakes(was: Repin, n: Node, now: Repin) {
    && TaskTakes(was.task, n, now.task)
    && Holds(n, "vm-name", AsText, now.vmName)
    && Holds(n, "vcpu-map", AsMatrix, now.vcpuMap)
  }

  lemma RepinByKey(was: Repin, n: Node)
    ensures LoadRepin(was, n).Ok? <==> RepinFits(n)
    ensures LoadRepin(was, n).Ok? ==> RepinTakes(was, n, LoadRepin(was, n).value)
  {
    TaskByKey(was.task, n);
  }

  lemma RepinKeysAreDistinct(v: Repin)
    ensures DistinctKeys(RepinSlots(v))
  {
    RepinKeys(v);
    DistinctByKeys(RepinSlots(v), REPIN_KEYS);
  }

  lemma RepinKeys(v: Repin)
    ensures KeysOf(RepinSlots(v), REPIN_KEYS) && Distinct(REPIN_KEYS)
    ensures REPIN_KEYS[0] == "concurrent-execution" && "task" !in REPIN_KEYS && "id" !in REPIN_KEYS
  {
  }

  /** From any node that carries the entries, a fresh object loads the value. */
  lemma RepinLoads(v: Repin, n: Node)
    requires Carries(n, RepinSlots(v))
    ensures LoadRepin(NEW_REPIN, n) == Ok(v)
  {
    var s := RepinSlots(v);
    assert forall i | 0 <= i < 3 :: TaskSlots(v.task)[i] == s[i];
    CodecsRoundTrip();
    TaskLoads(v.task, n);
    RequiredRoundTrip(v.vmName, n, s[3].key, OfText, AsText);
    RequiredRoundTrip(v.vcpuMap, n, s[4].key, OfMatrix, AsMatrix);
  }

  lemma RepinRoundTrip(v: Repin)
    ensures LoadRepin(NEW_REPIN, EmitRepin(v)) == Ok(v)
  {
    RepinKeysAreDistinct(v);
    TableCarries(RepinSlots(v));
    RepinLoads(v, EmitRepin(v));
  }

  lemma RepinTable(v: Repin) returns (slots: seq<Slot>)
    ensures Built(slots, 3, EmitTask(v.task).entries) && |slots| == 5
    ensures slots[3] == Slot("vm-name", Some(OfText(v.vmName)))
    ensures slots[4] == Slot("vcpu-map", Some(OfMatrix(v.vcpuMap)))
    ensures forall es | Built(slots, 5, es) :: EmitRepin(v) == Map(es)
  {
    slots := RepinSlots(v);
    RepinKeysAreDistinct(v);
    assert slots[..3] == TaskSlots(v.task) && slots[..5] == slots;
  }

  class RepinObject {
    const task: TaskObject
    var vmName: string
    var vcpuMap: Matrix

    constructor ()
      ensures Valid() && Value() == NEW_REPIN && fresh(task)
    {
      task := new TaskObject();
      vmName := "";
      vcpuMap := [];
    }

    /** The Optionals carry the tags their constructor gave them. */
    ghost predicate Valid()
      reads this, task
    {
      task.Valid()
    }

    function Value(): Repin
      reads this, task
    {
      Repin(task.Value(), vmName, vcpuMap)
    }

    method Emit() returns (node: Node)
      requires Valid()
      ensures node == EmitRepin(Value())
    {
      ghost var slots := RepinTable(Value());
      node := task.Emit();
      var es := node.entries;
      es := Put(es, "vm-name", OfText(vmName), slots, 3);
      es := Put(es, "vcpu-map", OfMatrix(vcpuMap), slots, 4);
      node := Map(es);
    }

    method Load(node: Node) returns (r: Result<()>)
      requires Valid()
      modifies this, task
      ensures Valid()
      ensures r.Ok? <==> RepinFits(node)
      ensures r.Ok? ==> RepinTakes(old(Value()), node, Value())
      ensures r.Ok? <==> LoadRepin(old(Value()), node).Ok?
      ensures r.Ok? ==> Value() == LoadRepin(old(Value()), node).value
    {
      RepinByKey(Value(), node);
      var done :- task.Load(node);
      vmName :- LoadRequired(node, "vm-name", AsText);
      vcpuMap :- LoadRequired(node, "vcpu-map", AsMatrix);
      return Ok(());
    }
  }

  // ---- Suspend and Resume ------------------------------------------------------------

  /** Suspend or resume a domain: the two tasks have the same fields, and the container's type tells them apart. */
  datatype NamedTask = NamedTask(task: Task, vmName: string)

  const NEW_NAMED_TASK := NamedTask(NEW_TASK, "")

  const NAMED_TASK_KEYS := TASK_KEYS + ["vm-name"]

  function NamedTaskSlots(v: NamedTask): seq<Slot>
  {
    TaskSlots(v.task) +
    [Slot("vm-name", Some(OfText(v.vmName)))]
  }

  function EmitNamedTask(v: NamedTask): Node { Map(Present(NamedTaskSlots(v))) }

  function LoadNamedTask(was: NamedTask, n: Node): Result<NamedTask> {
    var task :- LoadTask(was.task, n);
    var vmName :- LoadRequired(n, "vm-name", AsText);
    Ok(NamedTask(task, vmName))
  }

  predicate NamedTaskFits(n: Node) {
    && TaskFits(n)
    && Supplies(n, "vm-name", AsText)
  }

  /** The state after a load, key by key. */
  ghost predicate NamedTaskTakes(was: NamedTask, n: Node, now: NamedTask) {
    && TaskTakes(was.task, n, now.task)
    && Holds(n, "vm-name", AsText, now.vmName)
  }

  lemma NamedTaskByKey(was: NamedTask, n: Node)
    ensures LoadNamedTask(was, n).Ok? <==> NamedTaskFits(n)
    ensures LoadNamedTask(was, n).Ok? ==> NamedTaskTakes(was, n, LoadNamedTask(was, n).value)
  {
    TaskByKey(was.task, n);
  }

  lemma NamedTaskKeysAreDistinct(v: NamedTask)
    ensures DistinctKeys(NamedTaskSlots(v))
  {
    DistinctByKeys(NamedTaskSlots(v), NAMED_TASK_KEYS);
  }

  /** From any node that carries the entries, a fresh object loads the value. */
  lemma NamedTaskLoads(v: NamedTask, n: Node)
    requires Carries(n, NamedTaskSlots(v))
    ensures LoadNamedTask(NEW_NAMED_TASK, n) == Ok(v)
  {
    var s := NamedTaskSlots(v);
    assert forall i | 0 <= i < 3 :: TaskSlots(v.task)[i] == s[i];
    CodecsRoundTrip();
    TaskLoads(v.task, n);
    RequiredRoundTrip(v.vmName, n, s[3].key, OfText, AsText);
  }

  lemma NamedTaskRoundTrip(v: NamedTask)
    ensures LoadNamedTask(NEW_NAMED_TASK, EmitNamedTask(v)) == Ok(v)
  {
    NamedTaskKeysAreDistinct(v);
    TableCarries(NamedTaskSlots(v));
    NamedTaskLoads(v, EmitNamedTask(v));
  }

  lemma NamedTaskTable(v: NamedTask) returns (slots: seq<Slot>)
    ensures Built(slots, 3, EmitTask(v.task).entries) && |slots| == 4
    ensures slots[3] == Slot("vm-name", Some(OfText(v.vmName)))
    ensures forall es | Built(slots, 4, es) :: EmitNamedTask(v) == Map(es)
  {
    slots := NamedTaskSlots(v);
    NamedTaskKeysAreDistinct(v);
    assert slots[..3] == TaskSlots(v.task) && slots[..4] == slots;
  }

  class NamedTaskObject {
    const task: TaskObject
    var vmName: string

    constructor ()
      ensures Valid() && Value() == NEW_NAMED_TASK && fresh(task)
    {
      task := new TaskObject();
      vmName := "";
    }

    /** The Optionals carry the tags their constructor gave them. */
    ghost predicate Valid()
      reads this, task
    {
      task.Valid()
    }

    function Value(): NamedTask
      reads this, task
    {
      NamedTask(task.Value(), vmName)
    }

    method Emit() returns (node: Node)
      requires Valid()
      ensures node == EmitNamedTask(Value())
    {
      ghost var slots := NamedTaskTable(Value());
      node := task.Emit();
      var es := node.entries;
      es := Put(es, "vm-name", OfText(vmName), slots, 3);
      node := Map(es);
    }

    method Load(node: Node) returns (r: Result<()>)
      requires Valid()
      modifies this, task
      ensures Valid()
      ensures r.Ok? <==> NamedTaskFits(node)
      ensures r.Ok? ==> NamedTaskTakes(old(Value()), node, Value())
      ensures r.Ok? <==> LoadNamedTask(old(Value()), node).Ok?
      ensures r.Ok? ==> Value() == LoadNamedTask(old(Value()), node).value
    {
      NamedTaskByKey(Value(), node);
      var done :- task.Load(node);
      vmName :- LoadRequired(node, "vm-name", AsText);
      return Ok(());
    }
  }
}
