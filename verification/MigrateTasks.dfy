/** The migrate and evacuate tasks, with their options in a nested map. */
module MigrateTasks {
  import opened Results
  import opened Yaml
  import opened Tasks

  /** The nested map of options, which is there only when an option is. */
  function Parameter(options: seq<Slot>): Option<Node> {
    if Present(options) == [] then None else Some(Map(Present(options)))
  }

  lemma {:induction false} NothingIsPresent(slots: seq<Slot>)
    requires forall i | 0 <= i < |slots| :: slots[i].node.None?
    ensures Present(slots) == []
  {
    if slots == [] {
    } else {
      assert forall i | 0 <= i < |slots| - 1 :: slots[1..][i] == slots[i + 1];
      NothingIsPresent(slots[1..]);
    }
  }

  // ---- Migrate -----------------------------------------------------------------------

  /** The options of a migration, emitted under "parameter". */
  datatype MigrateOptions = MigrateOptions(
    retryCounter: Option<uint32>,
    migrationType: Option<string>,
    rdmaMigration: Option<bool>,
    pscomHookProcs: Option<string>,
    transport: Option<string>,
    swapWith: Option<SwapWith>,
    vcpuMap: Option<Matrix>)

  const NEW_MIGRATE_OPTIONS := MigrateOptions(None, None, None, None, None, None, None)

  const MIGRATE_OPTION_KEYS :=
    ["retry_counter", "migration-type", "rdma-migration", "pscom-hook-procs", "transport", "swap-with", "vcpu-map"]

  function MigrateOptionSlots(v: MigrateOptions): seq<Slot>
  {
    [Slot("retry_counter", MapOption(v.retryCounter, OfUint32)),
     Slot("migration-type", MapOption(v.migrationType, OfText)),
     Slot("rdma-migration", MapOption(v.rdmaMigration, OfFlag)),
     Slot("pscom-hook-procs", MapOption(v.pscomHookProcs, OfText)),
     Slot("transport", MapOption(v.transport, OfText)),
     Slot("swap-with", MapOption(v.swapWith, EmitSwapWith)),
     Slot("vcpu-map", MapOption(v.vcpuMap, OfMatrix))]
  }

  function LoadMigrateOptions(was: MigrateOptions, n: Node): Result<MigrateOptions> {
    var retryCounter :- LoadField(was.retryCounter, n, "retry_counter", AsUint32);
    var migrationType :- LoadField(was.migrationType, n, "migration-type", AsText);
    var rdmaMigration :- LoadField(was.rdmaMigration, n, "rdma-migration", AsFlag);
    var pscomHookProcs :- LoadField(was.pscomHookProcs, n, "pscom-hook-procs", AsText);
    var transport :- LoadField(was.transport, n, "transport", AsText);
    var swapWith :- LoadField(was.swapWith, n, "swap-with", ReadSwapWith);
    var vcpuMap :- LoadField(was.vcpuMap, n, "vcpu-map", AsMatrix);
    Ok(MigrateOptions(retryCounter, migrationType, rdmaMigration, pscomHookProcs, transport, swapWith, vcpuMap))
  }

  predicate MigrateOptionsFit(n: Node) {
    && !n.Scalar?
    && Fits(n, "retry_counter", AsUint32)
    && Fits(n, "migration-type", AsText)
    && Fits(n, "rdma-migration", AsFlag)
    && Fits(n, "pscom-hook-procs", AsText)
    && Fits(n, "transport", AsText)
    && Fits(n, "swap-with", ReadSwapWith)
    && Fits(n, "vcpu-map", AsMatrix)
  }

  /** The state after a load, key by key. */
  ghost predicate MigrateOptionsTake(was: MigrateOptions, n: Node, now: MigrateOptions) {
    && Takes(was.retryCounter, n, "retry_counter", AsUint32, now.retryCounter)
    && Takes(was.migrationType, n, "migration-type", AsText, now.migrationType)
    && Takes(was.rdmaMigration, n, "rdma-migration", AsFlag, now.rdmaMigration)
    && Takes(was.pscomHookProcs, n, "pscom-hook-procs", AsText, now.pscomHookProcs)
    && Takes(was.transport, n, "transport", AsText, now.transport)
    && Takes(was.swapWith, n, "swap-with", ReadSwapWith, now.swapWith)
    && Takes(was.vcpuMap, n, "vcpu-map", AsMatrix, now.vcpuMap)
  }

  lemma MigrateOptionsByKey(was: MigrateOptions, n: Node)
    ensures LoadMigrateOptions(was, n).Ok? <==> MigrateOptionsFit(n)
    ensures LoadMigrateOptions(was, n).Ok? ==> MigrateOptionsTake(was, n, LoadMigrateOptions(was, n).value)
  {
  }

  lemma MigrateOptionsDetermined(was: MigrateOptions, n: Node, a: MigrateOptions, b: MigrateOptions)
    requires MigrateOptionsTake(was, n, a) && MigrateOptionsTake(was, n, b)
    ensures a == b
  {
  }

  lemma MigrateOptionKeysAreDistinct(v: MigrateOptions)
    ensures DistinctKeys(MigrateOptionSlots(v))
  {
    DistinctByKeys(MigrateOptionSlots(v), MIGRATE_OPTION_KEYS);
  }

  lemma MigrateOptionsLoad(v: MigrateOptions, n: Node)
    requires Carries(n, MigrateOptionSlots(v))
    ensures LoadMigrateOptions(NEW_MIGRATE_OPTIONS, n) == Ok(v)
  {
    var s := MigrateOptionSlots(v);
    CodecsRoundTrip();
    SwapWithInverse();
    FieldRoundTrip(v.retryCounter, n, s[0].key, OfUint32, AsUint32);
    FieldRoundTrip(v.migrationType, n, s[1].key, OfText, AsText);
    FieldRoundTrip(v.rdmaMigration, n, s[2].key, OfFlag, AsFlag);
    FieldRoundTrip(v.pscomHookProcs, n, s[3].key, OfText, AsText);
    FieldRoundTrip(v.transport, n, s[4].key, OfText, AsText);
    FieldRoundTrip(v.swapWith, n, s[5].key, EmitSwapWith, ReadSwapWith);
    FieldRoundTrip(v.vcpuMap, n, s[6].key, OfMatrix, AsMatrix);
  }

  /** Options that emit nothing are the fresh ones. */
  lemma NoMigrateOptions(v: MigrateOptions)
    requires Present(MigrateOptionSlots(v)) == []
    ensures v == NEW_MIGRATE_OPTIONS
  {
    var s := MigrateOptionSlots(v);
    NothingPresent(s);
    assert s[0].node.None? && s[1].node.None? && s[2].node.None?
        && s[3].node.None? && s[4].node.None? && s[5].node.None? && s[6].node.None?;
  }

  lemma MigrateParameterRoundTrip(v: MigrateOptions, n: Node)
    requires n.Map? && Find(n.entries, "parameter") == Parameter(MigrateOptionSlots(v))
    ensures LoadMigrateParameter(NEW_MIGRATE_OPTIONS, n) == Ok(v)
  {
    if Present(MigrateOptionSlots(v)) == [] {
      NoMigrateOptions(v);
    } else {
      MigrateOptionKeysAreDistinct(v);
      TableCarries(MigrateOptionSlots(v));
      MigrateOptionsLoad(v, Map(Present(MigrateOptionSlots(v))));
    }
  }

  function LoadMigrateParameter(was: MigrateOptions, n: Node): Result<MigrateOptions> {
    var field :- Field(n, "parameter");
    if field.None? then Ok(was) else LoadMigrateOptions(was, field.value)
  }

  datatype Migrate = Migrate(task: Task, vmName: string, destHostname: string, options: MigrateOptions)

  const NEW_MIGRATE := Migrate(NEW_TASK, "", "", NEW_MIGRATE_OPTIONS)

  const MIGRATE_KEYS := TASK_KEYS + ["vm-name", "destination", "parameter"]

  function MigrateSlots(v: Migrate): seq<Slot>
  {
    TaskSlots(v.task) +
    [Slot("vm-name", Some(OfText(v.vmName))),
     Slot("destination", Some(OfText(v.destHostname))),
     Slot("parameter", Parameter(MigrateOptionSlots(v.options)))]
  }

  function EmitMigrate(v: Migrate): Node { Map(Present(MigrateSlots(v))) }

  function LoadMigrate(was: Migrate, n: Node): Result<Migrate> {
    var task :- LoadTask(was.task, n);
    var vmName :- LoadRequired(n, "vm-name", AsText);
    var destHostname :- LoadRequired(n, "destination", AsText);
    var options :- LoadMigrateParameter(was.options, n);
    Ok(Migrate(task, vmName, destHostname, options))
  }

  predicate MigrateFits(n: Node) {
    && TaskFits(n)
    && Supplies(n, "vm-name", AsText)
    && Supplies(n, "destination", AsText)
    && (At(n, "parameter").Some? ==> MigrateOptionsFit(At(n, "parameter").value))
  }

  /** The state after a load, key by key. */
  ghost predicate MigrateTakes(was: Migrate, n: Node, now: Migrate) {
    && TaskTakes(was.task, n, now.task)
    && Holds(n, "vm-name", AsText, now.vmName)
    && Holds(n, "destination", AsText, now.destHostname)
    && (match At(n, "parameter")
        case None => now.options == was.options
        case Some(params) => MigrateOptionsTake(was.options, params, now.options))
  }

  lemma MigrateByKey(was: Migrate, n: Node)
    ensures LoadMigrate(was, n).Ok? <==> MigrateFits(n)
    ensures LoadMigrate(was, n).Ok? ==> MigrateTakes(was, n, LoadMigrate(was, n).value)
  {
    TaskByKey(was.task, n);
    if At(n, "parameter").Some? {
      MigrateOptionsByKey(was.options, At(n, "parameter").value);
    }
  }

  lemma MigrateKeysAreDistinct(v: Migrate)
    ensures DistinctKeys(MigrateSlots(v))
  {
    MigrateKeys(v);
    DistinctByKeys(MigrateSlots(v), MIGRATE_KEYS);
  }

  lemma MigrateKeys(v: Migrate)
    ensures KeysOf(MigrateSlots(v), MIGRATE_KEYS) && Distinct(MIGRATE_KEYS)
    ensures MIGRATE_KEYS[0] == "concurrent-execution" && "task" !in MIGRATE_KEYS && "id" !in MIGRATE_KEYS
  {
  }

  lemma MigrateLoads(v: Migrate, n: Node)
    requires Carries(n, MigrateSlots(v))
    ensures LoadMigrate(NEW_MIGRATE, n) == Ok(v)
  {
    var s := MigrateSlots(v);
    assert forall i | 0 <= i < 3 :: TaskSlots(v.task)[i] == s[i];
    TaskLoads(v.task, n);
    RequiredRoundTrip(v.vmName, n, s[3].key, OfText, AsText);
    RequiredRoundTrip(v.destHostname, n, s[4].key, OfText, AsText);
    assert s[5].key == "parameter";
    MigrateParameterRoundTrip(v.options, n);
  }

  lemma MigrateRoundTrip(v: Migrate)
    ensures LoadMigrate(NEW_MIGRATE, EmitMigrate(v)) == Ok(v)
  {
    MigrateKeysAreDistinct(v);
    TableCarries(MigrateSlots(v));
    MigrateLoads(v, EmitMigrate(v));
  }

  lemma MigrateOptionTable(v: MigrateOptions) returns (slots: seq<Slot>)
    ensures Built(slots, 0, []) && |slots| == 7
    ensures slots[0] == Slot("retry_counter", MapOption(v.retryCounter, OfUint32))
    ensures slots[1] == Slot("migration-type", MapOption(v.migrationType, OfText))
    ensures slots[2] == Slot("rdma-migration", MapOption(v.rdmaMigration, OfFlag))
    ensures slots[3] == Slot("pscom-hook-procs", MapOption(v.pscomHookProcs, OfText))
    ensures slots[4] == Slot("transport", MapOption(v.transport, OfText))
    ensures slots[5] == Slot("swap-with", MapOption(v.swapWith, EmitSwapWith))
    ensures slots[6] == Slot("vcpu-map", MapOption(v.vcpuMap, OfMatrix))
    ensures forall es | Built(slots, 7, es) :: es == Present(MigrateOptionSlots(v))
  {
    slots := MigrateOptionSlots(v);
    MigrateOptionKeysAreDistinct(v);
    assert slots[..7] == slots;
  }

  /** The parameter map is written exactly when some option is set. */
  lemma MigrateParameterIsWritten(v: Migrate)
    ensures Find(EmitMigrate(v).entries, "parameter") ==
            if v.options == NEW_MIGRATE_OPTIONS then None else Some(Map(Present(MigrateOptionSlots(v.options))))
  {
    MigrateKeysAreDistinct(v);
    FindAll(MigrateSlots(v));
    assert MigrateSlots(v)[5] == Slot("parameter", Parameter(MigrateOptionSlots(v.options)));
    if Present(MigrateOptionSlots(v.options)) == [] {
      NoMigrateOptions(v.options);
    } else if v.options == NEW_MIGRATE_OPTIONS {
      NothingIsPresent(MigrateOptionSlots(v.options));
    }
  }

  lemma MigrateTable(v: Migrate) returns (slots: seq<Slot>)
    ensures Built(slots, 3, EmitTask(v.task).entries) && |slots| == 6
    ensures slots[3] == Slot("vm-name", Some(OfText(v.vmName)))
    ensures slots[4] == Slot("destination", Some(OfText(v.destHostname)))
    ensures slots[5] == Slot("parameter", Parameter(MigrateOptionSlots(v.options)))
    ensures forall es | Built(slots, 6, es) :: EmitMigrate(v) == Map(es)
  {
    slots := MigrateSlots(v);
    MigrateKeysAreDistinct(v);
    assert slots[..3] == TaskSlots(v.task) && slots[..6] == slots;
  }

  class MigrateObject {
    const task: TaskObject
    var vmName: string
    var destHostname: string
    var retryCounter: Optional<uint32>
    var migrationType: Optional<string>
    var rdmaMigration: Optional<bool>
    var pscomHookProcs: Optional<string>
    var transport: Optional<string>
    var swapWith: Optional<SwapWith>
    var vcpuMap: Optional<Matrix>

    constructor ()
      ensures Valid() && Value() == NEW_MIGRATE && fresh(task)
    {
      task := new TaskObject();
      vmName, destHostname := "", "";
      retryCounter := Optional("retry_counter", None);
      migrationType := Optional("migration-type", None);
      rdmaMigration := Optional("rdma-migration", None);
      pscomHookProcs := Optional("pscom-hook-procs", None);
      transport := Optional("transport", None);
      swapWith := Optional("swap-with", None);
      vcpuMap := Optional("vcpu-map", None);
    }

    /** The Optionals carry the tags their constructor gave them. */
    ghost predicate Valid()
      reads this, task
    {
      && task.Valid()
      && retryCounter.tag == "retry_counter"
      && migrationType.tag == "migration-type"
      && rdmaMigration.tag == "rdma-migration"
      && pscomHookProcs.tag == "pscom-hook-procs"
      && transport.tag == "transport"
      && swapWith.tag == "swap-with"
      && vcpuMap.tag == "vcpu-map"
    }

    function Options(): MigrateOptions
      reads this
    {
      MigrateOptions(retryCounter.value, migrationType.value, rdmaMigration.value, pscomHookProcs.value,
                     transport.value, swapWith.value, vcpuMap.value)
    }

    function Value(): Migrate
      reads this, task
    {
      Migrate(task.Value(), vmName, destHostname, Options())
    }

    /** The merges into node["parameter"]. */
    method EmitOptions() returns (params: seq<Entry>)
      requires Valid()
      ensures params == Present(MigrateOptionSlots(Options()))
    {
      ghost var options := MigrateOptionTable(Options());
      params := [];
      params := MergeOptional(params, retryCounter, OfUint32, options, 0);
      params := MergeOptional(params, migrationType, OfText, options, 1);
      params := MergeOptional(params, rdmaMigration, OfFlag, options, 2);
      params := MergeOptional(params, pscomHookProcs, OfText, options, 3);
      params := MergeOptional(params, transport, OfText, options, 4);
      params := MergeOptional(params, swapWith, EmitSwapWith, options, 5);
      params := MergeOptional(params, vcpuMap, OfMatrix, options, 6);
    }

    /** The loads from node["parameter"]. */
    method LoadOptions(params: Node) returns (r: Result<()>)
      requires Valid()
      modifies `retryCounter, `migrationType, `rdmaMigration, `pscomHookProcs, `transport, `swapWith, `vcpuMap
      ensures Valid()
      ensures r.Ok? <==> LoadMigrateOptions(old(Options()), params).Ok?
      ensures r.Ok? ==> Options() == LoadMigrateOptions(old(Options()), params).value
    {
      MigrateOptionsByKey(Options(), params);
      ghost var was := Options();
      var done :- LoadFirstOptions(params);
      done :- LoadOtherOptions(params);
      MigrateOptionsDetermined(was, params, Options(), LoadMigrateOptions(was, params).value);
      return Ok(());
    }

    /** The first four of them. */
    method LoadFirstOptions(params: Node) returns (r: Result<()>)
      requires Valid()
      modifies `retryCounter, `migrationType, `rdmaMigration, `pscomHookProcs
      ensures Valid()
      ensures r.Ok? <==>
                && !params.Scalar?
                && Fits(params, "retry_counter", AsUint32)
                && Fits(params, "migration-type", AsText)
                && Fits(params, "rdma-migration", AsFlag)
                && Fits(params, "pscom-hook-procs", AsText)
      ensures r.Ok? ==>
                && Takes(old(retryCounter.value), params, "retry_counter", AsUint32, retryCounter.value)
                && Takes(old(migrationType.value), params, "migration-type", AsText, migrationType.value)
                && Takes(old(rdmaMigration.value), params, "rdma-migration", AsFlag, rdmaMigration.value)
                && Takes(old(pscomHookProcs.value), params, "pscom-hook-procs", AsText, pscomHookProcs.value)
    {
      retryCounter :- LoadOptional(retryCounter, params, AsUint32);
      migrationType :- LoadOptional(migrationType, params, AsText);
      rdmaMigration :- LoadOptional(rdmaMigration, params, AsFlag);
      pscomHookProcs :- LoadOptional(pscomHookProcs, params, AsText);
      return Ok(());
    }

    /** And the others. */
    method LoadOtherOptions(params: Node) returns (r: Result<()>)
      requires Valid()
      modifies `transport, `swapWith, `vcpuMap
      ensures Valid()
      ensures r.Ok? <==>
                && !params.Scalar?
                && Fits(params, "transport", AsText)
                && Fits(params, "swap-with", ReadSwapWith)
                && Fits(params, "vcpu-map", AsMatrix)
      ensures r.Ok? ==>
                && Takes(old(transport.value), params, "transport", AsText, transport.value)
                && Takes(old(swapWith.value), params, "swap-with", ReadSwapWith, swapWith.value)
                && Takes(old(vcpuMap.value), params, "vcpu-map", AsMatrix, vcpuMap.value)
    {
      transport :- LoadOptional(transport, params, AsText);
      swapWith :- LoadOptional(swapWith, params, ReadSwapWith);
      vcpuMap :- LoadOptional(vcpuMap, params, AsMatrix);
      return Ok(());
    }

    method Emit() returns (node: Node)
      requires Valid()
      ensures node == EmitMigrate(Value())
    {
      ghost var slots := MigrateTable(Value());
      node := task.Emit();
      var es := node.entries;
      es := Put(es, "vm-name", OfText(vmName), slots, 3);
      es := Put(es, "destination", OfText(destHostname), slots, 4);
      var params := EmitOptions();
      // node["parameter"] stays undefined until something is put into it.
      if params != [] {
        es := Put(es, "parameter", Map(params), slots, 5);
      } else {
        SkipSlot(slots, 5, es);
      }
      node := Map(es);
    }

    method Load(node: Node) returns (r: Result<()>)
      requires Valid()
      modifies this, task
      ensures Valid()
      ensures r.Ok? <==> MigrateFits(node)
      ensures r.Ok? ==> MigrateTakes(old(Value()), node, Value())
      ensures r.Ok? <==> LoadMigrate(old(Value()), node).Ok?
      ensures r.Ok? ==> Value() == LoadMigrate(old(Value()), node).value
    {
      MigrateByKey(Value(), node);
      var done :- task.Load(node);
      vmName :- LoadRequired(node, "vm-name", AsText);
      destHostname :- LoadRequired(node, "destination", AsText);
      match Field(node, "parameter") {
        case Ok(Some(params)) => done :- LoadOptions(params);
        case _ =>
      }
      return Ok(());
    }
  }

  // ---- Evacuate ----------------------------------------------------------------------

  /** The options of an evacuation, emitted under "parameter". */
  datatype EvacuateOptions = EvacuateOptions(
    mode: Option<string>,
    overbooking: Option<bool>,
    retryCounter: Option<uint32>,
    migrationType: Option<string>,
    rdmaMigration: Option<bool>,
    pscomHookProcs: Option<string>,
    transport: Option<string>)

  const NEW_EVACUATE_OPTIONS := EvacuateOptions(None, None, None, None, None, None, None)

  const EVACUATE_OPTION_KEYS :=
    ["mode", "overbooking", "retry_counter", "migration-type", "rdma-migration", "pscom-hook-procs", "transport"]

  function EvacuateOptionSlots(v: EvacuateOptions): seq<Slot>
  {
    [Slot("mode", MapOption(v.mode, OfText)),
     Slot("overbooking", MapOption(v.overbooking, OfFlag)),
     Slot("retry_counter", MapOption(v.retryCounter, OfUint32)),
     Slot("migration-type", MapOption(v.migrationType, OfText)),
     Slot("rdma-migration", MapOption(v.rdmaMigration, OfFlag)),
     Slot("pscom-hook-procs", MapOption(v.pscomHookProcs, OfText)),
     Slot("transport", MapOption(v.transport, OfText))]
  }

  function LoadEvacuateOptions(was: EvacuateOptions, n: Node): Result<EvacuateOptions> {
    var mode :- LoadField(was.mode, n, "mode", AsText);
    var overbooking :- LoadField(was.overbooking, n, "overbooking", AsFlag);
    var retryCounter :- LoadField(was.retryCounter, n, "retry_counter", AsUint32);
    var migrationType :- LoadField(was.migrationType, n, "migration-type", AsText);
    var rdmaMigration :- LoadField(was.rdmaMigration, n, "rdma-migration", AsFlag);
    var pscomHookProcs :- LoadField(was.pscomHookProcs, n, "pscom-hook-procs", AsText);
    var transport :- LoadField(was.transport, n, "transport", AsText);
    Ok(EvacuateOptions(mode, overbooking, retryCounter, migrationType, rdmaMigration, pscomHookProcs, transport))
  }

  predicate EvacuateOptionsFit(n: Node) {
    && !n.Scalar?
    && Fits(n, "mode", AsText)
    && Fits(n, "overbooking", AsFlag)
    && Fits(n, "retry_counter", AsUint32)
    && Fits(n, "migration-type", AsText)
    && Fits(n, "rdma-migration", AsFlag)
    && Fits(n, "pscom-hook-procs", AsText)
    && Fits(n, "transport", AsText)
  }

  /** The state after a load, key by key. */
  ghost predicate EvacuateOptionsTake(was: EvacuateOptions, n: Node, now: EvacuateOptions) {
    && Takes(was.mode, n, "mode", AsText, now.mode)
    && Takes(was.overbooking, n, "overbooking", AsFlag, now.overbooking)
    && Takes(was.retryCounter, n, "retry_counter", AsUint32, now.retryCounter)
    && Takes(was.migrationType, n, "migration-type", AsText, now.migrationType)
    && Takes(was.rdmaMigration, n, "rdma-migration", AsFlag, now.rdmaMigration)
    && Takes(was.pscomHookProcs, n, "pscom-hook-procs", AsText, now.pscomHookProcs)
    && Takes(was.transport, n, "transport", AsText, now.transport)
  }

  lemma EvacuateOptionsByKey(was: EvacuateOptions, n: Node)
    ensures LoadEvacuateOptions(was, n).Ok? <==> EvacuateOptionsFit(n)
    ensures LoadEvacuateOptions(was, n).Ok? ==> EvacuateOptionsTake(was, n, LoadEvacuateOptions(was, n).value)
  {
  }

  lemma EvacuateOptionsDetermined(was: EvacuateOptions, n: Node, a: EvacuateOptions, b: EvacuateOptions)
    requires EvacuateOptionsTake(was, n, a) && EvacuateOptionsTake(was, n, b)
    ensures a == b
  {
  }

  lemma EvacuateOptionKeysAreDistinct(v: EvacuateOptions)
    ensures DistinctKeys(EvacuateOptionSlots(v))
  {
    DistinctByKeys(EvacuateOptionSlots(v), EVACUATE_OPTION_KEYS);
  }

  lemma EvacuateOptionsLoad(v: EvacuateOptions, n: Node)
    requires Carries(n, EvacuateOptionSlots(v))
    ensures LoadEvacuateOptions(NEW_EVACUATE_OPTIONS, n) == Ok(v)
  {
    var s := EvacuateOptionSlots(v);
    CodecsRoundTrip();
    FieldRoundTrip(v.mode, n, s[0].key, OfText, AsText);
    FieldRoundTrip(v.overbooking, n, s[1].key, OfFlag, AsFlag);
    FieldRoundTrip(v.retryCounter, n, s[2].key, OfUint32, AsUint32);
    FieldRoundTrip(v.migrationType, n, s[3].key, OfText, AsText);
    FieldRoundTrip(v.rdmaMigration, n, s[4].key, OfFlag, AsFlag);
    FieldRoundTrip(v.pscomHookProcs, n, s[5].key, OfText, AsText);
    FieldRoundTrip(v.transport, n, s[6].key, OfText, AsText);
  }

  /** Options that emit nothing are the fresh ones. */
  lemma NoEvacuateOptions(v: EvacuateOptions)
    requires Present(EvacuateOptionSlots(v)) == []
    ensures v == NEW_EVACUATE_OPTIONS
  {
    var s := EvacuateOptionSlots(v);
    NothingPresent(s);
    assert s[0].node.None? && s[1].node.None? && s[2].node.None?
        && s[3].node.None? && s[4].node.None? && s[5].node.None? && s[6].node.None?;
  }

  lemma EvacuateParameterRoundTrip(v: EvacuateOptions, n: Node)
    requires n.Map? && Find(n.entries, "parameter") == Parameter(EvacuateOptionSlots(v))
    ensures LoadEvacuateParameter(NEW_EVACUATE_OPTIONS, n) == Ok(v)
  {
    if Present(EvacuateOptionSlots(v)) == [] {
      NoEvacuateOptions(v);
    } else {
      EvacuateOptionKeysAreDistinct(v);
      TableCarries(EvacuateOptionSlots(v));
      EvacuateOptionsLoad(v, Map(Present(EvacuateOptionSlots(v))));
    }
  }

  function LoadEvacuateParameter(was: EvacuateOptions, n: Node): Result<EvacuateOptions> {
    var field :- Field(n, "parameter");
    if field.None? then Ok(was) else LoadEvacuateOptions(was, field.value)
  }

  datatype Evacuate = Evacuate(task: Task, destinations: seq<string>, options: EvacuateOptions, vmName: Option<string>)

  const NEW_EVACUATE := Evacuate(NEW_TASK, [], NEW_EVACUATE_OPTIONS, None)

  const EVACUATE_KEYS := TASK_KEYS + ["destinations", "parameter", "vm-name"]

  function EvacuateSlots(v: Evacuate): seq<Slot>
  {
    TaskSlots(v.task) +
    [Slot("destinations", Some(OfTexts(v.destinations))),
     Slot("parameter", Parameter(EvacuateOptionSlots(v.options))),
     Slot("vm-name", MapOption(v.vmName, OfText))]
  }

  function EmitEvacuate(v: Evacuate): Node { Map(Present(EvacuateSlots(v))) }

  function LoadEvacuate(was: Evacuate, n: Node): Result<Evacuate> {
    var task :- LoadTask(was.task, n);
    var destinations :- LoadRequired(n, "destinations", AsTexts);
    var options :- LoadEvacuateParameter(was.options, n);
    var vmName :- LoadField(was.vmName, n, "vm-name", AsText);
    Ok(Evacuate(task, destinations, options, vmName))
  }

  predicate EvacuateFits(n: Node) {
    && TaskFits(n)
    && Supplies(n, "destinations", AsTexts)
    && (At(n, "parameter").Some? ==> EvacuateOptionsFit(At(n, "parameter").value))
    && Fits(n, "vm-name", AsText)
  }

  /** The state after a load, key by key. */
  ghost predicate EvacuateTakes(was: Evacuate, n: Node, now: Evacuate) {
    && TaskTakes(was.task, n, now.task)
    && Holds(n, "destinations", AsTexts, now.destinations)
    && (match At(n, "parameter")
        case None => now.options == was.options
        case Some(params) => EvacuateOptionsTake(was.options, params, now.options))
    && Takes(was.vmName, n, "vm-name", AsText, now.vmName)
  }

  lemma EvacuateByKey(was: Evacuate, n: Node)
    ensures LoadEvacuate(was, n).Ok? <==> EvacuateFits(n)
    ensures LoadEvacuate(was, n).Ok? ==> EvacuateTakes(was, n, LoadEvacuate(was, n).value)
  {
    TaskByKey(was.task, n);
    if At(n, "parameter").Some? {
      EvacuateOptionsByKey(was.options, At(n, "parameter").value);
    }
  }

  lemma EvacuateKeysAreDistinct(v: Evacuate)
    ensures DistinctKeys(EvacuateSlots(v))
  {
    EvacuateKeys(v);
    DistinctByKeys(EvacuateSlots(v), EVACUATE_KEYS);
  }

  lemma EvacuateKeys(v: Evacuate)
    ensures KeysOf(EvacuateSlots(v), EVACUATE_KEYS) && Distinct(EVACUATE_KEYS)
    ensures EVACUATE_KEYS[0] == "concurrent-execution" && "task" !in EVACUATE_KEYS && "id" !in EVACUATE_KEYS
  {
  }

  lemma EvacuateLoads(v: Evacuate, n: Node)
    requires Carries(n, EvacuateSlots(v))
    ensures LoadEvacuate(NEW_EVACUATE, n) == Ok(v)
  {
    var s := EvacuateSlots(v);
    assert forall i | 0 <= i < 3 :: TaskSlots(v.task)[i] == s[i];
    TaskLoads(v.task, n);
    CodecsRoundTrip();
    RequiredRoundTrip(v.destinations, n, s[3].key, OfTexts, AsTexts);
    assert s[4].key == "parameter";
    EvacuateParameterRoundTrip(v.options, n);
    FieldRoundTrip(v.vmName, n, s[5].key, OfText, AsText);
  }

  lemma EvacuateRoundTrip(v: Evacuate)
    ensures LoadEvacuate(NEW_EVACUATE, EmitEvacuate(v)) == Ok(v)
  {
    EvacuateKeysAreDistinct(v);
    TableCarries(EvacuateSlots(v));
    EvacuateLoads(v, EmitEvacuate(v));
  }

  lemma EvacuateOptionTable(v: EvacuateOptions) returns (slots: seq<Slot>)
    ensures Built(slots, 0, []) && |slots| == 7
    ensures slots[0] == Slot("mode", MapOption(v.mode, OfText))
    ensures slots[1] == Slot("overbooking", MapOption(v.overbooking, OfFlag))
    ensures slots[2] == Slot("retry_counter", MapOption(v.retryCounter, OfUint32))
    ensures slots[3] == Slot("migration-type", MapOption(v.migrationType, OfText))
    ensures slots[4] == Slot("rdma-migration", MapOption(v.rdmaMigration, OfFlag))
    ensures slots[5] == Slot("pscom-hook-procs", MapOption(v.pscomHookProcs, OfText))
    ensures slots[6] == Slot("transport", MapOption(v.transport, OfText))
    ensures forall es | Built(slots, 7, es) :: es == Present(EvacuateOptionSlots(v))
  {
    slots := EvacuateOptionSlots(v);
    EvacuateOptionKeysAreDistinct(v);
    assert slots[..7] == slots;
  }

  /** The parameter map is written exactly when some option is set. */
  lemma EvacuateParameterIsWritten(v: Evacuate)
    ensures Find(EmitEvacuate(v).entries, "parameter") ==
            if v.options == NEW_EVACUATE_OPTIONS then None else Some(Map(Present(EvacuateOptionSlots(v.options))))
  {
    EvacuateKeysAreDistinct(v);
    FindAll(EvacuateSlots(v));
    assert EvacuateSlots(v)[4] == Slot("parameter", Parameter(EvacuateOptionSlots(v.options)));
    if Present(EvacuateOptionSlots(v.options)) == [] {
      NoEvacuateOptions(v.options);
    } else if v.options == NEW_EVACUATE_OPTIONS {
      NothingIsPresent(EvacuateOptionSlots(v.options));
    }
  }

  lemma EvacuateTable(v: Evacuate) returns (slots: seq<Slot>)
    ensures Built(slots, 3, EmitTask(v.task).entries) && |slots| == 6
    ensures slots[3] == Slot("destinations", Some(OfTexts(v.destinations)))
    ensures slots[4] == Slot("parameter", Parameter(EvacuateOptionSlots(v.options)))
    ensures slots[5] == Slot("vm-name", MapOption(v.vmName, OfText))
    ensures forall es | Built(slots, 6, es) :: EmitEvacuate(v) == Map(es)
  {
    slots := EvacuateSlots(v);
    EvacuateKeysAreDistinct(v);
    assert slots[..3] == TaskSlots(v.task) && slots[..6] == slots;
  }

  class EvacuateObject {
    const task: TaskObject
    var destinations: seq<string>
    var mode: Optional<string>
    var overbooking: Optional<bool>
    var retryCounter: Optional<uint32>
    var migrationType: Optional<string>
    var rdmaMigration: Optional<bool>
    var pscomHookProcs: Optional<string>
    var transport: Optional<string>
    var vmName: Optional<string>

    constructor ()
      ensures Valid() && Value() == NEW_EVACUATE && fresh(task)
    {
      task := new TaskObject();
      destinations := [];
      mode := Optional("mode", None);
      overbooking := Optional("overbooking", None);
      retryCounter := Optional("retry_counter", None);
      migrationType := Optional("migration-type", None);
      rdmaMigration := Optional("rdma-migration", None);
      pscomHookProcs := Optional("pscom-hook-procs", None);
      transport := Optional("transport", None);
      vmName := Optional("vm-name", None);
    }

    /** The Optionals carry the tags their constructor gave them. */
    ghost predicate Valid()
      reads this, task
    {
      && task.Valid()
      && mode.tag == "mode"
      && overbooking.tag == "overbooking"
      && retryCounter.tag == "retry_counter"
      && migrationType.tag == "migration-type"
      && rdmaMigration.tag == "rdma-migration"
      && pscomHookProcs.tag == "pscom-hook-procs"
      && transport.tag == "transport"
      && vmName.tag == "vm-name"
    }

    function Options(): EvacuateOptions
      reads this
    {
      EvacuateOptions(mode.value, overbooking.value, retryCounter.value, migrationType.value, rdmaMigration.value,
                      pscomHookProcs.value, transport.value)
    }

    function Value(): Evacuate
      reads this, task
    {
      Evacuate(task.Value(), destinations, Options(), vmName.value)
    }

    /** The merges into node["parameter"]. */
    method EmitOptions() returns (params: seq<Entry>)
      requires Valid()
      ensures params == Present(EvacuateOptionSlots(Options()))
    {
      ghost var options := EvacuateOptionTable(Options());
      params := [];
      params := MergeOptional(params, mode, OfText, options, 0);
      params := MergeOptional(params, overbooking, OfFlag, options, 1);
      params := MergeOptional(params, retryCounter, OfUint32, options, 2);
      params := MergeOptional(params, migrationType, OfText, options, 3);
      params := MergeOptional(params, rdmaMigration, OfFlag, options, 4);
      params := MergeOptional(params, pscomHookProcs, OfText, options, 5);
      params := MergeOptional(params, transport, OfText, options, 6);
    }

    /** The loads from node["parameter"]. */
    method LoadOptions(params: Node) returns (r: Result<()>)
      requires Valid()
      modifies `mode, `overbooking, `retryCounter, `migrationType, `rdmaMigration, `pscomHookProcs, `transport
      ensures Valid()
      ensures r.Ok? <==> LoadEvacuateOptions(old(Options()), params).Ok?
      ensures r.Ok? ==> Options() == LoadEvacuateOptions(old(Options()), params).value
    {
      EvacuateOptionsByKey(Options(), params);
      ghost var was := Options();
      var done :- LoadFirstOptions(params);
      done :- LoadOtherOptions(params);
      EvacuateOptionsDetermined(was, params, Options(), LoadEvacuateOptions(was, params).value);
      return Ok(());
    }

    /** The first four of them. */
    method LoadFirstOptions(params: Node) returns (r: Result<()>)
      requires Valid()
      modifies `mode, `overbooking, `retryCounter, `migrationType
      ensures Valid()
      ensures r.Ok? <==>
                && !params.Scalar?
                && Fits(params, "mode", AsText)
                && Fits(params, "overbooking", AsFlag)
                && Fits(params, "retry_counter", AsUint32)
                && Fits(params, "migration-type", AsText)
      ensures r.Ok? ==>
                && Takes(old(mode.value), params, "mode", AsText, mode.value)
                && Takes(old(overbooking.value), params, "overbooking", AsFlag, overbooking.value)
                && Takes(old(retryCounter.value), params, "retry_counter", AsUint32, retryCounter.value)
                && Takes(old(migrationType.value), params, "migration-type", AsText, migrationType.value)
    {
      mode :- LoadOptional(mode, params, AsText);
      overbooking :- LoadOptional(overbooking, params, AsFlag);
      retryCounter :- LoadOptional(retryCounter, params, AsUint32);
      migrationType :- LoadOptional(migrationType, params, AsText);
      return Ok(());
    }

    /** And the others. */
    method LoadOtherOptions(params: Node) returns (r: Result<()>)
      requires Valid()
      modifies `rdmaMigration, `pscomHookProcs, `transport
      ensures Valid()
      ensures r.Ok? <==>
                && !params.Scalar?
                && Fits(params, "rdma-migration", AsFlag)
                && Fits(params, "pscom-hook-procs", AsText)
                && Fits(params, "transport", AsText)
      ensures r.Ok? ==>
                && Takes(old(rdmaMigration.value), params, "rdma-migration", AsFlag, rdmaMigration.value)
                && Takes(old(pscomHookProcs.value), params, "pscom-hook-procs", AsText, pscomHookProcs.value)
                && Takes(old(transport.value), params, "transport", AsText, transport.value)
    {
      rdmaMigration :- LoadOptional(rdmaMigration, params, AsFlag);
      pscomHookProcs :- LoadOptional(pscomHookProcs, params, AsText);
      transport :- LoadOptional(transport, params, AsText);
      return Ok(());
    }

    method Emit() returns (node: Node)
      requires Valid()
      ensures node == EmitEvacuate(Value())
    {
      ghost var slots := EvacuateTable(Value());
      node := task.Emit();
      var es := node.entries;
      es := Put(es, "destinations", OfTexts(destinations), slots, 3);
      var params := EmitOptions();
      // node["parameter"] stays undefined until something is put into it.
      if params != [] {
        es := Put(es, "parameter", Map(params), slots, 4);
      } else {
        SkipSlot(slots, 4, es);
      }
      es := MergeOptional(es, vmName, OfText, slots, 5);
      node := Map(es);
    }

    method Load(node: Node) returns (r: Result<()>)
      requires Valid()
      modifies this, task
      ensures Valid()
      ensures r.Ok? <==> EvacuateFits(node)
      ensures r.Ok? ==> EvacuateTakes(old(Value()), node, Value())
      ensures r.Ok? <==> LoadEvacuate(old(Value()), node).Ok?
      ensures r.Ok? ==> Value() == LoadEvacuate(old(Value()), node).value
    {
      EvacuateByKey(Value(), node);
      var done :- task.Load(node);
      destinations :- LoadRequired(node, "destinations", AsTexts);
      match Field(node, "parameter") {
        case Ok(Some(params)) => done :- LoadOptions(params);
        case _ =>
      }
      vmName :- LoadOptional(vmName, node, AsText);
      return Ok(());
    }
  }
}
