/**
 * The task container: tasks of one kind behind a type text. List kinds keep their tasks in a nested
 * list; a migrate, evacuate or repin task is merged into the container's own map, where it shares the
 * key "concurrent-execution" with the container.
 */
module Containers {
  import opened Results
  import opened Yaml
  import opened Tasks
  import opened StartTask
  import opened MigrateTasks

  /** The dynamic type of a task; Plain is the base type itself. */
  datatype Kind =
    | StartKind | StopKind | MigrateKind | EvacuateKind | RepinKind | SuspendKind | ResumeKind | QuitKind | PlainKind

  datatype AnyTask =
    | AStart(start: Start)
    | AStop(stop: Stop)
    | AMigrate(migrate: Migrate)
    | AnEvacuate(evacuate: Evacuate)
    | ARepin(repin: Repin)
    | ASuspend(suspend: NamedTask)
    | AResume(resume: NamedTask)
    | AQuit(quit: Task)
    | APlain(plain: Task)

  function KindOf(t: AnyTask): Kind {
    match t
    case AStart(_) => StartKind
    case AStop(_) => StopKind
    case AMigrate(_) => MigrateKind
    case AnEvacuate(_) => EvacuateKind
    case ARepin(_) => RepinKind
    case ASuspend(_) => SuspendKind
    case AResume(_) => ResumeKind
    case AQuit(_) => QuitKind
    case APlain(_) => PlainKind
  }

  function SlotsOf(t: AnyTask): seq<Slot> {
    match t
    case AStart(v) => StartSlots(v)
    case AStop(v) => StopSlots(v)
    case AMigrate(v) => MigrateSlots(v)
    case AnEvacuate(v) => EvacuateSlots(v)
    case ARepin(v) => RepinSlots(v)
    case ASuspend(v) => NamedTaskSlots(v)
    case AResume(v) => NamedTaskSlots(v)
    case AQuit(v) => TaskSlots(v)
    case APlain(v) => TaskSlots(v)
  }

  /** The virtual emit. */
  function EmitAny(t: AnyTask): Node { Map(Present(SlotsOf(t))) }

  function Wrap<T>(r: Result<T>, make: T -> AnyTask): Result<AnyTask> {
    if r.Threw? then Threw else Ok(make(r.value))
  }

  /** A fresh task of this kind, loaded. Plain tasks are never read. */
  function ReadAny(kind: Kind, n: Node): Result<AnyTask> {
    match kind
    case StartKind => Wrap(LoadStart(NEW_START, n), v => AStart(v))
    case StopKind => Wrap(LoadStop(NEW_STOP, n), v => AStop(v))
    case MigrateKind => Wrap(LoadMigrate(NEW_MIGRATE, n), v => AMigrate(v))
    case EvacuateKind => Wrap(LoadEvacuate(NEW_EVACUATE, n), v => AnEvacuate(v))
    case RepinKind => Wrap(LoadRepin(NEW_REPIN, n), v => ARepin(v))
    case SuspendKind => Wrap(LoadNamedTask(NEW_NAMED_TASK, n), v => ASuspend(v))
    case ResumeKind => Wrap(LoadNamedTask(NEW_NAMED_TASK, n), v => AResume(v))
    case QuitKind => Wrap(LoadTask(NEW_TASK, n), v => AQuit(v))
    case PlainKind => Threw
  }

  // ---- type texts ----------------------------------------------------------------------

  function TypeText(kind: Kind, resultFormat: bool): string
    requires !kind.PlainKind?
  {
    match kind
    case StartKind => if resultFormat then "vm started" else "start vm"
    case StopKind => if resultFormat then "vm stopped" else "stop vm"
    case MigrateKind => if resultFormat then "vm migrated" else "migrate vm"
    case EvacuateKind => if resultFormat then "node evacuated" else "evacuate node"
    case RepinKind => if resultFormat then "vm repinned" else "repin vm"
    case SuspendKind => if resultFormat then "vm suspended" else "suspend vm"
    case ResumeKind => if resultFormat then "vm resumed" else "resume vm"
    case QuitKind => "quit"
  }

  /** The type of a container is that of its first task. */
  function Type(tasks: seq<AnyTask>, resultFormat: bool): Result<string> {
    if tasks == [] || KindOf(tasks[0]).PlainKind? then Threw else Ok(TypeText(KindOf(tasks[0]), resultFormat))
  }

  /** The dispatch of load on the type text. */
  function KindOfText(text: string): Option<Kind> {
    if text == "start vm" then Some(StartKind)
    else if text == "stop vm" then Some(StopKind)
    else if text == "migrate vm" then Some(MigrateKind)
    else if text == "evacuate node" then Some(EvacuateKind)
    else if text == "repin vm" then Some(RepinKind)
    else if text == "suspend vm" then Some(SuspendKind)
    else if text == "resume vm" then Some(ResumeKind)
    else if text == "quit" then Some(QuitKind)
    else None
  }

  /** The two tables agree: what type prints is dispatched to the kind it was printed for. */
  lemma TypeTextsRoundTrip(kind: Kind)
    requires !kind.PlainKind?
    ensures KindOfText(TypeText(kind, false)) == Some(kind)
  {
  }

  /** The comparisons of emit with the type text. */
  lemma TypeTextDecides(kind: Kind)
    requires !kind.PlainKind?
    ensures var text := TypeText(kind, false);
            && ((text == "migrate vm" || text == "evacuate node" || text == "repin vm") <==> IsMerged(kind))
            && (text == "start vm" <==> kind.StartKind?)
  {
  }

  // ---- emit and load -------------------------------------------------------------------

  datatype Container = Container(tasks: seq<AnyTask>, concurrentExecution: Option<bool>, id: Option<string>)

  const NEW_CONTAINER := Container([], None, None)

  predicate IsMerged(kind: Kind) { kind.MigrateKind? || kind.EvacuateKind? || kind.RepinKind? }

  function ListKey(kind: Kind): string { if kind.StartKind? then "vm-configurations" else "list" }

  function Own(c: Container): seq<Slot> {
    [Slot("concurrent-execution", MapOption(c.concurrentExecution, OfFlag)), Slot("id", MapOption(c.id, OfText))]
  }

  /** The entries of the tasks, before those of the container itself. */
  function TaskEntries(tasks: seq<AnyTask>): seq<Entry>
    requires tasks != [] && !KindOf(tasks[0]).PlainKind?
  {
    var kind := KindOf(tasks[0]);
    var head := [Entry("task", OfText(TypeText(kind, false)))];
    if IsMerged(kind) then Merge(head, Present(SlotsOf(tasks[0])))
    else head + [Entry(ListKey(kind), OfList(tasks, EmitAny))]
  }

  function EmitContainer(c: Container): Result<Node> {
    if Type(c.tasks, false).Threw? then Threw
    else Ok(Map(Merge(Merge(TaskEntries(c.tasks), Present(Own(c)[..1])), Present(Own(c)[1..]))))
  }

  function ReadTasks(kind: Kind, n: Node): Result<seq<AnyTask>> {
    if IsMerged(kind) || kind.QuitKind? then
      var t :- ReadAny(kind, n);
      Ok([t])
    else
      LoadRequired(n, ListKey(kind), (x: Node) => AsList(x, (y: Node) => ReadAny(kind, y)))
  }

  function LoadContainer(was: Container, n: Node): Result<Container> {
    var field :- Required(n, "task");
    var text :- AsText(field);
    if KindOfText(text).None? then Threw
    else
      var tasks :- ReadTasks(KindOfText(text).value, n);
      var concurrentExecution :- LoadField(was.concurrentExecution, n, "concurrent-execution", AsFlag);
      var id :- LoadField(was.id, n, "id", AsText);
      Ok(Container(tasks, concurrentExecution, id))
  }

  // ---- loads, key by key ----------------------------------------------------------------

  predicate AnyFits(kind: Kind, n: Node) {
    match kind
    case StartKind => StartFits(n)
    case StopKind => StopFits(n)
    case MigrateKind => MigrateFits(n)
    case EvacuateKind => EvacuateFits(n)
    case RepinKind => RepinFits(n)
    case SuspendKind => NamedTaskFits(n)
    case ResumeKind => NamedTaskFits(n)
    case QuitKind => TaskFits(n)
    case PlainKind => false
  }

  /** A fresh task of this kind took its fields from the node. */
  ghost predicate AnyTakes(kind: Kind, n: Node, now: AnyTask) {
    KindOf(now) == kind &&
    match now
    case AStart(v) => StartTakes(NEW_START, n, v)
    case AStop(v) => StopTakes(NEW_STOP, n, v)
    case AMigrate(v) => MigrateTakes(NEW_MIGRATE, n, v)
    case AnEvacuate(v) => EvacuateTakes(NEW_EVACUATE, n, v)
    case ARepin(v) => RepinTakes(NEW_REPIN, n, v)
    case ASuspend(v) => NamedTaskTakes(NEW_NAMED_TASK, n, v)
    case AResume(v) => NamedTaskTakes(NEW_NAMED_TASK, n, v)
    case AQuit(v) => TaskTakes(NEW_TASK, n, v)
    case APlain(_) => false
  }

  lemma AnyByKey(kind: Kind, n: Node)
    ensures ReadAny(kind, n).Ok? <==> AnyFits(kind, n)
    ensures ReadAny(kind, n).Ok? ==> AnyTakes(kind, n, ReadAny(kind, n).value)
  {
    match kind
    case StartKind => StartByKey(NEW_START, n);
    case StopKind => StopByKey(NEW_STOP, n);
    case MigrateKind => MigrateByKey(NEW_MIGRATE, n);
    case EvacuateKind => EvacuateByKey(NEW_EVACUATE, n);
    case RepinKind => RepinByKey(NEW_REPIN, n);
    case SuspendKind => NamedTaskByKey(NEW_NAMED_TASK, n);
    case ResumeKind => NamedTaskByKey(NEW_NAMED_TASK, n);
    case QuitKind => TaskByKey(NEW_TASK, n);
    case PlainKind =>
  }

  /** Merged kinds and quit are read from the container's own node, the others from the items of its list. */
  predicate TasksFit(kind: Kind, n: Node) {
    if IsMerged(kind) || kind.QuitKind? then AnyFits(kind, n)
    else
      && At(n, ListKey(kind)).Some? && At(n, ListKey(kind)).value.List?
      && forall x | x in At(n, ListKey(kind)).value.items :: AnyFits(kind, x)
  }

  ghost predicate TasksTake(kind: Kind, n: Node, now: seq<AnyTask>) {
    if IsMerged(kind) || kind.QuitKind? then |now| == 1 && AnyTakes(kind, n, now[0])
    else
      && At(n, ListKey(kind)).Some? && At(n, ListKey(kind)).value.List?
      && var items := At(n, ListKey(kind)).value.items;
         |now| == |items| && forall i | 0 <= i < |items| :: AnyTakes(kind, items[i], now[i])
  }

  lemma TasksByKey(kind: Kind, n: Node)
    requires !n.Scalar?
    ensures ReadTasks(kind, n).Ok? <==> TasksFit(kind, n)
    ensures ReadTasks(kind, n).Ok? ==> TasksTake(kind, n, ReadTasks(kind, n).value)
  {
    if IsMerged(kind) || kind.QuitKind? {
      AnyByKey(kind, n);
    } else if At(n, ListKey(kind)).Some? && At(n, ListKey(kind)).value.List? {
      var items := At(n, ListKey(kind)).value.items;
      AsAllByIndex(items, (y: Node) => ReadAny(kind, y));
      forall x
        ensures ReadAny(kind, x).Ok? <==> AnyFits(kind, x)
        ensures ReadAny(kind, x).Ok? ==> AnyTakes(kind, x, ReadAny(kind, x).value)
      {
        AnyByKey(kind, x);
      }
    }
  }

  /** The kind that a message names. */
  function KindAt(n: Node): Option<Kind> {
    if At(n, "task").Some? && At(n, "task").value.Scalar? then KindOfText(At(n, "task").value.text) else None
  }

  predicate ContainerFits(n: Node) {
    && KindAt(n).Some? && TasksFit(KindAt(n).value, n)
    && Fits(n, "concurrent-execution", AsFlag) && Fits(n, "id", AsText)
  }

  /** The tasks are replaced; the container's own options follow their keys. */
  ghost predicate ContainerTakes(was: Container, n: Node, now: Container) {
    && KindAt(n).Some? && TasksTake(KindAt(n).value, n, now.tasks)
    && Takes(was.concurrentExecution, n, "concurrent-execution", AsFlag, now.concurrentExecution)
    && Takes(was.id, n, "id", AsText, now.id)
  }

  lemma ContainerByKey(was: Container, n: Node)
    ensures LoadContainer(was, n).Ok? <==> ContainerFits(n)
    ensures LoadContainer(was, n).Ok? ==> ContainerTakes(was, n, LoadContainer(was, n).value)
  {
    if KindAt(n).Some? {
      TasksByKey(KindAt(n).value, n);
      LoadFieldByKey(was.concurrentExecution, n, "concurrent-execution", AsFlag);
      LoadFieldByKey(was.id, n, "id", AsText);
    }
  }

  lemma OwnParts(c: Container)
    ensures Own(c)[..1] == [Slot("concurrent-execution", MapOption(c.concurrentExecution, OfFlag))]
    ensures Own(c)[1..] == [Slot("id", MapOption(c.id, OfText))]
  {
  }

  // ---- keys and texts in plain words -------------------------------------------------------

  /** The type texts of both formats. */
  lemma TypeTexts(t: AnyTask, more: seq<AnyTask>, resultFormat: bool)
    ensures Type([t] + more, resultFormat) ==
            match t
            case AStart(_) => Ok(if resultFormat then "vm started" else "start vm")
            case AStop(_) => Ok(if resultFormat then "vm stopped" else "stop vm")
            case AMigrate(_) => Ok(if resultFormat then "vm migrated" else "migrate vm")
            case AnEvacuate(_) => Ok(if resultFormat then "node evacuated" else "evacuate node")
            case ARepin(_) => Ok(if resultFormat then "vm repinned" else "repin vm")
            case ASuspend(_) => Ok(if resultFormat then "vm suspended" else "suspend vm")
            case AResume(_) => Ok(if resultFormat then "vm resumed" else "resume vm")
            case AQuit(_) => Ok("quit")
            case APlain(_) => Threw
  {
  }

  /** No two kinds share a type text, in one format or across the two, but for the quit text. */
  lemma TypeTextsDiffer(a: Kind, b: Kind, x: bool, y: bool)
    requires !a.PlainKind? && !b.PlainKind?
    ensures TypeText(a, x) == TypeText(b, y) <==> a == b && (x == y || a.QuitKind?)
  {
  }

  /** A list container writes its tasks in order under one key, and has nothing under the other. */
  lemma EmittedListKey(c: Container)
    requires c.tasks != [] && !KindOf(c.tasks[0]).PlainKind? && !IsMerged(KindOf(c.tasks[0]))
    ensures EmitContainer(c).Ok? && EmitContainer(c).value.Map?
    ensures var es, start := EmitContainer(c).value.entries, KindOf(c.tasks[0]).StartKind?;
            && Find(es, "vm-configurations") == (if start then Some(OfList(c.tasks, EmitAny)) else None)
            && Find(es, "list") == (if start then None else Some(OfList(c.tasks, EmitAny)))
            && Find(es, "task") == Some(Scalar(Type(c.tasks, false).value))
            && Find(es, "concurrent-execution") == MapOption(c.concurrentExecution, OfFlag)
            && Find(es, "id") == MapOption(c.id, OfText)
  {
    var s := ListSlots(c);
    ListEmits(c);
    ListKeysAreDistinct(c);
    TableCarries(s);
    assert s[0].key == "task" && s[1].key == ListKey(KindOf(c.tasks[0]));
    assert s[2].key == "concurrent-execution" && s[3].key == "id";
    FindAbsent(s, if KindOf(c.tasks[0]).StartKind? then "list" else "vm-configurations");
  }

  /** What a message says is the items of this list. */
  ghost predicate ItemsTake(kind: Kind, n: Node, key: string, now: seq<AnyTask>) {
    && At(n, key).Some? && At(n, key).value.List?
    && |now| == |At(n, key).value.items|
    && forall i | 0 <= i < |now| :: AnyTakes(kind, At(n, key).value.items[i], now[i])
  }

  predicate ItemsFit(kind: Kind, n: Node, key: string) {
    && At(n, key).Some? && At(n, key).value.List?
    && forall x | x in At(n, key).value.items :: AnyFits(kind, x)
  }

  /** Where each type of message has its tasks, and that there are no other types. */
  predicate NamedFit(text: string, n: Node) {
    if text == "start vm" then ItemsFit(StartKind, n, "vm-configurations")
    else if text == "stop vm" then ItemsFit(StopKind, n, "list")
    else if text == "suspend vm" then ItemsFit(SuspendKind, n, "list")
    else if text == "resume vm" then ItemsFit(ResumeKind, n, "list")
    else if text == "migrate vm" then MigrateFits(n)
    else if text == "evacuate node" then EvacuateFits(n)
    else if text == "repin vm" then RepinFits(n)
    else if text == "quit" then TaskFits(n)
    else false
  }

  ghost predicate NamedTake(text: string, n: Node, now: seq<AnyTask>) {
    if text == "start vm" then ItemsTake(StartKind, n, "vm-configurations", now)
    else if text == "stop vm" then ItemsTake(StopKind, n, "list", now)
    else if text == "suspend vm" then ItemsTake(SuspendKind, n, "list", now)
    else if text == "resume vm" then ItemsTake(ResumeKind, n, "list", now)
    else if text == "migrate vm" then |now| == 1 && AnyTakes(MigrateKind, n, now[0])
    else if text == "evacuate node" then |now| == 1 && AnyTakes(EvacuateKind, n, now[0])
    else if text == "repin vm" then |now| == 1 && AnyTakes(RepinKind, n, now[0])
    else text == "quit" && |now| == 1 && AnyTakes(QuitKind, n, now[0])
  }

  lemma TasksAreNamed(text: string, kind: Kind, n: Node, now: seq<AnyTask>)
    requires KindOfText(text) == Some(kind)
    ensures TasksFit(kind, n) <==> NamedFit(text, n)
    ensures TasksTake(kind, n, now) <==> NamedTake(text, n, now)
  {
  }

  /** A message is loaded if and only if its type text is one of eight, and what belongs to that text can be read. */
  lemma ContainerByText(was: Container, n: Node, text: string)
    requires At(n, "task") == Some(Scalar(text))
    ensures LoadContainer(was, n).Ok? <==>
            NamedFit(text, n) && Fits(n, "concurrent-execution", AsFlag) && Fits(n, "id", AsText)
    ensures LoadContainer(was, n).Ok? ==> NamedTake(text, n, LoadContainer(was, n).value.tasks)
  {
    ContainerByKey(was, n);
    if KindOfText(text).Some? {
      var now := if LoadContainer(was, n).Ok? then LoadContainer(was, n).value.tasks else [];
      TasksAreNamed(text, KindOfText(text).value, n, now);
    }
  }

  class ContainerObject {
    var tasks: seq<AnyTask>
    var concurrentExecution: Optional<bool>
    var id: Optional<string>

    constructor ()
      ensures Valid() && Value() == NEW_CONTAINER
    {
      tasks, concurrentExecution, id := [], Optional("concurrent-execution", None), Optional("id", None);
    }

    ghost predicate Valid()
      reads this
    {
      concurrentExecution.tag == "concurrent-execution" && id.tag == "id"
    }

    function Value(): Container
      reads this
    {
      Container(tasks, concurrentExecution.value, id.value)
    }

    method Emit() returns (r: Result<Node>)
      requires Valid()
      ensures r == EmitContainer(Value())
    {
      var text :- Type(tasks, false);
      TypeTextDecides(KindOf(tasks[0]));
      var es := [Entry("task", OfText(text))];
      if text == "migrate vm" || text == "evacuate node" || text == "repin vm" {
        es := MergeNode(es, EmitAny(tasks[0]).entries);
      } else if text == "start vm" {
        es := es + [Entry("vm-configurations", OfList(tasks, EmitAny))];
      } else {
        es := es + [Entry("list", OfList(tasks, EmitAny))];
      }
      assert es == TaskEntries(tasks);
      OwnParts(Value());
      es := MergeNode(es, EmitOptional(concurrentExecution, OfFlag));
      es := MergeNode(es, EmitOptional(id, OfText));
      return Ok(Map(es));
    }

    method Load(node: Node) returns (r: Result<()>)
      requires Valid()
      modifies this
      ensures Valid()
      ensures r.Ok? <==> ContainerFits(node)
      ensures r.Ok? ==> ContainerTakes(old(Value()), node, Value())
      ensures r.Ok? <==> LoadContainer(old(Value()), node).Ok?
      ensures r.Ok? ==> Value() == LoadContainer(old(Value()), node).value
    {
      ContainerByKey(Value(), node);
      var field :- Required(node, "task");
      var text :- AsText(field);
      var kind := KindOfText(text);
      if kind.None? {
        return Threw;  // "Unknown type of Task while loading."
      }
      tasks :- ReadTasks(kind.value, node);
      concurrentExecution :- LoadOptional(concurrentExecution, node, AsFlag);
      id :- LoadOptional(id, node, AsText);
      return Ok(());
    }
  }

  // ---- tasks of every kind --------------------------------------------------------------

  function Base(t: AnyTask): Task {
    match t
    case AStart(v) => v.task
    case AStop(v) => v.task
    case AMigrate(v) => v.task
    case AnEvacuate(v) => v.task
    case ARepin(v) => v.task
    case ASuspend(v) => v.task
    case AResume(v) => v.task
    case AQuit(v) => v
    case APlain(v) => v
  }

  function WithBase(t: AnyTask, b: Task): AnyTask {
    match t
    case AStart(v) => AStart(v.(task := b))
    case AStop(v) => AStop(v.(task := b))
    case AMigrate(v) => AMigrate(v.(task := b))
    case AnEvacuate(v) => AnEvacuate(v.(task := b))
    case ARepin(v) => ARepin(v.(task := b))
    case ASuspend(v) => ASuspend(v.(task := b))
    case AResume(v) => AResume(v.(task := b))
    case AQuit(_) => AQuit(b)
    case APlain(_) => APlain(b)
  }

  /** Tasks that are read back as they were written: all but start tasks with PCI addresses and plain tasks. */
  predicate Survives(t: AnyTask) {
    !t.APlain? && (t.AStart? ==> t.start.devices.pciAddrs == [])
  }

  lemma AnyRoundTrip(t: AnyTask)
    requires Survives(t)
    ensures ReadAny(KindOf(t), EmitAny(t)) == Ok(t)
  {
    if IsMerged(KindOf(t)) {
      MergedTable(t);
      TableCarries(SlotsOf(t));
      MergedLoads(t, EmitAny(t));
    } else if t.AStart? {
      StartRoundTrip(t.start);
    } else {
      SmallRoundTrip(t);
    }
  }

  lemma SmallRoundTrip(t: AnyTask)
    requires !IsMerged(KindOf(t)) && !t.AStart? && !t.APlain?
    ensures ReadAny(KindOf(t), EmitAny(t)) == Ok(t)
  {
    match t
    case AStop(v) => StopRoundTrip(v);
    case ASuspend(v) => NamedTaskRoundTrip(v);
    case AResume(v) => NamedTaskRoundTrip(v);
    case AQuit(v) => TaskRoundTrip(v);
  }

  lemma MergedLoads(t: AnyTask, n: Node)
    requires IsMerged(KindOf(t)) && Carries(n, SlotsOf(t))
    ensures ReadAny(KindOf(t), n) == Ok(t)
  {
    match t
    case AMigrate(v) => MigrateLoads(v, n);
    case AnEvacuate(v) => EvacuateLoads(v, n);
    case ARepin(v) => RepinLoads(v, n);
  }

  // ---- list kinds: load after emit is the identity ----------------------------------------

  predicate SameKind(tasks: seq<AnyTask>) { forall t | t in tasks :: KindOf(t) == KindOf(tasks[0]) }

  /** The container's node as a table. */
  function ListSlots(c: Container): seq<Slot>
    requires c.tasks != [] && !KindOf(c.tasks[0]).PlainKind?
  {
    var kind := KindOf(c.tasks[0]);
    [Slot("task", Some(OfText(TypeText(kind, false)))), Slot(ListKey(kind), Some(OfList(c.tasks, EmitAny)))] + Own(c)
  }

  lemma ListKeysAreDistinct(c: Container)
    requires c.tasks != [] && !KindOf(c.tasks[0]).PlainKind?
    ensures DistinctKeys(ListSlots(c))
  {
    var keys := ["task", ListKey(KindOf(c.tasks[0])), "concurrent-execution", "id"];
    DistinctByKeys(ListSlots(c), keys);
  }

  lemma ListEmits(c: Container)
    requires c.tasks != [] && !KindOf(c.tasks[0]).PlainKind? && !IsMerged(KindOf(c.tasks[0]))
    ensures EmitContainer(c) == Ok(Map(Present(ListSlots(c))))
  {
    var s := ListSlots(c);
    ListKeysAreDistinct(c);
    PresentOne(s[0]);
    PresentOne(s[1]);
    PresentAppend([s[0]], [s[1]]);
    assert s[..2] == [s[0]] + [s[1]];
    assert TaskEntries(c.tasks) == Present(s[..2]);
    MergeNext(s, 2);
    MergeNext(s, 3);
    assert Own(c)[..1] == [s[2]] && Own(c)[1..] == [s[3]];
    assert s[..4] == s;
  }

  lemma OwnLoads(c: Container, n: Node)
    requires Carries(n, Own(c))
    ensures LoadField(None, n, "concurrent-execution", AsFlag) == Ok(c.concurrentExecution)
    ensures LoadField(None, n, "id", AsText) == Ok(c.id)
  {
    CodecsRoundTrip();
    assert Own(c)[0].key == "concurrent-execution" && Own(c)[1].key == "id";
    FieldRoundTrip(c.concurrentExecution, n, "concurrent-execution", OfFlag, AsFlag);
    FieldRoundTrip(c.id, n, "id", OfText, AsText);
  }

  lemma TasksRead(tasks: seq<AnyTask>, kind: Kind)
    requires forall t | t in tasks :: KindOf(t) == kind && Survives(t)
    ensures AsAll(OfAll(tasks, EmitAny), (y: Node) => ReadAny(kind, y)) == Ok(tasks)
  {
    var dec := (y: Node) => ReadAny(kind, y);
    forall t | t in tasks
      ensures dec(EmitAny(t)) == Ok(t)
    {
      AnyRoundTrip(t);
    }
    AllRoundTrip(tasks, EmitAny, dec);
  }

  /** Start, stop, suspend and resume containers of any length are read back as they were written. */
  lemma ListRoundTrip(c: Container)
    requires c.tasks != [] && SameKind(c.tasks) && forall t | t in c.tasks :: Survives(t)
    requires !IsMerged(KindOf(c.tasks[0])) && !KindOf(c.tasks[0]).QuitKind?
    ensures EmitContainer(c).Ok? && LoadContainer(NEW_CONTAINER, EmitContainer(c).value) == Ok(c)
  {
    var kind := KindOf(c.tasks[0]);
    assert Survives(c.tasks[0]);
    var n := Map(Present(ListSlots(c)));
    ListEmits(c);
    ListKeysAreDistinct(c);
    TableCarries(ListSlots(c));
    ListNodeLoads(c, kind, n);
  }

  lemma ListNodeLoads(c: Container, kind: Kind, n: Node)
    requires c.tasks != [] && kind == KindOf(c.tasks[0]) && SameKind(c.tasks) && forall t | t in c.tasks :: Survives(t)
    requires !IsMerged(kind) && !kind.QuitKind? && !kind.PlainKind? && Carries(n, ListSlots(c))
    ensures LoadContainer(NEW_CONTAINER, n) == Ok(c)
  {
    var s := ListSlots(c);
    assert s[0] == Slot("task", Some(OfText(TypeText(kind, false))));
    assert s[1] == Slot(ListKey(kind), Some(OfList(c.tasks, EmitAny)));
    assert Carries(n, Own(c)) by {
      assert s[2] == Own(c)[0] && s[3] == Own(c)[1];
    }
    TasksRead(c.tasks, kind);
    ReadTasksList(c.tasks, kind, n);
    OwnLoads(c, n);
    DispatchLoads(c, kind, n);
  }

  lemma ReadTasksList(tasks: seq<AnyTask>, kind: Kind, n: Node)
    requires !IsMerged(kind) && !kind.QuitKind?
    requires n.Map? && Find(n.entries, ListKey(kind)) == Some(OfList(tasks, EmitAny))
    requires AsAll(OfAll(tasks, EmitAny), (y: Node) => ReadAny(kind, y)) == Ok(tasks)
    ensures ReadTasks(kind, n) == Ok(tasks)
  {
  }

  /** load, once its parts are known. */
  lemma DispatchLoads(c: Container, kind: Kind, n: Node)
    requires !kind.PlainKind? && n.Map? && Find(n.entries, "task") == Some(OfText(TypeText(kind, false)))
    requires ReadTasks(kind, n) == Ok(c.tasks)
    requires LoadField(None, n, "concurrent-execution", AsFlag) == Ok(c.concurrentExecution)
    requires LoadField(None, n, "id", AsText) == Ok(c.id)
    ensures LoadContainer(NEW_CONTAINER, n) == Ok(c)
  {
    TypeTextsRoundTrip(kind);
  }

  /** The kinds that are kept in a list, and read from it. */
  predicate IsListed(kind: Kind) { !IsMerged(kind) && !kind.QuitKind? && !kind.PlainKind? }

  /** A task that some loader gives back is of that loader's kind, and one of those that survive. */
  lemma OnlySurvivorsComeBack(kind: Kind, t: AnyTask)
    requires ReadAny(kind, EmitAny(t)) == Ok(t)
    ensures KindOf(t) == kind && Survives(t)
  {
    AnyByKey(kind, EmitAny(t));
    if t.AStart? {
      StartRoundTrip(t.start);
    }
  }

  /** A list container that comes back is of one kind, and its tasks are read back one by one. */
  lemma ListComesBack(c: Container, n: Node)
    requires c.tasks != [] && IsListed(KindOf(c.tasks[0])) && n == Map(Present(ListSlots(c)))
    requires LoadContainer(NEW_CONTAINER, n) == Ok(c)
    ensures forall t | t in c.tasks :: KindOf(t) == KindOf(c.tasks[0]) && Survives(t)
  {
    var kind, s := KindOf(c.tasks[0]), ListSlots(c);
    ListKeysAreDistinct(c);
    TableCarries(s);
    assert s[0] == Slot("task", Some(OfText(TypeText(kind, false))));
    assert s[1] == Slot(ListKey(kind), Some(OfList(c.tasks, EmitAny)));
    TypeTextsRoundTrip(kind);
    assert ReadTasks(kind, n) == Ok(c.tasks);
    AsAllByIndex(OfAll(c.tasks, EmitAny), (y: Node) => ReadAny(kind, y));
    forall t | t in c.tasks
      ensures KindOf(t) == kind && Survives(t)
    {
      var i :| 0 <= i < |c.tasks| && c.tasks[i] == t;
      OnlySurvivorsComeBack(kind, t);
    }
  }

  /** A list container survives exactly when its tasks are of one kind and each of them survives. */
  lemma ListRoundTripIff(c: Container)
    requires c.tasks != [] && IsListed(KindOf(c.tasks[0]))
    ensures EmitContainer(c).Ok?
    ensures LoadContainer(NEW_CONTAINER, EmitContainer(c).value) == Ok(c) <==>
            SameKind(c.tasks) && forall t | t in c.tasks :: Survives(t)
  {
    ListEmits(c);
    if LoadContainer(NEW_CONTAINER, EmitContainer(c).value) == Ok(c) {
      ListComesBack(c, EmitContainer(c).value);
    }
    if SameKind(c.tasks) && forall t | t in c.tasks :: Survives(t) {
      ListRoundTrip(c);
    }
  }

  // ---- merged kinds ------------------------------------------------------------------------

  function Either<T>(a: Option<T>, b: Option<T>): Option<T> { if a.Some? then a else b }

  function WithConcurrent(t: AnyTask, x: Option<bool>): AnyTask { WithBase(t, Base(t).(concurrentExecution := x)) }

  /** A merged task's table starts with the shared key, and holds none of the container's other keys. */
  lemma MergedTable(t: AnyTask)
    requires IsMerged(KindOf(t))
    ensures DistinctKeys(SlotsOf(t)) && |SlotsOf(t)| > 0
    ensures SlotsOf(t)[0] == Slot("concurrent-execution", MapOption(Base(t).concurrentExecution, OfFlag))
    ensures forall i | 0 <= i < |SlotsOf(t)| :: SlotsOf(t)[i].key != "task" && SlotsOf(t)[i].key != "id"
    ensures forall i | 0 < i < |SlotsOf(t)| :: SlotsOf(t)[i].key != "concurrent-execution"
  {
    var keys := MergedKeys(t);
    DistinctByKeys(SlotsOf(t), keys);
    MergedFirstSlot(t);
    forall i | 0 <= i < |SlotsOf(t)|
      ensures SlotsOf(t)[i].key != "task" && SlotsOf(t)[i].key != "id"
      ensures i > 0 ==> SlotsOf(t)[i].key != "concurrent-execution"
    {
      assert SlotsOf(t)[i].key == keys[i] && keys[i] in keys;
    }
  }

  lemma MergedKeys(t: AnyTask) returns (keys: seq<string>)
    requires IsMerged(KindOf(t))
    ensures KeysOf(SlotsOf(t), keys) && Distinct(keys)
    ensures |keys| > 0 && keys[0] == "concurrent-execution" && "task" !in keys && "id" !in keys
  {
    match t {
      case AMigrate(v) =>
        MigrateKeys(v);
        keys := MIGRATE_KEYS;
      case AnEvacuate(v) =>
        EvacuateKeys(v);
        keys := EVACUATE_KEYS;
      case ARepin(v) =>
        RepinKeys(v);
        keys := REPIN_KEYS;
    }
  }

  lemma MergedFirstSlot(t: AnyTask)
    requires IsMerged(KindOf(t))
    ensures |SlotsOf(t)| > 0
    ensures SlotsOf(t)[0] == Slot("concurrent-execution", MapOption(Base(t).concurrentExecution, OfFlag))
  {
  }

  /** Changing the shared option changes the first slot only. */
  lemma WithConcurrentSlots(t: AnyTask, x: Option<bool>)
    requires IsMerged(KindOf(t))
    ensures SlotsOf(WithConcurrent(t, x)) == SlotsOf(t)[0 := Slot("concurrent-execution", MapOption(x, OfFlag))]
  {
  }

  /** What each key of a merged container's node finds. */
  lemma MergedFinds(c: Container, key: string)
    requires c.tasks != [] && IsMerged(KindOf(c.tasks[0]))
    ensures EmitContainer(c).Ok? && EmitContainer(c).value.Map?
    ensures var own := Find(Present(SlotsOf(c.tasks[0])), key);
            Find(EmitContainer(c).value.entries, key) ==
            if key == "task" then Some(OfText(TypeText(KindOf(c.tasks[0]), false)))
            else if own.Some? then own
            else if key == "concurrent-execution" then MapOption(c.concurrentExecution, OfFlag)
            else if key == "id" then MapOption(c.id, OfText)
            else None
  {
    var kind := KindOf(c.tasks[0]);
    var head := [Entry("task", OfText(TypeText(kind, false)))];
    var slots := Present(SlotsOf(c.tasks[0]));
    var ce, id := Own(c)[..1], Own(c)[1..];
    MergeIsLeftBiased(head, slots, key);
    MergeIsLeftBiased(TaskEntries(c.tasks), Present(ce), key);
    MergeIsLeftBiased(Merge(TaskEntries(c.tasks), Present(ce)), Present(id), key);
    assert ce == [Own(c)[0]] && id == [Own(c)[1]];
    PresentOne(Own(c)[0]);
    PresentOne(Own(c)[1]);
    FindOne(head[0], key);
    if ce[0].node.Some? {
      FindOne(Entry(ce[0].key, ce[0].node.value), key);
    }
    if id[0].node.Some? {
      FindOne(Entry(id[0].key, id[0].node.value), key);
    }
  }

  lemma FindOne(e: Entry, key: string)
    ensures Find([e], key) == if e.key == key then Some(e.value) else None
    ensures Find([], key) == None
  {
    assert [e][1..] == [];
  }

  /**
   * A single migrate, evacuate or repin task is read back as it was written, except that both
   * concurrent-execution options become the task's if it is set, and the container's otherwise.
   */
  lemma MergedRoundTrip(c: Container)
    requires c.tasks != [] && IsMerged(KindOf(c.tasks[0]))
    ensures var x := Either(Base(c.tasks[0]).concurrentExecution, c.concurrentExecution);
            && EmitContainer(c).Ok?
            && LoadContainer(NEW_CONTAINER, EmitContainer(c).value) ==
               Ok(Container([WithConcurrent(c.tasks[0], x)], x, c.id))
  {
    MergedFinds(c, "task");
    MergedEmittedLoads(c, Either(Base(c.tasks[0]).concurrentExecution, c.concurrentExecution));
  }

  lemma MergedEmittedLoads(c: Container, x: Option<bool>)
    requires c.tasks != [] && IsMerged(KindOf(c.tasks[0])) && EmitContainer(c).Ok?
    requires x == Either(Base(c.tasks[0]).concurrentExecution, c.concurrentExecution)
    ensures LoadContainer(NEW_CONTAINER, EmitContainer(c).value) ==
            Ok(Container([WithConcurrent(c.tasks[0], x)], x, c.id))
  {
    MergedCarries(c, x);
    MergedFinds(c, "task");
    WithConcurrentKind(c.tasks[0], x);
    MergedNodeLoads(WithConcurrent(c.tasks[0], x), x, c.id, EmitContainer(c).value);
  }

  /** The shared key finds the option that was merged first, and every other key its own slot. */
  lemma MergedCarries(c: Container, x: Option<bool>)
    requires c.tasks != [] && IsMerged(KindOf(c.tasks[0]))
    requires x == Either(Base(c.tasks[0]).concurrentExecution, c.concurrentExecution)
    requires EmitContainer(c).Ok?
    ensures Carries(EmitContainer(c).value, SlotsOf(WithConcurrent(c.tasks[0], x)))
    ensures Find(EmitContainer(c).value.entries, "concurrent-execution") == MapOption(x, OfFlag)
    ensures Find(EmitContainer(c).value.entries, "id") == MapOption(c.id, OfText)
  {
    var slots := SlotsOf(c.tasks[0]);
    MergedTable(c.tasks[0]);
    FindAll(slots);
    WithConcurrentSlots(c.tasks[0], x);
    MergedFinds(c, "concurrent-execution");
    assert slots[0].key == "concurrent-execution";
    FindAbsent(slots, "id");
    MergedFinds(c, "id");
    forall i | 0 < i < |slots|
      ensures Find(EmitContainer(c).value.entries, slots[i].key) == slots[i].node
    {
      MergedFinds(c, slots[i].key);
    }
  }

  /** So it survives exactly when there is one task, and the two options agree. */
  lemma MergedRoundTripIff(c: Container)
    requires c.tasks != [] && IsMerged(KindOf(c.tasks[0]))
    ensures EmitContainer(c).Ok?
    ensures LoadContainer(NEW_CONTAINER, EmitContainer(c).value) == Ok(c) <==>
            |c.tasks| == 1 && Base(c.tasks[0]).concurrentExecution == c.concurrentExecution
  {
    MergedRoundTrip(c);
    var x := Either(Base(c.tasks[0]).concurrentExecution, c.concurrentExecution);
    WithConcurrentBase(c.tasks[0], x);
    assert |c.tasks| == 1 ==> c.tasks == [c.tasks[0]];
  }

  lemma WithConcurrentBase(t: AnyTask, x: Option<bool>)
    ensures Base(WithConcurrent(t, x)).concurrentExecution == x
    ensures WithConcurrent(t, x) == t <==> Base(t).concurrentExecution == x
  {
  }

  lemma MergedNodeLoads(t: AnyTask, x: Option<bool>, id: Option<string>, n: Node)
    requires IsMerged(KindOf(t)) && Carries(n, SlotsOf(t))
    requires Find(n.entries, "task") == Some(OfText(TypeText(KindOf(t), false)))
    requires Find(n.entries, "concurrent-execution") == MapOption(x, OfFlag)
    requires Find(n.entries, "id") == MapOption(id, OfText)
    ensures LoadContainer(NEW_CONTAINER, n) == Ok(Container([t], x, id))
  {
    TypeTextsRoundTrip(KindOf(t));
    MergedLoads(t, n);
    var c := Container([t], x, id);
    OwnLoads(c, n);
  }

  // ---- stability ------------------------------------------------------------------------------

  /** Equal as maps: the order of the entries may differ. */
  ghost predicate SameMap(a: Node, b: Node) {
    a.Map? && b.Map? && forall key :: Find(a.entries, key) == Find(b.entries, key)
  }

  lemma MergedStable(c: Container)
    requires c.tasks != [] && IsMerged(KindOf(c.tasks[0]))
    ensures var x := Either(Base(c.tasks[0]).concurrentExecution, c.concurrentExecution);
            var c' := Container([WithConcurrent(c.tasks[0], x)], x, c.id);
            EmitContainer(c).Ok? && EmitContainer(c').Ok? && SameMap(EmitContainer(c').value, EmitContainer(c).value)
  {
    var t := c.tasks[0];
    var x := Either(Base(t).concurrentExecution, c.concurrentExecution);
    var t' := WithConcurrent(t, x);
    var c' := Container([t'], x, c.id);
    MergedTable(t);
    MergedTable(t');
    WithConcurrentSlots(t, x);
    MergedFinds(c, "");
    MergedFinds(c', "");
    forall key
      ensures Find(EmitContainer(c').value.entries, key) == Find(EmitContainer(c).value.entries, key)
    {
      MergedFinds(c, key);
      MergedFinds(c', key);
      SameSlotsFind(SlotsOf(t), SlotsOf(t'), key);
      FindPresent(SlotsOf(t), 0);
      FindPresent(SlotsOf(t'), 0);
    }
  }

  /** Tables that differ in the first slot's node only find the same under other keys. */
  lemma SameSlotsFind(a: seq<Slot>, b: seq<Slot>, key: string)
    requires |a| > 0 && |a| == |b| && b == a[0 := b[0]] && a[0].key == b[0].key
    ensures key != a[0].key ==> Find(Present(a), key) == Find(Present(b), key)
  {
    PresentFirst(a, key);
    PresentFirst(b, key);
    assert a[1..] == b[1..];
  }

  /** Emitting what was loaded from an emitted container gives the same message, of the same type. */
  lemma ContainerIsStable(c: Container)
    requires c.tasks != [] && SameKind(c.tasks) && forall t | t in c.tasks :: Survives(t)
    requires !KindOf(c.tasks[0]).QuitKind?
    ensures EmitContainer(c).Ok? && LoadContainer(NEW_CONTAINER, EmitContainer(c).value).Ok?
    ensures var c' := LoadContainer(NEW_CONTAINER, EmitContainer(c).value).value;
            && EmitContainer(c').Ok? && SameMap(EmitContainer(c').value, EmitContainer(c).value)
            && Type(c'.tasks, false) == Type(c.tasks, false)
  {
    assert Survives(c.tasks[0]);
    if IsMerged(KindOf(c.tasks[0])) {
      MergedRoundTrip(c);
      MergedStable(c);
      WithConcurrentKind(c.tasks[0], Either(Base(c.tasks[0]).concurrentExecution, c.concurrentExecution));
    } else {
      ListRoundTrip(c);
      EmittedIsMap(c);
    }
  }

  lemma WithConcurrentKind(t: AnyTask, x: Option<bool>)
    ensures KindOf(WithConcurrent(t, x)) == KindOf(t)
    ensures Type([WithConcurrent(t, x)], false) == Type([t], false)
  {
  }

  lemma EmittedIsMap(c: Container)
    requires EmitContainer(c).Ok?
    ensures SameMap(EmitContainer(c).value, EmitContainer(c).value)
  {
  }

  /**
   * A quit container comes back as a single task made of the container's own option: its list is
   * written but never read. So it survives exactly when it held just that task.
   */
  lemma QuitForgetsItsTasks(c: Container)
    requires c.tasks != [] && KindOf(c.tasks[0]).QuitKind?
    ensures EmitContainer(c).Ok?
    ensures LoadContainer(NEW_CONTAINER, EmitContainer(c).value) ==
            Ok(Container([AQuit(Task(c.concurrentExecution, None, None))], c.concurrentExecution, c.id))
    ensures LoadContainer(NEW_CONTAINER, EmitContainer(c).value) == Ok(c) <==>
            c.tasks == [AQuit(Task(c.concurrentExecution, None, None))]
  {
    ListEmits(c);
    QuitFinds(c, Map(Present(ListSlots(c))));
    QuitNodeLoads(c, Map(Present(ListSlots(c))));
  }

  lemma QuitNodeLoads(c: Container, n: Node)
    requires Carries(n, Own(c)) && Find(n.entries, "task") == Some(OfText("quit"))
    requires Find(n.entries, "time-measurement") == None && Find(n.entries, "driver") == None
    ensures LoadContainer(NEW_CONTAINER, n) ==
            Ok(Container([AQuit(Task(c.concurrentExecution, None, None))], c.concurrentExecution, c.id))
  {
    OwnLoads(c, n);
    var t := Task(c.concurrentExecution, None, None);
    assert LoadTask(NEW_TASK, n) == Ok(t);
    DispatchLoads(Container([AQuit(t)], c.concurrentExecution, c.id), QuitKind, n);
  }

  lemma QuitFinds(c: Container, n: Node)
    requires c.tasks != [] && KindOf(c.tasks[0]).QuitKind? && n == Map(Present(ListSlots(c)))
    ensures Carries(n, Own(c)) && Find(n.entries, "task") == Some(OfText("quit"))
    ensures Find(n.entries, "time-measurement") == None && Find(n.entries, "driver") == None
  {
    var s := ListSlots(c);
    ListKeysAreDistinct(c);
    TableCarries(s);
    assert s[0] == Slot("task", Some(OfText("quit")));
    assert s[1].key == "list" && s[2] == Own(c)[0] && s[3] == Own(c)[1];
    FindAbsent(s, "time-measurement");
    FindAbsent(s, "driver");
  }

  // ---- loading twice is loading the merge --------------------------------------------------------

  lemma LoadTaskMerged(x: Task, n1: seq<Entry>, n2: seq<Entry>)
    requires LoadTask(x, Map(n1)).Ok? && LoadTask(x, Map(n2)).Ok?
    ensures LoadTask(LoadTask(x, Map(n1)).value, Map(n2)) == LoadTask(x, Map(Merge(n2, n1)))
  {
    LoadFieldMerged(x.concurrentExecution, n1, n2, "concurrent-execution", AsFlag);
    LoadFieldMerged(x.timeMeasurement, n1, n2, "time-measurement", AsFlag);
    LoadFieldMerged(x.driver, n1, n2, "driver", AsText);
  }

  lemma {:induction false} LoadStopMerged(x: Stop, n1: seq<Entry>, n2: seq<Entry>)
    requires LoadStop(x, Map(n1)).Ok? && LoadStop(x, Map(n2)).Ok?
    ensures LoadStop(LoadStop(x, Map(n1)).value, Map(n2)) == LoadStop(x, Map(Merge(n2, n1)))
  {
    LoadTaskMerged(x.task, n1, n2);
    LoadFieldMerged(x.vmName, n1, n2, "vm-name", AsText);
    LoadFieldMerged(x.regex, n1, n2, "regex", AsText);
    LoadFieldMerged(x.force, n1, n2, "force", AsFlag);
    LoadFieldMerged(x.undefine, n1, n2, "undefine", AsFlag);
  }
}
