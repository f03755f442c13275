/**
 * The communicator as a step machine. The mosquitto loop thread takes a snapshot of the matching
 * handles under the subscriptions lock and delivers to them one by one without it; user threads
 * add, remove and wait in between. One event is one critical section; what the scheduler, the map's
 * iteration order and the environment decide is part of the event.
 */
module Dispatch {
  import opened Results
  import opened Subscriptions

  type Handle = nat

  /** What std::regex_match says about a filter and a topic; a filter that is no regular expression throws. */
  datatype Verdict = Hit | Miss | Broken

  type Matcher = (string, string) -> Verdict

  datatype Loop = Idle | Delivering(msg: Message, pending: seq<Handle>)

  /** The end of a subscription: how long the log was, and how many messages it had received. */
  datatype Removal = Removal(at: nat, received: nat)

  datatype Record = Record(filter: string, born: nat, removed: Option<Removal>)

  datatype State = State(
    subs: map<string, Handle>,
    heap: map<Handle, Subscription>,
    loop: Loop,
    // histories
    log: seq<Message>,                    // messages passed to on_message
    records: map<Handle, Record>,         // every handle that was ever in the map
    received: map<Handle, seq<Message>>,  // what each of them was given, also after its end
    faulted: bool                         // a callback or the construction of a regex has thrown
  )

  const INIT := State(map[], map[], Idle, [], map[], map[], false)

  datatype Event =
    | Add(filter: string, callback: bool, handle: Handle)
    | Remove(filter: string)
    | Receive(msg: Message, order: seq<Handle>)
    | ReceiveBroken(msg: Message)
    | Deliver(woken: Option<Thread>)
    | CallbackThrows
    | EnterGet(filter: string, t: Thread)
    | Wake(h: Handle, t: Thread, timedOut: bool)
    | Resume(h: Handle, t: Thread)

  // ---- steps --------------------------------------------------------------------

  predicate Matching(m: Matcher, s: State, topic: string, h: Handle) {
    h in s.subs.Values && exists f | f in s.subs :: s.subs[f] == h && m(f, topic) == Hit
  }

  ghost predicate AllCompile(m: Matcher, s: State, topic: string) {
    forall f | f in s.subs :: m(f, topic) != Broken
  }

  predicate NoDuplicates(hs: seq<Handle>) { forall i, j | 0 <= i < j < |hs| :: hs[i] != hs[j] }

  ghost predicate Enabled(m: Matcher, s: State, e: Event) {
    match e
    case Add(_, _, h) => h !in s.records
    // A topic is not removed while a thread is inside get_message for it.
    case Remove(f) => f in s.subs && s.subs[f] in s.heap ==> s.heap[s.subs[f]].inside == map[]
    case Receive(msg, order) =>
      && s.loop.Idle? && AllCompile(m, s, msg.topic)
      && NoDuplicates(order) && forall h :: h in order <==> Matching(m, s, msg.topic, h)
    case ReceiveBroken(msg) => s.loop.Idle? && !AllCompile(m, s, msg.topic)
    case Deliver(woken) =>
      && s.loop.Delivering? && s.loop.pending != []
      && s.loop.pending[0] in s.heap && MayWake(s.heap[s.loop.pending[0]], woken)
    case CallbackThrows =>
      && s.loop.Delivering? && s.loop.pending != []
      && s.loop.pending[0] in s.heap && s.heap[s.loop.pending[0]].callback
    case EnterGet(f, t) =>
      && f in s.subs && s.subs[f] in s.heap
      && !s.heap[s.subs[f]].callback && t !in s.heap[s.subs[f]].inside
    case Wake(h, t, _) => h in s.heap && Sleeps(s.heap[h], t)
    case Resume(h, t) => h in s.heap && t in s.heap[h].inside && s.heap[h].inside[t].Awake?
  }

  /** Handles that the map or the loop's snapshot still owns; shared_ptr frees the others. */
  function Collect(s: State): State {
    s.(heap := map h | h in s.heap && (h in s.subs.Values || Waiting(s, h)) :: s.heap[h])
  }

  /** The handle is in the loop's snapshot and has not been served. */
  predicate Waiting(s: State, h: Handle) { s.loop.Delivering? && h in s.loop.pending }

  function ReceivedOf(s: State, h: Handle): seq<Message> {
    if h in s.received then s.received[h] else []
  }

  function Give(s: State, h: Handle, sub: Subscription, rest: seq<Handle>): State
    requires s.loop.Delivering?
  {
    Collect(s.(heap := s.heap[h := sub],
               received := s.received[h := ReceivedOf(s, h) + [s.loop.msg]],
               loop := if rest == [] then Idle else Delivering(s.loop.msg, rest)))
  }

  function Next(m: Matcher, s: State, e: Event): State
    requires Enabled(m, s, e)
  {
    match e
    case Add(f, callback, h) =>
      if f in s.subs then s  // emplace keeps the handle that is there
      else s.(subs := s.subs[f := h], heap := s.heap[h := NewSubscription(callback)],
              records := s.records[h := Record(f, |s.log|, None)], received := s.received[h := []])
    case Remove(f) =>
      if f !in s.subs then s
      else
        var h := s.subs[f];
        Collect(s.(subs := s.subs - {f},
                   records := s.records[h := Record(f, if h in s.records then s.records[h].born else 0,
                                                    Some(Removal(|s.log|, |ReceivedOf(s, h)|)))]))
    case Receive(msg, order) =>
      s.(log := s.log + [msg], loop := if order == [] then Idle else Delivering(msg, order))
    case ReceiveBroken(msg) =>
      s.(log := s.log + [msg], faulted := true)
    case Deliver(woken) =>
      var h := s.loop.pending[0];
      Give(s, h, AddMessage(s.heap[h], s.loop.msg, woken), s.loop.pending[1..])
    case CallbackThrows =>
      // The callback has seen the message; the handles behind it do not get it.
      var h := s.loop.pending[0];
      Give(s, h, AddMessage(s.heap[h], s.loop.msg, None), []).(faulted := true)
    case EnterGet(f, t) =>
      s.(heap := s.heap[s.subs[f] := Enter(s.heap[s.subs[f]], t)])
    case Wake(h, t, timedOut) =>
      s.(heap := s.heap[h := WakeUp(s.heap[h], t, timedOut)])
    case Resume(h, t) =>
      s.(heap := s.heap[h := LookAgain(s.heap[h], t)])
  }

  /** The state after a run, if every event of it was possible. */
  ghost function After(m: Matcher, run: seq<Event>): Option<State> {
    if run == [] then Some(INIT)
    else
      var before := After(m, run[..|run| - 1]);
      var e := run[|run| - 1];
      if before.Some? && Enabled(m, before.value, e) then Some(Next(m, before.value, e)) else None
  }

  // ---- the abstract view: one filtered log per filter --------------------------------

  /** The messages of a log whose topic the filter matches. */
  function Hits(m: Matcher, filter: string, log: seq<Message>): seq<Message> {
    if log == [] then []
    else
      var last := log[|log| - 1];
      Hits(m, filter, log[..|log| - 1]) + (if m(filter, last.topic) == Hit then [last] else [])
  }

  /** The stretch of the log that belongs to a handle: from its add to its removal, or to now. */
  function Lifetime(s: State, r: Record): seq<Message> {
    var until := if r.removed.Some? then r.removed.value.at else |s.log|;
    if r.born <= until <= |s.log| then s.log[r.born..until] else []
  }

  /** The message between snapshot and delivery, if the handle is still to get it. */
  function InFlight(s: State, h: Handle): seq<Message> {
    if Waiting(s, h) then [s.loop.msg] else []
  }

  function Given(s: State, h: Handle): seq<Message> { ReceivedOf(s, h) + InFlight(s, h) }

  /** a is b with some elements left out. */
  predicate Subsequence(a: seq<Message>, b: seq<Message>) {
    if a == [] then true
    else if b == [] then false
    else
      || Subsequence(a, b[..|b| - 1])
      || (a[|a| - 1] == b[|b| - 1] && Subsequence(a[..|a| - 1], b[..|b| - 1]))
  }

  // ---- the invariant ------------------------------------------------------------------

  /** The handle is the one in the map for its filter. */
  predicate Listed(s: State, h: Handle) { h in s.records && s.records[h].removed.None? }

  ghost predicate FilterWired(s: State, f: string) {
    f in s.subs ==> Listed(s, s.subs[f]) && s.records[s.subs[f]].filter == f
  }

  ghost predicate RecordWired(s: State, h: Handle) {
    && (h in s.received <==> h in s.records)
    && (h in s.records ==>
          var r := s.records[h];
          && (r.removed.None? ==> r.filter in s.subs && s.subs[r.filter] == h && r.born <= |s.log|)
          && (r.removed.Some? ==> r.born <= r.removed.value.at <= |s.log|))
  }

  ghost predicate LoopWired(s: State) {
    s.loop.Delivering? ==>
      && s.loop.pending != [] && NoDuplicates(s.loop.pending)
      && s.log != [] && s.log[|s.log| - 1] == s.loop.msg
      && forall h | h in s.loop.pending :: h in s.records
  }

  /** Map, records and loop tell the same story. */
  ghost predicate Wired(s: State) {
    (forall f :: FilterWired(s, f)) && (forall h :: RecordWired(s, h)) && LoopWired(s)
  }

  /** A handle is alive exactly while the map or the snapshot owns it, and holds its whole history. */
  ghost predicate Alive(s: State, h: Handle) {
    && (h in s.heap <==> Listed(s, h) || Waiting(s, h))
    && (h in s.heap ==> Sound(s.heap[h]) && Received(s.heap[h]) == ReceivedOf(s, h))
  }

  /** What a handle was given, or is about to be given, is what its filter says. */
  ghost predicate Faithful(m: Matcher, s: State, h: Handle) {
    h in s.records ==>
      var expected := Hits(m, s.records[h].filter, Lifetime(s, s.records[h]));
      && Subsequence(Given(s, h), expected)
      && (!s.faulted ==> Given(s, h) == expected)
  }

  /** After its removal a handle gets no more than the message that was under way. */
  ghost predicate OneMoreAtMost(s: State, h: Handle) {
    h in s.records && s.records[h].removed.Some? ==>
      |Given(s, h)| <= s.records[h].removed.value.received + 1
  }

  ghost predicate HandleInv(m: Matcher, s: State, h: Handle) {
    Alive(s, h) && Faithful(m, s, h) && OneMoreAtMost(s, h)
  }

  ghost predicate Inv(m: Matcher, s: State) {
    Wired(s) && forall h :: HandleInv(m, s, h)
  }

  // ---- facts about subsequences and filtered logs ---------------------------------------

  lemma SubsequenceGrows(a: seq<Message>, b: seq<Message>, x: Message)
    requires Subsequence(a, b)
    ensures Subsequence(a, b + [x])
    ensures Subsequence(a + [x], b + [x])
  {
    assert (b + [x])[..|b|] == b;
    assert (a + [x])[..|a|] == a;
  }

  lemma {:induction false} SubsequencePrefix(a: seq<Message>, x: Message, b: seq<Message>)
    requires Subsequence(a + [x], b)
    ensures Subsequence(a, b)
  {
    assert (a + [x])[..|a|] == a;
    if a == [] {
    } else {
      var b' := b[..|b| - 1];
      if Subsequence(a + [x], b') {
        SubsequencePrefix(a, x, b');
      }
    }
  }

  lemma HitsGrow(m: Matcher, filter: string, log: seq<Message>, msg: Message)
    ensures Hits(m, filter, log + [msg]) ==
            Hits(m, filter, log) + (if m(filter, msg.topic) == Hit then [msg] else [])
  {
    assert (log + [msg])[..|log|] == log;
  }

  // ---- every step keeps the invariant ------------------------------------------------------

  /** The handles in the map are the listed ones. */
  lemma ValuesAreListed(s: State, h: Handle)
    requires Wired(s)
    ensures h in s.subs.Values <==> Listed(s, h)
  {
    assert RecordWired(s, h);
    if h in s.subs.Values {
      var f :| f in s.subs && s.subs[f] == h;
      assert FilterWired(s, f);
    }
  }

  lemma StepKeepsFilter(m: Matcher, s: State, e: Event, f: string)
    requires Enabled(m, s, e) && FilterWired(s, f)
    requires e.Remove? ==> FilterWired(s, e.filter)
    ensures FilterWired(Next(m, s, e), f)
  {
  }

  lemma StepKeepsRecord(m: Matcher, s: State, e: Event, h: Handle)
    requires Enabled(m, s, e) && RecordWired(s, h)
    requires e.Remove? && e.filter in s.subs ==> FilterWired(s, e.filter) && RecordWired(s, s.subs[e.filter])
    requires e.Deliver? || e.CallbackThrows? ==> s.loop.pending[0] in s.records
    ensures RecordWired(Next(m, s, e), h)
    // What is on record about a removed handle stays.
    ensures h in s.records && s.records[h].removed.Some? ==>
              h in Next(m, s, e).records && Next(m, s, e).records[h] == s.records[h]
  {
  }

  lemma StepKeepsLoop(m: Matcher, s: State, e: Event)
    requires Enabled(m, s, e) && LoopWired(s)
    requires e.Receive? ==> forall h | h in e.order :: h in s.records
    ensures LoopWired(Next(m, s, e))
  {
    if e.Deliver? {
      assert forall i | 0 <= i < |s.loop.pending| - 1 :: s.loop.pending[1..][i] == s.loop.pending[i + 1];
    }
  }

  lemma StepKeepsWired(m: Matcher, s: State, e: Event)
    requires Wired(s) && Enabled(m, s, e)
    ensures Wired(Next(m, s, e))
    ensures forall h | h in s.records && s.records[h].removed.Some? ::
              h in Next(m, s, e).records && Next(m, s, e).records[h] == s.records[h]
  {
    forall f
      ensures FilterWired(Next(m, s, e), f)
    {
      assert FilterWired(s, f) && (e.Remove? ==> FilterWired(s, e.filter));
      StepKeepsFilter(m, s, e, f);
    }
    forall h
      ensures RecordWired(Next(m, s, e), h)
      ensures h in s.records && s.records[h].removed.Some? ==>
                h in Next(m, s, e).records && Next(m, s, e).records[h] == s.records[h]
    {
      assert RecordWired(s, h);
      if e.Remove? && e.filter in s.subs {
        assert FilterWired(s, e.filter) && RecordWired(s, s.subs[e.filter]);
      }
      StepKeepsRecord(m, s, e, h);
    }
    if e.Receive? {
      forall h | h in e.order
        ensures h in s.records
      {
        ValuesAreListed(s, h);
      }
    }
    StepKeepsLoop(m, s, e);
  }

  lemma AddKeepsHandle(m: Matcher, s: State, e: Event, h: Handle)
    requires Inv(m, s) && e.Add? && Enabled(m, s, e) && Wired(Next(m, s, e))
    ensures HandleInv(m, Next(m, s, e), h)
  {
    var s' := Next(m, s, e);
    assert HandleInv(m, s, h) && RecordWired(s, h);
    if e.filter !in s.subs && h == e.handle {
      assert Lifetime(s', s'.records[h]) == [];
      assert !Waiting(s, h);
    }
  }

  lemma RemoveKeepsHandle(m: Matcher, s: State, e: Event, h: Handle)
    requires Inv(m, s) && e.Remove? && Enabled(m, s, e) && Wired(Next(m, s, e))
    ensures HandleInv(m, Next(m, s, e), h)
  {
    var s' := Next(m, s, e);
    assert HandleInv(m, s, h) && RecordWired(s, h);
    if e.filter in s.subs {
      assert FilterWired(s, e.filter);
      ValuesAreListed(s', h);
      assert h in s.records ==> Lifetime(s', s'.records[h]) == Lifetime(s, s.records[h]);
      assert Given(s', h) == Given(s, h);
    }
  }

  /** A handle is in the snapshot exactly when it is in the map and its own filter matches. */
  lemma MatchingIsOwnFilter(m: Matcher, s: State, topic: string, h: Handle)
    requires Wired(s)
    ensures Matching(m, s, topic, h) <==> Listed(s, h) && m(s.records[h].filter, topic) == Hit
  {
    ValuesAreListed(s, h);
    assert RecordWired(s, h);
    assert forall f | f in s.subs && s.subs[f] == h :: FilterWired(s, f);
  }

  /** A filtered log follows the log by one message. */
  lemma HitsFollow(m: Matcher, filter: string, log: seq<Message>, msg: Message, given: seq<Message>, hit: bool)
    requires Subsequence(given, Hits(m, filter, log))
    requires hit ==> m(filter, msg.topic) == Hit
    ensures var given' := if hit then given + [msg] else given;
            && Subsequence(given', Hits(m, filter, log + [msg]))
            && (given == Hits(m, filter, log) && (hit <==> m(filter, msg.topic) == Hit) ==>
                  given' == Hits(m, filter, log + [msg]))
  {
    HitsGrow(m, filter, log, msg);
    var was := Hits(m, filter, log);
    assert was + [] == was;
    SubsequenceGrows(given, was, msg);
  }

  /** How the log and the snapshot of a receive show in what a handle was given. */
  lemma ReceiveShows(m: Matcher, s: State, e: Event, h: Handle)
    requires s.loop.Idle? && (e.Receive? || e.ReceiveBroken?) && Enabled(m, s, e) && RecordWired(s, h)
    ensures var s' := Next(m, s, e);
            && s'.records == s.records && (s'.faulted <==> s.faulted || e.ReceiveBroken?)
            && Given(s', h) == (if e.Receive? && h in e.order then Given(s, h) + [e.msg] else Given(s, h))
            && (Listed(s, h) ==> Lifetime(s', s.records[h]) == Lifetime(s, s.records[h]) + [e.msg])
            && (h in s.records && !Listed(s, h) ==> Lifetime(s', s.records[h]) == Lifetime(s, s.records[h]))
  {
  }

  /** The new message is owed to the handles in the map whose filter matches. */
  lemma ReceiveIsFaithful(m: Matcher, s: State, e: Event, h: Handle)
    requires s.loop.Idle? && (e.Receive? || e.ReceiveBroken?) && Enabled(m, s, e)
    requires Faithful(m, s, h) && RecordWired(s, h)
    requires Matching(m, s, e.msg.topic, h) <==> Listed(s, h) && m(s.records[h].filter, e.msg.topic) == Hit
    ensures Faithful(m, Next(m, s, e), h)
  {
    ReceiveShows(m, s, e, h);
    if Listed(s, h) {
      HitsFollow(m, s.records[h].filter, Lifetime(s, s.records[h]), e.msg, Given(s, h), e.Receive? && h in e.order);
    }
  }

  lemma ReceiveKeepsHandle(m: Matcher, s: State, e: Event, h: Handle)
    requires Inv(m, s) && (e.Receive? || e.ReceiveBroken?) && Enabled(m, s, e)
    ensures HandleInv(m, Next(m, s, e), h)
  {
    assert HandleInv(m, s, h) && RecordWired(s, h);
    MatchingIsOwnFilter(m, s, e.msg.topic, h);
    ReceiveIsFaithful(m, s, e, h);
    assert !Waiting(s, h);
  }

  /** One handle gets the message; either the loop goes on to the rest, or it gives up. */
  lemma GiveKeepsAlive(s: State, woken: Option<Thread>, rest: seq<Handle>, h: Handle)
    requires s.loop.Delivering? && s.loop.pending != [] && NoDuplicates(s.loop.pending)
    requires s.loop.pending[0] in s.heap && MayWake(s.heap[s.loop.pending[0]], woken)
    requires rest == s.loop.pending[1..] || rest == []
    requires Alive(s, h) && Alive(s, s.loop.pending[0])
    requires h in s.subs.Values <==> Listed(s, h)
    ensures var g := s.loop.pending[0]; Alive(Give(s, g, AddMessage(s.heap[g], s.loop.msg, woken), rest), h)
  {
    var g := s.loop.pending[0];
    AddMessageIsSound(s.heap[g], s.loop.msg, woken);
    assert s.loop.pending == [g] + s.loop.pending[1..];
  }

  /** What is under way arrives, or is dropped when a callback throws. */
  lemma GiveMovesMessage(s: State, sub: Subscription, rest: seq<Handle>, faulted: bool, h: Handle)
    requires s.loop.Delivering? && s.loop.pending != [] && NoDuplicates(s.loop.pending)
    requires rest == s.loop.pending[1..] || (rest == [] && faulted)
    ensures var s' := Give(s, s.loop.pending[0], sub, rest).(faulted := faulted);
            Given(s', h) == Given(s, h) || (faulted && Given(s, h) == Given(s', h) + [s.loop.msg])
  {
    var g := s.loop.pending[0];
    assert s.loop.pending == [g] + s.loop.pending[1..];
    assert g !in s.loop.pending[1..];
    assert h != g && h !in rest && h in s.loop.pending ==> faulted;
  }

  lemma GiveKeepsHistory(m: Matcher, s: State, sub: Subscription, rest: seq<Handle>, faulted: bool, h: Handle)
    requires s.loop.Delivering? && s.loop.pending != [] && NoDuplicates(s.loop.pending)
    requires (rest == s.loop.pending[1..] && faulted == s.faulted) || (rest == [] && faulted)
    requires RecordWired(s, h) && Faithful(m, s, h) && OneMoreAtMost(s, h)
    ensures var s' := Give(s, s.loop.pending[0], sub, rest).(faulted := faulted);
            Faithful(m, s', h) && OneMoreAtMost(s', h)
  {
    var s' := Give(s, s.loop.pending[0], sub, rest).(faulted := faulted);
    GiveMovesMessage(s, sub, rest, faulted, h);
    if h in s.records {
      var r := s.records[h];
      assert Lifetime(s', r) == Lifetime(s, r);
      if Given(s', h) != Given(s, h) {
        SubsequencePrefix(Given(s', h), s.loop.msg, Hits(m, r.filter, Lifetime(s, r)));
      }
    }
  }

  lemma GiveKeepsHandle(m: Matcher, s: State, woken: Option<Thread>, rest: seq<Handle>, faulted: bool, h: Handle)
    requires Inv(m, s) && s.loop.Delivering? && s.loop.pending[0] in s.heap
    requires MayWake(s.heap[s.loop.pending[0]], woken)
    requires (rest == s.loop.pending[1..] && faulted == s.faulted) || (rest == [] && faulted)
    ensures var g := s.loop.pending[0];
            HandleInv(m, Give(s, g, AddMessage(s.heap[g], s.loop.msg, woken), rest).(faulted := faulted), h)
  {
    var g := s.loop.pending[0];
    assert HandleInv(m, s, h) && HandleInv(m, s, g) && RecordWired(s, h);
    ValuesAreListed(s, h);
    GiveKeepsAlive(s, woken, rest, h);
    GiveKeepsHistory(m, s, AddMessage(s.heap[g], s.loop.msg, woken), rest, faulted, h);
  }

  /** The handle a getter's event is about. */
  function GetterOf(s: State, e: Event): Handle
    requires e.EnterGet? ==> e.filter in s.subs
    requires e.EnterGet? || e.Wake? || e.Resume?
  {
    if e.EnterGet? then s.subs[e.filter] else e.h
  }

  lemma GetterIsSound(m: Matcher, s: State, e: Event)
    requires (e.EnterGet? || e.Wake? || e.Resume?) && Enabled(m, s, e)
    requires Sound(s.heap[GetterOf(s, e)])
    ensures var h := GetterOf(s, e);
            && Sound(Next(m, s, e).heap[h]) && Received(Next(m, s, e).heap[h]) == Received(s.heap[h])
            && Next(m, s, e) == s.(heap := s.heap[h := Next(m, s, e).heap[h]])
  {
    var sub := s.heap[GetterOf(s, e)];
    match e
    case EnterGet(f, t) => EnterIsSound(sub, t);
    case Wake(g, t, timedOut) => WakeUpIsSound(sub, t, timedOut);
    case Resume(g, t) => LookAgainIsSound(sub, t);
  }

  lemma GetterKeepsHandle(m: Matcher, s: State, e: Event, h: Handle)
    requires Inv(m, s) && (e.EnterGet? || e.Wake? || e.Resume?) && Enabled(m, s, e)
    ensures HandleInv(m, Next(m, s, e), h)
  {
    assert HandleInv(m, s, h) && HandleInv(m, s, GetterOf(s, e));
    GetterIsSound(m, s, e);
    HeapChangeKeepsHandle(m, s, Next(m, s, e), h);
  }

  lemma HeapChangeKeepsHandle(m: Matcher, s: State, s': State, h: Handle)
    requires s' == s.(heap := s'.heap) && s'.heap.Keys == s.heap.Keys && HandleInv(m, s, h)
    requires h in s.heap ==> Sound(s'.heap[h]) && Received(s'.heap[h]) == Received(s.heap[h])
    ensures HandleInv(m, s', h)
  {
    assert h in s.records ==> Lifetime(s', s.records[h]) == Lifetime(s, s.records[h]);
    assert Given(s', h) == Given(s, h);
  }

  lemma StepKeepsHandle(m: Matcher, s: State, e: Event, h: Handle)
    requires Inv(m, s) && Enabled(m, s, e) && Wired(Next(m, s, e))
    ensures HandleInv(m, Next(m, s, e), h)
  {
    match e
    case Add(_, _, _) => AddKeepsHandle(m, s, e, h);
    case Remove(_) => RemoveKeepsHandle(m, s, e, h);
    case Receive(_, _) => ReceiveKeepsHandle(m, s, e, h);
    case ReceiveBroken(_) => ReceiveKeepsHandle(m, s, e, h);
    case Deliver(woken) => GiveKeepsHandle(m, s, woken, s.loop.pending[1..], s.faulted, h);
    case CallbackThrows => GiveKeepsHandle(m, s, None, [], true, h);
    case EnterGet(_, _) => GetterKeepsHandle(m, s, e, h);
    case Wake(_, _, _) => GetterKeepsHandle(m, s, e, h);
    case Resume(_, _) => GetterKeepsHandle(m, s, e, h);
  }

  lemma StepKeepsInv(m: Matcher, s: State, e: Event)
    requires Inv(m, s) && Enabled(m, s, e)
    ensures Inv(m, Next(m, s, e))
  {
    StepKeepsWired(m, s, e);
    forall h
      ensures HandleInv(m, Next(m, s, e), h)
    {
      StepKeepsHandle(m, s, e, h);
    }
  }

  lemma {:induction false} RunKeepsInv(m: Matcher, run: seq<Event>)
    requires After(m, run).Some?
    ensures Inv(m, After(m, run).value)
  {
    if run == [] {
    } else {
      RunKeepsInv(m, run[..|run| - 1]);
      StepKeepsInv(m, After(m, run[..|run| - 1]).value, run[|run| - 1]);
    }
  }
}
