/**
 * What throws cost. A callback that throws takes the message from the handles behind it, and a filter that
 * does not compile takes it from every handle; nothing else loses a message.
 */
module Losses {
  import opened Results
  import opened Subscriptions
  import opened Dispatch
  import opened DispatchTheorems
  import Topics

  /** The event costs the handle a message that its filter matches. */
  predicate Loses(m: Matcher, s: State, e: Event, h: Handle) {
    match e
    case ReceiveBroken(msg) => Listed(s, h) && m(s.records[h].filter, msg.topic) == Hit
    case CallbackThrows => s.loop.Delivering? && s.loop.pending != [] && h in s.loop.pending[1..]
    case _ => false
  }

  /** How many messages the run has cost the handle. */
  ghost function Lost(m: Matcher, run: seq<Event>, h: Handle): nat {
    if run == [] then 0
    else
      var before, e := run[..|run| - 1], run[|run| - 1];
      Lost(m, before, h) + (if After(m, before).Some? && Loses(m, After(m, before).value, e, h) then 1 else 0)
  }

  /** The filtered log of a handle. */
  function Owed(m: Matcher, s: State, h: Handle): seq<Message> {
    if h in s.records then Hits(m, s.records[h].filter, Lifetime(s, s.records[h])) else []
  }

  /** The messages the handle misses. */
  function Missing(m: Matcher, s: State, h: Handle): int { |Owed(m, s, h)| - |Given(s, h)| }

  lemma ReceiveMissing(m: Matcher, s: State, e: Event, h: Handle)
    requires Inv(m, s) && (e.Receive? || e.ReceiveBroken?) && Enabled(m, s, e)
    ensures Missing(m, Next(m, s, e), h) == Missing(m, s, h) + if Loses(m, s, e, h) then 1 else 0
  {
    assert HandleInv(m, s, h) && RecordWired(s, h);
    MatchingIsOwnFilter(m, s, e.msg.topic, h);
    ReceiveShows(m, s, e, h);
    if Listed(s, h) {
      HitsGrow(m, s.records[h].filter, Lifetime(s, s.records[h]), e.msg);
    }
  }

  lemma GiveMissing(m: Matcher, s: State, e: Event, h: Handle)
    requires Inv(m, s) && (e.Deliver? || e.CallbackThrows?) && Enabled(m, s, e)
    ensures Missing(m, Next(m, s, e), h) == Missing(m, s, h) + if Loses(m, s, e, h) then 1 else 0
  {
    assert RecordWired(s, h);
    var s', g := Next(m, s, e), s.loop.pending[0];
    assert s.loop.pending == [g] + s.loop.pending[1..];
    assert g !in s.loop.pending[1..];
    assert h in s.records ==> Lifetime(s', s.records[h]) == Lifetime(s, s.records[h]);
    assert Owed(m, s', h) == Owed(m, s, h);
  }

  lemma AddMissing(m: Matcher, s: State, e: Event, h: Handle)
    requires Inv(m, s) && e.Add? && Enabled(m, s, e)
    ensures Missing(m, Next(m, s, e), h) == Missing(m, s, h)
  {
    assert RecordWired(s, h) && HandleInv(m, s, h);
    var s' := Next(m, s, e);
    if h == e.handle {
      assert !Waiting(s, h) && !Waiting(s', h);
      assert h in s'.records ==> Lifetime(s', s'.records[h]) == [];
    } else {
      assert h in s.records ==> Lifetime(s', s.records[h]) == Lifetime(s, s.records[h]);
    }
  }

  lemma RemoveMissing(m: Matcher, s: State, e: Event, h: Handle)
    requires Inv(m, s) && e.Remove? && Enabled(m, s, e)
    ensures Missing(m, Next(m, s, e), h) == Missing(m, s, h)
  {
    assert RecordWired(s, h) && FilterWired(s, e.filter);
    var s' := Next(m, s, e);
    assert h in s.records ==> Lifetime(s', s'.records[h]) == Lifetime(s, s.records[h]);
    assert Given(s', h) == Given(s, h);
  }

  lemma StepMissing(m: Matcher, s: State, e: Event, h: Handle)
    requires Inv(m, s) && Enabled(m, s, e)
    ensures Missing(m, Next(m, s, e), h) == Missing(m, s, h) + if Loses(m, s, e, h) then 1 else 0
  {
    match e
    case Add(_, _, _) => AddMissing(m, s, e, h);
    case Remove(_) => RemoveMissing(m, s, e, h);
    case Receive(_, _) => ReceiveMissing(m, s, e, h);
    case ReceiveBroken(_) => ReceiveMissing(m, s, e, h);
    case Deliver(_) => GiveMissing(m, s, e, h);
    case CallbackThrows => GiveMissing(m, s, e, h);
    case EnterGet(_, _) => assert Owed(m, Next(m, s, e), h) == Owed(m, s, h);
    case Wake(_, _, _) => assert Owed(m, Next(m, s, e), h) == Owed(m, s, h);
    case Resume(_, _) => assert Owed(m, Next(m, s, e), h) == Owed(m, s, h);
  }

  /** What is missing was lost, message by message. */
  lemma {:induction false} MissingIsLost(m: Matcher, run: seq<Event>, h: Handle)
    requires After(m, run).Some?
    ensures Missing(m, After(m, run).value, h) == Lost(m, run, h)
  {
    if run == [] {
      assert Given(INIT, h) == [];
    } else {
      var before, e := run[..|run| - 1], run[|run| - 1];
      MissingIsLost(m, before, h);
      RunKeepsInv(m, before);
      StepMissing(m, After(m, before).value, e, h);
    }
  }

  lemma {:induction false} SubsequenceOfSameLength(a: seq<Message>, b: seq<Message>)
    requires Subsequence(a, b)
    ensures |a| <= |b| && (|a| == |b| ==> a == b)
  {
    if a == [] {
    } else {
      var a', b' := a[..|a| - 1], b[..|b| - 1];
      assert a == a' + [a[|a| - 1]] && b == b' + [b[|b| - 1]];
      if Subsequence(a, b') {
        SubsequenceOfSameLength(a, b');
      } else {
        SubsequenceOfSameLength(a', b');
      }
    }
  }

  /**
   * Exactly when queues and snapshots implement the filtered log: for every handle that was ever in the map,
   * in every run, what it was given is its filtered log if and only if no throw has cost it a message.
   */
  lemma {:induction false} GivenIsFilteredLogIff(m: Matcher, run: seq<Event>, h: Handle)
    requires After(m, run).Some? && h in After(m, run).value.records
    ensures var s := After(m, run).value;
            var given := ReceivedOf(s, h) + InFlight(s, h);
            var due := Hits(m, s.records[h].filter, Lifetime(s, s.records[h]));
            && (given == due <==> Lost(m, run, h) == 0)
            && |due| == |given| + Lost(m, run, h)
  {
    var s := After(m, run).value;
    MissingIsLost(m, run, h);
    NothingDoubledOrReordered(m, run, h);
    SubsequenceOfSameLength(Given(s, h), Owed(m, s, h));
  }

  /** Without throws nothing is lost. */
  lemma {:induction false} OnlyThrowsLose(m: Matcher, run: seq<Event>, h: Handle)
    requires forall e | e in run :: !CanThrow(e)
    ensures Lost(m, run, h) == 0
  {
    if run == [] {
    } else {
      assert run[|run| - 1] in run;
      OnlyThrowsLose(m, run[..|run| - 1], h);
    }
  }

  // ---- with the topic translation as the matcher -----------------------------------------

  function TopicVerdict(filter: string, topic: string): Verdict {
    if Topics.TopicToRegex(filter).None? then Broken
    else if Topics.CodeMatches(filter, topic) then Hit
    else Miss
  }

  /** The messages whose topic matches the filter level by level. */
  function MatchingLevels(filter: string, log: seq<Message>): seq<Message> {
    if log == [] then []
    else
      var last := log[|log| - 1];
      MatchingLevels(filter, log[..|log| - 1]) +
      (if Topics.LevelMatch(Topics.Levels(filter), Topics.Levels(last.topic)) then [last] else [])
  }

  /** Any reading of the filters outside the fragment that TopicVerdict leaves open. */
  ghost predicate ReadsFragment(m: Matcher) {
    forall f, t | Topics.InFragment(f) :: m(f, t) == TopicVerdict(f, t)
  }

  lemma {:induction false} HitsAreMatchingLevels(m: Matcher, filter: string, log: seq<Message>)
    requires ReadsFragment(m)
    requires Topics.WellFormed(filter) && Topics.InFragment(filter) && !Topics.HasRegexMeaning(filter)
    ensures Hits(m, filter, log) == MatchingLevels(filter, log)
  {
    if log == [] {
    } else {
      var before, last := log[..|log| - 1], log[|log| - 1];
      HitsAreMatchingLevels(m, filter, before);
      Topics.TranslationParses(filter);
      Topics.TranslationIsLevelMatch(filter, last.topic);
    }
  }

  /**
   * From the broker to get_message, in every run and whatever filters the other subscriptions have: a
   * subscription sees exactly the messages of its topic levels if and only if no throw cost it one, and what
   * it misses is counted.
   */
  lemma {:induction false} SubscriberSeesItsLevels(m: Matcher, run: seq<Event>, f: string)
    requires ReadsFragment(m) && After(m, run).Some? && f in After(m, run).value.subs
    requires Topics.WellFormed(f) && Topics.InFragment(f) && !Topics.HasRegexMeaning(f)
    ensures var s := After(m, run).value;
            var h := s.subs[f];
            && h in s.heap && h in s.records && s.records[h].born <= |s.log|
            && var given, due := Received(s.heap[h]) + InFlight(s, h), MatchingLevels(f, s.log[s.records[h].born..]);
               && (given == due <==> Lost(m, run, h) == 0)
               && Subsequence(given, due) && |due| == |given| + Lost(m, run, h)
  {
    var s := After(m, run).value;
    var h := s.subs[f];
    RunKeepsInv(m, run);
    assert FilterWired(s, f) && RecordWired(s, h) && HandleInv(m, s, h);
    assert Lifetime(s, s.records[h]) == s.log[s.records[h].born..];
    GivenIsFilteredLogIff(m, run, h);
    NothingDoubledOrReordered(m, run, h);
    HitsAreMatchingLevels(m, f, s.log[s.records[h].born..]);
  }
}
