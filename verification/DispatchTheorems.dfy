/** What holds of every run of the dispatch machine. */
module DispatchTheorems {
  import opened Results
  import opened Subscriptions
  import opened Dispatch

  predicate CanThrow(e: Event) { e.ReceiveBroken? || e.CallbackThrows? }

  lemma {:induction false} OnlyThrowsFault(m: Matcher, run: seq<Event>)
    requires After(m, run).Some? && After(m, run).value.faulted
    ensures exists e :: e in run && CanThrow(e)
  {
    if run == [] {
    } else {
      var before, e := run[..|run| - 1], run[|run| - 1];
      assert run == before + [e];
      if !CanThrow(e) {
        OnlyThrowsFault(m, before);
        var e' :| e' in before && CanThrow(e');
        assert e' in run;
      } else {
        assert e in run;
      }
    }
  }

  /**
   * The snapshots and the queues implement one filtered log per subscription: in every run in which
   * nothing throws, what a handle in the map was given (returned by get_message in lock order, then
   * still queued), followed by the one message that may be under way to it, is the log since it was
   * added, filtered.
   */
  lemma {:induction false} QueuesAreFilteredLogs(m: Matcher, run: seq<Event>, f: string)
    requires After(m, run).Some? && forall e | e in run :: !CanThrow(e)
    requires f in After(m, run).value.subs
    ensures var s := After(m, run).value;
            var h := s.subs[f];
            && h in s.heap && h in s.records && s.records[h].born <= |s.log|
            && Received(s.heap[h]) + InFlight(s, h) == Hits(m, f, s.log[s.records[h].born..])
  {
    var s := After(m, run).value;
    RunKeepsInv(m, run);
    assert FilterWired(s, f) && RecordWired(s, s.subs[f]) && HandleInv(m, s, s.subs[f]);
    if s.faulted {
      OnlyThrowsFault(m, run);
    }
    assert Lifetime(s, s.records[s.subs[f]]) == s.log[s.records[s.subs[f]].born..];
  }

  /** With throwing callbacks and filters that do not compile messages are lost, but never doubled or reordered. */
  lemma {:induction false} NothingDoubledOrReordered(m: Matcher, run: seq<Event>, h: Handle)
    requires After(m, run).Some? && h in After(m, run).value.records
    ensures var s := After(m, run).value;
            Subsequence(ReceivedOf(s, h) + InFlight(s, h), Hits(m, s.records[h].filter, Lifetime(s, s.records[h])))
  {
    RunKeepsInv(m, run);
    assert HandleInv(m, After(m, run).value, h);
  }

  lemma OneStep(m: Matcher, run: seq<Event>, e: Event)
    requires After(m, run).Some? && Enabled(m, After(m, run).value, e)
    ensures After(m, run + [e]) == Some(Next(m, After(m, run).value, e))
  {
    assert (run + [e])[..|run|] == run;
  }

  // ---- removal ------------------------------------------------------------------------

  lemma {:induction false} RemovalIsFinal(m: Matcher, run: seq<Event>, more: seq<Event>, h: Handle)
    requires After(m, run).Some? && After(m, run + more).Some?
    requires h in After(m, run).value.records && After(m, run).value.records[h].removed.Some?
    ensures h in After(m, run + more).value.records
    ensures After(m, run + more).value.records[h] == After(m, run).value.records[h]
  {
    if more == [] {
      assert run + more == run;
    } else {
      var before, e := more[..|more| - 1], more[|more| - 1];
      assert (run + more)[..|run + more| - 1] == run + before;
      RemovalIsFinal(m, run, before, h);
      RunKeepsInv(m, run + before);
      StepKeepsWired(m, After(m, run + before).value, e);
    }
  }

  /** However the run goes on after remove_subscription, the removed handle gets at most one more message. */
  lemma RemovedGetsAtMostOneMore(m: Matcher, run: seq<Event>, f: string, more: seq<Event>)
    requires After(m, run).Some? && f in After(m, run).value.subs
    requires After(m, run + [Remove(f)]).Some? && After(m, run + [Remove(f)] + more).Some?
    ensures var s, s' := After(m, run).value, After(m, run + [Remove(f)] + more).value;
            |ReceivedOf(s', s.subs[f])| <= |ReceivedOf(s, s.subs[f])| + 1
  {
    var s := After(m, run).value;
    assert (run + [Remove(f)])[..|run|] == run;
    var removed := run + [Remove(f)];
    assert After(m, removed).value == Next(m, s, Remove(f));
    RemovalIsFinal(m, removed, more, s.subs[f]);
    RunKeepsInv(m, removed + more);
    assert HandleInv(m, After(m, removed + more).value, s.subs[f]);
  }

  lemma StepAddsNothingToRemoved(m: Matcher, s: State, e: Event, h: Handle)
    requires Inv(m, s) && Enabled(m, s, e) && h in s.records && s.records[h].removed.Some?
    ensures Given(Next(m, s, e), h) <= Given(s, h)
  {
    match e {
      case Add(_, _, _) =>
      case Remove(_) =>
      case Receive(msg, order) => MatchingIsOwnFilter(m, s, msg.topic, h);
      case ReceiveBroken(_) =>
      case Deliver(woken) =>
        var g := s.loop.pending[0];
        GiveMovesMessage(s, AddMessage(s.heap[g], s.loop.msg, woken), s.loop.pending[1..], s.faulted, h);
        assert s.(faulted := s.faulted) == s;
      case CallbackThrows =>
        var g := s.loop.pending[0];
        GiveMovesMessage(s, AddMessage(s.heap[g], s.loop.msg, None), [], true, h);
      case EnterGet(_, _) =>
      case Wake(_, _, _) =>
      case Resume(_, _) =>
    }
  }

  lemma {:induction false} RemovedOnlyLoses(m: Matcher, run: seq<Event>, more: seq<Event>, h: Handle)
    requires After(m, run).Some? && After(m, run + more).Some?
    requires h in After(m, run).value.records && After(m, run).value.records[h].removed.Some?
    ensures Given(After(m, run + more).value, h) <= Given(After(m, run).value, h)
  {
    if more == [] {
      assert run + more == run;
    } else {
      var before, e := more[..|more| - 1], more[|more| - 1];
      assert (run + more)[..|run + more| - 1] == run + before;
      RemovedOnlyLoses(m, run, before, h);
      RemovalIsFinal(m, run, before, h);
      RunKeepsInv(m, run + before);
      StepAddsNothingToRemoved(m, After(m, run + before).value, e, h);
    }
  }

  /**
   * However the run goes on after remove_subscription, what the removed handle has been given is a
   * prefix of what it had at its removal and the one message that was under way to it then.
   */
  lemma RemovedHoldsAPrefix(m: Matcher, run: seq<Event>, f: string, more: seq<Event>)
    requires After(m, run).Some? && f in After(m, run).value.subs
    requires After(m, run + [Remove(f)]).Some? && After(m, run + [Remove(f)] + more).Some?
    ensures var s, s' := After(m, run).value, After(m, run + [Remove(f)] + more).value;
            ReceivedOf(s', s.subs[f]) + InFlight(s', s.subs[f]) <= ReceivedOf(s, s.subs[f]) + InFlight(s, s.subs[f])
  {
    var s := After(m, run).value;
    assert (run + [Remove(f)])[..|run|] == run;
    assert Given(Next(m, s, Remove(f)), s.subs[f]) == Given(s, s.subs[f]);
    RemovedOnlyLoses(m, run + [Remove(f)], more, s.subs[f]);
  }

  /** The next delivery is always possible. */
  lemma SnapshotIsAlive(m: Matcher, s: State)
    requires Inv(m, s) && s.loop.Delivering?
    ensures forall h | h in s.loop.pending :: h in s.heap
    ensures exists woken :: Enabled(m, s, Deliver(woken))
  {
    forall h | h in s.loop.pending
      ensures h in s.heap
    {
      assert HandleInv(m, s, h);
    }
    var sub := s.heap[s.loop.pending[0]];
    if !sub.callback && sub.queue == [] && exists t :: Sleeps(sub, t) {
      var t :| Sleeps(sub, t);
      assert Enabled(m, s, Deliver(Some(t)));
    } else {
      assert Enabled(m, s, Deliver(None));
    }
  }

  /** Between snapshot and delivery nothing dies: the next delivery is always possible. */
  lemma SnapshotStaysAlive(m: Matcher, run: seq<Event>)
    requires After(m, run).Some? && After(m, run).value.loop.Delivering?
    ensures var s := After(m, run).value;
            && (forall h | h in s.loop.pending :: h in s.heap)
            && exists woken :: Enabled(m, s, Deliver(woken))
  {
    RunKeepsInv(m, run);
    SnapshotIsAlive(m, After(m, run).value);
  }

  lemma RemoveAndDeliveryStayEnabled(m: Matcher, s: State, f: string, woken: Option<Thread>)
    requires Inv(m, s) && Enabled(m, s, Remove(f)) && Enabled(m, s, Deliver(woken))
    ensures Enabled(m, Next(m, s, Remove(f)), Deliver(woken))
    ensures Enabled(m, Next(m, s, Deliver(woken)), Remove(f))
  {
    var g := s.loop.pending[0];
    var r := Next(m, s, Remove(f));
    assert Waiting(r, g) && r.heap[g] == s.heap[g];
    if f in s.subs && s.subs[f] == g {
      assert forall t :: !Sleeps(s.heap[g], t);
    }
  }

  /** Everything but the books about the removed handle comes out the same in both orders. */
  predicate SameButRecords(s1: State, s2: State) {
    s1.received == s2.received && s1.heap == s2.heap && s1.subs == s2.subs && s1.loop == s2.loop && s1.log == s2.log
  }

  /** r is s without the topic f. */
  ghost predicate RemoveEffect(s: State, f: string, r: State) {
    && r.loop == s.loop && r.received == s.received && r.log == s.log && r.subs == s.subs - {f}
    && (forall h :: Listed(r, h) <==> Listed(s, h) && (f in s.subs ==> s.subs[f] != h))
    && (forall h | h in r.heap :: h in s.heap && r.heap[h] == s.heap[h])
  }

  lemma RemoveHasEffect(m: Matcher, s: State, f: string)
    requires Wired(s) && Enabled(m, s, Remove(f))
    ensures RemoveEffect(s, f, Next(m, s, Remove(f)))
  {
    assert FilterWired(s, f);
    assert f !in s.subs ==> s.subs - {f} == s.subs;
  }

  /** d is s after the next delivery. */
  ghost predicate DeliverEffect(s: State, woken: Option<Thread>, d: State) {
    s.loop.Delivering? && s.loop.pending != [] && s.loop.pending[0] in s.heap &&
    var g, msg, rest := s.loop.pending[0], s.loop.msg, s.loop.pending[1..];
    && d.subs == s.subs && d.log == s.log && d.records == s.records
    && d.loop == (if rest == [] then Idle else Delivering(msg, rest))
    && d.received == s.received[g := ReceivedOf(s, g) + [msg]]
    && forall h | h in d.heap ::
         h in s.heap && d.heap[h] == if h == g then AddMessage(s.heap[g], msg, woken) else s.heap[h]
  }

  lemma DeliverHasEffect(m: Matcher, s: State, woken: Option<Thread>)
    requires Enabled(m, s, Deliver(woken))
    ensures DeliverEffect(s, woken, Next(m, s, Deliver(woken)))
  {
  }

  lemma EffectsCommute(s: State, f: string, woken: Option<Thread>, r: State, d: State, s1: State, s2: State)
    requires RemoveEffect(s, f, r) && DeliverEffect(r, woken, s1)
    requires DeliverEffect(s, woken, d) && RemoveEffect(d, f, s2)
    requires forall h :: Alive(s1, h) && Alive(s2, h)
    ensures SameButRecords(s1, s2)
  {
    forall h
      ensures h in s1.heap <==> h in s2.heap
      ensures h in s1.heap && h in s2.heap ==> s1.heap[h] == s2.heap[h]
    {
      assert Alive(s1, h) && Alive(s2, h);
      assert Listed(s1, h) <==> Listed(r, h);
      assert Listed(s2, h) <==> Listed(d, h) && (f in d.subs ==> d.subs[f] != h);
    }
    assert s1.heap == s2.heap;
  }

  /** Removing one topic and delivering to whichever handle is next can be swapped: no history changes. */
  lemma RemoveCommutesWithDelivery(m: Matcher, s: State, f: string, woken: Option<Thread>)
    requires Inv(m, s) && Enabled(m, s, Remove(f)) && Enabled(m, s, Deliver(woken))
    ensures Enabled(m, Next(m, s, Remove(f)), Deliver(woken))
    ensures Enabled(m, Next(m, s, Deliver(woken)), Remove(f))
    ensures SameButRecords(Next(m, Next(m, s, Remove(f)), Deliver(woken)),
                           Next(m, Next(m, s, Deliver(woken)), Remove(f)))
  {
    RemoveAndDeliveryStayEnabled(m, s, f, woken);
    var r, d := Next(m, s, Remove(f)), Next(m, s, Deliver(woken));
    StepKeepsInv(m, s, Remove(f));
    StepKeepsInv(m, r, Deliver(woken));
    StepKeepsInv(m, s, Deliver(woken));
    StepKeepsInv(m, d, Remove(f));
    RemoveHasEffect(m, s, f);
    DeliverHasEffect(m, r, woken);
    DeliverHasEffect(m, s, woken);
    RemoveHasEffect(m, d, f);
    var s1, s2 := Next(m, r, Deliver(woken)), Next(m, d, Remove(f));
    forall h
      ensures Alive(s1, h) && Alive(s2, h)
    {
      assert HandleInv(m, s1, h) && HandleInv(m, s2, h);
    }
    EffectsCommute(s, f, woken, r, d, s1, s2);
  }
}
