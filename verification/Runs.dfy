/** What a run of the dispatch machine has come to, read off its events; and that no event waits in vain. */
module Runs {
  import opened Results
  import opened Subscriptions
  import opened Dispatch
  import opened DispatchTheorems
  import opened WakeUps

  // ---- the map ------------------------------------------------------------------------

  /** The add call that a topic's subscription goes back to: the first one since the last removal. */
  function Current(run: seq<Event>, f: string): Option<Event> {
    if run == [] then None
    else
      var before, e := Current(run[..|run| - 1], f), run[|run| - 1];
      if e.Add? && e.filter == f && before.None? then Some(e)
      else if e.Remove? && e.filter == f then None
      else before
  }

  /** The map and the handle of f are those of this add call, if any. */
  ghost predicate Follows(s: State, f: string, current: Option<Event>) {
    match current
    case None => f !in s.subs
    case Some(Add(g, callback, h)) =>
      g == f && f in s.subs && s.subs[f] == h && h in s.heap && s.heap[h].callback == callback
    case _ => false
  }

  lemma StepFollows(m: Matcher, s: State, e: Event, f: string, current: Option<Event>)
    requires Inv(m, s) && Enabled(m, s, e) && Follows(s, f, current)
    ensures Follows(Next(m, s, e), f,
                    if e.Add? && e.filter == f && current.None? then Some(e)
                    else if e.Remove? && e.filter == f then None
                    else current)
  {
    if e.Add? && f in s.subs {
      assert HandleInv(m, s, e.handle);
    }
    if e.Remove? && e.filter in s.subs && f in s.subs && e.filter != f {
      assert FilterWired(s, f) && FilterWired(s, e.filter);
    }
  }

  /**
   * In every run, a topic is in the map if and only if its last removal is followed by an add call; its handle
   * is that of the first such call, a callback handle if that call gave a callback, and a get-style one if not.
   */
  lemma {:induction false} MapFollowsCalls(m: Matcher, run: seq<Event>, f: string)
    requires After(m, run).Some?
    ensures Follows(After(m, run).value, f, Current(run, f))
  {
    if run == [] {
    } else {
      var before := run[..|run| - 1];
      MapFollowsCalls(m, before, f);
      RunKeepsInv(m, before);
      StepFollows(m, After(m, before).value, run[|run| - 1], f, Current(before, f));
    }
  }

  /** What on_message was called with. */
  function Arrived(run: seq<Event>): seq<Message> {
    if run == [] then []
    else
      var e := run[|run| - 1];
      Arrived(run[..|run| - 1]) + (if e.Receive? || e.ReceiveBroken? then [e.msg] else [])
  }

  lemma {:induction false} LogIsWhatArrived(m: Matcher, run: seq<Event>)
    requires After(m, run).Some?
    ensures After(m, run).value.log == Arrived(run)
  {
    if run == [] {
    } else {
      LogIsWhatArrived(m, run[..|run| - 1]);
    }
  }

  /** A callback has seen every message its handle was ever given, and a callback handle queues none. */
  lemma {:induction false} CallbacksSeeAll(m: Matcher, run: seq<Event>, h: Handle)
    requires After(m, run).Some? && h in After(m, run).value.heap && After(m, run).value.heap[h].callback
    ensures var s := After(m, run).value;
            s.heap[h].taken == ReceivedOf(s, h) && s.heap[h].queue == [] && s.heap[h].inside == map[]
  {
    RunKeepsInv(m, run);
    assert HandleInv(m, After(m, run).value, h);
  }

  /** A message for a get-style handle is queued behind the others, and at most one sleeper wakes up. */
  lemma MessageIsQueued(m: Matcher, s: State, woken: Option<Thread>)
    requires Inv(m, s) && Enabled(m, s, Deliver(woken)) && !s.heap[s.loop.pending[0]].callback
    requires s.loop.pending[0] in Next(m, s, Deliver(woken)).heap
    ensures var sub, sub' := s.heap[s.loop.pending[0]], Next(m, s, Deliver(woken)).heap[s.loop.pending[0]];
            && sub'.queue == sub.queue + [s.loop.msg] && sub'.taken == sub.taken
            && sub'.inside.Keys == sub.inside.Keys
            && (forall t | t in sub.inside :: woken == Some(t) || sub'.inside[t] == sub.inside[t])
            && (woken.Some? <==> sub.queue == [] && exists t :: Sleeps(sub, t))
            && (woken.Some? ==> Sleeps(sub, woken.value) && sub'.inside[woken.value].Awake?)
  {
  }

  // ---- waiting ------------------------------------------------------------------------

  /** A getter enters: it takes the oldest message and is gone, or it is inside and sleeps on the empty queue. */
  lemma {:induction false} EntryTakesOrSleeps(m: Matcher, run: seq<Event>, f: string, t: Thread)
    requires After(m, run).Some? && f in After(m, run).value.subs
    requires After(m, run).value.subs[f] in After(m, run).value.heap
    requires var sub := After(m, run).value.heap[After(m, run).value.subs[f]]; !sub.callback && t !in sub.inside
    ensures var h, after := After(m, run).value.subs[f], After(m, run + [EnterGet(f, t)]);
            && after.Some? && h in after.value.heap
            && var sub, sub' := After(m, run).value.heap[h], after.value.heap[h];
               if sub.queue == [] then
                 sub'.queue == [] && sub'.taken == sub.taken && sub'.inside == sub.inside[t := Asleep]
               else
                 sub.queue == [sub'.taken[|sub.taken|]] + sub'.queue && sub'.taken == sub.taken + [sub.queue[0]] &&
                 sub'.inside == sub.inside
  {
    OneStep(m, run, EnterGet(f, t));
  }

  /** A sleeper can wake up without a notify and look: it leaves if its timeout has passed, and else it sleeps on. */
  lemma {:induction false} TimeoutEndsTheWait(m: Matcher, run: seq<Event>, h: Handle, t: Thread, timedOut: bool)
    requires After(m, run).Some? && h in After(m, run).value.heap
    requires Sleeps(After(m, run).value.heap[h], t) && After(m, run).value.heap[h].queue == []
    ensures var after := After(m, run + [Wake(h, t, timedOut)] + [Resume(h, t)]);
            && after.Some? && h in after.value.heap
            && var sub, sub' := After(m, run).value.heap[h], after.value.heap[h];
               && sub'.queue == [] && sub'.taken == sub.taken
               && sub'.inside == if timedOut then sub.inside - {t} else sub.inside
  {
    var s := After(m, run).value;
    OneStep(m, run, Wake(h, t, timedOut));
    OneStep(m, run + [Wake(h, t, timedOut)], Resume(h, t));
    var sub' := After(m, run + [Wake(h, t, timedOut)] + [Resume(h, t)]).value.heap[h];
    assert sub'.inside == if timedOut then s.heap[h].inside - {t} else s.heap[h].inside;
  }

  /** A message in the queue ends the wait of a woken getter, even when its timeout has passed. */
  lemma {:induction false} MessageEndsTheWait(m: Matcher, run: seq<Event>, h: Handle, t: Thread)
    requires After(m, run).Some? && h in After(m, run).value.heap
    requires var sub := After(m, run).value.heap[h]; t in sub.inside && sub.inside[t].Awake? && sub.queue != []
    ensures var after := After(m, run + [Resume(h, t)]);
            && after.Some? && h in after.value.heap
            && var sub, sub' := After(m, run).value.heap[h], after.value.heap[h];
               sub.queue == [sub.queue[0]] + sub'.queue && sub'.taken == sub.taken + [sub.queue[0]] &&
               sub'.inside == sub.inside - {t}
  {
    OneStep(m, run, Resume(h, t));
  }

  // ---- overlapping getters --------------------------------------------------------------

  /** The event is the entry of a thread into a handle that another one is inside of. */
  predicate Overlaps(s: State, e: Event, h: Handle) {
    e.EnterGet? && e.filter in s.subs && s.subs[e.filter] == h && h in s.heap && s.heap[h].inside != map[]
  }

  ghost predicate EverOverlapped(m: Matcher, run: seq<Event>, h: Handle) {
    run != [] &&
    var before, e := run[..|run| - 1], run[|run| - 1];
    EverOverlapped(m, before, h) || (After(m, before).Some? && Overlaps(After(m, before).value, e, h))
  }

  lemma StepCrowds(m: Matcher, s: State, e: Event, h: Handle)
    requires Inv(m, s) && Enabled(m, s, e) && h in Next(m, s, e).heap
    ensures if h in s.heap then Next(m, s, e).heap[h].crowded <==> s.heap[h].crowded || Overlaps(s, e, h)
            else !Next(m, s, e).heap[h].crowded && h !in s.records
  {
    assert HandleInv(m, s, h);
    if h !in s.heap && h in s.records {
      StepBringsNobodyBack(m, s, e, h);
    }
  }

  lemma StepBringsNobodyBack(m: Matcher, s: State, e: Event, h: Handle)
    requires Inv(m, s) && Enabled(m, s, e) && h in s.records && h !in s.heap
    ensures h !in Next(m, s, e).heap
  {
    assert HandleInv(m, s, h);
  }

  /** A handle that is unknown after a step was so before. */
  lemma StrangersStay(m: Matcher, s: State, e: Event, h: Handle)
    requires Inv(m, s) && Enabled(m, s, e) && h !in Next(m, s, e).records
    ensures h !in s.records && !Overlaps(s, e, h)
  {
    assert HandleInv(m, s, h);
  }

  lemma {:induction false} NeverOverlappedBeforeItsAdd(m: Matcher, run: seq<Event>, h: Handle)
    requires After(m, run).Some? && h !in After(m, run).value.records
    ensures !EverOverlapped(m, run, h)
  {
    if run == [] {
    } else {
      var before, e := run[..|run| - 1], run[|run| - 1];
      RunKeepsInv(m, before);
      StrangersStay(m, After(m, before).value, e, h);
      NeverOverlappedBeforeItsAdd(m, before, h);
    }
  }

  lemma {:induction false} CrowdedIsOverlapped(m: Matcher, run: seq<Event>, h: Handle)
    requires After(m, run).Some? && h in After(m, run).value.heap
    ensures After(m, run).value.heap[h].crowded <==> EverOverlapped(m, run, h)
  {
    if run == [] {
    } else {
      var before, e := run[..|run| - 1], run[|run| - 1];
      var s := After(m, before).value;
      RunKeepsInv(m, before);
      StepCrowds(m, s, e, h);
      if h in s.heap {
        CrowdedIsOverlapped(m, before, h);
      } else {
        NeverOverlappedBeforeItsAdd(m, before, h);
      }
    }
  }

  /** When no thread ever entered a handle while another was inside, nobody sleeps on a message. */
  lemma {:induction false} WithoutOverlapNobodySleepsOnAMessage(m: Matcher, run: seq<Event>, h: Handle, t: Thread)
    requires After(m, run).Some? && h in After(m, run).value.heap && !EverOverlapped(m, run, h)
    requires Sleeps(After(m, run).value.heap[h], t)
    ensures After(m, run).value.heap[h].queue == []
  {
    CrowdedIsOverlapped(m, run, h);
    NoGetterSleepsOnAMessage(m, run, h, t);
  }

  // ---- nothing waits in vain --------------------------------------------------------------

  /** Whatever the other threads are doing, each event can happen as soon as its own conditions hold. */
  lemma UsersAreNeverBlocked(m: Matcher, s: State)
    requires Inv(m, s)
    ensures forall f, callback, h | h !in s.records :: Enabled(m, s, Add(f, callback, h))
    ensures forall f | f in s.subs :: s.subs[f] in s.heap
    ensures forall f | f in s.subs ==> s.heap[s.subs[f]].inside == map[] :: Enabled(m, s, Remove(f))
    ensures forall f, t | f in s.subs && !s.heap[s.subs[f]].callback && t !in s.heap[s.subs[f]].inside ::
              Enabled(m, s, EnterGet(f, t))
    ensures forall h, t, timedOut | h in s.heap && t in s.heap[h].inside && s.heap[h].inside[t].Asleep? ::
              Enabled(m, s, Wake(h, t, timedOut))
    ensures forall h, t | h in s.heap && t in s.heap[h].inside && s.heap[h].inside[t].Awake? ::
              Enabled(m, s, Resume(h, t))
  {
    forall f | f in s.subs
      ensures s.subs[f] in s.heap
    {
      assert FilterWired(s, f) && HandleInv(m, s, s.subs[f]);
    }
  }

  /** The loop thread can always take a message or deliver the one it has. */
  lemma LoopIsNeverBlocked(m: Matcher, s: State, msg: Message)
    requires Inv(m, s)
    ensures s.loop.Idle? && (exists f :: f in s.subs && m(f, msg.topic) == Broken) ==> Enabled(m, s, ReceiveBroken(msg))
    ensures s.loop.Idle? && (forall f | f in s.subs :: m(f, msg.topic) != Broken) ==>
              exists order :: Enabled(m, s, Receive(msg, order))
    ensures s.loop.Delivering? ==>
              && (exists woken :: Enabled(m, s, Deliver(woken)))
              && s.loop.pending != [] && s.loop.pending[0] in s.heap
              && (s.heap[s.loop.pending[0]].callback ==> Enabled(m, s, CallbackThrows))
  {
    if s.loop.Delivering? {
      SnapshotIsAlive(m, s);
    } else {
      var order := Enumerate(set h | h in s.subs.Values && Matching(m, s, msg.topic, h));
      if forall f | f in s.subs :: m(f, msg.topic) != Broken {
        assert Enabled(m, s, Receive(msg, order));
      }
    }
  }
}
