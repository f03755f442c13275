/**
 * Wake-ups: when a getter may be left asleep on a queued message, although add_message notifies
 * only when the queue becomes non-empty.
 */
module WakeUps {
  import opened Results
  import opened Subscriptions
  import opened Dispatch
  import opened DispatchTheorems

  /** If no two threads were ever inside get_message of a subscription together, nobody sleeps on a message. */
  lemma {:induction false} NoGetterSleepsOnAMessage(m: Matcher, run: seq<Event>, h: Handle, t: Thread)
    requires After(m, run).Some?
    requires h in After(m, run).value.heap && !After(m, run).value.heap[h].crowded
    requires Sleeps(After(m, run).value.heap[h], t)
    ensures After(m, run).value.heap[h].queue == []
  {
    RunKeepsInv(m, run);
    assert HandleInv(m, After(m, run).value, h);
  }

  // ---- one getter is enough, and two are too many ---------------------------------------

  ghost predicate AllAsleep(s: Subscription) { forall t | t in s.inside :: s.inside[t].Asleep? }

  /** A getter sleeps on a message, and nobody else is about to look. */
  ghost predicate Stuck(s: Subscription) {
    s.queue != [] && s.inside != map[] && AllAsleep(s)
  }

  predicate AtMostOneInside(s: Subscription) { forall t, u | t in s.inside && u in s.inside :: t == u }

  predicate Enters(e: Event, f: string) { e.EnterGet? && e.filter == f }

  lemma StepKeepsFilterOf(m: Matcher, s: State, e: Event, h: Handle)
    requires Wired(s) && Enabled(m, s, e) && h in s.records
    ensures h in Next(m, s, e).records && Next(m, s, e).records[h].filter == s.records[h].filter
  {
    if e.Remove? {
      assert FilterWired(s, e.filter);
    }
  }

  // ---- continuations ----------------------------------------------------------------------

  /** The events are possible from s on, and end in s'. */
  ghost predicate Leads(m: Matcher, s: State, more: seq<Event>, s': State)
    decreases |more|
  {
    if more == [] then s == s' else Enabled(m, s, more[0]) && Leads(m, Next(m, s, more[0]), more[1..], s')
  }

  lemma RestOfBoth(a: seq<Event>, b: seq<Event>)
    requires a != []
    ensures a + b != [] && (a + b)[0] == a[0] && (a + b)[1..] == a[1..] + b
  {
  }

  lemma {:induction false} LeadsOn(m: Matcher, s: State, a: seq<Event>, s1: State, b: seq<Event>, s2: State)
    requires Leads(m, s, a, s1) && Leads(m, s1, b, s2)
    ensures Leads(m, s, a + b, s2)
    decreases |a|
  {
    if a == [] {
      assert a + b == b;
    } else {
      RestOfBoth(a, b);
      LeadsOn(m, Next(m, s, a[0]), a[1..], s1, b, s2);
    }
  }

  lemma {:induction false} LeadsKeepsInv(m: Matcher, s: State, more: seq<Event>, s': State)
    requires Inv(m, s) && Leads(m, s, more, s')
    ensures Inv(m, s')
    decreases |more|
  {
    if more == [] {
    } else {
      StepKeepsInv(m, s, more[0]);
      LeadsKeepsInv(m, Next(m, s, more[0]), more[1..], s');
    }
  }

  lemma FirstThenRest(run: seq<Event>, more: seq<Event>)
    requires more != []
    ensures run + more == run + [more[0]] + more[1..]
  {
    assert more == [more[0]] + more[1..];
  }

  lemma {:induction false} LeadsContinues(m: Matcher, run: seq<Event>, s: State, more: seq<Event>, s': State)
    requires After(m, run) == Some(s) && Leads(m, s, more, s')
    ensures After(m, run + more) == Some(s')
    decreases |more|
  {
    if more == [] {
      assert run + more == run;
    } else {
      OneStep(m, run, more[0]);
      LeadsContinues(m, run + [more[0]], Next(m, s, more[0]), more[1..], s');
      FirstThenRest(run, more);
    }
  }

  lemma Enumerate(hs: set<Handle>) returns (order: seq<Handle>)
    ensures NoDuplicates(order) && forall h :: h in order <==> h in hs
  {
    if hs == {} {
      order := [];
    } else {
      var h :| h in hs;
      var rest := Enumerate(hs - {h});
      order := [h] + rest;
    }
  }

  /** What one delivery does to the handle of a topic in the map. */
  ghost predicate Delivered(s: State, woken: Option<Thread>, f: string, s': State)
    requires s.loop.Delivering? && s.loop.pending != [] && f in s.subs && s.subs[f] in s.heap
  {
    var h, g := s.subs[f], s.loop.pending[0];
    && s'.subs == s.subs && h in s'.heap
    && (s'.loop.Idle? <==> |s.loop.pending| == 1)
    && (s'.loop.Delivering? ==> s'.loop == Delivering(s.loop.msg, s.loop.pending[1..]))
    && s'.heap[h] == (if g == h then AddMessage(s.heap[h], s.loop.msg, woken) else s.heap[h])
    && (Waiting(s', h) <==> Waiting(s, h) && g != h)
  }

  lemma DeliverToOne(m: Matcher, s: State, woken: Option<Thread>, f: string)
    requires Inv(m, s) && Enabled(m, s, Deliver(woken)) && f in s.subs && s.subs[f] in s.heap
    ensures Delivered(s, woken, f, Next(m, s, Deliver(woken)))
  {
    assert s.loop.pending == [s.loop.pending[0]] + s.loop.pending[1..];
  }

  /** The loop thread has nothing left to deliver, and the topic's handle has come to this. */
  ghost predicate Settled(s: State, f: string, sub: Subscription, s': State) {
    f in s.subs && s'.loop.Idle? && s'.subs == s.subs && s.subs[f] in s'.heap && s'.heap[s.subs[f]] == sub
  }

  /** The loop thread delivers all that is pending. */
  lemma {:induction false} Drain(m: Matcher, s: State, f: string, woken: Option<Thread>)
    returns (more: seq<Event>, s': State)
    requires Inv(m, s) && f in s.subs && s.subs[f] in s.heap
    requires Waiting(s, s.subs[f]) ==> MayWake(s.heap[s.subs[f]], woken)
    ensures Leads(m, s, more, s') && forall e | e in more :: e.Deliver?
    ensures var sub := s.heap[s.subs[f]];
            Settled(s, f, if Waiting(s, s.subs[f]) then AddMessage(sub, s.loop.msg, woken) else sub, s')
    decreases if s.loop.Delivering? then |s.loop.pending| else 0
  {
    if s.loop.Idle? {
      more, s' := [], s;
    } else {
      SnapshotIsAlive(m, s);
      var w := woken;
      if s.loop.pending[0] != s.subs[f] {
        w :| Enabled(m, s, Deliver(w));
      }
      DeliverToOne(m, s, w, f);
      StepKeepsInv(m, s, Deliver(w));
      var rest;
      rest, s' := Drain(m, Next(m, s, Deliver(w)), f, woken);
      more := [Deliver(w)] + rest;
    }
  }

  /** A matching message arrives and is delivered to everyone it matches. */
  lemma Feed(m: Matcher, s: State, f: string, msg: Message, woken: Option<Thread>)
    returns (more: seq<Event>, s': State)
    requires Inv(m, s) && s.loop.Idle? && f in s.subs && s.subs[f] in s.heap && MayWake(s.heap[s.subs[f]], woken)
    requires AllCompile(m, s, msg.topic) && m(f, msg.topic) == Hit
    ensures Leads(m, s, more, s') && forall e | e in more :: !e.EnterGet?
    ensures Settled(s, f, AddMessage(s.heap[s.subs[f]], msg, woken), s')
  {
    var order := Enumerate(set h | h in s.subs.Values && Matching(m, s, msg.topic, h));
    assert Matching(m, s, msg.topic, s.subs[f]);
    var e := Receive(msg, order);
    StepKeepsInv(m, s, e);
    assert Waiting(Next(m, s, e), s.subs[f]);
    var rest;
    rest, s' := Drain(m, Next(m, s, e), f, woken);
    more := [e] + rest;
  }

  /** A get-style subscription whose getters all sleep on an empty queue, and which a message matches. */
  ghost predicate Quiet(m: Matcher, s: State, f: string, msg: Message) {
    && f in s.subs && s.subs[f] in s.heap && AllCompile(m, s, msg.topic) && m(f, msg.topic) == Hit
    && !s.heap[s.subs[f]].callback && s.heap[s.subs[f]].queue == [] && AllAsleep(s.heap[s.subs[f]])
  }

  /** A message, the one under way or the next one, is queued, and getter t has been notified. */
  lemma Notified(m: Matcher, s: State, f: string, msg: Message, t: Thread)
    returns (more: seq<Event>, s': State, first: Message)
    requires Inv(m, s) && Quiet(m, s, f, msg) && t in s.heap[s.subs[f]].inside
    ensures Leads(m, s, more, s') && forall e | e in more :: !e.EnterGet?
    ensures Settled(s, f, AddMessage(s.heap[s.subs[f]], first, Some(t)), s')
  {
    assert Sleeps(s.heap[s.subs[f]], t);
    more, s' := Drain(m, s, f, Some(t));
    if Waiting(s, s.subs[f]) {
      first := s.loop.msg;
    } else {
      LeadsKeepsInv(m, s, more, s');
      var idle, rest := s', [];
      rest, s' := Feed(m, idle, f, msg, Some(t));
      LeadsOn(m, s, more, idle, rest, s');
      more, first := more + rest, msg;
    }
  }

  /** A further message arrives, nobody is notified, and t looks again: the others sleep on. */
  lemma LooksTooLate(m: Matcher, s: State, f: string, msg: Message, was: Subscription, first: Message,
                     t: Thread, u: Thread)
    returns (more: seq<Event>, s': State)
    requires Inv(m, s) && s.loop.Idle? && AllCompile(m, s, msg.topic) && m(f, msg.topic) == Hit
    requires f in s.subs && s.subs[f] in s.heap && s.heap[s.subs[f]] == AddMessage(was, first, Some(t))
    requires !was.callback && was.queue == [] && AllAsleep(was) && t in was.inside && u in was.inside && t != u
    ensures Leads(m, s, more, s') && forall e | e in more :: !e.EnterGet?
    ensures s.subs[f] in s'.heap
    ensures var sub := s'.heap[s.subs[f]]; sub.queue == [msg] && sub.inside == was.inside - {t} && Stuck(sub)
  {
    var fed, idle := Feed(m, s, f, msg, None);
    LastLookLeavesSleepers(was, first, msg, t, u);
    var e := Resume(s.subs[f], t);
    s' := Next(m, idle, e);
    assert Leads(m, idle, [e], s') by {
      assert Leads(m, s', [e][1..], s');
    }
    LeadsOn(m, s, fed, idle, [e], s');
    more := fed + [e];
  }

  /** The notified getter takes the first of two messages, and the others sleep on the second. */
  lemma LastLookLeavesSleepers(was: Subscription, first: Message, msg: Message, t: Thread, u: Thread)
    requires !was.callback && was.queue == [] && AllAsleep(was) && t in was.inside && u in was.inside && t != u
    ensures var two := AddMessage(AddMessage(was, first, Some(t)), msg, None);
            && t in two.inside && two.inside[t].Awake?
            && LookAgain(two, t).queue == [msg] && LookAgain(two, t).inside == was.inside - {t}
            && Stuck(LookAgain(two, t))
  {
    var two := AddMessage(AddMessage(was, first, Some(t)), msg, None);
    assert two.queue == [first, msg];
    assert LookAgain(two, t).inside == was.inside - {t};
    assert u in LookAgain(two, t).inside;
  }

  /**
   * In any run, for any matcher and any other subscriptions: when two getters sleep in a subscription,
   * a continuation without a further entry takes the first away and leaves the second on a message.
   */
  lemma {:induction false} TwoSleepersLoseAWakeUp(m: Matcher, run: seq<Event>, f: string, msg: Message,
                                                  t: Thread, u: Thread)
    returns (more: seq<Event>)
    requires After(m, run).Some? && Quiet(m, After(m, run).value, f, msg) && t != u
    requires var s := After(m, run).value; t in s.heap[s.subs[f]].inside && u in s.heap[s.subs[f]].inside
    ensures After(m, run + more).Some? && forall e | e in more :: !e.EnterGet?
    ensures var s, s', h := After(m, run).value, After(m, run + more).value, After(m, run).value.subs[f];
            && h in s'.heap && s'.heap[h].queue == [msg] && s'.heap[h].inside == s.heap[h].inside - {t}
            && Stuck(s'.heap[h])
  {
    var s := After(m, run).value;
    RunKeepsInv(m, run);
    var s';
    more, s' := TwoSleepersGetStuck(m, s, f, msg, t, u);
    LeadsContinues(m, run, s, more, s');
  }

  // ---- the exact condition in every state -------------------------------------------------

  /** The getters whose timeout has not passed: they would sleep again on an empty queue. */
  function Patient(s: Subscription): set<Thread> { set t | t in s.inside && s.inside[t] != Awake(true) }

  function Awakes(s: Subscription): set<Thread> { set t | t in s.inside && s.inside[t].Awake? }

  /**
   * On an empty queue at most one getter is patient. Otherwise nobody sleeps, and of the getters that are
   * left when the queue has been emptied at most one can be patient.
   */
  predicate Safe(s: Subscription) {
    if s.queue == [] then |Patient(s)| <= 1
    else AllAwake(s) && (|Patient(s)| <= 1 || |s.inside| <= |s.queue| + 1)
  }

  predicate AllAwake(s: Subscription) { forall t | t in s.inside :: s.inside[t].Awake? }

  lemma Subset(a: set<Thread>, b: set<Thread>)
    requires a <= b
    ensures |a| <= |b|
  {
    if a == {} {
    } else {
      var t :| t in a;
      Subset(a - {t}, b - {t});
    }
  }

  lemma Two(a: set<Thread>) returns (t: Thread, u: Thread)
    requires |a| >= 2
    ensures t in a && u in a && t != u
  {
    t :| t in a;
    assert |a - {t}| == |a| - 1;
    u :| u in a - {t};
  }

  lemma InsideWithout(s: Subscription, t: Thread)
    requires t in s.inside
    ensures |s.inside - {t}| == |s.inside| - 1
  {
    assert (s.inside - {t}).Keys == s.inside.Keys - {t};
    assert |(s.inside - {t}).Keys| == |s.inside - {t}| && |s.inside.Keys| == |s.inside|;
  }

  lemma PatientAreInside(s: Subscription)
    ensures |Patient(s)| <= |s.inside|
  {
    assert Patient(s) <= s.inside.Keys;
    Subset(Patient(s), s.inside.Keys);
  }

  lemma AddMessageIsSafe(s: Subscription, msg: Message, woken: Option<Thread>)
    requires Safe(s) && MayWake(s, woken) && (s.callback ==> s.queue == [])
    ensures Safe(AddMessage(s, msg, woken))
  {
    var s' := AddMessage(s, msg, woken);
    assert Patient(s') == Patient(s);
    if !s.callback && s.queue == [] {
      forall t | t in s'.inside
        ensures s'.inside[t].Awake?
      {
        if Sleeps(s, t) && woken != Some(t) {
          assert {t, woken.value} <= Patient(s);
          Subset({t, woken.value}, Patient(s));
        }
      }
    }
  }

  lemma WakeUpIsSafe(s: Subscription, t: Thread, timedOut: bool)
    requires Safe(s) && Sleeps(s, t)
    ensures Safe(WakeUp(s, t, timedOut))
  {
    Subset(Patient(WakeUp(s, t, timedOut)), Patient(s));
  }

  lemma LookAgainIsSafe(s: Subscription, t: Thread)
    requires Safe(s) && t in s.inside && s.inside[t].Awake?
    ensures Safe(LookAgain(s, t))
  {
    var s' := LookAgain(s, t);
    Subset(Patient(s'), Patient(s));
    InsideWithout(s, t);
    PatientAreInside(s');
  }

  lemma SafeIsNotStuck(s: Subscription)
    requires Safe(s)
    ensures !Stuck(s)
  {
  }

  /** A handle that at most one thread is inside of is safe as long as that thread does not sleep on a message. */
  lemma OneGetterIsSafe(s: Subscription)
    requires AtMostOneInside(s) && NoLostWakeUp(s)
    ensures Safe(s)
  {
    if |Patient(s)| >= 2 {
      var t, u := Two(Patient(s));
    }
    if s.queue != [] {
      forall t | t in s.inside
        ensures s.inside[t].Awake?
      {
        assert !Sleeps(s, t);
      }
    }
  }

  ghost predicate SafeFor(s: State, f: string, h: Handle) {
    h in s.records && s.records[h].filter == f && (h in s.heap ==> Safe(s.heap[h]))
  }

  lemma GiveKeepsSafe(m: Matcher, s: State, e: Event, h: Handle)
    requires (e.Deliver? || e.CallbackThrows?) && Enabled(m, s, e) && h in Next(m, s, e).heap
    requires h in s.heap && Sound(s.heap[h]) && Safe(s.heap[h])
    ensures Safe(Next(m, s, e).heap[h])
  {
    if h == s.loop.pending[0] {
      AddMessageIsSafe(s.heap[h], s.loop.msg, if e.Deliver? then e.woken else None);
    }
  }

  lemma GetterKeepsSafe(m: Matcher, s: State, e: Event, h: Handle)
    requires (e.Wake? || e.Resume?) && Enabled(m, s, e)
    requires h in s.heap && Safe(s.heap[h])
    ensures Safe(Next(m, s, e).heap[h])
  {
    if e.h == h && e.Wake? {
      WakeUpIsSafe(s.heap[h], e.t, e.timedOut);
    } else if e.h == h {
      LookAgainIsSafe(s.heap[h], e.t);
    }
  }

  /** The other events leave the handle alone. */
  lemma OthersLeaveHandle(m: Matcher, s: State, e: Event, h: Handle)
    requires e.Add? || e.Remove? || e.Receive? || e.ReceiveBroken? || e.EnterGet?
    requires e.EnterGet? && e.filter in s.subs ==> s.subs[e.filter] != h
    requires Enabled(m, s, e) && h in s.records && h in Next(m, s, e).heap
    ensures h in s.heap && Next(m, s, e).heap[h] == s.heap[h]
  {
  }

  lemma StepKeepsSafe(m: Matcher, s: State, e: Event, f: string, h: Handle)
    requires Inv(m, s) && Enabled(m, s, e) && !Enters(e, f) && SafeFor(s, f, h)
    ensures SafeFor(Next(m, s, e), f, h)
  {
    assert HandleInv(m, s, h) && (e.EnterGet? ==> FilterWired(s, e.filter));
    StepKeepsFilterOf(m, s, e, h);
    if h in Next(m, s, e).heap {
      match e
      case Deliver(_) => GiveKeepsSafe(m, s, e, h);
      case CallbackThrows => GiveKeepsSafe(m, s, e, h);
      case Wake(_, _, _) => GetterKeepsSafe(m, s, e, h);
      case Resume(_, _) => GetterKeepsSafe(m, s, e, h);
      case _ => OthersLeaveHandle(m, s, e, h);
    }
  }

  /** From a safe handle no continuation without a further entry leads anywhere else. */
  lemma {:induction false} StaysSafe(m: Matcher, run: seq<Event>, f: string, h: Handle, more: seq<Event>)
    requires After(m, run).Some? && After(m, run + more).Some? && forall e | e in more :: !Enters(e, f)
    requires SafeFor(After(m, run).value, f, h)
    ensures SafeFor(After(m, run + more).value, f, h)
  {
    if more == [] {
      assert run + more == run;
    } else {
      var before, e := more[..|more| - 1], more[|more| - 1];
      assert (run + more)[..|run + more| - 1] == run + before;
      StaysSafe(m, run, f, h, before);
      RunKeepsInv(m, run + before);
      assert e in more;
      StepKeepsSafe(m, After(m, run + before).value, e, f, h);
    }
  }

  // ---- from every other state a getter can be left behind ----------------------------------

  /** Only the topic's handle differs, and it is now sub. */
  ghost predicate OnlyNow(s: State, f: string, sub: Subscription, s': State) {
    f in s.subs && s'.subs == s.subs && s'.loop == s.loop && s.subs[f] in s'.heap && s'.heap[s.subs[f]] == sub
  }

  /** A woken getter looks, whatever the loop thread is doing. */
  lemma Look(m: Matcher, s: State, f: string, t: Thread) returns (s': State)
    requires Inv(m, s) && f in s.subs && s.subs[f] in s.heap
    requires t in s.heap[s.subs[f]].inside && s.heap[s.subs[f]].inside[t].Awake?
    ensures Leads(m, s, [Resume(s.subs[f], t)], s') && Inv(m, s')
    ensures OnlyNow(s, f, LookAgain(s.heap[s.subs[f]], t), s')
  {
    var e := Resume(s.subs[f], t);
    s' := Next(m, s, e);
    StepKeepsInv(m, s, e);
    assert Leads(m, s', [e][1..], s');
  }

  lemma LookIsCounted(s: Subscription, t: Thread)
    requires t in s.inside && s.inside[t].Awake?
    ensures Awakes(LookAgain(s, t)) == Awakes(s) - {t}
    ensures s.queue == [] ==> Patient(LookAgain(s, t)) == Patient(s) && LookAgain(s, t).queue == []
    ensures s.queue != [] ==>
              && LookAgain(s, t).queue == s.queue[1..] && |LookAgain(s, t).inside| == |s.inside| - 1
              && Patient(LookAgain(s, t)) == Patient(s) - {t}
  {
    InsideWithout(s, t);
  }

  /** On an empty queue all woken getters look: the patient ones fall asleep, the others leave. */
  lemma {:induction false} AllLook(m: Matcher, s: State, f: string) returns (more: seq<Event>, s': State)
    requires Inv(m, s) && f in s.subs && s.subs[f] in s.heap && s.heap[s.subs[f]].queue == []
    ensures Leads(m, s, more, s') && forall e | e in more :: !e.EnterGet?
    ensures s.subs[f] in s'.heap && OnlyNow(s, f, s'.heap[s.subs[f]], s') && Inv(m, s')
    ensures var sub, sub' := s.heap[s.subs[f]], s'.heap[s.subs[f]];
            && sub'.queue == [] && sub'.callback == sub.callback
            && AllAsleep(sub') && sub'.inside.Keys == Patient(sub)
    decreases |Awakes(s.heap[s.subs[f]])|
  {
    var sub := s.heap[s.subs[f]];
    if Awakes(sub) == {} {
      more, s' := [], s;
      assert AllAsleep(sub) by {
        assert forall t | t in sub.inside :: t !in Awakes(sub);
      }
    } else {
      var t :| t in Awakes(sub);
      var s1 := Look(m, s, f, t);
      LookIsCounted(sub, t);
      var rest;
      rest, s' := AllLook(m, s1, f);
      more := [Resume(s.subs[f], t)] + rest;
      LeadsOn(m, s, [Resume(s.subs[f], t)], s1, rest, s');
    }
  }

  /** Nobody sleeps: the impatient getters take the messages first, and two patient ones are left. */
  lemma {:induction false} QueueRunsEmpty(m: Matcher, s: State, f: string) returns (more: seq<Event>, s': State)
    requires Inv(m, s) && f in s.subs && s.subs[f] in s.heap
    requires var sub := s.heap[s.subs[f]];
             (sub.queue != [] ==> AllAwake(sub)) && |Patient(sub)| >= 2 && |sub.inside| >= |sub.queue| + 2
    ensures Leads(m, s, more, s') && forall e | e in more :: !e.EnterGet?
    ensures s.subs[f] in s'.heap && OnlyNow(s, f, s'.heap[s.subs[f]], s') && Inv(m, s')
    ensures var sub' := s'.heap[s.subs[f]];
            sub'.queue == [] && |Patient(sub')| >= 2 && sub'.callback == s.heap[s.subs[f]].callback
    decreases |s.heap[s.subs[f]].queue|
  {
    var sub := s.heap[s.subs[f]];
    if sub.queue == [] {
      more, s' := [], s;
    } else {
      var t := FirstToTake(sub);
      var s1 := Look(m, s, f, t);
      LookIsCounted(sub, t);
      var rest;
      rest, s' := QueueRunsEmpty(m, s1, f);
      more := [Resume(s.subs[f], t)] + rest;
      LeadsOn(m, s, [Resume(s.subs[f], t)], s1, rest, s');
    }
  }

  lemma FirstToTake(s: Subscription) returns (t: Thread)
    requires s.queue != [] && |Patient(s)| >= 2 && |s.inside| >= |s.queue| + 2
    ensures t in s.inside && |Patient(s) - {t}| >= 2
  {
    assert |s.inside.Keys| == |s.inside|;
    if t' :| t' in s.inside && t' !in Patient(s) {
      t := t';
      assert Patient(s) - {t} == Patient(s);
    } else {
      assert Patient(s) == s.inside.Keys;
      t :| t in Patient(s);
    }
  }

  /** Somebody sleeps on a message: more messages come, and the woken getters take what they want and leave. */
  lemma {:induction false} Starve(m: Matcher, s: State, f: string, msg: Message) returns (more: seq<Event>, s': State)
    requires Inv(m, s) && s.loop.Idle? && f in s.subs && s.subs[f] in s.heap
    requires AllCompile(m, s, msg.topic) && m(f, msg.topic) == Hit && !s.heap[s.subs[f]].callback
    requires s.heap[s.subs[f]].queue != [] && !AllAwake(s.heap[s.subs[f]])
    ensures Leads(m, s, more, s') && forall e | e in more :: !e.EnterGet?
    ensures s.subs[f] in s'.heap && Stuck(s'.heap[s.subs[f]])
    decreases |Awakes(s.heap[s.subs[f]])|
  {
    var sub := s.heap[s.subs[f]];
    var u :| u in sub.inside && !sub.inside[u].Awake?;
    if Awakes(sub) == {} {
      more, s' := [], s;
      assert AllAsleep(sub) by {
        assert forall t | t in sub.inside :: t !in Awakes(sub);
      }
    } else {
      var t :| t in Awakes(sub);
      var fed, s1 := Feed(m, s, f, msg, None);
      LeadsKeepsInv(m, s, fed, s1);
      var sub1 := s1.heap[s.subs[f]];
      assert Awakes(sub1) == Awakes(sub) && u in sub1.inside;
      var s2 := Look(m, s1, f, t);
      LookIsCounted(sub1, t);
      assert u in LookAgain(sub1, t).inside;
      var rest;
      rest, s' := Starve(m, s2, f, msg);
      LeadsOn(m, s, fed, s1, [Resume(s.subs[f], t)], s2);
      LeadsOn(m, s, fed + [Resume(s.subs[f], t)], s2, rest, s');
      more := fed + [Resume(s.subs[f], t)] + rest;
    }
  }

  /** A get-style subscription that a message matches. */
  ghost predicate Reached(m: Matcher, s: State, f: string, msg: Message) {
    f in s.subs && s.subs[f] in s.heap && AllCompile(m, s, msg.topic) && m(f, msg.topic) == Hit
    && !s.heap[s.subs[f]].callback
  }

  lemma TwoSleepersGetStuck(m: Matcher, s: State, f: string, msg: Message, t: Thread, u: Thread)
    returns (more: seq<Event>, s': State)
    requires Inv(m, s) && Quiet(m, s, f, msg) && t != u
    requires t in s.heap[s.subs[f]].inside && u in s.heap[s.subs[f]].inside
    ensures Leads(m, s, more, s') && forall e | e in more :: !e.EnterGet?
    ensures s.subs[f] in s'.heap
    ensures var sub := s'.heap[s.subs[f]];
            sub.queue == [msg] && sub.inside == s.heap[s.subs[f]].inside - {t} && Stuck(sub)
  {
    var a, s1, first := Notified(m, s, f, msg, t);
    LeadsKeepsInv(m, s, a, s1);
    var b;
    b, s' := LooksTooLate(m, s1, f, msg, s.heap[s.subs[f]], first, t, u);
    LeadsOn(m, s, a, s1, b, s');
    more := a + b;
  }

  lemma PatientGetStuck(m: Matcher, s: State, f: string, msg: Message) returns (more: seq<Event>, s': State)
    requires Inv(m, s) && Reached(m, s, f, msg)
    requires s.heap[s.subs[f]].queue == [] && |Patient(s.heap[s.subs[f]])| >= 2
    ensures Leads(m, s, more, s') && forall e | e in more :: !e.EnterGet?
    ensures s.subs[f] in s'.heap && Stuck(s'.heap[s.subs[f]])
  {
    var patient := Patient(s.heap[s.subs[f]]);
    var a, s1 := AllLook(m, s, f);
    var t, u := Two(patient);
    var b;
    b, s' := TwoSleepersGetStuck(m, s1, f, msg, t, u);
    LeadsOn(m, s, a, s1, b, s');
    more := a + b;
  }

  lemma SleeperGetsStuck(m: Matcher, s: State, f: string, msg: Message) returns (more: seq<Event>, s': State)
    requires Inv(m, s) && Reached(m, s, f, msg)
    requires s.heap[s.subs[f]].queue != [] && !AllAwake(s.heap[s.subs[f]])
    ensures Leads(m, s, more, s') && forall e | e in more :: !e.EnterGet?
    ensures s.subs[f] in s'.heap && Stuck(s'.heap[s.subs[f]])
  {
    var a, s1 := Drain(m, s, f, None);
    LeadsKeepsInv(m, s, a, s1);
    var b;
    b, s' := Starve(m, s1, f, msg);
    LeadsOn(m, s, a, s1, b, s');
    more := a + b;
  }

  /** From a handle that is not safe some continuation without a further entry leaves a getter stuck. */
  lemma UnsafeGetsStuck(m: Matcher, s: State, f: string, msg: Message) returns (more: seq<Event>, s': State)
    requires Inv(m, s) && Reached(m, s, f, msg) && !Safe(s.heap[s.subs[f]])
    ensures Leads(m, s, more, s') && forall e | e in more :: !e.EnterGet?
    ensures s.subs[f] in s'.heap && Stuck(s'.heap[s.subs[f]])
  {
    var sub := s.heap[s.subs[f]];
    if sub.queue == [] {
      more, s' := PatientGetStuck(m, s, f, msg);
    } else if !AllAwake(sub) {
      more, s' := SleeperGetsStuck(m, s, f, msg);
    } else {
      var a, s1 := QueueRunsEmpty(m, s, f);
      var b;
      b, s' := PatientGetStuck(m, s1, f, msg);
      LeadsOn(m, s, a, s1, b, s');
      more := a + b;
    }
  }

  /**
   * Exactly when wake-ups suffice, in every reachable state: without a further entry no continuation leaves
   * a getter of the subscription stuck on a message if and only if the handle is safe.
   */
  lemma {:induction false} WakeUpsSufficeIff(m: Matcher, run: seq<Event>, f: string, msg: Message)
    requires After(m, run).Some? && Reached(m, After(m, run).value, f, msg)
    ensures var s := After(m, run).value;
            var h := s.subs[f];
            (forall more: seq<Event> | After(m, run + more).Some? && (forall e | e in more :: !Enters(e, f)) ::
               h in After(m, run + more).value.heap ==> !Stuck(After(m, run + more).value.heap[h])) <==>
            Safe(s.heap[h])
  {
    var s := After(m, run).value;
    var h := s.subs[f];
    RunKeepsInv(m, run);
    if Safe(s.heap[h]) {
      assert FilterWired(s, f) && SafeFor(s, f, h);
      forall more: seq<Event> | After(m, run + more).Some? && (forall e | e in more :: !Enters(e, f))
        ensures h in After(m, run + more).value.heap ==> !Stuck(After(m, run + more).value.heap[h])
      {
        StaysSafe(m, run, f, h, more);
        if h in After(m, run + more).value.heap {
          SafeIsNotStuck(After(m, run + more).value.heap[h]);
        }
      }
    } else {
      var more, s' := UnsafeGetsStuck(m, s, f, msg);
      LeadsContinues(m, run, s, more, s');
      assert forall e | e in more :: !Enters(e, f);
    }
  }

  lemma QuietIsSafe(s: Subscription)
    requires s.queue == [] && AllAsleep(s)
    ensures Safe(s) <==> AtMostOneInside(s)
  {
    assert Patient(s) == s.inside.Keys;
    if Safe(s) {
      forall t, u | t in s.inside && u in s.inside
        ensures t == u
      {
        Subset({t, u}, Patient(s));
      }
    } else {
      var t, u := Two(Patient(s));
    }
  }

  /** When the getters sleep on an empty queue, that is: if and only if at most one getter is inside. */
  lemma {:induction false} WakeUpsSufficeForOneSleeper(m: Matcher, run: seq<Event>, f: string, msg: Message)
    requires After(m, run).Some? && Quiet(m, After(m, run).value, f, msg)
    ensures var s := After(m, run).value;
            var h := s.subs[f];
            (forall more: seq<Event> | After(m, run + more).Some? && (forall e | e in more :: !Enters(e, f)) ::
               h in After(m, run + more).value.heap ==> !Stuck(After(m, run + more).value.heap[h])) <==>
            AtMostOneInside(s.heap[h])
  {
    WakeUpsSufficeIff(m, run, f, msg);
    QuietIsSafe(After(m, run).value.heap[After(m, run).value.subs[f]]);
  }

  // ---- a concrete run ---------------------------------------------------------------------

  const TO_ALL: Matcher := (f: string, t: string) => Hit

  /** Thread 1 is notified for the first of two messages; nobody is notified for the second. */
  function TwoGetters(a: Message, b: Message): seq<Event> {
    [Add("#", false, 0)] + [EnterGet("#", 1)] + [EnterGet("#", 2)] + [Receive(a, [0])] + [Deliver(Some(1))] +
    [Receive(b, [0])] + [Deliver(None)] + [Resume(0, 1)]
  }

  /** One get-style subscription to "#", and what the loop and the log say. */
  function Scene(sub: Subscription, loop: Loop, log: seq<Message>, received: seq<Message>): State {
    State(map["#" := 0], map[0 := sub], loop, log, map[0 := Record("#", 0, None)], map[0 := received], false)
  }

  lemma SceneReceive(sub: Subscription, a: Message, log: seq<Message>, received: seq<Message>)
    ensures Enabled(TO_ALL, Scene(sub, Idle, log, received), Receive(a, [0]))
    ensures Next(TO_ALL, Scene(sub, Idle, log, received), Receive(a, [0])) ==
            Scene(sub, Delivering(a, [0]), log + [a], received)
  {
    var s := Scene(sub, Idle, log, received);
    assert s.subs["#"] == 0;
    assert TO_ALL("#", a.topic) == Hit;
    assert Matching(TO_ALL, s, a.topic, 0);
  }

  lemma SceneDeliver(sub: Subscription, a: Message, log: seq<Message>, received: seq<Message>, woken: Option<Thread>)
    requires MayWake(sub, woken)
    ensures Enabled(TO_ALL, Scene(sub, Delivering(a, [0]), log, received), Deliver(woken))
    ensures Next(TO_ALL, Scene(sub, Delivering(a, [0]), log, received), Deliver(woken)) ==
            Scene(AddMessage(sub, a, woken), Idle, log, received + [a])
  {
    var s := Scene(sub, Delivering(a, [0]), log, received);
    assert s.subs["#"] == 0 && 0 in s.subs.Values;
    var s' := Next(TO_ALL, s, Deliver(woken));
    assert s'.heap == map[0 := AddMessage(sub, a, woken)];
    assert s'.received == map[0 := received + [a]];
  }

  lemma SceneGetter(sub: Subscription, t: Thread, log: seq<Message>, received: seq<Message>)
    ensures var s := Scene(sub, Idle, log, received);
            && (!sub.callback && t !in sub.inside ==>
                  Enabled(TO_ALL, s, EnterGet("#", t)) &&
                  Next(TO_ALL, s, EnterGet("#", t)) == Scene(Enter(sub, t), Idle, log, received))
            && (t in sub.inside && sub.inside[t].Awake? ==>
                  Enabled(TO_ALL, s, Resume(0, t)) &&
                  Next(TO_ALL, s, Resume(0, t)) == Scene(LookAgain(sub, t), Idle, log, received))
  {
  }

  /** A message arrives for the scene's subscription and is put into its queue. */
  lemma SceneMessage(run: seq<Event>, sub: Subscription, a: Message, log: seq<Message>, woken: Option<Thread>)
    requires After(TO_ALL, run) == Some(Scene(sub, Idle, log, log)) && MayWake(sub, woken)
    ensures After(TO_ALL, run + [Receive(a, [0])] + [Deliver(woken)]) ==
            Some(Scene(AddMessage(sub, a, woken), Idle, log + [a], log + [a]))
  {
    SceneReceive(sub, a, log, log);
    OneStep(TO_ALL, run, Receive(a, [0]));
    SceneDeliver(sub, a, log + [a], log, woken);
    OneStep(TO_ALL, run + [Receive(a, [0])], Deliver(woken));
  }

  lemma BothGettersSleep() returns (run: seq<Event>, s: Subscription)
    ensures run == [Add("#", false, 0)] + [EnterGet("#", 1)] + [EnterGet("#", 2)]
    ensures s == Subscription(false, [], [], map[1 := Asleep, 2 := Asleep], true)
    ensures After(TO_ALL, run) == Some(Scene(s, Idle, [], []))
  {
    run := [Add("#", false, 0)];
    OneStep(TO_ALL, [], Add("#", false, 0));
    assert [] + [Add("#", false, 0)] == run;
    s := NewSubscription(false);
    SceneGetter(s, 1, [], []);
    OneStep(TO_ALL, run, EnterGet("#", 1));
    run, s := run + [EnterGet("#", 1)], Enter(s, 1);
    SceneGetter(s, 2, [], []);
    OneStep(TO_ALL, run, EnterGet("#", 2));
    run, s := run + [EnterGet("#", 2)], Enter(s, 2);
  }

  /** With two getters one can sleep on a message although nobody else is inside to take it. */
  lemma TwoGettersLoseAWakeUp(a: Message, b: Message)
    ensures After(TO_ALL, TwoGetters(a, b)).Some?
    ensures var s := After(TO_ALL, TwoGetters(a, b)).value;
            0 in s.heap && s.heap[0].inside == map[2 := Asleep] && s.heap[0].queue == [b]
  {
    var run, s := BothGettersSleep();
    var one := Subscription(false, [a], [], map[1 := Awake(false), 2 := Asleep], true);
    assert Sleeps(s, 1) && AddMessage(s, a, Some(1)) == one;
    SceneMessage(run, s, a, [], Some(1));
    run := run + [Receive(a, [0])] + [Deliver(Some(1))];
    SceneMessage(run, one, b, [] + [a], None);
    run := run + [Receive(b, [0])] + [Deliver(None)];
    LastGetterTakesFirst(a, b, one, run, [] + [a] + [b]);
  }

  lemma LastGetterTakesFirst(a: Message, b: Message, one: Subscription, run: seq<Event>, log: seq<Message>)
    requires one == Subscription(false, [a], [], map[1 := Awake(false), 2 := Asleep], true)
    requires After(TO_ALL, run) == Some(Scene(AddMessage(one, b, None), Idle, log, log))
    ensures After(TO_ALL, run + [Resume(0, 1)]).Some?
    ensures var s := After(TO_ALL, run + [Resume(0, 1)]).value;
            0 in s.heap && s.heap[0].inside == map[2 := Asleep] && s.heap[0].queue == [b]
  {
    var two := AddMessage(one, b, None);
    SceneGetter(two, 1, log, log);
    OneStep(TO_ALL, run, Resume(0, 1));
    assert LookAgain(two, 1).inside == map[2 := Asleep];
  }
}
