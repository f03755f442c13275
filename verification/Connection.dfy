/**
 * The broker's side of the subscriptions: which topics the broker knows on the present session, while
 * one user thread connects, adds and removes, and the loop thread's callbacks fall in anywhere.
 */
module Connection {
  import opened Results

  /** Where the user thread is. A topic in hand has changed the map but not yet reached the broker. */
  datatype User =
    | Outside
    | Adding(topic: string)            // the map holds the topic
    | Subscribing(topic: string)       // and the connected flag was seen set
    | Removing(topic: string)
    | Unsubscribing(topic: string)
    | Connecting(requested: bool)      // a connect or reconnect call has been accepted
    | Resubscribing(todo: set<string>) // holding connected_mutex

  /** A callback the loop thread still has to run. */
  datatype Callback = NoCallback | OnConnect | OnDisconnect

  datatype State = State(
    keys: set<string>,      // topics in the subscription map
    connected: bool,        // the flag
    session: bool,          // the broker has accepted a connection that has not ended
    ledger: set<string>,    // topics subscribed minus unsubscribed on it
    user: User,
    callback: Callback,
    lasting: bool           // history: the connection the last wait observed lasts, and no request on it failed
  )

  const INIT := State({}, false, false, {}, Outside, NoCallback, false)

  datatype Event =
    | Add(topic: string)
    | Remove(topic: string)
    | SeeFlag                          // if (connected), after the map was changed
    | Request(accepted: bool)          // the subscribe or unsubscribe call
    | Connect
    | ConnectCall(accepted: bool)      // connect or reconnect
    | GiveUp                           // a timeout is thrown
    | Observe                          // the wait finds the flag set
    | Resubscribe(topic: string, accepted: bool)
    | Disconnect
    | SessionUp
    | SessionDown
    | RunCallback

  predicate MutexFree(s: State) { !s.user.Resubscribing? }

  predicate Enabled(s: State, e: Event) {
    match e
    case Add(_) => s.user.Outside?
    case Remove(_) => s.user.Outside?
    case SeeFlag => s.user.Adding? || s.user.Removing?
    case Request(_) => s.user.Subscribing? || s.user.Unsubscribing?
    case Connect => s.user.Outside?
    case ConnectCall(_) => s.user == Connecting(false)
    case GiveUp => s.user.Connecting?
    case Observe => s.user == Connecting(true) && s.connected
    case Resubscribe(t, _) => s.user.Resubscribing? && t in s.user.todo
    case Disconnect => s.user.Outside?
    case SessionUp => !s.session && s.callback.NoCallback?
    case SessionDown => s.callback.NoCallback?
    case RunCallback => !s.callback.NoCallback? && MutexFree(s)
  }

  function Resubscription(todo: set<string>): User {
    if todo == {} then Outside else Resubscribing(todo)
  }

  function Next(s: State, e: Event): State
    requires Enabled(s, e)
  {
    match e
    case Add(t) => s.(keys := s.keys + {t}, user := Adding(t))
    case Remove(t) => s.(keys := s.keys - {t}, user := Removing(t))
    case SeeFlag =>
      s.(user := if !s.connected then Outside
                 else if s.user.Adding? then Subscribing(s.user.topic) else Unsubscribing(s.user.topic))
    case Request(accepted) =>
      if !accepted then s.(user := Outside, lasting := false)
      else if s.user.Subscribing? then s.(ledger := s.ledger + {s.user.topic}, user := Outside)
      else s.(ledger := s.ledger - {s.user.topic}, user := Outside)
    case Connect =>
      if s.connected then s else s.(user := Connecting(false))
    case ConnectCall(accepted) =>
      // A session that is still there is given up.
      s.(session := false, ledger := {}, user := Connecting(accepted), lasting := false)
    case GiveUp => s.(user := Outside)
    case Observe => s.(user := Resubscription(s.keys), lasting := s.session)
    case Resubscribe(t, accepted) =>
      if accepted then s.(ledger := s.ledger + {t}, user := Resubscription(s.user.todo - {t}))
      else s.(user := Outside, lasting := false)
    case Disconnect => s.(lasting := false)
    case SessionUp => s.(session := true, ledger := {}, callback := OnConnect)
    case SessionDown => s.(session := false, ledger := {}, callback := OnDisconnect, lasting := false)
    case RunCallback => s.(connected := s.callback.OnConnect?, callback := NoCallback)
  }

  ghost function After(run: seq<Event>): Option<State> {
    if run == [] then Some(INIT)
    else
      var before := After(run[..|run| - 1]);
      var e := run[|run| - 1];
      if before.Some? && Enabled(before.value, e) then Some(Next(before.value, e)) else None
  }

  /** What the broker knows, up to the topic the user thread has in hand. */
  predicate InStep(s: State) {
    match s.user
    case Outside => s.ledger == s.keys
    case Adding(t) => s.ledger + {t} == s.keys
    case Subscribing(t) => s.ledger + {t} == s.keys
    case Removing(t) => s.ledger - {t} == s.keys
    case Unsubscribing(t) => s.ledger - {t} == s.keys
    case Connecting(_) => false
    case Resubscribing(todo) => todo <= s.keys && s.ledger == s.keys - todo
  }

  /** The map already says what the call in hand is about to tell the broker. */
  predicate InHand(s: State) {
    && (s.user.Adding? || s.user.Subscribing? ==> s.user.topic in s.keys)
    && (s.user.Removing? || s.user.Unsubscribing? ==> s.user.topic !in s.keys)
  }

  predicate Inv(s: State) {
    && (s.lasting ==> s.connected && s.session && InStep(s))
    && (s.session ==> !s.callback.OnDisconnect?)
    && (s.user == Connecting(true) ==> s.ledger == {})
    && InHand(s)
  }

  lemma StepKeepsInv(s: State, e: Event)
    requires Inv(s) && Enabled(s, e)
    ensures Inv(Next(s, e))
  {
    var s' := Next(s, e);
    if s'.lasting {
      match e {
        case Add(t) => assert s.ledger + {t} == s'.keys;
        case Remove(t) => assert s.ledger - {t} == s'.keys;
        case Resubscribe(t, _) => assert s'.ledger == s'.keys - (s.user.todo - {t});
        case Observe => assert s.ledger == s.keys - s.keys;
        case _ =>
      }
    }
  }

  lemma {:induction false} RunKeepsInv(run: seq<Event>)
    requires After(run).Some?
    ensures Inv(After(run).value)
  {
    if run == [] {
    } else {
      RunKeepsInv(run[..|run| - 1]);
      StepKeepsInv(After(run[..|run| - 1]).value, run[|run| - 1]);
    }
  }

  /**
   * Whenever the user thread is outside of every call, while the connection that connect_to_broker
   * waited for lasts, the broker knows exactly the topics of the map.
   */
  lemma BrokerKnowsTheMap(run: seq<Event>)
    requires After(run).Some? && After(run).value.lasting && After(run).value.user.Outside?
    ensures After(run).value.ledger == After(run).value.keys
  {
    RunKeepsInv(run);
  }

  /** Events that can end a lasting connection or show it to be broken. */
  predicate Disturbs(e: Event) {
    e.SessionDown? || e.Disconnect? || e == Request(false) || (e.Resubscribe? && !e.accepted)
  }

  /** Nothing else ends it: from the wait on, add, re-add, remove and stray callbacks leave it lasting. */
  lemma {:induction false} LastsUntilDisturbed(run: seq<Event>, more: seq<Event>)
    requires After(run).Some? && After(run).value.session && After(run + [Observe] + more).Some?
    requires forall e | e in more :: !Disturbs(e)
    ensures After(run + [Observe] + more).value.lasting
  {
    var full := run + [Observe] + more;
    if more == [] {
      assert full == run + [Observe];
      assert full[..|full| - 1] == run;
    } else {
      var before, e := more[..|more| - 1], more[|more| - 1];
      assert full[..|full| - 1] == run + [Observe] + before;
      LastsUntilDisturbed(run, before);
      RunKeepsInv(run + [Observe] + before);
      assert e in more;
    }
  }

  /** The last wait found a session standing, and nothing has disturbed it, nor begun a new one, since. */
  ghost predicate Lasts(run: seq<Event>) {
    run != [] &&
    var before, e := run[..|run| - 1], run[|run| - 1];
    if e.Observe? then After(before).Some? && After(before).value.session
    else !Disturbs(e) && !e.ConnectCall? && Lasts(before)
  }

  lemma {:induction false} LastingIsLasts(run: seq<Event>)
    requires After(run).Some?
    ensures After(run).value.lasting <==> Lasts(run)
  {
    if run == [] {
    } else {
      LastingIsLasts(run[..|run| - 1]);
    }
  }

  /** Both together: from the wait on, whatever else happens, the broker knows the map between calls. */
  lemma ConnectedBrokerKnowsTheMap(run: seq<Event>, more: seq<Event>)
    requires After(run).Some? && After(run).value.session && After(run + [Observe] + more).Some?
    requires forall e | e in more :: !Disturbs(e)
    requires After(run + [Observe] + more).value.user.Outside?
    ensures var s := After(run + [Observe] + more).value;
            s.connected && s.session && s.ledger == s.keys
  {
    LastsUntilDisturbed(run, more);
    RunKeepsInv(run + [Observe] + more);
  }

  /** An automatic reconnect sets the flag again, but the new session knows none of the topics, if there are any. */
  lemma ReconnectForgets(run: seq<Event>)
    requires After(run).Some? && After(run).value.session
    requires After(run).value.callback.NoCallback? && After(run).value.user.Outside?
    ensures var again := run + [SessionDown] + [RunCallback] + [SessionUp] + [RunCallback];
            && After(again).Some?
            && Connected(After(again).value) && After(again).value.user.Outside?
            && After(again).value.ledger == {} && After(again).value.keys == After(run).value.keys
            && (After(again).value.ledger == After(again).value.keys <==> After(run).value.keys == {})
  {
    OneStep(run, SessionDown);
    OneStep(run + [SessionDown], RunCallback);
    OneStep(run + [SessionDown] + [RunCallback], SessionUp);
    OneStep(run + [SessionDown] + [RunCallback] + [SessionUp], RunCallback);
  }

  // ---- the map, and nothing waits in vain -------------------------------------------------

  /** The last add or remove call about the topic was an add. */
  predicate Wanted(run: seq<Event>, t: string) {
    run != [] &&
    var e := run[|run| - 1];
    if e.Add? && e.topic == t then true
    else if e.Remove? && e.topic == t then false
    else Wanted(run[..|run| - 1], t)
  }

  lemma {:induction false} KeysFollowCalls(run: seq<Event>, t: string)
    requires After(run).Some?
    ensures t in After(run).value.keys <==> Wanted(run, t)
  {
    if run == [] {
    } else {
      KeysFollowCalls(run[..|run| - 1], t);
    }
  }

  /** The last thing that the broker took about the topic, on this session, was a subscription. */
  ghost predicate Subscribed(run: seq<Event>, t: string) {
    run != [] &&
    var before, e := run[..|run| - 1], run[|run| - 1];
    if e.SessionUp? || e.SessionDown? || e.ConnectCall? then false
    else if e == Resubscribe(t, true) then true
    else if e == Request(true) && After(before).Some? && After(before).value.user == Subscribing(t) then true
    else if e == Request(true) && After(before).Some? && After(before).value.user == Unsubscribing(t) then false
    else Subscribed(before, t)
  }

  lemma {:induction false} LedgerIsWhatTheBrokerTook(run: seq<Event>, t: string)
    requires After(run).Some?
    ensures t in After(run).value.ledger <==> Subscribed(run, t)
  {
    if run == [] {
    } else {
      LedgerIsWhatTheBrokerTook(run[..|run| - 1], t);
    }
  }

  /**
   * Callbacks fall in anywhere: a standing session can end, and a new one begin, whatever the user thread is
   * doing, and their callbacks wait only for the mutex that a resubscription holds.
   */
  lemma CallbacksFallInAnywhere(s: State)
    ensures s.callback.NoCallback? ==> Enabled(s, SessionDown) && (!s.session ==> Enabled(s, SessionUp))
    ensures !s.callback.NoCallback? && !s.user.Resubscribing? ==> Enabled(s, RunCallback)
  {
  }

  /** Between calls the user thread can begin any call; in a call the broker's answer can be either. */
  lemma UserIsNeverBlocked(s: State, t: string, accepted: bool)
    ensures s.user.Outside? ==>
              Enabled(s, Add(t)) && Enabled(s, Remove(t)) && Enabled(s, Connect) && Enabled(s, Disconnect)
    ensures s.user.Adding? || s.user.Removing? ==> Enabled(s, SeeFlag)
    ensures s.user.Subscribing? || s.user.Unsubscribing? ==> Enabled(s, Request(accepted))
    ensures s.user == Connecting(false) ==> Enabled(s, ConnectCall(accepted)) && Enabled(s, GiveUp)
    ensures s.user == Connecting(true) ==> Enabled(s, GiveUp) && (s.connected ==> Enabled(s, Observe))
    ensures s.user.Resubscribing? && t in s.user.todo ==> Enabled(s, Resubscribe(t, accepted))
  {
  }

  // ---- what a session comes to know ----------------------------------------------------

  /** The topic in hand. */
  function Hand(user: User): set<string> {
    if user.Adding? || user.Subscribing? || user.Removing? || user.Unsubscribing? then {user.topic} else {}
  }

  /** The topics of the add and remove calls that are begun. */
  function Touched(more: seq<Event>): set<string> {
    set e | e in more && (e.Add? || e.Remove?) :: e.topic
  }

  /** The session stands, the flag is set, and the user thread is not connecting. */
  predicate Connected(s: State) {
    s.connected && s.session && s.callback.NoCallback? && !s.user.Connecting? && !s.user.Resubscribing?
  }

  /** The broker knows about t what the map says. */
  predicate Agrees(s: State, t: string) { t in s.ledger <==> t in s.keys }

  /**
   * Since s0 the topics that were touched have come to agree, unless one is still in hand, and nothing has
   * happened to the others.
   */
  ghost predicate Since(s0: State, touched: set<string>, s: State) {
    && Connected(s) && Hand(s.user) <= touched && InHand(s)
    && (forall t | t in touched && t !in Hand(s.user) :: Agrees(s, t))
    && (forall t | t !in touched :: (t in s.keys <==> t in s0.keys) && (t in s.ledger <==> t in s0.ledger))
  }

  lemma StepKeepsSince(s0: State, touched: set<string>, s: State, e: Event)
    requires Since(s0, touched, s) && Enabled(s, e) && !Disturbs(e)
    ensures Since(s0, touched + Touched([e]), Next(s, e))
  {
    assert Touched([e]) == if e.Add? || e.Remove? then {e.topic} else {} by {
      assert e in [e];
    }
  }

  lemma {:induction false} RunKeepsSince(run: seq<Event>, more: seq<Event>)
    requires After(run).Some? && Connected(After(run).value)
    requires After(run + more).Some? && forall e | e in more :: !Disturbs(e)
    ensures Since(After(run).value, Hand(After(run).value.user) + Touched(more), After(run + more).value)
  {
    var s0 := After(run).value;
    var hand := Hand(s0.user);
    if more == [] {
      assert run + more == run;
      assert hand + Touched(more) == hand;
      RunKeepsInv(run);
    } else {
      var before, e := more[..|more| - 1], more[|more| - 1];
      assert (run + more)[..|run + more| - 1] == run + before;
      assert more == before + [e] && e in more;
      RunKeepsSince(run, before);
      StepKeepsSince(s0, hand + Touched(before), After(run + before).value, e);
      assert hand + Touched(before) + Touched([e]) == hand + Touched(more);
    }
  }

  /**
   * Exactly when the broker knows the map, whatever it knew before and whatever is done on the connection:
   * between calls, it does if and only if it already agreed with the map on every topic that no call has
   * been about since. A call that was under way at the begin counts.
   */
  lemma BrokerKnowsTheMapIff(run: seq<Event>, more: seq<Event>)
    requires After(run).Some? && Connected(After(run).value)
    requires After(run + more).Some? && After(run + more).value.user.Outside?
    requires forall e | e in more :: !Disturbs(e)
    ensures var s0, s := After(run).value, After(run + more).value;
            s.ledger == s.keys <==> forall t | t !in Hand(s0.user) && t !in Touched(more) :: Agrees(s0, t)
  {
    RunKeepsSince(run, more);
    var s0, s := After(run).value, After(run + more).value;
    if s.ledger == s.keys {
      forall t | t !in Hand(s0.user) && t !in Touched(more)
        ensures Agrees(s0, t)
      {
        assert t in s.keys <==> t in s0.keys;
      }
    }
    if forall t | t !in Hand(s0.user) && t !in Touched(more) :: Agrees(s0, t) {
      assert forall t :: Agrees(s, t);
    }
  }

  /**
   * After a reconnect, when the session knows nothing: between calls the broker knows the map if and only if
   * each of its topics was added, or removed and added, since then.
   */
  lemma ReconnectedKnowsTheMapIff(run: seq<Event>, more: seq<Event>)
    requires After(run).Some? && Connected(After(run).value)
    requires After(run).value.user.Outside? && After(run).value.ledger == {}
    requires After(run + more).Some? && After(run + more).value.user.Outside?
    requires forall e | e in more :: !Disturbs(e)
    ensures var s := After(run + more).value;
            s.ledger == s.keys <==>
            forall t | t in s.keys :: exists e :: e in more && (e.Add? || e.Remove?) && e.topic == t
  {
    RunKeepsSince(run, more);
    BrokerKnowsTheMapIff(run, more);
    var s0, s := After(run).value, After(run + more).value;
    assert forall t :: t in Touched(more) <==> exists e :: e in more && (e.Add? || e.Remove?) && e.topic == t;
    assert forall t | t !in Touched(more) :: t in s.keys <==> !Agrees(s0, t);
  }

  lemma OneStep(run: seq<Event>, e: Event)
    requires After(run).Some? && Enabled(After(run).value, e)
    ensures After(run + [e]) == Some(Next(After(run).value, e))
  {
    assert (run + [e])[..|run|] == run;
  }

  // ---- whole calls, run without interleaving ------------------------------------------

  function AddCall(s: State, t: string, accepted: bool): State
    requires s.user.Outside?
  {
    var s' := Next(Next(s, Add(t)), SeeFlag);
    if s'.user.Outside? then s' else Next(s', Request(accepted))
  }

  function RemoveCall(s: State, t: string, accepted: bool): State
    requires s.user.Outside?
  {
    var s' := Next(Next(s, Remove(t)), SeeFlag);
    if s'.user.Outside? then s' else Next(s', Request(accepted))
  }

  /** What a whole call does: the map changes, and the ledger too if the flag is set and the broker accepts. */
  lemma CallsChangeTheTopic(s: State, t: string, accepted: bool)
    requires s.user.Outside?
    ensures AddCall(s, t, accepted) ==
            s.(keys := s.keys + {t},
               ledger := if s.connected && accepted then s.ledger + {t} else s.ledger,
               lasting := s.lasting && (s.connected ==> accepted))
    ensures RemoveCall(s, t, accepted) ==
            s.(keys := s.keys - {t},
               ledger := if s.connected && accepted then s.ledger - {t} else s.ledger,
               lasting := s.lasting && (s.connected ==> accepted))
  {
  }

  lemma CallsKeepInv(s: State, t: string, accepted: bool)
    requires Inv(s) && s.user.Outside?
    ensures Inv(AddCall(s, t, accepted)) && Inv(RemoveCall(s, t, accepted))
  {
    StepKeepsInv(s, Add(t));
    StepKeepsInv(Next(s, Add(t)), SeeFlag);
    StepKeepsInv(s, Remove(t));
    StepKeepsInv(Next(s, Remove(t)), SeeFlag);
    if s.connected {
      StepKeepsInv(Next(Next(s, Add(t)), SeeFlag), Request(accepted));
      StepKeepsInv(Next(Next(s, Remove(t)), SeeFlag), Request(accepted));
    }
  }
}
